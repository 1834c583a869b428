/**
 * Masking of credentials in payload dumps (`redact_payload`, `_redact_value`,
 * `_is_sensitive_key`). Both utility modules carry the same code.
 */
module Redaction {
  import opened JsonModel
  import Text

  const SensitiveKeys: set<string> := {"token", "secret", "app_secret", "appsecret", "jwt", "authorization"}

  const Mask: Json := Str("***")

  /** `key.lower() in SENSITIVE_KEYS`. */
  predicate IsSensitiveKey(key: string) {
    Text.Lower(key) in SensitiveKeys
  }

  /** `_redact_value`: a fresh copy in which every sensitive key of every object maps to "***". The input,
      a value, is never changed, which is what the `deepcopy` in `redact_payload` ensures. */
  function RedactValue(v: Json): Json {
    match v
    case Obj(m) => Obj(map k | k in m :: if IsSensitiveKey(k) then Mask else RedactValue(m[k]))
    case Arr(xs) => Arr(seq(|xs|, i requires 0 <= i < |xs| => RedactValue(xs[i])))
    case _ => v
  }

  /** `redact_payload`. */
  function RedactPayload(payload: Json): Json {
    RedactValue(payload)
  }

  /** `r` keeps the shape of `v`: same kind, same key sets, same list lengths, equal scalars;
      only the values under sensitive keys may differ. */
  predicate Keeps(v: Json, r: Json) {
    match v
    case Obj(m) =>
      r.Obj? && r.fields.Keys == m.Keys
      && forall k :: k in m && !IsSensitiveKey(k) ==> Keeps(m[k], r.fields[k])
    case Arr(xs) =>
      r.Arr? && |r.items| == |xs| && forall i :: 0 <= i < |xs| ==> Keeps(xs[i], r.items[i])
    case _ => r == v
  }

  /** Every sensitive key anywhere in `v` maps to "***". */
  predicate Clean(v: Json) {
    match v
    case Obj(m) => forall k :: k in m ==> (if IsSensitiveKey(k) then m[k] == Mask else Clean(m[k]))
    case Arr(xs) => forall i :: 0 <= i < |xs| ==> Clean(xs[i])
    case _ => true
  }

  /** No sensitive key occurs anywhere in `v`. */
  predicate NoSensitiveKeys(v: Json) {
    match v
    case Obj(m) => forall k :: k in m ==> !IsSensitiveKey(k) && NoSensitiveKeys(m[k])
    case Arr(xs) => forall i :: 0 <= i < |xs| ==> NoSensitiveKeys(xs[i])
    case _ => true
  }

  /** Redaction keeps every key set, every list length and every non-sensitive scalar. */
  lemma {:induction false} RedactKeepsShape(v: Json)
    ensures Keeps(v, RedactValue(v))
  {
    match v
    case Obj(m) =>
      forall k | k in m && !IsSensitiveKey(k) ensures Keeps(m[k], RedactValue(v).fields[k]) {
        RedactKeepsShape(m[k]);
      }
    case Arr(xs) =>
      forall i | 0 <= i < |xs| ensures Keeps(xs[i], RedactValue(v).items[i]) {
        RedactKeepsShape(xs[i]);
      }
    case _ =>
  }

  /** Redaction masks every sensitive key, at every depth. */
  lemma {:induction false} RedactIsClean(v: Json)
    ensures Clean(RedactValue(v))
  {
    match v
    case Obj(m) =>
      var r := RedactValue(v).fields;
      forall k | k in r ensures if IsSensitiveKey(k) then r[k] == Mask else Clean(r[k]) {
        if !IsSensitiveKey(k) {
          RedactIsClean(m[k]);
        }
      }
    case Arr(xs) =>
      forall i | 0 <= i < |xs| ensures Clean(RedactValue(v).items[i]) {
        RedactIsClean(xs[i]);
      }
    case _ =>
  }

  /** A payload without sensitive keys comes back unchanged. */
  lemma {:induction false} RedactWithoutSecrets(v: Json)
    requires NoSensitiveKeys(v)
    ensures RedactValue(v) == v
  {
    match v
    case Obj(m) =>
      forall k | k in m ensures RedactValue(m[k]) == m[k] {
        RedactWithoutSecrets(m[k]);
      }
      assert RedactValue(v).fields == m;
    case Arr(xs) =>
      forall i | 0 <= i < |xs| ensures RedactValue(xs[i]) == xs[i] {
        RedactWithoutSecrets(xs[i]);
      }
      assert RedactValue(v).items == xs;
    case _ =>
  }

  /** Redacting twice is redacting once. */
  lemma {:induction false} RedactIdempotent(v: Json)
    ensures RedactValue(RedactValue(v)) == RedactValue(v)
  {
    match v
    case Obj(m) =>
      var r := RedactValue(v);
      forall k | k in m && !IsSensitiveKey(k) ensures RedactValue(r.fields[k]) == r.fields[k] {
        RedactIdempotent(m[k]);
      }
      assert RedactValue(r).fields == r.fields;
    case Arr(xs) =>
      var r := RedactValue(v);
      forall i | 0 <= i < |xs| ensures RedactValue(r.items[i]) == r.items[i] {
        RedactIdempotent(xs[i]);
      }
      assert RedactValue(r).items == r.items;
    case _ =>
  }

  /** The mask is the sensitive key's value whatever the key's letter case. */
  lemma SensitiveAnyCase()
    ensures IsSensitiveKey("Token") && IsSensitiveKey("APP_SECRET") && IsSensitiveKey("Authorization")
    ensures !IsSensitiveKey("tokens") && !IsSensitiveKey("user")
  {
    assert Text.Lower("Token") == "token";
    assert Text.Lower("APP_SECRET") == "app_secret";
    assert Text.Lower("Authorization") == "authorization";
    assert Text.Lower("tokens") == "tokens";
    assert Text.Lower("user") == "user";
  }
}
