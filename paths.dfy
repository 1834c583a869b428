/**
 * Dotted-path lookups over JSON payloads. Two semantics occur in the code:
 * "first candidate whose path fully resolves" (presence, even to null or "")
 * and "first candidate whose value is neither null nor empty".
 */
module Paths {
  import opened Wrappers
  import opened JsonModel
  import Text

  /** `path.split(".")`. */
  function Parts(path: string): seq<string> {
    Text.Split(path, '.')
  }

  /** Follows `parts` from `data`; None as soon as a segment is missing or the current value is not an object. */
  function Walk(data: Json, parts: seq<string>): Option<Json>
    decreases |parts|
  {
    if parts == [] then Some(data)
    else if data.Obj? && parts[0] in data.fields then Walk(data.fields[parts[0]], parts[1..])
    else None
  }

  function Resolve(data: Json, path: string): Option<Json> {
    Walk(data, Parts(path))
  }

  /** A walk over `a + b` is the walk over `a` continued over `b`. */
  lemma {:induction false} WalkAppend(data: Json, a: seq<string>, b: seq<string>)
    ensures Walk(data, a + b) == (match Walk(data, a) case Some(c) => Walk(c, b) case None => None)
    decreases |a|
  {
    if a != [] {
      assert (a + b)[1..] == a[1..] + b;
      if data.Obj? && a[0] in data.fields {
        WalkAppend(data.fields[a[0]], a[1..], b);
      }
    } else {
      assert a + b == b;
    }
  }

  /** Once the walk reaches a non-object, or an object missing the next segment, the whole lookup is None. */
  lemma WalkStops(data: Json, parts: seq<string>, k: nat, c: Json)
    requires k < |parts| && Walk(data, parts[..k]) == Some(c)
    requires !c.Obj? || parts[k] !in c.fields
    ensures Walk(data, parts) == None
  {
    WalkAppend(data, parts[..k], parts[k..]);
    assert parts[..k] + parts[k..] == parts;
  }

  /** Every step of a successful walk passes through an object holding the next segment. */
  lemma {:induction false} WalkThroughObjects(data: Json, parts: seq<string>, k: nat)
    requires Walk(data, parts).Some? && k < |parts|
    ensures Walk(data, parts[..k]).Some?
    ensures Walk(data, parts[..k]).value.Obj? && parts[k] in Walk(data, parts[..k]).value.fields
    decreases |parts|
  {
    if k > 0 {
      WalkThroughObjects(data.fields[parts[0]], parts[1..], k - 1);
      assert parts[..k][1..] == parts[1..][..k - 1];
    }
  }

  /** A lookup result together with whether some candidate path was present. */
  datatype Lookup = Lookup(value: Json, found: bool)

  /** `get_first_with_presence`: the value of the first candidate path that fully resolves. */
  function FirstPresent(data: Json, paths: seq<string>): Lookup
    decreases |paths|
  {
    if paths == [] then Lookup(Null, false)
    else match Resolve(data, paths[0])
      case Some(v) => Lookup(v, true)
      case None => FirstPresent(data, paths[1..])
  }

  /** FirstPresent finds exactly the first resolving candidate, null or "" included, and reports (None, false) otherwise. */
  lemma {:induction false} FirstPresentIsFirst(data: Json, paths: seq<string>)
    ensures FirstPresent(data, paths).found <==> exists i :: 0 <= i < |paths| && Resolve(data, paths[i]).Some?
    ensures FirstPresent(data, paths).found ==>
      exists i :: 0 <= i < |paths| && Resolve(data, paths[i]) == Some(FirstPresent(data, paths).value)
        && forall j :: 0 <= j < i ==> Resolve(data, paths[j]).None?
    ensures !FirstPresent(data, paths).found ==> FirstPresent(data, paths).value == Null
    decreases |paths|
  {
    if paths != [] {
      if Resolve(data, paths[0]).None? {
        FirstPresentIsFirst(data, paths[1..]);
        var r := FirstPresent(data, paths);
        if r.found {
          var i :| 0 <= i < |paths[1..]| && Resolve(data, paths[1..][i]) == Some(r.value)
            && forall j :: 0 <= j < i ==> Resolve(data, paths[1..][j]).None?;
          assert Resolve(data, paths[i + 1]) == Some(r.value);
          forall j | 0 <= j < i + 1 ensures Resolve(data, paths[j]).None? {
            if j > 0 { assert paths[j] == paths[1..][j - 1]; }
          }
        } else {
          forall i | 0 <= i < |paths| ensures Resolve(data, paths[i]).None? {
            if i > 0 { assert paths[i] == paths[1..][i - 1]; }
          }
        }
      }
    }
  }

  /** FirstPresent is the lookup of a candidate exactly when every earlier candidate is absent. */
  lemma FirstPresentAt(data: Json, paths: seq<string>, i: nat, v: Json)
    requires i < |paths| && Resolve(data, paths[i]) == Some(v)
    requires forall j :: 0 <= j < i ==> Resolve(data, paths[j]).None?
    ensures FirstPresent(data, paths) == Lookup(v, true)
  {
    FirstPresentIsFirst(data, paths);
    var k :| 0 <= k < |paths| && Resolve(data, paths[k]) == Some(FirstPresent(data, paths).value)
      && forall j :: 0 <= j < k ==> Resolve(data, paths[j]).None?;
    if k < i { } else if i < k { }
  }

  /** `get_first(data, paths, default)`. */
  function FirstOr(data: Json, paths: seq<string>, default: Json): Json {
    var l := FirstPresent(data, paths);
    if l.found then l.value else default
  }

  /** `get_first` gives the default exactly when no candidate is present; a present null is returned as it is. */
  lemma FirstOrDefault(data: Json, paths: seq<string>, default: Json)
    ensures (forall i :: 0 <= i < |paths| ==> Resolve(data, paths[i]).None?) ==> FirstOr(data, paths, default) == default
    ensures (exists i :: 0 <= i < |paths| && Resolve(data, paths[i]).Some?) ==>
      exists i :: 0 <= i < |paths| && Resolve(data, paths[i]) == Some(FirstOr(data, paths, default))
  {
    FirstPresentIsFirst(data, paths);
  }

  /** `config_get` steps: `.get(part)` on a dict (None when missing), None on any other value; a None step gives the default. */
  function ConfigWalk(current: Json, parts: seq<string>, default: Json): Json
    decreases |parts|
  {
    if parts == [] then current
    else
      var next := if current.Obj? then Get(current.fields, parts[0], Null) else Null;
      if next == Null then default else ConfigWalk(next, parts[1..], default)
  }

  function ConfigLookup(config: Json, path: string, default: Json): Json {
    ConfigWalk(config, Parts(path), default)
  }

  lemma {:induction false} ConfigWalkChar(current: Json, parts: seq<string>, default: Json)
    requires parts != []
    ensures match Walk(current, parts)
      case Some(v) => ConfigWalk(current, parts, default) == (if v == Null then default else v)
      case None => ConfigWalk(current, parts, default) == default
    decreases |parts|
  {
    if current.Obj? && parts[0] in current.fields && current.fields[parts[0]] != Null && |parts| > 1 {
      ConfigWalkChar(current.fields[parts[0]], parts[1..], default);
    } else if current.Obj? && parts[0] in current.fields && current.fields[parts[0]] != Null {
      var x := current.fields[parts[0]];
      assert parts[1..] == [];
      assert Walk(current, parts) == Walk(x, []) == Some(x);
      assert ConfigWalk(current, parts, default) == ConfigWalk(x, [], default) == x;
    } else if current.Obj? && parts[0] in current.fields && |parts| > 1 {
      assert Walk(Null, parts[1..]) == None;
    }
  }

  /** `config_get` returns the value at `path` whenever it is not None (False and 0 included), and the default otherwise. */
  lemma ConfigLookupChar(config: Json, path: string, default: Json)
    ensures Resolve(config, path).Some? && Resolve(config, path).value != Null ==>
      ConfigLookup(config, path, default) == Resolve(config, path).value
    ensures Resolve(config, path).None? || Resolve(config, path) == Some(Null) ==>
      ConfigLookup(config, path, default) == default
  {
    ConfigWalkChar(config, Parts(path), default);
  }

  /** `parse._get_first`: the first candidate value that resolves and is neither None nor "", else None. */
  function FirstNonEmpty(data: Json, paths: seq<string>): Json
    decreases |paths|
  {
    if paths == [] then Null
    else match Resolve(data, paths[0])
      case Some(v) => if !NullOrEmpty(v) then v else FirstNonEmpty(data, paths[1..])
      case None => FirstNonEmpty(data, paths[1..])
  }

  predicate Usable(r: Option<Json>) {
    r.Some? && !NullOrEmpty(r.value)
  }

  /** FirstNonEmpty skips absent, None and "" candidates, returns the first other one, and None when there is none. */
  lemma {:induction false} FirstNonEmptyIsFirst(data: Json, paths: seq<string>)
    ensures FirstNonEmpty(data, paths) != Str("")
    ensures FirstNonEmpty(data, paths) == Null <==> forall i :: 0 <= i < |paths| ==> !Usable(Resolve(data, paths[i]))
    ensures FirstNonEmpty(data, paths) != Null ==>
      exists i :: 0 <= i < |paths| && Resolve(data, paths[i]) == Some(FirstNonEmpty(data, paths))
        && forall j :: 0 <= j < i ==> !Usable(Resolve(data, paths[j]))
    decreases |paths|
  {
    if paths != [] && !Usable(Resolve(data, paths[0])) {
      FirstNonEmptyIsFirst(data, paths[1..]);
      var r := FirstNonEmpty(data, paths);
      assert r == FirstNonEmpty(data, paths[1..]);
      if r != Null {
        var i :| 0 <= i < |paths[1..]| && Resolve(data, paths[1..][i]) == Some(r)
          && forall j :: 0 <= j < i ==> !Usable(Resolve(data, paths[1..][j]));
        assert Resolve(data, paths[i + 1]) == Some(r);
        forall j | 0 <= j < i + 1 ensures !Usable(Resolve(data, paths[j])) {
          if j > 0 { assert paths[j] == paths[1..][j - 1]; }
        }
      } else {
        forall i | 0 <= i < |paths| ensures !Usable(Resolve(data, paths[i])) {
          if i > 0 { assert paths[i] == paths[1..][i - 1]; }
        }
      }
    } else if paths != [] {
      assert Usable(Resolve(data, paths[0]));
    }
  }
}
