/**
 * Python `str.format` with keyword arguments, as used for session keys:
 * literal text, `{{`/`}}` escapes and `{name}` replacement fields, with the
 * errors Python raises, in the left-to-right order it raises them.
 */
module Template {
  import opened Wrappers
  import opened JsonModel
  import Text

  datatype Piece = Lit(c: char) | Field(name: string)

  /** The pieces of a template up to the first syntax error, and that error if there is one. */
  datatype Parsed = Parsed(pieces: seq<Piece>, stop: Option<Exc>)

  function Cons(p: Piece, rest: Parsed): Parsed {
    Parsed([p] + rest.pieces, rest.stop)
  }

  /** Field text that would use attribute access, indexing, a conversion or a format spec. */
  predicate Unsupported(name: string) {
    '.' in name || '[' in name || '!' in name || ':' in name
  }

  function Parse(t: string): Parsed
    decreases |t|
  {
    if t == [] then Parsed([], None)
    else if t[0] == '{' && |t| > 1 && t[1] == '{' then Cons(Lit('{'), Parse(t[2..]))
    else if t[0] == '}' && |t| > 1 && t[1] == '}' then Cons(Lit('}'), Parse(t[2..]))
    else if t[0] == '}' then Parsed([], Some(ValueError("Single '}' encountered in format string")))
    else if t[0] == '{' then
      if '}' !in t then Parsed([], Some(ValueError("expected '}' before end of string")))
      else
        var k := Text.IndexOf(t, '}');
        var name := t[1..k];
        if '{' in name then Parsed([], Some(ValueError("unexpected '{' in field name")))
        else if Unsupported(name) then Parsed([], Some(ValueError("unsupported replacement field")))
        else Cons(Field(name), Parse(t[k + 1..]))
    else Cons(Lit(t[0]), Parse(t[1..]))
  }

  /** A field name Python reads as a positional index: "" or all digits. */
  predicate Positional(name: string) {
    forall i :: 0 <= i < |name| ==> '0' <= name[i] <= '9'
  }

  function RenderPiece(p: Piece, args: map<string, string>): Result<string> {
    match p
    case Lit(c) => Success([c])
    case Field(n) =>
      if n in args then Success(args[n])
      else if Positional(n) then Failure(IndexError)
      else Failure(KeyError(n))
  }

  function Render(ps: seq<Piece>, args: map<string, string>): Result<string>
    decreases |ps|
  {
    if ps == [] then Success("")
    else
      var head :- RenderPiece(ps[0], args);
      var rest :- Render(ps[1..], args);
      Success(head + rest)
  }

  /** `t.format(**args)` where every argument is already converted with `str`. */
  function Format(t: string, args: map<string, string>): Result<string> {
    var p := Parse(t);
    var s :- Render(p.pieces, args);
    if p.stop.Some? then Failure(p.stop.value) else Success(s)
  }

  /** `t.format(...)` on a configured value: only a string has `.format`. */
  function FormatValue(t: Json, args: map<string, string>): Result<string> {
    if t.Str? then Format(t.s, args) else Failure(AttributeError("format"))
  }

  predicate FieldsKnown(ps: seq<Piece>, args: map<string, string>) {
    forall i :: 0 <= i < |ps| && ps[i].Field? ==> ps[i].name in args
  }

  lemma {:induction false} RenderSucceedsIff(ps: seq<Piece>, args: map<string, string>)
    ensures Render(ps, args).Success? <==> FieldsKnown(ps, args)
    ensures !FieldsKnown(ps, args) ==> Render(ps, args).error.KeyError? || Render(ps, args).error.IndexError?
    decreases |ps|
  {
    if ps != [] {
      RenderSucceedsIff(ps[1..], args);
      if FieldsKnown(ps[1..], args) && (ps[0].Lit? || ps[0].name in args) {
        forall i | 0 <= i < |ps| && ps[i].Field? ensures ps[i].name in args {
          if i > 0 { assert ps[i] == ps[1..][i - 1]; }
        }
      } else if ps[0].Lit? || ps[0].name in args {
        var i :| 0 <= i < |ps[1..]| && ps[1..][i].Field? && ps[1..][i].name !in args;
        assert ps[i + 1] == ps[1..][i];
      }
    }
  }

  /** Formatting succeeds exactly when the template is well formed and every field it names is given. */
  lemma FormatSucceedsIff(t: string, args: map<string, string>)
    ensures Format(t, args).Success? <==> Parse(t).stop.None? && FieldsKnown(Parse(t).pieces, args)
    ensures Format(t, args).Failure? ==>
      (Format(t, args).error.KeyError? || Format(t, args).error.IndexError? || Format(t, args).error.ValueError?)
  {
    RenderSucceedsIff(Parse(t).pieces, args);
    assert forall e: Exc :: Parse(t).stop == Some(e) ==> e.ValueError? by {
      ParseStopsWithValueError(t);
    }
  }

  /** Formatting a configured value raises AttributeError (not a string), or what `str.format` raises. */
  lemma FormatValueErrors(t: Json, args: map<string, string>)
    ensures FormatValue(t, args).Failure? ==>
      var e := FormatValue(t, args).error;
      e.AttributeError? || e.KeyError? || e.IndexError? || e.ValueError?
  {
    if t.Str? {
      FormatSucceedsIff(t.s, args);
    }
  }

  lemma {:induction false} ParseStopsWithValueError(t: string)
    ensures Parse(t).stop.Some? ==> Parse(t).stop.value.ValueError?
    decreases |t|
  {
    if t == [] {
    } else if t[0] == '{' && |t| > 1 && t[1] == '{' {
      ParseStopsWithValueError(t[2..]);
    } else if t[0] == '}' && |t| > 1 && t[1] == '}' {
      ParseStopsWithValueError(t[2..]);
    } else if t[0] == '{' && '}' in t {
      var k := Text.IndexOf(t, '}');
      ParseStopsWithValueError(t[k + 1..]);
    } else if t[0] != '{' && t[0] != '}' {
      ParseStopsWithValueError(t[1..]);
    }
  }

  lemma {:induction false} BraceFreeParse(t: string)
    requires '{' !in t && '}' !in t
    ensures Parse(t) == Parsed(seq(|t|, i requires 0 <= i < |t| => Lit(t[i])), None)
    decreases |t|
  {
    if t != [] {
      BraceFreeParse(t[1..]);
    }
  }

  lemma {:induction false} RenderLiterals(t: string, args: map<string, string>)
    ensures Render(seq(|t|, i requires 0 <= i < |t| => Lit(t[i])), args) == Success(t)
    decreases |t|
  {
    if t != [] {
      var ps := seq(|t|, i requires 0 <= i < |t| => Lit(t[i]));
      assert ps[1..] == seq(|t[1..]|, i requires 0 <= i < |t[1..]| => Lit(t[1..][i]));
      RenderLiterals(t[1..], args);
      assert t == [t[0]] + t[1..];
    }
  }

  /** A template without braces formats to itself, whatever the arguments. */
  lemma BraceFreeFormat(t: string, args: map<string, string>)
    requires '{' !in t && '}' !in t
    ensures Format(t, args) == Success(t)
  {
    BraceFreeParse(t);
    RenderLiterals(t, args);
  }

  /** A replacement field followed by more template text. */
  lemma ParseField(name: string, rest: string)
    requires '{' !in name && '}' !in name && !Unsupported(name)
    ensures Parse("{" + name + "}" + rest) == Cons(Field(name), Parse(rest))
  {
    var t := "{" + name + "}" + rest;
    var k := |name| + 1;
    assert t[..k] == "{" + name;
    Text.IndexOfIsFirst(t, '}', k);
    assert t[1..k] == name;
    assert t[k + 1..] == rest;
  }

  /** A character other than a brace is literal text. */
  lemma ParseLit(c: char, rest: string)
    requires c != '{' && c != '}'
    ensures Parse([c] + rest) == Cons(Lit(c), Parse(rest))
  {
    assert ([c] + rest)[1..] == rest;
  }

  lemma RenderCons(p: Piece, ps: seq<Piece>, args: map<string, string>)
    requires RenderPiece(p, args).Success? && Render(ps, args).Success?
    ensures Render([p] + ps, args) == Success(RenderPiece(p, args).value + Render(ps, args).value)
  {
    assert ([p] + ps)[1..] == ps;
  }

  /** Doubled braces stand for single literal braces. */
  lemma EscapedBraces(args: map<string, string>)
    ensures Format("{{}}", args) == Success("{}")
  {
    var t := "{{}}";
    assert t[2..] == "}}";
    assert t[2..][2..] == "";
    assert Parse(t) == Parsed([Lit('{'), Lit('}')], None);
    RenderCons(Lit('}'), [], args);
    RenderCons(Lit('{'), [Lit('}')], args);
    assert [Lit('{')] + [Lit('}')] == [Lit('{'), Lit('}')];
    assert Render(Parse(t).pieces, args) == Success("{" + ("}" + ""));
    assert "{" + ("}" + "") == "{}";
  }

  /** A template whose first field names an argument that was not passed raises KeyError with that name,
      whatever follows it. */
  lemma UnknownFieldRaises(name: string, rest: string, args: map<string, string>)
    requires name !in args && !Positional(name)
    requires '{' !in name && '}' !in name && !Unsupported(name)
    ensures Format("{" + name + "}" + rest, args) == Failure(KeyError(name))
  {
    ParseField(name, rest);
  }

  /** Two fields separated by one literal character, such as the default session-key template `{groupId}:{converseId}`. */
  lemma TwoFieldTemplate(a: string, sep: char, b: string, args: map<string, string>)
    requires '{' !in a && '}' !in a && !Unsupported(a)
    requires '{' !in b && '}' !in b && !Unsupported(b)
    requires sep != '{' && sep != '}'
    requires a in args && b in args
    ensures Format("{" + a + "}" + [sep] + "{" + b + "}", args) == Success(args[a] + [sep] + args[b])
  {
    var tb := "{" + b + "}";
    var t := "{" + a + "}" + ([sep] + tb);
    assert t == "{" + a + "}" + [sep] + "{" + b + "}";
    ParseField(b, "");
    assert tb + "" == tb;
    ParseLit(sep, tb);
    ParseField(a, [sep] + tb);
    var ps := [Field(a), Lit(sep), Field(b)];
    assert Parse(t) == Parsed([Field(a)] + ([Lit(sep)] + [Field(b)]), None);
    RenderCons(Field(b), [], args);
    RenderCons(Lit(sep), [Field(b)], args);
    RenderCons(Field(a), [Lit(sep)] + [Field(b)], args);
    assert Render(Parse(t).pieces, args) == Success(args[a] + ([sep] + (args[b] + "")));
    assert args[a] + ([sep] + (args[b] + "")) == args[a] + [sep] + args[b];
  }

  /** Names made of ASCII letters only. */
  predicate Letters(s: string) {
    forall i :: 0 <= i < |s| ==> 'a' <= s[i] <= 'z' || 'A' <= s[i] <= 'Z'
  }

  lemma LettersPlain(s: string)
    requires Letters(s)
    ensures '{' !in s && '}' !in s && !Unsupported(s)
  {
  }

  lemma DefaultTemplateText()
    ensures "{" + "groupId" + "}" + [':'] + "{" + "converseId" + "}" == "{groupId}:{converseId}"
  {
  }

  /** The adapters' default `"{groupId}:{converseId}"` joins the two ids with a colon. */
  lemma GroupConverseTemplate(args: map<string, string>)
    requires "groupId" in args && "converseId" in args
    ensures Format("{groupId}:{converseId}", args) == Success(args["groupId"] + ":" + args["converseId"])
  {
    assert Letters("groupId") && Letters("converseId");
    LettersPlain("groupId");
    LettersPlain("converseId");
    TwoFieldTemplate("groupId", ':', "converseId", args);
    DefaultTemplateText();
  }

  /** The same template as a configured value. */
  lemma GroupConverseValue(t: Json, args: map<string, string>)
    requires t == Str("{groupId}:{converseId}")
    requires "groupId" in args && "converseId" in args
    ensures FormatValue(t, args) == Success(args["groupId"] + ":" + args["converseId"])
  {
    GroupConverseTemplate(args);
  }
}
