/**
 * The adapter package's utilities: its own presence lookup (with a redundant
 * second return), `get_first`, and the `[\w\-]` variant of mention stripping.
 * Its redaction family is the `Redaction` module.
 */
module AdapterUtils {
  import opened JsonModel
  import opened Paths
  import Text
  import MentionText

  /** `get_first_with_presence`: a resolving path is returned whether or not its value is null or "". */
  method GetFirstWithPresence(data: Json, paths: seq<string>) returns (value: Json, found: bool)
    ensures Lookup(value, found) == FirstPresent(data, paths)
  {
    var i := 0;
    while i < |paths|
      invariant 0 <= i <= |paths|
      invariant FirstPresent(data, paths) == FirstPresent(data, paths[i..])
    {
      var parts := Parts(paths[i]);
      var current := data;
      var valid := true;
      var j := 0;
      while j < |parts|
        invariant 0 <= j <= |parts| && valid
        invariant Walk(data, parts) == Walk(current, parts[j..])
      {
        if current.Obj? && parts[j] in current.fields {
          current := current.fields[parts[j]];
        } else {
          valid := false;
          break;
        }
        j := j + 1;
      }
      assert paths[i..][0] == paths[i] && paths[i..][1..] == paths[i + 1..];
      if valid && !NullOrEmpty(current) {
        return current, true;
      }
      if valid {
        return current, true;
      }
      i := i + 1;
    }
    return Null, false;
  }

  /** `get_first`: the default only when no candidate resolves. */
  method GetFirst(data: Json, paths: seq<string>, default: Json) returns (r: Json)
    ensures r == FirstOr(data, paths, default)
  {
    var value, found := GetFirstWithPresence(data, paths);
    r := if found then value else default;
  }

  /** `\w` of Python's `re` on `str` patterns (Unicode 15): ASCII letters, digits and '_'; the letters and
      numbers of Latin-1, of CJK Symbols and Punctuation and of the Halfwidth and Fullwidth Forms, listed
      exactly (so `，` and `。` end a mention); nothing of General Punctuation; and, as an approximation,
      every other character that is not whitespace. */
  predicate IsWordChar(c: char) {
    var n := c as int;
    ('a' <= c <= 'z') || ('A' <= c <= 'Z') || ('0' <= c <= '9') || c == '_'
    || (0x80 <= n < 0x100 && Latin1Word(n))
    || (0x3000 <= n < 0x3040 && CjkSymbolWord(n))
    || (0xFF00 <= n < 0xFFF0 && FullwidthWord(n))
    || (0x100 <= n && !(0x2000 <= n < 0x2070) && !(0x3000 <= n < 0x3040) && !(0xFF00 <= n < 0xFFF0) && !Text.IsSpace(c))
  }

  /** The word characters of U+0080..U+00FF: ª, ² ³, µ, ¹ º, ¼..¾ and the letters other than × and ÷. */
  predicate Latin1Word(n: int) {
    n == 0xAA || 0xB2 <= n <= 0xB3 || n == 0xB5 || 0xB9 <= n <= 0xBA || 0xBC <= n <= 0xBE
    || 0xC0 <= n <= 0xD6 || 0xD8 <= n <= 0xF6 || 0xF8 <= n <= 0xFF
  }

  /** The word characters of U+3000..U+303F: 々 〆 〇, the Hangzhou numerals, the kana repeat marks and 〸..〼. */
  predicate CjkSymbolWord(n: int) {
    0x3005 <= n <= 0x3007 || 0x3021 <= n <= 0x3029 || 0x3031 <= n <= 0x3035 || 0x3038 <= n <= 0x303C
  }

  /** The word characters of U+FF00..U+FFEF: fullwidth digits and Latin letters, halfwidth katakana and hangul. */
  predicate FullwidthWord(n: int) {
    0xFF10 <= n <= 0xFF19 || 0xFF21 <= n <= 0xFF3A || 0xFF41 <= n <= 0xFF5A || 0xFF66 <= n <= 0xFFBE
    || 0xFFC2 <= n <= 0xFFC7 || 0xFFCA <= n <= 0xFFCF || 0xFFD2 <= n <= 0xFFD7 || 0xFFDA <= n <= 0xFFDC
  }

  /** The run class `[\w\-]`. */
  predicate WordOrHyphen(c: char) {
    IsWordChar(c) || c == '-'
  }

  /** `strip_mention_text`: empty text is returned as it is; otherwise `<@...>` spans and `@` + word/hyphen runs
      are removed and whitespace is collapsed, so no '@' is left in front of a word character or hyphen. */
  function StripMentionText(text: string): (r: string)
    ensures text == "" ==> r == ""
    ensures Text.NormalSpacing(r)
    ensures forall i :: 0 <= i < |r| - 1 && r[i] == '@' ==> !WordOrHyphen(r[i + 1])
  {
    MentionText.StripMentionsClean(text, WordOrHyphen);
    MentionText.StripMentions(text, WordOrHyphen)
  }

  /** Text without any '@' is kept word for word; only its whitespace is collapsed. */
  lemma StripKeepsPlainText(text: string)
    requires '@' !in text
    ensures StripMentionText(text) == Text.Collapse(text)
  {
    MentionText.PlainTextCollapsed(text, WordOrHyphen);
  }

  /** One `@name` mention inside plain text becomes a space: the words before and after it are kept in order.
      The mention ends at the end of the text or at a character outside `[\w\-]`. */
  lemma StripReplacesOneMention(a: string, name: string, b: string)
    requires '@' !in a && '@' !in name && '@' !in b
    requires a == [] || a[|a| - 1] != '<'
    requires name != [] && forall i :: 0 <= i < |name| ==> WordOrHyphen(name[i])
    requires b == [] || !WordOrHyphen(b[0])
    ensures StripMentionText(a + "@" + name + b) == Text.Collapse(a + " " + b)
  {
    MentionText.ReplaceOneMention(a, name, b, WordOrHyphen);
  }

  /** A fullwidth comma is not a word character, so it ends the mention: `@bot，你好` keeps `，你好`. */
  lemma FullwidthCommaEndsMention()
    ensures StripMentionText("@bot，你好") == "，你好"
  {
    var b := "，你好";
    assert !WordOrHyphen(b[0]);
    StripReplacesOneMention("", "bot", b);
    assert "" + "@" + "bot" + b == "@bot，你好";
    assert Text.Words(" " + b) == Text.Words(b) by { assert (" " + b)[1..] == b; }
    assert Text.RunLength(b, c => !Text.IsSpace(c)) == |b|;
    assert b[..|b|] == b && b[|b|..] == [];
    assert Text.Words(b) == [b];
    assert "" + " " + b == " " + b;
  }

  /** A bare mention is replaced entirely: only whatever surrounds it survives. */
  lemma StripBareMention(name: string)
    requires name != [] && forall i :: 0 <= i < |name| ==> WordOrHyphen(name[i])
    ensures StripMentionText("@" + name) == ""
  {
    var s := "@" + name;
    assert MentionText.RemoveAngleMentions(s) == s by {
      MentionText.RemoveAngleShape(s);
      NoAngleInAtRun(s);
    }
    assert s[1..] == name;
    assert Text.RunLength(name, WordOrHyphen) == |name|;
    assert s[1 + |name|..] == [];
    assert MentionText.RemoveAtRuns(s, WordOrHyphen) == " ";
    assert Text.IsSpace(' ') && " "[1..] == [];
    assert Text.Words(" ") == [];
  }

  lemma NoAngleInAtRun(s: string)
    requires s != [] && s[0] == '@' && forall i :: 1 <= i < |s| ==> WordOrHyphen(s[i])
    ensures MentionText.RemoveAngleMentions(s) == s
    decreases |s|
  {
    var t := s[1..];
    assert MentionText.RemoveAngleMentions(s) == [s[0]] + MentionText.RemoveAngleMentions(t);
    NoAngleInWord(t);
    assert s == [s[0]] + t;
  }

  lemma {:induction false} NoAngleInWord(t: string)
    requires forall i :: 0 <= i < |t| ==> WordOrHyphen(t[i])
    ensures MentionText.RemoveAngleMentions(t) == t
    decreases |t|
  {
    if t != [] {
      assert !MentionText.AngleAtStart(t) by { assert t[0] != '<'; }
      NoAngleInWord(t[1..]);
      assert t == [t[0]] + t[1..];
    }
  }
}
