/** JavaScript strings as the source sees them: sequences of UTF-16 code
    units, with `String.prototype.split` on a one-unit separator. */
module JsStrings {

  /** One UTF-16 code unit; JavaScript string indices and `charCodeAt` count these. */
  type CodeUnit = u: int | 0 <= u < 0x1_0000

  type JsString = seq<CodeUnit>

  /** The code unit of ':'. */
  const COLON: CodeUnit := 0x3A

  /** The code units of one character, as a JavaScript string literal holds it:
      one unit in the Basic Multilingual Plane, a surrogate pair above it. */
  function CodeUnitsOf(c: char): (units: JsString)
    ensures |units| == (if c as int < 0x1_0000 then 1 else 2)
    ensures c as int < 0x1_0000 ==> units[0] == c as int
  {
    var n := c as int;
    if n < 0x1_0000 then [n]
    else [0xD800 + (n - 0x1_0000) / 0x400, 0xDC00 + (n - 0x1_0000) % 0x400]
  }

  /** The JavaScript string that a literal with the characters of `s` denotes.
      A literal of Basic Multilingual Plane characters, such as the ASCII
      messages of the provider, has one code unit per character: its code. */
  function Utf16(s: string): (r: JsString)
    ensures (forall i :: 0 <= i < |s| ==> s[i] as int < 0x1_0000) ==>
      |r| == |s| && forall i :: 0 <= i < |s| ==> r[i] == s[i] as int
  {
    if s == [] then [] else CodeUnitsOf(s[0]) + Utf16(s[1..])
  }

  /** The fields of a split put back together, `sep` between neighbours
      (`Array.prototype.join`). */
  function Join(fields: seq<JsString>, sep: CodeUnit): JsString
    requires |fields| >= 1
    decreases |fields|
  {
    if |fields| == 1 then fields[0] else fields[0] + [sep] + Join(fields[1..], sep)
  }

  /** `s.split(sep)` for a one-unit separator: the maximal runs of units between
      separators, one more field than there are separators, so that the empty
      string gives one empty field and a separator at either end an empty field
      there. Join is its inverse. */
  function Split(s: JsString, sep: CodeUnit): (fields: seq<JsString>)
    ensures |fields| >= 1
    ensures Join(fields, sep) == s
    ensures forall i :: 0 <= i < |fields| ==> sep !in fields[i]
    decreases |s|
  {
    if s == [] then [[]]
    else
      var tail := Split(s[1..], sep);
      if s[0] == sep then [[]] + tail
      else
        var fields := [[s[0]] + tail[0]] + tail[1..];
        assert Join(fields, sep) == s by {
          if |tail| > 1 {
            assert Join(tail, sep) == tail[0] + [sep] + Join(tail[1..], sep);
          }
          assert s == [s[0]] + s[1..];
        }
        fields
  }

  /** A string without a separator is a single field. */
  lemma SplitNoSeparator(s: JsString, sep: CodeUnit)
    requires sep !in s
    ensures Split(s, sep) == [s]
  {
  }

  /** Splitting at the first separator: the part before it is the first field
      and the rest is split on its own. */
  lemma {:induction false} SplitAtFirst(p: JsString, q: JsString, sep: CodeUnit)
    requires sep !in p
    ensures Split(p + [sep] + q, sep) == [p] + Split(q, sep)
    decreases |p|
  {
    var s := p + [sep] + q;
    if p == [] {
      assert s[1..] == q;
    } else {
      assert s[1..] == p[1..] + [sep] + q;
      SplitAtFirst(p[1..], q, sep);
      assert [p[0]] + p[1..] == p;
    }
  }
}
