/** The string operations of ECMAScript that the relay and the recorder rely on. */
module Text {
  import opened Prelude

  /** The code points removed by `String.prototype.trimStart` (ECMA-262, WhiteSpace and LineTerminator). */
  predicate IsWhitespace(c: char) {
    || c in "\t\n\r \U{000B}\U{000C}\U{00A0}\U{1680}\U{2028}\U{2029}\U{202F}\U{205F}\U{3000}\U{FEFF}"
    || '\U{2000}' <= c <= '\U{200A}'
  }

  function TrimStart(s: string): (r: string)
    ensures r == "" || !IsWhitespace(r[0])
  {
    if s != "" && IsWhitespace(s[0]) then TrimStart(s[1..]) else s
  }

  predicate StartsWith(s: string, prefix: string) {
    |prefix| <= |s| && s[..|prefix|] == prefix
  }

  predicate Includes(s: string, sub: string) {
    exists i :: 0 <= i <= |s| && StartsWith(s[i..], sub)
  }

  function Join(parts: seq<string>, sep: string): string {
    if parts == [] then "" else if |parts| == 1 then parts[0] else parts[0] + sep + Join(parts[1..], sep)
  }

  lemma {:induction false} JoinSnoc(parts: seq<string>, last: string, sep: string)
    requires parts != []
    ensures Join(parts + [last], sep) == Join(parts, sep) + sep + last
  {
    if |parts| == 1 {
      assert (parts + [last])[1..] == [last];
    } else {
      assert (parts + [last])[1..] == parts[1..] + [last];
      JoinSnoc(parts[1..], last, sep);
      assert Join(parts + [last], sep) == parts[0] + sep + (Join(parts[1..], sep) + sep + last);
    }
  }

  /** Two adjacent line feeds at position i: a blank line. */
  predicate BlankAt(s: string, i: nat) {
    i + 2 <= |s| && s[i] == '\n' && s[i + 1] == '\n'
  }

  /** `s.indexOf("\n\n")`: the first blank line, if there is one. */
  function FirstBlank(s: string): (r: Option<nat>)
    ensures r.None? ==> forall i: nat :: !BlankAt(s, i)
    ensures r.Some? ==> BlankAt(s, r.value) && forall i: nat :: i < r.value ==> !BlankAt(s, i)
  {
    FirstBlankFrom(s, 0)
  }

  function FirstBlankFrom(s: string, from: nat): (r: Option<nat>)
    ensures r.None? ==> forall i: nat :: from <= i ==> !BlankAt(s, i)
    ensures r.Some? ==> from <= r.value && BlankAt(s, r.value)
    ensures r.Some? ==> forall i: nat :: from <= i < r.value ==> !BlankAt(s, i)
    decreases |s| - from
  {
    if |s| < from + 2 then None
    else if BlankAt(s, from) then Some(from)
    else FirstBlankFrom(s, from + 1)
  }

  /** `FirstBlank` is determined by what its contract says. */
  lemma FirstBlankIs(s: string, i: nat)
    requires BlankAt(s, i) && forall k: nat :: k < i ==> !BlankAt(s, k)
    ensures FirstBlank(s) == Some(i)
  {
    assert FirstBlank(s).Some?;
    var j := FirstBlank(s).value;
    assert !(j < i) && !(i < j);
  }
}
