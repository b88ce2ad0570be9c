/** White space, as `str::trim` takes it. */
module Text {
  predicate Whitespace(c: char) {
    || '\t' <= c <= '\r' || c in " \U{0085}\U{00A0}\U{1680}\U{2028}\U{2029}\U{202F}\U{205F}\U{3000}"
    || '\U{2000}' <= c <= '\U{200A}'
  }

  predicate Blank(s: string) { forall i :: 0 <= i < |s| ==> Whitespace(s[i]) }

  /** The text without the white space around it. */
  function Trimmed(s: string): string
    decreases |s|
  {
    if s == "" then ""
    else if Whitespace(s[0]) then Trimmed(s[1..])
    else if Whitespace(s[|s| - 1]) then Trimmed(s[..|s| - 1])
    else s
  }

  lemma {:induction false} BlankExactly(s: string)
    ensures Blank(s) <==> Trimmed(s) == ""
    decreases |s|
  {
    if s != "" && Whitespace(s[0]) {
      BlankExactly(s[1..]);
      assert forall i :: 1 <= i < |s| ==> s[i] == s[1..][i - 1];
    } else if s != "" && Whitespace(s[|s| - 1]) {
      BlankExactly(s[..|s| - 1]);
      assert s[..|s| - 1][0] == s[0];
    }
  }
}
