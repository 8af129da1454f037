/** Python string helpers the core relies on: `str.rstrip()` with no
    argument and the `f"{s:<15}"` left-aligned padding. */
module PyText {

  /** `str.isspace()` for one code point: the characters CPython treats as
      whitespace (bidirectional class WS, B or S, or category Zs). */
  predicate IsSpace(ch: char)
  {
    || ch == ' ' || ch == '\t' || ch == '\n' || ch == '\r'
    || ch == '\U{0B}' || ch == '\U{0C}'
    || ('\U{1C}' <= ch <= '\U{1F}')
    || ch == '\U{85}' || ch == '\U{A0}' || ch == '\U{1680}'
    || ('\U{2000}' <= ch <= '\U{200A}')
    || ch == '\U{2028}' || ch == '\U{2029}' || ch == '\U{202F}'
    || ch == '\U{205F}' || ch == '\U{3000}'
  }

  predicate AllSpace(s: string)
  {
    forall i :: 0 <= i < |s| ==> IsSpace(s[i])
  }

  /** `s.rstrip()`: the longest prefix of `s` that does not end in whitespace. */
  function Rstrip(s: string): (r: string)
    ensures r <= s
    ensures r == [] || !IsSpace(r[|r| - 1])
    ensures forall i :: |r| <= i < |s| ==> IsSpace(s[i])
  {
    if s == [] || !IsSpace(s[|s| - 1]) then s
    else Rstrip(s[..|s| - 1])
  }

  /** The three properties in Rstrip's contract determine its result. */
  lemma RstripUnique(s: string, r: string)
    requires r <= s
    requires r == [] || !IsSpace(r[|r| - 1])
    requires forall i :: |r| <= i < |s| ==> IsSpace(s[i])
    ensures r == Rstrip(s)
  {
    var t := Rstrip(s);
    assert |t| == 0 || t[|t| - 1] == s[|t| - 1];
    assert |r| == 0 || r[|r| - 1] == s[|r| - 1];
    assert |t| == |r|;
  }

  lemma RstripIdempotent(s: string)
    ensures Rstrip(Rstrip(s)) == Rstrip(s)
  {
    var r := Rstrip(s);
    RstripUnique(r, r);
  }

  /** Trailing whitespace never changes the stripped text: `"3\n"` and `"3"`
      strip to the same string. */
  lemma RstripIgnoresTrailingSpace(s: string, w: string)
    requires AllSpace(w)
    ensures Rstrip(s + w) == Rstrip(s)
  {
    var r := Rstrip(s);
    assert r <= s + w by {
      assert (s + w)[..|r|] == s[..|r|];
    }
    forall i | |r| <= i < |s + w| ensures IsSpace((s + w)[i]) {
      if i >= |s| {
        assert (s + w)[i] == w[i - |s|];
      }
    }
    RstripUnique(s + w, r);
  }

  /** Two strings strip equal exactly when they agree up to trailing whitespace. */
  lemma RstripEqualIff(a: string, b: string)
    ensures Rstrip(a) == Rstrip(b) <==>
            exists p, wa, wb :: AllSpace(wa) && AllSpace(wb) && a == p + wa && b == p + wb
  {
    if Rstrip(a) == Rstrip(b) {
      var p := Rstrip(a);
      assert a == p + a[|p|..];
      assert b == p + b[|p|..];
      assert AllSpace(a[|p|..]) && AllSpace(b[|p|..]);
    }
    if exists p, wa, wb :: AllSpace(wa) && AllSpace(wb) && a == p + wa && b == p + wb {
      var p, wa, wb :| AllSpace(wa) && AllSpace(wb) && a == p + wa && b == p + wb;
      RstripIgnoresTrailingSpace(p, wa);
      RstripIgnoresTrailingSpace(p, wb);
    }
  }

  /** `c * n`. */
  function Repeat(c: char, n: nat): (r: string)
    ensures |r| == n
    ensures forall i :: 0 <= i < n ==> r[i] == c
  {
    if n == 0 then [] else Repeat(c, n - 1) + [c]
  }

  function Spaces(n: nat): (r: string)
    ensures |r| == n && AllSpace(r)
    ensures forall i :: 0 <= i < n ==> r[i] == ' '
  {
    Repeat(' ', n)
  }

  /** `f"{s:<width}"`: pads on the right with spaces, never truncates. */
  function PadRight(s: string, width: nat): (r: string)
    ensures s <= r
    ensures |r| == if |s| < width then width else |s|
    ensures forall i :: |s| <= i < |r| ==> r[i] == ' '
  {
    if |s| < width then s + Spaces(width - |s|) else s
  }
}
