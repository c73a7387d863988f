/** The string operations the search boxes use: `toLowerCase`, `trim` and
    `includes`. Lower-casing is modelled over ASCII; trimming uses the full set
    of characters that ECMAScript's `trim` removes. */
module Text {

  /** Characters removed by ECMAScript's String.prototype.trim: the white space
      (tab, vertical tab, form feed, space, no-break space, byte-order mark and
      the Zs category) and the line terminators. */
  predicate IsWhite(c: char)
  {
    || c == '\t' || c == '\n' || c == '\U{B}' || c == '\U{C}' || c == '\r'
    || c == ' ' || c == '\U{A0}' || c == '\U{1680}'
    || ('\U{2000}' <= c <= '\U{200A}')
    || c == '\U{2028}' || c == '\U{2029}' || c == '\U{202F}' || c == '\U{205F}'
    || c == '\U{3000}' || c == '\U{FEFF}'
  }

  predicate IsUpper(c: char)
  {
    'A' <= c <= 'Z'
  }

  function LowerChar(c: char): (d: char)
    ensures !IsUpper(d)
    ensures IsUpper(c) ==> d as int == c as int + 32
    ensures !IsUpper(c) ==> d == c
  {
    if IsUpper(c) then (c as int + 32) as char else c
  }

  /** `s.toLowerCase()`, restricted to ASCII letters. */
  function Lower(s: string): (r: string)
    ensures |r| == |s|
    ensures forall i :: 0 <= i < |r| ==> !IsUpper(r[i])
    ensures forall i :: 0 <= i < |s| && IsUpper(s[i]) ==> r[i] as int == s[i] as int + 32
    ensures forall i :: 0 <= i < |r| && !IsUpper(s[i]) ==> r[i] == s[i]
  {
    seq(|s|, i requires 0 <= i < |s| => LowerChar(s[i]))
  }

  /** Lower-casing twice is lower-casing once, so matching against an already
      lower-cased term is stable. */
  lemma LowerIdempotent(s: string)
    ensures Lower(Lower(s)) == Lower(s)
  {
    var l := Lower(s);
    assert forall i :: 0 <= i < |l| ==> Lower(l)[i] == l[i];
  }

  /** Drops the leading white space. */
  function TrimStart(s: string): (r: string)
    ensures |r| <= |s| && r == s[|s| - |r|..]
    ensures r == [] || !IsWhite(r[0])
    ensures forall i :: 0 <= i < |s| - |r| ==> IsWhite(s[i])
  {
    if |s| > 0 && IsWhite(s[0]) then TrimStart(s[1..]) else s
  }

  /** Drops the trailing white space. */
  function TrimEnd(s: string): (r: string)
    ensures |r| <= |s| && r == s[..|r|]
    ensures r == [] || !IsWhite(r[|r| - 1])
    ensures forall i :: |r| <= i < |s| ==> IsWhite(s[i])
  {
    if |s| > 0 && IsWhite(s[|s| - 1]) then TrimEnd(s[..|s| - 1]) else s
  }

  /** `s.trim()`. */
  function Trim(s: string): string
  {
    TrimEnd(TrimStart(s))
  }

  /** What a trimmed string is: the piece `s[a..b]` of the input between two
      runs of white space, with no white space at either of its ends. */
  lemma TrimSlice(s: string) returns (a: nat, b: nat)
    ensures a <= b <= |s| && Trim(s) == s[a..b]
    ensures forall i :: 0 <= i < a ==> IsWhite(s[i])
    ensures forall i :: b <= i < |s| ==> IsWhite(s[i])
    ensures a < b ==> !IsWhite(s[a]) && !IsWhite(s[b - 1])
  {
    var t := TrimStart(s);
    a := |s| - |t|;
    var r := TrimEnd(t);
    b := a + |r|;
    assert s[a..b] == t[..|r|];
    forall i | b <= i < |s| ensures IsWhite(s[i]) {
      assert s[i] == t[i - a];
    }
  }

  /** The trimmed term is empty exactly when the input is white space only,
      which is when the controllers treat the search box as blank. */
  lemma TrimEmptyIff(s: string)
    ensures Trim(s) == [] <==> forall i :: 0 <= i < |s| ==> IsWhite(s[i])
  {
    var a, b := TrimSlice(s);
  }

  /** The search term as every controller prepares it:
      `term.toLowerCase().trim()`. */
  function Normalize(term: string): string
  {
    Trim(Lower(term))
  }

  /** `sub` occurs in `text` starting at position `i`. */
  predicate OccursAt(text: string, sub: string, i: int)
  {
    0 <= i && i + |sub| <= |text| && text[i..i + |sub|] == sub
  }

  /** `text.includes(sub)`. */
  function Contains(text: string, sub: string): bool
    decreases |text|
  {
    sub <= text || (|text| > 0 && Contains(text[1..], sub))
  }

  /** `Contains` holds exactly when `sub` occurs at some position of `text`. */
  lemma {:induction false} ContainsIff(text: string, sub: string)
    ensures Contains(text, sub) <==> exists i :: OccursAt(text, sub, i)
    decreases |text|
  {
    if sub <= text {
      assert OccursAt(text, sub, 0);
    } else if |text| > 0 {
      ContainsIff(text[1..], sub);
      forall i | 1 <= i
        ensures OccursAt(text, sub, i) <==> OccursAt(text[1..], sub, i - 1)
      {
        if i + |sub| <= |text| {
          var t := text[1..];
          assert forall k {:trigger t[i - 1 + k]} :: 0 <= k < |sub| ==> t[i - 1 + k] == text[i + k];
          assert t[i - 1..i - 1 + |sub|] == text[i..i + |sub|];
        }
      }
      if Contains(text[1..], sub) {
        var i :| OccursAt(text[1..], sub, i);
        assert OccursAt(text, sub, i + 1);
      }
    }
  }

  /** Every string contains the empty string, which is why the controllers test
      a blank term before they filter. */
  lemma ContainsEmpty(text: string)
    ensures Contains(text, [])
  {
  }
}
