/**
 * Trimming, lower-casing and key syntax. Blanks are the white space and line terminators of ECMAScript. Lower-casing
 * covers every character whose lower case is an ASCII letter; the others cannot occur in a key or a hash.
 */
module TextRules {
  predicate InRanges(n: int, ranges: seq<(int, int)>) {
    ranges != [] && (ranges[0].0 <= n <= ranges[0].1 || InRanges(n, ranges[1..]))
  }

  /** Blanks outside ASCII. */
  const WIDE_BLANKS := [(0xA0, 0xA0), (0x1680, 0x1680), (0x2000, 0x200A), (0x2028, 0x2029), (0x202F, 0x202F),
                        (0x205F, 0x205F), (0x3000, 0x3000), (0xFEFF, 0xFEFF)]

  predicate Blank(c: char) {
    if c < '\U{80}' then c == ' ' || '\U{9}' <= c <= '\U{D}' else InRanges(c as int, WIDE_BLANKS)
  }

  const KELVIN_SIGN: char := '\U{212A}'

  function LowerChar(c: char): (r: char)
    ensures Blank(r) <==> Blank(c)
  {
    if Blank(c) then c else if 'A' <= c <= 'Z' then c - 'A' + 'a' else if c == KELVIN_SIGN then 'k' else c
  }

  function Lower(s: string): (r: string)
    ensures |r| == |s| && forall i :: 0 <= i < |s| ==> r[i] == LowerChar(s[i])
  {
    seq(|s|, i requires 0 <= i < |s| => LowerChar(s[i]))
  }

  function TrimStart(s: string): (r: string)
    ensures |r| <= |s| && (r == [] || !Blank(r[0]))
  {
    if s != [] && Blank(s[0]) then TrimStart(s[1..]) else s
  }

  function TrimEnd(s: string): (r: string)
    ensures r <= s && (r == [] || !Blank(r[|r| - 1]))
  {
    if s != [] && Blank(s[|s| - 1]) then TrimEnd(s[..|s| - 1]) else s
  }

  function Trim(s: string): (r: string)
    ensures Trimmed(r)
  {
    TrimEnd(TrimStart(s))
  }

  predicate Trimmed(s: string) {
    s == [] || (!Blank(s[0]) && !Blank(s[|s| - 1]))
  }

  /** Only capital letters and the Kelvin sign change case. */
  lemma LowerChanges(c: char)
    ensures 'A' <= c <= 'Z' ==> LowerChar(c) as int == c as int + 32
    ensures !('A' <= c <= 'Z') && c != KELVIN_SIGN ==> LowerChar(c) == c
  {
  }

  lemma {:induction false} StartCuts(s: string)
    ensures var r := TrimStart(s);
            r == s[|s| - |r|..] && forall k :: 0 <= k < |s| - |r| ==> Blank(s[k])
  {
    if s != [] && Blank(s[0]) {
      StartCuts(s[1..]);
    }
  }

  lemma {:induction false} EndCuts(s: string)
    ensures forall k :: |TrimEnd(s)| <= k < |s| ==> Blank(s[k])
  {
    if s != [] && Blank(s[|s| - 1]) {
      EndCuts(s[..|s| - 1]);
    }
  }

  /** Trimming removes blanks from both ends and nothing else. */
  lemma TrimCuts(s: string) returns (i: nat, j: nat)
    ensures i <= j <= |s| && Trim(s) == s[i..j]
    ensures forall k :: 0 <= k < i || j <= k < |s| ==> Blank(s[k])
  {
    var t := TrimStart(s);
    StartCuts(s);
    EndCuts(t);
    i := |s| - |t|;
    j := i + |TrimEnd(t)|;
    forall k | j <= k < |s| ensures Blank(s[k]) {
      assert s[k] == t[k - i];
    }
  }

  lemma TrimmedStays(s: string)
    requires Trimmed(s)
    ensures Trim(s) == s && Trim(Lower(s)) == Lower(s) && Lower(Lower(s)) == Lower(s)
  {
    assert Trimmed(Lower(s));
    assert Lower(Lower(s)) == Lower(s);
  }

  predicate LowerAlnum(c: char) {
    'a' <= c <= 'z' || '0' <= c <= '9'
  }

  /** A lower-case key of at most 80 characters. */
  predicate IsKey(s: string) {
    && 1 <= |s| <= 80
    && LowerAlnum(s[0])
    && forall i :: 0 <= i < |s| ==> LowerAlnum(s[i]) || s[i] == '.' || s[i] == '_' || s[i] == '-'
  }

  predicate HexDigit(c: char) {
    '0' <= c <= '9' || 'a' <= c <= 'f' || 'A' <= c <= 'F'
  }

  /** A full commit hash, in either case. */
  predicate IsSha(s: string) {
    |s| == 40 && forall i :: 0 <= i < |s| ==> HexDigit(s[i])
  }

  lemma LowerSha(s: string)
    requires IsSha(s)
    ensures IsSha(Lower(s)) && Trimmed(s)
  {
  }
}
