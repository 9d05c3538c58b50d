/** Stripping surrounding white space, for any notion of white space. The
    client trims with JavaScript's `String.prototype.trim` and the server's
    fields strip with Python's `str.strip`; the two differ only in which
    characters count as white space, so both are `Strip` with their own
    character class. */
module Whitespace {

  /** Every character of `s` is white space for `sp`. */
  predicate AllIn(sp: char -> bool, s: string) {
    forall k :: 0 <= k < |s| ==> sp(s[k])
  }

  /** `s` without its leading white space. */
  function DropLeading(sp: char -> bool, s: string): string {
    if |s| > 0 && sp(s[0]) then DropLeading(sp, s[1..]) else s
  }

  /** What `DropLeading` removes is a blank prefix, and what it leaves does
      not start with white space. */
  lemma {:induction false} DropLeadingRemovesBlankPrefix(sp: char -> bool, s: string)
    ensures var r := DropLeading(sp, s);
      |r| <= |s| && r == s[|s| - |r|..] && AllIn(sp, s[..|s| - |r|]) && (r == [] || !sp(r[0]))
  {
    if |s| > 0 && sp(s[0]) {
      DropLeadingRemovesBlankPrefix(sp, s[1..]);
      var r := DropLeading(sp, s[1..]);
      assert s[..|s| - |r|] == [s[0]] + s[1..][..|s[1..]| - |r|];
    }
  }

  /** `s` without its trailing white space. */
  function DropTrailing(sp: char -> bool, s: string): string {
    if |s| > 0 && sp(s[|s| - 1]) then DropTrailing(sp, s[..|s| - 1]) else s
  }

  /** What `DropTrailing` removes is a blank suffix, and what it leaves does
      not end with white space. */
  lemma {:induction false} DropTrailingRemovesBlankSuffix(sp: char -> bool, s: string)
    ensures var r := DropTrailing(sp, s);
      |r| <= |s| && r == s[..|r|] && AllIn(sp, s[|r|..]) && (r == [] || !sp(r[|r| - 1]))
  {
    if |s| > 0 && sp(s[|s| - 1]) {
      DropTrailingRemovesBlankSuffix(sp, s[..|s| - 1]);
      var r := DropTrailing(sp, s[..|s| - 1]);
      assert s[|r|..] == s[..|s| - 1][|r|..] + [s[|s| - 1]];
    }
  }

  /** Both ends stripped. */
  function Strip(sp: char -> bool, s: string): string {
    DropTrailing(sp, DropLeading(sp, s))
  }

  /** The stripped string is the slice `s[i..j]` between a blank prefix and
      a blank suffix; unless it is empty, it starts and ends with a character
      that is not white space. */
  lemma StripBounds(sp: char -> bool, s: string) returns (i: nat, j: nat)
    ensures i <= j <= |s| && Strip(sp, s) == s[i..j]
    ensures AllIn(sp, s[..i]) && AllIn(sp, s[j..])
    ensures i < j ==> !sp(s[i]) && !sp(s[j - 1])
  {
    var t := DropLeading(sp, s);
    DropLeadingRemovesBlankPrefix(sp, s);
    DropTrailingRemovesBlankSuffix(sp, t);
    var r := DropTrailing(sp, t);
    i := |s| - |t|;
    j := i + |r|;
    assert r == s[i..j];
    assert s[j..] == t[|r|..];
    if i < j {
      assert s[i] == t[0] == r[0];
      assert s[j - 1] == r[|r| - 1];
    }
  }

  /** Stripping gives "" exactly for the strings made only of white space. */
  lemma StripEmptyIffBlank(sp: char -> bool, s: string)
    ensures Strip(sp, s) == "" <==> AllIn(sp, s)
    ensures |Strip(sp, s)| <= |s|
  {
    var i, j := StripBounds(sp, s);
    if i == j {
      forall k | 0 <= k < |s| ensures sp(s[k]) {
        if k < i {
          assert s[k] == s[..i][k];
        } else {
          assert s[k] == s[j..][k - j];
        }
      }
    }
  }

  /** Stripping removes exactly the outer white space: when `s[i..j]` starts
      and ends with a character that is not white space and has only white
      space around it, `s[i..j]` is what is left. */
  lemma StripExactly(sp: char -> bool, s: string, i: nat, j: nat)
    requires i < j <= |s| && !sp(s[i]) && !sp(s[j - 1])
    requires AllIn(sp, s[..i]) && AllIn(sp, s[j..])
    ensures Strip(sp, s) == s[i..j]
  {
    var a, b := StripBounds(sp, s);
    assert forall k :: 0 <= k < a ==> s[k] == s[..a][k];
    assert forall k :: b <= k < |s| ==> s[k] == s[b..][k - b];
    assert forall k :: 0 <= k < i ==> s[k] == s[..i][k];
    assert forall k :: j <= k < |s| ==> s[k] == s[j..][k - j];
    assert a <= i && j <= b;
    assert i <= a && b <= j;
  }

  /** A character that is not white space is in the stripped string exactly
      when it is in the string. */
  lemma StripKeeps(sp: char -> bool, s: string, c: char)
    requires !sp(c)
    ensures c in Strip(sp, s) <==> c in s
  {
    var i, j := StripBounds(sp, s);
    assert forall k :: 0 <= k < i ==> s[k] == s[..i][k];
    assert forall k :: j <= k < |s| ==> s[k] == s[j..][k - j];
    assert forall k :: i <= k < j ==> s[k] == s[i..j][k - i];
  }

  /** Stripping twice is stripping once. */
  lemma StripIdempotent(sp: char -> bool, s: string)
    ensures Strip(sp, Strip(sp, s)) == Strip(sp, s)
  {
    var i, j := StripBounds(sp, s);
    var r := s[i..j];
    if i < j {
      assert r[0] == s[i] && r[|r| - 1] == s[j - 1];
      assert r[..0] == [] && r[|r|..] == [];
      StripExactly(sp, r, 0, |r|);
      assert r[0..|r|] == r;
    }
  }
}
