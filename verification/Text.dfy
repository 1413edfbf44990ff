/** The string operations of the source's language that the model needs. */
module Text {

  /** The characters a bare `strip()` takes off. */
  predicate IsSpace(c: char) {
    var n := c as int;
    || 9 <= n <= 13 || 28 <= n <= 32 || n == 0x85 || n == 0xA0 || n == 0x1680
    || 0x2000 <= n <= 0x200A || n == 0x2028 || n == 0x2029 || n == 0x202F || n == 0x205F || n == 0x3000
  }

  function StripLeft(s: string): (r: string)
    ensures r == "" || !IsSpace(r[0])
    ensures |r| <= |s| && r == s[|s| - |r|..]
  {
    if s != "" && IsSpace(s[0]) then StripLeft(s[1..]) else s
  }

  function StripRight(s: string): (r: string)
    ensures r == "" || !IsSpace(r[|r| - 1])
    ensures |r| <= |s| && r == s[..|r|]
  {
    if s != "" && IsSpace(s[|s| - 1]) then StripRight(s[..|s| - 1]) else s
  }

  function Strip(s: string): string {
    StripRight(StripLeft(s))
  }

  /** No white space at either end. */
  predicate Trimmed(s: string) {
    s == "" || (!IsSpace(s[0]) && !IsSpace(s[|s| - 1]))
  }

  lemma StripTrims(s: string)
    ensures Trimmed(Strip(s))
    ensures Trimmed(s) ==> Strip(s) == s
  {
    var l := StripLeft(s);
    assert Strip(s) != "" ==> Strip(s)[0] == l[0];
  }

  predicate AllSpace(s: string) {
    forall i :: 0 <= i < |s| ==> IsSpace(s[i])
  }

  lemma {:induction false} StripLeftPadded(before: string, s: string)
    requires AllSpace(before) && (s == "" || !IsSpace(s[0]))
    ensures StripLeft(before + s) == s
    decreases |before|
  {
    if before == "" {
      assert before + s == s;
    } else {
      assert (before + s)[1..] == before[1..] + s;
      StripLeftPadded(before[1..], s);
    }
  }

  lemma {:induction false} StripRightPadded(s: string, after: string)
    requires AllSpace(after) && (s == "" || !IsSpace(s[|s| - 1]))
    ensures StripRight(s + after) == s
    decreases |after|
  {
    if after == "" {
      assert s + after == s;
    } else {
      assert (s + after)[..|s + after| - 1] == s + after[..|after| - 1];
      StripRightPadded(s, after[..|after| - 1]);
    }
  }

  /** White space around a trimmed string comes off, and nothing else. */
  lemma StripPadded(before: string, s: string, after: string)
    requires AllSpace(before) && AllSpace(after) && Trimmed(s)
    ensures Strip(before + s + after) == s
  {
    if s == "" {
      assert before + s + after == (before + after) + "";
      StripLeftPadded(before + after, "");
    } else {
      assert before + s + after == before + (s + after);
      StripLeftPadded(before, s + after);
      StripRightPadded(s, after);
    }
  }
}
