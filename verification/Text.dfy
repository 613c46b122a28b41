/**
 Go strings. A Go string is a sequence of bytes; here it is a `string` with one character
 per byte, so lengths and indices are byte lengths and byte indices.
 */
module Text {

  /** Length of the white-space character that s starts with, 0 if it starts with none.
      Beyond ASCII these are the UTF-8 spellings of the Unicode White_Space characters. */
  function SpaceAtFront(s: string): (n: nat)
    ensures n <= |s|
  {
    if s == "" then 0
    else if '\t' <= s[0] <= '\r' || s[0] == ' ' then 1
    else if |s| >= 2 && s[0] as int == 0xC2 && (s[1] as int == 0x85 || s[1] as int == 0xA0) then 2
    else if |s| >= 3 && IsWideSpace(s[0] as int, s[1] as int, s[2] as int) then 3
    else 0
  }

  function SpaceAtBack(s: string): (n: nat)
    ensures n <= |s|
  {
    if s == "" then 0
    else if SpaceAtFront(s[|s| - 1..]) == 1 then 1
    else if |s| >= 2 && SpaceAtFront(s[|s| - 2..]) == 2 then 2
    else if |s| >= 3 && SpaceAtFront(s[|s| - 3..]) == 3 then 3
    else 0
  }

  predicate IsWideSpace(a: int, b: int, c: int) {
    || (a == 0xE1 && b == 0x9A && c == 0x80)
    || (a == 0xE2 && b == 0x80 && (0x80 <= c <= 0x8A || c == 0xA8 || c == 0xA9 || c == 0xAF))
    || (a == 0xE2 && b == 0x81 && c == 0x9F)
    || (a == 0xE3 && b == 0x80 && c == 0x80)
  }

  function TrimLeft(s: string): string
  {
    var n := SpaceAtFront(s);
    if n == 0 then s else TrimLeft(s[n..])
  }

  function TrimRight(s: string): string
  {
    var n := SpaceAtBack(s);
    if n == 0 then s else TrimRight(s[..|s| - n])
  }

  function TrimSpace(s: string): string { TrimRight(TrimLeft(s)) }

  function Lower(s: string): (r: string)
    ensures |r| == |s|
  {
    seq(|s|, i requires 0 <= i < |s| => if 'A' <= s[i] <= 'Z' then (s[i] as int + 32) as char else s[i])
  }

  /** The same but for the case of letters. */
  predicate SameLetters(a: string, b: string)
  {
    |a| == |b| && forall i | 0 <= i < |a| :: a[i] == b[i] || Cases(a[i], b[i]) || Cases(b[i], a[i])
  }

  predicate Cases(lower: char, upper: char) { 'A' <= upper <= 'Z' && lower as int == upper as int + 32 }

  lemma LowerFolds(a: string, b: string)
    ensures Lower(a) == Lower(b) <==> SameLetters(a, b)
  {
    if SameLetters(a, b) {
      assert forall i | 0 <= i < |a| :: Lower(a)[i] == Lower(b)[i];
    }
    if Lower(a) == Lower(b) {
      forall i | 0 <= i < |a| ensures a[i] == b[i] || Cases(a[i], b[i]) || Cases(b[i], a[i]) {
        assert |a| == |Lower(a)| == |Lower(b)| == |b|;
        assert Lower(a)[i] == Lower(b)[i];
      }
    }
  }

  function Upper(s: string): (r: string)
    ensures |r| == |s|
  {
    seq(|s|, i requires 0 <= i < |s| => if 'a' <= s[i] <= 'z' then (s[i] as int - 32) as char else s[i])
  }

  /** A text of plain ASCII without white space is left alone by trimming. */
  lemma TrimKeeps(s: string)
    requires s != "" ==> '!' <= s[0] <= '~' && '!' <= s[|s| - 1] <= '~'
    ensures TrimSpace(s) == s
  {
    assert SpaceAtFront(s) == 0 && TrimLeft(s) == s;
    if s != "" {
      assert s[|s| - 1..][0] == s[|s| - 1];
    }
    if |s| >= 2 {
      assert s[|s| - 2..][1] == s[|s| - 1];
    }
    if |s| >= 3 {
      assert s[|s| - 3..][2] == s[|s| - 1];
    }
    assert SpaceAtBack(s) == 0;
  }

  /** White space and nothing else. */
  predicate AllSpace(s: string)
  {
    s == "" || (SpaceAtFront(s) > 0 && AllSpace(s[SpaceAtFront(s)..]))
  }

  /** The white-space character a text starts with does not depend on what follows it. */
  lemma FrontLocal(a: string, s: string)
    requires a <= s && SpaceAtFront(s) <= |a|
    ensures SpaceAtFront(a) == SpaceAtFront(s)
  {
  }

  lemma {:induction false} SpaceAppend(a: string, b: string)
    requires AllSpace(a) && AllSpace(b)
    ensures AllSpace(a + b)
  {
    if a == "" {
      assert a + b == b;
    } else {
      var n := SpaceAtFront(a);
      assert (a + b)[n..] == a[n..] + b;
      SpaceAppend(a[n..], b);
    }
  }

  lemma {:induction false} TrimLeftExact(s: string) returns (i: nat)
    ensures i <= |s| && TrimLeft(s) == s[i..] && AllSpace(s[..i]) && SpaceAtFront(s[i..]) == 0
  {
    var n := SpaceAtFront(s);
    if n == 0 {
      i := 0;
    } else {
      var rest := TrimLeftExact(s[n..]);
      i := n + rest;
      FrontLocal(s[..i], s);
      assert s[..i][n..] == s[n..][..rest];
    }
  }

  lemma BackIsSpace(s: string)
    requires SpaceAtBack(s) > 0
    ensures AllSpace(s[|s| - SpaceAtBack(s)..])
  {
    var last := s[|s| - SpaceAtBack(s)..];
    assert SpaceAtFront(last) == |last| && last[|last|..] == "";
  }

  lemma {:induction false} TrimRightExact(s: string) returns (j: nat)
    ensures j <= |s| && TrimRight(s) == s[..j] && AllSpace(s[j..]) && SpaceAtBack(s[..j]) == 0
  {
    hide SpaceAtFront, SpaceAtBack;
    var n := SpaceAtBack(s);
    if n == 0 {
      j := |s|;
      assert s[..j] == s;
    } else {
      var front, last := s[..|s| - n], s[|s| - n..];
      j := TrimRightExact(front);
      BackIsSpace(s);
      SpaceAppend(front[j..], last);
      assert s[j..] == front[j..] + last && s[..j] == front[..j];
    }
  }

  /** Trimming takes white space from both ends, all of it, and nothing else. */
  lemma TrimSpaceExact(s: string) returns (i: nat, j: nat)
    ensures i <= j <= |s| && TrimSpace(s) == s[i..j] && AllSpace(s[..i]) && AllSpace(s[j..])
    ensures SpaceAtFront(s[i..j]) == SpaceAtBack(s[i..j]) == 0
  {
    hide SpaceAtFront, SpaceAtBack, TrimLeft, TrimRight, AllSpace;
    i := TrimLeftExact(s);
    var k := TrimRightExact(s[i..]);
    j := i + k;
    assert s[i..j] == s[i..][..k] && s[j..] == s[i..][k..];
    if SpaceAtFront(s[i..j]) > 0 {
      FrontLonger(s[i..j], s[i..]);
    }
  }

  lemma FrontLonger(a: string, s: string)
    requires a <= s && SpaceAtFront(a) > 0
    ensures SpaceAtFront(s) > 0
  {
  }
}
