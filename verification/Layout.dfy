/**
 Where a finished job goes: one directory per category, one entry per job, with a name that fits
 a file system (internal/files/layout.go).
 */
module Layout {
  import opened Text
  import P = Paths

  const MAX_FILENAME_BYTES := 255

  // UTF-8, sections 3 and 4 of RFC 3629.

  function Byte(s: string, i: nat): int
    requires i < |s|
  { s[i] as int }

  predicate IsTail(b: int) { 0x80 <= b <= 0xBF }

  /** Length of the well-formed character s starts with, 0 if it starts with none. */
  function CharLen(s: string): (n: nat)
    ensures n <= 4 && n <= |s|
  {
    if s == "" then 0
    else
      var a := Byte(s, 0);
      if a < 0x80 then 1
      else if 0xC2 <= a <= 0xDF then
        if |s| >= 2 && IsTail(Byte(s, 1)) then 2 else 0
      else if 0xE0 <= a <= 0xEF then
        if |s| >= 3 && IsTail(Byte(s, 1)) && IsTail(Byte(s, 2))
           && (a == 0xE0 ==> Byte(s, 1) >= 0xA0) && (a == 0xED ==> Byte(s, 1) <= 0x9F) then 3 else 0
      else if 0xF0 <= a <= 0xF4 then
        if |s| >= 4 && IsTail(Byte(s, 1)) && IsTail(Byte(s, 2)) && IsTail(Byte(s, 3))
           && (a == 0xF0 ==> Byte(s, 1) >= 0x90) && (a == 0xF4 ==> Byte(s, 1) <= 0x8F) then 4 else 0
      else 0
  }

  predicate ValidUtf8(s: string)
  {
    s == "" || (CharLen(s) > 0 && ValidUtf8(s[CharLen(s)..]))
  }

  // Names.

  function Replaced(c: char): char
  {
    if c == '/' || c == '\\' || c == ':' || c == '*' || c == '?' || c == '"' || c == '<' || c == '>' || c == '|' then '_'
    else c
  }

  predicate DotOrSpace(c: char) { c == '.' || c == ' ' }

  function ReplaceReserved(s: string): (r: string)
    ensures |r| == |s|
  {
    seq(|s|, i requires 0 <= i < |s| => Replaced(s[i]))
  }

  function TrimDots(s: string): (r: string)
    ensures r != "" ==> !DotOrSpace(r[0]) && !DotOrSpace(r[|r| - 1])
  {
    if s != "" && DotOrSpace(s[0]) then TrimDots(s[1..])
    else if s != "" && DotOrSpace(s[|s| - 1]) then TrimDots(s[..|s| - 1])
    else s
  }

  function Sanitize(v: string): (r: string)
    ensures r != ""
  {
    var name := TrimDots(ReplaceReserved(TrimSpace(v)));
    if name == "" then "unnamed" else name
  }

  predicate NoReserved(s: string) { forall i | 0 <= i < |s| :: Replaced(s[i]) == s[i] }

  lemma {:induction false} TrimDotsKeeps(s: string)
    requires NoReserved(s)
    ensures NoReserved(TrimDots(s))
  {
    if s != "" && DotOrSpace(s[0]) {
      TrimDotsKeeps(s[1..]);
    } else if s != "" && DotOrSpace(s[|s| - 1]) {
      TrimDotsKeeps(s[..|s| - 1]);
    }
  }

  lemma SanitizedIsOrdinary(v: string)
    ensures P.Ordinary(Sanitize(v)) && NoReserved(Sanitize(v))
  {
    var all := ReplaceReserved(TrimSpace(v));
    assert NoReserved(all);
    TrimDotsKeeps(all);
    var r := Sanitize(v);
    assert r[0] != '.';
  }

  lemma SliceOfRest(s: string, a: nat, b: nat)
    requires a <= b < |s|
    ensures s[1..][a..b] == s[a + 1..b + 1]
  {
  }

  lemma {:induction false} TrimDotsExact(s: string) returns (i: nat, j: nat)
    ensures i <= j <= |s| && TrimDots(s) == s[i..j]
    ensures (forall k | 0 <= k < i :: DotOrSpace(s[k])) && (forall k | j <= k < |s| :: DotOrSpace(s[k]))
  {
    if s != "" && DotOrSpace(s[0]) {
      var a, b := TrimDotsExact(s[1..]);
      i, j := a + 1, b + 1;
      SliceOfRest(s, a, b);
      assert forall k | 1 <= k < |s| :: s[k] == s[1..][k - 1];
    } else if s != "" && DotOrSpace(s[|s| - 1]) {
      i, j := TrimDotsExact(s[..|s| - 1]);
      assert s[i..j] == s[..|s| - 1][i..j];
    } else {
      i, j := 0, |s|;
    }
  }

  lemma ReplacedExactly(c: char)
    ensures Replaced(c) == if c in "/\\:*?\"<>|" then '_' else c
  {
    var reserved := "/\\:*?\"<>|";
    assert reserved[0] == '/' && reserved[1] == '\\' && reserved[2] == ':' && reserved[3] == '*' && reserved[4] == '?';
    assert reserved[5] == '"' && reserved[6] == '<' && reserved[7] == '>' && reserved[8] == '|';
  }

  lemma DotsStay(c: char)
    ensures DotOrSpace(Replaced(c)) <==> DotOrSpace(c)
  {
  }

  /** A sanitised name is what was given, without white space around it and then without dots and
      spaces around it, each of nine characters in it replaced, or `unnamed` when nothing is left. */
  lemma SanitizeExact(v: string) returns (i: nat, j: nat)
    ensures var t, r := TrimSpace(v), Sanitize(v);
            && i <= j <= |t| && (forall k | 0 <= k < |t| && !(i <= k < j) :: t[k] == '.' || t[k] == ' ')
            && (if i == j then r == "unnamed"
                else t[i] != '.' && t[i] != ' ' && t[j - 1] != '.' && t[j - 1] != ' ' && |r| == j - i
                     && forall k | 0 <= k < |r| :: r[k] == if t[i + k] in "/\\:*?\"<>|" then '_' else t[i + k])
  {
    hide TrimSpace, TrimDots, Replaced;
    var t := TrimSpace(v);
    var all := ReplaceReserved(t);
    i, j := TrimDotsExact(all);
    forall k | 0 <= k < |t| ensures all[k] == (if t[k] in "/\\:*?\"<>|" then '_' else t[k]) {
      ReplacedExactly(t[k]);
    }
    forall k | 0 <= k < |t| ensures DotOrSpace(all[k]) <==> DotOrSpace(t[k]) {
      DotsStay(t[k]);
    }
  }

  /** Drops bytes from the end of name[..maxBytes] until what is left is valid UTF-8. */
  function LongestValid(s: string): (r: string)
    ensures r <= s && ValidUtf8(r)
    ensures forall k | |r| < k <= |s| :: !ValidUtf8(s[..k])
  {
    assert s[..|s|] == s;
    if ValidUtf8(s) then s
    else
      var r := LongestValid(s[..|s| - 1]);
      assert forall k | 0 <= k < |s| :: s[..|s| - 1][..k] == s[..k];
      r
  }

  function Truncated(name: string, maxBytes: int): string
  {
    if |name| <= maxBytes then name
    else if maxBytes <= 0 then ""
    else LongestValid(name[..maxBytes])
  }

  method TruncateName(name: string, maxBytes: int) returns (r: string)
    ensures r == Truncated(name, maxBytes)
  {
    if |name| <= maxBytes {
      return name;
    }
    if maxBytes <= 0 {
      return "";
    }
    r := name[..maxBytes];
    while !ValidUtf8(r)
      invariant r <= name[..maxBytes] && LongestValid(r) == LongestValid(name[..maxBytes])
      decreases |r|
    {
      r := r[..|r| - 1];
    }
    assert r[..|r|] == r;
  }

  // Cutting a valid text anywhere damages at most the last character.

  lemma {:induction false} ValidAppend(a: string, b: string)
    requires ValidUtf8(a) && ValidUtf8(b)
    ensures ValidUtf8(a + b)
  {
    if a == "" {
      assert a + b == b;
    } else {
      var n := CharLen(a);
      CharLenLocal(a, a + b);
      assert (a + b)[n..] == a[n..] + b;
      ValidAppend(a[n..], b);
    }
  }

  /** The first character of a text does not depend on what follows it. */
  lemma CharLenLocal(a: string, s: string)
    requires CharLen(a) > 0 && a <= s
    ensures CharLen(s) == CharLen(a)
  {
  }

  /** Within any cut of a valid text there is a valid prefix at most 3 bytes shorter. */
  lemma {:induction false} NearbyBoundary(s: string, cut: nat) returns (k: nat)
    requires ValidUtf8(s) && cut <= |s|
    ensures k <= cut <= k + 3 && ValidUtf8(s[..k])
  {
    var n := CharLen(s);
    if s == "" || cut < n {
      k := 0;
    } else {
      var rest := NearbyBoundary(s[n..], cut - n);
      k := rest + n;
      var first := s[..n];
      CharLenLocalPrefix(s, n);
      ValidAppend(first, s[n..][..rest]);
      assert first + s[n..][..rest] == s[..k];
    }
  }

  lemma CharLenLocalPrefix(s: string, n: nat)
    requires s != "" && n == CharLen(s) > 0
    ensures ValidUtf8(s[..n])
  {
    var first := s[..n];
    assert CharLen(first) == n && first[n..] == "";
  }

  /** A name that has to be cut keeps its longest valid prefix that fits, and a valid name loses at
      most 3 bytes more than the limit demands. */
  lemma TruncationIsTight(name: string, maxBytes: nat)
    requires |name| > maxBytes
    ensures var r := Truncated(name, maxBytes);
            && r <= name && |r| <= maxBytes && ValidUtf8(r)
            && (forall k | |r| < k <= maxBytes :: !ValidUtf8(name[..k]))
            && (ValidUtf8(name) ==> |r| + 3 >= maxBytes)
  {
    var head := name[..maxBytes];
    var r := Truncated(name, maxBytes);
    assert forall k | 0 <= k <= maxBytes :: head[..k] == name[..k];
    if ValidUtf8(name) {
      var k := NearbyBoundary(name, maxBytes);
    }
  }

  // The staging directory and the completed path of a job.

  function StagingPathForJob(staging: string, jobID: string): string { P.Join(staging, jobID) }

  /** Each job stages in its own directory directly below the staging root. */
  lemma StagingPathShape(cwd: string, staging: string, jobID: string)
    requires P.Rooted(cwd) && IsJobID(jobID)
    ensures P.AbsComps(cwd, StagingPathForJob(staging, jobID)) == P.AbsComps(cwd, staging) + [jobID]
  {
    assert jobID[0] != '.' && jobID[0] != '/';
    P.SplitOne(jobID);
    P.JoinBelow(cwd, staging, jobID);
  }

  function LastComponent(displayName: string, jobID: string): string
  {
    Truncated(Sanitize(TrimSpace(displayName)), MAX_FILENAME_BYTES - |"-" + jobID|) + ("-" + jobID)
  }

  function CompletedPathForJob(completed: string, category: string, displayName: string, jobID: string): string
  {
    P.Join(completed, Sanitize(TrimSpace(category)) + "/" + LastComponent(displayName, jobID))
  }

  /** A job id is 32 hexadecimal digits. */
  predicate IsJobID(id: string)
  {
    |id| == 32 && forall i | 0 <= i < |id| :: '0' <= id[i] <= '9' || 'a' <= id[i] <= 'f'
  }

  lemma NameAndID(cut: string, name: string, jobID: string)
    requires cut <= name && P.NoSlash(name) && IsJobID(jobID)
    ensures var last := cut + ("-" + jobID); P.Ordinary(last) && |last| == |cut| + 33 && last[|last| - 32..] == jobID
  {
    var last, tail := cut + ("-" + jobID), "-" + jobID;
    forall i | 0 <= i < |last| ensures last[i] != '/' {
      if i < |cut| {
        assert last[i] == name[i];
      } else {
        assert last[i] == tail[i - |cut|];
        assert i > |cut| ==> last[i] == jobID[i - |cut| - 1];
      }
    }
    assert last[|last| - 32..] == tail[1..] == jobID;
  }

  lemma LastComponentOrdinary(displayName: string, jobID: string)
    requires IsJobID(jobID)
    ensures var last := LastComponent(displayName, jobID);
            P.Ordinary(last) && 33 <= |last| <= MAX_FILENAME_BYTES && last[|last| - 32..] == jobID
  {
    var name := Sanitize(TrimSpace(displayName));
    SanitizedIsOrdinary(TrimSpace(displayName));
    if |name| > 222 {
      TruncationIsTight(name, 222);
    }
    NameAndID(Truncated(name, 222), name, jobID);
  }

  /** The last component is the sanitised display name, or its longest valid prefix that leaves room,
      then a hyphen and the job id. */
  lemma LastComponentExact(displayName: string, jobID: string)
    requires IsJobID(jobID)
    ensures var name, last := Sanitize(TrimSpace(displayName)), LastComponent(displayName, jobID);
            && |last| >= 33 && last[|last| - 33..] == "-" + jobID && last[..|last| - 33] <= name
            && (if |name| + 33 <= 255 then last == name + "-" + jobID
                else |last| <= 255 && ValidUtf8(last[..|last| - 33])
                     && forall k | |last| - 33 < k <= 222 :: !ValidUtf8(name[..k]))
  {
    hide Sanitize, TrimSpace, ValidUtf8, LongestValid;
    var name, tail := Sanitize(TrimSpace(displayName)), "-" + jobID;
    var cut := Truncated(name, 222);
    if |name| > 222 {
      TruncationIsTight(name, 222);
    }
    assert (cut + tail)[..|cut|] == cut && (cut + tail)[|cut|..] == tail;
    assert name + "-" + jobID == name + tail;
  }

  /** The completed path is two components below the completed root: the sanitised category, and the
      display name with the job id, at most 255 bytes long. */
  lemma CompletedPathShape(cwd: string, completed: string, category: string, displayName: string, jobID: string)
    requires P.Rooted(cwd) && IsJobID(jobID)
    ensures var last := LastComponent(displayName, jobID);
            && P.AbsComps(cwd, CompletedPathForJob(completed, category, displayName, jobID))
               == P.AbsComps(cwd, completed) + [Sanitize(TrimSpace(category)), last]
            && P.Ordinary(Sanitize(TrimSpace(category))) && P.Ordinary(last)
            && |last| <= 255 && last[|last| - 32..] == jobID
            && (|Sanitize(TrimSpace(displayName))| <= 222 ==> last == Sanitize(TrimSpace(displayName)) + "-" + jobID)
  {
    LastComponentExact(displayName, jobID);
    var cat, last := Sanitize(TrimSpace(category)), LastComponent(displayName, jobID);
    SanitizedIsOrdinary(TrimSpace(category));
    LastComponentOrdinary(displayName, jobID);
    P.SplitConcat(cat, last);
    P.SplitOne(cat);
    P.SplitOne(last);
    var rel := cat + "/" + last;
    assert P.Split(rel) == [cat, last];
    assert rel[0] == cat[0];
    P.JoinBelow(cwd, completed, rel);
  }

  /** Two jobs never share a completed path, nor does one lie inside the other's. */
  lemma CompletedPathsApart(cwd: string, completed: string, cat1: string, name1: string, id1: string,
                            cat2: string, name2: string, id2: string)
    requires P.Rooted(cwd) && IsJobID(id1) && IsJobID(id2) && id1 != id2
    ensures !(P.AbsComps(cwd, CompletedPathForJob(completed, cat1, name1, id1))
              <= P.AbsComps(cwd, CompletedPathForJob(completed, cat2, name2, id2)))
  {
    CompletedPathShape(cwd, completed, cat1, name1, id1);
    CompletedPathShape(cwd, completed, cat2, name2, id2);
    var a := P.AbsComps(cwd, CompletedPathForJob(completed, cat1, name1, id1));
    var b := P.AbsComps(cwd, CompletedPathForJob(completed, cat2, name2, id2));
    var top := |a| - 1;
    assert a[top] == LastComponent(name1, id1) && b[top] == LastComponent(name2, id2);
    assert a[top] != b[top] && |b| == |a|;
  }
}
