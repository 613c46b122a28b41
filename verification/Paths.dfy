/**
 Lexical paths on Unix, after the documented rules of Go's path/filepath, and the two
 functions of internal/worker/helpers.go that keep remote names inside a directory:
 safeRelativePath and ensurePathWithinRoot.

 Everything is proved through components: `Split` and `Render` go between a path string and
 its components, and `Run` is the clean-up of components that Clean, Join, Abs and Rel share.
 */
module Paths {
  import opened Wrappers
  import opened Text

  /** The components of a cleaned path. */
  type Path = seq<string>

  /** A character put in front of pieces: a slash starts a new piece. */
  function Attach(c: char, pieces: seq<string>): (r: seq<string>)
    requires |pieces| >= 1
    ensures |r| >= 1
  {
    if c == '/' then [""] + pieces else pieces[0 := [c] + pieces[0]]
  }

  /** The pieces between slashes. */
  function Split(s: string): (r: seq<string>)
    ensures |r| >= 1
  {
    if s == "" then [""] else Attach(s[0], Split(s[1..]))
  }

  function Render(comps: seq<string>): string
  {
    if comps == [] then ""
    else if |comps| == 1 then comps[0]
    else comps[0] + "/" + Render(comps[1..])
  }

  predicate NoSlash(s: string) { forall i | 0 <= i < |s| :: s[i] != '/' }

  /** A component that names an entry of its directory. */
  predicate Ordinary(c: string) { c != "" && c != "." && c != ".." && NoSlash(c) }

  predicate AllOrdinary(comps: seq<string>) { forall i | 0 <= i < |comps| :: Ordinary(comps[i]) }

  predicate Rooted(s: string) { s != "" && s[0] == '/' }

  // Clean.

  /** One component on top of the components kept so far. */
  function Push(rooted: bool, stack: seq<string>, c: string): seq<string>
  {
    if c == "" || c == "." then stack
    else if c == ".." then
      if stack != [] && stack[|stack| - 1] != ".." then stack[..|stack| - 1]
      else if rooted then stack
      else stack + [c]
    else stack + [c]
  }

  function Run(rooted: bool, stack: seq<string>, comps: seq<string>): seq<string>
  {
    if comps == [] then stack
    else Push(rooted, Run(rooted, stack, comps[..|comps| - 1]), comps[|comps| - 1])
  }

  function Clean(s: string): string
  {
    var comps := Run(Rooted(s), [], Split(s));
    if Rooted(s) then "/" + Render(comps) else if comps == [] then "." else Render(comps)
  }

  function Join(a: string, b: string): string
  {
    if a == "" && b == "" then "" else if a == "" then Clean(b) else if b == "" then Clean(a) else Clean(a + "/" + b)
  }

  /** The absolute form of a path for a program whose working directory is cwd. */
  function Abs(cwd: string, p: string): string
  {
    if Rooted(p) then Clean(p) else Join(cwd, p)
  }

  function Ups(n: nat): seq<string> { seq(n, _ => "..") }

  function CommonPrefix(a: seq<string>, b: seq<string>): (k: nat)
    ensures k <= |a| && k <= |b| && a[..k] == b[..k]
    ensures k < |a| && k < |b| ==> a[k] != b[k]
  {
    if a != [] && b != [] && a[0] == b[0] then
      var k := CommonPrefix(a[1..], b[1..]) + 1;
      assert a[..k] == [a[0]] + a[1..][..k - 1] && b[..k] == [b[0]] + b[1..][..k - 1];
      k
    else 0
  }

  /** A path from base to target; None when there is none. */
  function Rel(base: string, target: string): Option<string>
  {
    var b, t := Run(Rooted(base), [], Split(base)), Run(Rooted(target), [], Split(target));
    if Rooted(base) != Rooted(target) then None
    else if b == t then Some(".")
    else
      var k := CommonPrefix(b, t);
      if k < |b| && b[k] == ".." then None
      else Some(Render(Ups(|b| - k) + t[k..]))
  }

  // The two guards.

  function Digits(n: nat): string
  {
    (if n < 10 then "" else Digits(n / 10)) + [('0' as int + n % 10) as char]
  }

  /** A number in decimal, with zeros in front up to three digits. */
  function Padded(n: nat): string
  {
    (if n < 10 then "00" else if n < 100 then "0" else "") + Digits(n)
  }

  function Fallback(idx: nat): string { "asset-" + Padded(idx) + ".bin" }

  predicate HasWindowsDrivePrefix(s: string)
  {
    |s| >= 2 && s[1] == ':' && ('a' <= s[0] <= 'z' || 'A' <= s[0] <= 'Z')
  }

  function ReplaceBackslashes(s: string): (r: string)
    ensures |r| == |s|
  {
    seq(|s|, i requires 0 <= i < |s| => if s[i] == '\\' then '/' else s[i])
  }

  function SafeName(name: string, idx: nat): string
  {
    if name == "." || Rooted(name) || HasWindowsDrivePrefix(name) then Fallback(idx)
    else
      var cleaned := Clean(name);
      if cleaned == "." || cleaned == "/" then Fallback(idx)
      else if exists i | 0 <= i < |Split(cleaned)| :: Split(cleaned)[i] in {"", ".", ".."} then Fallback(idx)
      else cleaned
  }

  function SafeRelativePath(value: string, idx: nat): string
  {
    var trimmed := TrimSpace(value);
    if trimmed == "" then Fallback(idx) else SafeName(ReplaceBackslashes(trimmed), idx)
  }

  predicate EnsurePathWithinRoot(cwd: string, root: string, target: string)
  {
    var rel := Rel(Abs(cwd, root), Abs(cwd, target));
    if rel.None? then false
    else
      !LeavesRoot(rel.value)
  }

  predicate LeavesRoot(rel: string) { Clean(rel) == ".." || "../" <= Clean(rel) }

  // Split and Render.

  lemma {:induction false} SplitNoSlash(s: string)
    ensures forall i | 0 <= i < |Split(s)| :: NoSlash(Split(s)[i])
  {
    if s != "" {
      SplitNoSlash(s[1..]);
    }
  }

  lemma {:induction false} SplitConcat(a: string, b: string)
    ensures Split(a + "/" + b) == Split(a) + Split(b)
  {
    var w := a + "/" + b;
    if a == "" {
      assert w[0] == '/' && w[1..] == b;
    } else {
      assert w[0] == a[0] && w[1..] == a[1..] + "/" + b;
      SplitConcat(a[1..], b);
      AttachMore(a[0], Split(a[1..]), Split(b));
    }
  }

  lemma AttachMore(c: char, pieces: seq<string>, more: seq<string>)
    requires |pieces| >= 1
    ensures Attach(c, pieces + more) == Attach(c, pieces) + more
  {
    assert (pieces + more)[0 := [c] + pieces[0]] == pieces[0 := [c] + pieces[0]] + more;
    assert [""] + (pieces + more) == [""] + pieces + more;
  }

  lemma {:induction false} SplitOne(c: string)
    requires NoSlash(c)
    ensures Split(c) == [c]
  {
    if c != "" {
      SplitOne(c[1..]);
      assert [c[0]] + c[1..] == c;
    }
  }

  lemma {:induction false} SplitRender(comps: seq<string>)
    requires comps != [] && forall i | 0 <= i < |comps| :: NoSlash(comps[i])
    ensures Split(Render(comps)) == comps
  {
    SplitOne(comps[0]);
    if |comps| > 1 {
      SplitRender(comps[1..]);
      SplitConcat(comps[0], Render(comps[1..]));
      assert [comps[0]] + comps[1..] == comps;
    } else {
      assert comps == [comps[0]];
    }
  }

  /** A path string is determined by its components. */
  lemma {:induction false} RenderSplit(s: string)
    ensures Render(Split(s)) == s
  {
    if s != "" {
      RenderSplit(s[1..]);
      var rest := Split(s[1..]);
      if s[0] != '/' {
        RenderFirst([s[0]] + rest[0], rest);
      }
    }
  }

  lemma RenderFirst(first: string, pieces: seq<string>)
    requires pieces != [] && |first| == |pieces[0]| + 1 && first[1..] == pieces[0]
    ensures Render(pieces[0 := first]) == [first[0]] + Render(pieces)
  {
    var changed := pieces[0 := first];
    assert changed[1..] == pieces[1..];
    assert first == [first[0]] + pieces[0];
  }

  // Run.

  lemma {:induction false} RunAppend(rooted: bool, stack: seq<string>, a: seq<string>, b: seq<string>)
    ensures Run(rooted, stack, a + b) == Run(rooted, Run(rooted, stack, a), b)
  {
    if b == [] {
      assert a + b == a;
    } else {
      assert (a + b)[..|a + b| - 1] == a + b[..|b| - 1];
      RunAppend(rooted, stack, a, b[..|b| - 1]);
    }
  }

  /** Ordinary components are kept as they are. */
  lemma {:induction false} RunOrdinary(rooted: bool, stack: seq<string>, comps: seq<string>)
    requires AllOrdinary(comps)
    ensures Run(rooted, stack, comps) == stack + comps
  {
    if comps != [] {
      RunOrdinary(rooted, stack, comps[..|comps| - 1]);
      assert comps == comps[..|comps| - 1] + [comps[|comps| - 1]];
    }
  }

  /** Cleaning an absolute path leaves ordinary components only. */
  lemma {:induction false} RunRooted(stack: seq<string>, comps: seq<string>)
    requires AllOrdinary(stack) && forall i | 0 <= i < |comps| :: NoSlash(comps[i])
    ensures AllOrdinary(Run(true, stack, comps))
  {
    if comps != [] {
      RunRooted(stack, comps[..|comps| - 1]);
    }
  }

  /** A cleaned relative path is some ".." and then ordinary components. */
  ghost predicate UpsThenOrdinary(comps: seq<string>)
  {
    forall i | 0 <= i < |comps| :: NoSlash(comps[i]) && comps[i] != "" && comps[i] != "."
                                && (comps[i] == ".." ==> forall j | 0 <= j < i :: comps[j] == "..")
  }

  lemma {:induction false} RunRelative(comps: seq<string>)
    requires forall i | 0 <= i < |comps| :: NoSlash(comps[i])
    ensures UpsThenOrdinary(Run(false, [], comps))
  {
    if comps != [] {
      RunRelative(comps[..|comps| - 1]);
      var kept := Run(false, [], comps[..|comps| - 1]);
      if kept != [] && kept[|kept| - 1] == ".." {
        assert forall j | 0 <= j < |kept| :: kept[j] == "..";
      }
    }
  }

  lemma {:induction false} RunUps(comps: seq<string>)
    requires UpsThenOrdinary(comps)
    ensures Run(false, [], comps) == comps
  {
    if comps != [] {
      var front, last := comps[..|comps| - 1], comps[|comps| - 1];
      RunUps(front);
      assert comps == front + [last];
      if last == ".." && front != [] {
        assert front[|front| - 1] == "..";
      }
    }
  }

  /** Cleaning a relative path first makes no difference to where it leads from an absolute one. */
  lemma {:induction false} RunCleaned(stack: seq<string>, comps: seq<string>)
    requires AllOrdinary(stack) && forall i | 0 <= i < |comps| :: NoSlash(comps[i])
    ensures Run(true, stack, Run(false, [], comps)) == Run(true, stack, comps)
  {
    if comps != [] {
      var front, c := comps[..|comps| - 1], comps[|comps| - 1];
      RunCleaned(stack, front);
      RunRooted(stack, front);
      var kept := Run(false, [], front);
      var next := Push(false, kept, c);
      if next == kept + [c] {
        assert next[..|next| - 1] == kept;
      } else if c == ".." {
        var name := kept[|kept| - 1];
        RunRelative(front);
        assert Run(true, stack, kept) == Push(true, Run(true, stack, next), name);
        assert Run(true, stack, kept) == Run(true, stack, next) + [name];
      }
    }
  }

  /** The cleaned components of an absolute path, or of a relative one below cwd. */
  function AbsComps(cwd: string, p: string): Path
  {
    Run(true, [], if Rooted(p) then Split(p) else Split(cwd) + Split(p))
  }

  lemma AbsCompsOrdinary(cwd: string, p: string)
    ensures AllOrdinary(AbsComps(cwd, p))
  {
    SplitNoSlash(p);
    SplitNoSlash(cwd);
    RunRooted([], if Rooted(p) then Split(p) else Split(cwd) + Split(p));
  }

  lemma CleanRootedComps(s: string)
    requires Rooted(s)
    ensures Rooted(Clean(s)) && Run(true, [], Split(Clean(s))) == Run(true, [], Split(s))
  {
    var comps := Run(true, [], Split(s));
    SplitNoSlash(s);
    RunRooted([], Split(s));
    var r := Render(comps);
    assert Clean(s) == "/" + r && ("/" + r)[1..] == r;
    assert Split(Clean(s)) == [""] + Split(r);
    RunAppend(true, [], [""], Split(r));
    assert Run(true, [], [""]) == [];
    if comps == [] {
      assert Split(r) == [""];
    } else {
      SplitRender(comps);
      RunOrdinary(true, [], comps);
    }
  }

  lemma CleanRelativeComps(s: string, stack: seq<string>)
    requires !Rooted(s) && AllOrdinary(stack)
    ensures !Rooted(Clean(s)) && Run(true, stack, Split(Clean(s))) == Run(true, stack, Split(s))
  {
    var comps := Run(false, [], Split(s));
    SplitNoSlash(s);
    RunRelative(Split(s));
    RunCleaned(stack, Split(s));
    if comps == [] {
      SplitOne(".");
      assert Run(true, stack, ["."]) == stack;
    } else {
      SplitRender(comps);
      RenderStart(comps);
    }
  }

  lemma RenderStart(comps: seq<string>)
    requires comps != [] && comps[0] != ""
    ensures Render(comps) != "" && Render(comps)[0] == comps[0][0]
  {
  }

  /** Abs is a cleaned absolute path with the components one expects. */
  lemma AbsHasComps(cwd: string, p: string)
    requires Rooted(cwd)
    ensures Rooted(Abs(cwd, p)) && Run(true, [], Split(Abs(cwd, p))) == AbsComps(cwd, p)
  {
    if Rooted(p) {
      CleanRootedComps(p);
    } else if p == "" {
      CleanRootedComps(cwd);
      RunAppend(true, [], Split(cwd), [""]);
      var base := Run(true, [], Split(cwd));
      assert Run(true, base, [""]) == base;
    } else {
      CleanRootedComps(cwd + "/" + p);
      SplitConcat(cwd, p);
    }
  }

  // The guard accepts exactly the paths at or below its root.

  lemma GuardOnComps(base: string, target: string, b: Path, t: Path)
    requires Rooted(base) && Rooted(target)
    requires b == Run(true, [], Split(base)) && t == Run(true, [], Split(target)) && AllOrdinary(b) && AllOrdinary(t)
    ensures Rel(base, target).Some? && (LeavesRoot(Rel(base, target).value) <==> !(b <= t))
  {
    if b == t {
      DotStays();
    } else {
      var k := CommonPrefix(b, t);
      UpsLeave(|b| - k, t[k..]);
      assert b <= t <==> k == |b|;
      assert Rel(base, target) == Some(Render(Ups(|b| - k) + t[k..]));
    }
  }

  lemma DotStays()
    ensures !LeavesRoot(".")
  {
    SplitOne(".");
    assert Run(false, [], ["."]) == [];
    assert Clean(".") == ".";
  }

  lemma UpsLeave(n: nat, down: Path)
    requires AllOrdinary(down) && Ups(n) + down != []
    ensures LeavesRoot(Render(Ups(n) + down)) <==> n > 0
  {
    var comps := Ups(n) + down;
    assert UpsThenOrdinary(comps);
    CleanRendered(comps);
    StartsWith(comps, "..");
    assert ".." + "/" == "../";
    assert comps[0] == if n > 0 then ".." else down[0];
  }

  lemma CleanRendered(comps: seq<string>)
    requires comps != [] && UpsThenOrdinary(comps)
    ensures Clean(Render(comps)) == Render(comps)
  {
    RenderStart(comps);
    assert comps[0][0] != '/' && !Rooted(Render(comps));
    SplitRender(comps);
    RunUps(comps);
  }

  lemma FirstPiece(r: string, c: string)
    requires NoSlash(c) && (r == c || c + "/" <= r)
    ensures Split(r)[0] == c
  {
    SplitOne(c);
    if r != c {
      var rest := r[|c| + 1..];
      assert r == c + "/" + rest;
      SplitConcat(c, rest);
    }
  }

  lemma RenderBegins(comps: seq<string>)
    requires comps != []
    ensures Render(comps) == comps[0] || comps[0] + "/" <= Render(comps)
  {
  }

  lemma StartsWith(comps: seq<string>, c: string)
    requires comps != [] && forall i | 0 <= i < |comps| :: NoSlash(comps[i])
    requires NoSlash(c)
    ensures Render(comps) == c || c + "/" <= Render(comps) <==> comps[0] == c
  {
    var r := Render(comps);
    RenderBegins(comps);
    if r == c || c + "/" <= r {
      SplitRender(comps);
      FirstPiece(r, c);
    }
  }

  /** ensurePathWithinRoot accepts a target exactly when its cleaned absolute components start
      with those of the root. */
  lemma GuardExact(cwd: string, root: string, target: string)
    requires Rooted(cwd)
    ensures EnsurePathWithinRoot(cwd, root, target) <==> AbsComps(cwd, root) <= AbsComps(cwd, target)
  {
    AbsHasComps(cwd, root);
    AbsHasComps(cwd, target);
    AbsCompsOrdinary(cwd, root);
    AbsCompsOrdinary(cwd, target);
    GuardOnComps(Abs(cwd, root), Abs(cwd, target), AbsComps(cwd, root), AbsComps(cwd, target));
  }

  // Remote names always land strictly below the staging directory.

  lemma {:induction false} DigitsNoSlash(n: nat)
    ensures Digits(n) != "" && forall i | 0 <= i < |Digits(n)| :: '0' <= Digits(n)[i] <= '9'
  {
    if n >= 10 {
      DigitsNoSlash(n / 10);
    }
  }

  /** The number a text of digits stands for. */
  function Value(s: string): int
  {
    if s == "" then 0 else 10 * Value(s[..|s| - 1]) + (s[|s| - 1] as int - '0' as int)
  }

  lemma {:induction false} ValueOfDigits(n: nat)
    ensures Value(Digits(n)) == n
  {
    if n >= 10 {
      ValueOfDigits(n / 10);
    }
    var front := if n < 10 then "" else Digits(n / 10);
    assert Digits(n)[..|Digits(n)| - 1] == front;
  }

  lemma {:induction false} LeadingZero(s: string)
    ensures Value("0" + s) == Value(s)
  {
    if s == "" {
      assert "0" + s == "0" && "0"[..0] == "";
    } else {
      LeadingZero(s[..|s| - 1]);
      assert ("0" + s)[..|s|] == "0" + s[..|s| - 1];
    }
  }

  lemma PaddedInjective(m: nat, n: nat)
    ensures Padded(m) == Padded(n) ==> m == n
  {
    PaddedValue(m);
    PaddedValue(n);
  }

  lemma PaddedValue(n: nat)
    ensures Value(Padded(n)) == n
  {
    hide Digits, Value;
    var d := Digits(n);
    ValueOfDigits(n);
    LeadingZero(d);
    LeadingZero("0" + d);
    assert "0" + ("0" + d) == "00" + d;
    assert "" + d == d;
  }

  lemma {:induction false} DigitsShape(n: nat)
    ensures n > 0 ==> Digits(n)[0] != '0'
    ensures (n < 10 ==> |Digits(n)| == 1) && (10 <= n < 100 ==> |Digits(n)| == 2)
    ensures (100 <= n < 1000 ==> |Digits(n)| == 3) && (n >= 1000 ==> |Digits(n)| > 3)
  {
    if n >= 10 {
      DigitsShape(n / 10);
    }
  }

  /** The padded number is in decimal digits, three of them at least, and with zeros in front only up to there. */
  lemma PaddedShape(n: nat)
    ensures Value(Padded(n)) == n && forall i | 0 <= i < |Padded(n)| :: '0' <= Padded(n)[i] <= '9'
    ensures if n < 1000 then |Padded(n)| == 3 else |Padded(n)| > 3 && Padded(n)[0] != '0'
  {
    PaddedValue(n);
    DigitsNoSlash(n);
    DigitsShape(n);
    hide Digits, Value;
  }

  lemma FallbackOrdinary(idx: nat)
    ensures Ordinary(Fallback(idx)) && Split(Fallback(idx)) == [Fallback(idx)]
  {
    DigitsNoSlash(idx);
    var f := Fallback(idx);
    assert f[0] == 'a';
    SplitOne(f);
  }

  /** safeRelativePath yields a non-empty relative path of ordinary components. */
  lemma SafePathOrdinary(value: string, idx: nat)
    ensures SafeRelativePath(value, idx) != "" && !Rooted(SafeRelativePath(value, idx))
    ensures AllOrdinary(Split(SafeRelativePath(value, idx)))
  {
    var s := SafeRelativePath(value, idx);
    FallbackOrdinary(idx);
    if s != Fallback(idx) {
      SplitNoSlash(s);
      assert forall i | 0 <= i < |Split(s)| :: Split(s)[i] !in {"", ".", ".."};
      assert Split(s)[0] != "";
    }
  }

  /** Joining ordinary components to a root puts them below it. */
  lemma JoinBelow(cwd: string, root: string, rel: string)
    requires Rooted(cwd) && rel != "" && !Rooted(rel) && AllOrdinary(Split(rel))
    ensures AbsComps(cwd, Join(root, rel)) == AbsComps(cwd, root) + Split(rel)
  {
    SplitNoSlash(cwd);
    RunRooted([], Split(cwd));
    var here := Run(true, [], Split(cwd));
    if root == "" {
      CleanRelativeComps(rel, here);
      RunAppend(true, [], Split(cwd), Split(Clean(rel)));
      RunAppend(true, [], Split(cwd), Split(rel));
      RunAppend(true, [], Split(cwd), [""]);
      assert Run(true, here, [""]) == here;
      RunOrdinary(true, here, Split(rel));
    } else {
      var whole := root + "/" + rel;
      SplitConcat(root, rel);
      AbsCompsOrdinary(cwd, root);
      RunOrdinary(true, AbsComps(cwd, root), Split(rel));
      if Rooted(root) {
        CleanRootedComps(whole);
        RunAppend(true, [], Split(root), Split(rel));
      } else {
        CleanRelativeComps(whole, here);
        RunAppend(true, [], Split(cwd), Split(Clean(whole)));
        RunAppend(true, [], Split(cwd), Split(root));
        RunAppend(true, here, Split(root), Split(rel));
      }
    }
  }

  /** Whatever name the remote side gives, the path built from it is strictly below the root, so
      the guard that follows never rejects it. */
  lemma SafePathStaysBelow(cwd: string, root: string, value: string, idx: nat)
    requires Rooted(cwd)
    ensures var rel := SafeRelativePath(value, idx);
            && AbsComps(cwd, root) < AbsComps(cwd, Join(root, rel))
            && AbsComps(cwd, Join(root, rel)) == AbsComps(cwd, root) + Split(rel)
            && EnsurePathWithinRoot(cwd, root, Join(root, rel))
  {
    var rel := SafeRelativePath(value, idx);
    SafePathOrdinary(value, idx);
    JoinBelow(cwd, root, rel);
    GuardExact(cwd, root, Join(root, rel));
  }

  lemma CleanedName(name: string)
    requires !Rooted(name)
    ensures var comps := Run(false, [], Split(name));
            && UpsThenOrdinary(comps)
            && (comps == [] ==> Clean(name) == ".")
            && (comps != [] ==> Split(Clean(name)) == comps && Clean(name) != "." && Clean(name) != "/" && name != ".")
  {
    var comps := Run(false, [], Split(name));
    SplitNoSlash(name);
    RunRelative(Split(name));
    if comps != [] {
      SplitRender(comps);
      RenderStart(comps);
      SplitOne(".");
      assert Run(false, [], ["."]) == [];
    }
  }

  /** When a relative remote name leads to a place strictly below where it starts, that very place
      is used; when it leads out, or nowhere, the numbered fallback is used instead. */
  lemma SafeNameKeepsPlace(cwd: string, name: string, idx: nat)
    requires Rooted(cwd) && !Rooted(name) && !HasWindowsDrivePrefix(name)
    ensures var comps := Run(false, [], Split(name));
            if comps == [] || comps[0] == ".." then SafeName(name, idx) == Fallback(idx)
            else Split(SafeName(name, idx)) == comps && AbsComps(cwd, SafeName(name, idx)) == AbsComps(cwd, name)
  {
    var comps := Run(false, [], Split(name));
    CleanedName(name);
    if comps != [] {
      if comps[0] != ".." {
        assert SafeName(name, idx) == Clean(name);
        SplitNoSlash(cwd);
        RunRooted([], Split(cwd));
        var here := Run(true, [], Split(cwd));
        CleanRelativeComps(name, here);
        RunAppend(true, [], Split(cwd), Split(Clean(name)));
        RunAppend(true, [], Split(cwd), Split(name));
      }
    }
  }

  /** What becomes of a remote path: without the white space around it and with slashes for backslashes, it keeps
      its place if it is relative and leads to a place strictly below, and else it is replaced by a numbered name. */
  lemma SafePathExact(cwd: string, value: string, name: string, idx: nat)
    requires Rooted(cwd) && |name| == |TrimSpace(value)|
    requires forall i | 0 <= i < |name| :: name[i] == if TrimSpace(value)[i] == '\\' then '/' else TrimSpace(value)[i]
    ensures var comps, r := Run(false, [], Split(name)), SafeRelativePath(value, idx);
            if name == "" || name[0] == '/' || comps == [] || comps[0] == ".."
               || (|name| >= 2 && name[1] == ':' && ('a' <= name[0] <= 'z' || 'A' <= name[0] <= 'Z')) then
              r == "asset-" + Padded(idx) + ".bin"
            else Split(r) == comps && AbsComps(cwd, r) == AbsComps(cwd, name)
  {
    hide TrimSpace, Run, Padded, Clean, Split;
    assert ReplaceBackslashes(TrimSpace(value)) == name;
    if name != "" && !Rooted(name) && !HasWindowsDrivePrefix(name) {
      SafeNameKeepsPlace(cwd, name, idx);
    }
  }
}
