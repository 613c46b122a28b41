/**
 The files of a remote task and the parts registered for them: part keys, and the search for the
 file a part belongs to when its link is refreshed (internal/worker/download.go and helpers.go).
 */
module Assets {
  import opened Wrappers
  import opened Jobs
  import P = Paths

  datatype Asset = Asset(fileId: string, url: string, relativePath: string, size: nat)

  datatype Part = Part(
    key: string, fileId: Option<string>, url: string, temp: Path, rel: Path,
    contentLength: nat, bytesDone: nat, completed: bool)

  function PartKey(asset: Asset, idx: nat): string
  {
    if asset.fileId != "" then asset.fileId else "asset-" + P.Padded(idx)
  }

  /** The components of the safe relative path of an asset. */
  function SafeRel(asset: Asset, idx: nat): (rel: Path)
    ensures rel != []
  {
    P.Split(P.SafeRelativePath(asset.relativePath, idx))
  }

  /** The part registered for an asset, staged below the staging directory of its job. */
  function Registered(asset: Asset, idx: nat, staging: Path): Part
  {
    Part(PartKey(asset, idx), if asset.fileId != "" then Some(asset.fileId) else None, asset.url,
         staging + SafeRel(asset, idx), SafeRel(asset, idx), asset.size, 0, false)
  }

  predicate PartMatches(part: Part, asset: Asset, idx: nat)
  {
    || part.key == PartKey(asset, idx)
    || (part.fileId.Some? && part.fileId.value != "" && asset.fileId == part.fileId.value)
    || part.rel == SafeRel(asset, idx)
  }

  /** The first file of a listing that matches a part, or none. */
  predicate FirstMatch(part: Part, assets: seq<Asset>, found: Option<nat>)
  {
    match found
    case Some(idx) =>
      && idx < |assets| && PartMatches(part, assets[idx], idx)
      && forall j | 0 <= j < idx :: !PartMatches(part, assets[j], j)
    case None => forall j | 0 <= j < |assets| :: !PartMatches(part, assets[j], j)
  }

  method FindMatchingDownloadAsset(part: Part, assets: seq<Asset>) returns (found: Option<nat>)
    ensures FirstMatch(part, assets, found)
    ensures found.Some? ==> found.value < |assets|
  {
    hide PartMatches, SafeRel, PartKey, P.SafeRelativePath;
    var idx := 0;
    while idx < |assets|
      invariant idx <= |assets| && forall j | 0 <= j < idx :: !PartMatches(part, assets[j], j)
    {
      if PartMatches(part, assets[idx], idx) {
        return Some(idx);
      }
      idx := idx + 1;
    }
    return None;
  }

  /** A part that has taken over the id of a file matches it anywhere in a listing, whatever its key says, and a
      part with the key or the path of a file matches it too. */
  lemma MatchesByEither(part: Part, asset: Asset, idx: nat)
    ensures asset.fileId != "" && part.fileId == Some(asset.fileId) ==> PartMatches(part, asset, idx)
    ensures part.key == (if asset.fileId != "" then asset.fileId else "asset-" + P.Padded(idx)) ==>
              PartMatches(part, asset, idx)
    ensures part.rel == P.Split(P.SafeRelativePath(asset.relativePath, idx)) ==> PartMatches(part, asset, idx)
  {
  }

  /** What identifies the file of an asset; links and sizes may change. */
  function Names(assets: seq<Asset>): (r: seq<(string, string)>)
    ensures |r| == |assets|
  {
    seq(|assets|, i requires 0 <= i < |assets| => (assets[i].fileId, assets[i].relativePath))
  }

  ghost predicate Permuted(a: seq<Asset>, b: seq<Asset>)
  {
    multiset(Names(a)) == multiset(Names(b))
  }

  /** Files with distinct safe paths that do not depend on their position in the list. */
  ghost predicate WellPlaced(assets: seq<Asset>)
  {
    && (forall i, j: nat | 0 <= i < |assets| :: SafeRel(assets[i], j) == SafeRel(assets[i], i))
    && (forall i, j | 0 <= i < j < |assets| :: SafeRel(assets[i], i) != SafeRel(assets[j], j))
  }

  /** Such files that have distinct ids, too. */
  ghost predicate WellNamed(assets: seq<Asset>)
  {
    && (forall i | 0 <= i < |assets| :: assets[i].fileId != "")
    && (forall i, j | 0 <= i < j < |assets| :: assets[i].fileId != assets[j].fileId)
    && WellPlaced(assets)
  }

  /** Such files that have none. */
  ghost predicate Unnamed(assets: seq<Asset>)
  {
    (forall i | 0 <= i < |assets| :: assets[i].fileId == "") && WellPlaced(assets)
  }

  lemma PermutedName(a: seq<Asset>, b: seq<Asset>, i: nat) returns (j: nat)
    requires Permuted(a, b) && i < |a|
    ensures j < |b| && b[j].fileId == a[i].fileId && b[j].relativePath == a[i].relativePath
  {
    assert Names(a)[i] in multiset(Names(a));
    assert Names(a)[i] in Names(b);
    j :| 0 <= j < |b| && Names(b)[j] == Names(a)[i];
  }

  /** In a re-listing of the same files in any order, a file matches the part of another only if
      it is the same file. */
  lemma MatchIsSameFile(a: seq<Asset>, b: seq<Asset>, i: nat, j: nat, staging: Path)
    requires WellNamed(a) && Permuted(a, b) && i < |a| && j < |b|
    ensures PartMatches(Registered(a[i], i, staging), b[j], j) <==> b[j].fileId == a[i].fileId
    ensures b[j].fileId == a[i].fileId ==> b[j].relativePath == a[i].relativePath
  {
    hide P.SafeRelativePath, P.Split, P.Padded;
    var k := PermutedName(b, a, j);
    assert SafeRel(b[j], j) == SafeRel(a[k], j) == SafeRel(a[k], k);
  }

  /** Whatever order the refreshed list comes in, the search finds the file the part was registered
      for, and never another. */
  lemma RefreshFindsTheSameFile(a: seq<Asset>, b: seq<Asset>, i: nat, staging: Path, found: Option<nat>)
    requires WellNamed(a) && Permuted(a, b) && i < |a|
    requires FirstMatch(Registered(a[i], i, staging), b, found)
    ensures found.Some? && b[found.value].fileId == a[i].fileId && b[found.value].relativePath == a[i].relativePath
  {
    var j := PermutedName(a, b, i);
    MatchIsSameFile(a, b, i, j, staging);
    if found.Some? {
      MatchIsSameFile(a, b, i, found.value, staging);
    }
  }

  // Without file ids the keys are positions.

  lemma {:induction false} CountedOnce<T>(s: seq<T>, x: T)
    requires forall i, j | 0 <= i < j < |s| :: s[i] != s[j]
    ensures multiset(s)[x] <= 1
  {
    if s != [] {
      var front, last := s[..|s| - 1], s[|s| - 1];
      CountedOnce(front, x);
      assert s == front + [last];
      assert last !in front;
    }
  }

  lemma CountedTwice<T>(s: seq<T>, i: nat, j: nat)
    requires i < j < |s| && s[i] == s[j]
    ensures multiset(s)[s[i]] >= 2
  {
    assert s == s[..j] + s[j..];
    assert s[..j][i] == s[i] && s[j..][0] == s[i];
    assert s[i] in multiset(s[..j]) && s[i] in multiset(s[j..]);
  }

  /** In a re-listing of well-placed files no path stands twice. */
  lemma RelistedOnce(a: seq<Asset>, b: seq<Asset>, j: nat, k: nat)
    requires Unnamed(a) && Permuted(a, b) && j < |b| && k < |b| && b[j].relativePath == b[k].relativePath
    ensures j == k
  {
    hide SafeRel;
    var m := PermutedName(b, a, j);
    var n := PermutedName(b, a, k);
    assert Names(b)[j] == Names(b)[k];
    forall x, y | 0 <= x < y < |a| ensures Names(a)[x] != Names(a)[y] {
      SamePathSamePlace(a[x], a[y], y);
      assert SafeRel(a[x], y) == SafeRel(a[x], x);
    }
    CountedOnce(Names(a), Names(b)[j]);
    if j < k {
      CountedTwice(Names(b), j, k);
    } else if k < j {
      CountedTwice(Names(b), k, j);
    }
  }

  lemma SamePathSamePlace(x: Asset, y: Asset, idx: nat)
    ensures x.relativePath == y.relativePath ==> SafeRel(x, idx) == SafeRel(y, idx)
  {
  }

  /** A part registered at place i matches what now stands at that place, and its own file, which
      now stands at place k; and nothing else. */
  lemma MatchByPosition(a: seq<Asset>, b: seq<Asset>, i: nat, j: nat, k: nat, staging: Path)
    requires Unnamed(a) && Permuted(a, b) && i < |a| && j < |b|
    requires k < |b| && b[k].relativePath == a[i].relativePath
    ensures PartMatches(Registered(a[i], i, staging), b[j], j) <==> j == i || j == k
  {
    hide SafeRel, P.Padded;
    var m := PermutedName(b, a, j);
    P.PaddedInjective(i, j);
    PositionKeys(i, j);
    SamePathSamePlace(b[j], a[m], j);
    assert SafeRel(b[j], j) == SafeRel(a[m], j) == SafeRel(a[m], m);
    SamePathSamePlace(a[m], a[i], i);
    assert SafeRel(a[m], i) == SafeRel(a[m], m);
    if m == i {
      RelistedOnce(a, b, j, k);
    }
  }

  lemma PositionKeys(i: nat, j: nat)
    requires P.Padded(i) == P.Padded(j) ==> i == j
    ensures "asset-" + P.Padded(i) == "asset-" + P.Padded(j) ==> i == j
  {
    var x, y := "asset-" + P.Padded(i), "asset-" + P.Padded(j);
    assert x[6..] == P.Padded(i) && y[6..] == P.Padded(j);
  }

  lemma PermutedLength(a: seq<Asset>, b: seq<Asset>)
    requires Permuted(a, b)
    ensures |a| == |b|
  {
    assert |multiset(Names(a))| == |multiset(Names(b))|;
  }

  /** Files without ids, listed again in another order: the search for the file of the part
      registered at place i, which now stands at place k, stops at the nearer of the two places. So
      the refresh finds the right file exactly when the file has not moved back. */
  lemma PositionsDecide(a: seq<Asset>, b: seq<Asset>, i: nat, k: nat, staging: Path, found: Option<nat>)
    requires Unnamed(a) && Permuted(a, b) && i < |a| && k < |b| && b[k].relativePath == a[i].relativePath
    requires FirstMatch(Registered(a[i], i, staging), b, found)
    ensures found == Some(if k <= i then k else i)
    ensures b[found.value].relativePath == a[i].relativePath <==> k <= i
  {
    hide PartMatches, SafeRel;
    PermutedLength(a, b);
    MatchByPosition(a, b, i, i, k, staging);
    MatchByPosition(a, b, i, k, k, staging);
    if found.Some? {
      MatchByPosition(a, b, i, found.value, k, staging);
    }
    if b[i].relativePath == a[i].relativePath {
      RelistedOnce(a, b, i, k);
    }
  }

  /** Two files that change places: the first part is sent to the second file. */
  lemma PositionsRedirect(x: string, y: string, staging: Path)
    requires P.SafeRelativePath(x, 0) != P.SafeRelativePath(y, 1)
    ensures var a := [Asset("", "u0", x, 0), Asset("", "u1", y, 0)];
            var b := [Asset("", "v1", y, 0), Asset("", "v0", x, 0)];
            && Permuted(a, b) && PartMatches(Registered(a[0], 0, staging), b[0], 0)
            && b[0].relativePath == y
  {
    hide P.SafeRelativePath, P.Split, P.Padded;
    var a := [Asset("", "u0", x, 0), Asset("", "u1", y, 0)];
    var b := [Asset("", "v1", y, 0), Asset("", "v0", x, 0)];
    assert Names(a) == [("", x), ("", y)] && Names(b) == [("", y), ("", x)];
  }
}
