/**
 Downloading the parts of a job (internal/worker/download.go) with resumable range requests
 (internal/files/downloader.go).
 */
module Download {
  import opened Wrappers
  import opened Text
  import opened Jobs
  import opened Assets
  import opened Content
  import opened Session
  import P = Paths
  import Submit
  import T = TimeText

  const MAX_5XX_RETRIES: nat := 3
  const NOTIFY_EVERY: nat := 0x10_0000

  // What the server answers.

  /** The header fields used of a response, and its body as it is read: in chunks, up to a clean
      end or an error. `length` is at most 0 when unknown. */
  datatype Answer =
    | NoAnswer
    | Answer(status: nat, rangeTotal: Option<int>, length: int, chunks: seq<Bytes>, clean: bool)

  function Concat(chunks: seq<Bytes>): Bytes
  {
    if chunks == [] then [] else Concat(chunks[..|chunks| - 1]) + chunks[|chunks| - 1]
  }

  /** What framing warrants of a body: it is some of the content, and all of it when it ends cleanly
      although its length was announced. */
  predicate Sends(content: Bytes, a: Answer)
    requires a.Answer?
  {
    Concat(a.chunks) <= content && (a.clean && a.length > 0 ==> Concat(a.chunks) == content)
  }

  /** An answer to a request for a file of which `existing` bytes are asked to be skipped, by a server
      that honours Range (sections 14.2, 15.3.7 and 15.5.17 of RFC 9110). A strict one never sends the
      whole file when it was asked for the rest. */
  predicate Frames(content: Bytes, existing: nat, a: Answer, strict: bool)
  {
    a.NoAnswer? ||
    (if a.status == 200 then
       && (strict ==> existing == 0) && Sends(content, a) && (a.length > 0 ==> a.length == |content|)
     else if a.status == 206 then
       && 0 < existing < |content| && Sends(content[existing..], a)
       && (a.rangeTotal.Some? ==> a.rangeTotal.value == |content|)
       && (a.length > 0 ==> a.length == |content| - existing)
     else a.status == 416 ==> 0 < existing && |content| <= existing)
  }

  function ContentLength(a: Answer, existing: nat): int
    requires a.Answer?
  {
    if a.status == 206 && a.rangeTotal.Some? then a.rangeTotal.value
    else if a.length > 0 then existing + a.length
    else 0
  }

  /** The bytes on disk before the body. */
  function Offset(a: Answer, existing: nat): nat
    requires a.Answer?
  {
    if a.status == 206 then existing else 0
  }

  /** The bytes on disk after the body. */
  function SizeAfter(a: Answer, existing: nat): nat
    requires a.Answer?
  {
    Offset(a, existing) + |Concat(a.chunks)|
  }

  predicate HasBody(a: Answer) { a.Answer? && (a.status == 200 || a.status == 206) }

  /** A clean end that nothing tells from the end of the file: the answer gives no total, and no
      larger size is known from before. */
  predicate LooksLast(existing: nat, known: nat, a: Answer)
    requires HasBody(a)
  {
    && a.clean && ContentLength(a, Offset(a, existing)) <= 0
    && (known == 0 || known <= SizeAfter(a, existing))
  }

  /** Such a server that, moreover, never ends a body short that way. */
  predicate Honours(content: Bytes, existing: nat, known: nat, a: Answer, strict: bool)
  {
    Frames(content, existing, a, strict)
    && (HasBody(a) && LooksLast(existing, known, a) ==> SizeAfter(a, existing) == |content|)
  }

  /** An answer of such a server; any other counts as none. */
  method Ask(content: Bytes, existing: nat, known: nat, strict: bool, answer: Answer) returns (a: Answer)
    ensures a == if Honours(content, existing, known, answer, strict) then answer else NoAnswer
    ensures Honours(content, existing, known, a, strict)
  {
    return if Honours(content, existing, known, answer, strict) then answer else NoAnswer;
  }

  /** The length that an answer announces is that of the whole file; without one it counts as 0. */
  lemma AnnouncesTheSize(content: Bytes, existing: nat, a: Answer, strict: bool)
    requires Frames(content, existing, a, strict) && HasBody(a)
    ensures ContentLength(a, if a.status == 206 then existing else 0) ==
            if a.length > 0 || (a.status == 206 && a.rangeTotal.Some?) then |content| else 0
  {
  }

  /** The length on record after an answer with a body, and after its end. */
  function LengthAfter(a: Answer, existing: nat, known: nat): nat
    requires HasBody(a)
  {
    var total := ContentLength(a, Offset(a, existing));
    if total > 0 then total else if known == 0 then SizeAfter(a, existing) else known
  }

  /** Why that is assumed: a body that ends cleanly but short of the file is taken for complete exactly
      when it looks like the last of it. */
  lemma ShortEndCompletes(content: Bytes, existing: nat, known: nat, a: Answer, strict: bool)
    requires Frames(content, existing, a, strict) && HasBody(a) && a.clean && SizeAfter(a, existing) < |content|
    ensures LengthAfter(a, existing, known) == 0 || LengthAfter(a, existing, known) <= SizeAfter(a, existing)
            <==> LooksLast(existing, known, a)
  {
    var body := if a.status == 206 then content[existing..] else content;
    assert |Concat(a.chunks)| < |body|;
  }

  lemma {:induction false} ConcatPrefix(chunks: seq<Bytes>, k: nat)
    requires k <= |chunks|
    ensures Concat(chunks[..k]) <= Concat(chunks)
  {
    if k < |chunks| {
      ConcatPrefix(chunks[..|chunks| - 1], k);
      assert chunks[..|chunks| - 1][..k] == chunks[..k];
    } else {
      assert chunks[..k] == chunks;
    }
  }

  lemma ConcatNext(chunks: seq<Bytes>, k: nat)
    requires k < |chunks|
    ensures Concat(chunks[..k + 1]) == Concat(chunks[..k]) + chunks[k]
  {
    assert chunks[..k + 1][..k] == chunks[..k];
  }

  lemma PrefixAfter(before: Bytes, x: Bytes, all: Bytes, content: Bytes)
    requires x <= all && before + all <= content
    ensures before + x <= content
  {
    assert forall i | 0 <= i < |before + x| :: (before + x)[i] == (before + all)[i];
  }

  /** The next chunk, put after what was there and what has come so far, is still part of the file. */
  lemma NextChunk(before: Bytes, chunks: seq<Bytes>, k: nat, content: Bytes)
    requires k < |chunks| && before + Concat(chunks) <= content
    ensures before + Concat(chunks[..k]) + chunks[k] == before + Concat(chunks[..k + 1])
    ensures before + Concat(chunks[..k]) + chunks[k] <= content
  {
    ConcatNext(chunks, k);
    ConcatPrefix(chunks, k + 1);
    hide Concat;
    PrefixAfter(before, Concat(chunks[..k + 1]), Concat(chunks), content);
    Regroup(before, Concat(chunks[..k]), chunks[k]);
  }

  lemma Regroup(a: Bytes, b: Bytes, c: Bytes)
    ensures a + b + c == a + (b + c)
  {
  }

  // What the service lists.

  datatype Links = NoLinks(message: string) | Links(assets: seq<Asset>)

  /** Keys are distinct, and no file stands where another one or its directory does. */
  predicate ListedApart(assets: seq<Asset>)
  {
    forall i, j | 0 <= i < |assets| && 0 <= j < |assets| && i != j ::
      PartKey(assets[i], i) != PartKey(assets[j], j) && !(SafeRel(assets[i], i) <= SafeRel(assets[j], j))
  }

  /** The sizes listed are not above the real ones. */
  predicate ListedSizes(remote: Remote, assets: seq<Asset>)
  {
    forall i | 0 <= i < |assets| :: assets[i].size <= |remote(PartKey(assets[i], i))|
  }

  /** A listing is heeded only if it is of that kind. */
  function Heeded(remote: Remote, links: Links, honest: bool): (r: Links)
    ensures r.Links? ==> r == links && ListedApart(r.assets) && (honest ==> ListedSizes(remote, r.assets))
    ensures links.Links? && ListedApart(links.assets) && (honest ==> ListedSizes(remote, links.assets)) ==> r == links
    ensures links.NoLinks? ==> r == links
  {
    if links.Links? && !(ListedApart(links.assets) && (honest ==> ListedSizes(remote, links.assets))) then NoLinks("")
    else links
  }

  method GetDownloadLinks(remote: Remote, links: Links, honest: bool) returns (r: Links)
    ensures r == Heeded(remote, links, honest)
  {
    return Heeded(remote, links, honest);
  }

  predicate SizeKnown(remote: Remote, part: Part, assets: seq<Asset>)
  {
    forall i | 0 <= i < |assets| && PartMatches(part, assets[i], i) :: assets[i].size <= |remote(part.key)|
  }

  /** So is a listing asked for to renew the link of a part. */
  function HeededFor(remote: Remote, part: Part, links: Links, honest: bool): (r: Links)
    ensures r.Links? ==> r == links && (honest ==> SizeKnown(remote, part, r.assets))
    ensures links.Links? && (honest ==> SizeKnown(remote, part, links.assets)) ==> r == links
    ensures links.NoLinks? ==> r == links
  {
    if links.Links? && honest && !SizeKnown(remote, part, links.assets) then NoLinks("") else links
  }

  method GetFreshLinks(remote: Remote, part: Part, links: Links, honest: bool) returns (r: Links)
    ensures r == HeededFor(remote, part, links, honest)
  {
    return HeededFor(remote, part, links, honest);
  }

  // What an attempt at a part meets, and what becomes of it.

  /** Whether the staged file can be looked at and opened, what the server answers, and what the service
      lists when it is asked for a fresh link. */
  datatype Trial = Trial(readable: bool, answer: Answer, openable: bool, relisted: Links)

  /** An attempt at the part of row `idx`: how many bytes were staged, the answer, whether the file was opened
      for its body, and which of the files listed afresh is the part's. */
  datatype Exchange = Exchange(idx: nat, size: nat, a: Answer, taken: bool, found: Option<nat>)

  /** The bytes received. */
  function Body(x: Exchange): Bytes { if x.taken && x.a.Answer? then Concat(x.a.chunks) else [] }

  /** The bytes thrown away: a body that is not the rest of the file is the whole of it again. */
  function Lost(x: Exchange): nat { if x.taken && x.a.Answer? && x.a.status != 206 then x.size else 0 }

  function ReceivedIn(met: seq<Exchange>): nat
  {
    if met == [] then 0 else ReceivedIn(met[..|met| - 1]) + |Body(met[|met| - 1])|
  }

  function DroppedIn(met: seq<Exchange>): nat
  {
    if met == [] then 0 else DroppedIn(met[..|met| - 1]) + Lost(met[|met| - 1])
  }

  /** The server is asked whenever the directory of the part can be made and its file looked at, and a body is
      taken whenever there is one and the file can be opened. */
  predicate Meets(t: Trial, x: Exchange, reachable: bool, content: Bytes, known: nat, strict: bool)
  {
    && x.a == (if reachable && t.readable && Honours(content, x.size, known, t.answer, strict) then t.answer
               else NoAnswer)
    && (x.taken <==> x.a.Answer? && (x.a.status == 200 || x.a.status == 206) && t.openable)
  }

  /** How an attempt ends: well when a body was taken to a clean end or there is no more to come, with the
      status of any other answer, and else with an error. */
  predicate Decides(x: Exchange, o: Outcome)
  {
    && (o.Done? <==> x.a.Answer? && (x.a.status == 416 || (x.taken && x.a.clean)))
    && (o.Status? <==> x.a.Answer? && x.a.status != 200 && x.a.status != 206 && x.a.status != 416)
    && (o.Status? ==> o.code == x.a.status)
  }

  /** What is staged after an attempt: all of a body that was taken, cut short or not, behind what was there
      if it is the rest of the file. */
  predicate Stages(x: Exchange, before: Bytes, after: Bytes)
  {
    if x.taken && x.a.Answer? then after == (if x.a.status == 206 then before else []) + Concat(x.a.chunks)
    else after == before
  }

  /** What is on record of a part after an attempt. */
  predicate Records(x: Exchange, before: Part, after: Part)
  {
    && after == before.(bytesDone := after.bytesDone, contentLength := after.contentLength)
    && if x.taken && x.a.Answer? then
         var offset := if x.a.status == 206 then x.size else 0;
         && after.bytesDone == offset + |Concat(x.a.chunks)|
         && after.contentLength == (if ContentLength(x.a, offset) > 0 then ContentLength(x.a, offset)
                                    else if x.a.clean && before.contentLength == 0 then after.bytesDone
                                    else before.contentLength)
       else if x.a.Answer? && x.a.status == 416 then
         && after.bytesDone == x.size
         && after.contentLength == (if before.contentLength == 0 then x.size else before.contentLength)
       else after == before
  }

  /** An attempt after which the size of the part is known: announced with a body, or found in the end. */
  predicate Announces(x: Exchange, o: Outcome, after: Part)
  {
    || (x.taken && x.a.Answer? && ContentLength(x.a, if x.a.status == 206 then x.size else 0) > 0)
    || (o.Done? && after.contentLength > 0)
  }

  predicate SomeAnnounces(met: seq<Exchange>, outcomes: seq<Outcome>, parts: seq<Part>)
  {
    exists k | 0 <= k < |met| :: k < |outcomes| && met[k].idx < |parts|
        && Announces(met[k], outcomes[k], parts[met[k].idx])
  }

  /** The byte counts of a job that an attempt makes appear in the table are those of the part; else they stay. */
  predicate Figures(x: Exchange, o: Outcome, after: Part, job: Row, total: int, done: int, seen: bool, sees: bool)
  {
    var offset := if x.a.Answer? && x.a.status == 206 then x.size else 0;
    var got := if x.taken && x.a.Answer? && ContentLength(x.a, offset) > 0 then offset else after.bytesDone;
    && total == (if sees && !seen then after.contentLength else job.bytesTotal)
    && done == (if sees && !seen && got > job.bytesDone then got else job.bytesDone)
  }

  /** What an attempt shows of a job in the table: the download appears as soon as a size is known. */
  predicate Shows(x: Exchange, o: Outcome, before: Part, after: Part, job: Row, row: Row, seen: bool, sees: bool,
                  next: T.Time)
  {
    && (sees <==> seen || Announces(x, o, after))
    && Figures(x, o, after, job, row.bytesTotal, row.bytesDone, seen, sees)
    && row.retryCount == (if x.taken && x.a.Answer?
                          && (if x.a.status == 206 then x.size else 0) > before.bytesDone then 0
                          else job.retryCount)
    && row == if sees && !seen then
                job.(retryCount := row.retryCount, state := LocalDownloading, error := None, nextRunAt := Some(next),
                     bytesTotal := row.bytesTotal, bytesDone := row.bytesDone)
              else job.(retryCount := row.retryCount)
  }

  /** What comes of an attempt: how it ends, what is staged and on record of the part, and what shows. */
  predicate Tried(x: Exchange, o: Outcome, before: Part, after: Part, staged: Bytes, stages: Bytes, job: Row, row: Row,
                  seen: bool, sees: bool, next: T.Time)
  {
    && (x.taken ==> HasBody(x.a)) && Decides(x, o)
    && (o.Done? ==> (o.enough <==> after.contentLength == 0 || after.contentLength <= after.bytesDone))
    && Stages(x, staged, stages) && Records(x, before, after)
    && Shows(x, o, before, after, job, row, seen, sees, next)
  }

  /** What matters of an attempt for what follows. */
  lemma TriedFacts(x: Exchange, o: Outcome, before: Part, after: Part, staged: Bytes, stages: Bytes, job: Row, row: Row,
                   seen: bool, sees: bool, next: T.Time)
    requires Tried(x, o, before, after, staged, stages, job, row, seen, sees, next)
    ensures o.Status? ==> after == before && row == job
    ensures o.Done? ==> (o.enough <==> Enough(after))
    ensures row.remoteId == job.remoteId
  {
  }

  /** A body that was taken, to its end or not, from the facts its reader leaves. */
  lemma BodyTried(x: Exchange, o: Outcome, before: Part, after: Part, staged: Bytes, stages: Bytes, job: Row,
                  between: Row, row: Row, seen: bool, showing: bool, sees: bool, next: T.Time)
    requires x.taken && HasBody(x.a) && x.size == |staged|
    requires o == if x.a.clean then Done(after.contentLength == 0 || after.bytesDone >= after.contentLength)
                  else Interrupted("read response body")
    requires var offset := if x.a.status == 206 then x.size else 0;
             var total := ContentLength(x.a, offset);
             var known := if total > 0 then total else before.contentLength;
             && stages == (if x.a.status == 206 then staged else []) + Concat(x.a.chunks)
             && after == before.(bytesDone := |stages|,
                                 contentLength := if x.a.clean && known == 0 then |stages| else known)
             && (showing <==> seen || total > 0)
             && between == (if showing && !seen then
                              job.(retryCount := if offset > before.bytesDone then 0 else job.retryCount,
                                   bytesTotal := total,
                                   bytesDone := if offset > job.bytesDone then offset else job.bytesDone,
                                   error := None, nextRunAt := Some(next), state := LocalDownloading)
                            else job.(retryCount := if offset > before.bytesDone then 0 else job.retryCount))
             && (sees <==> showing || (x.a.clean && after.contentLength > 0))
             && row == (if sees && !showing then
                          between.(bytesTotal := after.contentLength,
                                   bytesDone := if |stages| > between.bytesDone then |stages| else between.bytesDone,
                                   error := None, nextRunAt := Some(next), state := LocalDownloading)
                        else between)
    ensures Tried(x, o, before, after, staged, stages, job, row, seen, sees, next)
  {
    hide ContentLength, Concat;
  }

  /** A fresh link is looked for after 404 and 5xx if the job has a task id and the service answers, and the file
      is the first that matches. */
  predicate LooksUp(code: nat, remoteId: Option<string>, part: Part, links: Links, found: Option<nat>)
  {
    if (code == 404 || 500 <= code < 600) && remoteId.Some? && TrimSpace(remoteId.value) != "" && links.Links? then
      FirstMatch(part, links.assets, found)
    else found.None?
  }

  /** The file found has a link, and another one. */
  predicate Renews(part: Part, links: Links, found: Option<nat>)
  {
    && found.Some? && links.Links? && found.value < |links.assets|
    && links.assets[found.value].url != "" && links.assets[found.value].url != part.url
  }

  /** The part with that link, and with what else it did not know of its file. */
  predicate Relinks(before: Part, asset: Asset, after: Part)
  {
    && after.url == asset.url && after.fileId == (if asset.fileId != "" then Some(asset.fileId) else before.fileId)
    && after.contentLength == (if asset.size > 0 && before.contentLength == 0 then asset.size else before.contentLength)
    && after == before.(url := after.url, fileId := after.fileId, contentLength := after.contentLength)
  }

  /** An attempt at the part of a row, from the disk before it to the row and the disk after it. */
  ghost predicate Went(x: Exchange, o: Outcome, t: Trial, world: World, row: Part, before: Files, now: Part,
                       after: Files)
  {
    && row.temp != [] && x.size == Size(before, row.temp)
    && Meets(t, x, DirsFit(before, row.temp[..|row.temp| - 1]), world.remote(row.key), row.contentLength, world.strict)
    && Decides(x, o) && Stages(x, Data(before, row.temp), Data(after, row.temp))
    && (o.Done? ==> (o.enough <==> now.contentLength == 0 || now.contentLength <= now.bytesDone))
    && var links := HeededFor(world.remote, row, t.relisted, world.honest);
       && LooksUp(Code(o), world.remoteId, row, links, x.found)
       && if Renews(row, links, x.found) then Relinks(row, links.assets[x.found.value], now)
          else Records(x, row, now.(completed := false)) && (now.completed <==> o.Done? && o.enough)
  }

  /** How a failed attempt ends a pass. */
  predicate Fails(x: Exchange, o: Outcome, t: Trial, world: World, row: Part, trailing: nat, end: End)
  {
    end == if Code(o) == 404 && !Renews(row, HeededFor(world.remote, row, t.relisted, world.honest), x.found) then Gone
           else if trailing >= 3 then Repeated5xx else WillRetry
  }

  /** What a pass runs up against: the content behind the links, what is known of server and service, and the
      task id of the job. */
  datatype World = World(remote: Remote, strict: bool, honest: bool, remoteId: Option<string>)

  /** The attempts at the first n rows of a listing, with the disk as it was then: every row not completed was
      attempted once, in order, and nothing else has changed. */
  ghost predicate Attempted(met: seq<Exchange>, outcomes: seq<Outcome>, trials: nat -> Trial, world: World,
                            rows: seq<Part>, disk: Files, parts: seq<Part>, files: Files, n: nat)
  {
    && |parts| == |rows| && n <= |rows| && |outcomes| == |met| && Rows(met) == Due(rows, n)
    && Grown(disk, files, rows, n)
    && (forall j | 0 <= j < |rows| && (n <= j || rows[j].completed) :: parts[j] == rows[j])
    && forall k | 0 <= k < |met| ::
         met[k].idx < |rows| && Went(met[k], outcomes[k], trials(met[k].idx), world, rows[met[k].idx], disk,
                                     parts[met[k].idx], files)
  }

  /** Nothing has changed on disk but one file and directories that are new. */
  predicate Framed(before: Files, after: Files, path: Path)
  {
    && (forall p | p in before && p != path :: p in after && after[p] == before[p])
    && (forall p | p in after && p !in before && p != path :: after[p].Dir?)
  }

  lemma FramedSame(files: Files, path: Path)
    ensures Framed(files, files, path)
  {
  }

  lemma FramedTwice(a: Files, b: Files, c: Files, path: Path)
    requires Framed(a, b, path) && Framed(b, c, path)
    ensures Framed(a, c, path)
  {
  }

  predicate StagedAmong(rows: seq<Part>, n: nat, p: Path)
    requires n <= |rows|
  {
    exists j | 0 <= j < n :: rows[j].temp == p
  }

  /** Nothing has changed on disk but the files of the first n rows and directories that are new. */
  ghost predicate Grown(before: Files, after: Files, rows: seq<Part>, n: nat)
    requires n <= |rows|
  {
    && (forall p | p in before && !StagedAmong(rows, n, p) :: p in after && after[p] == before[p])
    && (forall p | p in after && p !in before && !StagedAmong(rows, n, p) :: after[p].Dir?)
  }

  lemma GrownNext(before: Files, between: Files, after: Files, rows: seq<Part>, n: nat)
    requires n < |rows| && Grown(before, between, rows, n) && Framed(between, after, rows[n].temp)
    ensures Grown(before, after, rows, n + 1)
  {
    forall p | !StagedAmong(rows, n + 1, p) ensures !StagedAmong(rows, n, p) && p != rows[n].temp {
    }
  }

  lemma GrownMore(before: Files, after: Files, rows: seq<Part>, n: nat)
    requires n < |rows| && Grown(before, after, rows, n)
    ensures Grown(before, after, rows, n + 1)
  {
    GrownNext(before, after, after, rows, n);
  }

  /** Parts that are staged in files of their own, none of them in the way of the directory of another. */
  ghost predicate Separate(rows: seq<Part>)
  {
    forall i, j | 0 <= i < |rows| && 0 <= j < |rows| ::
      && rows[j].temp != [] && (i != j ==> rows[i].temp != rows[j].temp)
      && !(rows[i].temp <= rows[j].temp[..|rows[j].temp| - 1])
  }

  /** For a row not reached yet the disk is as it was. */
  lemma NotReached(before: Files, after: Files, rows: seq<Part>, n: nat, j: nat)
    requires n <= j < |rows| && Grown(before, after, rows, n) && Separate(rows)
    ensures Data(before, rows[j].temp) == Data(after, rows[j].temp) && rows[j].temp != []
    ensures Size(before, rows[j].temp) == Size(after, rows[j].temp)
    ensures var dir := rows[j].temp[..|rows[j].temp| - 1]; DirsFit(before, dir) <==> DirsFit(after, dir)
  {
    assert !StagedAmong(rows, n, rows[j].temp);
    var dir := rows[j].temp[..|rows[j].temp| - 1];
    forall k | 0 <= k <= |dir| ensures !StagedAmong(rows, n, dir[..k]) {
      assert forall i | 0 <= i < n :: !(rows[i].temp <= dir);
    }
  }

  lemma WentWell(x: Exchange, o: Outcome, t: Trial, world: World, row: Part, before: Files, tried: Part, now: Part,
                 after: Files, job: Row, later: Row, seen: bool, sees: bool, next: T.Time)
    requires row.temp != [] && !row.completed && x.size == Size(before, row.temp) && x.found.None?
    requires Meets(t, x, DirsFit(before, row.temp[..|row.temp| - 1]), world.remote(row.key), row.contentLength,
                   world.strict)
    requires Tried(x, o, row, tried, Data(before, row.temp), Data(after, row.temp), job, later, seen, sees, next)
          && o.Done?
    requires now == tried.(completed := tried.contentLength == 0 || tried.contentLength <= tried.bytesDone)
    ensures Went(x, o, t, world, row, before, now, after)
    ensures (sees <==> seen || Announces(x, o, now))
          && Figures(x, o, now, job, later.bytesTotal, later.bytesDone, seen, sees)
  {
    hide Meets, Stages, HeededFor, DirsFit;
    assert now.(completed := false) == tried;
  }

  /** A link is renewed only after a status, which leaves the part as it was. */
  lemma WentBadly(x: Exchange, o: Outcome, t: Trial, world: World, row: Part, before: Files, tried: Part, now: Part,
                  after: Files, job: Row, later: Row, seen: bool, sees: bool, next: T.Time, found: Option<nat>)
    requires row.temp != [] && !row.completed && x.size == Size(before, row.temp) && x.found.None?
    requires Meets(t, x, DirsFit(before, row.temp[..|row.temp| - 1]), world.remote(row.key), row.contentLength,
                   world.strict)
    requires Tried(x, o, row, tried, Data(before, row.temp), Data(after, row.temp), job, later, seen, sees, next)
          && !o.Done?
    requires var links := HeededFor(world.remote, tried, t.relisted, world.honest);
             && LooksUp(Code(o), world.remoteId, tried, links, found)
             && if Renews(tried, links, found) then Relinks(tried, links.assets[found.value], now) else now == tried
    ensures Went(x.(found := found), o, t, world, row, before, now, after)
    ensures Body(x.(found := found)) == Body(x) && Lost(x.(found := found)) == Lost(x)
    ensures (sees <==> seen || Announces(x.(found := found), o, now))
            && Figures(x.(found := found), o, now, job, later.bytesTotal, later.bytesDone, seen, sees)
    ensures Renews(row, HeededFor(world.remote, row, t.relisted, world.honest), found) <==>
            Renews(tried, HeededFor(world.remote, tried, t.relisted, world.honest), found)
  {
    hide HeededFor, DirsFit, FirstMatch, Shows, Announces, Figures, ContentLength, Concat;
    if o.Status? {
      assert tried == row;
    }
    assert now.(completed := false) == now;
    FailureShows(x, o, row, tried, now, Data(before, row.temp), Data(after, row.temp), job, later, seen, sees, next,
                 found);
  }

  /** What a failed attempt shows does not depend on a fresh link. */
  lemma FailureShows(x: Exchange, o: Outcome, row: Part, tried: Part, now: Part, staged: Bytes, stages: Bytes, job: Row,
                     later: Row, seen: bool, sees: bool, next: T.Time, found: Option<nat>)
    requires Tried(x, o, row, tried, staged, stages, job, later, seen, sees, next) && !o.Done?
    requires now == tried || o.Status?
    ensures (sees <==> seen || Announces(x.(found := found), o, now))
            && Figures(x.(found := found), o, now, job, later.bytesTotal, later.bytesDone, seen, sees)
  {
    hide Stages, Records, ContentLength, Concat;
  }

  /** An attempt at another row does not matter for what one has come to. */
  lemma WentBefore(x: Exchange, o: Outcome, t: Trial, world: World, row: Part, disk: Files, now: Part, files: Files,
                   after: Files, other: Path)
    requires Went(x, o, t, world, row, disk, now, files) && Framed(files, after, other) && row.temp != other
    ensures Went(x, o, t, world, row, disk, now, after)
  {
    hide Meets, Decides, LooksUp, Renews, Relinks, Records, HeededFor, DirsFit;
  }

  /** An attempt is the same from the disk as it was at the start. */
  lemma WentSince(x: Exchange, o: Outcome, t: Trial, world: World, row: Part, disk: Files, between: Files, now: Part,
                  files: Files)
    requires Went(x, o, t, world, row, between, now, files) && row.temp != []
    requires Data(disk, row.temp) == Data(between, row.temp) && Size(disk, row.temp) == Size(between, row.temp)
    requires DirsFit(disk, row.temp[..|row.temp| - 1]) == DirsFit(between, row.temp[..|row.temp| - 1])
    ensures Went(x, o, t, world, row, disk, now, files)
  {
    hide Meets, Decides, LooksUp, Renews, Relinks, Records, HeededFor, DirsFit, Stages;
  }

  /** One more row has been attempted. */
  lemma AttemptedNext(met: seq<Exchange>, outcomes: seq<Outcome>, trials: nat -> Trial, world: World, rows: seq<Part>,
                      disk: Files, parts: seq<Part>, files: Files, n: nat, x: Exchange, o: Outcome, now: Part,
                      after: Files)
    requires Attempted(met, outcomes, trials, world, rows, disk, parts, files, n) && Separate(rows)
    requires n < |rows| && !rows[n].completed && x.idx == n
    requires Went(x, o, trials(n), world, rows[n], files, now, after) && Framed(files, after, rows[n].temp)
    ensures Attempted(met + [x], outcomes + [o], trials, world, rows, disk, parts[n := now], after, n + 1)
  {
    hide Went, Grown, Framed, Separate;
    var met2, outcomes2, parts2 := met + [x], outcomes + [o], parts[n := now];
    assert Rows(met2) == Rows(met) + [n];
    GrownNext(disk, files, after, rows, n);
    NotReached(disk, files, rows, n, n);
    WentSince(x, o, trials(n), world, rows[n], disk, files, now, after);
    forall k | 0 <= k < |met2|
      ensures met2[k].idx < |rows|
              && Went(met2[k], outcomes2[k], trials(met2[k].idx), world, rows[met2[k].idx], disk, parts2[met2[k].idx],
                      after)
    {
      if k < |met| {
        assert Rows(met)[k] in Due(rows, n);
        OthersApart(rows, met[k].idx, n);
        WentBefore(met[k], outcomes[k], trials(met[k].idx), world, rows[met[k].idx], disk, parts[met[k].idx], files,
                   after, rows[n].temp);
      }
    }
  }

  lemma OthersApart(rows: seq<Part>, i: nat, j: nat)
    requires Separate(rows) && i < |rows| && j < |rows| && i != j
    ensures rows[i].temp != rows[j].temp
  {
  }

  /** A completed row is passed over. */
  lemma AttemptedMore(met: seq<Exchange>, outcomes: seq<Outcome>, trials: nat -> Trial, world: World, rows: seq<Part>,
                      disk: Files, parts: seq<Part>, files: Files, n: nat)
    requires Attempted(met, outcomes, trials, world, rows, disk, parts, files, n) && n < |rows| && rows[n].completed
    ensures Attempted(met, outcomes, trials, world, rows, disk, parts, files, n + 1)
  {
    hide Went, Grown;
    GrownMore(disk, files, rows, n);
  }

  /** After all rows every part is completed exactly when every attempt got all the bytes known of. */
  lemma EnoughIsCompleted(met: seq<Exchange>, outcomes: seq<Outcome>, trials: nat -> Trial, world: World,
                          rows: seq<Part>, disk: Files, parts: seq<Part>, files: Files)
    requires Attempted(met, outcomes, trials, world, rows, disk, parts, files, |rows|) && parts != []
    requires forall k | 0 <= k < |outcomes| :: outcomes[k].Done?
    ensures AllCompleted(parts) <==> forall k | 0 <= k < |outcomes| :: outcomes[k].enough
  {
    hide Grown;
    forall k | 0 <= k < |met| ensures parts[met[k].idx].completed <==> outcomes[k].enough {
      CompletedIfEnough(met[k], outcomes[k], trials(met[k].idx), world, rows[met[k].idx], disk, parts[met[k].idx],
                        files);
    }
    forall j | 0 <= j < |rows| && !rows[j].completed ensures exists k :: 0 <= k < |met| && met[k].idx == j {
      assert j in Due(rows, |rows|);
      var k :| 0 <= k < |met| && Rows(met)[k] == j;
    }
  }

  lemma CompletedIfEnough(x: Exchange, o: Outcome, t: Trial, world: World, row: Part, disk: Files, now: Part,
                          files: Files)
    requires Went(x, o, t, world, row, disk, now, files) && o.Done?
    ensures now.completed <==> o.enough
  {
    hide Meets, Decides, Stages, Relinks, Records, HeededFor, DirsFit;
  }

  /** The attempts of a whole pass that found these rows and this disk: at all rows in order, or up to the first
      that failed, which ends the pass. */
  ghost predicate PassOf(met: seq<Exchange>, outcomes: seq<Outcome>, trials: nat -> Trial, world: World,
                         rows: seq<Part>, disk: Files, parts: seq<Part>, files: Files, trailing: nat, end: End)
  {
    if end == Verified || end == InProgress then
      Attempted(met, outcomes, trials, world, rows, disk, parts, files, |rows|)
    else
      && met != [] && outcomes != [] && met[|met| - 1].idx < |rows|
      && Attempted(met, outcomes, trials, world, rows, disk, parts, files, met[|met| - 1].idx + 1)
      && Fails(met[|met| - 1], outcomes[|outcomes| - 1], trials(met[|met| - 1].idx), world,
               rows[met[|met| - 1].idx], trailing, end)
  }

  /** The rows that are not completed, in order. */
  function Due(parts: seq<Part>, n: nat): (r: seq<nat>)
    requires n <= |parts|
    ensures forall j :: j in r <==> 0 <= j < n && !parts[j].completed
    ensures forall k | 0 <= k < |r| :: r[k] < n
    ensures forall k, l | 0 <= k < l < |r| :: r[k] < r[l]
  {
    if n == 0 then [] else if parts[n - 1].completed then Due(parts, n - 1) else Due(parts, n - 1) + [n - 1]
  }

  function Rows(met: seq<Exchange>): (r: seq<nat>)
    ensures |r| == |met| && forall k | 0 <= k < |r| :: r[k] == met[k].idx
  {
    seq(|met|, k requires 0 <= k < |met| => met[k].idx)
  }

  // What a pass writes and how it ends.

  /** How one attempt at a part ends: without an error, with as many bytes as the file is known to have
      or short of them; with an error status; or in another error. */
  datatype Outcome = Done(enough: bool) | Status(code: nat) | Interrupted(message: string)

  datatype End =
    | NoDirectory | LinksFailed | NoAssets | Gone | Repeated5xx | WillRetry | Verified | InProgress

  const NO_ASSETS := "remote task returned no downloadable assets"
  const GONE := "download part returned HTTP 404 and no fresh link was available"

  predicate Is5xx(code: nat) { 500 <= code < 600 }

  predicate ShouldRefreshLink(code: nat) { code == 404 || Is5xx(code) }

  function Code(o: Outcome): nat { if o.Status? then o.code else 0 }

  function Message(o: Outcome): string
  {
    match o
    case Done(_) => ""
    case Status(code) => "download part status " + P.Digits(code)
    case Interrupted(message) => message
  }

  /** How many attempts at the end of a history were answered with a 5xx status. */
  function Trailing(attempts: seq<Outcome>): nat
  {
    if attempts == [] || !Is5xx(Code(attempts[|attempts| - 1])) then 0
    else 1 + Trailing(attempts[..|attempts| - 1])
  }

  /** At least k attempts in a row, up to the last one, were answered with a 5xx status. */
  lemma {:induction false} TrailingIsLastRun(attempts: seq<Outcome>, k: nat)
    ensures Trailing(attempts) >= k <==>
            k <= |attempts| && forall i | |attempts| - k <= i < |attempts| :: Is5xx(Code(attempts[i]))
  {
    if k > 0 && attempts != [] && Is5xx(Code(attempts[|attempts| - 1])) {
      var front := attempts[..|attempts| - 1];
      TrailingIsLastRun(front, k - 1);
      assert forall i | 0 <= i < |front| :: front[i] == attempts[i];
    }
  }

  /** The later row differs only in what a download may change. */
  predicate Kept(a: Row, b: Row)
  {
    b == a.(state := b.state, stagingPath := b.stagingPath, bytesTotal := b.bytesTotal, bytesDone := b.bytesDone,
            error := b.error, retryCount := b.retryCount, nextRunAt := b.nextRunAt, claimedBy := b.claimedBy)
  }

  /** The write that makes a download visible. */
  predicate Started(job: Row, w: Write)
  {
    Kept(job, w.row) && w.row.state == LocalDownloading && w.event == Some(Event(Some(job.state), LocalDownloading))
  }

  /** The write that ends a pass. */
  predicate Ends(job: Row, from: JobState, w: Write)
  {
    && Kept(job, w.row) && w.event == Some(Event(Some(from), w.row.state))
    && (w.row.state == LocalDownloading || w.row.state == LocalVerify || w.row.state == Failed)
  }

  /** How a pass ends when an attempt failed. */
  predicate Failing(end: End, o: Outcome)
  {
    !o.Done? && if end == Gone then Code(o) == 404 else if end == Repeated5xx then Is5xx(Code(o)) else end == WillRetry
  }

  /** All the bytes a part is known to have. */
  predicate Enough(part: Part) { part.contentLength == 0 || part.contentLength <= part.bytesDone }

  /** Every attempt from some point on ended without an error and with all the bytes known. */
  predicate AllEnough(attempts: seq<Outcome>, from: nat)
  {
    forall k | from <= k < |attempts| :: attempts[k].Done? && attempts[k].enough
  }

  /** The last attempt was made in this pass, and failed. */
  predicate Stopped(before: seq<Outcome>, after: seq<Outcome>)
  {
    |after| > |before| && !after[|after| - 1].Done?
  }

  /** The row an ending leaves. */
  predicate Ended(end: End, row: Row, now: T.Time, next: T.Time)
  {
    match end
    case NoDirectory => true
    case LinksFailed => row.state == LocalDownloading && row.nextRunAt == Some(next) && row.error.Some?
    case NoAssets => row.state == Failed && row.error == Some(NO_ASSETS)
    case Gone => row.state == Failed && row.nextRunAt == None && row.error == Some(GONE)
    case Repeated5xx => row.state == Failed && row.nextRunAt == None && row.error.Some?
    case WillRetry => row.state == LocalDownloading && row.nextRunAt == Some(next) && row.error.Some?
    case Verified => row.state == LocalVerify && row.nextRunAt == Some(now) && row.error == None
    case InProgress => row.state == LocalDownloading && row.nextRunAt == Some(next) && row.error == None
  }

  /** The writes of a pass: at most one that makes the download visible, then the one that ends it. */
  predicate DownloadWrites(job: Row, ws: seq<Write>)
  {
    || ws == []
    || (|ws| == 1 && Ends(job, job.state, ws[0]))
    || (|ws| == 2 && Started(job, ws[0]) && Ends(job, LocalDownloading, ws[1]))
  }

  function TotalLength(parts: seq<Part>): nat
  {
    if parts == [] then 0 else TotalLength(parts[..|parts| - 1]) + parts[|parts| - 1].contentLength
  }

  function TotalDone(parts: seq<Part>): nat
  {
    if parts == [] then 0 else TotalDone(parts[..|parts| - 1]) + parts[|parts| - 1].bytesDone
  }

  /** The lengths and the bytes done of some parts, one part at a time. */
  lemma TotalsOf(parts: seq<Part>, part: Part)
    ensures TotalLength([]) == 0 && TotalLength(parts + [part]) == TotalLength(parts) + part.contentLength
    ensures TotalDone([]) == 0 && TotalDone(parts + [part]) == TotalDone(parts) + part.bytesDone
  {
    assert (parts + [part])[..|parts|] == parts;
  }

  /** The job with the byte counts of its parts. */
  function Synced(job: Row, parts: seq<Part>): Row
  {
    job.(bytesTotal := if TotalLength(parts) > 0 then TotalLength(parts) else job.bytesTotal,
         bytesDone := TotalDone(parts))
  }

  method SyncJobBytesFromParts(h: Handle, parts: seq<Part>)
    modifies h`job
    ensures h.job == Synced(old(h.job), parts)
  {
    var total, done := 0, 0;
    for i := 0 to |parts|
      invariant total == TotalLength(parts[..i]) && done == TotalDone(parts[..i])
    {
      assert parts[..i + 1][..i] == parts[..i];
      total := total + parts[i].contentLength;
      done := done + parts[i].bytesDone;
    }
    assert parts[..|parts|] == parts;
    if total > 0 {
      h.job := h.job.(bytesTotal := total);
    }
    h.job := h.job.(bytesDone := done);
  }

  method AllPartsCompleted(parts: seq<Part>) returns (all: bool)
    ensures all <==> AllCompleted(parts)
    ensures all <==> parts != [] && forall i | 0 <= i < |parts| :: parts[i].completed
  {
    if parts == [] {
      return false;
    }
    for i := 0 to |parts|
      invariant forall j | 0 <= j < i :: parts[j].completed
    {
      if !parts[i].completed {
        return false;
      }
    }
    return true;
  }

  /** One pass of the downloader over a job. */
  class Transfer {
    const s: Pass
    /** Whether the server never sends a whole file when asked for the rest. */
    const strict: bool
    /** Whether the service lists no size above the real one. */
    const honest: bool
    var part: Part
    var visible: bool
    var persisted: bool
    /** How every attempt at any part of the job ended, in this pass and before. */
    ghost var attempts: seq<Outcome>
    /** What the attempts of this pass met. */
    ghost var met: seq<Exchange>

    /** No byte has been received or thrown away in between. */
    twostate predicate Still()
      reads s`acts
    {
      s.Wasted() == old(s.Wasted()) && s.Gained() == old(s.Gained())
    }

    ghost predicate Sizes()
      reads s`parts
    {
      honest ==> forall j | 0 <= j < |s.parts| :: s.parts[j].contentLength <= |s.remote(s.parts[j].key)|
    }

    /** The download showed in the table when the pass began. */
    ghost predicate SeenBefore() { s.entry.state == LocalDownloading && s.entry.bytesTotal > 0 }

    /** The job in memory is the row in the table but for what the next write will bring. */
    ghost predicate InHand()
      reads this`visible, s, s.h
    {
      && s.h.job.state == s.h.stored.state && Kept(s.entry, s.h.job) && s.h.job.stagingPath == Some(s.staging)
      && if s.h.writes == [] then s.h.job.state == s.entry.state && (visible ==> SeenBefore())
         else |s.h.writes| == 1 && visible && !SeenBefore() && Started(s.entry, s.h.writes[0])
              && s.h.job.state == LocalDownloading
    }

    ghost predicate Running()
      reads this`visible, s, s.h
    {
      s.Valid() && Downloading(s.Now()) && InHand() && (strict ==> s.Wasted() == 0) && Sizes()
    }

    /** A pass that has not done anything yet, over a job the downloader may claim. */
    ghost predicate Opening()
      reads this`visible, s, s.h
    {
      && s.Valid() && s.acts == [] && s.listed == s.start == s.Now() && Downloading(s.Now())
      && s.h.writes == [] && s.h.job == s.entry && Same(s.h.job, s.h.stored) && !visible && Sizes()
    }

    /** The part in hand is the one of row i, and not completed. */
    ghost predicate Holding(i: nat)
      reads this`part, this`visible, s`parts
    {
      && (SeenBefore() ==> visible)
      && i < |s.parts| && s.parts[i].key == part.key && s.parts[i].temp == part.temp && s.parts[i].rel == part.rel
      && !s.parts[i].completed && !part.completed && (honest ==> part.contentLength <= |s.remote(part.key)|)
    }

    /** The download has been made visible if it shows now and did not at the beginning, and whether the pass has
        made its last write. */
    ghost predicate Wrote(ended: bool)
      reads this`visible, s.h
    {
      |s.h.writes| == (if visible && !SeenBefore() then 1 else 0) + (if ended then 1 else 0)
    }

    lemma WroteSoFar()
      requires Running()
      ensures Wrote(false)
    {
    }

    /** What every ending leaves. */
    ghost predicate Over()
      reads s, s.h
    {
      s.Valid() && DownloadWrites(s.entry, s.h.writes) && (strict ==> s.Wasted() == 0) && Sizes()
    }

    constructor (pass: Pass, strictly: bool, honestly: bool, ghost history: seq<Outcome>)
      ensures s == pass && strict == strictly && honest == honestly && attempts == history && met == [] && !visible
    {
      s, strict, honest := pass, strictly, honestly;
      part, visible, persisted := Part("", None, "", [], [], 0, 0, false), false, false;
      attempts, met := history, [];
    }

    /** UpsertTransferPart on the part in hand. */
    method Store(i: nat)
      requires Running() && i < |s.parts| && s.parts[i].key == part.key && Progresses(s.remote, s.Now(), part)
      requires honest ==> part.contentLength <= |s.remote(part.key)|
      modifies s`parts, s`acts, s`moved
      ensures Running() && s.parts == old(s.parts)[i := part] && Still()
    {
      hide Legal, Run, Transfers, TotalDropped, TotalReceived, Progresses;
      ghost var j := ProgressPuts(s.remote, s.Now(), part);
      s.WritePart(part);
    }

    /** The progress of the part is kept. */
    method Checkpoint(i: nat)
      requires Running() && Holding(i)
      modifies s`parts, s`acts, s`moved
      ensures Running() && Holding(i) && s.parts == old(s.parts)[i := part] && Still()
    {
      hide Running;
      assert Progresses(s.remote, s.Now(), part);
      Store(i);
    }

    /** The first progress of known size makes the download visible in the table. */
    method Appear(i: nat, done: nat, total: int, next: T.Time)
      requires Running() && Holding(i) && !visible
      modifies this`visible, s`acts, s`moved, s.h
      ensures Running() && Holding(i) && visible && Still()
      ensures s.h.job == old(s.h.job).(
                bytesTotal := total, bytesDone := if done > old(s.h.job).bytesDone then done else old(s.h.job).bytesDone,
                error := None, nextRunAt := Some(next), state := LocalDownloading)
      ensures s.h.stored == Unclaimed(s.h.job)
    {
      hide Inv, Legal, Run, Transfers, TotalDropped, TotalReceived;
      s.h.job := s.h.job.(bytesTotal := total,
                          bytesDone := if done > s.h.job.bytesDone then done else s.h.job.bytesDone,
                          error := None, nextRunAt := Some(next));
      s.WriteState(LocalDownloading);
      visible := true;
    }

    method Reset5xxCount(i: nat, done: nat)
      requires Running() && Holding(i)
      modifies s.h`job
      ensures Running() && Holding(i)
      ensures s.h.job == old(s.h.job).(retryCount := if done > part.bytesDone then 0 else old(s.h.job).retryCount)
    {
      if done > part.bytesDone && s.h.job.retryCount > 0 {
        s.h.job := s.h.job.(retryCount := 0);
      }
    }

    /** The part as a progress report tells it. */
    method Track(i: nat, done: nat, total: int)
      requires Running() && Holding(i) && (honest ==> total <= |s.remote(part.key)|)
      modifies this`part
      ensures Running() && Holding(i)
      ensures part == old(part).(bytesDone := done,
                                 contentLength := if total > 0 then total else old(part).contentLength)
    {
      hide Running;
      part := part.(bytesDone := done);
      if total > 0 {
        part := part.(contentLength := total);
      }
    }

    /** The progress callback. */
    method Notify(i: nat, done: nat, total: int, next: T.Time)
      requires Running() && Holding(i) && (honest ==> total <= |s.remote(part.key)|)
      modifies this`part, this`visible, this`persisted, s`parts, s`acts, s`moved, s.h
      ensures Running() && Holding(i) && s.parts == old(s.parts)[i := s.parts[i]]
      ensures part == old(part).(bytesDone := done,
                                 contentLength := if total > 0 then total else old(part).contentLength)
      ensures visible <==> old(visible) || total > 0
      ensures s.h.job.retryCount == (if done > old(part).bytesDone then 0 else old(s.h.job).retryCount)
      ensures s.h.job ==
              if visible && !old(visible) then
                old(s.h.job).(retryCount := s.h.job.retryCount, bytesTotal := total,
                              bytesDone := if done > old(s.h.job).bytesDone then done else old(s.h.job).bytesDone,
                              error := None, nextRunAt := Some(next), state := LocalDownloading)
              else old(s.h.job).(retryCount := s.h.job.retryCount)
      ensures Still()
      ensures visible && !old(visible) ==> s.h.stored == Unclaimed(s.h.job)
      ensures !old(persisted) || (total > 0 && done >= total) ==> s.parts[i] == part
    {
      hide Running;
      Reset5xxCount(i, done);
      Track(i, done, total);
      if !visible && total > 0 {
        Appear(i, done, total, next);
      }
      var due: bool := *;
      if !persisted || (total > 0 && done >= total) || due {
        persisted := true;
        Checkpoint(i);
      }
    }

    ghost predicate OnDisk()
      reads this`part, s`files
    {
      part.temp in s.files && s.files[part.temp].File?
    }

    /** What is staged of the part in hand. */
    ghost function Staged(): Bytes
      reads this`part, s`files
    {
      Data(s.files, part.temp)
    }

    /** Reading a body into the file of the part, from `existing` bytes on. */
    method Receive(i: nat, chunks: seq<Bytes>, existing: nat, total: int, next: T.Time) returns (current: nat)
      requires Running() && Holding(i) && (honest ==> total <= |s.remote(part.key)|)
      requires OnDisk() && |Staged()| == existing == part.bytesDone && Staged() + Concat(chunks) <= s.remote(part.key)
      requires total > 0 ==> part.contentLength == total && visible
      modifies this`part, this`visible, this`persisted, s`parts, s`files, s`acts, s`moved, s.h
      ensures Running() && Holding(i) && s.parts == old(s.parts)[i := s.parts[i]]
      ensures part == old(part).(bytesDone := current) && OnDisk()
      ensures Staged() == old(Staged()) + Concat(chunks) && current == |Staged()|
      ensures s.h.job == old(s.h.job) && visible == old(visible)
      ensures s.Gained() == old(s.Gained()) + |Concat(chunks)| && s.Wasted() == old(s.Wasted())
      ensures Framed(old(s.files), s.files, part.temp)
    {
      hide Running, Pass.Gained, Pass.Wasted, Framed;
      ghost var before := Staged();
      assert Framed(s.files, s.files, part.temp) by {
        FramedSame(s.files, part.temp);
      }
      current := existing;
      var sinceNotify: nat, sentFirst := 0, existing > 0;
      assert chunks[..0] == [] && before + [] == before;
      var k := 0;
      while k < |chunks|
        invariant k <= |chunks| && Running() && Holding(i) && s.parts == old(s.parts)[i := s.parts[i]]
        invariant part == old(part).(bytesDone := current) && OnDisk()
        invariant Staged() == before + Concat(chunks[..k]) && current == |Staged()|
        invariant s.h.job == old(s.h.job) && visible == old(visible)
        invariant s.Gained() == old(s.Gained()) + |Concat(chunks[..k])| && s.Wasted() == old(s.Wasted())
        invariant Framed(old(s.files), s.files, part.temp)
      {
        NextChunk(before, chunks, k, s.remote(part.key));
        ConcatNext(chunks, k);
        ghost var files := s.files;
        current, sinceNotify, sentFirst := TakeChunk(i, chunks[k], current, sinceNotify, sentFirst, total, next);
        FramedTwice(old(s.files), files, s.files, part.temp);
        k := k + 1;
      }
      assert chunks[..k] == chunks;
    }

    /** One turn of the loop that reads a body. */
    method TakeChunk(i: nat, chunk: Bytes, current: nat, sinceNotify: nat, sentFirst: bool, total: int, next: T.Time)
      returns (now: nat, since: nat, sent: bool)
      requires Running() && Holding(i) && (honest ==> total <= |s.remote(part.key)|)
      requires OnDisk() && current == |Staged()| == part.bytesDone && Staged() + chunk <= s.remote(part.key)
      requires total > 0 ==> part.contentLength == total && visible
      modifies this`part, this`visible, this`persisted, s`parts, s`files, s`acts, s`moved, s.h
      ensures Running() && Holding(i) && s.parts == old(s.parts)[i := s.parts[i]]
      ensures part == old(part).(bytesDone := now) && OnDisk()
      ensures Staged() == old(Staged()) + chunk && now == |Staged()|
      ensures s.h.job == old(s.h.job) && visible == old(visible)
      ensures s.Gained() == old(s.Gained()) + |chunk| && s.Wasted() == old(s.Wasted())
      ensures Framed(old(s.files), s.files, part.temp)
    {
      hide Running, Pass.Gained, Pass.Wasted;
      now, since := Absorb(i, chunk, current, sinceNotify);
      sent := sentFirst;
      if |chunk| > 0 && (!sentFirst || since >= NOTIFY_EVERY) {
        Notify(i, now, total, next);
        since, sent := 0, true;
      }
    }

    /** Writing one chunk and counting it. */
    method Absorb(i: nat, chunk: Bytes, current: nat, sinceNotify: nat) returns (now: nat, since: nat)
      requires Running() && Holding(i) && OnDisk() && current == |Staged()| == part.bytesDone
      requires Staged() + chunk <= s.remote(part.key)
      modifies this`part, s`files, s`acts, s`moved
      ensures Running() && Holding(i) && OnDisk()
      ensures Staged() == old(Staged()) + chunk && now == |Staged()| && since == sinceNotify + |chunk|
      ensures part == old(part).(bytesDone := now)
      ensures s.Gained() == old(s.Gained()) + |chunk| && s.Wasted() == old(s.Wasted())
      ensures s.files == old(s.files)[part.temp := File(Staged())]
    {
      hide Pass.Gained, Pass.Wasted, Inv, Legal, Run, Transfers;
      now, since := current, sinceNotify;
      if |chunk| > 0 {
        s.AppendFile(i, chunk);
        now := now + |chunk|;
        since := since + |chunk|;
        part := part.(bytesDone := now);
      }
    }

    /** The end of an attempt that met no error. */
    method Conclude(i: nat, size: nat, next: T.Time)
      requires Running() && Holding(i) && size <= |s.remote(part.key)|
      modifies this`part, this`visible, this`persisted, s`parts, s`acts, s`moved, s.h
      ensures Running() && Holding(i) && s.parts == old(s.parts)[i := s.parts[i]] && Still()
      ensures part == old(part).(bytesDone := size,
                contentLength := if old(part).contentLength == 0 then size else old(part).contentLength)
      ensures visible <==> old(visible) || part.contentLength > 0
      ensures s.h.job ==
              if visible && !old(visible) then
                old(s.h.job).(bytesTotal := part.contentLength,
                              bytesDone := if size > old(s.h.job).bytesDone then size else old(s.h.job).bytesDone,
                              error := None, nextRunAt := Some(next), state := LocalDownloading)
              else old(s.h.job)
    {
      hide Inv, Legal, Run, Transfers, TotalDropped, TotalReceived, Progresses;
      part := part.(bytesDone := size);
      if part.contentLength == 0 {
        part := part.(contentLength := size);
      }
      Notify(i, size, part.contentLength, next);
    }

    /** A server that says the range cannot be satisfied has no more bytes than are there. */
    lemma AlreadyWhole(i: nat)
      requires Running() && Holding(i) && 0 < |Staged()| && |s.remote(part.key)| <= |Staged()|
      ensures Whole(s.remote, s.files, part) && |Staged()| == |s.remote(part.key)|
    {
      assert PartOk(s.remote, s.staging, s.files, s.parts[i]);
    }

    /** Opening the file for a body: to go on after what is there, or from the start. */
    method Open(i: nat, a: Answer, size: nat) returns (existing: nat, total: int)
      requires Running() && Holding(i) && size == |Staged()| && a.Answer? && (a.status == 200 || a.status == 206)
      requires Honours(s.remote(part.key), size, part.contentLength, a, strict)
      modifies this`part, s`files, s`acts, s`moved
      ensures Running() && Holding(i) && OnDisk() && existing == |Staged()|
      ensures total == ContentLength(a, existing) && total <= |s.remote(part.key)|
      ensures part == old(part).(contentLength := if total > 0 then total else old(part).contentLength)
      ensures existing == if a.status == 206 then size else 0
      ensures Staged() + Concat(a.chunks) <= s.remote(part.key)
      ensures a.clean && (part.contentLength == 0 || part.contentLength <= |Staged()| + |Concat(a.chunks)|) ==>
                Staged() + Concat(a.chunks) == s.remote(part.key)
      ensures Staged() == (if a.status == 206 then old(Staged()) else [])
      ensures s.Gained() == old(s.Gained()) && s.Wasted() == old(s.Wasted()) + if a.status == 206 then 0 else size
      ensures Framed(old(s.files), s.files, part.temp)
    {
      hide Pass.Valid, Pass.Wasted, Pass.Gained, Honours, ContentLength, Concat;
      StagedPrefix(i);
      BodyFits(s.remote(part.key), Staged(), part.contentLength, a, strict);
      existing := size;
      if existing == 0 || a.status != 206 {
        existing := 0;
        StartOver(i);
      }
      total := ContentLength(a, existing);
      if total > 0 {
        part := part.(contentLength := total);
      }
    }

    /** Opening the file with truncation. */
    method StartOver(i: nat)
      requires Running() && Holding(i) && (strict ==> Staged() == [])
      modifies s`files, s`acts, s`moved
      ensures Running() && Holding(i) && OnDisk() && Staged() == []
      ensures s.Gained() == old(s.Gained()) && s.Wasted() == old(s.Wasted()) + |old(Staged())|
      ensures Framed(old(s.files), s.files, part.temp)
    {
      hide Legal, Run, Transfers, TotalDropped, TotalReceived, Inv;
      s.TruncateFile(i);
    }

    /** What is staged is a prefix of the file. */
    lemma StagedPrefix(i: nat)
      requires Running() && Holding(i)
      ensures Staged() <= s.remote(part.key) && (Staged() != [] ==> OnDisk())
    {
      assert PartOk(s.remote, s.staging, s.files, s.parts[i]);
    }

    /** Opening the file and the first report of progress. */
    method Begin(i: nat, a: Answer, size: nat, next: T.Time) returns (existing: nat, total: int)
      requires Running() && Holding(i) && size == |Staged()| && a.Answer? && (a.status == 200 || a.status == 206)
      requires Honours(s.remote(part.key), size, part.contentLength, a, strict)
      modifies this`part, this`visible, this`persisted, s`parts, s`files, s`acts, s`moved, s.h
      ensures Running() && Holding(i) && s.parts == old(s.parts)[i := s.parts[i]]
      ensures OnDisk() && existing == |Staged()| == part.bytesDone && existing == (if a.status == 206 then size else 0)
      ensures total == ContentLength(a, existing) && total <= |s.remote(part.key)|
      ensures total > 0 ==> part.contentLength == total && visible
      ensures part == old(part).(bytesDone := existing,
                                 contentLength := if total > 0 then total else old(part).contentLength)
      ensures Staged() == (if a.status == 206 then old(Staged()) else [])
      ensures Staged() + Concat(a.chunks) <= s.remote(part.key)
      ensures a.clean && (part.contentLength == 0 || part.contentLength <= |Staged()| + |Concat(a.chunks)|) ==>
                Staged() + Concat(a.chunks) == s.remote(part.key)
      ensures s.Gained() == old(s.Gained()) && s.Wasted() == old(s.Wasted()) + if a.status == 206 then 0 else size
      ensures Framed(old(s.files), s.files, part.temp)
      ensures visible <==> old(visible) || total > 0
      ensures s.h.job ==
              if visible && !old(visible) then
                old(s.h.job).(retryCount := if existing > old(part).bytesDone then 0 else old(s.h.job).retryCount,
                              bytesTotal := total,
                              bytesDone := if existing > old(s.h.job).bytesDone then existing else old(s.h.job).bytesDone,
                              error := None, nextRunAt := Some(next), state := LocalDownloading)
              else old(s.h.job).(retryCount := if existing > old(part).bytesDone then 0 else old(s.h.job).retryCount)
    {
      hide Running, Pass.Gained, Pass.Wasted, Honours, ContentLength, Concat;
      existing, total := Open(i, a, size);
      Notify(i, existing, total, next);
    }

    /** Reading the body of an opened file to its end. */
    method ReadBody(i: nat, a: Answer, existing: nat, total: int, next: T.Time) returns (o: Outcome)
      requires Running() && Holding(i) && (honest ==> total <= |s.remote(part.key)|) && HasBody(a)
      requires OnDisk() && |Staged()| == existing == part.bytesDone && Staged() + Concat(a.chunks) <= s.remote(part.key)
      requires total > 0 ==> part.contentLength == total && visible
      requires a.clean && (part.contentLength == 0 || part.contentLength <= |Staged()| + |Concat(a.chunks)|) ==>
                 Staged() + Concat(a.chunks) == s.remote(part.key)
      modifies this`part, this`visible, this`persisted, s`parts, s`files, s`acts, s`moved, s.h
      ensures Running() && Holding(i) && s.parts == old(s.parts)[i := s.parts[i]]
      ensures Staged() == old(Staged()) + Concat(a.chunks)
      ensures part == old(part).(bytesDone := |Staged()|, contentLength :=
                        if a.clean && old(part).contentLength == 0 then |Staged()| else old(part).contentLength)
      ensures o == if a.clean then Done(part.contentLength == 0 || part.bytesDone >= part.contentLength)
                   else Interrupted("read response body")
      ensures visible <==> old(visible) || (a.clean && part.contentLength > 0)
      ensures s.h.job ==
              if visible && !old(visible) then
                old(s.h.job).(bytesTotal := part.contentLength,
                              bytesDone := if |Staged()| > old(s.h.job).bytesDone then |Staged()|
                                           else old(s.h.job).bytesDone,
                              error := None, nextRunAt := Some(next), state := LocalDownloading)
              else old(s.h.job)
      ensures Fits(o)
      ensures s.Gained() == old(s.Gained()) + |Concat(a.chunks)| && s.Wasted() == old(s.Wasted())
      ensures Framed(old(s.files), s.files, part.temp)
    {
      hide Running, Pass.Gained, Pass.Wasted, Concat, Framed;
      var current := Receive(i, a.chunks, existing, total, next);
      if !a.clean {
        return Interrupted("read response body");
      }
      Conclude(i, current, next);
      return Done(part.contentLength == 0 || part.bytesDone >= part.contentLength);
    }

    /** Opening the file and taking a body. */
    method TakeBody(i: nat, a: Answer, size: nat, openable: bool, next: T.Time) returns (o: Outcome, ghost x: Exchange)
      requires Running() && Holding(i) && size == |Staged()| && a.Answer? && (a.status == 200 || a.status == 206)
      requires Honours(s.remote(part.key), size, part.contentLength, a, strict)
      modifies this`part, this`visible, this`persisted, s`parts, s`files, s`acts, s`moved, s.h
      ensures Running() && Holding(i) && s.parts == old(s.parts)[i := s.parts[i]]
      ensures x == Exchange(i, size, a, openable, None)
      ensures part == old(part).(bytesDone := part.bytesDone, contentLength := part.contentLength)
      ensures Tried(x, o, old(part), part, old(Staged()), Staged(), old(s.h.job), s.h.job, old(visible), visible, next)
      ensures Fits(o)
      ensures s.Gained() == old(s.Gained()) + |Body(x)| && s.Wasted() == old(s.Wasted()) + Lost(x)
      ensures Framed(old(s.files), s.files, part.temp)
    {
      hide Running, Pass.Gained, Pass.Wasted, Honours, ContentLength, Concat, Whole;
      x := Exchange(i, size, a, openable, None);
      if !openable {
        return Interrupted("open temp file"), x;
      }
      hide Tried, Fits, OnDisk, Staged;
      ghost var files := s.files;
      var existing, total := Begin(i, a, size, next);
      ghost var between, showing, onceOpen := s.h.job, visible, s.files;
      o := ReadBody(i, a, existing, total, next);
      FramedTwice(files, onceOpen, s.files, part.temp);
      BodyTried(x, o, old(part), part, old(Staged()), Staged(), old(s.h.job), between, s.h.job, old(visible), showing,
                visible, next);
    }

    /** What an attempt that ended well means for the file of the part in hand. */
    ghost predicate Fits(o: Outcome)
      reads this`part, s`files
    {
      && (o.Done? && o.enough ==> Whole(s.remote, s.files, part) && part.bytesDone == |s.remote(part.key)|)
      && (o.Done? && !o.enough && honest ==> part.bytesDone < |s.remote(part.key)|)
    }

    /** MkdirAll of the directory of the part. */
    method MakeParent(i: nat) returns (made: bool)
      requires Running() && Holding(i)
      modifies s`files, s`acts, s`moved
      ensures Running() && Holding(i) && part.temp != [] && made == DirsFit(old(s.files), part.temp[..|part.temp| - 1])
      ensures Staged() == old(Staged()) && Still() && Framed(old(s.files), s.files, part.temp)
    {
      hide Inv, Legal, Run, Transfers, TotalDropped, TotalReceived, Progresses;
      ParentsApart(s.remote, s.staging, s.Now(), i);
      made := s.MakeDirs(part.temp[..|part.temp| - 1]);
    }

    /** What comes of an answer. */
    method Heed(i: nat, a: Answer, size: nat, openable: bool, next: T.Time) returns (o: Outcome, ghost x: Exchange)
      requires Running() && Holding(i) && size == |Staged()|
      requires Honours(s.remote(part.key), size, part.contentLength, a, strict)
      modifies this`part, this`visible, this`persisted, s`parts, s`files, s`acts, s`moved, s.h
      ensures Running() && Holding(i) && s.parts == old(s.parts)[i := s.parts[i]]
      ensures x == Exchange(i, size, a, openable && HasBody(a), None)
      ensures part == old(part).(bytesDone := part.bytesDone, contentLength := part.contentLength)
      ensures Tried(x, o, old(part), part, old(Staged()), Staged(), old(s.h.job), s.h.job, old(visible), visible, next)
      ensures Fits(o)
      ensures s.Gained() == old(s.Gained()) + |Body(x)| && s.Wasted() == old(s.Wasted()) + Lost(x)
      ensures Framed(old(s.files), s.files, part.temp)
    {
      hide Running, Pass.Gained, Pass.Wasted;
      x := Exchange(i, size, a, openable && HasBody(a), None);
      if a.NoAnswer? {
        return Interrupted("download part"), x;
      }
      if a.status == 416 {
        AlreadyWhole(i);
        Conclude(i, size, next);
        return Done(part.contentLength == 0 || part.bytesDone >= part.contentLength), x;
      }
      if a.status != 200 && a.status != 206 {
        return Status(a.status), x;
      }
      hide Tried, Body, Lost, Framed, Honours;
      o, x := TakeBody(i, a, size, openable, next);
    }

    /** One attempt at the part in hand. */
    method Download(i: nat, t: Trial, next: T.Time) returns (o: Outcome, ghost x: Exchange)
      requires Running() && Holding(i)
      modifies this`part, this`visible, this`persisted, s`parts, s`files, s`acts, s`moved, s.h
      ensures Running() && Holding(i) && s.parts == old(s.parts)[i := s.parts[i]]
      ensures x.idx == i && x.size == |old(Staged())| && x.found.None? && part.temp != []
      ensures Meets(t, x, DirsFit(old(s.files), part.temp[..|part.temp| - 1]), s.remote(part.key),
                    old(part).contentLength, strict)
      ensures part == old(part).(bytesDone := part.bytesDone, contentLength := part.contentLength)
      ensures Tried(x, o, old(part), part, old(Staged()), Staged(), old(s.h.job), s.h.job, old(visible), visible, next)
      ensures Fits(o)
      ensures s.Gained() == old(s.Gained()) + |Body(x)| && s.Wasted() == old(s.Wasted()) + Lost(x)
      ensures Framed(old(s.files), s.files, part.temp)
    {
      hide Running, Pass.Gained, Pass.Wasted, Honours;
      ghost var before := s.files;
      var made := MakeParent(i);
      x := Exchange(i, Size(s.files, part.temp), NoAnswer, false, None);
      if !made {
        return Interrupted("ensure part directory"), x;
      }
      if !t.readable {
        return Interrupted("stat temp part"), x;
      }
      var size := Size(s.files, part.temp);
      var a := Ask(s.remote(part.key), size, part.contentLength, strict, t.answer);
      ghost var between := s.files;
      o, x := Heed(i, a, size, t.openable, next);
      FramedTwice(before, between, s.files, part.temp);
    }

    method Relink(i: nat, listed: Asset)
      requires Running() && Holding(i) && (honest ==> listed.size <= |s.remote(part.key)|)
      modifies this`part
      ensures Running() && Holding(i) && Relinks(old(part), listed, part)
    {
      hide Running;
      part := part.(url := listed.url);
      if listed.fileId != "" {
        part := part.(fileId := Some(listed.fileId));
      }
      if listed.size > 0 && part.contentLength == 0 {
        part := part.(contentLength := listed.size);
      }
    }

    /** After a status that a stale link may cause, looks for a fresh link of the same file. */
    method RefreshDownloadPartSourceURL(i: nat, code: nat, relisted: Links)
      returns (refreshed: bool, ghost found: Option<nat>)
      requires Running() && Holding(i)
      modifies this`part, s`parts, s`acts, s`moved
      ensures Running() && Holding(i) && s.parts == old(s.parts)[i := s.parts[i]] && Still()
      ensures var links := HeededFor(s.remote, old(part), relisted, honest);
              && LooksUp(code, s.h.job.remoteId, old(part), links, found)
              && (refreshed <==> Renews(old(part), links, found))
              && (refreshed ==> Relinks(old(part), links.assets[found.value], part) && s.parts[i] == part)
      ensures !refreshed ==> part == old(part) && s.parts == old(s.parts)
    {
      hide Running, PartMatches, SizeKnown;
      found := None;
      if !ShouldRefreshLink(code) || TrimSpace(Submit.OrEmpty(s.h.job.remoteId)) == "" {
        return false, found;
      }
      var links := GetFreshLinks(s.remote, part, relisted, honest);
      if links.NoLinks? {
        return false, found;
      }
      var hit := FindMatchingDownloadAsset(part, links.assets);
      found := hit;
      if hit.None? {
        return false, found;
      }
      var listed := links.assets[hit.value];
      if listed.url == "" || listed.url == part.url {
        return false, found;
      }
      SizeOfMatch(part, links.assets, hit.value);
      Relink(i, listed);
      Checkpoint(i);
      return true, found;
    }

    lemma SizeOfMatch(row: Part, assets: seq<Asset>, k: nat)
      requires FirstMatch(row, assets, Some(k)) && (honest ==> SizeKnown(s.remote, row, assets))
      ensures honest ==> assets[k].size <= |s.remote(row.key)|
    {
    }

    method SetRetryCount(i: nat, count: nat)
      requires Running() && Holding(i)
      modifies s.h`job
      ensures Running() && Holding(i) && s.h.job == old(s.h.job).(retryCount := count)
    {
      hide Inv, Legal, Run, Transfers, TotalDropped;
      s.h.job := s.h.job.(retryCount := count);
    }

    /** Counting a failure, looking for a fresh link, and keeping the progress. */
    method NoteFailure(i: nat, code: nat, relisted: Links) returns (refreshed: bool, ghost found: Option<nat>)
      requires Running() && Holding(i)
      modifies this`part, s`parts, s`acts, s`moved, s.h`job
      ensures Running() && Holding(i) && s.parts == old(s.parts)[i := part] && Still()
      ensures var links := HeededFor(s.remote, old(part), relisted, honest);
              && LooksUp(code, old(s.h.job).remoteId, old(part), links, found)
              && (refreshed <==> Renews(old(part), links, found))
              && (refreshed ==> Relinks(old(part), links.assets[found.value], part))
      ensures !refreshed ==> part == old(part)
      ensures s.h.job == old(s.h.job).(retryCount := if 500 <= code < 600 then old(s.h.job).retryCount + 1 else 0)
    {
      hide Running, LooksUp, Renews, Relinks, HeededFor;
      if !Is5xx(code) {
        SetRetryCount(i, 0);
      }
      refreshed, found := RefreshDownloadPartSourceURL(i, code, relisted);
      if Is5xx(code) {
        SetRetryCount(i, s.h.job.retryCount + 1);
      }
      ghost var between := s.parts;
      Checkpoint(i);
      UpdatedTwice(old(s.parts), between, i, part);
    }

    /** Everything a pass does when an attempt at a part fails. */
    method HandleError(i: nat, o: Outcome, relisted: Links, next: T.Time) returns (end: End, ghost found: Option<nat>)
      requires Running() && Holding(i) && !o.Done?
      requires attempts != [] && attempts[|attempts| - 1] == o
      requires Is5xx(Code(o)) ==> s.h.job.retryCount == Trailing(attempts[..|attempts| - 1])
      modifies this`part, s`parts, s`acts, s`moved, s.h
      ensures Over() && s.h.stored.retryCount == Trailing(attempts) && Still()
      ensures s.parts == old(s.parts)[i := part]
      ensures var links := HeededFor(s.remote, old(part), relisted, honest);
              && LooksUp(Code(o), old(s.h.job).remoteId, old(part), links, found)
              && (if Renews(old(part), links, found) then Relinks(old(part), links.assets[found.value], part)
                  else part == old(part))
              && end == (if Code(o) == 404 && !Renews(old(part), links, found) then Gone
                         else if Trailing(attempts) >= 3 then Repeated5xx else WillRetry)
      ensures s.h.stored == old(s.h.job).(retryCount := s.h.stored.retryCount, state := s.h.stored.state,
                                          error := s.h.stored.error, nextRunAt := s.h.stored.nextRunAt,
                                          claimedBy := None)
      ensures |s.h.writes| == |old(s.h.writes)| + 1
      ensures Ended(end, s.h.stored, next, next) && Failing(end, o)
    {
      hide Running, Holding, Over, LooksUp, Relinks, HeededFor, Renews, P.Digits, Pass.Gained, Pass.Wasted;
      var code := Code(o);
      var refreshed;
      refreshed, found := NoteFailure(i, code, relisted);
      if code == 404 && !refreshed {
        FailFor(GONE);
        return Gone, found;
      }
      if Is5xx(code) && s.h.job.retryCount >= MAX_5XX_RETRIES {
        FailFor("download part " + part.key + " returned HTTP " + P.Digits(code) + " " +
                P.Digits(s.h.job.retryCount) + " consecutive times");
        return Repeated5xx, found;
      }
      TryAgain(if refreshed then "download link refreshed after HTTP " + P.Digits(code) else Message(o), next);
      return WillRetry, found;
    }

    method FailFor(message: string)
      requires Running()
      modifies s`acts, s`moved, s.h
      ensures |s.h.writes| == |old(s.h.writes)| + 1
      ensures Over() && s.h.stored == Unclaimed(old(s.h.job).(state := Failed, error := Some(message),
                                                              nextRunAt := None))
      ensures Still()
    {
      hide Inv, Legal, Run, Transfers, TotalDropped, TotalReceived;
      s.h.job := s.h.job.(error := Some(message), nextRunAt := None);
      s.WriteState(Failed);
    }

    method TryAgain(message: string, next: T.Time)
      requires Running()
      modifies s`acts, s`moved, s.h
      ensures |s.h.writes| == |old(s.h.writes)| + 1
      ensures Over() && s.h.stored == Unclaimed(old(s.h.job).(state := LocalDownloading, error := Some(message),
                                                              nextRunAt := Some(next)))
      ensures Still()
    {
      hide Inv, Legal, Run, Transfers, TotalDropped, TotalReceived;
      s.h.job := s.h.job.(error := Some(message), nextRunAt := Some(next));
      s.WriteState(LocalDownloading);
    }

    /** Taking up the part of a row. */
    method Take(i: nat, row: Part)
      requires Running() && i < |s.parts| && s.parts[i] == row && !row.completed && (SeenBefore() ==> visible)
      modifies this`part, this`persisted
      ensures Running() && Holding(i) && part == row
    {
      part := row;
      persisted := false;
    }

    /** The part in hand is done: completed when it has all the bytes it is known to have. */
    method Complete(i: nat)
      requires Running() && Holding(i) && (Enough(part) ==> Whole(s.remote, s.files, part))
      modifies this`part, s`parts, s`acts, s`moved, s.h`job
      ensures Running() && s.parts == old(s.parts)[i := part] && s.h.job == old(s.h.job).(retryCount := 0) && Still()
      ensures part == old(part).(completed := old(part).contentLength == 0
                                              || old(part).contentLength <= old(part).bytesDone)
    {
      hide Running;
      SetRetryCount(i, 0);
      part := part.(completed := part.contentLength == 0 || part.bytesDone >= part.contentLength);
      assert Progresses(s.remote, s.Now(), part);
      Store(i);
    }

    /** The download of the part of one row. */
    method Attempt(i: nat, row: Part, t: Trial, next: T.Time) returns (o: Outcome, ghost x: Exchange)
      requires Running() && i < |s.parts| && s.parts[i] == row && !row.completed && (SeenBefore() ==> visible)
      modifies this`part, this`visible, this`persisted, this`attempts, s`parts, s`files, s`acts, s`moved, s.h
      ensures Running() && Holding(i) && s.parts == old(s.parts)[i := s.parts[i]] && attempts == old(attempts) + [o]
      ensures part.temp == row.temp != [] && s.h.job.remoteId == s.entry.remoteId
      ensures x.idx == i && x.size == Size(old(s.files), row.temp) && x.found.None?
      ensures Meets(t, x, DirsFit(old(s.files), row.temp[..|row.temp| - 1]), s.remote(row.key), row.contentLength,
                    strict)
      ensures Tried(x, o, row, part, Data(old(s.files), row.temp), Data(s.files, row.temp), old(s.h.job), s.h.job,
                    old(visible), visible, next)
      ensures o.Status? ==> s.h.job == old(s.h.job)
      ensures o.Done? ==> (o.enough <==> Enough(part)) && (o.enough ==> Whole(s.remote, s.files, part))
      ensures s.Gained() == old(s.Gained()) + |Body(x)| && s.Wasted() == old(s.Wasted()) + Lost(x)
      ensures Framed(old(s.files), s.files, row.temp)
    {
      hide Running, Meets, Tried, Framed, Body, Lost, Pass.Gained, Pass.Wasted;
      Take(i, row);
      RemoteIdStays();
      o, x := Download(i, t, next);
      attempts := attempts + [o];
      TriedFacts(x, o, row, part, Data(old(s.files), row.temp), Staged(), old(s.h.job), s.h.job, old(visible), visible,
                 next);
    }

    /** What follows a failed attempt. */
    method FallBack(i: nat, ghost x: Exchange, o: Outcome, t: Trial, next: T.Time, ghost row: Part, ghost disk: Files,
                    ghost before: Row, ghost seen: bool) returns (end: End, ghost y: Exchange)
      requires Running() && Holding(i) && !o.Done? && attempts != [] && attempts[|attempts| - 1] == o
      requires Is5xx(Code(o)) ==> s.h.job.retryCount == Trailing(attempts[..|attempts| - 1])
      requires s.h.job.remoteId == s.entry.remoteId && part.temp == row.temp != [] && !row.completed
      requires x.size == Size(disk, row.temp) && x.found.None?
      requires Meets(t, x, DirsFit(disk, row.temp[..|row.temp| - 1]), s.remote(row.key), row.contentLength, strict)
      requires Tried(x, o, row, part, Data(disk, row.temp), Data(s.files, row.temp), before, s.h.job, seen, visible,
                     next)
      modifies this`part, this`met, s`parts, s`acts, s`moved, s.h
      ensures Over() && s.h.stored.retryCount == Trailing(attempts) && Wrote(true) && Still()
      ensures s.parts == old(s.parts)[i := part]
      ensures met == old(met) + [y] && y == x.(found := y.found) && Body(y) == Body(x) && Lost(y) == Lost(x)
      ensures Went(y, o, t, Around(), row, disk, part, s.files)
            && Fails(y, o, t, Around(), row, Trailing(attempts), end)
      ensures visible <==> seen || Announces(y, o, part)
      ensures Figures(y, o, part, before, s.h.stored.bytesTotal, s.h.stored.bytesDone, seen, visible)
      ensures Failing(end, o) && Ended(end, s.h.stored, next, next)
    {
      hide Running, Over, Meets, Tried, Went, Framed, LooksUp, Relinks, Renews, HeededFor, Body, Lost, DirsFit, Holding;
      hide Announces, Figures, Pass.Gained, Pass.Wasted, Ended, Failing, Size, Data, Trailing, Is5xx, Code;
      WroteSoFar();
      ghost var tried, job, found := part, s.h.job, None;
      end, found := HandleError(i, o, t.relisted, next);
      WentBadly(x, o, t, Around(), row, disk, tried, part, s.files, before, job, seen, visible, next, found);
      y := x.(found := found);
      met := met + [y];
    }

    /** An attempt at the part of one row, and what follows it. */
    method AttemptPart(i: nat, row: Part, t: Trial, next: T.Time) returns (failed: Option<End>)
      requires Running() && i < |s.parts| && s.parts[i] == row && !row.completed && (SeenBefore() ==> visible)
      requires s.h.job.retryCount == Trailing(attempts) < 3
      modifies this, s`parts, s`files, s`acts, s`moved, s.h
      ensures |attempts| == |old(attempts)| + 1 && attempts[..|attempts| - 1] == old(attempts)
      ensures |met| == |old(met)| + 1 && met[..|met| - 1] == old(met)
      ensures |s.parts| == |old(s.parts)| && s.parts == old(s.parts)[i := s.parts[i]]
      ensures var x, o := met[|met| - 1], attempts[|attempts| - 1];
              && x.idx == i && Went(x, o, t, Around(), row, old(s.files), s.parts[i], s.files)
              && (failed.Some? ==> Fails(x, o, t, Around(), row, Trailing(attempts), failed.value))
              && s.Gained() == old(s.Gained()) + |Body(x)| && s.Wasted() == old(s.Wasted()) + Lost(x)
      ensures Framed(old(s.files), s.files, row.temp)
      ensures var x, o, row1 := met[|met| - 1], attempts[|attempts| - 1], if failed.None? then s.h.job else s.h.stored;
              && (visible <==> old(visible) || Announces(x, o, s.parts[i]))
              && Figures(x, o, s.parts[i], old(s.h.job), row1.bytesTotal, row1.bytesDone, old(visible), visible)
      ensures failed.None? <==> attempts[|attempts| - 1].Done?
      ensures failed.None? ==> Running() && s.h.job.retryCount == Trailing(attempts) == 0
      ensures failed.Some? ==> Over() && s.h.stored.retryCount == Trailing(attempts) <= 3 && Wrote(true)
      ensures failed.Some? ==>
                Failing(failed.value, attempts[|attempts| - 1]) && Ended(failed.value, s.h.stored, next, next)
      ensures failed == Some(Repeated5xx) <==> Trailing(attempts) == 3
    {
      hide Running, Over, Meets, Tried, Went, Framed, LooksUp, Relinks, Renews, HeededFor, Body, Lost, DirsFit, Holding,
           Announces, Figures;
      hide Pass.Gained, Pass.Wasted, Ended, Failing, Whole, Size, Data;
      var o;
      ghost var x;
      o, x := Attempt(i, row, t, next);
      ghost var tried, job, now := part, s.h.job, s.files;
      if !o.Done? {
        ghost var y;
        var end;
        end, y := FallBack(i, x, o, t, next, row, old(s.files), old(s.h.job), old(visible));
        return Some(end);
      }
      Complete(i);
      WentWell(x, o, t, Around(), row, old(s.files), tried, part, now, old(s.h.job), job, old(visible), visible, next);
      met := met + [x];
      return None;
    }

    ghost function Around(): World { World(s.remote, strict, honest, s.entry.remoteId) }

    /** The attempts of this pass so far, up to row n, and the bytes they brought and cost. */
    ghost predicate Accounts(before: nat, trials: nat -> Trial, n: nat)
      reads this, s
    {
      && before <= |attempts|
      && Attempted(met, attempts[before..], trials, Around(), s.listed.parts, s.listed.files, s.parts, s.files, n)
      && s.Gained() == ReceivedIn(met) && s.Wasted() == DroppedIn(met)
      && (visible <==> SeenBefore() || SomeAnnounces(met, attempts[before..], s.parts))
    }

    /** The task id in memory is that of the row as fetched. */
    lemma RemoteIdStays()
      requires Running()
      ensures s.h.job.remoteId == s.entry.remoteId
    {
    }

    /** The loop over the parts: every part not completed yet is attempted, up to the first failure. */
    method AttemptParts(trials: nat -> Trial, next: T.Time) returns (end: Option<End>)
      requires Running() && s.parts != [] && met == []
      requires s.listed.parts == s.parts && Grown(s.listed.files, s.files, s.parts, 0)
      requires s.Wasted() == s.Gained() == 0 && (visible <==> SeenBefore())
      requires s.h.job.retryCount == Trailing(attempts) < 3
      modifies this, s`parts, s`files, s`acts, s`moved, s.h
      ensures old(attempts) <= attempts && s.parts != []
      ensures end.Some? ==> Wrote(true)
      ensures SeenBefore() ==>
                var row := if end.None? then s.h.job else s.h.stored;
                row.bytesTotal == old(s.h.job).bytesTotal && row.bytesDone == old(s.h.job).bytesDone
      ensures end.None? ==> Running() && s.h.job.retryCount == Trailing(attempts) < 3
      ensures end.None? ==> forall k | |old(attempts)| <= k < |attempts| :: attempts[k].Done?
      ensures end.None? ==> (AllEnough(attempts, |old(attempts)|) <==> AllCompleted(s.parts))
      ensures forall k | |old(attempts)| <= k < |attempts| - 1 :: attempts[k].Done?
      ensures end.Some? ==> |attempts| > |old(attempts)| && Over() && s.h.stored.retryCount == Trailing(attempts)
      ensures end.Some? ==> Failing(end.value, attempts[|attempts| - 1]) && Trailing(attempts) <= 3
      ensures end == Some(Repeated5xx) <==> Trailing(attempts) == 3
      ensures end.Some? ==> Ended(end.value, s.h.stored, next, next)
      ensures end.None? ==> Accounts(|old(attempts)|, trials, |s.listed.parts|)
      ensures end.Some? ==> LastOf(|old(attempts)|, trials, end.value)
    {
      hide Running, Over, Accounts, Separate, LastOf, Ended, Failing;
      ghost var before := |attempts|;
      Begins(trials);
      var i := 0;
      while i < |s.parts|
        invariant i <= |s.parts| == |s.listed.parts| && Running() && Accounts(before, trials, i)
              && Separate(s.listed.parts)
        invariant s.parts != [] && s.h.job.retryCount == Trailing(attempts) < 3 && (SeenBefore() ==> visible)
        invariant SeenBefore() ==>
                    s.h.job.bytesTotal == old(s.h.job).bytesTotal && s.h.job.bytesDone == old(s.h.job).bytesDone
        invariant old(attempts) <= attempts && forall k | before <= k < |attempts| :: attempts[k].Done?
      {
        AsListed(before, trials, i);
        if s.parts[i].completed {
          PassedOver(before, trials, i);
        } else {
          var failed := AttemptNext(before, i, trials, next);
          if failed.Some? {
            return failed;
          }
        }
        i := i + 1;
      }
      AllAttempted(before, trials);
      return None;
    }

    /** The last attempt failed, and that ended the pass. */
    ghost predicate LastOf(before: nat, trials: nat -> Trial, end: End)
      reads this, s
    {
      && met != [] && before < |attempts| && met[|met| - 1].idx < |s.listed.parts|
      && Accounts(before, trials, met[|met| - 1].idx + 1)
      && Fails(met[|met| - 1], attempts[|attempts| - 1], trials(met[|met| - 1].idx), Around(),
               s.listed.parts[met[|met| - 1].idx], Trailing(attempts), end)
    }

    lemma Begins(trials: nat -> Trial)
      requires Running() && met == [] && s.listed.parts == s.parts && Grown(s.listed.files, s.files, s.parts, 0)
      requires s.Wasted() == s.Gained() == 0 && (visible <==> SeenBefore())
      ensures Accounts(|attempts|, trials, 0) && Separate(s.listed.parts)
    {
      assert Inv(s.remote, s.staging, s.Now());
      hide Running, Pass.Valid, Inv, Grown, Separate;
      assert attempts[|attempts|..] == [];
      ApartMeansSeparate(s.remote, s.staging, s.Now());
    }

    /** One exchange for each attempt of this pass, which decides how it ended; and all bytes received came in their
        bodies. */
    ghost predicate Tallied(before: nat)
      reads this, s
    {
      && |attempts| == before + |met| && (forall k | 0 <= k < |met| :: Decides(met[k], attempts[before + k]))
      && s.Gained() == ReceivedIn(met) && s.Wasted() == DroppedIn(met)
    }

    lemma AccountsTally(before: nat, trials: nat -> Trial, n: nat)
      requires Accounts(before, trials, n)
      ensures Tallied(before)
    {
      hide Grown, LooksUp, Renews, Relinks, Records, Meets, Stages, HeededFor, DirsFit, Decides;
      forall k | 0 <= k < |met|
        ensures Decides(met[k], attempts[before + k])
      {
        var j := met[k].idx;
        assert Went(met[k], attempts[before..][k], trials(j), Around(), s.listed.parts[j], s.listed.files, s.parts[j],
                    s.files);
      }
    }

    lemma AsListed(before: nat, trials: nat -> Trial, i: nat)
      requires Accounts(before, trials, i) && i < |s.parts|
      ensures |s.parts| == |s.listed.parts| && s.parts[i] == s.listed.parts[i]
    {
    }

    lemma PassedOver(before: nat, trials: nat -> Trial, i: nat)
      requires Accounts(before, trials, i) && i < |s.listed.parts| && s.listed.parts[i].completed
      ensures Accounts(before, trials, i + 1)
    {
      hide Attempted;
      AttemptedMore(met, attempts[before..], trials, Around(), s.listed.parts, s.listed.files, s.parts, s.files, i);
    }

    lemma AllAttempted(before: nat, trials: nat -> Trial)
      requires Accounts(before, trials, |s.listed.parts|) && s.parts != []
      requires forall k | before <= k < |attempts| :: attempts[k].Done?
      ensures AllEnough(attempts, before) <==> AllCompleted(s.parts)
    {
      hide Attempted, AllCompleted;
      var outcomes := attempts[before..];
      EnoughIsCompleted(met, outcomes, trials, Around(), s.listed.parts, s.listed.files, s.parts, s.files);
      assert forall k | before <= k < |attempts| :: attempts[k] == outcomes[k - before];
      assert forall k | 0 <= k < |outcomes| :: outcomes[k] == attempts[k + before];
    }

    /** The attempt at the next row. */
    method AttemptNext(ghost before: nat, i: nat, trials: nat -> Trial, next: T.Time) returns (failed: Option<End>)
      requires Running() && Accounts(before, trials, i) && Separate(s.listed.parts)
      requires SeenBefore() ==> visible
      requires i < |s.parts| == |s.listed.parts| && s.parts[i] == s.listed.parts[i] && !s.parts[i].completed
      requires s.h.job.retryCount == Trailing(attempts) < 3
      modifies this, s`parts, s`files, s`acts, s`moved, s.h
      ensures |attempts| == |old(attempts)| + 1 && attempts[..|attempts| - 1] == old(attempts)
            && |s.parts| == |old(s.parts)|
      ensures failed.None? <==> attempts[|attempts| - 1].Done?
      ensures failed.None? ==> Running() && s.h.job.retryCount == Trailing(attempts) == 0
      ensures failed.Some? ==> Over() && s.h.stored.retryCount == Trailing(attempts) <= 3 && Wrote(true)
      ensures failed.Some? ==>
                Failing(failed.value, attempts[|attempts| - 1]) && Ended(failed.value, s.h.stored, next, next)
      ensures failed == Some(Repeated5xx) <==> Trailing(attempts) == 3
      ensures Accounts(before, trials, i + 1) && (failed.Some? ==> LastOf(before, trials, failed.value))
      ensures old(visible) ==>
                var row := if failed.None? then s.h.job else s.h.stored;
                visible && row.bytesTotal == old(s.h.job).bytesTotal && row.bytesDone == old(s.h.job).bytesDone
    {
      hide Announces, SomeAnnounces, Running, Over, Separate, Went, Framed, Fails, Attempted, Ended, Failing;
      hide Pass.Gained, Pass.Wasted, Body, Lost;
      hide ReceivedIn, DroppedIn, Trailing;
      ghost var parts, files, outcomes, xs := s.parts, s.files, attempts[before..], met;
      failed := AttemptPart(i, s.parts[i], trials(i), next);
      ghost var x, o := met[|met| - 1], attempts[|attempts| - 1];
      AttemptedNext(xs, outcomes, trials, Around(), s.listed.parts, s.listed.files, parts, files, i, x, o, s.parts[i],
                    s.files);
      assert met == xs + [x] && attempts[before..] == outcomes + [o];
      TotalsNext(xs, x);
      EarlierRows(xs, outcomes, trials, Around(), s.listed.parts, s.listed.files, parts, files, i);
      AnnouncesNext(xs, outcomes, parts, i, x, o, s.parts[i]);
    }

    /** Registering the listed files as parts. Their paths stay below the staging directory
        (Paths.SafePathStaysBelow), so the branch that refuses a path is never taken. */
    method Register(assets: seq<Asset>)
      requires Running() && s.parts == [] && NothingStaged(s.files, s.staging) && s.Wasted() == s.Gained() == 0
      requires assets != [] && ListedApart(assets) && (honest ==> ListedSizes(s.remote, assets))
      modifies s`parts, s`acts, s`moved, s`since, s`listed
      ensures Running() && s.parts == RegisteredAll(assets, s.staging, |assets|)
      ensures s.since == |s.acts| && s.listed == s.Now() && s.Wasted() == s.Gained() == 0
    {
      var idx := 0;
      while idx < |assets|
        invariant idx <= |assets| && Running() && s.parts == RegisteredAll(assets, s.staging, idx)
        invariant s.Wasted() == s.Gained() == 0 && (idx > 0 ==> s.since == |s.acts| && s.listed == s.Now())
      {
        RegisterOne(assets, idx);
        idx := idx + 1;
      }
    }

    method RegisterOne(assets: seq<Asset>, idx: nat)
      requires Running() && idx < |assets| && s.parts == RegisteredAll(assets, s.staging, idx)
      requires NothingStaged(s.files, s.staging) && ListedApart(assets) && (honest ==> ListedSizes(s.remote, assets))
      requires s.Wasted() == s.Gained() == 0
      modifies s`parts, s`acts, s`moved, s`since, s`listed
      ensures Running() && s.parts == RegisteredAll(assets, s.staging, idx + 1)
      ensures s.since == |s.acts| && s.listed == s.Now() && s.Wasted() == s.Gained() == 0
    {
      hide Inv, Legal, Run, TotalDropped, Transfers;
      var part := Registered(assets[idx], idx, s.staging);
      NextRegistered(assets, s.staging, idx);
      s.RegisterPart(part);
    }

    method Sync()
      requires Running()
      modifies s.h`job
      ensures Running() && s.h.job == Synced(old(s.h.job), s.parts).(error := None)
    {
      hide Inv, Legal, Run, TotalDropped, Transfers;
      SyncJobBytesFromParts(s.h, s.parts);
      s.h.job := s.h.job.(error := None);
    }

    method EndIn(state: JobState, at: T.Time)
      requires Running() && (state == LocalDownloading || (state == LocalVerify && AllCompleted(s.parts)))
      modifies s`acts, s`moved, s.h
      ensures |s.h.writes| == |old(s.h.writes)| + 1
      ensures Over() && s.h.stored == Unclaimed(old(s.h.job).(state := state, nextRunAt := Some(at))) && Still()
    {
      hide Inv, Legal, Run, TotalDropped, TotalReceived, Transfers;
      s.h.job := s.h.job.(nextRunAt := Some(at));
      s.WriteState(state);
    }

    /** The end of a pass in which no attempt failed. */
    method Finish(now: T.Time, next: T.Time) returns (end: End)
      requires Running()
      modifies s`acts, s`moved, s.h
      ensures |s.h.writes| == |old(s.h.writes)| + 1
      ensures Over() && end == (if AllCompleted(s.parts) then Verified else InProgress)
      ensures Ended(end, s.h.stored, now, next)
      ensures s.h.stored == Unclaimed(Synced(old(s.h.job), s.parts).(state := s.h.stored.state,
                                        nextRunAt := s.h.stored.nextRunAt, error := None))
      ensures s.h.stored.bytesDone == TotalDone(s.parts)
      ensures s.h.stored.bytesTotal == if TotalLength(s.parts) > 0 then TotalLength(s.parts) else old(s.h.job).bytesTotal
      ensures Still()
    {
      hide Running, Over;
      Sync();
      var all := AllPartsCompleted(s.parts);
      if all {
        EndIn(LocalVerify, now);
        return Verified;
      }
      EndIn(LocalDownloading, next);
      return InProgress;
    }

    method FailEmpty()
      requires Running()
      modifies s`acts, s`moved, s.h
      ensures |s.h.writes| == |old(s.h.writes)| + 1
      ensures Over() && s.h.stored == Unclaimed(old(s.h.job).(state := Failed, error := Some(NO_ASSETS)))
      ensures Still()
    {
      hide Inv, Legal, Run, Transfers, TotalDropped, TotalReceived;
      s.h.job := s.h.job.(error := Some(NO_ASSETS));
      s.WriteState(Failed);
    }

    /** The parts of a job that has none yet; None once they are registered. */
    method ListParts(listing: Links, next: T.Time) returns (end: Option<End>)
      requires Running() && s.parts == [] && NothingStaged(s.files, s.staging) && s.Wasted() == s.Gained() == 0
      modifies s`parts, s`acts, s`moved, s`since, s`listed, s.h
      ensures var links := Heeded(s.remote, listing, honest);
              && (end == Some(LinksFailed) <==> links.NoLinks?)
              && (end == Some(NoAssets) <==> links.Links? && links.assets == [])
              && (end.None? ==> links.Links? && s.parts == RegisteredAll(links.assets, s.staging, |links.assets|))
              && (end.None? ==> Lists(links.assets, s.parts))
      ensures end.None? ==> Running() && s.parts != [] && s.h.job == old(s.h.job) && s.h.writes == old(s.h.writes)
      ensures end.Some? ==> |s.h.writes| == |old(s.h.writes)| + 1
      ensures end.Some? ==>
                s.h.stored == old(s.h.job).(state := s.h.stored.state, error := s.h.stored.error,
                                            nextRunAt := s.h.stored.nextRunAt, claimedBy := None)
      ensures end == Some(NoAssets) ==> s.h.stored.nextRunAt == old(s.h.job).nextRunAt
      ensures end.None? ==> s.listed.parts == s.parts && s.listed.files == s.files == old(s.files)
      ensures end.Some? ==> Over() && s.parts == [] && s.h.stored.retryCount == old(s.h.job).retryCount
      ensures s.Wasted() == s.Gained() == 0
      ensures end.Some? ==>
                Ended(end.value, s.h.stored, next, next) && (end.value == LinksFailed || end.value == NoAssets)
    {
      hide Running, Over;
      var links := GetDownloadLinks(s.remote, listing, honest);
      if links.NoLinks? {
        TryAgain(links.message, next);
        return Some(LinksFailed);
      }
      if links.assets == [] {
        FailEmpty();
        return Some(NoAssets);
      }
      Register(links.assets);
      return None;
    }

    /** The rows of a listing, one for each file, in order, with nothing downloaded. */
    ghost predicate Lists(assets: seq<Asset>, rows: seq<Part>)
    {
      |rows| == |assets| && forall j | 0 <= j < |assets| ::
        && rows[j].key == (if assets[j].fileId != "" then assets[j].fileId else "asset-" + P.Padded(j))
        && rows[j].fileId == (if assets[j].fileId != "" then Some(assets[j].fileId) else None)
        && rows[j].url == assets[j].url && rows[j].rel == P.Split(P.SafeRelativePath(assets[j].relativePath, j))
        && rows[j].temp == s.staging + rows[j].rel && rows[j].contentLength == assets[j].size
        && rows[j].bytesDone == 0 && !rows[j].completed
    }

    /** The start of a pass: the staging directory is named and made. */
    method Prepare() returns (ok: bool)
      requires Opening()
      modifies s`files, s`acts, s`moved, s.h`job
      ensures Running() && s.h.job == s.entry.(stagingPath := Some(s.staging)) && s.h.writes == []
      ensures s.parts == [] ==> NothingStaged(s.files, s.staging)
      ensures s.listed.parts == s.parts && Grown(s.listed.files, s.files, s.parts, 0)
      ensures ok ==> s.files == WithDirs(old(s.files), s.staging)
      ensures ok == DirsFit(old(s.files), s.staging) && (!ok ==> Over()) && s.Wasted() == s.Gained() == 0
    {
      if s.h.job.stagingPath.None? {
        s.h.job := s.h.job.(stagingPath := Some(s.staging));
      }
      forall i | 0 <= i < |s.parts| ensures !(s.parts[i].temp <= s.staging) {
        assert PartOk(s.remote, s.staging, s.files, s.parts[i]);
      }
      ok := s.MakeDirs(s.staging);
    }

    /** One pass of the downloader over the job in hand. */
    method ProcessDownloadJob(listing: Links, trials: nat -> Trial, now: T.Time, next: T.Time) returns (end: End)
      requires Opening() && met == []
      requires s.h.stored.retryCount == s.h.job.retryCount == Trailing(attempts) < 3
      modifies this, s`parts, s`files, s`acts, s`moved, s`since, s`listed, s.h
      ensures Over() && old(attempts) <= attempts
      ensures s.h.stored.retryCount == Trailing(attempts) <= 3
      ensures end == Repeated5xx <==> Trailing(attempts) == 3
      ensures Ended(end, s.h.stored, now, next)
      ensures end == NoDirectory <==> !DirsFit(old(s.files), s.staging)
      ensures end == NoDirectory ==> s.h.stored == old(s.h.stored) && s.parts == old(s.parts)
      ensures end == LinksFailed <==>
                end != NoDirectory && old(s.parts) == [] && Heeded(s.remote, listing, honest).NoLinks?
      ensures end == NoAssets <==>
                end != NoDirectory && old(s.parts) == [] && Heeded(s.remote, listing, honest) == Links([])
      ensures s.parts == [] ==> end == NoDirectory || end == LinksFailed || end == NoAssets
      ensures old(s.parts) == [] && s.parts != [] ==>
                var links := Heeded(s.remote, listing, honest);
                && links.Links? && s.listed.parts == RegisteredAll(links.assets, s.staging, |links.assets|)
                && Lists(links.assets, s.listed.parts)
      ensures old(s.parts) == [] && s.parts != [] ==> s.listed.files == WithDirs(old(s.files), s.staging)
      ensures old(s.parts) != [] ==> s.listed.parts == old(s.parts) && s.listed.files == old(s.files)
      ensures end == NoDirectory || s.parts == [] ==> met == [] && attempts == old(attempts)
      ensures end == NoDirectory || s.parts == [] ==> s.Gained() == s.Wasted() == 0
      ensures Stopped(old(attempts), attempts) <==> end == Gone || end == Repeated5xx || end == WillRetry
      ensures Stopped(old(attempts), attempts) ==> Failing(end, attempts[|attempts| - 1])
      ensures end == Verified <==>
                s.parts != [] && end != NoDirectory && AllEnough(attempts, |old(attempts)|)
                    && !Stopped(old(attempts), attempts)
      ensures end == Verified ==> AllCompleted(s.parts)
      ensures end == Verified || end == InProgress ==> s.h.stored.bytesDone == TotalDone(s.parts)
      ensures forall k | |old(attempts)| <= k < |attempts| - 1 :: attempts[k].Done?
      ensures |s.h.writes| ==
              if end == NoDirectory then 0 else if s.parts != [] && visible && !SeenBefore() then 2 else 1
      ensures (Stopped(old(attempts), attempts) && SeenBefore()) || end == LinksFailed || end == NoAssets ==>
                s.h.stored.bytesTotal == s.entry.bytesTotal && s.h.stored.bytesDone == s.entry.bytesDone
      ensures end == NoAssets ==> s.h.stored.nextRunAt == s.entry.nextRunAt
      ensures end != NoDirectory && s.parts != [] ==>
                PassOf(met, attempts[|old(attempts)|..], trials, Around(), s.listed.parts, s.listed.files, s.parts,
                       s.files, Trailing(attempts), end)
      ensures s.Conserves(old(s.parts), old(s.files)) && Tallied(|old(attempts)|)
    {
      hide Tallied, Running, Over, Pass.Valid, Pass.Conserves, Grown, Accounts, LastOf, Lists, Failing, AllEnough;
      hide PassOf, WithDirs, AllCompleted, NothingStaged, RegisteredAll, SeenBefore, Around;
      hide DirsFit;
      hide Heeded, TotalDone, Trailing, Pass.Gained, Pass.Wasted;
      var ok := Prepare();
      if !ok {
        end := NoDirectory;
      } else {
        end := Work(listing, trials, now, next);
      }
      Settled(old(s.parts), old(s.files));
      WorkTallies(|old(attempts)|, trials, end);
      WorkIsPass(|old(attempts)|, trials, end);
    }

    lemma WorkIsPass(before: nat, trials: nat -> Trial, end: End)
      requires end != NoDirectory && s.parts != [] ==>
                 if end == Verified || end == InProgress then Accounts(before, trials, |s.listed.parts|)
                 else LastOf(before, trials, end)
      ensures before <= |attempts| && end != NoDirectory && s.parts != [] ==>
                PassOf(met, attempts[before..], trials, Around(), s.listed.parts, s.listed.files, s.parts, s.files,
                       Trailing(attempts), end)
    {
      hide Attempted, Fails;
    }

    lemma WorkTallies(before: nat, trials: nat -> Trial, end: End)
      requires if end == NoDirectory || s.parts == [] then
                 met == [] && |attempts| == before && s.Gained() == s.Wasted() == 0
               else if end == Verified || end == InProgress then Accounts(before, trials, |s.listed.parts|)
               else LastOf(before, trials, end)
      ensures Tallied(before)
    {
      hide Accounts, Tallied, Pass.Gained, Pass.Wasted, ReceivedIn, DroppedIn;
      if end == NoDirectory || s.parts == [] {
        NothingTallied(before);
      } else if end == Verified || end == InProgress {
        AccountsTally(before, trials, |s.listed.parts|);
      } else {
        AccountsTally(before, trials, met[|met| - 1].idx + 1);
      }
    }

    lemma NothingTallied(before: nat)
      requires met == [] && |attempts| == before && s.Gained() == s.Wasted() == 0
      ensures Tallied(before)
    {
    }

    lemma Settled(before: seq<Part>, disk: Files)
      requires Over() && (s.parts == [] ==> before == [] && s.Wasted() == s.Gained() == 0)
      requires before != [] ==> s.listed.parts == before && s.listed.files == disk
      requires before == [] && s.parts != [] ==> NothingStaged(s.listed.files, s.staging)
      ensures s.Conserves(before, disk)
    {
      hide DownloadWrites, NothingStaged, TotalDropped, TotalReceived;
      s.Balance();
      s.SameSizes();
      if before == [] && s.parts != [] {
        s.AllWasMissing();
      }
    }

    method Work(listing: Links, trials: nat -> Trial, now: T.Time, next: T.Time) returns (end: End)
      requires Running() && !visible && s.Wasted() == s.Gained() == 0 && met == []
      requires s.parts == [] ==> NothingStaged(s.files, s.staging)
      requires s.h.job == s.entry.(stagingPath := Some(s.staging)) && s.h.writes == []
      requires s.listed.parts == s.parts && Grown(s.listed.files, s.files, s.parts, 0)
      requires s.h.job.retryCount == Trailing(attempts) < 3
      modifies this, s`parts, s`files, s`acts, s`moved, s`since, s`listed, s.h
      ensures Over() && old(attempts) <= attempts && end != NoDirectory
      ensures s.h.stored.retryCount == Trailing(attempts) <= 3
      ensures end == Repeated5xx <==> Trailing(attempts) == 3
      ensures Ended(end, s.h.stored, now, next)
      ensures end == LinksFailed <==> old(s.parts) == [] && Heeded(s.remote, listing, honest).NoLinks?
      ensures end == NoAssets <==> old(s.parts) == [] && Heeded(s.remote, listing, honest) == Links([])
      ensures s.parts == [] <==> end == LinksFailed || end == NoAssets
      ensures s.parts == [] ==> met == [] && attempts == old(attempts) && s.Wasted() == s.Gained() == 0
      ensures old(s.parts) == [] && s.parts != [] ==>
                var links := Heeded(s.remote, listing, honest);
                && links.Links? && s.listed.parts == RegisteredAll(links.assets, s.staging, |links.assets|)
                && Lists(links.assets, s.listed.parts)
      ensures old(s.parts) != [] ==> s.listed == old(s.listed)
      ensures end == Verified || end == InProgress ==> Accounts(|old(attempts)|, trials, |s.listed.parts|)
      ensures Stopped(old(attempts), attempts) <==> end == Gone || end == Repeated5xx || end == WillRetry
      ensures Stopped(old(attempts), attempts) ==> LastOf(|old(attempts)|, trials, end)
      ensures Stopped(old(attempts), attempts) ==> Failing(end, attempts[|attempts| - 1])
      ensures end == Verified <==>
                s.parts != [] && AllEnough(attempts, |old(attempts)|) && !Stopped(old(attempts), attempts)
      ensures end == Verified ==> AllCompleted(s.parts)
      ensures end == Verified || end == InProgress ==> s.h.stored.bytesDone == TotalDone(s.parts)
      ensures forall k | |old(attempts)| <= k < |attempts| - 1 :: attempts[k].Done?
      ensures old(s.parts) == [] && s.parts != [] ==> NothingStaged(s.listed.files, s.staging)
      ensures |s.h.writes| == if s.parts != [] && visible && !SeenBefore() then 2 else 1
      ensures (Stopped(old(attempts), attempts) && SeenBefore()) || end == LinksFailed || end == NoAssets ==>
                s.h.stored.bytesTotal == s.entry.bytesTotal && s.h.stored.bytesDone == s.entry.bytesDone
      ensures end == NoAssets ==> s.h.stored.nextRunAt == s.entry.nextRunAt
      ensures old(s.parts) == [] && s.parts != [] ==> s.listed.files == old(s.files)
    {
      hide Running, Over, NothingStaged, Grown, Accounts, LastOf, Lists, AllCompleted, Trailing, AllEnough, Heeded;
      hide Failing;
      hide TotalDone, Pass.Gained, Pass.Wasted, Ended;
      if s.parts == [] {
        var failed := ListParts(listing, next);
        if failed.Some? {
          EndedEarly(failed.value, s.h.stored, now, next);
          return failed.value;
        }
        NothingGrown(s.files, s.parts);
      }
      end := Attend(trials, now, next);
    }

    /** A pass whose parts are registered. */
    method Attend(trials: nat -> Trial, now: T.Time, next: T.Time) returns (end: End)
      requires Running() && !visible && s.Wasted() == s.Gained() == 0 && met == [] && s.parts != []
      requires s.h.job == s.entry.(stagingPath := Some(s.staging)) && s.h.writes == []
      requires s.listed.parts == s.parts && Grown(s.listed.files, s.files, s.parts, 0)
      requires s.h.job.retryCount == Trailing(attempts) < 3
      modifies this, s`parts, s`files, s`acts, s`moved, s.h
      ensures Over() && old(attempts) <= attempts && s.parts != []
      ensures s.h.stored.retryCount == Trailing(attempts) <= 3
      ensures end == Repeated5xx <==> Trailing(attempts) == 3
      ensures Ended(end, s.h.stored, now, next)
      ensures end == Gone || end == Repeated5xx || end == WillRetry || end == Verified || end == InProgress
      ensures end == Verified || end == InProgress ==> Accounts(|old(attempts)|, trials, |s.listed.parts|)
      ensures Stopped(old(attempts), attempts) <==> end == Gone || end == Repeated5xx || end == WillRetry
      ensures Stopped(old(attempts), attempts) ==> LastOf(|old(attempts)|, trials, end)
      ensures Stopped(old(attempts), attempts) ==> Failing(end, attempts[|attempts| - 1])
      ensures end == Verified <==> AllEnough(attempts, |old(attempts)|) && !Stopped(old(attempts), attempts)
      ensures end == Verified ==> AllCompleted(s.parts)
      ensures end == Verified || end == InProgress ==> s.h.stored.bytesDone == TotalDone(s.parts)
      ensures forall k | |old(attempts)| <= k < |attempts| - 1 :: attempts[k].Done?
      ensures |s.h.writes| == if visible && !SeenBefore() then 2 else 1
      ensures Stopped(old(attempts), attempts) && SeenBefore() ==>
                s.h.stored.bytesTotal == s.entry.bytesTotal && s.h.stored.bytesDone == s.entry.bytesDone
    {
      hide Running, Over, NothingStaged, Grown, Accounts, LastOf, AllCompleted, Trailing, AllEnough, Failing;
      hide TotalDone, Pass.Gained, Pass.Wasted, Ended;
      Recall();
      var failed := AttemptParts(trials, next);
      if failed.Some? {
        FailingEnds(failed.value, attempts[|attempts| - 1]);
        EndedEarly(failed.value, s.h.stored, now, next);
        return failed.value;
      }
      WroteSoFar();
      end := FinishAll(|old(attempts)|, trials, now, next);
    }

    /** The end of a pass in which every part was attempted. */
    method FinishAll(ghost before: nat, ghost trials: nat -> Trial, now: T.Time, next: T.Time) returns (end: End)
      requires Running() && Accounts(before, trials, |s.listed.parts|)
      modifies s`acts, s`moved, s.h
      ensures Over() && end == (if AllCompleted(s.parts) then Verified else InProgress)
      ensures Ended(end, s.h.stored, now, next) && s.h.stored.bytesDone == TotalDone(s.parts)
      ensures s.h.stored.retryCount == old(s.h.job).retryCount && |s.h.writes| == |old(s.h.writes)| + 1
      ensures Accounts(before, trials, |s.listed.parts|)
    {
      hide Running, Over, Attempted, AllCompleted, Pass.Gained, Pass.Wasted;
      end := Finish(now, next);
    }

    /** Whether the download already shows in the table. */
    method Recall()
      requires Running() && !visible && s.h.writes == [] && s.h.job == s.entry.(stagingPath := Some(s.staging))
      modifies this`visible
      ensures Running() && (visible <==> SeenBefore())
    {
      visible := s.h.job.state == LocalDownloading && s.h.job.bytesTotal > 0;
    }
  }

  lemma FailingEnds(end: End, o: Outcome)
    requires Failing(end, o)
    ensures !o.Done? && (end == Gone || end == Repeated5xx || end == WillRetry)
  {
  }

  /** Only the end of a download asks for the time as it is. */
  lemma EndedEarly(end: End, row: Row, now: T.Time, next: T.Time)
    requires Ended(end, row, next, next) && end != Verified
    ensures Ended(end, row, now, next)
  {
  }

  lemma EndedUnclaimed(end: End, stored: Row, now: T.Time, next: T.Time)
    requires Ended(end, stored, now, next)
    ensures Ended(end, stored.(claimedBy := None), now, next)
  {
  }

  lemma NothingGrown(files: Files, rows: seq<Part>)
    ensures Grown(files, files, rows, 0)
  {
  }

  lemma EarlierRows(met: seq<Exchange>, outcomes: seq<Outcome>, trials: nat -> Trial, world: World, rows: seq<Part>,
                    disk: Files, parts: seq<Part>, files: Files, n: nat)
    requires Attempted(met, outcomes, trials, world, rows, disk, parts, files, n)
    ensures |outcomes| == |met| && forall k | 0 <= k < |met| :: met[k].idx < n
  {
    hide Went, Grown;
    forall k | 0 <= k < |met| ensures met[k].idx < n {
      assert Rows(met)[k] == Due(rows, n)[k];
    }
  }

  lemma AnnouncesNext(met: seq<Exchange>, outcomes: seq<Outcome>, parts: seq<Part>, i: nat, x: Exchange, o: Outcome,
                      now: Part)
    requires i < |parts| && x.idx == i && |outcomes| == |met| && forall k | 0 <= k < |met| :: met[k].idx < i
    ensures SomeAnnounces(met + [x], outcomes + [o], parts[i := now]) <==>
            SomeAnnounces(met, outcomes, parts) || Announces(x, o, now)
  {
    hide Announces;
    var met2, outcomes2, parts2 := met + [x], outcomes + [o], parts[i := now];
    if SomeAnnounces(met, outcomes, parts) {
      var k :| 0 <= k < |met| && k < |outcomes| && met[k].idx < |parts|
               && Announces(met[k], outcomes[k], parts[met[k].idx]);
      assert met2[k] == met[k] && outcomes2[k] == outcomes[k] && parts2[met[k].idx] == parts[met[k].idx];
    }
    if Announces(x, o, now) {
      assert met2[|met|] == x && outcomes2[|met|] == o && parts2[i] == now;
    }
    if SomeAnnounces(met2, outcomes2, parts2) {
      var k :| 0 <= k < |met2| && k < |outcomes2| && met2[k].idx < |parts2|
               && Announces(met2[k], outcomes2[k], parts2[met2[k].idx]);
      assert k < |met| ==> met2[k] == met[k] && outcomes2[k] == outcomes[k] && parts2[met[k].idx] == parts[met[k].idx];
    }
  }

  lemma TotalsNext(met: seq<Exchange>, x: Exchange)
    ensures ReceivedIn(met + [x]) == ReceivedIn(met) + |Body(x)| && DroppedIn(met + [x]) == DroppedIn(met) + Lost(x)
  {
    assert (met + [x])[..|met|] == met;
  }

  lemma UpdatedTwice(a: seq<Part>, b: seq<Part>, i: nat, part: Part)
    requires i < |a| && i < |b| && b == a[i := b[i]]
    ensures b[i := part] == a[i := part]
  {
  }

  /** A body, put behind what is staged or in its place, is part of the file, and the rest of it if it ends
      cleanly and nothing larger is known. */
  lemma BodyFits(content: Bytes, staged: Bytes, known: nat, a: Answer, strict: bool)
    requires Honours(content, |staged|, known, a, strict) && HasBody(a) && staged <= content
    ensures var kept := if a.status == 206 then staged else [];
            var total := ContentLength(a, |kept|);
            var size := if total > 0 then total else known;
            && (a.status == 206 ==> staged != []) && (a.status != 206 && strict ==> staged == [])
            && total <= |content| && kept + Concat(a.chunks) <= content
            && (a.clean && (size == 0 || size <= |kept| + |Concat(a.chunks)|) ==> kept + Concat(a.chunks) == content)
  {
    if a.status == 206 {
      Resumed(content, staged, Concat(a.chunks));
    } else {
      assert [] + Concat(a.chunks) == Concat(a.chunks);
    }
  }

  /** A prefix of a file, gone on with from where it ends. */
  lemma Resumed(content: Bytes, staged: Bytes, body: Bytes)
    requires staged <= content && body <= content[|staged|..]
    ensures staged + body <= content
    ensures body == content[|staged|..] ==> staged + body == content
  {
    assert content == staged + content[|staged|..];
  }

  /** No part stands in the way of the directory of another. */
  lemma ParentsApart(remote: Remote, staging: Path, p: Pipe, i: nat)
    requires Inv(remote, staging, p) && i < |p.parts|
    ensures p.parts[i].temp != []
    ensures var dir := p.parts[i].temp[..|p.parts[i].temp| - 1];
            forall j | 0 <= j < |p.parts| :: !(p.parts[j].temp <= dir)
  {
    assert PartOk(remote, staging, p.files, p.parts[i]);
    var dir := p.parts[i].temp[..|p.parts[i].temp| - 1];
    forall j | 0 <= j < |p.parts| ensures !(p.parts[j].temp <= dir) {
      var other, mine := p.parts[j].temp, p.parts[i].temp;
      assert other <= dir ==> other <= mine;
    }
  }

  lemma ApartMeansSeparate(remote: Remote, staging: Path, p: Pipe)
    requires Inv(remote, staging, p)
    ensures Separate(p.parts)
  {
    forall j | 0 <= j < |p.parts|
      ensures p.parts[j].temp != []
      ensures forall i | 0 <= i < |p.parts| :: !(p.parts[i].temp <= p.parts[j].temp[..|p.parts[j].temp| - 1])
    {
      ParentsApart(remote, staging, p, j);
    }
  }

  /** The parts registered for the first n files of a listing. */
  function RegisteredAll(assets: seq<Asset>, staging: Path, n: nat): (r: seq<Part>)
    requires n <= |assets|
    ensures |r| == n && forall j | 0 <= j < n :: r[j] == Registered(assets[j], j, staging)
  {
    seq(n, j requires 0 <= j < n => Registered(assets[j], j, staging))
  }

  /** A listing with distinct keys and paths registers parts that stay apart. */
  lemma NextRegistered(assets: seq<Asset>, staging: Path, idx: nat)
    requires idx < |assets| && ListedApart(assets)
    ensures var parts, part := RegisteredAll(assets, staging, idx), Registered(assets[idx], idx, staging);
            && PutPart(parts, part) == RegisteredAll(assets, staging, idx + 1) && Apart(PutPart(parts, part))
            && part.rel != [] && part.temp == staging + part.rel
  {
    var parts, part := RegisteredAll(assets, staging, idx), Registered(assets[idx], idx, staging);
    assert forall j | 0 <= j < idx :: parts[j].key != part.key;
    var more := RegisteredAll(assets, staging, idx + 1);
    assert FindPart(parts, part.key) == None;
    assert PutPart(parts, part) == more;
    forall i, j | 0 <= i <= idx && 0 <= j <= idx && i != j
      ensures more[i].key != more[j].key && !(more[i].temp <= more[j].temp)
    {
      PrefixBelow(staging, SafeRel(assets[i], i), SafeRel(assets[j], j));
    }
  }

  lemma PrefixBelow(root: Path, a: Path, b: Path)
    ensures root + a <= root + b ==> a <= b
  {
    if root + a <= root + b {
      assert forall k | 0 <= k < |a| :: a[k] == (root + a)[|root| + k] == (root + b)[|root| + k] == b[k];
    }
  }
}
