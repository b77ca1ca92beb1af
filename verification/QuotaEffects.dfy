/** What the accounting of temporary bytes does for its callers: which offers and reports are taken, and what an end gives back. */
module QuotaEffects {
  import opened Common
  import opened TemporaryQuota

  // ---------------------------------------------------------------- downloads

  ghost predicate DistinctGuids(downloads: seq<Download>) {
    forall i, j :: 0 <= i < j < |downloads| ==> downloads[i].guid != downloads[j].guid
  }

  ghost predicate Known(downloads: seq<Download>, guid: string) {
    exists i :: 0 <= i < |downloads| && downloads[i].guid == guid
  }

  lemma {:induction false} FindIsFirst(downloads: seq<Download>, guid: string)
    ensures var i := FindDownload(downloads, guid);
            (i < |downloads| <==> Known(downloads, guid)) && forall j :: 0 <= j < i ==> downloads[j].guid != guid
  {
    if downloads != [] && downloads[0].guid != guid {
      FindIsFirst(downloads[1..], guid);
      if Known(downloads, guid) {
        var i :| 0 <= i < |downloads| && downloads[i].guid == guid;
        assert downloads[1..][i - 1] == downloads[i];
      }
    }
  }

  lemma FindsThe(downloads: seq<Download>, i: nat)
    requires DistinctGuids(downloads) && i < |downloads|
    ensures FindDownload(downloads, downloads[i].guid) == i
  {
    FindIsFirst(downloads, downloads[i].guid);
  }

  lemma StepKeepsGuids(lower: string -> string, q: Quota, e: Event)
    requires DistinctGuids(q.downloads) && Enabled(q, e)
    ensures DistinctGuids(Step(lower, q, e).downloads)
  {
    if e.DownloadReported? || e.DownloadRemoved? {
      FindIsFirst(q.downloads, e.guid);
    }
  }

  /** In any run the table holds a download once. */
  lemma {:induction false} GuidsStayDistinct(lower: string -> string, qs: seq<Quota>, es: seq<Event>, n: nat)
    requires IsRun(lower, qs, es) && n <= |es|
    ensures DistinctGuids(qs[n].downloads)
  {
    if n > 0 {
      GuidsStayDistinct(lower, qs, es, n - 1);
      assert Follows(lower, qs, es, n - 1);
      StepKeepsGuids(lower, qs[n - 1], es[n - 1]);
    }
  }

  /** Only the table of downloads differs. */
  ghost predicate OnlyDownloads(q: Quota, q': Quota) {
    q' == q.(downloads := q'.downloads)
  }

  /**
   In any run a report on a known download replaces what it holds, in its place and without counting
   it twice, if and only if it is allowed, within the file size and within the quota.
   */
  lemma KnownDownloadIsResized(lower: string -> string, qs: seq<Quota>, es: seq<Event>, i: nat, bytes: nat, allowed: bool, sinkAccepts: bool)
    requires IsRun(lower, qs, es) && i < |qs[|es|].downloads|
    ensures var q := qs[|es|]; var d := q.downloads[i];
            var q' := Step(lower, q, DownloadReported(d.guid, bytes, allowed, sinkAccepts));
            if allowed && sinkAccepts && bytes <= q.limits.maxFileBytes
               && q.uploadReservedBytes + DownloadBytes(q.downloads) - d.bytes + bytes <= q.limits.maxTemporaryBytes
            then OnlyDownloads(q, q') && |q'.downloads| == |q.downloads| && q'.downloads[i] == Download(d.guid, bytes)
                 && (forall j :: 0 <= j < |q.downloads| && j != i ==> q'.downloads[j] == q.downloads[j])
                 && DownloadBytes(q'.downloads) == DownloadBytes(q.downloads) - d.bytes + bytes
            else q' == q
  {
    GuidsStayDistinct(lower, qs, es, |es|);
    var q := qs[|es|];
    FindsThe(q.downloads, i);
    DownloadUpdate(q.downloads, i, Download(q.downloads[i].guid, bytes));
  }

  /** A report on an unknown download enters it if and only if there is also a place left for it. */
  lemma NewDownloadIsEntered(lower: string -> string, q: Quota, guid: string, bytes: nat, allowed: bool, sinkAccepts: bool)
    requires !Known(q.downloads, guid)
    ensures var q' := Step(lower, q, DownloadReported(guid, bytes, allowed, sinkAccepts));
            if allowed && sinkAccepts && bytes <= q.limits.maxFileBytes && |q.downloads| < q.limits.maxFiles
               && q.uploadReservedBytes + DownloadBytes(q.downloads) + bytes <= q.limits.maxTemporaryBytes
            then OnlyDownloads(q, q') && q'.downloads == q.downloads + [Download(guid, bytes)]
                 && DownloadBytes(q'.downloads) == DownloadBytes(q.downloads) + bytes
            else q' == q
  {
    FindIsFirst(q.downloads, guid);
    DownloadAppend(q.downloads, Download(guid, bytes));
  }

  /** In any run a removal takes exactly the named download and its bytes; an unknown one changes nothing. */
  lemma RemovedDownloadFreesItsBytes(lower: string -> string, qs: seq<Quota>, es: seq<Event>, i: nat)
    requires IsRun(lower, qs, es) && i < |qs[|es|].downloads|
    ensures var q := qs[|es|]; var q' := Step(lower, q, DownloadRemoved(q.downloads[i].guid));
            && OnlyDownloads(q, q') && q'.downloads == q.downloads[..i] + q.downloads[i + 1..]
            && DownloadBytes(q'.downloads) == DownloadBytes(q.downloads) - q.downloads[i].bytes
  {
    GuidsStayDistinct(lower, qs, es, |es|);
    FindsThe(qs[|es|].downloads, i);
    DownloadDrop(qs[|es|].downloads, i);
  }

  lemma UnknownDownloadIsIgnored(lower: string -> string, q: Quota, guid: string)
    requires !Known(q.downloads, guid)
    ensures Step(lower, q, DownloadRemoved(guid)) == q
  {
    FindIsFirst(q.downloads, guid);
  }

  // ------------------------------------------------------------------ uploads

  /** The active transfer is being aborted, still holding its bytes, and its timer is cleared; without one nothing changes. */
  ghost predicate GivesUpActive(q: Quota, q': Quota) {
    if q.active.None? then q' == q
    else
      && q.active.value < |q.uploads|
      && q' == q.(active := None, timers := q'.timers, uploads := q'.uploads)
      && (forall u :: u in q'.timers <==> u in q.timers && u != q.active.value)
      && |q'.uploads| == |q.uploads|
      && (forall u :: 0 <= u < |q.uploads| ==>
            q'.uploads[u] == if u == q.active.value then Upload(q.uploads[u].transferId, q.uploads[u].size, Aborting) else q.uploads[u])
  }

  ghost predicate HasAllowedExtension(lower: string -> string, name: string, limits: Limits) {
    limits.allowedExtensions == []
    || exists extension :: extension in limits.allowedExtensions && |extension| <= |lower(name)|
                           && lower(name)[|lower(name)| - |extension|..] == extension
  }

  /** What an offer's files must respect besides the room that is left. */
  ghost predicate BatchFits(lower: string -> string, files: seq<OfferedFile>, limits: Limits) {
    && 1 <= |files| <= limits.maxFiles
    && (forall f :: f in files ==> f.size <= limits.maxFileBytes && HasAllowedExtension(lower, f.displayName, limits))
    && TotalSize(files) <= limits.maxBatchBytes && TotalSize(files) <= 9_007_199_254_740_991
  }

  lemma BatchFitsIffAllowed(lower: string -> string, files: seq<OfferedFile>, limits: Limits)
    ensures BatchFits(lower, files, limits) <==> UploadAllowed(lower, files, limits)
  {
    forall f | f in files ensures HasAllowedExtension(lower, f.displayName, limits) <==> ExtensionAllowed(lower, f, limits) {
      if ExtensionAllowed(lower, f, limits) && limits.allowedExtensions != [] {
        var i :| 0 <= i < |limits.allowedExtensions| && EndsWith(lower(f.displayName), limits.allowedExtensions[i]);
        assert limits.allowedExtensions[i] in limits.allowedExtensions;
      }
    }
    if UploadAllowed(lower, files, limits) {
      forall f | f in files ensures f.size <= limits.maxFileBytes && ExtensionAllowed(lower, f, limits) {
        var i :| 0 <= i < |files| && files[i] == f;
      }
    }
  }

  /**
   In any run an offer is taken, with its bytes reserved, if and only if it is welcome, no transfer is
   active, its files respect the limits and the quota has room; a refused one ends the active transfer.
   */
  lemma OfferIsTakenIffItFits(lower: string -> string, qs: seq<Quota>, es: seq<Event>, transferId: string, files: seq<OfferedFile>, welcome: bool)
    requires IsRun(lower, qs, es) && Enabled(qs[|es|], Offer(transferId, files, welcome))
    ensures var q := qs[|es|]; var q' := Step(lower, q, Offer(transferId, files, welcome));
            if welcome && q.active.None? && BatchFits(lower, files, q.limits)
               && q.uploadReservedBytes + DownloadBytes(q.downloads) + TotalSize(files) <= q.limits.maxTemporaryBytes
            then q' == q.(uploadReservedBytes := q.uploadReservedBytes + TotalSize(files),
                          uploads := q.uploads + [Upload(transferId, TotalSize(files), Reserving)],
                          job := Offering(|q.uploads|))
            else GivesUpActive(q, q')
  {
    QuotaHolds(lower, qs, es, |es|);
    BatchFitsIffAllowed(lower, files, qs[|es|].limits);
  }

  /** In any run a cancellation, a failed message and the cleanup of a close end the active transfer. */
  lemma CancellationEndsTheTransfer(lower: string -> string, qs: seq<Quota>, es: seq<Event>, e: Event)
    requires IsRun(lower, qs, es) && Enabled(qs[|es|], e) && (e.QueuedCancel? || e.Cleanup? || e.HandlingFailed?)
    ensures var q := qs[|es|];
            GivesUpActive(if e.HandlingFailed? then q.(job := Idle) else q, Step(lower, q, e))
  {
    QuotaHolds(lower, qs, es, |es|);
  }

  /** In any run a timer that fires ends the active transfer if and only if that has its identifier. */
  lemma TimerEndsItsIdentifier(lower: string -> string, qs: seq<Quota>, es: seq<Event>, u: nat)
    requires IsRun(lower, qs, es) && Enabled(qs[|es|], TimerFires(u))
    ensures var q := qs[|es|]; var fired := q.(timers := q.timers - {u}); var q' := Step(lower, q, TimerFires(u));
            && u < |q.uploads|
            && (if q.active.Some? && q.active.value < |q.uploads| && q.uploads[q.active.value].transferId == q.uploads[u].transferId
                then GivesUpActive(fired, q') else q' == fired)
  {
    QuotaHolds(lower, qs, es, |es|);
  }

  /** An offer that may be taken in the present state. */
  ghost predicate Takes(lower: string -> string, q: Quota, files: seq<OfferedFile>) {
    && q.job.Idle? && !q.closed && q.active.None? && BatchFits(lower, files, q.limits)
    && q.uploadReservedBytes + DownloadBytes(q.downloads) + TotalSize(files) <= q.limits.maxTemporaryBytes
  }

  /** The states of an upload that goes well: taken, reserved, a chunk written, completed. */
  ghost predicate GoesThrough(lower: string -> string, q: Quota, offer: Event, q': Quota)
    requires offer.Offer? && Enabled(q, offer)
  {
    var q1 := Step(lower, q, offer);
    && Enabled(q1, ReservationsDone)
    && var q2 := Step(lower, q1, ReservationsDone);
    && Enabled(q2, BeginChunk)
    && var q3 := Step(lower, q2, BeginChunk);
    && Enabled(q3, HandlingDone)
    && var q4 := Step(lower, q3, HandlingDone);
    && Enabled(q4, BeginComplete)
    && var q5 := Step(lower, q4, BeginComplete);
    && Enabled(q5, HandlingDone)
    && q' == Step(lower, q5, HandlingDone)
  }

  /** In any run an offer that fits can be seen through: its files are delivered and its bytes stay reserved. */
  lemma UploadGoesThrough(lower: string -> string, qs: seq<Quota>, es: seq<Event>, transferId: string, files: seq<OfferedFile>)
    requires IsRun(lower, qs, es) && Takes(lower, qs[|es|], files)
    ensures var q := qs[|es|]; var u := |q.uploads|;
            GoesThrough(lower, q, Offer(transferId, files, true),
              q.(uploadReservedBytes := q.uploadReservedBytes + TotalSize(files),
                 uploads := q.uploads + [Upload(transferId, TotalSize(files), Committed)],
                 delivered := q.delivered + {u}))
  {
    QuotaHolds(lower, qs, es, |es|);
    BatchFitsIffAllowed(lower, files, qs[|es|].limits);
    var q := qs[|es|];
    var u := |q.uploads|;
    var q1 := Step(lower, q, Offer(transferId, files, true));
    var q2 := Step(lower, q1, ReservationsDone);
    var q4 := Step(lower, Step(lower, q2, BeginChunk), HandlingDone);
    assert u !in q.timers;
    assert q2.uploads == q.uploads + [Upload(transferId, TotalSize(files), Active)];
    assert q4.timers == q.timers + {u};
    var q5 := Step(lower, q4, BeginComplete);
    assert q5.timers == q.timers;
    assert Step(lower, q5, HandlingDone).uploads == q.uploads + [Upload(transferId, TotalSize(files), Committed)];
  }

  /** In any run cancelling an accepted upload gives its bytes back once storage has let go. */
  lemma CancellationGivesBack(lower: string -> string, qs: seq<Quota>, es: seq<Event>, transferId: string, files: seq<OfferedFile>)
    requires IsRun(lower, qs, es) && Takes(lower, qs[|es|], files)
    ensures var q := qs[|es|]; var u := |q.uploads|;
            var q1 := Step(lower, q, Offer(transferId, files, true));
            && Enabled(q1, ReservationsDone)
            && var q2 := Step(lower, q1, ReservationsDone);
            && Enabled(q2, QueuedCancel)
            && var q3 := Step(lower, q2, QueuedCancel);
            && Enabled(q3, AbortDone(u))
            && Step(lower, q3, AbortDone(u))
               == q.(uploads := q.uploads + [Upload(transferId, TotalSize(files), Phase.Released)], releases := q.releases + [u])
  {
    QuotaHolds(lower, qs, es, |es|);
    BatchFitsIffAllowed(lower, files, qs[|es|].limits);
    var q := qs[|es|];
    var u := |q.uploads|;
    assert u !in q.timers;
    var q2 := Step(lower, Step(lower, q, Offer(transferId, files, true)), ReservationsDone);
    var q3 := Step(lower, q2, QueuedCancel);
    assert q3.timers == q.timers;
    assert q3.uploads == q.uploads + [Upload(transferId, TotalSize(files), Aborting)];
    assert Step(lower, q3, AbortDone(u)).uploads == q.uploads + [Upload(transferId, TotalSize(files), Phase.Released)];
  }

  /** In any run a reservation that fails gives its bytes back once it is undone. */
  lemma FailedReservationGivesBack(lower: string -> string, qs: seq<Quota>, es: seq<Event>, transferId: string, files: seq<OfferedFile>)
    requires IsRun(lower, qs, es) && Takes(lower, qs[|es|], files)
    ensures var q := qs[|es|]; var u := |q.uploads|;
            var q1 := Step(lower, q, Offer(transferId, files, true));
            && Enabled(q1, ReservationFailed)
            && var q2 := Step(lower, q1, ReservationFailed);
            && Enabled(q2, UndoDone)
            && Step(lower, q2, UndoDone)
               == q.(uploads := q.uploads + [Upload(transferId, TotalSize(files), Phase.Released)], releases := q.releases + [u])
  {
    QuotaHolds(lower, qs, es, |es|);
    BatchFitsIffAllowed(lower, files, qs[|es|].limits);
    var q := qs[|es|];
    var q2 := Step(lower, Step(lower, q, Offer(transferId, files, true)), ReservationFailed);
    assert q2.uploads == q.uploads + [Upload(transferId, TotalSize(files), Undoing)];
    assert Step(lower, q2, UndoDone).uploads == q.uploads + [Upload(transferId, TotalSize(files), Phase.Released)];
  }
}
