/**
 Accounting of temporary bytes in a Session. Uploads reserve, commit and abort across awaits while
 the browser reports downloads at any time; both draw on one quota.
 */
module TemporaryQuota {
  import opened Common

  datatype Limits = Limits(
    maxFileBytes: nat, maxBatchBytes: nat, maxFiles: nat, maxTemporaryBytes: nat, allowedExtensions: seq<string>)

  datatype OfferedFile = OfferedFile(fileId: string, displayName: string, size: nat)

  const MAX_SAFE_INTEGER := 0x1F_FFFF_FFFF_FFFF

  // ----------------------------------------------------------- upload policy

  function TotalSize(files: seq<OfferedFile>): nat {
    if files == [] then 0 else TotalSize(files[..|files| - 1]) + files[|files| - 1].size
  }

  predicate EndsWith(s: string, suffix: string) {
    |suffix| <= |s| && s[|s| - |suffix|..] == suffix
  }

  predicate ExtensionAllowed(lower: string -> string, file: OfferedFile, limits: Limits) {
    |limits.allowedExtensions| > 0 ==>
      exists i :: 0 <= i < |limits.allowedExtensions| && EndsWith(lower(file.displayName), limits.allowedExtensions[i])
  }

  /** The batch as a whole respects every limit. */
  predicate UploadAllowed(lower: string -> string, files: seq<OfferedFile>, limits: Limits) {
    && 0 < |files| <= limits.maxFiles
    && (forall i :: 0 <= i < |files| ==> files[i].size <= limits.maxFileBytes && ExtensionAllowed(lower, files[i], limits))
    && TotalSize(files) <= limits.maxBatchBytes && TotalSize(files) <= MAX_SAFE_INTEGER
  }

  lemma {:induction false} PrefixIsSmaller(files: seq<OfferedFile>, k: nat)
    requires k <= |files|
    ensures TotalSize(files[..k]) <= TotalSize(files)
    decreases |files| - k
  {
    if k < |files| {
      assert files[..k + 1][..k] == files[..k];
      PrefixIsSmaller(files, k + 1);
    } else {
      assert files[..k] == files;
    }
  }

  /** The running check refuses a batch exactly when the whole batch breaks some limit. */
  method AssertUploadAllowed(lower: string -> string, files: seq<OfferedFile>, limits: Limits) returns (allowed: bool)
    ensures allowed == UploadAllowed(lower, files, limits)
  {
    if |files| == 0 || |files| > limits.maxFiles {
      return false;
    }
    var total := 0;
    for k := 0 to |files|
      invariant total == TotalSize(files[..k]) <= limits.maxBatchBytes && total <= MAX_SAFE_INTEGER
      invariant forall i :: 0 <= i < k ==> files[i].size <= limits.maxFileBytes && ExtensionAllowed(lower, files[i], limits)
    {
      var file := files[k];
      if file.size > limits.maxFileBytes {
        return false;
      }
      assert files[..k + 1][..k] == files[..k];
      PrefixIsSmaller(files, k + 1);
      total := total + file.size;
      if total > MAX_SAFE_INTEGER || total > limits.maxBatchBytes {
        return false;
      }
      if !ExtensionAllowed(lower, file, limits) {
        return false;
      }
    }
    assert files[..|files|] == files;
    return true;
  }

  // ------------------------------------------------------------------ state

  /**
   Where an upload stands between awaits: its storage is being reserved, a failed reservation is
   being undone, it is the active transfer, it is being aborted, its files belong to the page, or
   its bytes were given back.
   */
  datatype Phase = Reserving | Undoing | Active | Aborting | Committed | Released

  /** `transferId` is chosen by the Viewer and may be used again. */
  datatype Upload = Upload(transferId: string, size: nat, phase: Phase)

  /** An entry of the download table, which iterates in insertion order. */
  datatype Download = Download(guid: string, bytes: nat)

  /** What the control queue is in the middle of. */
  datatype Job = Idle | Offering(upload: nat) | Undo(upload: nat) | Handling(upload: nat, completing: bool)

  /**
   `uploads` lists every upload ever admitted; `active` is the transfer the Session refers to, and
   `timers` holds the uploads whose expiry timer is armed. `releases` records the order in which
   reservations were given back, `delivered` the uploads whose files the page has received.
   */
  datatype Quota = Quota(
    limits: Limits,
    uploadReservedBytes: int,
    active: Option<nat>,
    uploads: seq<Upload>,
    timers: set<nat>,
    downloads: seq<Download>,
    job: Job,
    closed: bool,
    releases: seq<nat>,
    delivered: set<nat>)

  function Start(limits: Limits): Quota {
    Quota(limits, 0, None, [], {}, [], Idle, false, [], {})
  }

  /**
   `welcome` stands for the checks of capability, chooser, drop point and duplicate identifiers.
   A transfer is aborted by a job of the control queue, by a timer, or by the cleanup after a close.
   */
  datatype Event =
    | Offer(transferId: string, files: seq<OfferedFile>, welcome: bool)
    | ReservationsDone | ReservationFailed | UndoDone
    | BeginChunk | BeginComplete | HandlingDone | HandlingFailed
    | QueuedCancel
    | TimerFires(upload: nat)
    | Close
    | Cleanup
    | AbortDone(upload: nat)
    | DownloadReported(guid: string, bytes: nat, allowed: bool, sinkAccepts: bool)
    | DownloadRemoved(guid: string)

  function DownloadBytes(downloads: seq<Download>): nat {
    if downloads == [] then 0 else downloads[0].bytes + DownloadBytes(downloads[1..])
  }

  function TemporaryBytes(q: Quota): int {
    q.uploadReservedBytes + DownloadBytes(q.downloads)
  }

  function FindDownload(downloads: seq<Download>, guid: string): (i: nat)
    ensures i <= |downloads|
    ensures i < |downloads| ==> downloads[i].guid == guid
  {
    if downloads == [] then 0
    else if downloads[0].guid == guid then 0
    else 1 + FindDownload(downloads[1..], guid)
  }

  function SetPhase(q: Quota, u: nat, phase: Phase): Quota
    requires u < |q.uploads|
  {
    q.(uploads := q.uploads[u := q.uploads[u].(phase := phase)])
  }

  function Release(q: Quota, u: nat): Quota
    requires u < |q.uploads|
  {
    SetPhase(q, u, Phase.Released).(uploadReservedBytes := q.uploadReservedBytes - q.uploads[u].size, releases := q.releases + [u])
  }

  /** The transfer leaves the Session's hands at once; its bytes follow when storage has let go. */
  function AbortStep(q: Quota): Quota {
    if q.active.None? || q.active.value >= |q.uploads| then q
    else SetPhase(q, q.active.value, Aborting).(active := None, timers := q.timers - {q.active.value})
  }

  predicate SameTransfer(q: Quota, u: nat, w: nat) {
    u < |q.uploads| && w < |q.uploads| && q.uploads[u].transferId == q.uploads[w].transferId
  }

  /** A timer knows its transfer only by its identifier. */
  function TimerStep(q: Quota, u: nat): Quota {
    var q1 := q.(timers := q.timers - {u});
    if q.active.Some? && SameTransfer(q, u, q.active.value) then AbortStep(q1) else q1
  }

  predicate Admissible(lower: string -> string, q: Quota, files: seq<OfferedFile>, welcome: bool) {
    && welcome && q.active.None?
    && UploadAllowed(lower, files, q.limits)
    && TemporaryBytes(q) + TotalSize(files) <= q.limits.maxTemporaryBytes
  }

  /** A refused offer also cancels the transfer in progress. */
  function OfferStep(lower: string -> string, q: Quota, transferId: string, files: seq<OfferedFile>, welcome: bool): Quota {
    if !Admissible(lower, q, files, welcome) then AbortStep(q)
    else q.(uploadReservedBytes := q.uploadReservedBytes + TotalSize(files),
            uploads := q.uploads + [Upload(transferId, TotalSize(files), Reserving)],
            job := Offering(|q.uploads|))
  }

  /** The end of a chunk arms the timer of the transfer it belonged to, aborted meanwhile or not. */
  function ChunkDoneStep(q: Quota): Quota
    requires q.job.Handling?
  {
    q.(job := Idle, timers := q.timers + {q.job.upload})
  }

  /** The files are with the page; whatever transfer is active then is forgotten. */
  function DeliverStep(q: Quota): Quota
    requires q.job.Handling?
  {
    var q1 := if q.active.Some? && q.active.value < |q.uploads| then SetPhase(q, q.active.value, Committed) else q;
    q1.(active := None, job := Idle, delivered := q.delivered + {q.job.upload})
  }

  /** The limits a download report must respect, given what the download already holds. */
  predicate WithinLimits(q: Quota, guid: string, bytes: nat) {
    var i := FindDownload(q.downloads, guid);
    var previous := if i < |q.downloads| then q.downloads[i].bytes else 0;
    && bytes <= q.limits.maxFileBytes
    && (i < |q.downloads| || |q.downloads| < q.limits.maxFiles)
    && TemporaryBytes(q) - previous + bytes <= q.limits.maxTemporaryBytes
  }

  function ReportStep(q: Quota, guid: string, bytes: nat, allowed: bool, sinkAccepts: bool): Quota {
    if !allowed || !WithinLimits(q, guid, bytes) || !sinkAccepts then q
    else
      var i := FindDownload(q.downloads, guid);
      q.(downloads := if i < |q.downloads| then q.downloads[i := Download(guid, bytes)] else q.downloads + [Download(guid, bytes)])
  }

  function RemoveStep(q: Quota, guid: string): Quota {
    var i := FindDownload(q.downloads, guid);
    if i == |q.downloads| then q else q.(downloads := q.downloads[..i] + q.downloads[i + 1..])
  }

  /** The control queue runs one upload message at a time and none after a close; timers, cleanup and downloads come at any time. */
  predicate Enabled(q: Quota, e: Event) {
    match e
    case Offer(_, _, _) => q.job.Idle? && !q.closed
    case ReservationsDone => q.job.Offering? && q.job.upload < |q.uploads|
    case ReservationFailed => q.job.Offering? && q.job.upload < |q.uploads|
    case UndoDone => q.job.Undo? && q.job.upload < |q.uploads|
    case BeginChunk => q.job.Idle? && q.active.Some? && !q.closed
    case BeginComplete => q.job.Idle? && q.active.Some? && !q.closed
    case HandlingDone => q.job.Handling?
    case HandlingFailed => q.job.Handling?
    case QueuedCancel => q.job.Idle?
    case TimerFires(u) => u in q.timers
    case Cleanup => q.closed
    case AbortDone(u) => u < |q.uploads| && q.uploads[u].phase == Aborting
    case _ => true
  }

  function Step(lower: string -> string, q: Quota, e: Event): Quota
    requires Enabled(q, e)
  {
    match e
    case Offer(transferId, files, welcome) => OfferStep(lower, q, transferId, files, welcome)
    case ReservationsDone =>
      SetPhase(q, q.job.upload, Active).(active := Some(q.job.upload), timers := q.timers + {q.job.upload}, job := Idle)
    case ReservationFailed => SetPhase(q, q.job.upload, Undoing).(job := Undo(q.job.upload))
    case UndoDone => Release(q, q.job.upload).(job := Idle)
    case BeginChunk => q.(job := Handling(q.active.value, false))
    case BeginComplete => q.(job := Handling(q.active.value, true), timers := q.timers - {q.active.value})
    case HandlingDone => if q.job.completing then DeliverStep(q) else ChunkDoneStep(q)
    case HandlingFailed => AbortStep(q).(job := Idle)
    case QueuedCancel => AbortStep(q)
    case TimerFires(u) => TimerStep(q, u)
    case Close => q.(closed := true)
    case Cleanup => AbortStep(q)
    case AbortDone(u) => Release(q, u)
    case DownloadReported(guid, bytes, allowed, sinkAccepts) => ReportStep(q, guid, bytes, allowed, sinkAccepts)
    case DownloadRemoved(guid) => RemoveStep(q, guid)
  }

  // ------------------------------------------------------------------ class

  class SessionQuota {
    const limits: Limits
    var uploadReservedBytes: int
    var active: Option<nat>
    var uploads: seq<Upload>
    var timers: set<nat>
    var downloadReservedBytes: seq<Download>
    var job: Job
    var closed: bool
    var releases: seq<nat>
    var delivered: set<nat>

    function View(): Quota
      reads this
    {
      Quota(limits, uploadReservedBytes, active, uploads, timers, downloadReservedBytes, job, closed, releases, delivered)
    }

    constructor (limits: Limits)
      ensures View() == Start(limits)
    {
      this.limits := limits;
      uploadReservedBytes, active, uploads, downloadReservedBytes, job, releases := 0, None, [], [], Idle, [];
      timers, closed, delivered := {}, false, {};
    }

    /** Up to the first await of `#acceptUploadOffer`. */
    method AcceptUploadOffer(lower: string -> string, transferId: string, files: seq<OfferedFile>, welcome: bool)
      requires Enabled(View(), Offer(transferId, files, welcome))
      modifies this
      ensures View() == Step(lower, old(View()), Offer(transferId, files, welcome))
    {
      if !welcome || active.Some? {
        AbortUploadTransfer();
        return;
      }
      var allowed := AssertUploadAllowed(lower, files, limits);
      if !allowed {
        AbortUploadTransfer();
        return;
      }
      var totalBytes := 0;
      for k := 0 to |files|
        invariant totalBytes == TotalSize(files[..k])
      {
        assert files[..k + 1][..k] == files[..k];
        totalBytes := totalBytes + files[k].size;
      }
      assert files[..|files|] == files;
      if TemporaryBytes(View()) + totalBytes > limits.maxTemporaryBytes {
        AbortUploadTransfer();
        return;
      }
      uploadReservedBytes := uploadReservedBytes + totalBytes;
      job := Offering(|uploads|);
      uploads := uploads + [Upload(transferId, totalBytes, Reserving)];
    }

    /** After the last reservation; the transfer becomes active. */
    method FinishOffer(lower: string -> string)
      requires Enabled(View(), ReservationsDone)
      modifies this
      ensures View() == Step(lower, old(View()), ReservationsDone)
    {
      uploads := uploads[job.upload := uploads[job.upload].(phase := Active)];
      active := Some(job.upload);
      timers := timers + {job.upload};
      job := Idle;
    }

    method UndoOffer(lower: string -> string)
      requires Enabled(View(), ReservationFailed)
      modifies this
      ensures View() == Step(lower, old(View()), ReservationFailed)
    {
      uploads := uploads[job.upload := uploads[job.upload].(phase := Undoing)];
      job := Undo(job.upload);
    }

    method FinishUndo(lower: string -> string)
      requires Enabled(View(), UndoDone)
      modifies this
      ensures View() == Step(lower, old(View()), UndoDone)
    {
      GiveBack(job.upload);
      job := Idle;
    }

    method GiveBack(u: nat)
      requires u < |uploads|
      modifies this`uploads, this`uploadReservedBytes, this`releases
      ensures View() == Release(old(View()), u)
    {
      uploadReservedBytes := uploadReservedBytes - uploads[u].size;
      uploads := uploads[u := uploads[u].(phase := Phase.Released)];
      releases := releases + [u];
    }

    /** Up to the first await of `#writeUploadChunk`. */
    method BeginChunkWrite(lower: string -> string)
      requires Enabled(View(), BeginChunk)
      modifies this
      ensures View() == Step(lower, old(View()), BeginChunk)
    {
      job := Handling(active.value, false);
    }

    /** After the await of `#writeUploadChunk`: `#resetUploadTimer` does not ask whether the transfer is still active. */
    method FinishChunkWrite(lower: string -> string)
      requires Enabled(View(), HandlingDone) && !job.completing
      modifies this
      ensures View() == Step(lower, old(View()), HandlingDone)
    {
      timers := timers - {job.upload};
      timers := timers + {job.upload};
      job := Idle;
    }

    /** Up to the first await of `#completeUpload`. */
    method BeginCompletion(lower: string -> string)
      requires Enabled(View(), BeginComplete)
      modifies this
      ensures View() == Step(lower, old(View()), BeginComplete)
    {
      timers := timers - {active.value};
      job := Handling(active.value, true);
    }

    /** The end of `#completeUpload` clears the active transfer without giving its bytes back. */
    method FinishCompletion(lower: string -> string)
      requires Enabled(View(), HandlingDone) && job.completing
      modifies this
      ensures View() == Step(lower, old(View()), HandlingDone)
    {
      if active.Some? && active.value < |uploads| {
        uploads := uploads[active.value := uploads[active.value].(phase := Committed)];
      }
      delivered := delivered + {job.upload};
      active := None;
      job := Idle;
    }

    /** The callback of `#createUploadTimer`, up to its await. */
    method ExpireUpload(lower: string -> string, u: nat)
      requires Enabled(View(), TimerFires(u))
      modifies this
      ensures View() == Step(lower, old(View()), TimerFires(u))
    {
      timers := timers - {u};
      if active.None? || active.value >= |uploads| || u >= |uploads| || uploads[active.value].transferId != uploads[u].transferId {
        return;
      }
      AbortUploadTransfer();
    }

    method FailHandling(lower: string -> string)
      requires Enabled(View(), HandlingFailed)
      modifies this
      ensures View() == Step(lower, old(View()), HandlingFailed)
    {
      AbortUploadTransfer();
      job := Idle;
    }

    /** Up to the await of `#abortUploadTransfer`. */
    method AbortUploadTransfer()
      modifies this`active, this`uploads, this`timers
      ensures View() == AbortStep(old(View()))
    {
      if active.None? || active.value >= |uploads| {
        return;
      }
      uploads := uploads[active.value := uploads[active.value].(phase := Aborting)];
      timers := timers - {active.value};
      active := None;
    }

    /** After the await of `#abortUploadTransfer`. */
    method FinishAbort(lower: string -> string, u: nat)
      requires Enabled(View(), AbortDone(u))
      modifies this
      ensures View() == Step(lower, old(View()), AbortDone(u))
    {
      GiveBack(u);
    }

    method ReserveDownloadBytes(lower: string -> string, guid: string, bytes: nat, allowed: bool, sinkAccepts: bool)
      returns (reserved: bool)
      modifies this
      ensures View() == Step(lower, old(View()), DownloadReported(guid, bytes, allowed, sinkAccepts))
      ensures reserved == (allowed && WithinLimits(old(View()), guid, bytes) && sinkAccepts)
    {
      var i := FindDownload(downloadReservedBytes, guid);
      var previous := if i < |downloadReservedBytes| then downloadReservedBytes[i].bytes else 0;
      var limited := bytes > limits.maxFileBytes
        || (i == |downloadReservedBytes| && |downloadReservedBytes| >= limits.maxFiles)
        || TemporaryBytes(View()) - previous + bytes > limits.maxTemporaryBytes;
      if allowed && !limited && !sinkAccepts {
        limited := true;
      }
      if !allowed || limited {
        return false;
      }
      if i < |downloadReservedBytes| {
        downloadReservedBytes := downloadReservedBytes[i := Download(guid, bytes)];
      } else {
        downloadReservedBytes := downloadReservedBytes + [Download(guid, bytes)];
      }
      return true;
    }

    method DeleteDownload(lower: string -> string, guid: string)
      modifies this
      ensures View() == Step(lower, old(View()), DownloadRemoved(guid))
    {
      var i := FindDownload(downloadReservedBytes, guid);
      if i < |downloadReservedBytes| {
        downloadReservedBytes := downloadReservedBytes[..i] + downloadReservedBytes[i + 1..];
      }
    }
  }

  // -------------------------------------------------------------- invariant

  /** The bytes an upload still holds. */
  function Held(u: Upload): nat {
    if u.phase == Phase.Released then 0 else u.size
  }

  function HeldBytes(uploads: seq<Upload>): nat {
    if uploads == [] then 0 else HeldBytes(uploads[..|uploads| - 1]) + Held(uploads[|uploads| - 1])
  }

  ghost predicate Inv(q: Quota) {
    && q.uploadReservedBytes == HeldBytes(q.uploads)
    && TemporaryBytes(q) <= q.limits.maxTemporaryBytes
    && |q.downloads| <= q.limits.maxFiles
    && (forall i :: 0 <= i < |q.downloads| ==> q.downloads[i].bytes <= q.limits.maxFileBytes)
    && PhasesAgree(q) && ReleasedOnce(q) && Located(q)
  }

  /** The phases agree with what the Session and its queue are doing. */
  predicate PhasesAgree(q: Quota) {
    && (forall u :: 0 <= u < |q.uploads| ==> (q.uploads[u].phase == Active <==> q.active == Some(u)))
    && (q.active.Some? ==> q.active.value < |q.uploads|)
    && (q.job.Offering? ==> q.job.upload < |q.uploads| && q.uploads[q.job.upload].phase == Reserving && q.active.None?)
    && (q.job.Undo? ==> q.job.upload < |q.uploads| && q.uploads[q.job.upload].phase == Undoing && q.active.None?)
    && (q.job.Handling? ==> q.active.None? || q.active.value == q.job.upload)
  }

  /** Armed timers and deliveries belong to admitted uploads; what was delivered is no longer being reserved or active. */
  ghost predicate Located(q: Quota) {
    && (forall u :: u in q.timers ==> u < |q.uploads|)
    && (forall u :: u in q.delivered ==> u < |q.uploads| && q.uploads[u].phase in {Committed, Aborting, Phase.Released})
    && (q.job.Handling? ==> q.job.upload < |q.uploads| && (q.active.None? ==> q.uploads[q.job.upload].phase in {Aborting, Phase.Released}))
  }

  /** The given-back reservations are exactly those of released uploads, each recorded once. */
  predicate ReleasedOnce(q: Quota) {
    && (forall i :: 0 <= i < |q.releases| ==> q.releases[i] < |q.uploads| && q.uploads[q.releases[i]].phase == Phase.Released)
    && (forall i, j :: 0 <= i < j < |q.releases| ==> q.releases[i] != q.releases[j])
    && (forall u :: 0 <= u < |q.uploads| && q.uploads[u].phase == Phase.Released ==> u in q.releases)
  }

  lemma {:induction false} HeldUpdate(uploads: seq<Upload>, u: nat, phase: Phase)
    requires u < |uploads|
    ensures HeldBytes(uploads[u := uploads[u].(phase := phase)])
         == HeldBytes(uploads) - Held(uploads[u]) + Held(uploads[u].(phase := phase))
  {
    var updated := uploads[u := uploads[u].(phase := phase)];
    var n := |uploads| - 1;
    if u == n {
      assert updated[..n] == uploads[..n];
    } else {
      assert updated[..n] == uploads[..n][u := uploads[u].(phase := phase)];
      HeldUpdate(uploads[..n], u, phase);
    }
  }

  lemma {:induction false} DownloadUpdate(downloads: seq<Download>, i: nat, d: Download)
    requires i < |downloads|
    ensures DownloadBytes(downloads[i := d]) == DownloadBytes(downloads) - downloads[i].bytes + d.bytes
  {
    if i > 0 {
      assert downloads[i := d][1..] == downloads[1..][i - 1 := d];
      DownloadUpdate(downloads[1..], i - 1, d);
    } else {
      assert downloads[i := d][1..] == downloads[1..];
    }
  }

  lemma {:induction false} DownloadAppend(downloads: seq<Download>, d: Download)
    ensures DownloadBytes(downloads + [d]) == DownloadBytes(downloads) + d.bytes
  {
    if downloads != [] {
      assert (downloads + [d])[1..] == downloads[1..] + [d];
      DownloadAppend(downloads[1..], d);
    }
  }

  lemma {:induction false} DownloadDrop(downloads: seq<Download>, i: nat)
    requires i < |downloads|
    ensures DownloadBytes(downloads[..i] + downloads[i + 1..]) == DownloadBytes(downloads) - downloads[i].bytes
  {
    if i == 0 {
      assert downloads[..0] + downloads[1..] == downloads[1..];
    } else {
      assert (downloads[..i] + downloads[i + 1..])[1..] == downloads[1..][..i - 1] + downloads[1..][i..];
      DownloadDrop(downloads[1..], i - 1);
    }
  }

  lemma SetPhaseKeepsBytes(q: Quota, u: nat, phase: Phase)
    requires u < |q.uploads| && q.uploads[u].phase != Phase.Released && phase != Phase.Released
    requires q.uploadReservedBytes == HeldBytes(q.uploads) && ReleasedOnce(q)
    ensures var q' := SetPhase(q, u, phase); q'.uploadReservedBytes == HeldBytes(q'.uploads) && ReleasedOnce(q')
  {
    HeldUpdate(q.uploads, u, phase);
  }

  lemma ReleaseKeepsBytes(q: Quota, u: nat)
    requires u < |q.uploads| && q.uploads[u].phase != Phase.Released
    requires q.uploadReservedBytes == HeldBytes(q.uploads) && ReleasedOnce(q)
    ensures var q' := Release(q, u); q'.uploadReservedBytes == HeldBytes(q'.uploads) && ReleasedOnce(q')
  {
    HeldUpdate(q.uploads, u, Phase.Released);
  }

  lemma AbortKeeps(q: Quota)
    requires Inv(q)
    ensures Inv(AbortStep(q))
  {
    if q.active.Some? {
      SetPhaseKeepsBytes(q, q.active.value, Aborting);
    }
  }

  lemma OfferKeeps(lower: string -> string, q: Quota, transferId: string, files: seq<OfferedFile>, welcome: bool)
    requires Inv(q) && q.job.Idle?
    ensures Inv(OfferStep(lower, q, transferId, files, welcome))
  {
    AbortKeeps(q);
    var q' := OfferStep(lower, q, transferId, files, welcome);
    if Admissible(lower, q, files, welcome) {
      assert q'.uploads[..|q.uploads|] == q.uploads;
    }
  }

  lemma ReportKeeps(q: Quota, guid: string, bytes: nat, allowed: bool, sinkAccepts: bool)
    requires Inv(q)
    ensures Inv(ReportStep(q, guid, bytes, allowed, sinkAccepts))
  {
    var i := FindDownload(q.downloads, guid);
    if i < |q.downloads| {
      DownloadUpdate(q.downloads, i, Download(guid, bytes));
    } else {
      DownloadAppend(q.downloads, Download(guid, bytes));
    }
  }

  lemma RemoveKeeps(q: Quota, guid: string)
    requires Inv(q)
    ensures Inv(RemoveStep(q, guid))
  {
    var i := FindDownload(q.downloads, guid);
    if i < |q.downloads| {
      DownloadDrop(q.downloads, i);
    }
  }

  lemma HandledKeeps(lower: string -> string, q: Quota)
    requires Inv(q) && q.job.Handling?
    ensures Inv(Step(lower, q, HandlingDone))
  {
    if q.active.Some? && q.job.completing {
      SetPhaseKeepsBytes(q, q.active.value, Committed);
    }
  }

  lemma PhaseKeeps(lower: string -> string, q: Quota, e: Event)
    requires Inv(q) && Enabled(q, e) && (e.ReservationsDone? || e.ReservationFailed? || e.HandlingDone?)
    ensures Inv(Step(lower, q, e))
  {
    match e {
      case ReservationsDone => SetPhaseKeepsBytes(q, q.job.upload, Active);
      case ReservationFailed => SetPhaseKeepsBytes(q, q.job.upload, Undoing);
      case HandlingDone => HandledKeeps(lower, q);
    }
  }

  lemma ReleaseKeepsPlaces(q: Quota, u: nat, job: Job)
    requires PhasesAgree(q) && Located(q) && u < |q.uploads| && q.uploads[u].phase in {Undoing, Aborting}
    requires job.Idle? || (job == q.job && job != Undo(u))
    ensures var q' := Release(q, u).(job := job); PhasesAgree(q') && Located(q')
  {
  }

  lemma UndoKeeps(lower: string -> string, q: Quota)
    requires Inv(q) && Enabled(q, UndoDone)
    ensures Inv(Step(lower, q, UndoDone))
  {
    ReleaseKeepsBytes(q, q.job.upload);
    ReleaseKeepsPlaces(q, q.job.upload, Idle);
  }

  lemma AbortDoneKeeps(lower: string -> string, q: Quota, u: nat)
    requires Inv(q) && Enabled(q, AbortDone(u))
    ensures Inv(Step(lower, q, AbortDone(u)))
  {
    ReleaseKeepsBytes(q, u);
    ReleaseKeepsPlaces(q, u, q.job);
    assert Release(q, u).(job := q.job) == Release(q, u);
  }

  lemma JobKeeps(lower: string -> string, q: Quota, e: Event)
    requires Inv(q) && Enabled(q, e)
    requires e.ReservationsDone? || e.ReservationFailed? || e.UndoDone? || e.HandlingDone? || e.HandlingFailed? || e.AbortDone?
    ensures Inv(Step(lower, q, e))
  {
    match e {
      case UndoDone => UndoKeeps(lower, q);
      case AbortDone(u) => AbortDoneKeeps(lower, q, u);
      case HandlingFailed => AbortKeeps(q);
      case _ => PhaseKeeps(lower, q, e);
    }
  }

  lemma TimerKeeps(q: Quota, u: nat)
    requires Inv(q)
    ensures Inv(TimerStep(q, u))
  {
    AbortKeeps(q.(timers := q.timers - {u}));
  }

  /** Every step keeps the accounting and the limits. */
  lemma StepKeeps(lower: string -> string, q: Quota, e: Event)
    requires Inv(q) && Enabled(q, e)
    ensures Inv(Step(lower, q, e))
  {
    match e {
      case Offer(transferId, files, welcome) => OfferKeeps(lower, q, transferId, files, welcome);
      case QueuedCancel => AbortKeeps(q);
      case Cleanup => AbortKeeps(q);
      case TimerFires(u) => TimerKeeps(q, u);
      case DownloadReported(guid, bytes, allowed, sinkAccepts) => ReportKeeps(q, guid, bytes, allowed, sinkAccepts);
      case DownloadRemoved(guid) => RemoveKeeps(q, guid);
      case BeginChunk =>
      case BeginComplete =>
      case Close =>
      case _ => JobKeeps(lower, q, e);
    }
  }

  // ------------------------------------------------------------------- runs

  ghost predicate Follows(lower: string -> string, qs: seq<Quota>, es: seq<Event>, k: nat)
    requires |qs| == |es| + 1 && k < |es|
  {
    Enabled(qs[k], es[k]) && qs[k + 1] == Step(lower, qs[k], es[k])
  }

  /** The states before, between and after the events of a run. */
  ghost predicate IsRun(lower: string -> string, qs: seq<Quota>, es: seq<Event>) {
    && |qs| == |es| + 1 && qs[0] == Start(qs[0].limits)
    && forall k {:trigger Follows(lower, qs, es, k)} :: 0 <= k < |es| ==> Follows(lower, qs, es, k)
  }

  lemma StepKeepsLimits(lower: string -> string, q: Quota, e: Event)
    requires Enabled(q, e)
    ensures Step(lower, q, e).limits == q.limits
  {
  }

  /**
   At every await boundary the reserved bytes are those of the uploads not yet given back, uploads
   and downloads together respect the quota, and no reservation was given back twice.
   */
  lemma {:induction false} QuotaHolds(lower: string -> string, qs: seq<Quota>, es: seq<Event>, n: nat)
    requires IsRun(lower, qs, es) && n <= |es|
    ensures Inv(qs[n]) && qs[n].limits == qs[0].limits
    ensures HeldBytes(qs[n].uploads) + DownloadBytes(qs[n].downloads) <= qs[0].limits.maxTemporaryBytes
  {
    if n > 0 {
      QuotaHolds(lower, qs, es, n - 1);
      assert Follows(lower, qs, es, n - 1);
      StepKeeps(lower, qs[n - 1], es[n - 1]);
      StepKeepsLimits(lower, qs[n - 1], es[n - 1]);
    }
  }

  /** Phases only move forward: a committed upload keeps its bytes for the rest of the Session, an aborted one never gets them again. */
  lemma CommittedIsFinal(lower: string -> string, q: Quota, e: Event, u: nat)
    requires Inv(q) && Enabled(q, e) && u < |q.uploads|
    requires q.uploads[u].phase in {Committed, Aborting, Phase.Released}
    ensures var q' := Step(lower, q, e);
            && u < |q'.uploads| && (u in q.delivered ==> u in q'.delivered)
            && q'.uploads[u] == if e == AbortDone(u) then q.uploads[u].(phase := Phase.Released) else q.uploads[u]
  {
  }

  // -------------------------------------------------------------- deliveries

  /** The completion of upload `u` begins with event `i` and ends, its files delivered, with event `j`. */
  ghost predicate Completes(qs: seq<Quota>, es: seq<Event>, i: nat, j: nat, u: nat) {
    && |qs| == |es| + 1 && i < j < |es|
    && es[i].BeginComplete? && qs[i].active == Some(u) && es[j].HandlingDone?
    && forall k :: i < k <= j ==> qs[k].job == Handling(u, true)
  }

  /** An abort of `u` that does not wait for the control queue. */
  predicate Interrupts(q: Quota, e: Event, u: nat) {
    e.Cleanup? || (e.TimerFires? && SameTransfer(q, e.upload, u))
  }

  ghost predicate Interrupted(qs: seq<Quota>, es: seq<Event>, i: nat, j: nat, u: nat)
    requires |qs| == |es| + 1 && j <= |es|
  {
    exists k :: i < k < j && Interrupts(qs[k], es[k], u)
  }

  /** How the upload being delivered stands: still the active transfer, or taken away. */
  ghost predicate Intact(q: Quota, u: nat) {
    u < |q.uploads| && q.active == Some(u)
  }

  ghost predicate TakenAway(q: Quota, u: nat) {
    u < |q.uploads| && q.active.None? && q.uploads[u].phase in {Aborting, Phase.Released}
  }

  /** While a completion is handled only a timer of its identifier or the cleanup takes it away. */
  lemma InsideCompletion(lower: string -> string, q: Quota, e: Event, u: nat)
    requires Inv(q) && Enabled(q, e) && q.job == Handling(u, true) && Step(lower, q, e).job == Handling(u, true)
    ensures Intact(q, u) && !Interrupts(q, e, u) ==> Intact(Step(lower, q, e), u)
    ensures (Intact(q, u) && Interrupts(q, e, u)) || TakenAway(q, u) ==> TakenAway(Step(lower, q, e), u)
    ensures Step(lower, q, e).timers <= q.timers && Step(lower, q, e).uploads[u].transferId == q.uploads[u].transferId
    ensures |Step(lower, q, e).uploads| == |q.uploads| && forall w :: SameTransfer(Step(lower, q, e), w, u) <==> SameTransfer(q, w, u)
  {
  }

  lemma {:induction false} DuringCompletion(lower: string -> string, qs: seq<Quota>, es: seq<Event>, i: nat, j: nat, u: nat, k: nat)
    requires IsRun(lower, qs, es) && Completes(qs, es, i, j, u) && i < k <= j
    ensures if Interrupted(qs, es, i, k, u) then TakenAway(qs[k], u) else Intact(qs[k], u)
    ensures qs[k].timers <= qs[i].timers - {u}
    ensures forall w :: SameTransfer(qs[k], w, u) <==> SameTransfer(qs[i], w, u)
  {
    QuotaHolds(lower, qs, es, k - 1);
    assert Follows(lower, qs, es, k - 1);
    if k > i + 1 {
      DuringCompletion(lower, qs, es, i, j, u, k - 1);
      InsideCompletion(lower, qs[k - 1], es[k - 1], u);
      if Interrupts(qs[k - 1], es[k - 1], u) {
        assert Interrupted(qs, es, i, k, u);
      } else {
        assert Interrupted(qs, es, i, k, u) <==> Interrupted(qs, es, i, k - 1, u);
      }
    }
  }

  /** The bytes of a delivered upload are reserved for good, or given back sooner or later. */
  ghost predicate KeepsBytes(q: Quota, u: nat) {
    u < |q.uploads| && q.uploads[u].phase == Committed
  }

  ghost predicate LosesBytes(lower: string -> string, q: Quota, u: nat) {
    && u < |q.uploads|
    && (q.uploads[u].phase == Phase.Released
        || (Enabled(q, AbortDone(u))
            && Step(lower, q, AbortDone(u)).uploadReservedBytes == q.uploadReservedBytes - q.uploads[u].size
            && Step(lower, q, AbortDone(u)).uploads[u].phase == Phase.Released))
  }

  lemma DeliveredStands(lower: string -> string, q: Quota, u: nat)
    requires Inv(q) && u in q.delivered
    ensures LosesBytes(lower, q, u) <==> !KeepsBytes(q, u)
  {
  }

  lemma {:induction false} DeliveredStays(lower: string -> string, qs: seq<Quota>, es: seq<Event>, m: nat, n: nat, u: nat)
    requires IsRun(lower, qs, es) && m <= n <= |es| && u in qs[m].delivered
    ensures u in qs[n].delivered
    ensures KeepsBytes(qs[n], u) <==> KeepsBytes(qs[m], u)
  {
    if m < n {
      DeliveredStays(lower, qs, es, m, n - 1, u);
      QuotaHolds(lower, qs, es, n - 1);
      assert Follows(lower, qs, es, n - 1);
      CommittedIsFinal(lower, qs[n - 1], es[n - 1], u);
    }
  }

  /**
   At any time after its delivery an upload's bytes are still reserved, and stay so, if and only if
   neither a timer of its transfer identifier nor the cleanup of a close came while it was being
   completed. Jobs of the control queue never take them.
   */
  lemma DeliveredHoldsIffUninterrupted(lower: string -> string, qs: seq<Quota>, es: seq<Event>, i: nat, j: nat, u: nat, n: nat)
    requires IsRun(lower, qs, es) && Completes(qs, es, i, j, u) && j < n <= |es|
    ensures u in qs[n].delivered
    ensures KeepsBytes(qs[n], u) <==> !Interrupted(qs, es, i, j, u)
    ensures LosesBytes(lower, qs[n], u) <==> Interrupted(qs, es, i, j, u)
  {
    DuringCompletion(lower, qs, es, i, j, u, j);
    QuotaHolds(lower, qs, es, j);
    assert Follows(lower, qs, es, j);
    DeliveredStays(lower, qs, es, j + 1, n, u);
    QuotaHolds(lower, qs, es, n);
    DeliveredStands(lower, qs[n], u);
  }

  /** A timer left behind by another transfer of the same identifier. */
  ghost predicate StaleTimer(q: Quota, u: nat) {
    exists w :: w in q.timers && w != u && SameTransfer(q, w, u)
  }

  /**
   What can be seen when a completion begins: a timer may take it away if and only if one that
   another transfer of its identifier left behind is armed then.
   */
  lemma TimerInterruptsIffStale(lower: string -> string, q: Quota, u: nat)
    requires Inv(q) && Enabled(q, BeginComplete) && q.active == Some(u)
    ensures var q1 := Step(lower, q, BeginComplete);
            StaleTimer(q, u) <==> exists w :: Enabled(q1, TimerFires(w)) && Interrupts(q1, TimerFires(w), u)
  {
    var q1 := Step(lower, q, BeginComplete);
    if StaleTimer(q, u) {
      var w :| w in q.timers && w != u && SameTransfer(q, w, u);
      assert Enabled(q1, TimerFires(w)) && Interrupts(q1, TimerFires(w), u);
    }
  }

  /** Before a close, a completion that begins without a stale timer keeps its bytes for good. */
  lemma NoStaleTimerKeepsBytes(lower: string -> string, qs: seq<Quota>, es: seq<Event>, i: nat, j: nat, u: nat, n: nat)
    requires IsRun(lower, qs, es) && Completes(qs, es, i, j, u) && j < n <= |es|
    requires !StaleTimer(qs[i], u) && forall k :: i < k < j ==> !es[k].Cleanup?
    ensures u in qs[n].delivered && KeepsBytes(qs[n], u)
  {
    forall k | i < k < j ensures !Interrupts(qs[k], es[k], u) {
      DuringCompletion(lower, qs, es, i, j, u, k);
      assert Follows(lower, qs, es, k);
    }
    DeliveredHoldsIffUninterrupted(lower, qs, es, i, j, u, n);
  }

  /** However the run goes on, unless a close comes in between, the completion of `u` that begins now keeps its bytes. */
  ghost predicate AlwaysKept(lower: string -> string, qs: seq<Quota>, es: seq<Event>, u: nat) {
    forall qs': seq<Quota>, es': seq<Event>, j: nat {:trigger Completes(qs', es', |es|, j, u), IsRun(lower, qs', es')} ::
      IsRun(lower, qs', es') && qs <= qs' && es <= es' && Completes(qs', es', |es|, j, u)
      && (forall k :: |es| < k < j ==> !es'[k].Cleanup?)
      ==> u in qs'[j + 1].delivered && KeepsBytes(qs'[j + 1], u)
  }

  lemma ExtendRun(lower: string -> string, qs: seq<Quota>, es: seq<Event>, e: Event)
    requires IsRun(lower, qs, es) && Enabled(qs[|es|], e)
    ensures IsRun(lower, qs + [Step(lower, qs[|es|], e)], es + [e])
  {
    var qs', es' := qs + [Step(lower, qs[|es|], e)], es + [e];
    forall k | 0 <= k < |es'| ensures Follows(lower, qs', es', k) {
      if k < |es| {
        assert Follows(lower, qs, es, k);
      }
    }
  }

  /** Letting a stale timer fire inside the completion delivers the upload and loses its bytes. */
  lemma StaleTimerLoses(lower: string -> string, qs: seq<Quota>, es: seq<Event>, u: nat, w: nat) returns (qs': seq<Quota>, es': seq<Event>)
    requires IsRun(lower, qs, es) && Enabled(qs[|es|], BeginComplete) && qs[|es|].active == Some(u)
    requires w in qs[|es|].timers && w != u && SameTransfer(qs[|es|], w, u)
    ensures IsRun(lower, qs', es') && qs <= qs' && es' == es + [BeginComplete, TimerFires(w), HandlingDone]
    ensures Completes(qs', es', |es|, |es| + 2, u)
    ensures u in qs'[|es| + 3].delivered && !KeepsBytes(qs'[|es| + 3], u)
  {
    var q := qs[|es|];
    var q1 := Step(lower, q, BeginComplete);
    var q2 := Step(lower, q1, TimerFires(w));
    ExtendRun(lower, qs, es, BeginComplete);
    ExtendRun(lower, qs + [q1], es + [BeginComplete], TimerFires(w));
    ExtendRun(lower, qs + [q1] + [q2], es + [BeginComplete] + [TimerFires(w)], HandlingDone);
    qs' := qs + [q1] + [q2] + [Step(lower, q2, HandlingDone)];
    es' := es + [BeginComplete] + [TimerFires(w)] + [HandlingDone];
    assert es' == es + [BeginComplete, TimerFires(w), HandlingDone];
    assert qs'[|es|] == q && qs'[|es| + 1] == q1 && qs'[|es| + 2] == q2;
  }

  /**
   In any run, when a completion is about to begin: every way to go on without a close keeps the bytes
   of what it delivers if and only if no timer of another transfer of its identifier is armed.
   */
  lemma KeptIffNoStaleTimer(lower: string -> string, qs: seq<Quota>, es: seq<Event>, u: nat)
    requires IsRun(lower, qs, es) && Enabled(qs[|es|], BeginComplete) && qs[|es|].active == Some(u)
    ensures AlwaysKept(lower, qs, es, u) <==> !StaleTimer(qs[|es|], u)
  {
    if StaleTimer(qs[|es|], u) {
      var w :| w in qs[|es|].timers && w != u && SameTransfer(qs[|es|], w, u);
      var qs', es' := StaleTimerLoses(lower, qs, es, u, w);
      assert es <= es' && es'[|es| + 1] == TimerFires(w);
    } else {
      forall qs': seq<Quota>, es': seq<Event>, j: nat | IsRun(lower, qs', es') && qs <= qs' && es <= es' && Completes(qs', es', |es|, j, u)
                           && (forall k :: |es| < k < j ==> !es'[k].Cleanup?)
        ensures u in qs'[j + 1].delivered && KeepsBytes(qs'[j + 1], u)
      {
        assert qs'[|es|] == qs[|es|];
        NoStaleTimerKeepsBytes(lower, qs', es', |es|, j, u, j + 1);
      }
    }
  }

  // The run below: a chunk of the first transfer is still being written when its timer fires; the end
  // of the write arms a timer for the aborted transfer, whose identifier the Viewer then uses again.

  const ONE_BYTE := Limits(1, 1, 1, 1, [])
  const OFFER := Offer("t", [OfferedFile("f", "name", 1)], true)

  function StaleTimerEvents(): seq<Event> {
    [OFFER, ReservationsDone, BeginChunk, TimerFires(0), AbortDone(0), HandlingDone,
     OFFER, ReservationsDone, BeginChunk, HandlingDone, BeginComplete, TimerFires(0), AbortDone(1), HandlingDone]
  }

  function FirstUpload(reserved: int, active: Option<nat>, phase: Phase, timers: set<nat>, job: Job, releases: seq<nat>): Quota {
    Quota(ONE_BYTE, reserved, active, [Upload("t", 1, phase)], timers, [], job, false, releases, {})
  }

  function SecondUpload(reserved: int, active: Option<nat>, phase: Phase, timers: set<nat>, job: Job, releases: seq<nat>, delivered: set<nat>): Quota {
    Quota(ONE_BYTE, reserved, active, [Upload("t", 1, Phase.Released), Upload("t", 1, phase)], timers, [], job, false, releases, delivered)
  }

  function StaleTimerStates(): seq<Quota> {
    [ Start(ONE_BYTE),
      FirstUpload(1, None, Reserving, {}, Offering(0), []),
      FirstUpload(1, Some(0), Active, {0}, Idle, []),
      FirstUpload(1, Some(0), Active, {0}, Handling(0, false), []),
      FirstUpload(1, None, Aborting, {}, Handling(0, false), []),
      FirstUpload(0, None, Phase.Released, {}, Handling(0, false), [0]),
      FirstUpload(0, None, Phase.Released, {0}, Idle, [0]),
      SecondUpload(1, None, Reserving, {0}, Offering(1), [0], {}),
      SecondUpload(1, Some(1), Active, {0, 1}, Idle, [0], {}),
      SecondUpload(1, Some(1), Active, {0, 1}, Handling(1, false), [0], {}),
      SecondUpload(1, Some(1), Active, {0, 1}, Idle, [0], {}),
      SecondUpload(1, Some(1), Active, {0}, Handling(1, true), [0], {}),
      SecondUpload(1, None, Aborting, {}, Handling(1, true), [0], {}),
      SecondUpload(0, None, Phase.Released, {}, Handling(1, true), [0, 1], {}),
      SecondUpload(0, None, Phase.Released, {}, Idle, [0, 1], {1}) ]
  }

  lemma OneByteIsAllowed(lower: string -> string)
    ensures TotalSize([OfferedFile("f", "name", 1)]) == 1
    ensures UploadAllowed(lower, [OfferedFile("f", "name", 1)], ONE_BYTE)
  {
    var files := [OfferedFile("f", "name", 1)];
    assert files[..0] == [] && TotalSize(files[..0]) == 0;
  }

  lemma FirstOfferFollows(lower: string -> string, k: nat)
    requires k < 3
    ensures Follows(lower, StaleTimerStates(), StaleTimerEvents(), k)
  {
    OneByteIsAllowed(lower);
  }

  lemma FirstAbortFollows(lower: string -> string, k: nat)
    requires 3 <= k < 6
    ensures Follows(lower, StaleTimerStates(), StaleTimerEvents(), k)
  {
  }

  lemma SecondOfferFollows(lower: string -> string, k: nat)
    requires 6 <= k < 10
    ensures Follows(lower, StaleTimerStates(), StaleTimerEvents(), k)
  {
    OneByteIsAllowed(lower);
  }

  lemma SecondCompletionFollows(lower: string -> string, k: nat)
    requires 10 <= k < 14
    ensures Follows(lower, StaleTimerStates(), StaleTimerEvents(), k)
  {
  }

  /**
   A run without a close in which an upload is delivered and its bytes are given back all the same:
   the page holds a file of the Session's whole quota, and the Session counts nothing.
   */
  lemma StaleTimerTakesDeliveredBytes(lower: string -> string)
    ensures var qs, es := StaleTimerStates(), StaleTimerEvents();
            && IsRun(lower, qs, es) && Completes(qs, es, 10, 13, 1)
            && (forall k :: 0 <= k < |es| ==> !es[k].Close? && !es[k].QueuedCancel?)
            && 1 in qs[14].delivered && qs[14].uploads[1].size == qs[14].limits.maxTemporaryBytes
            && !KeepsBytes(qs[14], 1) && TemporaryBytes(qs[14]) == 0
  {
    var qs, es := StaleTimerStates(), StaleTimerEvents();
    forall k | 0 <= k < |es| ensures Follows(lower, qs, es, k) {
      if k < 3 {
        FirstOfferFollows(lower, k);
      } else if k < 6 {
        FirstAbortFollows(lower, k);
      } else if k < 10 {
        SecondOfferFollows(lower, k);
      } else {
        SecondCompletionFollows(lower, k);
      }
    }
  }
}
