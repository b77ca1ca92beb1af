/**
 The printer/parser pair that carries a window catalog over a bounded data channel:
 `splitWindowState` of Core cuts one snapshot into frames, `WindowCatalogReceiver` of the
 headless client reassembles them.
 */
module WindowCatalog {
  import opened Common

  datatype Window = Window(targetId: string, title: string, url: string, main: bool)

  datatype WireError = WireError(code: string, message: string, retryable: bool)

  /** Everything of a window state except its windows. */
  datatype Selection = Selection(
    revision: nat,
    selectedTargetId: string,
    selecting: bool,
    requestId: Option<string>,
    error: Option<WireError>)

  datatype WindowState = WindowState(selection: Selection, windows: seq<Window>)

  datatype Frame = Frame(
    selection: Selection,
    catalogRevision: nat,
    offset: nat,
    total: nat,
    windows: seq<Window>)

  const MAX_FRAME_WINDOWS := 128
  const WINDOW_FRAME_BYTES := 16 * 1024

  datatype SplitError = WindowEntryTooLarge

  // ---------------------------------------------------------------- framing

  /** The frame that carries the windows lo..hi of a snapshot. */
  function Slice(state: WindowState, revision: nat, lo: nat, hi: nat): Frame
    requires lo <= hi <= |state.windows|
  {
    Frame(state.selection, revision, lo, |state.windows|, state.windows[lo..hi])
  }

  /** A frame Core may put on the wire for the windows lo..hi. */
  predicate Sendable(state: WindowState, revision: nat, fits: Frame -> bool, lo: nat, hi: nat)
    requires lo <= hi <= |state.windows|
  {
    hi - lo <= MAX_FRAME_WINDOWS && fits(Slice(state, revision, lo, hi))
  }

  /** Cut points 0 = cuts[0] < cuts[1] < ... that end at `end`. */
  predicate Cuts(cuts: seq<nat>, end: nat) {
    && |cuts| > 0 && cuts[0] == 0 && cuts[|cuts| - 1] == end
    && forall i, j :: 0 <= i < j < |cuts| ==> cuts[i] < cuts[j]
  }

  /** A contiguous packing of the whole snapshot into sendable frames. */
  predicate Packing(state: WindowState, revision: nat, fits: Frame -> bool, cuts: seq<nat>) {
    && Cuts(cuts, |state.windows|)
    && (forall i :: 0 <= i < |cuts| ==> cuts[i] <= |state.windows|)
    && forall i :: 0 <= i < |cuts| - 1 ==> SendableAt(state, revision, fits, cuts, i)
  }

  /** The i-th block of a packing is a sendable frame. */
  predicate SendableAt(state: WindowState, revision: nat, fits: Frame -> bool, cuts: seq<nat>, i: nat)
    requires i < |cuts| - 1
  {
    cuts[i] < cuts[i + 1] <= |state.windows| && Sendable(state, revision, fits, cuts[i], cuts[i + 1])
  }

  /** The i-th block could not have carried one more window of the snapshot. */
  predicate MaximalAt(state: WindowState, revision: nat, fits: Frame -> bool, cuts: seq<nat>, i: nat)
    requires i < |cuts| - 1
  {
    cuts[i] <= cuts[i + 1] < |state.windows| ==> !Sendable(state, revision, fits, cuts[i], cuts[i + 1] + 1)
  }

  /** The window i can be sent in a frame of its own. */
  predicate EntryFits(state: WindowState, revision: nat, fits: Frame -> bool, i: nat)
    requires i < |state.windows|
  {
    fits(Slice(state, revision, i, i + 1))
  }

  /** Frames that are non-empty, tile 0..total in order and carry the snapshot's own windows. */
  predicate Framing(state: WindowState, revision: nat, frames: seq<Frame>) {
    && (frames == [] <==> state.windows == [])
    && (forall i :: 0 <= i < |frames| ==>
          && frames[i].windows != []
          && frames[i].offset + |frames[i].windows| <= |state.windows|
          && frames[i] == Slice(state, revision, frames[i].offset, frames[i].offset + |frames[i].windows|))
    && (frames != [] ==> frames[0].offset == 0)
    && (forall i :: 0 < i < |frames| ==> Linked(frames, i))
    && (frames != [] ==>
          frames[|frames| - 1].offset + |frames[|frames| - 1].windows| == |state.windows|)
  }

  predicate Linked(frames: seq<Frame>, i: nat)
    requires 0 < i < |frames|
  {
    frames[i].offset == frames[i - 1].offset + |frames[i - 1].windows|
  }

  function WindowsOf(frames: seq<Frame>): (windows: seq<Window>) {
    if frames == [] then [] else WindowsOf(frames[..|frames| - 1]) + frames[|frames| - 1].windows
  }

  lemma {:induction false} PrefixCarries(state: WindowState, revision: nat, frames: seq<Frame>, k: nat)
    requires Framing(state, revision, frames) && 0 < k <= |frames|
    ensures WindowsOf(frames[..k]) == state.windows[..frames[k - 1].offset + |frames[k - 1].windows|]
  {
    assert frames[..k][..k - 1] == frames[..k - 1];
    if k == 1 {
      assert WindowsOf(frames[..0]) == [];
    } else {
      PrefixCarries(state, revision, frames, k - 1);
      assert Linked(frames, k - 1);
      assert frames[k - 1] == Slice(state, revision, frames[k - 1].offset, frames[k - 1].offset + |frames[k - 1].windows|);
    }
  }

  /** The frames of a snapshot concatenate to its windows. */
  lemma FramingConcatenates(state: WindowState, revision: nat, frames: seq<Frame>)
    requires Framing(state, revision, frames)
    ensures WindowsOf(frames) == state.windows
  {
    if frames != [] {
      assert frames[..|frames|] == frames;
      PrefixCarries(state, revision, frames, |frames|);
      assert state.windows[..|state.windows|] == state.windows;
    }
  }

  /** Dropping one window from either end of a fitting frame leaves a fitting frame. */
  ghost predicate Hereditary(state: WindowState, revision: nat, fits: Frame -> bool) {
    forall lo: nat, hi: nat ::
      lo + 1 < hi <= |state.windows| && fits(Slice(state, revision, lo, hi)) ==>
        && fits(Slice(state, revision, lo + 1, hi))
        && fits(Slice(state, revision, lo, hi - 1))
  }

  lemma {:induction false} SubrangeFits(state: WindowState, revision: nat, fits: Frame -> bool, lo: nat, hi: nat, lo': nat, hi': nat)
    requires Hereditary(state, revision, fits)
    requires lo <= lo' < hi' <= hi <= |state.windows|
    requires fits(Slice(state, revision, lo, hi))
    ensures fits(Slice(state, revision, lo', hi'))
    decreases hi - lo
  {
    if lo < lo' {
      SubrangeFits(state, revision, fits, lo + 1, hi, lo', hi');
    } else if hi' < hi {
      SubrangeFits(state, revision, fits, lo, hi - 1, lo', hi');
    }
  }

  /** Every cut of a greedy packing lies at or beyond the same cut of any other packing. */
  lemma {:induction false} GreedyStaysAhead(
    state: WindowState, revision: nat, fits: Frame -> bool, greedy: seq<nat>, cuts: seq<nat>, k: nat)
    requires Hereditary(state, revision, fits)
    requires Packing(state, revision, fits, greedy) && Packing(state, revision, fits, cuts)
    requires Maximal(state, revision, fits, greedy)
    requires k < |greedy| && k < |cuts|
    ensures cuts[k] <= greedy[k]
  {
    if k > 0 {
      GreedyStaysAhead(state, revision, fits, greedy, cuts, k - 1);
      assert MaximalAt(state, revision, fits, greedy, k - 1);
      assert SendableAt(state, revision, fits, greedy, k - 1);
      assert SendableAt(state, revision, fits, cuts, k - 1);
      if greedy[k] < cuts[k] {
        SubrangeFits(state, revision, fits, cuts[k - 1], cuts[k], greedy[k - 1], greedy[k] + 1);
      }
    }
  }

  /** No frame of the packing, the last excepted, could have carried one more window. */
  predicate Maximal(state: WindowState, revision: nat, fits: Frame -> bool, cuts: seq<nat>)
  {
    forall i :: 0 <= i < |cuts| - 1 ==> MaximalAt(state, revision, fits, cuts, i)
  }

  /** A maximal packing has the fewest frames of all contiguous packings. */
  lemma GreedyIsMinimal(state: WindowState, revision: nat, fits: Frame -> bool, greedy: seq<nat>, cuts: seq<nat>)
    requires Hereditary(state, revision, fits)
    requires Packing(state, revision, fits, greedy) && Packing(state, revision, fits, cuts)
    requires Maximal(state, revision, fits, greedy)
    ensures |greedy| <= |cuts|
  {
    if |cuts| < |greedy| {
      assert greedy[|cuts| - 1] < greedy[|greedy| - 1];
      GreedyStaysAhead(state, revision, fits, greedy, cuts, |cuts| - 1);
    }
  }

  /** Some packing exists exactly when every window fits a frame of its own. */
  lemma PackableIffEntriesFit(state: WindowState, revision: nat, fits: Frame -> bool)
    requires Hereditary(state, revision, fits)
    ensures (exists cuts :: Packing(state, revision, fits, cuts)) <==>
            (forall i :: 0 <= i < |state.windows| ==> EntryFits(state, revision, fits, i))
  {
    forall cuts, i | Packing(state, revision, fits, cuts) && 0 <= i < |state.windows|
      ensures EntryFits(state, revision, fits, i)
    {
      var k := CutAround(cuts, |state.windows|, i);
      assert SendableAt(state, revision, fits, cuts, k);
      SubrangeFits(state, revision, fits, cuts[k], cuts[k + 1], i, i + 1);
    }
    if forall i :: 0 <= i < |state.windows| ==> EntryFits(state, revision, fits, i) {
      var cuts := seq(|state.windows| + 1, (i: nat) => i);
      forall i | 0 <= i < |cuts| - 1 ensures SendableAt(state, revision, fits, cuts, i) {
        assert EntryFits(state, revision, fits, i);
      }
      assert Packing(state, revision, fits, cuts);
    }
  }

  lemma {:induction false} CutAround(cuts: seq<nat>, end: nat, i: nat) returns (k: nat)
    requires Cuts(cuts, end) && i < end
    ensures k + 1 < |cuts| && cuts[k] <= i < cuts[k + 1]
  {
    k := 0;
    while k + 1 < |cuts| && cuts[k + 1] <= i
      invariant k < |cuts| && cuts[k] <= i
    {
      k := k + 1;
    }
  }

  // ---------------------------------------------------------------- splitter

  /**
   Greedy framing. `fits` is the encoder's size test on a candidate frame; nothing is assumed
   about it except where a clause says `Hereditary`.
   */
  method SplitWindowState(state: WindowState, catalogRevision: nat, fits: Frame -> bool)
    returns (r: Result<seq<Frame>, SplitError>)
    ensures r.Ok? ==>
              && Framing(state, catalogRevision, r.value)
              && (forall i :: 0 <= i < |r.value| ==> |r.value[i].windows| <= MAX_FRAME_WINDOWS && fits(r.value[i]))
              && exists cuts :: Packing(state, catalogRevision, fits, cuts)
    ensures Hereditary(state, catalogRevision, fits) ==>
              (r.Ok? <==> exists cuts :: Packing(state, catalogRevision, fits, cuts))
    ensures Hereditary(state, catalogRevision, fits) && r.Ok? ==>
              forall cuts :: Packing(state, catalogRevision, fits, cuts) ==> |r.value| <= |cuts| - 1
  {
    var windows := state.windows;
    var frames: seq<Frame> := [];
    var frame := Frame(state.selection, catalogRevision, 0, |windows|, []);
    ghost var cuts: seq<nat> := [0];
    for i := 0 to |windows|
      invariant frame.offset <= i && frame == Slice(state, catalogRevision, frame.offset, i)
      invariant i > 0 ==> frame.offset < i && Sendable(state, catalogRevision, fits, frame.offset, i)
      invariant i == 0 ==> frames == []
      invariant Built(state, catalogRevision, fits, cuts, frames) && cuts[|cuts| - 1] == frame.offset
    {
      var window := windows[i];
      var candidate := frame.(windows := frame.windows + [window]);
      assert candidate == Slice(state, catalogRevision, frame.offset, i + 1);
      if |candidate.windows| <= MAX_FRAME_WINDOWS && fits(candidate) {
        frame := candidate;
        continue;
      }
      if |frame.windows| == 0 {
        assert !EntryFits(state, catalogRevision, fits, i);
        NoPacking(state, catalogRevision, fits, i);
        return Err(WindowEntryTooLarge);
      }
      Extend(state, catalogRevision, fits, cuts, frames, i);
      assert frame == Slice(state, catalogRevision, cuts[|cuts| - 1], i);
      frames := frames + [frame];
      cuts := cuts + [i];
      frame := frame.(offset := frame.offset + |frame.windows|, windows := [window]);
      assert frame == Slice(state, catalogRevision, i, i + 1);
      if !fits(frame) {
        assert !EntryFits(state, catalogRevision, fits, i);
        NoPacking(state, catalogRevision, fits, i);
        return Err(WindowEntryTooLarge);
      }
    }
    if |frame.windows| > 0 {
      Extend(state, catalogRevision, fits, cuts, frames, |windows|);
      assert frame == Slice(state, catalogRevision, cuts[|cuts| - 1], |windows|);
      frames := frames + [frame];
      cuts := cuts + [|windows|];
    }
    BuiltIsLeast(state, catalogRevision, fits, cuts, frames);
    return Ok(frames);
  }

  /** The j-th frame carries the j-th block. */
  predicate Carries(state: WindowState, revision: nat, cuts: seq<nat>, frames: seq<Frame>, j: nat)
    requires j < |frames| == |cuts| - 1
  {
    cuts[j] <= cuts[j + 1] <= |state.windows| && frames[j] == Slice(state, revision, cuts[j], cuts[j + 1])
  }

  /** The blocks cut so far are sendable, carried by their frames, and as long as can be. */
  ghost predicate Built(state: WindowState, revision: nat, fits: Frame -> bool, cuts: seq<nat>, frames: seq<Frame>) {
    && |frames| == |cuts| - 1 && Cuts(cuts, cuts[|cuts| - 1])
    && (forall j :: 0 <= j < |frames| ==> SendableAt(state, revision, fits, cuts, j))
    && (forall j :: 0 <= j < |frames| ==> Carries(state, revision, cuts, frames, j))
    && (forall j :: 0 <= j < |frames| ==> MaximalAt(state, revision, fits, cuts, j))
  }

  /** Cutting at `end`, where the frame is full or the windows are over, adds a block. */
  lemma Extend(state: WindowState, revision: nat, fits: Frame -> bool, cuts: seq<nat>, frames: seq<Frame>, end: nat)
    requires Built(state, revision, fits, cuts, frames) && cuts[|cuts| - 1] < end <= |state.windows|
    requires Sendable(state, revision, fits, cuts[|cuts| - 1], end)
    requires end < |state.windows| ==> !Sendable(state, revision, fits, cuts[|cuts| - 1], end + 1)
    ensures Built(state, revision, fits, cuts + [end], frames + [Slice(state, revision, cuts[|cuts| - 1], end)])
  {
    var cs := cuts + [end];
    var fs := frames + [Slice(state, revision, cuts[|cuts| - 1], end)];
    forall j | 0 <= j < |fs|
      ensures SendableAt(state, revision, fits, cs, j) && Carries(state, revision, cs, fs, j)
      ensures MaximalAt(state, revision, fits, cs, j)
    {
      if j < |frames| {
        assert SendableAt(state, revision, fits, cuts, j) && Carries(state, revision, cuts, frames, j);
        assert MaximalAt(state, revision, fits, cuts, j);
        assert cs[j] == cuts[j] && cs[j + 1] == cuts[j + 1] && fs[j] == frames[j];
      }
    }
  }

  lemma BuiltIsLeast(state: WindowState, revision: nat, fits: Frame -> bool, cuts: seq<nat>, frames: seq<Frame>)
    requires Built(state, revision, fits, cuts, frames) && cuts[|cuts| - 1] == |state.windows|
    ensures Framing(state, revision, frames) && Packing(state, revision, fits, cuts)
    ensures forall i :: 0 <= i < |frames| ==> |frames[i].windows| <= MAX_FRAME_WINDOWS && fits(frames[i])
    ensures Hereditary(state, revision, fits) ==>
              forall other :: Packing(state, revision, fits, other) ==> |frames| <= |other| - 1
  {
    CutsMakeFraming(state, revision, fits, cuts, frames);
    forall other | Hereditary(state, revision, fits) && Packing(state, revision, fits, other) ensures |frames| <= |other| - 1 {
      GreedyIsMinimal(state, revision, fits, cuts, other);
    }
  }

  lemma CutsMakeFraming(state: WindowState, revision: nat, fits: Frame -> bool, cuts: seq<nat>, frames: seq<Frame>)
    requires |frames| == |cuts| - 1 && Cuts(cuts, |state.windows|)
    requires forall j :: 0 <= j < |frames| ==> SendableAt(state, revision, fits, cuts, j)
    requires forall j :: 0 <= j < |frames| ==> Carries(state, revision, cuts, frames, j)
    ensures Framing(state, revision, frames)
    ensures forall i :: 0 <= i < |frames| ==> |frames[i].windows| <= MAX_FRAME_WINDOWS && fits(frames[i])
    ensures forall i :: 0 <= i < |cuts| ==> cuts[i] <= |state.windows|
  {
    forall i | 0 <= i < |frames|
      ensures frames[i].offset == cuts[i] && frames[i].windows != []
      ensures frames[i].offset + |frames[i].windows| <= |state.windows|
      ensures frames[i] == Slice(state, revision, frames[i].offset, frames[i].offset + |frames[i].windows|)
      ensures |frames[i].windows| <= MAX_FRAME_WINDOWS && fits(frames[i])
      ensures frames[i].offset + |frames[i].windows| == cuts[i + 1]
    {
      assert Carries(state, revision, cuts, frames, i) && SendableAt(state, revision, fits, cuts, i);
    }
    forall i | 0 < i < |frames| ensures Linked(frames, i) {
      assert frames[i - 1].offset + |frames[i - 1].windows| == cuts[i - 1 + 1];
    }
    if frames != [] {
      assert frames[|frames| - 1].offset + |frames[|frames| - 1].windows| == cuts[|frames| - 1 + 1];
    }
  }

  lemma NoPacking(state: WindowState, revision: nat, fits: Frame -> bool, i: nat)
    requires i < |state.windows| && !EntryFits(state, revision, fits, i)
    ensures Hereditary(state, revision, fits) ==> !exists cuts :: Packing(state, revision, fits, cuts)
  {
    if Hereditary(state, revision, fits) {
      PackableIffEntriesFit(state, revision, fits);
    }
  }

  // ------------------------------------------------- the MessagePack size test

  function UintBytes(n: nat): nat {
    if n < 0x80 then 1 else if n < 0x100 then 2 else if n < 0x1_0000 then 3
    else if n < 0x1_0000_0000 then 5 else 9
  }

  function StringBytes(bytes: nat): nat {
    bytes + if bytes < 32 then 1 else if bytes < 0x100 then 2 else if bytes < 0x1_0000 then 3 else 5
  }

  function ArrayHeaderBytes(n: nat): nat {
    if n < 16 then 1 else if n < 0x1_0000 then 3 else 5
  }

  /** One catalog entry: a four-key map of three strings and a boolean. */
  function EntryBytes(utf8: string -> nat, w: Window): nat {
    1 + 9 + StringBytes(utf8(w.targetId)) + 6 + StringBytes(utf8(w.title))
    + 4 + StringBytes(utf8(w.url)) + 5 + 1
  }

  function EntriesBytes(utf8: string -> nat, windows: seq<Window>): nat {
    if windows == [] then 0 else EntryBytes(utf8, windows[0]) + EntriesBytes(utf8, windows[1..])
  }

  /** `base` counts the fields that do not change within one split. */
  function FrameBytes(base: nat, utf8: string -> nat, f: Frame): nat {
    base + UintBytes(f.offset) + ArrayHeaderBytes(|f.windows|) + EntriesBytes(utf8, f.windows)
  }

  lemma {:induction false} EntriesBytesLast(utf8: string -> nat, windows: seq<Window>)
    requires windows != []
    ensures EntriesBytes(utf8, windows)
         == EntriesBytes(utf8, windows[..|windows| - 1]) + EntryBytes(utf8, windows[|windows| - 1])
  {
    if |windows| > 1 {
      EntriesBytesLast(utf8, windows[1..]);
      assert windows[1..][..|windows| - 2] == windows[..|windows| - 1][1..];
    }
  }

  /** The encoder's size test is hereditary although dropping the first window raises the offset. */
  lemma MessagePackFitIsHereditary(state: WindowState, revision: nat, base: nat, utf8: string -> nat)
    ensures Hereditary(state, revision, (f: Frame) => FrameBytes(base, utf8, f) <= WINDOW_FRAME_BYTES)
  {
    forall lo: nat, hi: nat | lo + 1 < hi <= |state.windows|
      ensures FrameBytes(base, utf8, Slice(state, revision, lo + 1, hi)) <= FrameBytes(base, utf8, Slice(state, revision, lo, hi))
      ensures FrameBytes(base, utf8, Slice(state, revision, lo, hi - 1)) <= FrameBytes(base, utf8, Slice(state, revision, lo, hi))
    {
      var ws := state.windows[lo..hi];
      assert ws[1..] == state.windows[lo + 1..hi];
      EntriesBytesLast(utf8, ws);
      assert ws[..|ws| - 1] == state.windows[lo..hi - 1];
    }
  }

  // ---------------------------------------------------------------- receiver

  datatype Pending = Pending(first: Frame, windows: seq<Window>)

  datatype Receiver = Receiver(latestRevision: int, pending: Option<Pending>)

  /** What `accept` answers: undefined, a complete snapshot, or an exception. */
  datatype Outcome = Nothing | Snapshot(state: WindowState) | InvalidCatalog

  const FRESH := Receiver(-1, None)

  predicate SameSelection(a: Selection, b: Selection) {
    a.(error := None) == b.(error := None)
  }

  predicate Stale(r: Receiver, f: Frame) {
    f.catalogRevision < r.latestRevision || (f.catalogRevision == r.latestRevision && r.pending.None?)
  }

  function Append(latest: int, p: Pending, f: Frame): (Receiver, Outcome) {
    if f.offset != |p.windows| || f.total != p.first.total || !SameSelection(f.selection, p.first.selection)
       || f.offset + |f.windows| > f.total then
      (Receiver(latest, Some(p)), InvalidCatalog)
    else
      var windows := p.windows + f.windows;
      if |windows| != f.total then (Receiver(latest, Some(p.(windows := windows))), Nothing)
      else (Receiver(latest, None), Snapshot(WindowState(p.first.selection, windows)))
  }

  function AcceptStep(r: Receiver, f: Frame): (Receiver, Outcome) {
    if Stale(r, f) then (r, Nothing)
    else if f.catalogRevision > r.latestRevision then
      if f.offset != 0 then (r, InvalidCatalog)
      else Append(f.catalogRevision, Pending(f, []), f)
    else Append(r.latestRevision, r.pending.value, f)
  }

  class WindowCatalogReceiver {
    var latestRevision: int
    var pending: Option<Pending>

    function View(): Receiver
      reads this
    {
      Receiver(latestRevision, pending)
    }

    constructor ()
      ensures View() == FRESH
    {
      latestRevision := -1;
      pending := None;
    }

    method Reset()
      modifies this
      ensures View() == FRESH
    {
      latestRevision := -1;
      pending := None;
    }

    method Accept(frame: Frame) returns (o: Outcome)
      modifies this
      ensures (View(), o) == AcceptStep(old(View()), frame)
    {
      if frame.catalogRevision < latestRevision || (frame.catalogRevision == latestRevision && pending == None) {
        return Nothing;
      }
      if frame.catalogRevision > latestRevision {
        if frame.offset != 0 {
          return InvalidCatalog;
        }
        latestRevision := frame.catalogRevision;
        pending := Some(Pending(frame, []));
      }
      var first := pending.value.first;
      var windows := pending.value.windows;
      if frame.offset != |windows| || frame.total != first.total || !SameSelection(frame.selection, first.selection)
         || frame.offset + |frame.windows| > frame.total {
        return InvalidCatalog;
      }
      windows := windows + frame.windows;
      pending := Some(Pending(first, windows));
      if |windows| != frame.total {
        return Nothing;
      }
      pending := None;
      return Snapshot(WindowState(first.selection, windows));
    }
  }

  // -------------------------------------------------------------- round trip

  /** The receiver and its answers after a sequence of frames. */
  function Feed(r: Receiver, frames: seq<Frame>): (res: (Receiver, seq<Outcome>))
    ensures |res.1| == |frames|
  {
    if frames == [] then (r, [])
    else
      var (r1, os) := Feed(r, frames[..|frames| - 1]);
      var (r2, o) := AcceptStep(r1, frames[|frames| - 1]);
      (r2, os + [o])
  }

  lemma {:induction false} FeedAppend(r: Receiver, a: seq<Frame>, b: seq<Frame>)
    ensures Feed(r, a + b).0 == Feed(Feed(r, a).0, b).0
    ensures Feed(r, a + b).1 == Feed(r, a).1 + Feed(Feed(r, a).0, b).1
  {
    if b == [] {
      assert a + b == a;
    } else {
      assert (a + b)[..|a + b| - 1] == a + b[..|b| - 1];
      FeedAppend(r, a, b[..|b| - 1]);
    }
  }

  /** The answers owed for the first `count` frames of a snapshot. */
  function Expected(state: WindowState, frames: seq<Frame>, count: nat): seq<Outcome>
    requires count <= |frames|
  {
    seq(count, i => if i == |frames| - 1 then Snapshot(state) else Nothing)
  }

  /** The next frame of a snapshot, the first or one that goes on where the receiver is, goes on to `end`. */
  lemma AcceptSlice(r: Receiver, state: WindowState, revision: nat, first: Frame, f: Frame, end: nat)
    requires f.offset < end <= |state.windows| && f == Slice(state, revision, f.offset, end)
    requires |first.windows| <= |state.windows| && first == Slice(state, revision, 0, |first.windows|)
    requires if f.offset == 0 then r.latestRevision < revision && first == f
             else r == Receiver(revision, Some(Pending(first, state.windows[..f.offset])))
    ensures AcceptStep(r, f) == if end == |state.windows| then (Receiver(revision, None), Snapshot(state))
                                else (Receiver(revision, Some(Pending(first, state.windows[..end]))), Nothing)
  {
    assert state.windows[..f.offset] + f.windows == state.windows[..end];
    assert f.offset == 0 ==> [] + f.windows == state.windows[..end];
    assert state.windows[..|state.windows|] == state.windows;
  }

  /** A prefix of one snapshot's frames is answered with nothing but the snapshot at its last frame. */
  lemma {:induction false} FeedSnapshot(r: Receiver, state: WindowState, revision: nat, frames: seq<Frame>, count: nat)
    requires Framing(state, revision, frames) && r.latestRevision < revision && 0 < count <= |frames|
    ensures Feed(r, frames[..count]).1 == Expected(state, frames, count)
    ensures var end := frames[count - 1].offset + |frames[count - 1].windows|;
            Feed(r, frames[..count]).0 == Receiver(revision,
              if count == |frames| then None else Some(Pending(frames[0], state.windows[..end])))
  {
    var f := frames[count - 1];
    assert frames[..count][..count - 1] == frames[..count - 1];
    if count < |frames| {
      FrameEndsEarly(state, revision, frames, count - 1);
    }
    if count == 1 {
      assert Feed(r, frames[..0]) == (r, []);
      AcceptSlice(r, state, revision, f, f, f.offset + |f.windows|);
    } else {
      FeedSnapshot(r, state, revision, frames, count - 1);
      assert Linked(frames, count - 1);
      AcceptSlice(Feed(r, frames[..count - 1]).0, state, revision, frames[0], f, f.offset + |f.windows|);
    }
    assert Expected(state, frames, count)
        == Expected(state, frames, count - 1) + [if count == |frames| then Snapshot(state) else Nothing];
  }

  lemma {:induction false} FrameEndsEarly(state: WindowState, revision: nat, frames: seq<Frame>, i: nat)
    requires Framing(state, revision, frames) && i + 1 < |frames|
    ensures frames[i].offset + |frames[i].windows| < |state.windows|
  {
    assert Linked(frames, i + 1);
    assert frames[i + 1].windows != [];
  }

  /** One publication of which the first `count` frames arrive. */
  datatype Delivery = Delivery(state: WindowState, revision: nat, frames: seq<Frame>, count: nat)

  predicate Deliveries(r: Receiver, ds: seq<Delivery>) {
    && (forall i :: 0 <= i < |ds| ==>
          Framing(ds[i].state, ds[i].revision, ds[i].frames) && 0 < ds[i].count <= |ds[i].frames|)
    && (forall i :: 0 <= i < |ds| ==> r.latestRevision < ds[i].revision)
    && (forall i, j :: 0 <= i < j < |ds| ==> ds[i].revision < ds[j].revision)
  }

  function Stream(ds: seq<Delivery>): seq<Frame>
    requires forall i :: 0 <= i < |ds| ==> ds[i].count <= |ds[i].frames|
  {
    if ds == [] then [] else Stream(ds[..|ds| - 1]) + ds[|ds| - 1].frames[..ds[|ds| - 1].count]
  }

  function ExpectedStream(ds: seq<Delivery>): seq<Outcome>
    requires forall i :: 0 <= i < |ds| ==> ds[i].count <= |ds[i].frames|
  {
    if ds == [] then []
    else var d := ds[|ds| - 1]; ExpectedStream(ds[..|ds| - 1]) + Expected(d.state, d.frames, d.count)
  }

  /**
   Any sequence of publications of increasing catalog revision, each complete or cut short by the
   next, is answered with exactly the complete snapshots, each once, at its own last frame.
   */
  lemma {:induction false} CatalogRoundTrip(r: Receiver, ds: seq<Delivery>)
    requires Deliveries(r, ds)
    ensures Feed(r, Stream(ds)).1 == ExpectedStream(ds)
    ensures ds != [] ==> Feed(r, Stream(ds)).0.latestRevision == ds[|ds| - 1].revision
    ensures ds == [] ==> Feed(r, Stream(ds)).0 == r
  {
    if ds != [] {
      var d := ds[|ds| - 1];
      var rest := ds[..|ds| - 1];
      CatalogRoundTrip(r, rest);
      FeedAppend(r, Stream(rest), d.frames[..d.count]);
      FeedSnapshot(Feed(r, Stream(rest)).0, d.state, d.revision, d.frames, d.count);
    }
  }

  lemma FeedOne(r: Receiver, f: Frame)
    ensures Feed(r, [f]) == (AcceptStep(r, f).0, [AcceptStep(r, f).1])
  {
    var one := [f];
    assert one[..|one| - 1] == [];
    assert Feed(r, []) == (r, []);
    var out: seq<Outcome> := [];
    assert out + [AcceptStep(r, f).1] == [AcceptStep(r, f).1];
    assert one[|one| - 1] == f;
  }

  /** A frame of an older or already completed revision changes nothing, wherever it is inserted. */
  lemma StaleFrameIsTransparent(r: Receiver, a: seq<Frame>, f: Frame, b: seq<Frame>)
    requires Stale(Feed(r, a).0, f)
    ensures Feed(r, a + [f] + b).0 == Feed(r, a + b).0
    ensures Feed(r, a + [f] + b).1 == Feed(r, a).1 + [Nothing] + Feed(Feed(r, a).0, b).1
  {
    FeedAppend(r, a + [f], b);
    FeedAppend(r, a, [f]);
    FeedAppend(r, a, b);
    FeedOne(Feed(r, a).0, f);
    assert [f][..0] == [];
  }

  // -------------------------------------------- arbitrary delay, loss, reordering

  /** The snapshot published under each catalog revision. */
  type Catalogs = map<nat, WindowState>

  predicate Published(catalogs: Catalogs, f: Frame) {
    && f.catalogRevision in catalogs
    && var state := catalogs[f.catalogRevision];
    && f.offset + |f.windows| <= |state.windows|
    && f == Slice(state, f.catalogRevision, f.offset, f.offset + |f.windows|)
  }

  predicate ReceiverInv(catalogs: Catalogs, r: Receiver) {
    && r.latestRevision >= -1
    && (r.pending.Some? ==>
          && r.latestRevision >= 0 && r.latestRevision in catalogs
          && var state := catalogs[r.latestRevision];
          && r.pending.value.first.selection == state.selection
          && r.pending.value.first.total == |state.windows|
          && |r.pending.value.windows| <= |state.windows|
          && r.pending.value.windows == state.windows[..|r.pending.value.windows|])
  }

  /** Whatever published frame arrives, a returned snapshot is the one published under its revision. */
  lemma AcceptPublished(catalogs: Catalogs, r: Receiver, f: Frame)
    requires ReceiverInv(catalogs, r) && Published(catalogs, f)
    ensures ReceiverInv(catalogs, AcceptStep(r, f).0)
    ensures AcceptStep(r, f).1.Snapshot? ==> AcceptStep(r, f).1.state == catalogs[f.catalogRevision]
    ensures AcceptStep(r, f).0.latestRevision >= r.latestRevision
    ensures AcceptStep(r, f).1.Snapshot? ==>
              !Stale(r, f) && AcceptStep(r, f).0 == Receiver(f.catalogRevision, None)
  {
    var state := catalogs[f.catalogRevision];
    if !Stale(r, f) {
      assert f.offset + |f.windows| <= |state.windows|;
      assert state.windows[..f.offset] + f.windows == state.windows[..f.offset + |f.windows|];
      assert state.windows[..|state.windows|] == state.windows;
    }
  }

  /** A published frame that is not stale is refused exactly when it is not the next one of its snapshot. */
  lemma RefusedIffNotNext(catalogs: Catalogs, r: Receiver, f: Frame)
    requires ReceiverInv(catalogs, r) && Published(catalogs, f) && !Stale(r, f)
    ensures AcceptStep(r, f).1 == InvalidCatalog
       <==> f.offset != if f.catalogRevision > r.latestRevision then 0 else |r.pending.value.windows|
  {
    assert f.offset + |f.windows| <= |catalogs[f.catalogRevision].windows|;
  }

  predicate StrictlyIncreasing(revisions: seq<nat>) {
    forall i, j :: 0 <= i < j < |revisions| ==> revisions[i] < revisions[j]
  }

  /** The receiver accepts no further frame of these revisions. */
  predicate AllFinished(r: Receiver, revisions: seq<nat>) {
    forall i :: 0 <= i < |revisions| ==>
      revisions[i] < r.latestRevision || (revisions[i] == r.latestRevision && r.pending.None?)
  }

  /** The catalog revisions of the snapshots returned while the frames are fed. */
  function Returned(r: Receiver, frames: seq<Frame>): (revisions: seq<nat>) {
    if frames == [] then []
    else
      var last := frames[|frames| - 1];
      Returned(r, frames[..|frames| - 1])
      + if Feed(r, frames).1[|frames| - 1].Snapshot? then [last.catalogRevision] else []
  }

  /**
   Under any loss, duplication and reordering of published frames the returned snapshots carry
   strictly increasing catalog revisions, so none is returned twice, and each equals its original.
   */
  lemma {:induction false} ArbitraryDeliveryIsSafe(catalogs: Catalogs, r: Receiver, frames: seq<Frame>)
    requires ReceiverInv(catalogs, r)
    requires forall i :: 0 <= i < |frames| ==> Published(catalogs, frames[i])
    ensures ReceiverInv(catalogs, Feed(r, frames).0)
    ensures forall i :: 0 <= i < |frames| && Feed(r, frames).1[i].Snapshot? ==>
              frames[i].catalogRevision in catalogs
              && Feed(r, frames).1[i].state == catalogs[frames[i].catalogRevision]
    ensures StrictlyIncreasing(Returned(r, frames))
    ensures AllFinished(Feed(r, frames).0, Returned(r, frames))
  {
    if frames != [] {
      ArbitraryDeliveryIsSafe(catalogs, r, frames[..|frames| - 1]);
      var last := frames[|frames| - 1];
      var r1 := Feed(r, frames[..|frames| - 1]).0;
      assert Feed(r, frames).0 == AcceptStep(r1, last).0;
      AcceptPublished(catalogs, r1, last);
      assert Feed(r, frames).1[|frames| - 1] == AcceptStep(r1, last).1;
      var before := Returned(r, frames[..|frames| - 1]);
      assert AllFinished(r1, before);
      var out := Returned(r, frames);
      if AcceptStep(r1, last).1.Snapshot? {
        assert out == before + [last.catalogRevision];
        assert forall i :: 0 <= i < |before| ==> before[i] < last.catalogRevision;
      } else {
        assert out == before;
      }
    }
  }
}
