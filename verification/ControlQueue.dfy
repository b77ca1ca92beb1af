/**
 The Session's control queue with hover coalescing. Every queued job is a link of one promise
 chain; a passive pointer move that arrives behind a compatible move still waiting at the end of
 the chain replaces that move's message instead of adding a link.
 */
module ControlQueue {
  import opened Common

  /** What two passive moves must share to be coalesced. */
  datatype HoverKey = HoverKey(
    sessionId: string,
    viewerGeneration: nat,
    windowRevision: Option<nat>,
    viewportRevision: nat,
    modifiers: nat)

  datatype Hover = Hover(key: HoverKey, sequence: nat, x: real, y: real)

  /** A job of the chain. Internal jobs are browser events, recoveries and cancellations. */
  datatype Job = Passive(hover: Hover) | Command(id: nat) | Internal(id: nat)

  /** A decoded Viewer message. Moves with a button held are commands. */
  datatype Message = PointerMove(hover: Hover) | NoticeResponse(id: nat) | Other(id: nat)

  /** The slot that may still be overwritten, and the chain value it was appended as. */
  datatype PendingHover = PendingHover(slot: nat, chain: nat)

  /**
   `slots` holds the jobs ever appended, of which the first `started` were handed to the handler.
   `controlChain` identifies the promise at the end of the chain.
   */
  datatype Queue = Queue(
    slots: seq<Job>,
    started: nat,
    running: bool,
    controlChain: nat,
    pendingHover: Option<PendingHover>,
    executed: seq<Job>,
    answered: seq<nat>)

  const EMPTY := Queue([], 0, false, 0, None, [], [])

  datatype Event = Arrive(message: Message) | Enqueue(id: nat) | Start | Finish

  predicate Enabled(q: Queue, e: Event) {
    match e
    case Start => !q.running && q.started < |q.slots|
    case Finish => q.running
    case _ => true
  }

  predicate Coalesces(q: Queue, h: Hover) {
    && q.pendingHover.Some?
    && q.pendingHover.value.slot < |q.slots|
    && q.pendingHover.value.chain == q.controlChain
    && q.slots[q.pendingHover.value.slot].Passive?
    && q.slots[q.pendingHover.value.slot].hover.key == h.key
  }

  function AppendJob(q: Queue, job: Job): Queue {
    q.(slots := q.slots + [job], controlChain := q.controlChain + 1)
  }

  function Step(q: Queue, e: Event): Queue
    requires Enabled(q, e)
  {
    match e
    case Arrive(PointerMove(h)) =>
      if Coalesces(q, h) then
        var slot := q.pendingHover.value.slot;
        if h.sequence > q.slots[slot].hover.sequence then q.(slots := q.slots[slot := Passive(h)]) else q
      else
        AppendJob(q, Passive(h)).(pendingHover := Some(PendingHover(|q.slots|, q.controlChain + 1)))
    case Arrive(NoticeResponse(id)) => q.(pendingHover := None, answered := q.answered + [id])
    case Arrive(Other(id)) => AppendJob(q, Command(id)).(pendingHover := None)
    case Enqueue(id) => AppendJob(q, Internal(id))
    case Start =>
      q.(started := q.started + 1, running := true, executed := q.executed + [q.slots[q.started]],
         pendingHover := if q.pendingHover.Some? && q.pendingHover.value.slot == q.started then None else q.pendingHover)
    case Finish => q.(running := false)
  }

  class SessionControlQueue {
    var slots: seq<Job>
    var started: nat
    var running: bool
    var controlChain: nat
    var pendingHover: Option<PendingHover>
    var executed: seq<Job>
    var answered: seq<nat>

    function View(): Queue
      reads this
    {
      Queue(slots, started, running, controlChain, pendingHover, executed, answered)
    }

    constructor ()
      ensures View() == EMPTY
    {
      slots, started, running, controlChain, pendingHover, executed, answered := [], 0, false, 0, None, [], [];
    }

    /** The listener of `onMediaControl`. */
    method Receive(message: Message)
      requires WellFormed(View())
      modifies this
      ensures View() == Step(old(View()), Arrive(message))
    {
      match message {
        case PointerMove(hover) =>
          if pendingHover.Some? && pendingHover.value.chain == controlChain {
            var pending := slots[pendingHover.value.slot].hover;
            if pending.key == hover.key {
              if hover.sequence > pending.sequence {
                slots := slots[pendingHover.value.slot := Passive(hover)];
              }
              return;
            }
          }
          var slot := |slots|;
          slots := slots + [Passive(hover)];
          controlChain := controlChain + 1;
          pendingHover := Some(PendingHover(slot, controlChain));
        case NoticeResponse(id) =>
          pendingHover := None;
          answered := answered + [id];
        case Other(id) =>
          pendingHover := None;
          slots := slots + [Command(id)];
          controlChain := controlChain + 1;
      }
    }

    /** A browser event or a recovery appends to the chain without touching the pending move. */
    method Append(id: nat)
      modifies this
      ensures View() == Step(old(View()), Enqueue(id))
    {
      slots := slots + [Internal(id)];
      controlChain := controlChain + 1;
    }

    /** The chain runs its next link. */
    method StartNext()
      requires Enabled(View(), Start)
      modifies this
      ensures View() == Step(old(View()), Start)
    {
      if pendingHover.Some? && pendingHover.value.slot == started {
        pendingHover := None;
      }
      executed := executed + [slots[started]];
      started := started + 1;
      running := true;
    }

    method FinishRunning()
      requires Enabled(View(), Finish)
      modifies this
      ensures View() == Step(old(View()), Finish)
    {
      running := false;
    }
  }

  // ------------------------------------------------------------------- runs

  predicate WellFormed(q: Queue) {
    && q.controlChain == |q.slots|
    && q.started <= |q.slots|
    && q.executed == q.slots[..q.started]
    && (q.pendingHover.Some? ==>
          && q.started <= q.pendingHover.value.slot < |q.slots|
          && q.slots[q.pendingHover.value.slot].Passive?
          && q.pendingHover.value.chain == q.pendingHover.value.slot + 1)
  }

  /** The queue after a run, or None when an event was not enabled. */
  function Run(events: seq<Event>): Option<Queue> {
    if events == [] then Some(EMPTY)
    else
      var before := Run(events[..|events| - 1]);
      if before.Some? && Enabled(before.value, events[|events| - 1])
      then Some(Step(before.value, events[|events| - 1])) else None
  }

  function QueuedJob(e: Event): seq<Job> {
    match e
    case Arrive(PointerMove(h)) => [Passive(h)]
    case Arrive(Other(id)) => [Command(id)]
    case Enqueue(id) => [Internal(id)]
    case _ => []
  }

  /** The plain FIFO queue: every job that arrived, in arrival order. */
  function Arrivals(events: seq<Event>): seq<Job> {
    if events == [] then []
    else Arrivals(events[..|events| - 1]) + QueuedJob(events[|events| - 1])
  }

  /** A job stands for a block of arrivals: itself, or compatible moves none of which is newer. */
  predicate StandsFor(job: Job, block: seq<Job>) {
    && job in block
    && (!job.Passive? ==> block == [job])
    && (job.Passive? ==> forall i :: 0 <= i < |block| ==>
          && block[i].Passive? && block[i].hover.key == job.hover.key
          && block[i].hover.sequence <= job.hover.sequence)
  }

  predicate BlockAt(arrivals: seq<Job>, slots: seq<Job>, cuts: seq<nat>, k: nat)
    requires k < |slots| == |cuts| - 1
  {
    cuts[k] < cuts[k + 1] <= |arrivals| && StandsFor(slots[k], arrivals[cuts[k]..cuts[k + 1]])
  }

  /** The slots stand, in order, for consecutive blocks that partition the arrivals. */
  predicate Refines(arrivals: seq<Job>, slots: seq<Job>, cuts: seq<nat>) {
    && |cuts| == |slots| + 1 && cuts[0] == 0 && cuts[|slots|] == |arrivals|
    && forall k :: 0 <= k < |slots| ==> BlockAt(arrivals, slots, cuts, k)
  }

  lemma AppendRefines(arrivals: seq<Job>, slots: seq<Job>, cuts: seq<nat>, job: Job)
    requires Refines(arrivals, slots, cuts)
    ensures Refines(arrivals + [job], slots + [job], cuts + [|arrivals| + 1])
  {
    var as', ss', cs' := arrivals + [job], slots + [job], cuts + [|arrivals| + 1];
    forall k | 0 <= k < |ss'| ensures BlockAt(as', ss', cs', k) {
      if k < |slots| {
        assert BlockAt(arrivals, slots, cuts, k);
        assert as'[cs'[k]..cs'[k + 1]] == arrivals[cuts[k]..cuts[k + 1]];
      } else {
        assert as'[cs'[k]..cs'[k + 1]] == [job];
      }
    }
  }

  lemma CoalesceRefines(arrivals: seq<Job>, slots: seq<Job>, cuts: seq<nat>, h: Hover, last: Job)
    requires Refines(arrivals, slots, cuts) && slots != []
    requires var top := slots[|slots| - 1];
             && top.Passive? && top.hover.key == h.key
             && last == (if h.sequence > top.hover.sequence then Passive(h) else top)
    ensures Refines(arrivals + [Passive(h)], slots[|slots| - 1 := last], cuts[|slots| := |arrivals| + 1])
  {
    var as', ss', cs' := arrivals + [Passive(h)], slots[|slots| - 1 := last], cuts[|slots| := |arrivals| + 1];
    forall k | 0 <= k < |ss'| ensures BlockAt(as', ss', cs', k) {
      assert BlockAt(arrivals, slots, cuts, k);
      if k < |slots| - 1 {
        assert as'[cs'[k]..cs'[k + 1]] == arrivals[cuts[k]..cuts[k + 1]];
      } else {
        var block := arrivals[cuts[k]..cuts[k + 1]];
        assert as'[cs'[k]..cs'[k + 1]] == block + [Passive(h)];
        assert last in block + [Passive(h)];
      }
    }
  }

  lemma StepKeepsWellFormed(q: Queue, e: Event)
    requires WellFormed(q) && Enabled(q, e)
    ensures WellFormed(Step(q, e))
    ensures q.executed <= Step(q, e).executed
  {
    var q' := Step(q, e);
    if e.Start? {
      assert q'.slots[..q'.started] == q.slots[..q.started] + [q.slots[q.started]];
    } else {
      assert q'.slots[..q'.started] == q.slots[..q.started];
    }
  }

  lemma StepRefines(q: Queue, e: Event, arrivals: seq<Job>, cuts: seq<nat>) returns (cuts': seq<nat>)
    requires WellFormed(q) && Enabled(q, e) && Refines(arrivals, q.slots, cuts)
    ensures Refines(arrivals + QueuedJob(e), Step(q, e).slots, cuts')
  {
    match e {
      case Arrive(PointerMove(h)) =>
        if Coalesces(q, h) {
          var last := Step(q, e).slots[|q.slots| - 1];
          CoalesceRefines(arrivals, q.slots, cuts, h, last);
          assert Step(q, e).slots == q.slots[|q.slots| - 1 := last];
          return cuts[|q.slots| := |arrivals| + 1];
        }
        AppendRefines(arrivals, q.slots, cuts, Passive(h));
        return cuts + [|arrivals| + 1];
      case Arrive(Other(id)) =>
        AppendRefines(arrivals, q.slots, cuts, Command(id));
        return cuts + [|arrivals| + 1];
      case Enqueue(id) =>
        AppendRefines(arrivals, q.slots, cuts, Internal(id));
        return cuts + [|arrivals| + 1];
      case _ =>
        assert arrivals + QueuedJob(e) == arrivals;
        return cuts;
    }
  }

  /** Every run keeps the queue well formed and a partition of its arrivals. */
  lemma {:induction false} RunRefinesFifo(events: seq<Event>) returns (cuts: seq<nat>)
    requires Run(events).Some?
    ensures WellFormed(Run(events).value)
    ensures Refines(Arrivals(events), Run(events).value.slots, cuts)
  {
    if events == [] {
      return [0];
    }
    var init, e := events[..|events| - 1], events[|events| - 1];
    var before := RunRefinesFifo(init);
    StepKeepsWellFormed(Run(init).value, e);
    cuts := StepRefines(Run(init).value, e, Arrivals(init), before);
  }

  function Ordered(jobs: seq<Job>): seq<Job> {
    if jobs == [] then []
    else Ordered(jobs[..|jobs| - 1]) + if jobs[|jobs| - 1].Passive? then [] else [jobs[|jobs| - 1]]
  }

  lemma {:induction false} OrderedAppend(a: seq<Job>, b: seq<Job>)
    ensures Ordered(a + b) == Ordered(a) + Ordered(b)
  {
    if b == [] {
      assert a + b == a;
    } else {
      assert (a + b)[..|a + b| - 1] == a + b[..|b| - 1];
      OrderedAppend(a, b[..|b| - 1]);
    }
  }

  lemma {:induction false} OrderedBlock(job: Job, block: seq<Job>)
    requires StandsFor(job, block)
    ensures Ordered(block) == if job.Passive? then [] else [job]
  {
    if job.Passive? {
      PassiveHasNone(block);
    } else {
      assert block[..0] == [];
    }
  }

  lemma {:induction false} PassiveHasNone(jobs: seq<Job>)
    requires forall i :: 0 <= i < |jobs| ==> jobs[i].Passive?
    ensures Ordered(jobs) == []
  {
    if jobs != [] {
      PassiveHasNone(jobs[..|jobs| - 1]);
    }
  }

  lemma {:induction false} PrefixKeepsOrder(arrivals: seq<Job>, slots: seq<Job>, cuts: seq<nat>, k: nat)
    requires Refines(arrivals, slots, cuts) && k <= |slots|
    ensures cuts[k] <= |arrivals| && Ordered(slots[..k]) == Ordered(arrivals[..cuts[k]])
  {
    if k > 0 {
      PrefixKeepsOrder(arrivals, slots, cuts, k - 1);
      BlockKeepsOrder(arrivals, slots, cuts, k - 1);
      OrderedSnoc(slots, k);
    }
  }

  lemma OrderedSnoc(jobs: seq<Job>, k: nat)
    requires 0 < k <= |jobs|
    ensures Ordered(jobs[..k]) == Ordered(jobs[..k - 1]) + if jobs[k - 1].Passive? then [] else [jobs[k - 1]]
  {
    assert jobs[..k][..k - 1] == jobs[..k - 1];
  }

  lemma BlockKeepsOrder(arrivals: seq<Job>, slots: seq<Job>, cuts: seq<nat>, k: nat)
    requires Refines(arrivals, slots, cuts) && k < |slots|
    ensures cuts[k] <= cuts[k + 1] <= |arrivals|
    ensures Ordered(arrivals[..cuts[k + 1]])
         == Ordered(arrivals[..cuts[k]]) + if slots[k].Passive? then [] else [slots[k]]
  {
    assert BlockAt(arrivals, slots, cuts, k);
    var block := arrivals[cuts[k]..cuts[k + 1]];
    OrderedBlock(slots[k], block);
    OrderedAppend(arrivals[..cuts[k]], block);
    assert arrivals[..cuts[k]] + block == arrivals[..cuts[k + 1]];
  }

  /** Jobs other than passive moves run exactly once each, in arrival order. */
  lemma OrderedJobsRunInArrivalOrder(events: seq<Event>)
    requires Run(events).Some?
    ensures Ordered(Run(events).value.executed) <= Ordered(Arrivals(events))
    ensures Run(events).value.started == |Run(events).value.slots| ==>
              Ordered(Run(events).value.executed) == Ordered(Arrivals(events))
  {
    var cuts := RunRefinesFifo(events);
    var q, arrivals := Run(events).value, Arrivals(events);
    PrefixKeepsOrder(arrivals, q.slots, cuts, q.started);
    OrderedAppend(arrivals[..cuts[q.started]], arrivals[cuts[q.started]..]);
    assert arrivals[..cuts[q.started]] + arrivals[cuts[q.started]..] == arrivals;
    assert arrivals[..|arrivals|] == arrivals;
  }

  /** The block an arrival falls into. */
  lemma FindBlock(arrivals: seq<Job>, slots: seq<Job>, cuts: seq<nat>, i: nat) returns (k: nat)
    requires Refines(arrivals, slots, cuts) && i < |arrivals|
    ensures k < |slots| && cuts[k] <= i < cuts[k + 1]
  {
    k := 0;
    while k + 1 < |slots| && cuts[k + 1] <= i
      invariant k < |slots| && cuts[k] <= i
    {
      k := k + 1;
    }
  }

  /** Within a block every arrival is of the kind of the job that stands for it. */
  lemma BlockCovers(arrivals: seq<Job>, slots: seq<Job>, cuts: seq<nat>, k: nat, i: nat) returns (j: nat)
    requires Refines(arrivals, slots, cuts) && k < |slots| && cuts[k] <= i < cuts[k + 1] <= |arrivals| && arrivals[i].Passive?
    ensures slots[k].Passive? && cuts[k] <= j < cuts[k + 1] && arrivals[j] == slots[k]
    ensures slots[k].hover.key == arrivals[i].hover.key && slots[k].hover.sequence >= arrivals[i].hover.sequence
    ensures forall m :: cuts[k] <= m < cuts[k + 1] ==> arrivals[m].Passive? && arrivals[m].hover.key == slots[k].hover.key
  {
    assert BlockAt(arrivals, slots, cuts, k);
    var block := arrivals[cuts[k]..cuts[k + 1]];
    assert block[i - cuts[k]] == arrivals[i];
    var p :| 0 <= p < |block| && block[p] == slots[k];
    j := cuts[k] + p;
    forall m | cuts[k] <= m < cuts[k + 1] ensures arrivals[m].Passive? && arrivals[m].hover.key == slots[k].hover.key {
      assert block[m - cuts[k]] == arrivals[m];
    }
  }

  lemma CutWithin(arrivals: seq<Job>, slots: seq<Job>, cuts: seq<nat>, k: nat)
    requires Refines(arrivals, slots, cuts) && k < |slots|
    ensures cuts[k] < cuts[k + 1] <= |arrivals|
  {
    assert BlockAt(arrivals, slots, cuts, k);
  }

  /** What precedes an arrival of a block of moves holds the ordered jobs of what precedes its job. */
  lemma OrderedBefore(arrivals: seq<Job>, slots: seq<Job>, cuts: seq<nat>, k: nat, i: nat)
    requires Refines(arrivals, slots, cuts) && k < |slots| && cuts[k] <= i < cuts[k + 1] <= |arrivals|
    requires forall m :: cuts[k] <= m < cuts[k + 1] ==> arrivals[m].Passive?
    ensures Ordered(slots[..k]) == Ordered(arrivals[..i])
  {
    PrefixKeepsOrder(arrivals, slots, cuts, k);
    var skipped := arrivals[cuts[k]..i];
    PassiveHasNone(skipped);
    OrderedAppend(arrivals[..cuts[k]], skipped);
    assert arrivals[..cuts[k]] + skipped == arrivals[..i];
  }

  /**
   Every arrived move has a place in the chain held by a compatible move at least as new; what
   arrived between the two are moves of the same kind, and once that place ran, its message is in
   the execution log.
   */
  lemma EveryHoverIsCovered(events: seq<Event>, i: nat) returns (k: nat, j: nat)
    requires Run(events).Some?
    requires i < |Arrivals(events)| && Arrivals(events)[i].Passive?
    ensures var q, arrivals := Run(events).value, Arrivals(events);
            && k < |q.slots| && q.slots[k].Passive? && j < |arrivals| && arrivals[j] == q.slots[k]
            && q.slots[k].hover.key == arrivals[i].hover.key
            && q.slots[k].hover.sequence >= arrivals[i].hover.sequence
            && (forall m :: (i <= m <= j || j <= m <= i) ==>
                  arrivals[m].Passive? && arrivals[m].hover.key == arrivals[i].hover.key)
            && Ordered(q.slots[..k]) == Ordered(arrivals[..i])
            && (k < q.started ==> k < |q.executed| && q.executed[k] == q.slots[k])
  {
    var cuts := RunRefinesFifo(events);
    var q, arrivals := Run(events).value, Arrivals(events);
    k := FindBlock(arrivals, q.slots, cuts, i);
    CutWithin(arrivals, q.slots, cuts, k);
    j := BlockCovers(arrivals, q.slots, cuts, k, i);
    OrderedBefore(arrivals, q.slots, cuts, k, i);
  }

  // ------------------------------------------------------------- effects

  /** The notice responses among the events, in order. */
  function Responses(events: seq<Event>): seq<nat> {
    if events == [] then []
    else
      var before := Responses(events[..|events| - 1]);
      match events[|events| - 1]
      case Arrive(NoticeResponse(id)) => before + [id]
      case _ => before
  }

  /** In any run every notice response that arrived has been answered, in order, whatever still waits in the queue. */
  lemma {:induction false} ResponsesSkipTheQueue(events: seq<Event>)
    requires Run(events).Some?
    ensures Run(events).value.answered == Responses(events)
  {
    if events != [] {
      ResponsesSkipTheQueue(events[..|events| - 1]);
    }
  }

  /** The move that arrived last, unless something else arrived or was appended after it. */
  function LastMove(events: seq<Event>): Option<Hover> {
    if events == [] then None
    else match events[|events| - 1]
      case Arrive(PointerMove(h)) => Some(h)
      case Arrive(_) => None
      case Enqueue(_) => None
      case _ => LastMove(events[..|events| - 1])
  }

  /** The pending move is the one that arrived last, as long as the end of the chain has not started. */
  ghost predicate PendingIs(q: Queue, last: Option<Hover>) {
    && (q.pendingHover.Some? && q.pendingHover.value.chain == q.controlChain <==> last.Some? && q.started < |q.slots|)
    && (last.Some? && q.started < |q.slots| ==>
          q.slots[|q.slots| - 1].Passive? && q.slots[|q.slots| - 1].hover.key == last.value.key)
  }

  lemma StepKeepsPending(q: Queue, e: Event, last: Option<Hover>)
    requires WellFormed(q) && Enabled(q, e) && PendingIs(q, last)
    ensures match e
            case Arrive(PointerMove(h)) => PendingIs(Step(q, e), Some(h))
            case Arrive(_) => PendingIs(Step(q, e), None)
            case Enqueue(_) => PendingIs(Step(q, e), None)
            case _ => PendingIs(Step(q, e), last)
  {
  }

  lemma {:induction false} PendingIsLastMove(events: seq<Event>)
    requires Run(events).Some?
    ensures WellFormed(Run(events).value) && PendingIs(Run(events).value, LastMove(events))
  {
    if events != [] {
      var init, e := events[..|events| - 1], events[|events| - 1];
      PendingIsLastMove(init);
      StepKeepsWellFormed(Run(init).value, e);
      StepKeepsPending(Run(init).value, e, LastMove(init));
    }
  }

  /**
   In any run a move adds no job if and only if what arrived last is a compatible move and the job at
   the end of the queue has not started; that job then carries the newer of the two messages.
   */
  lemma MoveCoalescesIffCompatible(events: seq<Event>, h: Hover)
    requires Run(events).Some?
    ensures var q := Run(events).value; var q' := Step(q, Arrive(PointerMove(h))); var n := |q.slots|;
            if q.started < n && LastMove(events).Some? && LastMove(events).value.key == h.key
            then q.slots[n - 1].Passive? && |q'.slots| == n && q'.slots[..n - 1] == q.slots[..n - 1]
                 && q'.slots[n - 1] == (if h.sequence > q.slots[n - 1].hover.sequence then Passive(h) else q.slots[n - 1])
            else q'.slots == q.slots + [Passive(h)]
  {
    PendingIsLastMove(events);
  }

  /** In any run, once nothing more arrives the jobs left run one after the other until all have run. */
  lemma {:induction false} QueueDrains(events: seq<Event>) returns (more: seq<Event>)
    requires Run(events).Some?
    ensures forall i :: 0 <= i < |more| ==> more[i].Start? || more[i].Finish?
    ensures Run(events + more).Some? && !Run(events + more).value.running
    ensures Run(events + more).value.executed == Run(events).value.slots
    decreases |Run(events).value.slots| - Run(events).value.started, Run(events).value.running
  {
    var cuts := RunRefinesFifo(events);
    var q := Run(events).value;
    if !q.running && q.started == |q.slots| {
      assert events + [] == events;
      return [];
    }
    var e := if q.running then Finish else Start;
    assert (events + [e])[..|events|] == events;
    var rest := QueueDrains(events + [e]);
    assert events + ([e] + rest) == events + [e] + rest;
    return [e] + rest;
  }
}
