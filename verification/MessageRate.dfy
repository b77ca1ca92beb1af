/** The fixed-window message limiter of one signaling connection, and the sliding bound it implies. */
module MessageRate {

  datatype ConnectionRecord = ConnectionRecord(
    address: string, windowStartedAt: int, messagesInWindow: nat, bindInProgress: bool)

  /** The record after one more message at `now`. */
  function Count(r: ConnectionRecord, now: int, windowMs: nat): ConnectionRecord {
    if now - r.windowStartedAt >= windowMs then r.(windowStartedAt := now, messagesInWindow := 1)
    else r.(messagesInWindow := r.messagesInWindow + 1)
  }

  /** Any 2*max + 1 consecutive admissions span at least one window. */
  predicate Sparse(times: seq<int>, windowMs: nat, max: nat) {
    forall i, j :: 0 <= i && i + 2 * max <= j < |times| ==> times[j] - times[i] >= windowMs
  }

  /**
   What the record knows about the admissions of its connection: the running window's are the last
   ones, and those before the preceding window are at least a window older than this one's start.
   */
  predicate Remembers(r: ConnectionRecord, times: seq<int>, windowMs: nat, max: nat) {
    && r.messagesInWindow <= max && r.messagesInWindow <= |times|
    && (forall i :: 0 <= i < |times| - r.messagesInWindow ==> times[i] <= r.windowStartedAt)
    && (forall i :: 0 <= i < |times| - r.messagesInWindow - max ==> times[i] <= r.windowStartedAt - windowMs)
    && (forall i :: |times| - r.messagesInWindow <= i < |times| ==> times[i] >= r.windowStartedAt)
    && Sparse(times, windowMs, max)
  }

  lemma FreshRemembers(r: ConnectionRecord, windowMs: nat, max: nat)
    requires r.messagesInWindow == 0
    ensures Remembers(r, [], windowMs, max)
  {
  }

  /** An admitted message keeps the record's knowledge. */
  lemma AdmitRemembers(r: ConnectionRecord, times: seq<int>, now: int, windowMs: nat, max: nat)
    requires Remembers(r, times, windowMs, max) && max >= 1
    requires forall i :: 0 <= i < |times| ==> times[i] <= now
    requires r.windowStartedAt <= now
    requires Count(r, now, windowMs).messagesInWindow <= max
    ensures Remembers(Count(r, now, windowMs), times + [now], windowMs, max)
  {
  }

  /** A half-open interval of the window's length holds at most twice the maximum. */
  lemma AtMostTwicePerWindow(times: seq<int>, from: int, lo: nat, hi: nat, windowMs: nat, max: nat)
    requires Sparse(times, windowMs, max) && lo <= hi <= |times|
    requires forall i :: lo <= i < hi ==> from <= times[i] < from + windowMs
    ensures hi - lo <= 2 * max
  {
    var j := lo + 2 * max;
    if j < |times| {
      assert times[j] - times[lo] >= windowMs;
    }
  }

  // ----------------------------------------------- when the maximum suffices

  /** The limiter admits these messages one after the other. */
  predicate AllAdmitted(r: ConnectionRecord, times: seq<int>, windowMs: nat, max: nat)
    decreases |times|
  {
    times == [] ||
    (Count(r, times[0], windowMs).messagesInWindow <= max && AllAdmitted(Count(r, times[0], windowMs), times[1..], windowMs, max))
  }

  /** The clock does not run backwards, and the messages arrive in from..to. */
  predicate ArriveWithin(times: seq<int>, from: int, to: int) {
    && (forall i :: 0 <= i < |times| ==> from <= times[i] < to)
    && (forall i, j :: 0 <= i < j < |times| ==> times[i] <= times[j])
  }

  /** While no message finds the window over, admissions fill up one maximum. */
  lemma {:induction false} NoResetFillsOneWindow(r: ConnectionRecord, times: seq<int>, windowMs: nat, max: nat)
    requires AllAdmitted(r, times, windowMs, max) && r.messagesInWindow <= max
    requires forall i :: 0 <= i < |times| ==> times[i] - r.windowStartedAt < windowMs
    ensures r.messagesInWindow + |times| <= max
    decreases |times|
  {
    if times != [] {
      assert times[0] - r.windowStartedAt < windowMs;
      NoResetFillsOneWindow(Count(r, times[0], windowMs), times[1..], windowMs, max);
    }
  }

  function Burst(time: int, n: nat): seq<int> {
    seq(n, _ => time)
  }

  /** A burst inside a window is admitted as far as there is room. */
  lemma {:induction false} RoomAdmitsBurst(r: ConnectionRecord, time: int, n: nat, windowMs: nat, max: nat)
    requires time - r.windowStartedAt < windowMs && r.messagesInWindow + n <= max
    ensures AllAdmitted(r, Burst(time, n), windowMs, max)
    decreases n
  {
    if n > 0 {
      assert Burst(time, n)[1..] == Burst(time, n - 1);
      RoomAdmitsBurst(Count(r, time, windowMs), time, n - 1, windowMs, max);
    }
  }

  /** A burst that finds the window over has a whole maximum of room. */
  lemma ResetAdmitsBurst(r: ConnectionRecord, time: int, windowMs: nat, max: nat)
    requires time - r.windowStartedAt >= windowMs >= 1 && max >= 1
    ensures AllAdmitted(r, Burst(time, max), windowMs, max)
  {
    assert Burst(time, max)[1..] == Burst(time, max - 1);
    RoomAdmitsBurst(Count(r, time, windowMs), time, max - 1, windowMs, max);
  }

  /**
   An interval of one window's length that begins with an admission at `now` holds at most the
   maximum, whatever follows, if and only if that admission starts a window: it finds the previous
   one over, or falls on its very beginning.
   */
  lemma MaximumHoldsIffWindowStarts(r: ConnectionRecord, now: int, windowMs: nat, max: nat)
    requires windowMs >= 1 && r.windowStartedAt <= now && Count(r, now, windowMs).messagesInWindow <= max
    ensures (forall later :: ArriveWithin(later, now, now + windowMs) && AllAdmitted(Count(r, now, windowMs), later, windowMs, max)
                             ==> 1 + |later| <= max)
       <==> (now - r.windowStartedAt >= windowMs || now == r.windowStartedAt)
  {
    var r' := Count(r, now, windowMs);
    if now - r.windowStartedAt >= windowMs || now == r.windowStartedAt {
      forall later | ArriveWithin(later, now, now + windowMs) && AllAdmitted(r', later, windowMs, max) ensures 1 + |later| <= max {
        NoResetFillsOneWindow(r', later, windowMs, max);
      }
    } else {
      var later := Burst(r.windowStartedAt + windowMs, max);
      ResetAdmitsBurst(r', r.windowStartedAt + windowMs, windowMs, max);
      assert ArriveWithin(later, now, now + windowMs) && 1 + |later| > max;
    }
  }

  lemma {:induction false} AdmittedAppend(r: ConnectionRecord, time: int, n: nat, later: seq<int>, windowMs: nat, max: nat)
    requires time - r.windowStartedAt < windowMs && r.messagesInWindow + n <= max
    requires AllAdmitted(r.(messagesInWindow := r.messagesInWindow + n), later, windowMs, max)
    ensures AllAdmitted(r, Burst(time, n) + later, windowMs, max)
    decreases n
  {
    if n == 0 {
      assert Burst(time, 0) + later == later;
    } else {
      assert (Burst(time, n) + later)[1..] == Burst(time, n - 1) + later;
      AdmittedAppend(Count(r, time, windowMs), time, n - 1, later, windowMs, max);
    }
  }

  /** Twice the maximum is reached: a full burst just before a window is over and another just after. */
  lemma TwiceTheMaximumIsReached(address: string, windowMs: nat, max: nat)
    requires windowMs >= 1 && max >= 1
    ensures var times := Burst(windowMs - 1, max) + Burst(windowMs, max);
            && AllAdmitted(ConnectionRecord(address, 0, 0, false), times, windowMs, max)
            && ArriveWithin(times, windowMs - 1, windowMs - 1 + 2) && |times| == 2 * max
  {
    var r := ConnectionRecord(address, 0, 0, false);
    ResetAdmitsBurst(r.(messagesInWindow := max), windowMs, windowMs, max);
    AdmittedAppend(r, windowMs - 1, max, Burst(windowMs, max), windowMs, max);
  }
}
