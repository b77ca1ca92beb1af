/** The handshake of a completed pair, as it appears among everything the Gateway ever sent. */
module GatewayHandshake {
  import opened Common
  import opened Gateway
  import opened GatewayInvariant
  import opened GatewayRelay
  import opened GatewayRuns

  /** The Ready and PeerReady messages among those sent, in order. */
  function Handshakes(sent: seq<Delivery>): seq<Delivery> {
    if sent == [] then []
    else
      var last := sent[|sent| - 1];
      Handshakes(sent[..|sent| - 1]) + if last.message.Ready? || last.message.PeerReady? then [last] else []
  }

  lemma {:induction false} NoticesAreNoHandshakes(before: seq<Delivery>, after: seq<Delivery>)
    requires before <= after
    requires forall i :: |before| <= i < |after| ==> !after[i].message.Ready? && !after[i].message.PeerReady?
    ensures Handshakes(after) == Handshakes(before)
    decreases |after|
  {
    if |after| > |before| {
      NoticesAreNoHandshakes(before, after[..|after| - 1]);
    } else {
      assert after == before;
    }
  }

  lemma HandshakesSnoc(sent: seq<Delivery>, d: Delivery)
    ensures Handshakes(sent + [d]) == Handshakes(sent) + if d.message.Ready? || d.message.PeerReady? then [d] else []
  {
    assert (sent + [d])[..|sent|] == sent;
  }

  lemma HandshakeIsKept(sent: seq<Delivery>, c: Couple, claims: Claims)
    ensures Handshakes(sent + Handshake(c, claims)) == Handshakes(sent) + Handshake(c, claims)
  {
    var h := Handshake(c, claims);
    HandshakesSnoc(sent, h[0]);
    HandshakesSnoc(sent + [h[0]], h[1]);
    HandshakesSnoc(sent + [h[0]] + [h[1]], h[2]);
    HandshakesSnoc(sent + [h[0]] + [h[1]] + [h[2]], h[3]);
    assert sent + [h[0]] + [h[1]] + [h[2]] + [h[3]] == sent + h;
    assert Handshakes(sent) + [h[0]] + [h[1]] + [h[2]] + [h[3]] == Handshakes(sent) + h;
  }

  /** One handshake after the other. */
  function Blocks(couples: seq<Couple>, claims: seq<Claims>): seq<Delivery>
    requires |couples| == |claims|
  {
    if couples == [] then []
    else
      var n := |couples| - 1;
      Blocks(couples[..n], claims[..n]) + Handshake(couples[n], claims[n])
  }

  lemma {:induction false} BlocksAt(couples: seq<Couple>, claims: seq<Claims>, k: nat)
    requires |couples| == |claims| && k < |couples|
    ensures |Blocks(couples, claims)| == 4 * |couples|
    ensures Blocks(couples, claims)[4 * k..4 * k + 4] == Handshake(couples[k], claims[k])
    decreases |couples|
  {
    var n := |couples| - 1;
    var before := Blocks(couples[..n], claims[..n]);
    if n > 0 {
      BlocksAt(couples[..n], claims[..n], if k < n then k else 0);
    }
    assert |before| == 4 * n;
    if k < n {
      assert Blocks(couples, claims)[4 * k..4 * k + 4] == before[4 * k..4 * k + 4];
    }
  }

  lemma BlocksSnoc(couples: seq<Couple>, claims: seq<Claims>, c: Couple, cl: Claims)
    requires |couples| == |claims|
    ensures Blocks(couples + [c], claims + [cl]) == Blocks(couples, claims) + Handshake(c, cl)
  {
    assert (couples + [c])[..|couples|] == couples && (claims + [cl])[..|claims|] == claims;
  }

  lemma RelayIsNoHandshake(g: State, before: seq<Delivery>, after: seq<Delivery>, s: Socket, message: SignalMessage)
    requires RelaysWithin(g, before, after, s, message)
    ensures Handshakes(after) == Handshakes(before)
  {
    assert after == before + [after[|before|]];
    HandshakesSnoc(before, after[|before|]);
  }

  lemma NoticesAreNoHandshake(before: seq<Delivery>, after: seq<Delivery>)
    requires OnlyNotices(before, after)
    ensures Handshakes(after) == Handshakes(before)
  {
    NoticesAreNoHandshakes(before, after);
  }

  lemma OtherStepsShakeNoHands(g: State, e: Event)
    requires Inv(g) && Enabled(g, e) && Announces(g, e).None?
    ensures Handshakes(Step(g, e).sent) == Handshakes(g.sent)
  {
    StepSends(g, e);
    if OnlyNotices(g.sent, Step(g, e).sent) {
      NoticesAreNoHandshake(g.sent, Step(g, e).sent);
    } else {
      RelayIsNoHandshake(g, g.sent, Step(g, e).sent, e.socket, e.frame.message);
    }
  }

  lemma AnnouncingShakesHands(g: State, e: Event)
    requires Inv(g) && Enabled(g, e) && Announces(g, e).Some?
    ensures Handshakes(Step(g, e).sent) == Handshakes(g.sent) + Handshake(Announces(g, e).value, g.completions[e.id].claims)
  {
    StepSends(g, e);
    HandshakeIsKept(g.sent, Announces(g, e).value, g.completions[e.id].claims);
  }

  ghost predicate Shaken(w: World) {
    |w.h.announced| == |w.h.claimed| && Handshakes(w.g.sent) == Blocks(w.h.announced, w.h.claimed)
  }

  lemma StepShakesHands(w: World, e: Event)
    requires Inv(w.g) && Enabled(w.g, e) && Shaken(w)
    ensures Shaken(WorldStep(w, e))
  {
    if Announces(w.g, e).Some? {
      AnnouncingShakesHands(w.g, e);
      BlocksSnoc(w.h.announced, w.h.claimed, Announces(w.g, e).value, w.g.completions[e.id].claims);
    } else {
      OtherStepsShakeNoHands(w.g, e);
    }
  }

  lemma RunShakesHands(ws: seq<World>, es: seq<Event>, expiry: string -> int, n: nat)
    requires IsRun(ws, es, expiry) && n < |es| && Inv(ws[n].g) && Shaken(ws[n])
    ensures Shaken(ws[n + 1])
  {
    assert Follows(ws, es, expiry, n);
    StepShakesHands(ws[n], es[n]);
  }

  lemma {:induction false} HandshakesAreBlocks(ws: seq<World>, es: seq<Event>, expiry: string -> int, n: nat)
    requires IsRun(ws, es, expiry) && n <= |es|
    ensures Shaken(ws[n])
  {
    if n > 0 {
      HandshakesAreBlocks(ws, es, expiry, n - 1);
      EveryRunKeepsInv(ws, es, expiry, n - 1);
      RunShakesHands(ws, es, expiry, n - 1);
    }
  }

  /**
   Over a whole run the Ready and PeerReady messages are exactly one block of four for each completed
   couple, both Ready before both PeerReady, and no couple has two blocks.
   */
  lemma EveryCoupleShakesHandsOnce(ws: seq<World>, es: seq<Event>, expiry: string -> int, n: nat)
    requires IsRun(ws, es, expiry) && n <= |es|
    ensures var couples, claims, shaken := ws[n].h.announced, ws[n].h.claimed, Handshakes(ws[n].g.sent);
            && |couples| == |claims| && |shaken| == 4 * |couples|
            && (forall k :: 0 <= k < |couples| ==> shaken[4 * k..4 * k + 4] == Handshake(couples[k], claims[k]))
            && (forall i, j :: 0 <= i < j < |couples| ==> couples[i] != couples[j])
  {
    HandshakesAreBlocks(ws, es, expiry, n);
    EveryRunKeepsInv(ws, es, expiry, n);
    var couples, claims := ws[n].h.announced, ws[n].h.claimed;
    forall k | 0 <= k < |couples|
      ensures |Blocks(couples, claims)| == 4 * |couples| && Blocks(couples, claims)[4 * k..4 * k + 4] == Handshake(couples[k], claims[k])
    {
      BlocksAt(couples, claims, k);
    }
  }
}
