/**
 Opener ancestry of Chrome page targets. Core computes which targets of an unordered snapshot
 descend from its own tab with two different loops; both are proved against reachability.
 */
module TargetClosure {
  import opened Common

  datatype TargetInfo = TargetInfo(targetId: string, kind: string, openerId: Option<string>, title: string, url: string)

  datatype ChildTarget = ChildTarget(targetId: string, title: string, url: string)

  /** The same target at the same URL, under its whole title or the first 4096 code points of a longer one. */
  predicate Summarizes(child: ChildTarget, info: TargetInfo) {
    && child.targetId == info.targetId && child.url == info.url
    && child.title <= info.title && (if |info.title| <= 4096 then child.title == info.title else |child.title| == 4096)
  }

  /** Title and URL as kept for the Viewer; the title is cut to its first 4096 code points. */
  function ChildSummary(info: TargetInfo): (child: ChildTarget)
    ensures Summarizes(child, info)
  {
    ChildTarget(info.targetId, if |info.title| > 4096 then info.title[..4096] else info.title, info.url)
  }

  // ----------------------------------------------------------- reachability

  /** The opener links `rememberDescendants` follows. */
  function DescendantLinks(infos: seq<TargetInfo>, root: string): set<TargetInfo> {
    set info | info in infos && info.kind == "page" && info.targetId != root && info.openerId.Some?
  }

  /** The opener links `observeOwned` follows: an empty opener is no opener. */
  function OwnedLinks(infos: seq<TargetInfo>): set<TargetInfo> {
    set info | info in infos && info.kind == "page" && info.openerId.Some? && info.openerId.value != ""
  }

  /** A path of opener links that leaves the seed. */
  ghost predicate Path(links: set<TargetInfo>, seed: set<string>, path: seq<TargetInfo>) {
    && path != []
    && (forall i :: 0 <= i < |path| ==> path[i] in links && path[i].openerId.Some?)
    && path[0].openerId.value in seed
    && (forall i, j :: 0 <= i && j == i + 1 && j < |path| ==> path[j].openerId.value == path[i].targetId)
  }

  ghost predicate Reachable(links: set<TargetInfo>, seed: set<string>, id: string) {
    id in seed || exists path: seq<TargetInfo> :: Path(links, seed, path) && path[|path| - 1].targetId == id
  }

  ghost predicate Closed(links: set<TargetInfo>, ids: set<string>) {
    forall info :: info in links && info.openerId.Some? && info.openerId.value in ids ==> info.targetId in ids
  }

  lemma ReachStep(links: set<TargetInfo>, seed: set<string>, info: TargetInfo)
    requires info in links && info.openerId.Some? && Reachable(links, seed, info.openerId.value)
    ensures Reachable(links, seed, info.targetId)
  {
    var opener := info.openerId.value;
    if opener in seed {
      assert Path(links, seed, [info]);
      assert [info][|[info]| - 1].targetId == info.targetId;
    } else {
      var path: seq<TargetInfo> :| Path(links, seed, path) && path[|path| - 1].targetId == opener;
      var longer := path + [info];
      assert Path(links, seed, longer);
      assert longer[|longer| - 1].targetId == info.targetId;
    }
  }

  lemma {:induction false} PathStaysInside(links: set<TargetInfo>, seed: set<string>, ids: set<string>, path: seq<TargetInfo>, k: nat)
    requires seed <= ids && Closed(links, ids) && Path(links, seed, path) && k < |path|
    ensures path[k].targetId in ids
  {
    if k > 0 {
      PathStaysInside(links, seed, ids, path, k - 1);
      var i := k - 1;
      assert path[k].openerId.value == path[i].targetId;
    }
  }

  /** A closed set of reachable identifiers around the seed is exactly the reachable ones. */
  lemma ClosedIsReachable(links: set<TargetInfo>, seed: set<string>, ids: set<string>)
    requires seed <= ids && Closed(links, ids)
    requires forall id :: id in ids ==> Reachable(links, seed, id)
    ensures forall id :: id in ids <==> Reachable(links, seed, id)
  {
    forall id | Reachable(links, seed, id) ensures id in ids {
      if id !in seed {
        var path: seq<TargetInfo> :| Path(links, seed, path) && path[|path| - 1].targetId == id;
        PathStaysInside(links, seed, ids, path, |path| - 1);
      }
    }
  }

  // ------------------------------------------------------------ controller

  class CdpTabController {
    const targetId: string
    var childTargets: map<string, ChildTarget>
    var retiredDuringDiscovery: Option<set<string>>

    constructor (targetId: string)
      ensures this.targetId == targetId && childTargets == map[] && retiredDuringDiscovery == Some({})
    {
      this.targetId := targetId;
      childTargets := map[];
      retiredDuringDiscovery := Some({});
    }

    function Retired(): set<string>
      reads this
    {
      if retiredDuringDiscovery.Some? then retiredDuringDiscovery.value else {}
    }

    /**
     Extends `seed` by every page of the snapshot that descends from it, and records those pages
     as children unless they were destroyed while the snapshot was being taken.
     */
    method RememberDescendants(targetInfos: seq<TargetInfo>, seed: set<string>) returns (ancestry: set<string>)
      modifies this`childTargets
      ensures forall id :: id in ancestry <==> Reachable(DescendantLinks(targetInfos, targetId), seed, id)
      ensures forall id :: id in childTargets <==>
                id in old(childTargets)
                || (id !in Retired() && Admitted(DescendantLinks(targetInfos, targetId), ancestry, id))
      ensures forall id :: id in old(childTargets) ==> id in childTargets && childTargets[id] == old(childTargets)[id]
      ensures forall id :: id in childTargets && id !in old(childTargets) ==>
                exists info :: info in DescendantLinks(targetInfos, targetId) && info.targetId == id && childTargets[id] == ChildSummary(info)
    {
      ghost var links, was, retired := DescendantLinks(targetInfos, targetId), childTargets, Retired();
      ancestry := seed;
      var pending := PagesBesides(targetInfos, targetId);
      while |pending| > 0
        invariant Progress(links, seed, pending, ancestry, was, childTargets, retired)
        decreases |pending|
      {
        var next: seq<TargetInfo> := [];
        ghost var before := ancestry;
        for i := 0 to |pending|
          invariant |next| <= i
          invariant Progress(links, seed, next + pending[i..], ancestry, was, childTargets, retired)
          invariant |next| == i ==> ancestry == before && next == pending[..i]
          invariant |next| == i ==> forall j :: 0 <= j < i ==> !Admits(ancestry, pending[j])
        {
          var info := pending[i];
          Shift(next, pending, i);
          if info.openerId.Some? && info.openerId.value in ancestry {
            AdmitKeepsProgress(links, seed, next, info, pending[i + 1..], ancestry, was, childTargets, retired);
            ancestry := ancestry + {info.targetId};
            if !(retiredDuringDiscovery.Some? && info.targetId in retiredDuringDiscovery.value)
               && info.targetId !in childTargets {
              childTargets := childTargets[info.targetId := ChildSummary(info)];
            }
          } else {
            next := next + [info];
          }
        }
        assert next + pending[|pending|..] == next;
        if |next| == |pending| {
          SettledIsClosed(links, seed, pending, next, ancestry, was, childTargets, retired);
          break;
        }
        pending := next;
      }
      ClosedIsReachable(links, seed, ancestry);
    }
  }

  predicate Admits(ancestry: set<string>, info: TargetInfo) {
    info.openerId.Some? && info.openerId.value in ancestry
  }

  lemma Shift(next: seq<TargetInfo>, pending: seq<TargetInfo>, i: nat)
    requires i < |pending|
    ensures next + pending[i..] == next + [pending[i]] + pending[i + 1..]
  {
  }

  /** The link whose opener is in the ancestry and whose target is `id`. */
  ghost predicate Admitted(links: set<TargetInfo>, ancestry: set<string>, id: string) {
    exists info :: info in links && info.targetId == id && Admits(ancestry, info)
  }

  function RecordChild(children: map<string, ChildTarget>, info: TargetInfo, retired: set<string>): map<string, ChildTarget> {
    if info.targetId !in retired && info.targetId !in children then children[info.targetId := ChildSummary(info)] else children
  }

  /**
   The loop invariant: the ancestry is reachable, links no longer waiting have their target in it,
   and the children are the earlier ones and the admitted targets that are not retired.
   */
  ghost predicate Progress(
    links: set<TargetInfo>, seed: set<string>, pending: seq<TargetInfo>, ancestry: set<string>,
    was: map<string, ChildTarget>, children: map<string, ChildTarget>, retired: set<string>)
  {
    && seed <= ancestry
    && (forall id :: id in ancestry ==> Reachable(links, seed, id))
    && (forall info :: info in pending && info.openerId.Some? ==> info in links)
    && (forall info :: info in links && info !in pending ==>
          Admits(ancestry, info) && info.targetId in ancestry && (info.targetId in retired || info.targetId in children))
    && (forall id :: id in was ==> id in children && children[id] == was[id])
    && (forall id :: id in children && id !in was ==> id !in retired && Admitted(links, ancestry, id))
    && (forall id :: id in children && id !in was ==>
          exists info :: info in links && info.targetId == id && children[id] == ChildSummary(info))
  }

  lemma AdmitKeepsProgress(
    links: set<TargetInfo>, seed: set<string>, a: seq<TargetInfo>, info: TargetInfo, b: seq<TargetInfo>, ancestry: set<string>,
    was: map<string, ChildTarget>, children: map<string, ChildTarget>, retired: set<string>)
    requires Progress(links, seed, a + [info] + b, ancestry, was, children, retired)
    requires Admits(ancestry, info)
    ensures Progress(links, seed, a + b, ancestry + {info.targetId}, was, RecordChild(children, info, retired), retired)
  {
    var pending, pending' := a + [info] + b, a + b;
    assert info in pending;
    ReachStep(links, seed, info);
    var ancestry', children' := ancestry + {info.targetId}, RecordChild(children, info, retired);
    assert forall other :: other in pending' ==> other in pending;
    assert forall other :: other in pending && other != info ==> other in pending';
    forall id | id in children' && id !in was
      ensures Admitted(links, ancestry', id)
      ensures exists other :: other in links && other.targetId == id && children'[id] == ChildSummary(other)
    {
      if id in children {
        var other :| other in links && other.targetId == id && Admits(ancestry, other);
        assert Admits(ancestry', other);
      } else {
        assert Admits(ancestry', info);
      }
    }
  }

  /** A pass that admits nothing leaves a closed ancestry. */
  lemma SettledIsClosed(
    links: set<TargetInfo>, seed: set<string>, pending: seq<TargetInfo>, next: seq<TargetInfo>, ancestry: set<string>,
    was: map<string, ChildTarget>, children: map<string, ChildTarget>, retired: set<string>)
    requires Progress(links, seed, next, ancestry, was, children, retired)
    requires |next| == |pending| && forall j :: 0 <= j < |next| ==> next[j] == pending[j]
    requires forall j :: 0 <= j < |pending| ==> !Admits(ancestry, pending[j])
    ensures Closed(links, ancestry)
    ensures forall id :: id in children <==> id in was || (id !in retired && Admitted(links, ancestry, id))
  {
  }

  function PagesBesides(infos: seq<TargetInfo>, root: string): (pages: seq<TargetInfo>)
    ensures forall info :: info in pages <==> info in infos && info.kind == "page" && info.targetId != root
  {
    if infos == [] then []
    else
      var rest := PagesBesides(infos[1..], root);
      if infos[0].kind == "page" && infos[0].targetId != root then [infos[0]] + rest else rest
  }

  // ------------------------------------------------------ failed attachments

  /** What a failed attachment keeps so that its targets can still be cleaned up. */
  class FailedAttachment {
    var provenTargets: set<string>

    constructor (targetId: string)
      ensures provenTargets == {targetId}
    {
      provenTargets := {targetId};
    }

    /** Rescans the snapshot until nothing changes and lists the owned targets in snapshot order. */
    method ObserveOwned(targetInfos: seq<TargetInfo>) returns (owned: seq<string>)
      modifies this
      ensures forall id :: id in provenTargets <==> Reachable(OwnedLinks(targetInfos), old(provenTargets), id)
      ensures owned == OwnedIds(targetInfos, provenTargets)
    {
      ghost var links, seed := OwnedLinks(targetInfos), provenTargets;
      ghost var ids := set info | info in targetInfos :: info.targetId;
      var changed := true;
      while changed
        invariant seed <= provenTargets
        invariant forall id :: id in provenTargets ==> Reachable(links, seed, id)
        invariant !changed ==> Closed(links, provenTargets)
        decreases ids - provenTargets, if changed then 1 else 0
      {
        changed := false;
        ghost var before := provenTargets;
        for i := 0 to |targetInfos|
          invariant seed <= before <= provenTargets
          invariant forall id :: id in provenTargets ==> Reachable(links, seed, id)
          invariant !changed ==> provenTargets == before
          invariant !changed ==> forall j :: 0 <= j < i && targetInfos[j] in links && Admits(before, targetInfos[j]) ==>
                      targetInfos[j].targetId in before
          invariant changed ==> ids - provenTargets < ids - before
        {
          var info := targetInfos[i];
          if info.kind == "page" && info.openerId.Some? && info.openerId.value != ""
             && info.openerId.value in provenTargets && info.targetId !in provenTargets {
            ReachStep(links, seed, info);
            assert info.targetId in ids - provenTargets;
            assert ids - (provenTargets + {info.targetId}) < ids - provenTargets;
            provenTargets := provenTargets + {info.targetId};
            changed := true;
          }
        }
      }
      ClosedIsReachable(links, seed, provenTargets);
      owned := OwnedIds(targetInfos, provenTargets);
    }
  }

  /** The snapshot's identifiers that belong to `ids`, in snapshot order. */
  function OwnedIds(infos: seq<TargetInfo>, ids: set<string>): (owned: seq<string>)
    ensures forall id :: id in owned <==> id in ids && exists info :: info in infos && info.targetId == id
  {
    if infos == [] then []
    else if infos[0].targetId in ids then [infos[0].targetId] + OwnedIds(infos[1..], ids)
    else OwnedIds(infos[1..], ids)
  }

  // --------------------------------------------------------------- agreement

  /** Reachability is the least closed set around the seed. */
  lemma ReachableIsLeastClosed(links: set<TargetInfo>, seed: set<string>, id: string)
    ensures Reachable(links, seed, id) <==> forall ids :: seed <= ids && Closed(links, ids) ==> id in ids
  {
    forall ids | seed <= ids && Closed(links, ids) && Reachable(links, seed, id) ensures id in ids {
      if id !in seed {
        var path: seq<TargetInfo> :| Path(links, seed, path) && path[|path| - 1].targetId == id;
        PathStaysInside(links, seed, ids, path, |path| - 1);
      }
    }
    var targets := set info | info in links :: info.targetId;
    var reached := seed + set target | target in targets && Reachable(links, seed, target);
    forall info | info in links && info.openerId.Some? && info.openerId.value in reached
      ensures info.targetId in reached
    {
      ReachStep(links, seed, info);
      assert info.targetId in targets;
    }
    assert Closed(links, reached);
  }

  lemma {:induction false} MoreLinksReachMore(few: set<TargetInfo>, many: set<TargetInfo>, seed: set<string>, id: string)
    requires few <= many && Reachable(few, seed, id)
    ensures Reachable(many, seed, id)
  {
    if id !in seed {
      var path: seq<TargetInfo> :| Path(few, seed, path) && path[|path| - 1].targetId == id;
      assert Path(many, seed, path);
    }
  }

  /** Pages whose recorded opener is the empty identifier. */
  function EmptyOpenerLinks(infos: seq<TargetInfo>): set<TargetInfo> {
    set info | info in infos && info.kind == "page" && info.openerId == Some("")
  }

  /**
   From a seed that holds the root the two loops find the same ancestry, except that one of them
   takes an empty opener for an opener: they agree exactly when no owned target has the empty
   identifier or every page opened by it is owned anyway.
   */
  lemma AncestryLoopsAgree(infos: seq<TargetInfo>, root: string, seed: set<string>)
    requires root in seed
    ensures (forall id :: Reachable(DescendantLinks(infos, root), seed, id) <==> Reachable(OwnedLinks(infos), seed, id))
       <==> (Reachable(OwnedLinks(infos), seed, "") ==>
               forall info :: info in EmptyOpenerLinks(infos) ==> Reachable(OwnedLinks(infos), seed, info.targetId))
  {
    var descend, owned := DescendantLinks(infos, root), OwnedLinks(infos);
    var all := descend + owned;
    forall id ensures Reachable(all, seed, id) <==> Reachable(descend, seed, id) {
      RootLinksAddNothing(descend, all, root, seed, id);
    }
    forall id | Reachable(owned, seed, id) ensures Reachable(descend, seed, id) {
      MoreLinksReachMore(owned, all, seed, id);
    }
    if forall id :: Reachable(descend, seed, id) <==> Reachable(owned, seed, id) {
      forall info | info in EmptyOpenerLinks(infos) && Reachable(owned, seed, "") ensures Reachable(owned, seed, info.targetId) {
        if info.targetId != root {
          ReachStep(descend, seed, info);
        }
      }
    }
    if Reachable(owned, seed, "") ==> forall info :: info in EmptyOpenerLinks(infos) ==> Reachable(owned, seed, info.targetId) {
      forall id | Reachable(descend, seed, id) ensures Reachable(owned, seed, id) {
        EmptyOpenersAddNothing(infos, root, seed, id);
      }
    }
  }

  /** A snapshot on which the loops differ: the root opened a target without an identifier, which opened `x`. */
  lemma EmptyIdentifiersSeparateTheLoops()
    ensures var nameless := TargetInfo("", "page", Some("root"), "", "");
            var x := TargetInfo("x", "page", Some(""), "", "");
            Reachable(DescendantLinks([nameless, x], "root"), {"root"}, "x") && !Reachable(OwnedLinks([nameless, x]), {"root"}, "x")
  {
    var nameless := TargetInfo("", "page", Some("root"), "", "");
    var x := TargetInfo("x", "page", Some(""), "", "");
    var infos := [nameless, x];
    assert nameless == infos[0] && x == infos[1];
    assert Path(DescendantLinks(infos, "root"), {"root"}, [nameless, x]);
    assert Closed(OwnedLinks(infos), {"root", ""});
    ReachableIsLeastClosed(OwnedLinks(infos), {"root"}, "x");
  }

  /** Chrome's identifiers are never empty, and then the two loops agree. */
  lemma AncestryLoopsAgreeOnNonEmptyIds(infos: seq<TargetInfo>, root: string, seed: set<string>)
    requires root in seed && "" !in seed && forall info :: info in infos ==> info.targetId != ""
    ensures forall id :: Reachable(DescendantLinks(infos, root), seed, id) <==> Reachable(OwnedLinks(infos), seed, id)
  {
    AncestryLoopsAgree(infos, root, seed);
    var ids := seed + set info | info in infos :: info.targetId;
    assert Closed(OwnedLinks(infos), ids);
    ReachableIsLeastClosed(OwnedLinks(infos), seed, "");
  }

  lemma RootLinksAddNothing(descend: set<TargetInfo>, all: set<TargetInfo>, root: string, seed: set<string>, id: string)
    requires root in seed && descend <= all
    requires forall info :: info in all && info !in descend ==> info.targetId == root
    ensures Reachable(all, seed, id) <==> Reachable(descend, seed, id)
  {
    if Reachable(descend, seed, id) {
      MoreLinksReachMore(descend, all, seed, id);
    }
    if Reachable(all, seed, id) {
      forall ids | seed <= ids && Closed(descend, ids) ensures id in ids {
        assert Closed(all, ids);
        ReachableIsLeastClosed(all, seed, id);
      }
      ReachableIsLeastClosed(descend, seed, id);
    }
  }

  lemma EmptyOpenersAddNothing(infos: seq<TargetInfo>, root: string, seed: set<string>, id: string)
    requires Reachable(DescendantLinks(infos, root), seed, id)
    requires Reachable(OwnedLinks(infos), seed, "") ==>
               forall info :: info in EmptyOpenerLinks(infos) ==> Reachable(OwnedLinks(infos), seed, info.targetId)
    ensures Reachable(OwnedLinks(infos), seed, id)
  {
    var owned := OwnedLinks(infos);
    var targets := set info | info in infos :: info.targetId;
    var reached := seed + set target | target in targets && Reachable(owned, seed, target);
    forall info | info in DescendantLinks(infos, root) && info.openerId.value in reached
      ensures info.targetId in reached
    {
      if info.openerId.value != "" {
        ReachStep(owned, seed, info);
      } else {
        assert info in EmptyOpenerLinks(infos);
      }
      assert info.targetId in targets;
    }
    assert Closed(DescendantLinks(infos, root), reached);
    ReachableIsLeastClosed(DescendantLinks(infos, root), seed, id);
  }

  /** A later snapshot extends the ancestry of an earlier one as if both were one graph's steps. */
  lemma AncestrySurvivesSnapshots(first: set<TargetInfo>, second: set<TargetInfo>, seed: set<string>, ancestry: set<string>, id: string)
    requires forall a :: a in ancestry <==> Reachable(first, seed, a)
    ensures Reachable(second, seed, id) ==> Reachable(second, ancestry, id)
    ensures Reachable(second, ancestry, id) ==> Reachable(first + second, seed, id)
  {
    if Reachable(second, seed, id) && id !in seed {
      var path: seq<TargetInfo> :| Path(second, seed, path) && path[|path| - 1].targetId == id;
      assert Reachable(first, seed, path[0].openerId.value);
      assert Path(second, ancestry, path);
    }
    if id in seed {
      assert Reachable(first, seed, id);
    }
    if Reachable(second, ancestry, id) {
      forall ids | seed <= ids && Closed(first + second, ids) ensures id in ids {
        assert Closed(first, ids) && Closed(second, ids);
        forall a | a in ancestry ensures a in ids {
          ReachableIsLeastClosed(first, seed, a);
        }
        ReachableIsLeastClosed(second, ancestry, id);
      }
      ReachableIsLeastClosed(first + second, seed, id);
    }
  }
}
