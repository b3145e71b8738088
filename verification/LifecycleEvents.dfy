/** The sender check, which Start and Close share, and cancel_all, which drains the list. */
module LifecycleEvents {
  import opened Wrappers
  import opened Lifecycle
  import opened LifecycleSafety

  // ---------- The sender check ----------

  /** Whatever the bus reports, the check accepts exactly when the cache it leaves behind is the sender. */
  lemma SenderCheckLeavesItsAnswer(s: State, sender: Option<string>, first: Option<string>, second: Option<string>)
    ensures var (r, accepted) := SenderCheck(s, sender, first, second);
      && (accepted <==> sender.Some? && r.owner == sender)
      && (sender.Some? ==> r.resolved)
      && r == s.(owner := r.owner, resolved := r.resolved)
  {}

  /** After a refusal the next check refuses too, without asking the bus. */
  lemma RefusalRepeats(s: State, sender: Option<string>, first: Option<string>, second: Option<string>,
                       third: Option<string>, fourth: Option<string>)
    requires !SenderCheck(s, sender, first, second).1
    ensures var r := SenderCheck(s, sender, first, second).0;
      SenderCheck(r, sender, third, fourth) == (r, false)
  {}

  // ---------- cancel_all ----------

  predicate Distinct(ids: seq<Id>) {
    forall i, j :: 0 <= i < j < |ids| ==> ids[i] != ids[j]
  }

  function HoldAllTrace(s: State, ids: seq<Id>): seq<State>
    requires forall i :: 0 <= i < |ids| ==> ids[i] < |s.flows|
    decreases |ids|
  {
    if ids == [] then []
    else
      var s1 := Apply(s, ids[0], Hold);
      [s1] + HoldAllTrace(s1, ids[1..])
  }

  function FinishAllTrace(s: State, ids: seq<Id>, reason: Reason): seq<State>
    requires forall i :: 0 <= i < |ids| ==> ids[i] < |s.flows|
    decreases |ids|
  {
    if ids == [] then []
    else
      FinishTrace(s, ids[0], Other, None, Some(reason))
      + FinishAllTrace(Finish(s, ids[0], Other, None, Some(reason)), ids[1..], reason)
  }

  function ReleaseAllTrace(s: State, ids: seq<Id>): seq<State>
    requires forall i :: 0 <= i < |ids| ==> ids[i] < |s.flows|
    decreases |ids|
  {
    if ids == [] then []
    else
      var s1 := Apply(s, ids[0], Release);
      [s1] + ReleaseAllTrace(s1, ids[1..])
  }

  function CancelAllTrace(s: State, reason: Reason): seq<State>
    requires ListInRange(s)
  {
    var s1 := HoldAll(s, s.list);
    var s2 := FinishAll(s1, s.list, reason);
    HoldAllTrace(s, s.list) + FinishAllTrace(s1, s.list, reason) + ReleaseAllTrace(s2, s.list)
  }

  lemma ApplySteady(s: State, id: Id, op: Flow -> Flow)
    requires Steady(s) && id < |s.flows|
    requires var g := op(s.flows[id]); var n := Count(s, id);
      && FlowSafe(g, n) && (Live(g, n) || Gone(g, n))
      && g.start.path == s.flows[id].start.path && IsExported(g) == IsExported(s.flows[id])
      && UsesPkcs11(g) == UsesPkcs11(s.flows[id])
    ensures Steady(Apply(s, id, op))
  {
    var g, r := op(s.flows[id]), Apply(s, id, op);
    WithSafe(s, id, g, s.log, s.pin);
    assert r == With(s, id, g, s.log, s.pin);
    forall k | 0 <= k < |r.flows|
      ensures Settled(r, k)
    {
      assert Count(r, k) == Count(s, k);
      assert k != id ==> Settled(s, k) && r.flows[k] == s.flows[k];
    }
    if r.pin.Some? {
      var k :| 0 <= k < |s.flows| && UsesPkcs11(s.flows[k]);
      assert UsesPkcs11(r.flows[k]);
    }
  }

  lemma HoldLive(f: Flow, n: nat)
    requires FlowSafe(f, n) && Live(f, n)
    ensures FlowSafe(Hold(f), n) && Live(Hold(f), n)
    ensures Hold(f).start == f.start && IsExported(Hold(f)) && UsesPkcs11(Hold(f)) == UsesPkcs11(f)
  {}

  predicate AllLive(s: State, ids: seq<Id>) {
    forall i :: 0 <= i < |ids| ==> ids[i] < |s.flows| && Live(s.flows[ids[i]], Count(s, ids[i]))
  }

  lemma TailStaysLive(s: State, r: State, ids: seq<Id>)
    requires ids != [] && Distinct(ids) && AllLive(s, ids)
    requires |r.flows| == |s.flows|
    requires forall k :: 0 <= k < |s.flows| && k != ids[0] ==> r.flows[k] == s.flows[k] && Count(r, k) == Count(s, k)
    ensures AllLive(r, ids[1..]) && Distinct(ids[1..]) && ids[0] !in ids[1..]
    ensures forall k :: k in ids <==> k == ids[0] || k in ids[1..]
  {
    var tail := ids[1..];
    assert ids == [ids[0]] + tail;
    forall i | 0 <= i < |tail|
      ensures tail[i] < |r.flows| && Live(r.flows[tail[i]], Count(r, tail[i])) && tail[i] != ids[0]
    {
      assert tail[i] == ids[i + 1];
    }
  }

  lemma HoldHead(s: State, ids: seq<Id>)
    requires Steady(s) && Distinct(ids) && AllLive(s, ids) && ids != []
    ensures var s1 := Apply(s, ids[0], Hold);
      && Steady(s1) && AllLive(s1, ids[1..]) && Distinct(ids[1..]) && Safe(s1)
      && s1 == s.(flows := s.flows[ids[0] := Hold(s.flows[ids[0]])])
      && ids[0] !in ids[1..] && (forall k :: k in ids <==> k == ids[0] || k in ids[1..])
  {
    var id := ids[0];
    HoldLive(s.flows[id], Count(s, id));
    ApplySteady(s, id, Hold);
    TailStaysLive(s, Apply(s, id, Hold), ids);
  }

  lemma {:induction false} HoldAllSteady(s: State, ids: seq<Id>)
    requires Steady(s) && Distinct(ids) && AllLive(s, ids)
    ensures var r := HoldAll(s, ids);
      && Steady(r) && AllSafe(HoldAllTrace(s, ids))
      && r == s.(flows := r.flows)
      && (forall k :: 0 <= k < |s.flows| ==> r.flows[k] == if k in ids then Hold(s.flows[k]) else s.flows[k])
    decreases |ids|
  {
    hide Steady, Safe, Live, Hold, Apply;
    if ids != [] {
      HoldHead(s, ids);
      HoldAllSteady(Apply(s, ids[0], Hold), ids[1..]);
    }
  }

  /** The snapshot's flows have ended, the others are untouched. */
  ghost predicate HaveEnded(s: State, r: State, ids: seq<Id>) {
    && |r.flows| == |s.flows|
    && (forall k :: 0 <= k < |s.flows| ==>
          if k in ids then s.flows[k].txn.Some? && s.flows[k].request.Some? && r.flows[k] == Ended(s.flows[k])
          else r.flows[k] == s.flows[k])
    && (forall k :: Count(r, k) == if k in ids then 0 else Count(s, k))
  }

  lemma FinishHead(s: State, ids: seq<Id>, reason: Reason)
    requires Steady(s) && Distinct(ids) && AllLive(s, ids) && ids != []
    ensures var s1 := Finish(s, ids[0], Other, None, Some(reason));
      && Steady(s1) && AllLive(s1, ids[1..]) && Distinct(ids[1..])
      && AllSafe(FinishTrace(s, ids[0], Other, None, Some(reason)))
      && HaveEnded(s, s1, [ids[0]])
  {
    hide Finish, FinishTrace, Safe, PinHasOwner, FlowSafe;
    var id := ids[0];
    FinishSteady(s, id, Other, None, Some(reason));
    FinishSafe(s, id, Other, None, Some(reason));
    var s1 := Finish(s, id, Other, None, Some(reason));
    TailStaysLive(s, s1, ids);
  }

  lemma EndedTogether(s: State, s1: State, r: State, ids: seq<Id>)
    requires ids != [] && Distinct(ids)
    requires HaveEnded(s, s1, [ids[0]]) && HaveEnded(s1, r, ids[1..])
    ensures HaveEnded(s, r, ids)
  {
    var tail := ids[1..];
    assert ids == [ids[0]] + tail;
    assert ids[0] !in tail;
    assert forall k :: k in ids <==> k == ids[0] || k in tail;
  }

  /** One step of the loop over the snapshot. */
  lemma {:induction false} FinishAllSteady(s: State, ids: seq<Id>, reason: Reason)
    requires Steady(s) && Distinct(ids) && AllLive(s, ids)
    ensures var r := FinishAll(s, ids, reason);
      Steady(r) && AllSafe(FinishAllTrace(s, ids, reason)) && HaveEnded(s, r, ids)
    decreases |ids|
  {
    hide Finish, FinishTrace, Safe, PinHasOwner, FlowSafe, Steady, Live, HaveEnded;
    if ids != [] {
      FinishHead(s, ids, reason);
      var s1 := Finish(s, ids[0], Other, None, Some(reason));
      FinishAllSteady(s1, ids[1..], reason);
      EndedTogether(s, s1, FinishAll(s1, ids[1..], reason), ids);
    } else {
      NothingEnds(s);
    }
  }

  lemma NothingEnds(s: State)
    ensures HaveEnded(s, s, [])
  {}

  lemma ReleaseEnded(f: Flow)
    requires FlowSafe(f, 0) && Gone(f, 0) && f.txn.Some? && f.frames > 0
    ensures var g := Release(f);
      && FlowSafe(g, 0) && Gone(g, 0) && g.start == f.start
      && g.frames == f.frames - 1 && g.requestFrames == f.requestFrames
  {}

  lemma {:induction false} ReleaseAllSteady(s: State, ids: seq<Id>)
    requires Steady(s) && Distinct(ids)
    requires forall i :: 0 <= i < |ids| ==>
      ids[i] < |s.flows| && Gone(s.flows[ids[i]], Count(s, ids[i])) && s.flows[ids[i]].txn.Some? && s.flows[ids[i]].frames > 0
    ensures var r := ReleaseAll(s, ids);
      && Steady(r) && AllSafe(ReleaseAllTrace(s, ids))
      && r == s.(flows := r.flows)
      && (forall k :: 0 <= k < |s.flows| ==> r.flows[k] == if k in ids then Release(s.flows[k]) else s.flows[k])
    decreases |ids|
  {
    if ids != [] {
      var id, tail := ids[0], ids[1..];
      ReleaseEnded(s.flows[id]);
      ApplySteady(s, id, Release);
      var s1 := Apply(s, id, Release);
      forall i | 0 <= i < |tail|
        ensures tail[i] < |s1.flows| && Gone(s1.flows[tail[i]], Count(s1, tail[i]))
        ensures s1.flows[tail[i]].txn.Some? && s1.flows[tail[i]].frames > 0
      {
        assert tail[i] == ids[i + 1] != id;
      }
      ReleaseAllSteady(s1, tail);
      assert forall k :: k in ids <==> k == id || k in tail;
      assert id !in tail;
    }
  }

  lemma CountBoundsDistinct(list: seq<Id>)
    requires forall k :: multiset(list)[k] <= 1
    ensures Distinct(list)
  {
    forall i, j | 0 <= i < j < |list|
      ensures list[i] != list[j]
    {
      var a, b := list[..j], list[j..];
      assert list == a + b;
      assert a[i] in multiset(a) && b[0] in multiset(b);
      assert multiset(list)[list[i]] == multiset(a)[list[i]] + multiset(b)[list[i]];
    }
  }

  /** Each listed flow is live, and listed once. */
  lemma ListIsLive(s: State)
    requires Steady(s)
    ensures Distinct(s.list) && AllLive(s, s.list)
  {
    forall k
      ensures multiset(s.list)[k] <= 1
    {
      if k in multiset(s.list) {
        assert k in s.list;
        assert Settled(s, k);
      }
    }
    CountBoundsDistinct(s.list);
    forall i | 0 <= i < |s.list|
      ensures Live(s.flows[s.list[i]], Count(s, s.list[i]))
    {
      assert s.list[i] in multiset(s.list);
      assert Settled(s, s.list[i]);
    }
  }

  /** Nothing of any flow is left. */
  ghost predicate Empty(s: State) {
    && s.list == [] && s.registry == map[] && s.pin.None?
    && forall id :: 0 <= id < |s.flows| ==> Freed(s.flows[id])
  }

  lemma ExportedAreListed(s: State)
    requires Idle(s)
    ensures forall p :: p in s.registry ==> s.registry[p] in s.list
  {
    forall p | p in s.registry
      ensures s.registry[p] in s.list
    {
      AllOrNothing(s, s.registry[p]);
    }
  }

  lemma IdleWithoutList(s: State)
    requires Idle(s) && s.list == []
    ensures Empty(s)
  {
    forall id | 0 <= id < |s.flows|
      ensures Freed(s.flows[id])
    {
      assert Settled(s, id) && NoFrames(s.flows[id]);
    }
    ExportedAreListed(s);
  }

  lemma HeldOnce(s: State, s1: State, s2: State, ids: seq<Id>)
    requires Steady(s) && AllLive(s, ids) && Steady(s2)
    requires |s1.flows| == |s.flows| && s1.list == s.list
    requires forall k :: 0 <= k < |s.flows| ==> s1.flows[k] == if k in ids then Hold(s.flows[k]) else s.flows[k]
    requires HaveEnded(s1, s2, ids)
    requires forall k :: 0 <= k < |s.flows| ==> NoFrames(s.flows[k])
    ensures forall i :: 0 <= i < |ids| ==>
      && ids[i] < |s2.flows| && Gone(s2.flows[ids[i]], Count(s2, ids[i]))
      && s2.flows[ids[i]].txn.Some? && s2.flows[ids[i]].frames == 1 && s2.flows[ids[i]].requestFrames == 0
  {
    forall i | 0 <= i < |ids|
      ensures Gone(s2.flows[ids[i]], Count(s2, ids[i])) && s2.flows[ids[i]].txn.Some?
      ensures s2.flows[ids[i]].frames == 1 && s2.flows[ids[i]].requestFrames == 0
    {
      var k := ids[i];
      assert k in ids && NoFrames(s.flows[k]);
      HoldLive(s.flows[k], Count(s, k));
      assert Settled(s2, k);
    }
  }

  lemma NobodyListed(s: State, s2: State)
    requires forall k :: Count(s2, k) == if k in s.list then 0 else Count(s, k)
    ensures s2.list == []
  {
    if s2.list != [] {
      CountIn(s2.list, s2.list[0]);
      CountIn(s.list, s2.list[0]);
      assert false;
    }
  }

  /** The first two loops of cancel_all: the snapshot is referenced, then every flow in it is finished. */
  lemma CancelAllFinishes(s: State, reason: Reason)
    requires Idle(s)
    ensures var ids := s.list; var s1 := HoldAll(s, ids); var s2 := FinishAll(s1, ids, reason);
      && Steady(s1) && Steady(s2) && Distinct(ids) && s1.list == ids
      && AllSafe(HoldAllTrace(s, ids)) && AllSafe(FinishAllTrace(s1, ids, reason))
      && |s1.flows| == |s.flows|
      && (forall k :: 0 <= k < |s.flows| ==> s1.flows[k] == if k in ids then Hold(s.flows[k]) else s.flows[k])
      && HaveEnded(s1, s2, ids) && AllLive(s, ids)
  {
    ListIsLive(s);
    var ids := s.list;
    HoldAllSteady(s, ids);
    var s1 := HoldAll(s, ids);
    HeldStayLive(s, s1, ids);
    FinishAllSteady(s1, ids, reason);
  }

  /** Draining the list while every finish removes from it ends with nothing left. */
  lemma CancelAllEmpties(s: State, reason: Reason)
    requires Idle(s)
    ensures Idle(CancelAll(s, reason)) && Empty(CancelAll(s, reason))
  {
    CancelAllFinishes(s, reason);
    var ids := s.list;
    var s1 := HoldAll(s, ids);
    var s2 := FinishAll(s1, ids, reason);
    HeldOnce(s, s1, s2, ids);
    NobodyListed(s1, s2);
    CancelAllReleases(s, s1, s2, ids);
  }

  /** The last loop of cancel_all: freeing the snapshot drops the last references. */
  lemma CancelAllReleases(s: State, s1: State, s2: State, ids: seq<Id>)
    requires Steady(s2) && Distinct(ids) && s2.list == []
    requires |s.flows| == |s1.flows| == |s2.flows|
    requires forall k :: 0 <= k < |s.flows| ==> NoFrames(s.flows[k])
    requires forall k :: 0 <= k < |s.flows| && k !in ids ==> s2.flows[k] == s1.flows[k] == s.flows[k]
    requires forall i :: 0 <= i < |ids| ==>
      && ids[i] < |s2.flows| && Gone(s2.flows[ids[i]], Count(s2, ids[i]))
      && s2.flows[ids[i]].txn.Some? && s2.flows[ids[i]].frames == 1 && s2.flows[ids[i]].requestFrames == 0
    ensures Idle(ReleaseAll(s2, ids)) && Empty(ReleaseAll(s2, ids))
  {
    ReleaseAllSteady(s2, ids);
    var s3 := ReleaseAll(s2, ids);
    NoFramesLeft(s, s2, s3, ids);
    IdleWithoutList(s3);
  }

  lemma CancelAllTraceSafe(s: State, reason: Reason)
    requires Idle(s)
    ensures AllSafe(CancelAllTrace(s, reason))
  {
    hide HoldAll, FinishAll, ReleaseAll, Safe, HoldAllTrace, FinishAllTrace, ReleaseAllTrace;
    CancelAllFinishes(s, reason);
    var ids := s.list;
    var s1 := HoldAll(s, ids);
    var s2 := FinishAll(s1, ids, reason);
    HeldOnce(s, s1, s2, ids);
    ReleaseAllSteady(s2, ids);
    AllSafeJoin(HoldAllTrace(s, ids), FinishAllTrace(s1, ids, reason));
    AllSafeJoin(HoldAllTrace(s, ids) + FinishAllTrace(s1, ids, reason), ReleaseAllTrace(s2, ids));
  }

  lemma AllSafeJoin(a: seq<State>, b: seq<State>)
    requires AllSafe(a) && AllSafe(b)
    ensures AllSafe(a + b)
  {}

  lemma HeldStayLive(s: State, s1: State, ids: seq<Id>)
    requires Steady(s) && AllLive(s, ids)
    requires |s1.flows| == |s.flows| && s1.list == s.list
    requires forall k :: 0 <= k < |s.flows| ==> s1.flows[k] == if k in ids then Hold(s.flows[k]) else s.flows[k]
    ensures AllLive(s1, ids)
  {
    forall i | 0 <= i < |ids|
      ensures Live(s1.flows[ids[i]], Count(s1, ids[i]))
    {
      assert ids[i] in ids;
      HoldLive(s.flows[ids[i]], Count(s, ids[i]));
    }
  }

  lemma NoFramesLeft(s: State, s2: State, s3: State, ids: seq<Id>)
    requires |s.flows| == |s2.flows| == |s3.flows|
    requires forall k :: 0 <= k < |s.flows| ==> NoFrames(s.flows[k])
    requires forall k :: 0 <= k < |s.flows| && k !in ids ==>
      s2.flows[k].frames == s.flows[k].frames && s2.flows[k].requestFrames == s.flows[k].requestFrames
    requires forall i :: 0 <= i < |ids| ==>
      && ids[i] < |s2.flows| && s2.flows[ids[i]].txn.Some?
      && s2.flows[ids[i]].frames == 1 && s2.flows[ids[i]].requestFrames == 0
    requires forall k :: 0 <= k < |s.flows| ==> s3.flows[k] == if k in ids then Release(s2.flows[k]) else s2.flows[k]
    ensures forall k :: 0 <= k < |s3.flows| ==> NoFrames(s3.flows[k])
  {
    forall k | 0 <= k < |s3.flows|
      ensures NoFrames(s3.flows[k])
    {
      assert NoFrames(s.flows[k]);
      if k in ids {
        var i :| 0 <= i < |ids| && ids[i] == k;
        assert s2.flows[ids[i]].frames == 1;
      }
    }
  }
}
