/** The order in which finish takes a flow apart, at every moment at which another part of the process could look. */
module LifecycleOrder {
  import opened Wrappers
  import opened Lifecycle
  import opened LifecycleSafety
  import opened LifecycleEvents
  import opened LifecycleClose

  predicate IsDown(f: Flow) { f.session.None? || f.session.value.tornDown }

  predicate IsAnswered(f: Flow) { f.txn.None? || f.txn.value.invocation.None? }

  /**
    Committed from the start; the timer goes before the handler, both before the
    window, the window before the PIN, the PIN before the session's strings and
    reference, the session before the Request, the Request before the answer, the
    answer before the list entry, the entry before the slot, and the slot before
    the transaction.  No other flow is touched.
   */
  predicate InOrder(was: State, m: State, id: Id) {
    && id < |m.flows| == |was.flows|
    && (forall k :: 0 <= k < |m.flows| && k != id ==> m.flows[k] == was.flows[k])
    && var f := m.flows[id];
    && (f.txn.Some? ==> f.txn.value.done)
    && (f.request.Some? && !f.request.value.closeHandler ==> f.timer.None?)
    && (IsDown(f) ==> f.request.Some? ==> !f.request.value.closeHandler)
    && (!IsDown(f) ==> m.pin == was.pin && f.session == was.flows[id].session)
    && (f.session.Some? && f.session.value.provider == Some(Pkcs11) && m.pin.Some? ==>
        && f.session.value.transaction && was.flows[id].session.Some?
        && f.session.value.pendingHost == was.flows[id].session.value.pendingHost)
    && (f.session.Some? && !f.session.value.transaction ==>
        f.session.value.pendingHost.None? && f.session.value.currentHost.None?)
    && (!IsExported(f) ==> f.session.None?)
    && (IsAnswered(f) ==> !IsExported(f))
    && (!IsAnswered(f) ==> m.log == was.log + [Committed(id)])
    && (id !in m.list ==> IsAnswered(f))
    && (!f.slot ==> id !in m.list)
    && (f.txn.None? ==> !f.slot)
  }

  /** Until the last moment, finish holds a reference of its own. */
  predicate IsHeld(was: State, m: State, id: Id) {
    id < |m.flows| && id < |was.flows| && m.flows[id].frames == was.flows[id].frames + 1
  }

  ghost predicate AllInOrder(was: State, trace: seq<State>, id: Id) {
    forall i :: 0 <= i < |trace| ==> InOrder(was, trace[i], id)
  }

  ghost predicate AllHeld(was: State, trace: seq<State>, id: Id) {
    forall i :: 0 <= i < |trace| ==> IsHeld(was, trace[i], id)
  }

  lemma InOrderJoin(was: State, a: seq<State>, b: seq<State>, id: Id)
    requires AllInOrder(was, a, id) && AllInOrder(was, b, id)
    ensures AllInOrder(was, a + b, id)
  {}

  lemma HeldJoin(was: State, a: seq<State>, b: seq<State>, id: Id)
    requires AllHeld(was, a, id) && AllHeld(was, b, id)
    ensures AllHeld(was, a + b, id)
  {}

  /** What no stage changes before the answer. */
  predicate OnlyThisFlow(was: State, m: State, id: Id) {
    && id < |m.flows| == |was.flows|
    && (forall k :: 0 <= k < |m.flows| && k != id ==> m.flows[k] == was.flows[k])
    && m.log == was.log + [Committed(id)]
  }

  /** Before the window goes down every part but the timer and the handler is there. */
  predicate IsWhole(was: State, m: State, id: Id) {
    && OnlyThisFlow(was, m, id) && id in m.list && m.pin == was.pin
    && var f := m.flows[id];
    && f.txn.Some? && f.txn.value.done && f.txn.value.invocation.Some? && f.txn.value.teardown && f.txn.value.finished
    && f.session.Some? && f.session == was.flows[id].session && !f.session.value.tornDown && f.session.value.transaction
    && IsExported(f) && f.slot
    && (!f.request.value.closeHandler ==> f.timer.None?)
  }

  lemma WholeIsInOrder(was: State, m: State, id: Id)
    requires IsWhole(was, m, id)
    ensures InOrder(was, m, id)
  {}

  lemma DetachInOrder(s: State, id: Id)
    requires id < |s.flows| && Live(s.flows[id], Count(s, id)) && FlowSafe(s.flows[id], Count(s, id))
    ensures var a := Commit(s, id); var b := Apply(a, id, Hold); var c := Apply(b, id, Disarm); var d := Apply(c, id, Disconnect);
      && AllInOrder(s, [a, b, c, d], id) && AllHeld(s, [b, c, d], id) && IsWhole(s, d, id)
      && d.flows[id].timer.None? && !d.flows[id].request.value.closeHandler && d.flows[id].txn.value.refCount > 1
  {
    CountIn(s.list, id);
    var a := Commit(s, id);
    var b := Apply(a, id, Hold);
    var c := Apply(b, id, Disarm);
    WholeIsInOrder(s, a, id);
    WholeIsInOrder(s, b, id);
    WholeIsInOrder(s, c, id);
    WholeIsInOrder(s, Apply(c, id, Disconnect), id);
  }

  /** The window is gone, and nothing is answered yet. */
  predicate IsWindowless(was: State, m: State, id: Id) {
    && OnlyThisFlow(was, m, id) && id in m.list
    && var f := m.flows[id];
    && f.txn.Some? && f.txn.value.done && f.txn.value.invocation.Some? && f.txn.value.finished
    && f.session.None? && f.timer.None? && f.slot
    && f.request.Some? && !f.request.value.closeHandler
  }

  lemma TeardownInOrder(s: State, d: State, id: Id)
    requires IsWhole(s, d, id) && IsHeld(s, d, id)
    requires d.flows[id].timer.None? && !d.flows[id].request.value.closeHandler && d.flows[id].txn.value.refCount > 1
    ensures AllInOrder(s, TeardownTrace(d, id), id) && AllHeld(s, TeardownTrace(d, id), id)
    ensures IsWindowless(s, RunTeardown(d, id), id) && IsExported(RunTeardown(d, id).flows[id])
  {
    hide Unref;
    var s1 := MarkTorn(d, id);
    assert InOrder(s, s1, id);
    var s2 := ReleaseAdapter(s1, id);
    assert InOrder(s, s2, id);
    var w := s2.flows[id].session.value;
    UnrefMany(s2.flows[id].(session := Some(w.(transaction := false, pendingHost := None, currentHost := None))));
    var s3 := DropSessionReference(s2, id);
    assert InOrder(s, s3, id);
    var s4 := FreeSession(s3, id);
    assert InOrder(s, s4, id);
  }

  lemma UnrefMany(f: Flow)
    requires f.txn.Some? && f.txn.value.refCount > 1
    ensures Unref(f) == f.(txn := Some(f.txn.value.(refCount := f.txn.value.refCount - 1)))
  {}

  /** Off the bus and answered, still listed or not. */
  predicate IsSpent(was: State, m: State, id: Id) {
    && id < |m.flows| == |was.flows|
    && (forall k :: 0 <= k < |m.flows| && k != id ==> m.flows[k] == was.flows[k])
    && IsSpentFlow(m.flows[id])
  }

  predicate IsSpentFlow(f: Flow) {
    && (f.txn.Some? ==> f.txn.value.done && f.txn.value.invocation.None?)
    && f.session.None? && f.timer.None? && !IsExported(f)
    && (f.request.Some? ==> !f.request.value.closeHandler)
  }

  lemma AnswerInOrder(s: State, e: State, id: Id, response: Response, uri: Option<string>, reason: Option<Reason>)
    requires Safe(e) && IsWindowless(s, e, id) && IsHeld(s, e, id) && IsExported(e.flows[id])
    ensures var g := Unexport(e, id); var h := Reply(g, id, response, uri, reason);
      && AllInOrder(s, [g, h], id) && AllHeld(s, [g, h], id) && IsSpent(s, h, id)
      && h.flows[id].slot && id in h.list && h.flows[id].txn.Some? && h.flows[id].txn.value.finished
  {
    UnexportSafe(e, id);
  }

  lemma UnrefStaysSpent(f: Flow)
    requires IsSpentFlow(f)
    ensures IsSpentFlow(Unref(f)) && Unref(f).slot == f.slot && Unref(f).frames == f.frames
  {}

  lemma ReleaseStaysSpent(f: Flow)
    requires IsSpentFlow(f)
    ensures IsSpentFlow(Release(f)) && Release(f).slot == f.slot
  {
    hide Unref;
    if f.frames > 0 {
      UnrefStaysSpent(f.(frames := f.frames - 1));
    }
  }

  lemma LeavingInOrder(s: State, h: State, id: Id)
    requires IsSpent(s, h, id) && IsHeld(s, h, id) && h.flows[id].slot && Count(h, id) == 1
    requires h.flows[id].txn.Some? && h.flows[id].txn.value.finished && h.flows[id].txn.value.refCount > 1
    ensures var k := RunFinished(h, id);
      && AllInOrder(s, FinishedTrace(h, id), id) && AllHeld(s, FinishedTrace(h, id), id)
      && InOrder(s, Apply(k, id, Release), id)
  {
    hide RemoveFast, Release, Unref;
    CountIn(h.list, id);
    RemoveFastCounts(h.list, id);
    UnrefMany(h.flows[id]);
    var s1 := LeaveList(h, id);
    CountIn(s1.list, id);
    assert InOrder(s, s1, id);
    var s2 := FreeSlot(s1, id);
    assert InOrder(s, s2, id);
    ReleaseStaysSpent(s2.flows[id]);
  }

  lemma HeldTwice(s: State, id: Id)
    requires Safe(s) && id < |s.flows| && Count(s, id) == 1 && s.flows[id].frames > 0 && s.flows[id].txn.Some?
    ensures s.flows[id].txn.value.refCount > 1
  {
    assert FlowSafe(s.flows[id], Count(s, id));
  }

  /** Whatever ends a live flow, finish takes it apart in this order, and holds on to it until it is done. */
  lemma FinishIsInOrder(s: State, id: Id, response: Response, uri: Option<string>, reason: Option<Reason>)
    requires Safe(s) && id < |s.flows| && Live(s.flows[id], Count(s, id))
    ensures var trace := FinishTrace(s, id, response, uri, reason);
      AllInOrder(s, trace, id) && |trace| > 1 && AllHeld(s, trace[1..|trace| - 1], id)
  {
    hide InOrder, IsHeld, IsWhole, IsWindowless, IsSpent, TeardownTrace, FinishedTrace, RunTeardown, Unexport, Reply, RunFinished,
      Release, Hold, Disarm, Disconnect, Commit;
    var a := Commit(s, id);
    var b := Apply(a, id, Hold);
    var c := Apply(b, id, Disarm);
    var d := Apply(c, id, Disconnect);
    DetachInOrder(s, id);
    LastIsHeld(s, b, c, d, id);
    TeardownInOrder(s, d, id);
    var down := TeardownTrace(d, id);
    var e := RunTeardown(d, id);
    StagesSafe(s, id, response, uri, reason);
    TeardownEndsHeld(s, d, id);
    AnswerInOrder(s, e, id, response, uri, reason);
    var g := Unexport(e, id);
    var h := Reply(g, id, response, uri, reason);
    SecondIsHeld(s, g, h, id);
    LeavingInOrder(s, h, id);
    var left, z := FinishedTrace(h, id), Apply(RunFinished(h, id), id, Release);
    InOrderJoin(s, [a, b, c, d], down, id);
    InOrderJoin(s, [a, b, c, d] + down, [g, h], id);
    InOrderJoin(s, [a, b, c, d] + down + [g, h], left, id);
    InOrderJoin(s, [a, b, c, d] + down + [g, h] + left, [z], id);
    HeldJoin(s, [b, c, d], down, id);
    HeldJoin(s, [b, c, d] + down, [g, h], id);
    HeldJoin(s, [b, c, d] + down + [g, h], left, id);
    MiddleOf(a, b, c, d, down, g, h, left, z);
  }

  lemma MiddleOf(a: State, b: State, c: State, d: State, down: seq<State>, g: State, h: State, left: seq<State>, z: State)
    ensures var trace := [a, b, c, d] + down + [g, h] + left + [z];
      |trace| > 1 && trace[1..|trace| - 1] == [b, c, d] + down + [g, h] + left
  {}

  lemma LastIsHeld(s: State, b: State, c: State, d: State, id: Id)
    requires AllHeld(s, [b, c, d], id)
    ensures IsHeld(s, d, id)
  {
    assert [b, c, d][2] == d;
  }

  lemma SecondIsHeld(s: State, g: State, h: State, id: Id)
    requires AllHeld(s, [g, h], id)
    ensures IsHeld(s, h, id)
  {
    assert [g, h][1] == h;
  }

  lemma TeardownEndsHeld(s: State, d: State, id: Id)
    requires id < |d.flows| && AllHeld(s, TeardownTrace(d, id), id)
    ensures IsHeld(s, RunTeardown(d, id), id)
  {
    hide MarkTorn, ReleaseAdapter, DropSessionReference, FreeSession, IsHeld;
    var trace := TeardownTrace(d, id);
    assert trace[|trace| - 1] == RunTeardown(d, id);
  }

  lemma StagesSafe(s: State, id: Id, response: Response, uri: Option<string>, reason: Option<Reason>)
    requires Safe(s) && id < |s.flows| && Live(s.flows[id], Count(s, id))
    ensures s.flows[id].txn.Some? && !s.flows[id].txn.value.done
    ensures var d := Apply(Apply(Apply(Commit(s, id), id, Hold), id, Disarm), id, Disconnect);
      var e := RunTeardown(d, id); var h := Reply(Unexport(e, id), id, response, uri, reason);
      && Safe(e) && Count(h, id) == 1 && h.flows[id].txn.Some? && h.flows[id].txn.value.refCount > 1
  {
    hide FlowSafe, Commit, Hold, Disarm, Disconnect, RunTeardown, Unexport, Reply;
    var f := s.flows[id];
    DetachSafe(s, id);
    DetachedIsBeforeTeardown(f, Count(s, id));
    var d := Apply(Apply(Apply(Commit(s, id), id, Hold), id, Disarm), id, Disconnect);
    TeardownSafe(d, id);
    var e := RunTeardown(d, id);
    assert Count(e, id) == Count(s, id);
    FinishTailSafe(e, id, response, uri, reason);
    UnexportSafe(e, id);
    var g := Unexport(e, id);
    TailFlows(e.flows[id]);
    ReplySafe(g, id, response, uri, reason);
    HeldTwice(Reply(g, id, response, uri, reason), id);
  }

  // ---------- The Request's own handler ----------

  /** Before it answers yes, the default Close handler tells its Request to stop and takes it off the bus. */
  lemma CloseStopsRequest(s: State, id: Id, c: CloseCall, i: nat)
    requires id < |s.flows| && s.flows[id].request.Some? && s.flows[id].request.value.refCount > 0
    requires IsExported(s.flows[id]) ==> s.flows[id].start.path in s.registry && s.registry[s.flows[id].start.path] == id
    requires SenderCheck(s, c.sender, c.third, c.fourth).1
    requires i < |DefaultCloseTrace(s, id, c)| && DefaultCloseTrace(s, id, c)[i].log != s.log
    ensures var m := DefaultCloseTrace(s, id, c)[i]; var r := m.flows[id].request;
      m.log == s.log + [CloseAnswered(id, true)] && (r.Some? ==> r.value.cancelled && !r.value.exported)
  {
    hide HoldRequest, CancelRequest, ReleaseRequest, Unexport, SenderCheck;
    var s1 := Apply(s, id, HoldRequest);
    SenderCheckLeavesItsAnswer(s1, c.sender, c.third, c.fourth);
    SenderCheckReadsCache(s, s1, c.sender, c.third, c.fourth);
    var s2 := SenderCheck(s1, c.sender, c.third, c.fourth).0;
    var s3 := Apply(s2, id, CancelRequest);
    HeldAndStopped(s.flows[id]);
    StoppedLeavesBus(s3, id);
    var s5 := Emit(Unexport(s3, id), CloseAnswered(id, true));
    ReleaseKeepsStopped(s5.flows[id]);
  }

  /** Nothing takes the Request off the bus before it was told to stop. */
  lemma CloseStopsBeforeUnexport(s: State, id: Id, c: CloseCall, i: nat)
    requires id < |s.flows| && s.flows[id].request.Some? && s.flows[id].request.value.refCount > 0 && IsExported(s.flows[id])
    requires s.flows[id].start.path in s.registry && s.registry[s.flows[id].start.path] == id
    requires i < |DefaultCloseTrace(s, id, c)|
    ensures var f := DefaultCloseTrace(s, id, c)[i].flows[id];
      f.request.Some? && !f.request.value.exported ==> f.request.value.cancelled
  {
    hide HoldRequest, CancelRequest, ReleaseRequest, Unexport, SenderCheck;
    var f := s.flows[id];
    var s1 := Apply(s, id, HoldRequest);
    SenderCheckLeavesItsAnswer(s1, c.sender, c.third, c.fourth);
    var s2 := SenderCheck(s1, c.sender, c.third, c.fourth).0;
    HeldAndStopped(f);
    HeldAndReleased(f);
    var s3 := Apply(s2, id, CancelRequest);
    StoppedLeavesBus(s3, id);
    ReleaseKeepsStopped(Unexport(s3, id).flows[id]);
  }

  lemma HeldAndReleased(f: Flow)
    requires f.request.Some? && f.request.value.refCount > 0
    ensures IsExported(HoldRequest(f)) == IsExported(ReleaseRequest(HoldRequest(f))) == IsExported(f)
  {}

  lemma HeldAndStopped(f: Flow)
    requires f.request.Some?
    ensures var g := CancelRequest(HoldRequest(f));
      && g.request.Some? && g.request.value.cancelled && g.start == f.start && IsExported(g) == IsExported(f)
      && g.request.value.refCount == f.request.value.refCount + 1
  {}

  lemma StoppedLeavesBus(s: State, id: Id)
    requires id < |s.flows| && s.flows[id].request.Some? && s.flows[id].request.value.cancelled && s.flows[id].request.value.refCount > 1
    requires IsExported(s.flows[id]) ==> s.flows[id].start.path in s.registry && s.registry[s.flows[id].start.path] == id
    ensures var z := Unexport(s, id); var r := z.flows[id].request;
      z.log == s.log && r.Some? && r.value.cancelled && !r.value.exported
  {}

  lemma ReleaseKeepsStopped(f: Flow)
    requires f.request.Some? && f.request.value.cancelled && !f.request.value.exported
    ensures var r := ReleaseRequest(f).request; r.Some? ==> r.value.cancelled && !r.value.exported
  {}

  /** Until its last moment the default Close handler holds a reference of its own on the Request. */
  lemma DefaultCloseHolds(s: State, id: Id, c: CloseCall, i: nat)
    requires id < |s.flows| && i + 1 < |DefaultCloseTrace(s, id, c)|
    ensures var m := DefaultCloseTrace(s, id, c)[i];
      id < |m.flows| && m.flows[id].requestFrames == s.flows[id].requestFrames + 1
  {
    hide SenderCheck, ReleaseRequest;
    var s1 := Apply(s, id, HoldRequest);
    SenderCheckLeavesItsAnswer(s1, c.sender, c.third, c.fourth);
  }

  // ---------- Once only ----------

  /** A timer is armed once: not again while it is armed, not on a finished transaction, and not without a timeout. */
  lemma TimerIsArmedOnce(f: Flow, now: nat, later: nat)
    requires f.txn.Some?
    ensures var g := StartDeadline(f, now);
      && StartDeadline(g, later) == g
      && (f.txn.value.done || f.txn.value.deadlineId || f.txn.value.timeout == 0 ==> g == f)
      && (!f.txn.value.done && !f.txn.value.deadlineId && f.txn.value.timeout > 0 ==> g.timer == Some(now + f.txn.value.timeout))
  {}

  /** Once the session is marked, running teardown again does nothing. */
  lemma TeardownRunsOnce(s: State, id: Id)
    requires id < |s.flows| && s.flows[id].txn.Some? && s.flows[id].session.Some?
    ensures RunTeardown(MarkTorn(s, id), id) == MarkTorn(s, id)
  {}

  /** Taking a Request off the bus twice is taking it off once, as long as someone holds it. */
  lemma UnexportsOnce(s: State, id: Id)
    requires Safe(s) && id < |s.flows| && s.flows[id].txn.Some? && s.flows[id].request.Some?
    ensures Unexport(Unexport(s, id), id) == Unexport(s, id)
  {
    if IsExported(s.flows[id]) {
      UnexportSafe(s, id);
    }
  }

  /** A second call of finish changes nothing, whatever it was to answer. */
  lemma LateFinishIsIgnored(s: State, id: Id, response: Response, uri: Option<string>, reason: Option<Reason>)
    requires id < |s.flows| && s.flows[id].txn.Some?
    ensures var once := Commit(s, id);
      Finish(once, id, response, uri, reason) == once.(log := once.log + [LateFinish(id)])
  {
    hide RunTeardown, Unexport, Reply, RunFinished;
  }
}
