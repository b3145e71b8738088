/** Request.Close, refused and accepted, and the closed form of ending one live flow. */
module LifecycleClose {
  import opened Wrappers
  import Completion
  import opened Lifecycle
  import opened LifecycleSafety
  import opened LifecycleEvents
  import opened LifecycleStart
  import opened LifecycleDispatch

  // ---------- Request.Close ----------

  function OnCloseTrace(s: State, id: Id, c: CloseCall): seq<State>
    requires id < |s.flows|
  {
    var (s1, accepted) := SenderCheck(s, c.sender, c.first, c.second);
    if !accepted then [s1] else [s1] + FinishTrace(s1, id, Cancelled, None, Some(RequestClosed))
  }

  function DefaultCloseTrace(s: State, id: Id, c: CloseCall): seq<State>
    requires id < |s.flows|
  {
    var s1 := Apply(s, id, HoldRequest);
    var (s2, accepted) := SenderCheck(s1, c.sender, c.third, c.fourth);
    if !accepted then
      var s3 := Emit(s2, CloseAnswered(id, false));
      [s1, s2, s3, Apply(s3, id, ReleaseRequest)]
    else
      var s3 := Apply(s2, id, CancelRequest);
      var s4 := Unexport(s3, id);
      var s5 := Emit(s4, CloseAnswered(id, true));
      [s1, s2, s3, s4, s5, Apply(s5, id, ReleaseRequest)]
  }

  function CloseTrace(s: State, c: CloseCall): seq<State>
    requires RegistryInRange(s)
  {
    if c.path !in s.registry then [s]
    else
      var id := s.registry[c.path];
      var s1 := Apply(s, id, HoldRequest);
      var connected := s1.flows[id].request.Some? && s1.flows[id].request.value.closeHandler;
      var s2 := if connected then OnRequestClose(s1, id, c) else s1;
      [s1] + (if connected then OnCloseTrace(s1, id, c) else [])
      + DefaultCloseTrace(s2, id, c) + [HandleClose(s, c)]
  }

  /** Fields that the invariants do not read. */
  lemma SteadyElsewhere(s: State, r: State)
    requires Steady(s)
    requires r.flows == s.flows && r.list == s.list && r.registry == s.registry && r.pin == s.pin
    ensures Steady(r)
  {
    forall k | 0 <= k < |r.flows|
      ensures Settled(r, k)
    {
      assert Settled(s, k);
    }
    if r.pin.Some? {
      var k :| 0 <= k < |s.flows| && UsesPkcs11(s.flows[k]);
      assert UsesPkcs11(r.flows[k]);
    }
  }

  lemma HoldRequestSteady(s: State, id: Id)
    requires Steady(s) && id < |s.flows| && s.flows[id].request.Some?
    ensures Steady(Apply(s, id, HoldRequest))
  {
    assert Settled(s, id);
    HoldRequestFrame(s.flows[id], Count(s, id));
    ApplySteady(s, id, HoldRequest);
  }

  lemma ReleaseRequestSteady(s: State, id: Id)
    requires Steady(s) && id < |s.flows| && s.flows[id].requestFrames > 0
    ensures Steady(Apply(s, id, ReleaseRequest))
  {
    assert Settled(s, id);
    ReleaseRequestFrame(s.flows[id], Count(s, id));
    ApplySteady(s, id, ReleaseRequest);
  }

  lemma CancelSteady(s: State, id: Id)
    requires Steady(s) && id < |s.flows| && Gone(s.flows[id], Count(s, id)) && s.flows[id].request.Some?
    ensures Steady(Apply(s, id, CancelRequest)) && Unexport(Apply(s, id, CancelRequest), id) == Apply(s, id, CancelRequest)
  {
    assert Settled(s, id);
    CancelGone(s.flows[id], Count(s, id));
    ApplySteady(s, id, CancelRequest);
  }

  /** The default handler on a Request whose flow has ended: it has nothing left to unexport. */
  lemma DefaultCloseAfterFinish(s: State, id: Id, c: CloseCall)
    requires Steady(s) && id < |s.flows| && Gone(s.flows[id], Count(s, id)) && s.flows[id].request.Some?
    requires SenderCheck(s, c.sender, c.third, c.fourth).1
    ensures AllSafe(DefaultCloseTrace(s, id, c)) && Steady(DefaultClose(s, id, c))
    ensures var w := SenderCheck(s, c.sender, c.third, c.fourth).0;
      DefaultClose(s, id, c) ==
        s.(flows := s.flows[id := CancelRequest(s.flows[id])],
           owner := w.owner, resolved := w.resolved, log := s.log + [CloseAnswered(id, true)])
  {
    hide RegistrySafe;
    HoldRequestSteady(s, id);
    var s1 := Apply(s, id, HoldRequest);
    assert Count(s1, id) == Count(s, id);
    var s2 := SenderCheck(s1, c.sender, c.third, c.fourth).0;
    SenderCheckLeavesItsAnswer(s1, c.sender, c.third, c.fourth);
    SteadyElsewhere(s1, s2);
    assert Count(s2, id) == Count(s, id);
    CancelSteady(s2, id);
    var s3 := Apply(s2, id, CancelRequest);
    var s5 := Emit(s3, CloseAnswered(id, true));
    SteadyElsewhere(s3, s5);
    ReleaseRequestSteady(s5, id);
    HoldCancelRelease(s.flows[id]);
  }

  lemma HoldCancelRelease(f: Flow)
    requires f.request.Some? && f.request.value.refCount > 0
    ensures ReleaseRequest(CancelRequest(HoldRequest(f))) == CancelRequest(f)
    ensures ReleaseRequest(HoldRequest(f)) == f
  {}

  lemma CancelGone(f: Flow, n: nat)
    requires SettledFlow(f, n) && Gone(f, n) && f.request.Some?
    ensures var g := CancelRequest(f);
      && SettledFlow(g, n) && Gone(g, n) && g.start == f.start && IsExported(g) == IsExported(f) && g.session == f.session
      && g.requestFrames == f.requestFrames && g.frames == f.frames
  {}

  /** A refusing default handler leaves the flow alone. */
  lemma DefaultCloseRefuses(s: State, id: Id, c: CloseCall)
    requires Steady(s) && id < |s.flows| && s.flows[id].request.Some?
    requires !SenderCheck(s, c.sender, c.third, c.fourth).1
    ensures AllSafe(DefaultCloseTrace(s, id, c)) && Steady(DefaultClose(s, id, c))
    ensures DefaultClose(s, id, c) == Emit(SenderCheck(s, c.sender, c.third, c.fourth).0, CloseAnswered(id, false))
  {
    HoldRequestSteady(s, id);
    var s1 := Apply(s, id, HoldRequest);
    var s2 := SenderCheck(s1, c.sender, c.third, c.fourth).0;
    SenderCheckLeavesItsAnswer(s1, c.sender, c.third, c.fourth);
    SteadyElsewhere(s1, s2);
    var s3 := Emit(s2, CloseAnswered(id, false));
    SteadyElsewhere(s2, s3);
    ReleaseRequestSteady(s3, id);
    assert Settled(s, id);
    HoldCancelRelease(s.flows[id]);
    assert DefaultClose(s, id, c).flows == s.flows;
  }

  /** What an accepted Close does to the flow it names; `second` is what the default handler's check said. */
  function ClosedState(s: State, id: Id, invocation: nat, w: State, second: bool): State
    requires id < |s.flows|
  {
    s.(flows := s.flows[id := Discarded(s.flows[id].start)], list := RemoveFast(s.list, id),
       registry := s.registry - {s.flows[id].start.path}, pin := EndedPin(s, s.flows[id]),
       owner := w.owner, resolved := w.resolved,
       log := s.log + [Committed(id), Replied(invocation, Cancelled, None, Some(RequestClosed)), CloseAnswered(id, second)])
  }

  /** A refused Close, stage by stage: what each handler leaves. */
  lemma RefusedStages(s: State, id: Id, c: CloseCall)
    requires Steady(s) && id < |s.flows| && Live(s.flows[id], Count(s, id))
    requires !SenderCheck(s, c.sender, c.first, c.second).1
    ensures var s1 := Apply(s, id, HoldRequest); var s2 := SenderCheck(s1, c.sender, c.first, c.second).0;
      && s1.flows[id].request.Some? && s1.flows[id].request.value.closeHandler
      && OnRequestClose(s1, id, c) == s2 && OnCloseTrace(s1, id, c) == [s2]
      && Steady(s1) && Steady(s2) && !SenderCheck(s2, c.sender, c.third, c.fourth).1
      && s2.flows == s1.flows && s2.flows[id].requestFrames > 0
      && SenderCheck(s2, c.sender, c.third, c.fourth).0 == s2
      && s2 == s1.(owner := SenderCheck(s, c.sender, c.first, c.second).0.owner,
                   resolved := SenderCheck(s, c.sender, c.first, c.second).0.resolved)
  {
    hide Finish, FinishTrace;
    HoldRequestSteady(s, id);
    var s1 := Apply(s, id, HoldRequest);
    var s2 := SenderCheck(s1, c.sender, c.first, c.second).0;
    SenderCheckLeavesItsAnswer(s1, c.sender, c.first, c.second);
    SteadyElsewhere(s1, s2);
    RefusalRepeats(s1, c.sender, c.first, c.second, c.third, c.fourth);
  }

  lemma CloseRefused(s: State, c: CloseCall)
    requires Idle(s) && c.path in s.registry
    requires !SenderCheck(s, c.sender, c.first, c.second).1
    ensures var id := s.registry[c.path]; var w := SenderCheck(s, c.sender, c.first, c.second).0;
      && AllSafe(CloseTrace(s, c)) && Idle(HandleClose(s, c))
      && HandleClose(s, c) == s.(owner := w.owner, resolved := w.resolved, log := s.log + [CloseAnswered(id, false)])
  {
    hide Finish, FinishTrace, OnRequestClose, DefaultClose, SenderCheck, Live, HoldRequest, ReleaseRequest;
    LiveInRegistry(s, c.path);
    var id := s.registry[c.path];
    var f := s.flows[id];
    RefusedStages(s, id, c);
    var s1 := Apply(s, id, HoldRequest);
    var s2 := SenderCheck(s1, c.sender, c.first, c.second).0;
    DefaultCloseRefuses(s2, id, c);
    var s3 := DefaultClose(s2, id, c);
    ReleaseRequestSteady(s3, id);
    HoldCancelRelease(f);
    var z := HandleClose(s, c);
    assert z == Apply(s3, id, ReleaseRequest);
    assert z.flows == s.flows;
    IdleElsewhere(s, z);
  }

  lemma LiveInRegistry(s: State, path: string)
    requires Idle(s) && path in s.registry
    ensures var id := s.registry[path];
      && id < |s.flows| && Live(s.flows[id], Count(s, id))
      && s.flows[id].request.Some? && s.flows[id].request.value.refCount > 0
  {
    AllOrNothing(s, s.registry[path]);
  }

  lemma CloseFinishes(s: State, id: Id, w: State, c: CloseCall)
    requires Steady(s) && id < |s.flows| && Live(s.flows[id], Count(s, id))
    requires (w, true) == SenderCheck(s, c.sender, c.first, c.second)
    ensures var z := OnRequestClose(s, id, c);
      && AllSafe(OnCloseTrace(s, id, c)) && Steady(z)
      && z == EndedState(s.(owner := w.owner, resolved := w.resolved), id, Cancelled, None, Some(RequestClosed))
      && Gone(z.flows[id], Count(z, id))
  {
    SenderCheckLeavesItsAnswer(s, c.sender, c.first, c.second);
    SteadyElsewhere(s, w);
    assert Count(w, id) == Count(s, id);
    AllSettled(w);
    FinishSteady(w, id, Cancelled, None, Some(RequestClosed));
    FinishSafe(w, id, Cancelled, None, Some(RequestClosed));
    AllSafeJoin([w], FinishTrace(w, id, Cancelled, None, Some(RequestClosed)));
  }

  lemma AllSettled(s: State)
    requires Steady(s)
    ensures forall k :: 0 <= k < |s.flows| ==> Settled(s, k)
  {}

  /** The flow through the whole emission of an accepted Close. */
  lemma ClosedFlow(f: Flow, n: nat)
    requires FlowSafe(f, n) && Live(f, n) && NoFrames(f)
    ensures var f1 := HoldRequest(f);
      && f1.txn.Some? && f1.request.Some? && f1.txn == f.txn && UsesPkcs11(f1) == UsesPkcs11(f)
      && FlowSafe(f1, n) && Live(f1, n)
      && var f2 := Ended(f1);
      && f2.request.Some? && f2.request.value.refCount > 0
      && f2.requestFrames == 1
      && ReleaseRequest(f2) == Discarded(f.start)
      && ReleaseRequest(CancelRequest(f2)) == Discarded(f.start)
  {}

  lemma CloseAccepted(s: State, c: CloseCall)
    requires Idle(s) && c.path in s.registry
    requires SenderCheck(s, c.sender, c.first, c.second).1
    ensures var id := s.registry[c.path];
      var w1 := SenderCheck(s, c.sender, c.first, c.second).0;
      var (w2, second) := SenderCheck(w1, c.sender, c.third, c.fourth);
      && AllSafe(CloseTrace(s, c)) && Idle(HandleClose(s, c))
      && s.flows[id].txn.Some? && s.flows[id].txn.value.invocation.Some?
      && HandleClose(s, c) == ClosedState(s, id, s.flows[id].txn.value.invocation.value, w2, second)
  {
    var id := s.registry[c.path];
    var f := s.flows[id];
    AllOrNothing(s, id);
    assert NoFrames(f);
    ClosedFlow(f, Count(s, id));
    HoldRequestSteady(s, id);
    var s1 := Apply(s, id, HoldRequest);
    assert Count(s1, id) == Count(s, id);
    var w1 := SenderCheck(s1, c.sender, c.first, c.second).0;
    CloseFinishes(s1, id, w1, c);
    CloseRest(s, s1, id, c);
    CloseFields(s, s1, id, w1);
    var s2 := OnRequestClose(s1, id, c);
    var w2 := SenderCheck(s2, c.sender, c.third, c.fourth);
    SenderCheckReadsCache(s, s1, c.sender, c.first, c.second);
    SenderCheckReadsCache(SenderCheck(s, c.sender, c.first, c.second).0, s2, c.sender, c.third, c.fourth);
    CloseEquation(s, s2, HandleClose(s, c), id, f.txn.value.invocation.value, w2.0, w2.1);
  }

  /** Which parts of the state the transaction's handler leaves behind. */
  lemma CloseFields(s: State, s1: State, id: Id, w: State)
    requires id < |s.flows| && s1 == Apply(s, id, HoldRequest)
    requires s1.flows[id].txn == s.flows[id].txn && UsesPkcs11(s1.flows[id]) == UsesPkcs11(s.flows[id])
    requires s1.flows[id].start == s.flows[id].start
    requires Ready(s1.flows[id], Count(s1, id)) && FlowSafe(s1.flows[id], Count(s1, id))
    ensures s.flows[id].txn.Some? && s.flows[id].txn.value.invocation.Some?
    ensures var z := EndedState(s1.(owner := w.owner, resolved := w.resolved), id, Cancelled, None, Some(RequestClosed));
      && z.list == RemoveFast(s.list, id) && z.registry == s.registry - {s.flows[id].start.path}
      && z.pin == EndedPin(s, s.flows[id]) && z.now == s.now && z.invocations == s.invocations
      && z.owner == w.owner && z.resolved == w.resolved
      && z.log == s.log + [Committed(id), Replied(s.flows[id].txn.value.invocation.value, Cancelled, None, Some(RequestClosed))]
  {}

  lemma SenderCheckReadsCache(s: State, r: State, sender: Option<string>, first: Option<string>, second: Option<string>)
    requires r.owner == s.owner && r.resolved == s.resolved
    ensures SenderCheck(r, sender, first, second).1 == SenderCheck(s, sender, first, second).1
    ensures SenderCheck(r, sender, first, second).0.owner == SenderCheck(s, sender, first, second).0.owner
    ensures SenderCheck(r, sender, first, second).0.resolved == SenderCheck(s, sender, first, second).0.resolved
  {}

  lemma CloseEquation(s: State, s2: State, z: State, id: Id, invocation: nat, w: State, second: bool)
    requires id < |s.flows|
    requires s2.list == RemoveFast(s.list, id) && s2.registry == s.registry - {s.flows[id].start.path}
    requires s2.pin == EndedPin(s, s.flows[id]) && s2.now == s.now && s2.invocations == s.invocations
    requires s2.log == s.log + [Committed(id), Replied(invocation, Cancelled, None, Some(RequestClosed))]
    requires z == s2.(flows := s.flows[id := Discarded(s.flows[id].start)],
                      owner := w.owner, resolved := w.resolved, log := s2.log + [CloseAnswered(id, second)])
    ensures z == ClosedState(s, id, invocation, w, second)
  {}

  /** From the end of the transaction's handler to the end of the emission. */
  lemma CloseRest(s: State, s1: State, id: Id, c: CloseCall)
    requires Idle(s) && c.path in s.registry && id == s.registry[c.path]
    requires s1 == Apply(s, id, HoldRequest) && Safe(s1)
    requires FlowSafe(s.flows[id], Count(s, id)) && Live(s.flows[id], Count(s, id)) && NoFrames(s.flows[id])
    requires s1.flows[id].request.Some? && s1.flows[id].request.value.closeHandler
    requires var s2 := OnRequestClose(s1, id, c);
      && AllSafe(OnCloseTrace(s1, id, c)) && Steady(s2) && Gone(s2.flows[id], Count(s2, id))
      && s2.flows == s1.flows[id := Ended(HoldRequest(s.flows[id]))]
    ensures AllSafe(CloseTrace(s, c)) && Idle(HandleClose(s, c))
    ensures var s2 := OnRequestClose(s1, id, c); var (w2, second) := SenderCheck(s2, c.sender, c.third, c.fourth);
      HandleClose(s, c) ==
        s2.(flows := s.flows[id := Discarded(s.flows[id].start)],
            owner := w2.owner, resolved := w2.resolved, log := s2.log + [CloseAnswered(id, second)])
  {
    var s2 := OnRequestClose(s1, id, c);
    ClosedFlow(s.flows[id], Count(s, id));
    DefaultCloseEither(s2, id, c);
    var s3 := DefaultClose(s2, id, c);
    ReleaseRequestSteady(s3, id);
    CloseEnds(s, s1, s2, s3, id, c);
    CloseTraceSafe(s, c);
  }

  lemma DefaultCloseEither(s: State, id: Id, c: CloseCall)
    requires Steady(s) && id < |s.flows| && Gone(s.flows[id], Count(s, id)) && s.flows[id].request.Some?
    ensures AllSafe(DefaultCloseTrace(s, id, c)) && Steady(DefaultClose(s, id, c))
    ensures var (w, accepted) := SenderCheck(s, c.sender, c.third, c.fourth);
      DefaultClose(s, id, c) ==
        s.(flows := if accepted then s.flows[id := CancelRequest(s.flows[id])] else s.flows,
           owner := w.owner, resolved := w.resolved, log := s.log + [CloseAnswered(id, accepted)])
  {
    SenderCheckLeavesItsAnswer(s, c.sender, c.third, c.fourth);
    if SenderCheck(s, c.sender, c.third, c.fourth).1 {
      DefaultCloseAfterFinish(s, id, c);
    } else {
      DefaultCloseRefuses(s, id, c);
    }
  }

  lemma CloseEnds(s: State, s1: State, s2: State, s3: State, id: Id, c: CloseCall)
    requires Idle(s) && c.path in s.registry && id == s.registry[c.path]
    requires s1 == Apply(s, id, HoldRequest) && s2 == OnRequestClose(s1, id, c) && s3 == DefaultClose(s2, id, c)
    requires s1.flows[id].request.Some? && s1.flows[id].request.value.closeHandler
    requires s2.flows == s1.flows[id := s2.flows[id]]
    requires ReleaseRequest(s2.flows[id]) == Discarded(s.flows[id].start)
    requires ReleaseRequest(CancelRequest(s2.flows[id])) == Discarded(s.flows[id].start)
    requires s3.flows == s2.flows || s3.flows == s2.flows[id := CancelRequest(s2.flows[id])]
    requires Steady(Apply(s3, id, ReleaseRequest))
    ensures var z := HandleClose(s, c);
      && z == s3.(flows := s.flows[id := Discarded(s.flows[id].start)]) && Idle(z)
  {
    hide SenderCheck, OnRequestClose, DefaultClose;
    var z := HandleClose(s, c);
    assert z == Apply(s3, id, ReleaseRequest);
    assert z.flows[id] == Discarded(s.flows[id].start);
    assert z.flows == s.flows[id := Discarded(s.flows[id].start)];
    IdleExcept(s, z, id);
  }

  lemma CloseTraceSafe(s: State, c: CloseCall)
    requires RegistryInRange(s) && c.path in s.registry
    requires var id := s.registry[c.path];
      var s1 := Apply(s, id, HoldRequest);
      && s1.flows[id].request.Some? && s1.flows[id].request.value.closeHandler
      && Safe(s1) && AllSafe(OnCloseTrace(s1, id, c))
      && AllSafe(DefaultCloseTrace(OnRequestClose(s1, id, c), id, c)) && Safe(HandleClose(s, c))
    ensures AllSafe(CloseTrace(s, c))
  {
    var id := s.registry[c.path];
    var s1 := Apply(s, id, HoldRequest);
    var a, b := OnCloseTrace(s1, id, c), DefaultCloseTrace(OnRequestClose(s1, id, c), id, c);
    assert CloseTrace(s, c) == [s1] + a + b + [HandleClose(s, c)];
    AllSafeJoin([s1], a);
    AllSafeJoin([s1] + a, b);
    AllSafeJoin([s1] + a + b, [HandleClose(s, c)]);
  }

  lemma IdleExcept(s: State, z: State, id: Id)
    requires Idle(s) && Steady(z) && |z.flows| == |s.flows| && id < |z.flows| && NoFrames(z.flows[id])
    requires forall k :: 0 <= k < |s.flows| && k != id ==> z.flows[k] == s.flows[k]
    ensures Idle(z)
  {
    forall k | 0 <= k < |z.flows|
      ensures NoFrames(z.flows[k])
    {
      assert NoFrames(s.flows[k]);
    }
  }

  // ---------- Events that end one flow ----------

  /** What is left of an idle state when one flow has ended. */
  function AfterEnd(s: State, id: Id, entries: seq<Entry>): State
    requires id < |s.flows|
  {
    s.(flows := s.flows[id := Discarded(s.flows[id].start)], list := RemoveFast(s.list, id),
       registry := s.registry - {s.flows[id].start.path}, pin := EndedPin(s, s.flows[id]),
       log := s.log + entries)
  }

  function EndEntries(f: Flow, id: Id, response: Response, uri: Option<string>, reason: Option<Reason>): seq<Entry>
    requires f.txn.Some? && f.txn.value.invocation.Some?
  {
    [Committed(id), SentReply(f, response, uri, reason)]
  }

  lemma FinishedIsDiscarded(f: Flow, n: nat)
    requires FlowSafe(f, n) && Live(f, n) && NoFrames(f)
    ensures Ended(f) == Discarded(f.start)
  {}

  /** Any terminal event of a live flow, from the engine, the user or the timer. */
  lemma FinishIdle(s: State, id: Id, response: Response, uri: Option<string>, reason: Option<Reason>)
    requires Idle(s) && id < |s.flows| && Live(s.flows[id], Count(s, id))
    ensures AllSafe(FinishTrace(s, id, response, uri, reason))
    ensures var z := Finish(s, id, response, uri, reason);
      && Idle(z) && z == AfterEnd(s, id, EndEntries(s.flows[id], id, response, uri, reason))
  {
    hide Finish, FinishTrace, PinHasOwner;
    assert forall k :: 0 <= k < |s.flows| ==> Settled(s, k);
    assert NoFrames(s.flows[id]);
    FinishSteady(s, id, response, uri, reason);
    FinishSafe(s, id, response, uri, reason);
    var z := Finish(s, id, response, uri, reason);
    FinishedIsDiscarded(s.flows[id], Count(s, id));
    IdleExcept(s, z, id);
  }

  lemma ReceivesIsLive(s: State, id: Id)
    requires Idle(s) && id < |s.flows|
    ensures Receives(s, id) <==> Live(s.flows[id], Count(s, id))
    ensures Receives(s, id) ==> HasTransaction(s.flows[id]) && !s.flows[id].txn.value.done && s.flows[id].txn.value.invocation.Some?
  {
    assert Settled(s, id);
  }

  /** Only the session's own fields, the PIN of its provider, or the log change. */
  lemma SessionUpdateIdle(s: State, id: Id, w: Session, pin: Option<string>, log: seq<Entry>)
    requires Idle(s) && Receives(s, id)
    requires var v := s.flows[id].session.value;
      && w.transaction == v.transaction && w.provider == v.provider && w.tornDown == v.tornDown
      && (pin == s.pin || v.provider == Some(Pkcs11))
    ensures Idle(With(s, id, s.flows[id].(session := Some(w)), log, pin))
  {
    ReceivesIsLive(s, id);
    var f := s.flows[id].(session := Some(w));
    assert NoFrames(s.flows[id]);
    WithSafe(s, id, f, log, pin);
    var r := With(s, id, f, log, pin);
    forall k | 0 <= k < |r.flows|
      ensures Settled(r, k) && NoFrames(r.flows[k])
    {
      assert Settled(s, k) && Count(r, k) == Count(s, k) && NoFrames(s.flows[k]);
    }
    if pin == s.pin && pin.Some? {
      var k :| 0 <= k < |s.flows| && UsesPkcs11(s.flows[k]);
      assert UsesPkcs11(r.flows[k]);
    } else if pin.Some? {
      assert UsesPkcs11(r.flows[id]);
    }
  }
}
