/** A whole Start, in each of its outcomes, from an idle state to an idle state. */
module LifecycleDispatch {
  import opened Wrappers
  import Completion
  import Storage
  import opened Lifecycle
  import opened LifecycleSafety
  import opened LifecycleEvents
  import opened LifecycleStart

  // ---------- Start ----------

  function AcceptTrace(s: State, args: StartArgs, exportOk: bool, storeOk: bool, provider: Option<Provider>): seq<State> {
    var id := |s.flows|;
    var s1 := NewRequest(s, args);
    if !exportOk || args.path in s.registry then
      [s1, Refuse(s1, args.invocation, InvalidRequest), Apply(Refuse(s1, args.invocation, InvalidRequest), id, ReleaseRequest)]
    else
      var s2 := Export(s1, id);
      var s3 := Apply(s2, id, NewTransaction);
      var s4 := Apply(s3, id, NewSlot);
      var s5 := JoinList(s4, id);
      var s6 := OpenSession(s5, id, storeOk, provider);
      var s7 := Apply(s6, id, Release);
      [s1, s2, s3, s4, s5] + OpenTrace(s5, id, storeOk, provider) + [s7, Apply(s7, id, ReleaseRequest)]
  }

  /** The flow of an accepted Start once handle_start has returned. */
  function Running(args: StartArgs, provider: Option<Provider>, now: nat): Flow {
    var p := Presented(args, provider, now);
    p.(txn := Some(p.txn.value.(refCount := 2)), request := Some(p.request.value.(refCount := 2)),
       frames := 0, requestFrames := 0)
  }

  /** What is left of a Start that was refused after its Request was created, or whose store failed. */
  function Discarded(args: StartArgs): Flow {
    Flow(args, None, None, None, false, None, 0, 0, false)
  }

  lemma NothingHeld(s: State, r: State, id: Id)
    requires Idle(s) && |s.flows| == id && |r.flows| == id + 1
    requires Steady(r) && NoFrames(r.flows[id])
    requires forall k :: 0 <= k < id ==> r.flows[k] == s.flows[k]
    ensures Idle(r)
  {
    forall k | 0 <= k < |r.flows|
      ensures NoFrames(r.flows[k])
    {
      if k < id {
        assert NoFrames(s.flows[k]);
      }
    }
  }

  lemma RefusedFlow(args: StartArgs)
    ensures ReleaseRequest(Requested(args)) == Discarded(args)
  {}

  lemma AcceptRefused(s: State, args: StartArgs, exportOk: bool, storeOk: bool, provider: Option<Provider>)
    requires Idle(s) && (!exportOk || args.path in s.registry)
    ensures AllSafe(AcceptTrace(s, args, exportOk, storeOk, provider))
    ensures var r := Accept(s, args, exportOk, storeOk, provider);
      && Idle(r)
      && r == s.(flows := s.flows + [Discarded(args)],
                 log := s.log + [Replied(args.invocation, Other, None, Some(InvalidRequest))])
  {
    hide ReleaseRequest, Requested, RegistrySafe;
    var id := |s.flows|;
    NewRequestOpens(s, args);
    var s1 := NewRequest(s, args);
    var s2 := Refuse(s1, args.invocation, InvalidRequest);
    SteadyEmit(s1, Replied(args.invocation, Other, None, Some(InvalidRequest)));
    RefusedFlow(args);
    ApplySteady(s2, id, ReleaseRequest);
    var r := Apply(s2, id, ReleaseRequest);
    assert r.flows == s.flows + [Discarded(args)];
    NothingHeld(s, r, id);
  }

  lemma SteadyEmit(s: State, e: Entry)
    requires Steady(s)
    ensures Steady(Emit(s, e))
  {
    var r := Emit(s, e);
    forall k | 0 <= k < |r.flows|
      ensures Settled(r, k)
    {
      assert Settled(s, k);
    }
    if r.pin.Some? {
      var k :| 0 <= k < |s.flows| && UsesPkcs11(s.flows[k]);
      assert UsesPkcs11(r.flows[k]);
    }
  }

  /** The two references of handle_start's frame are given up on return. */
  lemma FramesDropped(s: State, id: Id, g: Flow)
    requires Steady(s) && id < |s.flows| && s.flows[id].frames == 1 && s.flows[id].requestFrames == 1
    requires g == ReleaseRequest(Release(s.flows[id]))
    ensures var s1 := Apply(s, id, Release); var s2 := Apply(s1, id, ReleaseRequest);
      && Steady(s1) && Steady(s2) && NoFrames(g)
      && s2 == s.(flows := s.flows[id := g])
  {
    hide Live, Gone, FlowSafe;
    var f := s.flows[id];
    assert Settled(s, id);
    ReleaseFrame(f, Count(s, id));
    ApplySteady(s, id, Release);
    var s1 := Apply(s, id, Release);
    assert Count(s1, id) == Count(s, id);
    ReleaseRequestFrame(s1.flows[id], Count(s, id));
    ApplySteady(s1, id, ReleaseRequest);
  }

  predicate SettledFlow(f: Flow, n: nat) { FlowSafe(f, n) && (Live(f, n) || Gone(f, n)) }

  lemma ReleaseFrame(f: Flow, n: nat)
    requires SettledFlow(f, n) && f.frames > 0
    ensures var g := Release(f);
      && SettledFlow(g, n) && g.start == f.start && IsExported(g) == IsExported(f) && g.session == f.session
      && g.frames == f.frames - 1 && g.requestFrames == f.requestFrames
  {}

  lemma ReleaseRequestFrame(f: Flow, n: nat)
    requires SettledFlow(f, n) && f.requestFrames > 0
    ensures var g := ReleaseRequest(f);
      && SettledFlow(g, n) && g.start == f.start && IsExported(g) == IsExported(f) && g.session == f.session
      && g.frames == f.frames && g.requestFrames == f.requestFrames - 1
      && (Live(f, n) ==> Live(g, n))
  {}

  lemma HoldRequestFrame(f: Flow, n: nat)
    requires SettledFlow(f, n) && f.request.Some?
    ensures var g := HoldRequest(f);
      && SettledFlow(g, n) && g.start == f.start && IsExported(g) == IsExported(f) && g.session == f.session
      && g.frames == f.frames && g.requestFrames == f.requestFrames + 1
      && (Live(f, n) ==> Live(g, n)) && g.txn == f.txn && g.request.Some?
  {}

  lemma FailedFlow(args: StartArgs)
    ensures FlowSafe(Listed(args), 1) && Ready(Listed(args), 1)
    ensures Ended(Listed(args)).frames == 1 && Ended(Listed(args)).requestFrames == 1
    ensures ReleaseRequest(Release(Ended(Listed(args)))) == Discarded(args)
    ensures !UsesPkcs11(Listed(args)) && Listed(args).txn.value.invocation == Some(args.invocation) && Listed(args).start == args
  {}

  lemma FailedShape(s: State, args: StartArgs)
    requires Steady(s) && args.path !in s.registry
    ensures var id := |s.flows|;
      var s5 := s.(flows := s.flows + [Listed(args)], list := s.list + [id], registry := s.registry[args.path := id]);
      Count(s5, id) == 1 ==>
        && FlowSafe(Listed(args), 1) && Ready(Listed(args), 1)
        && EndedState(s5, id, Other, None, Some(NoStorage)) ==
          s.(flows := s.flows + [Ended(Listed(args))], list := RemoveFast(s.list + [id], id),
             log := s.log + [Committed(id), Replied(args.invocation, Other, None, Some(NoStorage))])
        && Ended(Listed(args)).frames == 1 && Ended(Listed(args)).requestFrames == 1
        && ReleaseRequest(Release(Ended(Listed(args)))) == Discarded(args)
  {
    hide Listed, Ended, Discarded, Release, ReleaseRequest, Steady, UsesPkcs11;
    var id := |s.flows|;
    var s5 := s.(flows := s.flows + [Listed(args)], list := s.list + [id], registry := s.registry[args.path := id]);
    FailedFlow(args);
    if Count(s5, id) == 1 {
      var z := EndedState(s5, id, Other, None, Some(NoStorage));
      assert z.flows == s.flows + [Ended(Listed(args))];
      assert z.registry == s.registry;
    }
  }

  lemma AcceptFailed(s: State, args: StartArgs, storeOk: bool, provider: Option<Provider>)
    requires Idle(s) && args.path !in s.registry && !StoreBuilds(args, storeOk)
    ensures AllSafe(AcceptTrace(s, args, true, storeOk, provider))
    ensures var r := Accept(s, args, true, storeOk, provider); var id := |s.flows|;
      && Idle(r)
      && r == s.(flows := s.flows + [Discarded(args)], list := r.list,
                 log := s.log + [Committed(id), Replied(args.invocation, Other, None, Some(NoStorage))])
  {
    hide FinishTrace, Safe, PinHasOwner, OpenSession;
    var id := |s.flows|;
    AcceptToList(s, args);
    var s5 := s.(flows := s.flows + [Listed(args)], list := s.list + [id], registry := s.registry[args.path := id]);
    OpenFails(s5, id, storeOk, provider);
    FailedShape(s, args);
    var s6 := OpenSession(s5, id, storeOk, provider);
    FramesDropped(s6, id, Discarded(args));
    var r := s6.(flows := s6.flows[id := Discarded(args)]);
    AcceptTraceSafe(s, args, storeOk, provider);
    assert r.flows == s.flows + [Discarded(args)];
    NothingHeld(s, r, id);
  }

  lemma AcceptTraceSafe(s: State, args: StartArgs, storeOk: bool, provider: Option<Provider>)
    requires args.path !in s.registry
    requires var id := |s.flows|;
      var s1 := NewRequest(s, args); var s2 := Export(s1, id);
      var s3 := Apply(s2, id, NewTransaction); var s4 := Apply(s3, id, NewSlot); var s5 := JoinList(s4, id);
      var s7 := Apply(OpenSession(s5, id, storeOk, provider), id, Release);
      && AllSafe([s1, s2, s3, s4, s5]) && AllSafe(OpenTrace(s5, id, storeOk, provider))
      && Safe(s7) && Safe(Apply(s7, id, ReleaseRequest))
    ensures AllSafe(AcceptTrace(s, args, true, storeOk, provider))
  {
    hide Safe, OpenTrace, OpenSession, NewTransaction, NewSlot, Export, JoinList, NewRequest;
  }

  lemma AcceptOpened(s: State, args: StartArgs, storeOk: bool, provider: Option<Provider>)
    requires Idle(s) && args.path !in s.registry && StoreBuilds(args, storeOk) && args.timeout > 0
    ensures AllSafe(AcceptTrace(s, args, true, storeOk, provider))
    ensures var r := Accept(s, args, true, storeOk, provider); var id := |s.flows|;
      && Idle(r)
      && r == s.(flows := s.flows + [Running(args, provider, s.now)], list := s.list + [id],
                 registry := s.registry[args.path := id],
                 log := StoreLog(args, id, s.log) + [Opened(id, s.now)])
  {
    hide Safe, PinHasOwner;
    var id := |s.flows|;
    AcceptToList(s, args);
    var s5 := s.(flows := s.flows + [Listed(args)], list := s.list + [id], registry := s.registry[args.path := id]);
    OpenSucceeds(s5, id, storeOk, provider);
    var s6 := OpenSession(s5, id, storeOk, provider);
    FramesDropped(s6, id, Running(args, provider, s.now));
    var r := Apply(Apply(s6, id, Release), id, ReleaseRequest);
    assert r.flows == s.flows + [Running(args, provider, s.now)];
    NothingHeld(s, r, id);
    AcceptTraceSafe(s, args, storeOk, provider);
  }

  lemma ClampedTimeout(timeout: Option<nat>)
    ensures 1 <= ClampTimeout(timeout) <= MAX_TIMEOUT
  {}

  function AdmitTrace(s: State, invocation: nat, accepted: bool, c: StartCall, validated: Option<Storage.Mode>): seq<State> {
    if !accepted || validated.None? then [s, Admit(s, invocation, accepted, c, validated)]
    else [s] + AcceptTrace(s, ArgsOf(c, invocation, validated.value), c.exportOk, c.storeOk, c.provider)
  }

  function CheckedTrace(s: State, c: StartCall, validated: Option<Storage.Mode>): seq<State> {
    var (s1, accepted) := SenderCheck(CountInvocation(s), c.sender, c.first, c.second);
    AdmitTrace(s1, s.invocations, accepted, c, validated)
  }

  function StartTrace(s: State, c: StartCall): seq<State> { CheckedTrace(s, c, Validated(c)) }

  /** Fields that the invariants do not read. */
  lemma IdleElsewhere(s: State, r: State)
    requires Idle(s)
    requires r.flows == s.flows && r.list == s.list && r.registry == s.registry && r.pin == s.pin
    ensures Idle(r)
  {
    forall k | 0 <= k < |r.flows|
      ensures Settled(r, k) && NoFrames(r.flows[k])
    {
      assert Settled(s, k) && NoFrames(s.flows[k]);
    }
    if r.pin.Some? {
      var k :| 0 <= k < |s.flows| && UsesPkcs11(s.flows[k]);
      assert UsesPkcs11(r.flows[k]);
    }
  }

  lemma AcceptIdle(s: State, args: StartArgs, exportOk: bool, storeOk: bool, provider: Option<Provider>)
    requires Idle(s) && args.timeout > 0
    ensures AllSafe(AcceptTrace(s, args, exportOk, storeOk, provider))
    ensures Idle(Accept(s, args, exportOk, storeOk, provider))
  {
    if !exportOk || args.path in s.registry {
      AcceptRefused(s, args, exportOk, storeOk, provider);
    } else if !StoreBuilds(args, storeOk) {
      AcceptFailed(s, args, storeOk, provider);
    } else {
      AcceptOpened(s, args, storeOk, provider);
    }
  }

  lemma AdmitIdle(s: State, invocation: nat, accepted: bool, c: StartCall, validated: Option<Storage.Mode>)
    requires Idle(s)
    ensures AllSafe(AdmitTrace(s, invocation, accepted, c, validated)) && Idle(Admit(s, invocation, accepted, c, validated))
  {
    if !accepted || validated.None? {
      IdleElsewhere(s, Admit(s, invocation, accepted, c, validated));
    } else {
      var args := ArgsOf(c, invocation, validated.value);
      ClampedTimeout(c.timeout);
      AcceptIdle(s, args, c.exportOk, c.storeOk, c.provider);
      AllSafeJoin([s], AcceptTrace(s, args, c.exportOk, c.storeOk, c.provider));
    }
  }

  lemma CheckedIdle(s: State, c: StartCall, validated: Option<Storage.Mode>)
    requires Idle(s)
    ensures AllSafe(CheckedTrace(s, c, validated)) && Idle(HandleChecked(s, c, validated))
  {
    var (s1, accepted) := SenderCheck(CountInvocation(s), c.sender, c.first, c.second);
    SenderCheckLeavesItsAnswer(CountInvocation(s), c.sender, c.first, c.second);
    IdleElsewhere(s, s1);
    AdmitIdle(s1, s.invocations, accepted, c, validated);
  }

  lemma StartIdle(s: State, c: StartCall)
    requires Idle(s)
    ensures AllSafe(StartTrace(s, c)) && Idle(HandleStart(s, c))
  {
    CheckedIdle(s, c, Validated(c));
  }
}
