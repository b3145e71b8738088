/** The handlers cut into the stages at which the object's methods are proved. */
module LifecycleStages {
  import opened Wrappers
  import Completion
  import opened Lifecycle
  import opened LifecycleSafety
  import opened LifecycleStart
  import opened LifecycleDispatch
  import opened LifecycleRuns

  function DetachedState(s: State, id: Id): (r: State)
    requires id < |s.flows|
    ensures |r.flows| == |s.flows|
  {
    Apply(Apply(Apply(Commit(s, id), id, Hold), id, Disarm), id, Disconnect)
  }

  function TornDown(s: State, id: Id): (r: State)
    requires id < |s.flows|
    ensures |r.flows| == |s.flows|
  {
    FreeSession(DropSessionReference(ReleaseAdapter(MarkTorn(s, id), id), id), id)
  }

  function TornDownTrace(s: State, id: Id): seq<State>
    requires id < |s.flows|
  {
    var s1 := MarkTorn(s, id);
    var s2 := ReleaseAdapter(s1, id);
    var s3 := DropSessionReference(s2, id);
    [s1, s2, s3, FreeSession(s3, id)]
  }

  lemma TeardownCases(s: State, id: Id)
    requires id < |s.flows|
    ensures var f := s.flows[id];
      if f.txn.None? || (f.txn.value.teardown && f.session.None?) then
        RunTeardown(s, id) == Put(s, id, Bad(f)) && TeardownTrace(s, id) == [RunTeardown(s, id)]
      else if f.txn.value.teardown && !f.session.value.tornDown then
        RunTeardown(s, id) == TornDown(s, id) && TeardownTrace(s, id) == TornDownTrace(s, id)
      else RunTeardown(s, id) == s && TeardownTrace(s, id) == [s]
  {
    hide FreeSession, DropSessionReference, ReleaseAdapter, MarkTorn;
  }

  function Concluded(s: State, id: Id, response: Response, uri: Option<string>, reason: Option<Reason>): (r: State)
    requires id < |s.flows|
    ensures |r.flows| == |s.flows|
  {
    Apply(RunFinished(Reply(Unexport(s, id), id, response, uri, reason), id), id, Release)
  }

  function DetachTrace(s: State, id: Id): seq<State>
    requires id < |s.flows|
  {
    var a := Commit(s, id);
    var b := Apply(a, id, Hold);
    var c := Apply(b, id, Disarm);
    [a, b, c, Apply(c, id, Disconnect)]
  }

  function ConcludeTrace(s: State, id: Id, response: Response, uri: Option<string>, reason: Option<Reason>): seq<State>
    requires id < |s.flows|
  {
    var g := Unexport(s, id);
    var h := Reply(g, id, response, uri, reason);
    [g, h] + FinishedTrace(h, id) + [Apply(RunFinished(h, id), id, Release)]
  }

  lemma DeniedStart(s: State, c: StartCall)
    requires !SenderCheck(CountInvocation(s), c.sender, c.first, c.second).1
    ensures HandleStart(s, c) == Emit(SenderCheck(CountInvocation(s), c.sender, c.first, c.second).0, Denied(s.invocations))
  {
    hide Validated;
  }

  function Registered(s: State, id: Id): (r: State)
    requires id < |s.flows|
    ensures |r.flows| == |s.flows|
  {
    JoinList(Apply(Apply(Export(s, id), id, NewTransaction), id, NewSlot), id)
  }

  function RegisterTrace(s: State, id: Id): seq<State>
    requires id < |s.flows|
  {
    var s1 := Export(s, id);
    var s2 := Apply(s1, id, NewTransaction);
    var s3 := Apply(s2, id, NewSlot);
    [s1, s2, s3, JoinList(s3, id)]
  }

  /** What Accept does once its Request exists and its path is free. */
  function IsSetUp(s: State, id: Id, storeOk: bool, provider: Option<Provider>): (r: State)
    requires id < |s.flows|
    ensures |r.flows| == |s.flows|
  {
    Apply(Apply(OpenSession(Registered(s, id), id, storeOk, provider), id, Release), id, ReleaseRequest)
  }

  function SetUpTrace(s: State, id: Id, storeOk: bool, provider: Option<Provider>): seq<State>
    requires id < |s.flows|
  {
    var s1 := Registered(s, id);
    var s2 := Apply(OpenSession(s1, id, storeOk, provider), id, Release);
    RegisterTrace(s, id) + OpenTrace(s1, id, storeOk, provider) + [s2, Apply(s2, id, ReleaseRequest)]
  }

  lemma AcceptInStages(s: State, args: StartArgs, exportOk: bool, storeOk: bool, provider: Option<Provider>)
    ensures var s1 := NewRequest(s, args); var id := |s.flows|;
      Accept(s, args, exportOk, storeOk, provider) ==
        if !exportOk || args.path in s.registry then Apply(Refuse(s1, args.invocation, InvalidRequest), id, ReleaseRequest)
        else IsSetUp(s1, id, storeOk, provider)
    ensures var s1 := NewRequest(s, args); var id := |s.flows|;
      AcceptTrace(s, args, exportOk, storeOk, provider) ==
        if !exportOk || args.path in s.registry then
          var s2 := Refuse(s1, args.invocation, InvalidRequest);
          [s1, s2, Apply(s2, id, ReleaseRequest)]
        else [s1] + SetUpTrace(s1, id, storeOk, provider)
  {
    hide OpenTrace, OpenSession, NewTransaction, NewSlot, Export, JoinList, Release, ReleaseRequest;
  }

  lemma FinishTooLate(s: State, id: Id, response: Response, uri: Option<string>, reason: Option<Reason>)
    requires id < |s.flows|
    ensures s.flows[id].txn.None? ==> Finish(s, id, response, uri, reason) == Put(s, id, Bad(s.flows[id]))
    ensures s.flows[id].txn.Some? && s.flows[id].txn.value.done ==> Finish(s, id, response, uri, reason) == Emit(s, LateFinish(id))
  {}

  lemma FinishInHalves(s: State, id: Id, response: Response, uri: Option<string>, reason: Option<Reason>)
    requires id < |s.flows| && s.flows[id].txn.Some? && !s.flows[id].txn.value.done
    ensures var d := DetachedState(s, id); var e := RunTeardown(d, id);
      && Finish(s, id, response, uri, reason) == Concluded(e, id, response, uri, reason)
      && FinishTrace(s, id, response, uri, reason) ==
        DetachTrace(s, id) + TeardownTrace(d, id) + ConcludeTrace(e, id, response, uri, reason)
  {}

  function DecisionTrace(s: State, id: Id, uri: Option<string>, matched: bool): seq<State>
    requires id < |s.flows|
  {
    [s] + if matched then CallbackTrace(s, id, Completed, uri, None) else []
  }

  function NavigationDecided(s: State, id: Id, uri: Option<string>, matched: bool): State
    requires Receives(s, id)
  {
    var s1 := Emit(s, Asked(id, uri, true));
    if matched then Emit(FinishFor(s1, id, Completed, uri, None), Blocked(id, uri))
    else
      var w := s.flows[id].session.value;
      Emit(SetSession(s1, id, w.(pendingHost := Completion.HostOf(uri))), LetThrough(id, uri))
  }

  lemma NavigationByTest(s: State, id: Id, uri: Option<string>)
    requires Receives(s, id)
    ensures OnNavigation(s, id, uri) == NavigationDecided(s, id, uri, CompletesOn(s.flows[id], uri))
  {}

  function ResponseDecided(s: State, id: Id, uri: Option<string>, supported: bool, matched: bool): State
    requires Receives(s, id)
  {
    var s1 := Emit(s, Asked(id, uri, false));
    if matched then Emit(FinishFor(s1, id, Completed, uri, None), Blocked(id, uri))
    else Emit(s1, if supported then LetThrough(id, uri) else Blocked(id, uri))
  }

  lemma ResponseByTest(s: State, id: Id, uri: Option<string>, supported: bool)
    requires Receives(s, id)
    ensures OnResponse(s, id, uri, supported) == ResponseDecided(s, id, uri, supported, CompletesOn(s.flows[id], uri))
  {}
}
