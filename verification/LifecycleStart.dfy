/** Accepting a flow, stage by stage: its Request, its export, its transaction, its list entry and its session. */
module LifecycleStart {
  import opened Wrappers
  import Completion
  import Storage
  import opened Lifecycle
  import opened LifecycleSafety
  import opened LifecycleEvents

  /** All flows but one are settled. */
  ghost predicate Opening(s: State, id: Id) {
    && Safe(s) && PinHasOwner(s) && id < |s.flows|
    && forall k :: 0 <= k < |s.flows| && k != id ==> Settled(s, k)
  }

  lemma OpeningWith(s: State, id: Id, f: Flow, log: seq<Entry>)
    requires Opening(s, id)
    requires UsesPkcs11(s.flows[id]) ==> UsesPkcs11(f)
    requires FlowSafe(f, Count(s, id))
    requires f.start.path == s.flows[id].start.path && IsExported(f) == IsExported(s.flows[id])
    ensures Opening(With(s, id, f, log, s.pin), id)
  {
    var r := With(s, id, f, log, s.pin);
    WithSafe(s, id, f, log, s.pin);
    forall k | 0 <= k < |r.flows| && k != id
      ensures Settled(r, k)
    {
      assert Settled(s, k) && r.flows[k] == s.flows[k] && Count(r, k) == Count(s, k);
    }
    if r.pin.Some? {
      var k :| 0 <= k < |s.flows| && UsesPkcs11(s.flows[k]);
      assert UsesPkcs11(r.flows[k]);
    }
  }

  // ---------- New Request, export, transaction, slot, list ----------

  function Requested(args: StartArgs): Flow {
    Flow(args, None, Some(Request(1, false, false, false)), None, false, None, 0, 1, false)
  }

  lemma NewRequestOpens(s: State, args: StartArgs)
    requires Steady(s)
    ensures var r := NewRequest(s, args); var id := |s.flows|;
      && Opening(r, id) && Steady(r) && Count(r, id) == 0 && r.flows[id] == Requested(args)
  {
    var r, id := NewRequest(s, args), |s.flows|;
    assert Count(r, id) == 0 by {
      CountIn(s.list, id);
    }
    forall k | 0 <= k < |r.flows|
      ensures FlowSafe(r.flows[k], Count(r, k)) && Settled(r, k)
    {
      if k < id {
        assert Settled(s, k) && r.flows[k] == s.flows[k] && Count(r, k) == Count(s, k);
      }
    }
    NewRequestRegistry(s, r, args);
    if r.pin.Some? {
      var k :| 0 <= k < |s.flows| && UsesPkcs11(s.flows[k]);
      assert UsesPkcs11(r.flows[k]);
    }
  }

  lemma NewRequestRegistry(s: State, r: State, args: StartArgs)
    requires InRange(s) && RegistrySafe(s) && r == s.(flows := s.flows + [Requested(args)])
    ensures InRange(r) && RegistrySafe(r)
  {
    forall k | 0 <= k < |r.flows| && IsExported(r.flows[k])
      ensures r.flows[k].start.path in r.registry && r.registry[r.flows[k].start.path] == k
    {
      assert k < |s.flows| && r.flows[k] == s.flows[k];
    }
  }

  function Exported(f: Flow): Flow
    requires f.request.Some?
  {
    f.(request := Some(f.request.value.(refCount := f.request.value.refCount + 1, exported := true)))
  }

  lemma ExportOpens(s: State, id: Id)
    requires Opening(s, id) && s.flows[id] == Requested(s.flows[id].start) && Count(s, id) == 0
    requires s.flows[id].start.path !in s.registry
    ensures var r := Export(s, id);
      Opening(r, id) && r.flows[id] == Exported(s.flows[id]) && Count(r, id) == 0
  {
    var r := Export(s, id);
    assert r.flows == s.flows[id := Exported(s.flows[id])];
    forall k | 0 <= k < |r.flows|
      ensures FlowSafe(r.flows[k], Count(r, k)) && (k != id ==> Settled(r, k))
    {
      assert Count(r, k) == Count(s, k);
      assert k != id ==> Settled(s, k) && r.flows[k] == s.flows[k];
    }
    ExportRegistry(s, r, id);
    if r.pin.Some? {
      var k :| 0 <= k < |s.flows| && UsesPkcs11(s.flows[k]);
      assert k != id && UsesPkcs11(r.flows[k]);
    }
  }

  lemma ExportRegistry(s: State, r: State, id: Id)
    requires InRange(s) && RegistrySafe(s) && id < |s.flows| && s.flows[id].request.Some?
    requires s.flows[id].start.path !in s.registry
    requires r == Export(s, id)
    ensures InRange(r) && RegistrySafe(r)
  {
    var path := s.flows[id].start.path;
    forall k | 0 <= k < |r.flows| && IsExported(r.flows[k])
      ensures r.flows[k].start.path in r.registry && r.registry[r.flows[k].start.path] == k
    {
      if k != id {
        assert r.flows[k] == s.flows[k];
        assert r.flows[k].start.path in s.registry;
      }
    }
    forall p | p in r.registry
      ensures r.registry[p] < |r.flows| && IsExported(r.flows[r.registry[p]]) && r.flows[r.registry[p]].start.path == p
    {
      if p != path {
        assert p in s.registry && s.flows[s.registry[p]].start.path == p;
        assert s.registry[p] != id;
      }
    }
  }

  lemma AppendCounts(s: State, id: Id)
    ensures forall k :: multiset(s.list + [id])[k] == Count(s, k) + One(k == id)
  {
    assert multiset(s.list + [id]) == multiset(s.list) + multiset{id};
  }

  lemma JoinListOpens(s: State, id: Id)
    requires Opening(s, id) && Count(s, id) == 0 && s.flows[id].txn.Some?
    ensures var r := JoinList(s, id);
      Opening(r, id) && Count(r, id) == 1 && r.flows[id] == Ref(s.flows[id])
  {
    var f := Ref(s.flows[id]);
    AppendCounts(s, id);
    var r := JoinList(s, id);
    assert FlowSafe(f, 1) && IsExported(f) == IsExported(s.flows[id]) && f.start == s.flows[id].start;
    JoinListAgain(s, r, id, f);
  }

  lemma JoinListAgain(s: State, r: State, id: Id, f: Flow)
    requires Opening(s, id) && FlowSafe(f, 1)
    requires IsExported(f) == IsExported(s.flows[id]) && f.start == s.flows[id].start && f.session == s.flows[id].session
    requires r == s.(flows := s.flows[id := f], list := s.list + [id])
    requires forall k :: Count(r, k) == Count(s, k) + One(k == id)
    requires Count(s, id) == 0
    ensures Opening(r, id)
  {
    JoinListRegistry(s, r, id, f);
    forall k | 0 <= k < |r.flows|
      ensures FlowSafe(r.flows[k], Count(r, k)) && (k != id ==> Settled(r, k))
    {
      if k != id {
        assert Settled(s, k) && r.flows[k] == s.flows[k] && Count(r, k) == Count(s, k);
      }
    }
    if r.pin.Some? {
      var k :| 0 <= k < |s.flows| && UsesPkcs11(s.flows[k]);
      assert UsesPkcs11(r.flows[k]);
    }
  }

  lemma JoinListRegistry(s: State, r: State, id: Id, f: Flow)
    requires InRange(s) && RegistrySafe(s) && id < |s.flows|
    requires IsExported(f) == IsExported(s.flows[id]) && f.start == s.flows[id].start
    requires r == s.(flows := s.flows[id := f], list := s.list + [id])
    ensures InRange(r) && RegistrySafe(r)
  {}

  /** A flow that has joined the list and has no session yet. */
  function Listed(args: StartArgs): Flow {
    Flow(args,
         Some(Transaction(2, Some(args.invocation), args.startUri, args.completionUri, args.timeout,
                          false, false, true, true, false)),
         Some(Request(3, true, true, false)), None, true, None, 1, 1, false)
  }

  lemma AcceptToList(s: State, args: StartArgs)
    requires Steady(s) && args.path !in s.registry
    ensures var id := |s.flows|;
      var s1 := NewRequest(s, args); var s2 := Export(s1, id);
      var s3 := Apply(s2, id, NewTransaction); var s4 := Apply(s3, id, NewSlot); var s5 := JoinList(s4, id);
      && AllSafe([s1, s2, s3, s4, s5]) && Opening(s5, id) && Count(s5, id) == 1
      && s5 == s.(flows := s.flows + [Listed(args)], list := s.list + [id], registry := s.registry[args.path := id])
  {
    hide FlowSafe, Live, Gone, RegistrySafe;
    var id := |s.flows|;
    NewRequestOpens(s, args);
    var s1 := NewRequest(s, args);
    ExportOpens(s1, id);
    var s2 := Export(s1, id);
    var f3 := NewTransaction(s2.flows[id]);
    OpeningWith(s2, id, f3, s2.log);
    var s3 := Apply(s2, id, NewTransaction);
    assert s3 == With(s2, id, f3, s2.log, s2.pin);
    assert Count(s3, id) == 0;
    var f4 := NewSlot(f3);
    OpeningWith(s3, id, f4, s3.log);
    var s4 := Apply(s3, id, NewSlot);
    assert s4 == With(s3, id, f4, s3.log, s3.pin);
    assert Count(s4, id) == 0;
    JoinListOpens(s4, id);
    var s5 := JoinList(s4, id);
    assert s5.flows == s.flows + [Listed(args)];
  }

  // ---------- The session ----------

  /** The flow of a presented window, still referenced by the frame of handle_start. */
  function Presented(args: StartArgs, provider: Option<Provider>, now: nat): Flow {
    var host := Completion.HostOf(Some(args.startUri));
    Listed(args).(
      txn := Some(Listed(args).txn.value.(refCount := 3, teardown := true, deadlineId := true)),
      session := Some(Session(true, provider, host, None, None, false)),
      timer := Some(now + args.timeout))
  }

  function OpenTrace(s: State, id: Id, storeOk: bool, provider: Option<Provider>): seq<State>
    requires id < |s.flows|
  {
    var args := s.flows[id].start;
    var s1 := Apply(s, id, NewSession);
    if !StoreBuilds(args, storeOk) then
      var s2 := Apply(s1, id, AbandonSession);
      [s1, s2] + FinishTrace(s2, id, Other, None, Some(NoStorage))
    else
      var s2 := if args.mode == Storage.Shared then Emit(s1, StoreOpened(id, StoreName(args).value)) else s1;
      var s3 := Put(s2, id, EquipSession(s2.flows[id], provider));
      [s1, s2, s3, Present(s3, id)]
  }

  lemma NewSessionOpens(s: State, id: Id)
    requires Opening(s, id) && Count(s, id) == 1 && s.flows[id] == Listed(s.flows[id].start)
    ensures var s1 := Apply(s, id, NewSession);
      && Opening(s1, id) && s1 == With(s, id, NewSession(s.flows[id]), s.log, s.pin)
      && Apply(s1, id, AbandonSession) == s
  {
    var f := s.flows[id];
    var f1 := NewSession(f);
    OpeningWith(s, id, f1, s.log);
    var s1 := Apply(s, id, NewSession);
    assert s1 == With(s, id, f1, s.log, s.pin);
    var s2 := Apply(s1, id, AbandonSession);
    assert AbandonSession(f1) == f;
    assert s2.flows == s.flows;
  }

  lemma OpenFails(s: State, id: Id, storeOk: bool, provider: Option<Provider>)
    requires Opening(s, id) && Count(s, id) == 1 && s.flows[id] == Listed(s.flows[id].start)
    requires !StoreBuilds(s.flows[id].start, storeOk)
    ensures AllSafe(OpenTrace(s, id, storeOk, provider))
    ensures OpenSession(s, id, storeOk, provider) == EndedState(s, id, Other, None, Some(NoStorage))
    ensures Steady(OpenSession(s, id, storeOk, provider))
  {
    hide Finish, FinishTrace, Safe, PinHasOwner;
    NewSessionOpens(s, id);
    FinishSteady(s, id, Other, None, Some(NoStorage));
    FinishSafe(s, id, Other, None, Some(NoStorage));
    var s1 := Apply(s, id, NewSession);
    assert AllSafe([s1, s]);
    AllSafeJoin([s1, s], FinishTrace(s, id, Other, None, Some(NoStorage)));
  }

  lemma PresentedSafe(args: StartArgs, provider: Option<Provider>, now: nat)
    requires args.timeout > 0
    ensures FlowSafe(Presented(args, provider, now), 1) && Live(Presented(args, provider, now), 1)
    ensures var f1 := NewSession(Listed(args)); var f3 := EquipSession(f1, provider);
      && FlowSafe(f1, 1) && FlowSafe(f3, 1) && IsExported(f1) && IsExported(f3)
      && StartDeadline(f3.(session := Some(f3.session.value.(pendingHost := Completion.HostOf(Some(args.startUri))))), now)
        == Presented(args, provider, now)
  {
    hide Completion.HostOf;
  }

  /** The log once the store, if any, was opened. */
  function StoreLog(args: StartArgs, id: Id, log: seq<Entry>): seq<Entry> {
    if args.mode == Storage.Shared && StoreName(args).Some? then log + [StoreOpened(id, StoreName(args).value)] else log
  }

  function Equipped(args: StartArgs, provider: Option<Provider>): Flow {
    EquipSession(NewSession(Listed(args)), provider)
  }

  lemma OpenStages(s: State, id: Id, provider: Option<Provider>)
    requires Opening(s, id) && Count(s, id) == 1 && s.flows[id] == Listed(s.flows[id].start)
    requires s.flows[id].start.timeout > 0
    ensures var args := s.flows[id].start; var log := StoreLog(args, id, s.log);
      && Safe(With(s, id, NewSession(Listed(args)), log, s.pin))
      && Safe(With(s, id, Equipped(args, provider), log, s.pin))
      && Opening(With(s, id, Presented(args, provider, s.now), log + [Opened(id, s.now)], s.pin), id)
      && Present(With(s, id, Equipped(args, provider), log, s.pin), id)
         == With(s, id, Presented(args, provider, s.now), log + [Opened(id, s.now)], s.pin)
  {
    var args := s.flows[id].start;
    var log := StoreLog(args, id, s.log);
    PresentedSafe(args, provider, s.now);
    OpeningWith(s, id, NewSession(Listed(args)), log);
    OpeningWith(s, id, Equipped(args, provider), log);
    OpeningWith(s, id, Presented(args, provider, s.now), log + [Opened(id, s.now)]);
    WithAgain(s, id, Equipped(args, provider), log, s.pin, Presented(args, provider, s.now), log + [Opened(id, s.now)], s.pin);
  }

  lemma OpenSucceeds(s: State, id: Id, storeOk: bool, provider: Option<Provider>)
    requires Opening(s, id) && Count(s, id) == 1 && s.flows[id] == Listed(s.flows[id].start)
    requires s.flows[id].start.timeout > 0
    requires StoreBuilds(s.flows[id].start, storeOk)
    ensures AllSafe(OpenTrace(s, id, storeOk, provider))
    ensures var args := s.flows[id].start;
      OpenSession(s, id, storeOk, provider) ==
        With(s, id, Presented(args, provider, s.now), StoreLog(args, id, s.log) + [Opened(id, s.now)], s.pin)
    ensures Steady(OpenSession(s, id, storeOk, provider))
  {
    hide FlowSafe, RegistrySafe, Live, Present, EquipSession, NewSession, Presented;
    var args := s.flows[id].start;
    var log := StoreLog(args, id, s.log);
    NewSessionOpens(s, id);
    OpenStages(s, id, provider);
    var s1 := Apply(s, id, NewSession);
    var s2 := if args.mode == Storage.Shared then Emit(s1, StoreOpened(id, StoreName(args).value)) else s1;
    assert s2 == With(s, id, NewSession(Listed(args)), log, s.pin);
    var s3 := Put(s2, id, EquipSession(s2.flows[id], provider));
    WithAgain(s, id, NewSession(Listed(args)), log, s.pin, Equipped(args, provider), log, s.pin);
    var s4 := Present(s3, id);
    OpeningSettles(s4, id, Presented(args, provider, s.now), args, provider, s.now);
  }

  lemma OpeningSettles(s: State, id: Id, f: Flow, args: StartArgs, provider: Option<Provider>, now: nat)
    requires Opening(s, id) && s.flows[id] == f == Presented(args, provider, now) && Count(s, id) == 1
    requires args.timeout > 0
    ensures Steady(s)
  {
    PresentedSafe(args, provider, now);
    assert Settled(s, id);
  }
}
