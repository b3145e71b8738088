/** Runs of the main loop: sequences of events, each dispatched to the end before the next. */
module LifecycleRuns {
  import opened Wrappers
  import Completion
  import opened Lifecycle
  import opened LifecycleSafety
  import opened LifecycleEvents
  import opened LifecycleStart
  import opened LifecycleDispatch
  import opened LifecycleClose
  import opened LifecycleEngine

  /** The states inside finish, when a callback calls it. */
  function CallbackTrace(s: State, id: Id, response: Response, uri: Option<string>, reason: Option<Reason>): seq<State>
    requires id < |s.flows|
  {
    if HasTransaction(s.flows[id]) then FinishTrace(s, id, response, uri, reason) else []
  }

  predicate IgnoresFailure(f: Flow, cancelled: bool)
    requires f.session.Some?
  {
    !HasTransaction(f) || f.txn.value.done || (cancelled && f.session.value.pendingReason.None?)
  }

  /** The states a session's callback passes through before its last one. */
  function EngineInside(s: State, e: Event): seq<State>
    requires IsEngineEvent(e)
    requires Receives(s, e.id)
  {
    var f := s.flows[e.id];
    match e
    case UserCancels(id) => CallbackTrace(s, id, Cancelled, None, Some(UserCancelled))
    case Navigation(id, uri) =>
      var s1 := Emit(s, Asked(id, uri, true));
      [s1] + if CompletesOn(f, uri) then CallbackTrace(s1, id, Completed, uri, None) else []
    case ResponseDecision(id, uri, _) =>
      var s1 := Emit(s, Asked(id, uri, false));
      [s1] + if CompletesOn(f, uri) then CallbackTrace(s1, id, Completed, uri, None) else []
    case LoadFails(id, cancelled) =>
      if IgnoresFailure(f, cancelled) then []
      else CallbackTrace(s, id, Other, None, Some(FailureReason(f.session.value)))
    case TlsFails(id) => CallbackTrace(s, id, Other, None, Some(TlsError))
    case ProcessGone(id) => CallbackTrace(s, id, Other, None, Some(SessionTerminated))
    case _ => []
  }

  function FiringTrace(s: State, id: Id): seq<State>
    requires TimerDue(s, id)
  {
    if s.flows[id].txn.None? then []
    else
      var s1 := Put(s, id, DisarmedByFiring(s.flows[id]));
      [s1] + FinishTrace(s1, id, Other, None, Some(Timeout))
  }

  /** The states the process passes through while it handles an event. */
  function Inside(s: State, e: Event): seq<State>
    requires InRange(s)
  {
    match e
    case StartReceived(c) => StartTrace(s, c)
    case CloseReceived(c) => CloseTrace(s, c)
    case FrontendAppeared(_) => []
    case FrontendVanished => [s.(owner := None)] + CancelAllTrace(s.(owner := None), SessionTerminated)
    case Shutdown => CancelAllTrace(s, SessionTerminated)
    case ClockTicks => []
    case DeadlineFires(id) => if TimerDue(s, id) then FiringTrace(s, id) else []
    case _ => if Receives(s, e.id) then EngineInside(s, e) + [DispatchEngine(s, e)] else []
  }

  lemma EndingCallback(s: State, id: Id, before: seq<Entry>, response: Response, uri: Option<string>, reason: Option<Reason>)
    requires Idle(s) && Receives(s, id)
    ensures var s1 := s.(log := s.log + before);
      Safe(s1) && AllSafe(CallbackTrace(s1, id, response, uri, reason))
  {
    var s1 := s.(log := s.log + before);
    IdleElsewhere(s, s1);
    ReceivesIsLive(s1, id);
    FinishIdle(s1, id, response, uri, reason);
  }

  lemma NavigationSafe(s: State, id: Id, uri: Option<string>)
    requires Idle(s) && Receives(s, id)
    ensures AllSafe(EngineInside(s, Navigation(id, uri))) && Idle(OnNavigation(s, id, uri))
  {
    hide FinishTrace;
    EndingCallback(s, id, [Asked(id, uri, true)], Completed, uri, None);
    NavigationEffect(s, id, uri);
    var s1 := Emit(s, Asked(id, uri, true));
    assert AllSafe([s1]);
    AllSafeJoin([s1], CallbackTrace(s1, id, Completed, uri, None));
  }

  lemma ResponseSafe(s: State, id: Id, uri: Option<string>, supported: bool)
    requires Idle(s) && Receives(s, id)
    ensures AllSafe(EngineInside(s, ResponseDecision(id, uri, supported))) && Idle(OnResponse(s, id, uri, supported))
  {
    hide FinishTrace;
    EndingCallback(s, id, [Asked(id, uri, false)], Completed, uri, None);
    ResponseEffect(s, id, uri, supported);
    var s1 := Emit(s, Asked(id, uri, false));
    assert AllSafe([s1]);
    AllSafeJoin([s1], CallbackTrace(s1, id, Completed, uri, None));
  }

  lemma LoadFailsSafe(s: State, id: Id, cancelled: bool)
    requires Idle(s) && Receives(s, id)
    ensures AllSafe(EngineInside(s, LoadFails(id, cancelled))) && Idle(OnLoadFailed(s, id, cancelled))
  {
    CallbackSafe(s, id, Other, None, Some(FailureReason(s.flows[id].session.value)));
    LoadFailedEffect(s, id, cancelled);
  }

  lemma CallbackSafe(s: State, id: Id, response: Response, uri: Option<string>, reason: Option<Reason>)
    requires Idle(s) && Receives(s, id)
    ensures AllSafe(CallbackTrace(s, id, response, uri, reason))
  {
    ReceivesIsLive(s, id);
    FinishIdle(s, id, response, uri, reason);
  }

  lemma EngineSafe(s: State, e: Event)
    requires Idle(s) && IsEngineEvent(e) && Receives(s, e.id)
    ensures AllSafe(EngineInside(s, e)) && Idle(DispatchEngine(s, e))
  {
    hide OnNavigation, OnResponse, OnLoadFailed, OnAuthenticate, FinishTrace, FinishFor;
    match e
    case UserCancels(id) => EndsAtOnce(s, id, Cancelled, UserCancelled);
    case Navigation(id, uri) => NavigationSafe(s, id, uri);
    case ResponseDecision(id, uri, supported) => ResponseSafe(s, id, uri, supported);
    case NewWindow(id, uri) => IdleElsewhere(s, Emit(s, Blocked(id, uri)));
    case LoadChanged(id, phase, uri) => LoadEffect(s, id, phase, uri);
    case LoadFails(id, cancelled) => LoadFailsSafe(s, id, cancelled);
    case TlsFails(id) => EndsAtOnce(s, id, Other, TlsError);
    case ProcessGone(id) => EndsAtOnce(s, id, Other, SessionTerminated);
    case Authenticate(id, challenge) => AuthenticateIdle(s, id, challenge);
  }

  lemma CallbackIsSafe(s: State, e: Event)
    requires Idle(s) && IsEngineEvent(e) && Receives(s, e.id)
    ensures AllSafe(EngineInside(s, e) + [DispatchEngine(s, e)]) && Idle(DispatchEngine(s, e))
  {
    hide EngineInside, DispatchEngine;
    EngineSafe(s, e);
    AllSafeJoin(EngineInside(s, e), [DispatchEngine(s, e)]);
  }

  /** One event: idle to idle, and safe throughout. */
  lemma DispatchSafe(s: State, e: Event)
    requires Idle(s)
    ensures AllSafe(Inside(s, e)) && Idle(Dispatch(s, e))
  {
    hide EngineInside, DispatchEngine, HandleStart, HandleClose, CancelAll, StartTrace, CloseTrace, CancelAllTrace, FinishTrace, OnDeadline;
    match e
    case StartReceived(c) => StartIdle(s, c);
    case CloseReceived(c) => CloseIdle(s, c);
    case FrontendAppeared(owner) => IdleElsewhere(s, s.(owner := Some(owner)));
    case FrontendVanished =>
      var s1 := s.(owner := None);
      IdleElsewhere(s, s1);
      CancelAllEmpties(s1, SessionTerminated);
      CancelAllTraceSafe(s1, SessionTerminated);
      AllSafeJoin([s1], CancelAllTrace(s1, SessionTerminated));
    case Shutdown =>
      CancelAllEmpties(s, SessionTerminated);
      CancelAllTraceSafe(s, SessionTerminated);
    case ClockTicks => IdleElsewhere(s, Tick(s));
    case DeadlineFires(id) =>
      if TimerDue(s, id) {
        DeadlineEffect(s, id);
        var s1 := Put(s, id, DisarmedByFiring(s.flows[id]));
        AllSafeJoin([s1], FinishTrace(s1, id, Other, None, Some(Timeout)));
      }
    case _ =>
      if Receives(s, e.id) {
        CallbackIsSafe(s, e);
      }
  }

  // ---------- The states inside an event lead to its result ----------

  predicate EndsAt(trace: seq<State>, z: State) { trace != [] && trace[|trace| - 1] == z }

  lemma EndsAfter(a: seq<State>, b: seq<State>, z: State)
    requires EndsAt(b, z)
    ensures EndsAt(a + b, z)
  {}

  lemma FinishTraceEnds(s: State, id: Id, response: Response, uri: Option<string>, reason: Option<Reason>)
    requires id < |s.flows|
    ensures EndsAt(FinishTrace(s, id, response, uri, reason), Finish(s, id, response, uri, reason))
  {}

  lemma {:induction false} ReleaseAllTraceEnds(s: State, ids: seq<Id>)
    requires ids != [] && forall i :: 0 <= i < |ids| ==> ids[i] < |s.flows|
    ensures EndsAt(ReleaseAllTrace(s, ids), ReleaseAll(s, ids))
    decreases |ids|
  {
    hide Release;
    if |ids| > 1 {
      ReleaseAllTraceEnds(Apply(s, ids[0], Release), ids[1..]);
    }
  }

  lemma CancelAllTraceEnds(s: State, reason: Reason)
    requires ListInRange(s)
    ensures s.list != [] ==> EndsAt(CancelAllTrace(s, reason), CancelAll(s, reason))
    ensures s.list == [] ==> CancelAllTrace(s, reason) == [] && CancelAll(s, reason) == s
  {
    hide EndsAt;
    var s1 := HoldAll(s, s.list);
    var s2 := FinishAll(s1, s.list, reason);
    if s.list != [] {
      ReleaseAllTraceEnds(s2, s.list);
      EndsAfter(HoldAllTrace(s, s.list) + FinishAllTrace(s1, s.list, reason), ReleaseAllTrace(s2, s.list), ReleaseAll(s2, s.list));
    }
  }

  lemma AcceptTraceEnds(s: State, args: StartArgs, exportOk: bool, storeOk: bool, provider: Option<Provider>)
    ensures EndsAt(AcceptTrace(s, args, exportOk, storeOk, provider), Accept(s, args, exportOk, storeOk, provider))
  {
    hide OpenSession, OpenTrace, Export, NewTransaction, NewSlot, JoinList, Release, ReleaseRequest;
  }

  lemma StartTraceEnds(s: State, c: StartCall)
    ensures EndsAt(StartTrace(s, c), HandleStart(s, c))
  {
    hide Accept, AcceptTrace, EndsAt, Validated, SenderCheck;
    var v := Validated(c);
    var (s1, accepted) := SenderCheck(CountInvocation(s), c.sender, c.first, c.second);
    if accepted && v.Some? {
      var args := ArgsOf(c, s.invocations, v.value);
      AcceptTraceEnds(s1, args, c.exportOk, c.storeOk, c.provider);
      EndsAfter([s1], AcceptTrace(s1, args, c.exportOk, c.storeOk, c.provider), Accept(s1, args, c.exportOk, c.storeOk, c.provider));
    } else {
      EndsInPair(s1, Admit(s1, s.invocations, accepted, c, v));
    }
  }

  lemma EndsInPair(s: State, z: State)
    ensures EndsAt([s, z], z)
  {}

  lemma CloseTraceEnds(s: State, c: CloseCall)
    requires RegistryInRange(s)
    ensures EndsAt(CloseTrace(s, c), HandleClose(s, c))
  {
    hide OnRequestClose, DefaultClose, OnCloseTrace, DefaultCloseTrace;
  }

  lemma FiringTraceEnds(s: State, id: Id)
    requires TimerDue(s, id)
    ensures s.flows[id].txn.Some? ==> EndsAt(FiringTrace(s, id), OnDeadline(s, id))
  {
    hide Finish, FinishTrace;
    if s.flows[id].txn.Some? {
      FinishTraceEnds(Put(s, id, DisarmedByFiring(s.flows[id])), id, Other, None, Some(Timeout));
    }
  }

  /** The states listed for an event, if any, end in the state after it. */
  lemma InsideEnds(s: State, e: Event)
    requires InRange(s) && Inside(s, e) != []
    ensures EndsAt(Inside(s, e), Dispatch(s, e))
  {
    hide HandleStart, StartTrace, HandleClose, CloseTrace, CancelAll, CancelAllTrace, OnDeadline, EngineInside, DispatchEngine;
    match e
    case StartReceived(c) => StartTraceEnds(s, c);
    case CloseReceived(c) => CloseTraceEnds(s, c);
    case FrontendAppeared(_) =>
    case FrontendVanished => CancelAllTraceEnds(s.(owner := None), SessionTerminated);
    case Shutdown => CancelAllTraceEnds(s, SessionTerminated);
    case ClockTicks =>
    case DeadlineFires(id) => FiringTraceEnds(s, id);
    case _ =>
  }

  lemma CloseIdle(s: State, c: CloseCall)
    requires Idle(s)
    ensures AllSafe(CloseTrace(s, c)) && Idle(HandleClose(s, c))
  {
    if c.path in s.registry {
      if SenderCheck(s, c.sender, c.first, c.second).1 {
        CloseAccepted(s, c);
      } else {
        CloseRefused(s, c);
      }
    }
  }

  // ---------- Runs ----------

  lemma InitialIsIdle()
    ensures Idle(InitialState())
  {}

  /** The state after a sequence of events. */
  ghost function Run(s: State, events: seq<Event>): (r: State)
    requires Idle(s)
    ensures Idle(r)
    decreases |events|
  {
    if events == [] then s
    else
      DispatchSafe(s, events[0]);
      Run(Dispatch(s, events[0]), events[1..])
  }

  /** Every state of a run, those between events and those inside them. */
  ghost function Moments(s: State, events: seq<Event>): seq<State>
    requires Idle(s)
    decreases |events|
  {
    if events == [] then [s]
    else
      DispatchSafe(s, events[0]);
      [s] + Inside(s, events[0]) + Moments(Dispatch(s, events[0]), events[1..])
  }

  /**
    At every moment of every run - between events, inside finish while its hooks
    run, and while the list is being drained - reference counts equal the number
    of holders, and no timer, handler, slot, session, list entry or registry entry
    points at a freed object.
   */
  lemma {:induction false} EveryMomentIsSafe(s: State, events: seq<Event>)
    requires Idle(s)
    ensures AllSafe(Moments(s, events))
    decreases |events|
  {
    if events != [] {
      DispatchSafe(s, events[0]);
      var rest := Moments(Dispatch(s, events[0]), events[1..]);
      EveryMomentIsSafe(Dispatch(s, events[0]), events[1..]);
      AllSafeJoin([s], Inside(s, events[0]));
      AllSafeJoin([s] + Inside(s, events[0]), rest);
    }
  }

  lemma EveryRunIsSafe(events: seq<Event>)
    ensures Idle(InitialState()) && AllSafe(Moments(InitialState(), events))
  {
    InitialIsIdle();
    EveryMomentIsSafe(InitialState(), events);
  }
}
