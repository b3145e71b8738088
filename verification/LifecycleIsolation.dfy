/**
  What one event does to one flow.  Once their windows are up, flows share the PIN
  buffer, the owner cache and the clock, and nothing else; which flows an event
  ends follows from the flow and these three alone.
 */
module LifecycleIsolation {
  import opened Wrappers
  import Completion
  import opened Lifecycle
  import opened LifecycleSafety
  import opened LifecycleEvents
  import opened LifecycleStart
  import opened LifecycleDispatch
  import opened LifecycleClose
  import opened LifecycleEngine
  import opened LifecycleRuns
  import opened LifecycleTheorems

  /** What flows share. */
  datatype Shared = Shared(owner: Option<string>, resolved: bool, pin: Option<string>, now: nat)

  function SharedOf(s: State): Shared { Shared(s.owner, s.resolved, s.pin, s.now) }

  /** A state in which only the shared parts matter. */
  function Only(shared: Shared): State {
    InitialState().(owner := shared.owner, resolved := shared.resolved, pin := shared.pin, now := shared.now)
  }

  /** The guard of each terminal event, read off the flow it may end. */
  predicate Ends(f: Flow, id: Id, shared: Shared, e: Event) {
    IsUp(f) &&
    match e
    case StartReceived(_) => false
    case CloseReceived(c) => c.path == f.start.path && SenderCheck(Only(shared), c.sender, c.first, c.second).1
    case FrontendAppeared(_) => false
    case FrontendVanished => true
    case Shutdown => true
    case UserCancels(k) => k == id
    case Navigation(k, uri) => k == id && CompletesOn(f, uri)
    case ResponseDecision(k, uri, _) => k == id && CompletesOn(f, uri)
    case NewWindow(_, _) => false
    case LoadChanged(_, _, _) => false
    case LoadFails(k, cancelled) => k == id && !(cancelled && f.session.value.pendingReason.None?)
    case TlsFails(k) => k == id
    case ProcessGone(k) => k == id
    case Authenticate(_, _) => false
    case DeadlineFires(k) => k == id && f.timer.Some? && f.timer.value <= shared.now
    case ClockTicks => false
  }

  function Declining(w: Session, cause: Reason): Session { w.(pendingReason := Some(cause)) }

  /** What a challenge does to the session it reaches. */
  function Challenged(w: Session, shared: Shared, challenge: Challenge): Session {
    match challenge
    case OtherScheme => w
    case PinRequested(file) =>
      if PinAfter(Only(shared), w.provider, file).None? then Declining(w, CredentialUnavailable) else w
    case CertificateRequested(host, acquired) =>
      if !ChallengeIsRelated(w, host) then Declining(w, UnrelatedCertificateChallenge)
      else if w.provider.None? || !acquired then Declining(w, CredentialUnavailable)
      else w
  }

  /** One event on one flow. */
  function FlowAfter(f: Flow, id: Id, shared: Shared, e: Event): Flow {
    if !IsUp(f) then f
    else if Ends(f, id, shared, e) then Discarded(f.start)
    else
      var w := f.session.value;
      match e
      case Navigation(k, uri) =>
        if k == id then f.(session := Some(w.(pendingHost := Completion.HostOf(uri)))) else f
      case LoadChanged(k, phase, uri) =>
        if k == id && phase != LoadFinished then f.(session := Some(w.(currentHost := Completion.HostOf(uri)))) else f
      case Authenticate(k, challenge) =>
        if k == id then f.(session := Some(Challenged(w, shared, challenge))) else f
      case _ => f
  }

  /** Ended flows are all alike. */
  lemma NotUpIsDiscarded(s: State, id: Id)
    requires Idle(s) && id < |s.flows|
    ensures IsUp(s.flows[id]) <==> Receives(s, id)
    ensures IsUp(s.flows[id]) <==> s.flows[id].start.path in s.registry && s.registry[s.flows[id].start.path] == id
    ensures !IsUp(s.flows[id]) ==> s.flows[id] == Discarded(s.flows[id].start)
    ensures UsesPkcs11(s.flows[id]) ==> IsUp(s.flows[id])
  {
    AllOrNothing(s, id);
    assert Settled(s, id) && NoFrames(s.flows[id]);
  }

  lemma EndsIsUp(f: Flow, id: Id, shared: Shared, e: Event)
    ensures Ends(f, id, shared, e) ==> IsUp(f) && FlowAfter(f, id, shared, e) == Discarded(f.start)
  {}

  // ---------- One event on all flows ----------

  /** What a step must do to every flow that was there. */
  predicate StepsTo(s: State, z: State, e: Event) {
    && |s.flows| <= |z.flows|
    && forall id :: 0 <= id < |s.flows| ==> z.flows[id] == FlowAfter(s.flows[id], id, SharedOf(s), e)
  }

  predicate TakesPin(s: State, e: Event, id: Id) {
    id < |s.flows| && UsesPkcs11(s.flows[id]) && Ends(s.flows[id], id, SharedOf(s), e)
  }

  /** A filled buffer is kept, unless a pkcs11 flow ends. */
  ghost predicate PinStep(s: State, z: State, e: Event) {
    s.pin.Some? ==> z.pin == if exists id :: TakesPin(s, e, id) then None else s.pin
  }

  /** The event is not about this flow. */
  predicate Untouched(s: State, e: Event, k: Id) {
    k < |s.flows| ==> !Ends(s.flows[k], k, SharedOf(s), e) && FlowAfter(s.flows[k], k, SharedOf(s), e) == s.flows[k]
  }

  /** One flow ends, and the event is about no other. */
  lemma OneEnds(s: State, z: State, id: Id, e: Event)
    requires id < |s.flows| && Ends(s.flows[id], id, SharedOf(s), e)
    requires forall k: Id :: k != id ==> Untouched(s, e, k)
    requires z.flows == s.flows[id := Discarded(s.flows[id].start)] && z.pin == EndedPin(s, s.flows[id])
    ensures StepsTo(s, z, e) && PinStep(s, z, e)
  {
    hide Ends, FlowAfter;
    EndsIsUp(s.flows[id], id, SharedOf(s), e);
    forall k: Id | k < |s.flows|
      ensures z.flows[k] == FlowAfter(s.flows[k], k, SharedOf(s), e) && (TakesPin(s, e, k) ==> k == id)
    {
      assert k != id ==> Untouched(s, e, k);
    }
    assert TakesPin(s, e, id) <==> UsesPkcs11(s.flows[id]);
  }

  /** No flow ends, at most one changes its session, and the buffer, if filled, stays. */
  lemma OneChanges(s: State, z: State, id: Id, e: Event)
    requires forall k: Id :: k != id ==> Untouched(s, e, k)
    requires id < |s.flows| ==> !Ends(s.flows[id], id, SharedOf(s), e)
    requires |s.flows| <= |z.flows| && (forall k :: 0 <= k < |s.flows| && k != id ==> z.flows[k] == s.flows[k])
    requires id < |s.flows| ==> z.flows[id] == FlowAfter(s.flows[id], id, SharedOf(s), e)
    requires s.pin.Some? ==> z.pin == s.pin
    ensures StepsTo(s, z, e) && PinStep(s, z, e)
  {
    hide Ends, FlowAfter;
    forall k: Id
      ensures !TakesPin(s, e, k) && (k < |s.flows| ==> z.flows[k] == FlowAfter(s.flows[k], k, SharedOf(s), e))
    {
      assert k != id ==> Untouched(s, e, k);
    }
  }

  /** A session's event is about that session's flow only. */
  lemma EngineIsAddressed(s: State, e: Event, k: Id)
    requires IsEngineEvent(e) && k != e.id
    ensures Untouched(s, e, k)
  {}

  lemma CallbackEndsFlow(s: State, z: State, id: Id, e: Event, entries: seq<Entry>)
    requires IsEngineEvent(e) && e.id == id < |s.flows| && Ends(s.flows[id], id, SharedOf(s), e)
    requires z == AfterEnd(s, id, entries)
    ensures StepsTo(s, z, e) && PinStep(s, z, e)
  {
    hide Untouched, Ends;
    forall k: Id | k != id
      ensures Untouched(s, e, k)
    {
      EngineIsAddressed(s, e, k);
    }
    OneEnds(s, z, id, e);
  }

  lemma CallbackKeepsFlow(s: State, z: State, id: Id, e: Event)
    requires IsEngineEvent(e) && e.id == id < |s.flows| && !Ends(s.flows[id], id, SharedOf(s), e)
    requires z.flows == s.flows[id := FlowAfter(s.flows[id], id, SharedOf(s), e)]
    requires s.pin.Some? ==> z.pin == s.pin
    ensures StepsTo(s, z, e) && PinStep(s, z, e)
  {
    hide Untouched, Ends, FlowAfter;
    forall k: Id | k != id
      ensures Untouched(s, e, k)
    {
      EngineIsAddressed(s, e, k);
    }
    OneChanges(s, z, id, e);
  }

  lemma NavigationStep(s: State, id: Id, uri: Option<string>)
    requires Idle(s) && Receives(s, id)
    ensures var z, e := OnNavigation(s, id, uri), Navigation(id, uri); StepsTo(s, z, e) && PinStep(s, z, e)
  {
    hide Idle, OnNavigation, CompletesOn, StepsTo, PinStep;
    var f, z, e := s.flows[id], OnNavigation(s, id, uri), Navigation(id, uri);
    NavigationEffect(s, id, uri);
    if CompletesOn(f, uri) {
      CallbackEndsFlow(s, z, id, e, [Asked(id, uri, true)] + EndEntries(f, id, Completed, uri, None) + [Blocked(id, uri)]);
    } else {
      CallbackKeepsFlow(s, z, id, e);
    }
  }

  lemma ResponseStep(s: State, id: Id, uri: Option<string>, supported: bool)
    requires Idle(s) && Receives(s, id)
    ensures var z, e := OnResponse(s, id, uri, supported), ResponseDecision(id, uri, supported); StepsTo(s, z, e) && PinStep(s, z, e)
  {
    hide Idle, OnResponse, CompletesOn, StepsTo, PinStep;
    var f, z, e := s.flows[id], OnResponse(s, id, uri, supported), ResponseDecision(id, uri, supported);
    ResponseEffect(s, id, uri, supported);
    if CompletesOn(f, uri) {
      CallbackEndsFlow(s, z, id, e, [Asked(id, uri, false)] + EndEntries(f, id, Completed, uri, None) + [Blocked(id, uri)]);
    } else {
      CallbackKeepsFlow(s, z, id, e);
    }
  }

  lemma LoadChangedStep(s: State, id: Id, phase: LoadPhase, uri: Option<string>)
    requires Idle(s) && Receives(s, id)
    ensures var z, e := OnLoadChanged(s, id, phase, uri), LoadChanged(id, phase, uri); StepsTo(s, z, e) && PinStep(s, z, e)
  {
    hide Idle, OnLoadChanged, StepsTo, PinStep;
    LoadEffect(s, id, phase, uri);
    CallbackKeepsFlow(s, OnLoadChanged(s, id, phase, uri), id, LoadChanged(id, phase, uri));
  }

  lemma LoadFailsStep(s: State, id: Id, cancelled: bool)
    requires Idle(s) && Receives(s, id)
    ensures var z, e := OnLoadFailed(s, id, cancelled), LoadFails(id, cancelled); StepsTo(s, z, e) && PinStep(s, z, e)
  {
    hide Idle, OnLoadFailed, StepsTo, PinStep;
    var f, z, e := s.flows[id], OnLoadFailed(s, id, cancelled), LoadFails(id, cancelled);
    LoadFailedEffect(s, id, cancelled);
    if cancelled && f.session.value.pendingReason.None? {
      CallbackKeepsFlow(s, z, id, e);
    } else {
      CallbackEndsFlow(s, z, id, e, EndEntries(f, id, Other, None, Some(FailureReason(f.session.value))));
    }
  }

  /** The user closes the window, a certificate is bad, or the web process is gone. */
  lemma AtOnceStep(s: State, id: Id, response: Response, reason: Reason, e: Event)
    requires Idle(s) && Receives(s, id)
    requires e == UserCancels(id) || e == TlsFails(id) || e == ProcessGone(id)
    ensures var z := FinishFor(s, id, response, None, Some(reason)); StepsTo(s, z, e) && PinStep(s, z, e)
  {
    hide Idle, FinishFor, StepsTo, PinStep, FinishTrace, Safe, AllSafe, Live, SharedOf;
    EndsAtOnce(s, id, response, reason);
    CallbackEndsFlow(s, FinishFor(s, id, response, None, Some(reason)), id, e,
                     EndEntries(s.flows[id], id, response, None, Some(reason)));
  }

  lemma NewWindowStep(s: State, id: Id, uri: Option<string>)
    requires Receives(s, id)
    ensures var z, e := Emit(s, Blocked(id, uri)), NewWindow(id, uri); StepsTo(s, z, e) && PinStep(s, z, e)
  {
    hide StepsTo, PinStep;
    CallbackKeepsFlow(s, Emit(s, Blocked(id, uri)), id, NewWindow(id, uri));
  }

  lemma ChallengeOnFlow(s: State, id: Id, challenge: Challenge)
    requires Receives(s, id)
    ensures var f, z := s.flows[id], OnAuthenticate(s, id, challenge);
      && z.flows == s.flows[id := f.(session := Some(Challenged(f.session.value, SharedOf(s), challenge)))]
      && (s.pin.Some? ==> z.pin == s.pin)
  {
    hide ChallengeIsRelated;
  }

  lemma AuthenticateStep(s: State, id: Id, challenge: Challenge)
    requires Receives(s, id)
    ensures var z, e := OnAuthenticate(s, id, challenge), Authenticate(id, challenge); StepsTo(s, z, e) && PinStep(s, z, e)
  {
    hide OnAuthenticate, Challenged, StepsTo, PinStep;
    ChallengeOnFlow(s, id, challenge);
    CallbackKeepsFlow(s, OnAuthenticate(s, id, challenge), id, Authenticate(id, challenge));
  }

  lemma EngineStep(s: State, e: Event)
    requires Idle(s) && IsEngineEvent(e) && Receives(s, e.id)
    ensures StepsTo(s, DispatchEngine(s, e), e) && PinStep(s, DispatchEngine(s, e), e)
  {
    hide Idle, Receives, StepsTo, PinStep, FinishFor, OnNavigation, OnResponse, OnLoadChanged, OnLoadFailed, OnAuthenticate;
    match e
    case UserCancels(id) => AtOnceStep(s, id, Cancelled, UserCancelled, e);
    case Navigation(id, uri) => NavigationStep(s, id, uri);
    case ResponseDecision(id, uri, supported) => ResponseStep(s, id, uri, supported);
    case NewWindow(id, uri) => NewWindowStep(s, id, uri);
    case LoadChanged(id, phase, uri) => LoadChangedStep(s, id, phase, uri);
    case LoadFails(id, cancelled) => LoadFailsStep(s, id, cancelled);
    case TlsFails(id) => AtOnceStep(s, id, Other, TlsError, e);
    case ProcessGone(id) => AtOnceStep(s, id, Other, SessionTerminated, e);
    case Authenticate(id, challenge) => AuthenticateStep(s, id, challenge);
  }

  /** An event that is about no flow: nothing happens to those that are there. */
  lemma NobodyStep(s: State, z: State, e: Event)
    requires forall k: Id :: Untouched(s, e, k)
    requires |s.flows| <= |z.flows| && (forall k :: 0 <= k < |s.flows| ==> z.flows[k] == s.flows[k])
    requires s.pin.Some? ==> z.pin == s.pin
    ensures StepsTo(s, z, e) && PinStep(s, z, e)
  {
    hide Untouched;
    OneChanges(s, z, |s.flows|, e);
  }

  lemma IgnoredStep(s: State, e: Event)
    requires Idle(s)
    requires IsEngineEvent(e) && !Receives(s, e.id)
    ensures StepsTo(s, s, e) && PinStep(s, s, e)
  {
    hide Idle, StepsTo, PinStep;
    forall k: Id
      ensures Untouched(s, e, k)
    {
      if k < |s.flows| {
        NotUpIsDiscarded(s, k);
      }
    }
    NobodyStep(s, s, e);
  }

  lemma AcceptStep(s: State, args: StartArgs, exportOk: bool, storeOk: bool, provider: Option<Provider>)
    requires Idle(s) && args.timeout > 0
    ensures var z := Accept(s, args, exportOk, storeOk, provider);
      z.pin == s.pin && |z.flows| == |s.flows| + 1 && z.flows[..|s.flows|] == s.flows
  {
    hide Idle, Accept, StoreBuilds, StoreLog;
    if !exportOk || args.path in s.registry {
      AcceptRefused(s, args, exportOk, storeOk, provider);
    } else if !StoreBuilds(args, storeOk) {
      AcceptFailed(s, args, storeOk, provider);
    } else {
      AcceptOpened(s, args, storeOk, provider);
    }
  }

  lemma StartKeeps(s: State, c: StartCall, validated: Option<Storage.Mode>)
    requires Idle(s)
    ensures var z := HandleChecked(s, c, validated);
      z.pin == s.pin && |s.flows| <= |z.flows| && z.flows[..|s.flows|] == s.flows
  {
    hide Idle, Accept;
    var (s1, accepted) := SenderCheck(CountInvocation(s), c.sender, c.first, c.second);
    SenderCheckLeavesItsAnswer(CountInvocation(s), c.sender, c.first, c.second);
    IdleElsewhere(s, s1);
    if accepted && validated.Some? {
      ClampedTimeout(c.timeout);
      AcceptStep(s1, ArgsOf(c, s.invocations, validated.value), c.exportOk, c.storeOk, c.provider);
    }
  }

  lemma StartStep(s: State, c: StartCall)
    requires Idle(s)
    ensures StepsTo(s, HandleStart(s, c), StartReceived(c)) && PinStep(s, HandleStart(s, c), StartReceived(c))
  {
    hide Idle, HandleChecked, HandleStart, Validated, StepsTo, PinStep;
    StartIsChecked(s, c);
    StartKeeps(s, c, Validated(c));
    var z := HandleStart(s, c);
    forall k | 0 <= k < |s.flows|
      ensures z.flows[k] == s.flows[k]
    {
      assert z.flows[..|s.flows|][k] == s.flows[k];
    }
    NobodyStep(s, z, StartReceived(c));
  }

  /** A Close is about the flow that owns its path, if the sender is the frontend. */
  lemma CloseIsAddressed(s: State, c: CloseCall, k: Id)
    requires Idle(s) && k < |s.flows|
    ensures Ends(s.flows[k], k, SharedOf(s), CloseReceived(c)) <==>
      c.path in s.registry && s.registry[c.path] == k && SenderCheck(s, c.sender, c.first, c.second).1
    ensures !Ends(s.flows[k], k, SharedOf(s), CloseReceived(c)) ==> Untouched(s, CloseReceived(c), k)
  {
    hide SenderCheck, Idle, InitialState;
    NotUpIsDiscarded(s, k);
    OnlyShares(s);
    SenderCheckReadsCache(s, Only(SharedOf(s)), c.sender, c.first, c.second);
    RegistryNames(s, c.path);
  }

  lemma RegistryNames(s: State, path: string)
    requires Idle(s)
    ensures path in s.registry ==> s.registry[path] < |s.flows| && s.flows[s.registry[path]].start.path == path
  {}

  lemma OnlyShares(s: State)
    ensures Only(SharedOf(s)).owner == s.owner && Only(SharedOf(s)).resolved == s.resolved
  {}

  lemma AcceptedCloseStep(s: State, c: CloseCall)
    requires Idle(s) && c.path in s.registry && SenderCheck(s, c.sender, c.first, c.second).1
    ensures var z, e := HandleClose(s, c), CloseReceived(c); StepsTo(s, z, e) && PinStep(s, z, e)
  {
    hide Ends, Untouched, StepsTo, PinStep, SenderCheck, Steady, HandleClose;
    IdleInRange(s);
    var id, z, e := s.registry[c.path], HandleClose(s, c), CloseReceived(c);
    RegistryNames(s, c.path);
    CloseAccepted(s, c);
    CloseIsAddressed(s, c, id);
    forall k: Id | k != id
      ensures Untouched(s, e, k)
    {
      CloseElsewhere(s, c, k);
    }
    OneEnds(s, z, id, e);
  }

  lemma CloseElsewhere(s: State, c: CloseCall, k: Id)
    requires Idle(s)
    requires c.path in s.registry && SenderCheck(s, c.sender, c.first, c.second).1 ==> k != s.registry[c.path]
    ensures Untouched(s, CloseReceived(c), k)
  {
    hide Idle, SenderCheck, Ends, FlowAfter;
    if k < |s.flows| {
      CloseIsAddressed(s, c, k);
    }
  }

  lemma CloseStep(s: State, c: CloseCall)
    requires Idle(s)
    ensures InRange(s)
    ensures var z, e := HandleClose(s, c), CloseReceived(c); StepsTo(s, z, e) && PinStep(s, z, e)
  {
    IdleInRange(s);
    hide Idle, Untouched, StepsTo, PinStep, SenderCheck;
    var z := HandleClose(s, c);
    if c.path in s.registry && SenderCheck(s, c.sender, c.first, c.second).1 {
      AcceptedCloseStep(s, c);
    } else {
      forall k: Id
        ensures Untouched(s, CloseReceived(c), k)
      {
        CloseElsewhere(s, c, k);
      }
      if c.path in s.registry {
        hide HandleClose;
        CloseRefused(s, c);
      }
      NobodyStep(s, z, CloseReceived(c));
    }
  }

  lemma DeadlineIsAddressed(s: State, id: Id)
    ensures forall k: Id :: k != id ==> Untouched(s, DeadlineFires(id), k)
  {}

  /** Only a due timer of a live flow fires. */
  lemma DeadlineStep(s: State, id: Id)
    requires Idle(s) && TimerDue(s, id)
    ensures var z, e := OnDeadline(s, id), DeadlineFires(id); StepsTo(s, z, e) && PinStep(s, z, e)
  {
    hide Idle, OnDeadline, StepsTo, PinStep, Untouched, FlowAfter, FinishTrace, Safe, AllSafe, EndEntries, DisarmedByFiring;
    AllOrNothing(s, id);
    DeadlineEffect(s, id);
    DeadlineIsAddressed(s, id);
    OneEnds(s, OnDeadline(s, id), id, DeadlineFires(id));
  }

  lemma NotDueStep(s: State, id: Id)
    requires !TimerDue(s, id)
    ensures StepsTo(s, s, DeadlineFires(id)) && PinStep(s, s, DeadlineFires(id))
  {
    hide StepsTo, PinStep;
    NobodyStep(s, s, DeadlineFires(id));
  }

  /** Frontend loss and shutdown end every flow. */
  lemma LossStep(s: State, r: State, e: Event)
    requires Idle(s) && (e == FrontendVanished || e == Shutdown)
    requires Idle(r) && r == s.(owner := r.owner)
    ensures InRange(r)
    ensures var z := CancelAll(r, SessionTerminated); StepsTo(s, z, e) && PinStep(s, z, e)
  {
    IdleInRange(r);
    hide Idle, CancelAll;
    CancelAllEmpties(r, SessionTerminated);
    CancelAllExtends(r, SessionTerminated);
    var z := CancelAll(r, SessionTerminated);
    forall k: Id | k < |s.flows|
      ensures z.flows[k] == FlowAfter(s.flows[k], k, SharedOf(s), e)
    {
      NotUpIsDiscarded(s, k);
      NotUpIsDiscarded(z, k);
    }
    LossTakesPin(s, e);
  }

  lemma LossTakesPin(s: State, e: Event)
    requires Idle(s) && (e == FrontendVanished || e == Shutdown)
    ensures s.pin.Some? ==> exists k :: TakesPin(s, e, k)
  {
    if s.pin.Some? {
      var k :| 0 <= k < |s.flows| && UsesPkcs11(s.flows[k]);
      NotUpIsDiscarded(s, k);
      assert TakesPin(s, e, k);
    }
  }

  lemma QuietStep(s: State, z: State, e: Event)
    requires e.FrontendAppeared? || e.ClockTicks?
    requires z.flows == s.flows && z.pin == s.pin
    ensures StepsTo(s, z, e) && PinStep(s, z, e)
  {
    hide StepsTo, PinStep;
    NobodyStep(s, z, e);
  }

  lemma SessionDispatch(s: State, e: Event)
    requires InRange(s) && IsEngineEvent(e)
    ensures Dispatch(s, e) == if Receives(s, e.id) then DispatchEngine(s, e) else s
  {
    hide DispatchEngine, Receives, HandleStart, HandleClose, CancelAll, OnDeadline, Tick, TimerDue;
  }

  /** An event of a session, whether or not it is still up. */
  lemma SessionStep(s: State, e: Event)
    requires Idle(s) && IsEngineEvent(e)
    ensures InRange(s) && StepsTo(s, Dispatch(s, e), e) && PinStep(s, Dispatch(s, e), e)
  {
    IdleInRange(s);
    hide Idle, StepsTo, PinStep, DispatchEngine, Receives, Dispatch, InRange;
    SessionDispatch(s, e);
    if Receives(s, e.id) {
      EngineStep(s, e);
    } else {
      IgnoredStep(s, e);
    }
  }

  /**
    Every event, on every flow at once: what becomes of a flow is a function of
    that flow, the cache, the buffer and the clock, and no flow reads another.
   */
  lemma FlowsAreIsolated(s: State, e: Event)
    requires Idle(s)
    ensures InRange(s) && StepsTo(s, Dispatch(s, e), e) && PinStep(s, Dispatch(s, e), e)
  {
    hide Idle, StepsTo, PinStep, HandleStart, HandleClose, CancelAll, OnDeadline, DispatchEngine, Receives, Ends, FlowAfter;
    IdleInRange(s);
    hide Idle, StepsTo, PinStep, HandleStart, HandleClose, CancelAll, OnDeadline, DispatchEngine;
    match e
    case StartReceived(c) => StartStep(s, c);
    case CloseReceived(c) => CloseStep(s, c);
    case FrontendAppeared(owner) => QuietStep(s, Dispatch(s, e), e);
    case FrontendVanished =>
      IdleElsewhere(s, s.(owner := None));
      LossStep(s, s.(owner := None), e);
    case Shutdown => LossStep(s, s, e);
    case ClockTicks => QuietStep(s, Dispatch(s, e), e);
    case DeadlineFires(id) =>
      if TimerDue(s, id) {
        DeadlineStep(s, id);
      } else {
        NotDueStep(s, id);
      }
    case _ => SessionStep(s, e);
  }

  // ---------- Runs ----------

  /** A window that is up goes down exactly when the guard of a terminal event holds of it. */
  lemma EndsExactly(events: seq<Event>, e: Event, id: Id)
    requires Receives(Reached(events), id)
    ensures var s := Reached(events); !Receives(Reached(events + [e]), id) <==> Ends(s.flows[id], id, SharedOf(s), e)
  {
    hide Reached, Idle, Ends, Dispatch;
    var s := Reached(events);
    ReachedNext(events, e);
    FlowsAreIsolated(s, e);
    StaysUpExactly(s.flows[id], id, SharedOf(s), e);
  }

  lemma StaysUpExactly(f: Flow, id: Id, shared: Shared, e: Event)
    requires IsUp(f)
    ensures IsUp(FlowAfter(f, id, shared, e)) <==> !Ends(f, id, shared, e)
  {
    hide Ends, ChallengeIsRelated, PinAfter;
  }

  /** The events that can change a flow. */
  predicate Concerns(path: string, id: Id, e: Event) {
    match e
    case StartReceived(_) => false
    case CloseReceived(c) => c.path == path
    case FrontendAppeared(_) => false
    case FrontendVanished => true
    case Shutdown => true
    case ClockTicks => false
    case _ => e.id == id
  }

  lemma OthersEventsPass(f: Flow, id: Id, shared: Shared, e: Event)
    ensures !Concerns(f.start.path, id, e) ==> FlowAfter(f, id, shared, e) == f
    ensures FlowAfter(f, id, shared, e).start == f.start
  {
    hide SenderCheck, CompletesOn, Challenged;
  }

  /** The events of a run that concern the flow with this path, each with what was shared when it came. */
  ghost function OwnEvents(s: State, events: seq<Event>, path: string, id: Id): seq<(Shared, Event)>
    requires Idle(s)
    decreases |events|
  {
    if events == [] then []
    else
      DispatchSafe(s, events[0]);
      (if Concerns(path, id, events[0]) then [(SharedOf(s), events[0])] else []) + OwnEvents(Dispatch(s, events[0]), events[1..], path, id)
  }

  /** A flow on its own. */
  function Alone(f: Flow, id: Id, own: seq<(Shared, Event)>): Flow
    decreases |own|
  {
    if own == [] then f else Alone(FlowAfter(f, id, own[0].0, own[0].1), id, own[1..])
  }

  /**
    Over a whole run, with any other flows beside it, a flow becomes what its own
    events alone would make of it, given what was shared at each of them.
   */
  lemma {:induction false} FlowRunsAlone(s: State, events: seq<Event>, id: Id)
    requires Idle(s) && id < |s.flows|
    ensures id < |Run(s, events).flows|
    ensures Run(s, events).flows[id] == Alone(s.flows[id], id, OwnEvents(s, events, s.flows[id].start.path, id))
    decreases |events|
  {
    hide Idle, Dispatch, FlowAfter, Concerns;
    if events != [] {
      var e := events[0];
      DispatchSafe(s, e);
      FlowsAreIsolated(s, e);
      var z := Dispatch(s, e);
      FlowRunsAlone(z, events[1..], id);
      OthersEventsPass(s.flows[id], id, SharedOf(s), e);
      var rest := OwnEvents(z, events[1..], s.flows[id].start.path, id);
      assert ([(SharedOf(s), e)] + rest)[1..] == rest && [] + rest == rest;
    }
  }

  // ---------- The PIN buffer ----------

  /**
    The comment beside the buffer says that it is kept until its transaction is
    torn down.  It is kept exactly until any flow of the pkcs11 provider ends, by
    whatever event; the guards of the terminal events say when.
   */
  lemma PinSurvivesExactly(events: seq<Event>, e: Event)
    requires Reached(events).pin.Some?
    ensures var s, z := Reached(events), Reached(events + [e]);
      && (z.pin == s.pin <==> !exists id :: TakesPin(s, e, id))
      && (z.pin != s.pin ==> z.pin.None?)
  {
    hide Reached, Idle, TakesPin, Dispatch;
    ReachedNext(events, e);
    FlowsAreIsolated(Reached(events), e);
  }

  /** A PIN is answered to one flow; any event that ends another pkcs11 flow, and not this one, takes it away. */
  lemma PinIsLostToAnotherFlow(events: seq<Event>, mine: Id, other: Id, file: string, e: Event)
    requires var s := Reached(events);
      mine != other && Receives(s, mine) && Receives(s, other) && UsesPkcs11(s.flows[mine]) && UsesPkcs11(s.flows[other])
    requires var s := Reached(events + [Authenticate(mine, PinRequested(Some(file)))]);
      && other < |s.flows| && Ends(s.flows[other], other, SharedOf(s), e)
      && mine < |s.flows| && !Ends(s.flows[mine], mine, SharedOf(s), e)
    ensures Reached(events + [Authenticate(mine, PinRequested(Some(file)))]).pin.Some?
    ensures var z := Reached(events + [Authenticate(mine, PinRequested(Some(file)))] + [e]);
      Receives(z, mine) && z.pin.None?
  {
    hide Reached, Idle, Ends, Dispatch;
    var read := events + [Authenticate(mine, PinRequested(Some(file)))];
    PinIsRead(events, mine, file);
    assert TakesPin(Reached(read), e, other);
    PinSurvivesExactly(read, e);
    EndsExactly(read, e, mine);
  }

  lemma PinIsRead(events: seq<Event>, id: Id, file: string)
    requires Receives(Reached(events), id) && UsesPkcs11(Reached(events).flows[id])
    ensures var s, z := Reached(events), Reached(events + [Authenticate(id, PinRequested(Some(file)))]);
      z.pin.Some? && z.flows == s.flows
  {
    hide Reached, Idle;
    ReachedNext(events, Authenticate(id, PinRequested(Some(file))));
    PinRead(Reached(events), id, file);
  }

  lemma PinRead(s: State, id: Id, file: string)
    requires Receives(s, id) && UsesPkcs11(s.flows[id])
    ensures var z := OnAuthenticate(s, id, PinRequested(Some(file)));
      z.pin.Some? && z.flows == s.flows
  {}
}
