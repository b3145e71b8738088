/**
  What is observed of every event in every run, told on what was observed before:
  the entries each event adds to the log, case by case, with its reasons.
 */
module LifecycleOutcome {
  import opened Text
  import opened Wrappers
  import Completion
  import CompletionCases
  import Storage
  import PinCache
  import opened Lifecycle
  import opened LifecycleSafety
  import opened LifecycleEvents
  import opened LifecycleStart
  import opened LifecycleDispatch
  import opened LifecycleClose
  import opened LifecycleEngine
  import opened LifecycleRuns
  import opened LifecycleHistory
  import opened LifecycleStory
  import opened LifecycleTheorems
  import opened LifecycleIsolation
  import opened LifecycleOwner

  // ---------- Start ----------

  /** Both URIs are fit for their use and the session mode, if given, is known. */
  ghost predicate ArgumentsAreFit(c: StartCall) {
    && CompletionCases.StartTextIsFit(c.startUri)
    && CompletionCases.CompletionTextIsFit(c.completionUri)
    && (c.sessionMode == None || c.sessionMode == Some("shared") || c.sessionMode == Some("ephemeral"))
  }

  /** The session is kept for the application that asked. */
  predicate Persists(c: StartCall) { c.sessionMode != Some("ephemeral") && c.appId != "" }

  /** A session that is kept needs an application id with something but dots in its first 128 characters. */
  predicate HasStore(c: StartCall) {
    c.storeOk && (Persists(c) ==> exists i :: 0 <= i < |c.appId| && i < 128 && c.appId[i] != '.')
  }

  /** 300 seconds unless asked for otherwise, and never more than 900. */
  function Seconds(timeout: Option<nat>): nat {
    if timeout == None || timeout == Some(0) then 300
    else if timeout.value > 900 then 900
    else timeout.value
  }

  /** What handle_start does with a call: refuses the sender, the arguments, the path or the store, or opens a window. */
  datatype Fate = Stranger | Invalid | Storeless | WindowOpens

  ghost function FateOf(s: State, past: seq<Report>, c: StartCall): Fate {
    if !Trusts(past, c.sender, c.first, c.second) then Stranger
    else if !ArgumentsAreFit(c) || !c.exportOk || IsAddressed(s, c.path) then Invalid
    else if !HasStore(c) then Storeless
    else WindowOpens
  }

  function StartSays(s: State, c: StartCall, fate: Fate): seq<Entry>
    requires fate == WindowOpens && Persists(c) ==> Storage.DirectoryName(Some(c.appId)).Some?
  {
    var invocation, id := s.invocations, |s.flows|;
    match fate
    case Stranger => [Denied(invocation)]
    case Invalid => [Replied(invocation, Other, None, Some(InvalidRequest))]
    case Storeless => [Committed(id), Replied(invocation, Other, None, Some(NoStorage))]
    case WindowOpens =>
      (if Persists(c) then [StoreOpened(id, Storage.DirectoryName(Some(c.appId)).value)] else []) + [Opened(id, s.now)]
  }

  /** The new flow, as the call asked for it. */
  predicate IsAsAsked(f: Flow, c: StartCall, invocation: nat, now: nat) {
    && f.start == StartArgs(invocation, c.path, c.appId, c.startUri, c.completionUri,
                            if Persists(c) then Storage.Shared else Storage.Ephemeral, Seconds(c.timeout))
    && f.session.Some? && f.session.value.provider == c.provider
    && f.session.value.pendingHost == Completion.HostOf(Some(c.startUri))
    && f.timer == Some(now + Seconds(c.timeout))
    && f.txn.Some? && f.txn.value.invocation == Some(invocation)
    && f.txn.value.startUri == c.startUri && f.txn.value.completionUri == c.completionUri
    && IsExported(f) && f.request.value.closeHandler && !f.request.value.cancelled
  }

  lemma ValidatedIsFit(c: StartCall)
    ensures Validated(c).Some? <==> ArgumentsAreFit(c)
    ensures Validated(c).Some? ==> Validated(c).value == if Persists(c) then Storage.Shared else Storage.Ephemeral
  {
    hide Completion.StartUriIsValid, Completion.CompletionUriIsValid, CompletionCases.StartTextIsFit, CompletionCases.CompletionTextIsFit;
    CompletionCases.StartAcceptedExactly(Some(c.startUri));
    CompletionCases.CompletionAcceptedExactly(Some(c.completionUri));
    assert "shared" != "ephemeral" by { assert "shared"[0] != "ephemeral"[0]; }
  }

  lemma StoreIsThere(c: StartCall, args: StartArgs)
    requires args.appId == c.appId && args.mode == if Persists(c) then Storage.Shared else Storage.Ephemeral
    ensures StoreBuilds(args, c.storeOk) <==> HasStore(c)
    ensures HasStore(c) && Persists(c) ==> Storage.DirectoryName(Some(c.appId)).Some?
  {
    hide Storage.DirectoryName;
    Storage.NoNameExactly(c.appId);
  }

  lemma TimeoutIsKept(timeout: Option<nat>)
    ensures ClampTimeout(timeout) == Seconds(timeout) && 1 <= Seconds(timeout) <= 900
  {}

  lemma AcceptOutcome(s: State, c: StartCall, args: StartArgs)
    requires Idle(s) && args == ArgsOf(c, args.invocation, if Persists(c) then Storage.Shared else Storage.Ephemeral)
    ensures HasStore(c) && Persists(c) ==> Storage.DirectoryName(Some(c.appId)).Some?
    ensures var r := Accept(s, args, c.exportOk, c.storeOk, c.provider); var id := |s.flows|;
      var fate := if !c.exportOk || c.path in s.registry then Invalid else if !HasStore(c) then Storeless else WindowOpens;
      && |r.flows| == id + 1 && r.flows[..id] == s.flows
      && r.log == s.log + StartSays(s.(invocations := args.invocation), c, fate)
      && r == s.(flows := r.flows, list := r.list, registry := r.registry, log := r.log)
      && (Receives(r, id) <==> fate == WindowOpens)
      && (fate == WindowOpens ==> IsAsAsked(r.flows[id], c, args.invocation, s.now) && r.registry == s.registry[c.path := id])
  {
    hide Accept, Idle, StoreBuilds, AcceptTrace, Storage.DirectoryName, HasStore;
    StoreIsThere(c, args);
    TimeoutIsKept(c.timeout);
    if !c.exportOk || c.path in s.registry {
      AcceptRefused(s, args, c.exportOk, c.storeOk, c.provider);
    } else if !HasStore(c) {
      AcceptFailed(s, args, c.storeOk, c.provider);
    } else {
      AcceptOpened(s, args, c.storeOk, c.provider);
      StoreIsLogged(s, c, args);
    }
  }

  lemma StoreIsLogged(s: State, c: StartCall, args: StartArgs)
    requires args.appId == c.appId && args.mode == if Persists(c) then Storage.Shared else Storage.Ephemeral
    requires Persists(c) ==> Storage.DirectoryName(Some(c.appId)).Some?
    ensures StoreLog(args, |s.flows|, s.log) + [Opened(|s.flows|, s.now)] ==
      s.log + StartSays(s.(invocations := args.invocation), c, WindowOpens)
  {
    hide Storage.DirectoryName;
  }

  lemma CheckedOutcome(s: State, past: seq<Report>, c: StartCall)
    requires Idle(s) && Follows(s, past)
    ensures FateOf(s, past, c) == WindowOpens && Persists(c) ==> Storage.DirectoryName(Some(c.appId)).Some?
    ensures var z := HandleStart(s, c); var id := |s.flows|; var fate := FateOf(s, past, c);
      && id <= |z.flows| && z.flows[..id] == s.flows
      && z.log == s.log + StartSays(s, c, fate)
      && z.pin == s.pin && z.now == s.now && z.invocations == s.invocations + 1
      && (Receives(z, id) <==> fate == WindowOpens)
      && (fate == WindowOpens ==>
          && |z.flows| == id + 1 && IsAsAsked(z.flows[id], c, s.invocations, s.now)
          && z.registry == s.registry[c.path := id] && z.owner == c.sender && z.resolved)
  {
    hide Accept, Idle, SenderCheck, Validated, ArgumentsAreFit, HasStore, IsAddressed, IsAsAsked, Trusts, Follows, Persists;
    var n := CountInvocation(s);
    var (s1, accepted) := SenderCheck(n, c.sender, c.first, c.second);
    FollowsElsewhere(s, n, past);
    CheckFollows(n, past, c.sender, c.first, c.second);
    SenderCheckLeavesItsAnswer(n, c.sender, c.first, c.second);
    IdleElsewhere(s, s1);
    ValidatedIsFit(c);
    AddressedIsRegistered(s, c.path);
    if accepted && Validated(c).Some? {
      AcceptOutcome(s1, c, ArgsOf(c, s.invocations, Validated(c).value));
    }
  }

  /**
    Every Start in every run: whom it refuses and why, and exactly when a window
    opens, for what was asked.
   */
  lemma StartOutcome(events: seq<Event>, c: StartCall)
    ensures FateOf(Reached(events), Reports(events), c) == WindowOpens && Persists(c) ==> Storage.DirectoryName(Some(c.appId)).Some?
    ensures var s, z := Reached(events), Reached(events + [StartReceived(c)]); var id := |s.flows|;
      var fate := FateOf(s, Reports(events), c);
      && id <= |z.flows| && z.flows[..id] == s.flows
      && z.log == s.log + StartSays(s, c, fate)
      && z.pin == s.pin && z.now == s.now && z.invocations == s.invocations + 1
      && (Receives(z, id) <==> fate == WindowOpens)
      && (fate == WindowOpens ==>
          && |z.flows| == id + 1 && IsAsAsked(z.flows[id], c, s.invocations, s.now)
          && z.registry == s.registry[c.path := id] && z.owner == c.sender && z.resolved)
  {
    hide Reached, Idle, HandleStart, FateOf, Persists, IsAsAsked, StartSays;
    ReachedNext(events, StartReceived(c));
    CacheFollowsReports(events);
    CheckedOutcome(Reached(events), Reports(events), c);
  }

  // ---------- Close ----------

  /** Every Close for a live flow: refused, it only says so; accepted, it ends the flow first. */
  lemma CloseOutcome(events: seq<Event>, c: CloseCall, id: Id)
    requires Receives(Reached(events), id) && Reached(events).flows[id].start.path == c.path
    ensures var s, z, past := Reached(events), Reached(events + [CloseReceived(c)]), Reports(events);
      var asked := past + Lookups(past, c.sender, c.first, c.second);
      && z.log == s.log +
           (if !Trusts(past, c.sender, c.first, c.second) then [CloseAnswered(id, false)]
            else [Committed(id), Replied(s.flows[id].start.invocation, Cancelled, None, Some(RequestClosed)),
                  CloseAnswered(id, Trusts(asked, c.sender, c.third, c.fourth))])
      && (Receives(z, id) <==> !Trusts(past, c.sender, c.first, c.second))
  {
    hide Reached, Idle, Receives, HandleClose, Lookups, Trusts, SenderCheck, Follows;
    var s := Reached(events);
    ReachedNext(events, CloseReceived(c));
    CacheFollowsReports(events);
    FollowsNow(s, Reports(events));
    LiveInvocation(events, id);
    ReceivedCloses(s, Reports(events), c, id);
  }

  lemma FollowsNow(s: State, past: seq<Report>)
    requires s.owner == Latest(past) && (s.resolved <==> WasAnswered(past))
    ensures Follows(s, past)
  {}

  lemma ReceivedCloses(s: State, past: seq<Report>, c: CloseCall, id: Id)
    requires Idle(s) && Follows(s, past) && Receives(s, id) && s.flows[id].start.path == c.path
    requires s.flows[id].txn.Some? && s.flows[id].txn.value.invocation == Some(s.flows[id].start.invocation)
    ensures InRange(s)
    ensures var z := HandleClose(s, c); var asked := past + Lookups(past, c.sender, c.first, c.second);
      && z.log == s.log +
           (if !Trusts(past, c.sender, c.first, c.second) then [CloseAnswered(id, false)]
            else [Committed(id), Replied(s.flows[id].start.invocation, Cancelled, None, Some(RequestClosed)),
                  CloseAnswered(id, Trusts(asked, c.sender, c.third, c.fourth))])
      && (Receives(z, id) <==> !Trusts(past, c.sender, c.first, c.second))
  {
    IdleInRange(s);
    hide Idle, HandleClose, Lookups, Trusts, SenderCheck, Follows, CloseTrace, AllSafe, RemoveFast, EndedPin, IsAddressed;
    AddressedIsRegistered(s, c.path);
    CheckFollows(s, past, c.sender, c.first, c.second);
    var w := SenderCheck(s, c.sender, c.first, c.second).0;
    CheckFollows(w, past + Lookups(past, c.sender, c.first, c.second), c.sender, c.third, c.fourth);
    if SenderCheck(s, c.sender, c.first, c.second).1 {
      CloseAccepted(s, c);
    } else {
      CloseRefused(s, c);
    }
  }

  /** A Close for any other path reaches nothing. */
  lemma CloseOfNothing(events: seq<Event>, c: CloseCall)
    requires !IsAddressed(Reached(events), c.path)
    ensures Reached(events + [CloseReceived(c)]) == Reached(events)
  {
    hide Reached, Idle, IsAddressed;
    ReachedNext(events, CloseReceived(c));
    AddressedIsRegistered(Reached(events), c.path);
  }

  /**
    Whoever the bus has just announced and confirms when asked is accepted, from
    every reached state: a Start is not denied, and a Close ends its flow.
   */
  lemma NewOwnerIsAccepted(events: seq<Event>, owner: string, start: StartCall, close: CloseCall, id: Id)
    requires start.sender == start.first == start.second == Some(owner)
    requires close.sender == close.first == close.second == close.third == close.fourth == Some(owner)
    requires Receives(Reached(events), id) && Reached(events).flows[id].start.path == close.path
    ensures Receives(Reached(events + [FrontendAppeared(owner)]), id)
    ensures var now := events + [FrontendAppeared(owner)]; var s := Reached(now);
      && Reached(now + [StartReceived(start)]).log != s.log + [Denied(s.invocations)]
      && (ArgumentsAreFit(start) && start.exportOk && !IsAddressed(s, start.path) && HasStore(start) ==>
          Receives(Reached(now + [StartReceived(start)]), |s.flows|))
      && Reached(now + [CloseReceived(close)]).log ==
           s.log + [Committed(id), Replied(s.flows[id].start.invocation, Cancelled, None, Some(RequestClosed)), CloseAnswered(id, true)]
  {
    hide Reached, Idle, Lookups, Latest, WasAnswered, ArgumentsAreFit, HasStore, IsAddressed, IsAsAsked, Persists, HandleStart, HandleClose, CancelAll;
    var now := events + [FrontendAppeared(owner)];
    ReachedNext(events, FrontendAppeared(owner));
    NewOwnerIsTrusted(events, owner);
    StartOutcome(now, start);
    CloseOutcome(now, close, id);
    StillTrusted(Reports(now), owner);
    NotDenied(Reached(now), start, FateOf(Reached(now), Reports(now), start));
  }

  lemma NotDenied(s: State, c: StartCall, fate: Fate)
    requires fate != Stranger && (fate == WindowOpens && Persists(c) ==> Storage.DirectoryName(Some(c.appId)).Some?)
    ensures s.log + StartSays(s, c, fate) != s.log + [Denied(s.invocations)]
  {
    assert (s.log + StartSays(s, c, fate))[|s.log|] == StartSays(s, c, fate)[0];
    assert (s.log + [Denied(s.invocations)])[|s.log|] == Denied(s.invocations);
  }

  lemma StillTrusted(past: seq<Report>, owner: string)
    requires var o := Some(owner); Trusts(past, o, o, o)
    ensures var o := Some(owner); Trusts(past + Lookups(past, o, o, o), o, o, o)
  {
    var o := Some(owner);
    NotAnswered(past, o);
    assert past + [] == past;
    var unknown := if WasAnswered(past) then [] else [Answered(o)];
    NotAnswered(past + unknown, o);
    assert past + unknown + [Answered(o)] == past + (unknown + [Answered(o)]);
  }

  // ---------- Sessions ----------

  predicate IsHost(host: Option<string>, known: Option<string>) {
    host.Some? && known.Some? && Lower(host.value) == Lower(known.value)
  }

  /** A certificate challenge: only for a host being navigated to or loaded, only with a provider, only if one is acquired. */
  function CertificateSays(s: State, id: Id, host: Option<string>, acquired: bool): seq<Entry>
    requires Receives(s, id)
  {
    if !IsHost(host, NavigationHost(s.log, id, s.flows[id].start)) && !IsHost(host, LoadHost(s.log, id)) then
      [Declined(id, UnrelatedCertificateChallenge)]
    else if s.flows[id].session.value.provider == None then [Declined(id, CredentialUnavailable)]
    else if acquired then [ProviderAsked(id, host.value)]
    else [ProviderAsked(id, host.value), Declined(id, CredentialUnavailable)]
  }

  /** What each event of a live session adds to the log. */
  function SessionSays(s: State, e: Event): seq<Entry>
    requires IsEngineEvent(e) && Receives(s, e.id)
  {
    var start, session := s.flows[e.id].start, s.flows[e.id].session.value;
    var invocation := start.invocation;
    match e
    case UserCancels(id) => [Committed(id), Replied(invocation, Cancelled, None, Some(UserCancelled))]
    case TlsFails(id) => [Committed(id), Replied(invocation, Other, None, Some(TlsError))]
    case ProcessGone(id) => [Committed(id), Replied(invocation, Other, None, Some(SessionTerminated))]
    case Navigation(id, uri) =>
      if Completion.Matches(uri, Some(start.completionUri)) then
        [Asked(id, uri, true), Committed(id), Replied(invocation, Completed, uri, None), Blocked(id, uri)]
      else [Asked(id, uri, true), LetThrough(id, uri)]
    case ResponseDecision(id, uri, supported) =>
      if Completion.Matches(uri, Some(start.completionUri)) then
        [Asked(id, uri, false), Committed(id), Replied(invocation, Completed, uri, None), Blocked(id, uri)]
      else [Asked(id, uri, false), if supported then LetThrough(id, uri) else Blocked(id, uri)]
    case NewWindow(id, uri) => [Blocked(id, uri)]
    case LoadChanged(id, phase, uri) => if phase == LoadFinished then [] else [LoadedTo(id, uri)]
    case LoadFails(id, cancelled) =>
      var declined := LatestDecline(s.log, id);
      if declined.Some? then [Committed(id), Replied(invocation, Other, None, declined)]
      else if cancelled then []
      else [Committed(id), Replied(invocation, Other, None, Some(LoadFailed))]
    case Authenticate(id, OtherScheme) => []
    case Authenticate(id, PinRequested(file)) =>
      if session.provider == Some(Pkcs11) && (s.pin.Some? || file.Some?) then [PinAnswered(id)]
      else [Declined(id, CredentialUnavailable)]
    case Authenticate(id, CertificateRequested(host, acquired)) => CertificateSays(s, id, host, acquired)
  }

  /** What the story of a live flow says of its objects. */
  predicate HasStory(s: State, id: Id) {
    && id < |s.flows| && HasTransaction(s.flows[id])
    && var f := s.flows[id]; var w := f.session.value;
    && f.txn.value.invocation == Some(f.start.invocation)
    && f.txn.value.completionUri == f.start.completionUri
    && w.pendingHost == NavigationHost(s.log, id, f.start)
    && w.currentHost == LoadHost(s.log, id)
    && w.pendingReason == LatestDecline(s.log, id)
  }

  lemma LiveHasStory(events: seq<Event>, id: Id)
    requires Receives(Reached(events), id)
    ensures HasStory(Reached(events), id)
  {
    ReachedHistory(events);
    assert FlowStory(Reached(events), id);
    ReceivesIsLive(Reached(events), id);
  }

  lemma NavigationSays(s: State, id: Id, uri: Option<string>)
    requires Idle(s) && Receives(s, id) && HasStory(s, id)
    ensures OnNavigation(s, id, uri).log == s.log + SessionSays(s, Navigation(id, uri))
  {
    hide Idle, OnNavigation, Completion.Matches, NavigationHost, LoadHost, LatestDecline;
    NavigationEffect(s, id, uri);
  }

  lemma ResponseSays(s: State, id: Id, uri: Option<string>, supported: bool)
    requires Idle(s) && Receives(s, id) && HasStory(s, id)
    ensures OnResponse(s, id, uri, supported).log == s.log + SessionSays(s, ResponseDecision(id, uri, supported))
  {
    hide Idle, OnResponse, Completion.Matches, NavigationHost, LoadHost, LatestDecline;
    ResponseEffect(s, id, uri, supported);
  }

  lemma AtOnceSays(s: State, id: Id, response: Response, reason: Reason)
    requires Idle(s) && Receives(s, id) && HasStory(s, id) && response != Completed
    ensures FinishFor(s, id, response, None, Some(reason)).log ==
      s.log + [Committed(id), Replied(s.flows[id].start.invocation, response, None, Some(reason))]
  {
    hide Idle, FinishFor, FinishTrace, NavigationHost, LoadHost, LatestDecline;
    EndsAtOnce(s, id, response, reason);
  }

  lemma LoadFailsSays(s: State, id: Id, cancelled: bool)
    requires Idle(s) && Receives(s, id) && HasStory(s, id)
    ensures OnLoadFailed(s, id, cancelled).log == s.log + SessionSays(s, LoadFails(id, cancelled))
  {
    hide Idle, OnLoadFailed, NavigationHost, LoadHost, LatestDecline;
    LoadFailedEffect(s, id, cancelled);
  }

  lemma HostsAreSame(host: Option<string>, known: Option<string>)
    ensures host.Some? ==> (HostIs(host.value, known) <==> IsHost(host, known))
    ensures IsHost(host, known) ==> host.Some?
  {
    if host.Some? && known.Some? {
      LowerDecidesCase(host.value, known.value);
    }
  }

  lemma ChallengeSays(s: State, id: Id, challenge: Challenge)
    requires Receives(s, id) && HasStory(s, id)
    ensures OnAuthenticate(s, id, challenge).log == s.log + SessionSays(s, Authenticate(id, challenge))
  {
    hide NavigationHost, LoadHost, LatestDecline, HostIs, IsHost;
    match challenge
    case OtherScheme =>
    case PinRequested(file) =>
    case CertificateRequested(host, acquired) =>
      HostsAreSame(host, NavigationHost(s.log, id, s.flows[id].start));
      HostsAreSame(host, LoadHost(s.log, id));
      if host.Some? {
        var asked, declined := ProviderAsked(id, host.value), Declined(id, CredentialUnavailable);
        assert s.log + [asked] + [declined] == s.log + [asked, declined];
      }
  }

  lemma EngineSays(s: State, e: Event)
    requires Idle(s) && IsEngineEvent(e) && Receives(s, e.id) && HasStory(s, e.id)
    ensures DispatchEngine(s, e).log == s.log + SessionSays(s, e)
  {
    hide Idle, HasStory, FinishFor, OnNavigation, OnResponse, OnLoadFailed, OnAuthenticate, Completion.Matches, CertificateSays;
    match e
    case UserCancels(id) => AtOnceSays(s, id, Cancelled, UserCancelled);
    case Navigation(id, uri) => NavigationSays(s, id, uri);
    case ResponseDecision(id, uri, supported) => ResponseSays(s, id, uri, supported);
    case NewWindow(id, uri) =>
    case LoadChanged(id, phase, uri) =>
    case LoadFails(id, cancelled) => LoadFailsSays(s, id, cancelled);
    case TlsFails(id) => AtOnceSays(s, id, Other, TlsError);
    case ProcessGone(id) => AtOnceSays(s, id, Other, SessionTerminated);
    case Authenticate(id, challenge) => ChallengeSays(s, id, challenge);
  }

  /** Every event of a live session in every run: what is answered, let through, asked or declined, and why. */
  lemma SessionOutcome(events: seq<Event>, e: Event)
    requires IsEngineEvent(e) && Receives(Reached(events), e.id)
    ensures Reached(events + [e]).log == Reached(events).log + SessionSays(Reached(events), e)
  {
    hide Reached, Idle, Receives, HasStory, SessionSays, DispatchEngine;
    ReachedNext(events, e);
    LiveHasStory(events, e.id);
    EngineSays(Reached(events), e);
  }

  /** An event of a session that is not up changes nothing. */
  lemma SessionGone(events: seq<Event>, e: Event)
    requires IsEngineEvent(e) && !Receives(Reached(events), e.id)
    ensures Reached(events + [e]) == Reached(events)
  {
    hide Reached, Idle, Receives, DispatchEngine;
    ReachedNext(events, e);
  }

  /** The provider of a session is the one its Start selected, as long as it is up. */
  lemma ProviderIsKept(events: seq<Event>, e: Event, id: Id)
    requires Receives(Reached(events), id) && Receives(Reached(events + [e]), id)
    ensures Reached(events + [e]).flows[id].session.value.provider == Reached(events).flows[id].session.value.provider
    ensures Reached(events + [e]).flows[id].start == Reached(events).flows[id].start
  {
    hide Reached, Idle, FlowAfter, Dispatch;
    ReachedNext(events, e);
    FlowsAreIsolated(Reached(events), e);
    ProviderStays(Reached(events).flows[id], id, SharedOf(Reached(events)), e);
  }

  lemma ProviderStays(f: Flow, id: Id, shared: Shared, e: Event)
    requires IsUp(f)
    ensures var g := FlowAfter(f, id, shared, e);
      g.start == f.start && (IsUp(g) ==> g.session.value.provider == f.session.value.provider)
  {
    hide Ends, ChallengeIsRelated, PinAfter;
  }

  // ---------- The PIN ----------

  /** An empty buffer is filled exactly when a live pkcs11 session is asked for a PIN and its file can be read, with what the file says. */
  lemma PinFillsExactly(events: seq<Event>, e: Event)
    requires Reached(events).pin == None
    ensures var s := Reached(events);
      Reached(events + [e]).pin ==
        match e
        case Authenticate(id, PinRequested(Some(file))) =>
          if Receives(s, id) && s.flows[id].session.value.provider == Some(Pkcs11) then Some(PinCache.PinOf(file)) else None
        case _ => None
  {
    hide Reached, Idle;
    ReachedNext(events, e);
    EmptyBuffer(Reached(events), e);
  }

  lemma EmptyBuffer(s: State, e: Event)
    requires Idle(s) && s.pin == None
    ensures InRange(s)
    ensures Dispatch(s, e).pin ==
      match e
      case Authenticate(id, PinRequested(Some(file))) =>
        if Receives(s, id) && s.flows[id].session.value.provider == Some(Pkcs11) then Some(PinCache.PinOf(file)) else None
      case _ => None
  {
    IdleInRange(s);
    hide Idle, HandleStart, HandleClose, CancelAll, OnDeadline, DispatchEngine, HandleChecked, Receives, TimerDue;
    match e
    case StartReceived(c) =>
      StartIsChecked(s, c);
      StartKeeps(s, c, Validated(c));
    case CloseReceived(c) => CloseKeepsEmpty(s, c);
    case FrontendAppeared(owner) =>
    case FrontendVanished => LossEmpties(s);
    case Shutdown => LossEmpties(s);
    case ClockTicks =>
    case DeadlineFires(id) =>
      if TimerDue(s, id) {
        DeadlineKeepsEmpty(s, id);
      }
    case _ =>
      if Receives(s, e.id) {
        EngineKeepsEmpty(s, e);
      }
  }

  lemma LossEmpties(s: State)
    requires Idle(s)
    ensures InRange(s) && CancelAll(s, SessionTerminated).pin == None && CancelAll(s.(owner := None), SessionTerminated).pin == None
  {
    IdleInRange(s);
    hide Idle, CancelAll;
    IdleElsewhere(s, s.(owner := None));
    CancelAllEmpties(s.(owner := None), SessionTerminated);
    CancelAllEmpties(s, SessionTerminated);
  }

  lemma DeadlineKeepsEmpty(s: State, id: Id)
    requires Idle(s) && TimerDue(s, id) && s.pin == None
    ensures OnDeadline(s, id).pin == None
  {
    hide Idle, OnDeadline, FinishTrace, AllSafe, Safe;
    DeadlineEffect(s, id);
  }

  lemma CloseKeepsEmpty(s: State, c: CloseCall)
    requires Idle(s) && s.pin == None
    ensures InRange(s) && HandleClose(s, c).pin == None
  {
    IdleInRange(s);
    hide Idle, SenderCheck, CloseTrace, AllSafe, InRange;
    if c.path in s.registry {
      hide HandleClose;
      if SenderCheck(s, c.sender, c.first, c.second).1 {
        CloseAccepted(s, c);
      } else {
        CloseRefused(s, c);
      }
    }
  }

  lemma EngineKeepsEmpty(s: State, e: Event)
    requires Idle(s) && IsEngineEvent(e) && Receives(s, e.id) && s.pin == None
    ensures DispatchEngine(s, e).pin ==
      match e
      case Authenticate(id, PinRequested(Some(file))) =>
        if s.flows[id].session.value.provider == Some(Pkcs11) then Some(PinCache.PinOf(file)) else None
      case _ => None
  {
    hide Idle, FinishFor, OnNavigation, OnResponse, OnLoadFailed, CompletesOn, FinishTrace, AllSafe;
    match e
    case UserCancels(id) => EndsAtOnce(s, id, Cancelled, UserCancelled);
    case Navigation(id, uri) => NavigationEffect(s, id, uri);
    case ResponseDecision(id, uri, supported) => ResponseEffect(s, id, uri, supported);
    case NewWindow(id, uri) =>
    case LoadChanged(id, phase, uri) =>
    case LoadFails(id, cancelled) => LoadFailedEffect(s, id, cancelled);
    case TlsFails(id) => EndsAtOnce(s, id, Other, TlsError);
    case ProcessGone(id) => EndsAtOnce(s, id, Other, SessionTerminated);
    case Authenticate(id, challenge) => ChallengeOnEmpty(s, id, challenge);
  }

  lemma ChallengeOnEmpty(s: State, id: Id, challenge: Challenge)
    requires Receives(s, id) && s.pin == None
    ensures OnAuthenticate(s, id, challenge).pin ==
      match challenge
      case PinRequested(Some(file)) =>
        if s.flows[id].session.value.provider == Some(Pkcs11) then Some(PinCache.PinOf(file)) else None
      case _ => None
  {
    hide ChallengeIsRelated;
  }

  // ---------- Time ----------

  /** A window whose time is up, by when it went up and what it was given. */
  predicate IsOver(s: State, id: Id) {
    Receives(s, id) && OpenedAt(s.log, id).Some? && OpenedAt(s.log, id).value + s.flows[id].start.timeout <= s.now
  }

  lemma DueIsOver(events: seq<Event>, id: Id)
    ensures TimerDue(Reached(events), id) <==> IsOver(Reached(events), id)
  {
    ReachedHistory(events);
    var s := Reached(events);
    if id < |s.flows| {
      assert FlowStory(s, id);
      AllOrNothing(s, id);
    }
  }

  /** The clock goes on by one second exactly when no window's time is up. */
  lemma ClockOutcome(events: seq<Event>)
    ensures var s := Reached(events);
      Reached(events + [ClockTicks]) == if exists id: Id :: IsOver(s, id) then s else s.(now := s.now + 1)
  {
    hide Reached, Idle, IsOver, TimerDue;
    ReachedNext(events, ClockTicks);
    var s := Reached(events);
    forall id: Id
      ensures TimerDue(s, id) <==> IsOver(s, id)
    {
      DueIsOver(events, id);
    }
    OnlyFlowsAreDue(s);
  }

  lemma OnlyFlowsAreDue(s: State)
    ensures forall id: Id :: TimerDue(s, id) ==> id < |s.flows|
  {}

  /** A deadline that is not over changes nothing; one that is ends its flow with a timeout. */
  lemma DeadlineOutcome(events: seq<Event>, id: Id)
    ensures var s, z := Reached(events), Reached(events + [DeadlineFires(id)]);
      if IsOver(s, id) then
        z.log == s.log + [Committed(id), Replied(s.flows[id].start.invocation, Other, None, Some(Timeout))] && !Receives(z, id)
      else z == s
  {
    hide Reached, Idle, TimerDue, OnDeadline;
    DueIsOver(events, id);
    if IsOver(Reached(events), id) {
      DeadlineAnswers(events, id);
    } else {
      ReachedNext(events, DeadlineFires(id));
    }
  }

  // ---------- Loss ----------

  /** One commit and one answer for each flow, in the order of the list. */
  function LossSays(s: State, ids: seq<Id>): seq<Entry>
    requires forall i :: 0 <= i < |ids| ==> ids[i] < |s.flows|
  {
    if ids == [] then []
    else
      [Committed(ids[0]), Replied(s.flows[ids[0]].start.invocation, Other, None, Some(SessionTerminated))]
      + LossSays(s, ids[1..])
  }

  predicate Owes(s: State, ids: seq<Id>) {
    forall i :: 0 <= i < |ids| ==>
      ids[i] < |s.flows| && s.flows[ids[i]].txn.Some?
      && s.flows[ids[i]].txn.value.invocation == Some(s.flows[ids[i]].start.invocation)
  }

  lemma {:induction false} SameLoss(s: State, r: State, ids: seq<Id>)
    requires |r.flows| == |s.flows| && forall i :: 0 <= i < |ids| ==> ids[i] < |s.flows|
    requires forall k :: 0 <= k < |s.flows| ==> r.flows[k].start == s.flows[k].start
    ensures LossSays(r, ids) == LossSays(s, ids)
    decreases |ids|
  {
    if ids != [] { SameLoss(s, r, ids[1..]); }
  }

  lemma FirstIsAnswered(s: State, ids: seq<Id>)
    requires Steady(s) && Distinct(ids) && AllLive(s, ids) && Owes(s, ids) && ids != []
    ensures var id := ids[0]; var s1 := Finish(s, id, Other, None, Some(SessionTerminated));
      && s1.log == s.log + [Committed(id), Replied(s.flows[id].start.invocation, Other, None, Some(SessionTerminated))]
      && Owes(s1, ids[1..]) && |s1.flows| == |s.flows|
      && (forall k :: 0 <= k < |s.flows| ==> s1.flows[k].start == s.flows[k].start)
  {
    hide Finish, FinishTrace, PinHasOwner, FlowSafe, Ended, RemoveFast;
    var id := ids[0];
    FinishSafe(s, id, Other, None, Some(SessionTerminated));
    EndedKeepsStart(s.flows[id]);
    forall i | 0 <= i < |ids[1..]|
      ensures ids[1..][i] != id && ids[1..][i] < |s.flows|
    {
      assert ids[1..][i] == ids[i + 1];
    }
  }

  lemma EndedKeepsStart(f: Flow)
    requires f.txn.Some? && f.request.Some?
    ensures Ended(f).start == f.start
  {}

  lemma {:induction false} FinishAllSays(s: State, ids: seq<Id>)
    requires Steady(s) && Distinct(ids) && AllLive(s, ids) && Owes(s, ids)
    ensures FinishAll(s, ids, SessionTerminated).log == s.log + LossSays(s, ids)
    decreases |ids|
  {
    hide Steady, Finish, Owes, Live, HaveEnded;
    if ids != [] {
      var s1 := Finish(s, ids[0], Other, None, Some(SessionTerminated));
      FinishHead(s, ids, SessionTerminated);
      FirstIsAnswered(s, ids);
      FinishAllSays(s1, ids[1..]);
      SameLoss(s, s1, ids[1..]);
    }
  }

  lemma HeldOwes(s: State, s1: State, ids: seq<Id>)
    requires Owes(s, ids) && |s1.flows| == |s.flows|
    requires forall k :: 0 <= k < |s.flows| ==> s1.flows[k] == if k in ids then Hold(s.flows[k]) else s.flows[k]
    ensures Owes(s1, ids) && forall k :: 0 <= k < |s.flows| ==> s1.flows[k].start == s.flows[k].start
  {
    hide Hold;
    forall k | 0 <= k < |s.flows|
      ensures s1.flows[k].start == s.flows[k].start
      ensures s.flows[k].txn.Some? ==>
        s1.flows[k].txn.Some? && s1.flows[k].txn.value.invocation == s.flows[k].txn.value.invocation
    {
      HoldKeepsCall(s.flows[k]);
    }
  }

  lemma HoldKeepsCall(f: Flow)
    ensures Hold(f).start == f.start
    ensures f.txn.Some? ==> Hold(f).txn.Some? && Hold(f).txn.value.invocation == f.txn.value.invocation
  {}

  lemma CancelAllSays(s: State)
    requires Idle(s) && Owes(s, s.list)
    ensures CancelAll(s, SessionTerminated).log == s.log + LossSays(s, s.list)
  {
    IdleInRange(s);
    hide Idle, Steady, HoldAll, FinishAll, ReleaseAll, Owes, Live, HaveEnded, AllSafe, HoldAllTrace, FinishAllTrace;
    var ids := s.list;
    var s1 := HoldAll(s, ids);
    CancelAllFinishes(s, SessionTerminated);
    HoldAllKeepsCache(s, ids);
    HeldOwes(s, s1, ids);
    HeldStayLiveToo(s, s1, ids);
    FinishAllSays(s1, ids);
    SameLoss(s, s1, ids);
    ReleaseAllKeepsCache(FinishAll(s1, ids, SessionTerminated), ids);
  }

  lemma HeldStayLiveToo(s: State, s1: State, ids: seq<Id>)
    requires Idle(s) && AllLive(s, ids) && |s1.flows| == |s.flows| && s1.list == s.list
    requires forall k :: 0 <= k < |s.flows| ==> s1.flows[k] == if k in ids then Hold(s.flows[k]) else s.flows[k]
    ensures AllLive(s1, ids)
  {
    HeldStayLive(s, s1, ids);
  }

  /** Frontend loss and shutdown answer every live flow once, each with the same reason, and no other. */
  lemma LossOutcome(events: seq<Event>, e: Event)
    requires e == FrontendVanished || e == Shutdown
    ensures var s := Reached(events);
      && (forall id :: id in s.list <==> Receives(s, id)) && Distinct(s.list) && ListInRange(s)
      && Reached(events + [e]).log == s.log + LossSays(s, s.list)
  {
    hide Reached, CancelAll, Owes, Steady;
    var s := Reached(events);
    ReachedNext(events, e);
    ListIsLiveFlows(events);
    IdleInRange(s);
    IdleElsewhere(s, s.(owner := None));
    OwesToo(s);
    SameLoss(s, s.(owner := None), s.list);
    CancelAllSays(s.(owner := None));
    CancelAllSays(s);
  }

  lemma OwesToo(s: State)
    requires Owes(s, s.list)
    ensures Owes(s.(owner := None), s.list)
  {}

  lemma ListIsLiveFlows(events: seq<Event>)
    ensures var s := Reached(events);
      (forall id :: id in s.list <==> Receives(s, id)) && Distinct(s.list) && Owes(s, s.list)
  {
    var s := Reached(events);
    ListIsLive(s);
    forall id: Id
      ensures id in s.list <==> Receives(s, id)
    {
      if id < |s.flows| {
        AllOrNothing(s, id);
      }
    }
    forall i | 0 <= i < |s.list|
      ensures s.flows[s.list[i]].txn.Some?
      ensures s.flows[s.list[i]].txn.value.invocation == Some(s.flows[s.list[i]].start.invocation)
    {
      assert s.list[i] in s.list;
      LiveInvocation(events, s.list[i]);
    }
  }
}
