/** The promises of the sign-in protocol, for every sequence of events from the start of the process. */
module LifecycleTheorems {
  import opened Wrappers
  import Completion
  import Storage
  import opened Lifecycle
  import opened LifecycleSafety
  import opened LifecycleEvents
  import opened LifecycleStart
  import opened LifecycleDispatch
  import opened LifecycleClose
  import opened LifecycleEngine
  import opened LifecycleRuns
  import opened LifecycleHistory
  import opened LifecycleStory

  /** The state after the events, starting from a fresh backend. */
  ghost function Reached(events: seq<Event>): (r: State)
    ensures Idle(r)
  {
    InitialIsIdle();
    Run(InitialState(), events)
  }

  lemma ReachedHistory(events: seq<Event>)
    ensures History(Reached(events))
  {
    InitialIsIdle();
    InitialHistory();
    RunStory(InitialState(), events);
  }

  lemma {:induction false} RunJoin(s: State, a: seq<Event>, b: seq<Event>)
    requires Idle(s)
    ensures Run(s, a + b) == Run(Run(s, a), b)
    decreases |a|
  {
    if a == [] {
      assert a + b == b;
    } else {
      DispatchSafe(s, a[0]);
      assert (a + b)[0] == a[0] && (a + b)[1..] == a[1..] + b;
      RunJoin(Dispatch(s, a[0]), a[1..], b);
    }
  }

  lemma ReachedJoin(a: seq<Event>, b: seq<Event>)
    ensures Reached(a + b) == Run(Reached(a), b)
  {
    InitialIsIdle();
    RunJoin(InitialState(), a, b);
  }

  lemma ReachedNext(events: seq<Event>, e: Event)
    ensures Reached(events + [e]) == Dispatch(Reached(events), e)
  {
    ReachedJoin(events, [e]);
    DispatchSafe(Reached(events), e);
    var z := Dispatch(Reached(events), e);
    assert [e][1..] == [];
    assert Run(z, []) == z;
  }

  // ---------- The past is never rewritten ----------

  /** The log only grows, and flows are never removed or renamed. */
  predicate Extends(s: State, r: State) {
    && s.log <= r.log && |s.flows| <= |r.flows|
    && forall k :: 0 <= k < |s.flows| ==> r.flows[k].start == s.flows[k].start
  }

  lemma ApplyExtends(s: State, id: Id, op: Flow -> Flow)
    requires id < |s.flows| && op(s.flows[id]).start == s.flows[id].start
    ensures Extends(s, Apply(s, id, op)) && Apply(s, id, op).log == s.log
  {}

  lemma StartKept(f: Flow)
    ensures Disarm(f).start == f.start && Disconnect(f).start == f.start && UnrefRequest(f).start == f.start
  {}

  lemma StartsKept(f: Flow)
    ensures Hold(f).start == Release(f).start == Unref(f).start == Disarm(f).start == Disconnect(f).start == f.start
  {
    hide Disarm, Disconnect, UnrefRequest;
    StartKept(f);
    StartKept(Disarm(f));
    UnrefKeepsStart(f);
    UnrefKeepsStart(f.(frames := if f.frames > 0 then f.frames - 1 else 0));
  }

  lemma UnrefKeepsStart(f: Flow)
    ensures Unref(f).start == f.start
  {
    hide Disarm, Disconnect, UnrefRequest;
    StartKept(f);
    StartKept(Disarm(f));
    StartKept(Disconnect(Disarm(f)).(txn := None));
  }

  lemma TeardownExtends(s: State, id: Id)
    requires id < |s.flows|
    ensures Extends(s, RunTeardown(s, id))
  {
    hide DropSessionReference;
    var s1 := MarkTorn(s, id);
    assert Extends(s, s1);
    var s2 := ReleaseAdapter(s1, id);
    assert Extends(s, s2);
    DropExtends(s2, id);
    var s3 := DropSessionReference(s2, id);
    assert Extends(s, s3);
    assert Extends(s3, FreeSession(s3, id));
  }

  lemma DropExtends(s: State, id: Id)
    requires id < |s.flows|
    ensures Extends(s, DropSessionReference(s, id))
  {
    var f := s.flows[id];
    if f.session.Some? {
      StartsKept(f.(session := Some(f.session.value.(transaction := false, pendingHost := None, currentHost := None))));
    }
  }

  lemma ReplyExtends(s: State, id: Id, response: Response, uri: Option<string>, reason: Option<Reason>)
    requires id < |s.flows|
    ensures Extends(s, Reply(Unexport(s, id), id, response, uri, reason))
  {
    var g := Unexport(s, id);
    assert Extends(s, g);
    assert Extends(g, Reply(g, id, response, uri, reason));
  }

  lemma FinishedExtends(s: State, id: Id)
    requires id < |s.flows|
    ensures Extends(s, RunFinished(s, id))
  {
    StartsKept(s.flows[id]);
    var g := LeaveList(s, id);
    assert Extends(s, g);
    assert Extends(g, FreeSlot(g, id));
  }

  lemma DetachExtends(s: State, id: Id)
    requires id < |s.flows|
    ensures Extends(s, Apply(Apply(Apply(Commit(s, id), id, Hold), id, Disarm), id, Disconnect))
  {
    var a := Commit(s, id);
    assert Extends(s, a);
    StartsKept(a.flows[id]);
    var b := Apply(a, id, Hold);
    StartsKept(b.flows[id]);
    var c := Apply(b, id, Disarm);
    StartsKept(c.flows[id]);
  }

  lemma FinishExtends(s: State, id: Id, response: Response, uri: Option<string>, reason: Option<Reason>)
    requires id < |s.flows|
    ensures Extends(s, Finish(s, id, response, uri, reason))
  {
    hide Commit, RunTeardown, Unexport, Reply, RunFinished;
    var f := s.flows[id];
    if f.txn.Some? && !f.txn.value.done {
      DetachExtends(s, id);
      var d := Apply(Apply(Apply(Commit(s, id), id, Hold), id, Disarm), id, Disconnect);
      TeardownExtends(d, id);
      var e := RunTeardown(d, id);
      ReplyExtends(e, id, response, uri, reason);
      var h := Reply(Unexport(e, id), id, response, uri, reason);
      FinishedExtends(h, id);
      var k := RunFinished(h, id);
      StartsKept(k.flows[id]);
      ApplyExtends(k, id, Release);
      ExtendsThrice(s, d, e, h, k);
    }
  }

  lemma ExtendsThrice(s: State, d: State, e: State, h: State, k: State)
    requires Extends(s, d) && Extends(d, e) && Extends(e, h) && Extends(h, k)
    ensures Extends(s, k)
  {}

  lemma {:induction false} HoldAllExtends(s: State, ids: seq<Id>)
    requires forall i :: 0 <= i < |ids| ==> ids[i] < |s.flows|
    ensures Extends(s, HoldAll(s, ids))
    decreases |ids|
  {
    if ids != [] {
      StartsKept(s.flows[ids[0]]);
      HoldAllExtends(Apply(s, ids[0], Hold), ids[1..]);
    }
  }

  lemma {:induction false} ReleaseAllExtends(s: State, ids: seq<Id>)
    requires forall i :: 0 <= i < |ids| ==> ids[i] < |s.flows|
    ensures Extends(s, ReleaseAll(s, ids))
    decreases |ids|
  {
    if ids != [] {
      StartsKept(s.flows[ids[0]]);
      ReleaseAllExtends(Apply(s, ids[0], Release), ids[1..]);
    }
  }

  lemma {:induction false} FinishAllExtends(s: State, ids: seq<Id>, reason: Reason)
    requires forall i :: 0 <= i < |ids| ==> ids[i] < |s.flows|
    ensures Extends(s, FinishAll(s, ids, reason))
    decreases |ids|
  {
    if ids != [] {
      FinishExtends(s, ids[0], Other, None, Some(reason));
      FinishAllExtends(Finish(s, ids[0], Other, None, Some(reason)), ids[1..], reason);
    }
  }

  lemma CancelAllExtends(s: State, reason: Reason)
    requires ListInRange(s)
    ensures Extends(s, CancelAll(s, reason))
  {
    HoldAllExtends(s, s.list);
    var s1 := HoldAll(s, s.list);
    FinishAllExtends(s1, s.list, reason);
    ReleaseAllExtends(FinishAll(s1, s.list, reason), s.list);
  }

  lemma AcceptExtends(s: State, args: StartArgs, exportOk: bool, storeOk: bool, provider: Option<Provider>)
    requires Idle(s) && args.timeout > 0
    ensures Extends(s, Accept(s, args, exportOk, storeOk, provider))
  {
    hide Accept, Idle, AcceptTrace, Discarded, StoreBuilds, Running;
    if !exportOk || args.path in s.registry {
      AcceptRefused(s, args, exportOk, storeOk, provider);
    } else if !StoreBuilds(args, storeOk) {
      AcceptFailed(s, args, storeOk, provider);
    } else {
      AcceptOpened(s, args, storeOk, provider);
    }
  }

  lemma StartExtends(s: State, c: StartCall, validated: Option<Storage.Mode>)
    requires Idle(s)
    ensures Extends(s, HandleChecked(s, c, validated))
  {
    hide Accept, Idle;
    var (s1, accepted) := SenderCheck(CountInvocation(s), c.sender, c.first, c.second);
    IdleElsewhere(s, s1);
    if accepted && validated.Some? {
      ClampedTimeout(c.timeout);
      AcceptExtends(s1, ArgsOf(c, s.invocations, validated.value), c.exportOk, c.storeOk, c.provider);
    }
  }

  lemma CloseExtends(s: State, c: CloseCall)
    requires Idle(s)
    ensures Extends(s, HandleClose(s, c))
  {
    hide Idle, SenderCheck, CloseTrace, AllSafe, RemoveFast, EndedPin;
    if c.path in s.registry {
      if SenderCheck(s, c.sender, c.first, c.second).1 {
        CloseAccepted(s, c);
      } else {
        CloseRefused(s, c);
      }
    }
  }

  lemma AuthenticateExtends(s: State, id: Id, challenge: Challenge)
    requires Receives(s, id)
    ensures Extends(s, OnAuthenticate(s, id, challenge))
  {}

  lemma FinishForExtends(s: State, id: Id, response: Response, uri: Option<string>, reason: Option<Reason>)
    requires id < |s.flows|
    ensures Extends(s, FinishFor(s, id, response, uri, reason))
  {
    FinishExtends(s, id, response, uri, reason);
  }

  lemma NavigationExtends(s: State, id: Id, uri: Option<string>)
    requires Receives(s, id)
    ensures Extends(s, OnNavigation(s, id, uri))
  {
    hide FinishFor, CompletesOn;
    var s1 := Emit(s, Asked(id, uri, true));
    FinishForExtends(s1, id, Completed, uri, None);
  }

  lemma ResponseExtends(s: State, id: Id, uri: Option<string>, supported: bool)
    requires Receives(s, id)
    ensures Extends(s, OnResponse(s, id, uri, supported))
  {
    hide FinishFor, CompletesOn;
    var s1 := Emit(s, Asked(id, uri, false));
    FinishForExtends(s1, id, Completed, uri, None);
  }

  lemma LoadFailedExtends(s: State, id: Id, cancelled: bool)
    requires Receives(s, id)
    ensures Extends(s, OnLoadFailed(s, id, cancelled))
  {
    hide FinishFor, CompletesOn;
    FinishForExtends(s, id, Other, None, Some(FailureReason(s.flows[id].session.value)));
  }

  lemma EngineExtends(s: State, e: Event)
    requires IsEngineEvent(e) && Receives(s, e.id)
    ensures Extends(s, DispatchEngine(s, e))
  {
    match e
    case UserCancels(id) => FinishForExtends(s, id, Cancelled, None, Some(UserCancelled));
    case Navigation(id, uri) => NavigationExtends(s, id, uri);
    case ResponseDecision(id, uri, supported) => ResponseExtends(s, id, uri, supported);
    case NewWindow(id, uri) =>
    case LoadChanged(id, phase, uri) =>
    case LoadFails(id, cancelled) => LoadFailedExtends(s, id, cancelled);
    case TlsFails(id) => FinishForExtends(s, id, Other, None, Some(TlsError));
    case ProcessGone(id) => FinishForExtends(s, id, Other, None, Some(SessionTerminated));
    case Authenticate(id, challenge) => AuthenticateExtends(s, id, challenge);
  }

  lemma DeadlineExtends(s: State, id: Id)
    requires TimerDue(s, id)
    ensures Extends(s, OnDeadline(s, id))
  {
    var f := s.flows[id];
    if f.txn.Some? {
      var g := f.(timer := None, txn := Some(f.txn.value.(deadlineId := false)));
      FinishExtends(Put(s, id, g), id, Other, None, Some(Timeout));
    }
  }

  lemma IdleInRange(s: State)
    requires Idle(s)
    ensures InRange(s)
  {}

  lemma DispatchExtends(s: State, e: Event)
    requires Idle(s)
    ensures Extends(s, Dispatch(s, e))
  {
    hide HandleStart, HandleClose, CancelAll, DispatchEngine, OnDeadline, Idle;
    IdleInRange(s);
    match e
    case StartReceived(c) =>
      StartExtends(s, c, Validated(c));
      StartIsChecked(s, c);
    case CloseReceived(c) => CloseExtends(s, c);
    case FrontendAppeared(_) =>
    case FrontendVanished => CancelAllExtends(s.(owner := None), SessionTerminated);
    case Shutdown => CancelAllExtends(s, SessionTerminated);
    case ClockTicks =>
    case DeadlineFires(id) => if TimerDue(s, id) { DeadlineExtends(s, id); }
    case _ => if Receives(s, e.id) { EngineExtends(s, e); }
  }

  lemma StartIsChecked(s: State, c: StartCall)
    ensures HandleStart(s, c) == HandleChecked(s, c, Validated(c))
  {
    hide HandleChecked, Validated;
  }

  lemma {:induction false} RunExtends(s: State, events: seq<Event>)
    requires Idle(s)
    ensures Extends(s, Run(s, events))
    decreases |events|
  {
    if events != [] {
      DispatchSafe(s, events[0]);
      DispatchExtends(s, events[0]);
      RunExtends(Dispatch(s, events[0]), events[1..]);
    }
  }

  lemma {:induction false} AnswersOfPrefix(a: seq<Entry>, b: seq<Entry>, invocation: nat)
    requires a <= b
    ensures Answers(a, invocation) <= Answers(b, invocation)
    decreases |b|
  {
    if |a| < |b| {
      assert a <= Front(b);
      AnswersOfPrefix(a, Front(b), invocation);
    } else {
      assert a == b;
    }
  }

  // ---------- One answer for each call ----------

  lemma LiveIsPending(s: State, id: Id)
    requires History(s) && id < |s.flows|
    ensures Pending(s, s.flows[id].start.invocation) <==> Receives(s, id)
  {
    if Pending(s, s.flows[id].start.invocation) {
      var k :| 0 <= k < |s.flows| && Receives(s, k) && s.flows[k].start.invocation == s.flows[id].start.invocation;
      assert k == id;
    }
  }

  /**
    Every Start call that arrived has exactly one answer, unless its flow is
    still live, and then it has none: refused, invalid, not exported, without a
    store, or run to any terminal event in any interleaving.
   */
  lemma OneAnswerPerStart(events: seq<Event>, invocation: nat)
    ensures var s := Reached(events);
      Answers(s.log, invocation) == if invocation < s.invocations && !Pending(s, invocation) then 1 else 0
  {
    ReachedHistory(events);
    assert AnswerStory(Reached(events), invocation);
  }

  /** Finish commits at most once for each flow, exactly once for each window that is no longer up, and never comes late. */
  lemma OneCommitPerFlow(events: seq<Event>, id: Id)
    requires id < |Reached(events).flows|
    ensures var s := Reached(events);
      && Commits(s.log, id) <= 1
      && (OpenedAt(s.log, id).Some? ==> (Commits(s.log, id) == 1 <==> !Receives(s, id)))
      && forall i :: 0 <= i < |s.log| ==> !s.log[i].LateFinish?
  {
    ReachedHistory(events);
    var s := Reached(events);
    assert FlowStory(s, id);
    forall i | 0 <= i < |s.log|
      ensures !s.log[i].LateFinish?
    {
      assert EntryOk(Starts(s), s.log[..i], s.log[i]);
    }
  }

  /** An answer stays the only one: what any later run adds comes after it. */
  lemma AnswersAreFinal(events: seq<Event>, more: seq<Event>, invocation: nat)
    requires Answers(Reached(events).log, invocation) == 1
    ensures Reached(events).log <= Reached(events + more).log
    ensures Answers(Reached(events + more).log, invocation) == 1
  {
    ReachedJoin(events, more);
    RunExtends(Reached(events), more);
    AnswersOfPrefix(Reached(events).log, Reached(events + more).log, invocation);
    OneAnswerPerStart(events + more, invocation);
  }

  /** A flow that ended is never heard of again. */
  lemma EndedStaysEnded(events: seq<Event>, more: seq<Event>, id: Id)
    requires id < |Reached(events).flows| && !Receives(Reached(events), id)
    ensures id < |Reached(events + more).flows| && Freed(Reached(events + more).flows[id])
  {
    var s, z := Reached(events), Reached(events + more);
    ReachedJoin(events, more);
    RunExtends(s, more);
    ReachedHistory(events);
    ReachedHistory(events + more);
    LiveIsPending(s, id);
    LiveIsPending(z, id);
    assert FlowStory(s, id);
    OneAnswerPerStart(events, s.flows[id].start.invocation);
    AnswersAreFinal(events, more, s.flows[id].start.invocation);
    OneAnswerPerStart(events + more, s.flows[id].start.invocation);
    AllOrNothing(z, id);
  }

  // ---------- Between events ----------

  /** Between events a flow has every part or none, and live flows own distinct paths. */
  lemma PartsTogether(events: seq<Event>, id: Id)
    requires id < |Reached(events).flows|
    ensures var s := Reached(events); var f := s.flows[id];
      && (!Finished(f) <==> id in s.list)
      && (!Finished(f) <==> Receives(s, id))
      && (!Finished(f) <==> f.timer.Some?)
      && (!Finished(f) <==> IsExported(f))
      && (!Finished(f) <==> f.request.Some? && f.request.value.closeHandler)
      && (!Finished(f) <==> f.start.path in s.registry && s.registry[f.start.path] == id)
      && (Finished(f) ==> Freed(f))
  {
    AllOrNothing(Reached(events), id);
  }

  lemma LivePathsAreDistinct(events: seq<Event>, a: Id, b: Id)
    requires var s := Reached(events); Receives(s, a) && Receives(s, b) && s.flows[a].start.path == s.flows[b].start.path
    ensures a == b
  {
    AllOrNothing(Reached(events), a);
    AllOrNothing(Reached(events), b);
  }

  // ---------- What replies say ----------

  /** Response 0 carries, verbatim, a URI that the engine presented to that flow and that matches; 1 and 2 carry only a reason. */
  lemma RepliesAreJustified(events: seq<Event>, i: nat)
    requires i < |Reached(events).log| && Reached(events).log[i].Replied?
    ensures var s := Reached(events); var e := s.log[i];
      match e.response
      case Completed =>
        && e.reason.None? && e.uri.Some?
        && exists id :: 0 <= id < |s.flows| && s.flows[id].start.invocation == e.invocation
             && WasAsked(s.log[..i], id, e.uri)
             && Completion.Matches(e.uri, Some(s.flows[id].start.completionUri))
      case Cancelled => e.uri.None? && (e.reason == Some(UserCancelled) || e.reason == Some(RequestClosed))
      case Other => e.uri.None? && e.reason.Some? && e.reason != Some(UserCancelled) && e.reason != Some(RequestClosed)
  {
    ReachedHistory(events);
    var s := Reached(events);
    assert EntryOk(Starts(s), s.log[..i], s.log[i]);
    if s.log[i].response == Completed {
      var id :| 0 <= id < |Starts(s)| && Starts(s)[id].invocation == s.log[i].invocation && WasAsked(s.log[..i], id, s.log[i].uri)
        && Completion.Matches(s.log[i].uri, Some(Starts(s)[id].completionUri));
      assert Starts(s)[id] == s.flows[id].start;
    }
  }

  /** No navigation or response that matches the completion URI is ever let through. */
  lemma MatchesNeverLoad(events: seq<Event>, i: nat)
    requires i < |Reached(events).log| && Reached(events).log[i].LetThrough?
    ensures var s := Reached(events); var e := s.log[i];
      e.id < |s.flows| && !Completion.Matches(e.uri, Some(s.flows[e.id].start.completionUri))
  {
    ReachedHistory(events);
    var s := Reached(events);
    assert EntryOk(Starts(s), s.log[..i], s.log[i]);
  }

  /** A Close answered with success comes after its flow was finished, whatever the bus said at each lookup. */
  lemma ClosedMeansFinished(events: seq<Event>, i: nat)
    requires i < |Reached(events).log| && Reached(events).log[i].CloseAnswered? && Reached(events).log[i].success
    ensures Commits(Reached(events).log[..i], Reached(events).log[i].id) == 1
  {
    ReachedHistory(events);
    var s := Reached(events);
    assert EntryOk(Starts(s), s.log[..i], s.log[i]);
  }

  /** A persistent store is opened only for a shared session with a safe directory name. */
  lemma StoresAreNamed(events: seq<Event>, i: nat)
    requires i < |Reached(events).log| && Reached(events).log[i].StoreOpened?
    ensures var s := Reached(events); var e := s.log[i];
      && e.id < |s.flows| && s.flows[e.id].start.mode == Storage.Shared
      && Storage.DirectoryName(Some(s.flows[e.id].start.appId)) == Some(e.name)
  {
    ReachedHistory(events);
    var s := Reached(events);
    assert EntryOk(Starts(s), s.log[..i], s.log[i]);
  }

  /** A certificate is asked for only on behalf of the host being navigated to or loaded. */
  lemma ProviderSeesRelatedHosts(events: seq<Event>, i: nat)
    requires i < |Reached(events).log| && Reached(events).log[i].ProviderAsked?
    ensures var s := Reached(events); var e := s.log[i];
      && e.id < |s.flows|
      && (HostIs(e.host, NavigationHost(s.log[..i], e.id, s.flows[e.id].start)) || HostIs(e.host, LoadHost(s.log[..i], e.id)))
  {
    ReachedHistory(events);
    var s := Reached(events);
    assert EntryOk(Starts(s), s.log[..i], s.log[i]);
  }

  // ---------- How flows end ----------

  lemma EndIsVisible(s: State, id: Id, response: Response, reason: Reason)
    requires id < |s.flows| && s.flows[id].txn.Some? && s.flows[id].txn.value.invocation == Some(s.flows[id].start.invocation)
    requires response != Completed
    ensures var z := AfterEnd(s, id, EndEntries(s.flows[id], id, response, None, Some(reason)));
      && !Receives(z, id) && |z.flows| == |s.flows|
      && (forall k :: 0 <= k < |s.flows| && k != id ==> z.flows[k] == s.flows[k])
      && z.log == s.log + [Committed(id), Replied(s.flows[id].start.invocation, response, None, Some(reason))]
      && z.pin == EndedPin(s, s.flows[id])
  {}

  lemma LiveInvocation(events: seq<Event>, id: Id)
    requires Receives(Reached(events), id)
    ensures var s := Reached(events); var f := s.flows[id];
      && f.txn.Some? && f.txn.value.invocation == Some(f.start.invocation)
      && f.session.value.pendingReason == LatestDecline(s.log, id)
  {
    ReachedHistory(events);
    assert FlowStory(Reached(events), id);
  }

  /**
    The outcome of a failed load is a function of the flow's history: it ends the
    flow exactly when the load was not merely cancelled or a challenge had been
    declined, and then with the latest decline's reason, else load_failed.
   */
  lemma LoadFailureOutcome(events: seq<Event>, id: Id, cancelled: bool)
    requires Receives(Reached(events), id)
    ensures var s := Reached(events); var declined := LatestDecline(s.log, id);
      var z := Reached(events + [LoadFails(id, cancelled)]);
      if cancelled && declined.None? then z == s
      else
        && !Receives(z, id)
        && z.log == s.log + [Committed(id),
             Replied(s.flows[id].start.invocation, Other, None, Some(if declined.Some? then declined.value else LoadFailed))]
  {
    AfterLoadFails(events, id, cancelled);
    LiveInvocation(events, id);
    FailedLoad(Reached(events), id, cancelled);
  }

  lemma AfterLoadFails(events: seq<Event>, id: Id, cancelled: bool)
    requires Receives(Reached(events), id)
    ensures Reached(events + [LoadFails(id, cancelled)]) == OnLoadFailed(Reached(events), id, cancelled)
  {
    hide Reached, HandleStart, HandleClose, CancelAll, OnDeadline, Tick, OnLoadFailed;
    ReachedNext(events, LoadFails(id, cancelled));
  }

  lemma FailedLoad(s: State, id: Id, cancelled: bool)
    requires Idle(s) && Receives(s, id)
    requires s.flows[id].txn.Some? && s.flows[id].txn.value.invocation == Some(s.flows[id].start.invocation)
    ensures var w := s.flows[id].session.value; var z := OnLoadFailed(s, id, cancelled);
      if cancelled && w.pendingReason.None? then z == s
      else
        && !Receives(z, id)
        && z.log == s.log + [Committed(id), Replied(s.flows[id].start.invocation, Other, None, Some(FailureReason(w)))]
  {
    LoadFailedEffect(s, id, cancelled);
    EndIsVisible(s, id, Other, FailureReason(s.flows[id].session.value));
  }

  /** Frontend loss and shutdown leave nothing behind, and every call answered. */
  lemma LossEndsEverything(events: seq<Event>, e: Event, invocation: nat)
    requires e == FrontendVanished || e == Shutdown
    ensures var z := Reached(events + [e]);
      && Empty(z)
      && (invocation < z.invocations ==> Answers(z.log, invocation) == 1)
  {
    ReachedNext(events, e);
    var s, z := Reached(events), Reached(events + [e]);
    IdleElsewhere(s, s.(owner := None));
    CancelAllEmpties(s.(owner := None), SessionTerminated);
    CancelAllEmpties(s, SessionTerminated);
    OneAnswerPerStart(events + [e], invocation);
    assert !Pending(z, invocation) by {
      assert forall k :: 0 <= k < |z.flows| ==> Freed(z.flows[k]);
    }
  }

  /** No flow outlives its timeout, which is between 1 and 900 seconds, after its window went up. */
  lemma DeadlineBoundsLife(events: seq<Event>, id: Id)
    requires Receives(Reached(events), id)
    ensures var s := Reached(events); var since := OpenedAt(s.log, id); var timeout := s.flows[id].start.timeout;
      && since.Some? && 1 <= timeout <= MAX_TIMEOUT
      && since.value <= s.now <= since.value + timeout
      && s.flows[id].timer == Some(since.value + timeout)
  {
    ReachedHistory(events);
    assert FlowStory(Reached(events), id);
  }

  /** When the time is up, the flow is answered before the clock goes on. */
  lemma DeadlineAnswers(events: seq<Event>, id: Id)
    requires Receives(Reached(events), id) && TimerDue(Reached(events), id)
    ensures Reached(events + [ClockTicks]) == Reached(events)
    ensures var s := Reached(events); var z := Reached(events + [DeadlineFires(id)]);
      && !Receives(z, id)
      && z.log == s.log + [Committed(id), Replied(s.flows[id].start.invocation, Other, None, Some(Timeout))]
  {
    AfterTick(events, id);
    AfterDeadline(events, id);
    LiveInvocation(events, id);
    FiredDeadline(Reached(events), id);
  }

  lemma AfterTick(events: seq<Event>, id: Id)
    requires TimerDue(Reached(events), id)
    ensures Reached(events + [ClockTicks]) == Reached(events)
  {
    hide Reached, HandleStart, HandleClose, CancelAll, OnDeadline, DispatchEngine;
    ReachedNext(events, ClockTicks);
    assert !(forall k :: 0 <= k < |Reached(events).flows| ==> !TimerDue(Reached(events), k));
  }

  lemma AfterDeadline(events: seq<Event>, id: Id)
    requires TimerDue(Reached(events), id)
    ensures Reached(events + [DeadlineFires(id)]) == OnDeadline(Reached(events), id)
  {
    hide Reached, HandleStart, HandleClose, CancelAll, Tick, DispatchEngine, OnDeadline;
    ReachedNext(events, DeadlineFires(id));
  }

  lemma FiredDeadline(s: State, id: Id)
    requires Idle(s) && TimerDue(s, id)
    requires s.flows[id].txn.Some? && s.flows[id].txn.value.invocation == Some(s.flows[id].start.invocation)
    ensures var z := OnDeadline(s, id);
      && !Receives(z, id)
      && z.log == s.log + [Committed(id), Replied(s.flows[id].start.invocation, Other, None, Some(Timeout))]
  {
    DeadlineEffect(s, id);
    EndIsVisible(s, id, Other, Timeout);
  }

  // ---------- The PIN buffer ----------

  /** The PIN buffer is filled only while a session of the pkcs11 provider is up. */
  lemma PinOutlivesNoSession(events: seq<Event>)
    requires Reached(events).pin.Some?
    ensures exists id: Id :: Receives(Reached(events), id) && Reached(events).flows[id].session.value.provider == Some(Pkcs11)
  {
    var s := Reached(events);
    var id :| 0 <= id < |s.flows| && UsesPkcs11(s.flows[id]);
    assert Settled(s, id);
    assert Receives(s, id);
  }

  // ---------- Inside finish ----------

  /** The Request is off the bus, and the window, the timer and the handler are gone. */
  predicate OffTheBus(s: State, id: Id) {
    id < |s.flows| && IsHidden(s.flows[id]) && s.flows[id].start.path !in s.registry
  }

  predicate IsHidden(f: Flow) {
    && !IsExported(f) && f.session.None? && f.timer.None?
    && (f.request.Some? ==> !f.request.value.closeHandler)
    && (f.txn.Some? ==> f.txn.value.done)
  }

  lemma UnrefStaysHidden(f: Flow)
    requires IsHidden(f)
    ensures IsHidden(Unref(f)) && Unref(f).start == f.start
  {}

  lemma ReleaseStaysHidden(f: Flow)
    requires IsHidden(f)
    ensures IsHidden(Release(f)) && Release(f).start == f.start
  {
    hide Unref;
    if f.frames > 0 {
      UnrefStaysHidden(f.(frames := f.frames - 1));
    }
  }

  /** Nothing is answered yet, or the flow is off the bus already. */
  predicate NotTooEarly(log: seq<Entry>, m: State, id: Id) { m.log == log || OffTheBus(m, id) }

  predicate NoneTooEarly(log: seq<Entry>, trace: seq<State>, id: Id) {
    forall i :: 0 <= i < |trace| ==> NotTooEarly(log, trace[i], id)
  }

  lemma TeardownSaysNothing(s: State, id: Id)
    requires id < |s.flows|
    ensures NoneTooEarly(s.log, TeardownTrace(s, id), id) && RunTeardown(s, id).log == s.log
  {
    var s1 := MarkTorn(s, id);
    assert s1.log == s.log;
    var s2 := ReleaseAdapter(s1, id);
    assert s2.log == s.log;
    var s3 := DropSessionReference(s2, id);
    assert s3.log == s.log;
    assert FreeSession(s3, id).log == s.log;
  }

  lemma TailOffTheBus(s: State, id: Id, response: Response, uri: Option<string>, reason: Option<Reason>)
    requires Safe(s) && id < |s.flows| && Count(s, id) == 1 && BeforeUnexport(s.flows[id])
    ensures var g := Unexport(s, id);
      var h := Reply(g, id, response, uri, reason);
      && g.log == s.log && OffTheBus(h, id)
  {
    UnexportSafe(s, id);
    UnexportFlow(s.flows[id], 1);
  }

  lemma ApplyOffTheBus(s: State, id: Id, f: Flow)
    requires OffTheBus(s, id) && IsHidden(f) && f.start == s.flows[id].start
    ensures OffTheBus(Put(s, id, f), id)
  {}

  lemma FinishedOffTheBus(h: State, id: Id)
    requires OffTheBus(h, id)
    ensures forall m :: m in FinishedTrace(h, id) ==> OffTheBus(m, id)
    ensures OffTheBus(RunFinished(h, id), id) && OffTheBus(Apply(RunFinished(h, id), id, Release), id)
  {
    var f := h.flows[id];
    UnrefStaysHidden(f);
    ApplyOffTheBus(h, id, Bad(f));
    ApplyOffTheBus(h, id, Unref(f));
    var k1 := LeaveList(h, id);
    assert OffTheBus(k1, id);
    var g := k1.flows[id];
    ApplyOffTheBus(k1, id, if g.slot then g.(slot := false) else Bad(g));
    assert OffTheBus(FreeSlot(k1, id), id);
    var k := RunFinished(h, id);
    ReleaseStaysHidden(k.flows[id]);
    ApplyOffTheBus(k, id, Release(k.flows[id]));
  }

  /**
    Whatever ends a flow, the order inside finish is kept: at every moment at
    which its reply has been sent, the Request has left the bus and the window,
    the timer and the Close handler are gone.
   */
  lemma RepliesComeAfterUnexport(s: State, id: Id, response: Response, uri: Option<string>, reason: Option<Reason>)
    requires Safe(s) && id < |s.flows| && Ready(s.flows[id], Count(s, id))
    ensures NoneTooEarly(s.log + [Committed(id)], FinishTrace(s, id, response, uri, reason), id)
  {
    var f := s.flows[id];
    DetachedIsBeforeTeardown(f, Count(s, id));
    DetachSafe(s, id);
    var d := With(s, id, Detached(f), s.log + [Committed(id)], s.pin);
    TeardownSafe(d, id);
    TeardownSaysNothing(d, id);
    var e := RunTeardown(d, id);
    assert Count(e, id) == Count(s, id);
    TailOffTheBus(e, id, response, uri, reason);
    FinishedOffTheBus(Reply(Unexport(e, id), id, response, uri, reason), id);
    assert !f.txn.value.done;
    TraceInOrder(s, id, response, uri, reason, d);
  }

  lemma TraceInOrder(s: State, id: Id, response: Response, uri: Option<string>, reason: Option<Reason>, d: State)
    requires id < |s.flows| && s.flows[id].txn.Some? && !s.flows[id].txn.value.done
    requires d == Apply(Apply(Apply(Commit(s, id), id, Hold), id, Disarm), id, Disconnect)
    requires d.log == s.log + [Committed(id)]
    requires NoneTooEarly(d.log, TeardownTrace(d, id), id)
    requires var g := Unexport(RunTeardown(d, id), id); var h := Reply(g, id, response, uri, reason);
      && g.log == d.log && OffTheBus(h, id)
      && (forall m :: m in FinishedTrace(h, id) ==> OffTheBus(m, id))
      && OffTheBus(Apply(RunFinished(h, id), id, Release), id)
    ensures NoneTooEarly(s.log + [Committed(id)], FinishTrace(s, id, response, uri, reason), id)
  {}
}
