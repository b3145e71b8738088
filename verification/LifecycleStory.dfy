/** Every event keeps the story of the log. */
module LifecycleStory {
  import opened Wrappers
  import Completion
  import Storage
  import opened Lifecycle
  import opened LifecycleSafety
  import opened LifecycleEvents
  import opened LifecycleStart
  import opened LifecycleDispatch
  import opened LifecycleClose
  import opened LifecycleEngine
  import opened LifecycleRuns
  import opened LifecycleHistory

  // ---------- Start ----------

  /** An entry of handle_start about a flow that is being created, or about no flow. */
  predicate IsStartEntry(e: Entry, id: Id) {
    || e.Replied? || e.Denied? || e == Committed(id)
    || (e.Opened? && e.id == id) || (e.StoreOpened? && e.id == id)
  }

  lemma {:induction false} StartEntriesRead(log: seq<Entry>, more: seq<Entry>, id: Id, k: Id, start: StartArgs)
    requires forall i :: 0 <= i < |more| ==> IsStartEntry(more[i], id)
    ensures var z := log + more;
      && NavigationHost(z, k, start) == NavigationHost(log, k, start)
      && LoadHost(z, k) == LoadHost(log, k)
      && LatestDecline(z, k) == LatestDecline(log, k)
      && (k != id ==> OpenedAt(z, k) == OpenedAt(log, k) && Commits(z, k) == Commits(log, k))
    decreases |more|
  {
    hide Completion.HostOf, Completion.Matches;
    if more == [] {
      assert log + more == log;
    } else {
      var e := more[|more| - 1];
      var front := more[..|more| - 1];
      StartEntriesRead(log, front, id, k, start);
      assert log + more == (log + front) + [e];
      FrontOfAppend(log + front, e);
    }
  }

  /** The calls that a Start adds: one new invocation, at most one new flow, and entries about them. */
  ghost predicate StartsFlow(s: State, r: State, flow: Flow, more: seq<Entry>) {
    && r.flows == s.flows + [flow]
    && flow.start.invocation == s.invocations
    && r.log == s.log + more && r.now == s.now && r.invocations == s.invocations + 1
    && forall i :: 0 <= i < |more| ==> IsStartEntry(more[i], |s.flows|)
  }

  lemma StartOldFlows(s: State, r: State, flow: Flow, more: seq<Entry>, k: Id)
    requires History(s) && StartsFlow(s, r, flow, more) && k < |s.flows|
    ensures FlowStory(r, k)
  {
    hide LogOk, AnswerStory, OwnInvocations, NavigationHost, LoadHost, LatestDecline, OpenedAt, Commits;
    assert FlowStory(s, k);
    StartEntriesRead(s.log, more, |s.flows|, k, s.flows[k].start);
    assert r.flows[k] == s.flows[k];
  }

  lemma StartAnswers(s: State, r: State, flow: Flow, more: seq<Entry>, invocation: nat)
    requires History(s) && StartsFlow(s, r, flow, more)
    requires forall j :: Answers(r.log, j) == Answers(s.log, j) + (if j == s.invocations && !Receives(r, |s.flows|) then 1 else 0)
    ensures AnswerStory(r, invocation)
  {
    assert AnswerStory(s, invocation);
    var id := |s.flows|;
    assert forall k :: 0 <= k < id ==> (Receives(r, k) <==> Receives(s, k)) && r.flows[k].start == s.flows[k].start;
    if Pending(s, invocation) {
      var k :| 0 <= k < |s.flows| && Receives(s, k) && s.flows[k].start.invocation == invocation;
      assert FlowStory(s, k) && Receives(r, k);
    }
    if Pending(r, invocation) {
      var k :| 0 <= k < |r.flows| && Receives(r, k) && r.flows[k].start.invocation == invocation;
      if k < id {
        assert Receives(s, k);
      }
    }
    if invocation == s.invocations && Receives(r, id) {
      assert Pending(r, invocation);
    }
  }

  lemma StartInvocations(s: State, r: State, flow: Flow, more: seq<Entry>)
    requires History(s) && StartsFlow(s, r, flow, more)
    ensures OwnInvocations(r)
  {
    forall a, b | 0 <= a < |r.flows| && 0 <= b < |r.flows| && r.flows[a].start.invocation == r.flows[b].start.invocation
      ensures a == b
    {
      if a < |s.flows| { assert FlowStory(s, a) && r.flows[a] == s.flows[a]; }
      if b < |s.flows| { assert FlowStory(s, b) && r.flows[b] == s.flows[b]; }
    }
  }

  lemma StartStep(s: State, r: State, flow: Flow, more: seq<Entry>)
    requires History(s) && StartsFlow(s, r, flow, more)
    requires LogOk(Starts(r), r.log) && FlowStory(r, |s.flows|)
    requires forall j :: Answers(r.log, j) == Answers(s.log, j) + (if j == s.invocations && !Receives(r, |s.flows|) then 1 else 0)
    ensures History(r)
  {
    hide LogOk, FlowStory, AnswerStory;
    forall k | 0 <= k < |r.flows|
      ensures FlowStory(r, k)
    {
      if k < |s.flows| {
        StartOldFlows(s, r, flow, more, k);
      }
    }
    forall invocation
      ensures AnswerStory(r, invocation)
    {
      StartAnswers(s, r, flow, more, invocation);
    }
    StartInvocations(s, r, flow, more);
  }

  lemma StartsMore(s: State, r: State, flow: Flow)
    requires r.flows == s.flows + [flow]
    ensures Starts(r) == Starts(s) + [flow.start]
  {}

  lemma AnswersStep(log: seq<Entry>, e: Entry)
    ensures forall j: nat :: Answers(log + [e], j) == Answers(log, j) + One(IsAnswer(e, j))
  {
    FrontOfAppend(log, e);
  }

  /** The log of a Start that failed: perhaps a commit, then the reply. */
  lemma DiscardedLog(starts: seq<StartArgs>, log: seq<Entry>, id: Id, reply: Entry, committed: bool)
    requires LogOk(starts, log) && id < |starts| && Commits(log, id) == 0
    requires reply.Replied? && reply.response == Other && reply.uri.None? && reply.reason.Some?
    requires reply.reason != Some(UserCancelled) && reply.reason != Some(RequestClosed)
    ensures var z := log + (if committed then [Committed(id), reply] else [reply]);
      && LogOk(starts, z)
      && Commits(z, id) == One(committed) && OpenedAt(z, id) == OpenedAt(log, id)
      && forall j: nat :: Answers(z, j) == Answers(log, j) + One(j == reply.invocation)
  {
    hide LogOk;
    if committed {
      var m := log + [Committed(id)];
      LogOkAppend(starts, log, Committed(id));
      LogOkAppend(starts, m, reply);
      assert log + [Committed(id), reply] == m + [reply];
      FrontOfAppend(log, Committed(id));
      FrontOfAppend(m, reply);
      AnswersStep(log, Committed(id));
      AnswersStep(m, reply);
    } else {
      LogOkAppend(starts, log, reply);
      FrontOfAppend(log, reply);
      AnswersStep(log, reply);
    }
  }

  /** A Start that was refused after its Request existed, or whose store could not be opened. */
  lemma DiscardedStep(s: State, r: State, args: StartArgs, committed: bool, reason: Reason)
    requires History(s)
    requires reason != UserCancelled && reason != RequestClosed
    requires var id := |s.flows|; var reply := Replied(args.invocation, Other, None, Some(reason));
      StartsFlow(s, r, Discarded(args), if committed then [Committed(id), reply] else [reply])
    ensures History(r)
  {
    hide LogOk, NavigationHost, LoadHost, LatestDecline, EntryOk;
    var id := |s.flows|;
    var reply := Replied(args.invocation, Other, None, Some(reason));
    var more := if committed then [Committed(id), reply] else [reply];
    StartsMore(s, r, Discarded(args));
    LogOkMore(Starts(s), s.log, args);
    NothingAboutLater(Starts(s), s.log, id, args);
    DiscardedLog(Starts(r), s.log, id, reply, committed);
    assert r.flows[id] == Discarded(args) && !Receives(r, id);
    StartStep(s, r, Discarded(args), more);
  }

  /** The log of a Start that succeeded: perhaps a store, then the window. */
  lemma OpenedLog(s: State, r: State, args: StartArgs, id: Id)
    requires id == |s.flows| && Starts(r) == Starts(s) + [args]
    requires LogOk(Starts(r), s.log) && Commits(s.log, id) == 0
    ensures var z := s.log + (StoreLog(args, id, []) + [Opened(id, s.now)]);
      && LogOk(Starts(r), z)
      && Commits(z, id) == 0 && OpenedAt(z, id) == Some(s.now)
      && forall j: nat :: Answers(z, j) == Answers(s.log, j)
  {
    hide LogOk, StoreLog;
    var store := StoreLog(args, id, []);
    var m, e := s.log + store, Opened(id, s.now);
    StoreStep(s, r, args, id);
    LogOkAppend(Starts(r), m, e);
    FrontOfAppend(m, e);
    AnswersStep(m, e);
    assert s.log + (store + [e]) == m + [e];
  }

  /** A Start whose window was presented. */
  lemma OpenedStep(s: State, r: State, args: StartArgs, provider: Option<Provider>)
    requires History(s)
    requires 1 <= args.timeout <= MAX_TIMEOUT
    requires StartsFlow(s, r, Running(args, provider, s.now),
                        StoreLog(args, |s.flows|, []) + [Opened(|s.flows|, s.now)])
    ensures History(r)
  {
    hide LogOk, EntryOk, StoreLog, Commits, Answers;
    var id := |s.flows|;
    var flow := Running(args, provider, s.now);
    var more := StoreLog(args, id, []) + [Opened(id, s.now)];
    StartsMore(s, r, flow);
    LogOkMore(Starts(s), s.log, args);
    NothingAboutLater(Starts(s), s.log, id, args);
    StartEntriesRead(s.log, more, id, id, args);
    OpenedLog(s, r, args, id);
    assert r.flows[id] == flow && Receives(r, id);
    StartStep(s, r, flow, more);
  }

  lemma StoreStep(s: State, r: State, args: StartArgs, id: Id)
    requires id == |s.flows| && Starts(r) == Starts(s) + [args]
    requires LogOk(Starts(r), s.log)
    ensures var log := s.log + StoreLog(args, id, []);
      && LogOk(Starts(r), log)
      && Commits(log, id) == Commits(s.log, id)
      && forall j :: Answers(log, j) == Answers(s.log, j)
  {
    if args.mode == Storage.Shared && StoreName(args).Some? {
      var e := StoreOpened(id, StoreName(args).value);
      LogOkAppend(Starts(r), s.log, e);
      FrontOfAppend(s.log, e);
      assert [] + [e] == [e];
    } else {
      assert s.log + [] == s.log;
    }
  }

  /** A Start that was answered before anything was allocated. */
  lemma RefusedStep(s: State, r: State, e: Entry)
    requires History(s)
    requires r.flows == s.flows && r.log == s.log + [e] && r.now == s.now && r.invocations == s.invocations + 1
    requires e == Denied(s.invocations) || e == Replied(s.invocations, Other, None, Some(InvalidRequest))
    ensures History(r)
  {
    hide NavigationHost, LoadHost, LatestDecline, OpenedAt, Commits;
    assert Starts(r) == Starts(s);
    LogOkAppend(Starts(s), s.log, e);
    FrontOfAppend(s.log, e);
    forall k | 0 <= k < |r.flows|
      ensures FlowStory(r, k)
    {
      assert FlowStory(s, k);
      StartEntriesRead(s.log, [e], |s.flows|, k, s.flows[k].start);
    }
    forall invocation
      ensures AnswerStory(r, invocation)
    {
      assert AnswerStory(s, invocation);
      SamePending(s, r, invocation);
      if Pending(s, invocation) {
        var k :| 0 <= k < |s.flows| && Receives(s, k) && s.flows[k].start.invocation == invocation;
        assert FlowStory(s, k);
      }
    }
  }

  /** The state handle_start continues in: the call is counted, nothing else has happened. */
  predicate Counted(s: State, s1: State) {
    s1.flows == s.flows && s1.log == s.log && s1.now == s.now && s1.invocations == s.invocations + 1
  }

  lemma DiscardStartsFlow(s: State, s1: State, r: State, args: StartArgs, more: seq<Entry>)
    requires Counted(s, s1) && args.invocation == s.invocations
    requires r.flows == s1.flows + [Discarded(args)] && r.log == s1.log + more && r.now == s1.now && r.invocations == s1.invocations
    requires forall i :: 0 <= i < |more| ==> IsStartEntry(more[i], |s.flows|)
    ensures StartsFlow(s, r, Discarded(args), more)
  {}

  lemma RefusedAccept(s: State, s1: State, args: StartArgs, exportOk: bool, storeOk: bool, provider: Option<Provider>)
    requires Idle(s1) && History(s) && Counted(s, s1) && args.invocation == s.invocations
    requires !exportOk || args.path in s1.registry
    ensures History(Accept(s1, args, exportOk, storeOk, provider))
  {
    hide Accept, History, Idle, StartsFlow, Discarded, AcceptTrace;
    var r := Accept(s1, args, exportOk, storeOk, provider);
    var reply := Replied(args.invocation, Other, None, Some(InvalidRequest));
    AcceptRefused(s1, args, exportOk, storeOk, provider);
    DiscardStartsFlow(s, s1, r, args, [reply]);
    DiscardedStep(s, r, args, false, InvalidRequest);
  }

  lemma FailedAccept(s: State, s1: State, args: StartArgs, storeOk: bool, provider: Option<Provider>)
    requires Idle(s1) && History(s) && Counted(s, s1) && args.invocation == s.invocations
    requires args.path !in s1.registry && !StoreBuilds(args, storeOk)
    ensures History(Accept(s1, args, true, storeOk, provider))
  {
    hide Accept, History, Idle, StartsFlow, Discarded, StoreBuilds, AcceptTrace;
    var r := Accept(s1, args, true, storeOk, provider);
    var reply := Replied(args.invocation, Other, None, Some(NoStorage));
    AcceptFailed(s1, args, storeOk, provider);
    DiscardStartsFlow(s, s1, r, args, [Committed(|s.flows|), reply]);
    DiscardedStep(s, r, args, true, NoStorage);
  }

  lemma AcceptOpens(s: State, s1: State, args: StartArgs, storeOk: bool, provider: Option<Provider>)
    requires Idle(s1) && History(s) && Counted(s, s1) && args.invocation == s.invocations
    requires 1 <= args.timeout <= MAX_TIMEOUT
    requires args.path !in s1.registry && StoreBuilds(args, storeOk)
    ensures History(Accept(s1, args, true, storeOk, provider))
  {
    hide Accept, History, Idle;
    var id := |s.flows|;
    AcceptOpened(s1, args, storeOk, provider);
    LogsAgree(args, id, s.log, s.now);
    OpenedStep(s, Accept(s1, args, true, storeOk, provider), args, provider);
  }

  lemma LogsAgree(args: StartArgs, id: Id, log: seq<Entry>, now: nat)
    ensures StoreLog(args, id, log) + [Opened(id, now)] == log + (StoreLog(args, id, []) + [Opened(id, now)])
    ensures forall i :: 0 <= i < |StoreLog(args, id, []) + [Opened(id, now)]| ==>
      IsStartEntry((StoreLog(args, id, []) + [Opened(id, now)])[i], id)
  {}

  lemma AcceptStory(s: State, s1: State, args: StartArgs, exportOk: bool, storeOk: bool, provider: Option<Provider>)
    requires Idle(s1) && History(s) && Counted(s, s1) && args.invocation == s.invocations
    requires 1 <= args.timeout <= MAX_TIMEOUT
    ensures History(Accept(s1, args, exportOk, storeOk, provider))
  {
    if !exportOk || args.path in s1.registry {
      RefusedAccept(s, s1, args, exportOk, storeOk, provider);
    } else if !StoreBuilds(args, storeOk) {
      FailedAccept(s, s1, args, storeOk, provider);
    } else {
      AcceptOpens(s, s1, args, storeOk, provider);
    }
  }

  lemma CheckedStory(s: State, c: StartCall, validated: Option<Storage.Mode>)
    requires Idle(s) && History(s)
    ensures History(HandleChecked(s, c, validated))
  {
    var (s1, accepted) := SenderCheck(CountInvocation(s), c.sender, c.first, c.second);
    SenderCheckLeavesItsAnswer(CountInvocation(s), c.sender, c.first, c.second);
    IdleElsewhere(s, s1);
    AdmitStory(s, s1, accepted, c, validated);
  }

  lemma AdmitStory(s: State, s1: State, accepted: bool, c: StartCall, validated: Option<Storage.Mode>)
    requires Idle(s1) && History(s)
    requires Counted(s, s1)
    ensures History(Admit(s1, s.invocations, accepted, c, validated))
  {
    if !accepted {
      RefusedStep(s, Admit(s1, s.invocations, accepted, c, validated), Denied(s.invocations));
    } else if validated.None? {
      RefusedStep(s, Admit(s1, s.invocations, accepted, c, validated), Replied(s.invocations, Other, None, Some(InvalidRequest)));
    } else {
      ClampedTimeout(c.timeout);
      AcceptStory(s, s1, ArgsOf(c, s.invocations, validated.value), c.exportOk, c.storeOk, c.provider);
    }
  }

  // ---------- Ending one flow ----------

  lemma AfterEndStep(s: State, id: Id, response: Response, uri: Option<string>, reason: Option<Reason>)
    requires Idle(s) && History(s) && Receives(s, id)
    requires s.flows[id].txn.Some? && s.flows[id].txn.value.invocation.Some?
    requires ReplyOk(Starts(s), s.log, s.flows[id].start.invocation, response, if response == Completed then uri else None, reason)
    ensures History(AfterEnd(s, id, EndEntries(s.flows[id], id, response, uri, reason)))
  {
    assert FlowStory(s, id);
    var e := SentReply(s.flows[id], response, uri, reason);
    EndStep(s, AfterEnd(s, id, EndEntries(s.flows[id], id, response, uri, reason)), id, e);
  }

  lemma MatchedQuestion(s: State, id: Id, uri: Option<string>, navigation: bool)
    requires History(s) && Receives(s, id) && CompletesOn(s.flows[id], uri)
    ensures s.flows[id].txn.value.completionUri == s.flows[id].start.completionUri
    ensures History(Emit(s, Asked(id, uri, navigation)))
  {
    assert FlowStory(s, id);
    NeutralStep(s, Asked(id, uri, navigation));
  }

  /** The engine asked about a URI that matches. */
  lemma AskedStory(s: State, id: Id, uri: Option<string>, navigation: bool)
    requires Idle(s) && History(s) && Receives(s, id) && CompletesOn(s.flows[id], uri)
    ensures var s1 := Emit(s, Asked(id, uri, navigation));
      && Idle(s1) && History(s1) && Starts(s1) == Starts(s) && uri.Some?
      && CompletionOk(Starts(s1), s1.log, s.flows[id].start.invocation, uri)
  {
    hide Idle, History;
    var s1 := Emit(s, Asked(id, uri, navigation));
    MatchedQuestion(s, id, uri, navigation);
    IdleElsewhere(s, s1);
    assert s1.log[|s.log|] == Asked(id, uri, navigation);
    assert WasAsked(s1.log, id, uri);
    MatchNeedsUri(uri, s.flows[id].txn.value.completionUri);
  }

  lemma DecisionEnds(s: State, id: Id, uri: Option<string>, navigation: bool)
    requires Idle(s) && History(s) && Receives(s, id)
    requires HasTransaction(s.flows[id]) && s.flows[id].txn.value.invocation.Some?
    requires CompletesOn(s.flows[id], uri)
    ensures History(AfterEnd(s, id, [Asked(id, uri, navigation)] + EndEntries(s.flows[id], id, Completed, uri, None) + [Blocked(id, uri)]))
  {
    hide History, Idle, CompletionOk, EntryOk, Starts;
    var s1 := Emit(s, Asked(id, uri, navigation));
    AskedStory(s, id, uri, navigation);
    AfterEndStep(s1, id, Completed, uri, None);
    var s2 := AfterEnd(s1, id, EndEntries(s.flows[id], id, Completed, uri, None));
    BlockedStory(s2, id, uri);
    EndLogged(s, s1, s2, id, [Asked(id, uri, navigation)], EndEntries(s.flows[id], id, Completed, uri, None), [Blocked(id, uri)]);
  }

  lemma BlockedStory(s: State, id: Id, uri: Option<string>)
    requires History(s) && id < |s.flows|
    ensures History(s.(log := s.log + [Blocked(id, uri)]))
  {
    NeutralStep(s, Blocked(id, uri));
  }

  lemma MatchNeedsUri(uri: Option<string>, requested: string)
    requires Completion.Matches(uri, Some(requested))
    ensures uri.Some?
  {}

  /** A live flow's transaction keeps the completion URI it was started with. */
  lemma UnmatchedMeansStart(s: State, id: Id, uri: Option<string>)
    requires History(s) && Receives(s, id) && HasTransaction(s.flows[id]) && !CompletesOn(s.flows[id], uri)
    ensures !Completion.Matches(uri, Some(s.flows[id].start.completionUri))
  {
    assert FlowStory(s, id);
  }

  /** What follows an unmatched question. */
  lemma DecidedStory(s: State, id: Id, uri: Option<string>, allowed: bool)
    requires History(s) && id < |s.flows| && !Completion.Matches(uri, Some(s.flows[id].start.completionUri))
    ensures History(Emit(s, if allowed then LetThrough(id, uri) else Blocked(id, uri)))
  {
    NeutralStep(s, if allowed then LetThrough(id, uri) else Blocked(id, uri));
  }

  lemma UnmatchedNavigation(s: State, id: Id, uri: Option<string>)
    requires History(s) && Receives(s, id) && HasTransaction(s.flows[id]) && !CompletesOn(s.flows[id], uri)
    ensures var w := s.flows[id].session.value.(pendingHost := Completion.HostOf(uri));
      History(SessionChanged(s, id, w, [Asked(id, uri, true)]))
  {
    assert FlowStory(s, id);
    var w := s.flows[id].session.value.(pendingHost := Completion.HostOf(uri));
    FrontOfAppend(s.log, Asked(id, uri, true));
    SessionStep(s, SessionChanged(s, id, w, [Asked(id, uri, true)]), id, Asked(id, uri, true));
  }

  lemma NavigationStory(s: State, id: Id, uri: Option<string>)
    requires Idle(s) && History(s) && Receives(s, id)
    ensures History(OnNavigation(s, id, uri))
  {
    hide OnNavigation, Idle, History, CompletesOn;
    NavigationEffect(s, id, uri);
    var f := s.flows[id];
    if CompletesOn(f, uri) {
      DecisionEnds(s, id, uri, true);
    } else {
      var w := f.session.value.(pendingHost := Completion.HostOf(uri));
      var s1 := SessionChanged(s, id, w, [Asked(id, uri, true)]);
      UnmatchedMeansStart(s, id, uri);
      UnmatchedNavigation(s, id, uri);
      DecidedStory(s1, id, uri, true);
      assert OnNavigation(s, id, uri).log == Emit(s1, LetThrough(id, uri)).log;
    }
  }

  lemma ResponseStory(s: State, id: Id, uri: Option<string>, supported: bool)
    requires Idle(s) && History(s) && Receives(s, id)
    ensures History(OnResponse(s, id, uri, supported))
  {
    hide OnResponse, Idle, History, CompletesOn;
    ResponseEffect(s, id, uri, supported);
    if CompletesOn(s.flows[id], uri) {
      DecisionEnds(s, id, uri, false);
    } else {
      var s1 := Emit(s, Asked(id, uri, false));
      UnmatchedMeansStart(s, id, uri);
      ResponseAsked(s, id, uri);
      DecidedStory(s1, id, uri, supported);
      assert OnResponse(s, id, uri, supported).log == Emit(s1, if supported then LetThrough(id, uri) else Blocked(id, uri)).log;
    }
  }

  lemma ResponseAsked(s: State, id: Id, uri: Option<string>)
    requires History(s) && id < |s.flows|
    ensures History(Emit(s, Asked(id, uri, false)))
  {
    NeutralStep(s, Asked(id, uri, false));
  }

  lemma LoadStory(s: State, id: Id, phase: LoadPhase, uri: Option<string>)
    requires Idle(s) && History(s) && Receives(s, id)
    ensures History(OnLoadChanged(s, id, phase, uri))
  {
    LoadEffect(s, id, phase, uri);
    assert FlowStory(s, id);
    if phase != LoadFinished {
      FrontOfAppend(s.log, LoadedTo(id, uri));
      SessionStep(s, OnLoadChanged(s, id, phase, uri), id, LoadedTo(id, uri));
    }
  }

  /** A plain reason ends the flow. */
  lemma ReasonStory(s: State, id: Id, response: Response, reason: Reason)
    requires Idle(s) && History(s) && Receives(s, id)
    requires response != Completed && (response == Cancelled <==> reason == UserCancelled || reason == RequestClosed)
    ensures History(FinishFor(s, id, response, None, Some(reason)))
  {
    EndsAtOnce(s, id, response, reason);
    AfterEndStep(s, id, response, None, Some(reason));
  }

  /** The latest decline is one of the two reasons a challenge is declined for. */
  lemma {:induction false} DeclineReasons(starts: seq<StartArgs>, log: seq<Entry>, id: Id)
    requires LogOk(starts, log)
    ensures var reason := LatestDecline(log, id);
      reason.None? || reason == Some(CredentialUnavailable) || reason == Some(UnrelatedCertificateChallenge)
    decreases |log|
  {
    if log != [] {
      assert EntryOk(starts, log[..|log| - 1], log[|log| - 1]);
      FrontLogOk(starts, log);
      DeclineReasons(starts, Front(log), id);
    }
  }

  lemma FrontLogOk(starts: seq<StartArgs>, log: seq<Entry>)
    requires LogOk(starts, log) && log != []
    ensures LogOk(starts, Front(log))
  {
    forall i | 0 <= i < |Front(log)|
      ensures EntryOk(starts, Front(log)[..i], Front(log)[i])
    {
      assert Front(log)[..i] == log[..i];
      assert EntryOk(starts, log[..i], log[i]);
    }
  }

  lemma LoadFailedStory(s: State, id: Id, cancelled: bool)
    requires Idle(s) && History(s) && Receives(s, id)
    ensures History(OnLoadFailed(s, id, cancelled))
  {
    LoadFailedEffect(s, id, cancelled);
    assert FlowStory(s, id);
    var w := s.flows[id].session.value;
    if !(cancelled && w.pendingReason.None?) {
      DeclineReasons(Starts(s), s.log, id);
      AfterEndStep(s, id, Other, None, Some(FailureReason(w)));
    }
  }

  lemma DeclineStory(s: State, id: Id, reason: Reason)
    requires History(s) && Receives(s, id)
    requires reason == CredentialUnavailable || reason == UnrelatedCertificateChallenge
    ensures History(Decline(s, id, reason))
  {
    assert FlowStory(s, id);
    var e := Declined(id, reason);
    FrontOfAppend(s.log, e);
    SessionStep(s, Decline(s, id, reason), id, e);
  }

  lemma PinStory(s: State, id: Id, file: Option<string>)
    requires Idle(s) && History(s) && Receives(s, id)
    ensures History(OnAuthenticate(s, id, PinRequested(file)))
  {
    hide History, Idle, PinAfter, Decline;
    var answer := PinAfter(s, s.flows[id].session.value.provider, file);
    if answer.None? {
      DeclineStory(s, id, CredentialUnavailable);
    } else {
      SameStory(s, s.(pin := answer));
      NeutralStep(s.(pin := answer), PinAnswered(id));
    }
  }

  lemma ProviderStory(s: State, id: Id, host: string)
    requires History(s) && Receives(s, id) && ChallengeIsRelated(s.flows[id].session.value, Some(host))
    ensures History(Emit(s, ProviderAsked(id, host)))
  {
    assert FlowStory(s, id);
    NeutralStep(s, ProviderAsked(id, host));
  }

  lemma CertificateStory(s: State, id: Id, host: Option<string>, acquired: bool)
    requires Idle(s) && History(s) && Receives(s, id)
    ensures History(OnAuthenticate(s, id, CertificateRequested(host, acquired)))
  {
    hide History, Idle, Decline;
    var w := s.flows[id].session.value;
    if !ChallengeIsRelated(w, host) {
      DeclineStory(s, id, UnrelatedCertificateChallenge);
    } else if w.provider.None? {
      DeclineStory(s, id, CredentialUnavailable);
    } else {
      ProviderStory(s, id, host.value);
      if !acquired {
        DeclineStory(Emit(s, ProviderAsked(id, host.value)), id, CredentialUnavailable);
      }
    }
  }

  lemma AuthenticateStory(s: State, id: Id, challenge: Challenge)
    requires Idle(s) && History(s) && Receives(s, id)
    ensures History(OnAuthenticate(s, id, challenge))
  {
    hide History, Idle;
    match challenge
    case OtherScheme =>
    case PinRequested(file) => PinStory(s, id, file);
    case CertificateRequested(host, acquired) => CertificateStory(s, id, host, acquired);
  }

  lemma EngineStory(s: State, e: Event)
    requires Idle(s) && History(s) && IsEngineEvent(e) && Receives(s, e.id)
    ensures History(DispatchEngine(s, e))
  {
    match e
    case UserCancels(id) => ReasonStory(s, id, Cancelled, UserCancelled);
    case Navigation(id, uri) => NavigationStory(s, id, uri);
    case ResponseDecision(id, uri, supported) => ResponseStory(s, id, uri, supported);
    case NewWindow(id, uri) => NeutralStep(s, Blocked(id, uri));
    case LoadChanged(id, phase, uri) => LoadStory(s, id, phase, uri);
    case LoadFails(id, cancelled) => LoadFailedStory(s, id, cancelled);
    case TlsFails(id) => ReasonStory(s, id, Other, TlsError);
    case ProcessGone(id) => ReasonStory(s, id, Other, SessionTerminated);
    case Authenticate(id, challenge) => AuthenticateStory(s, id, challenge);
  }

  // ---------- Close, cancel_all and the clock ----------

  lemma CloseStory(s: State, c: CloseCall)
    requires Idle(s) && History(s)
    ensures History(HandleClose(s, c))
  {
    if c.path in s.registry {
      var id := s.registry[c.path];
      AllOrNothing(s, id);
      assert FlowStory(s, id);
      if SenderCheck(s, c.sender, c.first, c.second).1 {
        CloseAccepted(s, c);
        var w1 := SenderCheck(s, c.sender, c.first, c.second).0;
        var (w2, second) := SenderCheck(w1, c.sender, c.third, c.fourth);
        ClosedStory(s, id, w2, second);
      } else {
        CloseRefused(s, c);
        var w := SenderCheck(s, c.sender, c.first, c.second).0;
        RefusedCloseStory(s, id, w);
      }
    }
  }

  lemma RefusedCloseStory(s: State, id: Id, w: State)
    requires History(s) && id < |s.flows|
    ensures History(s.(owner := w.owner, resolved := w.resolved, log := s.log + [CloseAnswered(id, false)]))
  {
    NeutralStep(s, CloseAnswered(id, false));
    var s1 := Emit(s, CloseAnswered(id, false));
    SameStory(s1, s1.(owner := w.owner, resolved := w.resolved));
  }

  lemma ClosedStory(s: State, id: Id, w: State, second: bool)
    requires Idle(s) && History(s) && Receives(s, id)
    ensures History(ClosedState(s, id, s.flows[id].start.invocation, w, second))
  {
    hide Idle, NavigationHost, LoadHost, LatestDecline, OpenedAt, LogOk, AnswerStory, OwnInvocations;
    assert FlowStory(s, id);
    ReceivesIsLive(s, id);
    var invocation := s.flows[id].start.invocation;
    AfterEndStep(s, id, Cancelled, None, Some(RequestClosed));
    var s1 := AfterEnd(s, id, EndEntries(s.flows[id], id, Cancelled, None, Some(RequestClosed)));
    EndEntriesRead(s.log, id, SentReply(s.flows[id], Cancelled, None, Some(RequestClosed)), id, s.flows[id].start, 0);
    assert Commits(s1.log, id) == 1;
    assert Starts(s1) == Starts(s);
    NeutralStep(s1, CloseAnswered(id, second));
    var s2 := Emit(s1, CloseAnswered(id, second));
    var z := ClosedState(s, id, invocation, w, second);
    ClosedLog(s, id, w, second);
    assert z.flows == s2.flows && z.log == s2.log;
    forall k | 0 <= k < |s2.flows|
      ensures SameFlowStory(s2.flows[k], z.flows[k])
    {}
    SameStory(s2, z);
  }

  lemma ClosedLog(s: State, id: Id, w: State, second: bool)
    requires id < |s.flows| && s.flows[id].txn.Some? && s.flows[id].txn.value.invocation == Some(s.flows[id].start.invocation)
    ensures var s1 := AfterEnd(s, id, EndEntries(s.flows[id], id, Cancelled, None, Some(RequestClosed)));
      ClosedState(s, id, s.flows[id].start.invocation, w, second) ==
        s1.(owner := w.owner, resolved := w.resolved, log := s1.log + [CloseAnswered(id, second)])
  {
    var s1 := AfterEnd(s, id, EndEntries(s.flows[id], id, Cancelled, None, Some(RequestClosed)));
    var z := ClosedState(s, id, s.flows[id].start.invocation, w, second);
    assert z.log == s1.log + [CloseAnswered(id, second)];
  }

  lemma {:induction false} HoldAllStory(s: State, ids: seq<Id>)
    requires Steady(s) && History(s) && Distinct(ids) && AllLive(s, ids)
    ensures History(HoldAll(s, ids))
  {
    HoldAllSteady(s, ids);
    var r := HoldAll(s, ids);
    forall k | 0 <= k < |s.flows|
      ensures SameFlowStory(s.flows[k], r.flows[k])
    {
      if k in ids {
        HoldKeepsStory(s.flows[k]);
      }
    }
    SameStory(s, r);
  }

  lemma HoldKeepsStory(f: Flow)
    ensures SameFlowStory(f, Hold(f))
  {}

  lemma FinishEndsFlow(s: State, id: Id, reason: Reason)
    requires Steady(s) && id < |s.flows| && Live(s.flows[id], Count(s, id))
    requires s.flows[id].txn.value.invocation == Some(s.flows[id].start.invocation)
    ensures EndsFlow(s, Finish(s, id, Other, None, Some(reason)), id, Replied(s.flows[id].start.invocation, Other, None, Some(reason)))
  {
    hide Finish, Safe;
    AllSettled(s);
    FinishSteady(s, id, Other, None, Some(reason));
  }

  lemma FinishOneStory(s: State, ids: seq<Id>, reason: Reason)
    requires Steady(s) && History(s) && AllLive(s, ids) && ids != []
    requires reason != UserCancelled && reason != RequestClosed
    ensures History(Finish(s, ids[0], Other, None, Some(reason)))
  {
    hide Finish, Steady, LogOk, AnswerStory, OwnInvocations, EndsFlow, NavigationHost, LoadHost, LatestDecline, OpenedAt, Commits;
    var id := ids[0];
    assert FlowStory(s, id);
    FinishEndsFlow(s, id, reason);
    EndStep(s, Finish(s, id, Other, None, Some(reason)), id, Replied(s.flows[id].start.invocation, Other, None, Some(reason)));
  }

  /** The loop of cancel_all, one finish at a time. */
  lemma {:induction false} FinishAllStory(s: State, ids: seq<Id>, reason: Reason)
    requires Steady(s) && History(s) && Distinct(ids) && AllLive(s, ids)
    requires reason != UserCancelled && reason != RequestClosed
    ensures History(FinishAll(s, ids, reason))
    decreases |ids|
  {
    hide Steady, History, Finish;
    if ids != [] {
      FinishHead(s, ids, reason);
      FinishOneStory(s, ids, reason);
      FinishAllStory(Finish(s, ids[0], Other, None, Some(reason)), ids[1..], reason);
    }
  }

  lemma ReleaseAllStory(s: State, ids: seq<Id>)
    requires Steady(s) && History(s) && Distinct(ids)
    requires forall i :: 0 <= i < |ids| ==>
      ids[i] < |s.flows| && Gone(s.flows[ids[i]], Count(s, ids[i])) && s.flows[ids[i]].txn.Some? && s.flows[ids[i]].frames > 0
    ensures History(ReleaseAll(s, ids))
  {
    ReleaseAllSteady(s, ids);
    var r := ReleaseAll(s, ids);
    forall k | 0 <= k < |s.flows|
      ensures SameFlowStory(s.flows[k], r.flows[k])
    {
      if k in ids {
        var i :| 0 <= i < |ids| && ids[i] == k;
        assert Gone(s.flows[ids[i]], Count(s, ids[i]));
        assert Settled(s, k);
        ReleaseEnded(s.flows[k]);
        ReleaseKeepsStory(s.flows[k]);
      }
    }
    SameStory(s, r);
  }

  lemma ReleaseKeepsStory(f: Flow)
    requires f.session.None?
    ensures SameFlowStory(f, Release(f))
  {}

  lemma CancelAllStory(s: State, reason: Reason)
    requires Idle(s) && History(s)
    requires reason != UserCancelled && reason != RequestClosed
    ensures History(CancelAll(s, reason))
  {
    var ids := s.list;
    CancelAllFinishes(s, reason);
    var s1 := HoldAll(s, ids);
    HoldAllStory(s, ids);
    HeldStayLive(s, s1, ids);
    FinishAllStory(s1, ids, reason);
    var s2 := FinishAll(s1, ids, reason);
    HeldOnce(s, s1, s2, ids);
    ReleaseAllStory(s2, ids);
  }

  /** Time passes only while no timer is due, so no live flow outstays its timeout. */
  lemma TickStory(s: State)
    requires Idle(s) && History(s)
    ensures History(Tick(s))
  {
    hide LogOk, NavigationHost, LoadHost, LatestDecline, OpenedAt, Commits, Idle;
    var r := Tick(s);
    assert Starts(r) == Starts(s);
    forall k | 0 <= k < |r.flows|
      ensures FlowStory(r, k)
    {
      assert FlowStory(s, k);
      assert Receives(s, k) && r.now == s.now + 1 ==> !TimerDue(s, k);
    }
    forall invocation
      ensures AnswerStory(r, invocation)
    {
      assert AnswerStory(s, invocation);
      SamePending(s, r, invocation);
    }
  }

  /** Every event keeps the story. */
  lemma DispatchStory(s: State, e: Event)
    requires Idle(s) && History(s)
    ensures History(Dispatch(s, e))
  {
    hide DispatchEngine, HandleChecked, HandleClose, CancelAll, OnDeadline, Tick, Validated, Idle, History, Live, FinishTrace, AllSafe, Safe, Receives;
    match e
    case StartReceived(c) => CheckedStory(s, c, Validated(c));
    case CloseReceived(c) => CloseStory(s, c);
    case FrontendAppeared(owner) => SameStory(s, s.(owner := Some(owner)));
    case FrontendVanished =>
      var s1 := s.(owner := None);
      IdleElsewhere(s, s1);
      SameStory(s, s1);
      CancelAllStory(s1, SessionTerminated);
    case Shutdown => CancelAllStory(s, SessionTerminated);
    case ClockTicks => TickStory(s);
    case DeadlineFires(id) =>
      if TimerDue(s, id) {
        DeadlineEffect(s, id);
        AllOrNothing(s, id);
        AfterEndStep(s, id, Other, None, Some(Timeout));
      }
    case _ =>
      if Receives(s, e.id) {
        EngineStory(s, e);
      }
  }

  lemma InitialHistory()
    ensures History(InitialState())
  {
    assert forall invocation :: !Pending(InitialState(), invocation);
  }

  /** The story holds after every run from the start. */
  lemma {:induction false} RunStory(s: State, events: seq<Event>)
    requires Idle(s) && History(s)
    ensures History(Run(s, events))
    decreases |events|
  {
    if events != [] {
      DispatchSafe(s, events[0]);
      DispatchStory(s, events[0]);
      RunStory(Dispatch(s, events[0]), events[1..]);
    }
  }
}
