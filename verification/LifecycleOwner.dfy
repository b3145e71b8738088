/**
  Whom the backend trusts, told on what the bus reported: the owner cache is the
  latest report, and a call is accepted exactly when the reports say so.
 */
module LifecycleOwner {
  import opened Wrappers
  import opened Lifecycle
  import opened LifecycleSafety
  import opened LifecycleEvents
  import opened LifecycleStart
  import opened LifecycleDispatch
  import opened LifecycleClose
  import opened LifecycleEngine
  import opened LifecycleRuns
  import opened LifecycleTheorems
  import opened LifecycleIsolation

  // ---------- Reports ----------

  /** What the bus said of the frontend's name: a notification, or the answer to a lookup. */
  datatype Report = Appeared(owner: string) | Lost | Answered(answer: Option<string>)

  function Told(r: Report): Option<string> {
    match r
    case Appeared(owner) => Some(owner)
    case Lost => None
    case Answered(answer) => answer
  }

  /** The owner by the latest report. */
  function Latest(reports: seq<Report>): Option<string> {
    if reports == [] then None else Told(reports[|reports| - 1])
  }

  predicate WasAnswered(reports: seq<Report>) { exists i :: 0 <= i < |reports| && reports[i].Answered? }

  /** Lookups made for one sender: one if none was ever made, and one more if the sender is then the owner. */
  function Lookups(past: seq<Report>, sender: Option<string>, first: Option<string>, second: Option<string>): seq<Report> {
    if sender.None? then []
    else
      var unknown := if WasAnswered(past) then [] else [Answered(first)];
      if Latest(past + unknown) == sender then unknown + [Answered(second)] else unknown
  }

  /** The sender is the owner by what is known, and by a fresh lookup. */
  predicate Trusts(past: seq<Report>, sender: Option<string>, first: Option<string>, second: Option<string>) {
    && sender.Some?
    && (if WasAnswered(past) then Latest(past) == sender else first == sender)
    && second == sender
  }

  predicate IsAddressed(s: State, path: string) {
    exists id :: 0 <= id < |s.flows| && Receives(s, id) && s.flows[id].start.path == path
  }

  /** The reports of one event; a Close to a live flow asks for each of its two handlers. */
  function ReportsOf(past: seq<Report>, s: State, e: Event): seq<Report> {
    match e
    case StartReceived(c) => Lookups(past, c.sender, c.first, c.second)
    case CloseReceived(c) =>
      if !IsAddressed(s, c.path) then []
      else
        var asked := Lookups(past, c.sender, c.first, c.second);
        asked + Lookups(past + asked, c.sender, c.third, c.fourth)
    case FrontendAppeared(owner) => [Appeared(owner)]
    case FrontendVanished => [Lost]
    case _ => []
  }

  ghost function Reports(events: seq<Event>): seq<Report>
    decreases |events|
  {
    if events == [] then []
    else
      var before := events[..|events| - 1];
      var past := Reports(before);
      past + ReportsOf(past, Reached(before), events[|events| - 1])
  }

  lemma ReportsNext(events: seq<Event>, e: Event)
    ensures Reports(events + [e]) == Reports(events) + ReportsOf(Reports(events), Reached(events), e)
  {
    assert (events + [e])[..|events|] == events;
  }

  // ---------- One check ----------

  /** The cache holds what the reports say. */
  predicate Follows(s: State, reports: seq<Report>) {
    s.owner == Latest(reports) && (s.resolved <==> WasAnswered(reports))
  }

  lemma FollowsMore(s: State, reports: seq<Report>, r: Report)
    requires Follows(s, reports)
    ensures Follows(s.(owner := Told(r), resolved := s.resolved || r.Answered?), reports + [r])
  {
    var more := reports + [r];
    assert more[|reports|] == r;
    if WasAnswered(reports) {
      var i :| 0 <= i < |reports| && reports[i].Answered?;
      assert more[i].Answered?;
    }
  }

  lemma NotAnswered(past: seq<Report>, answer: Option<string>)
    ensures WasAnswered(past + [Answered(answer)]) && Latest(past + [Answered(answer)]) == answer
    ensures Latest(past + []) == Latest(past)
  {
    assert (past + [Answered(answer)])[|past|].Answered?;
    assert past + [] == past;
  }

  /** The sender check asks what Lookups says and accepts whom Trusts says. */
  lemma CheckFollows(s: State, past: seq<Report>, sender: Option<string>, first: Option<string>, second: Option<string>)
    requires Follows(s, past)
    ensures var (r, accepted) := SenderCheck(s, sender, first, second);
      Follows(r, past + Lookups(past, sender, first, second)) && (accepted <==> Trusts(past, sender, first, second))
  {
    hide WasAnswered, Latest;
    NotAnswered(past, first);
    if sender.None? {
      assert past + [] == past;
    } else {
      var unknown := if WasAnswered(past) then [] else [Answered(first)];
      var s1 := if s.resolved then s else Resolve(s, first);
      if !WasAnswered(past) {
        FollowsMore(s, past, Answered(first));
      }
      assert past + [] == past;
      assert Follows(s1, past + unknown);
      if Latest(past + unknown) == sender {
        FollowsMore(s1, past + unknown, Answered(second));
        assert past + unknown + [Answered(second)] == past + (unknown + [Answered(second)]);
      }
    }
  }

  lemma FollowsElsewhere(s: State, z: State, past: seq<Report>)
    requires Follows(s, past) && z.owner == s.owner && z.resolved == s.resolved
    ensures Follows(z, past) && Follows(z, past + [])
  {
    assert past + [] == past;
  }

  // ---------- What finish leaves alone ----------

  predicate SameCache(s: State, z: State) {
    z.owner == s.owner && z.resolved == s.resolved && z.now == s.now && z.invocations == s.invocations
  }

  lemma TeardownKeepsCache(s: State, id: Id)
    requires id < |s.flows|
    ensures SameCache(s, RunTeardown(s, id))
  {
    hide Unref;
  }

  lemma TailKeepsCache(s: State, id: Id, response: Response, uri: Option<string>, reason: Option<Reason>)
    requires id < |s.flows|
    ensures SameCache(s, RunFinished(Reply(Unexport(s, id), id, response, uri, reason), id))
  {
    hide Unexport, Reply, RunFinished;
    var g := Unexport(s, id);
    UnexportKeepsCache(s, id);
    ReplyKeepsCache(g, id, response, uri, reason);
    FinishedKeepsCache(Reply(g, id, response, uri, reason), id);
  }

  lemma UnexportKeepsCache(s: State, id: Id)
    requires id < |s.flows|
    ensures SameCache(s, Unexport(s, id))
  {
    hide UnrefRequest;
  }

  lemma ReplyKeepsCache(s: State, id: Id, response: Response, uri: Option<string>, reason: Option<Reason>)
    requires id < |s.flows|
    ensures SameCache(s, Reply(s, id, response, uri, reason))
  {}

  lemma FinishedKeepsCache(s: State, id: Id)
    requires id < |s.flows|
    ensures SameCache(s, RunFinished(s, id))
  {
    hide Unref, RemoveFast;
  }

  lemma FinishKeepsCache(s: State, id: Id, response: Response, uri: Option<string>, reason: Option<Reason>)
    requires id < |s.flows|
    ensures SameCache(s, Finish(s, id, response, uri, reason))
  {
    hide RunTeardown, RunFinished, Reply, Unexport, Hold, Disarm, Disconnect, Release;
    var f := s.flows[id];
    if f.txn.Some? && !f.txn.value.done {
      var d := Apply(Apply(Apply(Commit(s, id), id, Hold), id, Disarm), id, Disconnect);
      TeardownKeepsCache(d, id);
      TailKeepsCache(RunTeardown(d, id), id, response, uri, reason);
    }
  }

  lemma {:induction false} FinishAllKeepsCache(s: State, ids: seq<Id>, reason: Reason)
    requires forall i :: 0 <= i < |ids| ==> ids[i] < |s.flows|
    ensures SameCache(s, FinishAll(s, ids, reason))
    decreases |ids|
  {
    hide Finish;
    if ids != [] {
      FinishKeepsCache(s, ids[0], Other, None, Some(reason));
      FinishAllKeepsCache(Finish(s, ids[0], Other, None, Some(reason)), ids[1..], reason);
    }
  }

  lemma {:induction false} HoldAllKeepsCache(s: State, ids: seq<Id>)
    requires forall i :: 0 <= i < |ids| ==> ids[i] < |s.flows|
    ensures SameCache(s, HoldAll(s, ids)) && HoldAll(s, ids).log == s.log
    decreases |ids|
  {
    hide Hold;
    if ids != [] { HoldAllKeepsCache(Apply(s, ids[0], Hold), ids[1..]); }
  }

  lemma {:induction false} ReleaseAllKeepsCache(s: State, ids: seq<Id>)
    requires forall i :: 0 <= i < |ids| ==> ids[i] < |s.flows|
    ensures SameCache(s, ReleaseAll(s, ids)) && ReleaseAll(s, ids).log == s.log
    decreases |ids|
  {
    hide Release;
    if ids != [] { ReleaseAllKeepsCache(Apply(s, ids[0], Release), ids[1..]); }
  }

  lemma CancelAllKeepsCache(s: State, reason: Reason)
    requires ListInRange(s)
    ensures SameCache(s, CancelAll(s, reason))
  {
    hide HoldAll, FinishAll, ReleaseAll;
    var s1 := HoldAll(s, s.list);
    HoldAllKeepsCache(s, s.list);
    FinishAllKeepsCache(s1, s.list, reason);
    ReleaseAllKeepsCache(FinishAll(s1, s.list, reason), s.list);
  }

  lemma EngineKeepsCache(s: State, e: Event)
    requires IsEngineEvent(e) && Receives(s, e.id)
    ensures SameCache(s, DispatchEngine(s, e))
  {
    hide Finish;
    match e
    case UserCancels(id) => FinishKeepsCache(s, id, Cancelled, None, Some(UserCancelled));
    case Navigation(id, uri) => FinishKeepsCache(Emit(s, Asked(id, uri, true)), id, Completed, uri, None);
    case ResponseDecision(id, uri, _) => FinishKeepsCache(Emit(s, Asked(id, uri, false)), id, Completed, uri, None);
    case NewWindow(id, uri) =>
    case LoadChanged(id, phase, uri) =>
    case LoadFails(id, cancelled) => FinishKeepsCache(s, id, Other, None, Some(FailureReason(s.flows[id].session.value)));
    case TlsFails(id) => FinishKeepsCache(s, id, Other, None, Some(TlsError));
    case ProcessGone(id) => FinishKeepsCache(s, id, Other, None, Some(SessionTerminated));
    case Authenticate(id, challenge) =>
  }

  lemma DeadlineKeepsCache(s: State, id: Id)
    requires TimerDue(s, id)
    ensures SameCache(s, OnDeadline(s, id))
  {
    hide Finish;
    if s.flows[id].txn.Some? {
      FinishKeepsCache(Put(s, id, DisarmedByFiring(s.flows[id])), id, Other, None, Some(Timeout));
    }
  }

  // ---------- Start and Close ----------

  lemma AcceptKeepsCache(s: State, args: StartArgs, exportOk: bool, storeOk: bool, provider: Option<Provider>)
    requires Idle(s) && args.timeout > 0
    ensures SameCache(s, Accept(s, args, exportOk, storeOk, provider))
  {
    hide Idle, Accept, StoreBuilds, StoreLog, AcceptTrace;
    if !exportOk || args.path in s.registry {
      AcceptRefused(s, args, exportOk, storeOk, provider);
    } else if !StoreBuilds(args, storeOk) {
      AcceptFailed(s, args, storeOk, provider);
    } else {
      AcceptOpened(s, args, storeOk, provider);
    }
  }

  lemma StartFollows(s: State, past: seq<Report>, c: StartCall)
    requires Idle(s) && Follows(s, past)
    ensures Follows(HandleStart(s, c), past + Lookups(past, c.sender, c.first, c.second))
  {
    hide Idle, Accept, Follows, Lookups, Validated, SenderCheck;
    var n := CountInvocation(s);
    var (s1, accepted) := SenderCheck(n, c.sender, c.first, c.second);
    FollowsElsewhere(s, n, past);
    CheckFollows(n, past, c.sender, c.first, c.second);
    SenderCheckLeavesItsAnswer(n, c.sender, c.first, c.second);
    IdleElsewhere(s, s1);
    var z := HandleStart(s, c);
    if accepted && Validated(c).Some? {
      ClampedTimeout(c.timeout);
      AcceptKeepsCache(s1, ArgsOf(c, s.invocations, Validated(c).value), c.exportOk, c.storeOk, c.provider);
    }
    FollowsElsewhere(s1, z, past + Lookups(past, c.sender, c.first, c.second));
  }

  lemma AddressedIsRegistered(s: State, path: string)
    requires Idle(s)
    ensures IsAddressed(s, path) <==> path in s.registry
    ensures forall id :: 0 <= id < |s.flows| && Receives(s, id) && s.flows[id].start.path == path ==>
      path in s.registry && s.registry[path] == id
  {
    forall id | 0 <= id < |s.flows| && Receives(s, id) && s.flows[id].start.path == path
      ensures path in s.registry && s.registry[path] == id
    {
      AllOrNothing(s, id);
    }
    if path in s.registry {
      AllOrNothing(s, s.registry[path]);
      assert Receives(s, s.registry[path]);
    }
  }

  lemma RefusedAgain(past: seq<Report>, sender: Option<string>, first: Option<string>, second: Option<string>,
                     third: Option<string>, fourth: Option<string>)
    requires !Trusts(past, sender, first, second)
    ensures Lookups(past + Lookups(past, sender, first, second), sender, third, fourth) == []
  {
    NotAnswered(past, first);
    if sender.Some? {
      var unknown := if WasAnswered(past) then [] else [Answered(first)];
      assert past + [] == past;
      if Latest(past + unknown) == sender {
        NotAnswered(past + unknown, second);
        assert past + unknown + [Answered(second)] == past + (unknown + [Answered(second)]);
      }
    }
  }

  lemma RefusedCloseFollows(s: State, past: seq<Report>, c: CloseCall)
    requires Idle(s) && Follows(s, past) && c.path in s.registry && !SenderCheck(s, c.sender, c.first, c.second).1
    ensures InRange(s)
    ensures var asked := Lookups(past, c.sender, c.first, c.second);
      Follows(HandleClose(s, c), past + (asked + Lookups(past + asked, c.sender, c.third, c.fourth)))
  {
    IdleInRange(s);
    hide Idle, Follows, Lookups, Trusts, SenderCheck, HandleClose, CloseTrace, AllSafe;
    var asked := Lookups(past, c.sender, c.first, c.second);
    CheckFollows(s, past, c.sender, c.first, c.second);
    CloseRefused(s, c);
    RefusedAgain(past, c.sender, c.first, c.second, c.third, c.fourth);
    assert asked + [] == asked;
    FollowsElsewhere(SenderCheck(s, c.sender, c.first, c.second).0, HandleClose(s, c), past + asked);
  }

  lemma AcceptedCloseCache(s: State, c: CloseCall)
    requires Idle(s) && c.path in s.registry && SenderCheck(s, c.sender, c.first, c.second).1
    ensures InRange(s)
    ensures var z, w := HandleClose(s, c), SenderCheck(SenderCheck(s, c.sender, c.first, c.second).0, c.sender, c.third, c.fourth).0;
      z.owner == w.owner && z.resolved == w.resolved
  {
    IdleInRange(s);
    hide Idle, SenderCheck, HandleClose, CloseTrace, AllSafe, EndedPin, Discarded, RemoveFast, InRange;
    CloseAccepted(s, c);
  }

  lemma TwoChecksFollow(s: State, past: seq<Report>, c: CloseCall, z: State)
    requires Follows(s, past)
    requires var w := SenderCheck(SenderCheck(s, c.sender, c.first, c.second).0, c.sender, c.third, c.fourth).0;
      z.owner == w.owner && z.resolved == w.resolved
    ensures var asked := Lookups(past, c.sender, c.first, c.second);
      Follows(z, past + (asked + Lookups(past + asked, c.sender, c.third, c.fourth)))
  {
    hide Follows, Lookups, Trusts, SenderCheck;
    var w1 := SenderCheck(s, c.sender, c.first, c.second).0;
    var asked := Lookups(past, c.sender, c.first, c.second);
    var more := Lookups(past + asked, c.sender, c.third, c.fourth);
    CheckFollows(s, past, c.sender, c.first, c.second);
    CheckFollows(w1, past + asked, c.sender, c.third, c.fourth);
    assert past + asked + more == past + (asked + more);
    FollowsElsewhere(SenderCheck(w1, c.sender, c.third, c.fourth).0, z, past + (asked + more));
  }

  lemma CloseFollows(s: State, past: seq<Report>, c: CloseCall)
    requires Idle(s) && Follows(s, past)
    ensures InRange(s) && Follows(HandleClose(s, c), past + ReportsOf(past, s, CloseReceived(c)))
  {
    IdleInRange(s);
    hide Idle, Follows, Lookups, SenderCheck, IsAddressed;
    AddressedIsRegistered(s, c.path);
    if c.path !in s.registry {
      FollowsElsewhere(s, HandleClose(s, c), past);
    } else {
      hide HandleClose;
      if SenderCheck(s, c.sender, c.first, c.second).1 {
        AcceptedCloseCache(s, c);
        TwoChecksFollow(s, past, c, HandleClose(s, c));
      } else {
        RefusedCloseFollows(s, past, c);
      }
    }
  }

  // ---------- Runs ----------

  lemma SessionFollows(s: State, past: seq<Report>, e: Event)
    requires InRange(s) && Follows(s, past) && IsEngineEvent(e)
    ensures Follows(Dispatch(s, e), past + [])
  {
    hide Follows, Dispatch, DispatchEngine, Receives, InRange;
    SessionDispatch(s, e);
    if Receives(s, e.id) {
      EngineKeepsCache(s, e);
    }
    FollowsElsewhere(s, Dispatch(s, e), past);
  }

  lemma DispatchFollows(s: State, past: seq<Report>, e: Event)
    requires Idle(s) && Follows(s, past)
    ensures InRange(s) && Follows(Dispatch(s, e), past + ReportsOf(past, s, e))
  {
    IdleInRange(s);
    hide Idle, Follows, Lookups, IsAddressed, HandleStart, HandleClose, CancelAll, OnDeadline, DispatchEngine, Receives;
    match e
    case StartReceived(c) => StartFollows(s, past, c);
    case CloseReceived(c) => CloseFollows(s, past, c);
    case FrontendAppeared(owner) =>
      FollowsMore(s, past, Appeared(owner));
    case FrontendVanished =>
      FollowsMore(s, past, Lost);
      CancelAllKeepsCache(s.(owner := None), SessionTerminated);
      FollowsElsewhere(s.(owner := None), Dispatch(s, e), past + [Lost]);
    case Shutdown =>
      CancelAllKeepsCache(s, SessionTerminated);
      FollowsElsewhere(s, Dispatch(s, e), past);
    case ClockTicks => FollowsElsewhere(s, Dispatch(s, e), past);
    case DeadlineFires(id) =>
      if TimerDue(s, id) {
        DeadlineKeepsCache(s, id);
      }
      FollowsElsewhere(s, Dispatch(s, e), past);
    case _ => SessionFollows(s, past, e);
  }

  /** In every reached state the cache is what the bus reported last, and it is known from the first lookup on. */
  lemma {:induction false} CacheFollowsReports(events: seq<Event>)
    ensures var s := Reached(events);
      s.owner == Latest(Reports(events)) && (s.resolved <==> WasAnswered(Reports(events)))
    decreases |events|
  {
    hide Dispatch, ReportsOf;
    if events == [] {
      NothingReported();
    } else {
      var before, e := events[..|events| - 1], events[|events| - 1];
      assert events == before + [e];
      CacheFollowsReports(before);
      ReachedNext(before, e);
      DispatchFollows(Reached(before), Reports(before), e);
    }
  }

  lemma NothingReported()
    ensures Reached([]) == InitialState()
  {}

  /** Whoever the bus has just announced, and confirms when asked, is trusted - also after a loss, and whatever was known before. */
  lemma NewOwnerIsTrusted(events: seq<Event>, owner: string)
    ensures Trusts(Reports(events + [FrontendAppeared(owner)]), Some(owner), Some(owner), Some(owner))
  {
    ReportsNext(events, FrontendAppeared(owner));
  }
}
