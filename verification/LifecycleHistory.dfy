/**
  What the log of a run says: every entry is justified by the entries before it,
  and the state of each live session is a function of its own history.
 */
module LifecycleHistory {
  import opened Wrappers
  import Completion
  import Storage
  import opened Lifecycle
  import opened LifecycleSafety

  // ---------- Reading the log ----------

  function Front(log: seq<Entry>): seq<Entry>
    requires log != []
  {
    log[..|log| - 1]
  }

  function LastEntry(log: seq<Entry>): Entry
    requires log != []
  {
    log[|log| - 1]
  }

  predicate IsUnmatchedNavigation(e: Entry, id: Id, start: StartArgs) {
    e.Asked? && e.id == id && e.navigation && !Completion.Matches(e.uri, Some(start.completionUri))
  }

  /** The host of the latest navigation that did not match, initially of the start URI. */
  function NavigationHost(log: seq<Entry>, id: Id, start: StartArgs): Option<string> {
    if log == [] then Completion.HostOf(Some(start.startUri))
    else if IsUnmatchedNavigation(LastEntry(log), id, start) then Completion.HostOf(LastEntry(log).uri)
    else NavigationHost(Front(log), id, start)
  }

  /** The host of the latest load that started, was redirected or was committed. */
  function LoadHost(log: seq<Entry>, id: Id): Option<string> {
    if log == [] then None
    else if LastEntry(log).LoadedTo? && LastEntry(log).id == id then Completion.HostOf(LastEntry(log).uri)
    else LoadHost(Front(log), id)
  }

  /** Why the latest declined challenge was declined. */
  function LatestDecline(log: seq<Entry>, id: Id): Option<Reason> {
    if log == [] then None
    else if LastEntry(log).Declined? && LastEntry(log).id == id then Some(LastEntry(log).cause)
    else LatestDecline(Front(log), id)
  }

  /** When the window was presented. */
  function OpenedAt(log: seq<Entry>, id: Id): Option<nat> {
    if log == [] then None
    else if LastEntry(log).Opened? && LastEntry(log).id == id then Some(LastEntry(log).at)
    else OpenedAt(Front(log), id)
  }

  predicate IsAnswer(e: Entry, invocation: nat) {
    (e.Replied? && e.invocation == invocation) || (e.Denied? && e.invocation == invocation)
  }

  /** How often a Start call was answered. */
  function Answers(log: seq<Entry>, invocation: nat): nat {
    if log == [] then 0 else Answers(Front(log), invocation) + One(IsAnswer(LastEntry(log), invocation))
  }

  /** How often finish committed a result for a flow. */
  function Commits(log: seq<Entry>, id: Id): nat {
    if log == [] then 0 else Commits(Front(log), id) + One(LastEntry(log) == Committed(id))
  }

  lemma FrontOfAppend(log: seq<Entry>, e: Entry)
    ensures log + [e] != [] && Front(log + [e]) == log && LastEntry(log + [e]) == e
  {}

  // ---------- Justified entries ----------

  function Starts(s: State): (r: seq<StartArgs>)
    ensures |r| == |s.flows| && forall i :: 0 <= i < |r| ==> r[i] == s.flows[i].start
  {
    seq(|s.flows|, i requires 0 <= i < |s.flows| => s.flows[i].start)
  }

  predicate WasAsked(past: seq<Entry>, id: Id, uri: Option<string>) {
    exists j :: 0 <= j < |past| && past[j].Asked? && past[j].id == id && past[j].uri == uri
  }

  /** The URI of a completed reply is one the engine presented to that flow, and it matches. */
  ghost predicate CompletionOk(starts: seq<StartArgs>, past: seq<Entry>, invocation: nat, uri: Option<string>) {
    exists id :: 0 <= id < |starts| && starts[id].invocation == invocation && WasAsked(past, id, uri)
      && Completion.Matches(uri, Some(starts[id].completionUri))
  }

  ghost predicate ReplyOk(starts: seq<StartArgs>, past: seq<Entry>, invocation: nat, response: Response,
                          uri: Option<string>, reason: Option<Reason>) {
    match response
    case Completed => reason.None? && uri.Some? && CompletionOk(starts, past, invocation, uri)
    case Cancelled => uri.None? && (reason == Some(UserCancelled) || reason == Some(RequestClosed))
    case Other => uri.None? && reason.Some? && reason != Some(UserCancelled) && reason != Some(RequestClosed)
  }

  /** What each entry promises, given the entries before it. */
  ghost predicate EntryOk(starts: seq<StartArgs>, past: seq<Entry>, e: Entry) {
    match e
    case Replied(invocation, response, uri, reason) => ReplyOk(starts, past, invocation, response, uri, reason)
    case Denied(_) => true
    case LateFinish(_) => false
    case CloseAnswered(id, success) => id < |starts| && (success ==> Commits(past, id) == 1)
    case StoreOpened(id, name) =>
      && id < |starts| && starts[id].mode == Storage.Shared
      && Storage.DirectoryName(Some(starts[id].appId)) == Some(name)
    case LetThrough(id, uri) => id < |starts| && !Completion.Matches(uri, Some(starts[id].completionUri))
    case ProviderAsked(id, host) =>
      id < |starts| && (HostIs(host, NavigationHost(past, id, starts[id])) || HostIs(host, LoadHost(past, id)))
    case Committed(id) => id < |starts| && Commits(past, id) == 0
    case Opened(id, _) => id < |starts|
    case Asked(id, _, _) => id < |starts|
    case LoadedTo(id, _) => id < |starts|
    case Blocked(id, _) => id < |starts|
    case PinAnswered(id) => id < |starts|
    case Declined(id, cause) =>
      id < |starts| && (cause == CredentialUnavailable || cause == UnrelatedCertificateChallenge)
  }

  ghost predicate LogOk(starts: seq<StartArgs>, log: seq<Entry>) {
    forall i :: 0 <= i < |log| ==> EntryOk(starts, log[..i], log[i])
  }

  lemma LogOkAppend(starts: seq<StartArgs>, log: seq<Entry>, e: Entry)
    requires LogOk(starts, log) && EntryOk(starts, log, e)
    ensures LogOk(starts, log + [e])
  {
    forall i | 0 <= i < |log + [e]|
      ensures EntryOk(starts, (log + [e])[..i], (log + [e])[i])
    {
      if i < |log| {
        assert (log + [e])[..i] == log[..i];
      } else {
        assert (log + [e])[..i] == log;
      }
    }
  }

  lemma EntryOkMore(starts: seq<StartArgs>, past: seq<Entry>, e: Entry, start: StartArgs)
    requires EntryOk(starts, past, e)
    ensures EntryOk(starts + [start], past, e)
  {
    if e.Replied? && e.response == Completed {
      var id :| 0 <= id < |starts| && starts[id].invocation == e.invocation && WasAsked(past, id, e.uri)
        && Completion.Matches(e.uri, Some(starts[id].completionUri));
      assert (starts + [start])[id] == starts[id];
    }
  }

  lemma LogOkMore(starts: seq<StartArgs>, log: seq<Entry>, start: StartArgs)
    requires LogOk(starts, log)
    ensures LogOk(starts + [start], log)
  {
    forall i | 0 <= i < |log|
      ensures EntryOk(starts + [start], log[..i], log[i])
    {
      EntryOkMore(starts, log[..i], log[i], start);
    }
  }

  /** A log that mentions only the first n flows says nothing about later ones. */
  lemma {:induction false} NothingAboutLater(starts: seq<StartArgs>, log: seq<Entry>, id: Id, start: StartArgs)
    requires LogOk(starts, log) && id >= |starts|
    ensures NavigationHost(log, id, start) == Completion.HostOf(Some(start.startUri))
    ensures LoadHost(log, id) == None && LatestDecline(log, id) == None && OpenedAt(log, id) == None
    ensures Commits(log, id) == 0
    decreases |log|
  {
    if log != [] {
      assert EntryOk(starts, log[..|log| - 1], log[|log| - 1]);
      forall i | 0 <= i < |Front(log)|
        ensures EntryOk(starts, Front(log)[..i], Front(log)[i])
      {
        assert Front(log)[..i] == log[..i];
        assert EntryOk(starts, log[..i], log[i]);
      }
      NothingAboutLater(starts, Front(log), id, start);
    }
  }

  // ---------- The story of each flow ----------

  /** A live session's state is what its history says. */
  predicate LiveStory(s: State, id: Id)
    requires id < |s.flows| && s.flows[id].session.Some?
  {
    var f := s.flows[id];
    var w := f.session.value;
    && f.txn.Some?
    && f.txn.value.invocation == Some(f.start.invocation)
    && f.txn.value.startUri == f.start.startUri
    && f.txn.value.completionUri == f.start.completionUri
    && w.pendingHost == NavigationHost(s.log, id, f.start)
    && w.currentHost == LoadHost(s.log, id)
    && w.pendingReason == LatestDecline(s.log, id)
    && 1 <= f.start.timeout <= MAX_TIMEOUT
    && OpenedAt(s.log, id).Some?
    && f.timer == Some(OpenedAt(s.log, id).value + f.start.timeout)
    && OpenedAt(s.log, id).value <= s.now <= f.timer.value
  }

  /** Between events, and between the finishes of cancel_all. */
  predicate FlowStory(s: State, id: Id)
    requires id < |s.flows|
  {
    && s.flows[id].start.invocation < s.invocations
    && (Receives(s, id) ==> LiveStory(s, id))
    && Commits(s.log, id) <= 1
    && (Receives(s, id) ==> Commits(s.log, id) == 0)
    && (OpenedAt(s.log, id).Some? && !Receives(s, id) ==> Commits(s.log, id) == 1)
  }

  /** Some live flow still owes an answer to this Start call. */
  predicate Pending(s: State, invocation: nat) {
    exists id :: 0 <= id < |s.flows| && Receives(s, id) && s.flows[id].start.invocation == invocation
  }

  predicate AnswerStory(s: State, invocation: nat) {
    Answers(s.log, invocation) == if invocation >= s.invocations || Pending(s, invocation) then 0 else 1
  }

  predicate OwnInvocations(s: State) {
    forall a, b :: 0 <= a < |s.flows| && 0 <= b < |s.flows| && s.flows[a].start.invocation == s.flows[b].start.invocation ==> a == b
  }

  ghost predicate History(s: State) {
    && LogOk(Starts(s), s.log)
    && OwnInvocations(s)
    && (forall id :: 0 <= id < |s.flows| ==> FlowStory(s, id))
    && (forall invocation :: AnswerStory(s, invocation))
  }

  // ---------- Steps that keep the story ----------

  /** An entry that tells nothing new about any session, transaction or call. */
  predicate IsNeutral(s: State, e: Entry) {
    && !e.Replied? && !e.Denied? && !e.Committed? && !e.LoadedTo? && !e.Declined? && !e.Opened?
    && (e.Asked? && e.id < |s.flows| ==> !IsUnmatchedNavigation(e, e.id, s.flows[e.id].start))
  }

  lemma NeutralEntry(s: State, e: Entry, id: Id)
    requires IsNeutral(s, e) && id < |s.flows|
    ensures var log := s.log + [e]; var start := s.flows[id].start;
      && NavigationHost(log, id, start) == NavigationHost(s.log, id, start)
      && LoadHost(log, id) == LoadHost(s.log, id)
      && LatestDecline(log, id) == LatestDecline(s.log, id)
      && OpenedAt(log, id) == OpenedAt(s.log, id)
      && Commits(log, id) == Commits(s.log, id)
  {
    FrontOfAppend(s.log, e);
  }

  lemma NeutralFlow(s: State, e: Entry, id: Id)
    requires IsNeutral(s, e) && id < |s.flows| && FlowStory(s, id)
    ensures FlowStory(Emit(s, e), id)
  {
    hide NavigationHost, LoadHost, LatestDecline, OpenedAt, Commits;
    NeutralEntry(s, e, id);
  }

  lemma NeutralAnswer(s: State, e: Entry, invocation: nat)
    requires IsNeutral(s, e) && AnswerStory(s, invocation)
    ensures AnswerStory(Emit(s, e), invocation)
  {
    FrontOfAppend(s.log, e);
    SamePending(s, Emit(s, e), invocation);
  }

  lemma NeutralStep(s: State, e: Entry)
    requires History(s) && IsNeutral(s, e) && EntryOk(Starts(s), s.log, e)
    ensures History(Emit(s, e))
  {
    hide FlowStory, AnswerStory, EntryOk, IsNeutral;
    var r := Emit(s, e);
    assert Starts(r) == Starts(s);
    LogOkAppend(Starts(s), s.log, e);
    forall id | 0 <= id < |r.flows|
      ensures FlowStory(r, id)
    {
      NeutralFlow(s, e, id);
    }
    forall invocation
      ensures AnswerStory(r, invocation)
    {
      NeutralAnswer(s, e, invocation);
    }
  }

  lemma SamePending(s: State, r: State, invocation: nat)
    requires |r.flows| == |s.flows|
    requires forall k :: 0 <= k < |s.flows| ==> (Receives(r, k) <==> Receives(s, k)) && r.flows[k].start == s.flows[k].start
    ensures Pending(r, invocation) <==> Pending(s, invocation)
  {
    if Pending(s, invocation) {
      var id :| 0 <= id < |s.flows| && Receives(s, id) && s.flows[id].start.invocation == invocation;
      assert Receives(r, id);
    }
    if Pending(r, invocation) {
      var id :| 0 <= id < |r.flows| && Receives(r, id) && r.flows[id].start.invocation == invocation;
      assert Receives(s, id);
    }
  }

  /** What the story reads of one flow. */
  predicate SameFlowStory(f: Flow, g: Flow) {
    && g.start == f.start && g.session == f.session
    && (f.session.Some? && !f.session.value.tornDown ==>
        && g.timer == f.timer && f.txn.Some? == g.txn.Some?
        && (f.txn.Some? ==>
            && g.txn.value.invocation == f.txn.value.invocation
            && g.txn.value.startUri == f.txn.value.startUri
            && g.txn.value.completionUri == f.txn.value.completionUri))
  }

  /** Reference counts, the registry, the owner cache and the PIN are not part of the story. */
  lemma SameStory(s: State, r: State)
    requires History(s)
    requires |r.flows| == |s.flows| && r.log == s.log && r.now == s.now && r.invocations == s.invocations
    requires forall k :: 0 <= k < |s.flows| ==> SameFlowStory(s.flows[k], r.flows[k])
    ensures History(r)
  {
    hide LogOk;
    assert Starts(r) == Starts(s);
    forall id | 0 <= id < |r.flows|
      ensures FlowStory(r, id)
    {
      assert FlowStory(s, id) && SameFlowStory(s.flows[id], r.flows[id]);
    }
    forall invocation
      ensures AnswerStory(r, invocation)
    {
      assert AnswerStory(s, invocation);
      assert forall k :: 0 <= k < |s.flows| ==> SameFlowStory(s.flows[k], r.flows[k]);
      SamePending(s, r, invocation);
    }
    forall a, b | 0 <= a < |r.flows| && 0 <= b < |r.flows| && r.flows[a].start.invocation == r.flows[b].start.invocation
      ensures a == b
    {
      assert SameFlowStory(s.flows[a], r.flows[a]) && SameFlowStory(s.flows[b], r.flows[b]);
    }
  }

  // ---------- The end of a flow ----------

  lemma EndEntriesRead(log: seq<Entry>, id: Id, e: Entry, k: Id, start: StartArgs, invocation: nat)
    requires e.Replied?
    ensures var z := log + [Committed(id), e];
      && NavigationHost(z, k, start) == NavigationHost(log, k, start)
      && LoadHost(z, k) == LoadHost(log, k)
      && LatestDecline(z, k) == LatestDecline(log, k)
      && OpenedAt(z, k) == OpenedAt(log, k)
      && Commits(z, k) == Commits(log, k) + One(k == id)
      && Answers(z, invocation) == Answers(log, invocation) + One(e.invocation == invocation)
  {
    var m := log + [Committed(id)];
    assert log + [Committed(id), e] == m + [e];
    FrontOfAppend(log, Committed(id));
    FrontOfAppend(m, e);
  }

  /** One flow stops receiving events, with a commit and a reply; nothing else is told. */
  ghost predicate EndsFlow(s: State, r: State, id: Id, e: Entry) {
    && id < |s.flows| && |r.flows| == |s.flows|
    && Receives(s, id) && !Receives(r, id)
    && (forall k :: 0 <= k < |s.flows| && k != id ==> r.flows[k] == s.flows[k])
    && r.flows[id].start == s.flows[id].start
    && e.Replied? && e.invocation == s.flows[id].start.invocation
    && r.log == s.log + [Committed(id), e]
    && r.now == s.now && r.invocations == s.invocations
  }

  lemma EndStep(s: State, r: State, id: Id, e: Entry)
    requires History(s) && EndsFlow(s, r, id, e)
    requires ReplyOk(Starts(s), s.log, e.invocation, e.response, e.uri, e.reason)
    ensures History(r)
  {
    hide LogOk, NavigationHost, LoadHost, LatestDecline, OpenedAt, ReplyOk, Answers, Commits;
    assert Starts(r) == Starts(s);
    assert FlowStory(s, id);
    EndLogOk(s, r, id, e);
    forall k | 0 <= k < |r.flows|
      ensures FlowStory(r, k)
    {
      assert FlowStory(s, k);
      EndEntriesRead(s.log, id, e, k, s.flows[k].start, 0);
      assert k != id ==> (Receives(r, k) <==> Receives(s, k));
    }
    forall invocation
      ensures AnswerStory(r, invocation)
    {
      assert AnswerStory(s, invocation);
      EndEntriesRead(s.log, id, e, id, s.flows[id].start, invocation);
      EndPending(s, r, id, e, invocation);
    }
    forall a, b | 0 <= a < |r.flows| && 0 <= b < |r.flows| && r.flows[a].start.invocation == r.flows[b].start.invocation
      ensures a == b
    {
      assert s.flows[a].start == r.flows[a].start && s.flows[b].start == r.flows[b].start;
    }
  }

  lemma EndLogOk(s: State, r: State, id: Id, e: Entry)
    requires EndsFlow(s, r, id, e) && LogOk(Starts(s), s.log) && Commits(s.log, id) == 0
    requires ReplyOk(Starts(s), s.log, e.invocation, e.response, e.uri, e.reason)
    ensures LogOk(Starts(s), r.log)
  {
    var m := s.log + [Committed(id)];
    LogOkAppend(Starts(s), s.log, Committed(id));
    ReplyOkLater(Starts(s), s.log, Committed(id), e);
    LogOkAppend(Starts(s), m, e);
    assert r.log == m + [e];
  }

  lemma ReplyOkLater(starts: seq<StartArgs>, past: seq<Entry>, next: Entry, e: Entry)
    requires e.Replied? && ReplyOk(starts, past, e.invocation, e.response, e.uri, e.reason)
    ensures ReplyOk(starts, past + [next], e.invocation, e.response, e.uri, e.reason)
  {
    if e.response == Completed {
      var id :| 0 <= id < |starts| && starts[id].invocation == e.invocation && WasAsked(past, id, e.uri)
        && Completion.Matches(e.uri, Some(starts[id].completionUri));
      var j :| 0 <= j < |past| && past[j].Asked? && past[j].id == id && past[j].uri == e.uri;
      assert (past + [next])[j] == past[j];
      assert WasAsked(past + [next], id, e.uri);
    }
  }

  lemma EndPending(s: State, r: State, id: Id, e: Entry, invocation: nat)
    requires EndsFlow(s, r, id, e) && OwnInvocations(s)
    ensures Pending(s, e.invocation)
    ensures Pending(r, invocation) <==> Pending(s, invocation) && invocation != e.invocation
  {
    assert Receives(s, id);
    if Pending(s, invocation) && invocation != e.invocation {
      var k :| 0 <= k < |s.flows| && Receives(s, k) && s.flows[k].start.invocation == invocation;
      assert k != id && Receives(r, k);
    }
    if Pending(r, invocation) {
      var k :| 0 <= k < |r.flows| && Receives(r, k) && r.flows[k].start.invocation == invocation;
      assert k != id && Receives(s, k);
    }
  }

  // ---------- Entries about one session ----------

  predicate IsAbout(e: Entry, id: Id) {
    (e.Asked? && e.id == id) || (e.LoadedTo? && e.id == id) || (e.Declined? && e.id == id)
  }

  /** One live session changes its own fields, and one entry tells how. */
  ghost predicate TellsSession(s: State, r: State, id: Id, e: Entry) {
    && Receives(s, id) && |r.flows| == |s.flows| && Receives(r, id) && IsAbout(e, id)
    && r.flows == s.flows[id := s.flows[id].(session := r.flows[id].session)]
    && r.log == s.log + [e] && r.now == s.now && r.invocations == s.invocations
    && var w := r.flows[id].session.value;
    && w.pendingHost == NavigationHost(r.log, id, s.flows[id].start)
    && w.currentHost == LoadHost(r.log, id)
    && w.pendingReason == LatestDecline(r.log, id)
  }

  lemma AboutEntry(log: seq<Entry>, e: Entry, id: Id, k: Id, start: StartArgs)
    requires IsAbout(e, id)
    ensures var z := log + [e];
      && (k != id ==> NavigationHost(z, k, start) == NavigationHost(log, k, start))
      && (k != id ==> LoadHost(z, k) == LoadHost(log, k))
      && (k != id ==> LatestDecline(z, k) == LatestDecline(log, k))
      && OpenedAt(z, k) == OpenedAt(log, k)
      && Commits(z, k) == Commits(log, k)
  {
    FrontOfAppend(log, e);
  }

  lemma SessionFlowStory(s: State, r: State, id: Id, e: Entry, k: Id)
    requires TellsSession(s, r, id, e) && k < |s.flows| && FlowStory(s, k)
    ensures FlowStory(r, k)
  {
    hide NavigationHost, LoadHost, LatestDecline, OpenedAt, Commits;
    AboutEntry(s.log, e, id, k, s.flows[k].start);
    assert k != id ==> r.flows[k] == s.flows[k];
  }

  lemma SessionStep(s: State, r: State, id: Id, e: Entry)
    requires History(s) && TellsSession(s, r, id, e)
    requires EntryOk(Starts(s), s.log, e)
    ensures History(r)
  {
    assert forall k :: 0 <= k < |s.flows| ==> (Receives(r, k) <==> Receives(s, k)) && r.flows[k].start == s.flows[k].start;
    assert Starts(r) == Starts(s);
    LogOkAppend(Starts(s), s.log, e);
    forall k | 0 <= k < |r.flows|
      ensures FlowStory(r, k)
    {
      assert FlowStory(s, k);
      SessionFlowStory(s, r, id, e, k);
    }
    forall invocation
      ensures AnswerStory(r, invocation)
    {
      assert AnswerStory(s, invocation);
      FrontOfAppend(s.log, e);
      SamePending(s, r, invocation);
    }
  }
}
