/** The engine's callbacks, the user's cancel and the deadline, each in closed form. */
module LifecycleEngine {
  import opened Wrappers
  import Completion
  import opened Lifecycle
  import opened LifecycleSafety
  import opened LifecycleEvents
  import opened LifecycleStart
  import opened LifecycleDispatch
  import opened LifecycleClose

  /** Finishing from a callback, after `before` was logged and before `after` is. */
  function EndTrace(s: State, id: Id, response: Response, uri: Option<string>, reason: Option<Reason>, z: State): seq<State>
    requires id < |s.flows|
  {
    FinishTrace(s, id, response, uri, reason) + [z]
  }

  /** A callback that ends its flow: `before` is logged first, `after` last. */
  lemma CallbackEnds(s: State, id: Id, before: seq<Entry>, response: Response, uri: Option<string>, reason: Option<Reason>, after: seq<Entry>)
    requires Idle(s) && Receives(s, id)
    ensures s.flows[id].txn.Some? && s.flows[id].txn.value.invocation.Some?
    ensures var s1 := s.(log := s.log + before);
      var s2 := FinishFor(s1, id, response, uri, reason);
      var z := s2.(log := s2.log + after);
      && AllSafe(EndTrace(s1, id, response, uri, reason, z)) && Idle(z)
      && z == AfterEnd(s, id, before + EndEntries(s.flows[id], id, response, uri, reason) + after)
  {
    ReceivesIsLive(s, id);
    var s1 := s.(log := s.log + before);
    IdleElsewhere(s, s1);
    ReceivesIsLive(s1, id);
    FinishIdle(s1, id, response, uri, reason);
    var s2 := Finish(s1, id, response, uri, reason);
    var z := s2.(log := s2.log + after);
    IdleElsewhere(s2, z);
    AllSafeJoin(FinishTrace(s1, id, response, uri, reason), [z]);
    EndLogged(s, s1, s2, id, before, EndEntries(s.flows[id], id, response, uri, reason), after);
  }

  lemma EndLogged(s: State, s1: State, s2: State, id: Id, before: seq<Entry>, middle: seq<Entry>, after: seq<Entry>)
    requires id < |s.flows| && s1 == s.(log := s.log + before)
    requires s2 == AfterEnd(s1, id, middle)
    ensures s2.(log := s2.log + after) == AfterEnd(s, id, before + middle + after)
  {
    assert s.log + before + middle + after == s.log + (before + middle + after);
  }

  /** A callback that only changes its session. */
  function SessionChanged(s: State, id: Id, w: Session, entries: seq<Entry>): State
    requires id < |s.flows|
  {
    With(s, id, s.flows[id].(session := Some(w)), s.log + entries, s.pin)
  }

  lemma NavigationEffect(s: State, id: Id, uri: Option<string>)
    requires Idle(s) && Receives(s, id)
    ensures HasTransaction(s.flows[id]) && s.flows[id].txn.value.invocation.Some?
    ensures var f := s.flows[id];
      OnNavigation(s, id, uri) ==
        if CompletesOn(f, uri) then
          AfterEnd(s, id, [Asked(id, uri, true)] + EndEntries(f, id, Completed, uri, None) + [Blocked(id, uri)])
        else
          SessionChanged(s, id, f.session.value.(pendingHost := Completion.HostOf(uri)), [Asked(id, uri, true), LetThrough(id, uri)])
    ensures Idle(OnNavigation(s, id, uri))
  {
    ReceivesIsLive(s, id);
    if CompletesOn(s.flows[id], uri) {
      CallbackEnds(s, id, [Asked(id, uri, true)], Completed, uri, None, [Blocked(id, uri)]);
    } else {
      var w := s.flows[id].session.value.(pendingHost := Completion.HostOf(uri));
      var z := SessionChanged(s, id, w, [Asked(id, uri, true), LetThrough(id, uri)]);
      assert OnNavigation(s, id, uri).log == z.log;
      SessionUpdateIdle(s, id, w, s.pin, z.log);
    }
  }

  lemma ResponseEffect(s: State, id: Id, uri: Option<string>, supported: bool)
    requires Idle(s) && Receives(s, id)
    ensures HasTransaction(s.flows[id]) && s.flows[id].txn.value.invocation.Some?
    ensures var f := s.flows[id];
      OnResponse(s, id, uri, supported) ==
        if CompletesOn(f, uri) then
          AfterEnd(s, id, [Asked(id, uri, false)] + EndEntries(f, id, Completed, uri, None) + [Blocked(id, uri)])
        else
          s.(log := s.log + [Asked(id, uri, false), if supported then LetThrough(id, uri) else Blocked(id, uri)])
    ensures Idle(OnResponse(s, id, uri, supported))
  {
    ReceivesIsLive(s, id);
    if CompletesOn(s.flows[id], uri) {
      CallbackEnds(s, id, [Asked(id, uri, false)], Completed, uri, None, [Blocked(id, uri)]);
    } else {
      var z := s.(log := s.log + [Asked(id, uri, false), if supported then LetThrough(id, uri) else Blocked(id, uri)]);
      assert OnResponse(s, id, uri, supported).log == z.log;
      IdleElsewhere(s, z);
    }
  }

  lemma LoadEffect(s: State, id: Id, phase: LoadPhase, uri: Option<string>)
    requires Idle(s) && Receives(s, id)
    ensures OnLoadChanged(s, id, phase, uri) ==
      if phase == LoadFinished then s
      else SessionChanged(s, id, s.flows[id].session.value.(currentHost := Completion.HostOf(uri)), [LoadedTo(id, uri)])
    ensures Idle(OnLoadChanged(s, id, phase, uri))
  {
    if phase != LoadFinished {
      var w := s.flows[id].session.value.(currentHost := Completion.HostOf(uri));
      SessionUpdateIdle(s, id, w, s.pin, s.log + [LoadedTo(id, uri)]);
    }
  }

  /** What a callback that answers `reason` at once leaves behind. */
  lemma EndsAtOnce(s: State, id: Id, response: Response, reason: Reason)
    requires Idle(s) && Receives(s, id)
    ensures s.flows[id].txn.Some? && s.flows[id].txn.value.invocation.Some?
    ensures FinishFor(s, id, response, None, Some(reason)) ==
      AfterEnd(s, id, EndEntries(s.flows[id], id, response, None, Some(reason)))
    ensures Idle(FinishFor(s, id, response, None, Some(reason)))
    ensures AllSafe(FinishTrace(s, id, response, None, Some(reason)))
  {
    ReceivesIsLive(s, id);
    FinishIdle(s, id, response, None, Some(reason));
  }

  /** The reason a load failure gives: the latest declined challenge, if there was one. */
  function FailureReason(w: Session): Reason {
    if w.pendingReason.Some? then w.pendingReason.value else LoadFailed
  }

  lemma LoadFailedEffect(s: State, id: Id, cancelled: bool)
    requires Idle(s) && Receives(s, id)
    ensures s.flows[id].txn.Some? && s.flows[id].txn.value.invocation.Some?
    ensures var w := s.flows[id].session.value;
      OnLoadFailed(s, id, cancelled) ==
        if cancelled && w.pendingReason.None? then s
        else AfterEnd(s, id, EndEntries(s.flows[id], id, Other, None, Some(FailureReason(w))))
    ensures Idle(OnLoadFailed(s, id, cancelled))
  {
    ReceivesIsLive(s, id);
    EndsAtOnce(s, id, Other, FailureReason(s.flows[id].session.value));
  }

  /** The session and the log after a declined challenge. */
  function DeclinedState(s: State, id: Id, before: seq<Entry>, reason: Reason): State
    requires id < |s.flows| && s.flows[id].session.Some?
  {
    SessionChanged(s, id, s.flows[id].session.value.(pendingReason := Some(reason)), before + [Declined(id, reason)])
  }

  lemma DeclineEffect(s: State, id: Id, before: seq<Entry>, reason: Reason)
    requires Idle(s) && Receives(s, id)
    ensures Decline(s.(log := s.log + before), id, reason) == DeclinedState(s, id, before, reason)
    ensures Idle(DeclinedState(s, id, before, reason))
  {
    var w := s.flows[id].session.value.(pendingReason := Some(reason));
    var z := DeclinedState(s, id, before, reason);
    SessionUpdateIdle(s, id, w, s.pin, z.log);
    assert Decline(s.(log := s.log + before), id, reason).log == z.log;
  }

  lemma AuthenticateIdle(s: State, id: Id, challenge: Challenge)
    requires Idle(s) && Receives(s, id)
    ensures Idle(OnAuthenticate(s, id, challenge))
  {
    var w := s.flows[id].session.value;
    match challenge
    case OtherScheme =>
    case PinRequested(file) =>
      var answer := PinAfter(s, w.provider, file);
      if answer.None? {
        assert s.(log := s.log + []) == s;
        DeclineEffect(s, id, [], CredentialUnavailable);
      } else {
        SessionUpdateIdle(s, id, w, answer, s.log + [PinAnswered(id)]);
        var z := OnAuthenticate(s, id, challenge);
        assert z.flows == With(s, id, s.flows[id].(session := Some(w)), z.log, answer).flows;
      }
    case CertificateRequested(host, acquired) =>
      assert s.(log := s.log + []) == s;
      if !ChallengeIsRelated(w, host) {
        DeclineEffect(s, id, [], UnrelatedCertificateChallenge);
      } else if w.provider.None? {
        DeclineEffect(s, id, [], CredentialUnavailable);
      } else {
        DeclineEffect(s, id, [ProviderAsked(id, host.value)], CredentialUnavailable);
        IdleElsewhere(s, s.(log := s.log + [ProviderAsked(id, host.value)]));
      }
  }

  // ---------- The deadline ----------

  function DisarmedByFiring(f: Flow): Flow
    requires f.txn.Some?
  {
    f.(timer := None, txn := Some(f.txn.value.(deadlineId := false)))
  }

  lemma FiredFlow(f: Flow, n: nat)
    requires FlowSafe(f, n) && Live(f, n)
    ensures var g := DisarmedByFiring(f);
      FlowSafe(g, n) && Ready(g, n) && Ended(g) == Ended(f) && UsesPkcs11(g) == UsesPkcs11(f)
      && g.start == f.start && IsExported(g) && g.session == f.session && g.txn.value.invocation == f.txn.value.invocation
  {}

  lemma FiredOpens(s: State, id: Id)
    requires Idle(s) && TimerDue(s, id)
    ensures s.flows[id].txn.Some? && FlowSafe(s.flows[id], Count(s, id)) && Live(s.flows[id], Count(s, id)) && NoFrames(s.flows[id])
    ensures var g := DisarmedByFiring(s.flows[id]); var s1 := Put(s, id, g);
      && Opening(s1, id) && Ready(g, Count(s1, id)) && FlowSafe(g, Count(s1, id))
  {
    AllOrNothing(s, id);
    var g := DisarmedByFiring(s.flows[id]);
    FiredFlow(s.flows[id], Count(s, id));
    AllSettled(s);
    OpeningWith(s, id, g, s.log);
    assert Put(s, id, g) == With(s, id, g, s.log, s.pin);
    assert Count(Put(s, id, g), id) == Count(s, id);
  }

  lemma DeadlineEffect(s: State, id: Id)
    requires Idle(s) && TimerDue(s, id)
    ensures s.flows[id].txn.Some? && s.flows[id].txn.value.invocation.Some?
    ensures OnDeadline(s, id) == AfterEnd(s, id, EndEntries(s.flows[id], id, Other, None, Some(Timeout)))
    ensures var s1 := Put(s, id, DisarmedByFiring(s.flows[id]));
      Safe(s1) && AllSafe(FinishTrace(s1, id, Other, None, Some(Timeout)))
    ensures Idle(OnDeadline(s, id))
  {
    hide Finish, FinishTrace, Steady, Safe;
    FiredOpens(s, id);
    FiredFlow(s.flows[id], Count(s, id));
    var s1 := Put(s, id, DisarmedByFiring(s.flows[id]));
    FinishSteady(s1, id, Other, None, Some(Timeout));
    FinishSafe(s1, id, Other, None, Some(Timeout));
    FinishedIsDiscarded(s.flows[id], Count(s, id));
    FiredEnds(s, id);
    IdleExcept(s, OnDeadline(s, id), id);
  }

  lemma FiredEnds(s: State, id: Id)
    requires TimerDue(s, id) && s.flows[id].txn.Some? && s.flows[id].request.Some?
    requires var f := s.flows[id]; var g := DisarmedByFiring(f);
      && f.txn.value.invocation.Some?
      && Ended(g) == Discarded(f.start) && UsesPkcs11(g) == UsesPkcs11(f)
    requires var s1 := Put(s, id, DisarmedByFiring(s.flows[id]));
      && Ready(s1.flows[id], Count(s1, id)) && FlowSafe(s1.flows[id], Count(s1, id))
      && Finish(s1, id, Other, None, Some(Timeout)) == EndedState(s1, id, Other, None, Some(Timeout))
    ensures OnDeadline(s, id) == AfterEnd(s, id, EndEntries(s.flows[id], id, Other, None, Some(Timeout)))
  {
    var s1 := Put(s, id, DisarmedByFiring(s.flows[id]));
    var z := EndedState(s1, id, Other, None, Some(Timeout));
    assert z.flows == s.flows[id := Discarded(s.flows[id].start)];
    assert z.log == s.log + EndEntries(s.flows[id], id, Other, None, Some(Timeout));
  }
}
