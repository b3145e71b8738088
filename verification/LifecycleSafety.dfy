/**
  Memory safety and reference counting of the sign-in lifecycle, stage by stage:
  the counts equal the number of holders, nothing freed is reached, and finishing
  a flow has one closed result.
 */
module LifecycleSafety {
  import opened Wrappers
  import opened Lifecycle

  // ---------- Invariants of one flow ----------

  function Holds(f: Flow): nat {
    if f.session.Some? && f.session.value.transaction then 1 else 0
  }

  function One(b: bool): nat { if b then 1 else 0 }

  /** Counts and pointers of one flow; `n` is how often the backend's list contains it. */
  predicate TransactionSafe(f: Flow, n: nat) {
    match f.txn
    case Some(t) =>
      && t.refCount == n + Holds(f) + f.frames && t.refCount > 0
      && f.request.Some?
      && t.deadlineId == f.timer.Some?
      && t.closeId == f.request.value.closeHandler
      && (!t.done ==> t.invocation.Some?)
      && (!t.done && t.teardown ==> Holds(f) == 1 && !f.session.value.tornDown)
      && (!t.done && t.finished ==> f.slot)
      && n <= 1
    case None =>
      && n == 0 && f.frames == 0 && Holds(f) == 0
      && !f.slot && f.timer.None?
      && (f.request.Some? ==> !f.request.value.closeHandler)
  }

  predicate RequestSafe(f: Flow) {
    match f.request
    case Some(r) => r.refCount == One(r.exported) + One(f.txn.Some?) + f.requestFrames && r.refCount > 0
    case None => f.requestFrames == 0 && f.txn.None?
  }

  /** What holds of a flow at every moment, in and between events. */
  predicate FlowSafe(f: Flow, n: nat) {
    !f.fault && TransactionSafe(f, n) && RequestSafe(f)
  }

  predicate IsExported(f: Flow) { f.request.Some? && f.request.value.exported }

  predicate Finished(f: Flow) { f.txn.None? || f.txn.value.done }

  /** A flow that can still end. */
  predicate Ready(f: Flow, n: nat) {
    && f.txn.Some? && !f.txn.value.done && f.txn.value.finished && f.txn.value.closeId
    && n == 1 && f.slot && IsExported(f)
    && (f.session.Some? <==> f.txn.value.teardown)
  }

  /** A flow whose window is up. */
  predicate Live(f: Flow, n: nat) {
    && Ready(f, n)
    && f.session.Some? && f.session.value.transaction && !f.session.value.tornDown
    && f.timer.Some? && !f.request.value.cancelled
  }

  /** A flow that has ended, or that was never accepted. */
  predicate Gone(f: Flow, n: nat) {
    && (f.txn.Some? ==> f.txn.value.done && f.txn.value.invocation.None? && !f.txn.value.closeId)
    && n == 0 && !f.slot && f.session.None? && f.timer.None? && !IsExported(f)
  }

  // ---------- Invariants of the whole state ----------

  function Count(s: State, id: Id): nat { multiset(s.list)[id] }

  predicate RegistrySafe(s: State) {
    && (forall p :: p in s.registry ==>
        s.registry[p] < |s.flows| && IsExported(s.flows[s.registry[p]]) && s.flows[s.registry[p]].start.path == p)
    && (forall id :: 0 <= id < |s.flows| && IsExported(s.flows[id]) ==>
        s.flows[id].start.path in s.registry && s.registry[s.flows[id].start.path] == id)
  }

  /** Holds at every moment of every run. */
  ghost predicate Safe(s: State) {
    && InRange(s)
    && RegistrySafe(s)
    && forall id :: 0 <= id < |s.flows| ==> FlowSafe(s.flows[id], Count(s, id))
  }

  predicate Settled(s: State, id: Id)
    requires id < |s.flows|
  {
    Live(s.flows[id], Count(s, id)) || Gone(s.flows[id], Count(s, id))
  }

  predicate UsesPkcs11(f: Flow) {
    f.session.Some? && f.session.value.provider == Some(Pkcs11)
  }

  /** The PIN buffer is filled only while a session of the pkcs11 provider is up. */
  ghost predicate PinHasOwner(s: State) {
    s.pin.Some? ==> exists id :: 0 <= id < |s.flows| && UsesPkcs11(s.flows[id])
  }

  /** Holds whenever no flow is being opened or finished. */
  ghost predicate Steady(s: State) {
    && Safe(s)
    && PinHasOwner(s)
    && forall id :: 0 <= id < |s.flows| ==> Settled(s, id)
  }

  predicate NoFrames(f: Flow) { f.frames == 0 && f.requestFrames == 0 }

  /** Holds between events. */
  ghost predicate Idle(s: State) {
    && Steady(s)
    && forall id :: 0 <= id < |s.flows| ==> NoFrames(s.flows[id])
  }

  /** All that is left of a flow once nothing holds it. */
  predicate Freed(f: Flow) {
    f.txn.None? && f.request.None? && f.session.None? && !f.slot && f.timer.None?
  }

  /** Between events a flow has all of its parts or none: no object leaks and none dangles. */
  lemma AllOrNothing(s: State, id: Id)
    requires Idle(s) && id < |s.flows|
    ensures Live(s.flows[id], Count(s, id)) || Freed(s.flows[id])
    ensures !Finished(s.flows[id]) <==> id in s.list
    ensures !Finished(s.flows[id]) <==> Receives(s, id)
    ensures !Finished(s.flows[id]) <==> s.flows[id].timer.Some?
    ensures !Finished(s.flows[id]) <==> IsExported(s.flows[id])
    ensures !Finished(s.flows[id]) <==> s.flows[id].request.Some? && s.flows[id].request.value.closeHandler
    ensures s.flows[id].start.path in s.registry && s.registry[s.flows[id].start.path] == id <==> !Finished(s.flows[id])
  {
    assert Settled(s, id);
    CountIn(s.list, id);
  }

  // ---------- The list ----------

  lemma {:induction false} RemoveFastCounts(list: seq<Id>, id: Id)
    requires id in list
    ensures multiset(RemoveFast(list, id)) == multiset(list) - multiset{id}
  {
    if list[0] == id {
      if |list| > 1 {
        var last, middle := list[|list| - 1], list[1..|list| - 1];
        assert list == [id] + middle + [last];
        assert RemoveFast(list, id) == [last] + middle;
      } else {
        assert list == [id];
      }
    } else {
      assert list == [list[0]] + list[1..];
      RemoveFastCounts(list[1..], id);
    }
  }

  lemma CountIn(list: seq<Id>, id: Id)
    ensures id in list <==> multiset(list)[id] > 0
  {
    assert id in list <==> id in multiset(list);
  }

  // ---------- Updates of one flow ----------

  /** The state with one flow, the log and the PIN buffer replaced. */
  function With(s: State, id: Id, f: Flow, log: seq<Entry>, pin: Option<string>): (r: State)
    requires id < |s.flows|
    ensures |r.flows| == |s.flows| && r.flows[id] == f && r.list == s.list && r.log == log && r.pin == pin
  {
    s.(flows := s.flows[id := f], log := log, pin := pin)
  }

  /** Replacing one flow by a safe one with the same path and export state keeps the state safe. */
  lemma WithSafe(s: State, id: Id, f: Flow, log: seq<Entry>, pin: Option<string>)
    requires Safe(s) && id < |s.flows|
    requires FlowSafe(f, Count(s, id))
    requires f.start.path == s.flows[id].start.path && IsExported(f) == IsExported(s.flows[id])
    ensures Safe(With(s, id, f, log, pin))
  {
    var r := With(s, id, f, log, pin);
    forall k | 0 <= k < |r.flows|
      ensures FlowSafe(r.flows[k], Count(r, k))
    {
      assert Count(r, k) == Count(s, k);
      assert k != id ==> r.flows[k] == s.flows[k];
    }
  }

  lemma WithWith(s: State, id: Id, f: Flow, log: seq<Entry>, pin: Option<string>, op: Flow -> Flow)
    requires id < |s.flows|
    ensures Apply(With(s, id, f, log, pin), id, op) == With(s, id, op(f), log, pin)
  {}

  lemma WithAgain(s: State, id: Id, f: Flow, log: seq<Entry>, pin: Option<string>, g: Flow, log': seq<Entry>, pin': Option<string>)
    requires id < |s.flows|
    ensures With(With(s, id, f, log, pin), id, g, log', pin') == With(s, id, g, log', pin')
    ensures Put(With(s, id, f, log, pin), id, g) == With(s, id, g, log, pin)
  {}

  lemma WithNothing(s: State, id: Id)
    requires id < |s.flows|
    ensures With(s, id, s.flows[id], s.log, s.pin) == s
  {}

  /** Every intermediate state is safe. */
  ghost predicate AllSafe(trace: seq<State>) {
    forall i :: 0 <= i < |trace| ==> Safe(trace[i])
  }

  // ---------- The stages of finish as a trace ----------

  function TeardownTrace(s: State, id: Id): seq<State>
    requires id < |s.flows|
  {
    var f := s.flows[id];
    if f.txn.None? || !f.txn.value.teardown || f.session.None? || f.session.value.tornDown then [RunTeardown(s, id)]
    else
      var s1 := MarkTorn(s, id);
      var s2 := ReleaseAdapter(s1, id);
      var s3 := DropSessionReference(s2, id);
      [s1, s2, s3, FreeSession(s3, id)]
  }

  function FinishedTrace(s: State, id: Id): seq<State>
    requires id < |s.flows|
  {
    var f := s.flows[id];
    if f.txn.None? || !f.txn.value.finished || !f.slot then [RunFinished(s, id)]
    else
      var s1 := LeaveList(s, id);
      [s1, FreeSlot(s1, id)]
  }

  /** Every state the process passes through while finish is on the stack. */
  function FinishTrace(s: State, id: Id, response: Response, uri: Option<string>, reason: Option<Reason>): seq<State>
    requires id < |s.flows|
  {
    var f := s.flows[id];
    if f.txn.None? || f.txn.value.done then [Finish(s, id, response, uri, reason)]
    else
      var a := Commit(s, id);
      var b := Apply(a, id, Hold);
      var c := Apply(b, id, Disarm);
      var d := Apply(c, id, Disconnect);
      var e := RunTeardown(d, id);
      var g := Unexport(e, id);
      var h := Reply(g, id, response, uri, reason);
      var k := RunFinished(h, id);
      [a, b, c, d] + TeardownTrace(d, id) + [g, h] + FinishedTrace(h, id) + [Apply(k, id, Release)]
  }

  // ---------- The closed result of finish ----------

  /** What finish leaves of a flow: only references that stack frames still hold. */
  function Ended(f: Flow): Flow
    requires f.txn.Some? && f.request.Some?
  {
    var t, r := f.txn.value, f.request.value;
    var held := One(f.frames > 0) + f.requestFrames;
    f.(txn := if f.frames == 0 then None
              else Some(t.(refCount := f.frames, invocation := None, deadlineId := false, closeId := false, done := true)),
       request := if held == 0 then None
                  else Some(r.(refCount := held, exported := false, closeHandler := false)),
       session := None, slot := false, timer := None)
  }

  function EndedPin(s: State, f: Flow): Option<string> {
    if UsesPkcs11(f) then None else s.pin
  }

  function EndedState(s: State, id: Id, response: Response, uri: Option<string>, reason: Option<Reason>): State
    requires id < |s.flows| && Ready(s.flows[id], Count(s, id)) && FlowSafe(s.flows[id], Count(s, id))
  {
    var f := s.flows[id];
    s.(flows := s.flows[id := Ended(f)],
       list := RemoveFast(s.list, id),
       registry := s.registry - {f.start.path},
       pin := EndedPin(s, f),
       log := s.log + [Committed(id),
                       Replied(f.txn.value.invocation.value, response, if response == Completed then uri else None, reason)])
  }

  /** The flow after commit, ref, disarm and disconnect. */
  function Detached(f: Flow): Flow
    requires f.txn.Some? && f.request.Some?
  {
    var t, r := f.txn.value, f.request.value;
    f.(txn := Some(t.(done := true, refCount := t.refCount + 1, deadlineId := false, closeId := false)),
       request := Some(r.(closeHandler := false)),
       timer := None,
       frames := f.frames + 1)
  }

  lemma DetachFlows(f: Flow, n: nat)
    requires FlowSafe(f, n) && Ready(f, n)
    ensures var f1 := f.(txn := Some(f.txn.value.(done := true)));
      var f2 := Hold(f1); var f3 := Disarm(f2); var f4 := Disconnect(f3);
      && FlowSafe(f1, n) && FlowSafe(f2, n) && FlowSafe(f3, n) && FlowSafe(f4, n)
      && f4 == Detached(f)
      && IsExported(f1) && IsExported(f2) && IsExported(f3) && IsExported(f4)
      && f1.start == f2.start == f3.start == f4.start == f.start
  {}

  lemma DetachSafe(s: State, id: Id)
    requires Safe(s) && id < |s.flows| && Ready(s.flows[id], Count(s, id))
    ensures var a := Commit(s, id);
      var b := Apply(a, id, Hold);
      var c := Apply(b, id, Disarm);
      var d := Apply(c, id, Disconnect);
      && Safe(a) && Safe(b) && Safe(c) && Safe(d)
      && d == With(s, id, Detached(s.flows[id]), s.log + [Committed(id)], s.pin)
  {
    var f, n, log := s.flows[id], Count(s, id), s.log + [Committed(id)];
    DetachFlows(f, n);
    var f1 := f.(txn := Some(f.txn.value.(done := true)));
    var f2 := Hold(f1);
    var f3 := Disarm(f2);
    var f4 := Disconnect(f3);
    assert Commit(s, id) == With(s, id, f1, log, s.pin);
    WithSafe(s, id, f1, log, s.pin);
    WithWith(s, id, f1, log, s.pin, Hold);
    WithSafe(s, id, f2, log, s.pin);
    WithWith(s, id, f2, log, s.pin, Disarm);
    WithSafe(s, id, f3, log, s.pin);
    WithWith(s, id, f3, log, s.pin, Disconnect);
    WithSafe(s, id, f4, log, s.pin);
  }

  /** The flow without its session. */
  function Unwindowed(f: Flow): Flow
    requires f.txn.Some?
  {
    if f.session.None? then f
    else f.(txn := Some(f.txn.value.(refCount := f.txn.value.refCount - 1)), session := None)
  }

  /** A committed flow whose teardown hook is about to run. */
  predicate BeforeTeardown(f: Flow) {
    && f.txn.Some? && f.txn.value.done && f.frames > 0
    && (f.session.Some? <==> f.txn.value.teardown)
    && (f.session.Some? ==> f.session.value.transaction && !f.session.value.tornDown)
  }

  lemma TeardownFlows(f: Flow, n: nat)
    requires FlowSafe(f, n) && BeforeTeardown(f) && f.session.Some?
    ensures var f1 := f.(session := Some(f.session.value.(tornDown := true)));
      var f2 := f1.(session := Some(f1.session.value.(transaction := false, pendingHost := None, currentHost := None)));
      var f3 := Unref(f2);
      var f4 := f3.(session := None);
      && FlowSafe(f1, n) && FlowSafe(f3, n) && FlowSafe(f4, n) && f4 == Unwindowed(f)
      && f1.start == f3.start == f4.start == f.start
      && IsExported(f1) == IsExported(f3) == IsExported(f4) == IsExported(f)
      && f3.session.Some?
  {}

  lemma TeardownSafe(s: State, id: Id)
    requires Safe(s) && id < |s.flows| && BeforeTeardown(s.flows[id])
    ensures AllSafe(TeardownTrace(s, id)) && Safe(RunTeardown(s, id))
    ensures RunTeardown(s, id) == With(s, id, Unwindowed(s.flows[id]), s.log, EndedPin(s, s.flows[id]))
  {
    var f, n, pin := s.flows[id], Count(s, id), EndedPin(s, s.flows[id]);
    if f.session.Some? {
      TeardownFlows(f, n);
      var f1 := f.(session := Some(f.session.value.(tornDown := true)));
      var f3 := Unref(f1.(session := Some(f1.session.value.(transaction := false, pendingHost := None, currentHost := None))));
      var f4 := f3.(session := None);
      var s1 := MarkTorn(s, id);
      assert s1 == With(s, id, f1, s.log, s.pin);
      WithSafe(s, id, f1, s.log, s.pin);
      var s2 := ReleaseAdapter(s1, id);
      assert s2 == With(s, id, f1, s.log, pin);
      WithSafe(s, id, f1, s.log, pin);
      var s3 := DropSessionReference(s2, id);
      WithAgain(s, id, f1, s.log, pin, f3, s.log, pin);
      assert s3 == With(s, id, f3, s.log, pin);
      WithSafe(s, id, f3, s.log, pin);
      WithAgain(s, id, f3, s.log, pin, f4, s.log, pin);
      assert FreeSession(s3, id) == With(s, id, f4, s.log, pin);
      WithSafe(s, id, f4, s.log, pin);
    } else {
      WithNothing(s, id);
    }
  }

  /** The flow once its Request left the registry. */
  function Hidden(f: Flow): Flow
    requires f.request.Some?
  {
    f.(request := Some(f.request.value.(refCount := f.request.value.refCount - 1, exported := false)))
  }

  lemma UnexportFlow(f: Flow, n: nat)
    requires FlowSafe(f, n) && f.txn.Some? && IsExported(f)
    ensures FlowSafe(Hidden(f), n) && !IsExported(Hidden(f)) && f.request.value.refCount > 1
  {}

  lemma UnexportSafe(s: State, id: Id)
    requires Safe(s) && id < |s.flows| && s.flows[id].txn.Some? && IsExported(s.flows[id])
    ensures Safe(Unexport(s, id))
    ensures Unexport(s, id) ==
      With(s, id, Hidden(s.flows[id]), s.log, s.pin).(registry := s.registry - {s.flows[id].start.path})
  {
    var f := s.flows[id];
    UnexportFlow(f, Count(s, id));
    var u := Unexport(s, id);
    assert u.flows == s.flows[id := Hidden(f)];
    forall k | 0 <= k < |u.flows|
      ensures FlowSafe(u.flows[k], Count(u, k))
    {
      assert Count(u, k) == Count(s, k);
      assert k != id ==> u.flows[k] == s.flows[k];
    }
    UnexportRegistry(s, u, id);
  }

  lemma UnexportRegistry(s: State, u: State, id: Id)
    requires RegistrySafe(s) && id < |s.flows| && s.flows[id].request.Some? && IsExported(s.flows[id])
    requires u.flows == s.flows[id := Hidden(s.flows[id])]
    requires u.registry == s.registry - {s.flows[id].start.path}
    ensures RegistrySafe(u) && RegistryInRange(u)
  {
    forall k | 0 <= k < |u.flows| && IsExported(u.flows[k])
      ensures u.flows[k].start.path in u.registry && u.registry[u.flows[k].start.path] == k
    {
      assert k != id && u.flows[k] == s.flows[k];
    }
    forall p | p in u.registry
      ensures u.registry[p] < |u.flows| && IsExported(u.flows[u.registry[p]]) && u.flows[u.registry[p]].start.path == p
    {
      assert p in s.registry && u.registry[p] == s.registry[p] != id;
    }
  }

  /** The flow once the list gave up its reference. */
  function Unlisted(f: Flow): Flow
    requires f.txn.Some?
  {
    f.(txn := Some(f.txn.value.(refCount := f.txn.value.refCount - 1)))
  }

  lemma RemovedCounts(s: State, id: Id)
    requires Count(s, id) == 1
    ensures id in s.list
    ensures forall k :: multiset(RemoveFast(s.list, id))[k] == if k == id then 0 else Count(s, k)
    ensures ListInRange(s) ==> forall i :: 0 <= i < |RemoveFast(s.list, id)| ==> RemoveFast(s.list, id)[i] < |s.flows|
  {
    CountIn(s.list, id);
    RemoveFastCounts(s.list, id);
    var r := RemoveFast(s.list, id);
    if ListInRange(s) {
      forall i | 0 <= i < |r|
        ensures r[i] < |s.flows|
      {
        assert r[i] in multiset(r);
        assert r[i] in multiset(s.list);
        assert r[i] in s.list;
      }
    }
  }

  lemma LeavingFlow(f: Flow)
    requires FlowSafe(f, 1) && f.txn.Some? && f.txn.value.done && f.frames > 0
    ensures FlowSafe(Unlisted(f), 0) && Unref(f) == Unlisted(f)
    ensures Unlisted(f).start == f.start && IsExported(Unlisted(f)) == IsExported(f)
  {}

  lemma LeaveListSafe(s: State, id: Id)
    requires Safe(s) && id < |s.flows| && Count(s, id) == 1
    requires s.flows[id].txn.Some? && s.flows[id].txn.value.done && s.flows[id].frames > 0
    ensures Safe(LeaveList(s, id))
    ensures LeaveList(s, id) ==
      With(s, id, Unlisted(s.flows[id]), s.log, s.pin).(list := RemoveFast(s.list, id))
    ensures forall k :: Count(LeaveList(s, id), k) == if k == id then 0 else Count(s, k)
  {
    hide RemoveFast, FlowSafe, Unref, Unlisted;
    RemovedCounts(s, id);
    var f, u := s.flows[id], LeaveList(s, id);
    LeavingFlow(f);
    forall k | 0 <= k < |u.flows|
      ensures FlowSafe(u.flows[k], Count(u, k))
    {
      assert k != id ==> u.flows[k] == s.flows[k] && Count(u, k) == Count(s, k);
    }
  }

  /** A flow that is detached and has lost its window, before it is unexported. */
  predicate BeforeUnexport(f: Flow) {
    && f.txn.Some? && f.txn.value.done && f.txn.value.invocation.Some? && f.txn.value.finished
    && !f.txn.value.deadlineId && !f.txn.value.closeId
    && f.frames > 0 && f.session.None? && f.slot && IsExported(f)
  }

  function Answered(f: Flow): Flow
    requires f.txn.Some?
  {
    f.(txn := Some(f.txn.value.(invocation := None)))
  }

  lemma TailFlows(f: Flow)
    requires FlowSafe(f, 1) && BeforeUnexport(f)
    ensures var f1 := Hidden(f); var f2 := Answered(f1); var f3 := Unlisted(f2); var f4 := f3.(slot := false);
      && FlowSafe(f2, 1) && FlowSafe(f4, 0) && FlowSafe(Release(f4), 0)
      && Release(f4) == Ended(f.(frames := f.frames - 1))
      && !IsExported(f2) && !IsExported(f4) && !IsExported(Release(f4))
      && Release(f4).start == f.start
  {}

  function SentReply(f: Flow, response: Response, uri: Option<string>, reason: Option<Reason>): Entry
    requires f.txn.Some? && f.txn.value.invocation.Some?
  {
    Replied(f.txn.value.invocation.value, response, if response == Completed then uri else None, reason)
  }

  lemma ReplySafe(s: State, id: Id, response: Response, uri: Option<string>, reason: Option<Reason>)
    requires Safe(s) && id < |s.flows|
    requires var f := s.flows[id]; f.txn.Some? && f.txn.value.invocation.Some? && FlowSafe(Answered(f), Count(s, id))
    ensures Safe(Reply(s, id, response, uri, reason))
    ensures Reply(s, id, response, uri, reason) ==
      With(s, id, Answered(s.flows[id]), s.log + [SentReply(s.flows[id], response, uri, reason)], s.pin)
  {
    WithSafe(s, id, Answered(s.flows[id]), s.log + [SentReply(s.flows[id], response, uri, reason)], s.pin);
  }

  lemma SlotAndRelease(s: State, id: Id)
    requires Safe(s) && id < |s.flows| && s.flows[id].slot
    requires var f := s.flows[id].(slot := false);
      && FlowSafe(f, Count(s, id)) && FlowSafe(Release(f), Count(s, id))
      && IsExported(Release(f)) == IsExported(f) && Release(f).start == f.start
    ensures var k := FreeSlot(s, id); Safe(k) && Safe(Apply(k, id, Release))
    ensures Apply(FreeSlot(s, id), id, Release) == With(s, id, Release(s.flows[id].(slot := false)), s.log, s.pin)
  {
    var f := s.flows[id].(slot := false);
    WithSafe(s, id, f, s.log, s.pin);
    assert FreeSlot(s, id) == With(s, id, f, s.log, s.pin);
    WithWith(s, id, f, s.log, s.pin, Release);
    WithSafe(s, id, Release(f), s.log, s.pin);
  }

  /** The flow, the list, the registry and the log after the last stages. */
  function TailState(s: State, id: Id, f: Flow, e: Entry): State
    requires id < |s.flows|
  {
    With(s, id, f, s.log + [e], s.pin).(list := RemoveFast(s.list, id), registry := s.registry - {f.start.path})
  }

  /** From the detached flow to the end of finish. */
  lemma FinishTailSafe(s: State, id: Id, response: Response, uri: Option<string>, reason: Option<Reason>)
    requires Safe(s) && id < |s.flows| && Count(s, id) == 1 && BeforeUnexport(s.flows[id])
    ensures var g := Unexport(s, id);
      var h := Reply(g, id, response, uri, reason);
      var k := RunFinished(h, id);
      var z := Apply(k, id, Release);
      && Safe(g) && Safe(h) && AllSafe(FinishedTrace(h, id)) && Safe(z)
      && z == TailState(s, id, Ended(s.flows[id].(frames := s.flows[id].frames - 1)),
                        SentReply(s.flows[id], response, uri, reason))
  {
    hide FlowSafe, Unexport, Reply, LeaveList, RegistrySafe, RemoveFast;
    var f := s.flows[id];
    TailFlows(f);
    UnexportSafe(s, id);
    var g := Unexport(s, id);
    assert Count(g, id) == Count(s, id);
    ReplySafe(g, id, response, uri, reason);
    var h := Reply(g, id, response, uri, reason);
    assert Count(h, id) == Count(s, id);
    LeaveListSafe(h, id);
    var k1 := LeaveList(h, id);
    SlotAndRelease(k1, id);
    assert RunFinished(h, id) == FreeSlot(k1, id);
    var z := Apply(FreeSlot(k1, id), id, Release);
    assert z.flows == s.flows[id := Release(k1.flows[id].(slot := false))];
  }

  lemma DetachedIsBeforeTeardown(f: Flow, n: nat)
    requires FlowSafe(f, n) && Ready(f, n)
    ensures BeforeTeardown(Detached(f))
    ensures BeforeUnexport(Unwindowed(Detached(f)))
    ensures Unwindowed(Detached(f)).frames == f.frames + 1
    ensures Ended(Unwindowed(Detached(f)).(frames := f.frames)) == Ended(f)
    ensures UsesPkcs11(Detached(f)) == UsesPkcs11(f)
    ensures Unwindowed(Detached(f)).txn.value.invocation == f.txn.value.invocation
  {}

  /** Every state inside finish is safe, and finish has the closed result. */
  lemma FinishSafe(s: State, id: Id, response: Response, uri: Option<string>, reason: Option<Reason>)
    requires Safe(s) && id < |s.flows| && Ready(s.flows[id], Count(s, id))
    ensures AllSafe(FinishTrace(s, id, response, uri, reason))
    ensures Finish(s, id, response, uri, reason) == EndedState(s, id, response, uri, reason)
    ensures Safe(EndedState(s, id, response, uri, reason))
  {
    var f := s.flows[id];
    DetachedIsBeforeTeardown(f, Count(s, id));
    DetachSafe(s, id);
    var d := With(s, id, Detached(f), s.log + [Committed(id)], s.pin);
    TeardownSafe(d, id);
    var e := RunTeardown(d, id);
    assert Count(e, id) == Count(s, id);
    FinishTailSafe(e, id, response, uri, reason);
    FinishTraceSafe(s, id, response, uri, reason);
    FinishAssembled(s, id, response, uri, reason, d, e);
  }

  lemma FinishTraceSafe(s: State, id: Id, response: Response, uri: Option<string>, reason: Option<Reason>)
    requires id < |s.flows| && s.flows[id].txn.Some? && !s.flows[id].txn.value.done
    requires var a := Commit(s, id);
      var b := Apply(a, id, Hold);
      var c := Apply(b, id, Disarm);
      var d := Apply(c, id, Disconnect);
      var g := Unexport(RunTeardown(d, id), id);
      var h := Reply(g, id, response, uri, reason);
      && Safe(a) && Safe(b) && Safe(c) && Safe(d) && AllSafe(TeardownTrace(d, id))
      && Safe(g) && Safe(h) && AllSafe(FinishedTrace(h, id))
      && Safe(Apply(RunFinished(h, id), id, Release))
    ensures AllSafe(FinishTrace(s, id, response, uri, reason))
  {
    hide Commit, RunTeardown, Unexport, Reply, RunFinished, Safe, TeardownTrace, FinishedTrace;
  }

  lemma FinishAssembled(s: State, id: Id, response: Response, uri: Option<string>, reason: Option<Reason>, d: State, e: State)
    requires id < |s.flows| && FlowSafe(s.flows[id], Count(s, id)) && Ready(s.flows[id], Count(s, id))
    requires d == Apply(Apply(Apply(Commit(s, id), id, Hold), id, Disarm), id, Disconnect)
    requires d == With(s, id, Detached(s.flows[id]), s.log + [Committed(id)], s.pin)
    requires e == RunTeardown(d, id)
    requires e == With(d, id, Unwindowed(d.flows[id]), d.log, EndedPin(d, d.flows[id]))
    requires UsesPkcs11(d.flows[id]) == UsesPkcs11(s.flows[id])
    requires e.flows[id].txn.Some? && e.flows[id].txn.value.invocation == s.flows[id].txn.value.invocation
    requires e.flows[id].frames == s.flows[id].frames + 1 && e.flows[id].request.Some?
    requires Ended(e.flows[id].(frames := s.flows[id].frames)) == Ended(s.flows[id])
    requires Apply(RunFinished(Reply(Unexport(e, id), id, response, uri, reason), id), id, Release)
      == TailState(e, id, Ended(e.flows[id].(frames := e.flows[id].frames - 1)), SentReply(e.flows[id], response, uri, reason))
    ensures Finish(s, id, response, uri, reason) == EndedState(s, id, response, uri, reason)
  {
    hide Commit, RunTeardown, Unexport, Reply, RunFinished, FlowSafe;
    var f := s.flows[id];
    var z := Finish(s, id, response, uri, reason);
    var w := EndedState(s, id, response, uri, reason);
    assert z.flows == s.flows[id := Ended(f)] == w.flows;
    assert z.log == w.log;
  }

  /** Finishing a flow ends it and leaves every other flow as it was. */
  lemma FinishSteady(s: State, id: Id, response: Response, uri: Option<string>, reason: Option<Reason>)
    requires Safe(s) && PinHasOwner(s)
    requires id < |s.flows| && Ready(s.flows[id], Count(s, id))
    requires forall k :: 0 <= k < |s.flows| && k != id ==> Settled(s, k)
    ensures var z := Finish(s, id, response, uri, reason);
      && z == EndedState(s, id, response, uri, reason)
      && Steady(z)
      && Gone(z.flows[id], Count(z, id))
      && (forall k :: Count(z, k) == if k == id then 0 else Count(s, k))
  {
    FinishSafe(s, id, response, uri, reason);
    RemovedCounts(s, id);
    var z := Finish(s, id, response, uri, reason);
    assert Gone(Ended(s.flows[id]), 0);
    if z.pin.Some? {
      var k :| 0 <= k < |s.flows| && UsesPkcs11(s.flows[k]);
      assert k != id && z.flows[k] == s.flows[k];
    }
    forall k | 0 <= k < |z.flows|
      ensures Settled(z, k)
    {
      assert k != id ==> Settled(s, k) && z.flows[k] == s.flows[k];
    }
  }
}
