/**
  src/webauthentication-impl.c with the parts of the other files that run inside
  its calls: one object whose fields the handlers update in place.  View() is the
  state that module Lifecycle describes, and every method moves it as that
  module's function says.  A ghost result `moments` lists the states the method
  passed through, one after each of its stages.
 */
module Backend {
  import opened Wrappers
  import Completion
  import Storage
  import PinCache
  import opened SignInObjects
  import opened Lifecycle
  import opened LifecycleSafety
  import opened LifecycleEvents
  import opened LifecycleStart
  import opened LifecycleDispatch
  import opened LifecycleClose
  import opened LifecycleRuns
  import opened LifecycleStages

  class WebAuthBackend {
    const pin: PinCache.PinBuffer
    /** The heap: an id is the address of the objects of one Start. */
    var signIns: seq<SignIn>
    var transactions: seq<Id>
    var exports: map<string, Id>
    var frontendOwner: Option<string>
    var ownerResolved: bool
    var now: nat
    var invocations: nat
    var log: seq<Entry>

    static ghost function Heap(s: seq<SignIn>): set<object> {
      set f: SignIn, o: object | f in s && o in f.Objects() :: o
    }

    ghost function Objects(): set<object>
      reads this`signIns, pin
    {
      Heap(signIns) + pin.Objects()
    }

    /** No two sign-ins share an object. */
    ghost predicate Valid()
      reads this`signIns
    {
      forall i, j :: 0 <= i < j < |signIns| ==> signIns[i].Objects() !! signIns[j].Objects()
    }

    static ghost function FlowsOf(s: seq<SignIn>): (r: seq<Flow>)
      reads Heap(s)
      ensures |r| == |s|
      ensures forall i :: 0 <= i < |r| ==> r[i] == s[i].View()
    {
      seq(|s|, i requires 0 <= i < |s| reads Heap(s) => s[i].View())
    }

    ghost function Flows(): (r: seq<Flow>)
      reads this`signIns, Heap(signIns)
    {
      FlowsOf(signIns)
    }

    ghost function View(): (r: State)
      reads this, Objects()
      ensures |r.flows| == |signIns|
    {
      State(Flows(), transactions, exports, frontendOwner, ownerResolved, pin.Contents(), now, invocations, log)
    }

    constructor ()
      ensures Valid() && View() == InitialState() && fresh(Objects())
    {
      signIns, transactions, exports := [], [], map[];
      frontendOwner, ownerResolved, now, invocations, log := None, false, 0, 0, [];
      pin := new PinCache.PinBuffer();
      new;
      assert Flows() == [];
    }

    /** Every object is one of before, or new. */
    twostate predicate Grown()
      reads this`signIns, pin
    {
      Valid() && forall o :: o in Objects() ==> o in old(Objects()) || fresh(o)
    }

    /** The sign-ins are the same. */
    twostate predicate Kept()
      reads this`signIns, pin
    {
      Grown() && signIns == old(signIns)
    }

    lemma InHeap(id: Id)
      requires id < |signIns|
      ensures signIns[id].Objects() <= Objects() && pin.Objects() <= Objects()
    {
      forall o | o in signIns[id].Objects()
        ensures o in Objects()
      {
        assert signIns[id] in signIns;
      }
    }

    // ---------- webauth_transaction_finish ----------

    method Emit(e: Entry)
      requires Valid()
      modifies this`log
      ensures Kept()
      ensures View() == Lifecycle.Emit(old(View()), e)
    {
      log := log + [e];
    }

    /** Following a pointer to a freed object. */
    method Misuse(id: Id)
      requires Valid() && id < |signIns|
      modifies signIns[id]
      ensures Kept()
      ensures View() == Put(old(View()), id, Bad(old(View()).flows[id]))
    {
      signIns[id].fault := true;
      assert Flows() == old(Flows())[id := signIns[id].View()];
    }

    method Commit(id: Id)
      requires Valid() && id < |signIns|
      modifies this`log, signIns[id].Objects()
      ensures Kept()
      ensures View() == Lifecycle.Commit(old(View()), id)
    {
      hide WebAuthBackend.Objects, PinCache.PinBuffer.Contents, PinCache.PinBuffer.Objects;
      var f := signIns[id];
      if !f.txn.inUse {
        f.fault := true;
      } else {
        f.txn.done := true;
        log := log + [Committed(id)];
      }
      assert Flows() == old(Flows())[id := f.View()];
    }

    // ---------- teardown in src/webkit-session.c ----------

    method MarkTorn(id: Id)
      requires Valid() && id < |signIns|
      modifies signIns[id].Objects()
      ensures Kept()
      ensures View() == Lifecycle.MarkTorn(old(View()), id)
    {
      hide WebAuthBackend.Objects, PinCache.PinBuffer.Contents, PinCache.PinBuffer.Objects;
      var f := signIns[id];
      if !f.session.inUse {
        f.fault := true;
      } else {
        f.session.tornDown := true;
      }
      assert Flows() == old(Flows())[id := f.View()];
    }

    method ReleaseAdapter(id: Id)
      requires Valid() && id < |signIns|
      modifies pin.Objects(), signIns[id].Objects()
      ensures Kept()
      ensures View() == Lifecycle.ReleaseAdapter(old(View()), id)
      ensures old(pin.pin) != null && old(signIns[id].session.inUse) && old(signIns[id].session.provider) == Some(Pkcs11) ==>
        pin.pin == null && old(pin.pin)[..] == PinCache.Wiped(old(pin.pin[..]))
    {
      var f := signIns[id];
      if !f.session.inUse {
        f.fault := true;
      } else if f.session.provider == Some(Pkcs11) {
        pin.Release();
      }
      assert Flows() == old(Flows())[id := f.View()];
    }

    method DropSessionReference(id: Id)
      requires Valid() && id < |signIns|
      modifies signIns[id].Objects()
      ensures Kept()
      ensures View() == Lifecycle.DropSessionReference(old(View()), id)
    {
      hide WebAuthBackend.Objects, PinCache.PinBuffer.Contents, PinCache.PinBuffer.Objects;
      var f := signIns[id];
      if !f.session.inUse {
        f.fault := true;
      } else {
        f.DropReference();
      }
      assert Flows() == old(Flows())[id := f.View()];
    }

    method FreeSession(id: Id)
      requires Valid() && id < |signIns|
      modifies signIns[id].Objects()
      ensures Kept()
      ensures View() == Lifecycle.FreeSession(old(View()), id)
    {
      var f := signIns[id];
      if !f.session.inUse {
        f.fault := true;
      } else {
        f.session.inUse := false;
      }
      assert Flows() == old(Flows())[id := f.View()];
    }

    /** teardown, the first time it is called */
    method TearDown(id: Id) returns (ghost moments: seq<State>)
      requires Valid() && id < |signIns|
      modifies this, Objects()
      ensures Kept()
      ensures View() == TornDown(old(View()), id) && moments == TornDownTrace(old(View()), id)
    {
      hide WebAuthBackend.View, WebAuthBackend.Valid, WebAuthBackend.Objects;
      InHeap(id);
      MarkTorn(id);
      moments := [View()];
      ReleaseAdapter(id);
      moments := moments + [View()];
      DropSessionReference(id);
      moments := moments + [View()];
      FreeSession(id);
      moments := moments + [View()];
    }

    /** The teardown hook, if it is set. */
    method RunTeardown(id: Id) returns (ghost moments: seq<State>)
      requires Valid() && id < |signIns|
      modifies this, Objects()
      ensures Kept()
      ensures View() == Lifecycle.RunTeardown(old(View()), id)
      ensures moments == TeardownTrace(old(View()), id)
    {
      hide WebAuthBackend.Objects, Lifecycle.RunTeardown, TeardownTrace, TornDown, TornDownTrace;
      TeardownCases(View(), id);
      var f := signIns[id];
      if !f.txn.inUse || (f.txn.teardown && !f.session.inUse) {
        InHeap(id);
        Misuse(id);
        moments := [View()];
      } else if f.txn.teardown && !f.session.tornDown {
        moments := TearDown(id);
      } else {
        moments := [View()];
      }
    }

    /** webauth_impl_request_unexport; the object at the path goes, whoever exported it. */
    method Unexport(id: Id)
      requires Valid() && id < |signIns|
      modifies this`exports, signIns[id].Objects()
      ensures Kept()
      ensures View() == Lifecycle.Unexport(old(View()), id)
    {
      hide WebAuthBackend.Objects, PinCache.PinBuffer.Contents, PinCache.PinBuffer.Objects;
      var f := signIns[id];
      if !f.request.inUse {
        f.fault := true;
      } else if f.request.exported {
        var known := f.start.path in exports && exports[f.start.path] == id;
        exports := exports - {f.start.path};
        f.LeaveBus(known);
      }
      assert Flows() == old(Flows())[id := f.View()];
    }

    method StealInvocation(id: Id) returns (invocation: nat)
      requires Valid() && id < |signIns| && signIns[id].txn.inUse && signIns[id].txn.invocation.Some?
      modifies signIns[id].Objects()
      ensures Kept()
      ensures var f := old(View()).flows[id]; var t := f.txn.value;
        && View() == Put(old(View()), id, f.(txn := Some(t.(invocation := None))))
        && Some(invocation) == t.invocation
    {
      hide WebAuthBackend.Objects, PinCache.PinBuffer.Contents, PinCache.PinBuffer.Objects;
      invocation := signIns[id].StealInvocation();
      assert Flows() == old(Flows())[id := signIns[id].View()];
    }

    /** g_dbus_method_invocation_return_value on the stolen invocation */
    method Reply(id: Id, response: Response, uri: Option<string>, reason: Option<Reason>)
      requires Valid() && id < |signIns|
      modifies this`log, signIns[id].Objects()
      ensures Kept()
      ensures View() == Lifecycle.Reply(old(View()), id, response, uri, reason)
    {
      hide WebAuthBackend.Objects, WebAuthBackend.Valid;
      var f := signIns[id];
      if !f.txn.inUse || f.txn.invocation.None? {
        Misuse(id);
      } else {
        var invocation := StealInvocation(id);
        Emit(Replied(invocation, response, if response == Completed then uri else None, reason));
      }
    }

    method LeaveList(id: Id)
      requires Valid() && id < |signIns|
      modifies this`transactions, signIns[id].Objects()
      ensures Kept()
      ensures View() == Lifecycle.LeaveList(old(View()), id)
    {
      if id in transactions {
        transactions := RemoveFast(transactions, id);
        signIns[id].Unref();
        assert Flows() == old(Flows())[id := signIns[id].View()];
      }
    }

    method FreeSlot(id: Id)
      requires Valid() && id < |signIns|
      modifies signIns[id]
      ensures Kept()
      ensures View() == Lifecycle.FreeSlot(old(View()), id)
    {
      signIns[id].FreeSlot();
      assert Flows() == old(Flows())[id := signIns[id].View()];
    }

    /** forget_transaction: the list gives up its reference, then the slot is freed. */
    method ForgetTransaction(id: Id) returns (ghost moments: seq<State>)
      requires Valid() && id < |signIns|
      modifies this`transactions, signIns[id].Objects()
      ensures Kept()
      ensures var s1 := Lifecycle.LeaveList(old(View()), id);
        View() == Lifecycle.FreeSlot(s1, id) && moments == [s1, View()]
    {
      LeaveList(id);
      moments := [View()];
      FreeSlot(id);
      moments := moments + [View()];
    }

    method RunFinished(id: Id) returns (ghost moments: seq<State>)
      requires Valid() && id < |signIns|
      modifies this, Objects()
      ensures Kept()
      ensures View() == Lifecycle.RunFinished(old(View()), id)
      ensures moments == FinishedTrace(old(View()), id)
    {
      hide Lifecycle.LeaveList, Lifecycle.FreeSlot;
      InHeap(id);
      var f := signIns[id];
      if !f.txn.inUse || (f.txn.finished && !f.slot) {
        Misuse(id);
        moments := [View()];
      } else if f.txn.finished {
        moments := ForgetTransaction(id);
      } else {
        moments := [View()];
      }
    }

    // ---------- References, the timer and the handler ----------

    method Hold(id: Id)
      requires Valid() && id < |signIns|
      modifies Objects()
      ensures Kept()
      ensures View() == Apply(old(View()), id, Lifecycle.Hold)
    {
      hide Lifecycle.Hold, WebAuthBackend.Objects, PinCache.PinBuffer.Contents, PinCache.PinBuffer.Objects;
      InHeap(id);
      signIns[id].Hold();
      assert Flows() == old(Flows())[id := signIns[id].View()];
    }

    method Disarm(id: Id)
      requires Valid() && id < |signIns|
      modifies Objects()
      ensures Kept()
      ensures View() == Apply(old(View()), id, Lifecycle.Disarm)
    {
      hide Lifecycle.Disarm, WebAuthBackend.Objects, PinCache.PinBuffer.Contents, PinCache.PinBuffer.Objects;
      InHeap(id);
      signIns[id].Disarm();
      assert Flows() == old(Flows())[id := signIns[id].View()];
    }

    method Disconnect(id: Id)
      requires Valid() && id < |signIns|
      modifies Objects()
      ensures Kept()
      ensures View() == Apply(old(View()), id, Lifecycle.Disconnect)
    {
      hide Lifecycle.Disconnect, WebAuthBackend.Objects, PinCache.PinBuffer.Contents, PinCache.PinBuffer.Objects;
      InHeap(id);
      signIns[id].Disconnect();
      assert Flows() == old(Flows())[id := signIns[id].View()];
    }

    method Release(id: Id)
      requires Valid() && id < |signIns|
      modifies Objects()
      ensures Kept()
      ensures View() == Apply(old(View()), id, Lifecycle.Release)
    {
      hide Lifecycle.Release, WebAuthBackend.Objects, PinCache.PinBuffer.Contents, PinCache.PinBuffer.Objects;
      InHeap(id);
      signIns[id].Release();
      assert Flows() == old(Flows())[id := signIns[id].View()];
    }

    /** The first half of finish: no event can reach the flow any more. */
    method Detach(id: Id) returns (ghost moments: seq<State>)
      requires Valid() && id < |signIns|
      modifies this, Objects()
      ensures Kept()
      ensures View() == DetachedState(old(View()), id)
      ensures moments == DetachTrace(old(View()), id)
    {
      hide WebAuthBackend.View, WebAuthBackend.Valid, WebAuthBackend.Objects;
      InHeap(id);
      Commit(id);
      moments := [View()];
      Hold(id);
      moments := moments + [View()];
      Disarm(id);
      moments := moments + [View()];
      Disconnect(id);
      moments := moments + [View()];
    }

    /** The second half: the reply and the last references. */
    method Conclude(id: Id, response: Response, uri: Option<string>, reason: Option<Reason>) returns (ghost moments: seq<State>)
      requires Valid() && id < |signIns|
      modifies this, Objects()
      ensures Kept()
      ensures View() == Concluded(old(View()), id, response, uri, reason)
      ensures moments == ConcludeTrace(old(View()), id, response, uri, reason)
    {
      hide WebAuthBackend.View, WebAuthBackend.Valid, WebAuthBackend.Objects;
      InHeap(id);
      Unexport(id);
      moments := [View()];
      Reply(id, response, uri, reason);
      moments := moments + [View()];
      ghost var leaving := RunFinished(id);
      Release(id);
      moments := moments + leaving + [View()];
    }

    method FinishStages(id: Id, response: Response, uri: Option<string>, reason: Option<Reason>) returns (ghost moments: seq<State>)
      requires Valid() && id < |signIns|
      modifies this, Objects()
      ensures Kept()
      ensures var d := DetachedState(old(View()), id); var e := Lifecycle.RunTeardown(d, id);
        && View() == Concluded(e, id, response, uri, reason)
        && moments == DetachTrace(old(View()), id) + TeardownTrace(d, id) + ConcludeTrace(e, id, response, uri, reason)
    {
      hide WebAuthBackend.View, WebAuthBackend.Valid, WebAuthBackend.Objects;
      moments := Detach(id);
      ghost var down := RunTeardown(id);
      ghost var end := Conclude(id, response, uri, reason);
      moments := moments + down + end;
    }

    /** The first terminal event of a flow. */
    method FinishOnce(id: Id, response: Response, uri: Option<string>, reason: Option<Reason>) returns (ghost moments: seq<State>)
      requires Valid() && id < |signIns| && signIns[id].txn.inUse && !signIns[id].txn.done
      modifies this, Objects()
      ensures Kept()
      ensures View() == Lifecycle.Finish(old(View()), id, response, uri, reason)
      ensures moments == FinishTrace(old(View()), id, response, uri, reason)
    {
      FinishInHalves(View(), id, response, uri, reason);
      moments := FinishStages(id, response, uri, reason);
    }

    /** webauth_transaction_finish */
    method Finish(id: Id, response: Response, uri: Option<string>, reason: Option<Reason>)
      returns (first: bool, ghost moments: seq<State>)
      requires Valid() && id < |signIns|
      modifies this, Objects()
      ensures Kept()
      ensures View() == Lifecycle.Finish(old(View()), id, response, uri, reason)
      ensures moments == FinishTrace(old(View()), id, response, uri, reason)
      ensures first == (old(signIns[id].txn.inUse) && !old(signIns[id].txn.done))
    {
      hide Lifecycle.Finish;
      InHeap(id);
      FinishTooLate(View(), id, response, uri, reason);
      var f := signIns[id];
      first := f.txn.inUse && !f.txn.done;
      if !f.txn.inUse {
        Misuse(id);
        moments := [View()];
      } else if f.txn.done {
        Emit(LateFinish(id));
        moments := [View()];
      } else {
        moments := FinishOnce(id, response, uri, reason);
      }
    }

    // ---------- The frontend's bus name ----------

    method SetFrontendOwner(owner: Option<string>)
      requires Valid()
      modifies this`frontendOwner
      ensures Kept()
      ensures View() == old(View()).(owner := owner)
    {
      if frontendOwner == owner {
        return;
      }
      frontendOwner := owner;
    }

    /** resolve_frontend_owner; `answer` is what the bus reports at this moment. */
    method ResolveFrontendOwner(answer: Option<string>)
      requires Valid()
      modifies this`frontendOwner, this`ownerResolved
      ensures Kept()
      ensures View() == Resolve(old(View()), answer)
    {
      ownerResolved := true;
      SetFrontendOwner(answer);
    }

    /** webauth_backend_sender_is_frontend */
    method SenderIsFrontend(sender: Option<string>, first: Option<string>, second: Option<string>) returns (accepted: bool)
      requires Valid()
      modifies this`frontendOwner, this`ownerResolved
      ensures Kept()
      ensures (View(), accepted) == SenderCheck(old(View()), sender, first, second)
    {
      if sender.None? {
        return false;
      }
      if !ownerResolved {
        ResolveFrontendOwner(first);
      }
      if frontendOwner.None? || sender != frontendOwner {
        return false;
      }
      ResolveFrontendOwner(second);
      accepted := frontendOwner.Some? && sender == frontendOwner;
    }

    // ---------- cancel_all ----------

    /** webauth_transaction_ref on each entry of the copied list */
    method HoldEach(doomed: seq<Id>) returns (ghost moments: seq<State>)
      requires Valid() && forall i :: 0 <= i < |doomed| ==> doomed[i] < |signIns|
      modifies this, Objects()
      ensures Kept()
      ensures View() == HoldAll(old(View()), doomed) && moments == HoldAllTrace(old(View()), doomed)
    {
      hide Lifecycle.Hold, WebAuthBackend.Objects;
      var i := 0;
      moments := [];
      while i < |doomed|
        invariant 0 <= i <= |doomed| && Kept()
        invariant HoldAll(old(View()), doomed) == HoldAll(View(), doomed[i..])
        invariant HoldAllTrace(old(View()), doomed) == moments + HoldAllTrace(View(), doomed[i..])
      {
        assert doomed[i..][1..] == doomed[i + 1..];
        Hold(doomed[i]);
        moments := moments + [View()];
        i := i + 1;
      }
    }

    method FinishEach(doomed: seq<Id>, reason: Reason) returns (ghost moments: seq<State>)
      requires Valid() && forall i :: 0 <= i < |doomed| ==> doomed[i] < |signIns|
      modifies this, Objects()
      ensures Kept()
      ensures View() == FinishAll(old(View()), doomed, reason) && moments == FinishAllTrace(old(View()), doomed, reason)
    {
      hide Lifecycle.Finish, FinishTrace, WebAuthBackend.Objects;
      var i := 0;
      moments := [];
      while i < |doomed|
        invariant 0 <= i <= |doomed| && Kept()
        invariant FinishAll(old(View()), doomed, reason) == FinishAll(View(), doomed[i..], reason)
        invariant FinishAllTrace(old(View()), doomed, reason) == moments + FinishAllTrace(View(), doomed[i..], reason)
      {
        assert doomed[i..][1..] == doomed[i + 1..];
        var _, stages := Finish(doomed[i], Other, None, Some(reason));
        moments := moments + stages;
        i := i + 1;
      }
    }

    /** The copy's free function. */
    method ReleaseEach(doomed: seq<Id>) returns (ghost moments: seq<State>)
      requires Valid() && forall i :: 0 <= i < |doomed| ==> doomed[i] < |signIns|
      modifies this, Objects()
      ensures Kept()
      ensures View() == ReleaseAll(old(View()), doomed) && moments == ReleaseAllTrace(old(View()), doomed)
    {
      hide Lifecycle.Release, WebAuthBackend.Objects;
      var i := 0;
      moments := [];
      while i < |doomed|
        invariant 0 <= i <= |doomed| && Kept()
        invariant ReleaseAll(old(View()), doomed) == ReleaseAll(View(), doomed[i..])
        invariant ReleaseAllTrace(old(View()), doomed) == moments + ReleaseAllTrace(View(), doomed[i..])
      {
        assert doomed[i..][1..] == doomed[i + 1..];
        Release(doomed[i]);
        moments := moments + [View()];
        i := i + 1;
      }
    }

    /** cancel_all: the list is copied with a reference to each entry, because every finish removes from it. */
    method CancelAll(reason: Reason) returns (ghost moments: seq<State>)
      requires Valid() && ListInRange(View())
      modifies this, Objects()
      ensures Kept()
      ensures View() == Lifecycle.CancelAll(old(View()), reason)
      ensures moments == CancelAllTrace(old(View()), reason)
    {
      var doomed := transactions;
      ghost var held := HoldEach(doomed);
      ghost var ended := FinishEach(doomed, reason);
      ghost var released := ReleaseEach(doomed);
      moments := held + ended + released;
    }

    // ---------- handle_start ----------

    method HoldRequest(id: Id)
      requires Valid() && id < |signIns|
      modifies Objects()
      ensures Kept()
      ensures View() == Apply(old(View()), id, Lifecycle.HoldRequest)
    {
      hide Lifecycle.HoldRequest, WebAuthBackend.Objects, PinCache.PinBuffer.Contents, PinCache.PinBuffer.Objects;
      InHeap(id);
      signIns[id].HoldRequest();
      assert Flows() == old(Flows())[id := signIns[id].View()];
    }

    method ReleaseRequest(id: Id)
      requires Valid() && id < |signIns|
      modifies Objects()
      ensures Kept()
      ensures View() == Apply(old(View()), id, Lifecycle.ReleaseRequest)
    {
      hide Lifecycle.ReleaseRequest, WebAuthBackend.Objects, PinCache.PinBuffer.Contents, PinCache.PinBuffer.Objects;
      InHeap(id);
      signIns[id].ReleaseRequest();
      assert Flows() == old(Flows())[id := signIns[id].View()];
    }

    method CancelRequest(id: Id)
      requires Valid() && id < |signIns|
      modifies Objects()
      ensures Kept()
      ensures View() == Apply(old(View()), id, Lifecycle.CancelRequest)
    {
      hide Lifecycle.CancelRequest, WebAuthBackend.Objects, PinCache.PinBuffer.Contents, PinCache.PinBuffer.Objects;
      InHeap(id);
      signIns[id].CancelRequest();
      assert Flows() == old(Flows())[id := signIns[id].View()];
    }

    method NewTransaction(id: Id)
      requires Valid() && id < |signIns|
      modifies Objects()
      ensures Kept()
      ensures View() == Apply(old(View()), id, Lifecycle.NewTransaction)
    {
      hide Lifecycle.NewTransaction, WebAuthBackend.Objects, PinCache.PinBuffer.Contents, PinCache.PinBuffer.Objects;
      InHeap(id);
      signIns[id].NewTransaction();
      assert Flows() == old(Flows())[id := signIns[id].View()];
    }

    method NewSlot(id: Id)
      requires Valid() && id < |signIns|
      modifies Objects()
      ensures Kept()
      ensures View() == Apply(old(View()), id, Lifecycle.NewSlot)
    {
      hide Lifecycle.NewSlot, WebAuthBackend.Objects, PinCache.PinBuffer.Contents, PinCache.PinBuffer.Objects;
      InHeap(id);
      signIns[id].NewSlot();
      assert Flows() == old(Flows())[id := signIns[id].View()];
    }

    method NewSession(id: Id)
      requires Valid() && id < |signIns|
      modifies Objects()
      ensures Kept()
      ensures View() == Apply(old(View()), id, Lifecycle.NewSession)
    {
      hide Lifecycle.NewSession, WebAuthBackend.Objects, PinCache.PinBuffer.Contents, PinCache.PinBuffer.Objects;
      InHeap(id);
      signIns[id].NewSession();
      assert Flows() == old(Flows())[id := signIns[id].View()];
    }

    method AbandonSession(id: Id)
      requires Valid() && id < |signIns|
      modifies Objects()
      ensures Kept()
      ensures View() == Apply(old(View()), id, Lifecycle.AbandonSession)
    {
      hide Lifecycle.AbandonSession, WebAuthBackend.Objects, PinCache.PinBuffer.Contents, PinCache.PinBuffer.Objects;
      InHeap(id);
      signIns[id].AbandonSession();
      assert Flows() == old(Flows())[id := signIns[id].View()];
    }

    /** webauth_impl_request_new */
    method NewRequest(args: StartArgs)
      requires Valid()
      modifies this`signIns
      ensures Grown() && |signIns| == |old(signIns)| + 1
      ensures View() == Lifecycle.NewRequest(old(View()), args)
    {
      hide PinCache.PinBuffer.Contents, PinCache.PinBuffer.Objects;
      var f := new SignIn(args);
      signIns := signIns + [f];
      assert Flows() == old(Flows()) + [f.View()];
    }

    /** webauth_impl_request_export, when the bus accepts the path */
    method Export(id: Id)
      requires Valid() && id < |signIns|
      modifies this`exports, signIns[id].Objects()
      ensures Kept()
      ensures View() == Lifecycle.Export(old(View()), id)
    {
      hide WebAuthBackend.Objects, PinCache.PinBuffer.Contents, PinCache.PinBuffer.Objects;
      var f := signIns[id];
      if !f.request.inUse {
        f.fault := true;
      } else {
        exports := exports[f.start.path := id];
        f.EnterBus();
      }
      assert Flows() == old(Flows())[id := f.View()];
    }

    method JoinList(id: Id)
      requires Valid() && id < |signIns|
      modifies this`transactions, signIns[id].Objects()
      ensures Kept()
      ensures View() == Lifecycle.JoinList(old(View()), id)
    {
      signIns[id].Ref();
      transactions := transactions + [id];
      assert Flows() == old(Flows())[id := signIns[id].View()];
    }

    method EquipSession(id: Id, provider: Option<Provider>)
      requires Valid() && id < |signIns|
      modifies Objects()
      ensures Kept()
      ensures View() == Put(old(View()), id, Lifecycle.EquipSession(old(View()).flows[id], provider))
    {
      hide WebAuthBackend.Objects, PinCache.PinBuffer.Contents, PinCache.PinBuffer.Objects;
      InHeap(id);
      signIns[id].EquipSession(provider);
      assert Flows() == old(Flows())[id := signIns[id].View()];
    }

    /** webauth_webkit_session_present */
    method Present(id: Id)
      requires Valid() && id < |signIns|
      modifies this`log, signIns[id].Objects()
      ensures Kept()
      ensures View() == Lifecycle.Present(old(View()), id)
    {
      hide WebAuthBackend.Objects, PinCache.PinBuffer.Contents, PinCache.PinBuffer.Objects, Completion.HostOf;
      var f := signIns[id];
      if !f.session.inUse || !f.txn.inUse {
        Misuse(id);
      } else {
        f.Present(now);
        assert Flows() == old(Flows())[id := f.View()];
        Emit(Opened(id, now));
      }
    }

    method NoStore(id: Id) returns (ghost moments: seq<State>)
      requires Valid() && id < |signIns|
      modifies this, Objects()
      ensures Kept()
      ensures var s1 := Apply(old(View()), id, Lifecycle.AbandonSession);
        && View() == Lifecycle.Finish(s1, id, Other, None, Some(NoStorage))
        && moments == [s1] + FinishTrace(s1, id, Other, None, Some(NoStorage))
    {
      hide Lifecycle.Finish, FinishTrace, Lifecycle.AbandonSession;
      AbandonSession(id);
      moments := [View()];
      var _, stages := Finish(id, Other, None, Some(NoStorage));
      moments := moments + stages;
    }

    /** webauth_webkit_session_new and the rest of handle_start */
    method OpenSession(id: Id, storeOk: bool, provider: Option<Provider>) returns (ghost moments: seq<State>)
      requires Valid() && id < |signIns|
      modifies this, Objects()
      ensures Kept()
      ensures View() == Lifecycle.OpenSession(old(View()), id, storeOk, provider)
      ensures moments == OpenTrace(old(View()), id, storeOk, provider)
    {
      hide WebAuthBackend.Objects, WebAuthBackend.Valid, Lifecycle.NewSession, Lifecycle.EquipSession, Lifecycle.Present, Lifecycle.Finish, FinishTrace, Lifecycle.AbandonSession, Storage.DirectoryName;
      InHeap(id);
      var args := signIns[id].start;
      NewSession(id);
      moments := [View()];
      if !StoreBuilds(args, storeOk) {
        ghost var stages := NoStore(id);
        moments := moments + stages;
        return;
      }
      if args.mode == Storage.Shared {
        Emit(StoreOpened(id, StoreName(args).value));
      }
      ghost var stages := EquipAndPresent(id, provider);
      moments := moments + stages;
    }

    method EquipAndPresent(id: Id, provider: Option<Provider>) returns (ghost moments: seq<State>)
      requires Valid() && id < |signIns|
      modifies this, Objects()
      ensures Kept()
      ensures var s := old(View()); var s1 := Put(s, id, Lifecycle.EquipSession(s.flows[id], provider));
        View() == Lifecycle.Present(s1, id) && moments == [s, s1, View()]
    {
      hide WebAuthBackend.View, WebAuthBackend.Valid, WebAuthBackend.Objects;
      InHeap(id);
      moments := [View()];
      EquipSession(id, provider);
      moments := moments + [View()];
      Present(id);
      moments := moments + [View()];
    }

    /** The Request is exported, and the flow gets its transaction, slot and list entry. */
    method Register(id: Id) returns (ghost moments: seq<State>)
      requires Valid() && id < |signIns|
      modifies this, Objects()
      ensures Kept()
      ensures View() == Registered(old(View()), id) && moments == RegisterTrace(old(View()), id)
    {
      hide WebAuthBackend.View, WebAuthBackend.Valid, WebAuthBackend.Objects;
      InHeap(id);
      Export(id);
      moments := [View()];
      NewTransaction(id);
      moments := moments + [View()];
      NewSlot(id);
      moments := moments + [View()];
      JoinList(id);
      moments := moments + [View()];
    }

    /** Then its session, and the references of this frame are given up. */
    method SetUp(id: Id, storeOk: bool, provider: Option<Provider>) returns (ghost moments: seq<State>)
      requires Valid() && id < |signIns|
      modifies this, Objects()
      ensures Kept()
      ensures View() == IsSetUp(old(View()), id, storeOk, provider)
      ensures moments == SetUpTrace(old(View()), id, storeOk, provider)
    {
      hide WebAuthBackend.View, WebAuthBackend.Valid, WebAuthBackend.Objects, OpenTrace, Lifecycle.OpenSession, Registered, RegisterTrace, Lifecycle.Release, Lifecycle.ReleaseRequest;
      moments := Register(id);
      ghost var opening := OpenSession(id, storeOk, provider);
      Release(id);
      moments := moments + opening + [View()];
      ReleaseRequest(id);
      moments := moments + [View()];
    }

    method Accept(args: StartArgs, exportOk: bool, storeOk: bool, provider: Option<Provider>) returns (ghost moments: seq<State>)
      requires Valid()
      modifies this, Objects()
      ensures Grown()
      ensures View() == Lifecycle.Accept(old(View()), args, exportOk, storeOk, provider)
      ensures moments == AcceptTrace(old(View()), args, exportOk, storeOk, provider)
    {
      hide WebAuthBackend.View, WebAuthBackend.Valid, WebAuthBackend.Objects, Lifecycle.Accept, AcceptTrace, IsSetUp, SetUpTrace, Lifecycle.ReleaseRequest;
      var taken := IsTaken(args.path);
      var id := |signIns|;
      NewRequest(args);
      moments := [View()];
      AcceptInStages(old(View()), args, exportOk, storeOk, provider);
      if !exportOk || taken {
        Emit(Replied(args.invocation, Other, None, Some(InvalidRequest)));
        moments := moments + [View()];
        ReleaseRequest(id);
        moments := moments + [View()];
      } else {
        ghost var stages := SetUp(id, storeOk, provider);
        moments := moments + stages;
      }
    }

    /** Whether the bus has an object at the path. */
    method IsTaken(path: string) returns (taken: bool)
      requires Valid()
      ensures View() == old(View()) && taken == (path in View().registry)
    {
      taken := path in exports;
    }

    method CheckArguments(c: StartCall) returns (mode: Option<Storage.Mode>)
      requires Valid()
      ensures View() == old(View()) && mode == Validated(c)
    {
      mode := Validate(c);
    }

    method NextInvocation() returns (invocation: nat)
      requires Valid()
      modifies this`invocations
      ensures Kept()
      ensures View() == CountInvocation(old(View())) && invocation == old(View()).invocations
    {
      invocation := invocations;
      invocations := invocations + 1;
    }

    /** handle_start: the sender first, then the arguments. */
    method HandleStart(c: StartCall) returns (ghost moments: seq<State>)
      requires Valid()
      modifies this, Objects()
      ensures Grown()
      ensures View() == Lifecycle.HandleStart(old(View()), c)
      ensures moments == StartTrace(old(View()), c)
    {
      hide WebAuthBackend.View, WebAuthBackend.Valid, WebAuthBackend.Objects, Validated, Lifecycle.Accept, AcceptTrace;
      var invocation := NextInvocation();
      var accepted := SenderIsFrontend(c.sender, c.first, c.second);
      moments := [View()];
      if !accepted {
        Emit(Denied(invocation));
        moments := moments + [View()];
        DeniedStart(old(View()), c);
        return;
      }
      var validated := CheckArguments(c);
      ghost var stages := Admit(invocation, c, validated);
      moments := moments + stages;
    }

    /** The rest of handle_start, for the frontend. */
    method Admit(invocation: nat, c: StartCall, validated: Option<Storage.Mode>) returns (ghost moments: seq<State>)
      requires Valid()
      modifies this, Objects()
      ensures Grown()
      ensures View() == Lifecycle.Admit(old(View()), invocation, true, c, validated)
      ensures [old(View())] + moments == AdmitTrace(old(View()), invocation, true, c, validated)
    {
      hide WebAuthBackend.View, WebAuthBackend.Valid, WebAuthBackend.Objects, Lifecycle.Accept, AcceptTrace;
      if validated.None? {
        Emit(Replied(invocation, Other, None, Some(InvalidRequest)));
        moments := [View()];
      } else {
        moments := Accept(ArgsOf(c, invocation, validated.value), c.exportOk, c.storeOk, c.provider);
      }
    }

    // ---------- Request.Close ----------

    /** on_request_close in src/transaction.c */
    method OnRequestClose(id: Id, c: CloseCall) returns (ghost moments: seq<State>)
      requires Valid() && id < |signIns|
      modifies this, Objects()
      ensures Kept()
      ensures View() == Lifecycle.OnRequestClose(old(View()), id, c)
      ensures moments == OnCloseTrace(old(View()), id, c)
    {
      hide WebAuthBackend.View, WebAuthBackend.Valid, WebAuthBackend.Objects, Lifecycle.Finish, FinishTrace, SenderCheck;
      var accepted := SenderIsFrontend(c.sender, c.first, c.second);
      moments := [View()];
      if accepted {
        var _, stages := Finish(id, Cancelled, None, Some(RequestClosed));
        moments := moments + stages;
      }
    }

    method CancelAndUnexport(id: Id) returns (ghost moments: seq<State>)
      requires Valid() && id < |signIns|
      modifies this, Objects()
      ensures Kept()
      ensures var s1 := Apply(old(View()), id, Lifecycle.CancelRequest); var s2 := Lifecycle.Unexport(s1, id);
        View() == Lifecycle.Emit(s2, CloseAnswered(id, true)) && moments == [s1, s2, View()]
    {
      hide WebAuthBackend.View, WebAuthBackend.Valid, WebAuthBackend.Objects;
      InHeap(id);
      CancelRequest(id);
      moments := [View()];
      Unexport(id);
      moments := moments + [View()];
      Emit(CloseAnswered(id, true));
      moments := moments + [View()];
    }

    /** webauth_impl_request_handle_close in src/request-impl.c */
    method DefaultClose(id: Id, c: CloseCall) returns (ghost moments: seq<State>)
      requires Valid() && id < |signIns|
      modifies this, Objects()
      ensures Kept()
      ensures View() == Lifecycle.DefaultClose(old(View()), id, c)
      ensures moments == DefaultCloseTrace(old(View()), id, c)
    {
      hide WebAuthBackend.View, WebAuthBackend.Valid, WebAuthBackend.Objects, SenderCheck;
      HoldRequest(id);
      moments := [View()];
      var accepted := SenderIsFrontend(c.sender, c.third, c.fourth);
      moments := moments + [View()];
      if !accepted {
        Emit(CloseAnswered(id, false));
        moments := moments + [View()];
      } else {
        ghost var stages := CancelAndUnexport(id);
        moments := moments + stages;
      }
      ReleaseRequest(id);
      moments := moments + [View()];
    }

    /** The emission of handle-close: the connected handler, then the class default. */
    method HandleClose(c: CloseCall) returns (ghost moments: seq<State>)
      requires Valid() && RegistryInRange(View())
      modifies this, Objects()
      ensures Kept()
      ensures View() == Lifecycle.HandleClose(old(View()), c)
      ensures moments == CloseTrace(old(View()), c)
    {
      hide WebAuthBackend.Objects, Lifecycle.OnRequestClose, Lifecycle.DefaultClose, Lifecycle.HoldRequest, Lifecycle.ReleaseRequest, OnCloseTrace, DefaultCloseTrace;
      if c.path !in exports {
        return [View()];
      }
      var id := exports[c.path];
      HoldRequest(id);
      moments := [View()];
      if signIns[id].request.inUse && signIns[id].request.closeHandler {
        ghost var stages := OnRequestClose(id, c);
        moments := moments + stages;
      }
      ghost var answered := DefaultClose(id, c);
      ReleaseRequest(id);
      moments := moments + answered + [View()];
    }

    // ---------- The engine's callbacks ----------

    predicate IsUp(id: Id)
      reads this`signIns, if id < |signIns| then {signIns[id], signIns[id].session} else {}
    {
      id < |signIns| && signIns[id].session.inUse && !signIns[id].session.tornDown
    }

    /** Whether the session is there and the transaction it points at is. */
    method PointsAtTransaction(id: Id) returns (reachable: bool)
      requires Valid() && id < |signIns|
      ensures View() == old(View()) && reachable == HasTransaction(View().flows[id])
    {
      var f := signIns[id];
      reachable := f.session.inUse && f.session.transaction && f.txn.inUse;
    }

    method FinishFor(id: Id, response: Response, uri: Option<string>, reason: Option<Reason>) returns (ghost moments: seq<State>)
      requires Valid() && id < |signIns|
      modifies this, Objects()
      ensures Kept()
      ensures View() == Lifecycle.FinishFor(old(View()), id, response, uri, reason)
      ensures moments == CallbackTrace(old(View()), id, response, uri, reason)
    {
      hide Lifecycle.Finish, FinishTrace, WebAuthBackend.View, WebAuthBackend.Objects, WebAuthBackend.Valid;
      var reachable := PointsAtTransaction(id);
      moments := [];
      if !reachable {
        InHeap(id);
        Misuse(id);
      } else {
        var _, stages := Finish(id, response, uri, reason);
        moments := stages;
      }
    }

    /** The test of complete_on */
    method MatchesRequest(id: Id, uri: Option<string>) returns (matched: bool)
      requires Valid() && id < |signIns|
      ensures View() == old(View()) && matched == CompletesOn(View().flows[id], uri)
    {
      var reachable := PointsAtTransaction(id);
      if !reachable {
        return false;
      }
      matched := Completion.CheckMatch(uri, Some(signIns[id].txn.completionUri));
    }

    method CompleteAndBlock(id: Id, uri: Option<string>) returns (ghost moments: seq<State>)
      requires Valid() && id < |signIns|
      modifies this, Objects()
      ensures Kept()
      ensures View() == Lifecycle.Emit(Lifecycle.FinishFor(old(View()), id, Completed, uri, None), Blocked(id, uri))
      ensures moments == CallbackTrace(old(View()), id, Completed, uri, None)
    {
      hide WebAuthBackend.View, WebAuthBackend.Valid, WebAuthBackend.Objects, Lifecycle.FinishFor, CallbackTrace;
      moments := FinishFor(id, Completed, uri, None);
      Emit(Blocked(id, uri));
    }

    method SetPendingHost(id: Id, host: Option<string>)
      requires Valid() && IsUp(id)
      modifies signIns[id].Objects()
      ensures Kept()
      ensures View() == SetSession(old(View()), id, old(View()).flows[id].session.value.(pendingHost := host))
    {
      signIns[id].session.pendingHost := host;
      assert Flows() == old(Flows())[id := signIns[id].View()];
    }

    method SetCurrentHost(id: Id, host: Option<string>)
      requires Valid() && IsUp(id)
      modifies signIns[id].Objects()
      ensures Kept()
      ensures View() == SetSession(old(View()), id, old(View()).flows[id].session.value.(currentHost := host))
    {
      signIns[id].session.currentHost := host;
      assert Flows() == old(Flows())[id := signIns[id].View()];
    }

    method SetPendingReason(id: Id, reason: Option<Reason>)
      requires Valid() && IsUp(id)
      modifies signIns[id].Objects()
      ensures Kept()
      ensures View() == SetSession(old(View()), id, old(View()).flows[id].session.value.(pendingReason := reason))
    {
      signIns[id].session.pendingReason := reason;
      assert Flows() == old(Flows())[id := signIns[id].View()];
    }

    /** What follows the test, for a navigation */
    method DecideNavigation(id: Id, uri: Option<string>, matched: bool) returns (ghost moments: seq<State>)
      requires Valid() && IsUp(id)
      modifies this, Objects()
      ensures Kept()
      ensures View() == NavigationDecided(old(View()), id, uri, matched)
      ensures moments == DecisionTrace(Lifecycle.Emit(old(View()), Asked(id, uri, true)), id, uri, matched)
    {
      hide Lifecycle.FinishFor, CallbackTrace, WebAuthBackend.Objects;
      Emit(Asked(id, uri, true));
      moments := [View()];
      if matched {
        ghost var stages := CompleteAndBlock(id, uri);
        moments := moments + stages;
      } else {
        InHeap(id);
        SetPendingHost(id, Completion.HostOf(uri));
        Emit(LetThrough(id, uri));
      }
    }

    /** on_decide_policy for a navigation action */
    method OnNavigation(id: Id, uri: Option<string>) returns (ghost moments: seq<State>)
      requires Valid() && IsUp(id)
      modifies this, Objects()
      ensures Kept()
      ensures View() == Lifecycle.OnNavigation(old(View()), id, uri)
      ensures moments == EngineInside(old(View()), Navigation(id, uri))
    {
      hide CallbackTrace, WebAuthBackend.Objects;
      var matched := MatchesRequest(id, uri);
      NavigationByTest(View(), id, uri);
      moments := DecideNavigation(id, uri, matched);
    }

    /** What follows the test, for a response */
    method DecideResponse(id: Id, uri: Option<string>, supported: bool, matched: bool) returns (ghost moments: seq<State>)
      requires Valid() && IsUp(id)
      modifies this, Objects()
      ensures Kept()
      ensures View() == ResponseDecided(old(View()), id, uri, supported, matched)
      ensures moments == DecisionTrace(Lifecycle.Emit(old(View()), Asked(id, uri, false)), id, uri, matched)
    {
      hide Lifecycle.FinishFor, CallbackTrace, WebAuthBackend.Objects;
      Emit(Asked(id, uri, false));
      moments := [View()];
      if matched {
        ghost var stages := CompleteAndBlock(id, uri);
        moments := moments + stages;
      } else if !supported {
        Emit(Blocked(id, uri));
      } else {
        Emit(LetThrough(id, uri));
      }
    }

    /** on_decide_policy for a response */
    method OnResponse(id: Id, uri: Option<string>, supported: bool) returns (ghost moments: seq<State>)
      requires Valid() && IsUp(id)
      modifies this, Objects()
      ensures Kept()
      ensures View() == Lifecycle.OnResponse(old(View()), id, uri, supported)
      ensures moments == EngineInside(old(View()), ResponseDecision(id, uri, supported))
    {
      hide CallbackTrace, WebAuthBackend.Objects;
      var matched := MatchesRequest(id, uri);
      ResponseByTest(View(), id, uri, supported);
      moments := DecideResponse(id, uri, supported, matched);
    }

    /** on_load_changed */
    method OnLoadChanged(id: Id, phase: LoadPhase, uri: Option<string>)
      requires Valid() && IsUp(id)
      modifies this, Objects()
      ensures Kept()
      ensures View() == Lifecycle.OnLoadChanged(old(View()), id, phase, uri)
    {
      if phase != LoadFinished {
        InHeap(id);
        SetCurrentHost(id, Completion.HostOf(uri));
        Emit(LoadedTo(id, uri));
      }
    }

    /** on_load_failed */
    method OnLoadFailed(id: Id, cancelled: bool) returns (ghost moments: seq<State>)
      requires Valid() && IsUp(id)
      modifies this, Objects()
      ensures Kept()
      ensures View() == Lifecycle.OnLoadFailed(old(View()), id, cancelled)
      ensures moments == EngineInside(old(View()), LoadFails(id, cancelled))
    {
      hide Lifecycle.FinishFor, CallbackTrace, WebAuthBackend.Objects;
      var f := signIns[id];
      var pending := f.session.pendingReason;
      moments := [];
      if !f.session.transaction || !f.txn.inUse {
        InHeap(id);
        Misuse(id);
        return;
      }
      if f.txn.done {
        return;
      }
      if cancelled && pending.None? {
        return;
      }
      moments := FinishFor(id, Other, None, Some(if pending.Some? then pending.value else LoadFailed));
    }

    method Decline(id: Id, reason: Reason)
      requires Valid() && IsUp(id)
      modifies this, Objects()
      ensures Kept()
      ensures View() == Lifecycle.Decline(old(View()), id, reason)
    {
      InHeap(id);
      SetPendingReason(id, Some(reason));
      Emit(Declined(id, reason));
    }

    /** The PIN branch of on_authenticate */
    method OnPinRequested(id: Id, file: Option<string>)
      requires Valid() && IsUp(id)
      modifies this, Objects()
      ensures Kept()
      ensures View() == Lifecycle.OnAuthenticate(old(View()), id, PinRequested(file))
    {
      hide Lifecycle.Decline;
      var answer := AskPin(signIns[id].session.provider, file);
      if answer.None? {
        Decline(id, CredentialUnavailable);
      } else {
        Emit(PinAnswered(id));
      }
    }

    /** adapter->pin(); without a provider, or with the portal's, there is no PIN in this process. */
    method AskPin(provider: Option<Provider>, file: Option<string>) returns (answer: Option<string>)
      requires Valid()
      modifies pin
      ensures Kept()
      ensures answer == PinAfter(old(View()), provider, file)
      ensures View() == if answer.Some? then old(View()).(pin := answer) else old(View())
    {
      if provider != Some(Pkcs11) {
        return None;
      }
      answer := pin.Pin(file);
    }

    /** Whether any of the two known hosts is the challenge's. */
    method ChallengeIsRelated(id: Id, host: Option<string>) returns (related: bool)
      requires Valid() && IsUp(id)
      ensures View() == old(View()) && related == Lifecycle.ChallengeIsRelated(View().flows[id].session.value, host)
    {
      var w := signIns[id].session;
      if host.None? {
        return false;
      }
      if w.pendingHost.Some? && Completion.SameHost(host.value, w.pendingHost.value) {
        return true;
      }
      related := w.currentHost.Some? && Completion.SameHost(host.value, w.currentHost.value);
    }

    /** The certificate branch of on_authenticate */
    method OnCertificateRequested(id: Id, host: Option<string>, acquired: bool)
      requires Valid() && IsUp(id)
      modifies this, Objects()
      ensures Kept()
      ensures View() == Lifecycle.OnAuthenticate(old(View()), id, CertificateRequested(host, acquired))
    {
      var related := ChallengeIsRelated(id, host);
      if !related {
        Decline(id, UnrelatedCertificateChallenge);
      } else if signIns[id].session.provider.None? {
        Decline(id, CredentialUnavailable);
      } else {
        Emit(ProviderAsked(id, host.value));
        if !acquired {
          Decline(id, CredentialUnavailable);
        }
      }
    }

    /** on_authenticate */
    method OnAuthenticate(id: Id, challenge: Challenge)
      requires Valid() && IsUp(id)
      modifies this, Objects()
      ensures Kept()
      ensures View() == Lifecycle.OnAuthenticate(old(View()), id, challenge)
    {
      match challenge
      case OtherScheme =>
      case PinRequested(file) => OnPinRequested(id, file);
      case CertificateRequested(host, acquired) => OnCertificateRequested(id, host, acquired);
    }

    // ---------- Time ----------

    predicate IsDue(id: Id)
      reads this, if id < |signIns| then {signIns[id]} else {}
    {
      id < |signIns| && signIns[id].timer.Some? && signIns[id].timer.value <= now
    }

    /** The source fires: its handle is cleared, and it removes itself. */
    method Fire(id: Id)
      requires Valid() && IsDue(id) && signIns[id].txn.inUse
      modifies signIns[id].Objects()
      ensures Kept()
      ensures var f := old(View()).flows[id];
        View() == Put(old(View()), id, f.(timer := None, txn := Some(f.txn.value.(deadlineId := false))))
    {
      signIns[id].txn.deadlineId := false;
      signIns[id].timer := None;
      assert Flows() == old(Flows())[id := signIns[id].View()];
    }

    /** on_deadline */
    method OnDeadline(id: Id) returns (ghost moments: seq<State>)
      requires Valid() && IsDue(id)
      modifies this, Objects()
      ensures Kept()
      ensures View() == Lifecycle.OnDeadline(old(View()), id)
      ensures moments == FiringTrace(old(View()), id)
    {
      hide Lifecycle.Finish, FinishTrace, WebAuthBackend.Objects;
      InHeap(id);
      moments := [];
      if !signIns[id].txn.inUse {
        Misuse(id);
      } else {
        Fire(id);
        moments := [View()];
        var _, stages := Finish(id, Other, None, Some(Timeout));
        moments := moments + stages;
      }
    }

    method ClockTicks()
      requires Valid()
      modifies this`now
      ensures Kept()
      ensures View() == Tick(old(View()))
    {
      var i := 0;
      while i < |signIns| && !IsDue(i)
        invariant 0 <= i <= |signIns|
        invariant forall k :: 0 <= k < i ==> !IsDue(k)
      {
        i := i + 1;
      }
      assert forall k :: 0 <= k < |signIns| ==> (IsDue(k) <==> TimerDue(View(), k));
      if i == |signIns| {
        now := now + 1;
      }
    }

    // ---------- The main loop ----------

    method DispatchEngine(e: Event) returns (ghost moments: seq<State>)
      requires IsEngineEvent(e)
      requires Valid() && IsUp(e.id)
      modifies this, Objects()
      ensures Kept()
      ensures View() == Lifecycle.DispatchEngine(old(View()), e)
      ensures moments == EngineInside(old(View()), e)
    {
      hide Lifecycle.FinishFor, CallbackTrace, Lifecycle.OnNavigation, Lifecycle.OnResponse, Lifecycle.OnLoadFailed, Lifecycle.OnLoadChanged, Lifecycle.OnAuthenticate, WebAuthBackend.Objects, WebAuthBackend.Valid, WebAuthBackend.View, IgnoresFailure;
      moments := [];
      match e
      case UserCancels(id) => moments := FinishFor(id, Cancelled, None, Some(UserCancelled));
      case Navigation(id, uri) => moments := OnNavigation(id, uri);
      case ResponseDecision(id, uri, supported) => moments := OnResponse(id, uri, supported);
      case NewWindow(id, uri) => Emit(Blocked(id, uri));
      case LoadChanged(id, phase, uri) => OnLoadChanged(id, phase, uri);
      case LoadFails(id, cancelled) => moments := OnLoadFailed(id, cancelled);
      case TlsFails(id) => moments := FinishFor(id, Other, None, Some(TlsError));
      case ProcessGone(id) => moments := FinishFor(id, Other, None, Some(SessionTerminated));
      case Authenticate(id, challenge) => OnAuthenticate(id, challenge);
    }

    method OnFrontendVanished() returns (ghost moments: seq<State>)
      requires Valid() && ListInRange(View())
      modifies this, Objects()
      ensures Kept()
      ensures var s1 := old(View()).(owner := None);
        && View() == Lifecycle.CancelAll(s1, SessionTerminated)
        && moments == [s1] + CancelAllTrace(s1, SessionTerminated)
    {
      hide Lifecycle.CancelAll, CancelAllTrace, WebAuthBackend.View, WebAuthBackend.Valid, WebAuthBackend.Objects;
      SetFrontendOwner(None);
      moments := [View()];
      ghost var stages := CancelAll(SessionTerminated);
      moments := moments + stages;
    }

    /** A session's event reaches it only while its handlers are connected. */
    method DispatchSession(e: Event) returns (ghost moments: seq<State>)
      requires IsEngineEvent(e)
      requires Valid()
      modifies this, Objects()
      ensures Kept()
      ensures View() == if Receives(old(View()), e.id) then Lifecycle.DispatchEngine(old(View()), e) else old(View())
      ensures moments == if Receives(old(View()), e.id) then EngineInside(old(View()), e) + [View()] else []
    {
      hide Lifecycle.DispatchEngine, EngineInside;
      moments := [];
      if IsUp(e.id) {
        moments := DispatchEngine(e);
        moments := moments + [View()];
      }
    }

    method FireIfDue(id: Id) returns (ghost moments: seq<State>)
      requires Valid()
      modifies this, Objects()
      ensures Kept()
      ensures View() == if TimerDue(old(View()), id) then Lifecycle.OnDeadline(old(View()), id) else old(View())
      ensures moments == if TimerDue(old(View()), id) then FiringTrace(old(View()), id) else []
    {
      hide Lifecycle.OnDeadline, FiringTrace;
      moments := [];
      if IsDue(id) {
        moments := OnDeadline(id);
      }
    }

    /** One iteration of the main loop moves the object as Lifecycle.Dispatch moves the state, through the states of LifecycleRuns.Inside. */
    method Dispatch(e: Event) returns (ghost moments: seq<State>)
      requires Valid() && InRange(View())
      modifies this, Objects()
      ensures Grown()
      ensures View() == Lifecycle.Dispatch(old(View()), e)
      ensures moments == Inside(old(View()), e)
    {
      hide Lifecycle.HandleStart, Lifecycle.HandleClose, Lifecycle.CancelAll, Lifecycle.OnDeadline, Tick, Lifecycle.DispatchEngine, StartTrace, CloseTrace, CancelAllTrace, FiringTrace, EngineInside;
      moments := [];
      match e
      case StartReceived(c) => moments := HandleStart(c);
      case CloseReceived(c) => moments := HandleClose(c);
      case FrontendAppeared(owner) => SetFrontendOwner(Some(owner));
      case FrontendVanished => moments := OnFrontendVanished();
      case Shutdown => moments := CancelAll(SessionTerminated);
      case ClockTicks => ClockTicks();
      case DeadlineFires(id) => moments := FireIfDue(id);
      case _ => moments := DispatchSession(e);
    }
  }

  /** The checks of handle_start that need no state. */
  method Validate(c: StartCall) returns (mode: Option<Storage.Mode>)
    ensures mode == Validated(c)
  {
    var start := Completion.CheckStartUri(Some(c.startUri));
    if start.Failure? {
      return None;
    }
    var completion := Completion.CheckCompletionUri(Some(c.completionUri));
    if completion.Failure? {
      return None;
    }
    mode := Storage.ModeParse(c.sessionMode);
    if mode.Some? {
      mode := Some(Storage.EffectiveMode(mode.value, Some(c.appId)));
    }
  }
}
