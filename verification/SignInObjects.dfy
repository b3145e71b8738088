/**
  The heap objects of one sign-in, as the C code allocates and updates them.  A
  freed object keeps its place but is no longer allocated; touching it sets `fault`.
 */
module SignInObjects {
  import opened Wrappers
  import Completion
  import L = Lifecycle

  /** struct WebAuthImplRequest */
  class ImplRequest {
    var inUse: bool
    var refCount: int
    var exported: bool
    var closeHandler: bool
    var cancelled: bool

    /** The caller's reference is the first. */
    constructor Created()
      ensures View() == Some(L.Request(1, false, false, false))
    {
      inUse, refCount, exported, closeHandler, cancelled := true, 1, false, false, false;
    }

    ghost function View(): Option<L.Request>
      reads this
    {
      if inUse then Some(L.Request(refCount, exported, closeHandler, cancelled)) else None
    }
  }

  /** struct WebAuthTransaction; its Request is the one of the same sign-in. */
  class Transaction {
    var inUse: bool
    var refCount: int
    var invocation: Option<nat>
    var startUri: string
    var completionUri: string
    var timeout: nat
    var deadlineId: bool
    var teardown: bool
    var finished: bool
    var closeId: bool
    var done: bool

    constructor ()
      ensures View() == None
    {
      inUse, refCount, invocation, startUri, completionUri, timeout := false, 0, None, "", "", 0;
      deadlineId, teardown, finished, closeId, done := false, false, false, false, false;
    }

    ghost function View(): Option<L.Transaction>
      reads this
    {
      if inUse then
        Some(L.Transaction(refCount, invocation, startUri, completionUri, timeout, deadlineId, teardown, finished, closeId, done))
      else None
    }
  }

  /** struct WebAuthWebkitSession */
  class WebkitSession {
    var inUse: bool
    var transaction: bool
    var provider: Option<L.Provider>
    var pendingHost: Option<string>
    var currentHost: Option<string>
    var pendingReason: Option<L.Reason>
    var tornDown: bool

    constructor ()
      ensures View() == None
    {
      inUse, transaction, provider, pendingHost, currentHost := false, false, None, None, None;
      pendingReason, tornDown := None, false;
    }

    ghost function View(): Option<L.Session>
      reads this
    {
      if inUse then Some(L.Session(transaction, provider, pendingHost, currentHost, pendingReason, tornDown))
      else None
    }
  }

  /** The allocations of one Start, the main-loop source of its deadline, and the references stack frames hold. */
  class SignIn {
    const start: L.StartArgs
    const txn: Transaction
    const request: ImplRequest
    const session: WebkitSession
    var slot: bool
    var timer: Option<nat>
    var frames: nat
    var requestFrames: nat
    ghost var fault: bool

    ghost function Objects(): set<object> { {this, txn, request, session} }

    ghost function View(): L.Flow
      reads Objects()
    {
      L.Flow(start, txn.View(), request.View(), session.View(), slot, timer, frames, requestFrames, fault)
    }

    /** webauth_impl_request_new, for the frame of handle_start */
    constructor (args: L.StartArgs)
      ensures fresh(Objects())
      ensures View() == L.Flow(args, None, Some(L.Request(1, false, false, false)), None, false, None, 0, 1, false)
    {
      start, slot, timer := args, false, None;
      frames, requestFrames, fault := 0, 1, false;
      txn := new Transaction();
      session := new WebkitSession();
      request := new ImplRequest.Created();
    }

    // ---------- src/transaction.c ----------

    /** webauth_transaction_ref */
    method Ref()
      modifies txn, this`fault
      ensures View() == L.Ref(old(View()))
    {
      if !txn.inUse {
        fault := true;
        return;
      }
      txn.refCount := txn.refCount + 1;
    }

    method Hold()
      modifies txn, this`fault, this`frames
      ensures View() == L.Hold(old(View()))
    {
      Ref();
      frames := frames + 1;
    }

    method Disarm()
      modifies txn, this`fault, this`timer
      ensures View() == L.Disarm(old(View()))
    {
      if !txn.inUse {
        fault := true;
      } else if txn.deadlineId {
        if timer.None? {
          fault := true;
        } else {
          txn.deadlineId := false;
          timer := None;
        }
      }
    }

    method Disconnect()
      modifies txn, request, this`fault
      ensures View() == L.Disconnect(old(View()))
    {
      if !txn.inUse {
        fault := true;
      } else if txn.closeId {
        if !request.inUse || !request.closeHandler {
          fault := true;
        } else {
          request.closeHandler := false;
          txn.closeId := false;
        }
      }
    }

    /** webauth_transaction_unref */
    method Unref()
      modifies txn, request, this`fault, this`timer
      ensures View() == L.Unref(old(View()))
    {
      if !txn.inUse {
        fault := true;
        return;
      }
      if txn.refCount > 1 {
        txn.refCount := txn.refCount - 1;
        return;
      }
      Disarm();
      Disconnect();
      txn.inUse := false;
      UnrefRequest();
    }

    method Release()
      modifies txn, request, this`fault, this`timer, this`frames
      ensures View() == L.Release(old(View()))
    {
      if frames == 0 {
        fault := true;
        return;
      }
      frames := frames - 1;
      Unref();
    }

    // ---------- src/request-impl.c ----------

    method UnrefRequest()
      modifies request, this`fault
      ensures View() == L.UnrefRequest(old(View()))
    {
      if !request.inUse {
        fault := true;
      } else if request.refCount > 1 {
        request.refCount := request.refCount - 1;
      } else if request.exported || request.closeHandler {
        fault := true;
      } else {
        request.inUse := false;
      }
    }

    method RefRequest()
      modifies request, this`fault
      ensures View() == L.RefRequest(old(View()))
    {
      if !request.inUse {
        fault := true;
        return;
      }
      request.refCount := request.refCount + 1;
    }

    method HoldRequest()
      modifies request, this`fault, this`requestFrames
      ensures View() == L.HoldRequest(old(View()))
    {
      RefRequest();
      requestFrames := requestFrames + 1;
    }

    method ReleaseRequest()
      modifies request, this`fault, this`requestFrames
      ensures View() == L.ReleaseRequest(old(View()))
    {
      if requestFrames == 0 {
        fault := true;
        return;
      }
      requestFrames := requestFrames - 1;
      UnrefRequest();
    }

    /** g_cancellable_cancel on the Request's cancellable */
    method CancelRequest()
      modifies request, this`fault
      ensures View() == L.CancelRequest(old(View()))
    {
      if !request.inUse {
        fault := true;
        return;
      }
      request.cancelled := true;
    }

    // ---------- Construction, in the order of handle_start ----------

    /** The fields of a new transaction, before its handler is connected */
    method AllocateTransaction()
      modifies txn
      ensures View() == old(View()).(txn := Some(L.Transaction(1, Some(start.invocation), start.startUri, start.completionUri,
                                                               start.timeout, false, false, false, false, false)))
    {
      txn.inUse, txn.refCount, txn.invocation := true, 1, Some(start.invocation);
      txn.startUri, txn.completionUri, txn.timeout := start.startUri, start.completionUri, start.timeout;
      txn.deadlineId, txn.teardown, txn.finished, txn.closeId, txn.done := false, false, false, false, false;
    }

    /** webauth_transaction_new */
    method NewTransaction()
      modifies txn, request, this`fault, this`frames
      ensures View() == L.NewTransaction(old(View()))
    {
      if !request.inUse {
        fault := true;
        return;
      }
      AllocateTransaction();
      request.refCount := request.refCount + 1;
      request.closeHandler := true;
      txn.closeId := true;
      frames := frames + 1;
    }

    /** The slot and webauth_transaction_set_finished */
    method NewSlot()
      modifies txn, this`fault, this`slot
      ensures View() == L.NewSlot(old(View()))
    {
      if !txn.inUse {
        fault := true;
        return;
      }
      slot := true;
      txn.finished := true;
    }

    /** webauth_transaction_start_deadline */
    method StartDeadline(now: nat)
      modifies txn, this`fault, this`timer
      ensures View() == L.StartDeadline(old(View()), now)
    {
      if !txn.inUse {
        fault := true;
        return;
      }
      if txn.done || txn.deadlineId || txn.timeout == 0 {
        return;
      }
      timer := Some(now + txn.timeout);
      txn.deadlineId := true;
    }

    // ---------- src/webkit-session.c ----------

    /** The start of webauth_webkit_session_new */
    method NewSession()
      modifies txn, session, this`fault
      ensures View() == L.NewSession(old(View()))
    {
      Ref();
      session.inUse, session.transaction := true, true;
      session.provider, session.pendingHost, session.currentHost := None, None, None;
      session.pendingReason, session.tornDown := None, false;
    }

    /** Its error path */
    method AbandonSession()
      modifies txn, request, session, this`fault, this`timer
      ensures View() == L.AbandonSession(old(View()))
    {
      Unref();
      session.inUse := false;
    }

    /** Its end: the provider is selected, the handlers are connected, the teardown hook is set. */
    method EquipSession(provider: Option<L.Provider>)
      modifies txn, session, this`fault
      ensures View() == L.EquipSession(old(View()), provider)
    {
      if !session.inUse || !txn.inUse {
        fault := true;
        return;
      }
      session.provider := provider;
      txn.teardown := true;
    }

    /** The part of teardown that gives up the session's strings and its transaction reference. */
    method DropReference()
      requires session.inUse
      modifies txn, request, session, this`fault, this`timer
      ensures var f := old(View()); var w := f.session.value;
        var g := f.(session := Some(w.(transaction := false, pendingHost := None, currentHost := None)));
        View() == if w.transaction then L.Unref(g) else g
    {
      var held := session.transaction;
      session.pendingHost, session.currentHost, session.transaction := None, None, false;
      if held {
        Unref();
      }
    }

    /** g_steal_pointer(&self->invocation) */
    method StealInvocation() returns (invocation: nat)
      requires txn.inUse && txn.invocation.Some?
      modifies txn
      ensures var f := old(View());
        View() == f.(txn := Some(f.txn.value.(invocation := None))) && invocation == f.txn.value.invocation.value
    {
      invocation := txn.invocation.value;
      txn.invocation := None;
    }

    /** The Request leaves the bus; `known` says that the bus held this object at its path. */
    method LeaveBus(known: bool)
      requires request.inUse
      modifies request, this`fault
      ensures var f := old(View()); var g := f.(request := Some(f.request.value.(exported := false)));
        View() == if known then L.UnrefRequest(g) else L.Bad(g)
    {
      request.exported := false;
      if known {
        UnrefRequest();
      } else {
        fault := true;
      }
    }

    method FreeSlot()
      modifies this`slot, this`fault
      ensures var f := old(View()); View() == if f.slot then f.(slot := false) else L.Bad(f)
    {
      if slot {
        slot := false;
      } else {
        fault := true;
      }
    }

    method EnterBus()
      requires request.inUse
      modifies request
      ensures var f := old(View());
        View() == f.(request := Some(f.request.value.(refCount := f.request.value.refCount + 1, exported := true)))
    {
      request.refCount := request.refCount + 1;
      request.exported := true;
    }

    /** webauth_webkit_session_present */
    method Present(now: nat)
      requires session.inUse && txn.inUse
      modifies txn, session, this`fault, this`timer
      ensures var f := old(View()); var host := Completion.HostOf(Some(f.txn.value.startUri));
        View() == L.StartDeadline(f.(session := Some(f.session.value.(pendingHost := host))), now)
    {
      session.pendingHost := Completion.HostOf(Some(txn.startUri));
      StartDeadline(now);
    }
  }
}
