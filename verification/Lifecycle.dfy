/**
  The life of one sign-in, over the four files that share it: src/transaction.c,
  src/webkit-session.c, src/webauthentication-impl.c and src/request-impl.c.

  This module describes states and what each main-loop event does to them.  A
  Flow holds the heap objects that one accepted Start allocates, each present
  until it is freed.  A misuse of memory - following a freed pointer, freeing
  twice, removing a timer that is not armed, disconnecting a handler that is not
  connected, answering a call twice - sets the flow's `fault` flag.
 */
module Lifecycle {
  import opened Wrappers
  import Completion
  import PinCache
  import Storage

  type Id = nat

  datatype Response = Completed | Cancelled | Other

  datatype Reason =
    | Timeout | UserCancelled | RequestClosed | SessionTerminated | CredentialUnavailable
    | UnrelatedCertificateChallenge | TlsError | LoadFailed | InvalidRequest | NoStorage

  datatype Provider = Portal | Pkcs11

  /** What an accepted Start asked for; the transaction keeps its own copies. */
  datatype StartArgs = StartArgs(
    invocation: nat,
    path: string,
    appId: string,
    startUri: string,
    completionUri: string,
    mode: Storage.Mode,
    timeout: nat)

  /** struct WebAuthTransaction.  `teardown` and `finished` say that the hook is set. */
  datatype Transaction = Transaction(
    refCount: int,
    invocation: Option<nat>,
    startUri: string,
    completionUri: string,
    timeout: nat,
    deadlineId: bool,
    teardown: bool,
    finished: bool,
    closeId: bool,
    done: bool)

  /** struct WebAuthImplRequest, and whether the transaction's handler is connected to it. */
  datatype Request = Request(refCount: int, exported: bool, closeHandler: bool, cancelled: bool)

  /** struct WebAuthWebkitSession.  `transaction` says that the pointer is not NULL. */
  datatype Session = Session(
    transaction: bool,
    provider: Option<Provider>,
    pendingHost: Option<string>,
    currentHost: Option<string>,
    pendingReason: Option<Reason>,
    tornDown: bool)

  /**
    `slot` is the allocation handed to the finished hook, `timer` the armed main-loop
    source and when it is due, `frames` and `requestFrames` the references that
    active stack frames hold on the transaction and on the Request.
   */
  datatype Flow = Flow(
    start: StartArgs,
    txn: Option<Transaction>,
    request: Option<Request>,
    session: Option<Session>,
    slot: bool,
    timer: Option<nat>,
    frames: nat,
    requestFrames: nat,
    fault: bool)

  /** What can be observed from outside, in order. */
  datatype Entry =
    | Replied(invocation: nat, response: Response, uri: Option<string>, reason: Option<Reason>)
    | Denied(invocation: nat)
    | Committed(id: Id)
    | LateFinish(id: Id)
    | CloseAnswered(id: Id, success: bool)
    | StoreOpened(id: Id, name: string)
    | Opened(id: Id, at: nat)
    | Asked(id: Id, uri: Option<string>, navigation: bool)
    | LoadedTo(id: Id, uri: Option<string>)
    | LetThrough(id: Id, uri: Option<string>)
    | Blocked(id: Id, uri: Option<string>)
    | PinAnswered(id: Id)
    | ProviderAsked(id: Id, host: string)
    | Declined(id: Id, cause: Reason)

  datatype State = State(
    flows: seq<Flow>,
    list: seq<Id>,
    registry: map<string, Id>,
    owner: Option<string>,
    resolved: bool,
    pin: Option<string>,
    now: nat,
    invocations: nat,
    log: seq<Entry>)

  function InitialState(): State {
    State([], [], map[], None, false, None, 0, 0, [])
  }

  // ---------- One flow: reference counts, timer, handler ----------

  function Bad(f: Flow): Flow { f.(fault := true) }

  /** webauth_transaction_ref */
  function Ref(f: Flow): Flow {
    match f.txn
    case None => Bad(f)
    case Some(t) => f.(txn := Some(t.(refCount := t.refCount + 1)))
  }

  /** A reference taken by a stack frame. */
  function Hold(f: Flow): Flow { Ref(f).(frames := f.frames + 1) }

  /** g_object_unref on the Request. */
  function UnrefRequest(f: Flow): Flow {
    match f.request
    case None => Bad(f)
    case Some(r) =>
      if r.refCount > 1 then f.(request := Some(r.(refCount := r.refCount - 1)))
      else if r.exported || r.closeHandler then Bad(f)
      else f.(request := None)
  }

  function RefRequest(f: Flow): Flow {
    match f.request
    case None => Bad(f)
    case Some(r) => f.(request := Some(r.(refCount := r.refCount + 1)))
  }

  function HoldRequest(f: Flow): Flow { RefRequest(f).(requestFrames := f.requestFrames + 1) }

  function ReleaseRequest(f: Flow): Flow {
    if f.requestFrames == 0 then Bad(f)
    else UnrefRequest(f.(requestFrames := f.requestFrames - 1))
  }

  /** g_clear_handle_id(&deadline_id, g_source_remove) */
  function Disarm(f: Flow): Flow {
    match f.txn
    case None => Bad(f)
    case Some(t) =>
      if !t.deadlineId then f
      else if f.timer.None? then Bad(f)
      else f.(timer := None, txn := Some(t.(deadlineId := false)))
  }

  /** g_clear_signal_handler(&close_id, request) */
  function Disconnect(f: Flow): Flow {
    match f.txn
    case None => Bad(f)
    case Some(t) =>
      if !t.closeId then f
      else if f.request.None? || !f.request.value.closeHandler then Bad(f)
      else
        f.(txn := Some(t.(closeId := false)), request := Some(f.request.value.(closeHandler := false)))
  }

  /** webauth_transaction_unref; the last reference frees the transaction and drops its Request. */
  function Unref(f: Flow): Flow {
    match f.txn
    case None => Bad(f)
    case Some(t) =>
      if t.refCount > 1 then f.(txn := Some(t.(refCount := t.refCount - 1)))
      else
        var g := Disconnect(Disarm(f));
        UnrefRequest(g.(txn := None))
  }

  function Release(f: Flow): Flow {
    if f.frames == 0 then Bad(f) else Unref(f.(frames := f.frames - 1))
  }

  // ---------- State updates ----------

  function Put(s: State, id: Id, f: Flow): (r: State)
    requires id < |s.flows|
    ensures |r.flows| == |s.flows|
  {
    s.(flows := s.flows[id := f])
  }

  function Emit(s: State, e: Entry): State { s.(log := s.log + [e]) }

  /** g_ptr_array_remove_fast: the last element takes the place of the removed one. */
  function RemoveFast(list: seq<Id>, id: Id): seq<Id> {
    if list == [] then []
    else if list[0] == id then
      if |list| == 1 then [] else [list[|list| - 1]] + list[1..|list| - 1]
    else [list[0]] + RemoveFast(list[1..], id)
  }

  // ---------- webauth_transaction_finish, stage by stage ----------

  function Commit(s: State, id: Id): (r: State)
    requires id < |s.flows|
    ensures |r.flows| == |s.flows|
  {
    var f := s.flows[id];
    if f.txn.None? then Put(s, id, Bad(f))
    else Emit(Put(s, id, f.(txn := Some(f.txn.value.(done := true)))), Committed(id))
  }

  /** teardown: torn_down is set first, so that a second call does nothing. */
  function MarkTorn(s: State, id: Id): (r: State)
    requires id < |s.flows|
    ensures |r.flows| == |s.flows|
  {
    var f := s.flows[id];
    if f.session.None? then Put(s, id, Bad(f))
    else Put(s, id, f.(session := Some(f.session.value.(tornDown := true))))
  }

  /** adapter->release(): only the pkcs11 provider holds a PIN. */
  function ReleaseAdapter(s: State, id: Id): (r: State)
    requires id < |s.flows|
    ensures |r.flows| == |s.flows|
  {
    var f := s.flows[id];
    if f.session.None? then Put(s, id, Bad(f))
    else if f.session.value.provider == Some(Pkcs11) then s.(pin := None)
    else s
  }

  /** The session gives up its strings and its transaction reference. */
  function DropSessionReference(s: State, id: Id): (r: State)
    requires id < |s.flows|
    ensures |r.flows| == |s.flows|
  {
    var f := s.flows[id];
    if f.session.None? then Put(s, id, Bad(f))
    else
      var w := f.session.value;
      var g := f.(session := Some(w.(transaction := false, pendingHost := None, currentHost := None)));
      Put(s, id, if w.transaction then Unref(g) else g)
  }

  function FreeSession(s: State, id: Id): (r: State)
    requires id < |s.flows|
    ensures |r.flows| == |s.flows|
  {
    var f := s.flows[id];
    Put(s, id, if f.session.None? then Bad(f) else f.(session := None))
  }

  /** The teardown hook, if it is set. */
  function RunTeardown(s: State, id: Id): (r: State)
    requires id < |s.flows|
    ensures |r.flows| == |s.flows|
  {
    var f := s.flows[id];
    if f.txn.None? then Put(s, id, Bad(f))
    else if !f.txn.value.teardown then s
    else if f.session.None? then Put(s, id, Bad(f))
    else if f.session.value.tornDown then s
    else FreeSession(DropSessionReference(ReleaseAdapter(MarkTorn(s, id), id), id), id)
  }

  /** webauth_impl_request_unexport */
  function Unexport(s: State, id: Id): (r: State)
    requires id < |s.flows|
    ensures |r.flows| == |s.flows|
  {
    var f := s.flows[id];
    if f.request.None? then Put(s, id, Bad(f))
    else if !f.request.value.exported then s
    else
      var g := f.(request := Some(f.request.value.(exported := false)));
      var known := f.start.path in s.registry && s.registry[f.start.path] == id;
      Put(s.(registry := s.registry - {f.start.path}), id, if known then UnrefRequest(g) else Bad(g))
  }

  /** g_dbus_method_invocation_return_value on the stolen invocation. */
  function Reply(s: State, id: Id, response: Response, uri: Option<string>, reason: Option<Reason>): (r: State)
    requires id < |s.flows|
    ensures |r.flows| == |s.flows|
  {
    var f := s.flows[id];
    if f.txn.None? || f.txn.value.invocation.None? then Put(s, id, Bad(f))
    else
      var sent := if response == Completed then uri else None;
      Emit(Put(s, id, f.(txn := Some(f.txn.value.(invocation := None)))),
           Replied(f.txn.value.invocation.value, response, sent, reason))
  }

  /** forget_transaction: the list gives up its reference, then the slot is freed. */
  function LeaveList(s: State, id: Id): (r: State)
    requires id < |s.flows|
    ensures |r.flows| == |s.flows|
  {
    if id !in s.list then s
    else Put(s.(list := RemoveFast(s.list, id)), id, Unref(s.flows[id]))
  }

  function FreeSlot(s: State, id: Id): (r: State)
    requires id < |s.flows|
    ensures |r.flows| == |s.flows|
  {
    var f := s.flows[id];
    Put(s, id, if f.slot then f.(slot := false) else Bad(f))
  }

  function RunFinished(s: State, id: Id): (r: State)
    requires id < |s.flows|
    ensures |r.flows| == |s.flows|
  {
    var f := s.flows[id];
    if f.txn.None? then Put(s, id, Bad(f))
    else if !f.txn.value.finished then s
    else if !f.slot then Put(s, id, Bad(f))
    else FreeSlot(LeaveList(s, id), id)
  }

  function Apply(s: State, id: Id, op: Flow -> Flow): (r: State)
    requires id < |s.flows|
    ensures |r.flows| == |s.flows|
  {
    Put(s, id, op(s.flows[id]))
  }

  /** The order inside finish: commit, ref, disarm, disconnect, teardown, unexport, reply, finished hook, unref. */
  function Finish(s: State, id: Id, response: Response, uri: Option<string>, reason: Option<Reason>): (r: State)
    requires id < |s.flows|
    ensures |r.flows| == |s.flows|
  {
    var f := s.flows[id];
    if f.txn.None? then Put(s, id, Bad(f))
    else if f.txn.value.done then Emit(s, LateFinish(id))
    else
      var s1 := Apply(Commit(s, id), id, Hold);
      var s2 := Apply(Apply(s1, id, Disarm), id, Disconnect);
      var s3 := RunTeardown(s2, id);
      var s4 := Unexport(s3, id);
      var s5 := Reply(s4, id, response, uri, reason);
      var s6 := RunFinished(s5, id);
      Apply(s6, id, Release)
  }

  // ---------- The frontend's bus name ----------

  /** resolve_frontend_owner; `answer` is whatever the bus reports at that moment. */
  function Resolve(s: State, answer: Option<string>): State {
    s.(resolved := true, owner := answer)
  }

  /** webauth_backend_sender_is_frontend, with the answers of up to two lookups. */
  function SenderCheck(s: State, sender: Option<string>, first: Option<string>, second: Option<string>): (State, bool) {
    if sender.None? then (s, false)
    else
      var s1 := if s.resolved then s else Resolve(s, first);
      if s1.owner != sender then (s1, false)
      else
        var s2 := Resolve(s1, second);
        (s2, s2.owner == sender)
  }

  // ---------- cancel_all ----------

  function HoldAll(s: State, ids: seq<Id>): (r: State)
    requires forall i :: 0 <= i < |ids| ==> ids[i] < |s.flows|
    ensures |r.flows| == |s.flows|
    decreases |ids|
  {
    if ids == [] then s else HoldAll(Apply(s, ids[0], Hold), ids[1..])
  }

  function FinishAll(s: State, ids: seq<Id>, reason: Reason): (r: State)
    requires forall i :: 0 <= i < |ids| ==> ids[i] < |s.flows|
    ensures |r.flows| == |s.flows|
    decreases |ids|
  {
    if ids == [] then s else FinishAll(Finish(s, ids[0], Other, None, Some(reason)), ids[1..], reason)
  }

  function ReleaseAll(s: State, ids: seq<Id>): (r: State)
    requires forall i :: 0 <= i < |ids| ==> ids[i] < |s.flows|
    ensures |r.flows| == |s.flows|
    decreases |ids|
  {
    if ids == [] then s else ReleaseAll(Apply(s, ids[0], Release), ids[1..])
  }

  predicate ListInRange(s: State) {
    forall i :: 0 <= i < |s.list| ==> s.list[i] < |s.flows|
  }

  /** The list is copied first, because every finish removes from it. */
  function CancelAll(s: State, reason: Reason): State
    requires ListInRange(s)
  {
    ReleaseAll(FinishAll(HoldAll(s, s.list), s.list, reason), s.list)
  }

  // ---------- Start ----------

  const DEFAULT_TIMEOUT := 300
  const MAX_TIMEOUT := 900

  function Min(a: nat, b: nat): nat { if a < b then a else b }

  /** webauth_options_timeout; None stands for an absent or mistyped option. */
  function ClampTimeout(timeout: Option<nat>): nat {
    if timeout.None? || timeout.value == 0 then Min(DEFAULT_TIMEOUT, MAX_TIMEOUT)
    else Min(timeout.value, MAX_TIMEOUT)
  }

  /** A Start message, with what the environment answers while it is handled. */
  datatype StartCall = StartCall(
    sender: Option<string>, first: Option<string>, second: Option<string>,
    path: string, appId: string, startUri: string, completionUri: string,
    sessionMode: Option<string>, timeout: Option<nat>,
    exportOk: bool, storeOk: bool, provider: Option<Provider>)

  /** The mode a valid Start runs in; None when the code refuses it as invalid. */
  function Validated(c: StartCall): Option<Storage.Mode> {
    if !Completion.StartUriIsValid(Some(c.startUri)) then None
    else if !Completion.CompletionUriIsValid(Some(c.completionUri)) then None
    else
      match Storage.ModeParse(c.sessionMode)
      case None => None
      case Some(mode) => Some(Storage.EffectiveMode(mode, Some(c.appId)))
  }

  /** fail: a reply without a transaction. */
  function Refuse(s: State, invocation: nat, reason: Reason): State {
    Emit(s, Replied(invocation, Other, None, Some(reason)))
  }

  /** webauth_impl_request_new */
  function NewRequest(s: State, args: StartArgs): State {
    var flow := Flow(args, None, Some(Request(1, false, false, false)), None, false, None, 0, 1, false);
    s.(flows := s.flows + [flow])
  }

  /** webauth_impl_request_export, when the bus accepts the path. */
  function Export(s: State, id: Id): (r: State)
    requires id < |s.flows|
    ensures |r.flows| == |s.flows|
  {
    var f := s.flows[id];
    if f.request.None? then Put(s, id, Bad(f))
    else
      var r := f.request.value;
      Put(s.(registry := s.registry[f.start.path := id]), id,
          f.(request := Some(r.(refCount := r.refCount + 1, exported := true))))
  }

  /** webauth_transaction_new, for the frame of handle_start. */
  function NewTransaction(f: Flow): Flow {
    match f.request
    case None => Bad(f)
    case Some(r) =>
      f.(txn := Some(Transaction(1, Some(f.start.invocation), f.start.startUri, f.start.completionUri,
                                 f.start.timeout, false, false, false, true, false)),
         frames := f.frames + 1,
         request := Some(r.(refCount := r.refCount + 1, closeHandler := true)))
  }

  function NewSlot(f: Flow): Flow {
    match f.txn
    case None => Bad(f)
    case Some(t) => f.(slot := true, txn := Some(t.(finished := true)))
  }

  function JoinList(s: State, id: Id): (r: State)
    requires id < |s.flows|
    ensures |r.flows| == |s.flows|
  {
    Put(s.(list := s.list + [id]), id, Ref(s.flows[id]))
  }

  /** The session object before its store is known to exist. */
  function NewSession(f: Flow): Flow {
    Ref(f).(session := Some(Session(true, None, None, None, None, false)))
  }

  /** Its error path. */
  function AbandonSession(f: Flow): Flow { Unref(f).(session := None) }

  function EquipSession(f: Flow, provider: Option<Provider>): Flow {
    if f.session.None? || f.txn.None? then Bad(f)
    else
      f.(session := Some(f.session.value.(provider := provider)),
         txn := Some(f.txn.value.(teardown := true)))
  }

  /** The directory of a persistent store, when the mode asks for one. */
  function StoreName(args: StartArgs): Option<string> {
    Storage.DirectoryName(Some(args.appId))
  }

  predicate StoreBuilds(args: StartArgs, storeOk: bool) {
    storeOk && (args.mode == Storage.Shared ==> StoreName(args).Some?)
  }

  /** webauth_transaction_start_deadline */
  function StartDeadline(f: Flow, now: nat): Flow {
    match f.txn
    case None => Bad(f)
    case Some(t) =>
      if t.done || t.deadlineId || t.timeout == 0 then f
      else f.(timer := Some(now + t.timeout), txn := Some(t.(deadlineId := true)))
  }

  /** webauth_webkit_session_present */
  function Present(s: State, id: Id): (r: State)
    requires id < |s.flows|
    ensures |r.flows| == |s.flows|
  {
    var f := s.flows[id];
    if f.session.None? || f.txn.None? then Put(s, id, Bad(f))
    else
      var host := Completion.HostOf(Some(f.txn.value.startUri));
      var g := f.(session := Some(f.session.value.(pendingHost := host)));
      Emit(Put(s, id, StartDeadline(g, s.now)), Opened(id, s.now))
  }

  /** From webauth_webkit_session_new to the end of handle_start's body. */
  function OpenSession(s: State, id: Id, storeOk: bool, provider: Option<Provider>): (r: State)
    requires id < |s.flows|
    ensures |r.flows| == |s.flows|
  {
    var args := s.flows[id].start;
    var s1 := Apply(s, id, NewSession);
    if !StoreBuilds(args, storeOk) then
      Finish(Apply(s1, id, AbandonSession), id, Other, None, Some(NoStorage))
    else
      var s2 := if args.mode == Storage.Shared then Emit(s1, StoreOpened(id, StoreName(args).value)) else s1;
      Present(Put(s2, id, EquipSession(s2.flows[id], provider)), id)
  }

  function Accept(s: State, args: StartArgs, exportOk: bool, storeOk: bool, provider: Option<Provider>): State {
    var id := |s.flows|;
    var s1 := NewRequest(s, args);
    if !exportOk || args.path in s.registry then
      Apply(Refuse(s1, args.invocation, InvalidRequest), id, ReleaseRequest)
    else
      var s2 := Export(s1, id);
      var s3 := Apply(Apply(s2, id, NewTransaction), id, NewSlot);
      var s4 := JoinList(s3, id);
      var s5 := OpenSession(s4, id, storeOk, provider);
      Apply(Apply(s5, id, Release), id, ReleaseRequest)
  }

  function ArgsOf(c: StartCall, invocation: nat, mode: Storage.Mode): StartArgs {
    StartArgs(invocation, c.path, c.appId, c.startUri, c.completionUri, mode, ClampTimeout(c.timeout))
  }

  /** handle_start after the sender check, given what validation says. */
  function Admit(s: State, invocation: nat, accepted: bool, c: StartCall, validated: Option<Storage.Mode>): State {
    if !accepted then Emit(s, Denied(invocation))
    else if validated.None? then Refuse(s, invocation, InvalidRequest)
    else Accept(s, ArgsOf(c, invocation, validated.value), c.exportOk, c.storeOk, c.provider)
  }

  function CountInvocation(s: State): State { s.(invocations := s.invocations + 1) }

  function HandleChecked(s: State, c: StartCall, validated: Option<Storage.Mode>): State {
    var (s1, accepted) := SenderCheck(CountInvocation(s), c.sender, c.first, c.second);
    Admit(s1, s.invocations, accepted, c, validated)
  }

  function HandleStart(s: State, c: StartCall): State {
    HandleChecked(s, c, Validated(c))
  }

  // ---------- Request.Close ----------

  /** A Close message, with the answers of the lookups of both handlers. */
  datatype CloseCall = CloseCall(
    path: string, sender: Option<string>,
    first: Option<string>, second: Option<string>, third: Option<string>, fourth: Option<string>)

  /** on_request_close, the handler the transaction connected. */
  function OnRequestClose(s: State, id: Id, c: CloseCall): (r: State)
    requires id < |s.flows|
    ensures |r.flows| == |s.flows|
  {
    var (s1, accepted) := SenderCheck(s, c.sender, c.first, c.second);
    if !accepted then s1 else Finish(s1, id, Cancelled, None, Some(RequestClosed))
  }

  function CancelRequest(f: Flow): Flow {
    match f.request
    case None => Bad(f)
    case Some(r) => f.(request := Some(r.(cancelled := true)))
  }

  /** webauth_impl_request_handle_close, the class default handler. */
  function DefaultClose(s: State, id: Id, c: CloseCall): (r: State)
    requires id < |s.flows|
    ensures |r.flows| == |s.flows|
  {
    var s1 := Apply(s, id, HoldRequest);
    var (s2, accepted) := SenderCheck(s1, c.sender, c.third, c.fourth);
    var s3 :=
      if !accepted then Emit(s2, CloseAnswered(id, false))
      else Emit(Unexport(Apply(s2, id, CancelRequest), id), CloseAnswered(id, true));
    Apply(s3, id, ReleaseRequest)
  }

  predicate RegistryInRange(s: State) {
    forall p :: p in s.registry ==> s.registry[p] < |s.flows|
  }

  /** Signal emission: it keeps the Request alive, runs the connected handler, then the class default. */
  function HandleClose(s: State, c: CloseCall): State
    requires RegistryInRange(s)
  {
    if c.path !in s.registry then s
    else
      var id := s.registry[c.path];
      var s1 := Apply(s, id, HoldRequest);
      var connected := s1.flows[id].request.Some? && s1.flows[id].request.value.closeHandler;
      var s2 := if connected then OnRequestClose(s1, id, c) else s1;
      Apply(DefaultClose(s2, id, c), id, ReleaseRequest)
  }

  // ---------- Engine callbacks ----------

  predicate IsUp(f: Flow) { f.session.Some? && !f.session.value.tornDown }

  /** Handlers are disconnected in teardown, so only a live session receives events. */
  predicate Receives(s: State, id: Id) { id < |s.flows| && IsUp(s.flows[id]) }

  /** The transaction a live session points at. */
  predicate HasTransaction(f: Flow) {
    f.session.Some? && f.session.value.transaction && f.txn.Some?
  }

  function FinishFor(s: State, id: Id, response: Response, uri: Option<string>, reason: Option<Reason>): (r: State)
    requires id < |s.flows|
    ensures |r.flows| == |s.flows|
  {
    if !HasTransaction(s.flows[id]) then Put(s, id, Bad(s.flows[id]))
    else Finish(s, id, response, uri, reason)
  }

  predicate CompletesOn(f: Flow, uri: Option<string>) {
    HasTransaction(f) && Completion.Matches(uri, Some(f.txn.value.completionUri))
  }

  function SetSession(s: State, id: Id, w: Session): (r: State)
    requires id < |s.flows|
    ensures |r.flows| == |s.flows|
  {
    Put(s, id, s.flows[id].(session := Some(w)))
  }

  /** on_decide_policy for a navigation action. */
  function OnNavigation(s: State, id: Id, uri: Option<string>): State
    requires Receives(s, id)
  {
    var s1 := Emit(s, Asked(id, uri, true));
    if CompletesOn(s.flows[id], uri) then
      Emit(FinishFor(s1, id, Completed, uri, None), Blocked(id, uri))
    else
      var w := s.flows[id].session.value;
      Emit(SetSession(s1, id, w.(pendingHost := Completion.HostOf(uri))), LetThrough(id, uri))
  }

  /** on_decide_policy for a response. */
  function OnResponse(s: State, id: Id, uri: Option<string>, supported: bool): State
    requires Receives(s, id)
  {
    var s1 := Emit(s, Asked(id, uri, false));
    if CompletesOn(s.flows[id], uri) then
      Emit(FinishFor(s1, id, Completed, uri, None), Blocked(id, uri))
    else
      Emit(s1, if supported then LetThrough(id, uri) else Blocked(id, uri))
  }

  datatype LoadPhase = LoadStarted | LoadRedirected | LoadCommitted | LoadFinished

  /** on_load_changed */
  function OnLoadChanged(s: State, id: Id, phase: LoadPhase, uri: Option<string>): State
    requires Receives(s, id)
  {
    if phase == LoadFinished then s
    else
      var w := s.flows[id].session.value;
      Emit(SetSession(s, id, w.(currentHost := Completion.HostOf(uri))), LoadedTo(id, uri))
  }

  /** on_load_failed; `cancelled` says that the error is WEBKIT_NETWORK_ERROR_CANCELLED. */
  function OnLoadFailed(s: State, id: Id, cancelled: bool): State
    requires Receives(s, id)
  {
    var f := s.flows[id];
    var pending := f.session.value.pendingReason;
    if !HasTransaction(f) then Put(s, id, Bad(f))
    else if f.txn.value.done then s
    else if cancelled && pending.None? then s
    else FinishFor(s, id, Other, None, Some(if pending.Some? then pending.value else LoadFailed))
  }

  /** What the engine asks for; `file` and `acquired` are what the PIN file and the provider would answer. */
  datatype Challenge =
    | PinRequested(file: Option<string>)
    | CertificateRequested(host: Option<string>, acquired: bool)
    | OtherScheme

  predicate HostIs(host: string, known: Option<string>) {
    known.Some? && Completion.SameHost(host, known.value)
  }

  /** challenge_is_related */
  predicate ChallengeIsRelated(w: Session, host: Option<string>) {
    host.Some? && (HostIs(host.value, w.pendingHost) || HostIs(host.value, w.currentHost))
  }

  function Decline(s: State, id: Id, reason: Reason): State
    requires Receives(s, id)
  {
    var w := s.flows[id].session.value;
    Emit(SetSession(s, id, w.(pendingReason := Some(reason))), Declined(id, reason))
  }

  /** adapter->pin(): the buffer afterwards, which is also the answer. */
  function PinAfter(s: State, provider: Option<Provider>, file: Option<string>): Option<string> {
    if provider != Some(Pkcs11) then None
    else if s.pin.Some? then s.pin
    else if file.None? then None
    else Some(PinCache.PinOf(file.value))
  }

  /** on_authenticate */
  function OnAuthenticate(s: State, id: Id, challenge: Challenge): State
    requires Receives(s, id)
  {
    var w := s.flows[id].session.value;
    match challenge
    case OtherScheme => s
    case PinRequested(file) =>
      var answer := PinAfter(s, w.provider, file);
      if answer.None? then Decline(s, id, CredentialUnavailable)
      else Emit(s.(pin := answer), PinAnswered(id))
    case CertificateRequested(host, acquired) =>
      if !ChallengeIsRelated(w, host) then Decline(s, id, UnrelatedCertificateChallenge)
      else if w.provider.None? then Decline(s, id, CredentialUnavailable)
      else
        var s1 := Emit(s, ProviderAsked(id, host.value));
        if acquired then s1 else Decline(s1, id, CredentialUnavailable)
  }

  // ---------- Time ----------

  predicate TimerDue(s: State, id: Id) {
    id < |s.flows| && s.flows[id].timer.Some? && s.flows[id].timer.value <= s.now
  }

  /** on_deadline: the handle is cleared before finish, and the source removes itself. */
  function OnDeadline(s: State, id: Id): State
    requires TimerDue(s, id)
  {
    var f := s.flows[id];
    if f.txn.None? then Put(s, id, Bad(f))
    else
      Finish(Put(s, id, f.(timer := None, txn := Some(f.txn.value.(deadlineId := false)))),
             id, Other, None, Some(Timeout))
  }

  /** The clock does not pass a due timer. */
  function Tick(s: State): State {
    if forall id :: 0 <= id < |s.flows| ==> !TimerDue(s, id) then s.(now := s.now + 1) else s
  }

  // ---------- Events and runs ----------

  datatype Event =
    | StartReceived(start: StartCall)
    | CloseReceived(close: CloseCall)
    | FrontendAppeared(owner: string)
    | FrontendVanished
    | Shutdown
    | UserCancels(id: Id)
    | Navigation(id: Id, uri: Option<string>)
    | ResponseDecision(id: Id, uri: Option<string>, supported: bool)
    | NewWindow(id: Id, uri: Option<string>)
    | LoadChanged(id: Id, phase: LoadPhase, uri: Option<string>)
    | LoadFails(id: Id, cancelled: bool)
    | TlsFails(id: Id)
    | ProcessGone(id: Id)
    | Authenticate(id: Id, challenge: Challenge)
    | DeadlineFires(id: Id)
    | ClockTicks

  /** The events of one session. */
  predicate IsEngineEvent(e: Event) {
    e.UserCancels? || e.Navigation? || e.ResponseDecision? || e.NewWindow? || e.LoadChanged? ||
    e.LoadFails? || e.TlsFails? || e.ProcessGone? || e.Authenticate?
  }

  predicate InRange(s: State) { ListInRange(s) && RegistryInRange(s) }

  /** An event of one session reaches it only while its handlers are connected. */
  function DispatchEngine(s: State, e: Event): State
    requires IsEngineEvent(e)
    requires Receives(s, e.id)
  {
    match e
    case UserCancels(id) => FinishFor(s, id, Cancelled, None, Some(UserCancelled))
    case Navigation(id, uri) => OnNavigation(s, id, uri)
    case ResponseDecision(id, uri, supported) => OnResponse(s, id, uri, supported)
    case NewWindow(id, uri) => Emit(s, Blocked(id, uri))
    case LoadChanged(id, phase, uri) => OnLoadChanged(s, id, phase, uri)
    case LoadFails(id, cancelled) => OnLoadFailed(s, id, cancelled)
    case TlsFails(id) => FinishFor(s, id, Other, None, Some(TlsError))
    case ProcessGone(id) => FinishFor(s, id, Other, None, Some(SessionTerminated))
    case Authenticate(id, challenge) => OnAuthenticate(s, id, challenge)
  }

  /** One iteration of the main loop. */
  function Dispatch(s: State, e: Event): State
    requires InRange(s)
  {
    match e
    case StartReceived(c) => HandleStart(s, c)
    case CloseReceived(c) => HandleClose(s, c)
    case FrontendAppeared(owner) => s.(owner := Some(owner))
    case FrontendVanished => CancelAll(s.(owner := None), SessionTerminated)
    case Shutdown => CancelAll(s, SessionTerminated)
    case ClockTicks => Tick(s)
    case DeadlineFires(id) => if TimerDue(s, id) then OnDeadline(s, id) else s
    case _ => if Receives(s, e.id) then DispatchEngine(s, e) else s
  }
}
