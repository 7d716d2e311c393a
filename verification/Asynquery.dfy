/** The asynquery protocol as a step system: any number of calls, file deliveries and query workers
    interleave over the rows of the `asynqueries` table.

    Row and user locks are held by the agents whose program counter says so. An uncommitted write is
    seen by nobody, so writing and committing are one step; `Stop` is a rollback, an error return or
    a crash, and drops whatever locks the agent held. A queued task may be delivered any number of
    times, and a delivered file may be announced any number of times. */
module Asynquery {
  import opened Text
  import opened Json
  import opened Tasks

  type UserId = int
  /** Position in creation order: a larger id is a newer row. */
  type RowId = nat
  type AgentId = nat

  datatype Status = Received | Preparing | Forwarded | Failed | Succeeded

  datatype Row = Row(
    user: UserId, upload: string, body: SdkRequest,
    ready: bool, fileReady: bool, fileMeta: Option<Fields>, status: Status)

  /** A call that names an upload, and a forklift announcement for an upload. */
  datatype Call = Call(user: UserId, upload: string, deferRun: bool, req: SdkRequest)
  datatype Delivery = Delivery(user: UserId, upload: string, meta: UploadMeta)

  datatype Found = NoRow | Found(id: RowId, aq: Row)

  datatype Pc =
    | CallBegun(call: Call)
    | CallLocked(call: Call)                       // holds the user row
    | CallPicked(call: Call, id: RowId)            // waits for the newest row's lock
    | CallHolding(call: Call, found: Found)        // holds the user row and the found row
    | Owes(id: RowId)                              // committed; the task is still to be sent
    | MergeBegun(delivery: Delivery)
    | MergePicked(delivery: Delivery, id: RowId)   // waits for the row's lock
    | MergeHolding(delivery: Delivery, id: RowId, aq: Row)
    | QueryBegun(id: RowId)
    | Calling(id: RowId, aq: Row, meta: Option<UploadMeta>)
    | Finalizing(id: RowId, outcome: Status)
    | Writing(id: RowId, aq: Row, outcome: Status) // whole-row write pending, no lock held

  /** A request that reached the SDK, and the metadata it was patched with. */
  datatype Sent = Sent(request: SdkRequest, meta: Option<UploadMeta>)

  /** What has happened to one row. */
  datatype History = History(
    commits: seq<SdkRequest>,        // non-deferred calls that ended on this row, in order
    stored: seq<UploadMeta>,      // deliveries kept on the row because it was not committed
    fired: seq<UploadMeta>,       // deliveries that started the SDK call
    dropped: nat,                 // deliveries ignored because the row had succeeded
    owed: Option<AgentId>,        // the call that has yet to send the task
    queued: nat, lost: nat,       // tasks sent, tasks that could not be sent
    everFailed: bool,
    sent: seq<Sent>)

  datatype State = State(rows: seq<Row>, hist: seq<History>, agents: map<AgentId, Pc>)

  const Init := State([], [], map[])
  const NewHistory := History([], [], [], 0, None, 0, 0, false, [])

  datatype Step =
    | BeginCall(a: AgentId, call: Call)
    | LockUser(a: AgentId)
    | SelectRow(a: AgentId)
    | LockRow(a: AgentId)
    | CommitCall(a: AgentId)
    | CallWithoutFile(a: AgentId, user: UserId, req: SdkRequest)
    | SendTask(a: AgentId)
    | BeginMerge(a: AgentId, delivery: Delivery)
    | CommitMerge(a: AgentId)
    | BeginQuery(a: AgentId, id: RowId)
    | ReadQuery(a: AgentId)
    | CallSdk(a: AgentId, ok: bool)
    | ReadFinal(a: AgentId)
    | WriteFinal(a: AgentId)
    | Stop(a: AgentId)

  // ---- rows and locks ----

  predicate Owns(r: Row, user: UserId, upload: string) { r.user == user && r.upload == upload }

  predicate IsNewest(rows: seq<Row>, user: UserId, upload: string, id: RowId)
  {
    && id < |rows| && Owns(rows[id], user, upload)
    && forall j :: id < j < |rows| ==> !Owns(rows[j], user, upload)
  }

  predicate NoneOwned(rows: seq<Row>, user: UserId, upload: string)
  {
    forall j :: 0 <= j < |rows| ==> !Owns(rows[j], user, upload)
  }

  /** `ORDER BY created_at DESC`, first row. */
  function Newest(rows: seq<Row>, user: UserId, upload: string): (r: Option<RowId>)
    ensures r.Some? ==> IsNewest(rows, user, upload, r.value)
    ensures r.None? ==> NoneOwned(rows, user, upload)
    ensures r.Some? ==>
              && r.value < |rows| && rows[r.value].user == user && rows[r.value].upload == upload
              && forall j :: r.value < j < |rows| ==> !(rows[j].user == user && rows[j].upload == upload)
    ensures r.None? ==> forall j :: 0 <= j < |rows| ==> !(rows[j].user == user && rows[j].upload == upload)
  {
    if rows == [] then None
    else if Owns(rows[|rows| - 1], user, upload) then Some(|rows| - 1)
    else Newest(rows[..|rows| - 1], user, upload)
  }

  predicate HoldsUser(pc: Pc, user: UserId)
  {
    (pc.CallLocked? || pc.CallPicked? || pc.CallHolding?) && pc.call.user == user
  }

  predicate HoldsRow(pc: Pc, id: RowId)
  {
    || (pc.CallHolding? && pc.found.Found? && pc.found.id == id)
    || (pc.MergeHolding? && pc.id == id)
  }

  predicate UserFree(s: State, user: UserId)
  {
    forall a :: a in s.agents ==> !HoldsUser(s.agents[a], user)
  }

  predicate RowFree(s: State, id: RowId)
  {
    forall a :: a in s.agents ==> !HoldsRow(s.agents[a], id)
  }

  // ---- what a call does to the table ----

  function NewRow(user: UserId, upload: string, req: SdkRequest, ready: bool): Row
  {
    Row(user, upload, req, ready, false, None, Received)
  }

  /** The write a call makes, decided on the row it locked and read. */
  datatype Write = Keep | Insert(row: Row) | Commit(id: RowId, body: SdkRequest)

  function CallWrite(c: Call, found: Found): Write
  {
    match found
    case NoRow => Insert(NewRow(c.user, c.upload, c.req, !c.deferRun))
    case Found(id, aq) =>
      if c.deferRun then Keep
      else if aq.status == Received then (if aq.ready then Keep else Commit(id, c.req))
      else if aq.status == Failed then Insert(NewRow(c.user, c.upload, c.req, true))
      else Keep
  }

  // ---- steps ----

  predicate Idle(s: State, a: AgentId) { a !in s.agents }

  predicate RowsMatch(s: State) { |s.hist| == |s.rows| }

  predicate Enabled(s: State, step: Step)
  {
    RowsMatch(s) &&
    match step
    case BeginCall(a, c) => Idle(s, a) && c.upload != ""
    case CallWithoutFile(a, _, _) => Idle(s, a)
    case BeginMerge(a, _) => Idle(s, a)
    case BeginQuery(a, id) => Idle(s, a) && id < |s.rows| && s.hist[id].queued > 0
    case LockUser(a) => a in s.agents && s.agents[a].CallBegun? && UserFree(s, s.agents[a].call.user)
    case SelectRow(a) => a in s.agents && (s.agents[a].CallLocked? || s.agents[a].MergeBegun?)
    case LockRow(a) =>
      && a in s.agents && (s.agents[a].CallPicked? || s.agents[a].MergePicked?)
      && s.agents[a].id < |s.rows| && RowFree(s, s.agents[a].id)
    case CommitCall(a) =>
      a in s.agents && s.agents[a].CallHolding? && (s.agents[a].found.Found? ==> s.agents[a].found.id < |s.rows|)
    case SendTask(a) => a in s.agents && s.agents[a].Owes? && s.agents[a].id < |s.rows|
    case CommitMerge(a) => a in s.agents && s.agents[a].MergeHolding? && s.agents[a].id < |s.rows|
    case ReadQuery(a) => a in s.agents && s.agents[a].QueryBegun? && s.agents[a].id < |s.rows|
    case CallSdk(a, _) => a in s.agents && s.agents[a].Calling? && s.agents[a].id < |s.rows|
    case ReadFinal(a) => a in s.agents && s.agents[a].Finalizing? && s.agents[a].id < |s.rows|
    case WriteFinal(a) =>
      a in s.agents && s.agents[a].Writing? && s.agents[a].id < |s.rows| && RowFree(s, s.agents[a].id)
    case Stop(a) => a in s.agents && (s.agents[a].Owes? ==> s.agents[a].id < |s.rows|)
  }

  function Go(s: State, a: AgentId, pc: Pc): State { s.(agents := s.agents[a := pc]) }

  function Done(s: State, a: AgentId): State { s.(agents := s.agents - {a}) }

  function SetRow(s: State, id: RowId, r: Row, h: History): State
    requires RowsMatch(s) && id < |s.rows|
  {
    s.(rows := s.rows[id := r], hist := s.hist[id := h])
  }

  function AddRow(s: State, r: Row, h: History): State
  {
    s.(rows := s.rows + [r], hist := s.hist + [h])
  }

  function Do(s: State, step: Step): State
    requires Enabled(s, step)
  {
    match step
    case BeginCall(a, c) => Go(s, a, CallBegun(c))
    case LockUser(a) => Go(s, a, CallLocked(s.agents[a].call))
    case SelectRow(a) => DoSelect(s, a)
    case LockRow(a) => DoLock(s, a)
    case CommitCall(a) => DoCommitCall(s, a)
    case CallWithoutFile(a, user, req) =>
      Go(AddRow(s, NewRow(user, "", req, true), NewHistory.(commits := [req], owed := Some(a))), a, Owes(|s.rows|))
    case SendTask(a) =>
      var id := s.agents[a].id;
      Done(SetRow(s, id, s.rows[id], s.hist[id].(owed := None, queued := s.hist[id].queued + 1)), a)
    case BeginMerge(a, d) => Go(s, a, MergeBegun(d))
    case CommitMerge(a) => DoCommitMerge(s, a)
    case BeginQuery(a, id) => Go(s, a, QueryBegun(id))
    case ReadQuery(a) => DoReadQuery(s, a)
    case CallSdk(a, ok) =>
      var pc := s.agents[a];
      var h := s.hist[pc.id];
      Go(SetRow(s, pc.id, s.rows[pc.id],
                h.(sent := h.sent + [Sent(Outgoing(pc.aq.body, PatchOf(pc.meta)), pc.meta)])),
         a, Finalizing(pc.id, if ok then Succeeded else Failed))
    case ReadFinal(a) =>
      var pc := s.agents[a];
      Go(s, a, Writing(pc.id, s.rows[pc.id], pc.outcome))
    case WriteFinal(a) =>
      var pc := s.agents[a];
      var h := s.hist[pc.id];
      Done(SetRow(s, pc.id, pc.aq.(status := pc.outcome), h.(everFailed := h.everFailed || pc.outcome == Failed)), a)
    case Stop(a) =>
      if s.agents[a].Owes? then
        var id := s.agents[a].id;
        Done(SetRow(s, id, s.rows[id], s.hist[id].(owed := None, lost := s.hist[id].lost + 1)), a)
      else Done(s, a)
  }

  /** The locking SELECT chooses its row before it waits for the row's lock. */
  function DoSelect(s: State, a: AgentId): State
    requires a in s.agents && (s.agents[a].CallLocked? || s.agents[a].MergeBegun?)
  {
    match s.agents[a]
    case CallLocked(c) =>
      (match Newest(s.rows, c.user, c.upload)
       case None => Go(s, a, CallHolding(c, NoRow))
       case Some(id) => Go(s, a, CallPicked(c, id)))
    case MergeBegun(d) =>
      (match Newest(s.rows, d.user, d.upload)
       case None => Done(s, a)  // no row: an error, the announcement stays pending
       case Some(id) => Go(s, a, MergePicked(d, id)))
  }

  function DoLock(s: State, a: AgentId): State
    requires a in s.agents && (s.agents[a].CallPicked? || s.agents[a].MergePicked?) && s.agents[a].id < |s.rows|
  {
    match s.agents[a]
    case CallPicked(c, id) => Go(s, a, CallHolding(c, Found(id, s.rows[id])))
    case MergePicked(d, id) => Go(s, a, MergeHolding(d, id, s.rows[id]))
  }

  function DoCommitCall(s: State, a: AgentId): State
    requires RowsMatch(s) && a in s.agents && s.agents[a].CallHolding?
    requires s.agents[a].found.Found? ==> s.agents[a].found.id < |s.rows|
  {
    var CallHolding(c, found) := s.agents[a];
    match CallWrite(c, found)
    case Insert(r) => Done(AddRow(s, r, NewHistory.(commits := if c.deferRun then [] else [c.req])), a)
    case Keep =>
      var h := s.hist[found.id];
      if c.deferRun then Done(s, a)
      else Done(SetRow(s, found.id, s.rows[found.id], h.(commits := h.commits + [c.req])), a)
    case Commit(id, body) =>
      var h := s.hist[id].(commits := s.hist[id].commits + [c.req]);
      var r := s.rows[id].(body := body, ready := true);
      if found.aq.fileReady then Go(SetRow(s, id, r, h.(owed := Some(a))), a, Owes(id))
      else Done(SetRow(s, id, r, h), a)
  }

  function DoCommitMerge(s: State, a: AgentId): State
    requires RowsMatch(s) && a in s.agents && s.agents[a].MergeHolding? && s.agents[a].id < |s.rows|
  {
    var MergeHolding(d, id, aq) := s.agents[a];
    var h := s.hist[id];
    if !aq.ready then
      Done(SetRow(s, id, s.rows[id].(fileReady := true, fileMeta := Some(EncodeMeta(d.meta))),
                  h.(stored := h.stored + [d.meta])), a)
    else if aq.status == Succeeded then
      Done(SetRow(s, id, s.rows[id], h.(dropped := h.dropped + 1)), a)
    else
      Go(SetRow(s, id, s.rows[id], h.(fired := h.fired + [d.meta])), a, Calling(id, aq, Some(d.meta)))
  }

  function DoReadQuery(s: State, a: AgentId): State
    requires a in s.agents && s.agents[a].QueryBegun? && s.agents[a].id < |s.rows|
  {
    var id := s.agents[a].id;
    var aq := s.rows[id];
    match aq.fileMeta
    case None => Go(s, a, Calling(id, aq, None))
    case Some(o) =>
      (match DecodeMeta(o)
       case Some(m) => Go(s, a, Calling(id, aq, Some(m)))
       case None => Go(s, a, Finalizing(id, Failed)))
  }

  function Next(s: State, step: Step): Option<State> { if Enabled(s, step) then Some(Do(s, step)) else None }
}
