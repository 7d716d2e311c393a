/** The handlers of the call manager as they are written, over the table they update in place. Run
    alone, each handler is one of the interleavings of the step system, so everything proved about
    runs holds of it; beside that each states what it returns and what it leaves in the table. */
module AsynqueryManager {
  import opened Text
  import opened StepSystems
  import opened Json
  import opened Tasks
  import opened Asynquery
  import opened AsynquerySafety
  import opened AsynqueryTheorems

  const DEFER := "_defer"

  datatype CallResult = Accepted(id: RowId) | InvalidFilePath | QueueError

  /** How the SDK call ends: no answer, an error answer, or a result. */
  datatype SdkReply = NetError | RpcError | Result

  /** What a task handler tells the queue. */
  datatype TaskResult = Completed | Retry | SkipRetry

  function OutcomeOf(reply: SdkReply): Status { if reply == Result then Succeeded else Failed }

  function TaskResultOf(reply: SdkReply): TaskResult
  {
    match reply case NetError => Retry case RpcError => SkipRetry case Result => Completed
  }

  function FoundBy(rows: seq<Row>, user: UserId, upload: string): Found
  {
    match Newest(rows, user, upload)
    case None => NoRow
    case Some(id) => Found(id, rows[id])
  }

  /** A call that runs alone: where it leads, with the history it leaves. */
  lemma CallTx(o: State, c: Call) returns (h: seq<History>)
    requires RowsMatch(o) && o.agents == map[] && c.upload != ""
    ensures match CallWrite(c, FoundBy(o.rows, c.user, c.upload))
            case Insert(r) => Leads(Next, o, State(o.rows + [r], h, map[]))
            case Keep => Leads(Next, o, State(o.rows, h, map[]))
            case Commit(id, body) =>
              && id < |o.rows|
              && Leads(Next, o, State(o.rows[id := o.rows[id].(body := body, ready := true)], h,
                                if o.rows[id].fileReady then map[0 := Owes(id)] else map[]))
  {
    hide Leads;
    Stutter(Next, o);
    var s := CallAlone(o, o, 0, c);
    LeadsOn(Next, o, s, CommitCall(0));
    var t := Do(s, CommitCall(0));
    assert t.agents.Keys <= {0};
    h := t.hist;
    match CallWrite(c, FoundBy(o.rows, c.user, c.upload)) {
      case Insert(r) =>
        assert t == State(o.rows + [r], h, map[]);
      case Keep =>
        assert t == State(o.rows, h, map[]);
      case Commit(id, body) =>
        assert t == State(o.rows[id := o.rows[id].(body := body, ready := true)], h,
                          if o.rows[id].fileReady then map[0 := Owes(id)] else map[]);
    }
  }

  /** A row past `received` has been committed. */
  lemma PastReceived(o: State, id: RowId)
    requires Reachable(o) && id < |o.rows| && o.rows[id].status != Received
    ensures o.rows[id].ready
  {
    hide EncodeMeta, SentsInv, PcInv;
    ReachableInv(o);
    RowOf(o, id);
  }

  predicate IsDeferred(req: SdkRequest) { DEFER in req.params && req.params[DEFER] == Bool(true) }

  /** The request as it is stored. */
  function BodyOf(req: SdkRequest): SdkRequest { SdkRequest(req.methodName, req.params - {DEFER}) }

  /** Every task in the queue is one that some call sent for its row. */
  ghost predicate QueueOk(hist: seq<History>, queue: seq<RowId>)
  {
    forall i :: 0 <= i < |queue| ==> queue[i] < |hist| && hist[queue[i]].queued > 0
  }

  lemma StaysValid(o: State, t: State, queue: seq<RowId>)
    requires Reachable(o) && QueueOk(o.hist, queue) && Leads(Next, o, t)
    ensures Reachable(t) && RowsMatch(t) && QueueOk(t.hist, queue)
  {
    hide RowInv, PcInv;
    ReachableInv(o);
    var steps :| Runs(Next, o, steps, t);
    RunKeeps(o, steps, t);
    LeadsThrough(Next, Init, o, t);
  }

  class CallManager {
    var rows: seq<Row>
    var queue: seq<RowId>            // tasks sent
    var dispatched: seq<SdkRequest>     // requests the SDK has received
    ghost var hist: seq<History>

    ghost function Table(agents: map<AgentId, Pc>): State
      reads this
    {
      State(rows, hist, agents)
    }

    ghost predicate Valid()
      reads this
    {
      Reachable(Table(map[])) && QueueOk(hist, queue)
    }

    constructor ()
      ensures Valid() && rows == [] && queue == [] && dispatched == []
    {
      rows, queue, dispatched, hist := [], [], [], [];
      new;
      Stutter(Next, Init);
    }

    /** The transaction of a call that names an upload. */
    method CallUploadTx(c: Call) returns (id: RowId, enqueue: bool)
      requires Valid() && c.upload != ""
      modifies this`rows, this`hist
      ensures Leads(Next, old(Table(map[])), Table(if enqueue then map[0 := Owes(id)] else map[]))
      ensures !enqueue ==> Valid()
      ensures match Newest(old(rows), c.user, c.upload)
              case None =>
                && id == |old(rows)| && !enqueue
                && rows == old(rows) + [Row(c.user, c.upload, c.req, !c.deferRun, false, None, Received)]
              case Some(last) =>
                var aq := old(rows)[last];
                if !c.deferRun && aq.status == Failed then
                  && id == |old(rows)| && !enqueue
                  && rows == old(rows) + [Row(c.user, c.upload, c.req, true, false, None, Received)]
                else if !c.deferRun && aq.status == Received && !aq.ready then
                  && id == last && enqueue == aq.fileReady
                  && rows == old(rows)[last := aq.(body := c.req, ready := true)]
                else
                  id == last && !enqueue && rows == old(rows)
      ensures IsNewest(rows, c.user, c.upload, id) && (!c.deferRun ==> rows[id].ready)
    {
      hide Leads, Reachable, QueueOk;
      ghost var o := Table(map[]);
      ReachableInv(o);
      ghost var h := CallTx(o, c);
      enqueue := false;
      match Newest(rows, c.user, c.upload) {
        case None =>
          id := |rows|;
          rows := rows + [NewRow(c.user, c.upload, c.req, !c.deferRun)];
        case Some(found) =>
          id := found;
          var aq := rows[id];
          if !c.deferRun {
            match aq.status {
              case Received =>
                if !aq.ready {
                  rows := rows[id := aq.(body := c.req, ready := true)];
                  enqueue := aq.fileReady;
                }
              case Failed =>
                id := |rows|;
                rows := rows + [NewRow(c.user, c.upload, c.req, true)];
              case _ =>
                PastReceived(o, id);
            }
          }
      }
      hist := h;
      if !enqueue {
        StaysValid(o, Table(map[]), queue);
      }
    }

    /** A client's call. The parameter `_defer` makes it a draft, if it names an upload, and never
        reaches the table; `parse` finds the upload id in a file path, `sendOk` says whether the queue
        takes the task. */
    method Call(user: UserId, req: SdkRequest, parse: string -> Option<string>, sendOk: bool) returns (res: CallResult)
      requires Valid() && forall p :: parse(p) != Some("")
      modifies this`rows, this`hist, this`queue
      ensures Valid() && Leads(Next, old(Table(map[])), Table(map[]))
      ensures "file_path" !in req.params ==>
                && rows == old(rows) + [Row(user, "", SdkRequest(req.methodName, req.params - {"_defer"}),
                                            true, false, None, Received)]
                && (if sendOk then res == Accepted(|old(rows)|) && queue == old(queue) + [res.id]
                    else res == QueueError && queue == old(queue))
      ensures "file_path" in req.params && (req.params["file_path"].Str? ==> parse(req.params["file_path"].s).None?) ==>
                res == InvalidFilePath && rows == old(rows) && queue == old(queue)
      ensures "file_path" in req.params && req.params["file_path"].Str? && parse(req.params["file_path"].s).Some? ==>
                var upload := parse(req.params["file_path"].s).value;
                var draft := "_defer" in req.params && req.params["_defer"] == Bool(true);
                var body := SdkRequest(req.methodName, req.params - {"_defer"});
                match Newest(old(rows), user, upload)
                case None =>
                  && res == Accepted(|old(rows)|) && queue == old(queue)
                  && rows == old(rows) + [Row(user, upload, body, !draft, false, None, Received)]
                case Some(id) =>
                  var aq := old(rows)[id];
                  if !draft && aq.status == Failed then
                    && res == Accepted(|old(rows)|) && queue == old(queue)
                    && rows == old(rows) + [Row(user, upload, body, true, false, None, Received)]
                  else if !draft && aq.status == Received && !aq.ready then
                    && rows == old(rows)[id := aq.(body := body, ready := true)]
                    && (if !aq.fileReady then res == Accepted(id) && queue == old(queue)
                        else if sendOk then res == Accepted(id) && queue == old(queue) + [id]
                        else res == QueueError && queue == old(queue))
                  else
                    res == Accepted(id) && rows == old(rows) && queue == old(queue)
      ensures "file_path" in req.params && "_defer" in req.params && req.params["_defer"] == Bool(true) ==>
                && queue == old(queue) && |old(rows)| <= |rows|
                && forall j :: 0 <= j < |rows| && rows[j].ready ==> j < |old(rows)| && old(rows)[j].ready
    {
      hide Leads, Reachable, QueueOk;
      ghost var o := Table(map[]);
      Stutter(Next, o);
      var body := BodyOf(req);
      if FILE_PATH !in body.params {
        res := CallWithoutFile(user, body, sendOk);
        return;
      }
      if !body.params[FILE_PATH].Str? {
        return InvalidFilePath;
      }
      var upload := parse(body.params[FILE_PATH].s);
      if upload.None? {
        return InvalidFilePath;
      }
      var id, enqueue := CallUploadTx(Asynquery.Call(user, upload.value, IsDeferred(req), body));
      if enqueue {
        StaysValid(o, Table(map[0 := Owes(id)]), queue);
        res := Send(o, id, sendOk);
      } else {
        res := Accepted(id);
      }
    }

    /** A call for no upload: the row is ready at once and its task is sent. */
    method CallWithoutFile(user: UserId, body: SdkRequest, sendOk: bool) returns (res: CallResult)
      requires Valid()
      modifies this`rows, this`hist, this`queue
      ensures Valid() && Leads(Next, old(Table(map[])), Table(map[]))
      ensures rows == old(rows) + [NewRow(user, "", body, true)]
      ensures if sendOk then res == Accepted(|old(rows)|) && queue == old(queue) + [res.id]
              else res == QueueError && queue == old(queue)
    {
      hide Leads, Reachable, QueueOk;
      ghost var o := Table(map[]);
      ReachableInv(o);
      WithoutFileTx(o, user, body);
      rows, hist := rows + [NewRow(user, "", body, true)], hist + [NewHistory.(commits := [body], owed := Some(0))];
      res := Send(o, |rows| - 1, sendOk);
    }

    /** Sends the task of a row, settling what the committed call owes. */
    method Send(ghost o: State, id: RowId, ok: bool) returns (res: CallResult)
      requires Reachable(o) && QueueOk(o.hist, queue)
      requires id < |rows| == |hist| && Leads(Next, o, Table(map[0 := Owes(id)]))
      modifies this`hist, this`queue
      ensures Valid() && Leads(Next, o, Table(map[]))
      ensures if ok then res == Accepted(id) && queue == old(queue) + [id] else res == QueueError && queue == old(queue)
    {
      hide Leads, Reachable;
      ghost var s := Table(map[0 := Owes(id)]);
      ghost var step := if ok then SendTask(0) else Stop(0);
      LeadsOn(Next, o, s, step);
      assert Do(s, step).agents == map[];
      assert Do(s, step).rows == rows;
      hist := Do(s, step).hist;
      StaysValid(o, Table(map[]), queue);
      if ok {
        queue := queue + [id];
        res := Accepted(id);
      } else {
        res := QueueError;
      }
    }

    /** Forklift's announcement that a file is ready. */
    method HandleMerge(d: Delivery, reply: SdkReply) returns (res: TaskResult)
      requires Valid()
      modifies this`rows, this`hist, this`dispatched
      ensures Valid() && Leads(Next, old(Table(map[])), Table(map[]))
      ensures match Newest(old(rows), d.user, d.upload)
              case None => res == Retry && rows == old(rows) && dispatched == old(dispatched)
              case Some(id) =>
                var aq := old(rows)[id];
                if !aq.ready then
                  && res == Completed && dispatched == old(dispatched)
                  && rows == old(rows)[id := aq.(fileReady := true, fileMeta := Some(EncodeMeta(d.meta)))]
                else if aq.status == Succeeded then
                  res == Completed && rows == old(rows) && dispatched == old(dispatched)
                else
                  && (res == Retry <==> reply.NetError?) && (res == Completed <==> reply.Result?)
                  && rows == old(rows)[id := aq.(status := if reply.Result? then Succeeded else Failed)]
                  && dispatched == old(dispatched) + [Outgoing(aq.body, BuildPatch(d.meta))]
                  && IsDispatch(dispatched[|old(dispatched)|], aq.body, Some(d.meta))
    {
      hide Outgoing, EncodeMeta, BuildPatch, Leads, Reachable, QueueOk, IsDispatch;
      ghost var o := Table(map[]);
      ReachableInv(o);
      var found := Newest(rows, d.user, d.upload);
      if found.None? {
        Stutter(Next, o);
        return Retry;
      }
      var id := found.value;
      var aq := rows[id];
      ghost var t := MergeTx(o, d, id);
      hist := t.hist;
      if !aq.ready {
        rows := rows[id := aq.(fileReady := true, fileMeta := Some(EncodeMeta(d.meta)))];
        StaysValid(o, Table(map[]), queue);
        return Completed;
      }
      if aq.status == Succeeded {
        StaysValid(o, Table(map[]), queue);
        return Completed;
      }
      res := RobustCall(o, id, aq, Some(d.meta), reply);
    }

    /** A task from the queue, which may deliver it more than once: the row is read, its stored
        metadata decoded, the SDK called. */
    method HandleQuery(id: RowId, reply: SdkReply) returns (res: TaskResult)
      requires Valid() && id in queue
      modifies this`rows, this`hist, this`dispatched
      ensures Valid() && Leads(Next, old(Table(map[])), Table(map[]))
      ensures id < |old(rows)| == |old(hist)|
      ensures (res == Retry <==> reply.NetError?) && (res == Completed <==> reply.Result?)
      ensures rows == old(rows)[id := old(rows)[id].(status := if reply.Result? then Succeeded else Failed)]
      ensures |dispatched| == |old(dispatched)| + 1 && dispatched[..|old(dispatched)|] == old(dispatched)
      ensures var aq, files := old(rows)[id], old(hist)[id].stored;
              if aq.upload == "" then IsDispatch(dispatched[|old(dispatched)|], aq.body, None)
              else && files != [] && aq.fileMeta == Some(EncodeMeta(files[|files| - 1]))
                   && IsDispatch(dispatched[|old(dispatched)|], aq.body, Some(files[|files| - 1]))
    {
      hide Outgoing, PatchOf, EncodeMeta, DecodeMeta, Reachable, Leads, IsDispatch;
      ghost var o := Table(map[]);
      ReachableInv(o);
      var aq := rows[id];
      QueuedRow(o, id);
      var meta := if aq.fileMeta.Some? then DecodeMeta(aq.fileMeta.value) else None;
      QueryTx(o, id);
      res := RobustCall(o, id, aq, meta, reply);
    }

    method RobustCall(ghost o: State, id: RowId, aq: Row, meta: Option<UploadMeta>, reply: SdkReply)
      returns (res: TaskResult)
      requires Reachable(o) && QueueOk(o.hist, queue)
      requires id < |rows| == |hist| && Leads(Next, o, Table(map[0 := Calling(id, aq, meta)]))
      modifies this`rows, this`hist, this`dispatched
      ensures Valid() && Leads(Next, o, Table(map[]))
      ensures rows == old(rows)[id := old(rows)[id].(status := if reply.Result? then Succeeded else Failed)]
      ensures dispatched == old(dispatched) + [Outgoing(aq.body, PatchOf(meta))]
      ensures IsDispatch(dispatched[|old(dispatched)|], aq.body, meta)
      ensures (res == Retry <==> reply.NetError?) && (res == Completed <==> reply.Result?)
    {
      hide Outgoing, Leads, Reachable, QueueOk, IsDispatch;
      ghost var s := Table(map[0 := Calling(id, aq, meta)]);
      CallAndFinalize(o, s, 0, id, aq, meta, reply == Result);
      var request := PrepareRequest(aq.body, PatchOf(meta));
      DispatchOf(aq.body, meta);
      dispatched := dispatched + [request];
      hist := AfterCall(s, id, aq.body, meta, reply == Result).hist;
      FinalizeQueryRecord(id, OutcomeOf(reply));
      StaysValid(o, Table(map[]), queue);
      res := TaskResultOf(reply);
    }

    /** Reads the row and writes all of it back with its new status. */
    method FinalizeQueryRecord(id: RowId, outcome: Status)
      requires id < |rows|
      modifies this`rows
      ensures rows == old(rows)[id := old(rows)[id].(status := outcome)]
    {
      var q := rows[id];
      rows := rows[id := q.(status := outcome)];
    }
  }

  lemma WithoutFileTx(o: State, user: UserId, req: SdkRequest)
    requires RowsMatch(o) && o.agents == map[]
    ensures Leads(Next, o, State(o.rows + [NewRow(user, "", req, true)],
                           o.hist + [NewHistory.(commits := [req], owed := Some(0))], map[0 := Owes(|o.rows|)]))
  {
    Stutter(Next, o);
    LeadsOn(Next, o, o, CallWithoutFile(0, user, req));
  }

  lemma MergeTx(o: State, d: Delivery, id: RowId) returns (t: State)
    requires RowsMatch(o) && o.agents == map[] && Newest(o.rows, d.user, d.upload) == Some(id)
    ensures Leads(Next, o, t) && RowsMatch(t)
    ensures t.rows == if o.rows[id].ready then o.rows
                      else o.rows[id := o.rows[id].(fileReady := true, fileMeta := Some(EncodeMeta(d.meta)))]
    ensures t.agents == if o.rows[id].ready && o.rows[id].status != Succeeded
                        then map[0 := Calling(id, o.rows[id], Some(d.meta))] else map[]
  {
    hide EncodeMeta;
    Stutter(Next, o);
    var s := MergeAlone(o, o, 0, d, id);
    LeadsOn(Next, o, s, CommitMerge(0));
    t := Do(s, CommitMerge(0));
    assert t.agents.Keys <= {0};
  }

  function LastStored(h: History): Option<UploadMeta>
  {
    if h.stored == [] then None else Some(h.stored[|h.stored| - 1])
  }

  /** What a worker finds on a queued row: metadata unless the row is for no upload, decodable. */
  lemma QueuedRow(o: State, id: RowId)
    requires Reachable(o) && RowsMatch(o) && id < |o.rows| && o.hist[id].queued > 0
    ensures o.rows[id].fileMeta.None? <==> o.hist[id].stored == []
    ensures o.rows[id].fileMeta.Some? ==> DecodeMeta(o.rows[id].fileMeta.value) == LastStored(o.hist[id])
    ensures o.hist[id].stored == [] <==> o.rows[id].upload == ""
  {
    hide EncodeMeta, DecodeMeta, SentsInv, PcInv;
    ReachableInv(o);
    RowOf(o, id);
    if o.hist[id].stored != [] {
      MetaRoundTrip(LastStored(o.hist[id]).value);
    }
  }

  lemma QueryTx(o: State, id: RowId)
    requires Reachable(o) && RowsMatch(o) && o.agents == map[] && id < |o.rows| && o.hist[id].queued > 0
    ensures Leads(Next, o, o.(agents := map[0 := Calling(id, o.rows[id], LastStored(o.hist[id]))]))
  {
    hide DecodeMeta;
    QueuedRow(o, id);
    Stutter(Next, o);
    LeadsOn(Next, o, o, BeginQuery(0, id));
    var t := Do(o, BeginQuery(0, id));
    LeadsOn(Next, o, t, ReadQuery(0));
    assert Do(t, ReadQuery(0)).agents == map[0 := Calling(id, o.rows[id], LastStored(o.hist[id]))];
  }
}
