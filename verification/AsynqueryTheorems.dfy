/** What the asynquery protocol guarantees over whole runs. */
module AsynqueryTheorems {
  import opened Text
  import opened StepSystems
  import opened Tasks
  import opened Asynquery
  import opened AsynquerySafety

  ghost predicate Reachable(s: State) { Leads(Next, Init, s) }

  lemma ReachableInv(s: State)
    requires Reachable(s)
    ensures Inv(s)
  {
    var steps :| Runs(Next, Init, steps, s);
    RunKeeps(Init, steps, s);
  }

  // ---- rendezvous of commit and file ----

  function Deliveries(h: History): nat { |h.stored| + |h.fired| + h.dropped }

  /** Everything that starts, will start or should have started the SDK call for a row: a task sent,
      owed or lost by the committing call, and a delivery that fired. */
  function Triggers(h: History): nat { Owed(h) + h.queued + h.lost + |h.fired| }

  /** In every reachable state the triggers of an upload's row are exactly these: none before the
      commit; after it one for all the files stored before it, and one per delivery after it until the
      row has succeeded. A delivery is dropped only after another one was kept. */
  lemma TriggerLaw(s: State, id: RowId)
    requires Reachable(s) && id < |s.rows| && s.rows[id].upload != ""
    ensures RowsMatch(s)
    ensures !s.rows[id].ready ==> Triggers(s.hist[id]) == 0
    ensures s.rows[id].ready ==>
              Triggers(s.hist[id]) == (if s.hist[id].stored == [] then 0 else 1) + |s.hist[id].fired|
    ensures s.hist[id].dropped > 0 ==> s.hist[id].stored != [] || s.hist[id].fired != []
  {
    hide Outgoing, EncodeMeta, SentsInv, PcInv;
    ReachableInv(s);
    assert RowInv(s.rows[id], s.hist[id]);
  }

  /** Rendezvous: with one delivery that found the row, a committed row has exactly one trigger,
      whichever came first; without a delivery it has none. */
  lemma Rendezvous(s: State, id: RowId)
    requires Reachable(s) && id < |s.rows| && s.rows[id].upload != ""
    ensures RowsMatch(s)
    ensures s.rows[id].ready && Deliveries(s.hist[id]) == 1 ==> Triggers(s.hist[id]) == 1
    ensures Deliveries(s.hist[id]) == 0 ==> Triggers(s.hist[id]) == 0
  {
    TriggerLaw(s, id);
  }

  /** The same for an upload with a committed newest row and one delivery in all: there is exactly one
      trigger, on the row the delivery found. So the newest commit is started exactly if the delivery
      found its row; otherwise it found an older one, which has failed. */
  lemma UploadRendezvous(s: State, id: RowId, x: RowId)
    requires Reachable(s) && RowsMatch(s) && id < |s.rows| && s.rows[id].upload != "" && s.rows[id].ready
    requires IsNewest(s.rows, s.rows[id].user, s.rows[id].upload, id)
    requires x in RowsOf(s, s.rows[id].user, s.rows[id].upload)
    requires Deliveries(s.hist[x]) == 1
    requires forall y :: y in RowsOf(s, s.rows[id].user, s.rows[id].upload) && y != x ==> Deliveries(s.hist[y]) == 0
    ensures Triggers(s.hist[x]) == 1
    ensures forall y :: y in RowsOf(s, s.rows[id].user, s.rows[id].upload) && y != x ==> Triggers(s.hist[y]) == 0
    ensures Triggers(s.hist[id]) == 1 <==> x == id
    ensures x != id ==> x < id && s.hist[x].everFailed
  {
    hide RowInv, PcInv;
    ReachableInv(s);
    RowOf(s, x);
    EverFailed(s.rows[x], s.hist[x]);
    TriggerLaw(s, x);
    forall y | y in RowsOf(s, s.rows[id].user, s.rows[id].upload) && y != x ensures Triggers(s.hist[y]) == 0 {
      TriggerLaw(s, y);
    }
  }

  lemma EverFailed(r: Row, h: History)
    requires RowInv(r, h)
    ensures h.everFailed ==> r.ready
  {
  }

  /** While none of its rows has failed, an upload has one row at most. */
  lemma UnfailedUpload(s: State, id: RowId)
    requires Reachable(s) && id < |s.rows| && s.rows[id].upload != "" && RowsMatch(s)
    requires FailedOf(s, s.rows[id].user, s.rows[id].upload) == {}
    ensures RowsOf(s, s.rows[id].user, s.rows[id].upload) == {id}
  {
    var all := RowsOf(s, s.rows[id].user, s.rows[id].upload);
    RowsBounded(s, s.rows[id].user, s.rows[id].upload);
    assert id in all;
    if x :| x in all && x != id {
      Smaller({id, x}, all);
    }
  }

  /** Committing a draft leaves a task to send exactly when a file was stored before. */
  lemma CommitEnqueuesIffStored(s: State, a: AgentId)
    requires Reachable(s) && Enabled(s, CommitCall(a)) && CallWrite(s.agents[a].call, s.agents[a].found).Commit?
    ensures var id := s.agents[a].found.id; var t := Do(s, CommitCall(a));
            t.rows[id].ready && ((a in t.agents && t.agents[a] == Owes(id)) <==> s.hist[id].stored != [])
  {
    hide EncodeMeta, SentsInv;
    ReachableInv(s);
    PcOf(s, a);
    RowOf(s, s.agents[a].found.id);
  }

  /** A delivery goes on to call the SDK exactly when a non-deferred call came before it and the row
      has not succeeded; it is stored exactly when none did. */
  lemma MergeFiresIffCommitted(s: State, a: AgentId)
    requires Reachable(s) && Enabled(s, CommitMerge(a))
    ensures var id := s.agents[a].id; var t := Do(s, CommitMerge(a));
            && ((a in t.agents && t.agents[a].Calling?) <==> s.hist[id].commits != [] && s.rows[id].status != Succeeded)
            && (t.hist[id].stored != s.hist[id].stored <==> s.hist[id].commits == [])
  {
    hide EncodeMeta, SentsInv;
    ReachableInv(s);
    PcOf(s, a);
    RowOf(s, s.agents[a].id);
  }

  /** A committed row whose file is stored has had its task sent, except exactly when the sending is
      still owed or was lost. */
  lemma QueuedUnlessLost(s: State, id: RowId)
    requires Reachable(s) && id < |s.rows| && s.rows[id].upload != "" && s.rows[id].ready && s.rows[id].fileReady
    ensures RowsMatch(s)
    ensures s.hist[id].queued == 1 <==> s.hist[id].owed.None? && s.hist[id].lost == 0
  {
    hide Outgoing, EncodeMeta, SentsInv, PcInv;
    ReachableInv(s);
    assert RowInv(s.rows[id], s.hist[id]);
  }

  // ---- ready rows are final but for their status ----

  /** Once a row is committed, no later step, the unlocked whole-row write included, changes its
      owner, body, flags or stored metadata; and no row is finalised before it is committed. */
  lemma ReadyRowsStay(s: State, steps: seq<Step>, t: State, id: RowId)
    requires Reachable(s) && Runs(Next, s, steps, t) && id < |s.rows|
    ensures id < |t.rows| && s.rows[id].user == t.rows[id].user && s.rows[id].upload == t.rows[id].upload
    ensures s.rows[id].ready ==> Frozen(s.rows[id], t.rows[id])
    ensures t.rows[id].status != Received ==> t.rows[id].ready
  {
    hide Outgoing, EncodeMeta, SentsInv, PcInv;
    ReachableInv(s);
    RunKeeps(s, steps, t);
    assert RowInv(t.rows[id], t.hist[id]);
  }

  // ---- number of rows ----

  /** The rows of an upload, and those of them that have ever been failed. */
  function RowsOf(s: State, user: UserId, upload: string): set<RowId>
  {
    set id: RowId | 0 <= id < |s.rows| && Owns(s.rows[id], user, upload)
  }

  function FailedOf(s: State, user: UserId, upload: string): set<RowId>
    requires RowsMatch(s)
  {
    set id: RowId | 0 <= id < |s.rows| && Owns(s.rows[id], user, upload) && s.hist[id].everFailed
  }

  /** An upload never has more rows than one plus the number of its rows that ever failed, whatever
      number of calls raced; so without a failure there is one row at most. */
  lemma RowsBounded(s: State, user: UserId, upload: string)
    requires Reachable(s) && upload != ""
    ensures RowsMatch(s)
    ensures |RowsOf(s, user, upload)| <= 1 + |FailedOf(s, user, upload)|
  {
    hide RowInv, PcInv;
    ReachableInv(s);
    var all, failed := RowsOf(s, user, upload), FailedOf(s, user, upload);
    match Newest(s.rows, user, upload) {
      case None =>
        assert all == {};
      case Some(last) =>
        assert all <= failed + {last};
        Smaller(all, failed + {last});
    }
  }

  lemma {:induction false} Smaller(a: set<RowId>, b: set<RowId>)
    requires a <= b
    ensures |a| <= |b|
  {
    if a != {} {
      var x :| x in a;
      Smaller(a - {x}, b - {x});
    }
  }

  // ---- what is dispatched ----

  /** Everything the SDK ever received for a row comes from the first non-deferred call on it. */
  lemma DispatchesCommitted(s: State, id: RowId, i: nat)
    requires Reachable(s) && id < |s.rows| && RowsMatch(s) && i < |s.hist[id].sent|
    ensures s.rows[id].ready && s.hist[id].commits != []
    ensures s.hist[id].sent[i].request == Outgoing(s.hist[id].commits[0], PatchOf(s.hist[id].sent[i].meta))
    ensures IsDispatch(s.hist[id].sent[i].request, s.hist[id].commits[0], s.hist[id].sent[i].meta)
    ensures match s.hist[id].sent[i].meta
            case Some(m) => Delivered(s.hist[id], m)
            case None => s.rows[id].upload == ""
    ensures Started(s.hist[id], s.hist[id].sent[i].meta)
  {
    hide Outgoing, EncodeMeta, PcInv, IsDispatch;
    ReachableInv(s);
    DispatchOf(s.hist[id].commits[0], s.hist[id].sent[i].meta);
    assert RowInv(s.rows[id], s.hist[id]);
    assert SentInv(s.rows[id], s.hist[id], s.hist[id].sent[i]);
  }

  /** Order confluence: take any two runs, in any two orders of draft, delivery and commit. If a row
      of each has the same committing request and only ever got the same metadata, the SDK receives
      the same request from both: through the stored, re-read metadata or straight from the task. */
  lemma OrderConfluence(s: State, id: RowId, i: nat, t: State, jd: RowId, j: nat, m: UploadMeta)
    requires Reachable(s) && RowsMatch(s) && id < |s.rows| && i < |s.hist[id].sent|
    requires Reachable(t) && RowsMatch(t) && jd < |t.rows| && j < |t.hist[jd].sent|
    requires s.rows[id].upload != "" && t.rows[jd].upload != "" && s.hist[id].commits != [] && t.hist[jd].commits != []
    requires s.hist[id].commits[0] == t.hist[jd].commits[0]
    requires forall x :: Delivered(s.hist[id], x) || Delivered(t.hist[jd], x) ==> x == m
    ensures s.hist[id].sent[i].request == t.hist[jd].sent[j].request == Outgoing(s.hist[id].commits[0], BuildPatch(m))
  {
    hide Outgoing, BuildPatch;
    DispatchesCommitted(s, id, i);
    DispatchesCommitted(t, jd, j);
  }

  /** A task that could not be sent is never made up for: no run sends it later, and whatever the SDK
      ever receives for the row was started by a delivery that fired. */
  lemma LostTaskStays(s: State, t: State, id: RowId)
    requires Reachable(s) && Leads(Next, s, t) && RowsMatch(s) && id < |s.rows| && s.hist[id].lost > 0
    ensures RowsMatch(t) && id < |t.rows| && t.hist[id].queued == 0 && t.hist[id].owed.None?
    ensures forall i :: 0 <= i < |t.hist[id].sent| ==>
              t.hist[id].sent[i].meta.Some? && t.hist[id].sent[i].meta.value in t.hist[id].fired
  {
    hide Outgoing, EncodeMeta, PcInv;
    ReachableInv(s);
    var steps :| Runs(Next, s, steps, t);
    RunKeeps(s, steps, t);
    LeadsThrough(Next, Init, s, t);
    RowOf(t, id);
    assert t.hist[id].lost >= s.hist[id].lost;
    forall i | 0 <= i < |t.hist[id].sent|
      ensures t.hist[id].sent[i].meta.Some? && t.hist[id].sent[i].meta.value in t.hist[id].fired
    {
      DispatchesCommitted(t, id, i);
    }
  }

  // ---- runs that show what can happen ----

  /** The steps of a call that runs alone, up to its commit. */
  lemma CallAlone(o: State, s: State, a: AgentId, c: Call) returns (t: State)
    requires Leads(Next, o, s) && RowsMatch(s) && s.agents == map[] && c.upload != ""
    ensures Leads(Next, o, t) && t.rows == s.rows && t.hist == s.hist
    ensures match Newest(s.rows, c.user, c.upload)
            case None => t.agents == map[a := CallHolding(c, NoRow)]
            case Some(id) => t.agents == map[a := CallHolding(c, Found(id, s.rows[id]))]
  {
    hide Leads;
    LeadsOn(Next, o, s, BeginCall(a, c));
    t := Do(s, BeginCall(a, c));
    LeadsOn(Next, o, t, LockUser(a));
    t := Do(t, LockUser(a));
    LeadsOn(Next, o, t, SelectRow(a));
    t := Do(t, SelectRow(a));
    if t.agents[a].CallPicked? {
      LeadsOn(Next, o, t, LockRow(a));
      t := Do(t, LockRow(a));
    }
  }

  lemma MergeAlone(o: State, s: State, a: AgentId, d: Delivery, id: RowId) returns (t: State)
    requires Leads(Next, o, s) && RowsMatch(s) && s.agents == map[] && Newest(s.rows, d.user, d.upload) == Some(id)
    ensures Leads(Next, o, t) && t.rows == s.rows && t.hist == s.hist
    ensures t.agents == map[a := MergeHolding(d, id, s.rows[id])]
  {
    hide Leads;
    LeadsOn(Next, o, s, BeginMerge(a, d));
    t := Do(s, BeginMerge(a, d));
    LeadsOn(Next, o, t, SelectRow(a));
    t := Do(t, SelectRow(a));
    LeadsOn(Next, o, t, LockRow(a));
    t := Do(t, LockRow(a));
  }

  lemma DraftAlone(user: UserId, upload: string, req: SdkRequest) returns (s: State)
    requires upload != ""
    ensures Reachable(s) && s == State([NewRow(user, upload, req, false)], [NewHistory], map[])
  {
    hide Leads;
    Stutter(Next, Init);
    s := CallAlone(Init, Init, 0, Call(user, upload, true, req));
    LeadsOn(Next, Init, s, CommitCall(0));
    s := Do(s, CommitCall(0));
    assert s.agents == map[];
  }

  /** A draft, then its file. */
  lemma DraftThenFile(user: UserId, upload: string, req: SdkRequest, meta: UploadMeta) returns (s: State)
    requires upload != ""
    ensures Reachable(s) && s.agents == map[] && |s.rows| == |s.hist| == 1
    ensures s.rows[0] == NewRow(user, upload, req, false).(fileReady := true, fileMeta := Some(EncodeMeta(meta)))
    ensures s.hist[0] == NewHistory.(stored := [meta])
  {
    hide EncodeMeta, Leads;
    s := DraftAlone(user, upload, req);
    s := MergeAlone(Init, s, 1, Delivery(user, upload, meta), 0);
    LeadsOn(Next, Init, s, CommitMerge(1));
    s := Do(s, CommitMerge(1));
    assert s.agents == map[];
  }

  /** A worker that calls the SDK and finalises with nothing in between. */
  lemma CallAndFinalize(o: State, s: State, a: AgentId, id: RowId, aq: Row, meta: Option<UploadMeta>, ok: bool)
    requires Leads(Next, o, s) && RowsMatch(s) && id < |s.rows| && s.agents == map[a := Calling(id, aq, meta)]
    ensures Leads(Next, o, AfterCall(s, id, aq.body, meta, ok))
  {
    hide Outgoing, PatchOf, Leads;
    LeadsOn(Next, o, s, CallSdk(a, ok));
    var t := Do(s, CallSdk(a, ok));
    LeadsOn(Next, o, t, ReadFinal(a));
    t := Do(t, ReadFinal(a));
    LeadsOn(Next, o, t, WriteFinal(a));
    t := Do(t, WriteFinal(a));
    assert t.agents == map[];
    assert t.rows == AfterCall(s, id, aq.body, meta, ok).rows;
    assert t.hist == AfterCall(s, id, aq.body, meta, ok).hist;
  }

  function AfterCall(s: State, id: RowId, body: SdkRequest, meta: Option<UploadMeta>, ok: bool): State
    requires RowsMatch(s) && id < |s.rows|
  {
    var h := s.hist[id];
    State(s.rows[id := s.rows[id].(status := if ok then Succeeded else Failed)],
          s.hist[id := h.(sent := h.sent + [Sent(Outgoing(body, PatchOf(meta)), meta)],
                          everFailed := h.everFailed || !ok)],
          map[])
  }

  /** A delivery to a committed row that has not succeeded, and the SDK call it starts. */
  lemma FireAlone(o: State, s: State, a: AgentId, d: Delivery, id: RowId, ok: bool) returns (t: State)
    requires Leads(Next, o, s) && RowsMatch(s) && s.agents == map[] && Newest(s.rows, d.user, d.upload) == Some(id)
    requires s.rows[id].ready && s.rows[id].status != Succeeded
    ensures Leads(Next, o, t) && RowsMatch(t)
    ensures var u := SetRow(s, id, s.rows[id], s.hist[id].(fired := s.hist[id].fired + [d.meta]));
            t == AfterCall(u, id, s.rows[id].body, Some(d.meta), ok)
  {
    hide Leads, Outgoing, PatchOf;
    t := MergeAlone(o, s, a, d, id);
    LeadsOn(Next, o, t, CommitMerge(a));
    t := Do(t, CommitMerge(a));
    CallAndFinalize(o, t, a, id, s.rows[id], Some(d.meta), ok);
    t := AfterCall(t, id, s.rows[id].body, Some(d.meta), ok);
  }

  /** A failed enqueue leaves a committed row with its file stored and no task: draft, delivery,
      commit, then the sending fails. */
  lemma EnqueueCanBeLost(user: UserId, upload: string, req: SdkRequest, meta: UploadMeta) returns (s: State)
    requires upload != ""
    ensures Reachable(s) && RowsMatch(s) && |s.rows| == 1 && s.agents == map[]
    ensures Owns(s.rows[0], user, upload) && s.rows[0].ready && s.rows[0].fileReady && s.rows[0].status == Received
    ensures s.hist[0].queued == 0 && s.hist[0].lost == 1 && s.hist[0].sent == []
  {
    hide EncodeMeta, Leads;
    s := DraftThenFile(user, upload, req, meta);
    s := CallAlone(Init, s, 2, Call(user, upload, false, req));
    LeadsOn(Next, Init, s, CommitCall(2));
    s := Do(s, CommitCall(2));
    LeadsOn(Next, Init, s, Stop(2));
    s := Do(s, Stop(2));
  }

  /** Only a delivery can still start the SDK call of such a row: announced once more, it does. */
  lemma LostRowCanFire(user: UserId, upload: string, req: SdkRequest, meta: UploadMeta) returns (s: State)
    requires upload != ""
    ensures Reachable(s) && RowsMatch(s) && |s.rows| == 1
    ensures s.hist[0].lost == 1 && s.hist[0].queued == 0 && |s.hist[0].sent| == 1
  {
    hide Leads, Outgoing, PatchOf;
    s := EnqueueCanBeLost(user, upload, req, meta);
    s := FireAlone(Init, s, 3, Delivery(user, upload, meta), 0, true);
  }

  /** Why the delivery must find the newest row: the only one finds a row whose SDK call fails; the
      next commit makes a row of its own, which is committed and waits for a file nobody announces. */
  lemma RetryLeftWaiting(user: UserId, upload: string, req: SdkRequest, meta: UploadMeta) returns (s: State)
    requires upload != ""
    ensures Reachable(s) && RowsMatch(s) && |s.rows| == 2 && s.agents == map[]
    ensures Owns(s.rows[0], user, upload) && Deliveries(s.hist[0]) == 1 && s.hist[0].everFailed
    ensures Owns(s.rows[1], user, upload) && s.rows[1].ready && Triggers(s.hist[1]) == 0
  {
    hide Leads, Outgoing, PatchOf;
    Stutter(Next, Init);
    s := CallAlone(Init, Init, 0, Call(user, upload, false, req));
    LeadsOn(Next, Init, s, CommitCall(0));
    s := Do(s, CommitCall(0));
    assert s == State([NewRow(user, upload, req, true)], [NewHistory.(commits := [req])], map[]);
    s := FireAlone(Init, s, 1, Delivery(user, upload, meta), 0, false);
    s := RetryAlone(s, user, upload, req);
  }

  lemma RetryAlone(s: State, user: UserId, upload: string, req: SdkRequest) returns (t: State)
    requires Reachable(s) && RowsMatch(s) && s.agents == map[] && upload != "" && |s.rows| == 1
    requires Owns(s.rows[0], user, upload) && s.rows[0].status == Failed
    ensures Reachable(t)
    ensures t == State(s.rows + [NewRow(user, upload, req, true)], s.hist + [NewHistory.(commits := [req])], map[])
  {
    hide Leads;
    t := CallAlone(Init, s, 2, Call(user, upload, false, req));
    LeadsOn(Next, Init, t, CommitCall(2));
    t := Do(t, CommitCall(2));
    assert t.agents == map[];
  }
}
