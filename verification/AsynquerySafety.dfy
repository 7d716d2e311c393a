/** The invariant of the asynquery protocol and the proof that every step keeps it. */
module AsynquerySafety {
  import opened Text
  import opened StepSystems
  import opened Tasks
  import opened Asynquery

  // ---- the invariant ----

  /** Equal but for the status. */
  predicate Frozen(r: Row, t: Row) { t.(status := r.status) == r }

  predicate Delivered(h: History, m: UploadMeta) { m in h.stored || m in h.fired }

  /** What may start an SDK call: a task that was sent, with metadata that was stored if there is any,
      or a delivery that fired. */
  predicate Started(h: History, meta: Option<UploadMeta>)
  {
    match meta
    case None => h.queued > 0
    case Some(m) => m in h.fired || (m in h.stored && h.queued > 0)
  }

  function Owed(h: History): nat { if h.owed.Some? then 1 else 0 }

  /** A file was delivered and kept, unless the row is for no upload. */
  predicate HasFile(r: Row, h: History) { r.upload == "" || h.stored != [] || h.fired != [] }

  /** Where a row stands between its draft, its commit and its file. */
  ghost predicate RowInv(r: Row, h: History)
  {
    && (r.ready <==> h.commits != [])
    && (r.ready ==> r.body == h.commits[0])
    && (r.fileReady <==> h.stored != [])
    && r.fileMeta == (if h.stored == [] then None else Some(EncodeMeta(h.stored[|h.stored| - 1])))
    && (h.fired != [] || h.dropped > 0 || h.sent != [] || h.everFailed || r.status != Received ==> r.ready)
    && (r.status == Received || r.status == Succeeded || (r.status == Failed && h.everFailed))
    && (h.dropped > 0 || r.status != Received ==> HasFile(r, h))
    && (r.upload == "" ==> r.ready && !r.fileReady)
    && Owed(h) + h.queued + h.lost == (if r.upload == "" || (r.ready && r.fileReady) then 1 else 0)
    && SentsInv(r, h)
  }

  ghost predicate SentsInv(r: Row, h: History)
  {
    forall i :: 0 <= i < |h.sent| ==> SentInv(r, h, h.sent[i])
  }

  /** A dispatch carries the committed body, patched with metadata that was delivered for the row. */
  ghost predicate SentInv(r: Row, h: History, x: Sent)
  {
    && x.request == Outgoing(r.body, PatchOf(x.meta))
    && Started(h, x.meta) && (x.meta.None? ==> r.upload == "")
  }

  ghost predicate PcInv(s: State, a: AgentId, pc: Pc)
    requires RowsMatch(s)
  {
    match pc
    case CallBegun(c) => c.upload != ""
    case CallLocked(c) => c.upload != ""
    case CallPicked(c, id) => c.upload != "" && IsNewest(s.rows, c.user, c.upload, id)
    case CallHolding(c, NoRow) => c.upload != "" && NoneOwned(s.rows, c.user, c.upload)
    case CallHolding(c, Found(id, aq)) =>
      c.upload != "" && IsNewest(s.rows, c.user, c.upload, id) && aq == s.rows[id]
    case Owes(id) => id < |s.rows| && s.hist[id].owed == Some(a)
    case MergeBegun(d) => true
    case MergePicked(d, id) => id < |s.rows| && Owns(s.rows[id], d.user, d.upload)
    case MergeHolding(d, id, aq) => id < |s.rows| && Owns(s.rows[id], d.user, d.upload) && aq == s.rows[id]
    case QueryBegun(id) => id < |s.rows| && s.hist[id].queued > 0
    case Calling(id, aq, meta) =>
      && id < |s.rows| && s.rows[id].ready && Frozen(aq, s.rows[id])
      && Started(s.hist[id], meta) && (meta.None? ==> aq.upload == "")
    case Finalizing(id, o) =>
      && id < |s.rows| && s.rows[id].ready && HasFile(s.rows[id], s.hist[id])
      && (o == Succeeded || o == Failed)
    case Writing(id, aq, o) =>
      && id < |s.rows| && s.rows[id].ready && Frozen(aq, s.rows[id]) && HasFile(s.rows[id], s.hist[id])
      && (o == Succeeded || o == Failed)
  }

  ghost predicate RowsInv(s: State)
    requires RowsMatch(s)
  {
    forall id :: 0 <= id < |s.rows| ==> RowInv(s.rows[id], s.hist[id])
  }

  ghost predicate AgentsInv(s: State)
    requires RowsMatch(s)
  {
    forall a :: a in s.agents ==> PcInv(s, a, s.agents[a])
  }

  ghost predicate OwedInv(s: State)
    requires RowsMatch(s)
  {
    forall id :: 0 <= id < |s.rows| && s.hist[id].owed.Some? ==>
      s.hist[id].owed.value in s.agents && s.agents[s.hist[id].owed.value] == Owes(id)
  }

  /** Every row of an upload but the newest has failed at some time. */
  ghost predicate PairsInv(s: State)
    requires RowsMatch(s)
  {
    forall i, j :: 0 <= i < j < |s.rows| && s.rows[j].upload != "" && Owns(s.rows[i], s.rows[j].user, s.rows[j].upload)
      ==> s.hist[i].everFailed
  }

  ghost predicate Disjoint(p: Pc, q: Pc)
  {
    && (forall u :: !(HoldsUser(p, u) && HoldsUser(q, u)))
    && (forall id :: !(HoldsRow(p, id) && HoldsRow(q, id)))
  }

  ghost predicate LocksInv(s: State)
  {
    forall a, b :: a in s.agents && b in s.agents && a != b ==> Disjoint(s.agents[a], s.agents[b])
  }

  ghost predicate Inv(s: State)
  {
    RowsMatch(s) && RowsInv(s) && AgentsInv(s) && OwedInv(s) && PairsInv(s) && LocksInv(s)
  }

  // ---- how rows evolve ----

  ghost predicate RowGrows(r: Row, t: Row)
  {
    t.user == r.user && t.upload == r.upload && (r.ready ==> Frozen(r, t))
  }

  ghost predicate HistoryGrows(h: History, k: History)
  {
    && h.commits <= k.commits && h.stored <= k.stored && h.fired <= k.fired && h.dropped <= k.dropped
    && h.queued <= k.queued && h.lost <= k.lost && (h.everFailed ==> k.everFailed) && h.sent <= k.sent
  }

  ghost predicate Evolves(s: State, t: State)
  {
    && RowsMatch(s) && RowsMatch(t) && |s.rows| <= |t.rows|
    && forall id :: 0 <= id < |s.rows| ==> RowGrows(s.rows[id], t.rows[id]) && HistoryGrows(s.hist[id], t.hist[id])
  }

  lemma EvolvesTransitive(s: State, t: State, u: State)
    requires Evolves(s, t) && Evolves(t, u)
    ensures Evolves(s, u)
  {
  }

  /** Steps of one agent leave the others' facts alone while they respect the others' locks. */
  lemma PcStable(s: State, t: State, b: AgentId, pc: Pc)
    requires Evolves(s, t) && PcInv(s, b, pc)
    requires forall id :: 0 <= id < |s.rows| && HoldsRow(pc, id) ==> t.rows[id] == s.rows[id]
    requires forall j :: |s.rows| <= j < |t.rows| && t.rows[j].upload != "" ==> !HoldsUser(pc, t.rows[j].user)
    requires forall id :: 0 <= id < |s.rows| && pc == Owes(id) ==> t.hist[id].owed == s.hist[id].owed
    ensures PcInv(t, b, pc)
  {
  }

  // ---- the three kinds of step ----

  ghost predicate OnlyAgent(s: State, t: State, a: AgentId)
  {
    && (forall b :: b in t.agents && b != a ==> b in s.agents && t.agents[b] == s.agents[b])
    && (forall b :: b in s.agents && b != a ==> b in t.agents)
  }

  /** The locks the agent has after the step were its own or free. */
  ghost predicate LocksTaken(s: State, t: State, a: AgentId)
  {
    a in t.agents ==>
      && (forall u :: HoldsUser(t.agents[a], u) ==> (a in s.agents && HoldsUser(s.agents[a], u)) || UserFree(s, u))
      && (forall id :: HoldsRow(t.agents[a], id) ==> (a in s.agents && HoldsRow(s.agents[a], id)) || RowFree(s, id))
  }

  lemma LocksStay(s: State, t: State, a: AgentId)
    requires LocksInv(s) && OnlyAgent(s, t, a) && LocksTaken(s, t, a)
    ensures LocksInv(t)
  {
  }

  /** The step leaves locked rows and locked users' uploads alone, and the debts of other agents. */
  ghost predicate Respects(s: State, t: State, b: AgentId)
    requires RowsMatch(s) && RowsMatch(t) && |s.rows| <= |t.rows| && b in s.agents
  {
    && (forall id :: 0 <= id < |s.rows| && HoldsRow(s.agents[b], id) ==> t.rows[id] == s.rows[id])
    && (forall j :: |s.rows| <= j < |t.rows| && t.rows[j].upload != "" ==> !HoldsUser(s.agents[b], t.rows[j].user))
    && (forall id :: 0 <= id < |s.rows| && s.hist[id].owed == Some(b) ==> t.hist[id].owed == Some(b))
  }

  lemma AgentsStay(s: State, t: State, a: AgentId)
    requires RowsMatch(s) && AgentsInv(s) && Evolves(s, t) && OnlyAgent(s, t, a)
    requires forall b :: b in s.agents && b != a ==> Respects(s, t, b)
    requires a in t.agents ==> PcInv(t, a, t.agents[a])
    ensures AgentsInv(t)
  {
    forall b | b in t.agents ensures PcInv(t, b, t.agents[b]) {
      if b != a {
        assert b in s.agents && PcInv(s, b, s.agents[b]) && Respects(s, t, b);
        PcStable(s, t, b, t.agents[b]);
      }
    }
  }

  /** A step that touches no row. */
  lemma AgentStep(s: State, t: State, a: AgentId)
    requires Inv(s) && t.rows == s.rows && t.hist == s.hist && OnlyAgent(s, t, a) && LocksTaken(s, t, a)
    requires a in s.agents ==> !s.agents[a].Owes?
    requires a in t.agents ==> PcInv(t, a, t.agents[a])
    ensures Inv(t) && Evolves(s, t)
  {
    hide RowInv, PcInv;
    LocksStay(s, t, a);
    AgentsStay(s, t, a);
    forall id | 0 <= id < |t.rows| && t.hist[id].owed.Some?
      ensures t.hist[id].owed.value in t.agents && t.agents[t.hist[id].owed.value] == Owes(id)
    {
      var b := s.hist[id].owed.value;
      assert b in s.agents && s.agents[b] == Owes(id);
    }
  }

  /** What an update of one row must satisfy. */
  ghost predicate Updates(s: State, t: State, id: RowId)
  {
    && RowsMatch(s) && RowsMatch(t) && |t.rows| == |s.rows| && id < |s.rows|
    && (forall j :: 0 <= j < |s.rows| && j != id ==> t.rows[j] == s.rows[j] && t.hist[j] == s.hist[j])
    && RowGrows(s.rows[id], t.rows[id]) && HistoryGrows(s.hist[id], t.hist[id])
    && RowInv(t.rows[id], t.hist[id])
  }

  lemma UpdateRows(s: State, t: State, id: RowId)
    requires Updates(s, t, id) && RowsInv(s) && PairsInv(s)
    ensures RowsInv(t) && PairsInv(t) && Evolves(s, t)
  {
  }

  lemma OwedStay(s: State, t: State, a: AgentId, id: RowId)
    requires Updates(s, t, id) && OwedInv(s) && OnlyAgent(s, t, a)
    requires a in s.agents && s.agents[a].Owes? ==> s.agents[a].id == id
    requires match t.hist[id].owed
             case Some(b) =>
               if b == a then a in t.agents && t.agents[a] == Owes(id) else s.hist[id].owed == Some(b)
             case None => true
    ensures OwedInv(t)
  {
  }

  /** A step that changes one row or its history and the one agent. The row is locked by no other
      agent or does not change; the debt of sending its task stays, is taken on, or is settled. */
  lemma UpdateStep(s: State, t: State, a: AgentId, id: RowId)
    requires Inv(s) && Updates(s, t, id) && OnlyAgent(s, t, a) && LocksTaken(s, t, a) && a in s.agents
    requires t.rows[id] == s.rows[id] || forall b :: b in s.agents && b != a ==> !HoldsRow(s.agents[b], id)
    requires s.agents[a].Owes? ==> s.agents[a].id == id
    requires a in t.agents ==> PcInv(t, a, t.agents[a])
    requires t.hist[id].owed == Some(a) <==> a in t.agents && t.agents[a] == Owes(id)
    requires t.hist[id].owed == s.hist[id].owed
          || (t.hist[id].owed == Some(a) && s.hist[id].owed.None?)
          || (t.hist[id].owed.None? && s.hist[id].owed == Some(a))
    ensures Inv(t) && Evolves(s, t)
  {
    hide RowInv, PcInv;
    UpdateRows(s, t, id);
    LocksStay(s, t, a);
    OwedStay(s, t, a, id);
    UpdateRespects(s, t, a, id);
    hide Respects, RowsInv, LocksInv, Updates, LocksTaken;
    AgentsStay(s, t, a);
  }

  lemma UpdateRespects(s: State, t: State, a: AgentId, id: RowId)
    requires Updates(s, t, id) && OwedInv(s)
    requires t.rows[id] == s.rows[id] || forall b :: b in s.agents && b != a ==> !HoldsRow(s.agents[b], id)
    requires t.hist[id].owed == s.hist[id].owed || s.hist[id].owed.None? || s.hist[id].owed == Some(a)
    ensures forall b :: b in s.agents && b != a ==> Respects(s, t, b)
  {
    hide RowInv;
  }

  /** A step that adds a row, for an upload whose user row the agent has locked, or for none. */
  lemma InsertStep(s: State, t: State, a: AgentId, r: Row, h: History)
    requires Inv(s) && t.rows == s.rows + [r] && t.hist == s.hist + [h]
    requires RowInv(r, h) && OnlyAgent(s, t, a) && LocksTaken(s, t, a)
    requires a in s.agents ==> !s.agents[a].Owes?
    requires r.upload != "" ==> a in s.agents && HoldsUser(s.agents[a], r.user)
    requires r.upload != "" ==>
               forall i :: 0 <= i < |s.rows| && Owns(s.rows[i], r.user, r.upload) ==> s.hist[i].everFailed
    requires if a in t.agents then t.agents[a] == Owes(|s.rows|) && h.owed == Some(a) else h.owed.None?
    ensures Inv(t) && Evolves(s, t)
  {
    hide RowInv;
    LocksStay(s, t, a);
    InsertRows(s, t, r, h);
    InsertRespects(s, t, a, r, h);
    AgentsStay(s, t, a);
    InsertOwed(s, t, a, h);
  }

  lemma InsertRespects(s: State, t: State, a: AgentId, r: Row, h: History)
    requires RowsMatch(s) && LocksInv(s) && t.rows == s.rows + [r] && t.hist == s.hist + [h]
    requires r.upload != "" ==> a in s.agents && HoldsUser(s.agents[a], r.user)
    ensures forall b :: b in s.agents && b != a ==> Respects(s, t, b)
  {
  }

  lemma InsertOwed(s: State, t: State, a: AgentId, h: History)
    requires RowsMatch(s) && RowsMatch(t) && OwedInv(s) && OnlyAgent(s, t, a) && t.hist == s.hist + [h]
    requires a in s.agents ==> !s.agents[a].Owes?
    requires if a in t.agents then t.agents[a] == Owes(|s.rows|) && h.owed == Some(a) else h.owed.None?
    ensures OwedInv(t)
  {
  }

  lemma InsertRows(s: State, t: State, r: Row, h: History)
    requires RowsMatch(s) && RowsInv(s) && PairsInv(s) && t.rows == s.rows + [r] && t.hist == s.hist + [h]
    requires RowInv(r, h)
    requires r.upload != "" ==>
               forall i :: 0 <= i < |s.rows| && Owns(s.rows[i], r.user, r.upload) ==> s.hist[i].everFailed
    ensures RowsMatch(t) && RowsInv(t) && PairsInv(t) && Evolves(s, t)
  {
  }

  // ---- every step keeps the invariant ----

  lemma PcOf(s: State, a: AgentId)
    requires Inv(s) && a in s.agents
    ensures RowsMatch(s) && PcInv(s, a, s.agents[a])
  {
  }

  lemma RowOf(s: State, id: RowId)
    requires Inv(s) && id < |s.rows|
    ensures RowsMatch(s) && RowInv(s.rows[id], s.hist[id])
  {
  }

  lemma OnlyHolder(s: State, a: AgentId, id: RowId)
    requires Inv(s) && a in s.agents && HoldsRow(s.agents[a], id)
    ensures forall b :: b in s.agents && b != a ==> !HoldsRow(s.agents[b], id)
  {
  }

  lemma CommitCallStep(s: State, a: AgentId)
    requires Inv(s) && Enabled(s, CommitCall(a))
    ensures Inv(Do(s, CommitCall(a))) && Evolves(s, Do(s, CommitCall(a)))
  {
    hide Inv, RowInv;
    PcOf(s, a);
    match CallWrite(s.agents[a].call, s.agents[a].found) {
      case Insert(_) => InsertCallStep(s, a);
      case Keep => KeepCallStep(s, a);
      case Commit(_, _) => CommitDraftStep(s, a);
    }
  }

  lemma InsertCallStep(s: State, a: AgentId)
    requires Inv(s) && Enabled(s, CommitCall(a)) && CallWrite(s.agents[a].call, s.agents[a].found).Insert?
    ensures Inv(Do(s, CommitCall(a))) && Evolves(s, Do(s, CommitCall(a)))
  {
    hide Inv, RowInv;
    var CallHolding(c, found) := s.agents[a];
    PcOf(s, a);
    InsertOk(s, a, c, found);
    NewRowOk(c.user, c.upload, c.req, c.deferRun && found.NoRow?);
    assert HoldsUser(s.agents[a], c.user);
    InsertStep(s, Do(s, CommitCall(a)), a, CallWrite(c, found).row,
               NewHistory.(commits := if c.deferRun then [] else [c.req]));
  }

  lemma NewRowOk(user: UserId, upload: string, req: SdkRequest, deferRun: bool)
    requires upload != ""
    ensures RowInv(NewRow(user, upload, req, !deferRun), NewHistory.(commits := if deferRun then [] else [req]))
  {
  }

  lemma KeepCallStep(s: State, a: AgentId)
    requires Inv(s) && Enabled(s, CommitCall(a)) && CallWrite(s.agents[a].call, s.agents[a].found).Keep?
    ensures Inv(Do(s, CommitCall(a))) && Evolves(s, Do(s, CommitCall(a)))
  {
    hide Inv, RowInv;
    var CallHolding(c, found) := s.agents[a];
    PcOf(s, a);
    if c.deferRun {
      AgentStep(s, Do(s, CommitCall(a)), a);
    } else {
      RowOf(s, found.id);
      RecommitOk(s.rows[found.id], s.hist[found.id], c.req);
      DebtOf(s, a, found.id);
      UpdateStep(s, Do(s, CommitCall(a)), a, found.id);
    }
  }

  lemma CommitDraftStep(s: State, a: AgentId)
    requires Inv(s) && Enabled(s, CommitCall(a)) && CallWrite(s.agents[a].call, s.agents[a].found).Commit?
    ensures Inv(Do(s, CommitCall(a))) && Evolves(s, Do(s, CommitCall(a)))
  {
    hide Inv, RowInv;
    var CallHolding(c, found) := s.agents[a];
    var id := found.id;
    PcOf(s, a);
    RowOf(s, id);
    CommitOk(s.rows[id], s.hist[id], c.req, Some(a));
    OnlyHolder(s, a, id);
    UpdateStep(s, Do(s, CommitCall(a)), a, id);
  }

  /** Only the agent that is to send a row's task owes it. */
  lemma DebtOf(s: State, a: AgentId, id: RowId)
    requires Inv(s) && id < |s.rows| && a in s.agents
    ensures RowsMatch(s) && (s.hist[id].owed == Some(a) <==> s.agents[a] == Owes(id))
  {
  }

  /** A call inserts only when no row is there or the newest one failed. */
  lemma InsertOk(s: State, a: AgentId, c: Call, found: Found)
    requires Inv(s) && CallWrite(c, found).Insert?
    requires PcInv(s, a, CallHolding(c, found))
    ensures forall i :: 0 <= i < |s.rows| && Owns(s.rows[i], c.user, c.upload) ==> s.hist[i].everFailed
  {
  }

  lemma RecommitOk(r: Row, h: History, req: SdkRequest)
    requires RowInv(r, h) && (r.ready || r.status != Received)
    ensures RowInv(r, h.(commits := h.commits + [req])) && HistoryGrows(h, h.(commits := h.commits + [req]))
  {
  }

  /** Committing a draft: the debt arises exactly when the file is already there. */
  lemma CommitOk(r: Row, h: History, body: SdkRequest, owed: Option<AgentId>)
    requires RowInv(r, h) && !r.ready && owed.Some?
    ensures var t := r.(body := body, ready := true);
            var k := h.(commits := h.commits + [body], owed := if r.fileReady then owed else h.owed);
            RowInv(t, k) && RowGrows(r, t) && HistoryGrows(h, k) && h.owed.None?
  {
  }

  lemma CommitMergeStep(s: State, a: AgentId)
    requires Inv(s) && Enabled(s, CommitMerge(a))
    ensures Inv(Do(s, CommitMerge(a))) && Evolves(s, Do(s, CommitMerge(a)))
  {
    hide Inv, RowInv, Outgoing, EncodeMeta;
    var t := Do(s, CommitMerge(a));
    var MergeHolding(d, id, aq) := s.agents[a];
    PcOf(s, a);
    RowOf(s, id);
    OnlyHolder(s, a, id);
    if !aq.ready {
      StoreOk(s.rows[id], s.hist[id], d.meta);
    } else if aq.status == Succeeded {
      DropOk(s.rows[id], s.hist[id]);
    } else {
      FireOk(s.rows[id], s.hist[id], d.meta);
    }
    DebtOf(s, a, id);
    UpdateStep(s, t, a, id);
  }

  lemma StoreOk(r: Row, h: History, m: UploadMeta)
    requires RowInv(r, h) && !r.ready
    ensures var t := r.(fileReady := true, fileMeta := Some(EncodeMeta(m)));
            var k := h.(stored := h.stored + [m]);
            RowInv(t, k) && RowGrows(r, t) && HistoryGrows(h, k)
  {
  }

  lemma DropOk(r: Row, h: History)
    requires RowInv(r, h) && r.ready && r.status == Succeeded
    ensures var k := h.(dropped := h.dropped + 1); RowInv(r, k) && HistoryGrows(h, k)
  {
  }

  lemma FireOk(r: Row, h: History, m: UploadMeta)
    requires RowInv(r, h) && r.ready
    ensures var k := h.(fired := h.fired + [m]); RowInv(r, k) && HistoryGrows(h, k)
  {
  }

  /** The metadata stored on a queued row always unmarshals, to one that was delivered. */
  lemma ReadOk(r: Row, h: History)
    requires RowInv(r, h) && h.queued > 0
    ensures r.ready
    ensures r.fileMeta.None? ==> r.upload == ""
    ensures r.fileMeta.Some? ==> DecodeMeta(r.fileMeta.value).Some? && Started(h, DecodeMeta(r.fileMeta.value))
  {
    hide Outgoing, EncodeMeta, DecodeMeta;
    if r.fileMeta.Some? {
      MetaRoundTrip(h.stored[|h.stored| - 1]);
    }
  }

  lemma ReadQueryStep(s: State, a: AgentId)
    requires Inv(s) && Enabled(s, ReadQuery(a))
    ensures Inv(Do(s, ReadQuery(a))) && Evolves(s, Do(s, ReadQuery(a)))
    ensures Do(s, ReadQuery(a)).agents[a].Calling?
  {
    hide Inv, RowInv, DecodeMeta;
    var id := s.agents[a].id;
    PcOf(s, a);
    RowOf(s, id);
    ReadOk(s.rows[id], s.hist[id]);
    AgentStep(s, Do(s, ReadQuery(a)), a);
  }

  lemma CallSdkStep(s: State, a: AgentId, ok: bool)
    requires Inv(s) && Enabled(s, CallSdk(a, ok))
    ensures Inv(Do(s, CallSdk(a, ok))) && Evolves(s, Do(s, CallSdk(a, ok)))
  {
    hide Inv, RowInv, Outgoing, EncodeMeta, PatchOf;
    var pc := s.agents[a];
    var x := Sent(Outgoing(pc.aq.body, PatchOf(pc.meta)), pc.meta);
    PcOf(s, a);
    assert s.rows[pc.id].ready && SentInv(s.rows[pc.id], s.hist[pc.id], x);
    assert HasFile(s.rows[pc.id], s.hist[pc.id]);
    hide SentInv, Started, Frozen;
    DispatchStep(s, Do(s, CallSdk(a, ok)), a, x);
  }

  /** Only the row's list of dispatches grows, and the agent goes on to finalise. */
  lemma DispatchStep(s: State, t: State, a: AgentId, x: Sent)
    requires Inv(s) && a in s.agents && s.agents[a].Calling? && s.agents[a].id < |s.rows|
    requires s.rows[s.agents[a].id].ready && HasFile(s.rows[s.agents[a].id], s.hist[s.agents[a].id])
    requires SentInv(s.rows[s.agents[a].id], s.hist[s.agents[a].id], x)
    requires var id, h := s.agents[a].id, s.hist[s.agents[a].id];
             exists o :: (o == Succeeded || o == Failed)
               && t == Go(SetRow(s, id, s.rows[id], h.(sent := h.sent + [x])), a, Finalizing(id, o))
    ensures Inv(t) && Evolves(s, t)
  {
    hide Inv, RowInv, SentInv;
    var id := s.agents[a].id;
    RowOf(s, id);
    SentOk(s.rows[id], s.hist[id], x);
    DebtOf(s, a, id);
    UpdateStep(s, t, a, id);
  }

  lemma SentOk(r: Row, h: History, x: Sent)
    requires RowInv(r, h) && r.ready && SentInv(r, h, x)
    ensures RowInv(r, h.(sent := h.sent + [x])) && HistoryGrows(h, h.(sent := h.sent + [x]))
  {
  }

  /** The unlocked whole-row write puts back what is there, but for the status. */
  lemma WriteFinalStep(s: State, a: AgentId)
    requires Inv(s) && Enabled(s, WriteFinal(a))
    ensures Inv(Do(s, WriteFinal(a))) && Evolves(s, Do(s, WriteFinal(a)))
  {
    hide Inv, RowInv, Outgoing, EncodeMeta;
    var pc := s.agents[a];
    PcOf(s, a);
    RowOf(s, pc.id);
    FinalOk(s.rows[pc.id], s.hist[pc.id], pc.aq, pc.outcome);
    DebtOf(s, a, pc.id);
    UpdateStep(s, Do(s, WriteFinal(a)), a, pc.id);
  }

  lemma FinalOk(r: Row, h: History, aq: Row, o: Status)
    requires RowInv(r, h) && r.ready && Frozen(aq, r) && HasFile(r, h) && (o == Succeeded || o == Failed)
    ensures var t := aq.(status := o);
            var k := h.(everFailed := h.everFailed || o == Failed);
            RowInv(t, k) && RowGrows(r, t) && HistoryGrows(h, k)
  {
  }

  lemma SettleOk(r: Row, h: History, k: History)
    requires RowInv(r, h) && h.owed.Some?
    requires k == h.(owed := None, queued := h.queued + 1) || k == h.(owed := None, lost := h.lost + 1)
    ensures RowInv(r, k) && HistoryGrows(h, k)
  {
    hide SentsInv, Outgoing, EncodeMeta;
    SentsStay(r, h, k);
  }

  /** Dispatches stay explained while the history grows. */
  lemma SentsStay(r: Row, h: History, k: History)
    requires SentsInv(r, h) && k.sent == h.sent && k.stored == h.stored && k.fired == h.fired && h.queued <= k.queued
    ensures SentsInv(r, k)
  {
    hide Outgoing;
  }

  lemma SendTaskStep(s: State, a: AgentId)
    requires Inv(s) && Enabled(s, SendTask(a))
    ensures Inv(Do(s, SendTask(a))) && Evolves(s, Do(s, SendTask(a)))
  {
    hide Inv, RowInv, Outgoing, EncodeMeta;
    var id := s.agents[a].id;
    PcOf(s, a);
    RowOf(s, id);
    SettleOk(s.rows[id], s.hist[id], s.hist[id].(owed := None, queued := s.hist[id].queued + 1));
    UpdateStep(s, Do(s, SendTask(a)), a, id);
  }

  lemma LoseTaskStep(s: State, a: AgentId)
    requires Inv(s) && Enabled(s, Stop(a)) && s.agents[a].Owes?
    ensures Inv(Do(s, Stop(a))) && Evolves(s, Do(s, Stop(a)))
  {
    hide Inv, RowInv, Outgoing, EncodeMeta;
    var id := s.agents[a].id;
    PcOf(s, a);
    RowOf(s, id);
    SettleOk(s.rows[id], s.hist[id], s.hist[id].(owed := None, lost := s.hist[id].lost + 1));
    UpdateStep(s, Do(s, Stop(a)), a, id);
  }

  lemma WithoutFileStep(s: State, a: AgentId, user: UserId, req: SdkRequest)
    requires Inv(s) && Enabled(s, CallWithoutFile(a, user, req))
    ensures Inv(Do(s, CallWithoutFile(a, user, req))) && Evolves(s, Do(s, CallWithoutFile(a, user, req)))
  {
    var h := NewHistory.(commits := [req], owed := Some(a));
    InsertStep(s, Do(s, CallWithoutFile(a, user, req)), a, NewRow(user, "", req, true), h);
  }

  lemma SelectStep(s: State, a: AgentId)
    requires Inv(s) && Enabled(s, SelectRow(a))
    ensures Inv(Do(s, SelectRow(a))) && Evolves(s, Do(s, SelectRow(a)))
  {
    hide Inv, RowInv, Outgoing, EncodeMeta;
    PcOf(s, a);
    AgentStep(s, Do(s, SelectRow(a)), a);
  }

  lemma LockRowStep(s: State, a: AgentId)
    requires Inv(s) && Enabled(s, LockRow(a))
    ensures Inv(Do(s, LockRow(a))) && Evolves(s, Do(s, LockRow(a)))
  {
    hide Inv, RowInv, Outgoing, EncodeMeta;
    PcOf(s, a);
    AgentStep(s, Do(s, LockRow(a)), a);
  }

  lemma BeginSteps(s: State, step: Step)
    requires Inv(s) && Enabled(s, step) && (step.BeginCall? || step.BeginMerge? || step.BeginQuery?)
    ensures Inv(Do(s, step)) && Evolves(s, Do(s, step))
  {
    hide Inv, RowInv, Outgoing, EncodeMeta;
    AgentStep(s, Do(s, step), step.a);
  }

  lemma LockUserStep(s: State, a: AgentId)
    requires Inv(s) && Enabled(s, LockUser(a))
    ensures Inv(Do(s, LockUser(a))) && Evolves(s, Do(s, LockUser(a)))
  {
    hide Inv, RowInv, Outgoing, EncodeMeta;
    PcOf(s, a);
    AgentStep(s, Do(s, LockUser(a)), a);
  }

  lemma ReadFinalStep(s: State, a: AgentId)
    requires Inv(s) && Enabled(s, ReadFinal(a))
    ensures Inv(Do(s, ReadFinal(a))) && Evolves(s, Do(s, ReadFinal(a)))
  {
    hide Inv, RowInv, Outgoing, EncodeMeta;
    PcOf(s, a);
    AgentStep(s, Do(s, ReadFinal(a)), a);
  }

  lemma StopStep(s: State, a: AgentId)
    requires Inv(s) && Enabled(s, Stop(a))
    ensures Inv(Do(s, Stop(a))) && Evolves(s, Do(s, Stop(a)))
  {
    hide Inv, RowInv, Outgoing, EncodeMeta;
    if s.agents[a].Owes? {
      LoseTaskStep(s, a);
    } else {
      AgentStep(s, Do(s, Stop(a)), a);
    }
  }

  lemma StepKeeps(s: State, step: Step)
    requires Inv(s) && Enabled(s, step)
    ensures Inv(Do(s, step)) && Evolves(s, Do(s, step))
  {
    hide Inv, PcInv, Do;
    match step {
      case CommitCall(a) => CommitCallStep(s, a);
      case CommitMerge(a) => CommitMergeStep(s, a);
      case ReadQuery(a) => ReadQueryStep(s, a);
      case CallSdk(a, ok) => CallSdkStep(s, a, ok);
      case WriteFinal(a) => WriteFinalStep(s, a);
      case SendTask(a) => SendTaskStep(s, a);
      case CallWithoutFile(a, user, req) => WithoutFileStep(s, a, user, req);
      case SelectRow(a) => SelectStep(s, a);
      case LockRow(a) => LockRowStep(s, a);
      case LockUser(a) => LockUserStep(s, a);
      case ReadFinal(a) => ReadFinalStep(s, a);
      case Stop(a) => StopStep(s, a);
      case BeginCall(_, _) => BeginSteps(s, step);
      case BeginMerge(_, _) => BeginSteps(s, step);
      case BeginQuery(_, _) => BeginSteps(s, step);
    }
  }

  /** Over every run: the invariant holds at the end, and rows only evolve. */
  lemma {:induction false} RunKeeps(s: State, steps: seq<Step>, t: State)
    requires Inv(s) && Runs(Next, s, steps, t)
    ensures Inv(t) && Evolves(s, t)
    decreases |steps|
  {
    if steps != [] {
      var u := Do(s, steps[0]);
      StepKeeps(s, steps[0]);
      RunKeeps(u, steps[1..], t);
      EvolvesTransitive(s, u, t);
    }
  }
}
