/** The wallet tracker: requests touch their user's `last_seen_at`, unload passes read the users not
    seen since a cutoff, unload their wallets and set the column to NULL unless it has changed.

    A touch takes its time stamp first and writes it later, so other steps may come in between. Any
    number of touches and passes interleave under a clock that does not run backwards. */
module WalletTracker {
  import opened Text
  import opened StepSystems

  type UserId = int
  type Id = nat

  /** The column, and how many touches have been written to it so far. */
  datatype Row = Row(seen: Option<int>, writes: nat)

  datatype Touch = Touch(user: UserId, stamp: int)

  /** What a pass read of a user; `exposed` says that a touch with that very stamp was under way. */
  datatype Read = Read(seen: int, writes: nat, exposed: bool)

  datatype Pass = Pass(cutoff: int, todo: map<UserId, Read>)

  datatype State = State(clock: int, rows: map<UserId, Row>, touches: map<Id, Touch>, passes: map<Id, Pass>)

  datatype Step =
    | Tick(now: int)
    | Stamp(t: Id, user: UserId)
    | WriteTouch(t: Id)
    | BeginPass(p: Id, age: nat)
    | ReadUser(p: Id, user: UserId)
    | Unload(p: Id, user: UserId)   // the wallet is unloaded, then the conditional update runs
    | Skip(p: Id, user: UserId)     // no server, or the SDK refused

  predicate Enabled(s: State, step: Step)
  {
    match step
    case Tick(now) => now >= s.clock
    case Stamp(t, user) => t !in s.touches && user in s.rows
    case WriteTouch(t) => t in s.touches && s.touches[t].user in s.rows
    case BeginPass(p, _) => p !in s.passes
    case ReadUser(p, user) =>
      && p in s.passes && user in s.rows && s.rows[user].seen.Some? && s.rows[user].seen.value < s.passes[p].cutoff
    case Unload(p, user) => p in s.passes && user in s.passes[p].todo && user in s.rows
    case Skip(p, user) => p in s.passes && user in s.passes[p].todo
  }

  predicate Pending(s: State, user: UserId, stamp: int)
  {
    exists t :: t in s.touches && s.touches[t] == Touch(user, stamp)
  }

  function Without(p: Pass, user: UserId): Pass { p.(todo := p.todo - {user}) }

  /** The conditional update: `SET last_seen_at = NULL WHERE id = user AND last_seen_at = seen`. */
  function ClearIf(r: Row, seen: int): Row { if r.seen == Some(seen) then r.(seen := None) else r }

  function Do(s: State, step: Step): State
    requires Enabled(s, step)
  {
    match step
    case Tick(now) => s.(clock := now)
    case Stamp(t, user) => s.(touches := s.touches[t := Touch(user, s.clock)])
    case WriteTouch(t) =>
      var Touch(user, stamp) := s.touches[t];
      s.(rows := s.rows[user := Row(Some(stamp), s.rows[user].writes + 1)], touches := s.touches - {t})
    case BeginPass(p, age) => s.(passes := s.passes[p := Pass(s.clock - age, map[])])
    case ReadUser(p, user) =>
      var r := s.rows[user];
      var read := Read(r.seen.value, r.writes, Pending(s, user, r.seen.value));
      s.(passes := s.passes[p := s.passes[p].(todo := s.passes[p].todo[user := read])])
    case Unload(p, user) =>
      var read := s.passes[p].todo[user];
      s.(rows := s.rows[user := ClearIf(s.rows[user], read.seen)],
         passes := s.passes[p := Without(s.passes[p], user)])
    case Skip(p, user) => s.(passes := s.passes[p := Without(s.passes[p], user)])
  }

  function Next(s: State, step: Step): Option<State> { if Enabled(s, step) then Some(Do(s, step)) else None }

  predicate Initial(s: State) { s.touches == map[] && s.passes == map[] }

  // ---- invariant ----

  /** An unexposed read: whatever is written to the row later, it is never the value read. */
  ghost predicate ReadInv(s: State, cutoff: int, user: UserId, x: Read)
  {
    && x.seen < cutoff <= s.clock
    && user in s.rows && x.writes <= s.rows[user].writes
    && (x.exposed || !Pending(s, user, x.seen))
    && (x.exposed || s.rows[user].writes == x.writes || s.rows[user].seen != Some(x.seen))
  }

  ghost predicate PassInv(s: State, p: Pass)
  {
    p.cutoff <= s.clock && forall user :: user in p.todo ==> ReadInv(s, p.cutoff, user, p.todo[user])
  }

  ghost predicate Inv(s: State) { forall p :: p in s.passes ==> PassInv(s, s.passes[p]) }

  lemma StepKeeps(s: State, step: Step)
    requires Inv(s) && Enabled(s, step)
    ensures Inv(Do(s, step))
  {
  }

  lemma {:induction false} RunKeeps(s: State, steps: seq<Step>, t: State)
    requires Inv(s) && Runs(Next, s, steps, t)
    ensures Inv(t)
    decreases |steps|
  {
    if steps != [] {
      StepKeeps(s, steps[0]);
      RunKeeps(Do(s, steps[0]), steps[1..], t);
    }
  }

  // ---- what holds over every run ----

  /** The update of `Unload` clears the column although the user was touched after the pass read it. */
  ghost predicate LosesTouch(s: State, p: Id, user: UserId)
    requires Enabled(s, Unload(p, user))
  {
    s.rows[user].writes > s.passes[p].todo[user].writes && Do(s, Unload(p, user)).rows[user] != s.rows[user]
  }

  /** A touch can be lost only if, when the pass read the user, a touch stamped with the value read
      was waiting to be written. */
  lemma NoTouchLost(o: State, steps: seq<Step>, s: State, p: Id, user: UserId)
    requires Initial(o) && Runs(Next, o, steps, s) && Enabled(s, Unload(p, user))
    requires !s.passes[p].todo[user].exposed
    ensures !LosesTouch(s, p, user)
  {
    RunKeeps(o, steps, s);
    assert PassInv(s, s.passes[p]);
    assert ReadInv(s, s.passes[p].cutoff, user, s.passes[p].todo[user]);
  }

  /** In particular if every touch is written at the instant it is stamped, as one statement. */
  lemma {:induction false} AtomicTouchesExposeNothing(s: State, steps: seq<Step>, t: State)
    requires Runs(Next, s, steps, t) && s.touches == map[]
    requires forall p, u :: p in s.passes && u in s.passes[p].todo ==> !s.passes[p].todo[u].exposed
    requires forall i :: 0 <= i < |steps| && steps[i].Stamp? ==>
               i + 1 < |steps| && steps[i + 1] == WriteTouch(steps[i].t)
    ensures forall p, u :: p in t.passes && u in t.passes[p].todo ==> !t.passes[p].todo[u].exposed
    decreases |steps|
  {
    if steps != [] {
      var u := Do(s, steps[0]);
      if steps[0].Stamp? {
        assert steps[1..][0] == WriteTouch(steps[0].t);
        var v := Do(u, steps[1]);
        assert v.touches == map[];
        assert steps[1..][1..] == steps[2..];
        AtomicTouchesExposeNothing(v, steps[2..], t);
      } else {
        AtomicTouchesExposeNothing(u, steps[1..], t);
      }
    }
  }

  /** The condition is exact: from any state in which a pass is about to read a user while a touch
      with the stored stamp waits, some continuation loses that touch. */
  lemma ExposedTouchCanBeLost(s: State, p: Id, user: UserId, i: Id)
    requires Enabled(s, ReadUser(p, user)) && i in s.touches && s.touches[i] == Touch(user, s.rows[user].seen.value)
    ensures Enabled(Do(s, ReadUser(p, user)), WriteTouch(i))
    ensures var t := Do(Do(s, ReadUser(p, user)), WriteTouch(i));
            t.passes[p].todo[user].exposed && Enabled(t, Unload(p, user)) && LosesTouch(t, p, user)
  {
  }

  /** Such a state can be reached: of two touches at one instant one is written, a pass begins later
      and reads the user, and the other touch is written before the pass clears the column. */
  lemma TouchCanBeLost(user: UserId, now: int) returns (o: State, s: State)
    ensures Initial(o) && Leads(Next, o, s) && Enabled(s, Unload(0, user)) && LosesTouch(s, 0, user)
  {
    hide Leads;
    o := State(now, map[user := Row(None, 0)], map[], map[]);
    Stutter(Next, o);
    s := TwoTouches(o, user, now);
    LeadsOn(Next, o, s, Tick(now + 1));
    s := Do(s, Tick(now + 1));
    LeadsOn(Next, o, s, BeginPass(0, 0));
    s := Do(s, BeginPass(0, 0));
    ExposedTouchCanBeLost(s, 0, user, 1);
    LeadsOn(Next, o, s, ReadUser(0, user));
    s := Do(s, ReadUser(0, user));
    LeadsOn(Next, o, s, WriteTouch(1));
    s := Do(s, WriteTouch(1));
  }

  lemma TwoTouches(o: State, user: UserId, now: int) returns (s: State)
    requires o == State(now, map[user := Row(None, 0)], map[], map[])
    ensures Leads(Next, o, s)
    ensures s == State(now, map[user := Row(Some(now), 1)], map[1 := Touch(user, now)], map[])
  {
    hide Leads;
    Stutter(Next, o);
    LeadsOn(Next, o, o, Stamp(1, user));
    s := Do(o, Stamp(1, user));
    s := TouchAlone(o, s, 0, user);
  }

  // ---- touches written in time ----

  /** No touch has been waiting to be written for longer than `d`. */
  predicate Prompt(s: State, d: nat) { forall t :: t in s.touches ==> s.clock - s.touches[t].stamp <= d }

  /** So in every state of the run, and every pass looks for users not seen for at least `d`. */
  ghost predicate PromptRun(s: State, steps: seq<Step>, d: nat)
    decreases |steps|
  {
    && Prompt(s, d)
    && (steps != [] ==>
          && (steps[0].BeginPass? ==> steps[0].age >= d)
          && Enabled(s, steps[0]) && PromptRun(Do(s, steps[0]), steps[1..], d))
  }

  ghost predicate Unexposed(s: State, d: nat)
  {
    forall p :: p in s.passes ==>
      s.passes[p].cutoff <= s.clock - d && forall u :: u in s.passes[p].todo ==> !s.passes[p].todo[u].exposed
  }

  lemma PromptStep(s: State, step: Step, d: nat)
    requires Unexposed(s, d) && Prompt(s, d) && Enabled(s, step) && (step.BeginPass? ==> step.age >= d)
    ensures Unexposed(Do(s, step), d)
  {
  }

  lemma {:induction false} PromptExposesNothing(s: State, steps: seq<Step>, t: State, d: nat)
    requires Unexposed(s, d) && PromptRun(s, steps, d) && Runs(Next, s, steps, t)
    ensures Unexposed(t, d)
    decreases |steps|
  {
    hide Unexposed, Enabled, Do;
    if steps != [] {
      PromptStep(s, steps[0], d);
      PromptExposesNothing(Do(s, steps[0]), steps[1..], t, d);
    }
  }

  /** If no touch stays unwritten for longer than the passes look back, no touch is ever lost. */
  lemma PromptTouchesKept(o: State, steps: seq<Step>, s: State, d: nat, p: Id, user: UserId)
    requires Initial(o) && Runs(Next, o, steps, s) && PromptRun(o, steps, d) && Enabled(s, Unload(p, user))
    ensures !LosesTouch(s, p, user)
  {
    PromptExposesNothing(o, steps, s, d);
    NoTouchLost(o, steps, s, p, user);
  }

  // ---- touch and unload as they are written, over the table they change ----

  lemma TouchAlone(o: State, s: State, t: Id, user: UserId) returns (u: State)
    requires Leads(Next, o, s) && t !in s.touches && user in s.rows
    ensures Leads(Next, o, u) && u == s.(rows := s.rows[user := Row(Some(s.clock), s.rows[user].writes + 1)])
  {
    hide Leads;
    LeadsOn(Next, o, s, Stamp(t, user));
    u := Do(s, Stamp(t, user));
    LeadsOn(Next, o, u, WriteTouch(t));
    u := Do(u, WriteTouch(t));
    assert u.touches == s.touches;
  }

  lemma Member<T>(s: set<T>) returns (x: T)
    requires s != {}
    ensures x in s
  {
    x :| x in s;
  }

  /** A pass that reads some of the users it looks for. */
  lemma {:induction false} ReadAlone(o: State, s: State, p: Id, users: set<UserId>) returns (u: State)
    requires Leads(Next, o, s) && p in s.passes
    requires forall v :: v in users ==> v in s.rows && Enabled(s, ReadUser(p, v))
    ensures Leads(Next, o, u) && u.clock == s.clock && u.rows == s.rows && u.touches == s.touches
    ensures u.passes.Keys == s.passes.Keys && u.passes[p].cutoff == s.passes[p].cutoff
    ensures forall q :: q in s.passes && q != p ==> u.passes[q] == s.passes[q]
    ensures u.passes[p].todo.Keys == s.passes[p].todo.Keys + users
    ensures forall v :: v in users ==> Some(u.passes[p].todo[v].seen) == s.rows[v].seen
    ensures forall v :: v in u.passes[p].todo && v !in users ==> u.passes[p].todo[v] == s.passes[p].todo[v]
    decreases users
  {
    hide Leads;
    u := s;
    if users != {} {
      var v := Member(users);
      LeadsOn(Next, o, s, ReadUser(p, v));
      u := ReadAlone(o, Do(s, ReadUser(p, v)), p, users - {v});
    }
  }

  method Pick<T>(s: set<T>) returns (x: T)
    requires s != {}
    ensures x in s
  {
    x :| x in s;
  }

  class Tracker {
    var clock: int
    var rows: map<UserId, Row>
    ghost var touches: map<Id, Touch>
    ghost var passes: map<Id, Pass>

    ghost function Now(): State
      reads this
    {
      State(clock, rows, touches, passes)
    }

    /** A touch that is written at once; a user without a row is left alone. */
    method Touch(t: Id, user: UserId)
      requires t !in touches
      modifies this`rows
      ensures Leads(Next, old(Now()), Now())
      ensures rows == if user in old(rows) then old(rows)[user := Row(Some(clock), old(rows)[user].writes + 1)]
              else old(rows)
    {
      Stutter(Next, Now());
      if user in rows {
        ghost var u := TouchAlone(Now(), Now(), t, user);
        rows := rows[user := Row(Some(clock), rows[user].writes + 1)];
      }
    }

    /** The query a pass starts with: the users not seen since the cutoff, and when they were seen. */
    method SelectUsers(p: Id, olderThan: nat) returns (selected: map<UserId, int>)
      requires p !in passes
      modifies this`passes
      ensures Leads(Next, old(Now()), Now())
      ensures selected.Keys == NotSeenSince(rows, clock - olderThan)
      ensures forall u :: u in selected <==>
                u in rows && rows[u].seen.Some? && rows[u].seen.value < clock - olderThan
      ensures forall u :: u in selected ==> rows[u].seen == Some(selected[u])
      ensures p in passes && passes[p].todo.Keys == selected.Keys
      ensures forall u :: u in selected ==> passes[p].todo[u].seen == selected[u]
    {
      hide Leads;
      ghost var s := Now();
      Stutter(Next, s);
      var cutoff := clock - olderThan;
      selected := map u | u in rows && rows[u].seen.Some? && rows[u].seen.value < cutoff :: rows[u].seen.value;
      LeadsOn(Next, s, s, BeginPass(p, olderThan));
      ghost var t := ReadAlone(s, Do(s, BeginPass(p, olderThan)), p, selected.Keys);
      passes := t.passes;
    }

    /** One turn of the loop: `unloads` says that the user has a server and it unloads the wallet. The
        column is cleared only if it still is what the pass read. */
    method UnloadUser(p: Id, user: UserId, seen: int, unloads: bool)
      requires p in passes && user in passes[p].todo && passes[p].todo[user].seen == seen && user in rows
      modifies this`rows, this`passes
      ensures Leads(Next, old(Now()), Now())
      ensures rows == if unloads && old(rows)[user].seen == Some(seen)
                      then old(rows)[user := old(rows)[user].(seen := None)] else old(rows)
      ensures passes == old(passes)[p := Without(old(passes)[p], user)]
    {
      hide Leads;
      ghost var s := Now();
      Stutter(Next, s);
      ghost var step := if unloads then Step.Unload(p, user) else Skip(p, user);
      LeadsOn(Next, s, s, step);
      passes := passes[p := Without(passes[p], user)];
      if unloads && rows[user].seen == Some(seen) {
        rows := rows[user := rows[user].(seen := None)];
      }
      assert Do(s, step) == Now();
    }

    /** A whole pass that runs alone. `unloadable` are the users that have a server which unloads their
        wallet. Returns how many users were selected, unloaded or not. */
    method Unload(p: Id, olderThan: nat, unloadable: set<UserId>) returns (count: nat)
      requires p !in passes
      modifies this`rows, this`passes
      ensures Leads(Next, old(Now()), Now()) && rows.Keys == old(rows).Keys
      ensures forall u :: u in rows ==>
                rows[u] == if && u in unloadable && old(rows)[u].seen.Some?
                              && old(rows)[u].seen.value < clock - olderThan
                           then old(rows)[u].(seen := None) else old(rows)[u]
      ensures count == |NotSeenSince(old(rows), clock - olderThan)|
    {
      hide Leads;
      ghost var s := Now();
      var selected := SelectUsers(p, olderThan);
      ghost var t := Now();
      UnloadSelected(p, selected, unloadable);
      LeadsThrough(Next, s, t, Now());
      count := |selected.Keys|;
    }

    /** The loop over the selected users, with nothing in between. */
    method UnloadSelected(p: Id, selected: map<UserId, int>, unloadable: set<UserId>)
      requires p in passes && passes[p].todo.Keys == selected.Keys
      requires forall u :: u in selected ==>
                 u in rows && rows[u].seen == Some(selected[u]) && passes[p].todo[u].seen == selected[u]
      modifies this`rows, this`passes
      ensures Leads(Next, old(Now()), Now()) && rows.Keys == old(rows).Keys
      ensures forall u :: u in rows ==>
                rows[u] == if u in selected && u in unloadable then old(rows)[u].(seen := None) else old(rows)[u]
    {
      hide Leads;
      ghost var s := Now();
      Stutter(Next, s);
      var left: set<UserId> := selected.Keys;
      while left != {}
        invariant left <= selected.Keys && p in passes && passes[p].todo.Keys == left
        invariant forall u :: u in left ==> passes[p].todo[u].seen == selected[u]
        invariant Leads(Next, s, Now()) && rows.Keys == s.rows.Keys
        invariant forall u :: u in rows ==>
                    rows[u] == if u in selected && u !in left && u in unloadable then s.rows[u].(seen := None)
                               else s.rows[u]
        decreases left
      {
        ghost var before := Now();
        var u := Pick(left);
        assert rows[u] == s.rows[u];
        UnloadUser(p, u, selected[u], u in unloadable);
        LeadsThrough(Next, s, before, Now());
        left := left - {u};
      }
    }
  }

  /** The users that were seen, but not since the cutoff. */
  function NotSeenSince(rows: map<UserId, Row>, cutoff: int): set<UserId>
  {
    set u | u in rows && rows[u].seen.Some? && rows[u].seen.value < cutoff
  }
}
