/** Runs of a step system: `next` gives the state a step leads to, if the step can be taken. */
module StepSystems {
  import opened Text

  ghost predicate Runs<S(!new), A(!new)>(next: (S, A) -> Option<S>, s: S, steps: seq<A>, t: S)
    decreases |steps|
  {
    if steps == [] then s == t
    else next(s, steps[0]).Some? && Runs(next, next(s, steps[0]).value, steps[1..], t)
  }

  /** Some run leads from one state to the other. */
  ghost predicate Leads<S(!new), A(!new)>(next: (S, A) -> Option<S>, s: S, t: S)
  {
    exists steps :: Runs(next, s, steps, t)
  }

  lemma Stutter<S(!new), A(!new)>(next: (S, A) -> Option<S>, s: S)
    ensures Leads(next, s, s)
  {
    assert Runs(next, s, [], s);
  }

  lemma {:induction false} RunsThrough<S(!new), A(!new)>(
      next: (S, A) -> Option<S>, s: S, first: seq<A>, t: S, rest: seq<A>, u: S)
    requires Runs(next, s, first, t) && Runs(next, t, rest, u)
    ensures Runs(next, s, first + rest, u)
    decreases |first|
  {
    if first == [] {
      assert first + rest == rest;
    } else {
      RunsThrough(next, next(s, first[0]).value, first[1..], t, rest, u);
      assert (first + rest)[1..] == first[1..] + rest;
    }
  }

  lemma LeadsThrough<S(!new), A(!new)>(next: (S, A) -> Option<S>, s: S, t: S, u: S)
    requires Leads(next, s, t) && Leads(next, t, u)
    ensures Leads(next, s, u)
  {
    var first :| Runs(next, s, first, t);
    var rest :| Runs(next, t, rest, u);
    RunsThrough(next, s, first, t, rest, u);
  }

  lemma LeadsOn<S(!new), A(!new)>(next: (S, A) -> Option<S>, s: S, t: S, step: A)
    requires Leads(next, s, t) && next(t, step).Some?
    ensures Leads(next, s, next(t, step).value)
  {
    var u := next(t, step).value;
    assert [step][1..] == [];
    assert Runs(next, u, [], u);
    assert Runs(next, t, [step], u);
    LeadsThrough(next, s, t, u);
  }
}
