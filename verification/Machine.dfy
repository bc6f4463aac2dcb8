/** Runs of a step function: every protocol in this project is a state and a total step,
    and a step whose guard is false leaves the state alone. */
module Machine {

  function Exec<S, E>(step: (S, E) -> S, s: S, events: seq<E>): S
  {
    if events == [] then s
    else step(Exec(step, s, events[..|events| - 1]), events[|events| - 1])
  }

  lemma ExecOne<S, E>(step: (S, E) -> S, s: S, e: E)
    ensures Exec(step, s, [e]) == step(s, e)
  {
    assert [e][..0] == [];
    assert Exec(step, s, [e][..0]) == s;
  }

  /** What holds at the start and survives every step holds after every run. */
  lemma {:induction false} Always<S(!new), E(!new)>(step: (S, E) -> S, inv: S -> bool, s: S, events: seq<E>)
    requires inv(s)
    requires forall t, e :: inv(t) ==> inv(step(t, e))
    ensures inv(Exec(step, s, events))
  {
    if events != [] {
      Always(step, inv, s, events[..|events| - 1]);
    }
  }

  /** What does not hold at the start and holds after a run came to hold in one of its steps. */
  lemma {:induction false} Flips<S(!new), E>(step: (S, E) -> S, init: S, events: seq<E>, p: S -> bool) returns (n: nat)
    requires !p(init) && p(Exec(step, init, events))
    ensures n < |events| && !p(Exec(step, init, events[..n])) && p(step(Exec(step, init, events[..n]), events[n]))
  {
    var m := |events| - 1;
    if p(Exec(step, init, events[..m])) {
      n := Flips(step, init, events[..m], p);
      assert events[..m][..n] == events[..n];
    } else {
      n := m;
    }
  }

  ghost predicate Reachable<S, E(!new)>(step: (S, E) -> S, init: S, s: S)
  {
    exists events :: Exec(step, init, events) == s
  }

  lemma ReachInit<S, E(!new)>(step: (S, E) -> S, init: S)
    ensures Reachable(step, init, init)
  {
    assert Exec(step, init, []) == init;
  }

  /** One step more from a reachable state. */
  lemma Reach<S, E(!new)>(step: (S, E) -> S, init: S, s: S, e: E) returns (s': S)
    requires Reachable(step, init, s)
    ensures Reachable(step, init, s') && s' == step(s, e)
  {
    var events :| Exec(step, init, events) == s;
    assert (events + [e])[..|events|] == events;
    assert Exec(step, init, events + [e]) == step(s, e);
    s' := step(s, e);
  }
}
