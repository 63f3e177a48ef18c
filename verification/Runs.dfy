/** Options, and runs of a step machine: the vocabulary shared by every protocol model. */
module Runs {

  datatype Option<+T> = None | Some(value: T)

  /** The state after a sequence of actions, or None as soon as one of them is not enabled. */
  ghost function Exec<S, A>(step: (S, A) -> Option<S>, s: S, actions: seq<A>): Option<S>
  {
    if actions == [] then Some(s)
    else match step(s, actions[0])
      case None => None
      case Some(s') => Exec(step, s', actions[1..])
  }

  /** A predicate that every enabled action keeps holds at the end of every run. */
  lemma {:induction false} Invariance<S(!new), A(!new)>(
      step: (S, A) -> Option<S>, inv: S -> bool, s: S, actions: seq<A>)
    requires inv(s)
    requires forall t, a :: inv(t) && step(t, a).Some? ==> inv(step(t, a).value)
    requires Exec(step, s, actions).Some?
    ensures inv(Exec(step, s, actions).value)
  {
    if actions != [] {
      Invariance(step, inv, step(s, actions[0]).value, actions[1..]);
    }
  }

  /** The same for facts about the state and the actions that led to it. */
  lemma InvarianceWithRun<S(!new), A(!new)>(
      step: (S, A) -> Option<S>, inv: (seq<A>, S) -> bool, s: S, actions: seq<A>)
    requires inv([], s)
    requires forall done, t, a :: inv(done, t) && step(t, a).Some? ==> inv(done + [a], step(t, a).value)
    requires Exec(step, s, actions).Some?
    ensures inv(actions, Exec(step, s, actions).value)
  {
    InvarianceFrom(step, inv, [], s, actions);
    assert [] + actions == actions;
  }

  lemma {:induction false} InvarianceFrom<S(!new), A(!new)>(
      step: (S, A) -> Option<S>, inv: (seq<A>, S) -> bool, done: seq<A>, s: S, actions: seq<A>)
    requires inv(done, s)
    requires forall done, t, a :: inv(done, t) && step(t, a).Some? ==> inv(done + [a], step(t, a).value)
    requires Exec(step, s, actions).Some?
    ensures inv(done + actions, Exec(step, s, actions).value)
    decreases |actions|
  {
    if actions == [] {
      assert done + actions == done;
    } else {
      InvarianceFrom(step, inv, done + [actions[0]], step(s, actions[0]).value, actions[1..]);
      assert done + [actions[0]] + actions[1..] == done + actions;
    }
  }

  /** Running one sequence after another is running their concatenation. */
  lemma {:induction false} ExecAppend<S, A>(step: (S, A) -> Option<S>, s: S, first: seq<A>, second: seq<A>)
    requires Exec(step, s, first).Some?
    ensures Exec(step, s, first + second) == Exec(step, Exec(step, s, first).value, second)
  {
    if first == [] {
      assert first + second == second;
    } else {
      ExecAppend(step, step(s, first[0]).value, first[1..], second);
      assert (first + second)[1..] == first[1..] + second;
    }
  }

  /** One more step at the beginning of a run. */
  lemma ExecCons<S, A>(step: (S, A) -> Option<S>, s: S, a: A, actions: seq<A>)
    requires step(s, a).Some?
    ensures Exec(step, s, [a] + actions) == Exec(step, step(s, a).value, actions)
  {
    assert ([a] + actions)[1..] == actions;
  }

  /** One more step at the end of a run. */
  lemma ExecSnoc<S, A>(step: (S, A) -> Option<S>, init: S, run: seq<A>, s: S, a: A)
    requires Exec(step, init, run) == Some(s)
    ensures Exec(step, init, run + [a]) == step(s, a)
  {
    ExecAppend(step, init, run, [a]);
    assert [a][1..] == [];
    if step(s, a).Some? {
      assert Exec(step, step(s, a).value, []) == step(s, a);
    }
  }
}
