/** Sequences of steps from a given state. */
module Runs {
  import opened Prelude
  import opened Protocol

  /** The states that a sequence of actions leads to. */
  function NextAll(env: Env, s: State, actions: seq<Action>): Option<State> {
    if actions == [] then Some(s)
    else
      match NextAll(env, s, actions[..|actions| - 1])
      case None => None
      case Some(mid) => Next(env, mid, actions[|actions| - 1])
  }

  lemma {:induction false} NextAllAppend(env: Env, s: State, actions: seq<Action>, a: Action)
    ensures NextAll(env, s, actions + [a])
         == match NextAll(env, s, actions) case None => None case Some(mid) => Next(env, mid, a)
  {
    hide Next;
    assert (actions + [a])[..|actions|] == actions;
  }

  lemma {:induction false} NextAllConcat(env: Env, s: State, front: seq<Action>, back: seq<Action>)
    ensures NextAll(env, s, front + back)
         == match NextAll(env, s, front) case None => None case Some(mid) => NextAll(env, mid, back)
  {
    hide Next;
    if back == [] {
      assert front + [] == front;
    } else {
      NextAllConcat(env, s, front, back[..|back| - 1]);
      assert (front + back)[..|front + back| - 1] == front + back[..|back| - 1];
    }
  }

  /** Executions go on where they stopped. */
  lemma {:induction false} ExecuteThen(env: Env, trace: seq<Action>, actions: seq<Action>)
    requires Execute(env, trace).Some?
    ensures Execute(env, trace + actions) == NextAll(env, Execute(env, trace).value, actions)
  {
    hide Next;
    if actions == [] {
      assert trace + [] == trace;
    } else {
      ExecuteThen(env, trace, actions[..|actions| - 1]);
      assert (trace + actions)[..|trace + actions| - 1] == trace + actions[..|actions| - 1];
    }
  }
}
