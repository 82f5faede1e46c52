/** Runs of given labels, for theorems that say that something can happen. */
module Runs {
  import opened ArkTypes
  import opened World
  import opened Operator
  import opened Coherence

  /** n calls, all of which succeed. */
  function Oks(n: nat): (labels: seq<Label>)
    ensures |labels| == n && forall k :: 0 <= k < n ==> labels[k] == Act(Ok)
  {
    seq(n, k => Act(Ok))
  }

  lemma Then(s: State, labels: seq<Label>, l: Label)
    requires Wf(s)
    ensures Run(s, labels + [l]) == Step(Run(s, labels), l)
  {
    hide Step;
    assert (labels + [l])[..|labels|] == labels;
    RunLast(s, labels + [l]);
  }

  lemma NoneYet(s: State)
    requires Wf(s)
    ensures Run(s, []) == s && Run(s, Oks(0)) == s
  {
    hide Step;
    assert Oks(0) == [];
  }

  lemma ActedOn(s: State, o: Outcome)
    requires Wf(s)
    ensures Run(s, [Act(o)]) == Action(s, o)
  {
    hide Action;
    assert [] + [Act(o)] == [Act(o)];
    Then(s, [], Act(o));
  }

  lemma OneMore(s: State, n: nat)
    requires Wf(s)
    ensures Run(s, Oks(n + 1)) == Action(Run(s, Oks(n)), Ok)
  {
    hide Action;
    assert Oks(n + 1)[..n] == Oks(n);
    RunLast(s, Oks(n + 1));
  }

  lemma OksAdd(s: State, m: nat, n: nat)
    requires Wf(s)
    ensures Run(s, Oks(m + n)) == Run(Run(s, Oks(m)), Oks(n))
  {
    hide Run;
    assert Oks(m) + Oks(n) == Oks(m + n);
    RunThrough(s, Oks(m), Oks(n));
  }

  lemma EnvIs(s: State, v: World)
    requires Wf(s) && EnvMay(s.w, v) && v.hash == s.w.hash
    ensures Step(s, Env(v)) == s.(w := v)
  {
  }

  /** A move of the environment, then calls that succeed. */
  lemma MoveAndGo(s: State, v: World, n: nat)
    requires Wf(s) && EnvMay(s.w, v) && v.hash == s.w.hash
    ensures Wf(s.(w := v)) && Run(s, [Env(v)] + Oks(n)) == Run(s.(w := v), Oks(n))
  {
    hide Run, Step, EnvMay;
    NoneYet(s);
    assert [] + [Env(v)] == [Env(v)];
    Then(s, [], Env(v));
    EnvIs(s, v);
    RunThrough(s, [Env(v)], Oks(n));
  }

  /** The environment need not touch pods nor statuses. */
  lemma MayMove(w: World, v: World)
    requires UniqueNames(w.pods) && v.pods == w.pods && v.log == w.log && v.clock >= w.clock
    requires v.cluster == w.cluster || (v.cluster.status == w.cluster.status && v.cluster.rev > w.cluster.rev)
    ensures EnvMay(w, v)
  {
    hide UniqueNames;
    forall q | q in v.pods ensures exists p :: p in w.pods && SamePod(p, q) {
      assert SamePod(q, q);
    }
  }

  lemma CutIs(s: State)
    requires Wf(s)
    ensures Step(s, Cut) == State(s.w, None)
  {
  }

  /** The operator dies and comes back. */
  lemma CutAndGo(s: State, before: seq<Label>, after: seq<Label>)
    requires Wf(s)
    ensures Run(s, before + [Cut] + after) == Run(State(Run(s, before).w, None), after)
  {
    hide Run, Step;
    Then(s, before, Cut);
    CutIs(Run(s, before));
    RunThrough(s, before + [Cut], after);
  }
}
