/** Automatic rollback cannot ping-pong: between two stored rollbacks of a map lies a stored swap. */
module RollbackSafety {
  import opened Statuses
  import opened World
  import opened Operator
  import opened Transitions
  import opened Coherence

  predicate IsRollback(e: Event, id: string) {
    e.Wrote? && e.stored && e.kind == Rollback && e.id == id
  }

  /** Some swap of the map has not been rolled back since. */
  ghost predicate Armed(log: seq<Event>, id: string) {
    exists j :: 0 <= j < |log| && IsSwap(log[j], id) && NoRollback(log[j..], id)
  }

  ghost predicate NoRollback(log: seq<Event>, id: string) {
    forall k :: 0 <= k < |log| ==> !IsRollback(log[k], id)
  }

  /** Every rollback finds a swap since the rollback before it. */
  ghost predicate Alternates(log: seq<Event>, id: string) {
    forall k :: 0 <= k < |log| && IsRollback(log[k], id) ==> Armed(log[..k], id)
  }

  function Swaps(log: seq<Event>, id: string): nat {
    if log == [] then 0 else Swaps(log[..|log| - 1], id) + (if IsSwap(log[|log| - 1], id) then 1 else 0)
  }

  function Rollbacks(log: seq<Event>, id: string): nat {
    if log == [] then 0 else Rollbacks(log[..|log| - 1], id) + (if IsRollback(log[|log| - 1], id) then 1 else 0)
  }

  lemma ArmedExtends(log: seq<Event>, e: Event, id: string)
    requires Armed(log, id) && !IsRollback(e, id)
    ensures Armed(log + [e], id)
  {
    var j :| 0 <= j < |log| && IsSwap(log[j], id) && NoRollback(log[j..], id);
    assert (log + [e])[j..] == log[j..] + [e];
  }

  lemma SwapArms(log: seq<Event>, e: Event, id: string)
    requires IsSwap(e, id)
    ensures Armed(log + [e], id)
  {
    assert (log + [e])[|log|] == e;
    assert (log + [e])[|log|..] == [e];
  }

  lemma ArmedBefore(log: seq<Event>, id: string)
    requires log != [] && Armed(log, id)
    ensures IsSwap(log[|log| - 1], id) || Armed(log[..|log| - 1], id)
    ensures !IsRollback(log[|log| - 1], id)
  {
    var n := |log| - 1;
    var j :| 0 <= j < |log| && IsSwap(log[j], id) && NoRollback(log[j..], id);
    assert log[j..][n - j] == log[n];
    if j < n {
      assert log[..n][j] == log[j];
      assert log[..n][j..] == log[j..][..n - j];
    }
  }

  /** Alternation bounds the counts. */
  lemma {:induction false} AlternationCounts(log: seq<Event>, id: string)
    requires Alternates(log, id)
    ensures Rollbacks(log, id) + (if Armed(log, id) then 1 else 0) <= Swaps(log, id)
  {
    if log != [] {
      var n := |log| - 1;
      var rest := log[..n];
      assert forall k :: 0 <= k < n ==> rest[k] == log[k] && rest[..k] == log[..k];
      AlternationCounts(rest, id);
      if Armed(log, id) {
        ArmedBefore(log, id);
      }
    }
  }

  lemma AlternatesExtends(log: seq<Event>, e: Event, id: string)
    requires Alternates(log, id)
    requires IsRollback(e, id) ==> Armed(log, id)
    ensures Alternates(log + [e], id)
  {
    var log' := log + [e];
    forall k | 0 <= k < |log'| && IsRollback(log'[k], id) ensures Armed(log'[..k], id) {
      assert log'[..k] == log[..k];
      assert k == |log| ==> log[..k] == log;
    }
  }

  /* ---------- the invariant ---------- */

  /** A map whose last good volume is not its active one has an unrolled swap behind it since event b. */
  ghost predicate Tracked(s: State, b: nat, id: string) {
    && b <= |s.w.log|
    && Alternates(s.w.log[b..], id)
    && (Split(Stored(s, id)) ==> Armed(s.w.log[b..], id))
    && (Current(s) && Split(Entry(s.pass.value.cluster.status, id)) ==> Armed(s.w.log[b..], id))
  }

  /** The log of t is that of s plus at most an event that is neither swap nor rollback of the map. */
  ghost predicate Plain(s: State, t: State, id: string) {
    || t.w.log == s.w.log
    || (|t.w.log| == |s.w.log| + 1 && t.w.log[..|s.w.log|] == s.w.log
        && !IsSwap(t.w.log[|s.w.log|], id) && !IsRollback(t.w.log[|s.w.log|], id))
  }

  lemma PlainKeepsTracked(s: State, t: State, b: nat, id: string)
    requires Tracked(s, b, id) && Plain(s, t, id)
    requires Split(Stored(t, id)) ==> Armed(s.w.log[b..], id)
    requires Current(t) && Split(Entry(t.pass.value.cluster.status, id)) ==> Armed(s.w.log[b..], id)
    ensures Tracked(t, b, id)
  {
    if t.w.log != s.w.log {
      var e := t.w.log[|s.w.log|];
      assert t.w.log[b..] == s.w.log[b..] + [e];
      AlternatesExtends(s.w.log[b..], e, id);
      if Armed(s.w.log[b..], id) {
        ArmedExtends(s.w.log[b..], e, id);
      }
    }
  }

  lemma QuietKeepsTracked(s: State, t: State, b: nat, id: string)
    requires InPass(s) && Quiet(s, t) && Tracked(s, b, id)
    ensures Tracked(t, b, id)
  {
    if t.pass.Some? {
      assert Soft(Entry(s.pass.value.cluster.status, id), Entry(t.pass.value.cluster.status, id));
    }
    PlainKeepsTracked(s, t, b, id);
  }

  lemma DrainWriteKeepsTracked(s: State, o: Outcome, b: nat, id: string)
    requires InPass(s) && s.pass.value.call.DrainPersist? && Tracked(s, b, id)
    ensures Tracked(ActDrain(s, o), b, id)
  {
    hide Armed, Alternates;
    PlainKeepsTracked(s, ActDrain(s, o), b, id);
  }

  lemma SwapWriteKeepsTracked(s: State, o: Outcome, b: nat, id: string)
    requires InPass(s) && s.pass.value.call.SwapPersist? && Tracked(s, b, id)
    ensures Tracked(ActSwap(s, o), b, id)
  {
    hide Armed, Alternates;
    var t := ActSwap(s, o);
    if id != Id(s) || t.w.cluster == s.w.cluster {
      PlainKeepsTracked(s, t, b, id);
    } else {
      var e := t.w.log[|s.w.log|];
      assert t.w.log[b..] == s.w.log[b..] + [e];
      AlternatesExtends(s.w.log[b..], e, id);
      SwapArms(s.w.log[b..], e, id);
    }
  }

  lemma RollbackWriteKeepsTracked(s: State, o: Outcome, b: nat, id: string)
    requires InPass(s) && s.pass.value.call.RollbackPersist? && Tracked(s, b, id) && Placed(s)
    ensures Tracked(ActRollback(s, o), b, id)
  {
    hide Armed, Alternates;
    var t := ActRollback(s, o);
    if id != Id(s) || t.w.cluster == s.w.cluster {
      PlainKeepsTracked(s, t, b, id);
    } else {
      var e := t.w.log[|s.w.log|];
      assert t.w.log[b..] == s.w.log[b..] + [e];
      AlternatesExtends(s.w.log[b..], e, id);
    }
  }

  lemma FinalWriteKeepsTracked(s: State, o: Outcome, b: nat, id: string)
    requires InPass(s) && s.pass.value.call.FinalWrite? && Tracked(s, b, id)
    ensures Tracked(ActFinish(s, o), b, id)
  {
    FinalWriteEffect(s, o);
    PruneEntry(s.pass.value.cluster.status, s.pass.value.cluster.spec, id);
    FinalWriteIsPlain(s, o, id);
    hide Armed, Alternates, ActFinish, Prune;
    PlainKeepsTracked(s, ActFinish(s, o), b, id);
  }

  lemma FinalWriteIsPlain(s: State, o: Outcome, id: string)
    requires InPass(s) && s.pass.value.call.FinalWrite?
    ensures Plain(s, ActFinish(s, o), id)
  {
    hide Finished;
  }

  lemma BeginKeepsTracked(s: State, o: Outcome, b: nat, id: string)
    requires s.pass.None? && Tracked(s, b, id)
    ensures Tracked(ActBegin(s, o), b, id)
  {
    hide Armed, Alternates;
    PlainKeepsTracked(s, ActBegin(s, o), b, id);
  }

  lemma ActionKeepsTracked(s: State, o: Outcome, b: nat, id: string)
    requires Wf(s) && Tracked(s, b, id) && Placed(s)
    ensures Tracked(Action(s, o), b, id)
  {
    hide ActPrepare, ActDispatch, ActFirst, ActRollback, ActRoll, ActDrain, ActSwap, ActSwapped, ActFinish, ActBegin;
    hide Tracked, Placed;
    if s.pass.None? {
      BeginKeepsTracked(s, o, b, id);
    } else {
      match s.pass.value.call
      case DrainPersist(_) => DrainWriteKeepsTracked(s, o, b, id);
      case SwapPersist(_) => SwapWriteKeepsTracked(s, o, b, id);
      case RollbackPersist(_) => RollbackWriteKeepsTracked(s, o, b, id);
      case FinalWrite => FinalWriteKeepsTracked(s, o, b, id);
      case _ =>
        ActionIsQuiet(s, o);
        QuietKeepsTracked(s, Action(s, o), b, id);
    }
  }

  lemma StepKeepsTracked(s: State, l: Label, b: nat, id: string)
    requires Wf(s) && Sound(s) && Tracked(s, b, id)
    ensures Tracked(Step(s, l), b, id)
  {
    hide Armed, Alternates, Action;
    if l.Act? {
      ActionKeepsTracked(s, l.outcome, b, id);
    }
  }

  lemma {:induction false} RunKeepsTracked(s: State, labels: seq<Label>, b: nat, id: string)
    requires Wf(s) && Sound(s) && Tracked(s, b, id)
    ensures Sound(Run(s, labels)) && Tracked(Run(s, labels), b, id)
  {
    hide Sound, Armed, Alternates, Action;
    if labels != [] {
      var prefix, l := labels[..|labels| - 1], labels[|labels| - 1];
      RunKeepsTracked(s, prefix, b, id);
      var r := Run(s, prefix);
      StepKeepsSound(r, l);
      StepKeepsTracked(r, l, b, id);
    }
  }

  /** From any moment between passes at which the map's last good volume is its active one, or none is recorded:
      in every run, each stored rollback has a stored swap between it and the rollback before it, and at no point
      have there been more rollbacks than swaps. */
  lemma NoPingPong(s: State, labels: seq<Label>, id: string)
    requires s.pass.None? && !Split(Stored(s, id))
    ensures var log := Run(s, labels).w.log[|s.w.log|..];
      && Alternates(log, id)
      && (forall n :: 0 <= n <= |log| ==> Rollbacks(log[..n], id) <= Swaps(log[..n], id))
  {
    RunKeepsTracked(s, labels, |s.w.log|, id);
    var log := Run(s, labels).w.log[|s.w.log|..];
    forall n | 0 <= n <= |log| ensures Rollbacks(log[..n], id) <= Swaps(log[..n], id) {
      assert forall k :: 0 <= k < n ==> log[..n][k] == log[k] && log[..n][..k] == log[..k];
      AlternationCounts(log[..n], id);
    }
  }
}
