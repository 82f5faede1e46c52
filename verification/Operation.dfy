/** The theorems carried over to the code: an operator that runs pass after pass, under any script of environment
    moves, API answers and crashes, goes through a run of the step system, whole pass by whole pass, so that all that
    was shown of runs holds of what its world's log shows. */
module Operation {
  import opened ArkTypes
  import opened Statuses
  import opened World
  import opened Operator
  import opened Coherence
  import opened Reconciler
  import Causes
  import DrainSafety
  import Exclusivity
  import GraceSafety
  import LivePods
  import Phases
  import Recovery
  import RollbackSafety
  import RolloutSafety
  import Slugs
  import StatusAgreement
  import Transitions

  /* ---------- passes ---------- */

  /** The labels are those of n whole passes, one after the other. */
  ghost predicate Passes(origin: State, trail: seq<Label>, n: nat)
    requires Wf(origin)
  {
    if n == 0 then trail == []
    else exists m :: 0 <= m < |trail| && Passes(origin, trail[..m], n - 1) && WholePass(origin, trail, m)
  }

  lemma OnePassMore(origin: State, was: seq<Label>, trail: seq<Label>, n: nat)
    requires Wf(origin) && Passes(origin, was, n) && was <= trail && WholePass(origin, trail, |was|)
    ensures Passes(origin, trail, n + 1)
  {
    hide Run, InOnePass;
    assert trail[..|was|] == was;
  }

  /** The labels used up are those of the script, in its order, and deaths once it is at its end. */
  ghost predicate Scripted(trail: seq<Label>, script: seq<Label>) {
    forall k :: 0 <= k < |trail| ==> trail[k] == if k < |script| then script[k] else Cut
  }

  lemma TrailIsScripted(r: ArkClusterReconciler)
    requires r.Tracks()
    ensures Scripted(r.trail, r.script)
  {
    hide Run, InOnePass;
    var all := r.trail + r.labels;
    forall k | 0 <= k < |r.trail| ensures r.trail[k] == if k < |r.script| then r.script[k] else Cut {
      assert all[k] == r.trail[k];
      if k < |r.script| {
        assert r.script[k] == all[k];
      }
    }
  }

  lemma ScriptedMoves(trail: seq<Label>, script: seq<Label>, l: Label)
    requires Scripted(trail, script) && l in trail && l.Env?
    ensures l in script
  {
    var k :| 0 <= k < |trail| && trail[k] == l;
  }

  /* ---------- what each run shows ---------- */

  /** The state after the first n labels. */
  function Moment(w: World, trail: seq<Label>, n: nat): State
    requires n <= |trail|
  {
    Run(State(w, None), trail[..n])
  }

  /** A deadline stored at any moment stands to the end, or a write after it ended the drain no earlier than it says. */
  ghost predicate DeadlineStands(w: World, trail: seq<Label>, n: nat, id: string, d: int)
    requires n <= |trail|
  {
    var s, t := Moment(w, trail, n), Run(State(w, None), trail);
    DrainSafety.KeepsMap(s, id) && DrainSafety.SpecsKeep(trail[n..], id) && Stored(s, id).deadline == Some(d) ==>
      || Stored(t, id).deadline == Some(d)
      || exists k :: |s.w.log| <= k < |t.w.log| && DrainSafety.EndsDrain(t.w.log[k], id, d)
  }

  lemma DeadlinesStand(w: World, trail: seq<Label>, n: nat, id: string, d: int)
    requires n <= |trail|
    ensures DeadlineStands(w, trail, n, id, d)
  {
    hide Run, Sound, DrainSafety.KeepsMap, DrainSafety.SpecsKeep, DrainSafety.EndsDrain;
    var s := Moment(w, trail, n);
    assert trail[..n] + trail[n..] == trail;
    RunThrough(State(w, None), trail[..n], trail[n..]);
    RunIsSound(State(w, None), trail[..n]);
    if DrainSafety.KeepsMap(s, id) && DrainSafety.SpecsKeep(trail[n..], id) && Stored(s, id).deadline == Some(d) {
      DrainSafety.DeadlineSurvives(s, trail[n..], id, d);
    }
  }

  /** From any moment between passes on, the volume on record stands until a change of it is stored, and pods follow. */
  ghost predicate RecordStands(w: World, trail: seq<Label>, n: nat, id: string)
    requires n <= |trail|
  {
    var s, t := Moment(w, trail, n), Run(State(w, None), trail);
    var v := Defaulted(Stored(s, id).active);
    && s.pass.None? && DrainSafety.KeepsMap(s, id) && DrainSafety.SpecsKeep(trail[n..], id)
    && Recovery.StandsFrom(t.w.log, |s.w.log|, id)
    ==> Defaulted(Stored(t, id).active) == v && Recovery.AllGoTo(t.w.log, |s.w.log|, id, v)
  }

  lemma RecordsStand(w: World, trail: seq<Label>, n: nat, id: string)
    requires n <= |trail|
    ensures RecordStands(w, trail, n, id)
  {
    hide Run, DrainSafety.KeepsMap, DrainSafety.SpecsKeep, Recovery.StandsFrom, Recovery.AllGoTo, Recovery.AllAfterJobs;
    var s, t := Moment(w, trail, n), Run(State(w, None), trail);
    assert trail[..n] + trail[n..] == trail;
    RunThrough(State(w, None), trail[..n], trail[n..]);
    if s.pass.None? && DrainSafety.KeepsMap(s, id) && DrainSafety.SpecsKeep(trail[n..], id)
       && Recovery.StandsFrom(t.w.log, |s.w.log|, id) {
      Recovery.SwapIsRecovered(s, trail[n..], id);
    }
  }

  /** A map that starts out with one live pod at most, on its recorded volume, keeps to that, given that its own
      volume changes were stored and its pods deleted after them. */
  ghost predicate StaysExclusive(w: World, script: seq<Label>, t: World, id: string, always: bool) {
    && w.log == [] && Exclusivity.TidyMap(w, id) && (always || Slugs.MapSlug(id) != "")
    && Exclusivity.SpecFits(w.cluster.spec, id, always) && Exclusivity.EnvFits(script, id, always)
    && Exclusivity.Undisturbed(t.log, id, always)
    ==>
      && LivePods.Sole(t.pods, Slugs.MapSlug(id))
      && Exclusivity.AllExclusive(t.log, id)
      && (!Exclusivity.Open(t.log, id) ==> Exclusivity.TidyMap(t, id))
  }

  lemma MapsStayExclusive(w: World, trail: seq<Label>, script: seq<Label>, id: string, always: bool)
    requires Scripted(trail, script)
    ensures StaysExclusive(w, script, Run(State(w, None), trail).w, id, always)
  {
    hide Run, Scripted, Exclusivity.TidyMap, Exclusivity.SpecFits, Exclusivity.Undisturbed, Exclusivity.AllExclusive;
    hide Exclusivity.Open, LivePods.Sole, Slugs.MapSlug;
    var t := Run(State(w, None), trail).w;
    if && w.log == [] && Exclusivity.TidyMap(w, id) && (always || Slugs.MapSlug(id) != "")
       && Exclusivity.SpecFits(w.cluster.spec, id, always) && Exclusivity.EnvFits(script, id, always)
       && Exclusivity.Undisturbed(t.log, id, always) {
      forall l | l in trail && l.Env? ensures Exclusivity.SpecFits(l.world.cluster.spec, id, always) {
        ScriptedMoves(trail, script, l);
      }
      Exclusivity.MapExclusivity(State(w, None), trail, id, always);
    }
  }

  /** Each status stored at the end of a pass fits the spec it is stored with, where slugs tell the maps apart. */
  ghost predicate StatusFits(w: World, script: seq<Label>, t: World, ids: set<string>) {
    && w.log == [] && StatusAgreement.TellApart(ids) && StatusAgreement.EnvSpecsIn(script, ids)
    && StatusAgreement.MapsIn(w.cluster.spec, ids) && StatusAgreement.StatusIn(w.cluster.status, ids)
    && Distinct(w.cluster.status)
    ==> StatusAgreement.AllAgree(t.log)
  }

  lemma StatusesFit(w: World, trail: seq<Label>, script: seq<Label>, ids: set<string>)
    requires Scripted(trail, script)
    ensures StatusFits(w, script, Run(State(w, None), trail).w, ids)
  {
    hide Run, Scripted, Distinct, StatusAgreement.TellApart, StatusAgreement.MapsIn, StatusAgreement.StatusIn;
    hide StatusAgreement.AllAgree;
    if && w.log == [] && StatusAgreement.TellApart(ids) && StatusAgreement.EnvSpecsIn(script, ids)
       && StatusAgreement.MapsIn(w.cluster.spec, ids) && StatusAgreement.StatusIn(w.cluster.status, ids)
       && Distinct(w.cluster.status) {
      forall l | l in trail && l.Env? ensures StatusAgreement.MapsIn(l.world.cluster.spec, ids) {
        ScriptedMoves(trail, script, l);
      }
      StatusAgreement.StatusAgreesWithSpec(State(w, None), trail, ids);
    }
  }

  /** No grace period of a map is cut short, from a start without a drain of it and under specs that list it once. */
  ghost predicate GraceHolds(w: World, script: seq<Label>, log: seq<Event>, id: string)
    requires |w.log| <= |log|
  {
    && GraceSafety.Once(w.cluster.spec, id) && GraceSafety.EnvOnce(script, id)
    && Entry(w.cluster.status, id).deadline.None?
    ==> GraceSafety.AllHonoured(log[|w.log|..], id)
  }

  lemma GracesHold(w: World, trail: seq<Label>, script: seq<Label>, id: string)
    requires Scripted(trail, script)
    ensures GraceHolds(w, script, Run(State(w, None), trail).w.log, id)
  {
    hide Run, Scripted, GraceSafety.Once, GraceSafety.AllHonoured;
    if && GraceSafety.Once(w.cluster.spec, id) && GraceSafety.EnvOnce(script, id)
       && Entry(w.cluster.status, id).deadline.None? {
      forall l | l in trail && l.Env? ensures GraceSafety.Once(l.world.cluster.spec, id) {
        ScriptedMoves(trail, script, l);
      }
      GraceSafety.GraceIsHonoured(State(w, None), trail, id);
    }
  }

  /** Under OneAtATime no map starts to roll beside one mid-update. */
  ghost predicate GatesHold(w: World, t: World) {
    w.log == [] && Distinct(w.cluster.status) ==> RolloutSafety.AllGated(t.log)
  }

  lemma RunIsGated(w: World, trail: seq<Label>)
    ensures GatesHold(w, Run(State(w, None), trail).w)
  {
    hide Run, Distinct, RolloutSafety.AllGated;
    if w.log == [] && Distinct(w.cluster.status) {
      RolloutSafety.OneAtATimeHolds(State(w, None), trail);
    }
  }

  /** Rollbacks of a map alternate with its swaps, unless it starts out with a rollback armed. */
  ghost predicate NoPingPong(w: World, log: seq<Event>, id: string)
    requires |w.log| <= |log|
  {
    !Transitions.Split(Entry(w.cluster.status, id)) ==> RollbackSafety.Alternates(log[|w.log|..], id)
  }

  lemma RunHasNoPingPong(w: World, trail: seq<Label>, id: string)
    ensures NoPingPong(w, Run(State(w, None), trail).w.log, id)
  {
    hide Run, RollbackSafety.Alternates, Transitions.Split;
    if !Transitions.Split(Entry(w.cluster.status, id)) {
      RollbackSafety.NoPingPong(State(w, None), trail, id);
    }
  }

  lemma RunsAreSafe(w: World, trail: seq<Label>, script: seq<Label>)
    requires Scripted(trail, script)
    ensures forall n: nat, id, d :: n <= |trail| ==> DeadlineStands(w, trail, n, id, d)
    ensures forall n: nat, id :: n <= |trail| ==> RecordStands(w, trail, n, id)
    ensures var t := Run(State(w, None), trail).w;
      && w.log <= t.log && Recovery.AllAfterJobs(t.log, |w.log|)
      && Causes.AllInOrder(t.log, |w.log|) && Phases.AllTold(t.log, |w.log|)
      && GatesHold(w, t)
      && (forall id :: GraceHolds(w, script, t.log, id))
      && (forall id :: NoPingPong(w, t.log, id))
      && (forall id, always :: StaysExclusive(w, script, t, id, always))
      && (forall ids :: StatusFits(w, script, t, ids))
  {
    hide Run, DeadlineStands, RecordStands, NoPingPong, GatesHold, GraceHolds, StaysExclusive, StatusFits, Scripted;
    hide Recovery.AllAfterJobs, Causes.AllInOrder, Phases.AllTold;
    var t := Run(State(w, None), trail).w;
    Causes.RunIsInOrder(State(w, None), trail);
    Phases.RunIsTold(State(w, None), trail);
    Recovery.NoPodWithoutItsJob(State(w, None), trail);
    RunIsGated(w, trail);
    forall n: nat, id, d | n <= |trail| ensures DeadlineStands(w, trail, n, id, d) {
      DeadlinesStand(w, trail, n, id, d);
    }
    forall n: nat, id | n <= |trail| ensures RecordStands(w, trail, n, id) {
      RecordsStand(w, trail, n, id);
    }
    forall id ensures NoPingPong(w, t.log, id) && GraceHolds(w, script, t.log, id) {
      RunHasNoPingPong(w, trail, id);
      GracesHold(w, trail, script, id);
    }
    forall id, always ensures StaysExclusive(w, script, t, id, always) {
      MapsStayExclusive(w, trail, script, id, always);
    }
    forall ids ensures StatusFits(w, script, t, ids) {
      StatusesFit(w, trail, script, ids);
    }
  }

  /* ---------- the code ---------- */

  /** Any number of passes of the code from any world and under any script: it uses up the script label by label and
      whole pass by whole pass, leaves the world where the step system goes under those labels, and each theorem
      about runs holds of it under that theorem's own conditions on the start and the script. */
  method Operate(w: World, script: seq<Label>, passes: nat) returns (r: ArkClusterReconciler)
    ensures r.Tracks() && r.script == script && r.origin == State(w, None)
    ensures Scripted(r.trail, script) && Passes(State(w, None), r.trail, passes)
    ensures State(r.world, None) == Run(State(w, None), r.trail) && w.log <= r.world.log
    ensures forall n: nat, id, d :: n <= |r.trail| ==> DeadlineStands(w, r.trail, n, id, d)
    ensures forall n: nat, id :: n <= |r.trail| ==> RecordStands(w, r.trail, n, id)
    ensures Recovery.AllAfterJobs(r.world.log, |w.log|)
    ensures Causes.AllInOrder(r.world.log, |w.log|) && Phases.AllTold(r.world.log, |w.log|)
    ensures forall id :: NoPingPong(w, r.world.log, id)
    ensures GatesHold(w, r.world)
    ensures forall id :: GraceHolds(w, script, r.world.log, id)
    ensures forall id, always :: StaysExclusive(w, script, r.world, id, always)
    ensures forall ids :: StatusFits(w, script, r.world, ids)
  {
    hide Run, WholePass, InOnePass, DeadlineStands, RecordStands, NoPingPong, GatesHold, GraceHolds, StaysExclusive;
    hide StatusFits, Recovery.AllAfterJobs, Causes.AllInOrder, Phases.AllTold, Scripted;
    r := new ArkClusterReconciler(w, script);
    for k := 0 to passes
      invariant fresh(r) && r.Tracks() && r.Idle() && r.script == script && r.origin == State(w, None)
      invariant Passes(State(w, None), r.trail, k)
    {
      ghost var was := r.trail;
      r.Reconcile();
      OnePassMore(r.origin, was, r.trail, k);
    }
    TrailIsScripted(r);
    assert State(r.world, None) == Run(State(w, None), r.trail);
    assert Run(State(w, None), r.trail).w == r.world;
    RunsAreSafe(w, r.trail, script);
  }
}
