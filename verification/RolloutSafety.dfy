/** OneAtATime: while some map is mid-update, no other map can join it. */
module RolloutSafety {
  import opened ArkTypes
  import opened Statuses
  import opened World
  import opened Operator
  import opened Transitions
  import opened Coherence
  import Slugs

  /** A stored write of a pass under a gating policy that began with a map in flight adds none to them. */
  ghost predicate GateHolds(e: Event) {
    && (e.Wrote? && e.stored && e.gated && FirstInFlight(e.start) != "" ==>
          FlightGrowsBy(e.start, e.after.status, None))
    && (e.JobSeen? && e.rolling && e.gated && FirstInFlight(e.start) != "" ==> e.id == FirstInFlight(e.start))
  }

  ghost predicate AllGated(log: seq<Event>) {
    forall k :: 0 <= k < |log| ==> GateHolds(log[k])
  }

  ghost predicate Gated(s: State)
    requires Wf(s)
  {
    && Distinct(s.w.cluster.status)
    && (s.pass.Some? ==>
          var p := s.pass.value;
          && Distinct(p.start) && Distinct(p.cluster.status)
          && p.gate == (if p.cluster.spec.rollout == Parallel then "" else FirstInFlight(p.start))
          && (p.gate != "" ==> FlightGrowsBy(p.start, p.cluster.status, None))
          && (IsRoll(p.call) && p.gate != "" ==> Id(s) == p.gate))
  }

  lemma {:induction false} FirstInFlightIsInFlight(maps: seq<MapStatus>)
    requires Distinct(maps) && FirstInFlight(maps) != ""
    ensures InFlight(Entry(maps, FirstInFlight(maps)).phase)
  {
    if !InFlight(maps[0].phase) {
      FirstInFlightIsInFlight(maps[1..]);
      FirstInFlightIsListed(maps[1..]);
    }
  }

  lemma {:induction false} FirstInFlightIsListed(maps: seq<MapStatus>)
    requires FirstInFlight(maps) != ""
    ensures exists i :: 0 <= i < |maps| && maps[i].id == FirstInFlight(maps)
  {
    if !InFlight(maps[0].phase) {
      FirstInFlightIsListed(maps[1..]);
      var i :| 0 <= i < |maps[1..]| && maps[1..][i].id == FirstInFlight(maps[1..]);
      assert maps[i + 1].id == FirstInFlight(maps);
    }
  }

  /** Letting the gating map back in flight adds nothing to what was in flight at the start. */
  lemma FlightTrans(start: seq<MapStatus>, a: seq<MapStatus>, b: seq<MapStatus>, entering: Option<string>)
    requires Distinct(start) && FirstInFlight(start) != ""
    requires entering.Some? ==> entering.value == FirstInFlight(start)
    requires FlightGrowsBy(start, a, None) && FlightGrowsBy(a, b, entering)
    ensures FlightGrowsBy(start, b, None)
  {
    FirstInFlightIsInFlight(start);
  }

  lemma QuietKeepsGated(s: State, t: State)
    requires InPass(s) && Wf(t) && Quiet(s, t) && Gated(s)
    requires t.pass.Some? && IsRoll(t.pass.value.call) && t.pass.value.gate != "" ==> Id(t) == t.pass.value.gate
    ensures Gated(t)
  {
    hide FlightGrowsBy, FirstInFlight, OthersKept, SoftStatuses;
    if t.pass.Some? && t.pass.value.gate != "" {
      FlightTrans(s.pass.value.start, s.pass.value.cluster.status, t.pass.value.cluster.status, Rolling(s));
    }
  }

  lemma WriteKeepsGated(s: State, t: State, kind: WriteKind, e: MapStatus)
    requires InPass(s) && AtMap(s) && Wf(t) && WritesEntry(s, t, kind, e) && e.id == Id(s) && Gated(s)
    requires InFlight(e.phase) ==> InFlight(Mine(s).phase) || IsRoll(s.pass.value.call)
    requires WriteStaysGated(s, t)
    ensures Gated(t)
    ensures |t.w.log| > |s.w.log| ==> GateHolds(t.w.log[|s.w.log|])
  {
    var maps := s.pass.value.cluster.status;
    PutKeepsDistinct(maps, e);
    PutEntersFlight(maps, e, Rolling(s));
    hide FlightGrowsBy, FirstInFlight;
    if s.pass.value.gate != "" {
      FlightTrans(s.pass.value.start, maps, Put(maps, e), Rolling(s));
    }
  }

  lemma {:induction false} PruneKeepsDistinct(maps: seq<MapStatus>, spec: Spec)
    requires Distinct(maps)
    ensures Distinct(Prune(maps, spec))
    ensures forall m :: m in Prune(maps, spec) ==> m in maps
  {
    hide Kept, Slugs.MapSlug;
    if maps != [] {
      var rest := Prune(maps[1..], spec);
      PruneKeepsDistinct(maps[1..], spec);
      forall m | m in rest ensures m in maps && m.id != maps[0].id {
        assert m in maps[1..];
      }
    }
  }

  lemma PruneEntersNothing(maps: seq<MapStatus>, spec: Spec)
    ensures FlightGrowsBy(maps, Prune(maps, spec), None)
  {
    forall id ensures InFlight(Entry(Prune(maps, spec), id).phase) ==> InFlight(Entry(maps, id).phase) {
      PruneEntry(maps, spec, id);
    }
  }

  lemma FinalWriteEvent(s: State, o: Outcome)
    requires InPass(s) && s.pass.value.call.FinalWrite?
    ensures |ActFinish(s, o).w.log| > |s.w.log| ==>
      var e := ActFinish(s, o).w.log[|s.w.log|];
      e.Wrote? && e.start == s.pass.value.start && e.gated == (s.pass.value.cluster.spec.rollout != Parallel)
      && (e.stored ==> e.after.status == Prune(s.pass.value.cluster.status, s.pass.value.cluster.spec))
  {
    hide Prune, CountReady, AggregatePhase;
  }

  lemma FinalWriteKeepsGated(s: State, o: Outcome)
    requires InPass(s) && s.pass.value.call.FinalWrite? && Gated(s)
    ensures Gated(ActFinish(s, o))
    ensures |ActFinish(s, o).w.log| > |s.w.log| ==> GateHolds(ActFinish(s, o).w.log[|s.w.log|])
  {
    var maps, spec := s.pass.value.cluster.status, s.pass.value.cluster.spec;
    FinalWriteEffect(s, o);
    FinalWriteEvent(s, o);
    PruneKeepsDistinct(maps, spec);
    PruneEntersNothing(maps, spec);
    hide ActFinish, Prune, FlightGrowsBy, FirstInFlight;
    if s.pass.value.gate != "" {
      FlightTrans(s.pass.value.start, maps, Prune(maps, spec), None);
    }
  }

  ghost predicate RollsGate(s: State)
    requires Wf(s)
  {
    s.pass.Some? && IsRoll(s.pass.value.call) && s.pass.value.gate != "" ==> Id(s) == s.pass.value.gate
  }

  lemma DispatchRollsGate(s: State, o: Outcome)
    requires InPass(s) && s.pass.value.call.ReadAddress?
    ensures RollsGate(ActDispatch(s, o))
  {
  }

  lemma QuietRollsGate(s: State, t: State)
    requires InPass(s) && Wf(t) && Moves(s, t) && !s.pass.value.call.ReadAddress? && RollsGate(s)
    requires t.pass.Some? ==>
      t.pass.value.gate == s.pass.value.gate && t.pass.value.cluster.spec == s.pass.value.cluster.spec
    ensures RollsGate(t)
  {
  }

  lemma QuietEventIsGated(s: State, o: Outcome)
    requires InPass(s) && !IsWrite(s.pass.value.call) && Gated(s)
    ensures |Action(s, o).w.log| > |s.w.log| ==> GateHolds(Action(s, o).w.log[|s.w.log|])
  {
    ActionIsQuiet(s, o);
    hide ActPrepare, ActDispatch, ActFirst, ActRollback, ActDrain, ActSwap, ActSwapped, ActFinish, FlightGrowsBy;
  }

  lemma MidWriteKeepsGated(s: State, o: Outcome)
    requires InPass(s) && IsWrite(s.pass.value.call) && !s.pass.value.call.FinalWrite? && Gated(s)
    ensures Gated(Action(s, o))
    ensures |Action(s, o).w.log| > |s.w.log| ==> GateHolds(Action(s, o).w.log[|s.w.log|])
  {
    hide ActPrepare, ActDispatch, ActFirst, ActRollback, ActRoll, ActDrain, ActSwap, ActSwapped, ActFinish;
    hide GateHolds, Gated, WritesEntry;
    var t := Action(s, o);
    WriteRollsGate(s, t);
    match s.pass.value.call
    case DrainPersist(since) =>
      DrainWritesEntry(s, o);
      WriteKeepsGated(s, t, DrainStart(since, Grace(s.pass.value.cluster.spec)),
        AtDrainStart(Mine(s), since, s.pass.value.cluster.spec));
    case SwapPersist(_) =>
      SwapWritesEntry(s, o);
      WriteKeepsGated(s, t, Swap, AtSwap(Mine(s)));
    case RollbackPersist(_) =>
      RollbackWritesEntry(s, o);
      WriteKeepsGated(s, t, Rollback, AtRollback(Mine(s), s.w.clock));
  }

  /** A write that rolls on stays at its map, which the gate let roll. */
  lemma WriteRollsGate(s: State, t: State)
    requires InPass(s) && IsWrite(s.pass.value.call) && !s.pass.value.call.FinalWrite? && Gated(s) && Wf(t)
      && Moves(s, t)
    ensures WriteStaysGated(s, t)
  {
  }

  predicate WriteStaysGated(s: State, t: State)
    requires InPass(s) && AtMap(s) && Wf(t)
  {
    t.pass.Some? && IsRoll(t.pass.value.call) ==>
      t.pass.value.at == s.pass.value.at && (s.pass.value.gate != "" ==> Id(s) == s.pass.value.gate)
  }

  lemma ActionKeepsGated(s: State, o: Outcome)
    requires Wf(s) && Gated(s)
    ensures Gated(Action(s, o))
    ensures |Action(s, o).w.log| > |s.w.log| ==> GateHolds(Action(s, o).w.log[|s.w.log|])
  {
    hide ActPrepare, ActDispatch, ActFirst, ActRollback, ActRoll, ActDrain, ActSwap, ActSwapped, ActFinish;
    hide GateHolds, Gated;
    if s.pass.None? {
      BeginKeepsGated(s, o);
    } else {
      match s.pass.value.call
      case DrainPersist(_) | SwapPersist(_) | RollbackPersist(_) => MidWriteKeepsGated(s, o);
      case FinalWrite => FinalWriteKeepsGated(s, o);
      case _ =>
        QuietKeepsGate(s, o);
        QuietEventIsGated(s, o);
    }
  }

  lemma QuietKeepsGate(s: State, o: Outcome)
    requires InPass(s) && !IsWrite(s.pass.value.call) && Gated(s)
    ensures Gated(Action(s, o))
  {
    hide ActPrepare, ActDispatch, ActFirst, ActRollback, ActRoll, ActDrain, ActSwap, ActSwapped, ActFinish;
    var t := Action(s, o);
    ActionIsQuiet(s, o);
    if s.pass.value.call.ReadAddress? {
      DispatchRollsGate(s, o);
    } else {
      QuietRollsGate(s, t);
    }
    QuietKeepsGated(s, t);
  }

  lemma BeginKeepsGated(s: State, o: Outcome)
    requires s.pass.None? && Gated(s)
    ensures Gated(ActBegin(s, o))
    ensures |ActBegin(s, o).w.log| > |s.w.log| ==> GateHolds(ActBegin(s, o).w.log[|s.w.log|])
  {
  }

  lemma {:induction false} RunKeepsGated(s: State, labels: seq<Label>)
    requires Wf(s) && Gated(s) && AllGated(s.w.log)
    ensures Gated(Run(s, labels)) && AllGated(Run(s, labels).w.log)
  {
    hide Action, GateHolds;
    if labels != [] {
      var prefix, l := labels[..|labels| - 1], labels[|labels| - 1];
      RunKeepsGated(s, prefix);
      var r, t := Run(s, prefix), Run(s, labels);
      if l.Act? {
        ActionKeepsGated(r, l.outcome);
        forall k | 0 <= k < |t.w.log| ensures GateHolds(t.w.log[k]) {
          assert k < |r.w.log| ==> t.w.log[k] == t.w.log[..|r.w.log|][k];
        }
      }
    }
  }

  /** In every run, the set of maps mid-update only grows through writes of passes that began with none mid-update,
      or under the Parallel policy; and a pass that began with some rolls none but the first of them. */
  lemma OneAtATimeHolds(s: State, labels: seq<Label>)
    requires s.pass.None? && s.w.log == [] && Distinct(s.w.cluster.status)
    ensures AllGated(Run(s, labels).w.log)
  {
    RunKeepsGated(s, labels);
  }
}
