/** What the phase of a map tells: which call sets which phase on what finding, and what a stored final status says
    about the pass that stored it. */
module Phases {
  import opened ArkTypes
  import opened Statuses
  import opened World
  import opened Operator
  import opened Transitions
  import opened Coherence
  import opened Choices
  import opened Effects
  import opened GraceSafety
  import Loops
  import Slugs

  /* ---------- one call ---------- */

  /** The call makes the map's phase this one, whatever it was. */
  ghost predicate Leads(s: State, o: Outcome, phase: MapPhase)
    requires InPass(s)
  {
    var call := s.pass.value.call;
    match phase
    case Running => call.ReadAddress? && HasWanted(s) && call.found.value.ready && !call.found.value.crashing
    case MapFailed => (call.FirstJob? || call.RollJob?) && Seen(s, o) == JobGaveUp
    case InstallingActive => call.FirstInstall? || (call.FirstJob? && Seen(s, o) == JobRunning)
    case InstallingInactive => call.RollInstall? || (call.RollJob? && Seen(s, o) == JobRunning)
    case DrainingActive =>
      call.DrainPersist?
      || (call.RollJob? && Seen(s, o) == JobSucceeded && Mine(s).deadline.Some?
          && s.w.clock < Mine(s).deadline.value)
    case Swapping => call.SwapPersist?
    case Provisioning => call.FirstCreate?
    case _ => false
  }

  /** The map's phase afterwards is the one the call leads to, or else the one before. */
  ghost predicate PhaseFollows(s: State, o: Outcome, after: MapPhase)
    requires InPass(s) && AtMap(s)
  {
    Leads(s, o, after) || (after == Mine(s).phase && forall phase :: !Leads(s, o, phase))
  }

  /** A call leads to one phase at most. */
  lemma LeadsToOne(s: State, o: Outcome, p: MapPhase, q: MapPhase)
    requires InPass(s) && Leads(s, o, p) && Leads(s, o, q)
    ensures p == q
  {
    hide Seen, HasWanted;
  }

  lemma LedThere(s: State, o: Outcome, after: MapPhase, phase: MapPhase)
    requires InPass(s) && AtMap(s) && PhaseFollows(s, o, after) && Leads(s, o, phase)
    ensures after == phase
  {
    hide Leads;
    if Leads(s, o, after) {
      LeadsToOne(s, o, after, phase);
    }
  }

  function PhaseIn(p: Pass, id: string): MapPhase {
    Entry(p.cluster.status, id).phase
  }

  lemma FrontPhases(s: State, o: Outcome)
    requires InPass(s)
      && (s.pass.value.call.EnsureMap? || s.pass.value.call.ReadRevisions? || s.pass.value.call.ListPods?
          || s.pass.value.call.ReadAddress?)
    ensures var t := Action(s, o); t.pass.Some? ==> PhaseFollows(s, o, PhaseIn(t.pass.value, Id(s)))
  {
    hide Action, Slugs.MapSlug, FindActivePod, ReadHash, SetCondition, Says, Seen;
    if s.pass.value.call.ReadAddress? {
      DispatchShows(s, o);
      if HasWanted(s) && s.pass.value.call.found.value.ready && !s.pass.value.call.found.value.crashing {
        assert Leads(s, o, Running);
      }
    } else {
      PrepareResult(s, o);
    }
  }

  /** The phase after a Job was seen without a pod, and with a drifted one. */
  lemma PassPhases(p: Pass, e: MapStatus, verdict: Verdict, hash: string, pod: Pod, now: int)
    requires e == Entry(p.cluster.status, e.id)
    ensures PhaseIn(FirstPass(p, e, verdict, hash, now), e.id)
         == match verdict case JobGaveUp => MapFailed case JobRunning => InstallingActive case _ => e.phase
    ensures PhaseIn(RollPass(p, e, verdict, pod, now), e.id)
         == match verdict
            case JobGaveUp => MapFailed
            case JobRunning => InstallingInactive
            case JobSucceeded => if e.deadline.Some? && now < e.deadline.value then DrainingActive else e.phase
            case JobMissing => e.phase
  {
    hide SetCondition;
  }

  lemma JobPhases(s: State, o: Outcome)
    requires InPass(s) && (s.pass.value.call.FirstJob? || s.pass.value.call.RollJob?)
    ensures var t := Action(s, o); t.pass.Some? ==> PhaseFollows(s, o, PhaseIn(t.pass.value, Id(s)))
  {
    hide Action, Slugs.MapSlug, Seen, Sees, FirstPass, RollPass, PhaseIn;
    var p, call, e := s.pass.value, s.pass.value.call, Mine(s);
    if call.FirstJob? {
      FirstJobSees(s, o);
      PassPhases(p, e, Seen(s, o), call.hash, Pod("", "", Unset, false, false, false), s.w.clock);
    } else {
      RollJobSees(s, o);
      PassPhases(p, e, Seen(s, o), "", call.pod, s.w.clock);
    }
    JobLeads(s, o);
  }

  lemma JobLeads(s: State, o: Outcome)
    requires InPass(s) && (s.pass.value.call.FirstJob? || s.pass.value.call.RollJob?)
    ensures Seen(s, o) == JobGaveUp ==> Leads(s, o, MapFailed)
    ensures Seen(s, o) == JobRunning ==>
      Leads(s, o, if s.pass.value.call.FirstJob? then InstallingActive else InstallingInactive)
  {
    hide Seen;
  }

  lemma MakePhases(s: State, o: Outcome)
    requires InPass(s)
      && (s.pass.value.call.FirstInstall? || s.pass.value.call.FirstCreate? || s.pass.value.call.RollInstall?
          || s.pass.value.call.SwapCreate?)
    ensures var t := Action(s, o); t.pass.Some? ==> PhaseFollows(s, o, PhaseIn(t.pass.value, Id(s)))
  {
    hide Action, Slugs.MapSlug, InstalledWorld, CreatedWorld, Seen;
    match s.pass.value.call
    case FirstInstall => FirstInstallResult(s, o);
    case FirstCreate(_) => FirstCreateResult(s, o);
    case RollInstall => RollInstallResult(s, o);
    case SwapCreate(_) => SwapCreateResult(s, o);
  }

  lemma WritePhases(s: State, o: Outcome)
    requires InPass(s) && IsMapCall(s.pass.value.call) && IsWrite(s.pass.value.call)
    ensures var t := Action(s, o); t.pass.Some? ==> PhaseFollows(s, o, PhaseIn(t.pass.value, Id(s)))
  {
    hide Action, SetCondition, Seen, Put, Write;
    MidWritePuts(s, o);
  }

  lemma RestPhases(s: State, o: Outcome)
    requires InPass(s)
      && (s.pass.value.call.RollbackDelete? || s.pass.value.call.SwapDelete? || s.pass.value.call.Rehash?
          || s.pass.value.call.Announce? || s.pass.value.call.SaveAndExit?)
    ensures var t := Action(s, o); t.pass.Some? ==> PhaseFollows(s, o, PhaseIn(t.pass.value, Id(s)))
  {
    hide Action, DeletedWorld, ReadHash, Seen;
    match s.pass.value.call
    case RollbackDelete(_) => RollbackDeleteResult(s, o);
    case SwapDelete(_) | Rehash => SwappedResult(s, o);
    case Announce | SaveAndExit(_) => MessageResult(s, o);
  }

  /** A step at a map leaves it in the phase its call leads to: Running exactly on a ready pod with the wanted hash that
      does not crash, MapFailed exactly on a failed Job, and so on. */
  lemma PhaseChanges(s: State, o: Outcome)
    requires InPass(s) && IsMapCall(s.pass.value.call)
    ensures var t := Action(s, o); t.pass.Some? ==> PhaseFollows(s, o, PhaseIn(t.pass.value, Id(s)))
  {
    hide Action, PhaseFollows, PhaseIn;
    match s.pass.value.call
    case EnsureMap | ReadRevisions | ListPods(_) | ReadAddress(_, _) => FrontPhases(s, o);
    case FirstJob(_) | RollJob(_) => JobPhases(s, o);
    case FirstInstall | FirstCreate(_) | RollInstall | SwapCreate(_) => MakePhases(s, o);
    case DrainPersist(_) | SwapPersist(_) | RollbackPersist(_) => WritePhases(s, o);
    case _ => RestPhases(s, o);
  }

  /** The entry of a map the pass is not at stays. */
  lemma OthersStay(s: State, o: Outcome, id: string)
    requires InPass(s) && !(IsMapCall(s.pass.value.call) && Id(s) == id)
    ensures var t := Action(s, o);
      t.pass.Some? ==> Entry(t.pass.value.cluster.status, id) == Entry(s.pass.value.cluster.status, id)
  {
    var call := s.pass.value.call;
    if !IsMapCall(call) {
      OutsideStays(s, o);
    } else if IsWrite(call) {
      hide Action, SetCondition;
      MidWritePuts(s, o);
    } else {
      QuietStays(s, o, id);
    }
  }

  lemma OutsideStays(s: State, o: Outcome)
    requires InPass(s) && !IsMapCall(s.pass.value.call)
    ensures var t := Action(s, o); t.pass.Some? ==> t.pass.value.cluster == s.pass.value.cluster
  {
    hide Action, DeletedWorld, Orphans, Finished, Write;
    match s.pass.value.call
    case EnsureCluster => EnsureClusterResult(s, o);
    case ListOrphans => ListOrphansResult(s, o);
    case DeleteOrphan(_) => DeleteOrphanResult(s, o);
    case FinalWrite => FinalResult(s, o);
  }

  lemma QuietStays(s: State, o: Outcome, id: string)
    requires InPass(s) && IsMapCall(s.pass.value.call) && !IsWrite(s.pass.value.call) && Id(s) != id
    ensures var t := Action(s, o);
      t.pass.Some? ==> Entry(t.pass.value.cluster.status, id) == Entry(s.pass.value.cluster.status, id)
  {
    hide Action, SoftStatuses, FlightGrowsBy, Extends;
    ActionIsQuiet(s, o);
  }

  /* ---------- Running ---------- */

  /** The pod in hand was listed as a server of the map that is not going away. */
  predicate FoundIsLive(s: State) {
    s.pass.Some? && s.pass.value.call.ReadAddress? && s.pass.value.call.found.Some? ==>
      AtMap(s) && !s.pass.value.call.found.value.terminating && s.pass.value.call.found.value.slug == Slug(s)
  }

  lemma StepKeepsFoundLive(s: State, l: Label)
    requires Wf(s) && FoundIsLive(s)
    ensures FoundIsLive(Step(s, l))
  {
    hide Action, Slugs.MapSlug;
    if l.Act? {
      var t := Action(s, l.outcome);
      assert Step(s, l) == t;
      if t.pass.Some? && t.pass.value.call.ReadAddress? {
        if s.pass.None? {
          BeginResult(s.w, l.outcome);
        } else {
          ListingFindsLive(s, l.outcome);
        }
      }
    }
  }

  lemma ListingFindsLive(s: State, o: Outcome)
    requires InPass(s) && s.pass.value.call.ListPods?
    ensures FoundIsLive(Action(s, o))
  {
    hide Action, Slugs.MapSlug, FindActivePod;
    PrepareResult(s, o);
    var found := FindActivePod(s.w.pods, Slug(s), s.pass.value.call.hash);
    assert found.Some? ==> Live(found.value, Slug(s));
  }

  lemma {:induction false} RunFindsLive(o: State, labels: seq<Label>)
    requires o.pass.None?
    ensures FoundIsLive(Run(o, labels))
  {
    hide Step, FoundIsLive;
    if labels == [] {
      NothingFound(o);
    } else {
      RunFindsLive(o, labels[..|labels| - 1]);
      RunLast(o, labels);
      StepKeepsFoundLive(Run(o, labels[..|labels| - 1]), labels[|labels| - 1]);
    }
  }

  lemma NothingFound(o: State)
    requires o.pass.None?
    ensures FoundIsLive(o)
  {
  }

  /** In every run: when a step of a pass turns the entry it has of a map to Running, it is the step that had found a
      pod of that map which was not going away, has the hash wanted of it, is ready and does not crash. */
  lemma RunningMeansReady(o: State, labels: seq<Label>, l: Label, id: string)
    requires o.pass.None?
    requires var s := Run(o, labels);
      s.pass.Some? && Step(s, l).pass.Some?
      && PhaseIn(s.pass.value, id) != Running && PhaseIn(Step(s, l).pass.value, id) == Running
    ensures var s := Run(o, labels);
      && AtMap(s) && Id(s) == id && s.pass.value.call.ReadAddress? && s.pass.value.call.found.Some?
      && var pod := s.pass.value.call.found.value;
      && pod.slug == Slugs.MapSlug(id) && !pod.terminating && pod.hash == s.pass.value.call.hash
      && pod.ready && !pod.crashing
  {
    hide Run, Action, Slugs.MapSlug;
    RunFindsLive(o, labels);
    var s := Run(o, labels);
    if l.Act? {
      assert Step(s, l) == Action(s, l.outcome);
      if IsMapCall(s.pass.value.call) && Id(s) == id {
        PhaseChanges(s, l.outcome);
      } else {
        OthersStay(s, l.outcome, id);
      }
    }
  }

  /* ---------- what a final status tells ---------- */

  /** Both events are of one pass. */
  ghost predicate Together(log: seq<Event>, j: nat, k: nat) {
    j <= k <= |log| && forall n :: j < n < k ==> !log[n].Began?
  }

  predicate AsksSwap(e: Event, id: string) {
    e.Wrote? && e.kind == Swap && e.id == id
  }

  /** Between the two, the map's swap was written, stored or refused. */
  ghost predicate SwapBetween(log: seq<Event>, j: nat, k: nat, id: string)
    requires k <= |log|
  {
    exists n :: j < n < k && AsksSwap(log[n], id)
  }

  /** What the phase of a map is to say once its Job was seen: failed; being installed, for the first time or for an
      update; starting; or, with the update installed, draining until the swap. */
  function PhaseTold(seen: Event, swapped: bool): MapPhase
    requires seen.JobSeen?
  {
    match seen.verdict
    case JobGaveUp => MapFailed
    case JobMissing | JobRunning => if seen.rolling then InstallingInactive else InstallingActive
    case JobSucceeded => if !seen.rolling then Provisioning else if swapped then Swapping else DrainingActive
  }

  /** The pass is done with the map. */
  ghost predicate Behind(p: Pass, id: string) {
    !p.call.EnsureCluster? && exists i :: 0 <= i < p.at && i < |p.cluster.spec.maps| && p.cluster.spec.maps[i].id == id
  }

  /** The pass acts on what the Job was seen to be. */
  ghost predicate InHand(s: State, seen: Event, swapped: bool)
    requires Wf(s) && seen.JobSeen?
  {
    && AtMap(s) && Id(s) == seen.id
    && var phase := Mine(s).phase;
    match s.pass.value.call
    case FirstInstall => seen.verdict == JobMissing && !seen.rolling
    case FirstCreate(_) => seen.verdict == JobSucceeded && !seen.rolling
    case RollInstall => seen.verdict == JobMissing && seen.rolling
    case DrainPersist(_) | SaveAndExit(_) | SwapPersist(_) => seen.verdict == JobSucceeded && seen.rolling && !swapped
    case Announce => seen.verdict == JobSucceeded && seen.rolling && !swapped && phase == DrainingActive
    case SwapDelete(_) | Rehash | SwapCreate(_) =>
      seen.verdict == JobSucceeded && seen.rolling && swapped && phase == Swapping
    case _ => false
  }

  ghost predicate Tells(s: State, seen: Event, swapped: bool)
    requires Wf(s) && seen.JobSeen? && s.pass.Some?
  {
    if Behind(s.pass.value, seen.id) then PhaseIn(s.pass.value, seen.id) == PhaseTold(seen, swapped)
    else InHand(s, seen, swapped)
  }

  /** As long as the pass runs that logged the j-th event, its memory tells what it saw. */
  ghost predicate Telling(s: State, j: nat)
    requires Wf(s) && j < |s.w.log| && s.w.log[j].JobSeen?
  {
    var seen, n := s.w.log[j], |s.w.log|;
    s.pass.Some? && Together(s.w.log, j, n) && Once(s.pass.value.cluster.spec, seen.id) ==>
      Tells(s, seen, SwapBetween(s.w.log, j, n, seen.id))
  }

  /* The pass is done with the map: nothing more happens to it. */

  lemma BehindStays(s: State, o: Outcome, id: string)
    requires InPass(s) && Behind(s.pass.value, id) && Once(s.pass.value.cluster.spec, id)
    ensures !(IsMapCall(s.pass.value.call) && Id(s) == id)
    ensures var t := Action(s, o); t.pass.Some? ==> t.pass.value.cluster.spec == s.pass.value.cluster.spec
    ensures var t := Action(s, o); t.pass.Some? ==> Behind(t.pass.value, id)
  {
    hide Action;
    ActionKeepsSpecs(s, o);
  }

  lemma DoneStaysTold(s: State, o: Outcome, seen: Event, swapped: bool)
    requires InPass(s) && seen.JobSeen? && Once(s.pass.value.cluster.spec, seen.id)
    requires Behind(s.pass.value, seen.id) && Tells(s, seen, swapped) && Action(s, o).pass.Some?
    ensures Tells(Action(s, o), seen, swapped)
  {
    BehindStays(s, o, seen.id);
    OthersStay(s, o, seen.id);
    hide Action, Behind, Once;
  }

  lemma LastIsBehind(s: State, t: State)
    requires InPass(s) && Moves(s, t) && t.pass.Some? && t.pass.value.cluster.spec == s.pass.value.cluster.spec
    requires IsMapCall(s.pass.value.call) && StartsMap(t.pass.value.call)
    ensures Behind(t.pass.value, Id(s))
  {
    assert s.pass.value.cluster.spec.maps[s.pass.value.at].id == Id(s);
  }

  lemma HereIsNotBehind(s: State)
    requires AtMap(s) && Once(s.pass.value.cluster.spec, Id(s))
    ensures !Behind(s.pass.value, Id(s))
  {
  }

  /** The phase a map in hand has after the call. */
  lemma PhaseInHand(s: State, o: Outcome, after: MapPhase)
    requires InPass(s) && AtMap(s) && PhaseFollows(s, o, after)
    ensures match s.pass.value.call
      case FirstInstall => after == InstallingActive
      case FirstCreate(_) => after == Provisioning
      case RollInstall => after == InstallingInactive
      case DrainPersist(_) => after == DrainingActive
      case SwapPersist(_) => after == Swapping
      case Announce | SaveAndExit(_) | SwapDelete(_) | Rehash | SwapCreate(_) => after == Mine(s).phase
      case _ => true
  {
    hide Seen;
    match s.pass.value.call
    case FirstInstall => LedThere(s, o, after, InstallingActive);
    case FirstCreate(_) => LedThere(s, o, after, Provisioning);
    case RollInstall => LedThere(s, o, after, InstallingInactive);
    case DrainPersist(_) => LedThere(s, o, after, DrainingActive);
    case SwapPersist(_) => LedThere(s, o, after, Swapping);
    case _ =>
  }

  /** Where a call at the map takes the pass. */
  lemma CallMoves(s: State, o: Outcome)
    requires InPass(s) && Action(s, o).pass.Some?
    ensures Moves(s, Action(s, o)) && Wf(Action(s, o))
    ensures Action(s, o).pass.value.cluster.spec == s.pass.value.cluster.spec
  {
    ActionKeepsSpecs(s, o);
    hide Action;
  }

  /** The last call at the map. */
  lemma LastTells(s: State, o: Outcome, seen: Event, swapped: bool)
    requires InPass(s) && seen.JobSeen? && InHand(s, seen, swapped) && Action(s, o).pass.Some?
    requires StartsMap(Action(s, o).pass.value.call)
    ensures Tells(Action(s, o), seen, swapped)
  {
    var t := Action(s, o);
    CallMoves(s, o);
    PhaseChanges(s, o);
    PhaseInHand(s, o, PhaseIn(t.pass.value, Id(s)));
    LastIsBehind(s, t);
    hide Action, Behind, Leads, PhaseFollows, PhaseIn, PhaseTold;
    TellsAtLast(s, seen, swapped, PhaseIn(t.pass.value, Id(s)), t.pass.value.call);
  }

  /** ... leaves the phase to be told. */
  lemma TellsAtLast(s: State, seen: Event, swapped: bool, after: MapPhase, next: Call)
    requires InPass(s) && seen.JobSeen? && InHand(s, seen, swapped)
    requires Follows(s.pass.value.call, next) && StartsMap(next)
    requires match s.pass.value.call
      case FirstInstall => after == InstallingActive
      case FirstCreate(_) => after == Provisioning
      case RollInstall => after == InstallingInactive
      case DrainPersist(_) => after == DrainingActive
      case SwapPersist(_) => after == Swapping
      case Announce | SaveAndExit(_) | SwapDelete(_) | Rehash | SwapCreate(_) => after == Mine(s).phase
      case _ => true
    ensures after == PhaseTold(seen, swapped)
  {
  }

  /** A call at the map after which there is another. */
  lemma HandStays(s: State, o: Outcome, seen: Event, swapped: bool)
    requires InPass(s) && seen.JobSeen? && InHand(s, seen, swapped) && !s.pass.value.call.SwapPersist?
    requires Once(s.pass.value.cluster.spec, seen.id) && Action(s, o).pass.Some?
    requires !StartsMap(Action(s, o).pass.value.call)
    ensures Tells(Action(s, o), seen, swapped)
  {
    var t := Action(s, o);
    CallMoves(s, o);
    PhaseChanges(s, o);
    PhaseInHand(s, o, PhaseIn(t.pass.value, Id(s)));
    hide Action, Behind, Leads, PhaseFollows, Once, PhaseTold, InHand;
    StillInHand(s, t, seen, swapped);
    HereIsNotBehind(t);
  }

  lemma StillInHand(s: State, t: State, seen: Event, swapped: bool)
    requires InPass(s) && seen.JobSeen? && InHand(s, seen, swapped) && !s.pass.value.call.SwapPersist?
    requires Wf(t) && Moves(s, t) && t.pass.Some? && !StartsMap(t.pass.value.call)
    requires t.pass.value.cluster.spec == s.pass.value.cluster.spec
    requires match s.pass.value.call
      case DrainPersist(_) => PhaseIn(t.pass.value, Id(s)) == DrainingActive
      case Announce | SaveAndExit(_) | SwapDelete(_) | Rehash | SwapCreate(_) =>
        PhaseIn(t.pass.value, Id(s)) == Mine(s).phase
      case _ => true
    ensures AtMap(t) && Id(t) == seen.id && InHand(t, seen, swapped)
  {
  }

  /** The swap write. */
  lemma SwapTells(s: State, o: Outcome, seen: Event)
    requires InPass(s) && seen.JobSeen? && InHand(s, seen, false) && s.pass.value.call.SwapPersist?
    requires Once(s.pass.value.cluster.spec, seen.id) && Action(s, o).pass.Some?
    ensures Tells(Action(s, o), seen, true)
  {
    var t := Action(s, o);
    CallMoves(s, o);
    PhaseChanges(s, o);
    PhaseInHand(s, o, PhaseIn(t.pass.value, Id(s)));
    hide Action, Behind, Leads, PhaseFollows, Once, PhaseTold, InHand;
    SwapInHand(s, t, seen);
    HereIsNotBehind(t);
  }

  lemma SwapInHand(s: State, t: State, seen: Event)
    requires InPass(s) && seen.JobSeen? && InHand(s, seen, false) && s.pass.value.call.SwapPersist?
    requires Wf(t) && Moves(s, t) && t.pass.Some? && t.pass.value.cluster.spec == s.pass.value.cluster.spec
    requires PhaseIn(t.pass.value, Id(s)) == Swapping
    ensures AtMap(t) && Id(t) == seen.id && InHand(t, seen, true)
  {
  }

  /* The Job is seen. */

  lemma FirstSeenTells(s: State, o: Outcome, seen: Event)
    requires InPass(s) && s.pass.value.call.FirstJob? && Once(s.pass.value.cluster.spec, Id(s))
    requires seen.JobSeen? && seen.id == Id(s) && !seen.rolling && seen.verdict == Seen(s, o)
    requires Action(s, o).pass.Some?
    ensures Tells(Action(s, o), seen, false)
  {
    var t := Action(s, o);
    CallMoves(s, o);
    FirstJobDecides(s, o);
    JobPhases(s, o);
    hide Action, Behind, Once, Seen, Sees;
    if StartsMap(t.pass.value.call) {
      FirstLeft(s, o, PhaseIn(t.pass.value, Id(s)));
      LastIsBehind(s, t);
    } else {
      HereIsNotBehind(t);
    }
  }

  lemma FirstLeft(s: State, o: Outcome, after: MapPhase)
    requires InPass(s) && s.pass.value.call.FirstJob? && PhaseFollows(s, o, after)
    ensures Seen(s, o) == JobRunning ==> after == InstallingActive
    ensures Seen(s, o) == JobGaveUp ==> after == MapFailed
  {
    JobLeads(s, o);
    hide Seen, Leads, PhaseFollows;
    if Seen(s, o) == JobRunning {
      LedThere(s, o, after, InstallingActive);
    } else if Seen(s, o) == JobGaveUp {
      LedThere(s, o, after, MapFailed);
    }
  }

  lemma WaitLeads(s: State, o: Outcome)
    requires InPass(s) && s.pass.value.call.RollJob? && Seen(s, o) == JobSucceeded
    requires Mine(s).deadline.Some? && s.w.clock < Mine(s).deadline.value
    ensures Leads(s, o, DrainingActive)
  {
    hide Seen;
  }

  lemma RollLeft(s: State, o: Outcome, after: MapPhase)
    requires InPass(s) && s.pass.value.call.RollJob? && PhaseFollows(s, o, after)
    ensures Seen(s, o) == JobRunning ==> after == InstallingInactive
    ensures Seen(s, o) == JobGaveUp ==> after == MapFailed
    ensures Seen(s, o) == JobSucceeded && Mine(s).deadline.Some? && s.w.clock < Mine(s).deadline.value ==>
      after == DrainingActive
  {
    JobLeads(s, o);
    hide Seen, Leads, PhaseFollows;
    if Seen(s, o) == JobRunning {
      LedThere(s, o, after, InstallingInactive);
    } else if Seen(s, o) == JobGaveUp {
      LedThere(s, o, after, MapFailed);
    } else if Seen(s, o) == JobSucceeded && Mine(s).deadline.Some? && s.w.clock < Mine(s).deadline.value {
      WaitLeads(s, o);
      LedThere(s, o, after, DrainingActive);
    }
  }

  lemma RollSeenTells(s: State, o: Outcome, seen: Event)
    requires InPass(s) && s.pass.value.call.RollJob? && Once(s.pass.value.cluster.spec, Id(s))
    requires seen.JobSeen? && seen.id == Id(s) && seen.rolling && seen.verdict == Seen(s, o)
    requires Action(s, o).pass.Some?
    ensures Tells(Action(s, o), seen, false)
  {
    var t := Action(s, o);
    CallMoves(s, o);
    RollJobDecides(s, o);
    JobPhases(s, o);
    hide Action, Behind, Once, Seen, Sees;
    if StartsMap(t.pass.value.call) {
      RollLeft(s, o, PhaseIn(t.pass.value, Id(s)));
      LastIsBehind(s, t);
    } else {
      HereIsNotBehind(t);
    }
  }

  /* Runs. */

  /** A step that logs what the Job was seen to be starts to tell it. */
  lemma SeeingStartsTelling(s: State, o: Outcome)
    requires InPass(s) && (s.pass.value.call.FirstJob? || s.pass.value.call.RollJob?)
    ensures var t, n := Action(s, o), |s.w.log|; |t.w.log| == n + 1 && t.w.log[n].JobSeen? && Telling(t, n)
  {
    var t, n := Action(s, o), |s.w.log|;
    if s.pass.value.call.FirstJob? {
      FirstJobSees(s, o);
    } else {
      RollJobSees(s, o);
    }
    hide Action, Tells, Once, IsVerdict, IsJobOf;
    assert !SwapBetween(t.w.log, n, n + 1, Id(s));
    if t.pass.Some? && Once(t.pass.value.cluster.spec, Id(s)) {
      CallMoves(s, o);
      if s.pass.value.call.FirstJob? {
        FirstSeenTells(s, o, t.w.log[n]);
      } else {
        RollSeenTells(s, o, t.w.log[n]);
      }
    }
  }

  /** Which step writes a swap, of which map. */
  lemma SwapIsAsked(s: State, o: Outcome, id: string)
    requires InPass(s) && Action(s, o).pass.Some?
    ensures var t, n := Action(s, o), |s.w.log|;
      && n <= |t.w.log| <= n + 1 && t.w.log[..n] == s.w.log
      && ((|t.w.log| > n && AsksSwap(t.w.log[n], id)) <==> (s.pass.value.call.SwapPersist? && Id(s) == id))
      && (|t.w.log| > n ==> !t.w.log[n].Began?)
  {
    var t := Action(s, o);
    if s.pass.value.call.SwapPersist? {
      hide ActSwap;
      SwapWritesEntry(s, o);
    } else {
      hide Action;
    }
  }

  /** Telling goes on. */
  lemma ActionKeepsTelling(s: State, o: Outcome, j: nat)
    requires InPass(s) && j < |s.w.log| && s.w.log[j].JobSeen? && Telling(s, j) && Action(s, o).pass.Some?
    ensures j < |Action(s, o).w.log| && Action(s, o).w.log[j] == s.w.log[j] && Telling(Action(s, o), j)
  {
    var t, n, seen := Action(s, o), |s.w.log|, s.w.log[j];
    SwapIsAsked(s, o, seen.id);
    CallMoves(s, o);
    hide Action, Tells, Once;
    assert t.w.log[j] == t.w.log[..n][j];
    LogTail(s.w.log, t.w.log, j, seen.id);
    if Together(t.w.log, j, |t.w.log|) && Once(t.pass.value.cluster.spec, seen.id) {
      StaysTold(s, o, seen, SwapBetween(s.w.log, j, n, seen.id));
    }
  }

  lemma LogTail(before: seq<Event>, after: seq<Event>, j: nat, id: string)
    requires j < |before| <= |after| <= |before| + 1 && after[..|before|] == before
    ensures Together(after, j, |after|) ==> Together(before, j, |before|)
    ensures SwapBetween(after, j, |after|, id) <==>
      SwapBetween(before, j, |before|, id) || (|after| > |before| && AsksSwap(after[|before|], id))
  {
    hide AsksSwap;
    assert forall n :: 0 <= n < |before| ==> after[n] == before[n];
  }

  lemma StaysTold(s: State, o: Outcome, seen: Event, swapped: bool)
    requires InPass(s) && seen.JobSeen? && Once(s.pass.value.cluster.spec, seen.id) && Action(s, o).pass.Some?
    requires Tells(s, seen, swapped)
    ensures Tells(Action(s, o), seen, swapped || (s.pass.value.call.SwapPersist? && Id(s) == seen.id))
  {
    hide Action, Once, InHand, Behind;
    if Behind(s.pass.value, seen.id) {
      if AtMap(s) && Id(s) == seen.id {
        HereIsNotBehind(s);
      }
      DoneStaysTold(s, o, seen, swapped);
    } else {
      HandGoesOn(s, o, seen, swapped);
    }
  }

  lemma HandGoesOn(s: State, o: Outcome, seen: Event, swapped: bool)
    requires InPass(s) && seen.JobSeen? && Once(s.pass.value.cluster.spec, seen.id) && Action(s, o).pass.Some?
    requires InHand(s, seen, swapped)
    ensures Tells(Action(s, o), seen, swapped || s.pass.value.call.SwapPersist?)
    ensures Id(s) == seen.id
  {
    hide Action, Once, Tells;
    if s.pass.value.call.SwapPersist? {
      SwapTells(s, o, seen);
    } else if StartsMap(Action(s, o).pass.value.call) {
      LastTells(s, o, seen, swapped);
    } else {
      HandStays(s, o, seen, swapped);
    }
  }

  /** The environment's moves and deaths tell nothing new. */
  lemma OtherLabelTells(s: State, l: Label, j: nat)
    requires Wf(s) && !l.Act? && j < |Step(s, l).w.log| && Step(s, l).w.log[j].JobSeen?
    requires j < |s.w.log| && s.w.log[j].JobSeen? ==> Telling(s, j)
    ensures Telling(Step(s, l), j)
  {
    hide Once, Behind, Together, SwapBetween, UniqueNames;
  }

  lemma BeginTells(s: State, o: Outcome, j: nat)
    requires s.pass.None? && j < |Action(s, o).w.log| && Action(s, o).w.log[j].JobSeen?
    ensures Telling(Action(s, o), j)
  {
    hide Action, Tells, Gate;
    BeginResult(s.w, o);
    var t := Action(s, o);
    assert o == Ok ==> t.w.log[|s.w.log|] == Began;
  }

  lemma ActTells(s: State, o: Outcome, j: nat)
    requires InPass(s) && j < |Action(s, o).w.log| && Action(s, o).w.log[j].JobSeen? && Action(s, o).pass.Some?
    requires j < |s.w.log| && s.w.log[j].JobSeen? ==> Telling(s, j)
    ensures Telling(Action(s, o), j)
  {
    hide Action, Telling;
    var t := Action(s, o);
    if j < |s.w.log| {
      assert t.w.log[j] == t.w.log[..|s.w.log|][j];
      ActionKeepsTelling(s, o, j);
    } else {
      SeeingStartsTelling(s, o);
    }
  }

  lemma EndedTells(s: State, j: nat)
    requires s.pass.None? && j < |s.w.log| && s.w.log[j].JobSeen?
    ensures Telling(s, j)
  {
  }

  /** Every step keeps telling what was seen, and starts to tell what it sees. */
  lemma StepTells(s: State, l: Label, j: nat)
    requires Wf(s) && j < |Step(s, l).w.log| && Step(s, l).w.log[j].JobSeen?
    requires j < |s.w.log| && s.w.log[j].JobSeen? ==> Telling(s, j)
    ensures Telling(Step(s, l), j)
  {
    if l.Act? {
      assert Step(s, l) == Action(s, l.outcome);
      hide Action, Telling, Step;
      if s.pass.None? {
        BeginTells(s, l.outcome, j);
      } else if Action(s, l.outcome).pass.None? {
        EndedTells(Action(s, l.outcome), j);
      } else {
        ActTells(s, l.outcome, j);
      }
    } else {
      hide Telling, Step;
      OtherLabelTells(s, l, j);
    }
  }

  lemma {:induction false} RunTells(o: State, labels: seq<Label>, j: nat)
    requires o.pass.None?
    requires |o.w.log| <= j < |Run(o, labels).w.log| && Run(o, labels).w.log[j].JobSeen?
    ensures Telling(Run(o, labels), j)
  {
    hide Step, Telling;
    if labels != [] {
      var r := Run(o, labels[..|labels| - 1]);
      RunLast(o, labels);
      if j < |r.w.log| {
        assert r.w.log[j] == Run(o, labels).w.log[j];
        RunTells(o, labels[..|labels| - 1], j);
      }
      StepTells(r, labels[|labels| - 1], j);
    }
  }

  /** The k-th event stores the final status of a pass that saw the Job of a map: the map's phase tells what it saw, and
      the cluster shows a failure. */
  ghost predicate FinalTells(log: seq<Event>, j: nat, k: nat)
    requires j < k < |log| && log[j].JobSeen?
  {
    var seen, final := log[j], log[k];
    final.Wrote? && final.kind == Final && final.stored && Together(log, j, k) && Once(final.before.spec, seen.id) ==>
      && Has(final.after.status, seen.id)
      && Entry(final.after.status, seen.id).phase == PhaseTold(seen, SwapBetween(log, j, k, seen.id))
      && (seen.verdict == JobGaveUp ==> final.after.summary.phase == Degraded)
  }

  /** What the final write stores of a map it is done with. */
  lemma FinalStores(s: State, o: Outcome, id: string)
    requires InPass(s) && s.pass.value.call.FinalWrite? && Behind(s.pass.value, id) && Synced(s)
    ensures var t, n := Action(s, o), |s.w.log|;
      |t.w.log| > n && t.w.log[n].Wrote? && t.w.log[n].stored ==>
        var final := t.w.log[n];
        && final.before.spec == s.pass.value.cluster.spec
        && Entry(final.after.status, id).phase == PhaseIn(s.pass.value, id)
        && final.after.summary.phase == AggregatePhase(final.after.status)
  {
    hide Slugs.MapSlug, Prune, Kept, CountReady, AggregatePhase, SoftStatuses;
    FinalResult(s, o);
    var c := s.pass.value.cluster;
    PruneEntry(c.status, c.spec, id);
    BehindIsKept(s.pass.value, id);
  }

  lemma BehindIsKept(p: Pass, id: string)
    requires Behind(p, id)
    ensures Kept(p.cluster.spec, Slugs.MapSlug(id))
  {
    hide Slugs.MapSlug;
  }

  lemma {:induction false} EntryIsShown(maps: seq<MapStatus>, id: string)
    requires Entry(maps, id).phase != NoPhase
    ensures Has(maps, id) && Loops.Shows(maps, Entry(maps, id).phase)
  {
    if maps[0].id != id {
      EntryIsShown(maps[1..], id);
      var i :| 0 <= i < |maps[1..]| && maps[1..][i].id == id;
      assert maps[i + 1].id == id;
      var k :| 0 <= k < |maps[1..]| && maps[1..][k].phase == Entry(maps, id).phase;
      assert maps[k + 1].phase == Entry(maps, id).phase;
    }
  }

  /** The step that stores a final status. */
  lemma FinalStepTells(s: State, l: Label, j: nat)
    requires Wf(s) && Sound(s) && j < |s.w.log| < |Step(s, l).w.log| && s.w.log[j].JobSeen? && Telling(s, j)
    ensures Step(s, l).w.log[j] == s.w.log[j] && FinalTells(Step(s, l).w.log, j, |s.w.log|)
  {
    var t, n, seen := Step(s, l), |s.w.log|, s.w.log[j];
    assert t.w.log[j] == t.w.log[..n][j];
    hide Action, Synced, Placed, Once, InHand, Behind;
    var final := t.w.log[n];
    if final.Wrote? && final.kind == Final && final.stored && Together(t.w.log, j, n)
      && Once(final.before.spec, seen.id) {
      assert t == Action(s, l.outcome);
      if s.pass.None? {
        BeginResult(s.w, l.outcome);
      } else {
        WritingFinalTells(s, l.outcome, j);
      }
    }
  }

  lemma WritingFinalTells(s: State, o: Outcome, j: nat)
    requires InPass(s) && Synced(s) && j < |s.w.log| && s.w.log[j].JobSeen? && Telling(s, j)
    requires var t, n := Action(s, o), |s.w.log|;
      |t.w.log| == n + 1 && t.w.log[..n] == s.w.log && t.w.log[n].Wrote? && t.w.log[n].kind == Final
        && t.w.log[n].stored
    ensures FinalTells(Action(s, o).w.log, j, |s.w.log|)
  {
    var t, n, seen := Action(s, o), |s.w.log|, s.w.log[j];
    hide Action, Synced, Once, Slugs.MapSlug;
    OnlyFinalStores(s, o);
    assert t.w.log[j] == t.w.log[..n][j];
    SameUpTo(s.w.log, t.w.log, j, seen.id);
    if Together(t.w.log, j, n) && Once(t.w.log[n].before.spec, seen.id) {
      FinalSpecIsTheirs(s, o);
      FinalStores(s, o, seen.id);
      hide Behind, InHand, PhaseIn;
      var maps := t.w.log[n].after.status;
      EntryIsShown(maps, seen.id);
      Loops.AggregateMeans(maps);
    }
  }

  lemma OnlyFinalStores(s: State, o: Outcome)
    requires InPass(s)
    requires var t, n := Action(s, o), |s.w.log|; |t.w.log| == n + 1 && t.w.log[n].Wrote? && t.w.log[n].kind == Final
    ensures s.pass.value.call.FinalWrite? && !AtMap(s)
  {
    hide Action;
  }

  lemma FinalSpecIsTheirs(s: State, o: Outcome)
    requires InPass(s) && s.pass.value.call.FinalWrite? && Synced(s)
    requires var t, n := Action(s, o), |s.w.log|; |t.w.log| == n + 1 && t.w.log[n].Wrote? && t.w.log[n].stored
    ensures Action(s, o).w.log[|s.w.log|].before.spec == s.pass.value.cluster.spec
  {
    hide Slugs.MapSlug, Prune, Kept, CountReady, AggregatePhase, SoftStatuses;
    FinalResult(s, o);
  }

  lemma SameUpTo(before: seq<Event>, after: seq<Event>, j: nat, id: string)
    requires j < |before| <= |after| && after[..|before|] == before
    ensures Together(after, j, |before|) <==> Together(before, j, |before|)
    ensures SwapBetween(after, j, |before|, id) <==> SwapBetween(before, j, |before|, id)
  {
    hide AsksSwap;
    assert forall n :: 0 <= n < |before| ==> after[n] == before[n];
  }

  lemma TellsInPrefix(shorter: seq<Event>, longer: seq<Event>, j: nat, k: nat)
    requires j < k < |shorter| && shorter <= longer && shorter[j].JobSeen? && FinalTells(shorter, j, k)
    ensures longer[j] == shorter[j] && FinalTells(longer, j, k)
  {
    hide Once, AsksSwap;
    assert forall n :: 0 <= n < |shorter| ==> shorter[n] == longer[n];
    assert SwapBetween(longer, j, k, shorter[j].id) <==> SwapBetween(shorter, j, k, shorter[j].id);
  }

  /** In every run, whatever fails: when a pass saw the init Job of a map that its spec lists once, and stored its final
      status, that status tells what the pass saw and did: MapFailed if and only if the Job had failed, and the cluster
      Degraded then; InstallingActive or InstallingInactive while it is not done; Provisioning once a first install is
      done; and with the update installed DrainingActive, or Swapping if the swap was written. */
  lemma {:induction false} FinalStatusTells(o: State, labels: seq<Label>, j: nat, k: nat)
    requires o.pass.None?
    requires |o.w.log| <= j < k < |Run(o, labels).w.log| && Run(o, labels).w.log[j].JobSeen?
    ensures FinalTells(Run(o, labels).w.log, j, k)
  {
    hide Step, FinalTells, Telling, Sound;
    if labels != [] {
      var shorter := labels[..|labels| - 1];
      var r := Run(o, shorter);
      RunLast(o, labels);
      if k < |r.w.log| {
        FinalStatusTells(o, shorter, j, k);
        TellsInPrefix(r.w.log, Run(o, labels).w.log, j, k);
      } else {
        assert r.w.log[j] == Run(o, labels).w.log[j];
        RunTells(o, shorter, j);
        RunIsSound(o, shorter);
        FinalStepTells(r, labels[|labels| - 1], j);
      }
    }
  }

  ghost predicate AllTold(log: seq<Event>, n: nat) {
    forall j, k :: n <= j < k < |log| && log[j].JobSeen? ==> FinalTells(log, j, k)
  }

  lemma RunIsTold(o: State, labels: seq<Label>)
    requires o.pass.None?
    ensures AllTold(Run(o, labels).w.log, |o.w.log|)
  {
    hide Run, FinalTells;
    var log := Run(o, labels).w.log;
    forall j, k | |o.w.log| <= j < k < |log| && log[j].JobSeen? ensures FinalTells(log, j, k) {
      FinalStatusTells(o, labels, j, k);
    }
  }
}
