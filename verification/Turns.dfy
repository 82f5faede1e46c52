/** One map's turn in an undisturbed pass, taken as a single step on what concerns that map alone, and the measure
    of how far the map still is from running as wanted. */
module Turns {
  import opened ArkTypes
  import opened World
  import opened Operator

  /** All that the turn of a map reads and changes: its entry, its live pod, its two init Jobs. */
  datatype Local = Local(entry: MapStatus, pod: Option<Pod>, jobA: Verdict, jobB: Verdict)

  /** What the turn only reads. `held` is the OneAtATime hold-back. */
  datatype Setting = Setting(slug: string, spec: Spec, clock: int, address: Option<string>, desired: Volume -> string,
    held: bool)

  function JobOf(l: Local, side: Side): Verdict {
    if side == SideA then l.jobA else l.jobB
  }

  function Started(l: Local, side: Side): Local {
    if side == SideA then l.(jobA := JobRunning) else l.(jobB := JobRunning)
  }

  /** The entry once the volume is chosen and the address refreshed. */
  function Ready(x: Setting, l: Local): (e: MapStatus)
    ensures e.id == l.entry.id && e.deadline == l.entry.deadline && e.active == Defaulted(l.entry.active)
    ensures e.phase == l.entry.phase && e.conditions == l.entry.conditions
  {
    var e := l.entry.(active := Defaulted(l.entry.active));
    if x.address.Some? then e.(rcon := x.address.value) else e
  }

  function FreshPod(x: Setting, v: Volume): Pod {
    Pod(x.slug, x.desired(v), v, false, false, false)
  }

  /** The turn of a map whose pod does not crash-loop. */
  function Turn(x: Setting, l: Local): Local
    requires l.pod.Some? ==> !l.pod.value.crashing
  {
    var e := Ready(x, l);
    if l.pod.None? then Start(x, l, e)
    else if l.pod.value.hash == x.desired(e.active) then
      l.(entry := if l.pod.value.ready then AtReady(e, x.clock)
                  else WithCondition(e, PodReady, false, "PodNotReady", x.clock))
    else if x.held then l.(entry := e)
    else Roll(x, l, e)
  }

  function Start(x: Setting, l: Local, e: MapStatus): Local {
    var side := VolumeSide(e.active);
    match JobOf(l, side)
    case JobMissing => Started(l, side).(entry := e.(phase := InstallingActive))
    case JobRunning => l.(entry := e.(phase := InstallingActive))
    case JobGaveUp => l.(entry := AtInstallFailure(e, x.clock))
    case JobSucceeded => l.(entry := e.(phase := Provisioning), pod := Some(FreshPod(x, e.active)))
  }

  function Roll(x: Setting, l: Local, e: MapStatus): Local
    requires l.pod.Some?
  {
    var side := VolumeSide(OtherVolume(e.active));
    match JobOf(l, side)
    case JobMissing => Started(l, side).(entry := e.(phase := InstallingInactive))
    case JobRunning => l.(entry := e.(phase := InstallingInactive))
    case JobGaveUp => l.(entry := AtInstallFailure(e, x.clock))
    case JobSucceeded =>
      if e.deadline.None? then l.(entry := AtDrainStart(e, x.clock, x.spec))
      else if x.clock < e.deadline.value then l.(entry := e.(phase := DrainingActive))
      else Swapped(x, l, e)
  }

  /** After the swap the new pod is there, unless the old one, terminating, still holds its name. */
  function Swapped(x: Setting, l: Local, e: MapStatus): Local
    requires l.pod.Some?
  {
    var made := FreshPod(x, OtherVolume(e.active));
    l.(entry := AtSwap(e), pod := if made.hash == l.pod.value.hash then None else Some(made))
  }

  /* ---------- what a helpful environment does between passes ---------- */

  predicate Finishes(before: Verdict, after: Verdict) {
    after == JobSucceeded || (before == JobMissing && after == JobMissing)
  }

  /** Jobs come to succeed, the live pod becomes ready, nothing of the map is taken away. */
  predicate Helps(l: Local, m: Local) {
    && m.entry == l.entry
    && (l.pod.None? ==> m.pod.None?)
    && (l.pod.Some? ==> m.pod == Some(l.pod.value.(ready := true)))
    && Finishes(l.jobA, m.jobA) && Finishes(l.jobB, m.jobB)
  }

  predicate Hopeful(l: Local) {
    l.jobA != JobGaveUp && l.jobB != JobGaveUp && (l.pod.Some? ==> !l.pod.value.crashing)
  }

  /* ---------- the measure ---------- */

  function JobRank(v: Verdict): nat {
    match v
    case JobMissing => 2
    case JobRunning => 1
    case _ => 0
  }

  function Positive(n: int): nat {
    if n < 0 then 0 else n
  }

  function DrainRank(x: Setting, deadline: Option<int>): nat {
    if deadline.None? then Grace(x.spec) + 2 else Positive(deadline.value - x.clock) + 1
  }

  /** How far the map is from running, on a pod with the wanted hash, with a status that says so. */
  function Rank(x: Setting, l: Local): nat {
    var e := Ready(x, l);
    if l.pod.None? then 3 + JobRank(JobOf(l, VolumeSide(e.active)))
    else if l.pod.value.hash != x.desired(e.active) then
      6 + JobRank(JobOf(l, VolumeSide(OtherVolume(e.active)))) + DrainRank(x, e.deadline)
    else if !l.pod.value.ready then 2
    else if AtReady(e, x.clock) != l.entry then 1
    else 0
  }

  /** The same map later: only time has passed and the hold-back may differ. */
  ghost predicate Later(x: Setting, y: Setting) {
    && y.slug == x.slug && y.spec == x.spec && y.address == x.address && y.desired == x.desired
    && y.clock > x.clock
  }

  lemma {:induction false} SetConditionAgain(cs: seq<Condition>, kind: ConditionType, status: bool, reason: string,
      now: int, later: int)
    ensures SetCondition(SetCondition(cs, kind, status, reason, now), kind, status, reason, later)
         == SetCondition(cs, kind, status, reason, now)
  {
    if cs != [] && cs[0].kind != kind {
      SetConditionAgain(cs[1..], kind, status, reason, now, later);
      var rest := SetCondition(cs[1..], kind, status, reason, now);
      assert ([cs[0]] + rest)[1..] == rest;
    } else if cs != [] {
      var once := SetCondition(cs, kind, status, reason, now);
      assert once[0].kind == kind && once[0].status == status && once[0].reason == reason;
      assert once[1..] == cs[1..];
      assert once == [once[0]] + once[1..];
    }
  }

  /** A ready map's status, once written, is written the same by every later turn. */
  lemma ReadyIsStable(x: Setting, y: Setting, l: Local)
    requires Later(x, y) || y == x
    ensures var e := AtReady(Ready(x, l), x.clock);
      AtReady(Ready(y, l.(entry := e)), y.clock) == e
  {
    var e := Ready(x, l);
    SetConditionAgain(e.conditions, PodReady, true, "RCONReachable", x.clock, y.clock);
  }

  lemma RankDrops(x: Setting, y: Setting, l: Local, m: Local)
    requires Later(x, y) && Hopeful(l) && Helps(Turn(x, l), m)
    ensures Hopeful(m)
    ensures Rank(y, m) <= Rank(x, l)
    ensures Rank(x, l) > 0 && (!x.held || !Drifted(x, l)) ==> Rank(y, m) < Rank(x, l)
  {
    if l.pod.Some? && !Drifted(x, l) {
      PodRankDrops(x, y, l, m);
    } else if l.pod.None? {
      StartRankDrops(x, y, l, m);
    } else {
      RollRankDrops(x, y, l, m);
    }
  }

  predicate Drifted(x: Setting, l: Local) {
    l.pod.Some? && l.pod.value.hash != x.desired(Defaulted(l.entry.active))
  }

  lemma PodRankDrops(x: Setting, y: Setting, l: Local, m: Local)
    requires Later(x, y) && Hopeful(l) && Helps(Turn(x, l), m) && l.pod.Some? && !Drifted(x, l)
    ensures Hopeful(m) && Rank(y, m) <= Rank(x, l) && (Rank(x, l) > 0 ==> Rank(y, m) < Rank(x, l))
  {
    hide SetCondition;
    if l.pod.value.ready {
      ReadyIsStable(x, y, l);
    }
  }

  lemma StartRankDrops(x: Setting, y: Setting, l: Local, m: Local)
    requires Later(x, y) && Hopeful(l) && Helps(Turn(x, l), m) && l.pod.None?
    ensures Hopeful(m) && Rank(y, m) < Rank(x, l)
  {
    hide SetCondition;
  }

  lemma RollRankDrops(x: Setting, y: Setting, l: Local, m: Local)
    requires Later(x, y) && Hopeful(l) && Helps(Turn(x, l), m) && Drifted(x, l)
    ensures Hopeful(m) && Rank(y, m) <= Rank(x, l) && (!x.held ==> Rank(y, m) < Rank(x, l))
  {
    hide SetCondition, Turn, Rank, Helps, Later;
    if x.held {
      HeldRankStays(x, y, l, m);
    } else {
      FreeRankDrops(x, y, l, m);
    }
  }

  lemma HeldRankStays(x: Setting, y: Setting, l: Local, m: Local)
    requires Later(x, y) && Hopeful(l) && Helps(Turn(x, l), m) && Drifted(x, l) && x.held
    ensures Hopeful(m) && Rank(y, m) <= Rank(x, l)
  {
    hide SetCondition;
  }

  lemma FreeRankDrops(x: Setting, y: Setting, l: Local, m: Local)
    requires Later(x, y) && Hopeful(l) && Helps(Turn(x, l), m) && Drifted(x, l) && !x.held
    ensures Hopeful(m) && Rank(y, m) < Rank(x, l)
  {
    hide SetCondition;
  }

  /** A drifted map that is not held back is mid-update after its turn. */
  lemma DriftStarts(x: Setting, l: Local)
    requires Hopeful(l) && Drifted(x, l)
    ensures !x.held ==> InFlight(Turn(x, l).entry.phase)
  {
    hide SetCondition;
  }

  /** A map of rank zero is at rest: its turn changes nothing. */
  lemma AtRest(x: Setting, l: Local)
    requires Hopeful(l) && Rank(x, l) == 0
    ensures Turn(x, l) == l
    ensures l.entry.phase == Running && l.pod.Some? && l.pod.value.ready
    ensures l.pod.value.hash == x.desired(l.entry.active)
  {
    hide SetCondition;
  }
}
