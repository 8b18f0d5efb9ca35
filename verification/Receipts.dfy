/**
 Receipts of verification commands: a file per command that lets a later run skip it, as long as the
 source, the command, its context and its build output are what they were when it last passed.

 One executor at a time.  Digests are taken to be injective, so a source stands for its digest.
 */
module Receipts {
  import opened Wrappers

  const TTL: nat := 24 * 60 * 60

  datatype Root = Main | Frontend

  type Command = seq<string>

  /** Where a receipt is kept: the repository the command works on, and the command as run there. */
  datatype Slot = Slot(root: Root, command: Command)

  const FRONTEND: Command := ["make", "-C", "src/frontend"]

  /** `command_root`: a command sent to the frontend is kept with the frontend, without the detour. */
  function SlotOf(command: Command): Slot {
    if FRONTEND <= command then Slot(Frontend, ["make"] + command[3..]) else Slot(Main, command)
  }

  const PRODUCERS: set<string> := {"build", "test-routes", "test-production", "frontend-test-routes", "frontend-package", "frontend-package-verified"}

  const PACKAGE: string := "frontend-package"

  predicate Produces(c: Command) {
    exists i | 0 <= i < |c| :: c[i] in PRODUCERS
  }

  predicate Packages(c: Command) {
    exists i | 0 <= i < |c| :: PACKAGE <= c[i]
  }

  /** The sources of the two repositories.  Their builds leave the output in one and the same directory. */
  datatype Sources = Sources(main: string, frontend: string)

  function SourceOf(sources: Sources, root: Root): string {
    if root.Main? then sources.main else sources.frontend
  }

  /** What a receipt remembers of the output, which counts only with an index page; None is never reusable. */
  function Artifacts(dist: Option<string>, c: Command): Option<string> {
    if !Produces(c) then Some("none")
    else if dist.None? || Packages(c) then None
    else dist
  }

  datatype Key = Key(source: string, slot: Slot, context: string)

  datatype Receipt = Receipt(key: Key, time: int, artifacts: Option<string>)

  predicate Reusable(disk: map<Slot, Receipt>, key: Key, dist: Option<string>, now: int) {
    key.slot in disk &&
    var r := disk[key.slot];
    r.key == key && 0 <= now - r.time < TTL && r.artifacts.Some? && r.artifacts == Artifacts(dist, key.slot.command)
  }

  /** What is remembered: nothing of a command without a producing target, never anything of one that packages, and the
      output of any other, if there is one. */
  lemma ArtifactsAre(dist: Option<string>, c: Command)
    ensures var producing := exists i | 0 <= i < |c| ::
              c[i] in ["build", "test-routes", "test-production", "frontend-test-routes", "frontend-package", "frontend-package-verified"];
            && (!producing ==> Artifacts(dist, c) == Some("none"))
            && (producing && (exists i | 0 <= i < |c| :: "frontend-package" <= c[i]) ==> Artifacts(dist, c) == None)
            && (producing && !(exists i | 0 <= i < |c| :: "frontend-package" <= c[i]) ==> Artifacts(dist, c) == dist)
  {
  }

  /** A command sent to the frontend is keyed by the frontend's source, as the command that runs there; any other by the
      main repository's. */
  lemma KeyedBy(s: State, rest: Command, c: Command)
    requires PhaseOf(s, SlotOf(["make", "-C", "src/frontend"] + rest)).Idle?
    requires !(["make", "-C", "src/frontend"] <= c) && PhaseOf(s, SlotOf(c)).Idle?
    ensures var there := Slot(Frontend, ["make"] + rest);
            && SlotOf(["make", "-C", "src/frontend"] + rest) == there
            && PhaseOf(Step(s, Begin(there)), there) == Keyed(Key(s.sources.frontend, there, s.context))
    ensures var here := Slot(Main, c);
            && SlotOf(c) == here && PhaseOf(Step(s, Begin(here)), here) == Keyed(Key(s.sources.main, here, s.context))
  {
    assert (["make", "-C", "src/frontend"] + rest)[3..] == rest;
  }

  /** The receipt directory as one command uses it. */
  class ReceiptStore {
    var disk: map<Slot, Receipt>

    constructor ()
      ensures disk == map[]
    {
      disk := map[];
    }

    method Check(enabled: bool, key: Key, dist: Option<string>, now: int) returns (reusable: bool)
      ensures reusable <==> enabled && Reusable(disk, key, dist, now)
      ensures reusable <==>
              && enabled && key.slot in disk && disk[key.slot].key == key && 0 <= now - disk[key.slot].time < 86_400
              && disk[key.slot].artifacts.Some? && disk[key.slot].artifacts == Artifacts(dist, key.slot.command)
    {
      if !enabled || key.slot !in disk {
        return false;
      }
      var r := disk[key.slot];
      if r.key != key || !(0 <= now - r.time < TTL) || r.artifacts.None? {
        return false;
      }
      return r.artifacts == Artifacts(dist, key.slot.command);
    }

    method Invalidate(slot: Slot)
      modifies this
      ensures disk == old(disk) - {slot}
    {
      disk := disk - {slot};
    }

    /** `source` is the snapshot at the end of the run. */
    method Save(enabled: bool, key: Key, source: string, dist: Option<string>, now: int)
      modifies this
      ensures disk == if enabled && source == key.source
                      then old(disk)[key.slot := Receipt(key, now, Artifacts(dist, key.slot.command))] else old(disk)
    {
      if enabled && source == key.source {
        disk := disk[key.slot := Receipt(key, now, Artifacts(dist, key.slot.command))];
      }
    }
  }

  // ---------------------------------------------------------------- interleaved commands

  /** Where one command of the executor stands; commands of one slot never overlap. */
  datatype Phase = Idle | Keyed(key: Key) | Cleared(key: Key) | Exited(key: Key, ok: bool)

  /** The last time a slot's command really ran, and the source when its receipt was written. */
  datatype Ran = Ran(key: Key, ok: bool, sourceAtEnd: Option<string>)

  datatype State = State(
    now: int,
    sources: Sources,
    dist: Option<string>,
    context: string,
    disk: map<Slot, Receipt>,
    phases: map<Slot, Phase>,
    last: map<Slot, Ran>)

  datatype Event =
    | Tick(now: int)
    | Edit(sources: Sources)
    | Build(dist: Option<string>)
    | Switch(context: string)
    | Begin(slot: Slot)
    | Decide(slot: Slot, enabled: bool)
    | Finish(slot: Slot, ok: bool)
    | Write(slot: Slot, enabled: bool)
    | Kill

  function PhaseOf(s: State, slot: Slot): Phase {
    if slot in s.phases then s.phases[slot] else Idle
  }

  function Step(s: State, e: Event): State {
    match e
    case Tick(now) => s.(now := now)
    case Edit(sources) => s.(sources := sources)
    case Build(dist) => s.(dist := dist)
    case Switch(context) => s.(context := context)
    case Begin(slot) =>
      if PhaseOf(s, slot).Idle?
      then s.(phases := s.phases[slot := Keyed(Key(SourceOf(s.sources, slot.root), slot, s.context))]) else s
    case Decide(slot, enabled) =>
      var p := PhaseOf(s, slot);
      if !p.Keyed? then s
      else if enabled && Reusable(s.disk, p.key, s.dist, s.now) then s.(phases := s.phases[slot := Idle])
      else s.(disk := s.disk - {slot}, phases := s.phases[slot := Cleared(p.key)])
    // Running may change anything; the changes are edits and builds before this.
    case Finish(slot, ok) =>
      var p := PhaseOf(s, slot);
      if p.Cleared? then s.(phases := s.phases[slot := Exited(p.key, ok)], last := s.last[slot := Ran(p.key, ok, None)]) else s
    case Write(slot, enabled) =>
      var p := PhaseOf(s, slot);
      if !p.Exited? then s
      else if p.ok && enabled && SourceOf(s.sources, slot.root) == p.key.source then
        s.(disk := s.disk[slot := Receipt(p.key, s.now, Artifacts(s.dist, slot.command))],
           phases := s.phases[slot := Idle],
           last := s.last[slot := Ran(p.key, p.ok, Some(SourceOf(s.sources, slot.root)))])
      else s.(phases := s.phases[slot := Idle])
    // The executor dies: whatever was under way is over, and may begin again.
    case Kill => s.(phases := map[])
  }

  function Run(s: State, es: seq<Event>): State
    decreases |es|
  {
    if es == [] then s else Run(Step(s, es[0]), es[1..])
  }

  /** A receipt vouches for the last run of its slot; a slot being run has no receipt. */
  ghost predicate Vouched(s: State, slot: Slot) {
    && (PhaseOf(s, slot).Cleared? || PhaseOf(s, slot).Exited? ==> slot !in s.disk)
    && (!PhaseOf(s, slot).Idle? ==> PhaseOf(s, slot).key.slot == slot)
    && (PhaseOf(s, slot).Exited? ==>
          slot in s.last && s.last[slot].key == PhaseOf(s, slot).key && s.last[slot].ok == PhaseOf(s, slot).ok)
    && (slot in s.disk ==>
          && slot in s.last && s.disk[slot].key.slot == slot
          && s.last[slot] == Ran(s.disk[slot].key, true, Some(s.disk[slot].key.source)))
  }

  lemma StepKeeps(s: State, e: Event, slot: Slot)
    requires Vouched(s, slot)
    ensures Vouched(Step(s, e), slot)
  {
  }

  lemma {:induction false} RunKeeps(s: State, es: seq<Event>, slot: Slot)
    requires Vouched(s, slot)
    ensures Vouched(Run(s, es), slot)
    decreases |es|
  {
    if es != [] {
      StepKeeps(s, es[0], slot);
      RunKeeps(Step(s, es[0]), es[1..], slot);
    }
  }

  /** However commands, edits, builds, tool changes and killed executors interleave, a receipt on disk means that
      the last actual run of its command exited 0 under the source, command and context it names, and that the
      source was still that one when the receipt was written. */
  lemma ReceiptMeansPassed(sources: Sources, dist: Option<string>, context: string, es: seq<Event>, slot: Slot)
    requires var s := Run(State(0, sources, dist, context, map[], map[], map[]), es); slot in s.disk
    ensures var s := Run(State(0, sources, dist, context, map[], map[], map[]), es);
            && slot in s.last && s.disk[slot].key.slot == slot
            && s.last[slot] == Ran(s.disk[slot].key, true, Some(s.disk[slot].key.source))
  {
    RunKeeps(State(0, sources, dist, context, map[], map[], map[]), es, slot);
  }

  /** A failed run, or one that was killed, leaves no receipt behind, whatever was there before. */
  lemma FailureLeavesNoReceipt(s: State, slot: Slot, enabled: bool)
    requires Vouched(s, slot) && PhaseOf(s, slot).Cleared?
    ensures slot !in Step(Step(s, Finish(slot, false)), Write(slot, enabled)).disk
    ensures slot !in Step(s, Kill).disk && PhaseOf(Step(s, Kill), slot).Idle?
  {
  }
}
