/** Reusing receipts against running: exactly which tools make the two agree. */
module ReceiptReuse {
  import opened Wrappers
  import opened Receipts

  /** What commands do, as far as it depends on source, context and the output found: whether they
      pass, and the output they leave. */
  datatype Tools = Tools(
    passes: (Slot, string, string, Option<string>) -> bool,
    output: (Slot, string, string, Option<string>) -> Option<string>)

  /** A pass on `d0` whose output looks, to a receipt, like `d`, means a pass on `d` that leaves it alone. */
  predicate Vouches(tools: Tools, slot: Slot, source: string, context: string, d0: Option<string>, d: Option<string>) {
    var left := Artifacts(tools.output(slot, source, context, d0), slot.command);
    tools.passes(slot, source, context, d0) && left.Some? && left == Artifacts(d, slot.command)
    ==> tools.passes(slot, source, context, d) && tools.output(slot, source, context, d) == d
  }

  ghost predicate Exact(tools: Tools, slot: Slot) {
    forall source, context, d0, d :: Vouches(tools, slot, source, context, d0, d)
  }

  datatype World = World(sources: Sources, dist: Option<string>, disk: map<Slot, Receipt>, now: int)

  function KeyOf(w: World, slot: Slot, context: string): Key {
    Key(SourceOf(w.sources, slot.root), slot, context)
  }

  predicate Passes(tools: Tools, w: World, slot: Slot, context: string) {
    tools.passes(slot, SourceOf(w.sources, slot.root), context, w.dist)
  }

  function Output(tools: Tools, w: World, slot: Slot, context: string): Option<string> {
    tools.output(slot, SourceOf(w.sources, slot.root), context, w.dist)
  }

  /** Runs one command for real. */
  function RunOne(tools: Tools, w: World, slot: Slot, context: string): (bool, World) {
    (Passes(tools, w, slot, context), w.(dist := Output(tools, w, slot, context)))
  }

  predicate Hit(w: World, slot: Slot, context: string) {
    Reusable(w.disk, KeyOf(w, slot, context), w.dist, w.now)
  }

  /** What a command that has passed writes. */
  function Saved(w: World, slot: Slot, context: string): World {
    w.(disk := w.disk[slot := Receipt(KeyOf(w, slot, context), w.now, Artifacts(w.dist, slot.command))])
  }

  /** Reuses a receipt, or invalidates it, runs the command and writes a new one if it passed. */
  function RunCached(tools: Tools, w: World, slot: Slot, context: string): (bool, World) {
    if Hit(w, slot, context) then (true, w)
    else
      var (ok, ran) := RunOne(tools, w.(disk := w.disk - {slot}), slot, context);
      (ok, if ok then Saved(ran, slot, context) else ran)
  }

  /** Every receipt was written after a passing run that left the output it names. */
  ghost predicate Written(tools: Tools, disk: map<Slot, Receipt>, slot: Slot)
    requires slot in disk
  {
    var r := disk[slot];
    r.key.slot == slot &&
    exists d :: tools.passes(slot, r.key.source, r.key.context, d)
                && r.artifacts == Artifacts(tools.output(slot, r.key.source, r.key.context, d), slot.command)
  }

  ghost predicate DiskInv(tools: Tools, disk: map<Slot, Receipt>) {
    forall slot | slot in disk :: Written(tools, disk, slot)
  }

  // ---------------------------------------------------------------- one command

  /** A reusable receipt means that running would pass and change nothing. */
  lemma ReuseIsRunning(tools: Tools, w: World, slot: Slot, context: string)
    requires Exact(tools, slot) && DiskInv(tools, w.disk) && Hit(w, slot, context)
    ensures RunOne(tools, w, slot, context) == (true, w)
  {
    var r := w.disk[slot];
    assert Written(tools, w.disk, slot);
    var d :| tools.passes(slot, r.key.source, r.key.context, d)
             && r.artifacts == Artifacts(tools.output(slot, r.key.source, r.key.context, d), slot.command);
    assert Vouches(tools, slot, r.key.source, r.key.context, d, w.dist);
  }

  lemma SavedIsWritten(tools: Tools, w: World, slot: Slot, context: string)
    requires DiskInv(tools, w.disk) && Passes(tools, w, slot, context)
    ensures DiskInv(tools, Saved(RunOne(tools, w, slot, context).1, slot, context).disk)
  {
    var disk := Saved(RunOne(tools, w, slot, context).1, slot, context).disk;
    forall x | x in disk ensures Written(tools, disk, x) {
      if x != slot { assert Written(tools, w.disk, x); }
    }
  }

  lemma RemovedIsWritten(tools: Tools, disk: map<Slot, Receipt>, slot: Slot)
    requires DiskInv(tools, disk)
    ensures DiskInv(tools, disk - {slot})
  {
    forall x | x in disk - {slot} ensures Written(tools, disk - {slot}, x) {
      assert Written(tools, disk, x);
    }
  }

  lemma CachedStep(tools: Tools, w: World, slot: Slot, context: string)
    requires Exact(tools, slot) && DiskInv(tools, w.disk)
    ensures var (ok, a) := RunCached(tools, w, slot, context); var (ok', b) := RunOne(tools, w, slot, context);
            ok == ok' && a == b.(disk := a.disk) && DiskInv(tools, a.disk)
  {
    if Hit(w, slot, context) {
      ReuseIsRunning(tools, w, slot, context);
    } else {
      var cleared := w.(disk := w.disk - {slot});
      RemovedIsWritten(tools, w.disk, slot);
      if Passes(tools, cleared, slot, context) { SavedIsWritten(tools, cleared, slot, context); }
    }
  }

  /** With a receipt and without, the command gives the same verdict and leaves the same output. */
  ghost predicate Agree(tools: Tools, w: World, slot: Slot, context: string) {
    var (ok, a) := RunCached(tools, w, slot, context);
    var (ok', b) := RunOne(tools, w, slot, context);
    ok == ok' && a.dist == b.dist
  }

  /** Tools that violate the condition show it: run the command once from no receipts at all, find some other output
      in place of what it left, and run it again. */
  lemma ViolationShows(tools: Tools, slot: Slot) returns (w: World, context: string, found: Option<string>)
    requires !Exact(tools, slot)
    ensures w.disk == map[] && DiskInv(tools, RunCached(tools, w, slot, context).1.disk)
    ensures !Agree(tools, RunCached(tools, w, slot, context).1.(dist := found), slot, context)
  {
    var source, c, d0, d :| !Vouches(tools, slot, source, c, d0, d);
    context, found := c, d;
    w := World(Sources(source, source), d0, map[], 0);
    assert map[] - {slot} == w.disk;
    SavedIsWritten(tools, w, slot, context);
  }

  /** So reusing the receipts of a command agrees with running it, wherever they came from, exactly when the
      condition holds. */
  lemma ReuseAgreesExactlyWhen(tools: Tools, slot: Slot)
    ensures Exact(tools, slot) <==> forall w: World, context | DiskInv(tools, w.disk) :: Agree(tools, w, slot, context)
  {
    if Exact(tools, slot) {
      forall w: World, context | DiskInv(tools, w.disk) ensures Agree(tools, w, slot, context) {
        CachedStep(tools, w, slot, context);
      }
    } else {
      var w, context, found := ViolationShows(tools, slot);
      assert DiskInv(tools, RunCached(tools, w, slot, context).1.(dist := found).disk);
    }
  }

  /** A command that has just passed, and whose output can be vouched for, is reused for a day. */
  lemma ReusedAfterPassing(tools: Tools, w: World, slot: Slot, context: string, later: nat)
    requires Exact(tools, slot) && DiskInv(tools, w.disk) && later < TTL
    requires RunCached(tools, w, slot, context).0 && !Hit(w, slot, context)
    requires Artifacts(Output(tools, w, slot, context), slot.command).Some?
    ensures var w' := RunCached(tools, w, slot, context).1.(now := w.now + later);
            RunCached(tools, w', slot, context) == (true, w')
  {
  }

  // ---------------------------------------------------------------- what the condition says of each kind of command

  /** Of a command that produces nothing: a pass on any output is a pass on every output, and changes none. */
  lemma NonProducers(tools: Tools, slot: Slot)
    requires !Produces(slot.command)
    ensures Exact(tools, slot) <==>
            forall source, context, d0, d | tools.passes(slot, source, context, d0) ::
              tools.passes(slot, source, context, d) && tools.output(slot, source, context, d) == d
  {
    if Exact(tools, slot) {
      forall source, context, d0, d | tools.passes(slot, source, context, d0)
        ensures tools.passes(slot, source, context, d) && tools.output(slot, source, context, d) == d
      {
        assert Vouches(tools, slot, source, context, d0, d);
      }
    }
  }

  /** Of a command that produces output and does not package: where it passes and leaves an index page, it passes
      again on what it left, and leaves that. */
  lemma Producers(tools: Tools, slot: Slot)
    requires Produces(slot.command) && !Packages(slot.command)
    ensures Exact(tools, slot) <==>
            forall source, context, d0 | tools.passes(slot, source, context, d0) && tools.output(slot, source, context, d0).Some? ::
              var made := tools.output(slot, source, context, d0);
              tools.passes(slot, source, context, made) && tools.output(slot, source, context, made) == made
  {
    if Exact(tools, slot) {
      forall source, context, d0 | tools.passes(slot, source, context, d0) && tools.output(slot, source, context, d0).Some?
        ensures var made := tools.output(slot, source, context, d0);
                tools.passes(slot, source, context, made) && tools.output(slot, source, context, made) == made
      {
        assert Vouches(tools, slot, source, context, d0, tools.output(slot, source, context, d0));
      }
    }
  }

  /** Packaging is never reused, so nothing is asked of it. */
  lemma Packagers(tools: Tools, slot: Slot)
    requires Produces(slot.command) && Packages(slot.command)
    ensures Exact(tools, slot)
  {
  }

  // ---------------------------------------------------------------- a list, one command at a time

  /** `times[i]` is when command i starts; the first failure ends the run. */
  function ExecuteAll(tools: Tools, w: World, commands: seq<Command>, times: seq<int>, context: string, cached: bool): (bool, World)
    requires |times| == |commands|
    decreases |commands|
  {
    if commands == [] then (true, w)
    else
      var slot := SlotOf(commands[0]);
      var start := w.(now := times[0]);
      var (ok, next) := if cached then RunCached(tools, start, slot, context) else RunOne(tools, start, slot, context);
      if ok then ExecuteAll(tools, next, commands[1..], times[1..], context, cached) else (false, next)
  }

  /** One job at a time, executing any list with receipts gives the verdict and leaves the output of executing it
      without, also when it fails. */
  lemma {:induction false} OneJobAgrees(tools: Tools, w: World, v: World, commands: seq<Command>, times: seq<int>, context: string)
    requires forall i | 0 <= i < |commands| :: Exact(tools, SlotOf(commands[i]))
    requires DiskInv(tools, w.disk) && |times| == |commands| && v == w.(disk := v.disk)
    ensures var (ok, a) := ExecuteAll(tools, w, commands, times, context, true);
            var (ok', b) := ExecuteAll(tools, v, commands, times, context, false);
            ok == ok' && a.dist == b.dist && DiskInv(tools, a.disk)
    decreases |commands|
  {
    if commands != [] {
      var slot := SlotOf(commands[0]);
      var start := w.(now := times[0]);
      CachedStep(tools, start, slot, context);
      var (ok, a) := RunCached(tools, start, slot, context);
      var (_, b) := RunOne(tools, v.(now := times[0]), slot, context);
      if ok { OneJobAgrees(tools, a, b, commands[1..], times[1..], context); }
    }
  }

  /** The key of a command sent to the frontend holds the frontend's source. */
  lemma KeysAre(w: World, rest: Command, c: Command, context: string)
    requires !(["make", "-C", "src/frontend"] <= c)
    ensures KeyOf(w, SlotOf(["make", "-C", "src/frontend"] + rest), context) ==
            Key(w.sources.frontend, Slot(Frontend, ["make"] + rest), context)
    ensures KeyOf(w, SlotOf(c), context) == Key(w.sources.main, Slot(Main, c), context)
  {
    assert (["make", "-C", "src/frontend"] + rest)[3..] == rest;
  }
}
