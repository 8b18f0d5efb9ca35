/**
 The static analyses behind test selection and the architecture check: which modules import a changed
 one, whether a model touches persistence, and which classes are schemas.  The import graph and the
 class table are given.
 */
module ImportAnalysis {
  import opened Wrappers

  type Module = string

  const MAIN: Module := "app.main"

  type Imports = map<Module, set<Module>>

  /** What `m` holds for `k`, as a dictionary that defaults to the empty set. */
  function Listed(m: Imports, k: Module): set<Module> {
    if k in m then m[k] else {}
  }

  // ---------------------------------------------------------------- who imports a changed module

  /** `c` imports `m`, unless `c` is the application entry point, which imports everything. */
  predicate Consumes(imports: Imports, m: Module, c: Module) {
    c in imports && m in imports[c] && c != MAIN
  }

  /** A chain of consumers from a changed module to the last one. */
  ghost predicate Chain(imports: Imports, seeds: set<Module>, path: seq<Module>) {
    && path != [] && path[0] in seeds
    && forall i | 0 < i < |path| :: Consumes(imports, path[i - 1], path[i])
  }

  ghost predicate Affected(imports: Imports, seeds: set<Module>, m: Module) {
    exists path :: Chain(imports, seeds, path) && path[|path| - 1] == m
  }

  ghost predicate Reversed(imports: Imports, reverse: Imports, names: set<Module>) {
    forall m, c :: c in Listed(reverse, m) <==> c in names && Consumes(imports, m, c)
  }

  method AddConsumer(imports: Imports, reverse0: Imports, name: Module, names: set<Module>) returns (reverse: Imports)
    requires name in imports && name !in names && Reversed(imports, reverse0, names)
    ensures Reversed(imports, reverse, names + {name})
  {
    reverse := reverse0;
    var todo := imports[name];
    while todo != {}
      invariant todo <= imports[name]
      invariant forall m, c :: c in Listed(reverse, m) <==>
                  (c in names && Consumes(imports, m, c)) || (c == name && name != MAIN && m in imports[name] - todo)
      decreases todo
    {
      var dependency :| dependency in todo;
      ghost var before := reverse;
      if name != MAIN {
        reverse := reverse[dependency := Listed(reverse, dependency) + {name}];
      }
      assert forall m, c :: c in Listed(reverse, m) <==>
               c in Listed(before, m) || (name != MAIN && m == dependency && c == name);
      todo := todo - {dependency};
    }
  }

  method Reverse(imports: Imports) returns (reverse: Imports)
    ensures Reversed(imports, reverse, imports.Keys)
  {
    reverse := map[];
    var todo := imports.Keys;
    while todo != {}
      invariant todo <= imports.Keys && Reversed(imports, reverse, imports.Keys - todo)
      decreases todo
    {
      var name :| name in todo;
      reverse := AddConsumer(imports, reverse, name, imports.Keys - todo);
      assert imports.Keys - todo + {name} == imports.Keys - (todo - {name});
      todo := todo - {name};
    }
    assert imports.Keys - {} == imports.Keys;
  }

  lemma AffectedNext(imports: Imports, seeds: set<Module>, m: Module, c: Module)
    requires Affected(imports, seeds, m) && Consumes(imports, m, c)
    ensures Affected(imports, seeds, c)
  {
    var path :| Chain(imports, seeds, path) && path[|path| - 1] == m;
    assert Chain(imports, seeds, path + [c]);
  }

  lemma SeedsAffected(imports: Imports, seeds: set<Module>)
    ensures forall m | m in seeds :: Affected(imports, seeds, m)
  {
    forall m | m in seeds ensures Affected(imports, seeds, m) {
      assert Chain(imports, seeds, [m]) && [m][|[m]| - 1] == m;
    }
  }

  /** A set with the seeds that is closed under consumers holds every chain. */
  lemma {:induction false} ClosedHoldsChains(imports: Imports, seeds: set<Module>, reached: set<Module>, path: seq<Module>)
    requires seeds <= reached && Chain(imports, seeds, path)
    requires forall m, c | m in reached && Consumes(imports, m, c) :: c in reached
    ensures path[|path| - 1] in reached
    decreases |path|
  {
    if |path| > 1 {
      var shorter := path[..|path| - 1];
      assert Chain(imports, seeds, shorter);
      ClosedHoldsChains(imports, seeds, reached, shorter);
      assert Consumes(imports, path[|path| - 2], path[|path| - 1]);
    }
  }

  method Push(pending0: seq<Module>, ms: set<Module>) returns (pending: seq<Module>)
    ensures forall x :: x in pending <==> x in pending0 || x in ms
    ensures ms == {} ==> pending == pending0
  {
    pending := pending0;
    var todo := ms;
    while todo != {}
      invariant todo <= ms && forall x :: x in pending <==> x in pending0 || x in ms - todo
      invariant todo == ms ==> pending == pending0
      decreases todo
    {
      var m :| m in todo;
      pending := pending + [m];
      todo := todo - {m};
    }
  }

  /** Everything reached is affected, and all its consumers are reached unless it is still pending. */
  ghost predicate Explored(imports: Imports, seeds: set<Module>, reached: set<Module>, pending: seq<Module>) {
    && seeds <= reached
    && (forall m | m in pending :: m in reached)
    && (forall m | m in reached :: Affected(imports, seeds, m))
    && (forall m, c | m in reached && m !in pending && Consumes(imports, m, c) :: c in reached)
  }

  lemma ExploreOne(imports: Imports, seeds: set<Module>, reached: set<Module>, rest: seq<Module>, name: Module,
                   more: set<Module>, pending: seq<Module>)
    requires Explored(imports, seeds, reached, rest + [name])
    requires forall c | Consumes(imports, name, c) :: c in reached || c in more
    requires forall c | c in more :: Consumes(imports, name, c)
    requires forall x :: x in pending <==> x in rest || x in more
    ensures Explored(imports, seeds, reached + more, pending)
  {
    assert name in rest + [name];
    assert forall m | m in rest :: m in rest + [name];
    forall c | c in more ensures Affected(imports, seeds, c) {
      AffectedNext(imports, seeds, name, c);
    }
  }

  /** The worklist ends with exactly the modules that import a changed one, however indirectly. */
  method Reached(imports: Imports, seeds: set<Module>) returns (reached: set<Module>)
    ensures forall m :: m in reached <==> Affected(imports, seeds, m)
  {
    hide Explored, Affected, Reversed;
    var reverse := Reverse(imports);
    reached := seeds;
    var pending := Push([], reached);
    SeedsExplored(imports, seeds, pending);
    while pending != []
      invariant Explored(imports, seeds, reached, pending)
      decreases imports.Keys - reached, |pending|
    {
      var name := pending[|pending| - 1];
      var rest := pending[..|pending| - 1];
      var more := Listed(reverse, name) - reached;
      ConsumersFound(imports, reverse, name);
      assert pending == rest + [name];
      pending := Push(rest, more);
      ExploreOne(imports, seeds, reached, rest, name, more, pending);
      reached := reached + more;
    }
    ExploredIsExact(imports, seeds, reached);
  }

  lemma ConsumersFound(imports: Imports, reverse: Imports, name: Module)
    requires Reversed(imports, reverse, imports.Keys)
    ensures forall c :: c in Listed(reverse, name) <==> c in imports && Consumes(imports, name, c)
  {
  }

  lemma SeedsExplored(imports: Imports, seeds: set<Module>, pending: seq<Module>)
    requires forall x :: x in pending <==> x in seeds
    ensures Explored(imports, seeds, seeds, pending)
  {
    SeedsAffected(imports, seeds);
  }

  lemma ExploredIsExact(imports: Imports, seeds: set<Module>, reached: set<Module>)
    requires Explored(imports, seeds, reached, [])
    ensures forall m :: m in reached <==> Affected(imports, seeds, m)
  {
    forall m | Affected(imports, seeds, m) ensures m in reached {
      var path :| Chain(imports, seeds, path) && path[|path| - 1] == m;
      ClosedHoldsChains(imports, seeds, reached, path);
    }
  }

  /** The entry point is reached only when it is itself a seed. */
  lemma MainOnlyAsSeed(imports: Imports, seeds: set<Module>)
    requires "app.main" !in seeds
    ensures !Affected(imports, seeds, "app.main")
  {
    forall path | Chain(imports, seeds, path) ensures path[|path| - 1] != "app.main" {
      if |path| > 1 { assert Consumes(imports, path[|path| - 2], path[|path| - 1]); }
    }
  }

  // ---------------------------------------------------------------- does a model touch persistence

  /** `orm` are the modules whose own code uses the ORM. */
  datatype Graph = Graph(imports: Imports, orm: set<Module>)

  /** Imports are among the known modules. */
  ghost predicate Known(g: Graph) {
    forall m, t | m in g.imports && t in g.imports[m] :: t in g.imports
  }

  predicate Database(m: Module) {
    "app.core.db" <= m
  }

  predicate Model(m: Module) {
    "app.models." <= m
  }

  predicate Direct(g: Graph, m: Module) {
    m in g.imports && (m in g.orm || exists t | t in g.imports[m] :: Database(t))
  }

  predicate ModelEdge(g: Graph, m: Module, t: Module) {
    m in g.imports && t in g.imports[m] && Model(t)
  }

  ghost predicate ModelPath(g: Graph, path: seq<Module>) {
    path != [] && forall i | 0 < i < |path| :: ModelEdge(g, path[i - 1], path[i])
  }

  /** A chain of model imports leads from `m` to a module that uses the database itself. */
  ghost predicate Persistent(g: Graph, m: Module) {
    exists path :: ModelPath(g, path) && path[0] == m && Direct(g, path[|path| - 1])
  }

  lemma PersistentHere(g: Graph, m: Module)
    requires Direct(g, m)
    ensures Persistent(g, m)
  {
    assert ModelPath(g, [m]) && [m][0] == m && Direct(g, [m][|[m]| - 1]);
  }

  lemma PersistentStep(g: Graph, m: Module, t: Module)
    requires ModelEdge(g, m, t) && Persistent(g, t)
    ensures Persistent(g, m)
  {
    var path :| ModelPath(g, path) && path[0] == t && Direct(g, path[|path| - 1]);
    var longer := [m] + path;
    forall i | 0 < i < |longer| ensures ModelEdge(g, longer[i - 1], longer[i]) {
      if i > 1 { assert ModelEdge(g, path[i - 2], path[i - 1]); }
    }
    assert ModelPath(g, longer) && longer[0] == m && longer[|longer| - 1] == path[|path| - 1];
  }

  /** Nothing in `done` uses the database, and its model imports stay inside `seen`. */
  ghost predicate Harmless(g: Graph, done: set<Module>, seen: set<Module>) {
    && (forall m | m in done :: !Direct(g, m))
    && (forall m, t | m in done && ModelEdge(g, m, t) :: t in seen)
  }

  lemma {:induction false} HarmlessPath(g: Graph, seen: set<Module>, path: seq<Module>)
    requires Harmless(g, seen, seen) && ModelPath(g, path) && path[0] in seen
    ensures !Direct(g, path[|path| - 1])
    decreases |path|
  {
    if |path| > 1 {
      assert ModelEdge(g, path[0], path[1]);
      forall i | 0 < i < |path[1..]| ensures ModelEdge(g, path[1..][i - 1], path[1..][i]) {
        assert ModelEdge(g, path[i], path[i + 1]);
      }
      HarmlessPath(g, seen, path[1..]);
    }
  }

  /** The depth-first search with its shared `seen` set.  A negative answer is only about what it has
      newly seen; modules still under way are left to their own callers. */
  method Search(g: Graph, name: Module, seen0: set<Module>) returns (found: bool, seen: set<Module>)
    requires Known(g) && name in g.imports && seen0 <= g.imports.Keys
    ensures seen0 <= seen <= g.imports.Keys
    ensures found ==> Persistent(g, name)
    ensures !found ==> name in seen && Harmless(g, seen - seen0, seen)
    decreases g.imports.Keys - seen0
  {
    seen := seen0;
    if name in seen {
      return false, seen;
    }
    seen := seen + {name};
    if name in g.orm {
      PersistentHere(g, name);
      return true, seen;
    }
    var todo := g.imports[name];
    while todo != {}
      invariant todo <= g.imports[name] && seen0 + {name} <= seen <= g.imports.Keys
      invariant forall t | t in g.imports[name] - todo :: !Database(t) && (Model(t) ==> t in seen)
      invariant Harmless(g, seen - seen0 - {name}, seen)
      decreases todo
    {
      var target :| target in todo;
      if Database(target) {
        PersistentHere(g, name);
        return true, seen;
      }
      if Model(target) {
        ghost var before := seen;
        found, seen := Search(g, target, seen);
        if found {
          PersistentStep(g, name, target);
          return true, seen;
        }
        HarmlessGrows(g, before - seen0 - {name}, before, seen - before, seen);
        assert (before - seen0 - {name}) + (seen - before) == seen - seen0 - {name};
      }
      todo := todo - {target};
    }
    found := false;
  }

  lemma HarmlessGrows(g: Graph, a: set<Module>, seen: set<Module>, b: set<Module>, seen': set<Module>)
    requires Harmless(g, a, seen) && Harmless(g, b, seen') && seen <= seen'
    ensures Harmless(g, a + b, seen')
  {
  }

  /** `persistent_model` answers exactly whether persistence is reachable along model imports. */
  method PersistentModel(g: Graph, name: Module) returns (found: bool)
    requires Known(g) && name in g.imports
    ensures found <==> Persistent(g, name)
  {
    var seen;
    found, seen := Search(g, name, {});
    if !found {
      assert seen - {} == seen;
      forall path | ModelPath(g, path) && path[0] == name ensures !Direct(g, path[|path| - 1]) {
        HarmlessPath(g, seen, path);
      }
    }
  }

  /** A module that neither uses the ORM nor imports the database or a model is not persistent; one that uses the ORM or
      imports the database is; one that imports models is if one of those is. */
  lemma PersistenceIs(g: Graph, m: Module)
    requires Known(g) && m in g.imports
    ensures Persistent(g, m) <==>
            || m in g.orm
            || (exists t | t in g.imports[m] :: "app.core.db" <= t)
            || (exists t | t in g.imports[m] :: "app.models." <= t && Persistent(g, t))
  {
    if m in g.orm || exists t | t in g.imports[m] :: "app.core.db" <= t { PersistentHere(g, m); }
    if t :| t in g.imports[m] && "app.models." <= t && Persistent(g, t) { PersistentStep(g, m, t); }
    if Persistent(g, m) && !Direct(g, m) {
      var path :| ModelPath(g, path) && path[0] == m && Direct(g, path[|path| - 1]);
      assert ModelEdge(g, path[0], path[1]);
      var rest := path[1..];
      forall i | 0 < i < |rest| ensures ModelEdge(g, rest[i - 1], rest[i]) { assert ModelEdge(g, path[i], path[i + 1]); }
      assert ModelPath(g, rest) && rest[0] == path[1] && Direct(g, rest[|rest| - 1]);
    }
  }

  // ---------------------------------------------------------------- which classes are schemas

  const SCHEMA_BASES: set<string> := {"pydantic.BaseModel", "enum.Enum", "enum.StrEnum", "enum.IntEnum"}

  const GENERIC: string := "typing.Generic"

  type Classes = map<string, seq<string>>

  /** `name` derives from a schema base in at most `depth` steps of inheritance: one of its bases does,
      and every other does too or is the generic marker. */
  ghost predicate Derives(classes: Classes, name: string, depth: nat)
    decreases depth
  {
    name in SCHEMA_BASES ||
    (depth > 0 && name in classes
     && (exists i | 0 <= i < |classes[name]| :: Derives(classes, classes[name][i], depth - 1))
     && (forall i | 0 <= i < |classes[name]| :: classes[name][i] == GENERIC || Derives(classes, classes[name][i], depth - 1)))
  }

  predicate Accepted(classes: Classes, schemas: set<string>, name: string) {
    name in classes
    && (exists i | 0 <= i < |classes[name]| :: classes[name][i] in schemas)
    && (forall i | 0 <= i < |classes[name]| :: classes[name][i] in schemas || classes[name][i] == GENERIC)
  }

  lemma {:induction false} DerivesDeeper(classes: Classes, name: string, depth: nat)
    requires Derives(classes, name, depth)
    ensures Derives(classes, name, depth + 1)
    decreases depth
  {
    if name !in SCHEMA_BASES {
      var bases := classes[name];
      forall i | 0 <= i < |bases| && Derives(classes, bases[i], depth - 1) ensures Derives(classes, bases[i], depth) {
        DerivesDeeper(classes, bases[i], depth - 1);
      }
    }
  }

  lemma {:induction false} FixedPointHolds(classes: Classes, schemas: set<string>, name: string, depth: nat)
    requires SCHEMA_BASES <= schemas && forall n | Accepted(classes, schemas, n) :: n in schemas
    requires Derives(classes, name, depth)
    ensures name in schemas
    decreases depth
  {
    if name !in SCHEMA_BASES {
      var bases := classes[name];
      forall i | 0 <= i < |bases| && Derives(classes, bases[i], depth - 1) ensures bases[i] in schemas {
        FixedPointHolds(classes, schemas, bases[i], depth - 1);
      }
      assert Accepted(classes, schemas, name);
    }
  }

  /** The loop ends with exactly the classes that derive from a schema base. */
  method Schemas(classes: Classes) returns (schemas: set<string>)
    ensures forall n :: n in schemas <==> exists depth :: Derives(classes, n, depth)
  {
    schemas := SCHEMA_BASES;
    ghost var rounds: nat := 0;
    while true
      invariant SCHEMA_BASES <= schemas
      invariant forall n | n in schemas :: Derives(classes, n, rounds)
      decreases classes.Keys - schemas
    {
      var discovered := set n | n in classes && Accepted(classes, schemas, n);
      if discovered <= schemas {
        break;
      }
      forall n | n in schemas + discovered ensures Derives(classes, n, rounds + 1) {
        if n in schemas { DerivesDeeper(classes, n, rounds); }
      }
      schemas := schemas + discovered;
      rounds := rounds + 1;
    }
    forall n, depth | Derives(classes, n, depth) ensures n in schemas {
      assert forall x | Accepted(classes, schemas, x) :: x in schemas;
      FixedPointHolds(classes, schemas, n, depth);
    }
  }

  /** A class is a schema exactly when it is one of the four bases, or has a base that is a schema and no base that is
      neither a schema nor the generic marker. */
  lemma SchemaIs(classes: Classes, name: string)
    ensures Schema(classes, name) <==>
            || name in {"pydantic.BaseModel", "enum.Enum", "enum.StrEnum", "enum.IntEnum"}
            || (name in classes
                && (exists i | 0 <= i < |classes[name]| :: Schema(classes, classes[name][i]))
                && (forall i | 0 <= i < |classes[name]| :: classes[name][i] == "typing.Generic" || Schema(classes, classes[name][i])))
  {
    if name in SCHEMA_BASES { assert Derives(classes, name, 0); }
    else if name in classes {
      var bases := classes[name];
      if depth: nat :| Derives(classes, name, depth) {
        forall i | 0 <= i < |bases| && Derives(classes, bases[i], depth - 1) ensures Schema(classes, bases[i]) {}
      }
      if (exists i | 0 <= i < |bases| :: Schema(classes, bases[i]))
         && (forall i | 0 <= i < |bases| :: bases[i] == "typing.Generic" || Schema(classes, bases[i])) {
        var depth := Deepest(classes, bases, |bases|);
        assert Derives(classes, name, depth + 1);
      }
    }
  }

  ghost predicate Schema(classes: Classes, name: string) {
    exists depth: nat :: Derives(classes, name, depth)
  }

  /** One depth does for all the first `n` bases that are schemas. */
  lemma {:induction false} Deepest(classes: Classes, bases: seq<string>, n: nat) returns (depth: nat)
    requires n <= |bases|
    ensures forall i | 0 <= i < n && Schema(classes, bases[i]) :: Derives(classes, bases[i], depth)
    decreases n
  {
    depth := 0;
    if n > 0 {
      depth := Deepest(classes, bases, n - 1);
      var last := bases[n - 1];
      if d: nat :| Derives(classes, last, d) {
        var most := if d > depth then d else depth;
        forall i | 0 <= i < n && Schema(classes, bases[i]) ensures Derives(classes, bases[i], most) {
          DerivesAtLeast(classes, bases[i], if i == n - 1 then d else depth, most);
        }
        depth := most;
      }
    }
  }

  lemma {:induction false} DerivesAtLeast(classes: Classes, name: string, a: nat, b: nat)
    requires Derives(classes, name, a) && a <= b
    ensures Derives(classes, name, b)
    decreases b - a
  {
    if a < b {
      DerivesDeeper(classes, name, a);
      DerivesAtLeast(classes, name, a + 1, b);
    }
  }
}
