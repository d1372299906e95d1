/**
 The lane registry's revision: a persisted process generation in the high bits, the
 mutations of that process in the low 32 bits. A phone that sees the same revision
 twice may rely on having seen the same selection.
 */
module Revision {
  import opened Durable

  const MAX_SAFE_SEQUENCE := 0x1F_FFFF_FFFF_FFFF
  const STRIDE := 0x1_0000_0000
  const MAX_GENERATION := MAX_SAFE_SEQUENCE / STRIDE

  /** What a revision stands for: the selected lanes and the ordered lane ids. */
  datatype Selection = Selection(active: string, previous: string, laneIds: seq<string>)

  // ------------------------------------------------------ the two operations

  /** The seed of the generation after `stored`; None when the generations are exhausted. */
  function NextSeed(stored: nat): Option<nat> {
    if stored > MAX_GENERATION || stored + 1 > MAX_GENERATION || (stored + 1) * STRIDE > MAX_SAFE_SEQUENCE then None
    else Some((stored + 1) * STRIDE)
  }

  /** One more mutation in this process; None rather than crossing into the next generation. */
  function Advanced(current: nat): Option<nat> {
    if current > MAX_SAFE_SEQUENCE || current % STRIDE == STRIDE - 1 then None
    else if current + 1 <= MAX_SAFE_SEQUENCE then Some(current + 1)
    else None
  }

  predicate InGeneration(revision: nat, generation: nat) {
    generation * STRIDE <= revision < (generation + 1) * STRIDE
  }

  lemma SeedStartsGeneration(stored: nat)
    ensures NextSeed(stored).Some? <==> stored + 1 <= MAX_GENERATION
    ensures NextSeed(stored).Some? ==>
              InGeneration(NextSeed(stored).value, stored + 1) && NextSeed(stored).value + STRIDE - 1 <= MAX_SAFE_SEQUENCE
  {}

  /** Advancing stays in the generation and below the limit; it fails only on the last low value. */
  lemma AdvanceStays(current: nat, generation: nat)
    requires InGeneration(current, generation) && generation <= MAX_GENERATION
    ensures Advanced(current).Some? <==> current != (generation + 1) * STRIDE - 1
    ensures Advanced(current).Some? ==>
              InGeneration(Advanced(current).value, generation) && Advanced(current).value <= MAX_SAFE_SEQUENCE
  {}

  // ------------------------------------------------------------- the process

  /** A serving process; `uncertain` blocks lane writes after an ambiguous save. */
  datatype Process = Process(revision: nat, selection: Selection, uncertain: bool)

  datatype Observation = Observation(revision: nat, selection: Selection)

  /** `generations` is the generation file; `observed` is everything ever read under the registry lock. */
  datatype World = World(generations: File<nat>, process: Option<Process>, observed: set<Observation>)

  datatype Event =
    | Start(o: Outcome, selection: Selection)
    | Stop
    | PowerLoss(generation: nat)
    | Mutate(selection: Selection, o: Outcome)
    | Observe

  /** A handler's whole critical section: change the selection, advance, save, or roll both back. */
  function MutateStep(p: Process, next: Selection, o: Outcome): Process {
    if p.uncertain then p
    else if next != p.selection && Advanced(p.revision) == None then p
    else
      var p' := if next != p.selection then Process(Advanced(p.revision).value, next, false) else p;
      match o
      case Written => p'
      case Unsettled => p'.(uncertain := true)
      case Untouched => p
  }

  predicate Enabled(w: World, ev: Event) {
    match ev
    case Start(_, _) => w.process == None
    case PowerLoss(generation) => generation in w.generations.durable
    case Mutate(_, _) => w.process.Some?
    case Observe => w.process.Some?
    case Stop => true
  }

  function Next(w: World, ev: Event): World
    requires Enabled(w, ev)
  {
    match ev
    case Start(o, selection) => (
      match NextSeed(w.generations.visible)
      case None => w
      case Some(seed) =>
        // The generation must be durable before a request is served.
        var w' := w.(generations := Replace(w.generations, w.generations.visible + 1, o));
        if o == Written then w'.(process := Some(Process(seed, selection, false))) else w')
    case Stop => w.(process := None)
    case PowerLoss(generation) => World(File(generation, {generation}), None, w.observed)
    case Mutate(selection, o) => w.(process := Some(MutateStep(w.process.value, selection, o)))
    case Observe =>
      w.(observed := w.observed + {Observation(w.process.value.revision, w.process.value.selection)})
  }

  // ------------------------------------------------------------ ABA safety

  predicate Unambiguous(observed: set<Observation>) {
    forall a, b :: a in observed && b in observed && a.revision == b.revision ==> a.selection == b.selection
  }

  /** No observation is newer than generation `g`. */
  predicate UpTo(observed: set<Observation>, g: nat) {
    forall a :: a in observed ==> a.revision < (g + 1) * STRIDE
  }

  predicate Current(w: World, p: Process) {
    && w.generations.durable == {w.generations.visible} && w.generations.visible <= MAX_GENERATION
    && InGeneration(p.revision, w.generations.visible)
    && (forall a :: a in w.observed ==> a.revision <= p.revision)
    && (forall a :: a in w.observed && a.revision == p.revision ==> a.selection == p.selection)
  }

  predicate Inv(w: World) {
    && Unambiguous(w.observed)
    && w.generations.visible in w.generations.durable
    && (forall a :: a in w.observed ==> a.revision <= MAX_SAFE_SEQUENCE)
    && (forall g :: g in w.generations.durable ==> UpTo(w.observed, g))
    && (w.process.Some? ==> Current(w, w.process.value))
  }

  lemma NextKeeps(w: World, ev: Event)
    requires Inv(w) && Enabled(w, ev)
    ensures Inv(Next(w, ev))
  {
    match ev
    case Start(o, selection) =>
      SeedStartsGeneration(w.generations.visible);
      StartKeeps(w, o, selection);
    case Mutate(selection, o) =>
      AdvanceStays(w.process.value.revision, w.generations.visible);
    case Observe => ObserveKeeps(w);
    case PowerLoss(generation) =>
      assert UpTo(w.observed, generation);
    case Stop =>
  }

  lemma StartKeeps(w: World, o: Outcome, selection: Selection)
    requires Inv(w) && w.process == None
    ensures Inv(Next(w, Start(o, selection)))
  {}

  lemma ObserveKeeps(w: World)
    requires Inv(w) && w.process.Some?
    ensures Inv(Next(w, Observe))
  {}

  predicate Feasible(w: World, run: seq<Event>)
    decreases |run|
  {
    run == [] || (Enabled(w, run[0]) && Feasible(Next(w, run[0]), run[1..]))
  }

  function After(w: World, run: seq<Event>): World
    requires Feasible(w, run)
    decreases |run|
  {
    if run == [] then w else After(Next(w, run[0]), run[1..])
  }

  function Installed(): World {
    World(File(0, {0}), None, {})
  }

  lemma {:induction false} RunKeeps(w: World, run: seq<Event>)
    requires Inv(w) && Feasible(w, run)
    ensures Inv(After(w, run))
    decreases |run|
  {
    hide Inv, Next, Enabled;
    if run != [] {
      NextKeeps(w, run[0]);
      RunKeeps(Next(w, run[0]), run[1..]);
    }
  }

  /** The revision is an ABA-safe token: over all observations ever made, in one process and
      across restarts, power losses, failed saves and rollbacks, equal revisions mean equal
      selections, and every revision stays JSON-exact and inside its process generation. */
  lemma RevisionIsAbaSafe(run: seq<Event>, a: Observation, b: Observation)
    requires Feasible(Installed(), run)
    requires a in After(Installed(), run).observed && b in After(Installed(), run).observed
    ensures a.revision == b.revision ==> a.selection == b.selection
    ensures a.revision <= MAX_SAFE_SEQUENCE
    ensures var w := After(Installed(), run);
            w.process.Some? ==> InGeneration(w.process.value.revision, w.generations.visible) && a.revision <= w.process.value.revision
  {
    RunKeeps(Installed(), run);
  }

  /** A mutation of any reachable serving process: once saved it installs the selection, under
      a revision newer than everything observed when the selection changed, and under the
      same one otherwise; it is refused when a save was left unsettled or the last revision
      of the process is used up; a save that failed changes nothing, and an unsettled one
      keeps the selection and blocks further ones. */
  lemma MutationBrings(run: seq<Event>, next: Selection, o: Outcome)
    requires Feasible(Installed(), run) && After(Installed(), run).process.Some?
    ensures var w := After(Installed(), run);
            var p, p' := w.process.value, Next(w, Mutate(next, o)).process.value;
            var blocked := p.uncertain || (next != p.selection && p.revision == (w.generations.visible + 1) * STRIDE - 1);
            && (blocked || o == Untouched ==> p' == p)
            && (!blocked && o != Untouched ==>
                  && p'.selection == next && p'.uncertain == (o == Unsettled)
                  && p'.revision == p.revision + (if next != p.selection then 1 else 0)
                  && (next != p.selection ==> forall a :: a in w.observed ==> a.revision < p'.revision))
  {
    RunKeeps(Installed(), run);
    var w := After(Installed(), run);
    AdvanceStays(w.process.value.revision, w.generations.visible);
  }

  /** A start while generations remain, once its generation is saved, serves what it loaded
      under the first revision of the next generation, newer than everything observed. */
  lemma StartBrings(run: seq<Event>, loaded: Selection)
    requires Feasible(Installed(), run) && After(Installed(), run).process == None
    ensures var w := After(Installed(), run);
            var w' := Next(w, Start(Written, loaded));
            if w.generations.visible + 1 <= MAX_GENERATION then
              && w'.process == Some(Process((w.generations.visible + 1) * 0x1_0000_0000, loaded, false))
              && w'.generations == File(w.generations.visible + 1, {w.generations.visible + 1})
              && forall a :: a in w.observed ==> a.revision < w'.process.value.revision
            else w' == w
  {
    RunKeeps(Installed(), run);
    var w := After(Installed(), run);
    SeedStartsGeneration(w.generations.visible);
    assert UpTo(w.observed, w.generations.visible);
  }

  // --------------------------------------------------------------- the class

  /** The registry's selection and revision as the daemon holds them under its lock. */
  class RegistryRevision {
    var revision: nat
    var selection: Selection
    var uncertain: bool

    function Held(): Process
      reads this
    {
      Process(revision, selection, uncertain)
    }

    constructor (seed: nat, loaded: Selection)
      ensures Held() == Process(seed, loaded, false) && fresh(this)
    {
      revision, selection, uncertain := seed, loaded, false;
    }

    /** The atomic update: advance, or leave the revision alone. */
    method Advance() returns (ok: bool)
      modifies this`revision
      ensures ok <==> Advanced(old(revision)).Some?
      ensures revision == if ok then Advanced(old(revision)).value else old(revision)
    {
      if revision > MAX_SAFE_SEQUENCE || revision % STRIDE == STRIDE - 1 { return false; }
      if revision + 1 > MAX_SAFE_SEQUENCE { return false; }
      revision := revision + 1;
      return true;
    }

    /** One lane mutation from the availability check to the save. */
    method Commit(next: Selection, o: Outcome) returns (ok: bool)
      modifies this
      ensures Held() == MutateStep(old(Held()), next, o)
      ensures ok ==> selection == next && o == Written && !uncertain
      ensures ok <==> !old(uncertain) && o == Written
                      && (next != old(selection) ==> old(revision) < MAX_SAFE_SEQUENCE && old(revision) % STRIDE != STRIDE - 1)
      ensures ok ==> revision == old(revision) + if next != old(selection) then 1 else 0
      ensures !ok && o != Unsettled ==> Held() == old(Held())
    {
      if uncertain { return false; }
      var before, revisionBefore := selection, revision;
      selection := next;
      if next != before {
        var advanced := Advance();
        if !advanced {
          selection := before;
          return false;
        }
      }
      match o
      case Written => return true;
      case Unsettled =>
        uncertain := true;
        return false;
      case Untouched =>
        selection, revision := before, revisionBefore;
        return false;
    }
  }
}
