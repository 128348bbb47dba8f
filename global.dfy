/**
 * `GlobalModel`: one region model per country index, coupled by
 * migration. The pure functions of this module say what each of its
 * operations does to the regions' states; the class `GlobalModel`
 * is proved to implement them.
 */
module Global {
  import opened Wrappers
  import opened Buckets
  import opened Variants
  import opened Engine
  import Region

  /** The region states by country index. */
  type Regions = map<int, RegionState>

  /** `getTravelPerDay(from, to)`: people travelling per day. */
  type Travel = (int, int) -> real

  // ------------------------------------------------------------- totals

  /** The sum of `f` over the listed regions, in list order (a missing region counts 0). */
  function Total(m: Regions, idx: seq<int>, f: RegionState -> real): real
  {
    if idx == [] then 0.0
    else
      var i := idx[|idx| - 1];
      Total(m, idx[..|idx| - 1], f) + (if i in m then f(m[i]) else 0.0)
  }

  /** Changing a region that is not listed leaves the total alone. */
  lemma {:induction false} TotalOutside(m: Regions, idx: seq<int>, f: RegionState -> real, j: int, s: RegionState)
    requires j !in idx
    ensures Total(m[j := s], idx, f) == Total(m, idx, f)
  {
    if idx != [] {
      TotalOutside(m, idx[..|idx| - 1], f, j, s);
    }
  }

  /** Changing a listed region (listed once) changes the total by the difference. */
  lemma {:induction false} TotalUpdate(m: Regions, idx: seq<int>, f: RegionState -> real, j: int, s: RegionState)
    requires NoDup(idx) && j in idx && j in m
    ensures Total(m[j := s], idx, f) == Total(m, idx, f) - f(m[j]) + f(s)
  {
    var init := idx[..|idx| - 1];
    if idx[|idx| - 1] == j {
      assert j !in init by {
        forall n | 0 <= n < |init|
          ensures init[n] != j
        {
          assert idx[n] != idx[|idx| - 1];
        }
      }
      TotalOutside(m, init, f, j, s);
    } else {
      assert NoDup(init);
      TotalUpdate(m, init, f, j, s);
    }
  }

  /** Two region maps with the same `f` on every listed region have the same total. */
  lemma {:induction false} TotalAgree(m: Regions, m': Regions, idx: seq<int>, f: RegionState -> real)
    requires forall i :: i in idx ==> (i in m <==> i in m') && (i in m ==> f(m[i]) == f(m'[i]))
    ensures Total(m, idx, f) == Total(m', idx, f)
  {
    if idx != [] {
      TotalAgree(m, m', idx[..|idx| - 1], f);
    }
  }

  /** A region's prevalence delta. */
  function PrevalenceDelta(s: RegionState): real
  {
    Get(s.delta, Prevalence)
  }

  /** A region's `importIncidence` field. */
  function ImportOf(s: RegionState): real
  {
    s.importIncidence
  }

  /** A region's prevalence compartment. */
  function PrevalenceOf(s: RegionState): real
  {
    Get(s.compartment, Prevalence)
  }

  /** `_.last(countryModel.solution.incidence)`: the incidence its last step recorded. */
  function LastIncidence(s: RegionState): real
  {
    if s.solution.incidence == [] then 0.0 else s.solution.incidence[|s.solution.incidence| - 1]
  }

  // ---------------------------------------------------------- migration

  /** What migration leaves alone in a region: its variant, keys, compartments and parameters. */
  predicate SameCore(a: RegionState, b: RegionState)
  {
    a.variant == b.variant && a.keys == b.keys && a.compartment == b.compartment && a.param == b.param
  }

  /** One pair of `transferPeople`: `x` people leave `i`'s prevalence delta and arrive, imported, at `j`. */
  function Pass(m: Regions, i: int, j: int, x: real): (r: Regions)
    requires i in m && j in m && i != j
    ensures r.Keys == m.Keys
    ensures forall k :: k in m ==> SameCore(m[k], r[k]) && r[k].vars == m[k].vars
  {
    m[i := Emit(m[i], x)][j := Receive(m[j], x)]
  }

  /**
   * Over a list naming both regions once, one pair keeps the total
   * prevalence delta and adds `x` to the total import.
   */
  lemma PassConserves(m: Regions, i: int, j: int, x: real, idx: seq<int>)
    requires i in m && j in m && i != j && NoDup(idx) && i in idx && j in idx
    ensures Total(Pass(m, i, j, x), idx, PrevalenceDelta) == Total(m, idx, PrevalenceDelta)
    ensures Total(Pass(m, i, j, x), idx, ImportOf) == Total(m, idx, ImportOf) + x
  {
    var m1 := m[i := Emit(m[i], x)];
    TotalUpdate(m, idx, PrevalenceDelta, i, Emit(m[i], x));
    TotalUpdate(m, idx, ImportOf, i, Emit(m[i], x));
    TotalUpdate(m1, idx, PrevalenceDelta, j, Receive(m1[j], x));
    TotalUpdate(m1, idx, ImportOf, j, Receive(m1[j], x));
  }

  /**
   * The inner loop of `transferPeople` for source `i`, whose prevalence
   * is `prev` and population `pop`: for each listed `j` other than `i`,
   * `prev * travel(i, j) / pop` people leave `i`'s prevalence delta and
   * arrive in `j`'s, where they are counted as imported.
   */
  function Spread(m: Regions, i: int, targets: seq<int>, travel: Travel, prev: real, pop: real): (r: Regions)
    requires pop != 0.0 && i in m && forall j :: j in targets ==> j in m
    ensures r.Keys == m.Keys
    ensures forall k :: k in m ==> SameCore(m[k], r[k]) && r[k].vars == m[k].vars
  {
    if targets == [] then m
    else
      var r := Spread(m, i, targets[..|targets| - 1], travel, prev, pop);
      var j := targets[|targets| - 1];
      if j == i then r else Pass(r, i, j, Flux(prev, travel(i, j), pop))
  }

  /** The people source `i` sends to the listed targets other than itself. */
  function Outflow(i: int, targets: seq<int>, travel: Travel, prev: real, pop: real): real
    requires pop != 0.0
  {
    if targets == [] then 0.0
    else
      var j := targets[|targets| - 1];
      Outflow(i, targets[..|targets| - 1], travel, prev, pop)
      + (if j == i then 0.0 else Flux(prev, travel(i, j), pop))
  }

  /**
   * Over a list naming every source and target once, the inner loop
   * keeps the total prevalence delta and adds the source's outflow to
   * the total import.
   */
  lemma {:induction false} SpreadConserves(m: Regions, i: int, targets: seq<int>, travel: Travel,
                                           prev: real, pop: real, idx: seq<int>)
    requires pop != 0.0 && i in m && forall j :: j in targets ==> j in m
    requires NoDup(idx) && i in idx && forall j :: j in targets ==> j in idx
    ensures Total(Spread(m, i, targets, travel, prev, pop), idx, PrevalenceDelta)
            == Total(m, idx, PrevalenceDelta)
    ensures Total(Spread(m, i, targets, travel, prev, pop), idx, ImportOf)
            == Total(m, idx, ImportOf) + Outflow(i, targets, travel, prev, pop)
  {
    if targets != [] {
      var init := targets[..|targets| - 1];
      assert forall j :: j in init ==> j in targets;
      SpreadConserves(m, i, init, travel, prev, pop, idx);
      var r := Spread(m, i, init, travel, prev, pop);
      var j := targets[|targets| - 1];
      if j != i {
        PassConserves(r, i, j, Flux(prev, travel(i, j), pop), idx);
      }
    }
  }

  /** The population `transferPeople` reads after `fromCountry.calcVars()`. */
  predicate CanSend(s: RegionState)
  {
    VarsDefined(s.variant, s.param, s.compartment)
  }

  /** Migration keeps a region able to send. */
  lemma CanSendKept(a: RegionState, b: RegionState)
    requires SameCore(a, b) && CanSend(a)
    ensures CanSend(b)
  {
  }

  /** `fromCountry.calcVars()`: the variables recomputed, the population among them. */
  function Recalc(s: RegionState): (r: RegionState)
    requires CanSend(s)
    ensures SameCore(s, r) && r.delta == s.delta && r.importIncidence == s.importIncidence
    ensures Get(r.vars, Population) == TotalPopulation(s.variant, s.compartment) != 0.0
  {
    s.(vars := CalcVars(s.variant, s.vars, s.param, s.compartment))
  }

  /** Recomputing one region's variables changes neither total. */
  lemma RecalcKeepsTotals(m: Regions, i: int, idx: seq<int>)
    requires i in m && CanSend(m[i]) && NoDup(idx) && i in idx
    ensures Total(m[i := Recalc(m[i])], idx, PrevalenceDelta) == Total(m, idx, PrevalenceDelta)
    ensures Total(m[i := Recalc(m[i])], idx, ImportOf) == Total(m, idx, ImportOf)
  {
    TotalUpdate(m, idx, PrevalenceDelta, i, Recalc(m[i]));
    TotalUpdate(m, idx, ImportOf, i, Recalc(m[i]));
  }

  /** `fromCountry.calcVars()`, then the inner loop of `transferPeople` for source `i`. */
  function TransferFrom(m: Regions, i: int, idx: seq<int>, travel: Travel): (r: Regions)
    requires i in m && CanSend(m[i]) && forall j :: j in idx ==> j in m
    ensures r.Keys == m.Keys
    ensures forall k :: k in m ==> SameCore(m[k], r[k])
  {
    var s := Recalc(m[i]);
    Spread(m[i := s], i, idx, travel, PrevalenceOf(s), Get(s.vars, Population))
  }

  /**
   * `transferPeople`, the outer loop: each listed source in turn
   * recomputes its variables and sends its travellers to every other
   * listed region.
   */
  function TransferPeople(m: Regions, sources: seq<int>, idx: seq<int>, travel: Travel): (r: Regions)
    requires forall j :: j in idx ==> j in m
    requires forall j :: j in sources ==> j in m && CanSend(m[j])
    ensures r.Keys == m.Keys
    ensures forall k :: k in m ==> SameCore(m[k], r[k])
  {
    if sources == [] then m
    else
      var r := TransferPeople(m, sources[..|sources| - 1], idx, travel);
      var i := sources[|sources| - 1];
      assert i in sources && SameCore(m[i], r[i]);
      CanSendKept(m[i], r[i]);
      TransferFrom(r, i, idx, travel)
  }

  /** The people all listed sources send, from the regions as they were before the transfer. */
  function Moved(m: Regions, sources: seq<int>, idx: seq<int>, travel: Travel): real
    requires forall j :: j in sources ==> j in m && CanSend(m[j])
  {
    if sources == [] then 0.0
    else
      var i := sources[|sources| - 1];
      assert i in sources && CanSend(m[i]);
      assert VarsDefined(m[i].variant, m[i].param, m[i].compartment);
      Moved(m, sources[..|sources| - 1], idx, travel)
      + Outflow(i, idx, travel, PrevalenceOf(m[i]), TotalPopulation(m[i].variant, m[i].compartment))
  }

  /**
   * Migration conservation: the total prevalence delta over all regions
   * is unchanged, the total import grows by exactly what the sources
   * sent, and no region's compartments, parameters or keys change.
   */
  lemma {:induction false} TransferConserves(m: Regions, sources: seq<int>, idx: seq<int>, travel: Travel)
    requires NoDup(idx) && (forall j :: j in idx ==> j in m)
    requires forall j :: j in sources ==> j in idx && CanSend(m[j])
    ensures Total(TransferPeople(m, sources, idx, travel), idx, PrevalenceDelta) == Total(m, idx, PrevalenceDelta)
    ensures Total(TransferPeople(m, sources, idx, travel), idx, ImportOf)
            == Total(m, idx, ImportOf) + Moved(m, sources, idx, travel)
  {
    if sources != [] {
      var init := sources[..|sources| - 1];
      assert forall j :: j in init ==> j in sources;
      TransferConserves(m, init, idx, travel);
      var r := TransferPeople(m, init, idx, travel);
      var i := sources[|sources| - 1];
      assert i in sources;
      CanSendKept(m[i], r[i]);
      var s := Recalc(r[i]);
      RecalcKeepsTotals(r, i, idx);
      SpreadConserves(r[i := s], i, idx, travel, PrevalenceOf(s), Get(s.vars, Population), idx);
      assert PrevalenceOf(s) == PrevalenceOf(m[i]);
      assert Get(s.vars, Population) == TotalPopulation(m[i].variant, m[i].compartment);
    }
  }

  // ------------------------------------------------------------- update

  /** The first loop of `update` on one region: `clearDeltas()`, then `importIncidence = 0`. */
  function Reset(s: RegionState): RegionState
  {
    ClearDeltas(s).(importIncidence := 0.0)
  }

  /** Growing a prefix of a list without repeats by one element adds a new element. */
  lemma PrefixStep(idx: seq<int>, n: int)
    requires NoDup(idx) && 0 <= n < |idx|
    ensures idx[n] in idx && idx[n] !in idx[..n]
    ensures forall k :: k in idx[..n + 1] <==> k in idx[..n] || k == idx[n]
  {
    assert idx[..n + 1] == idx[..n] + [idx[n]];
    LastNotInInit(idx[..n + 1]);
    assert idx[..n + 1][..n] == idx[..n];
  }

  /** The whole list is its longest prefix. */
  lemma PrefixAll(idx: seq<int>)
    ensures idx[..|idx|] == idx
  {
  }

  /** The prefix of length `n + 1` ends in `idx[n]`, after the prefix of length `n`. */
  lemma PrefixSnoc(idx: seq<int>, n: int)
    requires 0 <= n < |idx|
    ensures idx[n] in idx && idx[..n + 1] != [] && idx[..n + 1][..n] == idx[..n]
    ensures idx[..n + 1][|idx[..n + 1]| - 1] == idx[n]
  {
  }

  /** `Total` over a prefix one longer adds the next region's value. */
  lemma TotalSnoc(m: Regions, idx: seq<int>, f: RegionState -> real, n: int)
    requires 0 <= n < |idx|
    ensures Total(m, idx[..n + 1], f) == Total(m, idx[..n], f) + (if idx[n] in m then f(m[idx[n]]) else 0.0)
  {
    PrefixSnoc(idx, n);
  }

  /** `Spread` over a prefix one longer makes one more transfer (none to the source itself). */
  lemma SpreadSnoc(m: Regions, i: int, targets: seq<int>, travel: Travel, prev: real, pop: real, n: int)
    requires pop != 0.0 && i in m && (forall j :: j in targets ==> j in m) && 0 <= n < |targets|
    ensures forall j :: j in targets[..n] ==> j in m
    ensures Spread(m, i, targets[..n + 1], travel, prev, pop)
            == var r := Spread(m, i, targets[..n], travel, prev, pop);
               if targets[n] == i then r else Pass(r, i, targets[n], Flux(prev, travel(i, targets[n]), pop))
  {
    PrefixSnoc(targets, n);
    assert forall j :: j in targets[..n] ==> j in targets;
  }

  /** `TransferPeople` over a prefix of the sources one longer lets one more source send. */
  lemma TransferSnoc(m: Regions, idx: seq<int>, travel: Travel, n: int)
    requires (forall j :: j in idx ==> j in m && CanSend(m[j])) && 0 <= n < |idx|
    ensures forall j :: j in idx[..n] ==> j in m && CanSend(m[j])
    ensures CanSend(TransferPeople(m, idx[..n], idx, travel)[idx[n]])
    ensures TransferPeople(m, idx[..n + 1], idx, travel)
            == TransferFrom(TransferPeople(m, idx[..n], idx, travel), idx[n], idx, travel)
  {
    PrefixSnoc(idx, n);
    assert forall j :: j in idx[..n] ==> j in idx;
    assert forall j :: j in idx[..n + 1] ==> j in idx;
    CanSendKept(m[idx[n]], TransferPeople(m, idx[..n], idx, travel)[idx[n]]);
  }

  /** `countryModel.solution.importIncidence.push(countryModel.importIncidence)`. */
  function Record(s: RegionState): RegionState
  {
    s.(solution := s.solution.(importIncidence := s.solution.importIncidence + [s.importIncidence]))
  }

  /** The second loop of `update` on one region: `runStep(dTimeInDay)`, then record its import. */
  function StepAndRecord(s: RegionState, dt: real): RegionState
    requires CanSend(s)
  {
    Record(Step(s, dt))
  }

  /** Every field of a `GlobalModel` that its operations read or write. */
  datatype World = World(
    indices: seq<int>,
    isIntervention: bool,
    regions: Regions,
    incidence: real,
    prevalence: real,
    solIncidence: seq<real>,
    solPrevalence: seq<real>,
    travel: Option<Travel>,
    startTime: real,
    time: real,
    times: seq<real>,
    dTimeInDay: real,
    interventionDay: Option<real>)

  /** `countryIndices` lists each region of `countryModel` exactly once. */
  predicate Coherent(w: World)
  {
    && NoDup(w.indices)
    && (forall i :: i in w.regions ==> i in w.indices)
    && (forall i :: i in w.indices ==> i in w.regions)
  }

  /** `update` can run: every region has a nonzero population (and hospital capacity). */
  predicate CanUpdate(w: World)
  {
    Coherent(w) && forall i :: i in w.indices ==> CanSend(w.regions[i])
  }

  /** The first loop of `update` on every region. */
  function ResetRegions(m: Regions): (r: Regions)
    ensures r.Keys == m.Keys
  {
    map k | k in m :: Reset(m[k])
  }

  /** `update` up to `transferPeople`: the clock advances and every region is reset. */
  function Prepared(w: World): (r: World)
    requires Coherent(w)
    ensures Coherent(r)
  {
    w.(time := w.time + w.dTimeInDay,
       times := w.times + [w.time + w.dTimeInDay],
       regions := ResetRegions(w.regions))
  }

  /** Resetting keeps every region able to send. */
  lemma PreparedCanUpdate(w: World)
    requires CanUpdate(w)
    ensures CanUpdate(Prepared(w))
  {
    forall i | i in w.indices
      ensures CanSend(Prepared(w).regions[i])
    {
      CanSendKept(w.regions[i], Prepared(w).regions[i]);
    }
  }

  /** The `transferPeople` of `update`: every listed region sends to every other one. */
  function Transferred(w: World): (r: World)
    requires CanUpdate(w) && w.travel.Some?
    ensures CanUpdate(r)
  {
    var r := w.(regions := TransferPeople(w.regions, w.indices, w.indices, w.travel.value));
    assert CanUpdate(r) by {
      forall i | i in w.indices
        ensures CanSend(r.regions[i])
      {
        CanSendKept(w.regions[i], r.regions[i]);
      }
    }
    r
  }

  /** The regions after the `transferPeople` of `update`. */
  function Migrated(w: World): (r: Regions)
    requires CanUpdate(w) && w.travel.Some?
    ensures r.Keys == w.regions.Keys
    ensures forall k :: k in w.regions ==> SameCore(w.regions[k], r[k])
  {
    PreparedCanUpdate(w);
    Transferred(Prepared(w)).regions
  }

  /**
   * The end of `update`: step every region and record its import, then
   * set the global variables to, and push onto the global series, the sums
   * of the regions' new incidence and of their prevalence.
   */
  function Stepped(w: World): World
    requires CanUpdate(w)
  {
    var stepped := SteppedRegions(w.regions, w.dTimeInDay);
    var incidence := Total(stepped, w.indices, LastIncidence);
    var prevalence := Total(stepped, w.indices, PrevalenceOf);
    w.(regions := stepped, incidence := incidence, prevalence := prevalence,
       solIncidence := w.solIncidence + [incidence], solPrevalence := w.solPrevalence + [prevalence])
  }

  /** The second loop of `update` on every region: each steps and records its import. */
  function SteppedRegions(m: Regions, dt: real): (r: Regions)
    requires forall k :: k in m ==> CanSend(m[k])
    ensures r.Keys == m.Keys
  {
    map k | k in m :: StepAndRecord(m[k], dt)
  }

  /**
   * `update`: advance the clock, reset every region, migrate, step every
   * region and record its import, then push the sums of the regions'
   * recorded incidence and of their prevalence.
   */
  function Update(w: World): World
    requires CanUpdate(w) && w.travel.Some?
  {
    PreparedCanUpdate(w);
    Stepped(Transferred(Prepared(w)))
  }

  /**
   * `update` as written: its first loop calls `clearDeltas()` on each
   * region, which no engine class defines, so with any region present it
   * throws a TypeError once the clock has advanced and before any region
   * changes. Without regions it completes as `Update`.
   */
  function UpdateAsWritten(w: World): (r: (bool, World))
    requires CanUpdate(w) && w.travel.Some?
    ensures r.0 <==> w.regions == map[]
  {
    if w.regions == map[] then (true, Update(w))
    else (false, w.(time := w.time + w.dTimeInDay, times := w.times + [w.time + w.dTimeInDay]))
  }

  /** With any country index listed, `update` as written fails, leaving every region as it was. */
  lemma UpdateAsWrittenThrows(w: World)
    requires CanUpdate(w) && w.travel.Some? && w.indices != []
    ensures !UpdateAsWritten(w).0
    ensures UpdateAsWritten(w).1.regions == w.regions
    ensures UpdateAsWritten(w).1.time == w.time + w.dTimeInDay
  {
    assert w.indices[0] in w.indices;
  }

  /** A total of zeros is zero. */
  lemma {:induction false} TotalZero(m: Regions, idx: seq<int>, f: RegionState -> real)
    requires forall i :: i in idx && i in m ==> f(m[i]) == 0.0
    ensures Total(m, idx, f) == 0.0
  {
    if idx != [] {
      TotalZero(m, idx[..|idx| - 1], f);
    }
  }

  /** The first loop of `update` zeroes every listed delta and every region's import. */
  lemma PreparedAt(w: World, k: Name, i: int)
    requires Coherent(w) && i in w.indices
    ensures ImportOf(Prepared(w).regions[i]) == 0.0
    ensures k in w.regions[i].keys ==> Get(Prepared(w).regions[i].delta, k) == 0.0
    ensures Prepared(w).regions[i].compartment == w.regions[i].compartment
  {
  }

  /**
   * In `update` the regions' imports total exactly what migration sent,
   * and migration leaves the total prevalence delta at what the reset
   * left it.
   */
  lemma UpdateImports(w: World)
    requires CanUpdate(w) && w.travel.Some?
    ensures Total(Migrated(w), w.indices, ImportOf)
            == Moved(Prepared(w).regions, w.indices, w.indices, w.travel.value)
    ensures Total(Migrated(w), w.indices, PrevalenceDelta) == Total(Prepared(w).regions, w.indices, PrevalenceDelta)
  {
    var p := Prepared(w);
    forall i | i in w.indices
      ensures CanSend(p.regions[i])
    {
      CanSendKept(w.regions[i], p.regions[i]);
    }
    TransferConserves(p.regions, w.indices, w.indices, w.travel.value);
    TotalZero(p.regions, w.indices, ImportOf);
  }

  /**
   * In `update` the prevalence deltas of all regions total zero after
   * migration, once every region lists `prevalence` among its keys
   * (before `clearSolutions` a region's keys are empty and the reset
   * leaves its delta alone).
   */
  lemma {:induction false} UpdateBalances(w: World)
    requires CanUpdate(w) && w.travel.Some?
    requires forall i :: i in w.indices ==> Prevalence in w.regions[i].keys
    ensures Total(Migrated(w), w.indices, PrevalenceDelta) == 0.0
  {
    var p := Prepared(w);
    forall i | i in w.indices && i in p.regions
      ensures PrevalenceDelta(p.regions[i]) == 0.0
    {
      PreparedAt(w, Prevalence, i);
    }
    TotalZero(p.regions, w.indices, PrevalenceDelta);
    UpdateImports(w);
  }

  /**
   * `update`'s bookkeeping: the clock advances by `dTimeInDay`, `times`
   * and both global series grow by one entry, and nothing else of the
   * global model but the regions and its variables changes.
   */
  lemma UpdateTiming(w: World)
    requires CanUpdate(w) && w.travel.Some?
    ensures Update(w).time == w.time + w.dTimeInDay
    ensures Update(w).times == w.times + [Update(w).time]
    ensures |Update(w).solIncidence| == |w.solIncidence| + 1
    ensures |Update(w).solPrevalence| == |w.solPrevalence| + 1
    ensures Update(w).solIncidence[..|w.solIncidence|] == w.solIncidence
    ensures Update(w).solPrevalence[..|w.solPrevalence|] == w.solPrevalence
    ensures Update(w).(regions := w.regions, incidence := w.incidence, prevalence := w.prevalence,
                       solIncidence := w.solIncidence, solPrevalence := w.solPrevalence,
                       time := w.time, times := w.times) == w
  {
  }

  /** `update` on each region: it runs one step from its migrated state, then records its import. */
  lemma UpdateRegions(w: World, i: int)
    requires CanUpdate(w) && w.travel.Some? && i in w.indices
    ensures CanSend(Migrated(w)[i])
    ensures Update(w).regions[i] == StepAndRecord(Migrated(w)[i], w.dTimeInDay)
  {
    CanSendKept(w.regions[i], Migrated(w)[i]);
  }

  /** The new global entries are the totals of the regions' last incidence and of their prevalence. */
  lemma UpdateSeries(w: World)
    requires CanUpdate(w) && w.travel.Some?
    ensures Update(w).solIncidence[|w.solIncidence|] == Total(Update(w).regions, w.indices, LastIncidence)
    ensures Update(w).solPrevalence[|w.solPrevalence|] == Total(Update(w).regions, w.indices, PrevalenceOf)
  {
  }

  /**
   * A region's step in `update` appends its import to its import series,
   * and the incidence `update` adds up is the entry the step appended.
   */
  lemma StepAndRecordSeries(s: RegionState, dt: real)
    requires CanSend(s)
    ensures StepAndRecord(s, dt).solution.importIncidence == s.solution.importIncidence + [s.importIncidence]
    ensures LastIncidence(StepAndRecord(s, dt)) == Step(s, dt).solution.incidence[|s.solution.incidence|]
  {
    StepSeries(s, dt);
    StepIsAdvance(s, dt);
  }

  // -------------------------------------------------- the other operations

  /** `new GlobalModel(isIntervention)`: no regions, empty series, the clock at 0, one day per step. */
  function Initial(isIntervention: bool): World
  {
    World([], isIntervention, map[], 0.0, 0.0, [], [], None, 0.0, 0.0, [], 1.0, None)
  }

  /** `setCountryModel`: the previous regions are dropped and each index gets a fresh region. */
  function SetCountryModel(w: World, indices: seq<int>, v: Variant): (r: World)
    requires NoDup(indices)
    ensures Coherent(r)
  {
    w.(indices := indices, regions := map i | i in indices :: Fresh(v))
  }

  /** `clearSolutions`: empty the global series and `times`, rewind the clock, clear every region. */
  function ClearSolutions(w: World): (r: World)
    requires Coherent(w)
    ensures Coherent(r)
  {
    w.(solIncidence := [], solPrevalence := [], times := [], time := w.startTime,
       regions := map i | i in w.regions :: Engine.ClearSolutions(w.regions[i]))
  }

  /** `applyIntervention` is defined on every region. */
  predicate CanIntervene(w: World, entries: seq<GuiParam>)
  {
    Coherent(w) && forall i :: i in w.indices ==> InterventionDefined(w.regions[i], entries)
  }

  /**
   * `makeIntervention`: a new intervention model whose clock starts at
   * the current time, sharing the travel function and the indices, with
   * a copy of every region carrying the intervention parameters.
   */
  function MakeIntervention(w: World, entries: seq<GuiParam>): (r: World)
    requires CanIntervene(w, entries)
    ensures Coherent(r)
  {
    Initial(true).(startTime := w.time, travel := w.travel, indices := w.indices,
                   regions := map i | i in w.indices :: ApplyIntervention(w.regions[i], entries))
  }

  /** `_.find(result, e => e.key === k)`: the value of the first entry with key `k`. */
  function FindKey(entries: seq<GuiParam>, k: Name): (r: Option<real>)
    ensures r.None? <==> forall i :: 0 <= i < |entries| ==> entries[i].key != k
    ensures r.Some? ==> exists i :: 0 <= i < |entries| && entries[i].key == k && entries[i].value == r.value
                                    && forall j :: 0 <= j < i ==> entries[j].key != k
  {
    if entries == [] then None
    else if entries[0].key == k then Some(entries[0].value)
    else
      var r := FindKey(entries[1..], k);
      assert forall i :: 0 < i < |entries| ==> entries[i] == entries[1..][i - 1];
      r
  }

  /** What `getGuiParams` reads: the regions are empty or include region 0. */
  predicate HasFirst(w: World)
  {
    w.regions == map[] || 0 in w.regions
  }

  /** The list `getGuiParams` (`intervention` false) or `getInterventionParams` returns. */
  function ParamsOfFirst(w: World, intervention: bool): seq<GuiParam>
    requires HasFirst(w)
  {
    if w.regions == map[] then []
    else if intervention then InterventionParams(w.regions[0].variant)
    else GuiParams(w.regions[0].variant)
  }

  /**
   * `getGuiParams` / `getInterventionParams` on the model: a
   * non-intervention model with regions records the `interventionDay`
   * entry of the list, if it has one.
   */
  function NoteParams(w: World, intervention: bool): World
    requires HasFirst(w)
  {
    if w.regions == map[] then w else Noted(w, ParamsOfFirst(w, intervention))
  }

  /** A non-intervention model records the `interventionDay` entry of `entries`, if there is one. */
  function Noted(w: World, entries: seq<GuiParam>): World
  {
    var found := FindKey(entries, InterventionDay);
    if !w.isIntervention && found.Some? then w.(interventionDay := found) else w
  }

  /** With no regions the parameter lists are empty and nothing changes. */
  lemma ParamsOfNone(w: World, intervention: bool)
    requires w.regions == map[]
    ensures ParamsOfFirst(w, intervention) == [] && NoteParams(w, intervention) == w
  {
  }

  /**
   * Only a non-intervention model records the intervention day, and it
   * records the first value the list gives for it.
   */
  lemma NoteParamsRecords(w: World, intervention: bool)
    requires HasFirst(w)
    ensures w.isIntervention ==> NoteParams(w, intervention) == w
    ensures NoteParams(w, intervention).(interventionDay := w.interventionDay) == w
    ensures NoteParams(w, intervention).interventionDay != w.interventionDay ==>
      exists i :: 0 <= i < |ParamsOfFirst(w, intervention)|
                  && ParamsOfFirst(w, intervention)[i].key == InterventionDay
                  && Some(ParamsOfFirst(w, intervention)[i].value) == NoteParams(w, intervention).interventionDay
  {
  }

  /** The SIR intervention list sets day 5 on a non-intervention model. */
  lemma SirInterventionDay(w: World)
    requires 0 in w.regions && w.regions[0].variant == Sir && !w.isIntervention
    ensures NoteParams(w, true).interventionDay == Some(5.0)
    ensures NoteParams(w, false).interventionDay == w.interventionDay
  {
    assert InterventionParams(Sir)[0].key == InterventionDay;
  }

  /**
   * `makeIntervention`: the new model is an intervention model starting
   * at the source's current time with no times, the same travel
   * function and indices, and each region is the source's region with
   * the intervention applied: same compartments, overridden parameters.
   */
  lemma MakeInterventionAt(w: World, entries: seq<GuiParam>, i: int, k: Name)
    requires CanIntervene(w, entries) && i in w.indices && k !in DerivedKeys(w.regions[i].variant)
    ensures MakeIntervention(w, entries).isIntervention
    ensures MakeIntervention(w, entries).startTime == w.time && MakeIntervention(w, entries).times == []
    ensures MakeIntervention(w, entries).travel == w.travel && MakeIntervention(w, entries).indices == w.indices
    ensures MakeIntervention(w, entries).regions[i].compartment == w.regions[i].compartment
    ensures LastValue(entries, k).Some? ==>
      Get(MakeIntervention(w, entries).regions[i].param, k) == LastValue(entries, k).value
    ensures LastValue(entries, k).None? ==>
      Get(MakeIntervention(w, entries).regions[i].param, k) == Get(w.regions[i].param, k)
  {
    ApplyInterventionAt(w.regions[i], entries, k);
  }

  /** `clearSolutions` empties every series of the model and of each region and lists each region's compartments. */
  lemma ClearSolutionsAt(w: World, i: int)
    requires Coherent(w) && i in w.indices
    ensures ClearSolutions(w).solIncidence == [] && ClearSolutions(w).solPrevalence == []
    ensures ClearSolutions(w).times == [] && ClearSolutions(w).time == w.startTime
    ensures ClearSolutions(w).regions[i].solution == EmptySolution
    ensures ClearSolutions(w).regions[i].times == []
    ensures ClearSolutions(w).regions[i].keys == Names(w.regions[i].variant)
  {
  }
}
