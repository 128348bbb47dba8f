/**
 * `GlobalModel` as a class holding one `CompartmentModel` object per
 * country index. Every method is proved against the function of
 * `Global` that says what the operation does to the whole model.
 */
module GlobalModels {
  import opened Wrappers
  import opened Buckets
  import opened Variants
  import opened Engine
  import opened Global
  import Region

  type Models = map<int, Region.CompartmentModel>

  /** The region objects of a model map. */
  ghost function ObjectsOf(ms: Models): set<Region.CompartmentModel>
  {
    set i | i in ms :: ms[i]
  }

  /** The states of the region objects, by index. */
  ghost function StatesOf(ms: Models): (r: Regions)
    reads ObjectsOf(ms)
    ensures r.Keys == ms.Keys
  {
    map i | i in ms :: ms[i].State()
  }

  /** No object serves two indices. */
  ghost predicate Injective(ms: Models)
  {
    forall i, j :: i in ms && j in ms && i != j ==> ms[i] != ms[j]
  }

  /** Objects that did not change keep their states. */
  twostate lemma StatesKept(ms: Models)
    requires forall k :: k in ms ==> unchanged(ms[k])
    ensures StatesOf(ms) == old(StatesOf(ms))
  {
    forall k | k in ms
      ensures StatesOf(ms)[k] == old(StatesOf(ms))[k]
    {
      assert unchanged(ms[k]);
    }
  }

  /** A fresh region object of variant `v` for each index (the loop of `setCountryModel`). */
  method FreshModels(indices: seq<int>, name: string, v: Variant) returns (ms: Models)
    requires NoDup(indices)
    ensures ms.Keys == set i | i in indices
    ensures Injective(ms) && forall i :: i in ms ==> fresh(ms[i])
    ensures StatesOf(ms) == map i | i in indices :: Fresh(v)
  {
    ms := map[];
    for n := 0 to |indices|
      invariant ms.Keys == set i | i in indices[..n]
      invariant Injective(ms) && forall i :: i in ms ==> fresh(ms[i])
      invariant forall i :: i in ms ==> ms[i].State() == Fresh(v)
    {
      PrefixStep(indices, n);
      var m := new Region.CompartmentModel(name, v);
      ms := ms[indices[n] := m];
    }
    assert indices[..|indices|] == indices;
    forall i | i in ms
      ensures StatesOf(ms)[i] == Fresh(v)
    {
    }
  }

  /** `_.cloneDeep(model)` followed by `applyIntervention` on the copy. */
  method CloneIntervened(m: Region.CompartmentModel, entries: seq<GuiParam>) returns (c: Region.CompartmentModel)
    requires InterventionDefined(m.State(), entries)
    ensures fresh(c) && c.State() == ApplyIntervention(m.State(), entries)
  {
    c := new Region.CompartmentModel.Clone(m);
    c.ApplyIntervention(entries);
  }

  /**
   * A deep copy of each listed region with the intervention `entries`
   * applied (the loop of `makeIntervention`); `regions` are the states of
   * the originals, which are left as they were.
   */
  method InterventionModels(idx: seq<int>, ms: Models, ghost regions: Regions, entries: seq<GuiParam>)
    returns (gm: Models)
    requires NoDup(idx)
    requires forall i :: i in idx ==> i in ms && i in regions && ms[i].State() == regions[i]
    requires forall i :: i in idx ==> InterventionDefined(regions[i], entries)
    ensures gm.Keys == set i | i in idx
    ensures Injective(gm) && forall i :: i in gm ==> fresh(gm[i])
    ensures StatesOf(gm) == map i | i in idx :: ApplyIntervention(regions[i], entries)
  {
    gm := map[];
    for n := 0 to |idx|
      invariant gm.Keys == set i | i in idx[..n]
      invariant Injective(gm) && forall i :: i in gm ==> fresh(gm[i])
      invariant forall i :: i in gm ==> i in idx && gm[i].State() == ApplyIntervention(regions[i], entries)
    {
      var i := idx[n];
      PrefixStep(idx, n);
      var c := CloneIntervened(ms[i], entries);
      gm := gm[i := c];
    }
    assert idx[..|idx|] == idx;
    StatesAre(gm, map i | i in idx :: ApplyIntervention(regions[i], entries));
  }

  /** A map of states that agrees with every object's state is `StatesOf` the objects. */
  lemma StatesAre(ms: Models, r: Regions)
    requires r.Keys == ms.Keys
    requires forall k :: k in ms ==> ms[k].State() == r[k]
    ensures StatesOf(ms) == r
  {
    forall k | k in ms
      ensures StatesOf(ms)[k] == r[k]
    {
    }
  }

  /**
   * `clearSolutions` of each listed region object, in the order of `idx`;
   * `regions` are the states the objects start in.
   */
  method ClearModels(idx: seq<int>, ms: Models, ghost regions: Regions)
    requires Sound(idx, ms) && regions.Keys == ms.Keys
    requires forall k :: k in ms ==> ms[k].State() == regions[k]
    modifies ObjectsOf(ms)
    ensures StatesOf(ms) == map i | i in regions :: Engine.ClearSolutions(regions[i])
  {
    for n := 0 to |idx|
      invariant forall k :: k in ms ==>
        ms[k].State() == if k in idx[..n] then Engine.ClearSolutions(regions[k]) else regions[k]
    {
      var i := idx[n];
      PrefixStep(idx, n);
      ms[i].ClearSolutions();
    }
    assert idx[..|idx|] == idx;
    StatesAre(ms, map i | i in regions :: Engine.ClearSolutions(regions[i]));
  }

  /** One region of the first loop of `update`: `clearDeltas()`, then `importIncidence = 0`. */
  method ResetModel(c: Region.CompartmentModel)
    modifies c
    ensures c.State() == Reset(old(c.State()))
  {
    c.ClearDeltas();
    c.importIncidence := 0.0;
  }

  /**
   * One transfer of `transferPeople`: `x` people leave region `i`'s
   * prevalence and arrive in region `j`'s, counted as imported there.
   */
  method Send(ms: Models, i: int, j: int, x: real, ghost cur: Regions)
    requires i in ms && j in ms && i != j && Injective(ms) && cur.Keys == ms.Keys
    requires forall k :: k in ms ==> ms[k].State() == cur[k]
    modifies ms[i], ms[j]
    ensures forall k :: k in ms ==> ms[k].State() == Pass(cur, i, j, x)[k]
  {
    EmitModel(ms[i], x);
    ReceiveModel(ms[j], x);
    forall k | k in ms
      ensures ms[k].State() == Pass(cur, i, j, x)[k]
    {
      if k != i && k != j {
        assert ms[k] != ms[i] && ms[k] != ms[j];
      }
    }
  }

  /** `fromCountry.delta.prevalence -= delta`. */
  method EmitModel(c: Region.CompartmentModel, x: real)
    modifies c
    ensures c.State() == Emit(old(c.State()), x)
  {
    c.delta := c.delta[Prevalence := Get(c.delta, Prevalence) - x];
  }

  /** `toCountry.delta.prevalence += delta` and `toCountry.importIncidence += delta`. */
  method ReceiveModel(c: Region.CompartmentModel, x: real)
    modifies c
    ensures c.State() == Receive(old(c.State()), x)
  {
    c.delta := c.delta[Prevalence := Get(c.delta, Prevalence) + x];
    c.importIncidence := c.importIncidence + x;
  }

  /** One region of the second loop of `update`: `runStep(dTimeInDay)`, then record its import. */
  method StepModel(c: Region.CompartmentModel, dt: real)
    requires CanSend(c.State())
    modifies c
    ensures c.State() == StepAndRecord(old(c.State()), dt)
  {
    c.RunStep(dt);
    c.solution := c.solution.(importIncidence := c.solution.importIncidence + [c.importIncidence]);
  }

  /**
   * The first loop of `update`: `clearDeltas()` and `importIncidence = 0`
   * on each listed region object.
   */
  method ResetModels(idx: seq<int>, ms: Models, ghost regions: Regions)
    requires Sound(idx, ms) && regions.Keys == ms.Keys
    requires forall k :: k in ms ==> ms[k].State() == regions[k]
    modifies ObjectsOf(ms)
    ensures StatesOf(ms) == ResetRegions(regions)
  {
    for n := 0 to |idx|
      invariant forall k :: k in ms ==>
        ms[k].State() == if k in idx[..n] then Reset(regions[k]) else regions[k]
    {
      var i := idx[n];
      PrefixStep(idx, n);
      ResetModel(ms[i]);
    }
    assert idx[..|idx|] == idx;
    StatesAre(ms, ResetRegions(regions));
  }

  /**
   * The inner loop of `transferPeople` for source `i`, whose population
   * is `pop`: `travel(i, j) / pop` of its prevalence leaves `i` for each
   * other listed region `j`, which counts it as imported.
   */
  method SpreadModels(ms: Models, i: int, idx: seq<int>, travel: Travel, pop: real, ghost m: Regions)
    requires pop != 0.0 && i in ms && Injective(ms) && forall j :: j in idx ==> j in ms
    requires m.Keys == ms.Keys && forall k :: k in ms ==> ms[k].State() == m[k]
    modifies ObjectsOf(ms)
    ensures forall k :: k in ms ==> ms[k].State() == Spread(m, i, idx, travel, PrevalenceOf(m[i]), pop)[k]
  {
    ghost var prev := PrevalenceOf(m[i]);
    ghost var cur := m;
    for n := 0 to |idx|
      invariant cur == Spread(m, i, idx[..n], travel, prev, pop)
      invariant forall k :: k in ms ==> ms[k].State() == cur[k]
    {
      var j := idx[n];
      SpreadSnoc(m, i, idx, travel, prev, pop, n);
      if j != i {
        var from := ms[i];
        var x := Flux(Get(from.compartment, Prevalence), travel(i, j), pop);
        Send(ms, i, j, x, cur);
        cur := Pass(cur, i, j, x);
      }
    }
    assert idx[..|idx|] == idx;
  }

  /**
   * The outer loop of `transferPeople`: each listed source in turn runs
   * `calcVars()` and sends its travellers to every other listed region.
   */
  method TransferModels(idx: seq<int>, ms: Models, travel: Travel, ghost regions: Regions)
    requires Sound(idx, ms) && regions.Keys == ms.Keys
    requires forall k :: k in ms ==> ms[k].State() == regions[k] && CanSend(regions[k])
    modifies ObjectsOf(ms)
    ensures StatesOf(ms) == TransferPeople(regions, idx, idx, travel)
  {
    for n := 0 to |idx|
      invariant SentUpTo(idx, ms, n, travel, regions)
    {
      TransferAt(idx, ms, n, travel, regions);
    }
    assert idx[..|idx|] == idx;
    StatesAre(ms, TransferPeople(regions, idx, idx, travel));
  }

  /** The objects hold the states after the first `n` sources of `transferPeople` have sent. */
  ghost predicate SentUpTo(idx: seq<int>, ms: Models, n: int, travel: Travel, regions: Regions)
    requires Sound(idx, ms) && 0 <= n <= |idx| && regions.Keys == ms.Keys
    requires forall k :: k in ms ==> CanSend(regions[k])
    reads ObjectsOf(ms)
  {
    forall k :: k in ms ==> ms[k].State() == TransferPeople(regions, idx[..n], idx, travel)[k]
  }

  /** Source `idx[n]` of `transferPeople`: `calcVars()`, then its travellers leave for every other region. */
  method TransferAt(idx: seq<int>, ms: Models, n: int, travel: Travel, ghost regions: Regions)
    requires Sound(idx, ms) && 0 <= n < |idx| && regions.Keys == ms.Keys
    requires forall k :: k in ms ==> CanSend(regions[k])
    requires SentUpTo(idx, ms, n, travel, regions)
    modifies ObjectsOf(ms)
    ensures SentUpTo(idx, ms, n + 1, travel, regions)
  {
    ghost var r := TransferPeople(regions, idx[..n], idx, travel);
    var i := idx[n];
    TransferSnoc(regions, idx, travel, n);
    RecalcAt(ms, i, r);
    var pop := Get(ms[i].vars, Population);
    ghost var s := Recalc(r[i]);
    SpreadModels(ms, i, idx, travel, pop, r[i := s]);
    assert TransferPeople(regions, idx[..n + 1], idx, travel)
           == Spread(r[i := s], i, idx, travel, PrevalenceOf(s), pop);
  }

  /** `fromCountry.calcVars()` on region `i`'s object. */
  method RecalcAt(ms: Models, i: int, ghost cur: Regions)
    requires i in ms && Injective(ms) && cur.Keys == ms.Keys && CanSend(cur[i])
    requires forall k :: k in ms ==> ms[k].State() == cur[k]
    modifies ms[i]
    ensures forall k :: k in ms ==> ms[k].State() == cur[i := Recalc(cur[i])][k]
  {
    ms[i].CalcVars();
    forall k | k in ms
      ensures ms[k].State() == cur[i := Recalc(cur[i])][k]
    {
      if k != i {
        assert ms[k] != ms[i];
      }
    }
  }

  /**
   * The second loop of `update`: `runStep(dTimeInDay)` on each listed
   * region object and the push of its import, returning the sums of the
   * regions' last incidence and of their prevalence.
   */
  method StepModels(idx: seq<int>, ms: Models, dt: real, ghost w: World)
    returns (incidence: real, prevalence: real)
    requires Sound(idx, ms) && CanUpdate(w)
    requires w.indices == idx && w.regions == StatesOf(ms) && w.dTimeInDay == dt
    modifies ObjectsOf(ms)
    ensures StatesOf(ms) == Stepped(w).regions
    ensures incidence == Stepped(w).incidence && prevalence == Stepped(w).prevalence
  {
    ghost var regions := w.regions;
    ghost var after := SteppedRegions(regions, dt);
    assert forall k {:trigger SteppedFrom(after, regions, dt, k)} :: k in ms ==> SteppedFrom(after, regions, dt, k);
    assert forall k :: k in ms ==> ms[k].State() == regions[k];
    incidence, prevalence := StepLoop(idx, ms, dt, regions, after);
  }

  /** Region `k` of `after` is region `k` of `regions` after one step of `update`. */
  ghost predicate SteppedFrom(after: Regions, regions: Regions, dt: real, k: int)
  {
    k in after && k in regions && CanSend(regions[k]) && after[k] == StepAndRecord(regions[k], dt)
  }

  /** The loop of `StepModels`, towards the states `after`. */
  method StepLoop(idx: seq<int>, ms: Models, dt: real, ghost regions: Regions, ghost after: Regions)
    returns (incidence: real, prevalence: real)
    requires Sound(idx, ms) && regions.Keys == ms.Keys && after.Keys == ms.Keys
    requires forall k {:trigger SteppedFrom(after, regions, dt, k)} :: k in ms ==> SteppedFrom(after, regions, dt, k)
    requires forall k :: k in ms ==> ms[k].State() == regions[k]
    modifies ObjectsOf(ms)
    ensures StatesOf(ms) == after
    ensures incidence == Total(after, idx, LastIncidence)
    ensures prevalence == Total(after, idx, PrevalenceOf)
  {
    incidence, prevalence := 0.0, 0.0;
    for n := 0 to |idx|
      invariant forall k :: k in ms ==> ms[k].State() == if k in idx[..n] then after[k] else regions[k]
      invariant incidence == Total(after, idx[..n], LastIncidence)
      invariant prevalence == Total(after, idx[..n], PrevalenceOf)
    {
      var i := idx[n];
      assert i in idx;
      var inc, prev := StepAt(idx, ms, n, dt, regions, after);
      prevalence := AddNext(after, idx, n, PrevalenceOf, prevalence, prev);
      incidence := AddNext(after, idx, n, LastIncidence, incidence, inc);
    }
    assert idx[..|idx|] == idx;
    StatesAre(ms, after);
  }

  /**
   * The step of `idx[n]` in the second loop of `update`: its object steps
   * to `after[idx[n]]`; its new incidence and prevalence are returned.
   */
  method StepAt(idx: seq<int>, ms: Models, n: int, dt: real, ghost regions: Regions, ghost after: Regions)
    returns (inc: real, prev: real)
    requires Sound(idx, ms) && 0 <= n < |idx| && idx[n] in ms && regions.Keys == ms.Keys && after.Keys == ms.Keys
    requires SteppedFrom(after, regions, dt, idx[n])
    requires forall k :: k in ms ==> ms[k].State() == if k in idx[..n] then after[k] else regions[k]
    modifies ms[idx[n]]
    ensures forall k :: k in ms ==> ms[k].State() == if k in idx[..n + 1] then after[k] else regions[k]
    ensures inc == LastIncidence(after[idx[n]]) && prev == PrevalenceOf(after[idx[n]])
  {
    var i := idx[n];
    PrefixStep(idx, n);
    var c := ms[i];
    StepModel(c, dt);
    forall k | k in ms
      ensures ms[k].State() == if k in idx[..n + 1] then after[k] else regions[k]
    {
      if k != i {
        assert ms[k] != c;
      }
    }
    prev := Get(c.compartment, Prevalence);
    inc := LastIncidence(c.State());
  }

  /** One addition of a running sum: `sum` over the first `n` regions, plus region `idx[n]`'s `x`. */
  method AddNext(ghost after: Regions, idx: seq<int>, n: int, ghost f: RegionState -> real, sum: real, x: real)
    returns (sum': real)
    requires 0 <= n < |idx| && idx[n] in after
    requires sum == Total(after, idx[..n], f) && x == f(after[idx[n]])
    ensures sum' == Total(after, idx[..n + 1], f)
  {
    TotalSnoc(after, idx, f, n);
    sum' := sum + x;
  }

  /** The indices list the regions once each, and no object serves two regions. */
  ghost predicate Sound(idx: seq<int>, ms: Models)
  {
    && NoDup(idx)
    && (forall i :: i in ms ==> i in idx)
    && (forall i :: i in idx ==> i in ms)
    && Injective(ms)
  }

  class GlobalModel {
    var countryIndices: seq<int>
    var isIntervention: bool
    var countryModel: Models
    /** `this.vars.incidence` and `this.vars.prevalence`. */
    var incidence: real
    var prevalence: real
    /** `this.solution.incidence` and `this.solution.prevalence`. */
    var solIncidence: seq<real>
    var solPrevalence: seq<real>
    var getTravelPerDay: Option<Travel>
    var startTime: real
    var time: real
    var times: seq<real>
    var dTimeInDay: real
    var interventionDay: Option<real>

    /** The region objects. */
    ghost function Objects(): set<Region.CompartmentModel>
      reads this
    {
      ObjectsOf(countryModel)
    }

    /** The indices list the regions once each, and no object serves two regions. */
    ghost predicate Valid()
      reads this
    {
      Sound(countryIndices, countryModel)
    }

    /** The model's fields, with each region's state, as one value. */
    ghost function World(): World
      reads this, Objects()
    {
      Global.World(countryIndices, isIntervention, StatesOf(countryModel), incidence, prevalence,
                   solIncidence, solPrevalence, getTravelPerDay, startTime, time, times,
                   dTimeInDay, interventionDay)
    }

    /** `new GlobalModel(isIntervention)`. */
    constructor (isIntervention: bool)
      ensures Valid() && World() == Initial(isIntervention)
    {
      countryIndices := [];
      this.isIntervention := isIntervention;
      countryModel := map[];
      incidence := 0.0;
      prevalence := 0.0;
      solIncidence := [];
      solPrevalence := [];
      getTravelPerDay := None;
      startTime := 0.0;
      time := 0.0;
      times := [];
      dTimeInDay := 1.0;
      interventionDay := None;
    }

    /** The intervention model `makeIntervention` fills in: clock started at `startTime`, the given regions. */
    constructor Intervention(indices: seq<int>, ms: Models, travel: Option<Travel>, startTime: real)
      ensures countryModel == ms
      ensures World() == Global.World(indices, true, StatesOf(ms), 0.0, 0.0, [], [], travel, startTime, 0.0, [], 1.0, None)
    {
      countryIndices := indices;
      isIntervention := true;
      countryModel := ms;
      incidence := 0.0;
      prevalence := 0.0;
      solIncidence := [];
      solPrevalence := [];
      getTravelPerDay := travel;
      this.startTime := startTime;
      time := 0.0;
      times := [];
      dTimeInDay := 1.0;
      interventionDay := None;
    }

    /** `setCountryModel`: drop every region (`clearDict`) and create a fresh one per index. */
    method SetCountryModel(indices: seq<int>, variant: Variant, sourceCountryName: string)
      requires NoDup(indices)
      modifies this
      ensures Valid() && fresh(Objects())
      ensures World() == Global.SetCountryModel(old(World()), indices, variant)
    {
      var ms := FreshModels(indices, sourceCountryName, variant);
      label made:
      countryIndices := indices;
      countryModel := ms;
      StatesKept@made(ms);
    }

    /**
     * `getGuiParams`: region 0's editable parameters; a non-intervention
     * model notes the intervention day. With regions but none under key 0,
     * `this.countryModel[0]` is undefined and the call throws (`ok` false)
     * before anything changes.
     */
    method GetGuiParams() returns (ok: bool, r: seq<GuiParam>)
      modifies this
      ensures ok == HasFirst(old(World()))
      ensures ok ==> r == ParamsOfFirst(old(World()), false) && World() == NoteParams(old(World()), false)
      ensures !ok ==> r == [] && World() == old(World())
    {
      if |countryModel| > 0 {
        assert StatesOf(countryModel) != map[];
        if 0 !in countryModel {
          return false, [];
        }
        ok := true;
        r := countryModel[0].GetGuiParams();
        NoteInterventionDay(r);
      } else {
        assert StatesOf(countryModel) == map[];
        ok, r := true, [];
      }
    }

    /** `getInterventionParams`: as `getGuiParams`, with region 0's intervention parameters. */
    method GetInterventionParams() returns (ok: bool, r: seq<GuiParam>)
      modifies this
      ensures ok == HasFirst(old(World()))
      ensures ok ==> r == ParamsOfFirst(old(World()), true) && World() == NoteParams(old(World()), true)
      ensures !ok ==> r == [] && World() == old(World())
    {
      if |countryModel| > 0 {
        assert StatesOf(countryModel) != map[];
        if 0 !in countryModel {
          return false, [];
        }
        ok := true;
        r := countryModel[0].GetInterventionParams();
        NoteInterventionDay(r);
      } else {
        assert StatesOf(countryModel) == map[];
        ok, r := true, [];
      }
    }

    /** If this is not an intervention model, record the list's `interventionDay` entry, if any. */
    method NoteInterventionDay(r: seq<GuiParam>)
      modifies this
      ensures World() == Noted(old(World()), r)
    {
      ghost var w0 := World();
      var intervention := FindKey(r, InterventionDay);
      if !isIntervention && intervention.Some? {
        interventionDay := intervention;
        assert World() == w0.(interventionDay := intervention);
      }
    }

    /**
     * `makeIntervention`: a new intervention model holding a deep copy of
     * every region with the intervention applied; this model and its
     * regions are left as they were.
     */
    method MakeIntervention(inputParams: seq<GuiParam>) returns (g: GlobalModel)
      requires Valid() && CanIntervene(World(), inputParams)
      ensures fresh(g) && fresh(g.Objects()) && g.Valid()
      ensures g.World() == Global.MakeIntervention(old(World()), inputParams)
    {
      ghost var w := World();
      var idx := countryIndices;
      var gm := InterventionModels(idx, countryModel, w.regions, inputParams);
      ghost var intended := map i | i in idx :: ApplyIntervention(w.regions[i], inputParams);
      label made:
      g := new GlobalModel.Intervention(idx, gm, getTravelPerDay, time);
      StatesKept@made(gm);
      assert Global.MakeIntervention(w, inputParams) == Global.World(idx, true, intended, 0.0, 0.0, [], [], getTravelPerDay, time, 0.0, [], 1.0, None);
    }

    /** `clearSolutions`: empty the series, rewind the clock and clear every region. */
    method ClearSolutions()
      requires Valid()
      modifies this, Objects()
      ensures Valid() && countryModel == old(countryModel)
      ensures World() == Global.ClearSolutions(old(World()))
    {
      RewindClock();
      ClearModels(countryIndices, countryModel, StatesOf(countryModel));
    }

    /** The first lines of `clearSolutions`: empty the series and rewind the clock to `startTime`. */
    method RewindClock()
      modifies this
      ensures countryIndices == old(countryIndices) && countryModel == old(countryModel)
      ensures World() == old(World()).(solIncidence := [], solPrevalence := [], times := [], time := startTime)
    {
      solIncidence := [];
      solPrevalence := [];
      times := [];
      time := startTime;
    }

    /** `update` up to `transferPeople`: advance the clock, then reset every region. */
    method Prepare()
      requires Valid()
      modifies this, Objects()
      ensures countryIndices == old(countryIndices) && countryModel == old(countryModel)
      ensures World() == Prepared(old(World()))
    {
      AdvanceClock();
      ResetModels(countryIndices, countryModel, StatesOf(countryModel));
    }

    /** The first lines of `update`: `this.time += this.dTimeInDay` and `this.times.push(this.time)`. */
    method AdvanceClock()
      modifies this
      ensures countryIndices == old(countryIndices) && countryModel == old(countryModel)
      ensures World() == old(World()).(time := old(time) + dTimeInDay, times := old(times) + [old(time) + dTimeInDay])
    {
      time := time + dTimeInDay;
      times := times + [time];
    }

    /**
     * `transferPeople`: fails when no travel function is set; otherwise
     * every region recomputes its variables and sends its travellers to
     * every other region.
     */
    method TransferPeople() returns (ok: bool)
      requires Valid() && CanUpdate(World())
      modifies Objects()
      ensures ok == getTravelPerDay.Some?
      ensures World() == if ok then Transferred(old(World())) else old(World())
    {
      if getTravelPerDay.None? {
        return false;
      }
      ok := true;
      TransferModels(countryIndices, countryModel, getTravelPerDay.value, StatesOf(countryModel));
    }

    /**
     * The rest of `update`: step every region and record its import, then
     * set the global variables to the sums and push them onto the series.
     */
    method StepRegions()
      requires Valid() && CanUpdate(World())
      modifies this, Objects()
      ensures countryIndices == old(countryIndices) && countryModel == old(countryModel)
      ensures World() == Stepped(old(World()))
    {
      ghost var w := World();
      var inc, prev := StepModels(countryIndices, countryModel, dTimeInDay, w);
      RecordTotals(inc, prev);
    }

    /** `this.vars.incidence = incidence` and the pushes onto the series, for sums computed by `update`. */
    method RecordTotals(inc: real, prev: real)
      modifies this
      ensures countryIndices == old(countryIndices) && countryModel == old(countryModel)
      ensures World() == old(World()).(incidence := inc, prevalence := prev,
        solIncidence := old(solIncidence) + [inc], solPrevalence := old(solPrevalence) + [prev])
    {
      incidence := inc;
      prevalence := prev;
      solIncidence := solIncidence + [inc];
      solPrevalence := solPrevalence + [prev];
    }

    /**
     * `update`: one step of the whole model. Without a travel function it
     * stops where `transferPeople` throws, after the clock has advanced and
     * the regions have been reset.
     */
    method Update() returns (ok: bool)
      requires Valid() && CanUpdate(World())
      modifies this, Objects()
      ensures Valid() && countryModel == old(countryModel)
      ensures ok == old(getTravelPerDay).Some?
      ensures ok ==> World() == Global.Update(old(World()))
      ensures !ok ==> World() == Prepared(old(World()))
    {
      Prepare();
      PreparedCanUpdate(old(World()));
      ok := TransferPeople();
      if ok {
        StepRegions();
      }
    }
  }
}
