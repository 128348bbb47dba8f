# Pandemic simulator: a verified model of the compartmental engine

This project models the simulation core of the pandemic simulator in
Dafny, and proves properties of the model.

**The single-region engine (`BaseModel`, `src/modules/models.js`).**
An epidemic is a set of named compartments (susceptible, prevalence,
…). Each step does four things:
- rebuilds a list of events `(from, to, magnitude)`;
- folds the events into a per-compartment `flow`;
- adds `dTime × flow` onto a `delta` that other regions may already
  have seeded;
- floors each updated compartment at zero, then advances the clock and
  appends one entry to each solution series.

The five variants (SIS, SIR, SEIR, SEIRS, Ebola) differ only in:
- their compartment names;
- their event declarations;
- their derived parameters (`calcExtraParams`);
- their per-step variables (`calcVars`).

The model is one engine parameterised by a `Variant` descriptor:
- `Variants` holds the descriptors;
- `Engine` holds the step as pure functions on a `RegionState` value,
  with its lemmas;
- `Region.CompartmentModel` is the class whose methods perform the step
  field by field. Each method is proved equal to the `Engine` function
  it implements.

**The multi-region orchestrator (`GlobalModel`,
`src/modules/global-model.js`).**
- It holds one region per country index.
- Each update clears every region's deltas and import counter, moves
  sick travellers between every ordered pair of regions, steps every
  region, and sums incidence and prevalence into the global series.
- `makeIntervention` forks independent copies of the regions with
  overridden parameters.

`Global` states all of this on values: a `World` and a map of region
states. `GlobalModels.GlobalModel` is the class over real region
objects, proved to match `Global`.

**The older standalone models (`src/modules/model.js`).** `SEIRModel`
and `SirModel` are `LegacyModels.LegacyModel`, one class with a
`kind`. It is proved against the functions of `Legacy`.

**The data-shaping scripts:**
- `data_processing/data.py` is `DataProc`:
  - `make_unique_list`;
  - the in-place `symmetrize_matrix`;
  - the line classification of `get_countryinfo`;
  - the indexing and accumulation of `get_oag_flight_matrix`.
- Both copies of `adjacent-data.py` are `Adjacency`:
  - `clean`, `is_match` and `get_code` are identical in the two copies
    except for the code key, so they are modelled once with the key as
    a parameter;
  - `make_data_js` of `data-processing/` and `make_csv` share their
    filtering loop (`Adjacency.KeptEntries`, key `"ISO-Numeric"` or
    `"ISO3"`);
  - the unfiltered `make_data_js` of `data_processing/` is
    `AdjacencyNumeric`.
- `Util.MakeArray` models `makeArray` of `src/modules/util.js`.

**Shared modules.**
- `Wrappers`: `Option` and `Result`.
- `Buckets`: a `Table` is a `map<Name, real>` read with `Get`, which
  gives 0 for a missing key. It also defines `Sum` over a key list and
  `SetAll`.
- `Text`: string helpers with Python's meaning: `strip`, `split`,
  `in`, `startswith` and a sort.

**Keys.** Parameter, variable and compartment keys are the datatype
`Buckets.Name`, with one constructor per key the source spells out and
`Other(text)` for the rest.

**Numbers.** Arithmetic is exact `real`. Divisions the source performs
are guarded by preconditions that the divisor is nonzero: population,
hospital capacity, immunity period, post-detection and pre-burial
periods, incubation, period, case fatality.

**Error paths are values:**
- Python's `KeyError` and the unbound `headings` of `get_countryinfo`
  are `Err` results;
- `transferPeople` throwing when no travel function is set is the
  `ok == false` result of `GlobalModel.TransferPeople` and
  `GlobalModel.Update`.
- `getGuiParams` and `getInterventionParams` throwing when regions exist
  but none is under key 0 is the `ok == false` result of
  `GlobalModel.GetGuiParams` and `GlobalModel.GetInterventionParams`.

## Model

| member | source | states |
|---|---|---|
| Buckets.SetAll | src/modules/models.js:362-364 | setting every listed key to one value: those keys hold it, other keys keep theirs, the key set grows by exactly the listed keys |
| Buckets.SumUpdate | src/modules/models.js:381-391 | changing one listed bucket changes the total over a duplicate-free key list by exactly the difference |
| Variants.Names | src/modules/models.js:409-412 | each variant's compartment names are duplicate-free and include `prevalence` and `susceptible` |
| Variants.EventsWithinNames | src/modules/models.js:423-424 | every declared event of every variant runs between two of its own compartments |
| Variants.ContactExtra | src/modules/models.js:451-454 | SIS/SIR derived rate: only `contactRate` is added, and it equals R0 × recoverRate; other parameters are kept |
| Variants.SeirExtra | src/modules/models.js:605-611 | SEIR derived rates: recoverRate − disDeath equals the period, disDeath = −caseFatality × period, contactRate = R0 × period; other parameters are kept |
| Variants.SeirsExtra | src/modules/models.js:692-700 | SEIRS: the SEIR rates plus immunityLossRate × immunityPeriod = 1; other parameters are kept |
| Variants.EbolaRates | src/modules/models.js:804-818 | Ebola's derived rates, each stated as the relation it satisfies with the periods and probabilities it is derived from |
| Variants.EbolaExtra | src/modules/models.js:804-818 | Ebola's `calcExtraParams`: exactly the derived keys are added, each derived rate takes its `EbolaRates` value, `foi` is added, other parameters are kept |
| Variants.ExtraParams | src/modules/models.js:194-195 | `calcExtraParams` only adds the variant's derived keys and keeps every other parameter |
| Variants.ExtraKeepsInit | src/modules/models.js:202-205 | deriving parameters never changes `initPopulation` or `initPrevalence` |
| Variants.PerCapita | src/modules/models.js:456-462 | a per-capita rate times the population is the product it was divided from |
| Variants.MassActionForce | src/modules/models.js:535-541 | the force of infection times the population is contactRate × prevalence |
| Variants.EbolaForce | src/modules/models.js:820-833 | Ebola's force times the population is the weighted sum of the four infectious compartments |
| Variants.MassActionVars | src/modules/models.js:456-462 | `calcVars` sets exactly population and the force of infection; other variables are kept |
| Variants.EbolaVars | src/modules/models.js:820-833 | Ebola's `calcVars` sets exactly its variable keys; population is the total; the two detection forces sum to preDetection |
| Variants.CalcVars | src/modules/models.js:249-250 | for every variant, the variables set are exactly the variant's, and population is the total of its compartments |
| Engine.Max0 | src/modules/models.js:388-390 | the floor is at least zero and at least its input, and is one of the two |
| Engine.BuildEvents | src/modules/models.js:322-330 | one event per declaration, in declared order, each magnitude = rate[key] × compartment[from] |
| Engine.EventsOf | src/modules/models.js:317-331 | `calcEvents` yields \|varEvents\| + \|paramEvents\| events, var-events first, var rates from `var`, param rates from `param` |
| Engine.ApplyEventsIsNet | src/modules/models.js:365-368 | folding events gives each key its start value plus inflow minus outflow |
| Engine.FlowIsNet | src/modules/models.js:362-368 | the flow of a listed key is exactly inflow minus outflow, whatever the flow held before |
| Engine.SelfLoopIsNeutral | src/modules/models.js:570 | a self-loop event (SEIR/SEIRS disease death) changes no key's flow |
| Engine.ApplyEventKeepsSum | src/modules/models.js:366-367 | one event subtracts and adds the same amount, so the total over the keys is unchanged |
| Engine.ApplyEventsKeepsSum | src/modules/models.js:365-368 | events between listed compartments never change the total |
| Engine.FlowSumsToZero | src/modules/models.js:362-368 | the flow over the keys sums to zero |
| Engine.AddFlow | src/modules/models.js:377-379 | the delta loop touches only the listed keys |
| Engine.AddFlowAt | src/modules/models.js:377-379 | each listed delta becomes its seeded value plus dTime × flow |
| Engine.ApplyDelta | src/modules/models.js:381-391 | the compartment loop touches only the listed keys |
| Engine.ApplyDeltaAt | src/modules/models.js:381-391 | each listed compartment becomes max(0, old + delta) |
| Engine.IncidenceIsInflow | src/modules/models.js:340-349 | recorded incidence is dTime × the total magnitude of events into `prevalence` |
| Engine.UpdateAt | src/modules/models.js:377-391 | after both loops a listed compartment is max(0, old + seeded delta + dTime × flow) |
| Engine.AdvanceUnlisted | src/modules/models.js:381-391 | compartments outside `keys` are untouched (so with `keys == []` nothing changes) |
| Engine.AdvanceListed | src/modules/models.js:377-391 | a listed compartment after the step, in terms of the old compartment, seeded delta and flow |
| Engine.AdvanceRecords | src/modules/models.js:393-399 | time resets to startTime when `times` is empty, then rises by dTime; `times` and each series grow by one; incidence, prevalence and susceptible are recorded |
| Engine.StepValid | src/modules/models.js:356-400 | a step keeps the region state well-formed |
| Engine.StepCompartment | src/modules/models.js:377-391 | each listed compartment after `runStep` is max(0, old + delta after the step); unlisted ones are unchanged |
| Engine.StepNonNegative | src/modules/models.js:381-391 | after a step with keys listed, no compartment is negative |
| Engine.StepFlow | src/modules/models.js:362-368 | after a step the flow sums to zero over the keys and each key's flow is its inflow minus outflow |
| Engine.StepTiming | src/modules/models.js:357-397 | a step records \|varEvents\| + \|paramEvents\| events and advances the clock by dTime |
| Engine.StepSeries | src/modules/models.js:340-354 | each solution series grows by exactly one entry and keeps the earlier ones: the incidence entry is `Incidence` of the new events (dTime × their inflow into prevalence, by `Engine.IncidenceIsInflow`), prevalence and susceptible are the new compartments, importIncidence is unchanged |
| Engine.Assign | src/modules/models.js:185-187 | assigning GUI entries adds exactly their keys |
| Engine.AssignAt | src/modules/models.js:185-187 | a key listed in the entries takes its last listed value; any other key keeps its value |
| Engine.ImportGuiParamsAt | src/modules/models.js:183-188 | `importGuiParams` starts from the defaults; a listed key takes its last listed value, the others take their default |
| Engine.ApplyInterventionAt | src/modules/models.js:225-230 | `applyIntervention` overrides the listed non-derived parameters, keeps the others, and leaves the compartments unchanged |
| Engine.InitialAt | src/modules/models.js:202-213 | initialisation zeroes every listed key except prevalence = initPrevalence and susceptible = initPopulation − initPrevalence |
| Engine.InitialTotal | src/modules/models.js:202-205 | the initialised compartments total initPopulation |
| Engine.InitCompartmentsAt | src/modules/models.js:210-217 | `initCompartments` zeroes listed keys, derives parameters and seeds prevalence and susceptible |
| Engine.InitKeepsPopulation | src/modules/models.js:210-217 | after `initCompartments` the total and the `population` variable equal initPopulation |
| Engine.FluxScales | src/modules/models.js:302-305 | the travelling sick × the source population = prevalence × travelPerDay |
| Engine.TransferConserves | src/modules/models.js:306-308 | `transferTo` moves x out of the source's prevalence delta and into the target's, so their total is unchanged; the target's import variable rises by x |
| Engine.SirExampleStep | src/modules/models.js:356-400 | worked check of one SIR step (S = 9900, I = 100, contactRate 0.2, recoverRate 0.1, dTime 1): S = 9880.2, I = 109.8, R = 10, incidence 19.8 |
| Region.ZeroAll | src/modules/models.js:362-364 | the zeroing loop sets every listed key to 0 and nothing else |
| Region.AssignAll | src/modules/models.js:226-228 | the assignment loop equals `Engine.Assign` |
| Region.PushEvents | src/modules/models.js:322-330 | the push loop appends exactly `BuildEvents` |
| Region.SumIncidence | src/modules/models.js:341-348 | the summing loop computes `Incidence` |
| Region.FoldEvents | src/modules/models.js:365-368 | the event loop computes `ApplyEvents` |
| Region.GrowAll | src/modules/models.js:377-379 | the delta loop computes `AddFlow` |
| Region.ApplyAll | src/modules/models.js:381-391 | the compartment loop computes `ApplyDelta` |
| Region.CompartmentModel.constructor | src/modules/models.js:46-150 | a new model of a variant holds that variant's fresh state, with `keys == []` |
| Region.CompartmentModel.Clone | src/modules/global-model.js:82 | the deep copy has the same id and state |
| Region.CompartmentModel.GetGuiParams | src/modules/models.js:158-160 | returns the variant's GUI parameter list |
| Region.CompartmentModel.GetInterventionParams | src/modules/models.js:168-174 | returns the variant's intervention list (empty for variants without one) |
| Region.CompartmentModel.ImportGuiParams | src/modules/models.js:183-188 | new state is `Engine.ImportGuiParams` of the old |
| Region.CompartmentModel.CalcExtraParams | src/modules/models.js:194-195 | only the parameters change, to `ExtraParams` of the old ones |
| Region.CompartmentModel.CalcVars | src/modules/models.js:249-250 | only the variables change, to `CalcVars` of the old state |
| Region.CompartmentModel.InitCompartmentsByParams | src/modules/models.js:202-205 | only prevalence and susceptible are seeded from the parameters |
| Region.CompartmentModel.InitCompartments | src/modules/models.js:210-217 | new state is `Engine.InitCompartments` of the old |
| Region.CompartmentModel.ApplyIntervention | src/modules/models.js:225-230 | new state is `Engine.ApplyIntervention` of the old |
| Region.CompartmentModel.ClearSolutions | src/modules/models.js:236-242 | keys become the compartment names, and every series and `times` are emptied |
| Region.CompartmentModel.ClearBeforeTransfer | src/modules/models.js:285-290 | every listed delta and `var.importIncidence` are zeroed |
| Region.CompartmentModel.ClearDeltas | src/modules/global-model.js:135 | every listed delta is zeroed; nothing else changes |
| Region.CompartmentModel.TransferTo | src/modules/models.js:301-309 | the source's prevalence delta drops by x = prevalence × travelPerDay / population; the target's prevalence delta and import variable each rise by x |
| Region.CompartmentModel.CalcEvents | src/modules/models.js:317-331 | variables recomputed, then the events rebuilt from empty out of them (the new list does not depend on the old one); nothing else changes |
| Region.CompartmentModel.SaveToSolution | src/modules/models.js:340-354 | only the solution changes: one entry appended to each series |
| Region.CompartmentModel.RunStep | src/modules/models.js:356-400 | new state is `Engine.Step` of the old, so all `Engine.Step*` lemmas apply |
| Global.TotalUpdate | src/modules/global-model.js:149-150 | replacing one region changes a total over the indices by exactly the difference |
| Global.Pass | src/modules/global-model.js:108-114 | one pairwise transfer changes no compartment and no variable of any region |
| Global.PassConserves | src/modules/global-model.js:108-114 | one transfer keeps the total prevalence delta, and adds x to the total import |
| Global.Spread | src/modules/global-model.js:102-116 | one source's transfers to its targets change no compartment or variable |
| Global.SpreadConserves | src/modules/global-model.js:102-116 | a source's transfers keep the total prevalence delta; total import rises by the total moved |
| Global.Recalc | src/modules/global-model.js:99-100 | `fromCountry.calcVars()` sets population to the region's total, keeping compartments, deltas and import |
| Global.TransferFrom | src/modules/global-model.js:96-117 | one outer iteration changes no compartment |
| Global.TransferPeople | src/modules/global-model.js:96-117 | the whole transfer keeps the index set and every compartment |
| Global.TransferConserves | src/modules/global-model.js:96-117 | `transferPeople` keeps the sum of prevalence deltas over all regions, and adds to total import exactly the total moved |
| Global.Prepared | src/modules/global-model.js:134-137 | clearing keeps the world coherent |
| Global.PreparedAt | src/modules/global-model.js:134-137 | after clearing, each region's import is 0, each listed delta is 0, and its compartments are unchanged |
| Global.Migrated | src/modules/global-model.js:140 | migration keeps every region's compartments |
| Global.UpdateImports | src/modules/global-model.js:134-140 | after clearing and migrating, total import is the total moved, and the total prevalence delta is what the clearing left |
| Global.UpdateBalances | src/modules/global-model.js:134-140 | when every region lists `prevalence`, the prevalence deltas of all regions total 0 after clearing and migrating |
| Global.UpdateAsWritten | src/modules/global-model.js:130-136 | `update` as written: it fails exactly when some region is present, because `clearDeltas` is not defined |
| Global.UpdateAsWrittenThrows | src/modules/global-model.js:130-136 | with any country index listed, `update` as written fails after advancing the clock, and every region is as it was |
| Global.UpdateTiming | src/modules/global-model.js:131-132 | `update` advances time by dTimeInDay and grows `times` and both global series by one |
| Global.UpdateRegions | src/modules/global-model.js:145-148 | each region after `update` is its migrated state stepped once, with its import appended |
| Global.UpdateSeries | src/modules/global-model.js:149-154 | the new global entries are the sum of the regions' last incidence and of their post-step prevalence |
| Global.StepAndRecordSeries | src/modules/global-model.js:146-148 | a region's import series grows by its import, and its last incidence is the one its step recorded |
| Global.SetCountryModel | src/modules/global-model.js:37-43 | the new world is coherent |
| Global.ClearSolutions | src/modules/global-model.js:120-128 | clearing keeps the world coherent |
| Global.ClearSolutionsAt | src/modules/global-model.js:120-128 | global series and `times` emptied, time = startTime, each region's solution and times emptied and its keys listed |
| Global.MakeIntervention | src/modules/global-model.js:75-87 | the fork is coherent |
| Global.MakeInterventionAt | src/modules/global-model.js:75-87 | fork: intervention flag set, startTime = current time, no times, travel and indices copied, each region's compartments kept and listed parameters overridden |
| Global.FindKey | src/modules/global-model.js:49 | `_.find` yields the value of the first entry with the key, and nothing when no entry has it |
| Global.ParamsOfNone | src/modules/global-model.js:55-57 | with no regions the lists are empty and nothing changes |
| Global.NoteParamsRecords | src/modules/global-model.js:47-53 | only a non-intervention model records the intervention day, nothing else changes, and a recorded day comes from the list |
| Global.SirInterventionDay | src/modules/models.js:513-528 | the SIR intervention list sets intervention day 5 |
| GlobalModels.FreshModels | src/modules/global-model.js:40-42 | one fresh, distinct region object per index, each a newly constructed model |
| GlobalModels.CloneIntervened | src/modules/global-model.js:82-84 | a fresh copy with `applyIntervention` applied; the source is untouched |
| GlobalModels.InterventionModels | src/modules/global-model.js:81-85 | the forked objects are fresh and hold the intervened regions |
| GlobalModels.ClearModels | src/modules/global-model.js:125-127 | every region object's state becomes its cleared state |
| GlobalModels.ResetModels | src/modules/global-model.js:134-137 | every region object's state becomes its reset state |
| GlobalModels.Send | src/modules/global-model.js:108-114 | one transfer between two objects is `Global.Pass` on their states |
| GlobalModels.SpreadModels | src/modules/global-model.js:102-116 | transfers from one object are `Global.Spread` on the states |
| GlobalModels.TransferModels | src/modules/global-model.js:96-117 | the nested loops over objects are `Global.TransferPeople` on the states |
| GlobalModels.StepModels | src/modules/global-model.js:145-151 | stepping every object yields the summed incidence and prevalence of the stepped regions |
| GlobalModels.GlobalModel.constructor | src/modules/global-model.js:10-35 | an empty model: no regions, no travel function, time 0, dTimeInDay 1 |
| GlobalModels.GlobalModel.Intervention | src/modules/global-model.js:76-80 | the fork's fields: intervention flag, given start time, travel and indices, empty series |
| GlobalModels.GlobalModel.SetCountryModel | src/modules/global-model.js:37-43 | all prior regions dropped; exactly one fresh region per index |
| GlobalModels.GlobalModel.GetGuiParams | src/modules/global-model.js:45-58 | returns region 0's GUI list (or `[]` with no regions) and records the intervention day on a non-intervention model; with regions but none under key 0 it fails (the source's `TypeError`) and changes nothing |
| GlobalModels.GlobalModel.GetInterventionParams | src/modules/global-model.js:60-73 | the same for the intervention list, including the failure when regions exist but none is under key 0 |
| GlobalModels.GlobalModel.MakeIntervention | src/modules/global-model.js:75-87 | a fresh model with fresh region objects whose world is `Global.MakeIntervention` of the source; the source is unchanged |
| GlobalModels.GlobalModel.ClearSolutions | src/modules/global-model.js:120-128 | new world is `Global.ClearSolutions` of the old |
| GlobalModels.GlobalModel.TransferPeople | src/modules/global-model.js:89-118 | fails, changing nothing, when no travel function is set; otherwise performs `Global.Transferred` |
| GlobalModels.GlobalModel.Update | src/modules/global-model.js:130-155 | with a travel function, the new world is `Global.Update` of the old; without one, the clock has advanced and the regions are cleared, and it fails |
| Legacy.Keys | src/modules/model.js:9-16 | each kind's compartments are duplicate-free and include susceptible, prevalence and recovered; exposed only for SEIR |
| Legacy.Derive | src/modules/model.js:78-85 | the rate assignments of `init` add exactly the rate keys, set probSickCanTravel = 1 and keep other parameters |
| Legacy.DerivedRates | src/modules/model.js:78-85 | SEIR: recoverRate × period = 1 − 1/caseFatality, incubationRate × incubation = 1, contactRate × period = R0; SIR: recoverRate × period = 1, contactRate = R0 × recoverRate |
| Legacy.DeriveKeepsSeeding | src/modules/model.js:78-93 | deriving rates keeps `prevalence` and `initPopulation` |
| Legacy.SeededTotal | src/modules/model.js:87-93 | the seeded compartments total initPopulation |
| Legacy.VarsOf | src/modules/model.js:104-110 | `calcVar` sets exactly population (the total) and the force of infection |
| Legacy.ForceIsMassAction | src/modules/model.js:104-110 | force × population = contactRate × prevalence |
| Legacy.ClearDelta | src/modules/model.js:98-102 | only the delta changes: listed keys become 0, the others are kept |
| Legacy.FlowEvents | src/modules/model.js:112-133 | SEIR builds 3 events; SIR builds 2, both susceptible → prevalence |
| Legacy.ResetMerges | src/modules/model.js:73-76 | `reset` merges: a parameter absent from the input keeps its old value, a given one takes the input's value |
| Legacy.InitSeeds | src/modules/model.js:87-93 | `init` zeroes every compartment but prevalence = params.prevalence and susceptible = initPopulation − prevalence |
| Legacy.InitShaped | src/modules/model.js:78-96 | `init` keeps the instance well-formed |
| Legacy.ConstructedParams | src/modules/model.js:4-67 | a new instance holds the defaults plus the derived rates |
| Legacy.DefaultsNotDerived | src/modules/model.js:24-31 | no default is a derived key, and the default population is 50000 |
| Legacy.SeirFlow | src/modules/model.js:112-133 | SEIR `calcFlow`: 3 events, and the flow sums to zero over the keys |
| Legacy.SeirNet | src/modules/model.js:125-132 | the SEIR flow of each compartment as inflow minus outflow of the three events |
| Legacy.SirFlow | src/modules/model.js:255-273 | SIR `calcFlow`: 2 events, and the recovered flow is always 0 |
| Legacy.SirNet | src/modules/model.js:265-272 | the SIR flow of each compartment from its two events |
| Legacy.UpdateAt | src/modules/model.js:135-147 | each delta accumulates dTime × flow (not cleared) and each compartment becomes max(0, c + delta) |
| Legacy.IntegrateAt | src/modules/model.js:137-146 | the two loops of `updateCompartment`, per key |
| Legacy.UpdateShaped | src/modules/model.js:135-147 | `updateCompartment` keeps the instance well-formed |
| LegacyModels.LegacyModel.constructor | src/modules/model.js:4-67 | new instance of the kind, compartments at zero, then `reset` with the defaults |
| LegacyModels.LegacyModel.GetInputParamEntries | src/modules/model.js:69-71 | returns the editable parameter list |
| LegacyModels.LegacyModel.Reset | src/modules/model.js:73-76 | new state is `Legacy.Reset` of the old |
| LegacyModels.LegacyModel.Init | src/modules/model.js:78-96 | new state is `Legacy.Init` of the old |
| LegacyModels.LegacyModel.ClearDelta | src/modules/model.js:98-102 | new state is `Legacy.ClearDelta` of the old |
| LegacyModels.LegacyModel.CalcVar | src/modules/model.js:104-110 | new state is `Legacy.CalcVar` of the old |
| LegacyModels.LegacyModel.CalcFlow | src/modules/model.js:112-133 | new state is `Legacy.CalcFlow` of the old |
| LegacyModels.LegacyModel.UpdateCompartment | src/modules/model.js:135-147 | new state is `Legacy.UpdateCompartment` of the old |
| LegacyModels.LegacyModel.GetExitPrevalence | src/modules/model.js:149-155 | result × population = prevalence × probSickCanTravel × travelPerDay; as a function of the fields it changes no state |
| DataProc.IndexOf | data_processing/data.py:193 | `list.index`: the first position holding the element |
| DataProc.DedupSpec | data_processing/data.py:16-21 | the unique list has no duplicates, exactly the input's elements, in first-occurrence order |
| DataProc.MakeUniqueList | data_processing/data.py:16-21 | the append loop computes the unique list |
| DataProc.SymmetrizeSymmetric | data_processing/data.py:50-60 | the result is symmetric and keeps the diagonal |
| DataProc.SymmetrizeKeepsSymmetric | data_processing/data.py:55-60 | a symmetric matrix is left unchanged |
| DataProc.SymmetrizeIdempotent | data_processing/data.py:55-60 | symmetrizing twice is symmetrizing once |
| DataProc.SymmetrizeMatrix | data_processing/data.py:50-60 | in place, the array ends holding the diagonal and the average of each mirrored pair |
| DataProc.ZipEntryAt | data_processing/data.py:116-121 | a heading with a field maps to the field at its last position |
| DataProc.ZipEntryKeys | data_processing/data.py:116-121 | the keys are exactly the headings that have a field (zip truncates) |
| DataProc.GetCountryInfo | data_processing/data.py:104-123 | the line loop computes `CountryInfo`, including the unbound-headings error |
| DataProc.ErrorStops | data_processing/data.py:115-122 | once classification fails, later lines do not matter |
| DataProc.CountryInfoOk | data_processing/data.py:106-122 | success iff every country line follows a `#ISO` line; then one entry per country line |
| DataProc.CountryInfoAt | data_processing/data.py:115-122 | each country line's entry is the zip of the headings in force with its tab fields |
| DataProc.HeadingsRestoreLine | data_processing/data.py:107-110 | the headings are the `#ISO` line's tab tokens with the leading `#` removed |
| DataProc.Alpha2Spec | data_processing/data.py:186-187 | only `R1` and `R2` change, both to `RU`; the map is idempotent |
| DataProc.Origins | data_processing/data.py:183 | the origin column below the header row |
| DataProc.UniqueAlpha2Spec | data_processing/data.py:189 | the unique alpha-2 list is strictly ascending and holds exactly the converted codes |
| DataProc.IndexFromCode | data_processing/data.py:192-195 | one index per code |
| DataProc.IndexSpec | data_processing/data.py:192-195 | each code's index is the position of its alpha-2 in the sorted list; two codes share an index iff they share an alpha-2 |
| DataProc.Alpha2FromIndexSpec | data_processing/data.py:196-200 | `alpha2_from_i` has exactly the indices below n, and maps each to the alpha-2 at that position |
| DataProc.OagFlightMatrix | data_processing/data.py:183-212 | succeeds iff every destination is a known code (else `KeyError`); then an n × n fresh matrix where each cell is the sum of the traveller column over the rows (header skipped) from that origin to that destination |
| Text.StripSlice | data-processing/adjacent-data.py:21 | `strip` yields a slice bounded by whitespace, with no whitespace at either end |
| Text.StripEmpty | data_processing/data.py:113 | a stripped line is empty iff it is all whitespace |
| Text.StripIdempotent | data-processing/adjacent-data.py:21 | stripping twice is stripping once |
| Text.ReplaceChar | data-processing/adjacent-data.py:21 | `replace` substitutes every occurrence of one character and nothing else |
| Text.SplitJoin | data_processing/data.py:108 | splitting on tabs and joining back gives the line |
| Text.SplitPieces | data_processing/data.py:108 | no piece of a split holds the separator |
| Text.ContainsAt | data-processing/adjacent-data.py:139 | `key in name` iff the key occurs at some position |
| Text.SortSorted | data_processing/data.py:189 | `sorted` yields an ascending permutation |
| Adjacency.CleanSpec | data-processing/adjacent-data.py:20-21 | `clean` leaves no non-breaking space and no whitespace at either end; it is empty iff the input was blank |
| Adjacency.CleanIdempotent | data-processing/adjacent-data.py:20-21 | cleaning twice is cleaning once |
| Adjacency.Stop | data-processing/adjacent-data.py:127-129 | where the search stops: every entry before it has a different `Country`, and at it `Country` is missing or matches |
| Adjacency.IsMatch | data-processing/adjacent-data.py:126-130 | the search loop computes `Match` |
| Adjacency.MatchSpec | data-processing/adjacent-data.py:126-130 | `None` iff no entry matches; a found entry is in the list with `Country` equal to the name, and all earlier entries differ; `KeyError` iff an entry without `Country` is reached first |
| Adjacency.Field | data-processing/adjacent-data.py:136 | `country[key]` succeeds iff the key is present, with its value |
| Adjacency.CorrectedNone | data-processing/adjacent-data.py:138-143 | the corrections give nothing iff no correction applies |
| Adjacency.CorrectedFirst | data-processing/adjacent-data.py:138-142 | the first applicable correction, in dict order, decides |
| Adjacency.CodeOrder | data-processing/adjacent-data.py:133-143 | an exact match wins; otherwise the corrections decide; otherwise `None` |
| Adjacency.GetCode | data-processing/adjacent-data.py:133-143 | the loop computes `Code` |
| Adjacency.Codes | data-processing/adjacent-data.py:195-200 | mapping `get_code` over names succeeds iff each lookup does, giving each name's code at its index |
| Adjacency.PresentSpec | data-processing/adjacent-data.py:196-197 | filtering out `None` keeps exactly the present codes, in order |
| Adjacency.PresentAppend | data-processing/adjacent-data.py:196-197 | filtering distributes over concatenation |
| Adjacency.KeptOk | data-processing/adjacent-data.py:166-179 | the filtering loop succeeds iff no lookup raises |
| Adjacency.KeptLength | data-processing/adjacent-data.py:166-169 | one output entry per input entry whose own code is not `None` |
| Adjacency.KeptAt | data-processing/adjacent-data.py:166-179 | a kept entry lands after the kept entries before it, with its code and its present neighbour codes in order |
| Adjacency.KeptErrorStops | data-processing/adjacent-data.py:166-179 | once a lookup raises, later entries do not matter |
| Adjacency.KeptEntries | data-processing/adjacent-data.py:189-205 | the loop computes `Kept` (ISO3 here, ISO-Numeric at lines 166-179) |
| Adjacency.FirstFor | data-processing/adjacent-data.py:216-217 | the first entry whose country is the code |
| Adjacency.AdjacentSpec | data-processing/adjacent-data.py:216-224 | a cell is 1 iff the neighbour is among the first matching entry's neighbours; with no matching entry it is 0 |
| Adjacency.Row | data-processing/adjacent-data.py:215-227 | a row is the code then n bits, from the first matching entry or all zeros |
| Adjacency.CsvRows | data-processing/adjacent-data.py:210-228 | header `Country` + the codes, then one row per code in list order, each of length n + 1 |
| Adjacency.MakeCsv | data-processing/adjacent-data.py:188-228 | succeeds iff the ISO3 filtering does, and then yields the CSV rows of the kept entries |
| AdjacencyNumeric.RawOk | data_processing/adjacent-data.py:166-173 | succeeds iff no lookup raises, with one entry per input entry |
| AdjacencyNumeric.RawAt | data_processing/adjacent-data.py:168-172 | each entry holds its country's code (possibly `None`) and a neighbour list of the same length, each its lookup |
| AdjacencyNumeric.RawErrorStops | data_processing/adjacent-data.py:166-173 | once a lookup raises, later entries do not matter |
| AdjacencyNumeric.MakeDataJs | data_processing/adjacent-data.py:163-174 | the loop computes `RawEntries` |
| Util.MakeArray | src/modules/util.js:26-32 | length n for n > 0, empty for n ≤ 0, every element the given value |

## Left out

- Floating point: arithmetic is exact `real`; rounding, `NaN` and `Infinity` are not modelled. Every division carries a nonzero-divisor precondition.
- Missing dictionary entries read as 0 (`Buckets.Get`), where JavaScript would give `undefined` and then `NaN`.
- The `flow` of a key outside `keys` starts from 0 rather than `undefined`. This only matters when `keys` is empty.
- `checkEvents` (models.js:257-279): its `calcVars()` call (models.js:258) changes state and is kept, as the `vars` update at the end of `Engine.InitCompartments`. Only its console output (models.js:259-278) is left out. The `print` calls of `make_csv` and `check_names`, which only prints, are left out too.
- The automatic intervention fork at `interventionDay` is not performed by `update`. Only the explicit `makeIntervention` is modelled.
- `_.cloneDeep` is a value copy (`CompartmentModel.Clone`). `_.clone` of the index list is a sequence copy.
- `clearDeltas`, which `update` calls (global-model.js:135), is not defined by any engine class, so the source as written throws a TypeError on its first `update` with any region present (see "## Findings"). The model implements the evident intent: `clearDeltas` zeroes every listed delta.
- LegacyModels.LegacyModel.UpdateCompartment: requires every listed compartment to have a delta, that is, `clearDelta` has run. Called before `clearDelta`, the source adds onto `undefined` and every compartment becomes `NaN` (model.js:21, 139), which this model does not represent.
- The legacy SIR `calcFlow` routes recovery from susceptible to prevalence (model.js:255-273). It is modelled as written.
- The capitalised GUI keys `CaseFatality` and `CaseFatalityHosp` of SEIR and Ebola are kept, so they set parameters that nothing reads.
- Region iteration order in `update`: JavaScript iterates `_.values(countryModel)` in ascending integer-key order, while the model follows `countryIndices`. The regions' steps are independent and the sums are exact, so the results agree.
- Duplicate country indices are not modelled. `setCountryModel` and the orchestrator require a duplicate-free index list.
- `transferPeople` throwing is the `ok == false` result, not an exception.
- `GlobalModel.Update`: when no travel function is set, the clock has already advanced and the regions have been cleared when the failure is reported, as in the source. The rest of the step does not happen.
- `makeIntervention` leaves the fork's `time` at 0 and `dTimeInDay` at 1, as the constructor sets them.
- `parseFloat` of GUI values is not modelled: entries carry numbers.
- The travel function `getTravelPerDay` is a Dafny function value. Its rpc and globe sources are not part of this model.
- Input and output:
  - reading `countryinfo.txt`: lines are given as a sequence, each with whatever line ending it carries;
  - the xlrd spreadsheet: rows are given as origin, destination and traveller number (columns 1, 3 and 5);
  - `float()` of the traveller column;
  - BeautifulSoup scraping (`get_country_neighbors`, `read_tag_and_siblings_until_br`): the scraped entries are a parameter;
  - `make_data_js` in `data.py` and the JSON/CSV file writing;
  - the geopy call;
  - `get_population_by_id` and `get_country_by_alpha2`.
- The `countryinfo` global is a parameter of the adjacency functions. The fixed `alpha3_list` of adjacent-data.py:183-185 is a parameter of `MakeCsv`.
- The result of `get_oag_flight_matrix` is `Travel`, a fresh matrix plus `alpha2_from_i`. The numpy array is a Dafny `array2<real>`.
- Python's whitespace set for `strip` and `isspace` is a fixed character set (`Text.IsSpace`). Unicode categories beyond it are not modelled.
- `Util.MakeArray`: `n` is an integer. JavaScript's loop over a fractional or non-numeric `n` is not modelled. Sharing `v` rather than copying it is implicit in value semantics.
- Not part of this model: `globe.js`, `chart-widget2.js`, `rpc.js`, `router.js`, `main.js`, `flight-data.py` and `countryinfo.py` (rendering, UI, network, numpy and printing). The same holds for `jstr`, `downloadFile` and `delay` in util.js.

## Findings

| source | as written | input that shows it | evidently intended | confidence | as-written member | corrected member |
|---|---|---|---|---|---|---|
| src/modules/global-model.js:135 | `update` calls `countryModel.clearDeltas()`, which no engine class in models.js defines, so it throws a TypeError | any `update` after `setCountryModel` with at least one country index | every listed delta of each region is zeroed before the migration | high (not executed) | Global.UpdateAsWritten, Global.UpdateAsWrittenThrows | Region.CompartmentModel.ClearDeltas, Global.PreparedAt, Global.UpdateBalances |
