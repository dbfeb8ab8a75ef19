# Garden ecosystem core, modelled in Dafny

This project is a Dafny model of the simulation core of the garden
ecosystem. In the garden, donated creatures ("entities") wander a
1200 x 800 canvas. It covers:

- the **resource manager** (`resources.dfy`): harvesting, contributing, regeneration, creation, range queries, scarcity and clean-up of `mineral`/`food`/`water`/`energy` resources;
- the **environmental trace system** (`traces.dfy`): footprints, paths, nests, burrows, territories and scents, with per-type radius, intensity, lifespan and fade rate. A capacity of 500 evicts the oldest traces;
- the **behaviour engine** (`behavior.dfy`): personality-weighted choice of status, neighbour search, movement, the building-spot search, relationships, and the per-entity update timers;
- the **biome generator** (`biomes.dfy`): zones, elements and resources of a new ecosystem, plus the per-tick regeneration and growth passes;
- the **local half of the entity generator** (`ai_generator.dfy`): the schema validator, the fallback creature and the random spawn position;
- the **entity slice of the store** (`store.dfy`): add, patch and remove entities, plus the id, status and distance selectors.

Shared definitions live in `common.dfy` (options, clamps, filtering, `Map` entry lists) and `types.dfy` (the domain records).

## Modelling conventions

- **JavaScript `Map`.** A `Map` that the source mutates becomes its entry list, in insertion order, with unique keys.
  - `set` on a present key replaces the entry in place; a new key is appended.
  - `delete` removes the entry.
  - `Array.from(map.values())` is the list itself.
- **Classes.** The classes that keep state are Dafny classes with the same fields (`ResourceManager`, `EnvironmentalTraceSystem`, `BehaviorEngine`, `BiomeGenerator`, `EcosystemStore`).
  - Each method states the new state through a specification function.
  - The properties are lemmas about those functions.
- **Loops.** The source's loops (trait weights, cumulative scans, the building-spot search, generation, eviction, decay, clean-up, scarcity) are `while` or `for` loops with invariants. They are proved equal to those functions.
- **Randomness.** `Math.random()` draws are parameters in `[0, 1)` (`Unit`). The cosine and sine of a random angle are a pair of parameters. The biome generator's draw predicates (`ElementDrawOk`, `ResourceDrawOk`) require their squares to sum to one; movement and planting state their distance bounds under that same hypothesis.
- **Clock.** `Date.now()` is a clock reading in milliseconds passed in. Timestamps are stored as those numbers; ISO strings are not modelled.
- **Distances.** `Math.sqrt(dx*dx + dy*dy) <= r` is stated on squared distances (`WithinDistance`, `CloserThan`, `IsDistance`).
- **Numbers.** They are exact reals. `Math.floor` is `.Floor`.

The model follows the code where its behaviour is easy to misread:

- The intensity multiplier of traces is additive: 1, then +0.3 if energetic and -0.2 if calm.
- `contributeToResource` has no gate on the resource's amount (src/lib/resource-manager.ts:94-120). A depleted resource can still be contributed to, unlike harvesting.
- The validator does not check traits against a vocabulary (`Generator.UncheckedTraitsAccepted`).
- The zone-type list of `generateBiomeZones` omits `desert` (`Biomes.NewZone`: `z.kind != Desert`).
- A trace's decay subtracts the whole age times the fade rate from the stored intensity, and each pass stores the result. Decay therefore compounds from one pass to the next.
- Two traces created by one entity in the same millisecond share an id; the second replaces the first (`Traces.SameInstantPathReplacesFootprint`).
- The generator's `regenerateResources` adds the plain rate. The resource manager's version speeds up idle resources by 1.5 (`Biomes.RegenerationRulesDiffer`).
- `updateEntityBehavior` tests for new relationships by comparing lengths. With a repeated old relationship, this misses a new one (`Behavior.RepeatedRelationshipHidesNewOne`).
- `updateEntity` patches the entity list but not the separately stored `selectedEntity`.

## Model

| member | source | states |
|---|---|---|
| Common.Clamp | src/lib/behavior-engine.ts:228-229 | for lo <= hi, `Math.max(lo, Math.min(hi, v))` lies in [lo, hi] and is v when v is already inside |
| Common.Filter | src/lib/resource-manager.ts:202-207 | `Array.filter` keeps no more elements than it is given |
| Common.FilterIn | src/lib/environmental-traces.ts:210-212 | `filter` keeps exactly the elements satisfying the predicate |
| Common.FilterConcat | src/lib/resource-manager.ts:242-251 | filtering distributes over concatenation, so the kept elements stay in order |
| Common.FilterUnique | src/lib/resource-manager.ts:247 | deleting entries from a Map keeps its keys unique |
| Common.FirstIndex | src/store/useEcosystemStore.ts:135 | `find`/`findIndex`: the first index satisfying the predicate, -1 exactly when none does |
| Common.IndexOfKey | src/lib/resource-manager.ts:32 | `Map.get`: the position of the key, -1 exactly when absent |
| Common.MapSet | src/lib/resource-manager.ts:73 | `Map.set`: a present key keeps its place and gets the value, a new key is appended; keys stay unique |
| Common.RemoveAt | src/lib/resource-manager.ts:247 | `Map.delete` of one entry: the others keep their order |
| Common.RemoveAtUnique | src/lib/environmental-traces.ts:354 | deleting an entry keeps keys unique |
| Common.Dedup | src/lib/behavior-engine.ts:60-63 | `Array.from(new Set(s))` has no repetitions and the same members as s |
| Common.DedupOfNoDup | src/lib/behavior-engine.ts:60-65 | a list without repetitions is its own dedup |
| Common.DedupSize | src/lib/behavior-engine.ts:60-65 | the dedup's length is the number of distinct elements |
| Common.NatToString | src/lib/environmental-traces.ts:17 | the decimal text of `Date.now()` in an id template is a non-empty string of digits |
| Types.DistSq | src/lib/resource-manager.ts:424-426 | the squared distance is non-negative |
| Resources.IndexOfId | src/lib/resource-manager.ts:32 | `resources.get(id)`: the position of the id, -1 exactly when no entry has it |
| Resources.Put | src/lib/resource-manager.ts:73 | `resources.set`: replacement in place or append, ids unique, nothing else added |
| Resources.Load | src/lib/resource-manager.ts:18-22 | the constructor's Map has unique ids |
| Resources.LoadContents | src/lib/resource-manager.ts:18-22 | every initial resource's id is present and every entry is an initial resource |
| Resources.MaxHarvest | src/lib/resource-manager.ts:258-281 | floor of 15 times the trait and resource factors lies in [12, 46], and is 15 without any relevant trait |
| Resources.CalculateMaxHarvest | src/lib/resource-manager.ts:258-281 | the factor-by-factor computation equals `MaxHarvest` |
| Resources.EntityEffects | src/lib/resource-manager.ts:283-315 | every kind sets a mood; energy for all but mineral; health for food and water only; gains at most the amount |
| Resources.HarvestFrom | src/lib/resource-manager.ts:42-84 | succeeds exactly within distance 30 of a non-empty resource; otherwise unchanged; takes min(desired, max harvest, amount), records time and harvester, keeps bounds |
| Resources.HarvestFoodExample | src/lib/resource-manager.ts:53-84 | a traitless entity 10 away takes 10 of 60 food and gains 5 energy and 3 health |
| Resources.ContributionAmount | src/lib/resource-manager.ts:337-353 | the contribution lies in [7, 15] |
| Resources.CalculateContribution | src/lib/resource-manager.ts:337-353 | the factor-by-factor computation equals `ContributionAmount` |
| Resources.ApplyContribution | src/lib/resource-manager.ts:355-393 | restore raises the amount up to the cap, purify the rate up to 1, fertilize the capacity up to 1.5x, protect changes nothing; nothing else changes; bounds kept |
| Resources.ContributeTo | src/lib/resource-manager.ts:104-140 | succeeds exactly within distance 25 for a qualified entity; otherwise unchanged; bounds kept |
| Resources.RegenerationMultiplier | src/lib/resource-manager.ts:150-155 | 1 or 1.5, and 1.5 for a never-harvested resource |
| Resources.Regenerated | src/lib/resource-manager.ts:149-163 | a resource below its maximum gains rate x multiplier up to the maximum; others are unchanged; only the amount changes |
| Resources.RegeneratedList | src/lib/resource-manager.ts:146-169 | the returned list is no longer than the Map |
| Resources.RegeneratedListContents | src/lib/resource-manager.ts:146-169 | the returned list holds exactly the regenerated resources that were below maximum |
| Resources.NewResource | src/lib/resource-manager.ts:175-196 | id template, type, position, table capacity and rate, creator as first harvester, initial amount base +-10 |
| Resources.CleanupStep | src/lib/resource-manager.ts:242-251 | one scan step adds the resource to the kept or the removed list |
| Resources.ScarcityOf | src/lib/resource-manager.ts:221-224 | the greatest `1 - amount/maxAmount` over the type's resources (0 if none) |
| Resources.ResourceManager.constructor | src/lib/resource-manager.ts:18-22 | the entries are the initial resources loaded by id |
| Resources.ResourceManager.HarvestResource | src/lib/resource-manager.ts:27-84 | unknown id fails with no change; otherwise the entry becomes the harvest outcome and the result is `HarvestFrom`; a non-negative desire keeps every entry within its capacity (`AllBounded`) |
| Resources.ResourceManager.ContributeToResource | src/lib/resource-manager.ts:89-140 | unknown id fails with no change; otherwise the entry becomes the contribution outcome; every entry stays within its capacity (`AllBounded`) |
| Resources.ResourceManager.RegenerateResources | src/lib/resource-manager.ts:145-170 | every entry regenerates in place and the result lists the regrown ones; `AllBounded` is kept |
| Resources.ResourceManager.CreateResource | src/lib/resource-manager.ts:175-196 | the new resource is `NewResource` and is stored under its id; with a draw in [0, 1) `AllBounded` is kept |
| Resources.PutKeepsBounds | src/lib/resource-manager.ts:194 | storing a bounded resource keeps every entry within its capacity |
| Resources.ResourceManager.FindResourcesNear | src/lib/resource-manager.ts:201-208 | exactly the non-empty resources within the radius and of the type if one is given |
| Resources.ResourceManager.GetAllResources | src/lib/resource-manager.ts:232-234 | a snapshot of the entries, one per id |
| Resources.ResourceManager.GetResourceScarcity | src/lib/resource-manager.ts:213-227 | each type's scarcity is `ScarcityOf` that type |
| Resources.ResourceManager.CleanupDepletedResources | src/lib/resource-manager.ts:239-254 | the entries at 0 for more than an hour are deleted, their ids returned in order, the rest kept in order |
| Traces.Put | src/lib/environmental-traces.ts:32 | `traces.set`: replacement in place or append, ids unique, grows by at most one |
| Traces.IntensityMultiplier | src/lib/environmental-traces.ts:249-251 | the additive multiplier lies in [0.8, 1.3], 1.1 with both energetic and calm |
| Traces.InitialIntensity | src/lib/environmental-traces.ts:238-254 | lies in [24, 100], at most 1.3x the base, the base without energetic or calm |
| Traces.NewTrace | src/lib/environmental-traces.ts:16-30 | id template, kind, position, owner, per-type radius, initial intensity, expiry after the per-type lifespan |
| Traces.OldestIndex | src/lib/environmental-traces.ts:350-351 | the leftmost trace with the smallest creation time |
| Traces.Evicted | src/lib/environmental-traces.ts:347-356 | above 500 entries exactly 500 are kept, all from the list; at or below 500 nothing changes |
| Traces.EvictedOldestFirst | src/lib/environmental-traces.ts:350-354 | every evicted trace is no younger than every kept one |
| Traces.EvictedUnique | src/lib/environmental-traces.ts:354 | eviction keeps ids unique |
| Traces.AfterCreate | src/lib/environmental-traces.ts:32-33 | after storing and evicting, ids are unique and at most 500 remain, all old or the new trace |
| Traces.NewestSurvives | src/lib/environmental-traces.ts:32-35 | with a clock that does not run backwards the trace just created is never evicted |
| Traces.Fade | src/lib/environmental-traces.ts:181-183 | the fade of a trace not from the future is non-negative |
| Traces.Decayed | src/lib/environmental-traces.ts:173-193 | dropped exactly when expired or faded to 5 or below; otherwise only intensity changes and never rises |
| Traces.DecayAll | src/lib/environmental-traces.ts:169-197 | the pass never adds traces |
| Traces.DecayAllContents | src/lib/environmental-traces.ts:169-197 | the kept traces are exactly the surviving decayed ones, all above 5 and unexpired |
| Traces.DecayAllStep | src/lib/environmental-traces.ts:173-194 | one step of the decay scan: an expired or faded trace is dropped, any other is kept with its faded intensity |
| Traces.DecayAllUnique | src/lib/environmental-traces.ts:176-192 | decay keeps ids unique |
| Traces.FootprintFadesBeforeExpiry | src/lib/environmental-traces.ts:181-189 | a plain footprint is gone after 25 minutes but still present after 24, before its 30-minute expiry |
| Traces.NearPathIndex | src/lib/environmental-traces.ts:283-287 | the first path of the entity closer than 20, -1 exactly when none |
| Traces.NearTerritoryIndex | src/lib/environmental-traces.ts:56-60 | the first territory of the entity closer than 50, -1 exactly when none |
| Traces.Strengthened | src/lib/environmental-traces.ts:282-299 | a nearby path gains 5 intensity (capped at 100) in place, else a new path is created |
| Traces.Claimed | src/lib/environmental-traces.ts:55-73 | a nearby territory gains duration x 0.1 intensity (to 100) and 2 radius (to 80), else a new territory is created |
| Traces.StrengthenedSize | src/lib/environmental-traces.ts:289-298 | reinforcing adds no trace and creating adds at most one |
| Traces.SameInstantPathReplacesFootprint | src/lib/environmental-traces.ts:41-50 | a move without a nearby path leaves the path in place of the footprint of the same instant |
| Traces.InteractionTrace | src/lib/environmental-traces.ts:115-161 | plant leaves a footprint only for nurturing entities, harvest always, water only at trees and flowers, rest a scent |
| Traces.InteractionChanges | src/lib/environmental-traces.ts:129-153 | harvest lowers health by 20 (to 0), watering a tree or flower raises it by 15 (to 100), with time and author; nothing else changes |
| Traces.NewPlant | src/lib/environmental-traces.ts:323-341 | a flower of size [0.3, 0.7), health [80, 100), variant 0-2, 15-35 away |
| Common.SquareBounds | src/lib/environmental-traces.ts:324 | squaring preserves bounds on a non-negative offset |
| Traces.EnvironmentalTraceSystem.constructor | src/lib/environmental-traces.ts:4-5 | no traces |
| Traces.EnvironmentalTraceSystem.CleanupExpiredTraces | src/lib/environmental-traces.ts:347-356 | the entries become `Evicted` |
| Traces.EnvironmentalTraceSystem.CreateTrace | src/lib/environmental-traces.ts:10-36 | returns `NewTrace` and the entries become `AfterCreate` |
| Traces.EnvironmentalTraceSystem.StrengthenPath | src/lib/environmental-traces.ts:282-299 | the entries become `Strengthened` |
| Traces.EnvironmentalTraceSystem.CreateMovementTrace | src/lib/environmental-traces.ts:41-50 | a footprint at the origin, then path reinforcement at the destination |
| Traces.EnvironmentalTraceSystem.CreateTerritoryTrace | src/lib/environmental-traces.ts:55-73 | the entries become `Claimed` |
| Traces.EnvironmentalTraceSystem.CreateNestTrace | src/lib/environmental-traces.ts:78-86 | a burrow exactly for underground entities, a nest otherwise, stored as by `createTrace` |
| Traces.EnvironmentalTraceSystem.CreateScentTrace | src/lib/environmental-traces.ts:91-97 | a scent stored as by `createTrace` |
| Traces.EnvironmentalTraceSystem.ProcessEnvironmentalInteraction | src/lib/environmental-traces.ts:102-164 | the traces, element changes and new plants the interaction produces |
| Traces.EnvironmentalTraceSystem.UpdateTraces | src/lib/environmental-traces.ts:169-197 | the entries become `DecayAll` and are returned |
| Traces.EnvironmentalTraceSystem.GetAllTraces | src/lib/environmental-traces.ts:202-204 | the entries, unique and at most 500 |
| Traces.EnvironmentalTraceSystem.GetTracesInArea | src/lib/environmental-traces.ts:209-213 | exactly the traces within the radius |
| Traces.EnvironmentalTraceSystem.GetTracesFromEntity | src/lib/environmental-traces.ts:218-222 | exactly the traces of that entity |
| Behavior.CountIsMultiplicity | src/lib/behavior-engine.ts:125 | the trait count is the multiplicity of the name in the list |
| Behavior.TraitDeltaCounted | src/lib/behavior-engine.ts:126-157 | one trait's adjustment is the closed form with that trait counted once |
| Behavior.TraitWeightsByCount | src/lib/behavior-engine.ts:117-158 | the trait loop yields the base weights plus each known trait's adjustment times its count |
| Behavior.TraitOrderIrrelevant | src/lib/behavior-engine.ts:125-158 | lists with the same traits, in any order, give the same weights |
| Behavior.SameCount | src/lib/behavior-engine.ts:125 | permuted lists have equal counts |
| Behavior.CountedStep | src/lib/behavior-engine.ts:125-158 | one more trait on top of closed-form weights |
| Behavior.BehaviorWeights | src/lib/behavior-engine.ts:116-173 | non-negative weights: the trait weights, socializing +5 per neighbour or -15 with none, each clamped at 0 |
| Behavior.Max0 | src/lib/behavior-engine.ts:164-169 | `Math.max(0, n)` |
| Behavior.SocialWithTwoNeighbours | src/lib/behavior-engine.ts:117-165 | a social entity with two neighbours weighs (25, 15, 45, 10) |
| Behavior.CumulativeMonotone | src/lib/behavior-engine.ts:91-97 | the running total of non-negative weights never decreases |
| Behavior.SelectFrom | src/lib/behavior-engine.ts:95-97 | the first position whose running total reaches the value |
| Behavior.DrawAlwaysSelects | src/lib/behavior-engine.ts:92-113 | a draw in [0, 1) always selects, so the `exploring` fall-back is never reached |
| Behavior.SelectedHasWeight | src/lib/behavior-engine.ts:95-99 | a positive value lands on a status of positive weight |
| Behavior.SelectionMonotone | src/lib/behavior-engine.ts:95-97 | a larger value never selects an earlier status |
| Common.KeysOf | src/lib/behavior-engine.ts:106 | `map(e => e.id)`: the key of each entry, position by position (also the element ids of src/lib/biome-generator.ts:72 and the removed ids of the resource clean-up) |
| Behavior.NewRelationships | src/lib/behavior-engine.ts:103-107 | present exactly when socializing near others; the first one or two neighbour ids |
| Behavior.NearbyEntities | src/lib/behavior-engine.ts:234-242 | exactly the other entities within the radius |
| Behavior.KeepInCanvas | src/lib/behavior-engine.ts:227-231 | the clamped position is on the canvas and equals the input when already there |
| Behavior.CandidateAt | src/lib/behavior-engine.ts:252-253 | the candidate spot is the position plus cos/sin times the distance |
| Behavior.FirstSpotFrom | src/lib/behavior-engine.ts:250-262 | the first candidate on the canvas in search order, none tried before it is |
| Behavior.BuildingSpot | src/lib/behavior-engine.ts:244-263 | none exactly when no candidate is on the canvas; a found spot is on the canvas |
| Behavior.BuildingSpotOnCanvas | src/lib/behavior-engine.ts:247-258 | from the canvas a spot is always found 100 away |
| Behavior.SpotOffset | src/lib/behavior-engine.ts:252-253 | every candidate lies along an axis at its search distance |
| Behavior.AxisOffset | src/lib/behavior-engine.ts:247-253 | the axis direction's offset has length D |
| Behavior.ExploreTarget | src/lib/behavior-engine.ts:183-188 | a step of length speed x 20 |
| Behavior.SocialTarget | src/lib/behavior-engine.ts:190-203 | no movement without a neighbour farther than 50 |
| Behavior.BuildTarget | src/lib/behavior-engine.ts:205-218 | no movement without a spot, else a step of speed x 15 along the spot's axis |
| Behavior.BuildStep | src/lib/behavior-engine.ts:209-216 | the unit-vector step to a spot is the axis step |
| Behavior.RestTarget | src/lib/behavior-engine.ts:220-224 | the drift is at most speed x 2.5 per axis |
| Behavior.DriftBound | src/lib/behavior-engine.ts:222-223 | `(r - 0.5) * speed * 5` is at most speed x 2.5 in size |
| Behavior.Movement | src/lib/behavior-engine.ts:175-232 | the status's target clamped to the canvas, on the canvas |
| Behavior.UpdatedEntity | src/lib/behavior-engine.ts:38-78 | None exactly when status, position and relationships are unchanged; otherwise only those and the activity time change |
| Behavior.RelationshipsGrowIff | src/lib/behavior-engine.ts:59-69 | for repetition-free relationships the length test holds exactly when a new id is offered |
| Behavior.RepeatedRelationshipHidesNewOne | src/lib/behavior-engine.ts:60-65 | with ["a", "a"] the new id "b" is missed |
| Behavior.BehaviorInterval | src/lib/behavior-engine.ts:24-26 | 6000 - 30 x energy ms, in [3000, 6000] for energy in [0, 100] |
| Behavior.Scheduled | src/lib/behavior-engine.ts:6-36 | the scheduled ids are the old ones plus the list's |
| Behavior.ScheduledUntouched | src/lib/behavior-engine.ts:6-36 | an id no listed entity has keeps its old period |
| Behavior.ScheduledLast | src/lib/behavior-engine.ts:6-36 | an id gets the period of its last entity in the list |
| Behavior.BehaviorEngine.constructor | src/lib/behavior-engine.ts:4 | no timers |
| Behavior.BehaviorEngine.StartEntityBehavior | src/lib/behavior-engine.ts:17-36 | the entity is (re)scheduled at its period |
| Behavior.BehaviorEngine.StartBehaviorSystem | src/lib/behavior-engine.ts:6-10 | the timers become `Scheduled` |
| Behavior.BehaviorEngine.StopBehaviorSystem | src/lib/behavior-engine.ts:12-15 | no timers remain |
| Behavior.BehaviorEngine.UpdateEntityBehaviorSystem | src/lib/behavior-engine.ts:290-292 | the entity is rescheduled |
| Behavior.BehaviorEngine.RemoveEntityFromSystem | src/lib/behavior-engine.ts:295-300 | the id is unscheduled; nothing changes if it was not scheduled |
| Behavior.BehaviorEngine.CalculateBehaviorWeights | src/lib/behavior-engine.ts:116-173 | the loop computes `BehaviorWeights` |
| Behavior.BehaviorEngine.DetermineBehavior | src/lib/behavior-engine.ts:80-114 | the cumulative scan computes `Decide` |
| Behavior.BehaviorEngine.FindBuildingSpot | src/lib/behavior-engine.ts:244-263 | the nested search computes `BuildingSpot` |
| Behavior.BehaviorEngine.UpdateEntityBehavior | src/lib/behavior-engine.ts:38-78 | computes `UpdatedEntity` |
| Biomes.Fertility | src/lib/biome-generator.ts:191-202 | the base fertility +-10 |
| Biomes.KindFrom | src/lib/biome-generator.ts:220-225 | the first element type whose cumulative probability reaches the draw |
| Biomes.ElementKindNeverFallsBack | src/lib/biome-generator.ts:208-227 | every table sums to one, so the `grass` fall-back is never reached |
| Biomes.NoWaterInDryBiomes | src/lib/biome-generator.ts:209-211 | forests, meadows and rocky zones never produce water |
| Biomes.ForestDrawExample | src/lib/biome-generator.ts:207-228 | 0.65 in a forest selects rock |
| Biomes.ResourceKindFor | src/lib/biome-generator.ts:233-244 | a preferred type, the first exactly for draws below 0.5 |
| Biomes.ZoneCount | src/lib/biome-generator.ts:35 | 4 to 6 zones |
| Biomes.NewZone | src/lib/biome-generator.ts:37-53 | id, a non-desert type, radius [80, 200), density [0.3, 0.8), fertility +-10, centre 100 inside the edges, empty lists |
| Biomes.ElementCountRange | src/lib/biome-generator.ts:87 | a generated zone holds 4 to 11 elements |
| Biomes.Bound | src/lib/biome-generator.ts:99-100 | the bound check clamps into [lo, hi] |
| Biomes.ElementPosition | src/lib/biome-generator.ts:90-100 | zone elements stay 20 inside the canvas |
| Biomes.NewZoneElement | src/lib/biome-generator.ts:89-113 | id, biome-typed kind, size [0.5, 2), health [60, 100), variant 0-2, position on the canvas |
| Biomes.ZoneElements | src/lib/biome-generator.ts:85-119 | floor(density x 15) elements, the i-th as `NewZoneElement` |
| Biomes.SameDensitySameCount | src/lib/biome-generator.ts:64-80 | recording element ids leaves element counts alone |
| Biomes.AllZoneElements | src/lib/biome-generator.ts:67-73 | the zones' elements together, with their ranges |
| Biomes.NewScatterElement | src/lib/biome-generator.ts:128-141 | a non-water type, size [0.3, 1.3), health [40, 100), variant 0-2, position 20 inside the canvas |
| Biomes.ScatterElements | src/lib/biome-generator.ts:124-147 | count elements, the i-th as `NewScatterElement` |
| Biomes.ResourceCount | src/lib/biome-generator.ts:157 | 1 or 2 resources per zone |
| Biomes.InitialFill | src/lib/biome-generator.ts:175 | between 70% and all of the capacity |
| Biomes.NewZoneResource | src/lib/biome-generator.ts:159-179 | id, a preferred kind, capacity [50, 150), fill, rate [0.1, 0.3), bounded, never harvested, closer to the centre than 0.6 of the radius |
| Biomes.ResourceWithinReach | src/lib/biome-generator.ts:161-167 | a zone resource lies closer to the zone's centre than 0.6 of its radius |
| Biomes.ZoneResources | src/lib/biome-generator.ts:157-182 | the zone's 1 or 2 resources, the i-th as `NewZoneResource` |
| Biomes.AllZoneResources | src/lib/biome-generator.ts:152-186 | between one and two resources per zone |
| Biomes.AllZoneResourcesContents | src/lib/biome-generator.ts:155-183 | every generated resource is bounded, holds 50 to 150 and at least 70% of it, and is of a type some zone prefers |
| Biomes.ZoneResourcesStep | src/lib/biome-generator.ts:159-182 | one step of the inner loop |
| Biomes.AllZoneResourcesStep | src/lib/biome-generator.ts:155-183 | one step of the outer loop |
| Biomes.Regrown | src/lib/biome-generator.ts:250-260 | below capacity the amount rises by the rate, up to capacity; only the amount changes |
| Biomes.RegenerateResources | src/lib/biome-generator.ts:249-261 | the same list in order, each regrown, ids and capacity kept, bounds kept |
| Biomes.RegenerationRulesDiffer | src/lib/biome-generator.ts:249-261 | on one resource the generator adds 1.0 where the manager adds 1.5 |
| Biomes.ContainingZone | src/lib/biome-generator.ts:269-275 | the first zone containing the element, -1 exactly when none |
| Biomes.Grown | src/lib/biome-generator.ts:277-288 | a growing tree gains fertility/100 x 0.5 health up to 100 and is stamped; everything else is unchanged |
| Biomes.GrowBiomeElements | src/lib/biome-generator.ts:266-290 | the same list in order, each grown |
| Biomes.FullTreesStayPut | src/lib/biome-generator.ts:277 | an element at full health is left alone by the next pass |
| Biomes.BiomeGenerator.constructor | src/lib/biome-generator.ts:7-10 | the canvas size |
| Biomes.BiomeGenerator.GenerateBiomeZones | src/lib/biome-generator.ts:30-59 | `ZoneCount` zones, the i-th as `NewZone` |
| Biomes.BiomeGenerator.ElementTypeForBiome | src/lib/biome-generator.ts:207-228 | the cumulative scan computes `ElementKindFor` |
| Biomes.BiomeGenerator.GenerateElementsForZone | src/lib/biome-generator.ts:85-119 | computes `ZoneElements` |
| Biomes.BiomeGenerator.GenerateRandomElements | src/lib/biome-generator.ts:124-147 | computes `ScatterElements` |
| Biomes.BiomeGenerator.GenerateBiomeElements | src/lib/biome-generator.ts:64-80 | zone elements then 20 scattered ones; each zone records its element ids |
| Biomes.BiomeGenerator.GenerateResources | src/lib/biome-generator.ts:152-186 | computes `AllZoneResources` |
| Biomes.BiomeGenerator.GenerateInitialEcosystem | src/lib/biome-generator.ts:15-25 | 4-6 zones, each `NewZone` with the ids of its own `ZoneElements` recorded; the elements are those zones' elements then the 20 scattered ones; the resources are `AllZoneResources` of the zones, bounded, capacity [50, 150), at least 70% full, of a type some zone prefers |
| Biomes.NewZoneElementIgnoresIds | src/lib/biome-generator.ts:90-113 | an element of a zone does not depend on the ids the zone records |
| Biomes.ZoneElementsIgnoreIds | src/lib/biome-generator.ts:85-118 | a zone's elements do not depend on the ids it records |
| Biomes.AllZoneElementsIgnoreIds | src/lib/biome-generator.ts:64-79 | recording the ids in the zones leaves the elements they generate alone |
| Generator.Get | src/lib/ai-generator.ts:88 | reading a missing field gives `undefined` |
| Generator.FirstBadFeature | src/lib/ai-generator.ts:130-134 | the first feature outside the seven names, -1 exactly when none |
| Generator.Validate | src/lib/ai-generator.ts:87-135 | accepts exactly the `Acceptable` descriptions; each check's error exactly when the earlier ones pass and it fails; the feature error names the first unlisted feature |
| Generator.ShapeName | src/lib/ai-generator.ts:116-119 | every shape's name is a valid shape |
| Generator.RandomPosition | src/lib/ai-generator.ts:166-171 | x in [100, 1100), y in [100, 700) |
| Generator.FallbackEntity | src/lib/ai-generator.ts:137-164 | one listed trait and feature, integer energy 0-100, size [0.5, 2), a listed colour, exploring, no relationships |
| Generator.Texts | src/lib/ai-generator.ts:121-134 | the string list as JSON values |
| Generator.ReadDescribed | src/lib/ai-generator.ts:88-106 | the top-level fields of a description |
| Generator.ReadPersonality | src/lib/ai-generator.ts:96-102 | the personality fields of a description |
| Generator.ReadAppearance | src/lib/ai-generator.ts:106-123 | the appearance fields of a description |
| Generator.DescribedAccepted | src/lib/ai-generator.ts:87-135 | an entity's description passes exactly when it is in the schema |
| Generator.AcceptableDescribed | src/lib/ai-generator.ts:87-135 | the conjunction holds exactly for entities in the schema |
| Generator.UncheckedTraitsAccepted | src/lib/ai-generator.ts:96-98 | an unknown trait passes: traits are not checked |
| Generator.FallbackColorsAreHex | src/lib/ai-generator.ts:138 | every fallback colour matches the hex pattern |
| Generator.FallbackPassesValidation | src/lib/ai-generator.ts:87-164 | the fallback creature passes the validator |
| Store.Patched | src/store/useEcosystemStore.ts:79 | `{...entity, ...updates}`: a given field replaces the entity's, an absent one keeps it |
| Store.PatchNothing | src/store/useEcosystemStore.ts:79 | an empty patch changes nothing |
| Store.PatchIdempotent | src/store/useEcosystemStore.ts:79 | applying a patch twice is applying it once |
| Store.Updated | src/store/useEcosystemStore.ts:74-83 | same length and order; entities with the id are patched, others kept |
| Store.Removed | src/store/useEcosystemStore.ts:88 | exactly the entities without the id |
| Store.FindById | src/store/useEcosystemStore.ts:135 | the first entity with the id, None exactly when none has it |
| Store.WithStatus | src/store/useEcosystemStore.ts:137 | exactly the entities with that status |
| Store.SelectionAfterRemove | src/store/useEcosystemStore.ts:89 | the selection is cleared exactly when it had the removed id |
| Store.FindAfterAppend | src/store/useEcosystemStore.ts:67-72 | an appended entity is found by its id unless an earlier one has it |
| Store.RemoveAbsent | src/store/useEcosystemStore.ts:85-93 | removing an unused id changes nothing |
| Store.UpdateAbsent | src/store/useEcosystemStore.ts:74-83 | patching an unused id changes nothing |
| Store.UpdateThenFind | src/store/useEcosystemStore.ts:74-83 | an id-keeping patch is seen by the next lookup |
| Store.UpdateKeepsOthersFindable | src/store/useEcosystemStore.ts:74-83 | patching leaves lookups of other ids unchanged |
| Store.EcosystemStore.constructor | src/store/useEcosystemStore.ts:51-52 | no entities, nothing selected |
| Store.EcosystemStore.SetEntities | src/store/useEcosystemStore.ts:65 | the list is replaced, the selection kept |
| Store.EcosystemStore.SelectEntity | src/store/useEcosystemStore.ts:95 | the selection is replaced, the list kept |
| Store.EcosystemStore.AddEntity | src/store/useEcosystemStore.ts:67-72 | appended; found by id unless an earlier entity has its id |
| Store.EcosystemStore.UpdateEntity | src/store/useEcosystemStore.ts:74-83 | the list becomes `Updated`; the selection is kept |
| Store.EcosystemStore.RemoveEntity | src/store/useEcosystemStore.ts:85-93 | the list becomes `Removed`, the selection `SelectionAfterRemove`; the id is no longer found |
| Store.EcosystemStore.GetEntityById | src/store/useEcosystemStore.ts:135 | a stored entity with the id, None exactly when none has it |
| Store.EcosystemStore.GetEntitiesByStatus | src/store/useEcosystemStore.ts:137 | exactly the stored entities with that status |
| Store.EcosystemStore.GetNearbyEntities | src/store/useEcosystemStore.ts:139-148 | exactly the other stored entities within the radius |

## Left out

- Timers: `setInterval` and `clearInterval` are not modelled. The engine's `entityUpdateIntervals` keeps each entity's period, and a timer firing is the caller invoking `UpdateEntityBehavior`.
- The update callback of `startBehaviorSystem` is not modelled. It is a call into the store, which is modelled separately.
- `checkCollisions` (src/lib/behavior-engine.ts:266-287) is not modelled. Nothing in the engine calls it.
- Square roots, `atan2`, `cos` and `sin` are not modelled. Distances are compared squared. Random angles enter as given cosine/sine pairs, and the movement direction of `createMovementTrace` is left out.
- Behavior.SocialTarget: states only that the entity does not move without a neighbour farther than 50. The length of the step towards that neighbour needs a square root and is not stated.
- Floating point is not modelled: arithmetic is exact on reals. As a result, the cumulative probability tables sum to exactly 1 here, while in IEEE doubles they sum to a value just below 1. NaN and Infinity do not arise.
- Resources.ResourceManager.GetResourceScarcity: requires every capacity to be non-zero, because JavaScript's division by zero yields Infinity or NaN and the reals have neither.
- Resources.ScarcityOf: same precondition, same reason.
- The property bags of traces and nests, and their helpers, are left out. `properties`, comfort, capacity, materials and pheromone names are passed to `createTrace` but never read by the core.
- Ids from `Math.random().toString(36)` and `uuidv4()` are given as parameters.
- ISO-8601 timestamp strings are left out. Times are millisecond counts.
- The OpenAI calls of the entity generator, `JSON.parse` and `generateEntityBehaviorUpdate` are left out: they are network I/O and parsing. The model starts from the parsed JSON value.
- Store structures, the viewport and the UI flags are left out. They are independent setters with no logic.
- Trace aliasing: `createTerritoryTrace` (src/lib/environmental-traces.ts:64-65) and `strengthenPath` (src/lib/environmental-traces.ts:291) change the stored trace object in place. That object is the one `createTrace` returned and `getAllTraces`/`getTracesInArea` handed out, so their holders see the new intensity and radius. `Traces.Claimed` and `Traces.Strengthened` replace the entry by a new value instead, so a trace returned earlier keeps its old values.
- Default arguments: Dafny has none. `harvestResource`'s default `desiredAmount = 10` (src/lib/resource-manager.ts:30) is the constant `DefaultDesiredAmount`, which a caller of `HarvestResource` passes explicitly.
- `zone.elements = ...` in `generateBiomeElements` mutates the caller's zone objects in place. The model returns the updated zones instead, so aliasing of zone objects is not captured.
- Biomes.BiomeGenerator.GenerateInitialEcosystem: requires enough random draws for the largest ecosystem (6 zones, 11 elements and 2 resources each), because the draws are parameters rather than an endless source.
- A generated zone resource is not clamped to the canvas, unlike the elements (`Biomes.ResourceWithinReach` bounds it by its zone only).
- A `Partial<Entity>` whose key holds `undefined` would overwrite the field with `undefined`. The patch model treats an absent key and an undefined one alike.
