# GeoPlanetLib surface generation core in Dafny

This project models three parts of GeoPlanetLib, a library that builds planet surfaces. A
surface is a set of regions; each region has neighbours and carries attributes such as its
tectonic plate and its Elevation.

- **The modifier pipeline** (`SurfaceGenerator`): an ordered list of named modifier entries,
  each enabled or not. Entries are upserted, removed, enabled and disabled by name. The
  enabled ones are applied in list order, and the run stops at the first failure.
- **Plate bookkeeping** (`TectonicPlate`): a region's plate is an attribute of the region.
  An assignment overrides an existing plate only when forced. A plate's `addRegion` claims a
  region without forcing and records it as a member.
- **The elevation modifier** (`ElevationModifier`):
  - `elevationOf` returns a valid Elevation attribute, or else the baseline model: the
    plate's lazily drawn baseline, plus scaled Perlin noise when enabled. A region without a
    plate gives NaN.
  - `calculatePlateColisions` adds collision pressure from neighbours on other plates to each
    edge region. It then writes every region back, optionally smoothed with its neighbours.
  - `apply` falls back to the baseline model when the collision model does not succeed.

The files and what they hold:

| file | module | contents |
|---|---|---|
| `wrappers.dfy` | `Wrappers` | `Option` and `Result` |
| `floats.dfy` | `Floats` | the floating-point values the elevation code sees: `NaN` or a finite real; NaN propagates through `+` and `* 0.5`, and `==` is IEEE equality, so `x == NAN` is never true |
| `surface.dfy` | `Surfaces` | the `Surface` class: neighbour lists (`NeighbourId.Invalid` is `INVALID_REGION_ID`), the plate attribute and Elevation attribute of each region, and each plate's baseline |
| `tectonic_plate.dfy` | `Tectonics` | plate assignment as functions and lemmas, the surface operations as methods, and the `TectonicPlate` class |
| `surface_generator.dfy` | `Generation` | list operations as functions with lemmas, and the `SurfaceGenerator` class whose methods are proved against them |
| `elevation_model.dfy` | `ElevationModel` | what `elevationOf`, both passes of `calculatePlateColisions`, the fallback loop and `apply` compute, as functions over the attribute store, with lemmas |
| `elevation_modifier.dfy` | `Modifiers` | the `ElevationModifier` class: the same operations as methods with loops over the `Surface`, each proved equal to its `ElevationModel` function |

Plates are identified by a plate id rather than by object identity. The random draws,
the noise generator and the pressure geometry are oracle parameters:

- `draw(p)` is the value `rand_f` gives plate `p`'s baseline. A plate draws at most once,
  so one value per plate covers every draw order.
- `noise(r)` is the seeded generator's octave noise at region `r`.
- `pressure` stands for `computePressure`.
- For the pipeline, the outcome of each modifier's `apply` is an oracle. It gets the names of
  the modifiers applied before it in the same run.

Two behaviours of the code are modelled as written:

- **Stale Elevation is reused.** The collision pass does not clear old Elevation attributes.
  So an edge region that still has one starts from it
  (`ElevationModel.CollisionsStartFromStoredElevation`).
- **The NaN tests never fire.** In `calculatePlateColisions` the tests `elevation == NAN`
  and `increment == NAN` can never be true. The second pass therefore always completes
  (`ElevationModel.SmoothPassCompletes`). A region with neither an Elevation nor a plate gets
  NaN written as its Elevation (`ElevationModel.SmoothPassWritesNaNForPlatelessRegion`).

## Model

| member | source | states |
|---|---|---|
| Generation.SurfaceGenerator.constructor | src/GeoPlanetLib/SurfaceGenerator.cpp:10-15 | a generator built from an empty modifier configuration has an empty list (other configurations: see "## Left out") |
| Generation.FindModifierByIdent | src/GeoPlanetLib/SurfaceGenerator.cpp:101-108 | the result is the position of the first entry with the name, or the end of the list when no entry has it |
| Generation.SurfaceGenerator.GetModifier | src/GeoPlanetLib/SurfaceGenerator.cpp:17-24 | a present name gives an entry of the list with that name; an absent name gives the value-initialised entry; the list is not changed |
| Generation.SurfaceGenerator.AddModifier | src/GeoPlanetLib/SurfaceGenerator.cpp:26-36 | returns the new entry; the list is the upsert of it (overwrite in place or append) and keeps names distinct |
| Generation.UpsertExisting | src/GeoPlanetLib/SurfaceGenerator.cpp:28-33 | upserting an existing name keeps the length, puts the item at that name's position and leaves every other entry unchanged |
| Generation.UpsertNew | src/GeoPlanetLib/SurfaceGenerator.cpp:30-31 | upserting a new name appends the item at the end, earlier entries unchanged |
| Generation.UpsertKeepsIdentsDistinct | src/GeoPlanetLib/SurfaceGenerator.cpp:26-36 | adding through addModifier never creates two entries with the same name |
| Generation.UpsertThenLookup | src/GeoPlanetLib/SurfaceGenerator.cpp:17-36 | after addModifier, getModifier with the same name returns the new entry |
| Generation.SurfaceGenerator.AddModifierOfClass | src/GeoPlanetLib/SurfaceGenerator.cpp:38-45 | an unknown class fails with invalid_argument "\"<class>\" is not valid modifier class." and leaves the list unchanged; a known one upserts an entry holding the created modifier |
| Generation.SurfaceGenerator.RemoveModifier | src/GeoPlanetLib/SurfaceGenerator.cpp:47-55 | erases the first entry with the name and returns true, or returns false with the list unchanged; with distinct names, no entry with the name remains |
| Generation.RemoveFound | src/GeoPlanetLib/SurfaceGenerator.cpp:49-52 | a present name is erased from its position, the other entries keep their order |
| Generation.RemoveMissing | src/GeoPlanetLib/SurfaceGenerator.cpp:49-54 | an absent name gives false and the same list |
| Generation.RemoveLeavesNoEntry | src/GeoPlanetLib/SurfaceGenerator.cpp:47-55 | with distinct names, no entry with the name is left, the length drops by one exactly when removal succeeded, names stay distinct |
| Generation.SurfaceGenerator.DisableModifier | src/GeoPlanetLib/SurfaceGenerator.cpp:57-65 | clears the enabled flag of the entry with the name and returns true, or returns false with the list unchanged |
| Generation.SurfaceGenerator.EnableModifier | src/GeoPlanetLib/SurfaceGenerator.cpp:67-75 | sets the enabled flag of the entry with the name and returns true, or returns false with the list unchanged |
| Generation.FlagFound | src/GeoPlanetLib/SurfaceGenerator.cpp:57-75 | a present name: true, only that entry's flag changes, name and modifier kept, other entries unchanged |
| Generation.FlagMissing | src/GeoPlanetLib/SurfaceGenerator.cpp:59-61 | an absent name: false and the same list |
| Generation.Enabled | src/GeoPlanetLib/SurfaceGenerator.cpp:79-80 | the entries the run visits are exactly the enabled entries of the list: each is enabled and in the list, and every enabled entry is among them |
| Generation.EnabledDistributes | src/GeoPlanetLib/SurfaceGenerator.cpp:79-80 | the enabled entries of a concatenation are those of the first part followed by those of the second, so list order and multiplicity are kept |
| Generation.EnabledSingle | src/GeoPlanetLib/SurfaceGenerator.cpp:80 | a single entry contributes itself when enabled and nothing otherwise |
| Generation.FirstFailure | src/GeoPlanetLib/SurfaceGenerator.cpp:79-86 | every enabled modifier before the result succeeds when applied after the ones before it, and the one at the result fails |
| Generation.PipelineSkipsDisabled | src/GeoPlanetLib/SurfaceGenerator.cpp:79-85 | skipping disabled entries changes neither which entries the run reaches nor its result |
| Generation.SucceededHeadShiftsTrace | src/GeoPlanetLib/SurfaceGenerator.cpp:79-85 | after the first enabled modifier succeeds, the first failure is one further on and the called names are its name followed by the rest's |
| Generation.RunStopsAtFirstFailure | src/GeoPlanetLib/SurfaceGenerator.cpp:79-86 | over the enabled entries, the run succeeds having called all when none fails, otherwise stops right after the first failure |
| Generation.PipelineStopsAtFirstFailure | src/GeoPlanetLib/SurfaceGenerator.cpp:77-87 | applyModifiers calls apply on enabled entries only, in list order; true exactly when none fails (also for an empty list), having called all; otherwise false right after the first failure, no later modifier called |
| Generation.SurfaceGenerator.ApplyModifiers | src/GeoPlanetLib/SurfaceGenerator.cpp:77-87 | the loop's result and the modifiers it called are those of the pipeline specification, for every list whose run never reaches an enabled entry with a null modifier |
| Generation.NullPastFailureIsNotReached | src/GeoPlanetLib/SurfaceGenerator.cpp:79-83 | an enabled null entry after a failing modifier is never reached: the run returns false having called only the failing one |
| Tectonics.GetPlateOfRegion | src/GeoPlanetLib/TectonicPlate.h:17 | the region's plate when its plate attribute is set, and none otherwise |
| Tectonics.AssignUnownedRegion | src/GeoPlanetLib/TectonicPlate.h:19-28 | a region without a plate is assigned, with or without forcing, and then carries the plate |
| Tectonics.AssignForced | src/GeoPlanetLib/TectonicPlate.h:24-28 | a forced assignment always succeeds and the region then carries the plate |
| Tectonics.AssignRefused | src/GeoPlanetLib/TectonicPlate.h:26-28 | a region that has a plate refuses a non-forced assignment and keeps its plate |
| Tectonics.AssignTouchesOnlyItsRegion | src/GeoPlanetLib/TectonicPlate.h:19-28 | no other region's plate changes |
| Tectonics.FirstClaimWins | src/GeoPlanetLib/TectonicPlate.h:19-28 | over any sequence of non-forced assignments a region keeps the plate it had; an unowned region ends on the plate of the first claim on it, and without a claim stays unowned |
| Tectonics.AssignPlateToRegion | src/GeoPlanetLib/TectonicPlate.h:28 | the surface's plate attributes and the result are those of the assignment rule |
| Tectonics.RemovePlateFromRegion | src/GeoPlanetLib/TectonicPlate.h:30 | the region has no plate afterwards; every other region keeps its plate |
| Tectonics.TectonicPlate.constructor | src/GeoPlanetLib/TectonicPlate.h:35-56 | a new plate has no member and no edge region and has not finished expanding |
| Tectonics.TectonicPlate.AddRegion | src/GeoPlanetLib/TectonicPlate.h:40-47 | a non-forced assignment of this plate; on success the region is appended to the member list, otherwise nothing changes |
| Tectonics.AddRegionOutcome | src/GeoPlanetLib/TectonicPlate.h:40-47 | addRegion succeeds exactly when the region has no plate; success sets the plate and appends the region; refusal changes nothing |
| Tectonics.MembersDisjoint | src/GeoPlanetLib/TectonicPlate.h:40-47 | while member lists agree with the plate attributes, no region is a member of two plates |
| Tectonics.AddRegionKeepsMembersAgreeing | src/GeoPlanetLib/TectonicPlate.h:40-47 | addRegion on any plate keeps every plate's members carrying that plate |
| Floats.NanNeverEqual | src/GeoPlanetLib/modifiers/ElevationModifier.cpp:78-96 | a comparison with NAN by `==` is false for every value |
| ElevationModel.ElevationOfStored | src/GeoPlanetLib/modifiers/ElevationModifier.cpp:127-130 | a valid Elevation attribute is returned unchanged and nothing is drawn |
| ElevationModel.ElevationOfComputed | src/GeoPlanetLib/modifiers/ElevationModifier.cpp:132-146 | otherwise the baseline model: NaN exactly without a plate; the plate's baseline drawn only while unset, and a set baseline reused unchanged with nothing else changing; no attribute changes |
| ElevationModel.ElevationOfRepeatable | src/GeoPlanetLib/modifiers/ElevationModifier.cpp:125-147 | asking again returns the same value and changes nothing (that a set baseline is not redrawn is ElevationOfComputed's clause) |
| ElevationModel.ElevationOfReads | src/GeoPlanetLib/modifiers/ElevationModifier.cpp:125-147 | the value is the stored attribute or the baseline model; elevationOf only draws baselines |
| ElevationModel.DrawnKeepsValues | src/GeoPlanetLib/modifiers/ElevationModifier.cpp:137-146 | drawing baselines never changes what the baseline model gives any region |
| ElevationModel.CollideSumsForeignPressure | src/GeoPlanetLib/modifiers/ElevationModifier.cpp:51-69 | the neighbour loop fails exactly when a valid neighbour has no plate; otherwise it adds pressure * collisionStrength over neighbours on other plates, skipping invalid ids and same-plate neighbours |
| ElevationModel.EdgeStepWrites | src/GeoPlanetLib/modifiers/ElevationModifier.cpp:46-73 | an edge region with every neighbour plated gets elevationOf(region) plus the foreign pressure written; otherwise nothing is written for it |
| ElevationModel.CollisionsStartFromStoredElevation | src/GeoPlanetLib/modifiers/ElevationModifier.cpp:46-73 | an edge region still carrying an Elevation starts the sum from that value, not from its plate's baseline |
| ElevationModel.EdgesPassSucceedsIffPlated | src/GeoPlanetLib/modifiers/ElevationModifier.cpp:46-74 | a plate's edge loop completes exactly when every valid neighbour of its edge regions has a plate; it only draws baselines |
| ElevationModel.PlatesPassSucceedsIffPlated | src/GeoPlanetLib/modifiers/ElevationModifier.cpp:45-75 | the first pass completes exactly when every plate's edge loop does; it only draws baselines |
| ElevationModel.FilterFoldSmoothsNeighbours | src/GeoPlanetLib/modifiers/ElevationModifier.cpp:86-101 | the filter never fails; the value is e folded with each valid neighbour's current value by (e + n) * 0.5, in neighbour order; it only draws baselines |
| ElevationModel.NeighbourValuesAfterDraws | src/GeoPlanetLib/modifiers/ElevationModifier.cpp:91-93 | the neighbour values the filter reads do not change when baselines are drawn |
| ElevationModel.SmoothedBounded | src/GeoPlanetLib/modifiers/ElevationModifier.cpp:98-99 | the smoothed value lies between the least and greatest of the values folded |
| ElevationModel.SmoothedConstant | src/GeoPlanetLib/modifiers/ElevationModifier.cpp:98-99 | smoothing a value with neighbours all equal to it leaves it unchanged |
| ElevationModel.SmoothedNaN | src/GeoPlanetLib/modifiers/ElevationModifier.cpp:98-99 | a NaN among the folded values makes the result NaN |
| ElevationModel.SmoothPassCompletes | src/GeoPlanetLib/modifiers/ElevationModifier.cpp:78-105 | the second pass always completes, as its `== NAN` tests cannot be true |
| ElevationModel.SmoothPassStep | src/GeoPlanetLib/modifiers/ElevationModifier.cpp:78-105 | each step of the second pass writes the region's elevationOf value, smoothed with its valid neighbours' current values when the filter is on, then goes on with the next region, only drawing baselines meanwhile |
| ElevationModel.SmoothPassWritesAll | src/GeoPlanetLib/modifiers/ElevationModifier.cpp:78-105 | the second pass from region i on leaves an Elevation on every region it reaches |
| ElevationModel.SmoothPassOnlyDraws | src/GeoPlanetLib/modifiers/ElevationModifier.cpp:78-105 | the whole second pass changes baselines only by drawing unset ones: every drawn baseline keeps its value |
| ElevationModel.SmoothPassKeepsEarlierRegions | src/GeoPlanetLib/modifiers/ElevationModifier.cpp:78-105 | the pass over regions from i on leaves earlier regions' Elevation as it was |
| ElevationModel.SmoothPassWritesNaNForPlatelessRegion | src/GeoPlanetLib/modifiers/ElevationModifier.cpp:79-104 | a region with neither an Elevation nor a plate does not stop the pass: NaN is written as its Elevation |
| ElevationModel.SmoothPassReadsSmoothedNeighbours | src/GeoPlanetLib/modifiers/ElevationModifier.cpp:78-105 | regions are written in order, so a later region reads its neighbours' smoothed values: two neighbours stored at 0 and 4 end at 2 and 3 |
| ElevationModel.CollisionsDisabled | src/GeoPlanetLib/modifiers/ElevationModifier.cpp:40-42 | with collisions disabled, false is returned and nothing changes |
| ElevationModel.CollisionsSucceedIffPlated | src/GeoPlanetLib/modifiers/ElevationModifier.cpp:38-108 | calculatePlateColisions succeeds exactly when collisions are enabled and every valid neighbour of every edge region has a plate; a failure only draws baselines beside the Elevation it may have written |
| ElevationModel.FallbackUsesBaselineModel | src/GeoPlanetLib/modifiers/ElevationModifier.cpp:25-33 | after the fallback loop from region i on, each of those regions has an Elevation exactly when it has a plate, equal to the baseline model; other regions keep theirs |
| ElevationModel.ApplyOnlyDraws | src/GeoPlanetLib/modifiers/ElevationModifier.cpp:24-35 | within one apply, on the collision path and the fallback alike, a plate's baseline once drawn keeps its value (the lazy draw of lines 137-139) |
| ElevationModel.ApplyKeepsCollisionModel | src/GeoPlanetLib/modifiers/ElevationModifier.cpp:24-35 | when collisions are enabled and every edge region's valid neighbours have plates, apply ends with the first pass followed by the second pass, and every region has an Elevation |
| ElevationModel.ApplyFallsBackToBaselineModel | src/GeoPlanetLib/modifiers/ElevationModifier.cpp:24-35 | when collisions are disabled or an edge region has a plate-less neighbour, apply ends with an Elevation on exactly the plated regions, each the baseline model |
| Modifiers.ElevationModifier.ElevationOf | src/GeoPlanetLib/modifiers/ElevationModifier.cpp:125-147 | the value returned and the baselines left behind are those of the elevationOf specification |
| Modifiers.ElevationModifier.CalculatePlateColisions | src/GeoPlanetLib/modifiers/ElevationModifier.cpp:38-108 | the result and the Elevation attributes and baselines left behind are those of the two-pass specification, early returns included |
| Modifiers.ElevationModifier.CollidePlates | src/GeoPlanetLib/modifiers/ElevationModifier.cpp:45-75 | the plate and edge loops leave the result and store of the first-pass specification, stopping at the first failing region |
| Modifiers.ElevationModifier.CollideRegion | src/GeoPlanetLib/modifiers/ElevationModifier.cpp:46-74 | the neighbour loop of one edge region leaves the result and store of the edge-step specification |
| Modifiers.ElevationModifier.SmoothRegions | src/GeoPlanetLib/modifiers/ElevationModifier.cpp:78-107 | the region and filter loops leave the result and store of the second-pass specification, `== NAN` returns included |
| Modifiers.ElevationModifier.Apply | src/GeoPlanetLib/modifiers/ElevationModifier.cpp:12-36 | apply stores the configuration and reseeded noise in the modifier, always returns true, and leaves the surface as the apply specification says |

## Left out

- `Generation.SurfaceGenerator.constructor`: models `SurfaceGenerator(modifierConfig)` (SurfaceGenerator.cpp:10-15) only for an empty configuration, because the one-argument `addModifier(ident)` overload it calls is declared in a header that is not part of this model.
- `generate` (SurfaceGenerator.cpp:89-97): it builds a `Surface` at a resolution, and surface construction is not part of this model. It then calls `applyModifiers` and ignores the result.
- `getModifierReference` (SurfaceGenerator.cpp:110-117): it returns a pointer into the list. The model writes the entry at the found position instead.
- `DefaultItem`: assumes the header gives `ModifierListItem` no default member initialisers, so `{}` is an empty name, `false` and a null modifier.
- `Generation.SurfaceGenerator.ApplyModifiers`: requires that the run never reaches an enabled entry with a null modifier, that is, such an entry may appear only after an enabled modifier that fails. Reaching one would dereference a null pointer, which the model does not give a meaning to.
- Shared-pointer lifetime and aliasing of modifiers and regions are not modelled. A modifier is an opaque identity, and its `apply` is an oracle.
- `TectonicPlate::expand` (TectonicPlate.h:49) and `removePlatesFromSurface` (TectonicPlate.h:32): their bodies are not part of this model.
- `getMemberRegions` and `getEdgeRegions` (TectonicPlate.h:37-38) are plain field reads. In the elevation model, a plate's edge regions are given with its id (`PlateEdges`).
- `Tectonics.TectonicPlate.AddRegion`: a region already on this plate is refused like any other owned region. This follows from the non-forced assignment.
- A plate's `elevation` baseline is not declared in `TectonicPlate.h`, yet ElevationModifier.cpp uses it. It is kept per plate in `Surface.plateBaseline`, and an absent entry stands for NaN.
- `computePressure` (ElevationModifier.cpp:110-123) is vector geometry on float positions. It is the `pressure` parameter, always a real number, so a NaN pressure is not modelled.
- The Perlin noise generator and `rand()` seeding (ElevationModifier.cpp:22, 141-143) are the `noise` parameter. `perlinFrequency` and `perlinOctaves` are stored but only shape that oracle.
- `rand_f(-elevationRandomRange, elevationRandomRange)` (ElevationModifier.cpp:138) is the `draw` parameter. The model does not constrain draws to that range.
- Configuration getters `getBool`, `getFloat` and `getInt` are replaced by the `Config` argument of `Apply`.
- The unused `step` variable (ElevationModifier.cpp:44) is left out.
- 32-bit float rounding and infinities: elevations are finite reals or NaN.
- The numeric value of `INVALID_REGION_ID` is defined in a header that is not part of this model. It is a distinct constructor of `NeighbourId`.
- `Modifiers.ElevationModifier.constructor`: the fields' defaults come from the header, which is not part of this model. The constructor sets placeholders that `apply` overwrites before reading them.
- Regions of the surface are numbered `0 .. |neighbours|-1`. Neighbour ids are assumed to be regions of the surface, as `surface->getRegion` requires.
