# A verified model of a Minecraft Classic server

The server keeps levels as flat arrays of blocks, runs water, lava, sand and sponge physics on
them, stores them in the ClassicWorld format (a form of NBT), and streams them to clients in
1024-byte chunks. This project models the parts of it that are hard to get right and proves what
they keep, for every input, every run and every level:

- **Block physics.** `Level.SetBlock` writes a cell, notifies the simulators and updates the six
  neighbours; the simulators call `SetBlock` again. The methods of the class `Levels.Level` follow
  this mutual recursion over one shared array. Each has an explicit termination measure: first
  whether a sponge was placed or removed, then a potential (three per unit of grain height, two per
  air cell, one per fluid cell), then a rank of the method. A single relation, `Evolution.Evolves`,
  says what any piece of physics may do: which cells change and to what, that no grain is left
  hanging and no border cell left empty that was not before, that the queues only grow, and that
  every write is paid for out of the potential. It also says where grains may come from, and which
  of them are lost. It composes (`Evolution.EvolvesTrans`), every method ensures it, and the laws
  (`Laws`) follow: what an edit leaves alone, that grains come to rest, when they are conserved,
  that sponges stay dry, which border cells stay flooded, what exactly a tick spreads, and that
  ticks come to a standstill.
- **Delayed updates.** The queue of a fluid simulator returns every entry on exactly the tick it
  was scheduled for, in order, if and only if no full queue was ever thrown away; and physics throws
  none away while seven entries per unit of the potential fit into 2^30 - 1.
- **NBT.** A recursive writer and a recursive reader driven by the shape of the target, with
  run-time panics and swallowed errors; the bytes written are fixed without reference to the reader,
  reading what was written gives the value back, and tags
  without a place in the target are skipped. On top of it, whole ClassicWorld files: saving and then
  loading gives back the file value, the level and every block definition.
- **Buffers.** The level stream delivers exactly the bytes that were written, in packets that the
  data alone determines. The block buffer behaves like direct writes.
- **Smaller cores.** Word wrapping, colour codes, entity ids, and admission of players by
  compare-and-swap among any number of concurrent connections.

Objects that the server updates in place are classes here (`Level`, `UpdateQueue`, `BlockBuffer`,
`LevelStream`, `Player`, `Entity`, `Server`, `NbtEncoder`, `NbtDecoder`), and their loops are loops.
Each method is proved against functions and relations on plain values; the lemmas are about those.

Loop bodies and runs of similar calls of the source that were too long to follow at once are
methods of their own here (`UpdateAlongX`, `SoakUp`, `SoakUpRow`, `RefillRow`, `WrapLine`, `Append`, `ReadElems`,
`ReadInto`), called in the same order. The border comparisons before each call of `spread` in `Tick` are made
inside `WaterSpread` and `LavaSpread`, and the dispatch to a simulator is `Update` and `Tick` of `Level`.

## How the physics is specified

- `State` is the array, both fluid queues, two ghost counters - the cells written and the queues
  thrown away - and whether the level has to be saved. `Cascade`, `Soak`, `Replace` and `Flow` name what is running.
- `Grounded` says that every grain has some hard cell (neither passable nor a grain) below it in its
  column. It is the precondition of everything once the sand simulator is registered, because the
  search for a landing otherwise indexes below the array; `Columns.GroundedIffSearchesStop` shows it
  is exactly the right one. A level whose bottom layer is hard is grounded. No edit or tick of
  physics loses it; a player's edit that would lose it is outside the precondition of `SetBlock`.
- Coordinates passed to `SetBlock` and `GetBlock` must not be negative: the bounds test of the source
  only compares with the upper limits (`mcc/level.go:224-235`).
- A *gap* is an air cell of the flooded border band with no sponge within two cells; a *wet* cell is
  water with a sponge within two cells; an *unsettled* cell is a grain above a passable cell.
- When a grain or lava replaces a sponge, the water simulator may flood or change things before the
  other simulators run, whose `block` argument is then out of date. This is the `Replace` mode, with
  the weight of a grain as extra allowance; only a top-level edit can start it. A grain is in this
  mode only if a gap of the border touches a grain that can fall (`Reach.Steady`); the level may then
  gain one grain. Otherwise it falls like any other. `Soak` is the mode in which a placed sponge empties the cells around it.
- When active water replaces a sponge, or air does so inside the border band, the water simulator
  takes an earlier branch and never looks at the cells that the sponge kept dry
  (`mcc/physics.go:57-66`). `SpongeIgnored` names these edits. The border is then not always flooded
  again: `Laws.IgnoredSponge` is a level on which it is not, and `Laws.GapsLeftIff` says for every
  edit of a level where nothing can fall which cells stay empty: exactly those that flooding from
  the sources of the edit never gets to. `Reach` says for all levels how far updates reach: a *region*
  has no gap beside it and no grain that can fall in it or beside it.
- A fall removes the grain first and writes it to the landing afterwards (`mcc/physics.go:240-243`). A grain
  directly above falls in between, to the same landing, and is overwritten. `Laws.LostGrain` is a
  column on which this happens, and `Laws.ConservedIffNotTopped` says that an edit of a settled level,
  but for the case just named, conserves the grains if and only if no grain that it lets fall has
  another directly above it. `Laws.LoneFallExact` gives all cells after a grain has fallen alone.
- `Tick` stops at the first due cell that does not hold its fluid and forgets the others
  (`mcc/physics.go:82-84`, `mcc/physics.go:187-189`). `Ticks.FirstStill` computes from the level before the
  tick how many due cells spread, `Ticks.TickCount` says that this is right and that all spread if and
  only if each holds its fluid or is air that an earlier one spreads to, and `Ticks.DroppedCell` is a
  level on which one is dropped.
- `Coordinates` says of every notion that code and specification share what it means in coordinates and
  block numbers: which cells touch, which a fluid spreads to, where a sponge is felt, which cells the
  border floods, which grains can fall. `Scenarios` tells short stories in the same terms.
- `Ledgers` keeps the books of the queues: at most seven entries for each cell written, one for each
  fluid cell updated otherwise, and 343 for a removed sponge. With the bound on the writes, this says
  when no queue is thrown away, which the results about delayed updates ask for.
- `Resting` is about either fluid: where nothing can fall and the other fluid does not flow, ticks,
  cascades and edits keep every bit of it queued or closed in, so that it has spread as far as it goes
  once the level is quiet. `Turns` says what one update does when only one fluid has something due.
- The effect of a spread is exact: `SpreadBlock` is the block that belongs in the target, and the spread
  is either nothing, if it is there already, or one write of that block with its cascade.

## Model

| member | source | states |
|---|---|---|
| Geometry.IndexPosition | mcc/level.go:210-220 | Index maps inside coordinates to a valid array index, and Position takes it back |
| Geometry.PositionIndex | mcc/level.go:210-220 | Position maps every array index to inside coordinates, and Index takes them back: with IndexPosition, a bijection |
| Geometry.IndexAbove | mcc/level.go:210-212 | the cell above is exactly one layer further in the array |
| Geometry.BelowBottom | mcc/physics.go:234-238 | a probe below the bottom layer has a negative index, for all x and z |
| Cubes.ScanCell | mcc/physics.go:113-126 | the triple loop adds exactly one cell of the clipped cube to those scanned |
| Cubes.ScanRow | mcc/physics.go:113-126 | the end of a row is the start of the next one: no cell of the cube lies between them |
| Cubes.ScanLayer | mcc/physics.go:113-126 | the end of a layer is the start of the next one |
| Cubes.ScanEnds | mcc/physics.go:113-126 | the scan starts with nothing and ends with every cell within r along each axis, clipped to the level |
| Columns.PotentialUpdate | mcc/level.go:250-256 | one write changes the potential by the weights of the old and the new block, wherever it is |
| Columns.GroundedIffSearchesStop | mcc/physics.go:234-238 | a level is grounded if and only if no grain's search for a landing runs out of the level |
| Columns.FloorKept | mcc/physics.go:234-244 | a floor survives any change that keeps hard cells hard |
| Columns.FirmKept | mcc/physics.go:234-244 | a stack of grains resting on a hard cell stays firm when firm cells are left alone |
| Columns.SettledIsFirm | mcc/physics.go:249-257 | on a grounded level where nothing can fall, every grain stands in a stack on a hard cell |
| Columns.FloorUnderLanding | mcc/physics.go:234-238 | the search ends above a cell that is not passable and that has a floor |
| Columns.LandingLower | mcc/physics.go:234-238 | the landing is the cell itself or a passable cell strictly lower |
| Columns.GroundedWrite | mcc/level.go:250-256 | which writes keep every grain over a floor |
| Shafts.StopsAt | mcc/physics.go:234-238 | the search ends where everything down to a cell is passable and the next is not |
| Shafts.PassableWrite | mcc/physics.go:128-149 | replacing air or fluid by air or fluid moves no landing and no grain |
| Shafts.UpperFirst | mcc/physics.go:240-243 | a grain directly above the falling one is at its landing before the second write |
| Shafts.OwnLanding | mcc/physics.go:240-243 | the landing of a falling grain lies in the shaft of no other grain |
| Shafts.FallShafts | mcc/physics.go:240-243 | every other grain over a shaft keeps its landing or rests there, a grain above the falling one costs the level one grain, and none is created |
| Shafts.FallSolo | mcc/physics.go:240-243 | a grain that falls alone arrives, none is lost, and then nothing can fall |
| Shafts.FallTidy | mcc/physics.go:240-243 | a grain that falls alone changes exactly its start and its landing, apart from flooded air |
| Shafts.OrderlyTrans | mcc/level.go:250-286 | all of this composes over cascades |
| Evolution.SpongesStay | mcc/physics.go:57-166 | physics neither makes nor removes a sponge and changes no hard cell |
| Evolution.GrainSourceTrans | mcc/physics.go:228-244 | over any number of steps, a grain comes to a cell only from above it in its column |
| Evolution.WaterFedTrans | mcc/physics.go:57-59 | only water is queued to spread, and while nothing can fall what has been queued still holds water |
| Evolution.EvolvesTrans | mcc/level.go:250-286 | physics steps compose, with their allowances added |
| Evolution.EvolvesWeaken | mcc/level.go:250-286 | a nested cascade may happen inside any other activity |
| Evolution.StaysHandled | mcc/level.go:261-284 | whatever runs after a simulator's update of a cell, its effect (landed grain, queued fluid, dried or refilled cube) is not undone |
| Reach.ConfinedTrans | mcc/level.go:250-286 | changes that stay in every region around their seeds compose; a region has no gap beside it and no grain that can fall in or beside it |
| Reach.TouchConfined | mcc/level.go:267-284 | updating a cell beside a region's cell stays in the region |
| Reach.NeighbourConfined | mcc/level.go:267-284 | updating a neighbour changes only what is reached from the edited cell, and nothing if it is neither a gap nor a grain that can fall |
| Reach.SteadyKeeps | mcc/physics.go:155-166 | if no gap touches a grain that can fall, flooding gaps leaves every grain alone |
| Writes.WriteAlters | mcc/physics.go:57-244 | physics followed by one physics write and the whole cascade it starts is again physics, all but the fate of single grains |
| Writes.OneMoreHandled | mcc/level.go:261-265 | notifying one more simulator keeps what those before it have achieved, in any order of registration |
| Writes.RestsSince | mcc/level.go:261-265 | a grain disturbed before its own update rests where it would have come to rest anyway |
| Notifying.GrainStays | mcc/level.go:261-265 | a grain put in place of a sponge is still there after the refill, unless that can disturb it |
| Notifying.NextRan | mcc/level.go:261-265 | one more simulator has been notified, in any order of registration: effects, reach, grains and writes so far |
| Writes.SweptStays | mcc/level.go:349-357 | a cell that a simulator has updated stays without defect, with its fluid queued, through every later cascade |
| Writes.AwakeWithin | mcc/level.go:267-284 | a neighbour updated in the middle of SetBlock still counts as updated at its end |
| Writes.NeighboursUpdated | mcc/level.go:267-284 | updating the neighbours undoes nothing, and leaves no grain hanging over the written cell |
| Writes.UpdateSettles | mcc/level.go:382-390 | an update by every simulator leaves the cell without defect |
| Writes.EditBudget | mcc/level.go:250-286 | without a sponge edit, an edit leaves at most the potential it had right after its write |
| Falling.FallContinues | mcc/physics.go:240-243 | after the first of the two writes of a fall, whatever its cascade did, the landing is free or holds a grain, the level is still grounded, and the second write still has less potential |
| Falling.FallEvolves | mcc/physics.go:240-243 | a fall is an evolution whose writes are paid for by the lost height |
| Falling.FallHandled | mcc/physics.go:228-244 | afterwards the start of the fall is not an unsettled grain, and the grain rests at its landing when that is supported |
| Falling.FluidEvolves | mcc/physics.go:128-139 | writing a fluid or stone over air or fluid, with its cascade, is an evolution at no extra cost |
| Sponges.QueuedEvolves | mcc/physics.go:57-59 | queueing a cell changes no block, and the cell is scheduled unless a full queue was thrown away |
| Sponges.FloodEvolves | mcc/physics.go:63-66 | flooding a border cell leaves no gap there |
| Sponges.EditReaches | mcc/physics.go:63-149 | a write of air or fluid, with its cascade, changes only what is reached from there |
| Sponges.SoakReaches | mcc/physics.go:141-153 | soaking up one more cell changes only what is reached from the water around the sponge |
| Sponges.RefillReaches | mcc/physics.go:155-166 | refilling one more cell changes only what is reached from the gaps around the removed sponge |
| Sponges.DryStep | mcc/physics.go:141-153 | drying one more cell keeps all cells dried before dry, whatever its cascade does |
| Sponges.StaysEmpty | mcc/physics.go:146-149 | a cell emptied next to a sponge is not flooded again by the cascade of its own emptying |
| Sponges.RefillStep | mcc/physics.go:155-166 | refilling one more cell keeps the cells refilled before |
| Ticks.TargetsOf | mcc/physics.go:86-101 | the five guarded calls of spread reach exactly the four side neighbours and the cell below, clipped to the level |
| Ticks.SpreadStays | mcc/physics.go:128-139 | on a level where nothing can fall, the fluid or stone written by a spread stays, and besides only gaps in the border change |
| Ticks.SpreadWritten | mcc/physics.go:128-139 | a spread is physics, and brings its target to exactly the block that belongs there |
| Ticks.SpreadTrans | mcc/physics.go:86-101 | two spreads, seen from before the first, have brought exactly their targets to the blocks that belong there |
| Ticks.WaterSpreads | mcc/physics.go:78-139 | in block numbers: where nothing can fall, after water has spread its targets have changed from 10 and 11 to 1, from 0 to 8 away from sponges, and not otherwise |
| Ticks.LavaSpreads | mcc/physics.go:183-219 | in block numbers: where nothing can fall, after lava has spread no target is 0, 8 or 9: 8 and 9 have become 1, 0 away from gaps has become 10 |
| Ticks.TickStep | mcc/physics.go:80-102 | one more due cell has spread to its targets, because it held its fluid before the tick or was air that an earlier one spread to; only targets and gaps changed |
| Ticks.TickCount | mcc/physics.go:80-84 | how many due cells spread, computed before the tick; all of them if and only if each holds its fluid or is air that an earlier one spreads to |
| Ticks.TickExact | mcc/physics.go:78-103 | on a level where nothing can fall and the border is flooded, the tick computes a function of the level and the due cells |
| Ticks.DroppedCell | mcc/physics.go:82-84 | a level on which water that is due never reaches the air beside it, because a due cell before it is stone; in the other order it does |
| Ticks.DueValid | mcc/physics.go:32-47 | all indices that a tick returns lie in the level, and what it keeps is due within a shorter delay |
| Runs.DriftsTrans | mcc/level.go:392-398 | what ticks do to the cells composes over runs |
| Runs.EvolvesDrifts | mcc/level.go:392-398 | each tick and each cascade without a sponge edit is such a step |
| Runs.AgedQuiet | mcc/physics.go:32-47 | a tick that writes nothing brings everything queued one tick closer |
| Runs.StillQuiet | mcc/level.go:392-398 | and when everything queued was due at once, nothing is left |
| Runs.SweepStep | mcc/level.go:354-356 | the loop of AddSimulator keeps the cells it has passed without defect while it moves on |
| Laws.RiseIsHeight | mcc/level.go:210-220 | the height that the potential charges for a grain is its y coordinate |
| Laws.EditFrame | mcc/level.go:250-286 | an edit changes no hard cell, sponge or firm grain other than the edited cell, a hard block placed stays, a grain comes to a cell only from above it, and a cell is emptied only by a grain from there or by a placed sponge within two cells |
| Laws.EditFluids | mcc/physics.go:57-75 | besides the block placed, an edit brings new water only into border cells away from every sponge, active and queued, and never new lava |
| Laws.EditKeepsSettled | mcc/physics.go:228-257 | with sand physics, an edit never adds an unsettled cell and leaves none at or above the edited cell |
| Laws.GrainComesToRest | mcc/physics.go:228-244 | on a settled level, a placed grain comes to rest in the lowest cell of the shaft below it |
| Laws.GrainsNeverMultiply | mcc/physics.go:228-244 | no edit makes more sand or gravel, except that a grain put in place of a sponge, where the refill can disturb it, may become one grain more |
| Laws.ConservedIffNotTopped | mcc/physics.go:234-243 | on a settled level, grains are conserved by an edit if and only if no grain it lets fall has another directly above it; not covered is a grain put in place of a sponge where the refill can disturb it |
| Laws.SteadyUnlessTouched | mcc/physics.go:155-166 | on a settled level, the refill can disturb that grain exactly if it can fall and a gap of the border touches it |
| Laws.LoneFallExact | mcc/physics.go:228-244 | an edit of a settled level that lets one grain fall alone changes exactly: the landing holds it, the start is empty or flooded, and gaps of the border are flooded |
| Laws.CalmEditExact | mcc/level.go:250-286 | an edit that lets nothing fall then only floods gaps of the border |
| Laws.LostGrain | mcc/physics.go:234-243 | taking away the stone under two stacked grains leaves only one |
| Laws.SpongeDries | mcc/physics.go:141-153 | a sponge placed over another block leaves no water within two cells, even after all cascades |
| Laws.SpongeTakesOnlyWater | mcc/physics.go:141-153 | on a level where nothing can fall, a placed sponge takes only water, and only within two cells |
| Laws.EditKeepsDry | mcc/physics.go:57-166 | no edit wets a cell near a sponge unless it puts water there itself |
| Laws.EditKeepsFlooded | mcc/physics.go:57-75 | for every edit: a gap afterwards was one before, or the edit is an ignored replacement, the sponge kept the cell dry, and flooding from there never gets to it |
| Laws.GapsLeft | mcc/physics.go:57-75 | for every edit: only gaps of the written level out of reach of its sources are left: the cell, water around a placed sponge, gaps around a removed one |
| Laws.GapsLeftIff | mcc/physics.go:57-75 | where nothing can fall, exactly those are left, for every edit |
| Laws.OutsideRegion | mcc/level.go:250-286 | outside a region around the sources nothing changes, whatever can fall elsewhere |
| Laws.IgnoredSponge | mcc/physics.go:57-66 | a level on which replacing a sponge by air or active water leaves a gap |
| Laws.EditWriteBound | mcc/level.go:250-286 | how many cells a whole cascade writes, from the potential before and right after the edit |
| Laws.EditKeepsSound | mcc/level.go:250-286 | an edit keeps a level sound: grounded, settled, no wet cell, no gap |
| Laws.DriftKeepsSound | mcc/level.go:392-398 | so does any run of ticks |
| Laws.AlwaysSound | mcc/level.go:250-398 | safety: a sound level stays sound through any history of careful edits and ticks |
| Laws.TicksOnSettled | mcc/physics.go:78-219 | on a settled level any run of ticks floods air with the registered fluids, turns lava to stone by water and water to stone by lava, and air to stone only where both may come |
| Laws.SweptLevel | mcc/level.go:349-357 | after the sweep of AddSimulator nothing can fall, the border is flooded, or all lava is queued, by kind of simulator |
| Laws.NoNewGaps | mcc/level.go:349-357 | registering further simulators opens no gap |
| Laws.CascadeDry | mcc/physics.go:57-166 | a plain cascade wets no cell near a sponge and changes no hard cell |
| Laws.LavaStaysScheduled | mcc/level.go:349-357 | lava queued by one sweep stays queued through the next, and no lava is added |
| Levels.Level.constructor | mcc/level.go:113-145 | a new level is all air, with active water around it up to half its height |
| Levels.Level.SetBlock | mcc/level.go:250-286 | ends; writes the cell and marks the level as changed; everything after is physics, within reach of the cell; all simulators have updated the cell and its neighbours; no queue is thrown away while there is room for seven entries per unit of potential; without simulators nothing else changes, and outside the level nothing happens |
| Levels.Level.UpdateNeighbours | mcc/level.go:267-284 | all six neighbours that exist have been updated by every simulator |
| Levels.Level.UpdateBlock | mcc/level.go:382-390 | the cell is left without defect by a cascade that costs nothing beyond the potential; if it is neither a gap nor a grain that can fall, no cell changes |
| Levels.Level.RunSimulators | mcc/level.go:261-265 | the effects of all registered simulators hold together at the end |
| Levels.Level.SandUpdate | mcc/physics.go:228-244 | a grain falls to its landing in its own column, and only that column loses fluid; a grain that cannot fall, and any other block, is left alone; no access leaves the array |
| Levels.Level.WaterUpdate | mcc/physics.go:57-75 | water is queued under exactly the condition of the source, air in the border band (`Coordinates.EdgeMeans`) flooded, a placed sponge dries and a removed one refills its cube, and otherwise nothing happens |
| Levels.Level.CheckSponge | mcc/physics.go:113-126 | true if and only if some cell within two along each axis is a sponge |
| Levels.Level.SoakUp | mcc/physics.go:146-149 | water is replaced by air, with the cascade of that write; any other block is left alone |
| Levels.Level.PlaceSponge | mcc/physics.go:141-153 | no cell within two of the sponge holds water; while nothing can fall only water there is taken, and only what is reached from it changes; at most 250 writes beyond the potential |
| Levels.Level.RefillRow | mcc/physics.go:159-163 | one row of the cube is rescanned, in order, and its water queued again |
| Levels.Level.BreakSponge | mcc/physics.go:155-166 | within three cells no gap is left and all water is queued again; only what is reached from the gaps there changes; at most 343 entries are queued besides |
| Levels.Level.LavaUpdate | mcc/physics.go:176-180 | lava is queued with delay 30 under exactly the condition of the source; otherwise nothing happens |
| Levels.Level.WaterSpread | mcc/physics.go:128-139 | air away from sponges is set to active water, lava to stone, anything else is left alone |
| Levels.Level.WaterSpreadFrom | mcc/physics.go:86-101 | all five targets hold what belongs there, seen from before, and nothing else changed but gaps, if nothing could fall: lava of either kind is stone, air away from sponges active water |
| Levels.Level.WaterTick | mcc/physics.go:78-103 | the first n due cells have spread with exactly this effect, each because it held its water, and the tick stopped at the first that did not; the queue lost exactly the due entries |
| Levels.Level.LavaSpread | mcc/physics.go:210-219 | air is set to active lava, water to stone, anything else is left alone |
| Levels.Level.LavaSpreadFrom | mcc/physics.go:191-206 | if nothing could fall, no target is air or water of either kind any more: water is stone, air away from gaps active lava, a gap lava or stone; nothing else changed but gaps |
| Levels.Level.LavaTick | mcc/physics.go:183-208 | the first n due cells have spread with exactly this effect, and the tick stopped at the first that held no lava |
| Levels.Level.Tick | mcc/physics.go:78-247 | one tick of one simulator; with nothing due only the queue ages; if all entries hold the fluid and nothing can fall, it spreads from all that are due |
| Levels.Level.UpdateLevel | mcc/level.go:392-398 | all simulators tick; with nothing due all queues age by one; with only one fluid due, it spreads from all due cells; a quiet level stays as it is; no queue is thrown away while there is room |
| Levels.Level.RunUpdates | mcc/level.go:392-398 | quiescence: any number of updates writes at most the starting potential; 30 updates without a write empty the queues; so do 30 times one more than the potential; either fluid has then spread as far as it goes, if nothing can fall and the other does not flow; no queue is thrown away while there is room |
| Levels.Level.AddSimulator | mcc/level.go:349-357 | every cell has been updated, and stays so while later cells are; at most one entry per cell is queued besides those of the cascades; the fluid then flows, if nothing can fall and the other does not |
| Levels.Level.EnablePhysics | core/main.go:31-43 | from any grounded level: settled, border flooded, all lava queued, hard cells unchanged, no cell newly wet, hence sound if no water lay near a sponge; where nothing could fall only gaps have changed, and a fluid flows if the other was nowhere; no queue is thrown away while there is room |
| Levels.Level.RemoveSimulator | mcc/level.go:360-379 | exactly the one simulator goes, and no cell changes |
| Resting.AllFlow | mcc/physics.go:78-103 | while nothing can fall and all queued cells hold the fluid, no due cell is dropped |
| Resting.KeepsRunning | mcc/physics.go:78-103 | where nothing can fall and the other fluid does not flow, every tick of water or lava keeps: all queued cells hold the fluid, and all else of it has nowhere left to spread |
| Resting.CascadeKeepsRunning | mcc/level.go:250-286 | so does every cascade |
| Resting.EditKeepsRunning | mcc/level.go:250-286 | so does an edit with all it sets off, if it takes none of the fluid away and brings none that is still, and, for water, brings no lava, places no sponge and removes none unnoticed, for lava touches no sponge and leaves no water |
| Resting.NoLavaStays | mcc/physics.go:210-219 | where there is no lava, ticks of water and cascades bring none |
| Resting.EnabledStep | core/main.go:38-40 | registering one more simulator keeps what registering those before has achieved |
| Resting.SweptRunning | mcc/level.go:349-357 | registering the simulator of a fluid on a level where nothing can fall and the other does not flow establishes this |
| Resting.RunningQuiet | mcc/level.go:392-398 | with its queue empty, all of the fluid is closed in |
| Resting.WaterAtRest | mcc/physics.go:128-139 | in block numbers: at rest, no water has lava beside or below it, and air there only within two cells of a sponge |
| Resting.LavaAtRest | mcc/physics.go:210-219 | in block numbers: at rest, no lava has air or water of either kind beside or below it |
| Resting.SpreadCloses | mcc/physics.go:78-219 | water or lava that was due has nowhere left to go |
| Resting.NoWaterStays | mcc/physics.go:57-75 | where there is no water and none comes from the border, cascades and ticks of lava bring none |
| Resting.NoneFlow | mcc/physics.go:80-84 | where there is no water, a tick of the water simulator stops at its first due cell |
| Resting.RegisteredRuns | mcc/level.go:349-357 | registering any simulator keeps a fluid flowing, and registering its own sets it flowing |
| Turns.FluidTicks | mcc/physics.go:78-208 | one tick: with nothing due the queue only ages, and while nothing can fall the fluid spreads from all due cells that hold it |
| Turns.TurnStep | mcc/level.go:392-398 | the turns of the simulators in any order: what one fluid does in an update is not undone by the others while they have nothing due |
| Ledgers.LedgerEdit | mcc/level.go:250-286 | an edit queues at most seven entries for its write, and 343 more if it removes a sponge, besides those of its cascade |
| Ledgers.RefillingStep | mcc/physics.go:155-166 | one more cell around a removed sponge queues at most one entry |
| Ledgers.PotentialAtMost | mcc/physics.go:21-30 | a level has a potential of at most two per cell and three times its height per grain: a bound on what its physics can queue |
| Ledgers.EditRoom | mcc/physics.go:21-30 | an edit with its whole cascade throws no queue away if seven entries per unit of potential fit below 2^30 |
| Ledgers.DriftRoom | mcc/level.go:392-398 | nor does any number of updates |
| Ledgers.EnabledRoom | core/main.go:31-43 | nor does enabling physics, with two more entries per cell |
| Coordinates.BlockNumbers | mcc/block.go:4-23 | the numbers of air, stone, sponge, the fluids and the grains |
| Coordinates.IndexStrides | mcc/level.go:205-212 | cells are numbered along x, then z, then upwards |
| Coordinates.TouchesMeans | mcc/level.go:267-284 | touching cells differ by one along exactly one axis |
| Coordinates.SpreadsMeans | mcc/physics.go:86-101 | a fluid spreads to the four sides and straight down |
| Coordinates.CubeMeans | mcc/physics.go:113-126 | a cube holds the cells within r along each axis |
| Coordinates.SpongeMeans | mcc/physics.go:113-126 | a sponge is near if some block 19 lies within two along each axis |
| Coordinates.EdgeMeans | mcc/physics.go:105-111 | the border band: edge block 8 or 9, edgeHeight + sideOffset <= y < edgeHeight, and x or z at either end |
| Coordinates.GapMeans | mcc/physics.go:57-66 | a gap is air in that band with no block 19 within two along each axis |
| Coordinates.UnsettledMeans | mcc/physics.go:228-257 | a block 12 or 13 can fall if 0 or 8 to 11 is right below it |
| Coordinates.SettledMeans | mcc/physics.go:228-257 | a level is settled if no such block is anywhere |
| Coordinates.BorderFlooded | mcc/physics.go:57-66 | after the water simulator has been registered, no cell of the band is air unless a sponge is within two cells; where nothing can fall its air has become 8 |
| Coordinates.InnerAirStays | mcc/physics.go:57-66 | where nothing can fall, air at all other coordinates is still air |
| Scenarios.NewPool | mcc/level.go:113-145 | physics enabled on a new level of any size: 8 along all four sides in the two layers below half its height, 0 elsewhere |
| Scenarios.SmallPool | mcc/physics.go:105-111 | the level of 3 by 4 by 3: water on all four sides, air in the inner cell and above |
| Scenarios.SetAndGet | mcc/level.go:228-257 | without simulators a level is an array; beyond its upper bounds nothing is set and air is found |
| Scenarios.WaterArrives | mcc/physics.go:57-139 | where nothing can fall and nothing is queued, active water put into air reaches the air beside or below it on exactly the fifth update, if no sponge is within two cells of that |
| Scenarios.LavaArrives | mcc/physics.go:176-219 | active lava on exactly the thirtieth, if there is no water that flows |
| Scenarios.PendingAges | mcc/physics.go:32-47 | the updates before that change no cell |
| Scenarios.PendingArrives | mcc/physics.go:78-219 | the update at which it is due brings it to the target |
| UpdateQueues.UpdateQueue.Add | mcc/physics.go:21-30 | appends the entry while there are fewer than 1073741823, and throws a fuller queue away |
| UpdateQueues.UpdateQueue.Tick | mcc/physics.go:32-47 | the in-place compaction returns the due indices and keeps the others, both in order |
| UpdateQueues.Perform | mcc/physics.go:21-47 | any run of add and tick on a queue returns and leaves what the run-level function says |
| UpdateQueues.TickOnOutstanding | mcc/physics.go:32-47 | a tick of the entries outstanding at time n returns those with deadline n+1 and keeps those outstanding at n+1 |
| UpdateQueues.DeliveredOnTime | mcc/physics.go:21-47 | over any run, each entry comes out once, on exactly its tick, in order of addition |
| UpdateQueues.Accounted | mcc/physics.go:21-47 | what was returned plus what is queued never exceeds what was added, and equals it only if nothing was thrown away |
| UpdateQueues.OnTimeIffNeverFull | mcc/physics.go:21-47 | with positive delays a run is on time if and only if no addition met a full queue |
| UpdateQueues.FewOnTime | mcc/physics.go:8-47 | a run with fewer than 2^30 additions delivers all of them on time |
| UpdateQueues.OverflowDropsAll | mcc/physics.go:25-29 | adding to a queue of 1073741823 entries leaves it empty: neither the old entries nor the new one come out |
| BlockBuffers.BlockBuffer.constructor | mcc/level.go:409-411 | a new buffer has nothing pending |
| BlockBuffers.BlockBuffer.Set | mcc/level.go:414-421 | level plus pending writes changes as by a direct write; at 256 writes they reach the level, which is then marked as changed; indices survive the 32-bit table |
| BlockBuffers.BlockBuffer.Flush | mcc/level.go:424-451 | the level receives the pending writes in call order and is marked as changed, and nothing is pending |
| BlockBuffers.Perform | mcc/level.go:414-451 | after any run of Set and Flush, applying what is pending gives the array that direct writes in call order give |
| BlockBuffers.DirectReads | mcc/level.go:414-421 | in that array each cell holds the block last written at its own coordinates |
| LevelStreams.LevelStream.Reset | mcc/packet.go:740-744 | an empty chunk with its header |
| LevelStreams.LevelStream.Send | mcc/packet.go:746-757 | one more packet of 1028 bytes: type 3, the length with its high byte first, the buffered bytes, zeros and the percentage; sent plus buffered is unchanged |
| LevelStreams.LevelStream.Write | mcc/packet.go:765-782 | sent plus buffered grows by exactly the bytes written; every packet sent is full |
| LevelStreams.LevelStream.Close | mcc/packet.go:759-763 | the packets carry exactly the input; every packet is valid and only the last may be short |
| LevelStreams.FinishedChunk | mcc/packet.go:746-754 | padding, percentage and length bytes make a valid chunk, from which a client reads the buffered bytes |
| LevelStreams.PacketsDetermined | mcc/packet.go:759-782 | the payloads are the input cut at every 1024 bytes, however it was split among the calls of Write |
| LevelStreams.ChunkSizes | mcc/packet.go:765-782 | where each payload begins and ends: every 1024 bytes |
| WordWraps.LastSpace | mcc/utils.go:89-91 | the index of the last space, or a negative number if there is none |
| WordWraps.WrapLine | mcc/utils.go:84-101 | ends for every width, and its output is the line broken as late as possible |
| WordWraps.WordWrap | mcc/utils.go:82-105 | each line is wrapped on its own; joining gives the message with spaces for newlines; each piece fits or has no space early enough |
| WordWraps.WrappedJoins | mcc/utils.go:97-101 | joining the pieces of a line with single spaces gives it back |
| WordWraps.WrappedUnique | mcc/utils.go:84-101 | there is only one way to wrap a line like that |
| WordWraps.LatestBreak | mcc/utils.go:89-95 | no later space would fit, and a break beyond the width is taken only if no space fits |
| WordWraps.WrappedFits | mcc/utils.go:84-101 | each piece is at most width long or has no space in its first width+1 characters |
| WordWraps.SplitJoins | mcc/utils.go:83 | splitting at newlines and joining with spaces turns each newline into a space |
| WordWraps.AllWrappedJoins | mcc/utils.go:82-105 | the pieces of all lines, joined, are the lines joined |
| WordWraps.AllFit | mcc/utils.go:82-105 | the bound on the pieces holds for all lines together |
| WordWraps.Greedy | mcc/utils.go:84-98 | a piece that fits could not have taken the first word of the next one |
| WordWraps.TooLong | mcc/utils.go:89-98 | a piece that is too long is followed by one last piece without spaces |
| WordWraps.SplitLines | mcc/utils.go:83 | the lines contain no newline, and put together with newlines they are the message |
| Colors.Player.ConvertColor | mcc/player.go:159-179 | 0-9 and a-f stay, A-F become the small letter with the same place in the alphabet, any other code the code or fallback of the first custom colour with it; false if there is none |
| Colors.Player.ConvertMessage | mcc/player.go:181-196 | the index loop computes the recursive conversion of the message; a message without & and % stays as it is |
| Colors.OutputWellEscaped | mcc/player.go:181-196 | in the output every & or % but a final one belongs to an escape with a code that the conversion produced |
| Colors.ConvertedTwice | mcc/player.go:181-196 | if produced colours are stable, a second conversion changes nothing |
| Colors.IdempotentIffStable | mcc/player.go:159-196 | conversion is idempotent on all messages if and only if every produced colour stays as it is |
| Colors.StandardFallbacks | mcc/player.go:168-176 | it is for clients with text colours, and for all clients when fallbacks are 0-9 or a-f |
| Colors.PlainUnchanged | mcc/player.go:181-196 | a message without & and % is its own conversion |
| Colors.ConvertedEscape | mcc/player.go:159-190 | one escape becomes & and its converted code, or nothing |
| Colors.ConvertedConcat | mcc/player.go:181-196 | the conversion of two messages sent as one splits, if the first does not end inside an escape |
| Colors.SplitsIffComplete | mcc/player.go:181-196 | and for every second message only then |
| Colors.EndsOutside | mcc/player.go:185 | a message that does not end in & or % does not |
| Colors.ConvertedExamples | mcc/player.go:159-196 | "&CHi" becomes "&cHi", and "50%" stays |
| Entities.Server.GenerateID | mcc/server.go:514-530 | the lowest id that no entity has, or 0xff when all are taken |
| Entities.Server.AddEntity | mcc/server.go:267-280 | succeeds if and only if fewer than 255 entities are registered; ids stay distinct and below 0xff |
| Entities.Server.RemoveEntity | mcc/server.go:283-306 | exactly the one entity goes; ids stay distinct |
| Entities.Server.FindEntityByID | mcc/server.go:323-334 | the registered entity with the id, or none if no entity has it |
| Entities.DistinctIds | mcc/server.go:514-530 | distinct ids below a limit are at most that many |
| Entities.AllTaken | mcc/server.go:514-530 | if every id below the limit is taken there are at least that many entities |
| SwapRemoval.RemovesOne | mcc/server.go:299-301 | moving the last element into the hole removes exactly the one element |
| SwapRemoval.KeepsOthers | mcc/server.go:299-301 | all others stay and the list stays free of repetitions |
| Admission.StepKeeps | mcc/player.go:734-781 | each atomic step of login and Disconnect keeps the count equal to what the connections contribute, and within the maximum |
| Admission.RunKeeps | mcc/player.go:734-781 | so does every interleaving of any number of connections |
| Admission.NeverOverfull | mcc/player.go:751-761 | the count never exceeds the maximum |
| Admission.NeverUndercounted | mcc/player.go:78-101 | while no two calls of Disconnect find the same player in the game, the count covers the players in the game |
| Admission.AtomicDepartsOnce | mcc/player.go:87-88 | if the test and the closing are one step, no player departs twice |
| Admission.AtomicNeverUndercounted | mcc/player.go:78-101 | and then the count always covers the players in the game |
| Admission.DoubleDisconnect | mcc/player.go:87-99 | with any number of connections and places, a run of the separate steps after which the count is -1 |
| Admission.CoversIffNobodyPlays | mcc/player.go:78-101 | with the separate steps, every run counts at least the players in the game if and only if there are no places or no connections |
| Admission.CountWhenIdle | mcc/player.go:78-101 | when no call is in progress, the count is the players, plus places lost, minus players counted off too often; right exactly if these make up for each other |
| Admission.Filled | mcc/player.go:746-767 | with max places, any number of players up to max can get into the game |
| Admission.AtomicCountWhenIdle | mcc/player.go:78-101 | with test and closing as one step, the count is then right exactly if every counted connection is in the game or was counted off |
| Admission.PlaceWithoutEntity | mcc/player.go:774-777 | a run in which a login that finds no entity id keeps its place for good |
| Admission.PlaceOfLateClose | mcc/player.go:78-101 | a run in which a Disconnect decided before login had finished keeps the place for good |
| BigEndian.UnsignedWord | mcc/nbt.go:86-108 | an unsigned number that fits its word is read back |
| BigEndian.SignedWord | mcc/nbt.go:90-100 | a signed number that fits its word is read back |
| BigEndian.SignedWordsOf | mcc/nbt.go:199-213 | so is every array of them |
| BigEndian.WordByte | mcc/nbt.go:90-108 | byte i of a word of k bytes is n / 256^(k-1-i) modulo 256: the highest comes first |
| BigEndian.WordsAt | mcc/nbt.go:199-213 | the words of an array follow each other in order |
| NbtWriter.NbtEncoder.WriteList | mcc/nbt.go:126-147 | succeeds exactly for lists of writable elements, and then appends their bytes in order |
| NbtWriter.NbtEncoder.WriteEntries | mcc/nbt.go:160-165 | succeeds exactly for maps of writable values, and then appends one tag per entry |
| NbtWriter.NbtEncoder.WriteFields | mcc/nbt.go:167-194 | embedded maps are spliced in, fields tagged with a hyphen left out, the others written under their names |
| NbtWriter.NbtEncoder.WritePayload | mcc/nbt.go:215-248 | succeeds exactly for writable values, and then appends exactly the payload |
| NbtWriter.NbtEncoder.WriteTag | mcc/nbt.go:250-269 | succeeds exactly for values with a tag type, looking into interfaces, and appends the whole tag |
| NbtWire.TagNumbers | mcc/nbt.go:52-84 | the tag number of every type, as a number |
| NbtWire.TagLayout | mcc/nbt.go:250-269 | a tag is its number, the length of its name in two bytes, the name and the payload |
| NbtWire.NumberPayloads | mcc/nbt.go:86-108 | the bytes of each kind of number |
| NbtWire.SeriesPayloads | mcc/nbt.go:110-213 | strings have their length in two bytes before them, arrays in four |
| NbtWire.IntElement | mcc/nbt.go:199-205 | the bytes of each element of an array of 32-bit integers |
| NbtWire.LongElement | mcc/nbt.go:207-213 | and of 64-bit integers |
| NbtWire.ContainerPayloads | mcc/nbt.go:126-240 | a list is the tag number of its elements, their count in four bytes and the elements; a map or struct is its tags and a zero byte |
| NbtWire.ElemsFollow | mcc/nbt.go:140-144 | between the elements of a list there is nothing |
| NbtWire.EntriesFollow | mcc/nbt.go:160-165 | nor between the entries of a map |
| NbtWire.FieldsFollow | mcc/nbt.go:167-194 | nor between the fields of a struct |
| NbtWire.FieldLayout | mcc/nbt.go:168-193 | a field is spliced in, left out, or written under its struct tag or else its name |
| NbtWire.SmallTags | mcc/nbt.go:250-269 | all bytes of a short tag and of a small struct |
| NbtDecoders.NbtDecoder.ReadString | mcc/nbt.go:320-332 | the reader's result on every stream, including a stream that ends early and a negative length |
| NbtDecoders.NbtDecoder.ReadArrayBody | mcc/nbt.go:309-318 | the body, an error on a short stream, or a panic on a negative length |
| NbtDecoders.NbtDecoder.ReadPlainPayload | mcc/nbt.go:410-444 | each kind of plain payload, and an error for an unknown tag |
| NbtDecoders.NbtDecoder.ReadPayload | mcc/nbt.go:410-451 | the step-by-step reader reaches what the recursive one describes; the error of a list is swallowed |
| NbtDecoders.NbtDecoder.ReadList | mcc/nbt.go:334-343 | element tag, length and elements |
| NbtDecoders.NbtDecoder.ReadElems | mcc/nbt.go:345-356 | the loop appends each element to the target |
| NbtDecoders.NbtDecoder.ReadCompound | mcc/nbt.go:359-386 | tags are read into the target until the end tag; an interface receives a new map |
| NbtDecoders.NbtDecoder.ReadTag | mcc/nbt.go:453-520 | the payload goes to the field, the map entry or nowhere, also as far as it was read before an error |
| NbtDecoders.NbtDecoder.LocateSlot | mcc/nbt.go:467-512 | the first field whose name matches ignoring case, else the first embedded map, else nothing |
| NbtFaults.TextFaults | mcc/nbt.go:320-332 | which streams make a string fail or panic, by their bytes |
| NbtFaults.ArrayFaults | mcc/nbt.go:309-408 | the same for arrays |
| NbtFaults.UnknownTag | mcc/nbt.go:442-444 | an unknown tag number is an error that reads nothing |
| NbtFaults.WrongNumber | mcc/nbt.go:446-448 | a number for a target of another type is a panic, and without a target it is skipped |
| NbtFaults.ListErrorSwallowed | mcc/nbt.go:430-435 | a list that ends early is no error and leaves the target alone |
| NbtFaults.NegativeList | mcc/nbt.go:345 | a list of negative length has no elements |
| NbtFaults.ListWithoutTarget | mcc/nbt.go:346 | a list with elements but without a target is a panic |
| NbtFaults.CaseIgnored | mcc/nbt.go:470-479 | a tag named in another case fills the field |
| NbtFaults.ArrayIffShort | mcc/nbt.go:110-318 | an array of bytes is read back if and only if it has fewer than 2^31 of them |
| NbtFaults.EntryReplaced | mcc/nbt.go:514-517 | a tag whose name the map already has replaces its value, and every other entry stays |
| NbtRoundTrip.TextThen | mcc/nbt.go:118-124 | a text under 2^15 bytes is read back and leaves what followed |
| NbtRoundTrip.TextIffShort | mcc/nbt.go:118-124 | a text is read back if and only if it is under 2^15 bytes, although the writer accepts all |
| NbtRoundTrip.PlainThen | mcc/nbt.go:215-248 | every payload without parts whose length fits is read back and leaves what followed |
| NbtRoundTrip.TagThen | mcc/nbt.go:250-269 | reading a written tag stores what its payload reads as |
| NbtRoundTrip.PayloadRoundTrip | mcc/nbt.go:215-451 | for every supported shape and value, reading the written payload gives the value back and leaves exactly what followed |
| NbtRoundTrip.ElemsRoundTrip | mcc/nbt.go:126-147 | the same for the elements of a list, from any point on |
| NbtRoundTrip.EntriesRoundTrip | mcc/nbt.go:149-165 | the same for a map, in whatever order its entries are written |
| NbtRoundTrip.EmbeddedRoundTrip | mcc/nbt.go:170-178 | the same for an embedded map, whose entries stand among the fields of the struct |
| NbtRoundTrip.FieldRoundTrip | mcc/nbt.go:180-193 | a written field fills exactly its own place |
| NbtRoundTrip.FieldsRoundTrip | mcc/nbt.go:167-194 | the same for all fields of a struct, from any point on |
| NbtRoundTrip.MarshalRoundTrip | mcc/nbt.go:32-42 | NbtMarshal then NbtUnmarshal into a struct with such a field fills that field |
| NbtRoundTrip.NamesSuffice | mcc/nbt.go:470-479 | field names that are distinct ignoring case lead back to their own fields |
| NbtRoundTrip.SkipPayload | mcc/nbt.go:410-451 | without a target, a payload without lists is consumed exactly, however nested |
| NbtRoundTrip.SkipEntries | mcc/nbt.go:467-495 | tags that the target has no place for leave it unchanged |
| NbtRoundTrip.UnknownTagsIgnored | mcc/nbt.go:359-386 | inserting unknown tags among the tags of a compound changes neither the struct nor what is read after it |
| NbtRoundTrip.WrittenFieldsAreWholeTags | mcc/nbt.go:180-193 | a written field is such a place to insert after |
| NbtRoundTrip.WholeTagsCompose | mcc/nbt.go:380-385 | and so is a series of them |
| ClassicWorld.FacePermutation | mcc/cwstorage.go:74-78 | the table of faces is a permutation, with its inverse |
| ClassicWorld.EncodeTextures | mcc/cwstorage.go:306-309 | low and high byte of each face's texture at the face's position |
| ClassicWorld.DecodeTextures | mcc/cwstorage.go:239-247 | the number of each face from six or twelve bytes, or zero from fewer |
| ClassicWorld.TexturesRestored | mcc/cwstorage.go:239-309 | textures 0..65535 come back through the permutation and the byte split |
| ClassicWorld.EncodeDefinition | mcc/cwstorage.go:286-317 | what a definition is stored as |
| ClassicWorld.DecodeDefinition | mcc/cwstorage.go:228-259 | what a stored definition is loaded as, for arrays of any length |
| ClassicWorld.DefinitionRestored | mcc/cwstorage.go:228-317 | every field comes back, except that the fallback is lost and the speed is rounded |
| ClassicWorld.ColorRestored | mcc/cwstorage.go:25-39 | a valid colour comes back, an invalid one as the zero one |
| ClassicWorld.DefKeyInjective | mcc/cwstorage.go:319 | different ids have different keys |
| ClassicWorld.SaveDefs | mcc/cwstorage.go:281-322 | one entry for each definition and no other |
| ClassicWorld.CountIds | mcc/cwstorage.go:216-221 | one more than the highest id, or 0 |
| ClassicWorld.LoadDefs | mcc/cwstorage.go:215-263 | each index holds the definition visited last with that id, or none |
| ClassicWorld.DefsRestored | mcc/cwstorage.go:215-322 | whatever order the map is visited in, each definition is restored at its id, and only trailing empty places are lost |
| ClassicWorldFile.LevelSupported | mcc/cwstorage.go:41-112 | the shape of the whole file survives NBT: ignoring case, all field names are distinct |
| ClassicWorldFile.SavedGood | mcc/cwstorage.go:281-322 | the keys of the saved definitions are distinct and taken for no field |
| ClassicWorldFile.LevelGood | mcc/cwstorage.go:324-366 | every storable level makes a file value that fits |
| ClassicWorldFile.FileRoundTrip | mcc/cwstorage.go:103-112 | such a file value is read back, and nothing after it is touched |
| ClassicWorldFile.SaveThenLoad | mcc/cwstorage.go:137-366 | saving then loading: the file value is read back, and the level and every block definition are restored, whatever the order of writing and of visiting the map |
| ClassicWorldFile.LevelLoaded | mcc/cwstorage.go:158-213 | every part of a level comes back in its own place; which of them a new level or the correction of old spawns replaces |
| ClassicWorldFile.ColorsLoaded | mcc/cwstorage.go:196-202 | the five environment colours come back, each in its own place |
| ClassicWorldLayout.ColorLayout | mcc/cwstorage.go:25-31 | r, g and b stand in R, G and B; an invalid colour is three times -1 |
| ClassicWorldLayout.SpawnLayout | mcc/cwstorage.go:354-360 | each number of the spawn under its name |
| ClassicWorldLayout.EnvColorsLayout | mcc/cwstorage.go:327-334 | each environment colour under its name |
| ClassicWorldLayout.AppearanceLayout | mcc/cwstorage.go:335-341 | texture pack, side and edge blocks and the edge height under their names |
| ClassicWorldLayout.CpeLayout | mcc/cwstorage.go:324-344 | the extensions under their names with the versions that Load expects, and the embedded metadata |
| ClassicWorldLayout.LevelLayout | mcc/cwstorage.go:346-366 | each part of a level under its name |
| ClassicWorldLayout.FileStarts | mcc/cwstorage.go:346 | the first fifteen bytes of a file |
| ClassicWorldLayout.OtherFormat | mcc/cwstorage.go:157-164 | a file of another version is refused, and only such a file or one without a name |
| ClassicWorldLayout.OtherExtensions | mcc/cwstorage.go:192-213 | extensions of another version are left as a new level has them |
| ClassicWorldLayout.ComesBack | mcc/cwstorage.go:158-213 | a level with nothing to replace comes back whole |
| ClassicWorldLayout.Replaced | mcc/cwstorage.go:166-190 | what is replaced otherwise, and by what |
| ClassicWorldLayout.TextureBytes | mcc/cwstorage.go:74-78 | whose byte is where: top, bottom, -x, +x, -z, +z, low bytes before high ones |
| ClassicWorldLayout.TexturesFrom | mcc/cwstorage.go:239-247 | and where each face is read from, with six bytes or twelve |
| ClassicWorldLayout.DefinitionLayout | mcc/cwstorage.go:286-317 | each value of a definition under its name; a block that gives light lets none through |
| ClassicWorldLayout.KeyNumber | mcc/cwstorage.go:319 | the key of a definition is Block and its number in decimal, without leading zeros |
| ClassicWorldLayout.LastDefinitionCounts | mcc/cwstorage.go:226-262 | of several definitions with one id the one visited last counts |

## Left out

- Simulators as separate objects: a level has at most one simulator of each kind, and the water and lava queues are fields of the level. Two sand simulators on one level would each move the same grain.
- Levels.Level.SetBlock: negative coordinates and edits that leave a grain without a floor are preconditions, because the source would then index outside the array; the calls that send the change to players are not modelled.
- Laws.AlwaysSound: speaks of careful edits; an edit that places water next to a sponge, opens a floor, or replaces a sponge without notice while border air is out of reach of the flooding may break soundness by itself.
- Levels.Level.WaterTick: the effect on the targets together is stated for levels on which no grain can fall meanwhile; for others each single spread is exact, but a falling grain may change a target afterwards.
- Levels.Level.LavaTick: the same for lava.
- Laws.ConservedIffNotTopped: does not say when a grain put in place of a sponge, touched by a gap of the border, becomes two; only that it becomes at most two.
- Laws.GapsLeftIff: while grains can fall, the two directions are stated apart, by GapsLeft and OutsideRegion.
- Resting.KeepsRunning: not for levels on which both fluids flow, where a due cell may have become stone and the cells after it are dropped, or grains can fall, which may cover a due cell.
- Scenarios.WaterArrives: for one cell of fluid on a level with nothing else queued, away from the border band, and small enough for its queues.
- Scenarios.LavaArrives: the same.
- Admission.NeverUndercounted: needs that no player is found in the game twice; the converse does not hold run by run, because other connections may make up for the missing count.
- Admission: name checks, plugin events and calls of login after the first on one connection; two concurrent logins with the same name are possible in the source (`mcc/player.go:746-749`).
- NbtRoundTrip.PayloadRoundTrip: lists, structs and typed maps inside interfaces, lists of interfaces, fields tagged with a hyphen and types without a tag are not supported shapes; nil and empty slices and maps are the same value.
- NbtRoundTrip.UnknownTagsIgnored: payloads with lists are excluded, because skipping a list without a target panics in the source (`mcc/nbt.go:346`).
- strings.ToLower: an arbitrary function in the NBT modules and the ASCII one for whole files; no Unicode case folding.
- NbtWriter.NbtEncoder.WriteTag: a nil interface, on which the source panics, is not among the values.
- Floating-point numbers: bit patterns in NBT; the rounding of a block's speed to single precision is an arbitrary function.
- ClassicWorldFile.SaveThenLoad: positions, view angles and reach distance are numbers already in the file's units, so their scaling and truncation to 16 bits are not modelled, and the block array and identifier are sequences without a fixed length; with a missing creation time that of the new level stays, and the failure of the file system call there (`mcc/cwstorage.go:186-188`) is not modelled.
- WordWraps.WordWrap: negative widths are excluded (below -1 the source slices out of range); messages are sequences of bytes, not of Unicode characters.
- LevelStreams.LevelStream.Write: the percentage is a given byte; its computation and the socket are left out.
- BlockBuffers.BlockBuffer.Flush: the packets sent to players are left out; a level has at most 2^31 cells.
- SetBlockFast, FillLayers and Clone: they bypass the simulators or copy the array.
- Locks and concurrent access to a level: each call of the physics is sequential.
- Overflow of Go's int in coordinates, indices and counters.
- Sockets, compression, files, heartbeat, logging, name verification, chat commands, moderation and the database of the core plugin, fixed-layout packets, permissions and environment packets, pings, reach distance: input and output or flat field lists.
- Resting.CascadeKeepsRunning: like all results about queued entries, for the case that no full queue was thrown away; `Ledgers` says when that is so.
