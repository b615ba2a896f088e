# Matchmaking engine: model and proofs

A Dafny 4.11 model of the matchmaking service: the bucketed FIFO pool, the harvest with
rollback, the ten-player team optimiser and its tolerance gate, the threads and locks
around them, snapshot and stream recovery, the write-behind delivery of formed matches,
and the match tables. `dafny verify dfyconfig.toml` checks everything.

| file | module | what it covers |
|---|---|---|
| `Base.dfy` | `Base` | sequence and multiset facts, sorting |
| `TeamSplit.dfy` | `TeamSplit` | penalties of a split, for any team size; the choice among the ten-bit masks |
| `Optimizer.dfy` | `Optimizer` | the optimiser loops, what the reported match is, the tolerance |
| `Buckets.dfy` | `Buckets` | the pool as a value: placement, taking out, putting back, counting |
| `Pool.dfy` | `MatchPool` | the pool object over an array of queues: enqueue, harvest, rollback, snapshot |
| `Worker.dfy` | `Worker` | one round of a worker: density test, harvest, gate |
| `Gate.dfy` | `Gate` | on which grids the tolerance gate never refuses a harvest |
| `Drain.dfy` | `Drain` | whole runs of one worker: the carousel drains the pool |
| `Custody.dfy` | `Custody` | who holds each enqueued player, over any interleaving, crash and restart |
| `Engine.dfy` | `Engine` | threads, mutexes, program counters and metric counters on top of `Custody` |
| `Schedules.dfy` | `Schedules` | concrete schedules of the threads where documented claims fail |
| `Anchors.dfy` | `Anchors` | when a lone worker's anchor is the oldest of its window |
| `Carousel.dfy` | `Carousel` | a lone worker among the other threads runs as in `Drain`: the drain bound over the threads |
| `Service.dfy` | `Service` | the threads and the delivery as one machine: what a published event comes to |
| `Delivery.dfy` | `Delivery` | inline attempts, retry queue, sync stream, consumer group, poller |
| `Tables.dfy` | `Tables` | users, matches and match_players under transactions |
| `SnapshotFiles.dfy` | `SnapshotFiles` | snapshot files, crash points, pruning, loading |
| `Streams.dfy` | `Streams` | decoding of stream replies, one ingest batch |

Two layers meet in the middle. The pool, the optimiser, the tables, the snapshot directory
and the parsers are imperative, each method proved against a function of its inputs or of
the state before it; those functions then carry the theorems. The running service is a pair
of state machines whose steps are single critical sections or single network operations,
and the theorems about it hold in every state any run can reach. `Engine` refines
`Custody` (`Engine.Refines`): each of its steps does to the players exactly one `Custody`
operation or none. `Service` joins `Engine` and `Delivery`: a worker's acceptance at the
gate hands its match to its delivery, its deferral fills the retry queue, and a crash stops
both. `Service.EndToEnd` follows every published event through all of it.

Each enqueue carries two names the program does not store: a token of its own and the
position of its stream event. They let a proof tell apart two enqueues of the same user,
which the service permits.

## Where the code and its documentation differ

The model follows the code.

- README.md:29 calls the tolerance capped. The code has no cap; its 32-bit arithmetic
  wraps after 42,949,672,500 ms, where the tolerance falls to 4
  (`Optimizer.ToleranceIsLinear`).
- README.md:43-46 credits ascending lock order for the absence of deadlock. The visiting
  order starts at the anchor and is not ascending; there is no deadlock because a thread
  holds one mutex at a time and never waits while holding it (`Engine.OneMutexEach`,
  `Engine.NoDeadlock`).
- src/matcher.rs:260-261 says a failed harvest preserves FIFO order. Over all runs that
  is so exactly with one worker (`Schedules.FifoIffOneWorker`); with more, a schedule of the
  threads reorders a bucket for any stride, on every grid with buckets of 256 or wider or
  whose last bucket starts below 2^31 - 255 (`Schedules.TwoWorkersReorder`).
- src/matcher.rs:280-281 and README.md:50-53 say the oldest player is always included. The
  peek locks one bucket after another, so players can join behind it. With one worker the
  first in hand at the gate is the oldest of the window over all runs exactly when STRIDE
  is 1 or at least NUM_BUCKETS, or STRIDE * BUCKET_WIDTH is at least 2^31, so that no
  rating lies past the first window (`Anchors.AnchorIffClosed`); the grid of .env.example
  is none of these. Otherwise the density test can pass on a border while the window is
  empty, and two who join during the peek are seen in the wrong order
  (`Anchors.AnchorIsOvertaken`). Nobody who was waiting when the peek began is ahead of
  the first in hand, on any grid (`Engine.AnchorIsOldest`).
- src/main.rs:551-553 and README.md:146-147 say recovery skips nobody. Given the cursor
  and snapshots assumed below, a restart leaves behind exactly the players who were in a
  worker's hands when their bucket was copied, whose events lie behind the snapshot's
  cursor, whom the snapshot did not save under a repeated enqueue, and who have not been
  matched (`Custody.RestartLoses`, `Engine.CrashLoses`); at the first restart no enqueue is
  repeated and the third clause falls away (`Custody.FirstRestartLoses`,
  `Engine.FirstCrashLoses`). `Schedules.HeldPlayersAreLost` is such a schedule.
- Two further losses lie outside that account. With no snapshot on disk the cursor is `"$"`
  (src/main.rs:470), so a crash before the first snapshot loses everybody published until
  then; the assumption below excludes it. And src/matcher.rs:17-28 says a deferred match is
  never discarded, but the retry queue is in memory. A process crash loses exactly the
  matches in memory that no pipeline had brought to the stream, not even one that reported
  an error, and nothing else loses one (`Delivery.GoneStep`, `Delivery.CrashForgets`,
  `Delivery.CrashSpares`); `Service.EndToEnd` names them, as `Delivery.Gone`.
- The density test at src/matcher.rs:380-391 can pass on border players alone; the harvest
  then finds no anchor in the window and returns nothing (`Worker.FastFailIsExact`).
- README.md:177-178 and src/db.rs:99-100 describe redelivery as absorbed by the match id.
  Only match rows skip conflicts. A redelivery changes nothing exactly when one of its
  players is still playing, or it names someone twice (`Tables.AbsorbedIff`); after the
  match has ended it stores active rows for an ended match (`Tables.LateRedelivery`). The
  constraint on positions mentioned there does not exist.
- Nothing refuses SNAPSHOTS_KEPT=0, which deletes every snapshot as soon as it is written
  (`SnapshotFiles.LoadedIffKept`).

## What the proofs assume

- The harvest, the round, the worker loop and the thread machine are modelled for every
  positive STRIDE, as the program allows. Two results need STRIDE to be at most
  NUM_BUCKETS, because a longer window lists a bucket twice and the density test then
  counts it twice: the exactness of that test and the shape of the visiting order.
- Ratings read from the stream are 32-bit signed integers, clamped at zero when negative;
  an event of `Engine` carries the clamped one. Facts about reported team sums need
  ratings below 2^31, which the clamp gives.
- The read cursor is a position in the ingest stream, and trimming never passes the cursor
  of the newest snapshot. The program trims by age instead, at twice the snapshot interval.
- A snapshot was written before each crash. The model starts with an empty one at the
  beginning of the stream, which stands for it.
- The consumer group exists before the first stream entry is added.
- The clock never goes back; a harvested player's wait is measured once.
- Batches stored name users the users table has issued.

## Model

| member | source | states |
|---|---|---|
| TeamSplit.SortedPairingIsOptimal | src/matcher.rs:219-225 | For two teams of any equal size, pairing them in sorted order costs no more than any other one-to-one pairing (one-dimensional optimal transport). |
| TeamSplit.SanctionIsLeast | src/matcher.rs:219-225 | The sanction score is the minimum of the total difference over all one-to-one pairings of the two teams, and some pairing attains it. |
| TeamSplit.SanctionDominatesGap | src/matcher.rs:215-227 | The macro gap never exceeds the sanction score, and every penalty is even. |
| TeamSplit.BitAt | src/matcher.rs:203-205 | Bit i of the model's bit string is what the shift-and-test reads from the mask. |
| TeamSplit.BitsOfMask | src/matcher.rs:193-196 | Every bit string is the expansion of a mask in range, so the scan misses no split. |
| TeamSplit.PickPartitions | src/matcher.rs:203-213 | The two sides of any split are together exactly the group, nobody twice. |
| TeamSplit.ChosenIsUnique | src/matcher.rs:227-232 | Least penalty with the smaller mask on ties determines one mask. |
| TeamSplit.ChosenIsOptimal | src/matcher.rs:193-233 | No balanced split of the ten has a lower penalty than the chosen mask. |
| TeamSplit.ComplementSymmetry | src/matcher.rs:203-227 | Mask and 1023 - mask have the same penalty. |
| TeamSplit.TenthOnTeamB | src/matcher.rs:227-242 | The chosen mask is below 512: the tenth harvested player is always on team B. |
| TeamSplit.OptimumIgnoresOrder | src/matcher.rs:193-233 | Two orders of the same ten ratings have the same least penalty. |
| TeamSplit.ChoiceIgnoresShift | src/matcher.rs:193-233 | Adding a constant to every rating keeps the chosen mask, its gap and its penalty. |
| TeamSplit.PairSplit | src/matcher.rs:215-227 | For any even number of ratings some balanced split costs at most twice the sum of neighbouring gaps in sorted order. |
| TeamSplit.GapWithinPairs | src/matcher.rs:217-231 | The chosen split's team gap is at most the sum of neighbouring-pair gaps, hence at most max - min. |
| TeamSplit.GapWithinRange | src/matcher.rs:217-245 | If all ratings lie within a range, so does the chosen gap, and the reported spread lies within a fifth of it. |
| Optimizer.MaskBound | src/matcher.rs:189-191 | No penalty reaches the initial i64 maximum and no spread overflows its u32. |
| Optimizer.Deal | src/matcher.rs:199-213 | The dealing loop yields the two sides of the mask in group order and the first side's sum. |
| Optimizer.SumDifferences | src/matcher.rs:222-225 | The loop computes the position-by-position distance. |
| Optimizer.Score | src/matcher.rs:215-227 | One pass of the scan computes the gap and penalty of its mask. |
| Optimizer.BestMask | src/matcher.rs:189-233 | The scan returns the smallest mask of least penalty and that mask's gap. |
| Optimizer.BuildTeams | src/matcher.rs:235-243 | The rosters are the two sides of the mask with ratings stored as i32. |
| Optimizer.OptimizeSplit | src/matcher.rs:186-255 | The result is the match given by the unique best split, with its spread. |
| Optimizer.OutcomeIsLeast | src/matcher.rs:193-242 | From the ratings alone: some pairing of the two reported sides costs, with the difference of their sums, no more than any pairing of any two teams of five making up the group, and any pairing of the sides of a smaller five-bit mask costs more. |
| Optimizer.TeamsPartition | src/matcher.rs:235-243 | The reported teams are five and five, together exactly the ten, with the tenth player last on team B. |
| Optimizer.SpreadFromTeams | src/matcher.rs:244-245 | The reported spread is a fifth of the difference of the reported teams' rating sums. |
| Optimizer.SpreadWithinRange | src/matcher.rs:244-245 | The spread of a group is at most a fifth of its rating range. |
| Optimizer.ToleranceIsLinear | src/matcher.rs:170-174 | The tolerance equals 50 + 10 per 100 ms exactly while the wait is below 42,949,672,500 ms; there it is 4. |
| Optimizer.ToleranceWraps | src/matcher.rs:170-174 | At any wait the tolerance is 50 and ten per full tenth of a second, modulo 2^32. |
| Optimizer.LongWaitAdmitsAll | src/matcher.rs:404-418 | A wait from 4,294,966,800 ms up to the overflow admits every group of stored ratings. |
| Buckets.BucketBand | src/matcher.rs:103-105 | A bucket other than the last holds exactly one band of ratings; the last holds everything from its lower edge up. |
| Buckets.FromPlaces | src/matcher.rs:103-111 | The players of a list who belong in a bucket are exactly those whose rating names it, in the order of the list. |
| Buckets.TakeDivides | src/matcher.rs:323-328 | Popping the front of a bucket keeps "taken players, then the rest" equal to the original queues, and keeps placement. |
| Buckets.PutDivides | src/matcher.rs:342-354 | Pushing the last player taken back to the front of their own bucket undoes taking them. |
| Buckets.VisitedNext | src/matcher.rs:302-329 | Visiting one more bucket adds its queue, or nothing if it was visited before. |
| Buckets.ArriveDivides | src/matcher.rs:107-111 | An arrival during a harvest goes behind everyone, taken or not. |
| Buckets.DividesConserves | src/matcher.rs:302-346 | Nobody is lost or duplicated between the pool and a pair of hands. |
| Buckets.WaitingIsBagSize | src/matcher.rs:118-123 | Summing bucket lengths counts the pool. |
| MatchPool.Anchor | src/matcher.rs:266-278 | The anchor's front player has waited at least as long as every other window front; there is none exactly when the window is empty. |
| MatchPool.AnchorIsFirst | src/matcher.rs:269-277 | Among fronts enqueued at one time the anchor is the one the window lists first. |
| MatchPool.OrderInRange | src/matcher.rs:285-299 | For any window the visiting order starts at the anchor and stays in range. |
| MatchPool.DrainOrderShape | src/matcher.rs:285-299 | For a window without repetitions the visiting order is the anchor, then each other window bucket once, then at most two in-range borders beyond the whole window. |
| MatchPool.VisitingOrder | src/matcher.rs:282-299 | For any window, also one that repeats buckets: the anchor, its other buckets from the lowest up, strictly if none repeats, then the one or two buckets past its highest that exist, in order. |
| MatchPool.VisitedReach | src/matcher.rs:302-320 | Until a busy border is met the buckets visited are a prefix of the reachable ones, and all of them when the harvest stops. |
| MatchPool.GatherFound | src/matcher.rs:302-338 | What a harvest has in hand decides its result: the first ten of the reachable queues, or nothing. |
| MatchPool.BackIsFrom | src/matcher.rs:340-354 | Returning players by origin and by rating restore the same queues. |
| MatchPool.RestoredAre | src/matcher.rs:155-163 | A restore puts behind each bucket exactly the saved players whose rating names it, with their id, rating and event, in the order of the snapshot, their wait starting at the restart. |
| MatchPool.SnapshotRoundTrip | src/matcher.rs:140-163 | A snapshot restored into an empty pool gives every bucket the same users, ratings and events in the same order, their wait starting at the restart. |
| MatchPool.Pool.constructor | src/matcher.rs:91-101 | A new pool has the given shape and empty buckets. |
| MatchPool.Pool.Enqueue | src/matcher.rs:107-111 | The player goes to the back of their bucket and no other bucket changes. |
| MatchPool.Pool.PeekOldest | src/matcher.rs:266-278 | The peek loop finds the anchor. |
| MatchPool.Pool.PlanDrain | src/matcher.rs:285-299 | The planning loops lay out the visiting order. |
| MatchPool.Pool.DrainBucket | src/matcher.rs:323-328 | Pops exactly min(10 - in hand, queue length) players from one bucket. |
| MatchPool.Pool.Gather | src/matcher.rs:302-329 | The visiting loop stops with ten players, at the end of the order, or at a busy border, having taken a prefix of the order's queues. |
| MatchPool.Pool.Rollback | src/matcher.rs:342-346 | Each bucket gets back the players popped from it, in front, in order. |
| MatchPool.Pool.ReturnGroup | src/matcher.rs:349-354 | Each bucket gets back the group members at home there, in front, in order. |
| MatchPool.Pool.Abort | src/matcher.rs:313-334 | Rolling back a partial harvest restores the pool exactly. |
| MatchPool.Pool.Harvest | src/matcher.rs:262-338 | Returns the first ten of the reachable queues or nothing; on nothing the pool is unchanged, otherwise exactly those ten left it from the fronts. |
| MatchPool.Pool.SnapshotPlayers | src/matcher.rs:140-152 | The copy is every waiting player, bucket after bucket. |
| MatchPool.Pool.RestorePlayers | src/matcher.rs:155-163 | Every saved player is appended to their own bucket with a new waiting time. |
| Worker.WindowDistinct | src/matcher.rs:373-374 | A window of a stride no longer than the ring lists no bucket twice. |
| Worker.MeasureDensity | src/matcher.rs:380-390 | The loops count the players of the window and its borders. |
| Worker.LongestWait | src/matcher.rs:405-409 | The wait fed to the gate is the greatest of the group. |
| Worker.WaitIsSinceFirst | src/matcher.rs:405-409 | The wait of a group is the time since its first enqueue, none if that is to come. |
| Worker.Round | src/matcher.rs:371-463 | One pass of the worker loop gives exactly the specified decision; unless it forms a match the pool is unchanged, and if it does exactly that group left. |
| Worker.RoundIffTolerance | src/matcher.rs:404-418 | When the first member of a harvested group was enqueued at most the overflow ago, the round forms the match if and only if the spread is at most 50 and ten per full tenth of a second since then, and else rejects it. |
| Worker.OrderDensity | src/matcher.rs:376-390 | For a window without repetitions the visiting order holds as many players as the density test counts, whatever the anchor. |
| Worker.FastFailIsExact | src/matcher.rs:376-402 | With no border busy and no bucket listed twice, a harvest succeeds if and only if the density is at least ten and the window itself is not empty. |
| Worker.HarvestIffTen | src/matcher.rs:293-335 | Whatever borders are locked, a harvest succeeds exactly when the window holds somebody and, with the border buckets up to the first locked one, ten. |
| Worker.HarvestInOrder | src/matcher.rs:280-329 | Whoever is harvested from a bucket other than the anchor stands behind the whole queue of the anchor, of every lower bucket of the window and, from past the window, of the whole window and the bucket just past it. |
| Worker.ArrivalKeepsOrder | src/main.rs:512-517 | An arrival no earlier than those waiting keeps every bucket in time order. |
| Worker.TakingKeepsOrder | src/matcher.rs:323-328 | Taking players out keeps every bucket in time order. |
| Worker.OldestIsHarvested | src/matcher.rs:280-287 | The longest-waiting player of the window leads every group harvested, and the wait the gate sees is at least that of everyone in the window. |
| Worker.GateNeverRejects | src/matcher.rs:404-418 | If (stride + 2) * width is at most 255, the window does not wrap and nobody comes from the last bucket, the gate admits the group at any wait below the overflow. |
| Worker.OutlierIsRejected | src/matcher.rs:404-418 | Nine equal ratings and an outlier 255 above them, at any place in the group, are refused in the first tenth of a second. |
| Gate.FreeHarvest | src/matcher.rs:280-329 | With every border free a harvest reads each queue of the window and its borders once, also when the window lists a bucket twice. |
| Gate.OutlierRefused | src/matcher.rs:404-418 | Any window that holds nine new arrivals of one rating and reaches a tenth 255 above them harvests the ten, and the gate refuses them. |
| Gate.NarrowAdmits | src/matcher.rs:371-418 | On a narrow grid (see the last row of this module) no ticket, pool, busy border or wait below the overflow leads to a refusal, with nobody in the last bucket. |
| Gate.WideRefuses | src/matcher.rs:371-418 | If min(stride + 2, total - 1) * width exceeds 255 the first ticket harvests a group the gate refuses. |
| Gate.WrapRefuses | src/matcher.rs:371-418 | If a stride of three or more does not divide the number of buckets, some ticket draws a window that wraps and harvests such a group. |
| Gate.LastBucketRefuses | src/matcher.rs:103-105 | For any stride and width some ticket harvests such a group from the last bucket, if it has room for ratings 255 apart. |
| Gate.NeverRefusesIffNarrow | src/matcher.rs:371-418 | With nobody in the last bucket, a rating below 2^31 for each other bucket and waits below the overflow, the tickets a worker draws never lead to a refusal if and only if min(stride + 2, total - 1) * width is at most 255 and either the stride is below three, or it divides the number of buckets, or (total - 1) * width is at most 255. |
| Drain.RingGrows | src/matcher.rs:373-374 | Consecutive tickets lay their windows end to end around the ring of buckets. |
| Drain.WindowIsArc | src/matcher.rs:373-374 | The k-th bucket of a window is (ticket + k) modulo the number of buckets, for any stride. |
| Drain.FullTurn | src/matcher.rs:370-374 | A full turn of the ring meets every waiting player once. |
| Drain.ThinLap | src/matcher.rs:370-398 | If every window of a lap holds at most nine, the whole pool holds at most nine per ticket. |
| Drain.RoundCount | src/matcher.rs:371-463 | A round removes ten players exactly when it forms a match. |
| Drain.PatientWhen | src/matcher.rs:170-174 | When the tolerance covers a pool, in enqueue times and ratings. |
| Drain.RoundProgress | src/matcher.rs:371-463 | With waits that cover the rating range and free borders, a round removes ten players or shows an untouched window of at most nine. |
| Drain.WideProgress | src/matcher.rs:371-463 | The same for a window longer than the ring, which counts buckets twice: ten players fewer, or at most nine in the whole pool. |
| Drain.WholeLap | src/matcher.rs:371-463 | A whole lap that met no locked border forms a match unless the pool is already thin. |
| Drain.DrainTheorem | src/matcher.rs:371-463 | One worker, any stride, no arrivals, patient players: N/10 + 1 laps of ceil(total/stride) rounds, and one for each round that met a locked border, leave at most 9 * ceil(total/stride) waiting. |
| Drain.WorkerTurn | src/matcher.rs:371-463 | One iteration of the loop is one turn of the run and takes ten players per match. |
| Drain.RunWorker | src/matcher.rs:371-463 | The loop conserves players (ten per match) and, given enough patient iterations, drains the pool to the bound, whatever borders were locked. |
| Custody.InPlaceStep | src/matcher.rs:103-111 | Every step of every thread keeps each pooled player in the bucket of their rating and each held player tagged with it. |
| Custody.LiveStep | src/matcher.rs:302-354 | Only an arrival, a match and a restart change who is waiting or in hand. |
| Custody.ConservedStep | src/matcher.rs:302-462 | Pool, hands and matches stay together exactly the enqueues since boot, each with a token of its own. |
| Custody.MatchedOnce | src/matcher.rs:400-462 | No enqueue is matched twice, or matched while still waiting or in hand. |
| Custody.CoveredStep | src/main.rs:505-523 | Every consumed event stays waiting, in hand, matched or recorded as left behind, and the published cursor never passes what was enqueued. |
| Custody.CopyStep | src/matcher.rs:142-150 | Copying a bucket under its lock captures everyone at home there but those in hand at that moment. |
| Custody.CopyCoversStep | src/main.rs:551-555 | A snapshot in progress keeps accounting for every event below the cursor it read first. |
| Custody.DiskStep | src/main.rs:554-559 | The snapshot on disk keeps accounting for every event below its cursor. |
| Custody.QuietCopyMissesNobody | src/matcher.rs:140-152 | A bucket copied while no worker holds anybody misses nobody. |
| Custody.CapturedStep | src/matcher.rs:140-152 | One snapshot never captures the same enqueue twice, whatever moves between buckets' copies. |
| Custody.InOrderStep | src/matcher.rs:302-354 | With one worker each bucket's arrivals stay the matched, then those in hand, then the queue, in order. |
| Custody.RestoredPlusArrivals | src/matcher.rs:331-354 | With one worker, failed harvests and rejections leave each bucket its old contents followed by the new arrivals. |
| Custody.FirstComeFirstMatched | src/matcher.rs:257-261 | With one worker nobody is matched in an earlier match than someone ahead of them in the same bucket. |
| Custody.QueuesInTime | src/main.rs:512-517 | With one worker every bucket is in order of enqueue time in every reachable state. |
| Custody.OneWorkerKeepsOrder | src/matcher.rs:257-261 | With one worker every bucket is in the order of its enqueues. |
| Custody.InvStep | src/main.rs:473-555 | Every step keeps placement, conservation, recoverability, single capture and, for one worker, order. |
| Custody.InvReaches | src/main.rs:473-555 | The same over whole runs. |
| Custody.LostStep | src/main.rs:473-489 | What was left behind at a restart stays behind: behind every cursor a restart may read, and neither waiting, held, matched, copied nor saved. |
| Custody.NobodyElseIsLost | src/main.rs:473-489 | Over any run with any crashes, a consumed event is waiting, in hand or matched if and only if it was not left behind at a restart. |
| Custody.RestartLoses | src/main.rs:473-489 | A restart loses exactly what was lost before and what the snapshot missed in hand, did not save under another enqueue, and saw no match of. |
| Custody.FirstLifeStep | src/main.rs:551-555 | Until the first restart every enqueue has its own event, and what a copy missed it did not copy. |
| Custody.FirstRestartLoses | src/main.rs:473-489 | The first restart loses exactly the unmatched events behind the cursor whose player was in hand when their bucket was copied. |
| Custody.QuietRunsLoseNobody | src/main.rs:551-555 | In any number of lifetimes, runs in which no copy meets a player in hand lose nobody. |
| Engine.OpEnabled | src/matcher.rs:302-354 | Whatever a thread does in its critical section is an allowed operation on the players. |
| Engine.CoreStep | src/main.rs:491-596 | Each thread step does one operation on the players or none, and keeps the custody invariant. |
| Engine.PcsStep | src/matcher.rs:371-462 | Each worker's hands always fit its place in the loop: empty outside a harvest, ten at the gate. |
| Engine.IngestStep | src/main.rs:505-523 | The ingestion thread's cursor and batch position always agree with what was enqueued. |
| Engine.SnapStep | src/main.rs:544-560 | A copy is in progress exactly while the snapshotter is copying or writing. |
| Engine.WantsFrame | src/matcher.rs:302-329 | Which mutex a thread needs next never depends on what another thread does. |
| Engine.LocksStep | src/matcher.rs:302-354 | Whoever holds a mutex is at the critical section that needs exactly that mutex. |
| Engine.LedgerStep | src/main.rs:518-519 | Every step keeps the counter equations for waiting, players_enqueued and matches_formed. |
| Engine.FairStep | src/matcher.rs:404-432 | Every match formed has ten players and was within tolerance at its recorded forming time. |
| Engine.RealStep | src/main.rs:505-523 | Everyone enqueued, copied, saved or restored carries the user and rating of their stream event. |
| Engine.AnchorStep | src/matcher.rs:266-287 | With one worker, through peek and harvest and whatever joins meanwhile, nobody in the window who was waiting when the peek began is ahead of the anchor or the first in hand. |
| Engine.TicketsStep | src/matcher.rs:371-374 | Every step keeps the ticket counter a multiple of the stride since boot and every window that of a ticket drawn. |
| Engine.WindowIsDrawn | src/matcher.rs:371-374 | In every reachable state each window a worker works on is that of a multiple of the stride, counted from zero. |
| Engine.IdsTaken | src/matcher.rs:411 | Every group at the gate takes the next match id, formed or refused, from one at each boot. |
| Engine.BootStarts | src/main.rs:458-489 | A boot begins with the count of the restored players, ticket zero, match id one and idle threads; the stream goes on. |
| Engine.InvStep | src/main.rs:491-596 | Every step of every thread keeps all of the above. |
| Engine.Reachable | src/main.rs:491-596 | The invariant holds in every state any interleaving, crash or restart reaches. |
| Engine.Accounted | src/matcher.rs:302-462 | In every reachable state this boot's enqueues are exactly divided between pool, hands and matches, nobody in two places, everyone pooled in their own bucket. |
| Engine.CounterLedger | src/matcher.rs:427-432 | As an integer `waiting` is never below -1; when no thread is mid-update it is the live count and players_enqueued = waiting + 10 * matches_formed. |
| Engine.OneMutexEach | src/matcher.rs:269-328 | No thread ever holds two mutexes. |
| Engine.NoDeadlock | src/matcher.rs:306-321 | In every reachable state each thread can step, or waits for a mutex whose holder can leave at once. |
| Engine.BordersNeverBlock | src/matcher.rs:306-318 | A worker at a border bucket can always step. |
| Engine.Refines | src/main.rs:491-596 | Every run of the threads does to the players exactly a run of the custody machine, without a restart if there was no crash. |
| Engine.EveryEventAccounted | src/main.rs:473-523 | A published event not yet consumed is still in the stream; a consumed one is waiting, in hand or matched if and only if it was not left behind at a restart. |
| Engine.CrashLoses | src/main.rs:473-489 | Over all runs of the threads, what a crash loses, exactly, as in Custody.RestartLoses. |
| Engine.FirstCrashLoses | src/main.rs:473-489 | The first crash loses exactly the unmatched events that the snapshot on disk missed in hand. |
| Engine.AnchorIsOldest | src/matcher.rs:280-287 | With one worker at the gate, in every reachable state, nobody in the window who was waiting when the peek began is ahead of the first in hand, nobody at all if that player was waiting then, and the longest wait in hand is at least theirs. |
| Engine.ClosedAnchorHolds | src/matcher.rs:280-287 | With one worker, and windows of one bucket, of the whole ring or with no rating past them, everyone waiting in the window at the gate entered no earlier than the first in hand and has waited no longer than the gate counts. |
| Engine.SingleWorkerIsFair | src/matcher.rs:257-261 | With one worker, match order follows bucket order in every reachable state of the threads. |
| Schedules.OneTicket | src/matcher.rs:371-402 | One ticket of a worker: a harvest begins if the window holds the crowded bucket, else nothing but the ticket changes. |
| Schedules.Walks | src/matcher.rs:371-402 | From any ticket, for any stride, a worker reaches a window with the crowded bucket. |
| Schedules.LoadsAll | src/main.rs:505-523 | Up to a hundred published events are read in one batch, enqueued in order and counted. |
| Schedules.TwoWorkersReorder | src/matcher.rs:340-354 | For any stride, on any grid whose first or last bucket holds ratings below 2^31 that are 255 apart, two workers reorder that bucket: eleven players, one group refused and returned, then the eleventh put back in front of it. |
| Schedules.OneWorkerIsFifo | src/matcher.rs:257-261 | With one worker every bucket is in enqueue order in every reachable state. |
| Schedules.FifoIffOneWorker | src/matcher.rs:257-261 | On the same grids, for any stride, buckets keep their order over every run if and only if there is one worker. |
| Schedules.HeldPlayersAreLost | src/main.rs:551-557 | On any grid, for any stride and number of workers, ten players published and enqueued, taken by a worker and missed by the snapshot are lost by a restart from it. |
| Anchors.JoinsMany | src/main.rs:511-522 | Any number of events of a batch for one bucket can be enqueued between two steps of a worker, behind everyone there. |
| Anchors.GetsAhead | src/matcher.rs:380-391 | A worker can pass the density test on a border and be past the first bucket of its peek with nobody in its window. |
| Anchors.AnchorIsOvertaken | src/matcher.rs:266-287 | On every other grid a lone worker reaches the gate with ten players while one who entered before all of them waits in its window. |
| Anchors.AnchorIffClosed | src/matcher.rs:280-281 | With one worker the first in hand at the gate is the oldest of the window over every run if and only if the stride is 1 or at least the ring, or no rating lies past the first window. |
| Carousel.OwnAct | src/matcher.rs:371-402 | Each critical section of a lone worker continues the pass it is in as the sequential round would: scan, peek, harvest, put back. |
| Carousel.GateDone | src/matcher.rs:404-463 | At the gate of the thread machine a pass decides exactly as the sequential round. |
| Carousel.OthersKeep | src/main.rs:491-629 | With nobody arriving no other thread touches what the pass depends on. |
| Carousel.TrackRuns | src/matcher.rs:371-463 | Over any run of the threads with one worker, no crash and no arrival, the finished passes are turns of the sequential run, at most one spoilt for each locked border met. |
| Carousel.ThreadsDrain | src/matcher.rs:371-463 | The drain bound over the threads, whatever the snapshotter, the retry thread and the reader do in between, one more lap for each border found locked. |
| Service.MatchedStep | src/matcher.rs:418-432 | The matched events grow exactly by those of a group accepted at the gate. |
| Service.BookedInTeam | src/matcher.rs:235-253 | A matched event is behind a formed match with its user, at its rating, on one of the teams. |
| Service.CoupledStep | src/matcher.rs:434-458 | Every step of the service keeps workers and deliveries in step: a worker looks for a group with nothing to deliver, and leaves its inline attempts only with its match written or handed over. |
| Service.NothingLeftBehind | src/matcher.rs:434-458 | In every reachable state a worker about to take a ticket has no match of its own still to be written or handed over. |
| Service.InvStep | src/main.rs:491-629 | Every step of the threads and of the delivery keeps all of this, and the invariants of both. |
| Service.EndToEnd | src/main.rs:473-629 | Over every run with its crashes and failures, a published event is ahead of the cursor, waiting or in hand, left behind at a restart, or its user is on a team of a match in memory, on its way, stored, or forgotten by a process crash before it reached the stream. |
| Service.IdsAreFresh | src/main.rs:464 | Within one lifetime no two formed matches have the same id. |
| Service.EndToEndWithoutCrash | src/main.rs:491-629 | Until a crash the losses are impossible, and a stored match has the match row as its own. |
| Delivery.BatchStores | src/db.rs:119-164 | A committed batch leaves every one of its matches stored with all its player rows, and with its own match row when the id is new and the batch repeats no id with another spread. |
| Delivery.StoredKept | src/db.rs:170-191 | A change that keeps every row but for its active flag, and every match id, keeps a stored match stored. |
| Delivery.TxnGrows | src/db.rs:107-191 | Every sign-up, batch and match end is such a change. |
| Delivery.BooksStep | src/matcher.rs:45-70 | Each formed match stays in exactly one place of memory, or was sent, or was in memory at a crash; deferred, retried and pending counts agree. |
| Delivery.SentStep | src/queue.rs:251-285 | A pipeline that reported success has put its match on the stream, and the stream only grows. |
| Delivery.GroupStep | src/main.rs:246-281 | Acknowledged entries were delivered and are stored; what the poller holds was delivered. |
| Delivery.StatusStep | src/queue.rs:266-275 | A status ticket only ever announces a formed match, to one of its players. |
| Delivery.AttemptLeaves | src/queue.rs:266-285 | After any attempt, inline or retried, of which some commands took effect, the tickets of as many players show the match, nobody else changes, and the stream has the match behind it if all took effect. |
| Delivery.SuccessTellsAll | src/queue.rs:251-285 | A reported success leaves every player of both teams with a ticket for this match, nobody else changed, and the match at the end of the stream. |
| Delivery.AttemptThenDefer | src/matcher.rs:437-457 | A failed first attempt is followed by a second and a failed second by the retry queue; success frees the worker; in every reachable state an attempt is the first or the second. |
| Delivery.RetryIsFifo | src/matcher.rs:45-69 | Deferred matches queue at the back, the retry thread takes the front one and puts a failure at the back. |
| Delivery.PollerReads | src/main.rs:620-627 | The poller reads up to fifty new entries, the next in order. |
| Delivery.PollerRereads | src/main.rs:613-618 | After a restart it reads up to five hundred entries delivered and not acknowledged. |
| Delivery.PollerAcks | src/main.rs:263-272 | It acknowledges exactly what it stored, or nothing on an error. |
| Delivery.MatchIsStored | src/main.rs:246-281 | From any reachable state with no backlog a match formed, written, read, stored and acknowledged without a failure is on the stream, told to its players, stored with all its rows and acknowledged. |
| Delivery.TracedStep | src/db.rs:145-151 | Every match row was written for a stream entry with its id and spread, and every entry for a formed match. |
| Delivery.OwnRow | src/db.rs:145-151 | When formed matches have ids of their own, the row of a stored match carries its own spread. |
| Delivery.InvStep | src/main.rs:565-629 | Every step keeps the delivery invariant, including pipelines that stop part-way. |
| Delivery.NoMatchIsLost | src/matcher.rs:434-458 | A formed match is in memory, on its way or stored, or gone: in memory at a process crash, never on the stream and not in memory again. When ids are fresh it is gone if and only if it is in none of the other places. Without such a crash none is lost. |
| Delivery.OnStreamIff | src/db.rs:119-164 | When ids are fresh a formed match is on its way or stored if and only if the stream has it. |
| Delivery.GoneStep | src/matcher.rs:17-28 | Exactly what a step loses: a process crash the matches in memory that no pipeline had brought to the stream, any other step none. |
| Delivery.CrashForgets | src/matcher.rs:434-458 | From any reachable state a match formed just before a process crash is gone. |
| Delivery.CrashSpares | src/queue.rs:251-285 | If its pipeline was applied and only the reply was lost it is not gone, though it was in memory at the crash. |
| Delivery.OnlyCrashesLose | src/matcher.rs:17-28 | Without a process crash no match is lost from memory. |
| Delivery.AcknowledgedIsStored | src/main.rs:268-271 | Across any crash, every acknowledged entry has a match row and all its player rows; when ids are fresh the match row is its own. |
| Delivery.DeferredLedger | src/matcher.rs:453-457 | With no hand-over or retry under way, deferred commits = successful retries + queue length. |
| Tables.CommitsIff | src/db.rs:59-66 | A batch commits if and only if it names nobody twice and nobody with an active row. |
| Tables.AddedFrom | src/db.rs:145-151 | A match row that is new carries the spread of the first entry of the batch under its id. |
| Tables.EntryRowsAre | src/db.rs:119-142 | A match brings one active row for each player of either team, with team and rating, and no others. |
| Tables.BatchRowsConcat | src/db.rs:119-142 | The rows of a batch are those of its matches one after the other. |
| Tables.UsersAfter | src/db.rs:74-83 | Over every transaction, which users there are and what becomes of each: a sign-up adds one with its rating under the next id, a committed batch flags and counts exactly those it names, nobody else changes and nobody goes. |
| Tables.RowsAfter | src/db.rs:107-191 | Over every transaction, which matches and rows there are: a committed batch appends its rows and the matches not yet stored, the end of an active match ends it and deactivates its rows, nothing else changes. |
| Tables.CountMatchIs | src/db.rs:186-189 | The number reported as freed is the number of rows of the match. |
| Tables.AbsorbedIff | src/db.rs:145-156 | A batch with players changes nothing if and only if it names somebody twice or somebody still playing. |
| Tables.CountDistinct | src/db.rs:158-161 | Distinct users have one row each, so adding one per listed user agrees with counting rows. |
| Tables.InsertKeeps | src/db.rs:107-165 | A batch keeps at most one active row per user, counts equal to rows, and rows referring to stored matches. |
| Tables.EndKeeps | src/db.rs:170-191 | Ending a match keeps the same, and keeps rows active exactly while their match is. |
| Tables.CreateKeeps | src/db.rs:74-83 | Signing up keeps the same. |
| Tables.MirrorsIff | src/schema.rs:26-28 | A stored batch keeps row activity equal to match status if and only if none of its rows is for a match already ended. |
| Tables.LateRedelivery | src/db.rs:145-156 | Any first delivery, ended and then redelivered, stores active rows for an ended match. |
| Tables.EndFrees | src/db.rs:167-190 | After a match ends none of its players has an active row. |
| Tables.TablesStayOk | src/schema.rs:25-37 | Over every sequence of sign-ups, batches and match ends: one active row per user at most, counts equal rows, and activity mirrors status if no ended match is redelivered. |
| Tables.Database.constructor | src/db.rs:20-71 | The tables start empty. |
| Tables.Database.Create | src/db.rs:74-83 | Inserts one user under the next id. |
| Tables.Database.InsertMatchBatch | src/db.rs:107-165 | All or nothing: succeeds exactly when the batch is empty or there is a connection and the index admits it. |
| Tables.Database.Collect | src/db.rs:120-143 | The loops gather the rows and user ids of the whole batch. |
| Tables.Database.IndexAdmits | src/db.rs:59-66 | Checking rows one by one against the index decides uniqueness of the whole table. |
| Tables.Database.StoreMatches | src/db.rs:145-151 | Match rows already stored are kept as they are. |
| Tables.Database.End | src/db.rs:170-191 | Ends an active match and reports its number of rows, or changes nothing. |
| Tables.Database.ActiveMatchOf | src/db.rs:226-235 | Finds a match exactly when the player has an active row, and then the only one. |
| SnapshotFiles.NamesListed | src/snapshot.rs:43-61 | A finished snapshot is listed and a temporary file never is. |
| SnapshotFiles.NamesAre | src/snapshot.rs:43-61 | The names written, and which names are taken for snapshots: those with the prefix and the suffix around anything. |
| SnapshotFiles.LexIs | src/snapshot.rs:67-68 | Lexical order: a prefix, or smaller at the first difference. |
| SnapshotFiles.DecimalOrder | src/snapshot.rs:67-68 | Among numbers with as many digits lexical and numeric order agree. |
| SnapshotFiles.NameOrder | src/snapshot.rs:67-68 | The same for the file names. |
| SnapshotFiles.DigitCount | src/snapshot.rs:43 | How many digits a timestamp has, from the powers of ten around it. |
| SnapshotFiles.LeadingIs | src/snapshot.rs:43 | A timestamp without its last digits is its quotient by that power of ten. |
| SnapshotFiles.DigitsAre | src/snapshot.rs:43 | Each character of the number in a name is the decimal digit of its place. |
| SnapshotFiles.NameOrderIff | src/snapshot.rs:67-68 | For any two timestamps the names are in the order of time exactly when the earlier is no greater than as many leading digits of the later. |
| SnapshotFiles.LatestUnique | src/snapshot.rs:80-91 | A directory determines what a restart loads. |
| SnapshotFiles.FreshNameIsNewest | src/snapshot.rs:37-43 | With timestamps that never go back and keep their digits, each new name is the newest. |
| SnapshotFiles.NewestStays | src/snapshot.rs:48-50 | From the rename on, at every point of pruning, a restart loads the new snapshot. |
| SnapshotFiles.OutdatedIsTail | src/snapshot.rs:73-76 | What pruning skips past is exactly the files with at least `keep` newer ones. |
| SnapshotFiles.KeptCount | src/snapshot.rs:73-78 | When removals work, exactly min(keep, available) files remain. |
| SnapshotFiles.LoadedIffKept | src/snapshot.rs:48-50 | A restart loads the snapshot just written if and only if at least one is kept. |
| SnapshotFiles.Directory.ListSnapshots | src/snapshot.rs:54-71 | Lists exactly the snapshot files, newest name first. |
| SnapshotFiles.Directory.Prune | src/snapshot.rs:73-78 | Removes exactly the outdated files that can be removed, one at a time. |
| SnapshotFiles.Directory.WriteSnapshot | src/snapshot.rs:31-51 | At every crash point a restart loads what it would have before or the complete new snapshot; states the directory after success and after each failure. |
| SnapshotFiles.Directory.LoadLatest | src/snapshot.rs:82-91 | Loads the newest file that parses, or nothing when none does. |
| Streams.FindPayload | src/queue.rs:200-209 | The field loop finds the payload of the last "data" pair. |
| Streams.ParseEntries | src/queue.rs:186-215 | The entry loop returns the readable entries in order. |
| Streams.ParseReply | src/queue.rs:172-218 | The whole reply decodes to the readable entries of each stream. |
| Streams.LastDataIsLast | src/queue.rs:200-209 | There is a payload exactly when some name at an even position is "data" with a string value, and it is the last such. |
| Streams.EntryIff | src/queue.rs:186-215 | An entry is read exactly when it is a pair of an id and a list of fields whose last "data" string parses, and gives that value under that id. |
| Streams.StreamIs | src/queue.rs:172-186 | A reply lists streams as pairs of a name and entries; anything else, like no reply, yields nothing. |
| Streams.ReplyRoundTrip | src/queue.rs:357-410 | Everything published in a parseable form is read back, in order and under its id. |
| Streams.UnreadableAreSkipped | src/queue.rs:186-215 | An entry that cannot be read leaves the rest of the result as it is. |
| Streams.NothingReadableIff | src/main.rs:507-510 | A batch decodes to nothing exactly when no entry is readable; the cursor then stays. |
| Streams.ArrivalsAre | src/main.rs:511-517 | A batch puts behind each bucket exactly the users of the events whose clamped rating names it, with that rating, in stream order, their wait starting now. |
| Streams.IngestBatch | src/main.rs:511-522 | Each bucket gets its arrivals behind it in stream order; the cursor becomes the id of the last entry read. |

## Left out

- HTTP handlers, token issue and verification, configuration parsing, JSON rendering and
  the simulation script: plumbing without a deep property.
- Redis and Postgres themselves: a stream is a sequence with positions, a consumer group a
  delivered prefix and an acknowledged set, a pipeline a prefix of commands that may take
  effect before an error, a transaction all or nothing.
- The initial cursor `"$"` and approximate, age-based trimming: the cursor is a position
  and trimming up to the newest snapshot's cursor is a hypothesis.
- Unreadable ingest entries in the thread machine: `Streams` shows they are skipped, and
  that a batch of nothing else leaves the cursor in place; `Engine` reads events only.
- Real time: clocks are natural numbers, sleeps and backoff are absent. The start time of
  a worker's peek is replaced by the fact that the first non-empty front is always taken.
- Liveness of failed database batches: they are read again only at a restart and at most
  500 at a time, so only safety is stated.
- The retry queue after a process crash: it is in memory, and `Delivery.GoneStep` says what
  goes with it.
- Player order with several workers beyond `Schedules.FifoIffOneWorker`: the code gives none.
- Schedules.FifoIffOneWorker: leaves open grids of more than eight million buckets, where
  neither the first nor the last bucket holds ratings 255 apart.
- Gate.NeverRefusesIffNarrow: leaves open grids whose last bucket but one starts at 2^31 or
  later, where no rating reaches it.
- Uniqueness of match ids across restarts, where they begin at 1 again: table facts that
  need fresh ids say so.
- `in_match` as "currently playing": nothing clears it, and the invariant says it means
  having ever been in a match.
- Overflow of `matches_played`, of the u64 ticket and of the u64 counters, which are
  integers here; the program's `waiting` wraps where the model has -1.
- Float averages, `total_queue_micros`, `spread_sum` and `matches_committed`.
- Mutex poisoning and thread shutdown.
- `created_at`, `ended_at` and the surrogate row ids of the tables, and the order in which
  a query without `ORDER BY` returns rows.
- `sort_unstable`, `sort` and `reverse` are used as functions with their documented
  results, not re-proved as in-place algorithms.
- The ten-element arrays of the optimiser are sequences, and a mask's bits a sequence of
  booleans read by `TeamSplit.BitAt`.
- Engine.AnchorIsOldest: on other grids than those of `Anchors.AnchorIffClosed`, promises
  nothing about players who join a window that was empty when its peek began, because two
  of them can be peeked in the wrong order (`Anchors.AnchorIsOvertaken`).
- Anchors.AnchorIffClosed: is about one worker; with more, another worker returning players
  in the wrong order can move the front the peek relies on (`Schedules.TwoWorkersReorder`).
- Events enqueued again by a replay: the program does not remove the duplicates, so a user
  may be matched for an event already matched; `Service.EndToEnd` names one outcome of an
  event, not the only one.
