# Clicker game and omikuji: a Dafny model

This project models the logic of two small browser games in one repository.

**The beast clicker** (`chinese_game/`). The player spends firecrackers to damage the New Year beast. A defeated beast moves the game to the next level. Daily tasks (log in, stay 15 seconds, click 100 times) pay firecrackers back. The model covers:

- the state store: its record, its actions, persistence and listeners;
- the task ledger and its stay timer;
- the level curve;
- the damage roll and the order in which a tap drives the store;
- the anti-cheat helpers: a click-rate guard, a range check and a 32-bit checksum;
- the generic callback state machine.

**The omikuji** (`japan_omikuji/`). The player shakes a box, a stick emerges, and the unfolded paper shows one of six fortunes. The model covers the weighted draw, the message and colour tables, and the app's state flow with its shake counter.

Each module follows one source file:

| module | file |
|---|---|
| `Levels` | `levels.dfy` |
| `Store` | `store.dfy` |
| `Tasks` | `tasks.dfy` |
| `Security` | `security.dfy` |
| `Combat` | `combat.dfy` |
| `Machine` | `machine.dfy` |
| `Fortunes` | `fortunes.dfy` |
| `Omikuji` | `omikuji.dfy` |

`Wrappers` holds `Option`, and `Sequences` (`sequences.dfy`) the subsequence predicate used to state what a `filter` keeps.

A source object that updates its own fields becomes a class: `GameStore`, `TaskSystem`, `SecurityManager`, `CombatSystem`, `StateMachine` and `OmikujiApp`. The store's record is a datatype. Each store action is a pure function on that record. Each method is proved to apply exactly that function, and lemmas prove what the game relies on: the invariant is preserved, a reward is paid once, saved state loads back unchanged, and 100 clicks complete the click task.

Things the source gets from its environment become parameters:

- `Math.random()` samples;
- clock readings (`Date.now()`);
- the date string used for the daily reset;
- the truth of transition conditions;
- in the omikuji app, the fortune that `generateFortune` returns for a draw.

Timers and animation callbacks are modelled as pending work that the caller fires by calling a method.

Points where the model keeps the code's own behaviour:

- **Click-rate guard.** `onBeastTapped` never calls `validateClick`, so the click-rate guard is modelled as its own component (`Security.SecurityManager.ValidateClick`).
- **Stay timer.** The stay timer sets its task's progress to `min(elapsed seconds, target)`, with the seconds measured from the construction of the ledger (`Tasks.StayTicked`).
- **Taps during the defeat delay.** The beast can still be tapped during the 2-second delay after a defeat. A tap at 0 HP reports another defeat and schedules another level-up (`Combat.TapAtZeroHPDefeatsAgain`). The model keeps this behaviour as written.
- **Reset.** `reset` in the omikuji app cancels neither running shake intervals nor pending animations. Clearing those is left to the order in which the environment fires events.

## Model

| member | source | states |
|---|---|---|
| Levels.GetLevelInfo | chinese_game/js/config/levels.js:50-63 | None exactly below level 1; otherwise the level and its HP from the curve; levels 1..5 come from the table; above that the reward is 50 + 25·level |
| Levels.FirecrackersNeeded | chinese_game/js/config/levels.js:66-69 | the least n with n·damage ≥ HP of the level (ceiling of the quotient) |
| Levels.CeilDiv | chinese_game/js/config/levels.js:68 | q·d ≥ a and (q−1)·d < a for a positive divisor |
| Levels.LevelHP | chinese_game/js/config/levels.js:43-47 | 1000 + (level − 1)·500; never below 1000 from level 1 on (strict growth is Levels.LevelHPStrictlyIncreasing) |
| Levels.LevelHPStrictlyIncreasing | chinese_game/js/config/levels.js:43-47 | a higher level always has strictly more HP |
| Levels.LevelCurveSamples | chinese_game/js/config/levels.js:43-47 | HP 1000, 1500 and 2000 at levels 1 to 3, and 100 ten-point firecrackers for level 1 |
| Levels.RewardIncreasing | chinese_game/js/config/levels.js:4-40 | rewards rise strictly with the level, across the table and its generated continuation |
| Store.FindTask | chinese_game/js/utils/store.js:130 | the index of the first task with the id; None exactly when no task has it |
| Store.DefaultState | chinese_game/js/utils/store.js:25-41 | the new-game record: 5000 firecrackers, no clicks, level 1 at 1000 of 1000 HP, the three open daily tasks, sound and music on, today's date; Store.DefaultStateValid proves it keeps the invariant |
| Store.Progressed | chinese_game/js/utils/store.js:129-139 | the task list after updateTaskProgress: the first task with the id, when open, has its progress raised by the increment and capped at its target; Store.ProgressedShape and Store.ProgressedTwice state its properties |
| Store.Consumed | chinese_game/js/utils/store.js:89-95 | the record after a successful consumeFirecracker: balance less the amount, one more click, click task advanced by one; Store.ConsumedValid states its properties |
| Store.Damaged | chinese_game/js/utils/store.js:104-105 | the record after damageYearBeast: HP less the damage, clamped at 0; Store.DamagedValid states its properties |
| Store.Credited | chinese_game/js/utils/store.js:115-116 | the record after addFirecrackers: the balance plus the amount |
| Store.Leveled | chinese_game/js/utils/store.js:121-124 | the record after nextLevel: one level up, max HP and HP set by the store's formula; Store.LeveledMatchesCurve states its properties |
| Store.Claimed | chinese_game/js/utils/store.js:141-149 | the record after a granted completeTask: the task marked completed and its reward credited; Store.ClaimedOnce states its properties |
| Store.ValidateState | chinese_game/js/utils/store.js:43-58 | the date becomes today; on a new day the tasks are the default ones, otherwise the saved tasks or the defaults; every other missing field, the sound and music flags included, takes its default |
| Store.Load | chinese_game/js/utils/store.js:9-23 | defaults when nothing parseable is stored; the date is always today |
| Store.Broadcast | chinese_game/js/utils/store.js:78-86 | one delivery per listener, in subscription order, each with the current state |
| Store.Without | chinese_game/js/utils/store.js:72-74 | the listeners other than the callback, each as often as before and in their original order (a subsequence with the callback's count 0 and every other count kept) |
| Store.GameStore.constructor | chinese_game/js/utils/store.js:3-6 | the state is the loaded one, there are no listeners, and nothing is written |
| Store.GameStore.SaveState | chinese_game/js/utils/store.js:61-67 | storage holds a full snapshot of the state |
| Store.GameStore.Notify | chinese_game/js/utils/store.js:78-86 | every listener receives the current state once, in order |
| Store.GameStore.Subscribe | chinese_game/js/utils/store.js:70-71 | the callback is appended to the listener list |
| Store.GameStore.Unsubscribe | chinese_game/js/utils/store.js:72-74 | every occurrence of the callback is removed |
| Store.GameStore.UpdateTaskProgress | chinese_game/js/utils/store.js:129-139 | the first open task with the id advances, capped at its target; it saves and notifies exactly when such a task exists |
| Store.GameStore.ConsumeFirecracker | chinese_game/js/utils/store.js:89-102 | succeeds iff balance ≥ amount; on success the state is Consumed (balance −amount, one more click, click task advanced), it saves, and it notifies twice while the click task is open; on failure nothing changes |
| Store.GameStore.DamageYearBeast | chinese_game/js/utils/store.js:104-113 | HP drops by the damage, clamped at 0; reports a defeat exactly at 0 HP; saves and notifies |
| Store.GameStore.AddFirecrackers | chinese_game/js/utils/store.js:115-119 | the balance rises by the amount; saves and notifies |
| Store.GameStore.NextLevel | chinese_game/js/utils/store.js:121-127 | one level up, with max HP and HP reset to the store's formula; saves and notifies |
| Store.GameStore.CompleteTask | chinese_game/js/utils/store.js:141-149 | succeeds iff the task exists, is open and has reached its target; then it is completed and its reward is credited; otherwise nothing changes |
| Store.GameStore.Reset | chinese_game/js/utils/store.js:152-156 | the state becomes the default record; saves and notifies |
| Store.DefaultStateValid | chinese_game/js/utils/store.js:25-41 | the default record satisfies the invariant, with full HP of level 1 |
| Store.FindTaskAfterUpdate | chinese_game/js/utils/store.js:130 | replacing a task by one with the same id does not change any lookup |
| Store.ProgressedShape | chinese_game/js/utils/store.js:129-139 | only the progress of the first task with the id changes; ids, rewards, targets and flags stay; without an open task nothing changes |
| Store.ProgressedTwice | chinese_game/js/utils/store.js:132 | two non-negative increments compose into one, because of the cap |
| Store.ProgressedTimesIsOneStep | chinese_game/js/utils/store.js:129-132 | n increments of 1 equal one increment of n |
| Store.ProgressedKeepsTasks | chinese_game/js/utils/store.js:131-132 | a non-negative increment keeps every task within 0..target, and completed only when reached |
| Store.ConsumedValid | chinese_game/js/utils/store.js:89-93 | a successful consume keeps the invariant, takes exactly the amount and counts exactly one click |
| Store.DamagedValid | chinese_game/js/utils/store.js:104-112 | damage keeps the invariant, defeats exactly when it reaches the remaining HP, and does nothing at 0 HP |
| Store.LeveledMatchesCurve | chinese_game/js/utils/store.js:121-124 | the store's formula agrees with getLevelHP at the new level; the beast is at full HP; the invariant is kept |
| Store.ClaimedOnce | chinese_game/js/utils/store.js:141-149 | a claim credits exactly the reward and marks the task completed; a second claim is refused; the invariant is kept |
| Store.LoadRoundTrip | chinese_game/js/utils/store.js:53-57 | a snapshot loaded on the same day gives back the record unchanged |
| Store.LoadNextDay | chinese_game/js/utils/store.js:46-51 | a snapshot loaded on another day keeps everything but gets default tasks and today's date |
| Store.ConsumedTimesTasks | chinese_game/js/utils/store.js:89-95 | n consumes take n firecrackers and advance the click task n times |
| Store.HundredClicksUnlockClickTask | chinese_game/js/utils/store.js:35 | from the default record, 100 clicks make the click task claimable and 99 do not |
| Tasks.CheckTaskCompletion | chinese_game/js/systems/TaskSystem.js:43-48 | true iff the first task with that id has reached its target and is not completed; false for an unknown id |
| Tasks.CheckAgreesWithStore | chinese_game/js/systems/TaskSystem.js:50-55 | the ledger's check is exactly the store's claim guard |
| Tasks.GetTaskProgress | chinese_game/js/systems/TaskSystem.js:57-66 | zeros for an unknown id; otherwise the task's own progress and target, and the percentage of progress over target capped at 100 |
| Tasks.PercentageBounds | chinese_game/js/systems/TaskSystem.js:64 | for a positive target the percentage is finite, lies in [0, 100], and is 100 exactly once the target is reached |
| Tasks.Percentage | chinese_game/js/systems/TaskSystem.js:64 | progress over target times 100, capped at 100; for a zero target: 100 with positive progress, None (NaN or −Infinity) otherwise; Tasks.PercentageBounds states its range |
| Tasks.GetAllTasks | chinese_game/js/systems/TaskSystem.js:68-74 | one entry per task, in order, keeping the task's fields, with progress, target and percentage taken from getTaskProgress of its id and its claimability from checkTaskCompletion |
| Tasks.AllTasksWithUniqueIds | chinese_game/js/systems/TaskSystem.js:68-74 | with distinct ids each entry shows its own progress and target and is claimable exactly when its task is ready |
| Tasks.StayTickedValid | chinese_game/js/systems/TaskSystem.js:27-30 | the tick keeps the invariant, touches only the stay task's progress and never passes its target |
| Tasks.StayTicked | chinese_game/js/systems/TaskSystem.js:27-30 | when the stay task is open and below its target, its progress becomes min(elapsed seconds, target); otherwise the record is unchanged; Tasks.StayTickedValid and Tasks.StayTickReachesTarget state its properties |
| Tasks.StayTickReachesTarget | chinese_game/js/systems/TaskSystem.js:27-36 | once enough seconds have elapsed, the open stay task is at its target, claimable, and the timer stops |
| Tasks.LoginClaimableAfterStart | chinese_game/js/systems/TaskSystem.js:14-16 | constructing the ledger on a new day's record makes the login task claimable |
| Tasks.TaskSystem.constructor | chinese_game/js/systems/TaskSystem.js:5-20 | records the start time, advances the login task by one and starts the stay timer |
| Tasks.TaskSystem.StartStayTimer | chinese_game/js/systems/TaskSystem.js:22-41 | the stay interval runs and is registered under its key |
| Tasks.TaskSystem.StayTick | chinese_game/js/systems/TaskSystem.js:24-37 | applies StayTicked with the whole seconds elapsed; saves and notifies exactly when the stay task was open and short; stops at the target |
| Tasks.TaskSystem.ClaimTaskReward | chinese_game/js/systems/TaskSystem.js:50-55 | succeeds iff the check passes; then the state is Claimed, saved and notified; otherwise nothing changes |
| Tasks.TaskSystem.Destroy | chinese_game/js/systems/TaskSystem.js:76-80 | no timer remains |
| Security.Recent | chinese_game/js/utils/security.js:17-19 | the timestamps inside the window, each as often as before and in their original order (a subsequence whose counts are kept inside the window and 0 outside) |
| Security.SecurityManager.constructor | chinese_game/js/utils/security.js:5-10 | the guard starts with no timestamps |
| Security.SecurityManager.ValidateClick | chinese_game/js/utils/security.js:13-30 | admits iff fewer than 10 clicks lie in the window, recording the click then; expired clicks are dropped either way; never more than 10 are kept |
| Security.RateLimitTrace | chinese_game/js/utils/security.js:13-30 | ten clicks within 900 ms are admitted, one at 950 ms is refused, and one at 2000 ms is admitted |
| Security.StoreInvariantPassesRangeCheck | chinese_game/js/utils/security.js:33-51 | a record keeping the store invariant passes the range check exactly while balance ≤ 999999 and level ≤ 100; the default record passes |
| Security.ValidState | chinese_game/js/utils/security.js:33-51 | the range check: balance in 0..999999, HP in 0..max HP, level in 1..100; Security.StoreInvariantPassesRangeCheck relates it to the store invariant |
| Security.Hash | chinese_game/js/utils/security.js:56-61 | the hash of the code units, folded from 0 by 31·hash + code reduced to 32 bits; always a signed 32-bit value |
| Security.ToBase36 | chinese_game/js/utils/security.js:62 | lower-case base-36 digits, at least one, led by '-' exactly for a negative number; Security.Base36RoundTrip proves it reads back |
| Security.ToInt32 | chinese_game/js/utils/security.js:60 | a signed 32-bit value congruent to the input modulo 2^32 |
| Security.RollingStep | chinese_game/js/utils/security.js:59-60 | the shift-and-subtract step is 31·hash + code reduced to 32 bits |
| Security.SecurityManager.GenerateChecksum | chinese_game/js/utils/security.js:54-63 | the base-36 rendering of the 32-bit rolling hash of the code units |
| Security.SecurityManager.VerifyChecksum | chinese_game/js/utils/security.js:65-67 | true iff the checksum is the one generated for the data |
| Security.Base36RoundTrip | chinese_game/js/utils/security.js:62 | the base-36 numeral, with its sign, reads back as the number |
| Security.ChecksumsEqualIffHashesEqual | chinese_game/js/utils/security.js:65-67 | two checksums agree exactly when the 32-bit hashes agree |
| Security.HashSamples | chinese_game/js/utils/security.js:54-63 | the hash of "" is 0 ("0"), of "a" is 97 ("2p"), and of "ab" is 3105 |
| Combat.CalculateDamage | chinese_game/js/systems/CombatSystem.js:74-79 | a critical hit iff the sample is below 0.15; 20 damage then, 10 otherwise |
| Combat.DamagedTimesHP | chinese_game/js/utils/store.js:105 | n hits leave max(0, HP − n·damage) and change nothing else |
| Combat.DefeatNeedsFirecrackersNeeded | chinese_game/js/config/levels.js:66-69 | hits on a full-HP beast defeat it exactly when their number reaches getFirecrackersNeeded |
| Combat.CombatSystem.constructor | chinese_game/js/systems/CombatSystem.js:6-13 | no level-up pending and no damage numbers |
| Combat.CombatSystem.OnBeastTapped | chinese_game/js/systems/CombatSystem.js:48-72 | without a firecracker nothing at all changes; otherwise one is consumed, the rolled hit is applied, its number is shown, and a level-up is scheduled exactly on a defeat; storage then holds the final record, and listeners get the consumed record (twice while the click task is open) and then the damaged one |
| Combat.CombatSystem.OnBeastDefeated | chinese_game/js/systems/CombatSystem.js:99-112 | one more level-up is scheduled |
| Combat.CombatSystem.LevelUpTimeout | chinese_game/js/systems/CombatSystem.js:105-111 | the scheduled level-up runs nextLevel on the store |
| Combat.TapAtZeroHPDefeatsAgain | chinese_game/js/systems/CombatSystem.js:48-72 | a tap on a beast already at 0 HP reports a defeat again |
| Machine.StateMachine.constructor | chinese_game/js/systems/StateMachine.js:5-10 | the initial state, no previous state, no states and no transitions |
| Machine.StateMachine.RegisterState | chinese_game/js/systems/StateMachine.js:13-19 | the name maps to its callbacks, replacing an earlier registration |
| Machine.StateMachine.RegisterTransition | chinese_game/js/systems/StateMachine.js:22-25 | the key `from->to` maps to the condition |
| Machine.StateMachine.ChangeState | chinese_game/js/systems/StateMachine.js:28-61 | succeeds iff the target is registered and no registered condition on the pair fails; then the current state becomes previous and onExit runs before onEnter, so isInState holds of the target and getPreviousState gives the old state; a refusal changes nothing and isInState still holds of the old state |
| Machine.StateMachine.Update | chinese_game/js/systems/StateMachine.js:64-69 | runs the current state's onUpdate when the state is registered |
| Machine.StateMachine.GetCurrentState | chinese_game/js/systems/StateMachine.js:72-74 | the current state, as ChangeState's postcondition reads it |
| Machine.StateMachine.GetPreviousState | chinese_game/js/systems/StateMachine.js:77-79 | the previous state, absent before the first change, as ChangeState's postcondition reads it |
| Machine.StateMachine.IsInState | chinese_game/js/systems/StateMachine.js:82-84 | the comparison with the current state that ChangeState's postcondition uses for the state after a change or a refusal |
| Machine.ExitBeforeEnter | chinese_game/js/systems/StateMachine.js:44-58 | a change runs the old state's exit callback and then the new state's enter callback |
| Machine.FirstDashOfKey | chinese_game/js/systems/StateMachine.js:23 | in a key whose source name has no '-', the first '-' is the separator |
| Machine.TransitionKeysDistinct | chinese_game/js/systems/StateMachine.js:23 | names without '-' give distinct pairs distinct keys |
| Machine.TransitionKeyCollision | chinese_game/js/systems/StateMachine.js:23 | names containing "->" can share a key ("x->" to "y" and "x" to "->y") |
| Machine.Walkthrough | chinese_game/js/systems/StateMachine.js:28-61 | an unregistered target is refused, a free pair is allowed, and a false condition blocks until it holds, with the callbacks in order |
| Fortunes.PrefixValues | japan_omikuji/js/fortunes.js:104 | the cumulative weights are 0, 15, 40, 60, 80, 95 and 100; the total is 100 |
| Fortunes.PrefixMonotone | japan_omikuji/js/fortunes.js:8-45 | cumulative weights never decrease |
| Fortunes.IndexFor | japan_omikuji/js/fortunes.js:107-112 | the first level whose cumulative weight reaches x |
| Fortunes.Selected | japan_omikuji/js/fortunes.js:103-116 | the level the draw returns for a sample: the first level whose cumulative weight reaches sample·total, or kichi past the end; Fortunes.SelectFortuneLevel computes it and Fortunes.SelectedInTable and Fortunes.SelectionInterval state its properties |
| Fortunes.SelectFortuneLevel | japan_omikuji/js/fortunes.js:103-116 | the draw by cumulative subtraction returns the first level whose cumulative weight reaches sample·total, or kichi past the end |
| Fortunes.DrawStep | japan_omikuji/js/fortunes.js:107-112 | one subtraction leaves what is past the next level's cumulative weight, and stopping there draws that level |
| Fortunes.SelectionInterval | japan_omikuji/js/fortunes.js:107-112 | a level is drawn exactly on (previous cumulative, own cumulative], an interval as long as its weight |
| Fortunes.SelectedInTable | japan_omikuji/js/fortunes.js:107-115 | for a sample in [0, 1) the fallback is never reached and the draw is a table level |
| Fortunes.LevelIdsDistinct | japan_omikuji/js/fortunes.js:8-45 | the six level ids are distinct |
| Fortunes.SelectionExtremes | japan_omikuji/js/fortunes.js:8-45 | for x in [0, 100): daikichi exactly when x ≤ 15, and kyo exactly when x > 95 |
| Fortunes.MessagesTotal | japan_omikuji/js/fortunes.js:48-97 | every level has a message in every category |
| Fortunes.GenerateFortune | japan_omikuji/js/fortunes.js:122-141 | the fortune of the drawn level: its names and its message in each of the six categories |
| Fortunes.Message | japan_omikuji/js/fortunes.js:48-97 | the message table's entry for a category and level id, None where the table has none; Fortunes.MessagesTotal proves every level has one |
| Fortunes.FortuneOf | japan_omikuji/js/fortunes.js:125-138 | the fortune object for a level: its id and names, and its message in each of the six categories; Fortunes.FortuneOfTableLevel states its properties |
| Fortunes.FortuneOfTableLevel | japan_omikuji/js/fortunes.js:122-138 | a table level's fortune copies id, japanese and english, and each category holds messages[category][id], which is defined |
| Fortunes.TableFortuneComplete | japan_omikuji/js/fortunes.js:122-138 | the fortune of every table level has a level id and a message in every category |
| Fortunes.DrawnFortuneComplete | japan_omikuji/js/fortunes.js:122-138 | every fortune drawn with a sample in [0, 1) is a table fortune with no undefined category |
| Fortunes.ColorKeys | japan_omikuji/js/fortunes.js:149-156 | the colour table's keys are exactly the six level ids |
| Fortunes.GetLevelColor | japan_omikuji/js/fortunes.js:148-158 | '#000000' exactly for an id that is not a level |
| Fortunes.ColorsDistinct | japan_omikuji/js/fortunes.js:149-156 | the six levels have six distinct colours |
| Omikuji.DisplayOfComplete | japan_omikuji/js/main.js:250-262 | the panel of a complete fortune has the level's own colour, never black, and a message in every category |
| Omikuji.OmikujiApp.constructor | japan_omikuji/js/main.js:17-18 | no state and no fortune before init; shake count 0 |
| Omikuji.InstructionText | japan_omikuji/js/main.js:300-326 | the instruction line each state sets; SHOWING_FORTUNE only hides it and keeps the previous text |
| Omikuji.OmikujiApp.SetState | japan_omikuji/js/main.js:300-326 | the new state, and the instruction text and visibility that state sets |
| Omikuji.OmikujiApp.Init | japan_omikuji/js/main.js:70 | the app starts in INITIAL |
| Omikuji.OmikujiApp.OnPointerDown | japan_omikuji/js/main.js:138-150 | only in INITIAL or SHAKING: starts a drag and enters SHAKING; otherwise nothing changes |
| Omikuji.OmikujiApp.OnPointerMove | japan_omikuji/js/main.js:155-168 | only in SHAKING: a drag move adds one shake; at 15 the app enters STICK_EMERGING holding the drawn fortune |
| Omikuji.OmikujiApp.OnPointerUp | japan_omikuji/js/main.js:173-182 | the drag ends; a shake short of 15 returns to INITIAL, keeping the count |
| Omikuji.OmikujiApp.SimulateShake | japan_omikuji/js/main.js:187-207 | enters SHAKING and starts an interval with its own counter at 0 |
| Omikuji.OmikujiApp.ShakeIntervalTick | japan_omikuji/js/main.js:193-206 | the interval's counter rises by one and overwrites the shared count; at 15 the interval ends and the shake completes |
| Omikuji.OmikujiApp.OnShakeComplete | japan_omikuji/js/main.js:212-224 | STICK_EMERGING, the fortune generateFortune returned held, and one stick animation pending; every handler keeps the fortune held and the panel shown complete |
| Omikuji.OmikujiApp.OnStickEmerged | japan_omikuji/js/main.js:220-223 | the stick animation's completion moves the app to READY_TO_UNFOLD |
| Omikuji.OmikujiApp.UnfoldPaper | japan_omikuji/js/main.js:229-237 | UNFOLDING, with one unfold animation pending |
| Omikuji.OmikujiApp.OnUnfoldRequest | japan_omikuji/js/main.js:104-116 | a click or touch unfolds only in READY_TO_UNFOLD; otherwise nothing changes |
| Omikuji.OmikujiApp.OnKeyDown | japan_omikuji/js/main.js:123-132 | Enter or Space starts a simulated shake in INITIAL and unfolds in READY_TO_UNFOLD; otherwise nothing changes |
| Omikuji.OmikujiApp.ShowFortune | japan_omikuji/js/main.js:242-274 | SHOWING_FORTUNE with the canvas and instruction hidden; the panel shows the held fortune, or stays as it was when there is none |
| Omikuji.OmikujiApp.OnPaperUnfolded | japan_omikuji/js/main.js:234-236 | the unfold animation's completion shows the fortune |
| Omikuji.OmikujiApp.Reset | japan_omikuji/js/main.js:279-295 | INITIAL, no fortune, shake count 0, panel hidden and canvas shown |
| Omikuji.KeyboardDraw | japan_omikuji/js/main.js:123-127 | Enter in INITIAL and fifteen interval ticks reach STICK_EMERGING with the drawn fortune and the interval cleared |
| Omikuji.DragDraw | japan_omikuji/js/main.js:155-168 | pointer down and fifteen drag moves reach STICK_EMERGING with the drawn fortune |
| Omikuji.InterruptedDrag | japan_omikuji/js/main.js:173-182 | after five moves and a release the count is still 5, so ten moves of a new drag complete the shake |
| Omikuji.FullFlow | japan_omikuji/js/main.js:212-295 | draw, emerge, unfold and show put the fortune's names, its level's colour and all six messages on the panel; reset then returns to INITIAL with no fortune and count 0 |
| Omikuji.DrawAndShow | japan_omikuji/js/main.js:212-262 | for a sample in [0, 1) the panel shows the fortune generateFortune draws, with the drawn level's Japanese name, never in the default black |

## Left out

- Storage I/O: `localStorage`, `JSON.stringify` and `JSON.parse` are not modelled. Storage is one slot holding a snapshot. Unreadable text is `Malformed` and loads the defaults.
- Write failures: the model does not include a failing `setItem`, which the source catches and logs.
- Saved fields of the wrong JSON type: the model covers present and absent fields only.
- Extra fields: fields beyond the record that the object spread would carry along are not modelled.
- Listener calls: a listener is an opaque id and each call is a recorded delivery. The try/catch that isolates a throwing listener is not modelled, because listeners are foreign closures.
- Closures: state callbacks and transition conditions are closures. The model records which callbacks run, and takes as input which named conditions hold.
- Arithmetic: percentages, the fortune draw and the critical-hit roll use real numbers, not IEEE doubles.
- Tasks.Percentage: JavaScript's non-finite results are modelled only as far as the zero target goes: positive progress over a zero target gives 100 (`Math.min(Infinity, 100)`), and zero or negative progress gives None (NaN or −Infinity).
- Levels.FirecrackersNeeded: requires a positive damage. The source computes `Math.ceil(hp / d)` for any number, which gives Infinity or NaN at 0 and negative counts below it. Nothing in the repository calls `getFirecrackersNeeded`; 10 is the default of its damage parameter (levels.js:66).
- Security.SecurityManager.GenerateChecksum: takes the UTF-16 code units of the serialised data. `JSON.stringify` itself is not modelled.
- Combat.CombatSystem.OnBeastTapped: the model keeps every damage number. The source drops numbers whose fade-out has removed them from the stage. Sprites, sounds and toast messages are presentation.
- Fortunes.GetLevelColor: JavaScript would return the inherited function for ids such as "constructor"; the model treats every id outside the table as missing.
- Fortunes.Message: the same applies to the message tables.
- Fortunes.GenerateFortune: the timestamp is not part of the fortune, because it comes from the clock.
- DOM and 3D scene in the omikuji app: DOM elements, the 3D animation, rotation velocities and shake intensities are not modelled. Neither are sakura petals, scrolling or the share feature. The model keeps the state, the instruction line, the visibility of the canvas and panel, and the panel's contents.
- Omikuji.OmikujiApp.OnShakeComplete: takes the fortune that `generateFortune` returns as a parameter instead of calling it; `Omikuji.DrawAndShow` runs the flow on the fortune `Fortunes.GenerateFortune` draws. The same holds for the handlers and flows that reach it.
- Omikuji.OmikujiApp.ShowFortune: with no fortune held, the source throws a TypeError after hiding the canvas. The model stops at the same point and returns false.
- Persisted settings: `soundEnabled` and `musicEnabled` are carried in the record, but the UI that uses them is not modelled.
