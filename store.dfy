/** The clicker game's state store (chinese_game/js/utils/store.js).

    `GameStore` owns one mutable record: the firecracker balance, the click count,
    the level and the beast's hit points, the daily task list, two flags and the
    date of the last session. It changes only through named actions, each of which
    writes a full snapshot to storage and notifies the subscribed listeners.

    The effect of every action on the record is given by a pure function on
    `GameState` (Consumed, Damaged, Leveled, Progressed, Claimed, ...); the methods
    of `GameStore` are proved to apply exactly that function, and the lemmas at the
    end of the module prove what the game relies on about those functions. */
module Store {
  import opened Wrappers
  import opened Sequences
  import Levels

  const LoginTaskId := "daily_login"
  const StayTaskId := "stay_15s"
  const ClickTaskId := "click_100"
  const DefaultFirecrackers := 5000

  datatype Task = Task(id: string, title: string, reward: int, completed: bool, progress: int, target: int)

  datatype GameState = GameState(
    firecrackers: int,
    totalClicks: int,
    level: int,
    beastHP: int,
    beastMaxHP: int,
    tasks: seq<Task>,
    soundEnabled: bool,
    musicEnabled: bool,
    lastPlayDate: string)

  function Min(a: int, b: int): int { if a <= b then a else b }
  function Max(a: int, b: int): int { if a >= b then a else b }

  /** The three daily tasks every new day starts with. */
  function DefaultTasks(): seq<Task> {
    [ Task(LoginTaskId, "每日登入", 50, false, 0, 1),
      Task(StayTaskId, "停留15秒", 30, false, 0, 15),
      Task(ClickTaskId, "點擊100次", 100, false, 0, 100) ]
  }

  /** getDefaultState, with the current date string passed in. */
  function DefaultState(today: string): GameState {
    GameState(DefaultFirecrackers, 0, 1, 1000, 1000, DefaultTasks(), true, true, today)
  }

  /** What the store's actions keep true of a record they start from. */
  predicate TaskInvariant(t: Task) {
    0 <= t.progress <= t.target && t.reward >= 0 && (t.completed ==> t.progress >= t.target)
  }

  predicate Invariant(s: GameState) {
    && s.firecrackers >= 0
    && s.totalClicks >= 0
    && s.level >= 1
    && 0 <= s.beastHP <= s.beastMaxHP
    && s.beastMaxHP == Levels.LevelHP(s.level)
    && forall i :: 0 <= i < |s.tasks| ==> TaskInvariant(s.tasks[i])
  }

  // ---------------------------------------------------------------------------
  // Task lookup and progress

  /** `tasks.find(t => t.id === id)`, as the index of the first task with that id. */
  function FindTask(tasks: seq<Task>, id: string): (r: Option<nat>)
    ensures r.Some? ==> r.value < |tasks| && tasks[r.value].id == id
    ensures r.Some? ==> forall j :: 0 <= j < r.value ==> tasks[j].id != id
    ensures r.None? <==> forall j :: 0 <= j < |tasks| ==> tasks[j].id != id
  {
    if |tasks| == 0 then None
    else if tasks[0].id == id then Some(0)
    else match FindTask(tasks[1..], id)
      case None => None
      case Some(k) => Some(k + 1)
  }

  /** Whether updateTaskProgress(id, _) finds an open task, and so writes, saves and notifies. */
  predicate Progresses(tasks: seq<Task>, id: string) {
    match FindTask(tasks, id)
    case None => false
    case Some(i) => !tasks[i].completed
  }

  /** The task list after updateTaskProgress(id, increment). */
  function Progressed(tasks: seq<Task>, id: string, increment: int): seq<Task> {
    match FindTask(tasks, id)
    case None => tasks
    case Some(i) =>
      if tasks[i].completed then tasks
      else tasks[i := tasks[i].(progress := Min(tasks[i].progress + increment, tasks[i].target))]
  }

  /** The guard of completeTask: the task exists, is open and has reached its target. */
  predicate ReadyToClaim(tasks: seq<Task>, id: string) {
    match FindTask(tasks, id)
    case None => false
    case Some(i) => !tasks[i].completed && tasks[i].progress >= tasks[i].target
  }

  // ---------------------------------------------------------------------------
  // The actions, as functions on the record

  /** consumeFirecracker(amount) when the balance suffices. */
  function Consumed(s: GameState, amount: int): GameState {
    s.(firecrackers := s.firecrackers - amount, totalClicks := s.totalClicks + 1,
       tasks := Progressed(s.tasks, ClickTaskId, 1))
  }

  /** damageYearBeast(damage). */
  function Damaged(s: GameState, damage: int): GameState {
    s.(beastHP := Max(0, s.beastHP - damage))
  }

  /** addFirecrackers(amount). */
  function Credited(s: GameState, amount: int): GameState {
    s.(firecrackers := s.firecrackers + amount)
  }

  /** nextLevel, with the store's own copy of the HP formula. */
  function Leveled(s: GameState): GameState {
    var level := s.level + 1;
    var maxHP := 1000 + (level - 1) * 500;
    s.(level := level, beastMaxHP := maxHP, beastHP := maxHP)
  }

  /** completeTask(id) when its guard holds: mark it completed, then credit its reward. */
  function Claimed(s: GameState, id: string): GameState
    requires ReadyToClaim(s.tasks, id)
  {
    var i := FindTask(s.tasks, id).value;
    Credited(s.(tasks := s.tasks[i := s.tasks[i].(completed := true)]), s.tasks[i].reward)
  }

  // ---------------------------------------------------------------------------
  // Persistence

  /** A parsed snapshot: every field may be absent from the saved object. */
  datatype SavedState = SavedState(
    firecrackers: Option<int>,
    totalClicks: Option<int>,
    level: Option<int>,
    beastHP: Option<int>,
    beastMaxHP: Option<int>,
    tasks: Option<seq<Task>>,
    soundEnabled: Option<bool>,
    musicEnabled: Option<bool>,
    lastPlayDate: Option<string>)

  /** The storage slot: nothing saved, text that does not parse into a saved object,
      or a parsed object. */
  datatype Persisted = Missing | Malformed | Parsed(saved: SavedState)

  /** What saveState writes: every field of the record. */
  function Snapshot(s: GameState): SavedState {
    SavedState(Some(s.firecrackers), Some(s.totalClicks), Some(s.level), Some(s.beastHP),
               Some(s.beastMaxHP), Some(s.tasks), Some(s.soundEnabled), Some(s.musicEnabled),
               Some(s.lastPlayDate))
  }

  /** validateState: on a new day the saved tasks are replaced by the default ones and
      the date is moved to today; then the saved fields are laid over the defaults. */
  function ValidateState(saved: SavedState, today: string): (r: GameState)
    ensures r.lastPlayDate == today
    ensures saved.lastPlayDate != Some(today) ==> r.tasks == DefaultTasks()
    ensures saved.lastPlayDate == Some(today) ==> r.tasks == saved.tasks.GetOr(DefaultTasks())
    ensures r.firecrackers == saved.firecrackers.GetOr(DefaultFirecrackers)
    ensures r.level == saved.level.GetOr(1) && r.beastHP == saved.beastHP.GetOr(1000)
    ensures r.beastMaxHP == saved.beastMaxHP.GetOr(1000) && r.totalClicks == saved.totalClicks.GetOr(0)
    ensures r.soundEnabled == saved.soundEnabled.GetOr(true) && r.musicEnabled == saved.musicEnabled.GetOr(true)
  {
    var defaults := DefaultState(today);
    var state := if saved.lastPlayDate != Some(today)
                 then saved.(tasks := Some(defaults.tasks), lastPlayDate := Some(today))
                 else saved;
    GameState(
      state.firecrackers.GetOr(defaults.firecrackers),
      state.totalClicks.GetOr(defaults.totalClicks),
      state.level.GetOr(defaults.level),
      state.beastHP.GetOr(defaults.beastHP),
      state.beastMaxHP.GetOr(defaults.beastMaxHP),
      state.tasks.GetOr(defaults.tasks),
      state.soundEnabled.GetOr(defaults.soundEnabled),
      state.musicEnabled.GetOr(defaults.musicEnabled),
      state.lastPlayDate.GetOr(defaults.lastPlayDate))
  }

  /** loadState: defaults when nothing usable is stored. */
  function Load(p: Persisted, today: string): (r: GameState)
    ensures !p.Parsed? ==> r == DefaultState(today)
    ensures r.lastPlayDate == today
  {
    match p
    case Parsed(saved) => ValidateState(saved, today)
    case _ => DefaultState(today)
  }

  // ---------------------------------------------------------------------------
  // Listeners

  /** An opaque identity for a subscribed callback. */
  type ListenerId = int

  /** One call of a listener with the state it was given. */
  datatype Delivery = Delivery(listener: ListenerId, state: GameState)

  /** What notify does: call every listener, in subscription order, with the state. */
  function Broadcast(listeners: seq<ListenerId>, s: GameState): (r: seq<Delivery>)
    ensures |r| == |listeners|
    ensures forall i :: 0 <= i < |r| ==> r[i] == Delivery(listeners[i], s)
  {
    if listeners == [] then [] else [Delivery(listeners[0], s)] + Broadcast(listeners[1..], s)
  }

  /** `listeners.filter(cb => cb !== callback)`. */
  function Without(listeners: seq<ListenerId>, callback: ListenerId): (r: seq<ListenerId>)
    ensures forall x :: x in r <==> x in listeners && x != callback
    ensures |r| <= |listeners|
    ensures callback !in listeners ==> r == listeners
    ensures Subsequence(r, listeners)
    ensures forall x :: multiset(r)[x] == if x == callback then 0 else multiset(listeners)[x]
  {
    if listeners == [] then []
    else
      var rest := Without(listeners[1..], callback);
      assert listeners == [listeners[0]] + listeners[1..];
      if listeners[0] == callback then
        rest
      else
        assert ([listeners[0]] + rest)[1..] == rest;
        [listeners[0]] + rest
  }

  // ---------------------------------------------------------------------------
  // The store

  class GameStore {
    var state: GameState
    var listeners: seq<ListenerId>
    /** The localStorage slot. */
    var storage: Persisted
    /** Every listener call made so far, in order. */
    var deliveries: seq<Delivery>

    /** The constructor loads the state from what is stored; it writes nothing. */
    constructor (stored: Persisted, today: string)
      ensures state == Load(stored, today)
      ensures listeners == [] && storage == stored && deliveries == []
    {
      state := Load(stored, today);
      listeners := [];
      storage := stored;
      deliveries := [];
    }

    method SaveState()
      modifies this`storage
      ensures storage == Parsed(Snapshot(state))
    {
      storage := Parsed(Snapshot(state));
    }

    method Notify()
      modifies this`deliveries
      ensures deliveries == old(deliveries) + Broadcast(listeners, state)
    {
      deliveries := deliveries + Broadcast(listeners, state);
    }

    method Subscribe(callback: ListenerId)
      modifies this`listeners
      ensures listeners == old(listeners) + [callback]
    {
      listeners := listeners + [callback];
    }

    /** The function subscribe returns: it removes every occurrence of the callback. */
    method Unsubscribe(callback: ListenerId)
      modifies this`listeners
      ensures listeners == Without(old(listeners), callback)
    {
      listeners := Without(listeners, callback);
    }

    method UpdateTaskProgress(id: string, increment: int)
      modifies this`state, this`storage, this`deliveries
      ensures state == old(state).(tasks := Progressed(old(state).tasks, id, increment))
      ensures Progresses(old(state).tasks, id) ==>
                storage == Parsed(Snapshot(state)) &&
                deliveries == old(deliveries) + Broadcast(listeners, state)
      ensures !Progresses(old(state).tasks, id) ==>
                storage == old(storage) && deliveries == old(deliveries)
    {
      var found := FindTask(state.tasks, id);
      if found.Some? && !state.tasks[found.value].completed {
        var i := found.value;
        var task := state.tasks[i];
        state := state.(tasks := state.tasks[i := task.(progress := Min(task.progress + increment, task.target))]);
        SaveState();
        Notify();
      }
    }

    /** consumeFirecracker. A successful call notifies twice when the click task is
        open: once from updateTaskProgress and once of its own. */
    method ConsumeFirecracker(amount: int) returns (ok: bool)
      modifies this`state, this`storage, this`deliveries
      ensures ok == (old(state).firecrackers >= amount)
      ensures state == if ok then Consumed(old(state), amount) else old(state)
      ensures storage == if ok then Parsed(Snapshot(state)) else old(storage)
      ensures deliveries ==
                if !ok then old(deliveries)
                else if Progresses(old(state).tasks, ClickTaskId)
                then old(deliveries) + Broadcast(listeners, state) + Broadcast(listeners, state)
                else old(deliveries) + Broadcast(listeners, state)
    {
      if state.firecrackers >= amount {
        state := state.(firecrackers := state.firecrackers - amount, totalClicks := state.totalClicks + 1);
        UpdateTaskProgress(ClickTaskId, 1);
        SaveState();
        Notify();
        return true;
      }
      return false;
    }

    method DamageYearBeast(damage: int) returns (defeated: bool)
      modifies this`state, this`storage, this`deliveries
      ensures state == Damaged(old(state), damage)
      ensures defeated <==> state.beastHP == 0
      ensures storage == Parsed(Snapshot(state))
      ensures deliveries == old(deliveries) + Broadcast(listeners, state)
    {
      state := state.(beastHP := Max(0, state.beastHP - damage));
      SaveState();
      Notify();
      defeated := state.beastHP == 0;
    }

    method AddFirecrackers(amount: int)
      modifies this`state, this`storage, this`deliveries
      ensures state == Credited(old(state), amount)
      ensures storage == Parsed(Snapshot(state))
      ensures deliveries == old(deliveries) + Broadcast(listeners, state)
    {
      state := state.(firecrackers := state.firecrackers + amount);
      SaveState();
      Notify();
    }

    method NextLevel()
      modifies this`state, this`storage, this`deliveries
      ensures state == Leveled(old(state))
      ensures storage == Parsed(Snapshot(state))
      ensures deliveries == old(deliveries) + Broadcast(listeners, state)
    {
      var level := state.level + 1;
      state := state.(level := level);
      state := state.(beastMaxHP := 1000 + (state.level - 1) * 500);
      state := state.(beastHP := state.beastMaxHP);
      SaveState();
      Notify();
    }

    method CompleteTask(id: string) returns (ok: bool)
      modifies this`state, this`storage, this`deliveries
      ensures ok == ReadyToClaim(old(state).tasks, id)
      ensures state == if ok then Claimed(old(state), id) else old(state)
      ensures storage == if ok then Parsed(Snapshot(state)) else old(storage)
      ensures deliveries == if ok then old(deliveries) + Broadcast(listeners, state) else old(deliveries)
    {
      var found := FindTask(state.tasks, id);
      if found.Some? && !state.tasks[found.value].completed && state.tasks[found.value].progress >= state.tasks[found.value].target {
        var i := found.value;
        var task := state.tasks[i];
        state := state.(tasks := state.tasks[i := task.(completed := true)]);
        AddFirecrackers(task.reward);
        return true;
      }
      return false;
    }

    /** reset, with the current date string passed in. */
    method Reset(today: string)
      modifies this`state, this`storage, this`deliveries
      ensures state == DefaultState(today)
      ensures storage == Parsed(Snapshot(state))
      ensures deliveries == old(deliveries) + Broadcast(listeners, state)
    {
      state := DefaultState(today);
      SaveState();
      Notify();
    }
  }

  // ---------------------------------------------------------------------------
  // Properties of the actions

  /** A fresh record satisfies the invariant. */
  lemma DefaultStateValid(today: string)
    ensures Invariant(DefaultState(today))
    ensures DefaultState(today).beastHP == DefaultState(today).beastMaxHP == Levels.LevelHP(1)
  {
  }

  /** Replacing a task by one with the same id does not move any lookup. */
  lemma {:induction false} FindTaskAfterUpdate(tasks: seq<Task>, i: nat, t: Task, id: string)
    requires i < |tasks| && t.id == tasks[i].id
    ensures FindTask(tasks[i := t], id) == FindTask(tasks, id)
  {
    if |tasks| > 0 && tasks[0].id != id {
      if i == 0 {
        assert tasks[i := t][1..] == tasks[1..];
      } else {
        assert tasks[i := t][1..] == tasks[1..][i - 1 := t];
        FindTaskAfterUpdate(tasks[1..], i - 1, t, id);
      }
    }
  }

  /** updateTaskProgress changes at most the progress of the first task with that id,
      and leaves every id, reward, target and completion flag as it was. */
  lemma ProgressedShape(tasks: seq<Task>, id: string, increment: int)
    ensures |Progressed(tasks, id, increment)| == |tasks|
    ensures forall j :: 0 <= j < |tasks| ==>
              var t := Progressed(tasks, id, increment)[j];
              t.id == tasks[j].id && t.title == tasks[j].title && t.reward == tasks[j].reward &&
              t.target == tasks[j].target && t.completed == tasks[j].completed
    ensures !Progresses(tasks, id) ==> Progressed(tasks, id, increment) == tasks
    ensures forall j :: 0 <= j < |tasks| && Some(j) != FindTask(tasks, id) ==>
              Progressed(tasks, id, increment)[j] == tasks[j]
    ensures FindTask(Progressed(tasks, id, increment), id) == FindTask(tasks, id)
  {
    match FindTask(tasks, id)
    case None =>
    case Some(i) =>
      if !tasks[i].completed {
        FindTaskAfterUpdate(tasks, i, tasks[i].(progress := Min(tasks[i].progress + increment, tasks[i].target)), id);
      }
  }

  /** Progress saturates: two increments compose into one, capped at the target. */
  lemma ProgressedTwice(tasks: seq<Task>, id: string, a: int, b: int)
    requires b >= 0
    ensures Progressed(Progressed(tasks, id, a), id, b) == Progressed(tasks, id, a + b)
  {
    match FindTask(tasks, id)
    case None =>
    case Some(i) =>
      if !tasks[i].completed {
        var t := tasks[i];
        var once := t.(progress := Min(t.progress + a, t.target));
        assert Progressed(tasks, id, a) == tasks[i := once];
        FindTaskAfterUpdate(tasks, i, once, id);
        assert Min(once.progress + b, t.target) == Min(t.progress + a + b, t.target);
        assert tasks[i := once][i := once.(progress := Min(once.progress + b, once.target))]
            == tasks[i := t.(progress := Min(t.progress + a + b, t.target))];
      }
  }

  /** `n` successive increments of 1. */
  function ProgressedTimes(tasks: seq<Task>, id: string, n: nat): seq<Task> {
    if n == 0 then tasks else Progressed(ProgressedTimes(tasks, id, n - 1), id, 1)
  }

  lemma {:induction false} ProgressedTimesIsOneStep(tasks: seq<Task>, id: string, n: nat)
    requires n >= 1
    ensures ProgressedTimes(tasks, id, n) == Progressed(tasks, id, n)
  {
    if n > 1 {
      ProgressedTimesIsOneStep(tasks, id, n - 1);
      ProgressedTwice(tasks, id, n - 1, 1);
    }
  }

  /** updateTaskProgress preserves every task's invariant when the increment is not negative. */
  lemma ProgressedKeepsTasks(tasks: seq<Task>, id: string, increment: int)
    requires increment >= 0
    requires forall i :: 0 <= i < |tasks| ==> TaskInvariant(tasks[i])
    ensures forall i :: 0 <= i < |Progressed(tasks, id, increment)| ==> TaskInvariant(Progressed(tasks, id, increment)[i])
  {
    ProgressedShape(tasks, id, increment);
  }

  /** A successful consume keeps the invariant, takes exactly `amount` firecrackers
      and counts exactly one click. */
  lemma ConsumedValid(s: GameState, amount: int)
    requires Invariant(s) && 0 <= amount <= s.firecrackers
    ensures Invariant(Consumed(s, amount))
    ensures Consumed(s, amount).firecrackers == s.firecrackers - amount
    ensures Consumed(s, amount).totalClicks == s.totalClicks + 1
  {
    ProgressedKeepsTasks(s.tasks, ClickTaskId, 1);
  }

  /** Damage clamps at zero, reports a defeat exactly when it reaches the remaining HP,
      and keeps the invariant. */
  lemma DamagedValid(s: GameState, damage: int)
    requires Invariant(s) && damage >= 0
    ensures Invariant(Damaged(s, damage))
    ensures Damaged(s, damage).beastHP == 0 <==> damage >= s.beastHP
    ensures s.beastHP == 0 ==> Damaged(s, damage) == s
  {
  }

  /** The store's level-up formula agrees with the level curve at every level. */
  lemma LeveledMatchesCurve(s: GameState)
    ensures Leveled(s).beastMaxHP == Levels.LevelHP(Leveled(s).level)
    ensures Leveled(s).beastHP == Leveled(s).beastMaxHP
    ensures Invariant(s) ==> Invariant(Leveled(s))
  {
  }

  /** Claiming pays the reward once: the claimed task is completed, the balance rises by
      exactly its reward, the invariant holds, and a second claim is refused. */
  lemma ClaimedOnce(s: GameState, id: string)
    requires ReadyToClaim(s.tasks, id)
    ensures var i := FindTask(s.tasks, id).value;
            Claimed(s, id).firecrackers == s.firecrackers + s.tasks[i].reward &&
            Claimed(s, id).tasks[i].completed
    ensures !ReadyToClaim(Claimed(s, id).tasks, id)
    ensures Invariant(s) ==> Invariant(Claimed(s, id))
  {
    var i := FindTask(s.tasks, id).value;
    FindTaskAfterUpdate(s.tasks, i, s.tasks[i].(completed := true), id);
  }

  /** A record saved and loaded on the same day comes back unchanged. */
  lemma LoadRoundTrip(s: GameState)
    ensures Load(Parsed(Snapshot(s)), s.lastPlayDate) == s
  {
  }

  /** A record saved on another day loads with fresh tasks and today's date, keeping
      the balance, the level and the beast. */
  lemma LoadNextDay(s: GameState, today: string)
    requires s.lastPlayDate != today
    ensures Load(Parsed(Snapshot(s)), today) == s.(tasks := DefaultTasks(), lastPlayDate := today)
  {
  }

  /** `n` successful one-firecracker consumes. */
  function ConsumedTimes(s: GameState, n: nat): GameState {
    if n == 0 then s else Consumed(ConsumedTimes(s, n - 1), 1)
  }

  lemma {:induction false} ConsumedTimesTasks(s: GameState, n: nat)
    ensures ConsumedTimes(s, n).tasks == ProgressedTimes(s.tasks, ClickTaskId, n)
    ensures ConsumedTimes(s, n).firecrackers == s.firecrackers - n
  {
    if n > 0 {
      ConsumedTimesTasks(s, n - 1);
    }
  }

  /** From the default record, 100 clicks make the click task claimable, and 99 do not. */
  lemma HundredClicksUnlockClickTask(today: string)
    ensures ReadyToClaim(ConsumedTimes(DefaultState(today), 100).tasks, ClickTaskId)
    ensures !ReadyToClaim(ConsumedTimes(DefaultState(today), 99).tasks, ClickTaskId)
  {
    var tasks := DefaultTasks();
    assert FindTask(tasks, ClickTaskId) == Some(2);
    ConsumedTimesTasks(DefaultState(today), 100);
    ProgressedTimesIsOneStep(tasks, ClickTaskId, 100);
    ConsumedTimesTasks(DefaultState(today), 99);
    ProgressedTimesIsOneStep(tasks, ClickTaskId, 99);
    ProgressedShape(tasks, ClickTaskId, 100);
    ProgressedShape(tasks, ClickTaskId, 99);
  }
}
