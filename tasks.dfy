/** The task ledger on top of the store (chinese_game/js/systems/TaskSystem.js):
    the claimability check, guarded claiming, the read-only progress projection used
    by the task panel, and the once-a-second timer that drives the stay task. */
module Tasks {
  import opened Wrappers
  import opened Store

  const StayTimerKey := "stay_timer"
  const TickMs := 1000

  /** checkTaskCompletion: the first task with this id has reached its target and is
      not yet completed; false for an unknown id. */
  function CheckTaskCompletion(tasks: seq<Task>, id: string): (b: bool)
    ensures (forall j :: 0 <= j < |tasks| ==> tasks[j].id != id) ==> !b
    ensures b ==> exists j :: 0 <= j < |tasks| && tasks[j].id == id &&
                              tasks[j].progress >= tasks[j].target && !tasks[j].completed
    ensures b <==> exists j :: 0 <= j < |tasks| && tasks[j].id == id &&
                               (forall k :: 0 <= k < j ==> tasks[k].id != id) &&
                               tasks[j].progress >= tasks[j].target && !tasks[j].completed
  {
    match FindTask(tasks, id)
    case None => false
    case Some(i) => tasks[i].progress >= tasks[i].target && !tasks[i].completed
  }

  /** The ledger's check and the store's claim guard are the same condition, so
      claimTaskReward's pre-check never turns away a claim completeTask would accept. */
  lemma CheckAgreesWithStore(tasks: seq<Task>, id: string)
    ensures CheckTaskCompletion(tasks, id) == ReadyToClaim(tasks, id)
  {
  }

  /** The `{ progress, target, percentage }` record of getTaskProgress. The percentage
      is None where JavaScript's division yields a non-finite number (NaN or −Infinity
      for a zero target). */
  datatype TaskProgress = TaskProgress(progress: int, target: int, percentage: Option<real>)

  /** `Math.min(progress / target * 100, 100)`. */
  function Percentage(progress: int, target: int): Option<real> {
    if target == 0 then (if progress > 0 then Some(100.0) else None)
    else
      var p := (progress as real / target as real) * 100.0;
      Some(if p <= 100.0 then p else 100.0)
  }

  /** getTaskProgress. */
  function GetTaskProgress(tasks: seq<Task>, id: string): (r: TaskProgress)
    ensures FindTask(tasks, id).None? ==> r == TaskProgress(0, 0, Some(0.0))
    ensures FindTask(tasks, id).Some? ==>
              r.progress == tasks[FindTask(tasks, id).value].progress &&
              r.target == tasks[FindTask(tasks, id).value].target &&
              r.percentage == Percentage(r.progress, r.target)
  {
    match FindTask(tasks, id)
    case None => TaskProgress(0, 0, Some(0.0))
    case Some(i) => TaskProgress(tasks[i].progress, tasks[i].target, Percentage(tasks[i].progress, tasks[i].target))
  }

  /** For a task with a positive target and non-negative progress the percentage is
      finite, lies in [0, 100], and is exactly 100 once the target is reached. */
  lemma PercentageBounds(progress: int, target: int)
    requires target > 0 && progress >= 0
    ensures Percentage(progress, target).Some?
    ensures 0.0 <= Percentage(progress, target).value <= 100.0
    ensures Percentage(progress, target).value == 100.0 <==> progress >= target
  {
    var q := progress as real / target as real;
    assert q * target as real == progress as real;
    if progress < target {
      assert q < 1.0;
    } else {
      assert q >= 1.0;
    }
  }

  /** One entry of getAllTasks: the task's own fields overlaid with its progress
      record, plus whether it can be claimed. */
  datatype TaskView = TaskView(
    id: string, title: string, reward: int, completed: bool,
    progress: int, target: int, percentage: Option<real>, canClaim: bool)

  function ViewOf(tasks: seq<Task>, t: Task): TaskView {
    var p := GetTaskProgress(tasks, t.id);
    TaskView(t.id, t.title, t.reward, t.completed, p.progress, p.target, p.percentage,
             CheckTaskCompletion(tasks, t.id))
  }

  /** getAllTasks: one entry per task, in the store's order. */
  function GetAllTasks(tasks: seq<Task>): (r: seq<TaskView>)
    ensures |r| == |tasks|
    ensures forall i :: 0 <= i < |r| ==>
              r[i].id == tasks[i].id && r[i].title == tasks[i].title && r[i].reward == tasks[i].reward &&
              r[i].completed == tasks[i].completed &&
              r[i].canClaim == CheckTaskCompletion(tasks, tasks[i].id)
    ensures forall i :: 0 <= i < |r| ==>
              r[i].progress == GetTaskProgress(tasks, tasks[i].id).progress &&
              r[i].target == GetTaskProgress(tasks, tasks[i].id).target &&
              r[i].percentage == GetTaskProgress(tasks, tasks[i].id).percentage
  {
    seq(|tasks|, i requires 0 <= i < |tasks| => ViewOf(tasks, tasks[i]))
  }

  predicate UniqueIds(tasks: seq<Task>) {
    forall i, j :: 0 <= i < j < |tasks| ==> tasks[i].id != tasks[j].id
  }

  /** With distinct ids (as in the default task list) every entry shows its own task's
      progress and target, and can be claimed exactly when that task is ready. */
  lemma AllTasksWithUniqueIds(tasks: seq<Task>)
    requires UniqueIds(tasks)
    ensures forall i :: 0 <= i < |tasks| ==>
              GetAllTasks(tasks)[i].progress == tasks[i].progress &&
              GetAllTasks(tasks)[i].target == tasks[i].target &&
              (GetAllTasks(tasks)[i].canClaim <==> tasks[i].progress >= tasks[i].target && !tasks[i].completed)
  {
    forall i | 0 <= i < |tasks|
      ensures FindTask(tasks, tasks[i].id) == Some(i)
    {
      assert FindTask(tasks, tasks[i].id).Some?;
    }
  }

  // ---------------------------------------------------------------------------
  // The stay timer

  /** Whether the timer callback finds the stay task open and below its target. */
  predicate StayTickWrites(tasks: seq<Task>) {
    match FindTask(tasks, StayTaskId)
    case None => false
    case Some(i) => !tasks[i].completed && tasks[i].progress < tasks[i].target
  }

  /** The timer's write: the stay task's progress becomes min(elapsed seconds, target). */
  function StayTicked(s: GameState, elapsedSeconds: int): GameState {
    if StayTickWrites(s.tasks) then
      var i := FindTask(s.tasks, StayTaskId).value;
      s.(tasks := s.tasks[i := s.tasks[i].(progress := Min(elapsedSeconds, s.tasks[i].target))])
    else s
  }

  /** Whether the timer callback clears its interval after its write. */
  predicate StayTargetReached(tasks: seq<Task>) {
    match FindTask(tasks, StayTaskId)
    case None => false
    case Some(i) => tasks[i].progress >= tasks[i].target
  }

  /** The tick never moves progress past the target, touches only the stay task's
      progress, and keeps the store invariant while the clock has not gone backwards. */
  lemma StayTickedValid(s: GameState, elapsedSeconds: int)
    requires Invariant(s) && elapsedSeconds >= 0
    ensures Invariant(StayTicked(s, elapsedSeconds))
    ensures |StayTicked(s, elapsedSeconds).tasks| == |s.tasks|
    ensures StayTicked(s, elapsedSeconds).(tasks := s.tasks) == s
    ensures forall j :: 0 <= j < |s.tasks| && s.tasks[j].id != StayTaskId ==>
              StayTicked(s, elapsedSeconds).tasks[j] == s.tasks[j]
  {
  }

  /** Once the tick has run with at least the target's number of seconds elapsed, the
      stay task (when open) is at its target and the timer stops. */
  lemma StayTickReachesTarget(s: GameState, elapsedSeconds: int)
    requires StayTickWrites(s.tasks)
    requires elapsedSeconds >= s.tasks[FindTask(s.tasks, StayTaskId).value].target
    ensures StayTargetReached(StayTicked(s, elapsedSeconds).tasks)
    ensures CheckTaskCompletion(StayTicked(s, elapsedSeconds).tasks, StayTaskId)
  {
    var i := FindTask(s.tasks, StayTaskId).value;
    FindTaskAfterUpdate(s.tasks, i, s.tasks[i].(progress := Min(elapsedSeconds, s.tasks[i].target)), StayTaskId);
  }

  class TaskSystem {
    const store: GameStore
    var startTime: int
    /** The keys of the `timers` map. */
    var timers: set<string>
    /** Whether the stay interval has not been cleared yet. */
    var stayTimerRunning: bool

    /** The constructor records the start time, advances the login task by one and
        starts the stay timer. */
    constructor (store: GameStore, now: int)
      modifies store
      ensures this.store == store && startTime == now
      ensures timers == {StayTimerKey} && stayTimerRunning
      ensures store.state == old(store.state).(tasks := Progressed(old(store.state).tasks, LoginTaskId, 1))
      ensures store.listeners == old(store.listeners)
      ensures Progresses(old(store.state).tasks, LoginTaskId) ==>
                store.storage == Parsed(Snapshot(store.state)) &&
                store.deliveries == old(store.deliveries) + Broadcast(store.listeners, store.state)
      ensures !Progresses(old(store.state).tasks, LoginTaskId) ==>
                store.storage == old(store.storage) && store.deliveries == old(store.deliveries)
    {
      this.store := store;
      startTime := now;
      timers := {};
      stayTimerRunning := false;
      new;
      store.UpdateTaskProgress(LoginTaskId, 1);
      StartStayTimer();
    }

    method StartStayTimer()
      modifies this`timers, this`stayTimerRunning
      ensures stayTimerRunning && timers == old(timers) + {StayTimerKey}
    {
      stayTimerRunning := true;
      timers := timers + {StayTimerKey};
    }

    /** One firing of the stay interval at clock time `now`. */
    method StayTick(now: int)
      requires stayTimerRunning
      modifies store, this`stayTimerRunning
      ensures store.state == StayTicked(old(store.state), (now - startTime) / TickMs)
      ensures stayTimerRunning == !StayTargetReached(store.state.tasks)
      ensures store.listeners == old(store.listeners)
      ensures StayTickWrites(old(store.state).tasks) ==>
                store.storage == Parsed(Snapshot(store.state)) &&
                store.deliveries == old(store.deliveries) + Broadcast(store.listeners, store.state)
      ensures !StayTickWrites(old(store.state).tasks) ==>
                store.storage == old(store.storage) && store.deliveries == old(store.deliveries)
    {
      var found := FindTask(store.state.tasks, StayTaskId);
      if found.Some? && !store.state.tasks[found.value].completed
         && store.state.tasks[found.value].progress < store.state.tasks[found.value].target {
        var i := found.value;
        var elapsed := (now - startTime) / TickMs;
        var task := store.state.tasks[i];
        store.state := store.state.(tasks := store.state.tasks[i := task.(progress := Min(elapsed, task.target))]);
        store.SaveState();
        store.Notify();
      }
      if found.Some? && store.state.tasks[found.value].progress >= store.state.tasks[found.value].target {
        stayTimerRunning := false;
      }
    }

    /** claimTaskReward. */
    method ClaimTaskReward(id: string) returns (ok: bool)
      modifies store`state, store`storage, store`deliveries
      ensures ok == CheckTaskCompletion(old(store.state).tasks, id)
      ensures store.state == if ok then Claimed(old(store.state), id) else old(store.state)
      ensures store.storage == if ok then Parsed(Snapshot(store.state)) else old(store.storage)
      ensures store.deliveries ==
                if ok then old(store.deliveries) + Broadcast(store.listeners, store.state)
                else old(store.deliveries)
    {
      if CheckTaskCompletion(store.state.tasks, id) {
        ok := store.CompleteTask(id);
      } else {
        ok := false;
      }
    }

    /** destroy: clear every interval and forget them. */
    method Destroy()
      modifies this`timers, this`stayTimerRunning
      ensures timers == {} && !stayTimerRunning
    {
      stayTimerRunning := false;
      timers := {};
    }
  }

  /** Constructing the ledger on a fresh day's record makes the login task claimable. */
  lemma LoginClaimableAfterStart(today: string)
    ensures CheckTaskCompletion(Progressed(DefaultState(today).tasks, LoginTaskId, 1), LoginTaskId)
  {
    var tasks := DefaultTasks();
    assert FindTask(tasks, LoginTaskId) == Some(0);
    ProgressedShape(tasks, LoginTaskId, 1);
  }
}
