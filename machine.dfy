/** The generic state machine of the clicker game (chinese_game/js/systems/StateMachine.js):
    registered states with optional callbacks, guarded transitions, and the current and
    previous state.

    Callbacks are opaque closures; the model records which registered callbacks run,
    in order, as an event trace. A transition condition is a closure evaluated when the
    change is attempted; the model names each condition, and `changeState` is told
    which named conditions hold at that moment. */
module Machine {
  import opened Wrappers

  const DefaultInitialState := "idle"

  /** Which of onEnter, onUpdate and onExit the caller of registerState supplied
      (a missing one defaults to a function that does nothing). */
  datatype Hooks = Hooks(onEnter: bool, onUpdate: bool, onExit: bool)

  /** A transition condition: the default `() => true`, or a named check. */
  datatype Guard = Always | Condition(name: string)

  /** One callback invocation. */
  datatype Event = Entered(state: string) | Updated(state: string) | Exited(state: string)

  /** The key of the transitions map, `${from}->${to}`. */
  function TransitionKey(from: string, to: string): string {
    from + "->" + to
  }

  predicate GuardHolds(g: Guard, holding: set<string>) {
    match g
    case Always => true
    case Condition(name) => name in holding
  }

  /** Whether a change along `key` is allowed: with no registered transition it is. */
  predicate Allowed(transitions: map<string, Guard>, key: string, holding: set<string>) {
    key !in transitions || GuardHolds(transitions[key], holding)
  }

  /** The callbacks a change from `from` to `to` runs: the old state's onExit, then the
      new state's onEnter. */
  function ChangeEvents(states: map<string, Hooks>, from: string, to: string): seq<Event>
    requires to in states
  {
    (if from in states && states[from].onExit then [Exited(from)] else [])
    + (if states[to].onEnter then [Entered(to)] else [])
  }

  class StateMachine {
    var currentState: string
    var previousState: Option<string>
    var states: map<string, Hooks>
    var transitions: map<string, Guard>
    /** The callbacks run so far, in order. */
    var trace: seq<Event>

    constructor (initialState: string)
      ensures currentState == initialState && previousState == None
      ensures states == map[] && transitions == map[] && trace == []
    {
      currentState := initialState;
      previousState := None;
      states := map[];
      transitions := map[];
      trace := [];
    }

    /** registerState; a second registration of a name replaces the first. */
    method RegisterState(name: string, hooks: Hooks)
      modifies this`states
      ensures states == old(states)[name := hooks]
    {
      states := states[name := hooks];
    }

    /** registerTransition; a second registration of a pair replaces the first. */
    method RegisterTransition(from: string, to: string, guard: Guard)
      modifies this`transitions
      ensures transitions == old(transitions)[TransitionKey(from, to) := guard]
    {
      transitions := transitions[TransitionKey(from, to) := guard];
    }

    /** changeState, where `holding` names the transition conditions that are true now. */
    method ChangeState(newState: string, holding: set<string>) returns (ok: bool)
      modifies this`currentState, this`previousState, this`trace
      ensures ok <==> newState in states && Allowed(transitions, TransitionKey(old(currentState), newState), holding)
      ensures ok ==> currentState == newState && previousState == Some(old(currentState)) &&
                     trace == old(trace) + ChangeEvents(states, old(currentState), newState)
      ensures !ok ==> currentState == old(currentState) && previousState == old(previousState) &&
                      trace == old(trace)
      ensures ok ==> IsInState(newState) && GetPreviousState() == Some(old(currentState))
      ensures !ok ==> IsInState(old(currentState)) && GetPreviousState() == old(previousState)
    {
      if newState !in states {
        return false;
      }
      var key := TransitionKey(currentState, newState);
      if key in transitions {
        var condition := transitions[key];
        if !GuardHolds(condition, holding) {
          return false;
        }
      }
      if currentState in states && states[currentState].onExit {
        trace := trace + [Exited(currentState)];
      }
      previousState := Some(currentState);
      currentState := newState;
      if states[newState].onEnter {
        trace := trace + [Entered(newState)];
      }
      return true;
    }

    /** update: run the current state's onUpdate, if the state is registered. */
    method Update()
      modifies this`trace
      ensures trace == old(trace) + (if currentState in states && states[currentState].onUpdate
                                     then [Updated(currentState)] else [])
    {
      if currentState in states && states[currentState].onUpdate {
        trace := trace + [Updated(currentState)];
      }
    }

    function GetCurrentState(): string
      reads this
    {
      currentState
    }

    function GetPreviousState(): Option<string>
      reads this
    {
      previousState
    }

    function IsInState(name: string): (b: bool)
      reads this
      ensures b <==> GetCurrentState() == name
    {
      currentState == name
    }
  }

  /** The exit callback of the old state comes before the enter callback of the new one. */
  lemma ExitBeforeEnter(states: map<string, Hooks>, from: string, to: string)
    requires to in states && from in states && states[from].onExit && states[to].onEnter
    ensures ChangeEvents(states, from, to) == [Exited(from), Entered(to)]
  {
  }

  /** The index of the first '-' in `s`, or |s| when there is none. */
  function FirstDash(s: string): (k: nat)
    ensures k <= |s|
  {
    if s == [] || s[0] == '-' then 0 else 1 + FirstDash(s[1..])
  }

  /** The separator of a key whose source name has no '-' is the key's first '-'. */
  lemma {:induction false} FirstDashOfKey(a: string, b: string)
    requires '-' !in a
    ensures FirstDash(TransitionKey(a, b)) == |a|
  {
    if a != [] {
      assert TransitionKey(a, b)[1..] == TransitionKey(a[1..], b);
      FirstDashOfKey(a[1..], b);
    }
  }

  /** Distinct pairs of state names without the separator get distinct transition keys,
      so registering one pair never replaces another's condition. */
  lemma TransitionKeysDistinct(a: string, b: string, c: string, d: string)
    requires '-' !in a && '-' !in c
    requires TransitionKey(a, b) == TransitionKey(c, d)
    ensures a == c && b == d
  {
    FirstDashOfKey(a, b);
    FirstDashOfKey(c, d);
    assert a == TransitionKey(a, b)[..|a|] && c == TransitionKey(c, d)[..|c|];
    assert b == TransitionKey(a, b)[|a| + 2..] && d == TransitionKey(c, d)[|c| + 2..];
  }

  /** Without that restriction two pairs can share a key: "x->" to "y" and "x" to "->y"
      both become "x->->y". */
  lemma TransitionKeyCollision()
    ensures TransitionKey("x->", "y") == TransitionKey("x", "->y")
  {
  }

  /** A transition sequence on a fresh machine: an unregistered target is refused, an
      unguarded pair is allowed, and a false condition blocks. */
  method Walkthrough() returns (results: seq<bool>, m: StateMachine)
    ensures results == [false, true, false, true]
    ensures m.currentState == "run" && m.previousState == Some("idle")
    ensures m.trace == [Exited("idle"), Entered("moving"), Exited("moving"), Entered("idle"), Exited("idle"), Entered("run")]
  {
    m := new StateMachine(DefaultInitialState);
    var r0 := m.ChangeState("moving", {});
    m.RegisterState("idle", Hooks(true, false, true));
    m.RegisterState("moving", Hooks(true, false, true));
    m.RegisterState("run", Hooks(true, false, false));
    m.RegisterTransition("idle", "run", Condition("hasEnergy"));
    assert TransitionKey("idle", "moving") != TransitionKey("idle", "run");
    var r1 := m.ChangeState("moving", {});
    assert m.trace == [Exited("idle"), Entered("moving")];
    assert TransitionKey("moving", "idle") != TransitionKey("idle", "run");
    var back := m.ChangeState("idle", {});
    assert m.trace == [Exited("idle"), Entered("moving"), Exited("moving"), Entered("idle")];
    assert m.currentState == "idle";
    var r2 := m.ChangeState("run", {});
    assert !r2 && m.currentState == "idle";
    var r3 := m.ChangeState("run", {"hasEnergy"});
    results := [r0, r1 && back, r2, r3];
  }
}
