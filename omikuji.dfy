/** The omikuji application controller (japan_omikuji/js/main.js), with the shake
    counter it shares with the animation controller (japan_omikuji/js/animation.js).

    The app walks INITIAL, SHAKING, STICK_EMERGING, READY_TO_UNFOLD, UNFOLDING and
    SHOWING_FORTUNE, driven by pointer, keyboard and click events, by the keyboard's
    simulated-shake interval and by the completion of the two animations.

    Timers and animations are modelled by what is pending: each running simulated-shake
    interval is its own local counter in `shakeIntervals`, and a started animation adds
    one to a pending count; the environment fires a pending callback by calling the
    matching method. The fortune `FortuneSystem.generateFortune()` returns for a draw is
    a parameter of the handlers that draw; `DrawAndShow` runs the flow on the fortune
    `Fortunes.GenerateFortune` draws for a `Math.random()` sample. */
module Omikuji {
  import opened Wrappers
  import opened Fortunes

  datatype AppState = Initial | Shaking | StickEmerging | ReadyToUnfold | Unfolding | ShowingFortune

  /** `OmikujiAnimation.requiredShakes`. */
  const RequiredShakes := 15

  /** What setState writes into the instruction line for a state; the fortune state
      only hides the line and keeps its text. */
  function InstructionText(s: AppState, previous: string): string {
    match s
    case Initial => "Click and drag to shake the box"
    case Shaking => "Keep shaking..."
    case StickEmerging => "Your fortune is emerging..."
    case ReadyToUnfold => "Click to unfold your fortune"
    case Unfolding => "Unfolding..."
    case ShowingFortune => previous
  }

  /** The keys the canvas's keydown handler acts on: Enter and Space. */
  predicate IsActivationKey(key: string) {
    key == "Enter" || key == " "
  }

  /** What showFortune writes into the fortune panel. */
  datatype FortuneDisplay = FortuneDisplay(japanese: string, english: string, color: string, texts: CategoryTexts)

  function DisplayOf(f: Fortune): FortuneDisplay {
    FortuneDisplay(f.level.japanese, f.level.english, GetLevelColor(f.level.id), f.categories)
  }

  /** The panel of a complete fortune shows the level's own colour, never the default
      black, and a message in every category. */
  lemma DisplayOfComplete(f: Fortune)
    requires Complete(f)
    ensures DisplayOf(f).color == Colors[f.level.id] && DisplayOf(f).color != DefaultColor
    ensures forall c :: Text(DisplayOf(f).texts, c).Some?
  {
    ColorKeys();
  }

  /** A panel in the level's colour with a message in every category. */
  predicate CompletePanel(d: FortuneDisplay) {
    d.color != DefaultColor && forall c :: Text(d.texts, c).Some?
  }

  class OmikujiApp {
    /** None until init runs (`null` in the source). */
    var currentState: Option<AppState>
    var currentFortune: Option<Fortune>
    /** The animation controller's shakeCount and isDragging. */
    var shakeCount: nat
    var isDragging: bool
    /** The local counter of each simulated-shake interval still running. */
    var shakeIntervals: seq<nat>
    /** Stick-emergence and paper-unfold animations whose completion is still to come. */
    var pendingStick: nat
    var pendingUnfold: nat
    /** The instruction line, the canvas and the fortune panel (None while hidden). */
    var instructionText: string
    var instructionHidden: bool
    var canvasVisible: bool
    var shown: Option<FortuneDisplay>

    /** What every handler keeps: no interval counter has reached the requirement, and
        the fortune held and the panel shown are complete. */
    ghost predicate Valid()
      reads this
    {
      && (forall k :: 0 <= k < |shakeIntervals| ==> shakeIntervals[k] < RequiredShakes)
      && (currentFortune.Some? ==> Complete(currentFortune.value))
      && (shown.Some? ==> CompletePanel(shown.value))
    }

    constructor ()
      ensures Valid()
      ensures currentState == None && currentFortune == None && shakeCount == 0 && !isDragging
      ensures shakeIntervals == [] && pendingStick == 0 && pendingUnfold == 0
      ensures instructionText == "" && !instructionHidden && canvasVisible && shown == None
    {
      currentState := None;
      currentFortune := None;
      shakeCount := 0;
      isDragging := false;
      shakeIntervals := [];
      pendingStick := 0;
      pendingUnfold := 0;
      instructionText := "";
      instructionHidden := false;
      canvasVisible := true;
      shown := None;
    }

    /** setState: the new state and its instruction line. */
    method SetState(s: AppState)
      modifies this`currentState, this`instructionText, this`instructionHidden
      ensures currentState == Some(s)
      ensures instructionText == InstructionText(s, old(instructionText))
      ensures instructionHidden == match s
                                   case Initial => false
                                   case ShowingFortune => true
                                   case _ => old(instructionHidden)
    {
      currentState := Some(s);
      instructionText := InstructionText(s, instructionText);
      if s == Initial {
        instructionHidden := false;
      } else if s == ShowingFortune {
        instructionHidden := true;
      }
    }

    /** init, past the DOM and scene set-up: the app starts in INITIAL. */
    method Init()
      modifies this`currentState, this`instructionText, this`instructionHidden
      ensures currentState == Some(Initial)
      ensures instructionText == InstructionText(Initial, "") && !instructionHidden
    {
      SetState(Initial);
    }

    /** onPointerDown: only in INITIAL or SHAKING; starts a drag and enters SHAKING. */
    method OnPointerDown()
      modifies this`isDragging, this`currentState, this`instructionText, this`instructionHidden
      ensures old(currentState) == Some(Initial) || old(currentState) == Some(Shaking) ==>
                isDragging && currentState == Some(Shaking) && instructionText == InstructionText(Shaking, "")
      ensures old(currentState) != Some(Initial) && old(currentState) != Some(Shaking) ==>
                isDragging == old(isDragging) && currentState == old(currentState) &&
                instructionText == old(instructionText)
      ensures instructionHidden == old(instructionHidden)
    {
      if currentState != Some(Initial) && currentState != Some(Shaking) {
        return;
      }
      isDragging := true;
      SetState(Shaking);
    }

    /** onShakeComplete: enter STICK_EMERGING, hold the fortune the draw returned and
        start the stick animation. */
    method OnShakeComplete(drawn: Fortune)
      requires Valid() && Complete(drawn)
      modifies this`currentState, this`instructionText, this`instructionHidden,
               this`currentFortune, this`pendingStick
      ensures Valid()
      ensures currentState == Some(StickEmerging) && instructionText == "Your fortune is emerging..."
      ensures currentFortune == Some(drawn)
      ensures pendingStick == old(pendingStick) + 1
      ensures instructionHidden == old(instructionHidden)
    {
      SetState(StickEmerging);
      instructionText := "Your fortune is emerging...";
      currentFortune := Some(drawn);
      pendingStick := pendingStick + 1;
    }

    /** onPointerMove: only in SHAKING. A move during a drag is one more shake; once the
        count reaches the requirement the shake is complete. */
    method OnPointerMove(drawn: Fortune)
      requires Valid() && Complete(drawn)
      modifies this`shakeCount, this`currentState, this`instructionText, this`instructionHidden,
               this`currentFortune, this`pendingStick
      ensures Valid()
      ensures old(currentState) != Some(Shaking) ==>
                shakeCount == old(shakeCount) && currentState == old(currentState) &&
                currentFortune == old(currentFortune) && pendingStick == old(pendingStick) &&
                instructionText == old(instructionText)
      ensures old(currentState) == Some(Shaking) ==>
                shakeCount == old(shakeCount) + (if isDragging then 1 else 0)
      ensures old(currentState) == Some(Shaking) && shakeCount >= RequiredShakes ==>
                currentState == Some(StickEmerging) && currentFortune == Some(drawn) &&
                pendingStick == old(pendingStick) + 1
      ensures old(currentState) == Some(Shaking) && shakeCount < RequiredShakes ==>
                currentState == Some(Shaking) && currentFortune == old(currentFortune) &&
                pendingStick == old(pendingStick) && instructionText == old(instructionText)
      ensures instructionHidden == old(instructionHidden)
    {
      if currentState != Some(Shaking) {
        return;
      }
      if isDragging {
        shakeCount := shakeCount + 1;   // onDragMove calls startShake
      }
      if shakeCount >= RequiredShakes {
        OnShakeComplete(drawn);
      }
    }

    /** onPointerUp (also mouseleave and touchend): the drag ends; a shake left short of
        the requirement returns to INITIAL, keeping its count. */
    method OnPointerUp()
      modifies this`isDragging, this`currentState, this`instructionText, this`instructionHidden
      ensures !isDragging
      ensures old(currentState) == Some(Shaking) && shakeCount < RequiredShakes ==>
                currentState == Some(Initial) && instructionText == InstructionText(Initial, "") &&
                !instructionHidden
      ensures !(old(currentState) == Some(Shaking) && shakeCount < RequiredShakes) ==>
                currentState == old(currentState) && instructionText == old(instructionText) &&
                instructionHidden == old(instructionHidden)
    {
      isDragging := false;
      if currentState == Some(Shaking) {
        if shakeCount < RequiredShakes {
          SetState(Initial);
        }
      }
    }

    /** simulateShake: enter SHAKING and start a new interval with its own counter at 0. */
    method SimulateShake()
      modifies this`currentState, this`instructionText, this`instructionHidden, this`shakeIntervals
      ensures currentState == Some(Shaking) && instructionText == "Shaking..."
      ensures shakeIntervals == old(shakeIntervals) + [0]
      ensures instructionHidden == old(instructionHidden)
    {
      SetState(Shaking);
      instructionText := "Shaking...";
      shakeIntervals := shakeIntervals + [0];
    }

    /** One firing of the `k`-th running simulated-shake interval: its counter goes up by
        one and overwrites the shared count (startShake's own increment is overwritten);
        at the requirement the interval clears itself and completes the shake, whatever
        state the app is in. */
    method ShakeIntervalTick(k: nat, drawn: Fortune)
      requires Valid() && Complete(drawn) && k < |shakeIntervals|
      modifies this`shakeCount, this`shakeIntervals, this`currentState, this`instructionText,
               this`instructionHidden, this`currentFortune, this`pendingStick
      ensures Valid()
      ensures shakeCount == old(shakeIntervals)[k] + 1
      ensures shakeCount < RequiredShakes ==>
                shakeIntervals == old(shakeIntervals)[k := shakeCount] &&
                currentState == old(currentState) && currentFortune == old(currentFortune) &&
                pendingStick == old(pendingStick) && instructionText == old(instructionText)
      ensures shakeCount >= RequiredShakes ==>
                shakeIntervals == old(shakeIntervals)[..k] + old(shakeIntervals)[k + 1..] &&
                currentState == Some(StickEmerging) && currentFortune == Some(drawn) &&
                pendingStick == old(pendingStick) + 1
      ensures instructionHidden == old(instructionHidden)
    {
      var count := shakeIntervals[k] + 1;
      shakeCount := count;
      if count >= RequiredShakes {
        shakeIntervals := shakeIntervals[..k] + shakeIntervals[k + 1..];
        OnShakeComplete(drawn);
      } else {
        shakeIntervals := shakeIntervals[k := count];
      }
    }

    /** The stick animation completes: READY_TO_UNFOLD, whatever the state is by then. */
    method OnStickEmerged()
      requires pendingStick > 0
      modifies this`pendingStick, this`currentState, this`instructionText, this`instructionHidden
      ensures pendingStick == old(pendingStick) - 1
      ensures currentState == Some(ReadyToUnfold) && instructionText == InstructionText(ReadyToUnfold, "")
      ensures instructionHidden == old(instructionHidden)
    {
      pendingStick := pendingStick - 1;
      SetState(ReadyToUnfold);
      instructionText := "Click to unfold your fortune";
    }

    /** unfoldPaper: enter UNFOLDING and start the unfold animation. */
    method UnfoldPaper()
      modifies this`currentState, this`instructionText, this`instructionHidden, this`pendingUnfold
      ensures currentState == Some(Unfolding) && instructionText == InstructionText(Unfolding, "")
      ensures pendingUnfold == old(pendingUnfold) + 1
      ensures instructionHidden == old(instructionHidden)
    {
      SetState(Unfolding);
      instructionText := "Unfolding...";
      pendingUnfold := pendingUnfold + 1;
    }

    /** The click and touchstart handlers of the canvas container: unfold, but only when
        the paper is ready. */
    method OnUnfoldRequest()
      modifies this`currentState, this`instructionText, this`instructionHidden, this`pendingUnfold
      ensures old(currentState) == Some(ReadyToUnfold) ==>
                currentState == Some(Unfolding) && pendingUnfold == old(pendingUnfold) + 1 &&
                instructionText == InstructionText(Unfolding, "")
      ensures old(currentState) != Some(ReadyToUnfold) ==>
                currentState == old(currentState) && pendingUnfold == old(pendingUnfold) &&
                instructionText == old(instructionText)
      ensures instructionHidden == old(instructionHidden)
    {
      if currentState == Some(ReadyToUnfold) {
        UnfoldPaper();
      }
    }

    /** The keydown handler of the canvas: Enter or Space starts a simulated shake in
        INITIAL and unfolds in READY_TO_UNFOLD; any other key or state is ignored. */
    method OnKeyDown(key: string)
      modifies this`currentState, this`instructionText, this`instructionHidden,
               this`shakeIntervals, this`pendingUnfold
      ensures IsActivationKey(key) && old(currentState) == Some(Initial) ==>
                currentState == Some(Shaking) && shakeIntervals == old(shakeIntervals) + [0] &&
                pendingUnfold == old(pendingUnfold)
      ensures IsActivationKey(key) && old(currentState) == Some(ReadyToUnfold) ==>
                currentState == Some(Unfolding) && shakeIntervals == old(shakeIntervals) &&
                pendingUnfold == old(pendingUnfold) + 1
      ensures !IsActivationKey(key) || (old(currentState) != Some(Initial) && old(currentState) != Some(ReadyToUnfold)) ==>
                currentState == old(currentState) && shakeIntervals == old(shakeIntervals) &&
                pendingUnfold == old(pendingUnfold) && instructionText == old(instructionText)
      ensures instructionHidden == old(instructionHidden)
    {
      if IsActivationKey(key) {
        if currentState == Some(Initial) {
          SimulateShake();
        } else if currentState == Some(ReadyToUnfold) {
          UnfoldPaper();
        }
      }
    }

    /** showFortune: enter SHOWING_FORTUNE, hide the canvas and fill the panel. Without
        a fortune the source fails at `currentFortune.level` after hiding the canvas;
        then `ok` is false and the panel stays as it was. */
    method ShowFortune() returns (ok: bool)
      requires Valid()
      modifies this`currentState, this`instructionText, this`instructionHidden,
               this`canvasVisible, this`shown
      ensures Valid()
      ensures currentState == Some(ShowingFortune) && instructionHidden && !canvasVisible
      ensures instructionText == old(instructionText)
      ensures ok <==> old(currentFortune).Some?
      ensures ok ==> shown == Some(DisplayOf(currentFortune.value))
      ensures !ok ==> shown == old(shown)
    {
      SetState(ShowingFortune);
      canvasVisible := false;
      instructionHidden := true;
      if currentFortune == None {
        return false;
      }
      var f := currentFortune.value;
      DisplayOfComplete(f);
      shown := Some(FortuneDisplay(f.level.japanese, f.level.english, GetLevelColor(f.level.id), f.categories));
      return true;
    }

    /** The unfold animation completes: show the fortune. */
    method OnPaperUnfolded() returns (ok: bool)
      requires Valid() && pendingUnfold > 0
      modifies this`pendingUnfold, this`currentState, this`instructionText, this`instructionHidden,
               this`canvasVisible, this`shown
      ensures Valid()
      ensures pendingUnfold == old(pendingUnfold) - 1
      ensures currentState == Some(ShowingFortune) && instructionHidden && !canvasVisible
      ensures ok <==> currentFortune.Some?
      ensures ok ==> shown == Some(DisplayOf(currentFortune.value))
      ensures !ok ==> shown == old(shown)
    {
      pendingUnfold := pendingUnfold - 1;
      ok := ShowFortune();
    }

    /** reset: hide the panel, show the canvas, zero the shake count, forget the fortune
        and return to INITIAL. Running intervals and pending animations are not
        cancelled, and a drag in progress is not ended. */
    method Reset()
      requires Valid()
      modifies this`shown, this`canvasVisible, this`shakeCount, this`currentFortune,
               this`currentState, this`instructionText, this`instructionHidden
      ensures Valid()
      ensures shown == None && canvasVisible && shakeCount == 0 && currentFortune == None
      ensures currentState == Some(Initial) && instructionText == InstructionText(Initial, "") &&
              !instructionHidden
    {
      shown := None;
      canvasVisible := true;
      shakeCount := 0;
      currentFortune := None;
      SetState(Initial);
    }
  }

  // ---------------------------------------------------------------------------
  // Whole interactions on a fresh app, each with the fortune its draw yields

  /** A keyboard draw: Enter in INITIAL and fifteen interval ticks reach STICK_EMERGING
      with the drawn fortune; the interval has cleared itself. */
  method KeyboardDraw(drawn: Fortune) returns (app: OmikujiApp)
    requires Complete(drawn)
    ensures fresh(app) && app.Valid()
    ensures app.currentState == Some(StickEmerging) && app.shakeCount == RequiredShakes
    ensures app.currentFortune == Some(drawn)
    ensures app.shakeIntervals == [] && app.pendingStick == 1 && app.pendingUnfold == 0
  {
    app := new OmikujiApp();
    app.Init();
    app.OnKeyDown("Enter");
    var t := 0;
    while t < RequiredShakes - 1
      invariant 0 <= t <= RequiredShakes - 1
      invariant app.Valid()
      invariant app.shakeIntervals == [t] && app.currentState == Some(Shaking)
      invariant app.pendingStick == 0 && app.pendingUnfold == 0
    {
      app.ShakeIntervalTick(0, drawn);
      t := t + 1;
    }
    app.ShakeIntervalTick(0, drawn);
  }

  /** A drag draw: pointer down in INITIAL and fifteen drag moves reach STICK_EMERGING. */
  method DragDraw(drawn: Fortune) returns (app: OmikujiApp)
    requires Complete(drawn)
    ensures app.Valid()
    ensures app.currentState == Some(StickEmerging) && app.shakeCount == RequiredShakes
    ensures app.currentFortune == Some(drawn) && app.pendingStick == 1
  {
    app := new OmikujiApp();
    app.Init();
    app.OnPointerDown();
    while app.shakeCount < RequiredShakes
      invariant app.Valid() && app.isDragging
      invariant app.shakeCount <= RequiredShakes
      invariant app.shakeCount < RequiredShakes ==> app.currentState == Some(Shaking) && app.pendingStick == 0
      invariant app.shakeCount == RequiredShakes ==>
                  app.currentState == Some(StickEmerging) && app.currentFortune == Some(drawn) &&
                  app.pendingStick == 1
      decreases RequiredShakes - app.shakeCount
    {
      app.OnPointerMove(drawn);
    }
  }

  /** Releasing early keeps the count: five moves, a release back to INITIAL, and then
      ten more moves of a new drag complete the shake. */
  method InterruptedDrag(drawn: Fortune) returns (countAfterRelease: nat, app: OmikujiApp)
    requires Complete(drawn)
    ensures countAfterRelease == 5
    ensures app.currentState == Some(StickEmerging) && app.shakeCount == RequiredShakes
  {
    app := new OmikujiApp();
    app.Init();
    app.OnPointerDown();
    for i := 0 to 5
      invariant app.Valid() && app.isDragging && app.currentState == Some(Shaking)
      invariant app.shakeCount == i
    {
      app.OnPointerMove(drawn);
    }
    app.OnPointerUp();
    countAfterRelease := app.shakeCount;
    assert app.currentState == Some(Initial);
    app.OnPointerDown();
    for i := 0 to 9
      invariant app.Valid() && app.isDragging && app.currentState == Some(Shaking)
      invariant app.shakeCount == 5 + i
    {
      app.OnPointerMove(drawn);
    }
    app.OnPointerMove(drawn);
  }

  /** The whole keyboard flow: draw, emerge, Space to unfold, show, and reset. The panel
      shows the fortune's names in its level's colour with all six messages; reset
      returns to INITIAL with no fortune and a zero count. */
  method FullFlow(drawn: Fortune) returns (panel: FortuneDisplay, app: OmikujiApp)
    requires Complete(drawn)
    ensures panel == DisplayOf(drawn)
    ensures panel.japanese == drawn.level.japanese && panel.color == Colors[drawn.level.id]
    ensures forall c :: Text(panel.texts, c).Some?
    ensures app.currentState == Some(Initial) && app.currentFortune == None && app.shakeCount == 0
    ensures app.shown == None && app.canvasVisible
  {
    DisplayOfComplete(drawn);
    app := KeyboardDraw(drawn);
    app.OnStickEmerged();
    app.OnKeyDown(" ");
    assert app.currentFortune == Some(drawn) && app.pendingUnfold == 1;
    var ok := app.OnPaperUnfolded();
    panel := app.shown.value;
    app.Reset();
  }

  /** What the whole keyboard flow shows for a `Math.random()` sample: the panel of the
      fortune generateFortune draws, in that level's colour, never black. */
  method DrawAndShow(sample: real) returns (panel: FortuneDisplay)
    requires 0.0 <= sample < 1.0
    ensures panel == DisplayOf(FortuneOf(Selected(sample)))
    ensures panel.japanese == Selected(sample).japanese && panel.color != DefaultColor
  {
    var f := GenerateFortune(sample);
    DrawnFortuneComplete(sample);
    var app;
    panel, app := FullFlow(f);
  }
}
