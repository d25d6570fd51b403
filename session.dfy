/**
 * The game object of DoubleDecision.py (class DoubleDecisionGame) with the
 * widgets and images taken away: the fields that the screen methods and event
 * handlers assign, and which screen is showing.
 *
 * Tkinter's event loop is the caller. A button or canvas binding exists only
 * while its screen is showing, so each event method requires the phase whose
 * screen carries the widget. `root.after(ms, f)` puts a timer into `pending`;
 * `Elapse` is the event loop running one pending timer. Any pending timer may
 * fire next: the model does not order timers by their delays.
 * Randomness is supplied by the caller, constrained by what the `random`
 * functions guarantee.
 */
module Session {
  import opened Options
  import opened SectorGeometry
  import opened LevelRules
  import opened StimulusLayout
  import opened PointerLatch

  /** The screen method that ran last. */
  datatype Phase =
    | Menu               // create_menu
    | Preview            // show_preview
    | Stimulus           // show_stimulus
    | VehicleChoice      // show_response_screen
    | PositionSelection  // show_position_selection; check_position keeps this screen
    | GameOverScreen     // game_over
    | Blank              // show_stimulus cleared the screen, then random.choice raised on no vehicles

  /** The functions handed to root.after. */
  datatype Callback = ToResponseScreen | ToSuccessMessage | ToGameOver

  /** A pending root.after call. */
  datatype Timer = Timer(delayMs: int, callback: Callback)

  /** Delay before show_success_message after a correct position. */
  const SuccessDelayMs: int := 1500

  /** Delay before game_over after a wrong position. */
  const FailureDelayMs: int := 2000

  /** Every timer carries the delay the code arms it with. */
  predicate WellTimed(t: Timer)
  {
    match t.callback
    case ToResponseScreen => MinStimulusMs <= t.delayMs <= InitialDisplayTimeMs
    case ToSuccessMessage => t.delayMs == SuccessDelayMs
    case ToGameOver => t.delayMs == FailureDelayMs
  }

  /** The game's fields as one value. */
  datatype Snapshot = Snapshot(
    score: int,
    level: int,
    displayTime: int,
    currentVehicle: Option<int>,
    route66Position: Option<int>,
    vehicleOptions: seq<int>,
    highlight: int,
    signs: seq<int>,
    pending: multiset<Timer>,
    phase: Phase)

  /**
   * What holds of the fields between events. Levels start at 1 and only grow
   * until a restart, so the score never goes negative; the vehicle options are
   * distinct loaded vehicles; once a stimulus has been drawn, the target
   * position is a sector that got exactly one sign; the highlight is the entry
   * sentinel or a sector; and no timer is armed before the first stimulus.
   */
  ghost predicate Consistent(keys: seq<int>, s: Snapshot)
  {
    && s.score >= 0
    && s.level >= 1
    && s.displayTime == InitialDisplayTimeMs
    && |s.vehicleOptions| <= 2
    && Distinct(s.vehicleOptions)
    && (forall v :: v in s.vehicleOptions ==> v in keys)
    && (s.currentVehicle.Some? <==> s.route66Position.Some?)
    && (s.currentVehicle.Some? ==> s.currentVehicle.value in keys)
    && (s.route66Position.Some? ==>
          0 <= s.route66Position.value < SectorCount &&
          multiset(s.signs)[s.route66Position.value] == 1)
    && (s.route66Position.None? ==>
          s.signs == [] && s.pending == multiset{} && s.phase in {Menu, Preview, Blank})
    && Distinct(s.signs)
    && (forall p :: p in s.signs ==> 0 <= p < SectorCount)
    && IsHighlight(s.highlight)
    && (forall t :: t in s.pending ==> WellTimed(t))
  }

  /** Drawing a stimulus from a consistent preview keeps the fields consistent. */
  lemma StimulusConsistent(keys: seq<int>, s: Snapshot, pick: int, target: int, distractors: seq<int>)
    requires Consistent(keys, s)
    requires 0 <= pick < |s.vehicleOptions|
    requires 0 <= target < SectorCount
    requires IsSample(distractors, DistractorPool(target),
                      Min(NumDistractors(s.level), |DistractorPool(target)|))
    ensures Consistent(keys, s.(currentVehicle := Some(s.vehicleOptions[pick]),
                                route66Position := Some(target),
                                signs := SignLayout(distractors, target),
                                pending := s.pending +
                                           multiset{Timer(StimulusMs(s.displayTime, s.level), ToResponseScreen)},
                                phase := Stimulus))
  {
    LayoutShape(s.level, target, distractors);
    StimulusScheduleAtDefault(s.level);
  }

  /** Clearing the preview for a stimulus that cannot be drawn keeps the fields consistent. */
  lemma BlankConsistent(keys: seq<int>, s: Snapshot)
    requires Consistent(keys, s) && s.phase == Preview
    ensures Consistent(keys, s.(phase := Blank))
  {
  }

  /** Adding points and arming a timer once a stimulus has been drawn keeps the fields consistent. */
  lemma ArmConsistent(keys: seq<int>, s: Snapshot, bonus: int, t: Timer)
    requires Consistent(keys, s)
    requires s.route66Position.Some? && bonus >= 0 && WellTimed(t)
    ensures Consistent(keys, s.(score := s.score + bonus, pending := s.pending + multiset{t}))
  {
  }

  class DoubleDecisionGame {
    /** The keys of `vehicle_images`: the vehicle pictures that loaded, each in 0..7. */
    const vehicleKeys: seq<int>
    var score: int
    var level: int
    var displayTime: int
    var currentVehicle: Option<int>
    var route66Position: Option<int>
    var vehicleOptions: seq<int>
    var currentHighlightedSector: int
    /** The positions that got a sign on the last stimulus canvas (`all_signs`). */
    var signs: seq<int>
    /** The root.after calls that have not fired yet. */
    var pending: multiset<Timer>
    var phase: Phase

    ghost function State(): Snapshot
      reads this
    {
      Snapshot(score, level, displayTime, currentVehicle, route66Position,
               vehicleOptions, currentHighlightedSector, signs, pending, phase)
    }

    /** What holds between events: the loaded keys, and the fields as `Consistent` says. */
    ghost predicate Valid()
      reads this
    {
      && Distinct(vehicleKeys)
      && (forall k :: k in vehicleKeys ==> 0 <= k < SectorCount)
      && Consistent(vehicleKeys, State())
    }

    /** `__init__`, given the keys that load_images found. */
    constructor (keys: seq<int>)
      requires Distinct(keys)
      requires forall k :: k in keys ==> 0 <= k < SectorCount
      ensures Valid()
      ensures vehicleKeys == keys
      ensures State() == Snapshot(0, 1, InitialDisplayTimeMs, None, None, [],
                                  ResetHighlight, [], multiset{}, Menu)
    {
      vehicleKeys := keys;
      score := 0;
      level := 1;
      displayTime := InitialDisplayTimeMs;
      currentVehicle := None;
      route66Position := None;
      vehicleOptions := [];
      currentHighlightedSector := ResetHighlight;
      signs := [];
      pending := multiset{};
      phase := Menu;
    }

    /**
     * start_game: entered from the menu's start button and from
     * show_success_message. `sample` is what random.sample draws in show_preview.
     */
    method StartGame(sample: seq<int>)
      requires Valid()
      requires IsSample(sample, vehicleKeys, Min(2, |vehicleKeys|))
      modifies this
      ensures Valid()
      ensures State() == old(State()).(vehicleOptions := sample, phase := Preview)
    {
      ShowPreview(sample);
    }

    /** show_preview: the vehicles to memorise, `random.sample(keys, min(2, len(keys)))`. */
    method ShowPreview(sample: seq<int>)
      requires Valid()
      requires IsSample(sample, vehicleKeys, Min(2, |vehicleKeys|))
      modifies this
      ensures Valid()
      ensures State() == old(State()).(vehicleOptions := sample, phase := Preview)
    {
      vehicleOptions := sample;
      phase := Preview;
    }

    /**
     * show_stimulus, from the preview's continue button. `pick` is the index
     * random.choice takes in `vehicle_options`, `target` what
     * random.randint(0, 7) returns and `distractors` what random.sample draws
     * from the other positions. With no vehicle options random.choice raises,
     * after the screen was cleared: `ok` is false and nothing else changes.
     */
    method ShowStimulus(pick: int, target: int, distractors: seq<int>) returns (ok: bool)
      requires Valid()
      requires phase == Preview
      requires vehicleOptions != [] ==> 0 <= pick < |vehicleOptions|
      requires 0 <= target < SectorCount
      requires IsSample(distractors, DistractorPool(target),
                        Min(NumDistractors(level), |DistractorPool(target)|))
      modifies this
      ensures Valid()
      ensures ok <==> old(vehicleOptions) != []
      ensures !ok ==> State() == old(State()).(phase := Blank)
      ensures ok ==> State() == old(State()).(
                currentVehicle := Some(old(vehicleOptions)[pick]),
                route66Position := Some(target),
                signs := SignLayout(distractors, target),
                pending := old(pending) +
                           multiset{Timer(StimulusMs(old(displayTime), old(level)), ToResponseScreen)},
                phase := Stimulus)
      ensures ok ==> currentVehicle.value in vehicleOptions
      ensures ok ==> |signs| == NumDistractors(level) + 1
    {
      ghost var before := State();
      if vehicleOptions == [] {
        BlankConsistent(vehicleKeys, before);
        phase := Blank;
        assert State() == before.(phase := Blank);
        return false;
      }
      StimulusConsistent(vehicleKeys, before, pick, target, distractors);
      LayoutShape(level, target, distractors);
      var t := Timer(StimulusMs(displayTime, level), ToResponseScreen);
      currentVehicle := Some(vehicleOptions[pick]);
      route66Position := Some(target);
      signs := SignLayout(distractors, target);
      pending := pending + multiset{t};
      phase := Stimulus;
      ok := true;
      assert State() == before.(currentVehicle := Some(before.vehicleOptions[pick]),
                                route66Position := Some(target),
                                signs := SignLayout(distractors, target),
                                pending := before.pending + multiset{t},
                                phase := Stimulus);
    }

    /** show_response_screen: the two vehicles to choose from. */
    method ShowResponseScreen()
      requires Valid()
      requires route66Position.Some?
      modifies this
      ensures Valid()
      ensures State() == old(State()).(phase := VehicleChoice)
    {
      phase := VehicleChoice;
    }

    /**
     * check_vehicle, from a click on one of the vehicles drawn: the right
     * vehicle leads to position selection, any other one to game over.
     * Neither changes the score or the level.
     */
    method CheckVehicle(selected: int)
      requires Valid()
      requires phase == VehicleChoice
      requires selected in vehicleOptions
      modifies this
      ensures Valid()
      ensures Some(selected) == old(currentVehicle) ==>
                State() == old(State()).(highlight := NoHighlight, phase := PositionSelection)
      ensures Some(selected) != old(currentVehicle) ==>
                State() == old(State()).(phase := GameOverScreen)
    {
      if Some(selected) == currentVehicle {
        ShowPositionSelection();
      } else {
        GameOver();
      }
    }

    /** show_position_selection: the eight sectors, with nothing highlighted. */
    method ShowPositionSelection()
      requires Valid()
      requires route66Position.Some?
      modifies this
      ensures Valid()
      ensures State() == old(State()).(highlight := NoHighlight, phase := PositionSelection)
    {
      phase := PositionSelection;
      currentHighlightedSector := NoHighlight;
    }

    /** on_mouse_move: the <Motion> binding of the position-selection canvas. */
    method OnMouseMove(m: Move)
      requires Valid()
      requires phase == PositionSelection
      requires ValidMove(m)
      modifies this
      ensures Valid()
      ensures State() == old(State()).(highlight := Hover(old(currentHighlightedSector), m))
    {
      if OutsideDeadZone(m.dx, m.dy) {
        var sector := SectorOfHeading(m.heading);
        if sector != currentHighlightedSector {
          currentHighlightedSector := sector;
        }
      } else {
        if currentHighlightedSector != NoHighlight {
          currentHighlightedSector := ResetHighlight;
        }
      }
    }

    /**
     * on_sector_click: the <Button-1> binding of the position-selection
     * canvas. A highlight of 1 is taken for "nothing highlighted" and the
     * click does nothing; otherwise the highlight is checked as the answer.
     */
    method OnSectorClick() returns (ok: bool)
      requires Valid()
      requires phase == PositionSelection
      modifies this
      ensures Valid()
      ensures Submission(old(currentHighlightedSector)).None? ==> ok && State() == old(State())
      ensures Submission(old(currentHighlightedSector)).Some? ==>
                var selected := Submission(old(currentHighlightedSector)).value;
                && (ok <==> 0 <= selected < SectorCount)
                && (!ok ==> State() == old(State()))
                && (ok && Some(selected) == old(route66Position) ==>
                      State() == old(State()).(score := old(score) + Award(old(level)),
                                               pending := old(pending) +
                                                          multiset{Timer(SuccessDelayMs, ToSuccessMessage)}))
                && (ok && Some(selected) != old(route66Position) ==>
                      State() == old(State()).(pending := old(pending) +
                                                          multiset{Timer(FailureDelayMs, ToGameOver)}))
    {
      ok := true;
      var submitted := Submission(currentHighlightedSector);
      if submitted.Some? {
        ok := CheckPosition(submitted.value);
      }
    }

    /**
     * check_position. A correct position adds `10 * level` to the score and
     * arms show_success_message; a wrong one arms game_over. A position that
     * names no sector (-1) raises a KeyError when its wedge is looked up:
     * `ok` is false and nothing changes. The screen stays, with its bindings.
     */
    method CheckPosition(selected: int) returns (ok: bool)
      requires Valid()
      requires phase == PositionSelection
      modifies this
      ensures Valid()
      ensures ok <==> 0 <= selected < SectorCount
      ensures !ok ==> State() == old(State())
      ensures ok && Some(selected) == old(route66Position) ==>
                State() == old(State()).(score := old(score) + Award(old(level)),
                                         pending := old(pending) +
                                                    multiset{Timer(SuccessDelayMs, ToSuccessMessage)})
      ensures ok && Some(selected) != old(route66Position) ==>
                State() == old(State()).(pending := old(pending) +
                                                    multiset{Timer(FailureDelayMs, ToGameOver)})
    {
      ghost var before := State();
      if Some(selected) == route66Position {
        var t := Timer(SuccessDelayMs, ToSuccessMessage);
        ArmConsistent(vehicleKeys, before, Award(level), t);
        score := score + Award(level);
        pending := pending + multiset{t};
        ok := true;
        assert State() == before.(score := before.score + Award(level), pending := before.pending + multiset{t});
      } else if !(0 <= selected < SectorCount) {
        ok := false;
      } else {
        var t := Timer(FailureDelayMs, ToGameOver);
        ArmConsistent(vehicleKeys, before, 0, t);
        pending := pending + multiset{t};
        ok := true;
        assert State() == before.(score := before.score + 0, pending := before.pending + multiset{t});
      }
    }

    /** show_success_message: the next level, then start_game again with the score kept. */
    method ShowSuccessMessage(sample: seq<int>)
      requires Valid()
      requires IsSample(sample, vehicleKeys, Min(2, |vehicleKeys|))
      modifies this
      ensures Valid()
      ensures State() == old(State()).(level := old(level) + 1, vehicleOptions := sample,
                                       phase := Preview)
    {
      level := level + 1;
      StartGame(sample);
    }

    /** game_over: the final score and level, with the restart button. */
    method GameOver()
      requires Valid()
      requires route66Position.Some?
      modifies this
      ensures Valid()
      ensures State() == old(State()).(phase := GameOverScreen)
    {
      phase := GameOverScreen;
    }

    /** restart_game, from the game-over screen: a fresh score and level, back to the menu. */
    method RestartGame()
      requires Valid()
      requires phase == GameOverScreen
      modifies this
      ensures Valid()
      ensures State() == old(State()).(score := 0, level := 1,
                                       displayTime := InitialDisplayTimeMs, phase := Menu)
    {
      ghost var before := State();
      score := 0;
      level := 1;
      displayTime := InitialDisplayTimeMs;
      phase := Menu;
      assert State() == before.(score := 0, level := 1, displayTime := InitialDisplayTimeMs, phase := Menu);
    }

    /**
     * The event loop runs the pending timer `t`. `sample` is the vehicle draw
     * of the preview that show_success_message leads to.
     */
    method Elapse(t: Timer, sample: seq<int>)
      requires Valid()
      requires t in pending
      requires t.callback == ToSuccessMessage ==> IsSample(sample, vehicleKeys, Min(2, |vehicleKeys|))
      modifies this
      ensures Valid()
      ensures t.callback == ToResponseScreen ==>
                State() == old(State()).(pending := old(pending) - multiset{t}, phase := VehicleChoice)
      ensures t.callback == ToSuccessMessage ==>
                State() == old(State()).(pending := old(pending) - multiset{t},
                                         level := old(level) + 1, vehicleOptions := sample,
                                         phase := Preview)
      ensures t.callback == ToGameOver ==>
                State() == old(State()).(pending := old(pending) - multiset{t}, phase := GameOverScreen)
    {
      ghost var before := State();
      pending := pending - multiset{t};
      assert State() == before.(pending := before.pending - multiset{t});
      match t.callback
      case ToResponseScreen => ShowResponseScreen();
      case ToSuccessMessage => ShowSuccessMessage(sample);
      case ToGameOver => GameOver();
    }
  }
}
