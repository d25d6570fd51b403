/**
 * Whole rounds played against the contracts of DoubleDecisionGame, from the
 * constructor on. Each method fixes the random draws and the pointer, and
 * states what the player ends up with. The stimulus always draws its
 * distractors as the first positions of the pool.
 */
module Scenarios {
  import opened Options
  import opened SectorGeometry
  import opened LevelRules
  import opened StimulusLayout
  import opened PointerLatch
  import opened Session

  /**
   * The screen direction of the ray from the centre through the sign drawn
   * for position `pos`, as whole steps: right, down-right, down, and so on
   * clockwise (the canvas y axis points down).
   */
  function RayStep(pos: int): (step: (int, int))
    requires 0 <= pos < SectorCount
    ensures -1 <= step.0 <= 1 && -1 <= step.1 <= 1 && step != (0, 0)
  {
    [(1, 0), (1, 1), (0, 1), (-1, 1), (-1, 0), (-1, -1), (0, -1), (1, -1)][pos]
  }

  /** A pointer more than the dead-zone radius out along a unit step is outside the dead zone. */
  lemma StepOutsideDeadZone(reach: int, ux: int, uy: int)
    requires reach > DeadZoneRadius
    requires -1 <= ux <= 1 && -1 <= uy <= 1 && (ux, uy) != (0, 0)
    ensures OutsideDeadZone(reach * ux, reach * uy)
  {
    assert reach * reach > DeadZoneRadius * DeadZoneRadius;
    assert (reach * ux) * (reach * ux) == (if ux == 0 then 0 else reach * reach);
    assert (reach * uy) * (reach * uy) == (if uy == 0 then 0 else reach * reach);
  }

  /**
   * The motion event of a pointer `reach` steps out along the ray through the
   * centre of the sign for position `pos`: its offset lies on that ray and its
   * heading is the one atan2 gives for the ray.
   */
  function PointerOnSign(pos: int, reach: int): (m: Move)
    requires 0 <= pos < SectorCount
    requires reach > DeadZoneRadius
    ensures m.dx == reach * RayStep(pos).0 && m.dy == reach * RayStep(pos).1
    ensures ValidMove(m) && OutsideDeadZone(m.dx, m.dy)
    ensures SectorOfHeading(m.heading) == pos
  {
    PlacementRoundTrip(pos);
    var (ux, uy) := RayStep(pos);
    StepOutsideDeadZone(reach, ux, uy);
    Move(reach * ux, reach * uy, HeadingOfScreenAngle(PlacementAngle(pos)))
  }

  /**
   * From the preview: the stimulus for `target`, with vehicle `pick` of the
   * options to remember, runs its course up to the vehicle choice.
   */
  method PlayStimulus(g: DoubleDecisionGame, pick: int, target: int)
    requires g.Valid() && g.phase == Preview
    requires 0 <= pick < |g.vehicleOptions|
    requires 0 <= target < SectorCount
    modifies g
    ensures g.Valid() && g.phase == VehicleChoice
    ensures g.currentVehicle == Some(old(g.vehicleOptions)[pick]) && g.route66Position == Some(target)
    ensures g.vehicleOptions == old(g.vehicleOptions)
    ensures g.score == old(g.score) && g.level == old(g.level) && g.pending == old(g.pending)
  {
    PoolShape(target);
    var pool := DistractorPool(target);
    var distractors := pool[..NumDistractors(g.level)];
    assert forall x :: x in distractors ==> x in pool;
    var ok := g.ShowStimulus(pick, target, distractors);
    var t := Timer(StimulusMs(InitialDisplayTimeMs, g.level), ToResponseScreen);
    assert g.pending == old(g.pending) + multiset{t};
    g.Elapse(t, []);
  }

  /**
   * A new game with vehicles 0, 1 and 2 loaded, started with options [2, 0],
   * vehicle 0 to remember and the target at `target`: the vehicle choice.
   */
  method StartRound(target: int) returns (g: DoubleDecisionGame)
    requires 0 <= target < SectorCount
    ensures fresh(g) && g.Valid()
    ensures g.score == 0 && g.level == 1 && g.phase == VehicleChoice
    ensures g.currentVehicle == Some(0) && g.route66Position == Some(target)
    ensures g.vehicleKeys == [0, 1, 2] && g.vehicleOptions == [2, 0] && g.pending == multiset{}
  {
    g := new DoubleDecisionGame([0, 1, 2]);
    g.StartGame([2, 0]);
    PlayStimulus(g, 1, target);
  }

  /** StartRound, then the right vehicle clicked: the sector choice with nothing highlighted. */
  method ReachPositionSelection(target: int) returns (g: DoubleDecisionGame)
    requires 0 <= target < SectorCount
    ensures fresh(g) && g.Valid()
    ensures g.score == 0 && g.level == 1 && g.phase == PositionSelection
    ensures g.route66Position == Some(target) && g.currentHighlightedSector == NoHighlight
    ensures g.vehicleKeys == [0, 1, 2] && g.pending == multiset{}
  {
    g := StartRound(target);
    g.CheckVehicle(0);
  }

  /** Hovering the sign of the target and clicking: the award and the success timer. */
  method HoverTargetAndClick(g: DoubleDecisionGame, reach: int)
    requires g.Valid() && g.phase == PositionSelection && g.route66Position.Some?
    requires reach > DeadZoneRadius && g.route66Position.value != ResetHighlight
    modifies g
    ensures g.Valid() && g.phase == PositionSelection && g.level == old(g.level)
    ensures g.route66Position == old(g.route66Position)
    ensures g.currentHighlightedSector == g.route66Position.value
    ensures g.score == old(g.score) + Award(g.level)
    ensures g.pending == old(g.pending) + multiset{Timer(SuccessDelayMs, ToSuccessMessage)}
  {
    g.OnMouseMove(PointerOnSign(g.route66Position.value, reach));
    var ok := g.OnSectorClick();
  }

  /** Hovering the sign at `pos`, not the target's, and clicking: game_over is armed. */
  method HoverOtherAndClick(g: DoubleDecisionGame, pos: int, reach: int)
    requires g.Valid() && g.phase == PositionSelection && g.route66Position.Some?
    requires 0 <= pos < SectorCount && pos != ResetHighlight && Some(pos) != g.route66Position
    requires reach > DeadZoneRadius
    modifies g
    ensures g.Valid() && g.phase == PositionSelection
    ensures g.score == old(g.score) && g.level == old(g.level)
    ensures g.route66Position == old(g.route66Position)
    ensures g.pending == old(g.pending) + multiset{Timer(FailureDelayMs, ToGameOver)}
  {
    g.OnMouseMove(PointerOnSign(pos, reach));
    var ok := g.OnSectorClick();
  }

  /** The event loop runs one pending game_over: the game-over screen, fields kept. */
  method FireGameOver(g: DoubleDecisionGame)
    requires g.Valid() && Timer(FailureDelayMs, ToGameOver) in g.pending
    modifies g
    ensures g.Valid() && g.phase == GameOverScreen
    ensures g.score == old(g.score) && g.level == old(g.level)
    ensures g.vehicleOptions == old(g.vehicleOptions) && g.route66Position == old(g.route66Position)
    ensures g.pending == old(g.pending) - multiset{Timer(FailureDelayMs, ToGameOver)}
  {
    g.Elapse(Timer(FailureDelayMs, ToGameOver), []);
  }

  /** A further click with the highlight still on the target: the award and the timer once more. */
  method ClickAgain(g: DoubleDecisionGame)
    requires g.Valid() && g.phase == PositionSelection && g.route66Position.Some?
    requires g.currentHighlightedSector == g.route66Position.value != ResetHighlight
    modifies g
    ensures g.Valid() && g.phase == PositionSelection && g.level == old(g.level)
    ensures g.route66Position == old(g.route66Position)
    ensures g.currentHighlightedSector == old(g.currentHighlightedSector)
    ensures g.score == old(g.score) + Award(g.level)
    ensures g.pending == old(g.pending) + multiset{Timer(SuccessDelayMs, ToSuccessMessage)}
  {
    var ok := g.OnSectorClick();
  }

  /** The event loop runs one pending show_success_message: the next level, at the preview. */
  method FireSuccess(g: DoubleDecisionGame, sample: seq<int>)
    requires g.Valid() && Timer(SuccessDelayMs, ToSuccessMessage) in g.pending
    requires IsSample(sample, g.vehicleKeys, Min(2, |g.vehicleKeys|))
    modifies g
    ensures g.Valid() && g.phase == Preview && g.vehicleOptions == sample
    ensures g.score == old(g.score) && g.level == old(g.level) + 1
    ensures g.route66Position == old(g.route66Position)
    ensures g.pending == old(g.pending) - multiset{Timer(SuccessDelayMs, ToSuccessMessage)}
  {
    g.Elapse(Timer(SuccessDelayMs, ToSuccessMessage), sample);
  }

  /** The event loop delivering a run of <Motion> events, oldest first, to the sector screen. */
  method MoveAll(g: DoubleDecisionGame, moves: seq<Move>)
    requires g.Valid() && g.phase == PositionSelection && AllValid(moves)
    modifies g
    ensures g.Valid()
    ensures g.State() == old(g.State()).(highlight := HoverAll(old(g.currentHighlightedSector), moves))
  {
    var i := 0;
    while i < |moves|
      invariant 0 <= i <= |moves|
      invariant AllValid(moves[..i])
      invariant g.Valid() && g.phase == PositionSelection
      invariant g.State() == old(g.State()).(highlight := HoverAll(old(g.currentHighlightedSector), moves[..i]))
    {
      assert moves[..i + 1][..i] == moves[..i];
      g.OnMouseMove(moves[i]);
      i := i + 1;
    }
    assert moves[..i] == moves;
  }

  /**
   * Any run of motion events from entering the sector screen, then a click:
   * the click fails, with nothing armed, exactly when no move left the dead
   * zone; it scores exactly when the last move, outside the dead zone,
   * resolved to the target and the target is not 1.
   */
  method HoverThenClick(g: DoubleDecisionGame, moves: seq<Move>) returns (ok: bool)
    requires g.Valid() && g.phase == PositionSelection && g.currentHighlightedSector == NoHighlight
    requires AllValid(moves)
    modifies g
    ensures g.Valid() && g.level == old(g.level) && g.route66Position == old(g.route66Position)
    ensures !ok <==> NoneOutside(moves)
    ensures !ok ==> g.score == old(g.score) && g.pending == old(g.pending)
    ensures g.score == old(g.score) + Award(old(g.level)) <==>
              moves != [] && OutsideDeadZone(moves[|moves| - 1].dx, moves[|moves| - 1].dy) &&
              Some(SectorOfHeading(moves[|moves| - 1].heading)) == old(g.route66Position) &&
              old(g.route66Position) != Some(ResetHighlight)
  {
    MoveAll(g, moves);
    var target := g.route66Position.value;
    ClickAfterHovering(moves, target);
    HoverFromEntry(moves);
    ok := g.OnSectorClick();
  }

  /** A won first round with the target at `target`: the preview of level 2, options [1, 2]. */
  method WinRound(target: int) returns (g: DoubleDecisionGame)
    requires 0 <= target < SectorCount && target != ResetHighlight
    ensures fresh(g) && g.Valid()
    ensures g.score == 10 && g.level == 2 && g.phase == Preview
    ensures g.vehicleKeys == [0, 1, 2] && g.vehicleOptions == [1, 2] && g.pending == multiset{}
  {
    g := ReachPositionSelection(target);
    HoverTargetAndClick(g, 70);
    FireSuccess(g, [1, 2]);
  }

  /**
   * Level 1, right vehicle, right sector: the score goes from 0 to 10, the
   * level to 2, and the game is back at the preview.
   */
  method WinFirstRound() returns (score: int, level: int, phase: Phase)
    ensures score == 10 && level == 2 && phase == Preview
  {
    var g := WinRound(3);
    score, level, phase := g.score, g.level, g.phase;
  }

  /** A wrong vehicle ends the game at once, with the score untouched. */
  method WrongVehicle() returns (score: int, level: int, phase: Phase)
    ensures score == 0 && level == 1 && phase == GameOverScreen
  {
    var g := StartRound(5);
    g.CheckVehicle(2);
    score, level, phase := g.score, g.level, g.phase;
  }

  /**
   * A wrong sector arms game_over and leaves the score alone; when the timer
   * fires the game is over.
   */
  method WrongPosition() returns (score: int, armed: multiset<Timer>, phase: Phase)
    ensures score == 0 && armed == multiset{Timer(FailureDelayMs, ToGameOver)}
    ensures phase == GameOverScreen
  {
    var g := ReachPositionSelection(3);
    g.OnMouseMove(PointerOnSign(6, 100));
    var ok := g.OnSectorClick();
    armed := g.pending;
    g.Elapse(Timer(FailureDelayMs, ToGameOver), []);
    score, phase := g.score, g.phase;
  }

  /**
   * When the target is at position 1, hovering it and clicking does nothing:
   * no timer is armed and the score stays 0.
   */
  method TargetOneCannotBeAnswered() returns (score: int, armed: multiset<Timer>, phase: Phase)
    ensures score == 0 && armed == multiset{} && phase == PositionSelection
  {
    var g := ReachPositionSelection(1);
    g.OnMouseMove(PointerOnSign(1, 70));
    var ok := g.OnSectorClick();
    score, armed, phase := g.score, g.pending, g.phase;
  }

  /**
   * A click before any hover submits -1, which check_position cannot look up:
   * the call fails and nothing is armed.
   */
  method ClickBeforeHover() returns (ok: bool, armed: multiset<Timer>)
    ensures !ok && armed == multiset{}
  {
    var g := ReachPositionSelection(3);
    ok := g.OnSectorClick();
    armed := g.pending;
  }

  /**
   * The canvas keeps its bindings while show_success_message is pending, so a
   * second click on the right sector awards the points again and arms a
   * second success message: two levels are gained for one round.
   */
  method SecondClickDuringDelay() returns (score: int, level: int)
    ensures score == 20 && level == 3
  {
    var g := ReachPositionSelection(3);
    HoverTargetAndClick(g, 70);
    ClickAgain(g);
    FireSuccess(g, [1, 2]);
    FireSuccess(g, [0, 1]);
    score, level := g.score, g.level;
  }

  /**
   * A wrong sector does not end the round at once: the canvas keeps its
   * bindings during the 2000 ms before game_over, so a click on the target
   * still scores and arms the success message. If game_over runs first, the
   * game-over screen shows, and then show_success_message takes play back to
   * the preview at the next level with the score kept.
   */
  method WrongThenRightSector() returns (phaseAfterGameOver: Phase, score: int, level: int,
                                         phase: Phase)
    ensures phaseAfterGameOver == GameOverScreen
    ensures score == 10 && level == 2 && phase == Preview
  {
    var g := ReachPositionSelection(3);
    HoverOtherAndClick(g, 6, 100);
    HoverTargetAndClick(g, 100);
    FireGameOver(g);
    phaseAfterGameOver := g.phase;
    FireSuccess(g, [1, 2]);
    score, level, phase := g.score, g.level, g.phase;
  }

  /**
   * The score is carried into the next round and reset only by restart_game:
   * a win at level 1, a wrong vehicle at level 2, then a restart.
   */
  method WinLoseRestart() returns (scoreAtGameOver: int, levelAtGameOver: int,
                                   score: int, level: int, phase: Phase)
    ensures scoreAtGameOver == 10 && levelAtGameOver == 2
    ensures score == 0 && level == 1 && phase == Menu
  {
    var g := WinRound(3);
    PlayStimulus(g, 0, 4);
    g.CheckVehicle(2);
    scoreAtGameOver, levelAtGameOver := g.score, g.level;
    g.RestartGame();
    score, level, phase := g.score, g.level, g.phase;
  }
}
