# Double Decision — a verified model of the game core

`DoubleDecision.py` is a Tkinter game. The player memorises two vehicles
and is then shown one of them in the centre of the screen, ringed by road
signs. One sign reads "RUTA 66". The player then has to pick the vehicle
that was shown and click the sector where the RUTA 66 sign stood. A
correct round scores `10 * level` points and moves to the next level.
The stimulus loses 80 ms per level until it reaches its 1200 ms floor at
level 17. The number of distractor signs is `min(4 + level // 2, 7)`, so
it rises by one at every even level and stops at 7 from level 6 on. A
wrong vehicle ends the game at once. A wrong sector only arms `game_over`
for 2000 ms later. The sector screen keeps its bindings until then, so a
click on the right sector still scores and arms the success message. That
message can bring play back to the preview after the game-over screen.

The model keeps the game logic of class `DoubleDecisionGame` and leaves
out the widgets and images. It has these modules:

- `SectorGeometry`: how `on_mouse_move` turns the pointer's heading into
  one of eight 45-degree sectors, and where `show_stimulus` draws the sign
  for each position.
  - The ray through a sign's centre resolves to that sign's position.
  - That ray is the boundary between two sectors: the counter-clockwise
    half of every sign resolves to the previous sector.
  - The clamp to sector 0 can never fire.
  - The hit test is offset by half a sector from the wedges that
    `show_position_selection` draws.
- `LevelRules`: the integer formulas a level drives.
  - the stimulus duration `max(1200, display_time - 80 * level)`;
  - the distractor count `min(4 + level // 2, 7)`;
  - the award `10 * level`.
- `StimulusLayout`: the positions drawn for the signs.
  - The pool of distractor positions excludes the target.
  - All signs are distinct, lie in 0..7 and include the target exactly once.
- `PointerLatch`: the `current_highlighted_sector` latch and the click gate.
  - The field is -1 on entering the screen.
  - It becomes 1 after the pointer enters the dead zone.
  - The click gate tests `!= 1`, so sector 1 can never be submitted.
  - A click before any hover submits -1.
- `Session`: class `DoubleDecisionGame`.
  - One method per screen method or event handler, each changing the
    object's fields in place.
  - `phase` records which screen is showing.
  - `pending` holds the `root.after` calls not yet run.
  - `Elapse` is the event loop running one of them.
  - Every method keeps the invariant `Valid` and states the whole new state.
- `Scenarios`: whole rounds played through the class from the constructor
  on, with the random draws and the pointer fixed:
  - a win;
  - a wrong vehicle;
  - a wrong sector;
  - a wrong sector and then the right one, which resumes play after the
    game-over screen;
  - the target at position 1, which cannot be answered;
  - a click before any hover;
  - a second click during the 1500 ms delay, which scores twice;
  - a restart.

Randomness is supplied by the caller:
- `random.sample`, `random.choice` and `random.randint` become method
  parameters;
- preconditions say what those functions guarantee.

The pointer's heading `degrees(atan2(dx, -dy))` is an input of the motion
event. `SectorGeometry.HeadingOfScreenAngle` gives the heading of a point
at a given screen angle; the round-trip lemmas use it.

## Model

| member | source | states |
|---|---|---|
| `SectorGeometry.OutsideDeadZone` | DoubleDecision.py:445-448 | `sqrt(dx**2 + dy**2) > 10` as `dx*dx + dy*dy > 100`. This is exact because event coordinates are integers and `sqrt` is correctly rounded: `sqrt(100)` is exactly 10, and the rounded root of any integer from 101 up is above 10 |
| `SectorGeometry.DeadZoneByDistance` | DoubleDecision.py:445-448 | for the exact distance (a non-negative root of the squared distance), the pointer is outside the dead zone exactly when that distance exceeds 10 |
| `SectorGeometry.Normalise` | DoubleDecision.py:450-452 | an atan2 heading in [-180, 180] becomes an angle in [0, 360): unchanged when non-negative, one full turn added when negative |
| `SectorGeometry.Mod360` | DoubleDecision.py:458 | Python's float `% 360`: the result lies in [0, 360), differs from the argument by whole turns, and is the argument itself when that is already in range |
| `SectorGeometry.ScreenAngleOfHeading` | DoubleDecision.py:458 | the heading turned back by 90 degrees stays in [0, 360) |
| `SectorGeometry.SectorOfScreenAngle` | DoubleDecision.py:459-463 | the sector is in 0..7 and the angle lies in that sector's 45-degree band, so the `>= 8` clamp never changes the result |
| `SectorGeometry.SectorOfHeading` | DoubleDecision.py:450-463 | every heading resolves to a sector in 0..7 |
| `SectorGeometry.HeadingOfScreenAngle` | DoubleDecision.py:450 | the heading atan2 reports for a point at a given screen angle lies in atan2's range |
| `SectorGeometry.PlacementAngle` | DoubleDecision.py:262-265 | the screen angle `pos * 45` of a sign lies in [0, 360) |
| `SectorGeometry.SectorBand` | DoubleDecision.py:459-463 | a screen angle resolves to sector k if and only if it lies in [45k, 45k + 45) |
| `SectorGeometry.ScreenAngleRoundTrip` | DoubleDecision.py:450-458 | the heading of a point at screen angle theta, normalised and turned back by 90 degrees, is theta again |
| `SectorGeometry.PointerSector` | DoubleDecision.py:450-463 | a pointer at screen angle theta highlights sector floor(theta / 45) |
| `SectorGeometry.PlacementRoundTrip` | DoubleDecision.py:262-267 | the ray through the centre of the sign drawn for position pos resolves back to pos |
| `SectorGeometry.CounterClockwiseHalfOfWedge` | DoubleDecision.py:405-408 | the counter-clockwise half of drawn wedge i resolves to sector i - 1 (7 for wedge 0), half a sector off the wedge drawn |
| `LevelRules.StimulusMs` | DoubleDecision.py:278 | the stimulus lasts at least 1200 ms and at least `display_time - 80 * level`, and is one of the two |
| `LevelRules.NumDistractors` | DoubleDecision.py:253 | never more than 7 distractors, and at least 4 at any non-negative level |
| `LevelRules.Award` | DoubleDecision.py:551 | a correct round at level 1 or above is worth at least 10 points |
| `LevelRules.StimulusScheduleAtDefault` | DoubleDecision.py:278 | with display time 2500 the stimulus lasts 2500 - 80 * level ms up to level 16 and 1200 ms from level 17, always within 1200..2420 |
| `LevelRules.StimulusShrinks` | DoubleDecision.py:278 | a higher level never shows the stimulus for longer |
| `LevelRules.DistractorSchedule` | DoubleDecision.py:253 | the distractor count is 4 + level // 2 below level 6 and reaches the cap of 7 exactly from level 6 |
| `LevelRules.DistractorsGrow` | DoubleDecision.py:253 | a higher level never has fewer distractors |
| `StimulusLayout.Positions` | DoubleDecision.py:254 | the eight positions, position i at index i |
| `StimulusLayout.Without` | DoubleDecision.py:255 | the comprehension keeps exactly the members other than x, keeps distinctness, is one shorter when it removes a member of a distinct list, and changes nothing when x is absent |
| `StimulusLayout.DistractorPool` | DoubleDecision.py:254-255 | the pool holds exactly the positions in 0..7 other than the target, each once |
| `StimulusLayout.SignLayout` | DoubleDecision.py:259 | all_signs holds the distractors and the target, each counted as often as in those, with the target last |
| `StimulusLayout.PoolShape` | DoubleDecision.py:254-255 | the distractor pool holds the seven positions other than the target, each once |
| `StimulusLayout.LayoutShape` | DoubleDecision.py:253-259 | all_signs has `min(4 + level // 2, 7) + 1` entries, no duplicates, all in 0..7, with the target exactly once and no distractor on the target |
| `PointerLatch.Hover` | DoubleDecision.py:448-517 | one motion event keeps the highlight either -1 or a sector |
| `PointerLatch.Submission` | DoubleDecision.py:519-522 | a click does nothing exactly when the highlight is 1, and otherwise submits the highlight itself; so 1 is never submitted |
| `PointerLatch.OutsideSelects` | DoubleDecision.py:448-499 | outside the dead zone the highlight becomes the resolved sector, whatever it was |
| `PointerLatch.DeadZoneSelectsNothing` | DoubleDecision.py:500-517 | inside the dead zone the highlight stays -1 if it was -1, and becomes 1 otherwise |
| `PointerLatch.HoverIdempotent` | DoubleDecision.py:465-499 | repeating a motion event leaves the highlight as the first one set it |
| `PointerLatch.HoverFromEntry` | DoubleDecision.py:436-517 | after any run of moves from entry, the highlight is -1 while no move left the dead zone, the last move's sector when that move is outside, and 1 otherwise |
| `PointerLatch.ClickAfterHovering` | DoubleDecision.py:519-522 | a click after hovering submits -1 exactly when no move left the dead zone, and sector s exactly when the last move resolved to s outside the dead zone and s is not 1 |
| `Session.StimulusConsistent` | DoubleDecision.py:233-279 | drawing a stimulus keeps the game invariant: the target is a sector with exactly one sign, the signs are distinct positions and the armed timer's delay lies in 1200..2500 |
| `Session.DoubleDecisionGame.constructor` | DoubleDecision.py:9-41 | a new game has score 0, level 1, display time 2500, no vehicle, no target, no options, highlight 1, the menu showing and nothing armed |
| `Session.DoubleDecisionGame.StartGame` | DoubleDecision.py:185-187 | starting a game only draws new vehicle options and shows the preview |
| `Session.DoubleDecisionGame.ShowPreview` | DoubleDecision.py:203-205 | vehicle_options becomes the sample drawn, distinct loaded vehicles of length min(2, n), and nothing else changes |
| `Session.DoubleDecisionGame.ShowStimulus` | DoubleDecision.py:230-279 | with options, sets the vehicle to one of them, the target, the signs and a timer of `max(1200, display_time - 80 * level)` ms; with no options the screen is left blank and nothing else changes |
| `Session.DoubleDecisionGame.ShowResponseScreen` | DoubleDecision.py:281-357 | the vehicle choice is shown and no field changes |
| `Session.DoubleDecisionGame.CheckVehicle` | DoubleDecision.py:371-377 | the right vehicle leads to position selection with the highlight at -1, any other to game over; neither changes score or level |
| `Session.DoubleDecisionGame.ShowPositionSelection` | DoubleDecision.py:379-436 | the sector screen is shown with the highlight at -1 |
| `Session.DoubleDecisionGame.OnMouseMove` | DoubleDecision.py:438-517 | the highlight becomes `Hover` of the old highlight and the move; nothing else changes |
| `Session.DoubleDecisionGame.OnSectorClick` | DoubleDecision.py:519-522 | the click passes `Submission` of the highlight to check_position: nothing happens when that is none (highlight 1); otherwise the effects are check_position's, failing without effect for -1 |
| `Session.DoubleDecisionGame.CheckPosition` | DoubleDecision.py:524-588 | the target adds exactly 10 * level to the score and arms the 1500 ms success message; another sector leaves score and level alone and arms the 2000 ms game over; -1 fails and changes nothing |
| `Session.DoubleDecisionGame.ShowSuccessMessage` | DoubleDecision.py:590-595 | the level goes up by one and the preview is shown again with the score kept |
| `Session.DoubleDecisionGame.GameOver` | DoubleDecision.py:597-629 | the game-over screen is shown and no field changes |
| `Session.DoubleDecisionGame.RestartGame` | DoubleDecision.py:631-635 | score 0, level 1, display time 2500, back to the menu |
| `Session.DoubleDecisionGame.Elapse` | DoubleDecision.py:638-640 | running a pending timer removes it and does what its callback does: the vehicle choice, the success message or game over |
| `Scenarios.PointerOnSign` | DoubleDecision.py:262-267 | a pointer placed a given distance out along the ray through a sign's centre lies outside the dead zone and resolves to that sign's position |
| `Scenarios.MoveAll` | DoubleDecision.py:432 | delivering a run of motion events to the sector screen sets the highlight to `HoverAll` of the run and changes nothing else |
| `Scenarios.HoverThenClick` | DoubleDecision.py:432-436 | for any run of moves from entry, a click fails exactly when no move left the dead zone, and scores exactly when the last move, outside the dead zone, resolved to a target other than 1 |
| `Scenarios.WinFirstRound` | DoubleDecision.py:551-595 | a correct first round ends with score 10, level 2 and the preview showing |
| `Scenarios.WrongVehicle` | DoubleDecision.py:371-377 | a wrong vehicle ends the game with score 0 at level 1 |
| `Scenarios.WrongPosition` | DoubleDecision.py:553-588 | a wrong sector arms only game over, and the game ends with score 0 |
| `Scenarios.TargetOneCannotBeAnswered` | DoubleDecision.py:519-522 | with the target at position 1, hovering it and clicking arms nothing and scores nothing |
| `Scenarios.ClickBeforeHover` | DoubleDecision.py:519-564 | a click before any hover fails in check_position and arms nothing |
| `Scenarios.SecondClickDuringDelay` | DoubleDecision.py:432-433 | a second click during the success delay scores again and gains a second level: score 20, level 3 |
| `Scenarios.WrongThenRightSector` | DoubleDecision.py:551-595 | after a wrong sector, a click on the target still scores: game_over shows the game-over screen, then the success message brings play back to the preview with score 10 at level 2 |
| `Scenarios.WinLoseRestart` | DoubleDecision.py:631-635 | the score is carried into the next level (10 at level 2 on game over) and reset only by the restart |

## Left out

- Widgets are not modelled: Tkinter frames, labels, buttons and canvases, `create_menu`, `clear_screen` and the drawing in `show_response_screen` and `game_over`. Only the screen each method leaves showing is kept, as `phase`.
- Pictures are not modelled: PIL image work in `create_transparent_sector`, `highlight_vehicle`, `unhighlight_vehicle` and the sector images swapped by `on_mouse_move` and `check_position`.
- `load_images`: file I/O. The constructor takes the vehicle keys it would find: distinct, in 0..7.
- The choice of picture for each distractor sign (line 275): it affects only the picture.
- `math.atan2`, `math.sqrt`, `cos` and `sin`: floating-point geometry, left out.
  - The heading is an input of the motion event.
  - The dead zone compares integer squared distances.
  - Angles are exact reals, so float rounding right at a sector boundary is not modelled.
- `Session.DoubleDecisionGame.OnMouseMove`: the model does not tie the heading to dx and dy, because that would need atan2.
- The `random` module: its draws are parameters constrained by what sampling guarantees.
- `Session.DoubleDecisionGame.Elapse`: timers may fire in any order. The model does not order `root.after` calls by their delays.
- Modal `messagebox` dialogs: they run a nested event loop, which is left out.
- `game_state`: it is written and never read.
- The quit button (`root.quit`): it only ends the event loop.
- Exceptions become outcomes:
  - the KeyError of check_position(-1) is `ok == false` with no change;
  - the IndexError of show_stimulus with no vehicles is the `Blank` phase.
