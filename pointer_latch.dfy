/**
 * The hover/click latch of the position-selection screen: on_mouse_move keeps
 * the last sector the pointer resolved to in `current_highlighted_sector`, and
 * on_sector_click submits that field to check_position.
 *
 * The field uses two sentinels that the code does not keep apart: it is set to
 * -1 on entering the screen, the dead zone resets it to 1 (unless it is -1),
 * and the click handler tests it against 1. So 1 serves both as "nothing
 * highlighted" and as the real sector 1.
 */
module PointerLatch {
  import opened Options
  import opened SectorGeometry

  /** One <Motion> event: the pointer's offset from the centre and its heading. */
  datatype Move = Move(dx: int, dy: int, heading: real)

  predicate ValidMove(m: Move)
  {
    IsHeading(m.heading)
  }

  predicate AllValid(moves: seq<Move>)
  {
    forall i :: 0 <= i < |moves| ==> ValidMove(moves[i])
  }

  /** The highlight set on entering position selection. */
  const NoHighlight: int := -1

  /** The highlight set by the constructor and by a move into the dead zone. */
  const ResetHighlight: int := 1

  /** The values the highlight can hold: the entry sentinel or a sector. */
  predicate IsHighlight(h: int)
  {
    h == NoHighlight || 0 <= h < SectorCount
  }

  /**
   * The highlight after one motion event. Outside the dead zone the field is
   * overwritten only when the resolved sector differs from it; inside, it is
   * reset to 1 unless it is -1.
   */
  function Hover(h: int, m: Move): (r: int)
    requires ValidMove(m)
    ensures IsHighlight(h) ==> IsHighlight(r)
  {
    if OutsideDeadZone(m.dx, m.dy) then
      var sector := SectorOfHeading(m.heading);
      if sector != h then sector else h
    else if h != NoHighlight then ResetHighlight
    else h
  }

  /** The highlight after a run of motion events, oldest first. */
  function HoverAll(h: int, moves: seq<Move>): int
    requires AllValid(moves)
    decreases |moves|
  {
    if moves == [] then h
    else Hover(HoverAll(h, moves[..|moves| - 1]), moves[|moves| - 1])
  }

  /**
   * What a click passes to check_position: the highlight, unless it equals 1,
   * in which case the click does nothing. Sector 1 is therefore never submitted.
   */
  function Submission(h: int): (r: Option<int>)
    ensures r != Some(ResetHighlight)
    ensures r.None? <==> h == ResetHighlight
    ensures h != ResetHighlight ==> r == Some(h)
  {
    if h != ResetHighlight then Some(h) else None
  }

  /** No move of the run left the dead zone. */
  predicate NoneOutside(moves: seq<Move>)
  {
    forall j :: 0 <= j < |moves| ==> !OutsideDeadZone(moves[j].dx, moves[j].dy)
  }

  /** Outside the dead zone the highlight is the resolved sector, whatever it was. */
  lemma OutsideSelects(h: int, m: Move)
    requires ValidMove(m)
    requires OutsideDeadZone(m.dx, m.dy)
    ensures Hover(h, m) == SectorOfHeading(m.heading)
    ensures 0 <= Hover(h, m) < SectorCount
  {
  }

  /**
   * Inside the dead zone no sector is selected: the highlight stays -1 if it
   * was -1 and becomes 1 otherwise.
   */
  lemma DeadZoneSelectsNothing(h: int, m: Move)
    requires ValidMove(m)
    requires !OutsideDeadZone(m.dx, m.dy)
    ensures Hover(h, m) == NoHighlight <==> h == NoHighlight
    ensures h != NoHighlight ==> Hover(h, m) == ResetHighlight
  {
  }

  /** Repeating a motion event changes nothing more. */
  lemma HoverIdempotent(h: int, m: Move)
    requires ValidMove(m)
    ensures Hover(Hover(h, m), m) == Hover(h, m)
  {
  }

  /**
   * The highlight after a run of moves that starts on entering the screen:
   * -1 while no move has left the dead zone, the last move's sector when that
   * move is outside the dead zone, and 1 when the pointer has left the dead
   * zone at some point but the last move is back inside it.
   */
  lemma {:induction false} HoverFromEntry(moves: seq<Move>)
    requires AllValid(moves)
    ensures NoneOutside(moves) ==> HoverAll(NoHighlight, moves) == NoHighlight
    ensures moves != [] && OutsideDeadZone(moves[|moves| - 1].dx, moves[|moves| - 1].dy) ==>
              HoverAll(NoHighlight, moves) == SectorOfHeading(moves[|moves| - 1].heading)
    ensures !NoneOutside(moves) && !OutsideDeadZone(moves[|moves| - 1].dx, moves[|moves| - 1].dy) ==>
              HoverAll(NoHighlight, moves) == ResetHighlight
  {
    if moves != [] {
      var prefix := moves[..|moves| - 1];
      var last := moves[|moves| - 1];
      assert AllValid(prefix) by {
        forall i | 0 <= i < |prefix| ensures ValidMove(prefix[i]) {
          assert prefix[i] == moves[i];
        }
      }
      HoverFromEntry(prefix);
      assert forall j :: 0 <= j < |prefix| ==> prefix[j] == moves[j];
      if !OutsideDeadZone(last.dx, last.dy) && !NoneOutside(moves) {
        assert !NoneOutside(prefix);
        if prefix != [] && OutsideDeadZone(prefix[|prefix| - 1].dx, prefix[|prefix| - 1].dy) {
          assert HoverAll(NoHighlight, prefix) != NoHighlight;
        }
      }
    }
  }

  /**
   * What a click after a run of moves from entry submits: -1 exactly when no
   * move left the dead zone (a click before any hover), sector `s` exactly
   * when the last move resolved to `s` outside the dead zone and `s` is not 1,
   * and nothing at all otherwise.
   */
  lemma ClickAfterHovering(moves: seq<Move>, s: int)
    requires AllValid(moves)
    requires 0 <= s < SectorCount
    ensures Submission(HoverAll(NoHighlight, moves)) == Some(NoHighlight) <==> NoneOutside(moves)
    ensures Submission(HoverAll(NoHighlight, moves)) == Some(s) <==>
              moves != [] && OutsideDeadZone(moves[|moves| - 1].dx, moves[|moves| - 1].dy) &&
              SectorOfHeading(moves[|moves| - 1].heading) == s && s != ResetHighlight
  {
    HoverFromEntry(moves);
  }
}
