/**
 * The five fixed places where the target can appear, and which keyboard key
 * catches the target at each of them.
 */
module Places {
  import opened Wrappers

  datatype PosName = Top | Right | Bottom | Left | Center

  /** One entry of the position table: screen coordinates in percent, and a name. */
  datatype Position = Position(topPct: nat, leftPct: nat, name: PosName)

  /** The number of entries; the random choice of a tick is an index below it. */
  const PositionCount := 5

  /** A valid index into the position table. */
  type Slot = i: int | 0 <= i < PositionCount

  const Positions: seq<Position> := [
    Position(10, 50, Top),
    Position(50, 97, Right),
    Position(90, 50, Bottom),
    Position(50, 3, Left),
    Position(50, 50, Center)
  ]

  /** Where a place sits in the table: the inverse of reading a name off an entry. */
  function IndexOf(p: PosName): (i: Slot)
    ensures Positions[i].name == p
  {
    match p
    case Top => 0
    case Right => 1
    case Bottom => 2
    case Left => 3
    case Center => 4
  }

  /** Every entry has a different name, so the table lists each place exactly once. */
  lemma PositionsDistinct(i: Slot)
    ensures IndexOf(Positions[i].name) == i
  {
  }

  /**
   * The keydown matching rule: the arrow keys catch the target at the
   * matching edge, '0' or 'Numpad0' catches it in the centre; with no
   * current position nothing matches.
   */
  function KeyMatches(key: string, current: Option<PosName>): (m: bool)
    ensures m <==> current.Some? && key in CatchKeys(current.value)
  {
    (key == "ArrowUp" && current == Some(Top)) ||
    (key == "ArrowDown" && current == Some(Bottom)) ||
    (key == "ArrowLeft" && current == Some(Left)) ||
    (key == "ArrowRight" && current == Some(Right)) ||
    ((key == "0" || key == "Numpad0") && current == Some(Center))
  }

  /** The keys that catch the target at each place. */
  function CatchKeys(p: PosName): (keys: set<string>)
    ensures |keys| >= 1
  {
    match p
    case Top => {"ArrowUp"}
    case Bottom => {"ArrowDown"}
    case Left => {"ArrowLeft"}
    case Right => {"ArrowRight"}
    case Center => {"0", "Numpad0"}
  }

  /** No key catches the target at two different places. */
  lemma KeyDeterminesPlace(key: string, p: PosName, q: PosName)
    requires key in CatchKeys(p) && key in CatchKeys(q)
    ensures p == q
  {
  }
}
