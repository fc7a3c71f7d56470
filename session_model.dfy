/**
 * The game session as a value: every global the page script keeps, plus one
 * "armed" flag per timer in place of the interval and timeout handles.
 * Each event handler of the page is a transition function on this value;
 * the class in module Session performs the same steps in place and is proved
 * against these functions.
 */
module SessionModel {
  import opened Wrappers
  import opened Scoring
  import opened Places

  const MaxLevel := 70

  /** Appearances per level. */
  const Appearances := 20

  /**
   * `pendingNext` is `null` or a level number; 0 stands for `null` (level
   * numbers are never 0). `tickCount` and `runLevel` are what the live ticker
   * closure captured (`count` and `level`); `caught` is
   * `pizzaCaughtThisAppearance`, `visible` is the target's display style and
   * `multHalves` is the multiplier in half-units.
   */
  datatype SessionState = SessionState(
    currentLevel: int,
    score: int,
    highScore: int,
    gameRunning: bool,
    intervalArmed: bool,
    hideArmed: bool,
    hitsThisLevel: int,
    pendingNext: int,
    currentPos: Option<PosName>,
    streak: nat,
    multHalves: int,
    pointsThisLevel: int,
    caught: bool,
    visible: bool,
    tickCount: int,
    runLevel: int
  )

  /** The state when the page loads; `storedHigh` is the high score read from storage. */
  function Init(storedHigh: int): (s: SessionState)
    requires storedHigh >= 0
    ensures Inv(s) && !s.gameRunning && !s.intervalArmed && !s.hideArmed
    ensures s.currentLevel == 1 && s.score == 0 && s.highScore == storedHigh
  {
    SessionState(1, 0, storedHigh, false, false, false, 0, 0, None, 0, BaseHalves, 0,
                 false, false, 0, 1)
  }

  /**
   * What holds in every reachable state, whatever order the handlers and
   * the live timers fire in.
   */
  ghost predicate Inv(s: SessionState) {
    // levels stay within the game; a pending level is one past a played one
    1 <= s.currentLevel <= MaxLevel &&
    1 <= s.runLevel <= MaxLevel &&
    (s.pendingNext == 0 || 2 <= s.pendingNext <= MaxLevel + 1) &&
    // the high score is never below the score
    0 <= s.score <= s.highScore &&
    s.pointsThisLevel >= 0 &&
    // the multiplier is the streak's
    s.multHalves == MultiplierHalves(s.streak) &&
    // the ticker runs at most 20 times per level
    0 <= s.tickCount <= Appearances &&
    (s.intervalArmed ==> s.tickCount < Appearances) &&
    (s.tickCount == Appearances ==> !s.visible && !s.hideArmed) &&
    // an armed hide timer belongs to a shown, not yet caught appearance
    (s.hideArmed ==> s.visible && !s.caught) &&
    (s.visible ==> s.currentPos.Some?) &&
    // each appearance is caught at most once
    0 <= s.hitsThisLevel <= Appearances &&
    s.hitsThisLevel + (if s.visible then 1 else 0) <= s.tickCount + 1
  }

  /**
   * `startLevel(level)`: reset the tick count and the hits, cancel both
   * timers and arm the ticker for `level` (the every-tenth-level alert is
   * presentation).
   */
  function StartLevel(s: SessionState, level: int): (r: SessionState)
    ensures r.intervalArmed && !r.hideArmed && r.tickCount == 0 && r.hitsThisLevel == 0
    ensures r.runLevel == level
    ensures r.score == s.score && r.streak == s.streak && r.pointsThisLevel == s.pointsThisLevel
  {
    s.(tickCount := 0, hitsThisLevel := 0, hideArmed := false,
       intervalArmed := true, runLevel := level)
  }

  /** The start button: ignored while a game runs, otherwise starts the current level. */
  function Start(s: SessionState): (r: SessionState)
    ensures s.gameRunning ==> r == s
    ensures r.gameRunning && r.intervalArmed == (s.gameRunning ==> s.intervalArmed)
    ensures !s.gameRunning ==> r.runLevel == s.currentLevel && r.tickCount == 0
  {
    if s.gameRunning then s
    else StartLevel(s.(gameRunning := true), s.currentLevel)
  }

  /**
   * One firing of the ticker: show the target at table entry `slot`, drop
   * a still-armed hide timer without counting a miss, arm a fresh one, count
   * the tick; the 20th tick stops both timers, hides the target again and
   * records the next level as pending.
   */
  function Tick(s: SessionState, slot: Slot): (r: SessionState)
    ensures r.currentPos == Some(Positions[slot].name)
    ensures r.tickCount == s.tickCount + 1
    ensures r.streak == s.streak && r.score == s.score && r.hitsThisLevel == s.hitsThisLevel
    ensures r.tickCount < Appearances ==> r.visible && r.hideArmed && !r.caught
    ensures r.tickCount < Appearances ==> r.intervalArmed == s.intervalArmed && r.pendingNext == s.pendingNext
    ensures r.tickCount >= Appearances ==>
              !r.visible && !r.hideArmed && !r.intervalArmed && r.pendingNext == s.runLevel + 1
  {
    var shown := s.(currentPos := Some(Positions[slot].name), visible := true,
                    hideArmed := true, caught := false, tickCount := s.tickCount + 1);
    if shown.tickCount >= Appearances then
      shown.(intervalArmed := false, hideArmed := false, visible := false,
             pendingNext := s.runLevel + 1)
    else shown
  }

  /** The hide timer fires: an uncaught appearance breaks the streak; the target is hidden. */
  function HideExpire(s: SessionState): (r: SessionState)
    ensures !r.visible && !r.hideArmed
    ensures !s.caught ==> r.streak == 0 && r.multHalves == BaseHalves
    ensures r.score == s.score && r.pointsThisLevel == s.pointsThisLevel
    ensures r.hitsThisLevel == s.hitsThisLevel && r.highScore == s.highScore
  {
    var missed := if !s.caught then s.(streak := 0, multHalves := BaseHalves) else s;
    missed.(visible := false, hideArmed := false)
  }

  /**
   * `awardPoints(level)`: add the catch's points to the score and to the
   * level's points; the high score follows the score when it is passed.
   */
  function Award(s: SessionState, level: int): (r: SessionState)
    requires level >= 1 && s.multHalves >= BaseHalves
    ensures r.score - s.score == r.pointsThisLevel - s.pointsThisLevel
                             == CatchPoints(level, s.multHalves) > 0
    ensures r.highScore >= r.score && r.highScore >= s.highScore
    ensures r.highScore == s.highScore || r.highScore == r.score
    ensures r.streak == s.streak && r.hitsThisLevel == s.hitsThisLevel
  {
    var points := CatchPoints(level, s.multHalves);
    var scored := s.(score := s.score + points, pointsThisLevel := s.pointsThisLevel + points);
    if scored.score > scored.highScore then scored.(highScore := scored.score) else scored
  }

  /**
   * The first steps of a catch: cancel the hide timer, mark the appearance
   * caught, extend the streak and recompute the multiplier from it.
   */
  function MarkCaught(s: SessionState): (r: SessionState)
    ensures r.caught && !r.hideArmed && r.streak == s.streak + 1
    ensures r.multHalves == MultiplierHalves(r.streak) >= BaseHalves
    ensures r.score == s.score && r.visible == s.visible && r.hitsThisLevel == s.hitsThisLevel
  {
    s.(hideArmed := false, caught := true, streak := s.streak + 1,
       multHalves := MultiplierHalves(s.streak + 1))
  }

  /**
   * The common body of both catch handlers: cancel the hide timer, mark the
   * appearance caught, extend the streak, recompute the multiplier, award
   * the points, count the hit and hide the target.
   */
  function Catch(s: SessionState): (r: SessionState)
    requires s.currentLevel >= 1
    ensures r.caught && !r.visible && !r.hideArmed
    ensures r.streak == s.streak + 1 && r.multHalves == MultiplierHalves(r.streak)
    ensures r.hitsThisLevel == s.hitsThisLevel + 1
    ensures r.score == s.score + CatchPoints(s.currentLevel, MultiplierHalves(s.streak + 1))
    ensures r.highScore >= r.score
  {
    var awarded := Award(MarkCaught(s), s.currentLevel);
    awarded.(hitsThisLevel := awarded.hitsThisLevel + 1, visible := false)
  }

  /** A pointer click on the target: catches it whenever it is shown, running or not. */
  function Click(s: SessionState): (r: SessionState)
    requires s.currentLevel >= 1
    ensures !s.visible ==> r == s
    ensures s.visible ==> r == Catch(s)
  {
    if s.visible then Catch(s) else s
  }

  /** A key press: catches the target only in a running game, when shown, with the matching key. */
  function KeyDown(s: SessionState, key: string): (r: SessionState)
    requires s.currentLevel >= 1
    ensures r != s ==> s.gameRunning && s.visible && KeyMatches(key, s.currentPos)
    ensures s.gameRunning && s.visible && KeyMatches(key, s.currentPos) ==> r == Catch(s)
  {
    if !s.gameRunning || !s.visible then s
    else if KeyMatches(key, s.currentPos) then Catch(s)
    else s
  }

  /**
   * The continue button: start the pending level when there is one within
   * the game; otherwise (nothing pending, or all 70 levels done) return to
   * the menu with level 1 and score 0. The timers are not touched on the
   * way back to the menu.
   */
  function Continue(s: SessionState): (r: SessionState)
    ensures s.pendingNext != 0 && s.pendingNext <= MaxLevel ==>
              r.currentLevel == r.runLevel == s.pendingNext && r.intervalArmed && r.tickCount == 0
    ensures s.pendingNext == 0 || s.pendingNext > MaxLevel ==>
              !r.gameRunning && r.currentLevel == 1 && r.score == 0
              && r.intervalArmed == s.intervalArmed && r.hideArmed == s.hideArmed
    ensures r.pendingNext == 0 && r.highScore == s.highScore && r.streak == s.streak
  {
    if s.pendingNext != 0 && s.pendingNext <= MaxLevel then
      StartLevel(s.(currentLevel := s.pendingNext, pendingNext := 0), s.pendingNext)
    else
      s.(gameRunning := false, currentLevel := 1, score := 0, pendingNext := 0)
  }

  /**
   * The quit button: cancel both timers and return to the menu with level 1
   * and score 0. The streak, the multiplier and the target's visibility are
   * left as they are.
   */
  function Quit(s: SessionState): (r: SessionState)
    ensures !r.intervalArmed && !r.hideArmed && !r.gameRunning
    ensures r.currentLevel == 1 && r.score == 0 && r.pendingNext == 0
    ensures r.highScore == s.highScore && r.streak == s.streak && r.visible == s.visible
  {
    s.(intervalArmed := false, hideArmed := false, gameRunning := false,
       currentLevel := 1, score := 0, pendingNext := 0)
  }

  // ---- Every handler and every live timer keeps the invariant ----

  lemma StartKeepsInv(s: SessionState)
    requires Inv(s)
    ensures Inv(Start(s))
  {
  }

  /** A tick fires only while the ticker is armed. */
  lemma TickKeepsInv(s: SessionState, slot: Slot)
    requires Inv(s) && s.intervalArmed
    ensures Inv(Tick(s, slot))
  {
  }

  /**
   * The hide timer fires only while armed, and an armed hide timer always
   * belongs to an uncaught appearance: its firing always records a miss.
   */
  lemma HideExpireKeepsInv(s: SessionState)
    requires Inv(s) && s.hideArmed
    ensures Inv(HideExpire(s))
    ensures HideExpire(s).streak == 0 && HideExpire(s).multHalves == BaseHalves
  {
  }

  lemma ClickKeepsInv(s: SessionState)
    requires Inv(s)
    ensures Inv(Click(s))
  {
  }

  lemma KeyDownKeepsInv(s: SessionState, key: string)
    requires Inv(s)
    ensures Inv(KeyDown(s, key))
  {
  }

  lemma ContinueKeepsInv(s: SessionState)
    requires Inv(s)
    ensures Inv(Continue(s))
  {
  }

  lemma QuitKeepsInv(s: SessionState)
    requires Inv(s)
    ensures Inv(Quit(s))
  {
  }

  // ---- Catches ----

  /**
   * A catch of a shown pizza keeps the invariant, and so does its first
   * part, before the points are awarded.
   */
  lemma CatchKeepsInv(s: SessionState)
    requires Inv(s) && s.visible
    ensures Inv(MarkCaught(s))
    ensures Inv(Catch(s))
  {
  }

  /**
   * After a catch the target is hidden and its hide timer cancelled: a
   * second click or key press changes nothing, and no miss can follow.
   */
  lemma CatchIsFinal(s: SessionState, key: string)
    requires s.currentLevel >= 1
    ensures Click(Catch(s)) == Catch(s)
    ensures KeyDown(Catch(s), key) == Catch(s)
    ensures !Catch(s).hideArmed
  {
  }

  /** A catch at a streak of 0, at level 1, scores 11 and leaves the multiplier at 1.0. */
  lemma FirstCatchScenario(s: SessionState)
    requires Inv(s) && s.currentLevel == 1 && s.streak == 0
    ensures Catch(s).score == s.score + 11 && Catch(s).multHalves == BaseHalves
  {
  }

  /**
   * The 20th appearance is shown and hidden within the same tick, with its
   * hide timer cancelled: it can be neither caught nor missed.
   */
  lemma LastAppearanceUncatchable(s: SessionState, slot: Slot, key: string)
    requires s.currentLevel >= 1 && s.tickCount == Appearances - 1
    ensures Click(Tick(s, slot)) == Tick(s, slot)
    ensures KeyDown(Tick(s, slot), key) == Tick(s, slot)
    ensures !Tick(s, slot).hideArmed
  {
  }
}
