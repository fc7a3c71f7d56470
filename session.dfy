/**
 * The page's game state as an object whose handlers update its fields in
 * place, statement by statement as the page script does. Each handler is
 * proved to produce exactly the state the matching transition of
 * SessionModel describes, and to keep the session invariant.
 */
module Session {
  import opened Wrappers
  import opened Scoring
  import opened Places
  import SessionModel

  class GameSession {
    var currentLevel: int
    var score: int
    var highScore: int
    var gameRunning: bool
    var intervalArmed: bool   // `currentInterval` is a live handle
    var hideArmed: bool       // `currentHideTimeout` is a live handle
    var hitsThisLevel: int
    var pendingNext: int      // 0 for `null`
    var currentPos: Option<PosName>
    var streak: nat
    var multHalves: int       // `multiplier`, in half-units
    var pointsThisLevel: int
    var caught: bool          // `pizzaCaughtThisAppearance`
    var visible: bool         // the target's display style is 'block'
    var tickCount: int        // `count` of the live ticker
    var runLevel: int         // `level` of the live ticker

    /** The fields as one value. */
    function State(): SessionModel.SessionState
      reads this
    {
      SessionModel.SessionState(currentLevel, score, highScore, gameRunning, intervalArmed,
        hideArmed, hitsThisLevel, pendingNext, currentPos, streak, multHalves,
        pointsThisLevel, caught, visible, tickCount, runLevel)
    }

    ghost predicate Valid()
      reads this
    {
      SessionModel.Inv(State())
    }

    /** Page load; `storedHigh` is the high score found in storage. */
    constructor (storedHigh: int)
      requires storedHigh >= 0
      ensures Valid() && State() == SessionModel.Init(storedHigh)
    {
      currentLevel := 1;
      score := 0;
      gameRunning := false;
      intervalArmed := false;
      hideArmed := false;
      hitsThisLevel := 0;
      pendingNext := 0;
      currentPos := None;
      streak := 0;
      multHalves := BaseHalves;
      pointsThisLevel := 0;
      caught := false;
      highScore := storedHigh;
      visible := false;
      tickCount := 0;
      runLevel := 1;
    }

    /** The start button's handler. */
    method Start()
      requires Valid()
      modifies this
      ensures Valid() && State() == SessionModel.Start(old(State()))
    {
      if gameRunning {
        return;
      }
      gameRunning := true;
      StartLevel(currentLevel);
    }

    /** `startLevel(level)`. */
    method StartLevel(level: int)
      requires Valid() && 1 <= level <= SessionModel.MaxLevel
      modifies this
      ensures Valid() && State() == SessionModel.StartLevel(old(State()), level)
    {
      tickCount := 0;
      hitsThisLevel := 0;
      if intervalArmed {
        intervalArmed := false;
      }
      if hideArmed {
        hideArmed := false;
      }
      intervalArmed := true;
      runLevel := level;
    }

    /** One firing of the live ticker, which drew table entry `slot`. */
    method Tick(slot: Slot)
      requires Valid() && intervalArmed
      modifies this
      ensures Valid() && State() == SessionModel.Tick(old(State()), slot)
    {
      var pos := Positions[slot];
      currentPos := Some(pos.name);
      visible := true;
      if hideArmed {
        hideArmed := false;
      }
      caught := false;
      hideArmed := true;
      tickCount := tickCount + 1;
      ghost var shown := State();
      assert shown == old(State()).(currentPos := Some(pos.name), visible := true, hideArmed := true,
                                    caught := false, tickCount := tickCount);
      if tickCount >= SessionModel.Appearances {
        if intervalArmed {
          intervalArmed := false;
        }
        if hideArmed {
          hideArmed := false;
        }
        visible := false;
        pendingNext := runLevel + 1;
      }
    }

    /** The firing of the live hide timer. */
    method HideExpire()
      requires Valid() && hideArmed
      modifies this
      ensures Valid() && State() == SessionModel.HideExpire(old(State()))
      ensures streak == 0 && multHalves == BaseHalves
    {
      if !caught {
        streak := 0;
        multHalves := BaseHalves;
      }
      visible := false;
      hideArmed := false;
    }

    /** `awardPoints(level)`. */
    method AwardPoints(level: int)
      requires Valid() && level >= 1
      modifies this
      ensures Valid() && State() == SessionModel.Award(old(State()), level)
    {
      var base := BasePoints(level);
      var points := RoundHalves(base, multHalves);
      score := score + points;
      pointsThisLevel := pointsThisLevel + points;
      if score > highScore {
        highScore := score;
      }
    }

    /** The body shared by the click and the key handler once a catch is decided. */
    method CatchTarget()
      requires Valid() && visible
      modifies this
      ensures Valid() && State() == SessionModel.Catch(old(State()))
    {
      ghost var before := State();
      if hideArmed {
        hideArmed := false;
      }
      caught := true;
      streak := streak + 1;
      multHalves := MultiplierHalves(streak);
      assert State() == SessionModel.MarkCaught(before);
      SessionModel.CatchKeepsInv(before);
      AwardPoints(currentLevel);
      ghost var awarded := State();
      assert awarded == SessionModel.Award(SessionModel.MarkCaught(before), before.currentLevel);
      hitsThisLevel := hitsThisLevel + 1;
      visible := false;
      assert State() == awarded.(hitsThisLevel := awarded.hitsThisLevel + 1, visible := false);
    }

    /** The pointer handler on the target. */
    method Click()
      requires Valid()
      modifies this
      ensures Valid() && State() == SessionModel.Click(old(State()))
    {
      if visible {
        CatchTarget();
      }
    }

    /** The keydown handler. */
    method KeyDown(key: string)
      requires Valid()
      modifies this
      ensures Valid() && State() == SessionModel.KeyDown(old(State()), key)
    {
      if !gameRunning {
        return;
      }
      if !visible {
        return;
      }
      var matched := false;
      if key == "ArrowUp" && currentPos == Some(Top) { matched := true; }
      if key == "ArrowDown" && currentPos == Some(Bottom) { matched := true; }
      if key == "ArrowLeft" && currentPos == Some(Left) { matched := true; }
      if key == "ArrowRight" && currentPos == Some(Right) { matched := true; }
      if (key == "0" || key == "Numpad0") && currentPos == Some(Center) { matched := true; }
      if matched {
        CatchTarget();
      }
    }

    /** The continue button's handler. */
    method Continue()
      requires Valid()
      modifies this
      ensures Valid() && State() == SessionModel.Continue(old(State()))
    {
      if pendingNext != 0 {
        if pendingNext <= SessionModel.MaxLevel {
          currentLevel := pendingNext;
          pendingNext := 0;
          StartLevel(currentLevel);
          return;
        }
      }
      gameRunning := false;
      currentLevel := 1;
      score := 0;
      pendingNext := 0;
    }

    /** The quit button's handler: after it neither timer can fire. */
    method Quit()
      requires Valid()
      modifies this
      ensures Valid() && State() == SessionModel.Quit(old(State()))
      ensures !intervalArmed && !hideArmed
    {
      if intervalArmed {
        intervalArmed := false;
      }
      if hideArmed {
        hideArmed := false;
      }
      gameRunning := false;
      currentLevel := 1;
      score := 0;
      pendingNext := 0;
    }
  }
}
