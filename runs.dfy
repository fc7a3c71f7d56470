/**
 * Sequences of events: the user's clicks and key presses interleaved in any
 * order with the firings of the two timers. A timer that has been cleared
 * never fires, so a timer event whose timer is not armed changes nothing.
 */
module Runs {
  import opened Places
  import opened SessionModel

  datatype Event =
    | StartClicked
    | IntervalFired(slot: Slot)
    | HideFired
    | TargetClicked
    | KeyPressed(key: string)
    | ContinueClicked
    | QuitClicked

  function Step(s: SessionState, e: Event): (r: SessionState)
    requires s.currentLevel >= 1
    ensures e.IntervalFired? && !s.intervalArmed ==> r == s
    ensures e.HideFired? && !s.hideArmed ==> r == s
  {
    match e
    case StartClicked => Start(s)
    case IntervalFired(slot) => if s.intervalArmed then Tick(s, slot) else s
    case HideFired => if s.hideArmed then HideExpire(s) else s
    case TargetClicked => Click(s)
    case KeyPressed(key) => KeyDown(s, key)
    case ContinueClicked => Continue(s)
    case QuitClicked => Quit(s)
  }

  lemma StepKeepsInv(s: SessionState, e: Event)
    requires Inv(s)
    ensures Inv(Step(s, e))
  {
    match e
    case StartClicked => StartKeepsInv(s);
    case IntervalFired(slot) => if s.intervalArmed { TickKeepsInv(s, slot); }
    case HideFired => if s.hideArmed { HideExpireKeepsInv(s); }
    case TargetClicked => ClickKeepsInv(s);
    case KeyPressed(key) => KeyDownKeepsInv(s, key);
    case ContinueClicked => ContinueKeepsInv(s);
    case QuitClicked => QuitKeepsInv(s);
  }

  /** The state after the events, in order. */
  ghost function Run(s: SessionState, events: seq<Event>): SessionState
    requires Inv(s)
    decreases |events|
  {
    if events == [] then s
    else
      StepKeepsInv(s, events[0]);
      Run(Step(s, events[0]), events[1..])
  }

  /** No sequence of events leaves the invariant. */
  lemma {:induction false} RunKeepsInv(s: SessionState, events: seq<Event>)
    requires Inv(s)
    ensures Inv(Run(s, events))
    decreases |events|
  {
    if events != [] {
      StepKeepsInv(s, events[0]);
      RunKeepsInv(Step(s, events[0]), events[1..]);
    }
  }

  /**
   * Whatever the player does and however the timers interleave, from the
   * page's initial state: the level stays in 1..70, the high score is never
   * below the score, at most 20 hits are counted in a level, and the
   * multiplier is one of 1.0, 1.5, 2.0, 2.5, 3.0.
   */
  lemma ReachableBounds(storedHigh: int, events: seq<Event>)
    requires storedHigh >= 0
    ensures var r := Run(Init(storedHigh), events);
            1 <= r.currentLevel <= MaxLevel && 0 <= r.score <= r.highScore
            && storedHigh <= r.highScore
            && 0 <= r.hitsThisLevel <= Appearances
            && 2 <= r.multHalves <= 6
  {
    RunKeepsInv(Init(storedHigh), events);
    HighScoreNeverDrops(Init(storedHigh), events);
  }

  /** The high score only ever rises. */
  lemma {:induction false} HighScoreNeverDrops(s: SessionState, events: seq<Event>)
    requires Inv(s)
    ensures s.highScore <= Run(s, events).highScore
    decreases |events|
  {
    if events != [] {
      StepKeepsInv(s, events[0]);
      HighScoreNeverDrops(Step(s, events[0]), events[1..]);
    }
  }

  /** Events that can happen while a level plays: timer firings, clicks, key presses. */
  predicate InLevel(e: Event) {
    e.IntervalFired? || e.HideFired? || e.TargetClicked? || e.KeyPressed?
  }

  /** How many ticker firings the events hold. */
  function TickEvents(events: seq<Event>): nat
  {
    if events == [] then 0
    else (if events[0].IntervalFired? then 1 else 0) + TickEvents(events[1..])
  }

  /**
   * The level-progress part of a state: the ticker is armed exactly while
   * fewer than 20 ticks have passed, and once 20 have, the next level is
   * pending.
   */
  ghost predicate LevelPhase(s: SessionState) {
    (s.intervalArmed <==> s.tickCount < Appearances) &&
    (s.tickCount == Appearances ==> s.pendingNext == s.runLevel + 1)
  }

  /** Starting a level puts it at its first tick. */
  lemma StartLevelPhase(s: SessionState, level: int)
    ensures LevelPhase(StartLevel(s, level)) && StartLevel(s, level).tickCount == 0
  {
  }

  /**
   * A level runs exactly 20 ticks: after any catches, misses and key
   * presses, the tick count is the number of ticker firings capped at 20,
   * the ticker is armed exactly while that number is below 20, and from the
   * 20th on the target is hidden, no hide timer is armed and the next level
   * is pending.
   */
  lemma {:induction false} LevelRunsTwentyTicks(s: SessionState, events: seq<Event>)
    requires Inv(s) && LevelPhase(s)
    requires forall k :: 0 <= k < |events| ==> InLevel(events[k])
    ensures var r := Run(s, events);
            var n := s.tickCount + TickEvents(events);
            r.runLevel == s.runLevel && LevelPhase(r)
            && r.tickCount == (if n < Appearances then n else Appearances)
            && (n >= Appearances ==> !r.visible && !r.hideArmed && r.pendingNext == s.runLevel + 1)
    decreases |events|
  {
    if events != [] {
      var e := events[0];
      StepKeepsInv(s, e);
      var s' := Step(s, e);
      assert LevelPhase(s') && s'.runLevel == s.runLevel by {
        if e.IntervalFired? && s.intervalArmed {
          assert s'.tickCount == s.tickCount + 1;
        }
      }
      assert s'.tickCount == (if s.tickCount + (if e.IntervalFired? then 1 else 0) < Appearances
                              then s.tickCount + (if e.IntervalFired? then 1 else 0)
                              else Appearances);
      LevelRunsTwentyTicks(s', events[1..]);
    }
  }

  predicate IsTimerEvent(e: Event) {
    e.IntervalFired? || e.HideFired?
  }

  /**
   * After quitting, the cleared timers stay silent: no sequence of timer
   * firings changes the state.
   */
  lemma {:induction false} QuitSilencesTimers(s: SessionState, events: seq<Event>)
    requires Inv(s)
    requires forall k :: 0 <= k < |events| ==> IsTimerEvent(events[k])
    ensures Inv(Quit(s))
    ensures Run(Quit(s), events) == Quit(s)
    decreases |events|
  {
    QuitKeepsInv(s);
    if events != [] {
      assert Step(Quit(s), events[0]) == Quit(s);
      QuitSilencesTimers(s, events[1..]);
    }
  }
}
