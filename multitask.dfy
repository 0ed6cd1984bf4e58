/**
 * The multitask test: two bars drift at random while the player steers them
 * to their targets with two key pairs. A 100 ms tick scores the combined
 * distance to the targets; after 20 seconds (200 ticks) the score is stored
 * as the `multitask` field.
 */
module MultitaskTest {
  import opened JsMath
  import opened ScoreStore

  datatype Phase = Idle | Countdown | Playing | Finished

  /** `{ position, target }`: a bar's position in 0..100 and the point it should stay near. */
  datatype Bar = Bar(position: real, target: int)

  /** The length of a round, in seconds. */
  const RoundSeconds := 20

  /** The game interval runs every 100 ms. */
  const TicksPerSecond := 10

  const StartVertical := Bar(50.0, 30)

  const StartHorizontal := Bar(50.0, 70)

  /** `Math.max(0, Math.min(100, x))`: keep a position on the bar. */
  function Clamp(x: real): (p: real)
    ensures 0.0 <= p <= 100.0
    ensures 0.0 <= x <= 100.0 ==> p == x
    ensures x < 0.0 ==> p == 0.0
    ensures x > 100.0 ==> p == 100.0
  {
    MaxReal(0.0, MinReal(100.0, x))
  }

  /** `Math.random() * 2 - 1`: one step of the random walk. */
  function Step(r: Draw): (s: real)
    ensures -1.0 <= s < 1.0
  {
    r * 2.0 - 1.0
  }

  /** A bar whose position is on the bar and whose target is a possible one. */
  ghost predicate BarOk(b: Bar)
  {
    0.0 <= b.position <= 100.0 && 20 <= b.target <= 79
  }

  /** The random walk moves a bar by less than one unit and keeps it on the bar. */
  function Drift(b: Bar, r: Draw): (d: Bar)
    ensures d.target == b.target && 0.0 <= d.position <= 100.0
    ensures 0.0 <= b.position <= 100.0 ==> AbsReal(d.position - b.position) <= 1.0
  {
    b.(position := Clamp(b.position + Step(r)))
  }

  /** `vDiff + hDiff`: how far both bars are from their targets together. */
  function Distance(v: Bar, h: Bar): (d: real)
    ensures d >= 0.0
  {
    AbsReal(v.position - v.target as real) + AbsReal(h.position - h.target as real)
  }

  /** The three-tier table: under 15 is 3 points, under 25 is 2, under 35 is 1, else 0. */
  function TickPoints(totalDiff: real): (p: int)
    ensures 0 <= p <= 3
  {
    if totalDiff < 15.0 then 3
    else if totalDiff < 25.0 then 2
    else if totalDiff < 35.0 then 1
    else 0
  }

  /** Being closer never scores less. */
  lemma TickPointsMonotone(near: real, far: real)
    requires near <= far
    ensures TickPoints(far) <= TickPoints(near)
  {
  }

  /** `Math.floor(Math.random() * 60) + 20`: a relocated target. */
  function NewTarget(r: Draw): (t: int)
    ensures 20 <= t <= 79
  {
    Floor(r * 60.0) + 20
  }

  /** `if (Math.random() < 0.01)` the target moves to `NewTarget(r)`. */
  function Relocate(b: Bar, chance: Draw, r: Draw): (m: Bar)
    ensures m.position == b.position
    ensures m.target == (if chance < 0.01 then NewTarget(r) else b.target)
  {
    if chance < 0.01 then b.(target := NewTarget(r)) else b
  }

  /** `toLowerCase` on one character: A..Z become a..z. */
  function LowerChar(c: char): char
  {
    if 'A' <= c <= 'Z' then (c as int + 32) as char else c
  }

  function Lower(s: string): (l: string)
    ensures |l| == |s|
    ensures forall i :: 0 <= i < |l| ==> !('A' <= l[i] <= 'Z')
    ensures forall i :: 0 <= i < |s| && !('A' <= s[i] <= 'Z') ==> l[i] == s[i]
    ensures forall i :: 0 <= i < |s| && 'A' <= s[i] <= 'Z' ==> l[i] as int == s[i] as int + 32
  {
    seq(|s|, i requires 0 <= i < |s| => LowerChar(s[i]))
  }

  predicate UpKey(key: string) { Lower(key) == "w" || Lower(key) == "arrowup" }

  predicate DownKey(key: string) { Lower(key) == "s" || Lower(key) == "arrowdown" }

  predicate LeftKey(key: string) { Lower(key) == "a" || Lower(key) == "arrowleft" }

  predicate RightKey(key: string) { Lower(key) == "d" || Lower(key) == "arrowright" }

  /**
   * The key names the page lists, and their capitals, select the intended
   * direction; a key that selects a direction lowers to one of those names.
   */
  lemma KeyNamesRecognised(key: string)
    ensures UpKey(key) || DownKey(key) || LeftKey(key) || RightKey(key) ==>
      Lower(key) in {"w", "s", "a", "d", "arrowup", "arrowdown", "arrowleft", "arrowright"}
    ensures UpKey("w") && UpKey("W") && UpKey("ArrowUp")
    ensures DownKey("s") && DownKey("S") && DownKey("ArrowDown")
    ensures LeftKey("a") && LeftKey("A") && LeftKey("ArrowLeft")
    ensures RightKey("d") && RightKey("D") && RightKey("ArrowRight")
    ensures !UpKey("x") && !DownKey("x") && !LeftKey("x") && !RightKey("x")
  {
    assert Lower("x") == "x";
  }

  /** Each key belongs to at most one of the four directions. */
  lemma KeysAreExclusive(key: string)
    ensures UpKey(key) ==> !DownKey(key) && !LeftKey(key) && !RightKey(key)
    ensures DownKey(key) ==> !LeftKey(key) && !RightKey(key)
    ensures LeftKey(key) ==> !RightKey(key)
  {
  }

  class Game {
    var phase: Phase
    var timeLeft: int
    var score: int
    var countdown: int
    /** The 1-second countdown interval is live. */
    var countdownRunning: bool
    /** The 100 ms game interval (`gameIntervalRef`) is live. */
    var intervalRunning: bool
    var tickCount: nat
    var vertical: Bar
    var horizontal: Bar

    ghost predicate Valid()
      reads this
    {
      && BarOk(vertical) && BarOk(horizontal)
      && 0 <= score
      && (countdownRunning <==> phase == Countdown)
      && (countdownRunning ==> 1 <= countdown <= 3 && timeLeft == RoundSeconds)
      && (intervalRunning <==> phase == Playing)
      && (intervalRunning ==> 0 < timeLeft && timeLeft == RoundSeconds - tickCount / TicksPerSecond)
    }

    constructor ()
      ensures Valid()
      ensures phase == Idle && score == 0 && timeLeft == RoundSeconds && countdown == 3
      ensures vertical == StartVertical && horizontal == StartHorizontal
      ensures !countdownRunning && !intervalRunning && tickCount == 0
    {
      phase := Idle;
      timeLeft := RoundSeconds;
      score := 0;
      countdown := 3;
      countdownRunning := false;
      intervalRunning := false;
      tickCount := 0;
      vertical := StartVertical;
      horizontal := StartHorizontal;
    }

    /** `startGame`, offered only in the idle phase: reset score, clock and bars, start the countdown. */
    method Start()
      requires Valid() && phase == Idle
      modifies this
      ensures Valid()
      ensures phase == Countdown && score == 0 && timeLeft == RoundSeconds && countdown == 3
      ensures vertical == StartVertical && horizontal == StartHorizontal
      ensures countdownRunning && !intervalRunning && tickCount == old(tickCount)
    {
      phase := Countdown;
      score := 0;
      timeLeft := RoundSeconds;
      vertical := StartVertical;
      horizontal := StartHorizontal;
      countdown := 3;
      intervalRunning := false;
      countdownRunning := true;
    }

    /** One second of the countdown; the third one starts the game interval (`startMainGame`). */
    method CountdownTick()
      requires Valid() && countdownRunning
      modifies this
      ensures Valid()
      ensures countdown == old(countdown) - 1
      ensures countdown <= 0 ==>
        && phase == Playing && !countdownRunning && intervalRunning && tickCount == 0
        && vertical == StartVertical && horizontal == StartHorizontal
      ensures countdown > 0 ==>
        && phase == Countdown && countdownRunning && !intervalRunning
        && vertical == old(vertical) && horizontal == old(horizontal) && tickCount == old(tickCount)
      ensures score == old(score) && timeLeft == old(timeLeft)
    {
      countdown := countdown - 1;
      if countdown <= 0 {
        countdownRunning := false;
        phase := Playing;
        tickCount := 0;
        vertical := StartVertical;
        horizontal := StartHorizontal;
        intervalRunning := true;
      }
    }

    /** `endGame`: clear the interval and store the score in the `multitask` field. */
    method EndGame(store: Store)
      modifies this, store
      ensures phase == Finished && !intervalRunning
      ensures store.item == Some(Put(old(store.Load()), Multitask, score))
      ensures score == old(score) && timeLeft == old(timeLeft) && tickCount == old(tickCount)
      ensures vertical == old(vertical) && horizontal == old(horizontal)
      ensures countdown == old(countdown) && countdownRunning == old(countdownRunning)
    {
      phase := Finished;
      intervalRunning := false;
      store.Save(Multitask, score);
    }

    /**
     * One 100 ms tick. Every tenth tick takes a second off the clock, and the
     * one that reaches 0 ends the game before anything else happens; otherwise
     * both bars drift, the tick is scored and each target may relocate.
     */
    method Tick(store: Store, vStep: Draw, hStep: Draw,
                vChance: Draw, vTarget: Draw, hChance: Draw, hTarget: Draw)
      requires Valid() && intervalRunning
      modifies this, store
      ensures Valid()
      ensures tickCount == old(tickCount) + 1
      ensures phase == Finished <==> tickCount == RoundSeconds * TicksPerSecond
      ensures phase == Finished ==>
        && !intervalRunning && timeLeft == 0 && score == old(score)
        && vertical == old(vertical) && horizontal == old(horizontal)
        && store.item == Some(Put(old(store.Load()), Multitask, score))
      ensures phase != Finished ==>
        && phase == Playing
        && timeLeft == old(timeLeft) - (if tickCount % TicksPerSecond == 0 then 1 else 0)
        && score == old(score) + TickPoints(Distance(Drift(old(vertical), vStep), Drift(old(horizontal), hStep)))
        && vertical == Relocate(Drift(old(vertical), vStep), vChance, vTarget)
        && horizontal == Relocate(Drift(old(horizontal), hStep), hChance, hTarget)
        && store.item == old(store.item)
      ensures old(score) <= score <= old(score) + 3
      ensures countdown == old(countdown) && countdownRunning == old(countdownRunning)
    {
      tickCount := tickCount + 1;
      if tickCount % TicksPerSecond == 0 {
        timeLeft := timeLeft - 1;
        if timeLeft <= 0 {
          EndGame(store);
          return;
        }
      }
      vertical := Drift(vertical, vStep);
      horizontal := Drift(horizontal, hStep);
      var points := TickPoints(Distance(vertical, horizontal));
      if points > 0 {
        score := score + points;
      }
      vertical := Relocate(vertical, vChance, vTarget);
      horizontal := Relocate(horizontal, hChance, hTarget);
    }

    /**
     * `handleKeyDown` while playing: W/ArrowUp and S/ArrowDown move the vertical
     * bar, A/ArrowLeft and D/ArrowRight the horizontal one, by one unit and
     * never off the bar; any other key, or any key outside play, does nothing.
     */
    method KeyDown(key: string)
      requires Valid()
      modifies this
      ensures Valid()
      ensures phase != Playing || !(UpKey(key) || DownKey(key) || LeftKey(key) || RightKey(key)) ==>
        vertical == old(vertical) && horizontal == old(horizontal)
      ensures phase == Playing && UpKey(key) ==>
        vertical == old(vertical).(position := Clamp(old(vertical).position - 1.0)) && horizontal == old(horizontal)
      ensures phase == Playing && DownKey(key) ==>
        vertical == old(vertical).(position := Clamp(old(vertical).position + 1.0)) && horizontal == old(horizontal)
      ensures phase == Playing && LeftKey(key) ==>
        horizontal == old(horizontal).(position := Clamp(old(horizontal).position - 1.0)) && vertical == old(vertical)
      ensures phase == Playing && RightKey(key) ==>
        horizontal == old(horizontal).(position := Clamp(old(horizontal).position + 1.0)) && vertical == old(vertical)
      ensures phase == old(phase) && score == old(score) && timeLeft == old(timeLeft)
      ensures tickCount == old(tickCount) && countdown == old(countdown)
      ensures countdownRunning == old(countdownRunning) && intervalRunning == old(intervalRunning)
    {
      if phase != Playing {
        return;
      }
      var k := Lower(key);
      if k == "w" || k == "arrowup" {
        vertical := vertical.(position := MaxReal(0.0, vertical.position - 1.0));
      } else if k == "s" || k == "arrowdown" {
        vertical := vertical.(position := MinReal(100.0, vertical.position + 1.0));
      }
      if k == "a" || k == "arrowleft" {
        horizontal := horizontal.(position := MaxReal(0.0, horizontal.position - 1.0));
      } else if k == "d" || k == "arrowright" {
        horizontal := horizontal.(position := MinReal(100.0, horizontal.position + 1.0));
      }
    }
  }
}
