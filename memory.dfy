/**
 * The memory test: five levels of a Simon-style colour pattern. Level L shows
 * L + 2 colours; a fully repeated pattern adds its length to the score, the
 * first wrong colour ends the game. The score is stored as the `memory` field.
 */
module MemoryTest {
  import opened JsMath
  import opened ScoreStore

  datatype Phase = Idle | Showing | Input | Feedback | Finished

  /** Which feedback timeout a finished level scheduled. */
  datatype Verdict = Wrong | Right

  /** `COLORS.length`. */
  const ColorCount := 8

  /** The level that ends the game when it is completed. */
  const LastLevel := 5

  /** `Math.floor(Math.random() * COLORS.length)`: a colour index. */
  function ColorOf(r: Draw): (c: int)
    ensures 0 <= c < ColorCount
  {
    Floor(r * ColorCount as real)
  }

  /** The loop of `generatePattern`: one colour per draw, `level + 2` of them. */
  method BuildPattern(level: int, draws: seq<Draw>) returns (p: seq<int>)
    requires |draws| == level + 2
    ensures |p| == level + 2
    ensures forall i :: 0 <= i < |p| ==> p[i] == ColorOf(draws[i]) && 0 <= p[i] < ColorCount
  {
    p := [];
    for i := 0 to level + 2
      invariant |p| == i
      invariant forall j :: 0 <= j < i ==> p[j] == ColorOf(draws[j])
    {
      p := p + [ColorOf(draws[i])];
    }
  }

  /** The score once levels 1..n are completed: the sum of their pattern lengths. */
  function LevelPoints(n: nat): (p: nat)
    ensures p >= 3 * n
  {
    if n == 0 then 0 else LevelPoints(n - 1) + (n + 2)
  }

  /** Levels 1..n are worth n(n+5)/2 points; a perfect run of five levels is worth 25. */
  lemma {:induction false} LevelPointsClosedForm(n: nat)
    ensures 2 * LevelPoints(n) == n * (n + 5)
    ensures n == LastLevel ==> LevelPoints(n) == 25
  {
    if n > 0 {
      LevelPointsClosedForm(n - 1);
    }
  }

  /** Completing more levels never gives fewer points. */
  lemma {:induction false} LevelPointsMonotone(m: nat, n: nat)
    requires m <= n
    ensures LevelPoints(m) <= LevelPoints(n)
    decreases n
  {
    if m < n {
      LevelPointsMonotone(m, n - 1);
    }
  }

  class Memory {
    var phase: Phase
    var level: int
    var pattern: seq<int>
    var userPattern: seq<int>
    var score: int
    var countdown: int
    /** The 1-second countdown interval before level 1 is live. */
    var countdownRunning: bool
    /** How many colours of the pattern have been highlighted so far. */
    var showIndex: int
    /** The feedback timeout scheduled by the last click, if any. */
    var pending: Option<Verdict>

    ghost predicate Valid()
      reads this
    {
      && 1 <= level <= LastLevel
      && (forall i :: 0 <= i < |pattern| ==> 0 <= pattern[i] < ColorCount)
      && (countdownRunning ==> phase == Showing && level == 1 && 1 <= countdown <= 3)
      && ((phase == Showing && !countdownRunning) || phase == Input || phase == Feedback ==>
            |pattern| == level + 2)
      && (phase == Showing && !countdownRunning ==> 0 <= showIndex <= |pattern|)
      && (phase == Input ==> |userPattern| < |pattern| && userPattern == pattern[..|userPattern|])
      && (pending.Some? <==> phase == Feedback)
      && (pending == Some(Right) ==> userPattern == pattern)
      && (pending == Some(Wrong) ==>
            && 0 < |userPattern| <= |pattern|
            && userPattern[..|userPattern| - 1] == pattern[..|userPattern| - 1]
            && userPattern[|userPattern| - 1] != pattern[|userPattern| - 1])
      && (phase == Idle ==> level == 1)
      && (phase in {Idle, Showing, Input} || pending == Some(Wrong) ==> score == LevelPoints(level - 1))
      && (pending == Some(Right) ==> score == LevelPoints(level))
      && (phase == Finished ==>
            score == LevelPoints(level - 1) || (level == LastLevel && score == LevelPoints(LastLevel)))
    }

    constructor ()
      ensures Valid()
      ensures phase == Idle && level == 1 && pattern == [] && userPattern == [] && score == 0
      ensures countdown == 3 && !countdownRunning && pending == None
    {
      phase := Idle;
      level := 1;
      pattern := [];
      userPattern := [];
      score := 0;
      countdown := 3;
      countdownRunning := false;
      showIndex := 0;
      pending := None;
    }

    /** `startGame`, offered only in the idle phase: level 1, score 0, start the countdown. */
    method Start()
      requires Valid() && phase == Idle
      modifies this
      ensures Valid()
      ensures phase == Showing && level == 1 && score == 0 && countdown == 3 && countdownRunning
      ensures pattern == old(pattern) && userPattern == old(userPattern) && pending == None
      ensures showIndex == old(showIndex)
    {
      phase := Showing;
      level := 1;
      score := 0;
      countdown := 3;
      countdownRunning := true;
    }

    /** `generatePattern(newLevel)` followed by the start of `showPattern`. */
    method GeneratePattern(newLevel: int, draws: seq<Draw>)
      requires |draws| == newLevel + 2
      modifies this
      ensures |pattern| == newLevel + 2
      ensures forall i :: 0 <= i < |pattern| ==> pattern[i] == ColorOf(draws[i]) && 0 <= pattern[i] < ColorCount
      ensures phase == Showing && showIndex == 0
      ensures level == old(level) && score == old(score) && userPattern == old(userPattern)
      ensures countdown == old(countdown) && countdownRunning == old(countdownRunning)
      ensures pending == old(pending)
    {
      pattern := BuildPattern(newLevel, draws);
      phase := Showing;
      showIndex := 0;
    }

    /** One second of the countdown; the last one generates the level-1 pattern from `draws`. */
    method CountdownTick(draws: seq<Draw>)
      requires Valid() && countdownRunning
      requires countdown <= 1 ==> |draws| == 3
      modifies this
      ensures Valid()
      ensures old(countdown) > 1 ==>
        countdownRunning && countdown == old(countdown) - 1 && pattern == old(pattern)
        && showIndex == old(showIndex)
      ensures old(countdown) <= 1 ==>
        && !countdownRunning && countdown == 0 && showIndex == 0 && |pattern| == 3
        && forall i :: 0 <= i < 3 ==> pattern[i] == ColorOf(draws[i])
      ensures phase == Showing && level == 1 && score == old(score) && userPattern == old(userPattern)
      ensures pending == None
    {
      if countdown <= 1 {
        countdownRunning := false;
        GeneratePattern(1, draws);
        countdown := 0;
      } else {
        countdown := countdown - 1;
      }
    }

    /**
     * One step of `showPattern`'s timed callbacks: highlight the next colour,
     * or, once all are shown, clear the input and wait for the player.
     */
    method ShowStep()
      requires Valid() && phase == Showing && !countdownRunning
      modifies this
      ensures Valid()
      ensures old(showIndex) < |pattern| ==> phase == Showing && showIndex == old(showIndex) + 1
      ensures old(showIndex) >= |pattern| ==> phase == Input && userPattern == [] && showIndex == old(showIndex)
      ensures old(showIndex) < |pattern| ==> userPattern == old(userPattern)
      ensures pattern == old(pattern) && level == old(level) && score == old(score)
      ensures pending == old(pending) && countdown == old(countdown) && !countdownRunning
    {
      if showIndex >= |pattern| {
        userPattern := [];
        phase := Input;
      } else {
        showIndex := showIndex + 1;
      }
    }

    /** `handleTileClick(c)`: the player picks colour c. */
    method TileClick(c: int)
      requires Valid()
      modifies this
      ensures Valid()
      ensures old(phase) != Input ==>
        && phase == old(phase) && userPattern == old(userPattern) && score == old(score)
        && pending == old(pending)
      ensures old(phase) == Input ==> userPattern == old(userPattern) + [c]
      ensures old(phase) == Input && c != old(pattern)[|old(userPattern)|] ==>
        phase == Feedback && pending == Some(Wrong) && score == old(score)
      ensures old(phase) == Input && c == old(pattern)[|old(userPattern)|] && |userPattern| == |pattern| ==>
        phase == Feedback && pending == Some(Right) && score == old(score) + |pattern|
      ensures old(phase) == Input && c == old(pattern)[|old(userPattern)|] && |userPattern| < |pattern| ==>
        phase == Input && pending == None && score == old(score)
      ensures old(score) <= score
      ensures pattern == old(pattern) && level == old(level) && showIndex == old(showIndex)
      ensures countdown == old(countdown) && countdownRunning == old(countdownRunning)
    {
      if phase != Input {
        return;
      }
      var entered := userPattern + [c];
      userPattern := entered;
      if pattern[|entered| - 1] != c {
        phase := Feedback;
        pending := Some(Wrong);
        return;
      }
      if |entered| == |pattern| {
        phase := Feedback;
        score := score + |pattern|;
        pending := Some(Right);
        LevelPointsClosedForm(level);
      }
    }

    /** `endGame`: the game is over and the score is stored in the `memory` field. */
    method EndGame(store: Store)
      modifies this, store
      ensures phase == Finished
      ensures store.item == Some(Put(old(store.Load()), Memory, score))
      ensures level == old(level) && score == old(score) && pattern == old(pattern)
      ensures userPattern == old(userPattern) && showIndex == old(showIndex)
      ensures countdown == old(countdown) && countdownRunning == old(countdownRunning)
      ensures pending == old(pending)
    {
      phase := Finished;
      store.Save(Memory, score);
    }

    /**
     * The feedback timeout. After a wrong colour the game ends with the points
     * of the levels before this one; after the fifth level it ends with all 25;
     * otherwise the next level's pattern is generated from `draws`.
     */
    method FeedbackTimeout(store: Store, draws: seq<Draw>)
      requires Valid() && pending.Some?
      requires pending == Some(Right) && level < LastLevel ==> |draws| == level + 3
      modifies this, store
      ensures Valid()
      ensures pending == None
      ensures old(pending) == Some(Wrong) ==>
        && phase == Finished && level == old(level) && score == LevelPoints(level - 1)
        && store.item == Some(Put(old(store.Load()), Memory, LevelPoints(level - 1)))
      ensures old(pending) == Some(Right) && old(level) == LastLevel ==>
        && phase == Finished && level == LastLevel && score == 25
        && store.item == Some(Put(old(store.Load()), Memory, 25))
      ensures old(pending) == Some(Wrong) || old(level) == LastLevel ==>
        pattern == old(pattern) && showIndex == old(showIndex)
      ensures userPattern == old(userPattern) && countdown == old(countdown)
      ensures countdownRunning == old(countdownRunning)
      ensures old(pending) == Some(Right) && old(level) < LastLevel ==>
        && phase == Showing && level == old(level) + 1 && showIndex == 0
        && score == old(score) && store.item == old(store.item)
        && |pattern| == level + 2
        && forall i :: 0 <= i < |pattern| ==> pattern[i] == ColorOf(draws[i])
    {
      var verdict := pending.value;
      pending := None;
      if verdict == Wrong {
        EndGame(store);
      } else if level >= LastLevel {
        LevelPointsClosedForm(LastLevel);
        EndGame(store);
      } else {
        level := level + 1;
        GeneratePattern(level, draws);
      }
    }
  }
}
