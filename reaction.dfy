/**
 * The reaction test: five timed clicks on a colour change, whose rounded mean
 * is stored as the `reaction` field. Each timer callback and each click is an
 * event method; Date.now() and Math.random() are parameters.
 */
module ReactionTest {
  import opened JsMath
  import opened ScoreStore

  datatype Phase = Idle | Waiting | Ready | Clicked | Finished

  /** The number of valid clicks that completes the test. */
  const AttemptCount := 5

  /** `Math.floor(Math.random() * 3000) + 1000`: the wait, in ms, before the stimulus. */
  function RandomDelay(r: Draw): (ms: int)
    ensures 1000 <= ms <= 3999
  {
    Floor(r * 3000.0) + 1000
  }

  /** `startTime ? endTime - startTime : 0`: a missing (or zero) start time yields 0. */
  function Elapsed(startTime: Option<int>, endTime: int): (t: int)
    ensures startTime == None || startTime == Some(0) ==> t == 0
    ensures startTime.Some? && startTime.value != 0 ==> startTime.value + t == endTime
  {
    if startTime.Some? && startTime.value != 0 then endTime - startTime.value else 0
  }

  /** `Math.round(attempts.reduce((a, b) => a + b, 0) / attempts.length)`. */
  function Average(attempts: seq<int>): (a: int)
    requires |attempts| > 0
    ensures a == Round(Sum(attempts) as real / |attempts| as real)
  {
    RoundDiv(Sum(attempts), |attempts|)
  }

  /** The stored average lies between any bounds of the attempts. */
  lemma AverageBetween(attempts: seq<int>, lo: int, hi: int)
    requires |attempts| > 0
    requires forall i :: 0 <= i < |attempts| ==> lo <= attempts[i] <= hi
    ensures lo <= Average(attempts) <= hi
  {
    SumBetween(attempts, lo, hi);
    RoundDivBetween(Sum(attempts), |attempts|, lo, hi);
  }

  class Reaction {
    var phase: Phase
    var startTime: Option<int>
    var reactionTime: Option<int>
    var attempts: seq<int>
    var countdown: int
    /** The 1-second countdown interval is live. */
    var countdownRunning: bool
    /** The timeout that turns the screen green is scheduled, with this delay. */
    var pendingDelay: Option<int>

    ghost predicate Valid()
      reads this
    {
      && |attempts| <= AttemptCount
      && (phase == Finished <==> |attempts| == AttemptCount)
      && (countdownRunning ==> phase == Waiting && 1 <= countdown <= 3 && pendingDelay == None)
      && (pendingDelay.Some? ==> phase == Waiting && 1000 <= pendingDelay.value <= 3999)
      && (phase == Waiting ==> countdownRunning || pendingDelay.Some?)
    }

    constructor ()
      ensures Valid()
      ensures phase == Idle && attempts == [] && startTime == None && reactionTime == None
      ensures countdown == 3 && !countdownRunning && pendingDelay == None
    {
      phase := Idle;
      startTime := None;
      reactionTime := None;
      attempts := [];
      countdown := 3;
      countdownRunning := false;
      pendingDelay := None;
    }

    /** `startTest`, offered only in the idle phase: start the 3-second countdown. */
    method Start()
      requires Valid() && phase == Idle
      modifies this
      ensures Valid()
      ensures phase == Waiting && countdown == 3 && countdownRunning && pendingDelay == None
      ensures attempts == old(attempts) && startTime == old(startTime) && reactionTime == old(reactionTime)
    {
      phase := Waiting;
      countdown := 3;
      countdownRunning := true;
    }

    /** One second of the countdown; the last one schedules the stimulus after a random delay. */
    method CountdownTick(r: Draw)
      requires Valid() && countdownRunning
      modifies this
      ensures Valid()
      ensures old(countdown) <= 1 ==> !countdownRunning && countdown == 0 && pendingDelay == Some(RandomDelay(r))
      ensures old(countdown) > 1 ==> countdownRunning && countdown == old(countdown) - 1 && pendingDelay == None
      ensures phase == old(phase) && attempts == old(attempts)
      ensures startTime == old(startTime) && reactionTime == old(reactionTime)
    {
      if countdown <= 1 {
        countdownRunning := false;
        pendingDelay := Some(RandomDelay(r));
        countdown := 0;
      } else {
        countdown := countdown - 1;
      }
    }

    /** The scheduled timeout fires at time `now`: the screen turns green. */
    method DelayElapsed(now: int)
      requires Valid() && pendingDelay.Some?
      modifies this
      ensures Valid()
      ensures phase == Ready && startTime == Some(now) && pendingDelay == None
      ensures attempts == old(attempts) && countdown == old(countdown) && !countdownRunning
      ensures reactionTime == old(reactionTime)
    {
      startTime := Some(now);
      phase := Ready;
      pendingDelay := None;
    }

    /**
     * `handleClick` at time `now`. Too early (waiting) cancels the pending
     * stimulus and goes back to idle; on green one attempt is recorded, and the
     * fifth one finishes the test and stores the rounded mean; in any other
     * phase nothing happens.
     */
    method Click(now: int, store: Store)
      requires Valid()
      modifies this, store
      ensures Valid()
      ensures old(phase) == Waiting ==>
        && phase == Idle && attempts == old(attempts)
        && pendingDelay == None && !countdownRunning
        && startTime == old(startTime) && reactionTime == old(reactionTime)
        && store.item == old(store.item)
      ensures old(phase) == Ready ==>
        && attempts == old(attempts) + [Elapsed(old(startTime), now)]
        && reactionTime == Some(Elapsed(old(startTime), now))
        && startTime == old(startTime) && pendingDelay == old(pendingDelay)
        && countdownRunning == old(countdownRunning)
        && phase == (if |attempts| == AttemptCount then Finished else Clicked)
        && store.item == (if |attempts| == AttemptCount
                          then Some(Put(old(store.Load()), Reaction, Average(attempts)))
                          else old(store.item))
      ensures old(phase) in {Idle, Clicked, Finished} ==>
        && phase == old(phase) && attempts == old(attempts)
        && startTime == old(startTime) && reactionTime == old(reactionTime)
        && pendingDelay == old(pendingDelay) && countdownRunning == old(countdownRunning)
        && store.item == old(store.item)
      ensures countdown == old(countdown)
    {
      if phase == Waiting {
        pendingDelay := None;
        countdownRunning := false;
        phase := Idle;
      } else if phase == Ready {
        var time := Elapsed(startTime, now);
        reactionTime := Some(time);
        phase := Clicked;
        attempts := attempts + [time];
        if |attempts| >= AttemptCount {
          phase := Finished;
          store.Save(Reaction, Average(attempts));
        }
      }
    }

    /** The 1500 ms timeout after a valid click: back to idle for the next attempt. */
    method ClickedTimeout()
      requires Valid() && phase == Clicked
      modifies this
      ensures Valid()
      ensures phase == Idle && reactionTime == None
      ensures attempts == old(attempts) && startTime == old(startTime)
      ensures countdown == old(countdown) && countdownRunning == old(countdownRunning)
      ensures pendingDelay == old(pendingDelay)
    {
      phase := Idle;
      reactionTime := None;
    }
  }
}
