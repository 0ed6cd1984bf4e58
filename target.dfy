/**
 * The target test: for 20 seconds the player clicks the one target on screen;
 * each hit scores 1 and replaces the target by a new one at a random place.
 * The number of hits is stored as the `target` field.
 */
module TargetTest {
  import opened JsMath
  import opened ScoreStore

  datatype Phase = Idle | Playing | Finished

  /** One target: `{ id, x, y, size }`, in pixels from the container's top left. */
  datatype Circle = Circle(id: real, x: int, y: int, size: int)

  /** The container's `getBoundingClientRect()` size. */
  datatype Rect = Rect(width: real, height: real)

  /** The length of a round, in seconds. */
  const RoundSeconds := 20

  /** `Math.floor(Math.random() * (extent - size - 20)) + 10`: one coordinate of a new target. */
  function Coordinate(r: Draw, extent: real, size: int): (c: int)
    ensures extent >= (size + 20) as real ==> 10 <= c && (c + size) as real <= extent - 10.0
    ensures extent > (size + 20) as real ==> (c + size) as real < extent - 10.0
  {
    var room := extent - (size + 20) as real;
    ScaleDraw(r, room);
    var f := Floor(r * room);
    assert room >= 0.0 ==> f as real <= room;
    assert room > 0.0 ==> f as real < room;
    assert (f + 10 + size) as real == f as real + 10.0 + size as real;
    f + 10
  }

  /**
   * `createTarget`. Without a container the target is the fallback one at
   * (50, 50) of size 40; otherwise its size is 25..54 and its box stays at
   * least 10 pixels inside each edge the container leaves room for.
   */
  function CreateTarget(container: Option<Rect>, now: int, sizeDraw: Draw, xDraw: Draw, yDraw: Draw, idDraw: Draw)
    : (t: Circle)
    ensures container.None? ==> t == Circle(now as real, 50, 50, 40)
    ensures container.Some? ==> 25 <= t.size <= 54 && t.id == now as real + idDraw
    ensures container.Some? && container.value.width >= (t.size + 20) as real ==>
      10 <= t.x && (t.x + t.size) as real <= container.value.width - 10.0
    ensures container.Some? && container.value.height >= (t.size + 20) as real ==>
      10 <= t.y && (t.y + t.size) as real <= container.value.height - 10.0
  {
    match container
    case None => Circle(now as real, 50, 50, 40)
    case Some(box) =>
      var size := Floor(sizeDraw * 30.0) + 25;
      Circle(now as real + idDraw, Coordinate(xDraw, box.width, size), Coordinate(yDraw, box.height, size), size)
  }

  /** The ids of a list of targets are pairwise distinct. */
  ghost predicate DistinctIds(ts: seq<Circle>)
  {
    forall i, j :: 0 <= i < j < |ts| ==> ts[i].id != ts[j].id
  }

  /** `prev.filter((t) => t.id !== id)`. */
  function RemoveId(ts: seq<Circle>, id: real): (r: seq<Circle>)
    ensures |r| <= |ts|
  {
    if ts == [] then []
    else if ts[0].id != id then [ts[0]] + RemoveId(ts[1..], id)
    else RemoveId(ts[1..], id)
  }

  /** The filter keeps exactly the targets whose id differs. */
  lemma {:induction false} RemoveIdMembers(ts: seq<Circle>, id: real)
    ensures forall t :: t in RemoveId(ts, id) <==> t in ts && t.id != id
  {
    if ts != [] {
      RemoveIdMembers(ts[1..], id);
      assert ts == [ts[0]] + ts[1..];
    }
  }

  /** With distinct ids, removing the id of target k removes exactly that target. */
  lemma {:induction false} RemoveOne(ts: seq<Circle>, k: int)
    requires DistinctIds(ts) && 0 <= k < |ts|
    ensures RemoveId(ts, ts[k].id) == ts[..k] + ts[k + 1..]
  {
    if k == 0 {
      HeadIdAbsent(ts);
      RemoveAbsent(ts[1..], ts[0].id);
      assert ts[..0] + ts[1..] == ts[1..];
    } else {
      var tail := ts[1..];
      assert ts[0].id != ts[k].id;
      DistinctTail(ts);
      RemoveOne(tail, k - 1);
      assert tail[k - 1] == ts[k];
      assert tail[..k - 1] + tail[k..] == ts[1..k] + ts[k + 1..];
      assert ts[..k] + ts[k + 1..] == [ts[0]] + (ts[1..k] + ts[k + 1..]);
    }
  }

  /** With distinct ids, no later target carries the first one's id. */
  lemma HeadIdAbsent(ts: seq<Circle>)
    requires DistinctIds(ts) && |ts| > 0
    ensures forall t :: t in ts[1..] ==> t.id != ts[0].id
  {
    forall t | t in ts[1..] ensures t.id != ts[0].id {
      var j :| 0 <= j < |ts| - 1 && ts[1..][j] == t;
      assert ts[j + 1] == t;
    }
  }

  /** Dropping the first target keeps the ids distinct. */
  lemma DistinctTail(ts: seq<Circle>)
    requires DistinctIds(ts) && |ts| > 0
    ensures DistinctIds(ts[1..])
  {
    forall i, j | 0 <= i < j < |ts| - 1 ensures ts[1..][i].id != ts[1..][j].id {
      assert ts[1..][i] == ts[i + 1] && ts[1..][j] == ts[j + 1];
    }
  }

  /** Removing an id no target carries changes nothing. */
  lemma {:induction false} RemoveAbsent(ts: seq<Circle>, id: real)
    requires forall t :: t in ts ==> t.id != id
    ensures RemoveId(ts, id) == ts
  {
    if ts != [] {
      RemoveAbsent(ts[1..], id);
      assert ts == [ts[0]] + ts[1..];
    }
  }

  class Game {
    var phase: Phase
    var targets: seq<Circle>
    var score: int
    var timeLeft: int
    var countdown: int
    /** The 1-second countdown interval before the round is live. */
    var countdownRunning: bool
    /** The 1-second round timer (`timerRef`) is live. */
    var timerRunning: bool

    ghost predicate Valid()
      reads this
    {
      && 0 <= score
      && 0 <= timeLeft <= RoundSeconds
      && (phase == Playing ==> |targets| == 1)
      && (countdownRunning ==> phase == Playing && !timerRunning && 1 <= countdown <= 3 && timeLeft == RoundSeconds)
      && (timerRunning ==> phase == Playing && countdown == 0 && 1 <= timeLeft)
      && (phase == Playing ==> countdownRunning || timerRunning)
      && (phase == Finished ==> !countdownRunning && !timerRunning)
    }

    constructor ()
      ensures Valid()
      ensures phase == Idle && targets == [] && score == 0 && timeLeft == RoundSeconds
      ensures countdown == 3 && !countdownRunning && !timerRunning
    {
      phase := Idle;
      targets := [];
      score := 0;
      timeLeft := RoundSeconds;
      countdown := 3;
      countdownRunning := false;
      timerRunning := false;
    }

    /** `startGame`, offered only in the idle phase: score 0, 20 seconds, one target. */
    method Start(container: Option<Rect>, now: int, sizeDraw: Draw, xDraw: Draw, yDraw: Draw, idDraw: Draw)
      requires Valid() && phase == Idle
      modifies this
      ensures Valid()
      ensures phase == Playing && score == 0 && timeLeft == RoundSeconds && countdown == 3
      ensures targets == [CreateTarget(container, now, sizeDraw, xDraw, yDraw, idDraw)]
      ensures countdownRunning && !timerRunning
    {
      phase := Playing;
      score := 0;
      timeLeft := RoundSeconds;
      targets := [CreateTarget(container, now, sizeDraw, xDraw, yDraw, idDraw)];
      countdown := 3;
      countdownRunning := true;
    }

    /** One second of the countdown; the last one starts the round timer. */
    method CountdownTick()
      requires Valid() && countdownRunning
      modifies this
      ensures Valid()
      ensures old(countdown) <= 1 ==> !countdownRunning && timerRunning && countdown == 0
      ensures old(countdown) > 1 ==> countdownRunning && !timerRunning && countdown == old(countdown) - 1
      ensures phase == old(phase) && targets == old(targets) && score == old(score)
      ensures timeLeft == old(timeLeft)
    {
      if countdown <= 1 {
        countdownRunning := false;
        timerRunning := true;
        countdown := 0;
      } else {
        countdown := countdown - 1;
      }
    }

    /** `endGame`: the round is over, the timer is cleared and the hits are stored. */
    method EndGame(store: Store)
      modifies this, store
      ensures phase == Finished && !timerRunning
      ensures store.item == Some(Put(old(store.Load()), Target, score))
      ensures targets == old(targets) && score == old(score) && timeLeft == old(timeLeft)
      ensures countdown == old(countdown) && countdownRunning == old(countdownRunning)
    {
      phase := Finished;
      timerRunning := false;
      store.Save(Target, score);
    }

    /** One second of the round; at the last one the clock stops at 0 and the game ends. */
    method TimerTick(store: Store)
      requires Valid() && timerRunning
      modifies this, store
      ensures Valid()
      ensures old(timeLeft) <= 1 ==>
        && phase == Finished && !timerRunning && timeLeft == 0
        && store.item == Some(Put(old(store.Load()), Target, score))
      ensures old(timeLeft) > 1 ==>
        && phase == Playing && timerRunning && timeLeft == old(timeLeft) - 1
        && store.item == old(store.item)
      ensures targets == old(targets) && score == old(score) && countdown == old(countdown)
      ensures !countdownRunning
    {
      if timeLeft <= 1 {
        timerRunning := false;
        EndGame(store);
        timeLeft := 0;
      } else {
        timeLeft := timeLeft - 1;
      }
    }

    /**
     * `handleTargetClick(id)` on a target that is on screen: one more hit, and
     * the clicked target is replaced by a new one at the end of the list.
     */
    method TargetClick(id: real, container: Option<Rect>, now: int,
                       sizeDraw: Draw, xDraw: Draw, yDraw: Draw, idDraw: Draw)
      requires Valid() && phase == Playing && countdown == 0
      requires exists t :: t in targets && t.id == id
      modifies this
      ensures Valid()
      ensures score == old(score) + 1
      ensures targets == RemoveId(old(targets), id) + [CreateTarget(container, now, sizeDraw, xDraw, yDraw, idDraw)]
      ensures |targets| == |old(targets)|
      ensures forall t :: t in old(targets) && t.id != id ==> t in targets
      ensures phase == old(phase) && timeLeft == old(timeLeft) && countdown == old(countdown)
      ensures timerRunning == old(timerRunning) && countdownRunning == old(countdownRunning)
    {
      score := score + 1;
      var k :| 0 <= k < |targets| && targets[k].id == id;
      RemoveOne(targets, k);
      targets := RemoveId(targets, id) + [CreateTarget(container, now, sizeDraw, xDraw, yDraw, idDraw)];
    }
  }
}
