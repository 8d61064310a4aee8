/** Which Bots' browsers to close, and when. */
module Eviction {

  type Bot = string

  /** A running browser; the order of a sequence of them is the order of the map that holds them. */
  datatype Browser = Browser(bot: Bot, context: nat, usedAt: int)

  /** Used longer ago, or as long ago and earlier in the map. */
  predicate Quieter(running: seq<Browser>, i: nat, j: nat)
    requires i < |running| && j < |running|
  {
    running[i].usedAt < running[j].usedAt || (running[i].usedAt == running[j].usedAt && i < j)
  }

  /** Places below `n`, quietest first. */
  predicate Ordered(running: seq<Browser>, order: seq<nat>, n: nat)
    requires n <= |running|
  {
    && (forall a | 0 <= a < |order| :: order[a] < n)
    && (forall a, b | 0 <= a < b < |order| :: Quieter(running, order[a], order[b]))
  }

  /** Puts a place into a sorted order of earlier ones, after everything used no later than it. */
  function Insert(running: seq<Browser>, order: seq<nat>, place: nat): (r: seq<nat>)
    requires place < |running| && Ordered(running, order, place)
    ensures Ordered(running, r, place + 1)
    ensures |r| == |order| + 1
    ensures forall i :: i in r <==> i in order || i == place
  {
    if order == [] then [place]
    else
      var last := order[|order| - 1];
      var front := order[..|order| - 1];
      assert order == front + [last];
      if running[last].usedAt <= running[place].usedAt then order + [place]
      else
        var r := Insert(running, front, place);
        assert forall a | 0 <= a < |r| :: r[a] in front || r[a] == place by {
          assert forall a | 0 <= a < |r| :: r[a] in r;
        }
        r + [last]
  }

  /** The first `n` places of the map, sorted by use and then by place: a stable sort. */
  function ByUse(running: seq<Browser>, n: nat): (order: seq<nat>)
    requires n <= |running|
    ensures Ordered(running, order, n) && |order| == n
    ensures forall i: nat :: i in order <==> i < n
  {
    if n == 0 then [] else Insert(running, ByUse(running, n - 1), n - 1)
  }

  /** `chooseEvictions` */
  function ChooseEvictions(running: seq<Browser>, max: nat): (victims: seq<Bot>)
    ensures |victims| == if |running| <= max then 0 else |running| - max
  {
    if |running| <= max then []
    else
      var order := ByUse(running, |running|);
      seq(|running| - max, k requires 0 <= k < |running| => running[order[k]].bot)
  }

  /** One Bot is in the map once. */
  predicate OneEach(running: seq<Browser>) {
    forall i, j | 0 <= i < j < |running| :: running[i].bot != running[j].bot
  }

  /** A browser is a victim exactly when its place is among the quietest. */
  lemma VictimPlace(running: seq<Browser>, max: nat, i: nat)
    requires OneEach(running) && i < |running| && |running| > max
    ensures running[i].bot in ChooseEvictions(running, max) <==> i in ByUse(running, |running|)[..|running| - max]
  {
    var order, victims := ByUse(running, |running|), ChooseEvictions(running, max);
    if running[i].bot in victims {
      var a :| 0 <= a < |victims| && victims[a] == running[i].bot;
      assert order[a] == i;
    }
    if i in order[..|running| - max] {
      var a :| 0 <= a < |running| - max && order[a] == i;
      assert victims[a] == running[i].bot;
    }
  }

  /**
   * Each victim was quieter than every browser that stays: used longer ago, or as long ago and earlier
   * in the map. With the number of victims this says exactly which they are.
   */
  lemma VictimsAreTheQuietest(running: seq<Browser>, max: nat, i: nat, j: nat)
    requires OneEach(running) && i < |running| && j < |running|
    requires running[i].bot in ChooseEvictions(running, max) && running[j].bot !in ChooseEvictions(running, max)
    ensures Quieter(running, i, j)
  {
    var order := ByUse(running, |running|);
    VictimPlace(running, max, i);
    VictimPlace(running, max, j);
    var a :| 0 <= a < |running| - max && order[a] == i;
    assert j in order;
    var b :| 0 <= b < |order| && order[b] == j;
    assert forall c | 0 <= c < |running| - max :: order[c] in order[..|running| - max];
  }

  /** Every victim is running, and none is named twice. */
  lemma VictimsAreRunning(running: seq<Browser>, max: nat)
    requires OneEach(running)
    ensures forall v | v in ChooseEvictions(running, max) :: exists i :: 0 <= i < |running| && running[i].bot == v
    ensures forall a, b | 0 <= a < b < |ChooseEvictions(running, max)| ::
              ChooseEvictions(running, max)[a] != ChooseEvictions(running, max)[b]
  {
    if |running| > max {
      var order := ByUse(running, |running|);
      forall a, b | 0 <= a < b < |order| ensures order[a] != order[b] {
        assert Quieter(running, order[a], order[b]);
      }
    }
  }

  /** The browser used last, and started last among those, stays while the cap leaves room for one. */
  lemma NewestStays(running: seq<Browser>, max: nat)
    requires OneEach(running) && |running| > 0 && max >= 1
    requires forall i | 0 <= i < |running| :: running[i].usedAt <= running[|running| - 1].usedAt
    ensures running[|running| - 1].bot !in ChooseEvictions(running, max)
  {
    var last := |running| - 1;
    if |running| > max {
      var order := ByUse(running, |running|);
      forall b | 0 <= b < last ensures order[b] != last {
        assert Quieter(running, order[b], order[last]);
      }
      assert last !in order[..|running| - max];
      VictimPlace(running, max, last);
    }
  }

  /** One over the cap, the one victim is the browser every other is used after; the last in the map wins no tie. */
  lemma LastIsPicked(running: seq<Browser>, max: nat)
    requires OneEach(running) && |running| == max + 1
    ensures running[max].bot in ChooseEvictions(running, max) <==> forall i | 0 <= i < max :: running[max].usedAt < running[i].usedAt
  {
    var order := ByUse(running, |running|);
    VictimPlace(running, max, max);
    assert order[..1] == [order[0]];
    if order[0] == max {
      forall i | 0 <= i < max ensures running[max].usedAt < running[i].usedAt {
        assert i in order;
        var a :| 0 <= a < |order| && order[a] == i;
        assert Quieter(running, order[0], order[a]);
      }
    } else {
      assert max in order;
      var a :| 0 <= a < |order| && order[a] == max;
      assert Quieter(running, order[0], order[a]);
    }
  }

  /** `chooseIdle` */
  function ChooseIdle(running: seq<Browser>, timeout: int, now: int): (idle: seq<Bot>)
    ensures timeout <= 0 ==> idle == []
    ensures timeout > 0 ==> forall b :: b in idle <==>
      exists i :: 0 <= i < |running| && running[i].bot == b && now - running[i].usedAt >= timeout
  {
    if timeout <= 0 || running == [] then []
    else
      var rest := ChooseIdle(running[..|running| - 1], timeout, now);
      var last := running[|running| - 1];
      assert forall i | 0 <= i < |running| - 1 :: running[..|running| - 1][i] == running[i];
      if last.usedAt <= now - timeout then rest + [last.bot] else rest
  }
}
