/**
 * What one feeding does, as the trace of commands it issues: the motor
 * driver is enabled, each portion is two turns back of 3200 steps each
 * followed by 600 steps forward, the driver is disabled, and one timestamp
 * is pushed to the feeding log.
 */
module FeedController {

  /** A command to the motor driver, its enable pin, or the remote log. */
  datatype Event = Enable | Move(steps: int) | Disable | LogPush

  /** The relative moves of one portion, in order. */
  const Pattern: seq<int> := [-3200, 600, -3200, 600]

  /** Net steps of one portion: the sum of `Pattern`. */
  const PortionSteps: int := Pattern[0] + Pattern[1] + Pattern[2] + Pattern[3]

  /** The moves of one portion. */
  function Portion(): seq<Event> {
    seq(|Pattern|, j requires 0 <= j < |Pattern| => Move(Pattern[j]))
  }

  /** How many times `for (cnt = 0; cnt < n; cnt++)` runs its body. */
  function Iterations(n: int): nat {
    if 0 < n then n else 0
  }

  /** The moves of `k` portions, one after the other. */
  function Moves(k: nat): (t: seq<Event>)
    ensures |t| == 4 * k
  {
    if k == 0 then [] else Moves(k - 1) + Portion()
  }

  /** The whole trace of one feeding with portion count `n`. */
  function FeedTrace(n: int): (t: seq<Event>)
    ensures |t| == 4 * Iterations(n) + 3
    ensures t[0] == Enable && t[|t| - 2] == Disable && t[|t| - 1] == LogPush
  {
    [Enable] + Moves(Iterations(n)) + [Disable, LogPush]
  }

  /** `t` repeated `k` times. */
  function Repeat(t: seq<Event>, k: nat): seq<Event> {
    if k == 0 then [] else t + Repeat(t, k - 1)
  }

  /** A tick feeds at most twice: the first three repetitions written out. */
  lemma RepeatUpToTwo(t: seq<Event>)
    ensures Repeat(t, 0) == [] && Repeat(t, 1) == t && Repeat(t, 2) == t + t
  {
    assert Repeat(t, 1) == t + [];
  }

  /** The sum of the relative moves in a trace. */
  function NetSteps(t: seq<Event>): int {
    if t == [] then 0
    else (match t[0] case Move(s) => s case _ => 0) + NetSteps(t[1..])
  }

  /** The number of log pushes in a trace. */
  function LogPushes(t: seq<Event>): nat {
    if t == [] then 0
    else (if t[0] == LogPush then 1 else 0) + LogPushes(t[1..])
  }

  /** The `i`-th command of `k` portions is a move by the pattern's `i mod 4`-th step count. */
  lemma {:induction false} MovesAt(k: nat, i: int)
    requires 0 <= i < 4 * k
    ensures Moves(k)[i] == Move(Pattern[i % 4])
  {
    if i < 4 * (k - 1) {
      MovesAt(k - 1, i);
    } else {
      var j := i - 4 * (k - 1);
      assert i % 4 == j;
      assert Moves(k)[i] == Portion()[j];
    }
  }

  /**
   * A feeding with count `n` is: enable, then exactly 4 * max(n, 0) moves
   * cycling through -3200, +600, -3200, +600, then disable, then one log
   * push. With `n <= 0` it is enable, disable, log push and nothing else.
   */
  lemma FeedTraceAt(n: int)
    ensures |FeedTrace(n)| == 4 * Iterations(n) + 3
    ensures FeedTrace(n)[0] == Enable
    ensures forall i :: 1 <= i <= 4 * Iterations(n) ==> FeedTrace(n)[i] == Move(Pattern[(i - 1) % 4])
    ensures FeedTrace(n)[4 * Iterations(n) + 1] == Disable
    ensures FeedTrace(n)[4 * Iterations(n) + 2] == LogPush
    ensures n <= 0 ==> FeedTrace(n) == [Enable, Disable, LogPush]
  {
    var k := Iterations(n);
    forall i | 1 <= i <= 4 * k
      ensures FeedTrace(n)[i] == Move(Pattern[(i - 1) % 4])
    {
      MovesAt(k, i - 1);
    }
  }

  lemma {:induction false} NetStepsAppend(a: seq<Event>, b: seq<Event>)
    ensures NetSteps(a + b) == NetSteps(a) + NetSteps(b)
  {
    if a != [] {
      assert (a + b)[1..] == a[1..] + b;
      NetStepsAppend(a[1..], b);
    } else {
      assert a + b == b;
    }
  }

  lemma {:induction false} LogPushesAppend(a: seq<Event>, b: seq<Event>)
    ensures LogPushes(a + b) == LogPushes(a) + LogPushes(b)
  {
    if a != [] {
      assert (a + b)[1..] == a[1..] + b;
      LogPushesAppend(a[1..], b);
    } else {
      assert a + b == b;
    }
  }

  /** `k` portions move the motor by -5200 * k steps, and push nothing to the log. */
  lemma {:induction false} MovesTotals(k: nat)
    ensures NetSteps(Moves(k)) == PortionSteps * k
    ensures LogPushes(Moves(k)) == 0
  {
    if k > 0 {
      MovesTotals(k - 1);
      NetStepsAppend(Moves(k - 1), Portion());
      LogPushesAppend(Moves(k - 1), Portion());
    }
  }

  /** One feeding moves the motor by -5200 steps per portion and pushes exactly one log entry. */
  lemma FeedTraceTotals(n: int)
    ensures NetSteps(FeedTrace(n)) == PortionSteps * Iterations(n)
    ensures LogPushes(FeedTrace(n)) == 1
  {
    var m := Moves(Iterations(n));
    MovesTotals(Iterations(n));
    NetStepsAppend([Enable] + m, [Disable, LogPush]);
    NetStepsAppend([Enable], m);
    LogPushesAppend([Enable] + m, [Disable, LogPush]);
    LogPushesAppend([Enable], m);
  }

  /** `k` feedings in a row push exactly `k` log entries and move the motor `k` times as far as one. */
  lemma {:induction false} RepeatTotals(n: int, k: nat)
    ensures LogPushes(Repeat(FeedTrace(n), k)) == k
    ensures NetSteps(Repeat(FeedTrace(n), k)) == k * NetSteps(FeedTrace(n))
  {
    if k > 0 {
      RepeatTotals(n, k - 1);
      FeedTraceTotals(n);
      LogPushesAppend(FeedTrace(n), Repeat(FeedTrace(n), k - 1));
      NetStepsAppend(FeedTrace(n), Repeat(FeedTrace(n), k - 1));
    }
  }
}
