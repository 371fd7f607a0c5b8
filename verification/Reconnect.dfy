/** The agent's outer loop: run a stream, back off, dial again. Times are nanoseconds. */
module Reconnect {

  const SECOND := 1_000_000_000
  const BASE_DELAY := 3 * SECOND
  const MAX_DELAY := 60 * SECOND
  const HEALTHY_STREAM := 30 * SECOND

  /** One pass of the loop: how long Run lasted, and the random draw of jitter. */
  datatype Pass = Pass(lasted: int, draw: real)

  predicate Realistic(p: Pass) {
    0 <= p.lasted && 0.0 <= p.draw < 1.0
  }

  predicate Short(p: Pass) {
    p.lasted < HEALTHY_STREAM
  }

  function Jitter(delay: int, draw: real): int {
    var spread := delay as real * 0.2;
    delay - spread.Floor + (draw * 2.0 * spread).Floor
  }

  function Effective(delay: int, p: Pass): int {
    if HEALTHY_STREAM <= p.lasted then BASE_DELAY else delay
  }

  function Doubled(delay: int): int {
    if delay * 2 < MAX_DELAY then delay * 2 else MAX_DELAY
  }

  function DelayAfter(delay: int, passes: seq<Pass>): int
    decreases |passes|
  {
    if passes == [] then delay
    else
      var n := |passes| - 1;
      Doubled(Effective(DelayAfter(delay, passes[..n]), passes[n]))
  }

  /** When the stream after these passes is dialled. */
  function DialledAt(now: int, delay: int, passes: seq<Pass>): int
    decreases |passes|
  {
    if passes == [] then now
    else
      var n := |passes| - 1;
      var p := passes[n];
      DialledAt(now, delay, passes[..n]) + p.lasted + Jitter(Effective(DelayAfter(delay, passes[..n]), p), p.draw)
  }

  /** The loop itself, over the passes it makes before the context ends. */
  method ReconnectLoop(now: int, passes: seq<Pass>) returns (dialled: seq<int>)
    ensures |dialled| == |passes| + 1
    ensures forall k :: 0 <= k <= |passes| ==> dialled[k] == DialledAt(now, BASE_DELAY, passes[..k])
  {
    var delay := BASE_DELAY;
    var clock := now;
    dialled := [now];
    var i := 0;
    while i < |passes|
      invariant 0 <= i <= |passes|
      invariant |dialled| == i + 1
      invariant delay == DelayAfter(BASE_DELAY, passes[..i])
      invariant clock == DialledAt(now, BASE_DELAY, passes[..i])
      invariant forall k :: 0 <= k <= i ==> dialled[k] == DialledAt(now, BASE_DELAY, passes[..k])
    {
      var pass := passes[i];
      assert passes[..i + 1][..i] == passes[..i];
      if HEALTHY_STREAM <= pass.lasted {
        delay := BASE_DELAY;
      }
      clock := clock + pass.lasted + Jitter(delay, pass.draw);
      dialled := dialled + [clock];
      delay := if delay * 2 < MAX_DELAY then delay * 2 else MAX_DELAY;
      i := i + 1;
    }
  }

  function Power2(k: nat): nat {
    if k == 0 then 1 else 2 * Power2(k - 1)
  }

  /** After k short streams in a row the base delay is min(3 * 2^k, 60) seconds. */
  lemma {:induction false} BackoffIsCappedDoubling(passes: seq<Pass>)
    requires forall k :: 0 <= k < |passes| ==> Short(passes[k])
    ensures
      var doubled := BASE_DELAY * Power2(|passes|);
      DelayAfter(BASE_DELAY, passes) == if doubled < MAX_DELAY then doubled else MAX_DELAY
    decreases |passes|
  {
    if passes != [] {
      BackoffIsCappedDoubling(passes[..|passes| - 1]);
    }
  }

  /** A stream that lasted brings the delay back: k short streams after it, it is min(3 * 2^(k + 1), 60) seconds. */
  lemma {:induction false} HealthyStreamResets(before: seq<Pass>, healthy: Pass, passes: seq<Pass>)
    requires !Short(healthy) && forall k :: 0 <= k < |passes| ==> Short(passes[k])
    ensures
      var doubled := BASE_DELAY * Power2(|passes| + 1);
      DelayAfter(BASE_DELAY, before + [healthy] + passes) == if doubled < MAX_DELAY then doubled else MAX_DELAY
    decreases |passes|
  {
    if passes == [] {
      assert before + [healthy] + [] == before + [healthy];
      assert (before + [healthy])[..|before|] == before;
      assert Power2(1) == 2 * Power2(0);
    } else {
      var n := |passes| - 1;
      HealthyStreamResets(before, healthy, passes[..n]);
      assert (before + [healthy] + passes)[..|before| + 1 + n] == before + [healthy] + passes[..n];
    }
  }

  /** Between two dials: the stream, and a sleep spread over the delay then in force. */
  lemma {:induction false} DialsApart(now: int, passes: seq<Pass>, p: Pass)
    requires Realistic(p)
    ensures
      var delay := if Short(p) then DelayAfter(BASE_DELAY, passes) else BASE_DELAY;
      var slept := DialledAt(now, BASE_DELAY, passes + [p]) - DialledAt(now, BASE_DELAY, passes) - p.lasted;
      slept as real <= delay as real * (0.8 + 0.4 * p.draw) < slept as real + 1.0
    ensures DialledAt(now, BASE_DELAY, []) == now
  {
    DelaysAreRungs(passes);
    OnePassMore(now, BASE_DELAY, passes, p);
    JitterStaysClose(Effective(DelayAfter(BASE_DELAY, passes), p), p.draw);
    hide Jitter;
  }

  /** The only delays the loop ever uses. */
  predicate Rung(delay: int) {
    delay in {3 * SECOND, 6 * SECOND, 12 * SECOND, 24 * SECOND, 48 * SECOND, 60 * SECOND}
  }

  lemma {:induction false} DelaysAreRungs(passes: seq<Pass>)
    ensures Rung(DelayAfter(BASE_DELAY, passes))
    decreases |passes|
  {
    if passes != [] {
      DelaysAreRungs(passes[..|passes| - 1]);
    }
  }

  /** Each sleep is the delay times 0.8 to 1.2, as the draw has it, to the nanosecond. */
  lemma {:induction false} JitterStaysClose(delay: int, draw: real)
    requires Rung(delay) && 0.0 <= draw < 1.0
    ensures 4 * delay <= 5 * Jitter(delay, draw) <= 6 * delay
    ensures
      var slept := Jitter(delay, draw) as real;
      slept <= delay as real * (0.8 + 0.4 * draw) < slept + 1.0
  {
    Spread(delay, draw);
    var fifth := delay / 5;
    assert delay == 5 * fifth;
    var spread := delay as real * 0.2;
    assert spread == fifth as real;
    assert 0.0 <= draw * 2.0 * spread <= 2.0 * spread by {
      Scaled(draw, spread);
    }
  }

  lemma {:induction false} Spread(delay: int, draw: real)
    ensures
      var d := delay as real;
      d * (0.8 + 0.4 * draw) == d - d * 0.2 + draw * 2.0 * (d * 0.2)
  {
    var d := delay as real;
    assert d * (0.8 + 0.4 * draw) == d * 0.8 + d * (0.4 * draw);
    assert draw * 2.0 * (d * 0.2) == d * (0.4 * draw);
  }

  lemma {:induction false} Scaled(draw: real, spread: real)
    requires 0.0 <= draw < 1.0 && 0.0 <= spread
    ensures 0.0 <= draw * 2.0 * spread <= 2.0 * spread
  {
    assert draw * 2.0 * spread == 2.0 * (draw * spread);
    assert 0.0 <= draw * spread;
    assert draw * spread <= 1.0 * spread;
  }

  // ------------------------------------------------------- how often it dials

  /** How far ahead of 15.6 seconds a pass a loop at this delay can still get. In tenths of a second. */
  function Credit(delay: int): int {
    if delay == 3 * SECOND then 300
    else if delay == 6 * SECOND then 168
    else if delay == 12 * SECOND then 60
    else 0
  }

  /** One pass: 15.6 seconds, less the credit it uses up or plus what a healthy stream pays back. */
  lemma {:induction false} PassAccount(delay: int, p: Pass)
    requires Rung(delay) && Realistic(p)
    ensures
      var used := Effective(delay, p);
      var spent := p.lasted + Jitter(used, p.draw);
      && Rung(Doubled(used))
      && 156 * SECOND + Credit(Doubled(used)) * SECOND <= 10 * spent + Credit(delay) * SECOND
  {
    JitterStaysClose(Effective(delay, p), p.draw);
    hide Jitter;
  }

  /** The account of a stretch of passes that starts from any delay the loop can hold. */
  lemma {:induction false} StretchAccount(now: int, delay: int, passes: seq<Pass>)
    requires Rung(delay)
    requires forall k :: 0 <= k < |passes| ==> Realistic(passes[k])
    ensures Rung(DelayAfter(delay, passes))
    ensures
      var elapsed := DialledAt(now, delay, passes) - now;
      156 * |passes| * SECOND + Credit(DelayAfter(delay, passes)) * SECOND <= 10 * elapsed + Credit(delay) * SECOND
    decreases |passes|
  {
    if passes != [] {
      var n := |passes| - 1;
      var p := passes[n];
      StretchAccount(now, delay, passes[..n]);
      PassAccount(DelayAfter(delay, passes[..n]), p);
      hide Jitter, Credit, Rung, Effective, Doubled;
    }
  }

  lemma {:induction false} DelayAfterSplit(delay: int, first: seq<Pass>, second: seq<Pass>)
    ensures DelayAfter(delay, first + second) == DelayAfter(DelayAfter(delay, first), second)
    ensures forall now :: DialledAt(now, delay, first + second)
                       == DialledAt(DialledAt(now, delay, first), DelayAfter(delay, first), second)
    decreases |second|
  {
    if second == [] {
      assert first + second == first;
    } else {
      var n := |second| - 1;
      DelayAfterSplit(delay, first, second[..n]);
      assert (first + second)[..|first| + n] == first + second[..n];
    }
  }

  /**
   However streams come and go, any stretch of n consecutive reconnects that
   takes T seconds has 78 * n <= 150 + 5 * T: at most one at once, and in the
   long run no more than one every 15.6 seconds.
   */
  lemma {:induction false} ReconnectsAreBounded(now: int, passes: seq<Pass>, i: nat, n: nat)
    requires i + n <= |passes|
    requires forall k :: 0 <= k < |passes| ==> Realistic(passes[k])
    ensures
      var window := DialledAt(now, BASE_DELAY, passes[..i + n]) - DialledAt(now, BASE_DELAY, passes[..i]);
      78 * n * SECOND <= 150 * SECOND + 5 * window
  {
    var first, second := passes[..i], passes[i..i + n];
    assert passes[..i + n] == first + second;
    DelayAfterSplit(BASE_DELAY, first, second);
    DelaysAreRungs(first);
    StretchAccount(DialledAt(now, BASE_DELAY, first), DelayAfter(BASE_DELAY, first), second);
    assert 0 <= Credit(DelayAfter(BASE_DELAY, passes[..i + n]));
  }

  /** The fastest the loop can dial: a stream that lasts just long enough, after every two that fail at once. */
  function Fastest(cycles: nat): seq<Pass> {
    if cycles == 0 then [Pass(0, 0.0), Pass(0, 0.0), Pass(0, 0.0)]
    else Fastest(cycles - 1) + [Pass(HEALTHY_STREAM, 0.0)] + [Pass(0, 0.0)] + [Pass(0, 0.0)]
  }

  lemma {:induction false} OnePassMore(now: int, delay: int, passes: seq<Pass>, p: Pass)
    ensures
      var used := Effective(DelayAfter(delay, passes), p);
      && DelayAfter(delay, passes + [p]) == Doubled(used)
      && DialledAt(now, delay, passes + [p]) == DialledAt(now, delay, passes) + p.lasted + Jitter(used, p.draw)
  {
    assert (passes + [p])[..|passes|] == passes;
  }

  lemma {:induction false} LeastJitter()
    ensures 10 * Jitter(3 * SECOND, 0.0) == 24 * SECOND
    ensures 10 * Jitter(6 * SECOND, 0.0) == 48 * SECOND
    ensures 10 * Jitter(12 * SECOND, 0.0) == 96 * SECOND
  {
    assert (3 * SECOND) as real * 0.2 == 600_000_000.0;
    assert (6 * SECOND) as real * 0.2 == 1_200_000_000.0;
    assert (12 * SECOND) as real * 0.2 == 2_400_000_000.0;
  }

  /** Two passes that fail at once, from a delay of six seconds. */
  lemma {:induction false} TwoFailures(now: int, passes: seq<Pass>)
    requires DelayAfter(BASE_DELAY, passes) == 6 * SECOND
    ensures
      var more := passes + [Pass(0, 0.0)] + [Pass(0, 0.0)];
      && DelayAfter(BASE_DELAY, more) == 24 * SECOND
      && 10 * DialledAt(now, BASE_DELAY, more) == 10 * DialledAt(now, BASE_DELAY, passes) + 144 * SECOND
  {
    hide Jitter, DelayAfter, DialledAt;
    LeastJitter();
    OnePassMore(now, BASE_DELAY, passes, Pass(0, 0.0));
    OnePassMore(now, BASE_DELAY, passes + [Pass(0, 0.0)], Pass(0, 0.0));
  }

  /** The bound is attained, by arbitrarily long runs: no smaller one holds. */
  lemma {:induction false} BoundIsAttained(now: int, cycles: nat)
    ensures |Fastest(cycles)| == 3 * cycles + 3
    ensures forall p :: p in Fastest(cycles) ==> Realistic(p)
    ensures DelayAfter(BASE_DELAY, Fastest(cycles)) == 24 * SECOND
    ensures
      var window := DialledAt(now, BASE_DELAY, Fastest(cycles)) - now;
      78 * |Fastest(cycles)| * SECOND == 150 * SECOND + 5 * window
  {
    hide Jitter, DelayAfter, DialledAt;
    FromTheStart(now);
    if cycles != 0 {
      BoundIsAttained(now, cycles - 1);
      LeastJitter();
      OnePassMore(now, BASE_DELAY, Fastest(cycles - 1), Pass(HEALTHY_STREAM, 0.0));
      TwoFailures(now, Fastest(cycles - 1) + [Pass(HEALTHY_STREAM, 0.0)]);
    }
  }

  lemma {:induction false} FromTheStart(now: int)
    ensures DelayAfter(BASE_DELAY, Fastest(0)) == 24 * SECOND
    ensures 10 * DialledAt(now, BASE_DELAY, Fastest(0)) == 10 * now + 168 * SECOND
  {
    LeastJitter();
    OnePassMore(now, BASE_DELAY, [], Pass(0, 0.0));
    TwoFailures(now, [] + [Pass(0, 0.0)]);
    assert Fastest(0) == [] + [Pass(0, 0.0)] + [Pass(0, 0.0)] + [Pass(0, 0.0)];
    hide Jitter;
  }
}
