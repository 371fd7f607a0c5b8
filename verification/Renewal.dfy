/** keepFresh: when the agent asks for its next certificate, and how often. */
module Renewal {
  import opened Prelude
  import opened Identity

  /**
   One firing of the ticker: the clock reading, and what the platform would
   answer if the agent asked now (None when the renewal would fail).
   */
  datatype Tick = Tick(at: int, answer: Option<Material>)

  /** One renewal attempt, with the leaf held once it is over. */
  datatype Attempt = Attempt(at: int, renewed: bool, leaf: Leaf) {
    function Remaining(): int { leaf.notAfter - at }
  }

  predicate Asks(held: Option<Material>, next: Option<int>, at: int) {
    Due(held, at) && !(next.Some? && at < next.value)
  }

  function HeldAfter(held: Option<Material>, tick: Tick): Option<Material> {
    if tick.answer.Some? then tick.answer else held
  }

  function NextAttempt(held: Option<Material>, tick: Tick): int {
    tick.at + MinRenewalInterval(HeldLeaf(HeldAfter(held, tick)), tick.at)
  }

  /** The attempts made over a sequence of ticks. */
  function Schedule(held: Option<Material>, next: Option<int>, ticks: seq<Tick>): seq<Attempt>
    decreases |ticks|
  {
    if ticks == [] then []
    else
      var tick := ticks[0];
      if Asks(held, next, tick.at) then
        var after := HeldAfter(held, tick);
        [Attempt(tick.at, tick.answer.Some?, after.value.leaf)] +
        Schedule(after, Some(NextAttempt(held, tick)), ticks[1..])
      else Schedule(held, next, ticks[1..])
  }

  /** The identity held once the ticks are over. */
  function Final(held: Option<Material>, next: Option<int>, ticks: seq<Tick>): Option<Material>
    decreases |ticks|
  {
    if ticks == [] then held
    else if Asks(held, next, ticks[0].at) then
      Final(HeldAfter(held, ticks[0]), Some(NextAttempt(held, ticks[0])), ticks[1..])
    else Final(held, next, ticks[1..])
  }

  /** The loop itself. It ends with the ticks, as it does when the context is done. */
  method KeepFresh(holder: Holder, ticks: seq<Tick>) returns (attempts: seq<Attempt>)
    modifies holder
    ensures attempts == Schedule(old(holder.material), None, ticks)
    ensures holder.material == Final(old(holder.material), None, ticks)
  {
    attempts := [];
    var next: Option<int> := None;
    var i := 0;
    while i < |ticks|
      invariant 0 <= i <= |ticks|
      invariant attempts + Schedule(holder.material, next, ticks[i..]) == Schedule(old(holder.material), None, ticks)
      invariant Final(holder.material, next, ticks[i..]) == Final(old(holder.material), None, ticks)
    {
      var tick := ticks[i];
      i := i + 1;
      assert ticks[i - 1..][1..] == ticks[i..];
      if !holder.DueForRenewal(tick.at) {
        continue;
      }
      if next.Some? && tick.at < next.value {
        continue;
      }
      if tick.answer.Some? {
        holder.Replace(tick.answer.value);
      }
      next := Some(tick.at + holder.MinInterval(tick.at));
      attempts := attempts + [Attempt(tick.at, tick.answer.Some?, holder.material.value.leaf)];
    }
  }

  // ------------------------------------------------ when a tick is an attempt

  /** The leaf held once these attempts are over. */
  function LeafAfter(held: Option<Material>, made: seq<Attempt>): Option<Leaf> {
    if made == [] then HeldLeaf(held) else Some(made[|made| - 1].leaf)
  }

  /** When the throttle fixed by the latest attempt ends. */
  function NextAfter(next: Option<int>, made: seq<Attempt>): Option<int> {
    if made == [] then next
    else
      var last := made[|made| - 1];
      Some(last.at + MinRenewalInterval(Some(last.leaf), last.at))
  }

  /** The attempt a tick makes, when it makes one. */
  function AttemptAt(held: Option<Material>, tick: Tick): seq<Attempt> {
    var after := HeldAfter(held, tick);
    if after.Some? then [Attempt(tick.at, tick.answer.Some?, after.value.leaf)] else []
  }

  /** One tick first, and then the rest. */
  lemma {:induction false} TickFirst(held: Option<Material>, next: Option<int>, tick: Tick, rest: seq<Tick>)
    ensures
      var asks := Asks(held, next, tick.at);
      var later := if asks then Some(NextAttempt(held, tick)) else next;
      var after := if asks then HeldAfter(held, tick) else held;
      && (asks ==>
            && held.Some? && |AttemptAt(held, tick)| == 1
            && LeafAfter(held, AttemptAt(held, tick)) == HeldLeaf(after)
            && NextAfter(next, AttemptAt(held, tick)) == later)
      && Schedule(held, next, [tick] + rest)
         == (if asks then AttemptAt(held, tick) else []) + Schedule(after, later, rest)
      && Final(held, next, [tick] + rest) == Final(after, later, rest)
  {
    assert ([tick] + rest)[1..] == rest;
    hide MinRenewalInterval;
  }

  lemma {:induction false} NextAfterMore(next: Option<int>, first: seq<Attempt>, made: seq<Attempt>)
    ensures NextAfter(NextAfter(next, first), made) == NextAfter(next, first + made)
    ensures NextAfter(next, []) == next
  {
    hide MinRenewalInterval;
    assert made == [] ==> first + made == first;
  }

  lemma {:induction false} LeafAfterMore(held: Option<Material>, first: seq<Attempt>, made: seq<Attempt>)
    ensures LeafAfter(held, first + made) == if made == [] then LeafAfter(held, first) else Some(made[|made| - 1].leaf)
  {
    assert made == [] ==> first + made == first;
  }

  lemma {:induction false} OneMoreTick(held: Option<Material>, next: Option<int>, ticks: seq<Tick>, tick: Tick)
    ensures
      var made, now := Schedule(held, next, ticks), Final(held, next, ticks);
      var asks := Asks(now, NextAfter(next, made), tick.at);
      && LeafAfter(held, made) == HeldLeaf(now)
      && Schedule(held, next, ticks + [tick]) == made + (if asks then AttemptAt(now, tick) else [])
      && Final(held, next, ticks + [tick]) == if asks then HeldAfter(now, tick) else now
    decreases |ticks|
  {
    hide Schedule, Final, Asks, NextAfter, AttemptAt, NextAttempt, HeldAfter;
    if ticks == [] {
      NoTicks(held, next);
      TickFirst(held, next, tick, []);
      NoTicks(HeldAfter(held, tick), Some(NextAttempt(held, tick)));
      NextAfterMore(next, [], []);
      assert [] + [tick] == [tick] + [] == [tick];
    } else {
      var first, rest := ticks[0], ticks[1..];
      assert ticks == [first] + rest && ticks + [tick] == [first] + (rest + [tick]);
      TickFirst(held, next, first, rest);
      TickFirst(held, next, first, rest + [tick]);
      var asks := Asks(held, next, first.at);
      var after := if asks then HeldAfter(held, first) else held;
      var later := if asks then Some(NextAttempt(held, first)) else next;
      var before := if asks then AttemptAt(held, first) else [];
      OneMoreTick(after, later, rest, tick);
      NextAfterMore(next, before, Schedule(after, later, rest));
      LeafAfterMore(held, before, Schedule(after, later, rest));
      var made := Schedule(after, later, rest);
      assert forall more: seq<Attempt> :: before + (made + more) == (before + made) + more;
    }
  }

  /**
   Exactly when a tick is an attempt, and what it leaves: the agent holds a
   certificate, two thirds of its validity are over, and so is a third of what
   the latest attempt left, each third truncated to a nanosecond. An answer is
   then held; a failure changes nothing.
   */
  lemma {:induction false} TickIsAttemptIff(held: Option<Material>, ticks: seq<Tick>, tick: Tick)
    ensures
      var made := Schedule(held, None, ticks);
      var leaf := LeafAfter(held, made);
      var asks :=
        && leaf.Some?
        && (var life, age := leaf.value.notAfter - leaf.value.notBefore, tick.at - leaf.value.notBefore;
            2 * life <= 3 * age + if 0 <= life then 2 else 0)
        && (made != [] ==>
              var last := made[|made| - 1];
              last.at <= tick.at && last.leaf.notAfter - last.at <= 3 * (tick.at - last.at) + 2);
      && Schedule(held, None, ticks + [tick]) ==
           (if !asks then made
            else made + [Attempt(tick.at, tick.answer.Some?,
                                 if tick.answer.Some? then tick.answer.value.leaf else leaf.value)])
      && Final(held, None, ticks + [tick]) ==
           (if asks && tick.answer.Some? then tick.answer else Final(held, None, ticks))
      && Schedule(held, None, []) == [] && Final(held, None, []) == held
  {
    NoTicks(held, None);
    OneMoreTick(held, None, ticks, tick);
    var made, now := Schedule(held, None, ticks), Final(held, None, ticks);
    AsksIff(now, made, tick.at);
    hide Schedule, Final, Asks, NextAfter;
    assert made + [] == made;
  }

  lemma {:induction false} NoTicks(held: Option<Material>, next: Option<int>)
    ensures Schedule(held, next, []) == [] && Final(held, next, []) == held
  {
  }

  lemma {:induction false} AsksIff(held: Option<Material>, made: seq<Attempt>, at: int)
    ensures
      Asks(held, NextAfter(None, made), at) <==>
      && held.Some?
      && (var life, age := held.value.leaf.notAfter - held.value.leaf.notBefore, at - held.value.leaf.notBefore;
          2 * life <= 3 * age + if 0 <= life then 2 else 0)
      && (made != [] ==>
            var last := made[|made| - 1];
            last.at <= at && last.leaf.notAfter - last.at <= 3 * (at - last.at) + 2)
  {
  }

  /** No attempt is early: each comes once two thirds of the validity of the certificate then held are over. */
  lemma {:induction false} AttemptsWait(held: Option<Material>, ticks: seq<Tick>, k: nat)
    requires k < |Schedule(held, None, ticks)|
    ensures
      var s := Schedule(held, None, ticks);
      var before := if k == 0 then HeldLeaf(held) else Some(s[k - 1].leaf);
      && before.Some?
      && 2 * (before.value.notAfter - before.value.notBefore) <= 3 * (s[k].at - before.value.notBefore) + 2
    decreases |ticks|
  {
    var n := |ticks| - 1;
    TickIsAttemptIff(held, ticks[..n], ticks[n]);
    assert ticks == ticks[..n] + [ticks[n]];
    if k < |Schedule(held, None, ticks[..n])| {
      AttemptsWait(held, ticks[..n], k);
    }
    hide Schedule, Final;
  }

  // -------------------------------------------------------------- the bounds

  lemma {:induction false} NotBeforeNext(held: Option<Material>, next: Option<int>, ticks: seq<Tick>)
    requires next.Some? && Schedule(held, next, ticks) != []
    ensures next.value <= Schedule(held, next, ticks)[0].at
  {
    if !Asks(held, next, ticks[0].at) {
      NotBeforeNext(held, next, ticks[1..]);
    }
  }

  /** Attempt k was made at some tick, and what follows is the schedule from there. */
  lemma {:induction false} AfterAttempt(held: Option<Material>, next: Option<int>, ticks: seq<Tick>, k: nat)
    returns (j: nat, now: Option<Material>)
    requires k < |Schedule(held, next, ticks)|
    ensures
      var a := Schedule(held, next, ticks)[k];
      && j < |ticks| && ticks[j].at == a.at
      && HeldLeaf(now) == Some(a.leaf)
      && Schedule(held, next, ticks)[k + 1..]
         == Schedule(now, Some(a.at + MinRenewalInterval(Some(a.leaf), a.at)), ticks[j + 1..])
    decreases |ticks|
  {
    var tick, rest := ticks[0], ticks[1..];
    if !Asks(held, next, tick.at) {
      j, now := AfterAttempt(held, next, rest, k);
      j := j + 1;
      assert rest[j..] == ticks[j + 1..];
    } else if k == 0 {
      j, now := 0, HeldAfter(held, tick);
      assert Schedule(held, next, ticks)[1..] == Schedule(now, Some(NextAttempt(held, tick)), rest);
    } else {
      j, now := AfterAttempt(HeldAfter(held, tick), Some(NextAttempt(held, tick)), rest, k - 1);
      j := j + 1;
      assert rest[j..] == ticks[j + 1..];
      assert Schedule(held, next, ticks)[k + 1..]
          == Schedule(HeldAfter(held, tick), Some(NextAttempt(held, tick)), rest)[k..];
    }
  }

  /** Two attempts in a row are at least the interval fixed at the first of them apart. */
  lemma {:induction false} Spacing(held: Option<Material>, next: Option<int>, ticks: seq<Tick>, k: nat)
    requires k + 1 < |Schedule(held, next, ticks)|
    ensures
      var a, b := Schedule(held, next, ticks)[k], Schedule(held, next, ticks)[k + 1];
      a.at + MinRenewalInterval(Some(a.leaf), a.at) <= b.at
  {
    var a := Schedule(held, next, ticks)[k];
    var j, now := AfterAttempt(held, next, ticks, k);
    NotBeforeNext(now, Some(a.at + MinRenewalInterval(Some(a.leaf), a.at)), ticks[j + 1..]);
  }

  /**
   The renewal rate is a function of certificate life: if each attempt from
   `first` on leaves a certificate with at least `left` to live, n attempts span
   at least n - 1 thirds of it, however often the ticker fires.
   */
  lemma {:induction false} RateBound(held: Option<Material>, ticks: seq<Tick>, first: nat, n: nat, left: int)
    requires 0 < n && first + n <= |Schedule(held, None, ticks)| && 0 < left
    requires forall k :: first <= k < first + n ==> left <= Schedule(held, None, ticks)[k].Remaining()
    ensures
      var s := Schedule(held, None, ticks);
      (n - 1) * (left / 3) <= s[first + n - 1].at - s[first].at
  {
    if n > 1 {
      RateBound(held, ticks, first, n - 1, left);
      Spacing(held, None, ticks, first + n - 2);
      var s := Schedule(held, None, ticks);
      var a := s[first + n - 2];
      assert left / 3 <= a.Remaining() / 3 == MinRenewalInterval(Some(a.leaf), a.at);
      assert (n - 1) * (left / 3) == (n - 2) * (left / 3) + left / 3;
    }
  }

  function Power(base: nat, exponent: nat): nat {
    if exponent == 0 then 1 else base * Power(base, exponent - 1)
  }

  /** While renewals fail, the certificate held does not change. */
  lemma {:induction false} FailureKeepsLeaf(held: Option<Material>, next: Option<int>, ticks: seq<Tick>, k: nat)
    requires k + 1 < |Schedule(held, next, ticks)| && !Schedule(held, next, ticks)[k + 1].renewed
    ensures Schedule(held, next, ticks)[k + 1].leaf == Schedule(held, next, ticks)[k].leaf
  {
    var a := Schedule(held, next, ticks)[k];
    var j, now := AfterAttempt(held, next, ticks, k);
    FirstLeaf(now, Some(a.at + MinRenewalInterval(Some(a.leaf), a.at)), ticks[j + 1..]);
  }

  lemma {:induction false} FirstLeaf(held: Option<Material>, next: Option<int>, ticks: seq<Tick>)
    requires Schedule(held, next, ticks) != [] && !Schedule(held, next, ticks)[0].renewed
    ensures HeldLeaf(held) == Some(Schedule(held, next, ticks)[0].leaf)
  {
    if !Asks(held, next, ticks[0].at) {
      FirstLeaf(held, next, ticks[1..]);
    }
  }

  /**
   When every renewal fails and life remains, each attempt uses up a third of
   what is left: 3^n * (r_n - 2) <= 2^n * (r_0 - 2). So the number of attempts
   before a given remaining life is logarithmic in the starting one.
   */
  lemma {:induction false} FailuresAreLogarithmic(held: Option<Material>, ticks: seq<Tick>, first: nat, n: nat)
    requires first + n < |Schedule(held, None, ticks)|
    requires forall k :: first <= k <= first + n ==> 0 < Schedule(held, None, ticks)[k].Remaining()
    requires forall k :: first < k <= first + n ==> !Schedule(held, None, ticks)[k].renewed
    ensures
      var s := Schedule(held, None, ticks);
      Power(3, n) * (s[first + n].Remaining() - 2) <= Power(2, n) * (s[first].Remaining() - 2)
  {
    if n > 0 {
      FailuresAreLogarithmic(held, ticks, first, n - 1);
      var s := Schedule(held, None, ticks);
      var before, after, start := s[first + n - 1].Remaining(), s[first + n].Remaining(), s[first].Remaining();
      FailureKeepsLeaf(held, None, ticks, first + n - 1);
      Spacing(held, None, ticks, first + n - 1);
      assert after <= before - before / 3;
      DecayStep(Power(3, n - 1), Power(2, n - 1), before, after, start);
    }
  }

  /** If a <= 2 * b / 3 up to rounding, one more factor of 3 and of 2 keeps the bound. */
  lemma {:induction false} DecayStep(threes: nat, twos: nat, before: int, after: int, start: int)
    requires after <= before - before / 3
    requires threes * (before - 2) <= twos * (start - 2)
    ensures 3 * threes * (after - 2) <= 2 * twos * (start - 2)
  {
    assert 3 * (after - 2) <= 2 * (before - 2);
    Monotone(threes, 3 * (after - 2), 2 * (before - 2));
    assert 3 * threes * (after - 2) == threes * (3 * (after - 2));
    assert threes * (2 * (before - 2)) == 2 * (threes * (before - 2));
    assert 2 * twos * (start - 2) == 2 * (twos * (start - 2));
  }

  lemma {:induction false} Monotone(factor: nat, a: int, b: int)
    requires a <= b
    ensures factor * a <= factor * b
  {
  }

  // ------------------------------------------------------------ in good time

  /** The ticker never leaves a longer gap than this. */
  predicate GapsWithin(ticks: seq<Tick>, gap: int) {
    forall k :: 0 <= k < |ticks| - 1 ==> ticks[k + 1].at - ticks[k].at <= gap
  }

  /** The moment from which a tick is an attempt. */
  function Opens(leaf: Leaf, next: Option<int>): int {
    if next.Some? && RenewAt(leaf) < next.value then next.value else RenewAt(leaf)
  }

  lemma {:induction false} FirstAttemptComesSoon(held: Material, next: Option<int>, ticks: seq<Tick>, gap: int)
    requires ticks != [] && GapsWithin(ticks, gap)
    requires ticks[0].at <= Opens(held.leaf, next) + gap
    requires Opens(held.leaf, next) <= ticks[|ticks| - 1].at
    ensures
      var s := Schedule(Some(held), next, ticks);
      s != [] && s[0].at <= Opens(held.leaf, next) + gap
  {
    if !Asks(Some(held), next, ticks[0].at) {
      assert |ticks| > 1;
      assert ticks[1].at - ticks[0].at <= gap;
      var rest := ticks[1..];
      forall k | 0 <= k < |rest| - 1
        ensures rest[k + 1].at - rest[k].at <= gap
      {
        assert ticks[k + 2].at - ticks[k + 1].at <= gap;
      }
      FirstAttemptComesSoon(held, next, rest, gap);
    }
  }

  /**
   An agent that loaded a valid certificate and is running by its renewal point
   asks for the next one before the certificate expires, if the ticker's gaps
   stay within a third of the certificate's life.
   */
  lemma {:induction false} LoadedCertificateRenewsInTime(held: Material, ticks: seq<Tick>, issued: int)
    requires held.leaf.notBefore <= issued < held.leaf.notAfter
    requires ticks != [] && GapsWithin(ticks, (held.leaf.notAfter - issued) / 3)
    requires ticks[0].at <= RenewAt(held.leaf) + (held.leaf.notAfter - issued) / 3
    requires held.leaf.notAfter <= ticks[|ticks| - 1].at
    ensures
      var s := Schedule(Some(held), None, ticks);
      s != [] && s[0].at <= held.leaf.notAfter
  {
    var gap := (held.leaf.notAfter - issued) / 3;
    RoomBeforeExpiry(held.leaf, issued);
    FirstAttemptComesSoon(held, None, ticks, gap);
  }

  /**
   After any attempt, successful or not, that leaves a live certificate, the
   next attempt is made before that certificate expires, if the ticker's gaps
   stay within a third of the life it left.
   */
  lemma {:induction false} NextAttemptInTime(held: Option<Material>, ticks: seq<Tick>, k: nat)
    requires k < |Schedule(held, None, ticks)|
    requires
      var a := Schedule(held, None, ticks)[k];
      && a.leaf.notBefore <= a.at < a.leaf.notAfter
      && GapsWithin(ticks, a.Remaining() / 3)
      && a.leaf.notAfter <= ticks[|ticks| - 1].at
    ensures
      var s := Schedule(held, None, ticks);
      k + 1 < |s| && s[k + 1].at <= s[k].leaf.notAfter
  {
    hide Schedule, GapsWithin;
    var s := Schedule(held, None, ticks);
    var a := s[k];
    var gap := a.Remaining() / 3;
    var next := a.at + MinRenewalInterval(Some(a.leaf), a.at);
    var j, now := AfterAttempt(held, None, ticks, k);
    RoomBeforeExpiry(a.leaf, a.at);
    var rest := ticks[j + 1..];
    assert rest != [];
    GapsAfter(ticks, gap, j);
    FirstAttemptComesSoon(now.value, Some(next), rest, gap);
    assert s[k + 1..] == Schedule(now, Some(next), rest);
  }

  lemma {:induction false} GapsAfter(ticks: seq<Tick>, gap: int, j: nat)
    requires j + 1 < |ticks| && GapsWithin(ticks, gap)
    ensures GapsWithin(ticks[j + 1..], gap) && ticks[j + 1].at - ticks[j].at <= gap
  {
    var rest := ticks[j + 1..];
    forall i | 0 <= i < |rest| - 1
      ensures rest[i + 1].at - rest[i].at <= gap
    {
      assert ticks[j + 1 + i + 1].at - ticks[j + 1 + i].at <= gap;
    }
  }

  /** Once the certificate has expired the throttle is gone: while renewals fail, every tick asks. */
  lemma {:induction false} ExpiredAsksEveryTick(held: Material, next: Option<int>, ticks: seq<Tick>)
    requires held.leaf.notBefore <= held.leaf.notAfter
    requires forall k :: 0 <= k < |ticks| ==> held.leaf.notAfter <= ticks[k].at && ticks[k].answer.None?
    requires forall k :: 0 <= k < |ticks| - 1 ==> ticks[k].at <= ticks[k + 1].at
    requires ticks != [] && next.Some? ==> next.value <= ticks[0].at
    ensures |Schedule(Some(held), next, ticks)| == |ticks|
    decreases |ticks|
  {
    if ticks != [] {
      assert RenewAt(held.leaf) <= held.leaf.notAfter;
      assert NextAttempt(Some(held), ticks[0]) == ticks[0].at;
      var rest := ticks[1..];
      assert forall k :: 0 <= k < |rest| ==> rest[k] == ticks[k + 1];
      ExpiredAsksEveryTick(held, Some(ticks[0].at), rest);
    }
  }
}
