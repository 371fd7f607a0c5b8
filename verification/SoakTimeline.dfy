/** When a soak was actually working: the longest stretch without a usable finish. */
module SoakTimeline {
  import opened Prelude
  import opened Ordering

  datatype Investigation = Investigation(status: string, usable: int, finishedAt: real)

  datatype Timeline = Timeline(count: nat, first: Option<real>, last: Option<real>, longestGap: real)

  predicate Usable(run: Investigation) {
    run.status == "succeeded" && 0 < run.usable
  }

  function Finishes(runs: seq<Investigation>): seq<real> {
    if runs == [] then []
    else
      var rest := Finishes(runs[1..]);
      if Usable(runs[0]) then [runs[0].finishedAt] + rest else rest
  }

  function Gaps(marks: seq<real>): (gaps: seq<real>)
    requires marks != []
    ensures |gaps| == |marks| - 1
    ensures forall i :: 0 <= i < |gaps| ==> gaps[i] == marks[i + 1] - marks[i]
  {
    var n := |marks| - 1;
    if n == 0 then [] else Gaps(marks[..n]) + [marks[n] - marks[n - 1]]
  }

  function Largest(gaps: seq<real>): (m: real)
    requires gaps != []
    ensures m in gaps
    ensures forall i :: 0 <= i < |gaps| ==> gaps[i] <= m
  {
    if |gaps| == 1 then gaps[0]
    else
      var rest := Largest(gaps[1..]);
      if gaps[0] < rest then rest else gaps[0]
  }

  function Marks(good: seq<real>, started: real, elapsed: real): seq<real> {
    [started] + good + [started + elapsed]
  }

  function Good(runs: seq<Investigation>): seq<real> {
    Sort((a: real, b: real) => a <= b, Finishes(runs))
  }

  function UsableTimeline(runs: seq<Investigation>, started: real, elapsed: real): Timeline {
    var good := Good(runs);
    if good == [] then Timeline(0, None, None, elapsed)
    else
      Timeline(|good|, Some(good[0] - started), Some(good[|good| - 1] - started),
               Largest(Gaps(Marks(good, started, elapsed))))
  }

  /** Each usable finish is a usable run's finish, and conversely. */
  lemma {:induction false} FinishesAre(runs: seq<Investigation>, at: real)
    ensures at in Finishes(runs) <==> exists k :: 0 <= k < |runs| && Usable(runs[k]) && runs[k].finishedAt == at
  {
    if runs != [] {
      FinishesAre(runs[1..], at);
      if k :| 0 <= k < |runs[1..]| && Usable(runs[1..][k]) && runs[1..][k].finishedAt == at {
        assert runs[k + 1] == runs[1..][k];
      }
      if k :| 0 <= k < |runs| && Usable(runs[k]) && runs[k].finishedAt == at {
        assert k == 0 || runs[1..][k - 1] == runs[k];
      }
    }
  }

  lemma {:induction false} GoodIsSorted(runs: seq<Investigation>)
    ensures
      var good := Good(runs);
      && |good| == |Finishes(runs)|
      && (forall i, j :: 0 <= i < j < |good| ==> good[i] <= good[j])
      && (forall at :: at in good <==> at in Finishes(runs))
  {
    SortCorrect((a: real, b: real) => a <= b, Finishes(runs));
  }

  /** Marks that start at or before a point and end after it cross it somewhere. */
  lemma {:induction false} Crossing(marks: seq<real>, at: real) returns (i: nat)
    requires |marks| >= 2 && marks[0] <= at < marks[|marks| - 1]
    ensures i + 1 < |marks| && marks[i] <= at < marks[i + 1]
  {
    i := 0;
    while marks[i + 1] <= at
      invariant i + 1 < |marks| && marks[i] <= at
      decreases |marks| - i
    {
      i := i + 1;
    }
  }

  /**
   Any window inside the soak that is longer than the reported gap contains the
   finish of a usable run. Nothing is asked of when the runs finished.
   */
  lemma {:induction false} LongWindowsHoldAFinish(runs: seq<Investigation>, started: real, elapsed: real, a: real,
                                                  b: real)
    returns (k: nat)
    requires started <= a < b <= started + elapsed
    requires UsableTimeline(runs, started, elapsed).longestGap < b - a
    ensures k < |runs| && Usable(runs[k]) && a < runs[k].finishedAt < b
  {
    var good := Good(runs);
    GoodIsSorted(runs);
    var marks := Marks(good, started, elapsed);
    var gaps := Gaps(marks);
    var i := Crossing(marks, a);
    assert gaps[i] == marks[i + 1] - marks[i];
    var at := marks[i + 1];
    assert at < b;
    assert at == good[i];
    FinishesAre(runs, at);
    k :| 0 <= k < |runs| && Usable(runs[k]) && runs[k].finishedAt == at;
  }

  lemma {:induction false} MarksSpan(marks: seq<real>, longest: real)
    requires marks != []
    requires forall i :: 0 <= i < |marks| - 1 ==> marks[i + 1] - marks[i] <= longest
    ensures marks[|marks| - 1] - marks[0] <= longest * (|marks| - 1) as real
  {
    var n := |marks| - 1;
    if n > 0 {
      MarksSpan(marks[..n], longest);
      assert marks[n] - marks[n - 1] <= longest;
      assert longest * n as real == longest * (n - 1) as real + longest;
    }
  }

  lemma {:induction false} GapBounds(marks: seq<real>)
    requires |marks| >= 2
    ensures forall i :: 0 <= i < |marks| - 1 ==> marks[i + 1] - marks[i] <= Largest(Gaps(marks))
    ensures exists i :: 0 <= i < |marks| - 1 && marks[i + 1] - marks[i] == Largest(Gaps(marks))
  {
    var gaps := Gaps(marks);
    forall i | 0 <= i < |marks| - 1
      ensures marks[i + 1] - marks[i] <= Largest(gaps)
    {
      assert gaps[i] == marks[i + 1] - marks[i];
    }
    var i :| 0 <= i < |gaps| && gaps[i] == Largest(gaps);
    assert marks[i + 1] - marks[i] == Largest(gaps);
  }

  /** The gap, taken once more than there are usable runs, covers the whole soak. */
  lemma {:induction false} GapsCoverTheSoak(runs: seq<Investigation>, started: real, elapsed: real)
    ensures
      var t := UsableTimeline(runs, started, elapsed);
      && t.count == |Finishes(runs)|
      && elapsed <= t.longestGap * (t.count + 1) as real
  {
    hide Good, Finishes, Gaps, Largest, Marks;
    GoodIsSorted(runs);
    if Good(runs) != [] {
      MarksCover(Good(runs), started, elapsed);
    }
  }

  lemma {:induction false} MarksCover(good: seq<real>, started: real, elapsed: real)
    ensures elapsed <= Largest(Gaps(Marks(good, started, elapsed))) * (|good| + 1) as real
  {
    hide Gaps, Largest;
    var marks := Marks(good, started, elapsed);
    GapBounds(marks);
    MarksSpan(marks, Largest(Gaps(marks)));
    assert |marks| - 1 == |good| + 1;
    assert marks[|marks| - 1] - marks[0] == elapsed;
  }

  /** The marks on either side of a gap have no usable finish between them. */
  lemma {:induction false} NothingBetween(good: seq<real>, started: real, elapsed: real, i: nat, at: real)
    requires forall p, q :: 0 <= p < q < |good| ==> good[p] <= good[q]
    requires i <= |good| && at in good
    ensures var marks := Marks(good, started, elapsed);
            !(marks[i] < at < marks[i + 1])
  {
    var marks := Marks(good, started, elapsed);
    var j :| 0 <= j < |good| && good[j] == at;
    if j < i {
      assert marks[i] == good[i - 1];
    } else if i < |good| {
      assert marks[i + 1] == good[i];
    }
  }

  /**
   The reported gap is not an overestimate: some stretch of exactly that length
   has no usable finish inside it, and it lies within the soak whenever the
   usable runs finished within the soak.
   */
  lemma {:induction false} SomeStretchIsThatQuiet(runs: seq<Investigation>, started: real, elapsed: real)
    returns (a: real, b: real)
    ensures b - a == UsableTimeline(runs, started, elapsed).longestGap
    ensures forall k :: 0 <= k < |runs| && Usable(runs[k]) ==> !(a < runs[k].finishedAt < b)
    ensures (forall k :: 0 <= k < |runs| && Usable(runs[k]) ==> started <= runs[k].finishedAt <= started + elapsed) ==>
              started <= a && b <= started + elapsed
  {
    hide Good, Finishes, Gaps, Largest;
    var good := Good(runs);
    GoodIsSorted(runs);
    var marks := Marks(good, started, elapsed);
    var i: nat := 0;
    if good != [] {
      GapBounds(marks);
      i :| 0 <= i < |marks| - 1 && marks[i + 1] - marks[i] == Largest(Gaps(marks));
    }
    a, b := marks[i], marks[i + 1];
    forall k | 0 <= k < |runs| && Usable(runs[k])
      ensures !(a < runs[k].finishedAt < b)
    {
      FinishesAre(runs, runs[k].finishedAt);
      NothingBetween(good, started, elapsed, i, runs[k].finishedAt);
    }
    if forall k :: 0 <= k < |runs| && Usable(runs[k]) ==> started <= runs[k].finishedAt <= started + elapsed {
      MarksInside(runs, started, elapsed);
    }
  }

  lemma {:induction false} MarksInside(runs: seq<Investigation>, started: real, elapsed: real)
    requires forall k :: 0 <= k < |runs| && Usable(runs[k]) ==> started <= runs[k].finishedAt <= started + elapsed
    ensures
      var marks := Marks(Good(runs), started, elapsed);
      && (forall i :: 0 <= i < |marks| - 1 ==> started <= marks[i])
      && (forall i :: 0 < i < |marks| ==> marks[i] <= started + elapsed)
  {
    var good := Good(runs);
    GoodIsSorted(runs);
    forall j | 0 <= j < |good|
      ensures started <= good[j] <= started + elapsed
    {
      assert good[j] in good;
      FinishesAre(runs, good[j]);
    }
  }

  // ---------------------------------------------------------------- the guard

  datatype Refusal = TooFew | LowShare | WentQuiet

  function AllowedGap(elapsed: real): real {
    if elapsed * 0.10 < 300.0 then 300.0 else elapsed * 0.10
  }

  function Share(runs: seq<Investigation>): real {
    if runs == [] then 0.0 else |Finishes(runs)| as real / |runs| as real
  }

  /** Which runs count: those that succeeded with usable evidence. */
  function UsableRuns(runs: seq<Investigation>): set<nat> {
    set k: nat | k < |runs| && runs[k].status == "succeeded" && 0 < runs[k].usable
  }

  lemma {:induction false} CountIs(runs: seq<Investigation>)
    ensures |Finishes(runs)| == |UsableRuns(runs)|
  {
    if runs == [] {
      assert UsableRuns(runs) == {};
    } else {
      hide Finishes, Usable, UsableRuns;
      var n := |runs| - 1;
      assert runs == runs[..n] + [runs[n]];
      CountIs(runs[..n]);
      FinishesSplit(runs[..n], runs[n]);
      UsableSplit(runs[..n], runs[n]);
    }
  }

  lemma {:induction false} UsableSplit(runs: seq<Investigation>, run: Investigation)
    ensures UsableRuns(runs + [run]) == UsableRuns(runs) + if Usable(run) then {|runs|} else {}
    ensures |runs| !in UsableRuns(runs)
  {
    var all := runs + [run];
    assert all[|runs|] == run && forall k :: 0 <= k < |runs| ==> all[k] == runs[k];
  }

  lemma {:induction false} FinishesSplit(runs: seq<Investigation>, run: Investigation)
    ensures Finishes(runs + [run]) == Finishes(runs) + if Usable(run) then [run.finishedAt] else []
  {
    if runs == [] {
      assert runs + [run] == [run] && [run][1..] == [];
    } else {
      assert (runs + [run])[1..] == runs[1..] + [run];
      FinishesSplit(runs[1..], run);
    }
  }

  /** What else the timeline says: how many runs count, and when the first and the last of them finished. */
  lemma {:induction false} TimelineIs(runs: seq<Investigation>, started: real, elapsed: real)
    ensures
      var t := UsableTimeline(runs, started, elapsed);
      && t.count == |UsableRuns(runs)|
      && (t.count == 0 <==> t.first.None?) && (t.count == 0 <==> t.last.None?)
      && (t.count == 0 ==> t.longestGap == elapsed)
      && (t.count > 0 ==>
            && (exists k :: k in UsableRuns(runs) && runs[k].finishedAt == started + t.first.value)
            && (exists k :: k in UsableRuns(runs) && runs[k].finishedAt == started + t.last.value)
            && forall k :: k in UsableRuns(runs) ==>
                 started + t.first.value <= runs[k].finishedAt <= started + t.last.value)
  {
    CountIs(runs);
    GoodIsSorted(runs);
    var good := Good(runs);
    forall k | k in UsableRuns(runs)
      ensures runs[k].finishedAt in good
    {
      FinishesAre(runs, runs[k].finishedAt);
    }
    if good != [] {
      FinishesAre(runs, good[0]);
      FinishesAre(runs, good[|good| - 1]);
    }
    hide Good, Finishes, Gaps, Largest, Marks;
  }

  /** The three questions summarise asks before it publishes anything. */
  method Refusals(runs: seq<Investigation>, started: real, elapsed: real, floor: int, minShare: real)
    returns (refusals: seq<Refusal>)
    ensures refusals == [] ==>
              floor <= |Finishes(runs)| && minShare <= Share(runs) &&
              UsableTimeline(runs, started, elapsed).longestGap <= AllowedGap(elapsed)
    ensures TooFew in refusals <==> |UsableRuns(runs)| < floor
    ensures LowShare in refusals <==>
              if runs == [] then 0.0 < minShare else |UsableRuns(runs)| as real / |runs| as real < minShare
    ensures WentQuiet in refusals <==>
              300.0 < UsableTimeline(runs, started, elapsed).longestGap
              && elapsed * 0.10 < UsableTimeline(runs, started, elapsed).longestGap
  {
    CountIs(runs);
    refusals := [];
    if |Finishes(runs)| < floor {
      refusals := refusals + [TooFew];
    }
    if Share(runs) < minShare {
      refusals := refusals + [LowShare];
    }
    if AllowedGap(elapsed) < UsableTimeline(runs, started, elapsed).longestGap {
      refusals := refusals + [WentQuiet];
    }
  }

  /**
   The continuity guard lets a soak through only if every window of more than
   five minutes and more than a tenth of the run holds a usable finish; and it
   refuses one only if some window longer than that holds none.
   */
  lemma {:induction false} GuardIsContinuity(runs: seq<Investigation>, started: real, elapsed: real)
    requires forall k :: 0 <= k < |runs| && Usable(runs[k]) ==> started <= runs[k].finishedAt <= started + elapsed
    ensures
      UsableTimeline(runs, started, elapsed).longestGap <= AllowedGap(elapsed) <==>
      forall a, b :: started <= a && b <= started + elapsed && 300.0 < b - a && elapsed * 0.10 < b - a ==>
                       HoldsFinish(runs, a, b)
  {
    if UsableTimeline(runs, started, elapsed).longestGap <= AllowedGap(elapsed) {
      forall a, b | started <= a && b <= started + elapsed && AllowedGap(elapsed) < b - a
        ensures HoldsFinish(runs, a, b)
      {
        var k := LongWindowsHoldAFinish(runs, started, elapsed, a, b);
      }
    } else {
      var a, b := SomeStretchIsThatQuiet(runs, started, elapsed);
      assert !HoldsFinish(runs, a, b);
    }
  }

  predicate HoldsFinish(runs: seq<Investigation>, a: real, b: real) {
    exists k :: 0 <= k < |runs| && Usable(runs[k]) && a < runs[k].finishedAt < b
  }
}
