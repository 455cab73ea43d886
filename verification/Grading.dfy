/** From the outcomes of the checks to the score, and from the score to the percentage shown. */
module Grading {
  import opened Wrappers
  import opened Scenarios
  import opened ScenarioTables

  // A check runs to an exit code, or cannot be run.
  datatype Run = Exited(code: int) | Errored
  datatype Item = Item(check: CheckRow, run: Run)

  const PASS_THRESHOLD := 66

  predicate Passed(item: Item) {
    item.run == Exited(0)
  }

  function Checks(items: seq<Item>): seq<CheckRow> {
    seq(|items|, i requires 0 <= i < |items| => items[i].check)
  }

  function PassedOnes(items: seq<Item>): seq<Item> {
    if items == [] then []
    else PassedOnes(items[..|items| - 1]) + if Passed(items[|items| - 1]) then [items[|items| - 1]] else []
  }

  function Points(items: seq<Item>): int {
    if items == [] then 0 else Points(items[..|items| - 1]) + items[|items| - 1].check.points
  }

  // What the runner awards; None is the error the grading loop skips over.
  function PointsAwarded(item: Item): Option<int> {
    match item.run
    case Exited(code) => Some(if code == 0 then item.check.points else 0)
    case Errored => None
  }

  // The grading loop: the total is the sum over the passed checks, the maximum the sum over all. A total of
  // nothing and a total of everything are what the exit codes say.
  method GradeChecks(items: seq<Item>) returns (totalScore: int, maxScore: int)
    ensures totalScore == Points(PassedOnes(items)) && maxScore == Points(items)
    ensures Earned(items, totalScore, maxScore)
  {
    totalScore, maxScore := 0, 0;
    for i := 0 to |items|
      invariant totalScore == Points(PassedOnes(items[..i])) && maxScore == Points(items[..i])
    {
      var item := items[i];
      PointsOneMore(items, i);
      PassedOneMore(items, i);
      maxScore := maxScore + item.check.points;
      var awarded := PointsAwarded(item);
      if awarded.None? {
        continue;
      }
      totalScore := totalScore + awarded.value;
    }
    assert items[..|items|] == items;
    WhatIsEarned(items);
  }

  lemma PointsOneMore(items: seq<Item>, i: nat)
    requires i < |items|
    ensures Points(items[..i + 1]) == Points(items[..i]) + items[i].check.points
  {
    assert items[..i + 1][..i] == items[..i];
  }

  lemma PointsAppend(items: seq<Item>, last: Item)
    ensures Points(items + [last]) == Points(items) + last.check.points
  {
    assert (items + [last])[..|items|] == items;
  }

  lemma PassedOneMore(items: seq<Item>, i: nat)
    requires i < |items|
    ensures Points(PassedOnes(items[..i + 1])) ==
            Points(PassedOnes(items[..i])) + if Passed(items[i]) then items[i].check.points else 0
  {
    assert items[..i + 1][..i] == items[..i];
    if Passed(items[i]) {
      PointsAppend(PassedOnes(items[..i]), items[i]);
    } else {
      assert PassedOnes(items[..i + 1]) == PassedOnes(items[..i]);
    }
  }

  // ----- what the score can be

  ghost predicate Positive(items: seq<Item>) {
    forall i | 0 <= i < |items| :: items[i].check.points > 0
  }

  // Every command ran and exited with 0.
  ghost predicate AllExitZero(items: seq<Item>) {
    forall i | 0 <= i < |items| :: items[i].run == Exited(0)
  }

  ghost predicate NoneExitsZero(items: seq<Item>) {
    forall i | 0 <= i < |items| :: items[i].run != Exited(0)
  }

  // Nothing without a command that exits with 0, and everything exactly when all of them do.
  ghost predicate Earned(items: seq<Item>, total: int, max: int) {
    && (NoneExitsZero(items) ==> total == 0)
    && (Positive(items) ==> 0 <= total <= max && (total == max <==> AllExitZero(items)))
  }

  lemma WhatIsEarned(items: seq<Item>)
    ensures Earned(items, Points(PassedOnes(items)), Points(items))
  {
    if NoneExitsZero(items) { NothingEarned(items); }
    if Positive(items) { ScoreWithinMax(items); }
  }

  lemma {:induction false} NothingEarned(items: seq<Item>)
    requires NoneExitsZero(items)
    ensures Points(PassedOnes(items)) == 0
  {
    if items != [] {
      NothingEarned(items[..|items| - 1]);
      assert items[..|items|] == items;
      PassedOneMore(items, |items| - 1);
    }
  }

  // A run that comes to exit with 0 adds its check's points and no more. How a run fails, by its exit code or
  // by not being run at all, makes no difference. With NothingEarned this says what every total is.
  lemma {:induction false} OneRunDecidesItsPoints(items: seq<Item>, k: nat, run: Run)
    requires k < |items| && items[k].run != Exited(0)
    ensures Points(items[k := items[k].(run := run)]) == Points(items)
    ensures Points(PassedOnes(items[k := items[k].(run := run)])) ==
            Points(PassedOnes(items)) + if run == Exited(0) then items[k].check.points else 0
  {
    var n, after := |items| - 1, items[k := items[k].(run := run)];
    assert items[..n + 1] == items && after[..n + 1] == after;
    PassedOneMore(items, n);
    PassedOneMore(after, n);
    if k < n {
      assert after[..n] == items[..n][k := items[k].(run := run)];
      OneRunDecidesItsPoints(items[..n], k, run);
    } else {
      assert after[..n] == items[..n];
    }
  }

  lemma {:induction false} ScoreWithinMax(items: seq<Item>)
    requires Positive(items)
    ensures 0 <= Points(PassedOnes(items)) <= Points(items)
    ensures Points(PassedOnes(items)) == Points(items) <==> AllExitZero(items)
    ensures items != [] ==> Points(items) > 0
  {
    if items != [] {
      var n := |items| - 1;
      ScoreWithinMax(items[..n]);
      PassedOneMore(items, n);
      AllButTheLast(items);
      assert items[..n + 1] == items && items[n].check.points > 0;
      hide Positive, AllExitZero;
    }
  }

  lemma AllButTheLast(items: seq<Item>)
    requires items != []
    ensures AllExitZero(items) <==> AllExitZero(items[..|items| - 1]) && items[|items| - 1].run == Exited(0)
  {
    var init := items[..|items| - 1];
    forall i | 0 <= i < |items| && AllExitZero(init) && items[|items| - 1].run == Exited(0)
      ensures items[i].run == Exited(0)
    {
      assert i < |init| ==> items[i] == init[i];
    }
  }

  // The same checks, and every one that exits with 0 in a does so in b.
  ghost predicate NoWorse(a: seq<Item>, b: seq<Item>) {
    && |a| == |b|
    && forall i | 0 <= i < |a| :: a[i].check == b[i].check && (a[i].run == Exited(0) ==> b[i].run == Exited(0))
  }

  lemma {:induction false} ScoreIsMonotone(a: seq<Item>, b: seq<Item>)
    requires Positive(a) && NoWorse(a, b)
    ensures Points(a) == Points(b) && Points(PassedOnes(a)) <= Points(PassedOnes(b))
  {
    if a != [] {
      var n := |a| - 1;
      ScoreIsMonotone(a[..n], b[..n]);
      assert a[..n + 1] == a && b[..n + 1] == b;
      PassedOneMore(a, n);
      PassedOneMore(b, n);
    }
  }

  // ----- the order in which the checks are listed

  lemma {:induction false} PointsWithout(items: seq<Item>, k: nat)
    requires k < |items|
    ensures Points(items) == Points(items[..k] + items[k + 1..]) + items[k].check.points
  {
    var n := |items| - 1;
    if k == n {
      assert items[..k] + items[k + 1..] == items[..n];
    } else {
      var init := items[..n];
      PointsWithout(init, k);
      PointsAppend(init[..k] + init[k + 1..], items[n]);
      assert items[..k] + items[k + 1..] == init[..k] + init[k + 1..] + [items[n]];
    }
  }

  lemma {:induction false} PointsIgnoreOrder(a: seq<Item>, b: seq<Item>)
    requires multiset(a) == multiset(b)
    ensures Points(a) == Points(b)
  {
    if a == [] {
      assert |multiset(b)| == |b|;
    } else {
      var n := |a| - 1;
      var last, init := a[n], a[..n];
      assert a == init + [last];
      assert last in multiset(b);
      var k :| 0 <= k < |b| && b[k] == last;
      var rest := b[..k] + b[k + 1..];
      assert b == b[..k] + [last] + b[k + 1..];
      assert multiset(rest) == multiset(b) - multiset{last};
      PointsIgnoreOrder(init, rest);
      PointsWithout(b, k);
    }
  }

  lemma {:induction false} PassedIgnoreOrder(items: seq<Item>, item: Item)
    ensures multiset(PassedOnes(items))[item] == if Passed(item) then multiset(items)[item] else 0
  {
    if items != [] {
      var init, last := items[..|items| - 1], items[|items| - 1];
      PassedIgnoreOrder(init, item);
      assert items == init + [last];
    }
  }

  lemma {:induction false} RowPointsWithout(rows: seq<CheckRow>, k: nat)
    requires k < |rows|
    ensures RowPoints(rows) == RowPoints(rows[..k] + rows[k + 1..]) + rows[k].points
  {
    var n := |rows| - 1;
    if k == n {
      assert rows[..k] + rows[k + 1..] == rows[..n];
    } else {
      var init, rest := rows[..n], rows[..k] + rows[k + 1..];
      RowPointsWithout(init, k);
      assert rest[..n - 1] == init[..k] + init[k + 1..];
    }
  }

  lemma {:induction false} RowPointsIgnoreOrder(a: seq<CheckRow>, b: seq<CheckRow>)
    requires multiset(a) == multiset(b)
    ensures RowPoints(a) == RowPoints(b)
  {
    if a == [] {
      assert |multiset(b)| == |b|;
    } else {
      var n := |a| - 1;
      var last, init := a[n], a[..n];
      assert a == init + [last];
      assert last in multiset(b);
      var k :| 0 <= k < |b| && b[k] == last;
      var rest := b[..k] + b[k + 1..];
      assert b == b[..k] + [last] + b[k + 1..];
      assert multiset(rest) == multiset(b) - multiset{last};
      RowPointsIgnoreOrder(init, rest);
      RowPointsWithout(b, k);
    }
  }

  // Checks imported together carry the same time stamp, so the store may list them in any order. The
  // score does not depend on it.
  lemma GradeIgnoresOrder(a: seq<Item>, b: seq<Item>)
    requires multiset(a) == multiset(b)
    ensures Points(a) == Points(b) && Points(PassedOnes(a)) == Points(PassedOnes(b))
  {
    PointsIgnoreOrder(a, b);
    forall item: Item ensures multiset(PassedOnes(a))[item] == multiset(PassedOnes(b))[item] {
      PassedIgnoreOrder(a, item);
      PassedIgnoreOrder(b, item);
    }
    PointsIgnoreOrder(PassedOnes(a), PassedOnes(b));
  }

  // ----- the percentage

  // Go's integer division, which rounds toward zero.
  function GoDiv(a: int, b: int): int
    requires b > 0
  {
    if a >= 0 then a / b else -((-a) / b)
  }

  function Percentage(score: Option<int>, maxScore: Option<int>): (percent: int)
    ensures score.None? || maxScore.None? || maxScore.value <= 0 ==> percent == 0
  {
    var total := if score.Some? then score.value else 0;
    var max := if maxScore.Some? then maxScore.value else 0;
    if max > 0 then GoDiv(total * 100, max) else 0
  }

  // Rounding down decides every threshold correctly.
  lemma ThresholdIsExact(total: int, max: int, threshold: int)
    requires 0 <= total && max > 0 && 0 <= threshold
    ensures Percentage(Some(total), Some(max)) >= threshold <==> 100 * total >= threshold * max
  {
    var p := (total * 100) / max;
    assert p * max <= total * 100 < (p + 1) * max;
    if p >= threshold {
      MulKeeps(threshold, p, max);
    } else {
      MulKeeps(p + 1, threshold, max);
    }
  }

  lemma MulKeeps(a: int, b: int, c: int)
    requires a <= b && 0 <= c
    ensures a * c <= b * c
  {
  }

  // 0 to 100, 100 for a clean sweep and nothing else, never lower when more checks pass, and passing
  // the bar exactly when 66 parts in 100 of the points were earned.
  lemma PercentageMeansWhatItSays(items: seq<Item>, better: seq<Item>)
    requires items != [] && Positive(items) && NoWorse(items, better)
    ensures var p := Percentage(Some(Points(PassedOnes(items))), Some(Points(items)));
            && 0 <= p <= 100
            && (p == 100 <==> AllExitZero(items))
            && (p >= PASS_THRESHOLD <==> 100 * Points(PassedOnes(items)) >= 66 * Points(items))
            && p <= Percentage(Some(Points(PassedOnes(better))), Some(Points(better)))
  {
    var total, max := Points(PassedOnes(items)), Points(items);
    var p := Percentage(Some(total), Some(max));
    ScoreWithinMax(items);
    ThresholdIsExact(total, max, 0);
    ThresholdIsExact(total, max, 100);
    ThresholdIsExact(total, max, 101);
    ThresholdIsExact(total, max, PASS_THRESHOLD);
    ScoreIsMonotone(items, better);
    var more := Points(PassedOnes(better));
    ThresholdIsExact(total, max, p);
    ThresholdIsExact(more, max, p);
  }

  // ----- from the file to the score

  lemma {:induction false} PointsOfRows(items: seq<Item>)
    ensures Points(items) == RowPoints(Checks(items))
  {
    if items != [] {
      PointsOfRows(items[..|items| - 1]);
      assert Checks(items)[..|items| - 1] == Checks(items[..|items| - 1]);
    }
  }

  // Grading what a version lists, in any order: the maximum is the number of points in the checks file
  // it was imported from, and the percentage means what it says.
  lemma PointsReachTheScore(listed: seq<CheckRow>, file: seq<Check>, s: Scenario, items: seq<Item>)
    requires WellFormedChecks(file, s)
    requires |listed| == |file| && forall k | 0 <= k < |file| :: Describes(listed[k], file[k])
    requires multiset(Checks(items)) == multiset(listed)
    ensures Points(items) == CheckPoints(file) > 0 && Positive(items) && items != []
    ensures 0 <= Percentage(Some(Points(PassedOnes(items))), Some(CheckPoints(file))) <= 100
    ensures Percentage(Some(Points(PassedOnes(items))), Some(CheckPoints(file))) == 100 <==> AllExitZero(items)
  {
    PointsOfRows(items);
    PointsConserved(listed, file);
    RowPointsIgnoreOrder(Checks(items), listed);
    assert |multiset(Checks(items))| == |items| && |multiset(listed)| == |listed|;
    forall i | 0 <= i < |items| ensures items[i].check.points > 0 {
      assert Checks(items)[i] in multiset(listed);
      var k :| 0 <= k < |listed| && listed[k] == items[i].check;
      assert Describes(listed[k], file[k]) && CheckOk(file[k], s);
    }
    ScoreWithinMax(items);
    PercentageMeansWhatItSays(items, items);
  }
}
