/**
 * The cost aggregator: folds that turn a task tree and cost lists into hours and money.
 * Every numeric field is read through `parseFloat(x) || 0` (ToNumber), so a missing or
 * non-numeric value counts as 0 and no result is ever NaN. Each fold adds the elements from
 * left to right, as `reduce` does.
 */
module CalculateCost {
  import opened JsNumbers
  import opened Records

  /** Every subtask estimate reads as a non-negative number. */
  predicate SubtaskHoursNonNegative(subtasks: seq<Subtask>)
  {
    forall i :: 0 <= i < |subtasks| ==> NonNegative(subtasks[i].hoursEstimate)
  }

  /** Every task and subtask estimate reads as a non-negative number. */
  predicate HoursNonNegative(tasks: seq<Task>)
  {
    forall i :: 0 <= i < |tasks| ==>
      NonNegative(tasks[i].hoursEstimate) && SubtaskHoursNonNegative(tasks[i].subtasks)
  }

  /** Every amount reads as a non-negative number. */
  predicate AmountsNonNegative(costs: seq<Cost>)
  {
    forall i :: 0 <= i < |costs| ==> NonNegative(costs[i].amount)
  }

  predicate TaskAmountsNonNegative(tasks: seq<Task>)
  {
    forall i :: 0 <= i < |tasks| ==> AmountsNonNegative(tasks[i].otherCosts)
  }

  /** The inner `reduce` of `calculateTotalHours`: the sum of the subtasks' estimates. */
  function SubtaskHours(subtasks: seq<Subtask>): real
  {
    if subtasks == [] then 0.0
    else SubtaskHours(subtasks[..|subtasks| - 1]) + ToNumber(subtasks[|subtasks| - 1].hoursEstimate)
  }

  /** The hours one task contributes: its subtasks' hours when it has any, else its own estimate. */
  function TaskHours(t: Task): real
  {
    if |t.subtasks| > 0 then SubtaskHours(t.subtasks) else ToNumber(t.hoursEstimate)
  }

  /** `calculateTotalHours(tasks)`. */
  function TotalHours(tasks: seq<Task>): real
  {
    if tasks == [] then 0.0
    else TotalHours(tasks[..|tasks| - 1]) + TaskHours(tasks[|tasks| - 1])
  }

  /** `calculateOtherCostsTotal(costs)`: the sum of the amounts. */
  function OtherCostsTotal(costs: seq<Cost>): real
  {
    if costs == [] then 0.0
    else OtherCostsTotal(costs[..|costs| - 1]) + ToNumber(costs[|costs| - 1].amount)
  }

  /** `calculateTaskCostsTotal(tasks)`: the sum of each task's own `otherCosts`. */
  function TaskCostsTotal(tasks: seq<Task>): real
  {
    if tasks == [] then 0.0
    else TaskCostsTotal(tasks[..|tasks| - 1]) + OtherCostsTotal(tasks[|tasks| - 1].otherCosts)
  }

  /** `calculateTotalCost(tasks, otherCosts, hourlyRate)`: labour plus project costs plus task costs. */
  function TotalCost(tasks: seq<Task>, otherCosts: seq<Cost>, hourlyRate: Field): real
  {
    TotalHours(tasks) * ToNumber(hourlyRate) + OtherCostsTotal(otherCosts) + TaskCostsTotal(tasks)
  }

  /** `calculateProjectCost(hourlyRate, hoursEstimate)`, the price of a project without tasks. */
  function ProjectCost(hourlyRate: Field, hoursEstimate: Field): real
  {
    ToNumber(hourlyRate) * ToNumber(hoursEstimate)
  }

  // ---- Properties -------------------------------------------------------------------------

  lemma {:induction false} SubtaskHoursNotNegative(subtasks: seq<Subtask>)
    requires SubtaskHoursNonNegative(subtasks)
    ensures SubtaskHours(subtasks) >= 0.0
  {
    if subtasks != [] {
      SubtaskHoursNotNegative(subtasks[..|subtasks| - 1]);
    }
  }

  /** Non-negative estimates give a non-negative number of hours. */
  lemma {:induction false} TotalHoursNonNegative(tasks: seq<Task>)
    requires HoursNonNegative(tasks)
    ensures TotalHours(tasks) >= 0.0
  {
    if tasks != [] {
      TotalHoursNonNegative(tasks[..|tasks| - 1]);
      SubtaskHoursNotNegative(tasks[|tasks| - 1].subtasks);
    }
  }

  /** Non-negative amounts give a non-negative cost total. */
  lemma {:induction false} OtherCostsNonNegative(costs: seq<Cost>)
    requires AmountsNonNegative(costs)
    ensures OtherCostsTotal(costs) >= 0.0
  {
    if costs != [] {
      OtherCostsNonNegative(costs[..|costs| - 1]);
    }
  }

  lemma {:induction false} TaskCostsNonNegative(tasks: seq<Task>)
    requires TaskAmountsNonNegative(tasks)
    ensures TaskCostsTotal(tasks) >= 0.0
  {
    if tasks != [] {
      TaskCostsNonNegative(tasks[..|tasks| - 1]);
      OtherCostsNonNegative(tasks[|tasks| - 1].otherCosts);
    }
  }

  /** With non-negative inputs the total cost is non-negative. */
  lemma TotalCostNonNegative(tasks: seq<Task>, otherCosts: seq<Cost>, hourlyRate: Field)
    requires HoursNonNegative(tasks) && TaskAmountsNonNegative(tasks)
    requires AmountsNonNegative(otherCosts) && NonNegative(hourlyRate)
    ensures TotalCost(tasks, otherCosts, hourlyRate) >= 0.0
  {
    TotalHoursNonNegative(tasks);
    TaskCostsNonNegative(tasks);
    OtherCostsNonNegative(otherCosts);
    ProductNonNegative(TotalHours(tasks), ToNumber(hourlyRate));
  }

  /** With a non-negative rate and estimate the simple project cost is non-negative. */
  lemma ProjectCostNonNegative(hourlyRate: Field, hoursEstimate: Field)
    requires NonNegative(hourlyRate) && NonNegative(hoursEstimate)
    ensures ProjectCost(hourlyRate, hoursEstimate) >= 0.0
  {
    ProductNonNegative(ToNumber(hourlyRate), ToNumber(hoursEstimate));
  }

  lemma ProductNonNegative(a: real, b: real)
    requires a >= 0.0 && b >= 0.0
    ensures a * b >= 0.0
  {
  }

  /** A task that has subtasks contributes their hours; its own estimate is ignored. */
  lemma OwnEstimateIgnoredWithSubtasks(t: Task, h: Field)
    requires |t.subtasks| > 0
    ensures TaskHours(t.(hoursEstimate := h)) == TaskHours(t) == SubtaskHours(t.subtasks)
  {
  }

  /** Total hours are additive over concatenation of task lists. */
  lemma {:induction false} TotalHoursConcat(a: seq<Task>, b: seq<Task>)
    ensures TotalHours(a + b) == TotalHours(a) + TotalHours(b)
  {
    if b == [] {
      assert a + b == a;
    } else {
      assert (a + b)[..|a + b| - 1] == a + b[..|b| - 1];
      TotalHoursConcat(a, b[..|b| - 1]);
    }
  }

  /** Cost totals are additive over concatenation of cost lists. */
  lemma {:induction false} OtherCostsConcat(a: seq<Cost>, b: seq<Cost>)
    ensures OtherCostsTotal(a + b) == OtherCostsTotal(a) + OtherCostsTotal(b)
  {
    if b == [] {
      assert a + b == a;
    } else {
      assert (a + b)[..|a + b| - 1] == a + b[..|b| - 1];
      OtherCostsConcat(a, b[..|b| - 1]);
    }
  }

  /** Task cost totals are additive over concatenation of task lists. */
  lemma {:induction false} TaskCostsConcat(a: seq<Task>, b: seq<Task>)
    ensures TaskCostsTotal(a + b) == TaskCostsTotal(a) + TaskCostsTotal(b)
  {
    if b == [] {
      assert a + b == a;
    } else {
      assert (a + b)[..|a + b| - 1] == a + b[..|b| - 1];
      TaskCostsConcat(a, b[..|b| - 1]);
    }
  }

  /** Appending a task raises the total by that task's labour and its own costs. */
  lemma AppendTaskCost(tasks: seq<Task>, t: Task, otherCosts: seq<Cost>, hourlyRate: Field)
    ensures TotalCost(tasks + [t], otherCosts, hourlyRate)
         == TotalCost(tasks, otherCosts, hourlyRate)
            + TaskHours(t) * ToNumber(hourlyRate) + OtherCostsTotal(t.otherCosts)
  {
    TotalHoursConcat(tasks, [t]);
    TaskCostsConcat(tasks, [t]);
    assert TotalHours([t]) == TaskHours(t) by { assert [t][..0] == []; }
    assert TaskCostsTotal([t]) == OtherCostsTotal(t.otherCosts) by { assert [t][..0] == []; }
    TotalCostFromParts(tasks + [t], otherCosts, hourlyRate, TotalHours(tasks), TaskHours(t),
                       TaskCostsTotal(tasks), OtherCostsTotal(t.otherCosts));
  }

  lemma TotalCostFromParts(tasks: seq<Task>, otherCosts: seq<Cost>, hourlyRate: Field, h: real, dh: real, c: real, dc: real)
    requires TotalHours(tasks) == h + dh && TaskCostsTotal(tasks) == c + dc
    ensures TotalCost(tasks, otherCosts, hourlyRate)
         == h * ToNumber(hourlyRate) + OtherCostsTotal(otherCosts) + c + dh * ToNumber(hourlyRate) + dc
  {
    var r := ToNumber(hourlyRate);
    DistributeRate(h, dh, r);
    assert TotalCost(tasks, otherCosts, hourlyRate) == (h + dh) * r + OtherCostsTotal(otherCosts) + (c + dc);
  }

  lemma DistributeRate(h: real, dh: real, r: real)
    ensures (h + dh) * r == h * r + dh * r
  {
  }

  /** Two tasks that differ at most in their subtasks' `otherCosts`. */
  predicate SameButSubtaskCosts(t: Task, u: Task)
  {
    && t.hoursEstimate == u.hoursEstimate
    && t.otherCosts == u.otherCosts
    && |t.subtasks| == |u.subtasks|
    && forall j :: 0 <= j < |t.subtasks| ==> t.subtasks[j].hoursEstimate == u.subtasks[j].hoursEstimate
  }

  lemma {:induction false} SubtaskHoursIgnoreCosts(s: seq<Subtask>, s': seq<Subtask>)
    requires |s| == |s'|
    requires forall j :: 0 <= j < |s| ==> s[j].hoursEstimate == s'[j].hoursEstimate
    ensures SubtaskHours(s) == SubtaskHours(s')
  {
    if s != [] {
      SubtaskHoursIgnoreCosts(s[..|s| - 1], s'[..|s'| - 1]);
    }
  }

  /** Subtask-level `otherCosts` are never counted: changing them leaves hours and task costs alone. */
  lemma {:induction false} SubtaskCostsNeverCounted(tasks: seq<Task>, tasks': seq<Task>)
    requires |tasks| == |tasks'|
    requires forall i :: 0 <= i < |tasks| ==> SameButSubtaskCosts(tasks[i], tasks'[i])
    ensures TotalHours(tasks) == TotalHours(tasks')
    ensures TaskCostsTotal(tasks) == TaskCostsTotal(tasks')
  {
    if tasks != [] {
      var n := |tasks| - 1;
      SubtaskCostsNeverCounted(tasks[..n], tasks'[..n]);
      SubtaskHoursIgnoreCosts(tasks[n].subtasks, tasks'[n].subtasks);
    }
  }

  /** Hence the total cost of a project does not depend on any subtask's `otherCosts`. */
  lemma TotalCostIgnoresSubtaskCosts(tasks: seq<Task>, tasks': seq<Task>, otherCosts: seq<Cost>, hourlyRate: Field)
    requires |tasks| == |tasks'|
    requires forall i :: 0 <= i < |tasks| ==> SameButSubtaskCosts(tasks[i], tasks'[i])
    ensures TotalCost(tasks, otherCosts, hourlyRate) == TotalCost(tasks', otherCosts, hourlyRate)
  {
    SubtaskCostsNeverCounted(tasks, tasks');
    SamePartsSameTotal(tasks, tasks', otherCosts, hourlyRate);
  }

  lemma SamePartsSameTotal(tasks: seq<Task>, tasks': seq<Task>, otherCosts: seq<Cost>, hourlyRate: Field)
    requires TotalHours(tasks) == TotalHours(tasks')
    requires TaskCostsTotal(tasks) == TaskCostsTotal(tasks')
    ensures TotalCost(tasks, otherCosts, hourlyRate) == TotalCost(tasks', otherCosts, hourlyRate)
  {
  }

  // ---- The unit tests' expected values ----------------------------------------------------

  function N(x: real): Field { Number(Num(x)) }
  function Hours(x: Field): Subtask { Subtask("", x, []) }
  function Amount(x: real): Cost { Cost(0, "", Other, N(x)) }

  /** A task with no subtasks (5h) and one whose subtasks (5h + 2h) override its own 7h: 12h. */
  lemma MixedTasksHours()
    ensures TotalHours([Task("", N(5.0), [], []), Task("", N(7.0), [Hours(N(5.0)), Hours(N(2.0))], [])]) == 12.0
  {
    var s := [Hours(N(5.0)), Hours(N(2.0))];
    assert SubtaskHours(s) == 7.0 by { SubtaskPair(s); }
    TaskPair([Task("", N(5.0), [], []), Task("", N(7.0), s, [])]);
  }

  /** "invalid" and undefined estimates count as 0; only the valid 2h subtask counts: 2h. */
  lemma InvalidValuesHours()
    ensures TotalHours([Task("", Text("invalid", NotANumber), [], []), Task("", Missing, [], []),
                        Task("", N(10.0), [Hours(Text("invalid", NotANumber)), Hours(N(2.0))], [])]) == 2.0
  {
    var s := [Hours(Text("invalid", NotANumber)), Hours(N(2.0))];
    assert SubtaskHours(s) == 2.0 by { SubtaskPair(s); }
    var ts := [Task("", Text("invalid", NotANumber), [], []), Task("", Missing, [], []), Task("", N(10.0), s, [])];
    assert ts[..2] == [ts[0], ts[1]];
    TaskPair(ts[..2]);
  }

  /** Task costs (100 + 50) + 75 = 225, and tasks without costs give 0. */
  lemma TaskCostsExamples()
    ensures TaskCostsTotal([Task("", N(5.0), [], [Amount(100.0), Amount(50.0)]), Task("", N(3.0), [], [Amount(75.0)])]) == 225.0
    ensures TaskCostsTotal([Task("", N(5.0), [], []), Task("", N(3.0), [], [])]) == 0.0
  {
    var c := [Amount(100.0), Amount(50.0)];
    assert OtherCostsTotal(c) == 150.0 by { CostPair(c); }
    assert OtherCostsTotal([Amount(75.0)]) == 75.0 by { CostOne(Amount(75.0)); }
    TaskPair([Task("", N(5.0), [], c), Task("", N(3.0), [], [Amount(75.0)])]);
    TaskPair([Task("", N(5.0), [], []), Task("", N(3.0), [], [])]);
  }

  /** 12h at 25 = 300, plus 200 project costs, plus 225 task costs: 725; and 2h at 10 with no costs: 20. */
  lemma TotalCostExamples()
    ensures TotalCost([Task("", N(5.0), [], [Amount(100.0), Amount(50.0)]),
                       Task("", N(7.0), [Hours(N(5.0)), Hours(N(2.0))], [Amount(75.0)])],
                      [Amount(200.0)], N(25.0)) == 725.0
    ensures TotalCost([Task("", N(2.0), [], [])], [], N(10.0)) == 20.0
  {
    var s := [Hours(N(5.0)), Hours(N(2.0))];
    assert SubtaskHours(s) == 7.0 by { SubtaskPair(s); }
    var c := [Amount(100.0), Amount(50.0)];
    assert OtherCostsTotal(c) == 150.0 by { CostPair(c); }
    assert OtherCostsTotal([Amount(75.0)]) == 75.0 by { CostOne(Amount(75.0)); }
    assert OtherCostsTotal([Amount(200.0)]) == 200.0 by { CostOne(Amount(200.0)); }
    var ts := [Task("", N(5.0), [], c), Task("", N(7.0), s, [Amount(75.0)])];
    TaskPair(ts);
    assert TotalHours(ts) == 12.0;
    assert TaskCostsTotal(ts) == 225.0;
    var one := [Task("", N(2.0), [], [])];
    assert one[..0] == [];
    assert TotalHours(one) == 2.0;
  }

  lemma SubtaskPair(s: seq<Subtask>)
    requires |s| == 2
    ensures SubtaskHours(s) == ToNumber(s[0].hoursEstimate) + ToNumber(s[1].hoursEstimate)
  {
    assert s[..1][..0] == [] && s[..1][0] == s[0];
    assert SubtaskHours(s[..1]) == ToNumber(s[0].hoursEstimate);
  }

  lemma TaskPair(ts: seq<Task>)
    requires |ts| == 2
    ensures TotalHours(ts) == TaskHours(ts[0]) + TaskHours(ts[1])
    ensures TaskCostsTotal(ts) == OtherCostsTotal(ts[0].otherCosts) + OtherCostsTotal(ts[1].otherCosts)
  {
    assert ts[..1][..0] == [] && ts[..1][0] == ts[0];
    assert TotalHours(ts[..1]) == TaskHours(ts[0]);
    assert TaskCostsTotal(ts[..1]) == OtherCostsTotal(ts[0].otherCosts);
  }

  lemma CostPair(c: seq<Cost>)
    requires |c| == 2
    ensures OtherCostsTotal(c) == ToNumber(c[0].amount) + ToNumber(c[1].amount)
  {
    assert c[..1][..0] == [] && c[..1][0] == c[0];
    assert OtherCostsTotal(c[..1]) == ToNumber(c[0].amount);
  }

  lemma CostOne(c: Cost)
    ensures OtherCostsTotal([c]) == ToNumber(c.amount)
  {
    assert [c][..0] == [];
  }

  /** 25 an hour for 12 hours: 300. */
  lemma ProjectCostExample()
    ensures ProjectCost(N(25.0), N(12.0)) == 300.0
  {
  }
}
