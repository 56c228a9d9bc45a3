/**
 * The frequencies of a recurring expense, the step rule that moves a due date
 * on by one period, and the sequence of due dates a step rule produces.
 */
module Schedule {
  import opened Dates

  datatype Frequency = Daily | Weekly | FourWeeks | Monthly | Quarterly | Yearly

  /** The user-facing names, in the order getAvailableFrequencies lists them. */
  function DisplayName(f: Frequency): string {
    match f
    case Daily => "Daily"
    case Weekly => "Weekly"
    case FourWeeks => "4 Weeks"
    case Monthly => "Monthly"
    case Quarterly => "Quarterly"
    case Yearly => "Yearly"
  }

  /**
   * One period after d: +1 day, +1 week, +4 weeks, +1 month, +3 months or
   * +1 year, month and year steps clamping the day of month.
   */
  function Step(d: Date, f: Frequency): Date {
    match f
    case Daily => PlusDays(d, 1)
    case Weekly => PlusWeeks(d, 1)
    case FourWeeks => PlusWeeks(d, 4)
    case Monthly => PlusMonths(d, 1)
    case Quarterly => PlusMonths(d, 3)
    case Yearly => PlusYears(d, 1)
  }

  /** Every frequency moves the date strictly forward. */
  lemma StepIncreases(d: Date, f: Frequency)
    ensures Before(d, Step(d, f))
  {
    match f
    case Daily => PlusDaysForward(d, 1);
    case Weekly => PlusDaysForward(d, 7);
    case FourWeeks => PlusDaysForward(d, 28);
    case Monthly => PlusMonthsForward(d, 1);
    case Quarterly => PlusMonthsForward(d, 3);
    case Yearly => PlusYearsForward(d, 1);
  }

  /**
   * The step as the template and the manager write it: their switch has no
   * FOUR_WEEKS case, so that frequency falls through to "return date".
   */
  function TemplateStepAsWritten(d: Date, f: Frequency): Date {
    match f
    case Daily => PlusDays(d, 1)
    case Weekly => PlusWeeks(d, 1)
    case Monthly => PlusMonths(d, 1)
    case Quarterly => PlusMonths(d, 3)
    case Yearly => PlusYears(d, 1)
    case FourWeeks => d
  }

  /** The as-written step agrees with Step except on FOUR_WEEKS, where it does not move. */
  lemma TemplateStepAsWrittenStalls(d: Date, f: Frequency)
    ensures f != FourWeeks ==> TemplateStepAsWritten(d, f) == Step(d, f)
    ensures f == FourWeeks ==> TemplateStepAsWritten(d, f) == d && Before(d, Step(d, f))
  {
    if f == FourWeeks {
      StepIncreases(d, f);
    }
  }

  /** The as-written step applied n times. */
  function AsWrittenStepN(d: Date, f: Frequency, n: nat): Date
    decreases n
  {
    if n == 0 then d else AsWrittenStepN(TemplateStepAsWritten(d, f), f, n - 1)
  }

  /**
   * The catch-up loop "while (!current.isAfter(today)) current = step(current)"
   * never exits for a FOUR_WEEKS template that is due: after any number of
   * iterations the cursor is still on or before today.
   */
  lemma {:induction false} AsWrittenCatchUpNeverEnds(d: Date, today: Date, n: nat)
    requires OnOrBefore(d, today)
    ensures AsWrittenStepN(d, FourWeeks, n) == d
    ensures OnOrBefore(AsWrittenStepN(d, FourWeeks, n), today)
  {
    if n > 0 {
      AsWrittenCatchUpNeverEnds(d, today, n - 1);
    }
  }

  /** A step on dates that always moves strictly forward. */
  ghost predicate Increasing(step: Date -> Date) {
    forall y :: Before(y, step(y))
  }

  /** step applied n times to d. */
  function Iterate(step: Date -> Date, d: Date, n: nat): Date
    decreases n
  {
    if n == 0 then d else Iterate(step, step(d), n - 1)
  }

  lemma {:induction false} IterateSucc(step: Date -> Date, d: Date, n: nat)
    ensures Iterate(step, d, n + 1) == step(Iterate(step, d, n))
    decreases n
  {
    if n > 0 {
      IterateSucc(step, step(d), n - 1);
    }
  }

  /** Iterating a strictly increasing step gives strictly increasing dates. */
  lemma {:induction false} IterateAscending(step: Date -> Date, d: Date, i: nat, j: nat)
    requires Increasing(step) && i < j
    ensures Before(Iterate(step, d, i), Iterate(step, d, j))
    decreases j
  {
    IterateSucc(step, d, j - 1);
    assert Before(Iterate(step, d, j - 1), step(Iterate(step, d, j - 1)));
    if i < j - 1 {
      IterateAscending(step, d, i, j - 1);
    }
  }

  /** The step rule of one frequency, as a function on dates. */
  function StepBy(f: Frequency): Date -> Date {
    d => Step(d, f)
  }

  lemma StepByIncreasing(f: Frequency)
    ensures Increasing(StepBy(f))
  {
    forall y: Date
      ensures Before(y, StepBy(f)(y))
    {
      StepIncreases(y, f);
    }
  }

  /** The step applied n times. */
  function StepN(d: Date, f: Frequency, n: nat): Date {
    Iterate(StepBy(f), d, n)
  }

  lemma StepNSucc(d: Date, f: Frequency, n: nat)
    ensures StepN(d, f, n + 1) == Step(StepN(d, f, n), f)
  {
    IterateSucc(StepBy(f), d, n);
  }

  /** Later steps give strictly later dates. */
  lemma StepNAscending(d: Date, f: Frequency, i: nat, j: nat)
    requires i < j
    ensures Before(StepN(d, f, i), StepN(d, f, j))
  {
    StepByIncreasing(f);
    IterateAscending(StepBy(f), d, i, j);
  }

  /**
   * The step dates from, Step(from), ... that are on or before limit: the
   * dates "while (!current.isAfter(limit)) { ...; current = step(current); }"
   * visits.
   */
  function DatesThrough(from: Date, f: Frequency, limit: Date): seq<Date>
    decreases Ordinal(limit) - Ordinal(from)
  {
    if Before(limit, from) then []
    else
      StepIncreases(from, f);
      [from] + DatesThrough(Step(from, f), f, limit)
  }

  /** The first step date after limit: where such a loop leaves current. */
  function FirstAfter(from: Date, f: Frequency, limit: Date): Date
    decreases Ordinal(limit) - Ordinal(from)
  {
    if Before(limit, from) then from
    else
      StepIncreases(from, f);
      FirstAfter(Step(from, f), f, limit)
  }

  predicate StrictlyAscending(s: seq<Date>) {
    forall i, j :: 0 <= i < j < |s| ==> Before(s[i], s[j])
  }

  /**
   * The visited dates are the first |DatesThrough| step dates, all on or
   * before limit, and the cursor ends on the next step date, which is after
   * limit: exactly one visit per period, none skipped.
   */
  lemma {:induction false} DatesThroughSteps(from: Date, f: Frequency, limit: Date)
    ensures var ds := DatesThrough(from, f, limit);
      && (forall i :: 0 <= i < |ds| ==> ds[i] == StepN(from, f, i) && OnOrBefore(ds[i], limit))
      && FirstAfter(from, f, limit) == StepN(from, f, |ds|)
      && Before(limit, FirstAfter(from, f, limit))
    decreases Ordinal(limit) - Ordinal(from)
  {
    if !Before(limit, from) {
      StepIncreases(from, f);
      var next := Step(from, f);
      DatesThroughSteps(next, f, limit);
      var ds := DatesThrough(from, f, limit);
      var rest := DatesThrough(next, f, limit);
      assert ds == [from] + rest;
      forall i | 0 <= i < |ds|
        ensures ds[i] == StepN(from, f, i) && OnOrBefore(ds[i], limit)
      {
        if i > 0 {
          assert ds[i] == rest[i - 1];
        }
      }
    }
  }

  /** The k-th step date is visited exactly when it is on or before limit. */
  lemma DatesThroughIndex(from: Date, f: Frequency, limit: Date, k: nat)
    ensures OnOrBefore(StepN(from, f, k), limit) <==> k < |DatesThrough(from, f, limit)|
  {
    var ds := DatesThrough(from, f, limit);
    DatesThroughSteps(from, f, limit);
    if k > |ds| {
      StepNAscending(from, f, |ds|, k);
    }
  }

  /** The visited dates are strictly ascending. */
  lemma DatesThroughAscending(from: Date, f: Frequency, limit: Date)
    ensures StrictlyAscending(DatesThrough(from, f, limit))
  {
    var ds := DatesThrough(from, f, limit);
    DatesThroughSteps(from, f, limit);
    forall i, j | 0 <= i < j < |ds|
      ensures Before(ds[i], ds[j])
    {
      StepNAscending(from, f, i, j);
    }
  }

  /** A date is visited exactly when it is a step date from `from` that is on or before limit. */
  lemma DatesThroughMembers(from: Date, f: Frequency, limit: Date, x: Date)
    ensures x in DatesThrough(from, f, limit) <==>
      OnOrBefore(x, limit) && exists n: nat :: StepN(from, f, n) == x
  {
    var ds := DatesThrough(from, f, limit);
    DatesThroughSteps(from, f, limit);
    if x in ds {
      var i :| 0 <= i < |ds| && ds[i] == x;
      var k: nat := i;
      assert StepN(from, f, k) == x;
    }
    if OnOrBefore(x, limit) && exists n: nat :: StepN(from, f, n) == x {
      var n: nat :| StepN(from, f, n) == x;
      DatesThroughIndex(from, f, limit, n);
      assert n < |ds| && ds[n] == x;
    }
  }

  /** A cursor already after limit visits nothing and stays put. */
  lemma DatesThroughEmpty(from: Date, f: Frequency, limit: Date)
    requires Before(limit, from)
    ensures DatesThrough(from, f, limit) == [] && FirstAfter(from, f, limit) == from
  {
  }

  /** Running the loop again from where it stopped visits nothing. */
  lemma FirstAfterIsFixed(from: Date, f: Frequency, limit: Date)
    ensures DatesThrough(FirstAfter(from, f, limit), f, limit) == []
    ensures FirstAfter(FirstAfter(from, f, limit), f, limit) == FirstAfter(from, f, limit)
  {
    DatesThroughSteps(from, f, limit);
  }

  /** Month and year steps clamp to the end of a shorter month; the clamped day then carries on. */
  lemma ClampingExamples()
    ensures Step(CalDate(2024, 1, 31), Monthly) == CalDate(2024, 2, 29)
    ensures Step(CalDate(2023, 1, 31), Monthly) == CalDate(2023, 2, 28)
    ensures Step(CalDate(2024, 2, 29), Monthly) == CalDate(2024, 3, 29)
    ensures Step(CalDate(2023, 11, 30), Quarterly) == CalDate(2024, 2, 29)
    ensures Step(CalDate(2024, 2, 29), Yearly) == CalDate(2025, 2, 28)
  {
  }

  /** One iteration of the loop: a cursor on or before limit is visited, and the loop goes on from the next step. */
  lemma DatesThroughCons(from: Date, f: Frequency, limit: Date)
    requires OnOrBefore(from, limit)
    ensures DatesThrough(from, f, limit) == [from] + DatesThrough(Step(from, f), f, limit)
    ensures FirstAfter(from, f, limit) == FirstAfter(Step(from, f), f, limit)
  {
  }

  /** Monthly steps from the 15th in the first months of 2024 keep the day. */
  lemma MonthlySteps2024()
    ensures Step(CalDate(2024, 1, 15), Monthly) == CalDate(2024, 2, 15)
    ensures Step(CalDate(2024, 2, 15), Monthly) == CalDate(2024, 3, 15)
    ensures Step(CalDate(2024, 3, 15), Monthly) == CalDate(2024, 4, 15)
    ensures Step(CalDate(2024, 4, 15), Monthly) == CalDate(2024, 5, 15)
  {
  }

  /** A monthly schedule from 2024-01-15 caught up on 2024-04-20 visits four dates and stops on 2024-05-15. */
  lemma CatchUpExample()
    ensures DatesThrough(CalDate(2024, 1, 15), Monthly, CalDate(2024, 4, 20))
         == [CalDate(2024, 1, 15), CalDate(2024, 2, 15), CalDate(2024, 3, 15), CalDate(2024, 4, 15)]
    ensures FirstAfter(CalDate(2024, 1, 15), Monthly, CalDate(2024, 4, 20)) == CalDate(2024, 5, 15)
  {
    var limit: Date := CalDate(2024, 4, 20);
    var d1: Date := CalDate(2024, 1, 15);
    var d2: Date := CalDate(2024, 2, 15);
    var d3: Date := CalDate(2024, 3, 15);
    var d4: Date := CalDate(2024, 4, 15);
    var d5: Date := CalDate(2024, 5, 15);
    MonthlySteps2024();
    DatesThroughEmpty(d5, Monthly, limit);
    DatesThroughCons(d4, Monthly, limit);
    DatesThroughCons(d3, Monthly, limit);
    DatesThroughCons(d2, Monthly, limit);
    DatesThroughCons(d1, Monthly, limit);
  }
}
