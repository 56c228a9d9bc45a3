/**
 * RecurringExpense: a template for an expense that repeats on a fixed
 * frequency. Its cursor nextDueDate is the date of the next occurrence still
 * to be generated. The template is a mutable object; TemplateState is the
 * value of its fields at one moment, and the pure rules below are stated on
 * that value.
 */
module RecurringExpenses {
  import opened Wrappers
  import opened Dates
  import opened Schedule
  import opened Transactions
  import opened Seqs
  import opened Categories

  /**
   * The fields of a template. frequency is None until setFrequency is first
   * called; the text fields hold "" where the Java object still holds null.
   */
  datatype TemplateState = TemplateState(
    id: string,
    amount: int,
    description: string,
    category: string,
    frequency: Option<Frequency>,
    startDate: Date,
    nextDueDate: Date,
    active: bool)

  /** The state right after "new RecurringExpense()" on day today. */
  function NewTemplate(today: Date): TemplateState {
    TemplateState("", 0, "", "", None, today, today, true)
  }

  /** isDue(checkDate): active, and the cursor is on or before checkDate. */
  predicate IsDue(t: TemplateState, checkDate: Date) {
    t.active && (t.nextDueDate == checkDate || Before(t.nextDueDate, checkDate))
  }

  /**
   * The due test is "active and not after": an inactive template is never
   * due, and a due template stays due on every later date.
   */
  lemma IsDueCharacterised(t: TemplateState, d: Date, e: Date)
    ensures IsDue(t, d) <==> t.active && OnOrBefore(t.nextDueDate, d)
    ensures !t.active ==> !IsDue(t, d)
    ensures IsDue(t, d) && OnOrBefore(d, e) ==> IsDue(t, e)
  {
    OrdinalInjective(t.nextDueDate, d);
    OrdinalInjective(t.nextDueDate, e);
  }

  /**
   * updateNextDueDate: nothing happens while the frequency is unset;
   * otherwise the cursor moves one step on from itself.
   */
  function Advance(t: TemplateState): TemplateState {
    match t.frequency
    case None => t
    case Some(f) => t.(nextDueDate := Step(t.nextDueDate, f))
  }

  /** Advancing changes nothing but the cursor, and moves it strictly forward once a frequency is set. */
  lemma AdvanceMovesCursor(t: TemplateState)
    ensures Advance(t).(nextDueDate := t.nextDueDate) == t
    ensures t.frequency.None? ==> Advance(t) == t
    ensures t.frequency.Some? ==> Before(t.nextDueDate, Advance(t).nextDueDate)
  {
    if t.frequency.Some? {
      StepIncreases(t.nextDueDate, t.frequency.value);
    }
  }

  /** updateNextDueDate as written, whose switch has no FOUR_WEEKS case. */
  function AdvanceAsWritten(t: TemplateState): TemplateState {
    match t.frequency
    case None => t
    case Some(f) => t.(nextDueDate := TemplateStepAsWritten(t.nextDueDate, f))
  }

  /** As written, a FOUR_WEEKS template never moves its cursor; all other frequencies agree with Advance. */
  lemma AdvanceAsWrittenStalls(t: TemplateState)
    ensures t.frequency == Some(FourWeeks) ==> AdvanceAsWritten(t) == t && Advance(t) != t
    ensures t.frequency != Some(FourWeeks) ==> AdvanceAsWritten(t) == Advance(t)
  {
    if t.frequency.Some? {
      TemplateStepAsWrittenStalls(t.nextDueDate, t.frequency.value);
      AdvanceMovesCursor(t);
    }
  }

  /**
   * The order in which the console handler builds a template: construct,
   * set the start date while the frequency is still unset (no advance),
   * then set the frequency (one advance). The cursor ends one step after
   * the creation day, whatever start date was chosen.
   */
  lemma CreationIgnoresStartDate(today: Date, start: Date, f: Frequency)
    ensures Advance(Advance(NewTemplate(today).(startDate := start)).(frequency := Some(f))).nextDueDate
         == Step(today, f)
    ensures Advance(Advance(NewTemplate(today).(startDate := start)).(frequency := Some(f))).startDate == start
  {
  }

  function DigitChar(d: nat): char
    requires d < 10
  {
    (48 + d) as char
  }

  /** The decimal digits of n, as Long.toString writes a non-negative number. */
  function NatToDecimal(n: nat): string
    decreases n
  {
    if n < 10 then [DigitChar(n)] else NatToDecimal(n / 10) + [DigitChar(n % 10)]
  }

  predicate IsDigits(s: string) {
    forall i :: 0 <= i < |s| ==> '0' <= s[i] <= '9'
  }

  /** The number a string of decimal digits denotes. */
  function DecimalValue(s: string): nat
    requires IsDigits(s)
  {
    if s == [] then 0 else DecimalValue(s[..|s| - 1]) * 10 + ((s[|s| - 1] as int) - 48)
  }

  /** Reading back the digits gives the number again. */
  lemma {:induction false} DecimalRoundTrip(n: nat)
    ensures IsDigits(NatToDecimal(n)) && DecimalValue(NatToDecimal(n)) == n
    decreases n
  {
    if n >= 10 {
      DecimalRoundTrip(n / 10);
      var s := NatToDecimal(n);
      assert s[..|s| - 1] == NatToDecimal(n / 10);
    }
  }

  /** generateExpenseId: "RE_" + template id + "_" + the clock reading in milliseconds. */
  function ExpenseId(templateId: string, millis: nat): string {
    "RE_" + templateId + "_" + NatToDecimal(millis)
  }

  /** Two occurrences of one template get the same id exactly when they are generated in the same millisecond. */
  lemma ExpenseIdDistinct(templateId: string, m1: nat, m2: nat)
    ensures ExpenseId(templateId, m1) == ExpenseId(templateId, m2) <==> m1 == m2
  {
    if ExpenseId(templateId, m1) == ExpenseId(templateId, m2) {
      var k := |"RE_" + templateId + "_"|;
      assert NatToDecimal(m1) == ExpenseId(templateId, m1)[k..];
      assert NatToDecimal(m2) == ExpenseId(templateId, m2)[k..];
      DecimalRoundTrip(m1);
      DecimalRoundTrip(m2);
    }
  }

  /**
   * createExpenseInstance: a plain expense with the template's amount,
   * description and category, dated at the cursor, with no back-reference.
   */
  function Instance(t: TemplateState, millis: nat): Transaction {
    Expense(ExpenseId(t.id, millis), t.amount, t.nextDueDate, t.description, t.category, None)
  }

  /** The instance copies the template's amount, description and category and is dated at its cursor. */
  lemma InstanceOfTemplate(t: TemplateState, millis: nat)
    ensures var e := Instance(t, millis);
      && e.Expense? && e.originalRecurringId.None?
      && e.amount == t.amount && e.description == t.description && e.category == t.category
      && e.date == t.nextDueDate
      && e.id[..3] == "RE_" && e.id[3..3 + |t.id|] == t.id
  {
  }

  /**
   * One generated occurrence of template t on date d, as the manager builds
   * it: createExpenseInstance, then (catch-up only) setDate(d), then
   * setOriginalRecurringId(t.id).
   */
  function Occurrence(t: TemplateState, d: Date, millis: nat): Transaction {
    Expense(ExpenseId(t.id, millis), t.amount, d, t.description, t.category, Some(t.id))
  }

  /** "not before d" */
  function NotBefore(d: Date): Date -> bool {
    (x: Date) => !Before(x, d)
  }

  /** The step dates from `from` that lie in [lo, hi], in the order the stepping loop visits them. */
  function StepDatesIn(from: Date, f: Frequency, lo: Date, hi: Date): seq<Date> {
    Filter(DatesThrough(from, f, hi), NotBefore(lo))
  }

  /** One iteration of a stepping loop: the current date, kept when it is not before lo, then the rest. */
  lemma StepDatesInCons(current: Date, f: Frequency, lo: Date, hi: Date)
    ensures Before(hi, current) ==> StepDatesIn(current, f, lo, hi) == []
    ensures !Before(hi, current) ==>
      StepDatesIn(current, f, lo, hi) == (if Before(current, lo) then [] else [current]) + StepDatesIn(Step(current, f), f, lo, hi)
  {
    if !Before(hi, current) {
      var rest := DatesThrough(Step(current, f), f, hi);
      StepIncreases(current, f);
      assert DatesThrough(current, f, hi) == [current] + rest;
      FilterAppend([current], rest, NotBefore(lo));
      assert Filter([current], NotBefore(lo)) == (if Before(current, lo) then [] else [current]);
    }
  }

  /** One iteration keeps "what was collected, then the step dates still ahead" unchanged. */
  lemma StepDatesInAccumulate(acc: seq<Date>, current: Date, f: Frequency, lo: Date, hi: Date)
    requires !Before(hi, current)
    ensures acc + StepDatesIn(current, f, lo, hi) ==
      (if Before(current, lo) then acc else acc + [current]) + StepDatesIn(Step(current, f), f, lo, hi)
  {
    var rest := StepDatesIn(Step(current, f), f, lo, hi);
    StepDatesInCons(current, f, lo, hi);
    if !Before(current, lo) {
      assert (acc + [current]) + rest == acc + ([current] + rest);
    } else {
      assert [] + rest == rest;
    }
  }

  /** A date is listed exactly when it is a step date in [lo, hi]; the list is strictly ascending. */
  lemma StepDatesInMembers(from: Date, f: Frequency, lo: Date, hi: Date, x: Date)
    ensures x in StepDatesIn(from, f, lo, hi) <==>
      OnOrBefore(lo, x) && OnOrBefore(x, hi) && exists n: nat :: StepN(from, f, n) == x
    ensures StrictlyAscending(StepDatesIn(from, f, lo, hi))
  {
    var ds := DatesThrough(from, f, hi);
    var r := StepDatesIn(from, f, lo, hi);
    DatesThroughMembers(from, f, hi, x);
    FilterMembers(ds, NotBefore(lo));
    if x in r {
      var i :| 0 <= i < |r| && r[i] == x;
    }
    if x in ds && NotBefore(lo)(x) {
      var i :| 0 <= i < |ds| && ds[i] == x;
    }
    DatesThroughAscending(from, f, hi);
    FilterPairwise(ds, NotBefore(lo), (a: Date, b: Date) => Before(a, b));
  }

  /**
   * The stepping loops below read the frequency (and throw a
   * NullPointerException on an unset one) only when they run at least once,
   * that is when the template is active and its start date is not after the
   * limit.
   */
  predicate SteppingDefined(t: TemplateState, limit: Date) {
    t.frequency.Some? || !t.active || Before(limit, t.startDate)
  }

  /** getDueDatesUpTo(end): the step dates from the start date that lie in [nextDueDate, end]; none when inactive. */
  function DueDates(t: TemplateState, end: Date): seq<Date>
    requires SteppingDefined(t, end)
  {
    if !t.active || Before(end, t.startDate) then []
    else StepDatesIn(t.startDate, t.frequency.value, t.nextDueDate, end)
  }

  /**
   * The due dates are strictly ascending, and a date is among them exactly
   * when the template is active and the date is a step date from the start
   * date lying in [nextDueDate, end].
   */
  lemma DueDatesCharacterised(t: TemplateState, end: Date, x: Date)
    requires SteppingDefined(t, end)
    ensures StrictlyAscending(DueDates(t, end))
    ensures x in DueDates(t, end) <==>
      && t.active && t.frequency.Some?
      && OnOrBefore(t.nextDueDate, x) && OnOrBefore(x, end)
      && exists n: nat :: StepN(t.startDate, t.frequency.value, n) == x
  {
    if t.active && t.frequency.Some? {
      var f := t.frequency.value;
      StepDatesInMembers(t.startDate, f, t.nextDueDate, end, x);
      if Before(end, t.startDate) && exists n: nat :: StepN(t.startDate, f, n) == x {
        var n: nat :| StepN(t.startDate, f, n) == x;
        if n > 0 {
          StepNAscending(t.startDate, f, 0, n);
        }
      }
    }
  }

  /** calculateTotalForDateRange as written: count the step dates from the start date until the first one outside [start, end]. */
  function LeadingCount(from: Date, f: Frequency, start: Date, end: Date): nat
    decreases Ordinal(end) - Ordinal(from)
  {
    if Before(end, from) || Before(from, start) then 0
    else
      StepIncreases(from, f);
      1 + LeadingCount(Step(from, f), f, start, end)
  }

  /** The as-written loop reads the frequency only when the start date lies in [start, end]. */
  predicate LeadingDefined(t: TemplateState, start: Date, end: Date) {
    t.frequency.Some? || !t.active || Before(end, t.startDate) || Before(t.startDate, start)
  }

  function TotalAsWritten(t: TemplateState, start: Date, end: Date): int
    requires LeadingDefined(t, start, end)
  {
    if !t.active then 0
    else if Before(end, t.startDate) || Before(t.startDate, start) then 0
    else LeadingCount(t.startDate, t.frequency.value, start, end) * t.amount
  }

  /** The occurrences of the template in [start, end], times its amount; 0 when inactive. */
  function RangeTotal(t: TemplateState, start: Date, end: Date): int
    requires SteppingDefined(t, end)
  {
    if !t.active || Before(end, t.startDate) then 0
    else |StepDatesIn(t.startDate, t.frequency.value, start, end)| * t.amount
  }

  /** When the window does not begin after the start date, the loop never leaves through its lower bound. */
  lemma {:induction false} LeadingCountFromInside(from: Date, f: Frequency, start: Date, end: Date)
    requires OnOrBefore(start, from)
    ensures LeadingCount(from, f, start, end) == |StepDatesIn(from, f, start, end)|
    decreases Ordinal(end) - Ordinal(from)
  {
    var ds := DatesThrough(from, f, end);
    if !Before(end, from) {
      StepIncreases(from, f);
      var next := Step(from, f);
      LeadingCountFromInside(next, f, start, end);
      assert ds == [from] + DatesThrough(next, f, end);
      FilterAppend([from], DatesThrough(next, f, end), NotBefore(start));
    }
  }

    /** The step dates of that template through 2024-03-31. */
  lemma MarchDatesThrough()
    ensures DatesThrough(CalDate(2024, 1, 15), Monthly, CalDate(2024, 3, 31))
         == [CalDate(2024, 1, 15), CalDate(2024, 2, 15), CalDate(2024, 3, 15)]
  {
    var limit: Date := CalDate(2024, 3, 31);
    var d1: Date := CalDate(2024, 1, 15);
    var d2: Date := CalDate(2024, 2, 15);
    var d3: Date := CalDate(2024, 3, 15);
    var d4: Date := CalDate(2024, 4, 15);
    MonthlySteps2024();
    DatesThroughEmpty(d4, Monthly, limit);
    DatesThroughCons(d3, Monthly, limit);
    DatesThroughCons(d2, Monthly, limit);
    DatesThroughCons(d1, Monthly, limit);
  }

  /**
   * The as-written total agrees with the occurrence count when the start
   * date lies in the window or after it, and is 0 whenever the start date
   * precedes the window.
   */
  lemma TotalAsWrittenCharacterised(t: TemplateState, start: Date, end: Date)
    requires SteppingDefined(t, end)
    ensures LeadingDefined(t, start, end)
    ensures OnOrBefore(start, t.startDate) ==> TotalAsWritten(t, start, end) == RangeTotal(t, start, end)
    ensures Before(t.startDate, start) ==> TotalAsWritten(t, start, end) == 0
  {
    if t.active && !Before(end, t.startDate) && OnOrBefore(start, t.startDate) {
      LeadingCountFromInside(t.startDate, t.frequency.value, start, end);
    }
  }

  lemma MarchStepDates()
    ensures StepDatesIn(CalDate(2024, 1, 15), Monthly, CalDate(2024, 3, 1), CalDate(2024, 3, 31)) == [CalDate(2024, 3, 15)]
  {
    MarchDatesThrough();
    var d1: Date := CalDate(2024, 1, 15);
    var d2: Date := CalDate(2024, 2, 15);
    var d3: Date := CalDate(2024, 3, 15);
    var p := NotBefore(CalDate(2024, 3, 1));
    var ds: seq<Date> := [d1, d2, d3];
    var first: seq<Date> := [d1];
    var two: seq<Date> := [d1, d2];
    assert ds[..2] == two && two[..1] == first;
    assert Filter(first, p) == [];
    assert Filter(two, p) == [];
    assert Filter(ds, p) == [d3];
  }

  /**
   * A monthly template started on 2024-01-15 has an occurrence on
   * 2024-03-15, yet the as-written total for March 2024 is 0.
   */
  lemma TotalAsWrittenMissesOccurrence(amount: int)
    requires amount != 0
    ensures var t := TemplateState("rent", amount, "", "", Some(Monthly), CalDate(2024, 1, 15), CalDate(2024, 1, 15), true);
      && TotalAsWritten(t, CalDate(2024, 3, 1), CalDate(2024, 3, 31)) == 0
      && RangeTotal(t, CalDate(2024, 3, 1), CalDate(2024, 3, 31)) == amount
  {
    MarchStepDates();
  }

  /**
   * The template as an object. Setters that the Java class inherits and
   * that carry no logic (setId, setAmount, setDescription) are plain field
   * assignments here.
   */
  class RecurringExpense {
    var id: string
    var amount: int
    var description: string
    var category: string
    var frequency: Option<Frequency>
    var startDate: Date
    var nextDueDate: Date
    var active: bool

    function State(): TemplateState
      reads this
    {
      TemplateState(id, amount, description, category, frequency, startDate, nextDueDate, active)
    }

    /** new RecurringExpense() on day today: active, started and due today. */
    constructor (today: Date)
      ensures State() == NewTemplate(today)
    {
      id := "";
      amount := 0;
      description := "";
      category := "";
      frequency := None;
      startDate := today;
      nextDueDate := today;
      active := true;
    }

    /** updateNextDueDate */
    method UpdateNextDueDate()
      modifies this
      ensures State() == Advance(old(State()))
    {
      match frequency
      case None =>
      case Some(f) => nextDueDate := Step(nextDueDate, f);
    }

    /** setFrequency: assign, then advance once. */
    method SetFrequency(f: Option<Frequency>)
      modifies this
      ensures State() == Advance(old(State()).(frequency := f))
    {
      frequency := f;
      UpdateNextDueDate();
    }

    /** setStartDate: assign, then advance once. */
    method SetStartDate(d: Date)
      modifies this
      ensures State() == Advance(old(State()).(startDate := d))
    {
      startDate := d;
      UpdateNextDueDate();
    }

    method SetNextDueDate(d: Date)
      modifies this
      ensures State() == old(State()).(nextDueDate := d)
    {
      nextDueDate := d;
    }

    method SetActive(b: bool)
      modifies this
      ensures State() == old(State()).(active := b)
    {
      active := b;
    }

    /** The inherited Expense.setCategory: register the name with the expense registry, then assign it. */
    method SetCategory(c: string, registry: CategoryRegistry)
      modifies this, registry
      ensures State() == old(State()).(category := c)
      ensures registry.names == Ensure(old(registry.names), c)
    {
      if c !in registry.names {
        registry.AddCategory(c);
      }
      category := c;
    }

    /**
     * createExpenseInstance. The new expense's setCategory registers the
     * template's category with the expense registry; the template itself is
     * left unchanged.
     */
    method CreateExpenseInstance(millis: nat, registry: CategoryRegistry) returns (e: Transaction)
      modifies registry
      ensures e == Instance(State(), millis)
      ensures registry.names == Ensure(old(registry.names), category)
    {
      var blank := Expense(ExpenseId(id, millis), amount, nextDueDate, description, "", None);
      e := registry.SetCategory(blank, category);
      e := e.(date := nextDueDate);
    }

    /** isDue */
    function IsDueOn(checkDate: Date): (r: bool)
      reads this
      ensures r == IsDue(State(), checkDate)
    {
      active && (nextDueDate == checkDate || Before(nextDueDate, checkDate))
    }

    /** getDueDatesUpTo: walk the step dates from the start date, keeping those not before the cursor. */
    method GetDueDatesUpTo(end: Date) returns (dueDates: seq<Date>)
      requires SteppingDefined(State(), end)
      ensures dueDates == DueDates(State(), end)
    {
      ghost var t := State();
      var freq, cursor, on := frequency, nextDueDate, active;
      dueDates := [];
      var current := startDate;
      while !Before(end, current) && on
        invariant !on || Before(end, t.startDate) ==> dueDates == [] && current == t.startDate
        invariant on && !Before(end, t.startDate) ==> freq.Some?
        invariant on && !Before(end, t.startDate) ==>
          dueDates + StepDatesIn(current, freq.value, cursor, end) == DueDates(t, end)
        decreases Ordinal(end) - Ordinal(current)
      {
        var f := freq.value;
        StepDatesInAccumulate(dueDates, current, f, cursor, end);
        StepIncreases(current, f);
        if !Before(current, cursor) {
          dueDates := dueDates + [current];
        }
        current := Step(current, f);
      }
      if on && !Before(end, t.startDate) {
        StepDatesInCons(current, freq.value, cursor, end);
      }
    }

    /** calculateTotalForDateRange as written (see TotalAsWrittenMissesOccurrence). */
    method CalculateTotalForDateRange(start: Date, end: Date) returns (total: int)
      requires LeadingDefined(State(), start, end)
      ensures total == TotalAsWritten(State(), start, end)
    {
      if !active {
        return 0;
      }
      var count := 0;
      var current := startDate;
      while !Before(end, current) && !Before(current, start)
        invariant frequency.None? ==> current == startDate && count == 0
        invariant frequency.Some? && !Before(end, startDate) && !Before(startDate, start) ==>
          count + LeadingCount(current, frequency.value, start, end) == LeadingCount(startDate, frequency.value, start, end)
        invariant Before(end, startDate) || Before(startDate, start) ==> count == 0 && current == startDate
        decreases Ordinal(end) - Ordinal(current)
      {
        StepIncreases(current, frequency.value);
        count := count + 1;
        current := Step(current, frequency.value);
      }
      total := count * amount;
    }

    /** calculateTotalForDateRange as evidently intended: count every step date from the start date that lies in [start, end]. */
    method CalculateTotalForDateRangeCorrected(start: Date, end: Date) returns (total: int)
      requires SteppingDefined(State(), end)
      ensures total == RangeTotal(State(), start, end)
    {
      if !active {
        return 0;
      }
      var count := 0;
      var current := startDate;
      while !Before(end, current)
        invariant frequency.None? ==> current == startDate && count == 0
        invariant frequency.Some? && !Before(end, startDate) ==>
          count + |StepDatesIn(current, frequency.value, start, end)| == |StepDatesIn(startDate, frequency.value, start, end)|
        invariant Before(end, startDate) ==> count == 0
        decreases Ordinal(end) - Ordinal(current)
      {
        var f := frequency.value;
        StepDatesInCons(current, f, start, end);
        StepIncreases(current, f);
        if !Before(current, start) {
          count := count + 1;
        }
        current := Step(current, f);
      }
      if !Before(end, startDate) {
        StepDatesInCons(current, frequency.value, start, end);
      }
      total := count * amount;
    }
  }
}
