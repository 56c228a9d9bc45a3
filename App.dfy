/**
 * The startup reconciler of the console application: on start it looks for
 * active templates whose cursor lies between 2020-01-01 and yesterday, asks
 * whether any of them still has a step date through today without a
 * generated expense in the ledger, and if so runs the catch-up unless the
 * user answers "no". The step rule it uses is Schedule.Step, which has the
 * four-weekly case.
 */
module App {
  import opened Wrappers
  import opened Dates
  import opened Schedule
  import opened Transactions
  import opened RecurringExpenses
  import opened RecurringExpenseManagers

  /** t is an expense generated from template id for date d. */
  predicate GeneratedFor(t: Transaction, id: string, d: Date) {
    t.Expense? && t.originalRecurringId == Some(id) && t.date == d
  }

  /** hasExpenseForRecurringAndDate, over the ledger's transactions. */
  function HasExpenseFor(ledger: seq<Transaction>, id: string, d: Date): (r: bool)
    ensures r <==> exists i :: 0 <= i < |ledger| && GeneratedFor(ledger[i], id, d)
  {
    if ledger == [] then false
    else
      var init := ledger[..|ledger| - 1];
      assert forall i :: 0 <= i < |init| ==> init[i] == ledger[i];
      GeneratedFor(ledger[|ledger| - 1], id, d) || HasExpenseFor(init, id, d)
  }

  /** Appending transactions never removes a match. */
  lemma HasExpenseForAppend(ledger: seq<Transaction>, more: seq<Transaction>, id: string, d: Date)
    requires HasExpenseFor(ledger, id, d)
    ensures HasExpenseFor(ledger + more, id, d)
  {
    var i :| 0 <= i < |ledger| && GeneratedFor(ledger[i], id, d);
    assert (ledger + more)[i] == ledger[i];
  }

  /**
   * The periods the reconciler looks at: the step dates from the cursor
   * through today. A template without a frequency has none here; stepping
   * it throws in the Java code, and the methods below exclude it.
   */
  function PeriodsThrough(t: TemplateState, today: Date): seq<Date> {
    MissedDates(t, today)
  }

  /** Some period of t through today has no generated expense in the ledger. */
  predicate Unprocessed(t: TemplateState, ledger: seq<Transaction>, today: Date) {
    exists k :: 0 <= k < |PeriodsThrough(t, today)| && !HasExpenseFor(ledger, t.id, PeriodsThrough(t, today)[k])
  }

  /**
   * The anyMatch lambda of processOverdueOnStartup: walk the step dates
   * from the cursor while they are not after today and report the first
   * one without a generated expense.
   */
  method HasUnprocessedPeriod(t: TemplateState, ledger: seq<Transaction>, today: Date) returns (r: bool)
    requires t.frequency.Some?
    ensures r == Unprocessed(t, ledger, today)
  {
    var f := t.frequency.value;
    ghost var ds := PeriodsThrough(t, today);
    ghost var done: seq<Date> := [];
    var current := t.nextDueDate;
    while !Before(today, current)
      invariant ds == done + DatesThrough(current, f, today)
      invariant forall j :: 0 <= j < |done| ==> HasExpenseFor(ledger, t.id, done[j])
      decreases Ordinal(today) - Ordinal(current)
    {
      VisitNext(f, today, ds, done, current);
      if !HasExpenseFor(ledger, t.id, current) {
        return true;
      }
      done := done + [current];
      current := Step(current, f);
    }
    DatesThroughEmpty(current, f, today);
    assert done + [] == done;
    return false;
  }

  /** The first day the startup scan looks at. */
  const ScanFrom: Date := CalDate(2020, 1, 1)

  /** The templates the startup scan inspects: getRecurringExpensesDueBetween(2020-01-01, today.minusDays(1)). */
  function StartupCandidates(ts: seq<TemplateState>, today: Date): seq<TemplateState> {
    DueBetween(ts, ScanFrom, PrevDay(today))
  }

  /** The scan sees exactly the active templates whose cursor is on or after 2020-01-01 and strictly before today. */
  lemma StartupCandidatesCharacterised(ts: seq<TemplateState>, today: Date)
    ensures forall t :: t in StartupCandidates(ts, today) <==>
      t in ts && t.active && OnOrBefore(ScanFrom, t.nextDueDate) && Before(t.nextDueDate, today)
  {
    DueBetweenCharacterised(ts, ScanFrom, PrevDay(today));
    forall t: TemplateState
      ensures OnOrBefore(t.nextDueDate, PrevDay(today)) <==> Before(t.nextDueDate, today)
    {
      PrevDayIsLatestBefore(today, t.nextDueDate);
    }
  }

  /** Every template the scan sees is overdue, so it has a frequency when the overdue ones do. */
  lemma CandidatesHaveFrequency(ts: seq<TemplateState>, today: Date)
    requires OverdueHaveFrequency(ts, today)
    ensures forall t :: t in StartupCandidates(ts, today) ==> Overdue(t, today) && t.frequency.Some?
  {
    StartupCandidatesCharacterised(ts, today);
    forall t | t in StartupCandidates(ts, today)
      ensures Overdue(t, today) && t.frequency.Some?
    {
      var i :| 0 <= i < |ts| && ts[i] == t;
    }
  }

  /** Some template the scan sees has an unprocessed period. */
  predicate NeedsCatchUp(ts: seq<TemplateState>, ledger: seq<Transaction>, today: Date) {
    var cs := StartupCandidates(ts, today);
    exists i :: 0 <= i < |cs| && Unprocessed(cs[i], ledger, today)
  }

  /** overdueExpenses.stream().anyMatch(...): stop at the first candidate with an unprocessed period. */
  method AnyUnprocessed(cs: seq<TemplateState>, ledger: seq<Transaction>, today: Date) returns (r: bool)
    requires forall i :: 0 <= i < |cs| ==> cs[i].frequency.Some?
    ensures r <==> exists i :: 0 <= i < |cs| && Unprocessed(cs[i], ledger, today)
  {
    var i := 0;
    while i < |cs|
      invariant i <= |cs|
      invariant forall j :: 0 <= j < i ==> !Unprocessed(cs[j], ledger, today)
    {
      var u := HasUnprocessedPeriod(cs[i], ledger, today);
      if u {
        return true;
      }
      i := i + 1;
    }
    return false;
  }

  function AsciiLower(c: char): char {
    if 'A' <= c <= 'Z' then (c as int + 32) as char else c
  }

  /**
   * "no".equalsIgnoreCase(choice). No character other than 'N' and 'n'
   * (and 'O' and 'o') folds to 'n' (and 'o') under Java's per-character
   * case comparison, so folding ASCII letters is exact here.
   */
  predicate IsNo(answer: string) {
    |answer| == 2 && AsciiLower(answer[0]) == 'n' && AsciiLower(answer[1]) == 'o'
  }

  /** Only the four spellings of "no" decline; an empty answer (the default) and "yes" accept. */
  lemma IsNoExactly(answer: string)
    ensures IsNo(answer) <==> answer in {"no", "No", "nO", "NO"}
    ensures !IsNo("") && !IsNo("yes") && !IsNo("n")
  {
    if IsNo(answer) {
      assert answer == [answer[0], answer[1]];
    }
  }

  /**
   * After the catch-up every period through today of every template that
   * was overdue has its generated expense in the ledger.
   */
  lemma CatchUpProcessesEveryPeriod(ts: seq<TemplateState>, ledger: seq<Transaction>, today: Date, millis: nat, i: nat)
    requires OverdueHaveFrequency(ts, today)
    requires i < |ts| && Overdue(ts[i], today)
    ensures !Unprocessed(ts[i], ledger + CatchUpGenerated(ts, today, millis), today)
  {
    var gen := CatchUpGenerated(ts, today, millis);
    var l := ledger + gen;
    var ds := PeriodsThrough(ts[i], today);
    forall k | 0 <= k < |ds|
      ensures HasExpenseFor(l, ts[i].id, ds[k])
    {
      CatchUpBackfills(ts, today, millis, i, k);
      var g := Occurrence(ts[i], ds[k], millis);
      var j :| 0 <= j < |gen| && gen[j] == g;
      assert l[|ledger| + j] == g;
    }
  }

  /** Once caught up, the scan sees no template, so starting again changes nothing. */
  lemma CatchUpSettlesStartup(ts: seq<TemplateState>, ledger: seq<Transaction>, today: Date)
    requires OverdueHaveFrequency(ts, today)
    ensures forall t :: t !in StartupCandidates(CatchUpAll(ts, today), today)
    ensures !NeedsCatchUp(CatchUpAll(ts, today), ledger, today)
  {
    var after := CatchUpAll(ts, today);
    CatchUpLeavesNothingOverdue(ts, today);
    StartupCandidatesCharacterised(after, today);
  }

  /**
   * processOverdueOnStartup, with today, the user's answer and the id clock
   * as parameters; it returns what the catch-up generated, nothing when the
   * catch-up did not run. The catch-up runs exactly when some template the
   * scan sees has an unprocessed period and the answer is not "no".
   */
  method ProcessOverdueOnStartup(mgr: RecurringExpenseManager, today: Date, answer: string, millis: nat)
    returns (generated: seq<Transaction>)
    requires mgr.Valid() && OverdueHaveFrequency(mgr.Snapshot(), today)
    modifies mgr, mgr.templates, mgr.ledger, mgr.expenseCategories
    ensures mgr.Valid() && mgr.templates == old(mgr.templates)
    ensures var run := NeedsCatchUp(old(mgr.Snapshot()), old(mgr.ledger.transactions), today) && !IsNo(answer);
      && generated == (if run then CatchUpGenerated(old(mgr.Snapshot()), today, millis) else [])
      && mgr.Snapshot() == (if run then CatchUpAll(old(mgr.Snapshot()), today) else old(mgr.Snapshot()))
    ensures mgr.ledger.transactions == old(mgr.ledger.transactions) + generated
    ensures mgr.expenseCategories.names == RegisterAll(old(mgr.expenseCategories.names), generated)
    ensures mgr.saves == old(mgr.saves) + (if generated == [] then 0 else 1)
  {
    var cs := mgr.GetRecurringExpensesDueBetween(ScanFrom, PrevDay(today));
    generated := [];
    if cs != [] {
      CandidatesHaveFrequency(mgr.Snapshot(), today);
      assert forall i :: 0 <= i < |cs| ==> cs[i] in cs;
      var any := AnyUnprocessed(cs, mgr.ledger.transactions, today);
      if any && !IsNo(answer) {
        generated := mgr.ProcessOverdueRecurringExpenses(today, millis);
      }
    }
  }
}
