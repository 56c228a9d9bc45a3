/**
 * RecurringExpenseManager: the list of templates, its queries and
 * aggregates, and the two generators that turn due templates into ledger
 * expenses. The pure rules are stated on snapshots (sequences of
 * TemplateState); the class holds the template objects and states each
 * operation's effect through them.
 */
module RecurringExpenseManagers {
  import opened Wrappers
  import opened Dates
  import opened Schedule
  import opened Transactions
  import opened Seqs
  import opened Grouping
  import opened Categories
  import Ledger
  import opened RecurringExpenses

  // ---------------------------------------------------------------------
  // Queries

  function IsActive(): TemplateState -> bool {
    (t: TemplateState) => t.active
  }

  /** getActiveRecurringExpenses */
  function Active(ts: seq<TemplateState>): seq<TemplateState> {
    Filter(ts, IsActive())
  }

  function DueAt(d: Date): TemplateState -> bool {
    (t: TemplateState) => IsDue(t, d)
  }

  /** getRecurringExpensesDueOn */
  function DueOn(ts: seq<TemplateState>, d: Date): seq<TemplateState> {
    Filter(ts, DueAt(d))
  }

  function CursorWithin(lo: Date, hi: Date): TemplateState -> bool {
    (t: TemplateState) => !Before(t.nextDueDate, lo) && !Before(hi, t.nextDueDate)
  }

  /** getRecurringExpensesDueBetween: the active ones, then those whose cursor lies in [lo, hi]. */
  function DueBetween(ts: seq<TemplateState>, lo: Date, hi: Date): seq<TemplateState> {
    Filter(Active(ts), CursorWithin(lo, hi))
  }

  function CursorKey(): TemplateState -> int {
    (t: TemplateState) => Ordinal(t.nextDueDate)
  }

  /** getUpcomingRecurringExpenses(daysAhead), with the current day as a parameter. */
  function Upcoming(ts: seq<TemplateState>, today: Date, daysAhead: int): seq<TemplateState> {
    SortBy(DueBetween(ts, today, PlusDays(today, daysAhead)), CursorKey())
  }

  /** findRecurringExpenseById: the index of the first template with the id. */
  function FindIndex(ts: seq<TemplateState>, id: string): (r: Option<nat>)
    ensures r.Some? ==> r.value < |ts| && ts[r.value].id == id
    ensures r.Some? ==> forall j :: 0 <= j < r.value ==> ts[j].id != id
    ensures r.None? <==> forall j :: 0 <= j < |ts| ==> ts[j].id != id
  {
    if ts == [] then None
    else if ts[0].id == id then Some(0)
    else
      match FindIndex(ts[1..], id)
      case None => None
      case Some(k) => Some(k + 1)
  }

  function Find(ts: seq<TemplateState>, id: string): Option<TemplateState> {
    match FindIndex(ts, id)
    case None => None
    case Some(i) => Some(ts[i])
  }

  /** The active templates, in list order. */
  lemma ActiveCharacterised(ts: seq<TemplateState>)
    ensures IsSubseq(Active(ts), ts)
    ensures forall t :: t in Active(ts) <==> t in ts && t.active
  {
    FilterIsSubseq(ts, IsActive());
    FilterMembers(ts, IsActive());
    forall t | t in ts && t.active
      ensures t in Active(ts)
    {
      var i :| 0 <= i < |ts| && ts[i] == t;
    }
  }

  /** The templates due on d are the active ones whose cursor is on or before d, in list order. */
  lemma DueOnCharacterised(ts: seq<TemplateState>, d: Date)
    ensures IsSubseq(DueOn(ts, d), ts)
    ensures forall t :: t in DueOn(ts, d) <==> t in ts && t.active && OnOrBefore(t.nextDueDate, d)
  {
    FilterIsSubseq(ts, DueAt(d));
    FilterMembers(ts, DueAt(d));
    forall t | t in ts
      ensures t in DueOn(ts, d) <==> t.active && OnOrBefore(t.nextDueDate, d)
    {
      IsDueCharacterised(t, d, d);
      var i :| 0 <= i < |ts| && ts[i] == t;
      if t in DueOn(ts, d) {
        var j :| 0 <= j < |DueOn(ts, d)| && DueOn(ts, d)[j] == t;
      }
    }
    forall t | t in DueOn(ts, d)
      ensures t in ts
    {
      var j :| 0 <= j < |DueOn(ts, d)| && DueOn(ts, d)[j] == t;
    }
  }

  /** The templates due between lo and hi are exactly the active ones with lo <= cursor <= hi, in list order. */
  lemma DueBetweenCharacterised(ts: seq<TemplateState>, lo: Date, hi: Date)
    ensures IsSubseq(DueBetween(ts, lo, hi), ts)
    ensures forall t :: t in DueBetween(ts, lo, hi) <==>
      t in ts && t.active && OnOrBefore(lo, t.nextDueDate) && OnOrBefore(t.nextDueDate, hi)
  {
    var a := Active(ts);
    ActiveCharacterised(ts);
    FilterIsSubseq(a, CursorWithin(lo, hi));
    SubseqTransitive(DueBetween(ts, lo, hi), a, ts);
    FilterMembers(a, CursorWithin(lo, hi));
    var r := DueBetween(ts, lo, hi);
    forall t | t in r
      ensures t in a && CursorWithin(lo, hi)(t)
    {
      var j :| 0 <= j < |r| && r[j] == t;
    }
    forall t | t in a && CursorWithin(lo, hi)(t)
      ensures t in r
    {
      var i :| 0 <= i < |a| && a[i] == t;
    }
  }

  /**
   * The upcoming list holds the templates due between today and
   * today + daysAhead, sorted by cursor, and templates with the same cursor
   * stay in list order.
   */
  lemma UpcomingCharacterised(ts: seq<TemplateState>, today: Date, daysAhead: int, k: int)
    ensures var u := Upcoming(ts, today, daysAhead);
      && multiset(u) == multiset(DueBetween(ts, today, PlusDays(today, daysAhead)))
      && (forall i, j :: 0 <= i < j < |u| ==> OnOrBefore(u[i].nextDueDate, u[j].nextDueDate))
      && Filter(u, KeyIs(CursorKey(), k)) == Filter(DueBetween(ts, today, PlusDays(today, daysAhead)), KeyIs(CursorKey(), k))
  {
    var b := DueBetween(ts, today, PlusDays(today, daysAhead));
    SortByProperties(b, CursorKey());
    SortByStable(b, CursorKey(), k);
    var u := Upcoming(ts, today, daysAhead);
    forall i, j | 0 <= i < j < |u|
      ensures OnOrBefore(u[i].nextDueDate, u[j].nextDueDate)
    {
      assert CursorKey()(u[i]) <= CursorKey()(u[j]);
    }
  }

  /** With a negative look-ahead the window is empty. */
  lemma UpcomingNegativeWindow(ts: seq<TemplateState>, today: Date, daysAhead: int)
    requires daysAhead < 0
    ensures Upcoming(ts, today, daysAhead) == []
  {
    var hi := PlusDays(today, daysAhead);
    PlusDaysBackward(today, daysAhead);
    var a := Active(ts);
    FilterNone(a, CursorWithin(today, hi));
  }

  lemma {:induction false} SubseqTransitive<T>(a: seq<T>, b: seq<T>, c: seq<T>)
    requires IsSubseq(a, b) && IsSubseq(b, c)
    ensures IsSubseq(a, c)
    decreases |c|
  {
    if a != [] && c != [] {
      var ci := c[..|c| - 1];
      if b[|b| - 1] == c[|c| - 1] && IsSubseq(b[..|b| - 1], ci) {
        if a[|a| - 1] == b[|b| - 1] && IsSubseq(a[..|a| - 1], b[..|b| - 1]) {
          SubseqTransitive(a[..|a| - 1], b[..|b| - 1], ci);
        } else {
          SubseqTransitive(a, b[..|b| - 1], ci);
        }
      } else {
        SubseqTransitive(a, b, ci);
      }
    }
  }

  function CategoryOfTemplate(t: TemplateState): string { t.category }

  function AmountOfTemplate(t: TemplateState): int { t.amount }

  /** getRecurringExpensesByCategory: amounts of the active templates summed per category. */
  function ByCategory(ts: seq<TemplateState>): map<string, int> {
    GroupSum(Active(ts), CategoryOfTemplate, AmountOfTemplate)
  }

  /** The keys are exactly the categories of the active templates. */
  lemma ByCategoryKeys(ts: seq<TemplateState>, c: string)
    ensures c in ByCategory(ts) <==> exists i :: 0 <= i < |ts| && ts[i].active && ts[i].category == c
  {
    var a := Active(ts);
    GroupSumKeys(a, CategoryOfTemplate, AmountOfTemplate);
    ActiveCharacterised(ts);
    if c in ByCategory(ts) {
      var j :| 0 <= j < |a| && CategoryOfTemplate(a[j]) == c;
      assert a[j] in a;
      var i :| 0 <= i < |ts| && ts[i] == a[j];
    }
    if exists i :: 0 <= i < |ts| && ts[i].active && ts[i].category == c {
      var i :| 0 <= i < |ts| && ts[i].active && ts[i].category == c;
      assert ts[i] in a;
      var j :| 0 <= j < |a| && a[j] == ts[i];
      assert CategoryOfTemplate(a[j]) == c;
    }
  }

  /** Each value sums the amounts of the active templates of that category, and the values add up to their total. */
  lemma ByCategoryValues(ts: seq<TemplateState>, c: string)
    ensures c in ByCategory(ts) ==>
      ByCategory(ts)[c] == Sum(Filter(Active(ts), KeyEq(CategoryOfTemplate, c)), AmountOfTemplate)
    ensures MapSum(ByCategory(ts)) == Sum(Active(ts), AmountOfTemplate)
  {
    GroupSumValue(Active(ts), CategoryOfTemplate, AmountOfTemplate, c);
    GroupSumTotal(Active(ts), CategoryOfTemplate, AmountOfTemplate);
  }

  /** Every active template has a frequency: grouping by frequency would otherwise meet a null key. */
  predicate ActiveHaveFrequency(ts: seq<TemplateState>) {
    forall i :: 0 <= i < |ts| && ts[i].active ==> ts[i].frequency.Some?
  }

  /** The frequency of a template; only applied to templates that have one. */
  function FrequencyOf(t: TemplateState): Frequency {
    match t.frequency
    case Some(f) => f
    case None => Monthly
  }

  /** getRecurringExpensesByFrequency: amounts of the active templates summed per frequency. */
  function ByFrequency(ts: seq<TemplateState>): map<Frequency, int>
    requires ActiveHaveFrequency(ts)
  {
    GroupSum(Active(ts), FrequencyOf, AmountOfTemplate)
  }

  /** The keys are exactly the frequencies of the active templates. */
  lemma ByFrequencyKeys(ts: seq<TemplateState>, f: Frequency)
    requires ActiveHaveFrequency(ts)
    ensures f in ByFrequency(ts) <==> exists i :: 0 <= i < |ts| && ts[i].active && ts[i].frequency == Some(f)
  {
    var a := Active(ts);
    GroupSumKeys(a, FrequencyOf, AmountOfTemplate);
    ActiveCharacterised(ts);
    if f in ByFrequency(ts) {
      var j :| 0 <= j < |a| && FrequencyOf(a[j]) == f;
      assert a[j] in a;
      var i :| 0 <= i < |ts| && ts[i] == a[j];
    }
    if exists i :: 0 <= i < |ts| && ts[i].active && ts[i].frequency == Some(f) {
      var i :| 0 <= i < |ts| && ts[i].active && ts[i].frequency == Some(f);
      assert ts[i] in a;
      var j :| 0 <= j < |a| && a[j] == ts[i];
      assert FrequencyOf(a[j]) == f;
    }
  }

  /** Each value sums the amounts of the active templates of that frequency, and the values add up to their total. */
  lemma ByFrequencyValues(ts: seq<TemplateState>, f: Frequency)
    requires ActiveHaveFrequency(ts)
    ensures f in ByFrequency(ts) ==>
      ByFrequency(ts)[f] == Sum(Filter(Active(ts), KeyEq(FrequencyOf, f)), AmountOfTemplate)
    ensures MapSum(ByFrequency(ts)) == Sum(Active(ts), AmountOfTemplate)
  {
    GroupSumValue(Active(ts), FrequencyOf, AmountOfTemplate, f);
    GroupSumTotal(Active(ts), FrequencyOf, AmountOfTemplate);
  }

  /** The stepping loop of every template is defined up to hi. */
  predicate AllSteppingDefined(ts: seq<TemplateState>, hi: Date) {
    forall i :: 0 <= i < |ts| ==> SteppingDefined(ts[i], hi)
  }

  /** The sum of the templates' totals for [lo, hi]. */
  function RangeTotals(ts: seq<TemplateState>, lo: Date, hi: Date): int
    requires AllSteppingDefined(ts, hi)
  {
    if ts == [] then 0 else RangeTotals(ts[..|ts| - 1], lo, hi) + RangeTotal(ts[|ts| - 1], lo, hi)
  }

  /**
   * getTotalMonthlyRecurringExpenses: the active templates' totals for the
   * calendar month of today, each counted with the corrected range total.
   */
  function TotalMonthly(ts: seq<TemplateState>, today: Date): int
    requires AllSteppingDefined(ts, LastOfMonth(today))
  {
    ActiveSteppingDefined(ts, LastOfMonth(today));
    RangeTotals(Active(ts), FirstOfMonth(today), LastOfMonth(today))
  }

  /** Inactive templates add nothing, and the month's total splits over a concatenation. */
  lemma {:induction false} RangeTotalsAppend(a: seq<TemplateState>, b: seq<TemplateState>, lo: Date, hi: Date)
    requires AllSteppingDefined(a, hi) && AllSteppingDefined(b, hi)
    ensures AllSteppingDefined(a + b, hi)
    ensures RangeTotals(a + b, lo, hi) == RangeTotals(a, lo, hi) + RangeTotals(b, lo, hi)
    decreases |b|
  {
    if b == [] {
      assert a + b == a;
    } else {
      var bi := b[..|b| - 1];
      assert (a + b)[..|a + b| - 1] == a + bi;
      RangeTotalsAppend(a, bi, lo, hi);
    }
  }

  /** Adding a template to the list raises the monthly total by that template's total for the month, and by nothing when it is inactive. */
  lemma TotalMonthlyAppend(ts: seq<TemplateState>, t: TemplateState, today: Date)
    requires AllSteppingDefined(ts, LastOfMonth(today)) && SteppingDefined(t, LastOfMonth(today))
    ensures AllSteppingDefined(ts + [t], LastOfMonth(today))
    ensures TotalMonthly(ts + [t], today)
         == TotalMonthly(ts, today) + (if t.active then RangeTotal(t, FirstOfMonth(today), LastOfMonth(today)) else 0)
  {
    var lo, hi := FirstOfMonth(today), LastOfMonth(today);
    var single := Filter([t], IsActive());
    FilterSingle(t, IsActive());
    FilterAppend(ts, [t], IsActive());
    ActiveSteppingDefined(ts, hi);
    RangeTotalsSingle(t, lo, hi);
    RangeTotalsAppend(Active(ts), single, lo, hi);
    ActiveSteppingDefined(ts + [t], hi);
  }

  lemma ActiveSteppingDefined(ts: seq<TemplateState>, hi: Date)
    requires AllSteppingDefined(ts, hi)
    ensures AllSteppingDefined(Active(ts), hi)
  {
    FilterMembers(ts, IsActive());
    forall i | 0 <= i < |Active(ts)|
      ensures SteppingDefined(Active(ts)[i], hi)
    {
      var j :| 0 <= j < |ts| && ts[j] == Active(ts)[i];
    }
  }

  lemma RangeTotalsSingle(t: TemplateState, lo: Date, hi: Date)
    requires SteppingDefined(t, hi)
    ensures AllSteppingDefined([t], hi) && RangeTotals([t], lo, hi) == RangeTotal(t, lo, hi)
  {
    assert [t][..0] == [];
  }

  // ---------------------------------------------------------------------
  // List updates

  function IdIsNot(id: string): TemplateState -> bool {
    (t: TemplateState) => t.id != id
  }

  /** removeRecurringExpense: removeIf(id matches). */
  function RemoveId(ts: seq<TemplateState>, id: string): seq<TemplateState> {
    Filter(ts, IdIsNot(id))
  }

  /** Removal over a list with one more template at the end. */
  lemma RemoveIdSnoc(ts: seq<TemplateState>, t: TemplateState, id: string)
    ensures RemoveId(ts + [t], id) == RemoveId(ts, id) + (if t.id != id then [t] else [])
  {
    FilterAppend(ts, [t], IdIsNot(id));
    FilterSingle(t, IdIsNot(id));
  }

  /** Removal drops every template with the id, keeps every other one in order, and an unknown id changes nothing. */
  lemma RemoveIdCharacterised(ts: seq<TemplateState>, id: string)
    ensures IsSubseq(RemoveId(ts, id), ts)
    ensures forall i :: 0 <= i < |RemoveId(ts, id)| ==> RemoveId(ts, id)[i].id != id
    ensures forall i :: 0 <= i < |ts| && ts[i].id != id ==> ts[i] in RemoveId(ts, id)
    ensures FindIndex(ts, id).None? ==> RemoveId(ts, id) == ts
  {
    FilterIsSubseq(ts, IdIsNot(id));
    FilterMembers(ts, IdIsNot(id));
    if FindIndex(ts, id).None? {
      FilterAll(ts, IdIsNot(id));
    }
  }

  function Toggled(t: TemplateState): TemplateState {
    t.(active := !t.active)
  }

  /** toggleRecurringExpenseStatus: flip the first template with the id; an unknown id is a no-op. */
  function ToggleId(ts: seq<TemplateState>, id: string): seq<TemplateState> {
    match FindIndex(ts, id)
    case None => ts
    case Some(i) => ts[i := Toggled(ts[i])]
  }

  /** Toggling flips exactly the first match, and toggling twice restores the list. */
  lemma ToggleIdCharacterised(ts: seq<TemplateState>, id: string)
    ensures |ToggleId(ts, id)| == |ts|
    ensures FindIndex(ts, id).Some? ==>
      var i := FindIndex(ts, id).value;
      ToggleId(ts, id)[i].active == !ts[i].active &&
      ToggleId(ts, id)[i].(active := ts[i].active) == ts[i] &&
      forall j :: 0 <= j < |ts| && j != i ==> ToggleId(ts, id)[j] == ts[j]
    ensures FindIndex(ts, id).None? ==> ToggleId(ts, id) == ts
    ensures ToggleId(ToggleId(ts, id), id) == ts
  {
    match FindIndex(ts, id)
    case None =>
    case Some(i) =>
      var u := ToggleId(ts, id);
      assert FindIndex(u, id) == Some(i) by {
        FindIndexOverId(ts, u, id);
      }
  }

  /** Two lists with the same ids in the same places have the same first match. */
  lemma {:induction false} FindIndexOverId(a: seq<TemplateState>, b: seq<TemplateState>, id: string)
    requires |a| == |b| && forall i :: 0 <= i < |a| ==> a[i].id == b[i].id
    ensures FindIndex(a, id) == FindIndex(b, id)
    decreases |a|
  {
    if a != [] && a[0].id != id {
      FindIndexOverId(a[1..], b[1..], id);
    }
  }

  /** updateRecurringExpense: put u, carrying the id, in place of the first template with the id; an unknown id is a no-op. */
  function UpdateId(ts: seq<TemplateState>, id: string, u: TemplateState): seq<TemplateState> {
    match FindIndex(ts, id)
    case None => ts
    case Some(i) => ts[i := u.(id := id)]
  }

  /** The update replaces exactly the first match, which stays the first match for the id. */
  lemma UpdateIdCharacterised(ts: seq<TemplateState>, id: string, u: TemplateState)
    ensures |UpdateId(ts, id, u)| == |ts|
    ensures FindIndex(ts, id).None? ==> UpdateId(ts, id, u) == ts
    ensures FindIndex(ts, id).Some? ==>
      var i := FindIndex(ts, id).value;
      UpdateId(ts, id, u)[i] == u.(id := id) &&
      (forall j :: 0 <= j < |ts| && j != i ==> UpdateId(ts, id, u)[j] == ts[j]) &&
      FindIndex(UpdateId(ts, id, u), id) == Some(i)
  {
    if FindIndex(ts, id).Some? {
      FindIndexOverId(ts, UpdateId(ts, id, u), id);
    }
  }

  // ---------------------------------------------------------------------
  // processRecurringExpenses

  /** One template as processRecurringExpenses(p) leaves it: advanced once when due, untouched otherwise. */
  function ProcessedOn(t: TemplateState, p: Date): TemplateState {
    if IsDue(t, p) then Advance(t) else t
  }

  function AfterProcessing(ts: seq<TemplateState>, p: Date): (r: seq<TemplateState>)
    ensures |r| == |ts|
  {
    seq(|ts|, i requires 0 <= i < |ts| => ProcessedOn(ts[i], p))
  }

  /** The expenses processRecurringExpenses(p) generates: one per due template, in list order, dated at its cursor. */
  function DueGenerated(ts: seq<TemplateState>, p: Date, millis: nat): seq<Transaction> {
    if ts == [] then []
    else
      var t := ts[|ts| - 1];
      DueGenerated(ts[..|ts| - 1], p, millis)
        + (if IsDue(t, p) then [Occurrence(t, t.nextDueDate, millis)] else [])
  }

  /**
   * Processing generates exactly one expense per due template, the k-th
   * for the k-th due template, dated at that template's cursor before the
   * advance (not at p) and tagged with its id.
   */
  lemma {:induction false} DueGeneratedCharacterised(ts: seq<TemplateState>, p: Date, millis: nat)
    ensures |DueGenerated(ts, p, millis)| == |DueOn(ts, p)|
    ensures forall k :: 0 <= k < |DueOn(ts, p)| ==>
      var t := DueOn(ts, p)[k];
      DueGenerated(ts, p, millis)[k] == Occurrence(t, t.nextDueDate, millis)
    decreases |ts|
  {
    if ts != [] {
      DueGeneratedCharacterised(ts[..|ts| - 1], p, millis);
    }
  }

  /** Processing a prefix one template longer generates that template's expense, if due, after the shorter prefix's. */
  lemma DueGeneratedSnoc(ts: seq<TemplateState>, p: Date, millis: nat, i: nat)
    requires i < |ts|
    ensures DueGenerated(ts[..i + 1], p, millis)
      == DueGenerated(ts[..i], p, millis) + (if IsDue(ts[i], p) then [Occurrence(ts[i], ts[i].nextDueDate, millis)] else [])
  {
    assert ts[..i + 1][..i] == ts[..i];
  }

  /** Processing one more template of a partly processed list. */
  lemma AfterProcessingSnoc(ts: seq<TemplateState>, p: Date, i: nat)
    requires i < |ts|
    ensures (AfterProcessing(ts[..i], p) + ts[i..])[i := ProcessedOn(ts[i], p)]
      == AfterProcessing(ts[..i + 1], p) + ts[i + 1..]
  {
  }

  lemma AfterProcessingAll(ts: seq<TemplateState>, p: Date, millis: nat, i: nat)
    requires i == |ts|
    ensures AfterProcessing(ts[..i], p) + ts[i..] == AfterProcessing(ts, p)
    ensures DueGenerated(ts[..i], p, millis) == DueGenerated(ts, p, millis)
  {
    assert ts[..i] == ts;
  }

  /** After processing, no template is still due on p unless stepping once did not carry it past p. */
  lemma ProcessedOnCharacterised(t: TemplateState, p: Date)
    ensures !IsDue(t, p) ==> ProcessedOn(t, p) == t
    ensures IsDue(t, p) ==> ProcessedOn(t, p) == Advance(t)
    ensures IsDue(t, p) && t.frequency.Some? ==>
      ProcessedOn(t, p).(nextDueDate := t.nextDueDate) == t && Before(t.nextDueDate, ProcessedOn(t, p).nextDueDate)
  {
    AdvanceMovesCursor(t);
  }

  // ---------------------------------------------------------------------
  // processOverdueRecurringExpenses

  /** The catch-up selects the active templates whose cursor is strictly before today. */
  predicate Overdue(t: TemplateState, today: Date) {
    t.active && Before(t.nextDueDate, today)
  }

  /** The catch-up loop steps the frequency of every overdue template, so each must have one. */
  predicate OverdueHaveFrequency(ts: seq<TemplateState>, today: Date) {
    forall i :: 0 <= i < |ts| && Overdue(ts[i], today) ==> ts[i].frequency.Some?
  }

  /** The occurrences of t on the dates ds, in order. */
  function Occurrences(t: TemplateState, ds: seq<Date>, millis: nat): (r: seq<Transaction>)
    ensures |r| == |ds|
  {
    if ds == [] then [] else Occurrences(t, ds[..|ds| - 1], millis) + [Occurrence(t, ds[|ds| - 1], millis)]
  }

  lemma {:induction false} OccurrencesAt(t: TemplateState, ds: seq<Date>, millis: nat, k: nat)
    requires k < |ds|
    ensures Occurrences(t, ds, millis)[k] == Occurrence(t, ds[k], millis)
    decreases |ds|
  {
    if k < |ds| - 1 {
      OccurrencesAt(t, ds[..|ds| - 1], millis, k);
    }
  }

  /**
   * One iteration of a loop that walks the step dates through today: the
   * visited prefix grows by the current date, the dates still ahead start
   * one step later, and the final cursor stays the same.
   */
  lemma VisitNext(f: Frequency, today: Date, ds: seq<Date>, done: seq<Date>, current: Date)
    requires OnOrBefore(current, today)
    requires ds == done + DatesThrough(current, f, today)
    ensures ds == (done + [current]) + DatesThrough(Step(current, f), f, today)
    ensures |done| < |ds| && ds[|done|] == current
    ensures FirstAfter(current, f, today) == FirstAfter(Step(current, f), f, today)
    ensures Ordinal(current) < Ordinal(Step(current, f))
  {
    DatesThroughCons(current, f, today);
    StepIncreases(current, f);
    AppendAssoc(done, [current], DatesThrough(Step(current, f), f, today));
  }

  lemma OccurrencesSnoc(t: TemplateState, ds: seq<Date>, d: Date, millis: nat)
    ensures Occurrences(t, ds + [d], millis) == Occurrences(t, ds, millis) + [Occurrence(t, d, millis)]
  {
    assert (ds + [d])[..|ds|] == ds;
  }

  /**
   * The catch-up dates of an overdue template: its cursor and every later
   * step date up to today. Stepping a template without a frequency throws
   * in the Java code; the catch-up method's precondition excludes that, and
   * these functions give such a template no dates and leave it unchanged.
   */
  function MissedDates(t: TemplateState, today: Date): seq<Date> {
    if t.frequency.Some? then DatesThrough(t.nextDueDate, t.frequency.value, today) else []
  }

  /** One template as the catch-up leaves it: an overdue one gets its cursor moved to the first step date after today. */
  function CaughtUp(t: TemplateState, today: Date): TemplateState {
    if Overdue(t, today) && t.frequency.Some? then
      t.(nextDueDate := FirstAfter(t.nextDueDate, t.frequency.value, today))
    else t
  }

  function CatchUpAll(ts: seq<TemplateState>, today: Date): (r: seq<TemplateState>)
    ensures |r| == |ts|
  {
    seq(|ts|, i requires 0 <= i < |ts| => CaughtUp(ts[i], today))
  }

  /** The expenses the catch-up generates: for each overdue template in list order, one per missed date. */
  function CatchUpGenerated(ts: seq<TemplateState>, today: Date, millis: nat): seq<Transaction> {
    if ts == [] then []
    else
      var t := ts[|ts| - 1];
      CatchUpGenerated(ts[..|ts| - 1], today, millis)
        + (if Overdue(t, today) then Occurrences(t, MissedDates(t, today), millis) else [])
  }

  /**
   * The catch-up touches only overdue templates; an overdue template keeps
   * everything but its cursor, which moves to the first step date after
   * today, one step past the last missed date.
   */
  lemma CaughtUpCharacterised(t: TemplateState, today: Date)
    requires Overdue(t, today) ==> t.frequency.Some?
    ensures !Overdue(t, today) ==> CaughtUp(t, today) == t
    ensures Overdue(t, today) ==>
      var f := t.frequency.value;
      var ds := MissedDates(t, today);
      && CaughtUp(t, today).(nextDueDate := t.nextDueDate) == t
      && Before(today, CaughtUp(t, today).nextDueDate)
      && CaughtUp(t, today).nextDueDate == StepN(t.nextDueDate, f, |ds|)
      && |ds| >= 1 && ds[0] == t.nextDueDate
      && OnOrBefore(ds[|ds| - 1], today)
  {
    if Overdue(t, today) {
      DatesThroughSteps(t.nextDueDate, t.frequency.value, today);
    }
  }

  /** After the catch-up no active template's cursor is before today. */
  lemma CatchUpLeavesNothingOverdue(ts: seq<TemplateState>, today: Date)
    requires OverdueHaveFrequency(ts, today)
    ensures forall i :: 0 <= i < |ts| ==> !Overdue(CatchUpAll(ts, today)[i], today)
    ensures OverdueHaveFrequency(CatchUpAll(ts, today), today)
  {
    forall i | 0 <= i < |ts|
      ensures !Overdue(CatchUpAll(ts, today)[i], today)
    {
      CaughtUpCharacterised(ts[i], today);
    }
  }

  lemma {:induction false} NothingOverdueGeneratesNothing(ts: seq<TemplateState>, today: Date, millis: nat)
    requires forall i :: 0 <= i < |ts| ==> !Overdue(ts[i], today)
    ensures CatchUpGenerated(ts, today, millis) == []
    ensures CatchUpAll(ts, today) == ts
    decreases |ts|
  {
    if ts != [] {
      NothingOverdueGeneratesNothing(ts[..|ts| - 1], today, millis);
    }
  }

  /** The catch-up of a prefix one template longer generates that template's occurrences after the shorter prefix's. */
  lemma CatchUpGeneratedSnoc(ts: seq<TemplateState>, today: Date, millis: nat, i: nat)
    requires i < |ts|
    ensures CatchUpGenerated(ts[..i + 1], today, millis)
      == CatchUpGenerated(ts[..i], today, millis)
         + (if Overdue(ts[i], today) then Occurrences(ts[i], MissedDates(ts[i], today), millis) else [])
  {
    assert ts[..i + 1][..i] == ts[..i];
  }

  /** Catching up one more template of a partly caught-up list. */
  lemma CatchUpAllSnoc(ts: seq<TemplateState>, today: Date, i: nat)
    requires i < |ts|
    ensures (CatchUpAll(ts[..i], today) + ts[i..])[i := CaughtUp(ts[i], today)]
      == CatchUpAll(ts[..i + 1], today) + ts[i + 1..]
  {
  }

  lemma CatchUpAllAll(ts: seq<TemplateState>, today: Date, millis: nat, i: nat)
    requires i == |ts|
    ensures CatchUpAll(ts[..i], today) + ts[i..] == CatchUpAll(ts, today)
    ensures CatchUpGenerated(ts[..i], today, millis) == CatchUpGenerated(ts, today, millis)
  {
    assert ts[..i] == ts;
  }

  /** Running the catch-up a second time with the same today generates nothing and changes no template. */
  lemma CatchUpIdempotent(ts: seq<TemplateState>, today: Date, millis: nat, millis2: nat)
    requires OverdueHaveFrequency(ts, today)
    ensures OverdueHaveFrequency(CatchUpAll(ts, today), today)
    ensures CatchUpGenerated(CatchUpAll(ts, today), today, millis2) == []
    ensures CatchUpAll(CatchUpAll(ts, today), today) == CatchUpAll(ts, today)
  {
    CatchUpLeavesNothingOverdue(ts, today);
    NothingOverdueGeneratesNothing(CatchUpAll(ts, today), today, millis2);
  }

  /**
   * Every missed date of every overdue template gets its expense: the
   * occurrence of template i on each of its missed dates is generated.
   */
  lemma {:induction false} CatchUpBackfills(ts: seq<TemplateState>, today: Date, millis: nat, i: nat, k: nat)
    requires OverdueHaveFrequency(ts, today)
    requires i < |ts| && Overdue(ts[i], today) && k < |MissedDates(ts[i], today)|
    ensures Occurrence(ts[i], MissedDates(ts[i], today)[k], millis) in CatchUpGenerated(ts, today, millis)
    decreases |ts|
  {
    var t := ts[|ts| - 1];
    var init := ts[..|ts| - 1];
    assert forall j :: 0 <= j < |init| ==> init[j] == ts[j];
    var rest := if Overdue(t, today) then Occurrences(t, MissedDates(t, today), millis) else [];
    assert CatchUpGenerated(ts, today, millis) == CatchUpGenerated(init, today, millis) + rest;
    if i == |ts| - 1 {
      OccurrencesAt(t, MissedDates(t, today), millis, k);
      assert rest[k] in rest;
    } else {
      CatchUpBackfills(init, today, millis, i, k);
    }
  }

  /**
   * The catch-up generates nothing else: every generated expense is tagged
   * with an overdue template's id and dated at one of its missed dates.
   */
  lemma {:induction false} CatchUpGeneratesOnlyMissed(ts: seq<TemplateState>, today: Date, millis: nat, g: Transaction)
    requires OverdueHaveFrequency(ts, today)
    requires g in CatchUpGenerated(ts, today, millis)
    ensures exists i :: 0 <= i < |ts| && Overdue(ts[i], today) && g == Occurrence(ts[i], g.date, millis)
                     && g.date in MissedDates(ts[i], today)
    decreases |ts|
  {
    var t := ts[|ts| - 1];
    var init := ts[..|ts| - 1];
    assert forall j :: 0 <= j < |init| ==> init[j] == ts[j];
    var rest := if Overdue(t, today) then Occurrences(t, MissedDates(t, today), millis) else [];
    assert CatchUpGenerated(ts, today, millis) == CatchUpGenerated(init, today, millis) + rest;
    if g in CatchUpGenerated(init, today, millis) {
      CatchUpGeneratesOnlyMissed(init, today, millis, g);
      var i :| 0 <= i < |init| && Overdue(init[i], today) &&
        g == Occurrence(init[i], g.date, millis) && g.date in MissedDates(init[i], today);
      assert ts[i] == init[i];
    } else {
      var k :| 0 <= k < |rest| && rest[k] == g;
      OccurrencesAt(t, MissedDates(t, today), millis, k);
      assert ts[|ts| - 1] == t;
    }
  }

  // ---------------------------------------------------------------------
  // The registry effect and the object model

  /** The expense registry after the setCategory of each generated expense in turn. */
  function RegisterAll(names: seq<string>, gen: seq<Transaction>): seq<string> {
    if gen == [] then names else Ensure(RegisterAll(names, gen[..|gen| - 1]), gen[|gen| - 1].category)
  }

  /** Registering keeps every earlier name in place, stays duplicate-free, and ends up holding every generated category. */
  lemma {:induction false} RegisterAllCharacterised(names: seq<string>, gen: seq<Transaction>)
    ensures names <= RegisterAll(names, gen)
    ensures Distinct(names) ==> Distinct(RegisterAll(names, gen))
    ensures forall k :: 0 <= k < |gen| ==> gen[k].category in RegisterAll(names, gen)
    decreases |gen|
  {
    if gen != [] {
      var init := gen[..|gen| - 1];
      var prev := RegisterAll(names, init);
      var c := gen[|gen| - 1].category;
      RegisterAllCharacterised(names, init);
      EnsureExtends(prev, c);
      if Distinct(names) {
        EnsurePreservesDistinct(prev, c);
      }
      forall k | 0 <= k < |gen|
        ensures gen[k].category in RegisterAll(names, gen)
      {
        if k < |init| {
          assert gen[k] == init[k];
        }
      }
    }
  }

  lemma {:induction false} RegisterAllAppend(names: seq<string>, a: seq<Transaction>, b: seq<Transaction>)
    ensures RegisterAll(names, a + b) == RegisterAll(RegisterAll(names, a), b)
    decreases |b|
  {
    if b == [] {
      assert a + b == a;
    } else {
      assert (a + b)[..|a + b| - 1] == a + b[..|b| - 1];
      RegisterAllAppend(names, a, b[..|b| - 1]);
    }
  }

  lemma RegisterAllSnoc(names: seq<string>, gen: seq<Transaction>, e: Transaction)
    ensures RegisterAll(names, gen + [e]) == Ensure(RegisterAll(names, gen), e.category)
  {
    assert (gen + [e])[..|gen|] == gen;
  }

  /** The states of a list of template objects. */
  function SnapshotOf(ts: seq<RecurringExpense>): (r: seq<TemplateState>)
    reads ts
    ensures |r| == |ts| && forall i :: 0 <= i < |ts| ==> r[i] == ts[i].State()
  {
    seq(|ts|, i reads ts requires 0 <= i < |ts| => ts[i].State())
  }

  predicate DistinctObjects(ts: seq<RecurringExpense>) {
    forall i, j :: 0 <= i < j < |ts| ==> ts[i] != ts[j]
  }

  lemma DistinctAppend(ts: seq<RecurringExpense>, t: RecurringExpense)
    requires DistinctObjects(ts) && t !in ts
    ensures DistinctObjects(ts + [t])
  {
    var r := ts + [t];
    forall i, j | 0 <= i < j < |r|
      ensures r[i] != r[j]
    {
      if j == |ts| {
        assert r[i] == ts[i];
      }
    }
  }

  lemma SnapshotOfSnoc(ts: seq<RecurringExpense>, t: RecurringExpense)
    ensures SnapshotOf(ts + [t]) == SnapshotOf(ts) + [t.State()]
  {
  }

  lemma SnapshotOfUpdate(ts: seq<RecurringExpense>, i: nat, u: RecurringExpense)
    requires i < |ts|
    ensures SnapshotOf(ts[i := u]) == SnapshotOf(ts)[i := u.State()]
  {
  }

  /** Keeping ts[i] (or not) after some of the earlier objects keeps the kept ones distinct and drawn from the prefix. */
  lemma KeepNext(ts: seq<RecurringExpense>, kept: seq<RecurringExpense>, i: nat, keep: bool)
    requires DistinctObjects(ts) && i < |ts|
    requires DistinctObjects(kept) && forall t :: t in kept ==> t in ts[..i]
    ensures var k := if keep then kept + [ts[i]] else kept;
      DistinctObjects(k) && forall t :: t in k ==> t in ts[..i + 1]
  {
    assert ts[..i + 1] == ts[..i] + [ts[i]];
    if keep {
      forall x | x in kept
        ensures x != ts[i]
      {
        var j :| 0 <= j < i && ts[..i][j] == x;
      }
      DistinctAppend(kept, ts[i]);
    }
  }

  class RecurringExpenseManager {
    var templates: seq<RecurringExpense>
    const ledger: Ledger.TransactionManager
    /** The expense category registry, a static list in the Java code. */
    const expenseCategories: CategoryRegistry
    /** How many times the template list has been written to storage. */
    ghost var saves: nat

    /** Each template object appears once, so changing one changes one entry. */
    predicate Valid()
      reads this
    {
      DistinctObjects(templates)
    }

    function Snapshot(): seq<TemplateState>
      reads this, templates
    {
      SnapshotOf(templates)
    }

    /** The constructor, given the templates read from storage. */
    constructor (ledger: Ledger.TransactionManager, expenseCategories: CategoryRegistry, loaded: seq<RecurringExpense>)
      requires DistinctObjects(loaded)
      ensures Valid() && templates == loaded && saves == 0
      ensures this.ledger == ledger && this.expenseCategories == expenseCategories
    {
      this.ledger := ledger;
      this.expenseCategories := expenseCategories;
      templates := loaded;
      saves := 0;
    }

    /** saveRecurringExpenses: writing the list to storage, which changes no template. */
    method Save()
      requires Valid()
      modifies this
      ensures Valid() && templates == old(templates) && saves == old(saves) + 1
      ensures Snapshot() == old(Snapshot())
    {
      saves := saves + 1;
    }

    /** Save when some expense was generated. */
    method SaveIfGenerated(generated: seq<Transaction>)
      requires Valid()
      modifies this
      ensures Valid() && templates == old(templates) && saves == old(saves) + (if generated == [] then 0 else 1)
      ensures Snapshot() == old(Snapshot())
    {
      if generated != [] {
        saves := saves + 1;
      }
    }

    /** addRecurringExpense: append and save. */
    method AddRecurringExpense(t: RecurringExpense)
      requires Valid() && t !in templates
      modifies this
      ensures Valid() && templates == old(templates) + [t]
      ensures Snapshot() == old(Snapshot()) + [t.State()]
      ensures saves == old(saves) + 1
    {
      templates := templates + [t];
      Save();
    }

    /** removeRecurringExpense: drop every template with the id, then save. */
    method RemoveRecurringExpense(id: string)
      requires Valid()
      modifies this
      ensures Valid() && Snapshot() == RemoveId(old(Snapshot()), id)
      ensures forall t :: t in templates ==> t in old(templates)
      ensures saves == old(saves) + 1
    {
      ghost var s0 := Snapshot();
      var ts := templates;
      var kept: seq<RecurringExpense> := [];
      var i := 0;
      while i < |ts|
        modifies {}
        invariant 0 <= i <= |ts|
        invariant DistinctObjects(kept) && forall t :: t in kept ==> t in ts[..i]
        invariant SnapshotOf(kept) == RemoveId(s0[..i], id)
      {
        var t := ts[i];
        KeepNext(ts, kept, i, t.id != id);
        TakeSnoc(s0, i);
        RemoveIdSnoc(s0[..i], s0[i], id);
        SnapshotOfSnoc(kept, t);
        if t.id != id {
          kept := kept + [t];
        }
        i := i + 1;
      }
      assert s0[..i] == s0;
      templates := kept;
      Save();
    }

    function GetAllRecurringExpenses(): (r: seq<TemplateState>)
      reads this, templates
    {
      Snapshot()
    }

    function GetActiveRecurringExpenses(): seq<TemplateState>
      reads this, templates
    {
      Active(Snapshot())
    }

    function FindRecurringExpenseById(id: string): Option<TemplateState>
      reads this, templates
    {
      Find(Snapshot(), id)
    }

    function GetRecurringExpensesDueOn(d: Date): seq<TemplateState>
      reads this, templates
    {
      DueOn(Snapshot(), d)
    }

    function GetRecurringExpensesDueBetween(lo: Date, hi: Date): seq<TemplateState>
      reads this, templates
    {
      DueBetween(Snapshot(), lo, hi)
    }

    function GetUpcomingRecurringExpenses(today: Date, daysAhead: int): seq<TemplateState>
      reads this, templates
    {
      Upcoming(Snapshot(), today, daysAhead)
    }

    function GetRecurringExpensesByCategory(): map<string, int>
      reads this, templates
    {
      ByCategory(Snapshot())
    }

    function GetRecurringExpensesByFrequency(): map<Frequency, int>
      reads this, templates
      requires ActiveHaveFrequency(Snapshot())
    {
      ByFrequency(Snapshot())
    }

    function GetTotalMonthlyRecurringExpenses(today: Date): int
      reads this, templates
      requires AllSteppingDefined(Snapshot(), LastOfMonth(today))
    {
      TotalMonthly(Snapshot(), today)
    }

    /** toggleRecurringExpenseStatus: flip the first match and save; an unknown id changes nothing. */
    method ToggleRecurringExpenseStatus(id: string)
      requires Valid()
      modifies this, templates
      ensures Valid() && templates == old(templates)
      ensures Snapshot() == ToggleId(old(Snapshot()), id)
      ensures saves == old(saves) + (if FindIndex(old(Snapshot()), id).Some? then 1 else 0)
    {
      match FindIndex(Snapshot(), id)
      case None =>
      case Some(i) =>
        ghost var s0 := Snapshot();
        var t := templates[i];
        t.SetActive(!t.active);
        assert forall j :: 0 <= j < |templates| && j != i ==> templates[j] != t;
        assert Snapshot() == s0[i := Toggled(s0[i])];
        Save();
    }

    /**
     * The list.set(i, u) step of updateRecurringExpense, after u.setId(id):
     * u is a fresh object, or the template in slot i, which already carries id.
     */
    method ReplaceAt(i: nat, id: string, u: RecurringExpense)
      requires Valid() && i < |templates|
      requires u !in templates || (u == templates[i] && u.id == id)
      modifies this, u
      ensures Valid() && templates == old(templates)[i := u] && saves == old(saves)
      ensures Snapshot() == old(Snapshot())[i := old(u.State()).(id := id)]
    {
      ghost var s0 := Snapshot();
      ghost var u0 := u.State();
      if u == templates[i] {
        u.id := id;
        assert u.State() == u0 == u0.(id := id);
        assert Snapshot() == s0;
        templates := templates[i := u];
        assert s0[i := u0.(id := id)] == s0;
      } else {
        u.id := id;
        assert forall j :: 0 <= j < |templates| ==> templates[j] != u;
        assert Snapshot() == s0;
        SnapshotOfUpdate(templates, i, u);
        templates := templates[i := u];
        assert u.State() == u0.(id := id);
      }
    }

    /**
     * updateRecurringExpense: put u, with its id forced to id, in place of
     * the first match, and save; an unknown id changes nothing. u is a
     * fresh object or the matched template itself.
     */
    method UpdateRecurringExpense(id: string, u: RecurringExpense)
      requires Valid()
      requires u !in templates || (FindIndex(Snapshot(), id).Some? && u == templates[FindIndex(Snapshot(), id).value])
      modifies this, u
      ensures Valid()
      ensures FindIndex(old(Snapshot()), id).None? ==>
        templates == old(templates) && u.State() == old(u.State()) && saves == old(saves)
      ensures FindIndex(old(Snapshot()), id).Some? ==>
        templates == old(templates)[FindIndex(old(Snapshot()), id).value := u] && saves == old(saves) + 1
      ensures Snapshot() == UpdateId(old(Snapshot()), id, old(u.State()))
    {
      match FindIndex(Snapshot(), id)
      case None =>
      case Some(i) =>
        ReplaceAt(i, id, u);
        Save();
    }

    /** The body of the processRecurringExpenses loop for one template: generate and advance when due. */
    method ProcessTemplate(t: RecurringExpense, p: Date, millis: nat) returns (gen: seq<Transaction>)
      modifies t, ledger, expenseCategories
      ensures var t0 := old(t.State());
        gen == (if IsDue(t0, p) then [Occurrence(t0, t0.nextDueDate, millis)] else [])
      ensures t.State() == ProcessedOn(old(t.State()), p)
      ensures ledger.transactions == old(ledger.transactions) + gen
      ensures expenseCategories.names == RegisterAll(old(expenseCategories.names), gen)
    {
      gen := [];
      if t.IsDueOn(p) {
        var e := t.CreateExpenseInstance(millis, expenseCategories);
        e := e.(originalRecurringId := Some(t.id));
        ledger.AddTransaction(e);
        gen := [e];
        t.UpdateNextDueDate();
      }
    }

    /**
     * How far processRecurringExpenses(p) has got: the first i templates
     * are processed, the rest untouched, and the expenses generated so far
     * are in the ledger and their categories registered.
     */
    ghost predicate ProcessedUpTo(s0: seq<TemplateState>, p: Date, millis: nat, l0: seq<Transaction>, n0: seq<string>,
                                  i: nat, generated: seq<Transaction>)
      reads this, templates, ledger, expenseCategories
    {
      && i <= |s0| == |templates|
      && Snapshot() == AfterProcessing(s0[..i], p) + s0[i..]
      && generated == DueGenerated(s0[..i], p, millis)
      && ledger.transactions == l0 + generated
      && expenseCategories.names == RegisterAll(n0, generated)
    }

    /** ProcessTemplate on the i-th template, which changes that entry of the list and no other. */
    method ProcessAt(i: nat, p: Date, millis: nat, ghost s0: seq<TemplateState>, ghost l0: seq<Transaction>,
                     ghost n0: seq<string>, ghost generated: seq<Transaction>) returns (gen: seq<Transaction>)
      requires Valid() && i < |templates| && ProcessedUpTo(s0, p, millis, l0, n0, i, generated)
      modifies templates[i], ledger, expenseCategories
      ensures ProcessedUpTo(s0, p, millis, l0, n0, i + 1, generated + gen)
    {
      ghost var snap := Snapshot();
      var t := templates[i];
      assert snap[i] == s0[i];
      gen := ProcessTemplate(t, p, millis);
      assert forall j :: 0 <= j < |templates| && j != i ==> templates[j] != t;
      assert Snapshot() == snap[i := ProcessedOn(s0[i], p)];
      AfterProcessingSnoc(s0, p, i);
      DueGeneratedSnoc(s0, p, millis, i);
      AppendAssoc(l0, generated, gen);
      RegisterAllAppend(n0, generated, gen);
    }

    /**
     * processRecurringExpenses(p). The Java code first selects the due
     * templates and then generates for each; since generating for one
     * template changes no other, selecting each template as the loop
     * reaches it selects the same ones.
     */
    method ProcessRecurringExpenses(p: Date, millis: nat) returns (generated: seq<Transaction>)
      requires Valid()
      modifies this, templates, ledger, expenseCategories
      ensures Valid() && templates == old(templates)
      ensures generated == DueGenerated(old(Snapshot()), p, millis)
      ensures Snapshot() == AfterProcessing(old(Snapshot()), p)
      ensures ledger.transactions == old(ledger.transactions) + generated
      ensures expenseCategories.names == RegisterAll(old(expenseCategories.names), generated)
      ensures saves == old(saves) + (if generated == [] then 0 else 1)
    {
      ghost var s0 := Snapshot();
      ghost var l0 := ledger.transactions;
      ghost var n0 := expenseCategories.names;
      assert s0[..0] == [] && s0[0..] == s0;
      generated := ProcessEach(p, millis, s0, l0, n0);
      ghost var i := |s0|;
      assert Snapshot() == AfterProcessing(s0[..i], p) + s0[i..];
      assert generated == DueGenerated(s0[..i], p, millis);
      AfterProcessingAll(s0, p, millis, i);
      SaveIfGenerated(generated);
    }

    /** The loop of processRecurringExpenses over the whole list. */
    method ProcessEach(p: Date, millis: nat, ghost s0: seq<TemplateState>, ghost l0: seq<Transaction>,
                       ghost n0: seq<string>) returns (generated: seq<Transaction>)
      requires Valid() && ProcessedUpTo(s0, p, millis, l0, n0, 0, [])
      modifies templates, ledger, expenseCategories
      ensures templates == old(templates)
      ensures ProcessedUpTo(s0, p, millis, l0, n0, |s0|, generated)
    {
      generated := [];
      var i := 0;
      while i < |templates|
        modifies templates, ledger, expenseCategories
        invariant templates == old(templates)
        invariant ProcessedUpTo(s0, p, millis, l0, n0, i, generated)
      {
        var gen := ProcessAt(i, p, millis, s0, l0, n0, generated);
        generated := generated + gen;
        i := i + 1;
      }
    }

    /** One iteration of the catch-up's inner loop: the occurrence of t on d, added to the ledger. */
    method GenerateOccurrence(t: RecurringExpense, d: Date, millis: nat) returns (e: Transaction)
      modifies ledger, expenseCategories
      ensures e == Occurrence(t.State(), d, millis)
      ensures ledger.transactions == old(ledger.transactions) + [e]
      ensures expenseCategories.names == Ensure(old(expenseCategories.names), e.category)
    {
      e := t.CreateExpenseInstance(millis, expenseCategories);
      e := e.(date := d, originalRecurringId := Some(t.id));
      ledger.AddTransaction(e);
    }

    /**
     * The inner loop of the catch-up: one expense per missed date of t,
     * leaving the loop's cursor on the first step date after today.
     */
    method GenerateMissed(t: RecurringExpense, today: Date, millis: nat) returns (gen: seq<Transaction>, current: Date)
      requires t.frequency.Some?
      modifies ledger, expenseCategories
      ensures gen == Occurrences(t.State(), MissedDates(t.State(), today), millis)
      ensures current == FirstAfter(t.nextDueDate, t.frequency.value, today)
      ensures ledger.transactions == old(ledger.transactions) + gen
      ensures expenseCategories.names == RegisterAll(old(expenseCategories.names), gen)
    {
      ghost var t0 := t.State();
      ghost var l0 := ledger.transactions;
      ghost var n0 := expenseCategories.names;
      var f := t.frequency.value;
      ghost var ds := MissedDates(t0, today);
      ghost var done: seq<Date> := [];
      gen := [];
      current := t.nextDueDate;
      while !Before(today, current)
        modifies ledger, expenseCategories
        invariant ds == done + DatesThrough(current, f, today)
        invariant FirstAfter(current, f, today) == FirstAfter(t0.nextDueDate, f, today)
        invariant gen == Occurrences(t0, done, millis)
        invariant ledger.transactions == l0 + gen
        invariant expenseCategories.names == RegisterAll(n0, gen)
        decreases Ordinal(today) - Ordinal(current)
      {
        VisitNext(f, today, ds, done, current);
        OccurrencesSnoc(t0, done, current, millis);
        var e := GenerateOccurrence(t, current, millis);
        RegisterAllSnoc(n0, gen, e);
        gen := gen + [e];
        done := done + [current];
        current := Step(current, f);
      }
      DatesThroughEmpty(current, f, today);
      assert done + [] == done;
    }

    /** The body of the catch-up loop for one template: when overdue, one expense per missed date, then the cursor moves past today. */
    method CatchUpTemplate(t: RecurringExpense, today: Date, millis: nat) returns (gen: seq<Transaction>)
      requires Overdue(t.State(), today) ==> t.frequency.Some?
      modifies t, ledger, expenseCategories
      ensures var t0 := old(t.State());
        gen == (if Overdue(t0, today) then Occurrences(t0, MissedDates(t0, today), millis) else [])
      ensures t.State() == CaughtUp(old(t.State()), today)
      ensures ledger.transactions == old(ledger.transactions) + gen
      ensures expenseCategories.names == RegisterAll(old(expenseCategories.names), gen)
    {
      gen := [];
      if t.active && Before(t.nextDueDate, today) {
        var current;
        gen, current := GenerateMissed(t, today, millis);
        t.SetNextDueDate(current);
      }
    }

    /**
     * How far processOverdueRecurringExpenses(today) has got: the first i
     * templates are caught up, the rest untouched, and the expenses
     * generated so far are in the ledger and their categories registered.
     */
    ghost predicate CaughtUpTo(s0: seq<TemplateState>, today: Date, millis: nat, l0: seq<Transaction>, n0: seq<string>,
                               i: nat, generated: seq<Transaction>)
      reads this, templates, ledger, expenseCategories
    {
      && i <= |s0| == |templates|
      && Snapshot() == CatchUpAll(s0[..i], today) + s0[i..]
      && generated == CatchUpGenerated(s0[..i], today, millis)
      && ledger.transactions == l0 + generated
      && expenseCategories.names == RegisterAll(n0, generated)
    }

    /** CatchUpTemplate on the i-th template, which changes that entry of the list and no other. */
    method CatchUpAt(i: nat, today: Date, millis: nat, ghost s0: seq<TemplateState>, ghost l0: seq<Transaction>,
                     ghost n0: seq<string>, ghost generated: seq<Transaction>) returns (gen: seq<Transaction>)
      requires Valid() && i < |templates| && OverdueHaveFrequency(s0, today)
      requires CaughtUpTo(s0, today, millis, l0, n0, i, generated)
      modifies templates[i], ledger, expenseCategories
      ensures CaughtUpTo(s0, today, millis, l0, n0, i + 1, generated + gen)
    {
      ghost var snap := Snapshot();
      var t := templates[i];
      assert snap[i] == s0[i];
      gen := CatchUpTemplate(t, today, millis);
      assert forall j :: 0 <= j < |templates| && j != i ==> templates[j] != t;
      assert Snapshot() == snap[i := CaughtUp(s0[i], today)];
      CatchUpAllSnoc(s0, today, i);
      assert Snapshot() == CatchUpAll(s0[..i + 1], today) + s0[i + 1..];
      CatchUpGeneratedSnoc(s0, today, millis, i);
      assert generated + gen == CatchUpGenerated(s0[..i + 1], today, millis);
      AppendAssoc(l0, generated, gen);
      RegisterAllAppend(n0, generated, gen);
    }

    /**
     * processOverdueRecurringExpenses, with the current day as a parameter:
     * for each overdue template, generate an expense for each missed date
     * and move the cursor past today.
     */
    method ProcessOverdueRecurringExpenses(today: Date, millis: nat) returns (generated: seq<Transaction>)
      requires Valid() && OverdueHaveFrequency(Snapshot(), today)
      modifies this, templates, ledger, expenseCategories
      ensures Valid() && templates == old(templates)
      ensures generated == CatchUpGenerated(old(Snapshot()), today, millis)
      ensures Snapshot() == CatchUpAll(old(Snapshot()), today)
      ensures ledger.transactions == old(ledger.transactions) + generated
      ensures expenseCategories.names == RegisterAll(old(expenseCategories.names), generated)
      ensures saves == old(saves) + (if generated == [] then 0 else 1)
    {
      ghost var s0 := Snapshot();
      ghost var l0 := ledger.transactions;
      ghost var n0 := expenseCategories.names;
      assert s0[..0] == [] && s0[0..] == s0;
      generated := CatchUpEach(today, millis, s0, l0, n0);
      ghost var i := |s0|;
      assert Snapshot() == CatchUpAll(s0[..i], today) + s0[i..];
      assert generated == CatchUpGenerated(s0[..i], today, millis);
      CatchUpAllAll(s0, today, millis, i);
      SaveIfGenerated(generated);
    }

    /** The loop of processOverdueRecurringExpenses over the whole list. */
    method CatchUpEach(today: Date, millis: nat, ghost s0: seq<TemplateState>, ghost l0: seq<Transaction>,
                       ghost n0: seq<string>) returns (generated: seq<Transaction>)
      requires Valid() && OverdueHaveFrequency(s0, today) && CaughtUpTo(s0, today, millis, l0, n0, 0, [])
      modifies templates, ledger, expenseCategories
      ensures templates == old(templates)
      ensures CaughtUpTo(s0, today, millis, l0, n0, |s0|, generated)
    {
      generated := [];
      var i := 0;
      while i < |templates|
        modifies templates, ledger, expenseCategories
        invariant templates == old(templates)
        invariant CaughtUpTo(s0, today, millis, l0, n0, i, generated)
      {
        var gen := CatchUpAt(i, today, millis, s0, l0, n0, generated);
        generated := generated + gen;
        i := i + 1;
      }
    }
  }
}
