/** Accounts-payable fraud signals: what each one means, what the document under test is
    compared with, and exactly when storing it first changes that. */
module FraudSignals {
  import opened Basics
  import opened Money

  /** A normalized document. */
  datatype Document = Document(
    kind: string, supplier: string, number: string, date: string, currency: Currency, total: nat, bank: string)

  datatype Signal =
    NoHistory | AmountOutlier(median: nat, count: nat) | BankAccountChanged | RoundNumber(zeros: nat)
    | WeekendDate | DuplicateAltered

  const ROUND_TRAILING_ZEROS := 3
  const MAX_HISTORY := 500

  predicate SameKey(a: Document, b: Document) {
    a.kind == b.kind && a.supplier == b.supplier && a.number == b.number
  }

  /** A tenant's stored documents, newest first. The order of rows created at the same
      instant is whatever the store returns. */
  type Store = seq<Document>

  // ----------------------------------------------------------------------- remember

  predicate Known(store: Store, d: Document) { exists k :: 0 <= k < |store| && SameKey(store[k], d) }

  function Stored(store: Store, d: Document): (r: Option<Document>)
    ensures r.Some? <==> Known(store, d)
    ensures r.Some? ==> r.value in store && SameKey(r.value, d)
  {
    if store == [] then None
    else if SameKey(store[0], d) then
      assert store[0] in store;
      Some(store[0])
    else
      var rest := Stored(store[1..], d);
      assert Known(store[1..], d) ==> Known(store, d);
      rest
  }

  /** `remember`: a number already stored is left as it was first seen. `at` is the new
      row's place among the rows by time. */
  function Remember(store: Store, d: Document, at: nat): Store
    requires at <= |store|
  {
    if Known(store, d) then store else store[..at] + [d] + store[at..]
  }

  /** Documents are unique by key, and remembering twice is remembering once. */
  ghost predicate UniqueKeys(store: Store) {
    forall i, j :: 0 <= i < j < |store| ==> !SameKey(store[i], store[j])
  }

  lemma RememberKeepsUnique(store: Store, d: Document, at: nat, again: nat)
    requires UniqueKeys(store) && at <= |store| && again <= |Remember(store, d, at)|
    ensures UniqueKeys(Remember(store, d, at)) && Known(Remember(store, d, at), d)
    ensures Remember(store, d, at)
         == if exists k :: 0 <= k < |store| && store[k].kind == d.kind && store[k].supplier == d.supplier
                           && store[k].number == d.number
            then store else store[..at] + [d] + store[at..]
    ensures Remember(Remember(store, d, at), d, again) == Remember(store, d, at)
  {
    var store' := Remember(store, d, at);
    if !Known(store, d) {
      assert store'[at] == d;
      forall i, j | 0 <= i < j < |store'| ensures !SameKey(store'[i], store'[j]) {
        if i == at {
          assert store'[j] == store[j - 1];
        } else if j == at {
          assert store'[i] == store[i];
        } else {
          assert store'[i] == store[if i < at then i else i - 1] && store'[j] == store[if j < at then j else j - 1];
        }
      }
    }
  }

  // ------------------------------------------------------------------------ history

  function OfSupplier(store: Store, supplier: string): Store {
    if store == [] then []
    else OfSupplier(store[..|store| - 1], supplier)
         + (if store[|store| - 1].supplier == supplier then [store[|store| - 1]] else [])
  }

  function Clamp(limit: int): nat { if limit < 1 then 1 else if limit > MAX_HISTORY then MAX_HISTORY else limit }

  /** `supplier_history`. */
  function History(store: Store, supplier: string, limit: int): Store {
    var rows := OfSupplier(store, supplier);
    if |rows| <= Clamp(limit) then rows else rows[..Clamp(limit)]
  }

  /** The comparison population: same currency, and not the document itself. */
  function Prior(history: Store, d: Document): Store {
    if history == [] then []
    else Prior(history[..|history| - 1], d)
         + (var r := history[|history| - 1];
            if r.currency == d.currency && !SameKey(r, d) then [r] else [])
  }

  lemma {:induction false} OfSupplierConcat(a: Store, b: Store, supplier: string)
    ensures OfSupplier(a + b, supplier) == OfSupplier(a, supplier) + OfSupplier(b, supplier)
    decreases |b|
  {
    if b == [] {
      assert a + b == a;
    } else {
      assert (a + b)[..|a + b| - 1] == a + b[..|b| - 1];
      OfSupplierConcat(a, b[..|b| - 1], supplier);
    }
  }

  lemma {:induction false} PriorConcat(a: Store, b: Store, d: Document)
    ensures Prior(a + b, d) == Prior(a, d) + Prior(b, d)
    decreases |b|
  {
    if b == [] {
      assert a + b == a;
    } else {
      assert (a + b)[..|a + b| - 1] == a + b[..|b| - 1];
      PriorConcat(a, b[..|b| - 1], d);
    }
  }

  /** Whether storing a first-seen document leaves the supplier's rows it is compared with as
      they were: the rows fit the history with it, or it joins them beyond the history, or
      the row it pushes out is in another currency. */
  predicate PopulationStands(store: Store, d: Document, at: nat, limit: int)
    requires at <= |store|
  {
    var rows, n := OfSupplier(store, d.supplier), Clamp(limit);
    |rows| < n || |OfSupplier(store[..at], d.supplier)| >= n || rows[n - 1].currency != d.currency
  }

  /** Main result: storing a first-seen document leaves its comparison population as it was
      if and only if none of its own currency is pushed out. */
  lemma PriorIgnoresItselfIff(store: Store, d: Document, at: nat, limit: int)
    requires at <= |store| && !Known(store, d)
    ensures Prior(History(Remember(store, d, at), d.supplier, limit), d) == Prior(History(store, d.supplier, limit), d)
       <==> PopulationStands(store, d, at, limit)
  {
    hide OfSupplier, Prior;
    var n := Clamp(limit);
    var rows := OfSupplier(store, d.supplier);
    var a, b := OfSupplier(store[..at], d.supplier), OfSupplier(store[at..], d.supplier);
    RowsRemembered(store, d, at);
    HistoryIsFirst(store, d.supplier, limit);
    HistoryIsFirst(Remember(store, d, at), d.supplier, limit);
    if |rows| < n {
      Spliced(a, b, d);
    } else if |a| >= n {
      assert (a + [d] + b)[..n] == a[..n] == rows[..n];
    } else {
      var kept := b[..n - 1 - |a|];
      assert (a + [d] + b)[..n] == a + [d] + kept;
      Spliced(a, kept, d);
      assert rows[..n] == a + kept + [rows[n - 1]];
      PriorConcat(a + kept, [rows[n - 1]], d);
      OfSupplierIn(store, d.supplier, n - 1);
      PriorOfOne(rows[n - 1], d);
    }
  }

  lemma HistoryIsFirst(store: Store, supplier: string, limit: int)
    ensures var rows := OfSupplier(store, supplier);
            History(store, supplier, limit) == if |rows| < Clamp(limit) then rows else rows[..Clamp(limit)]
  {
    hide OfSupplier;
    var rows := OfSupplier(store, supplier);
    assert rows[..|rows|] == rows;
  }

  lemma RowsRemembered(store: Store, d: Document, at: nat)
    requires at <= |store| && !Known(store, d)
    ensures OfSupplier(store, d.supplier) == OfSupplier(store[..at], d.supplier) + OfSupplier(store[at..], d.supplier)
    ensures OfSupplier(Remember(store, d, at), d.supplier)
         == OfSupplier(store[..at], d.supplier) + [d] + OfSupplier(store[at..], d.supplier)
  {
    hide OfSupplier;
    var before, after := store[..at], store[at..];
    assert store == before + after;
    OfSupplierConcat(before, after, d.supplier);
    OfSupplierConcat(before + [d], after, d.supplier);
    OfSupplierConcat(before, [d], d.supplier);
    OwnRow(d);
  }

  lemma Spliced(a: Store, b: Store, d: Document)
    ensures Prior(a + [d] + b, d) == Prior(a + b, d)
  {
    hide Prior;
    OwnRow(d);
    PriorConcat(a, b, d);
    PriorConcat(a + [d], b, d);
    PriorConcat(a, [d], d);
  }

  lemma {:induction false} OfSupplierIn(store: Store, supplier: string, k: nat)
    requires k < |OfSupplier(store, supplier)|
    ensures OfSupplier(store, supplier)[k] in store && OfSupplier(store, supplier)[k].supplier == supplier
  {
    var init := store[..|store| - 1];
    if k < |OfSupplier(init, supplier)| {
      OfSupplierIn(init, supplier, k);
    }
  }

  lemma PriorOfOne(row: Document, d: Document)
    ensures Prior([row], d) == if row.currency == d.currency && !SameKey(row, d) then [row] else []
  {
    assert [row][..0] == [];
  }

  lemma OwnRow(d: Document)
    ensures OfSupplier([d], d.supplier) == [d] && Prior([d], d) == []
  {
  }

  // ------------------------------------------------------------------------- median

  ghost predicate Ascending(s: seq<nat>) { forall i, j :: 0 <= i < j < |s| ==> s[i] <= s[j] }

  function Insert(s: seq<nat>, x: nat): (r: seq<nat>)
    ensures multiset(r) == multiset(s) + multiset{x} && |r| == |s| + 1
  {
    if s == [] || x <= s[0] then [x] + s
    else
      assert s == [s[0]] + s[1..];
      [s[0]] + Insert(s[1..], x)
  }

  /** `sorted`. */
  function Sorted(s: seq<nat>): (r: seq<nat>)
    ensures multiset(r) == multiset(s) && |r| == |s|
  {
    if s == [] then []
    else
      assert s == s[..|s| - 1] + [s[|s| - 1]];
      Insert(Sorted(s[..|s| - 1]), s[|s| - 1])
  }

  lemma {:induction false} InsertAscends(s: seq<nat>, x: nat)
    requires Ascending(s)
    ensures Ascending(Insert(s, x))
  {
    if s != [] && x > s[0] {
      InsertAscends(s[1..], x);
      var rest := Insert(s[1..], x);
      forall k | 0 <= k < |rest| ensures s[0] <= rest[k] {
        assert rest[k] in multiset(rest);
        assert rest[k] in multiset(s[1..]) || rest[k] == x;
      }
    }
  }

  lemma {:induction false} SortedAscends(s: seq<nat>)
    ensures Ascending(Sorted(s))
  {
    if s != [] {
      SortedAscends(s[..|s| - 1]);
      InsertAscends(Sorted(s[..|s| - 1]), s[|s| - 1]);
    }
  }

  /** `_median`, in exact integer arithmetic. */
  function Median(values: seq<nat>): nat
    requires values != []
  {
    var ordered := Sorted(values);
    var middle := |ordered| / 2;
    if |ordered| % 2 == 1 then ordered[middle] else (ordered[middle - 1] + ordered[middle]) / 2
  }

  /** A bag of numbers has one ascending order. */
  lemma {:induction false} AscendingIsUnique(a: seq<nat>, b: seq<nat>)
    requires Ascending(a) && Ascending(b) && multiset(a) == multiset(b)
    ensures a == b
  {
    assert |a| == |multiset(a)| == |multiset(b)| == |b|;
    if a != [] {
      FirstIsLeast(a, b);
      FirstIsLeast(b, a);
      DropFirst(a);
      DropFirst(b);
      AscendingIsUnique(a[1..], b[1..]);
      assert a == [a[0]] + a[1..] && b == [b[0]] + b[1..];
    }
  }

  lemma FirstIsLeast(a: seq<nat>, b: seq<nat>)
    requires a != [] && b != [] && Ascending(a) && multiset(a) == multiset(b)
    ensures a[0] <= b[0]
  {
    assert b[0] in multiset(b);
    assert b[0] in a;
  }

  lemma DropFirst(a: seq<nat>)
    requires a != [] && Ascending(a)
    ensures Ascending(a[1..]) && multiset(a[1..]) == multiset(a) - multiset{a[0]}
  {
    assert a == [a[0]] + a[1..];
  }

  /** The median depends on the amounts, not on the order they are stored in. */
  lemma MedianIsOrderIndependent(a: seq<nat>, b: seq<nat>)
    requires a != [] && multiset(a) == multiset(b)
    ensures b != [] && Median(a) == Median(b)
  {
    hide Sorted, Ascending;
    assert |a| == |multiset(a)| == |b|;
    SortedAscends(a);
    SortedAscends(b);
    AscendingIsUnique(Sorted(a), Sorted(b));
  }

  /** The median lies between the two middle values, and is their average rounded down. */
  lemma MedianIsBetweenMiddles(values: seq<nat>)
    requires values != []
    ensures var ordered, middle := Sorted(values), |values| / 2;
            && Ascending(ordered)
            && (|values| % 2 == 1 ==> Median(values) == ordered[middle])
            && (|values| % 2 == 0 ==>
                  && ordered[middle - 1] <= Median(values) <= ordered[middle]
                  && 2 * Median(values) <= ordered[middle - 1] + ordered[middle] <= 2 * Median(values) + 1)
  {
    hide Sorted;
    SortedAscends(values);
  }

  // ------------------------------------------------------------------------ signals

  function Totals(rows: Store): seq<nat> {
    seq(|rows|, k requires 0 <= k < |rows| => rows[k].total)
  }

  function TrailingZeros(n: nat): nat { if n == 0 || n % 10 != 0 then 0 else 1 + TrailingZeros(n / 10) }

  /** What the calendar says of a date: not three numbers, three numbers that are no day, or
      a day of the week. */
  datatype Day = Unreadable | NoSuchDay | Weekday | Weekend

  type Calendar = string -> Day

  predicate Dates(row: Document, calendar: Calendar) { row.date != "" && !calendar(row.date).Unreadable? }

  predicate OnWeekend(row: Document, calendar: Calendar) { row.date != "" && calendar(row.date).Weekend? }

  /** How many prior documents carry a readable date, and how many fall on a weekend. */
  function Dated(rows: Store, calendar: Calendar): (nat, nat) {
    if rows == [] then (0, 0)
    else
      var (dated, weekends) := Dated(rows[..|rows| - 1], calendar);
      var row := rows[|rows| - 1];
      (dated + (if Dates(row, calendar) then 1 else 0), weekends + (if OnWeekend(row, calendar) then 1 else 0))
  }

  function HistorySignals(d: Document, prior: Store, ratio: nat): seq<Signal> {
    if prior == [] then [NoHistory]
    else
      (if Median(Totals(prior)) > 0 && d.total >= Median(Totals(prior)) * ratio
       then [AmountOutlier(Median(Totals(prior)), |prior|)] else [])
      + (if d.bank != "" && prior[0].bank != "" && prior[0].bank != d.bank then [BankAccountChanged] else [])
  }

  function RoundSignals(d: Document): seq<Signal> {
    if d.total > 0 && d.total % Factor(d.currency) == 0
       && TrailingZeros(d.total / Factor(d.currency)) >= ROUND_TRAILING_ZEROS
    then [RoundNumber(TrailingZeros(d.total / Factor(d.currency)))] else []
  }

  function WeekendSignals(d: Document, prior: Store, calendar: Calendar): seq<Signal> {
    if OnWeekend(d, calendar) && Dated(prior, calendar).0 > 0 && Dated(prior, calendar).1 == 0
    then [WeekendDate] else []
  }

  function DuplicateSignals(store: Store, d: Document): seq<Signal> {
    var original := Stored(store, d);
    if original.Some? && (original.value.total != d.total || original.value.currency != d.currency)
    then [DuplicateAltered] else []
  }

  function Signals(store: Store, d: Document, ratio: nat, limit: int, calendar: Calendar): seq<Signal> {
    var prior := Prior(History(store, d.supplier, limit), d);
    HistorySignals(d, prior, ratio) + RoundSignals(d) + WeekendSignals(d, prior, calendar) + DuplicateSignals(store, d)
  }

  // ------------------------------------------------------------- what a signal means

  /** Round to `z` zeros in whole units of the currency: the rest does not end in zero. */
  ghost predicate RoundTo(d: Document, z: nat) {
    exists rest: nat :: RoundBy(d.total, Factor(d.currency), rest, z)
  }

  predicate RoundBy(total: nat, factor: nat, rest: nat, z: nat) {
    total == factor * (rest * Pow10(z)) && rest % 10 != 0
  }

  /** When each signal is raised. */
  ghost predicate Explained(
    store: Store, d: Document, ratio: nat, limit: int, calendar: Calendar, signals: seq<Signal>)
  {
    var history := History(store, d.supplier, limit);
    var prior := Prior(history, d);
    && (NoHistory in signals <==>
          forall k :: 0 <= k < |history| ==> history[k].currency != d.currency || SameKey(history[k], d))
    && (forall median: nat, count: nat :: AmountOutlier(median, count) in signals <==>
          && prior != [] && median == Median(Totals(prior)) && count == |prior|
          && 0 < median && median * ratio <= d.total)
    && (BankAccountChanged in signals <==>
          prior != [] && d.bank != "" && prior[0].bank != "" && prior[0].bank != d.bank)
    && (forall z: nat :: RoundNumber(z) in signals <==> z >= ROUND_TRAILING_ZEROS && RoundTo(d, z))
    && (WeekendDate in signals <==>
          && OnWeekend(d, calendar)
          && (exists k :: 0 <= k < |prior| && Dates(prior[k], calendar))
          && (forall k :: 0 <= k < |prior| ==> !OnWeekend(prior[k], calendar)))
    && (DuplicateAltered in signals <==>
          Stored(store, d).Some?
          && (Stored(store, d).value.total, Stored(store, d).value.currency) != (d.total, d.currency))
  }

  lemma SignalsAreExplained(store: Store, d: Document, ratio: nat, limit: int, calendar: Calendar)
    ensures Explained(store, d, ratio, limit, calendar, Signals(store, d, ratio, limit, calendar))
  {
    hide Prior, Stored, Dated, History, TrailingZeros, Median, Totals, HistorySignals, RoundSignals,
         WeekendSignals, DuplicateSignals, RoundTo, OnWeekend, Dates;
    var history := History(store, d.supplier, limit);
    var prior := Prior(history, d);
    HistorySignalsMean(d, prior, ratio);
    RoundSignalsMean(d);
    WeekendSignalsMean(d, prior, calendar);
    DuplicateSignalsMean(store, d);
    PriorEmptyIff(history, d);
  }

  lemma NoHistoryIff(store: Store, d: Document, ratio: nat, limit: int, calendar: Calendar)
    ensures var history := History(store, d.supplier, limit);
            NoHistory in Signals(store, d, ratio, limit, calendar) <==>
              forall k :: 0 <= k < |history| ==> history[k].currency != d.currency || SameKey(history[k], d)
  {
    hide Signals, Prior, Stored, History, Median, Totals, RoundTo, OnWeekend, Dates;
    SignalsAreExplained(store, d, ratio, limit, calendar);
  }

  lemma HistorySignalsMean(d: Document, prior: Store, ratio: nat)
    ensures var signals := HistorySignals(d, prior, ratio);
            && (forall x :: x in signals ==> x.NoHistory? || x.AmountOutlier? || x.BankAccountChanged?)
            && (NoHistory in signals <==> prior == [])
            && (forall median: nat, count: nat :: AmountOutlier(median, count) in signals <==>
                  && prior != [] && median == Median(Totals(prior)) && count == |prior|
                  && 0 < median && median * ratio <= d.total)
            && (BankAccountChanged in signals <==>
                  prior != [] && d.bank != "" && prior[0].bank != "" && prior[0].bank != d.bank)
  {
    hide Median, Totals;
  }

  lemma RoundSignalsMean(d: Document)
    ensures forall x :: x in RoundSignals(d) ==> x.RoundNumber?
    ensures forall z: nat :: RoundNumber(z) in RoundSignals(d) <==> z >= ROUND_TRAILING_ZEROS && RoundTo(d, z)
  {
    hide TrailingZeros, RoundTo;
    forall z: nat ensures RoundNumber(z) in RoundSignals(d) <==> z >= ROUND_TRAILING_ZEROS && RoundTo(d, z) {
      RoundToIff(d, z);
    }
  }

  lemma RoundToIff(d: Document, z: nat)
    ensures RoundTo(d, z)
       <==> d.total > 0 && d.total % Factor(d.currency) == 0 && TrailingZeros(d.total / Factor(d.currency)) == z
  {
    hide TrailingZeros, Pow10;
    var f := Factor(d.currency);
    if RoundTo(d, z) {
      var rest: nat :| RoundBy(d.total, f, rest, z);
      Positive(rest, Pow10(z));
      ZerosOf(rest * Pow10(z), rest, z);
    }
    if d.total > 0 && d.total % f == 0 && TrailingZeros(d.total / f) == z {
      var rest := Rest(d.total / f);
      assert RoundBy(d.total, f, rest, z);
    }
  }

  lemma Positive(a: nat, b: nat)
    requires a > 0 && b > 0
    ensures a * b > 0
  {
  }

  lemma {:induction false} ZerosOf(n: nat, rest: nat, z: nat)
    requires n == rest * Pow10(z) && rest % 10 != 0
    ensures TrailingZeros(n) == z
    decreases z
  {
    if z > 0 {
      var tenth := rest * Pow10(z - 1);
      assert n == 10 * tenth;
      Positive(rest, Pow10(z - 1));
      ZerosOf(tenth, rest, z - 1);
    }
  }

  /** What is left of a number without its trailing zeros. */
  lemma {:induction false} Rest(n: nat) returns (rest: nat)
    requires n > 0
    ensures n == rest * Pow10(TrailingZeros(n)) && rest % 10 != 0
  {
    if n % 10 != 0 {
      rest := n;
    } else {
      rest := Rest(n / 10);
      assert n == 10 * (rest * Pow10(TrailingZeros(n / 10)));
    }
  }

  lemma WeekendSignalsMean(d: Document, prior: Store, calendar: Calendar)
    ensures forall x :: x in WeekendSignals(d, prior, calendar) ==> x.WeekendDate?
    ensures WeekendDate in WeekendSignals(d, prior, calendar) <==>
              && OnWeekend(d, calendar)
              && (exists k :: 0 <= k < |prior| && Dates(prior[k], calendar))
              && (forall k :: 0 <= k < |prior| ==> !OnWeekend(prior[k], calendar))
  {
    hide Dated, OnWeekend, Dates;
    DatedMeans(prior, calendar);
  }

  lemma {:induction false} DatedMeans(rows: Store, calendar: Calendar)
    ensures Dated(rows, calendar).0 > 0 <==> exists k :: 0 <= k < |rows| && Dates(rows[k], calendar)
    ensures Dated(rows, calendar).1 == 0 <==> forall k :: 0 <= k < |rows| ==> !OnWeekend(rows[k], calendar)
  {
    hide OnWeekend, Dates;
    if rows != [] {
      var init := rows[..|rows| - 1];
      DatedMeans(init, calendar);
      assert forall k :: 0 <= k < |init| ==> init[k] == rows[k];
    }
  }

  lemma DuplicateSignalsMean(store: Store, d: Document)
    ensures forall x :: x in DuplicateSignals(store, d) ==> x.DuplicateAltered?
    ensures DuplicateAltered in DuplicateSignals(store, d) <==>
              Stored(store, d).Some?
              && (Stored(store, d).value.total, Stored(store, d).value.currency) != (d.total, d.currency)
  {
    hide Stored;
  }

  lemma {:induction false} PriorEmptyIff(history: Store, d: Document)
    ensures Prior(history, d) == [] <==>
              forall k :: 0 <= k < |history| ==> history[k].currency != d.currency || SameKey(history[k], d)
  {
    if history != [] {
      var init := history[..|history| - 1];
      PriorEmptyIff(init, d);
      assert forall k :: 0 <= k < |init| ==> init[k] == history[k];
    }
  }

  /** `fraud_signals`: which signals are raised, with their numbers, in their order. */
  method RaiseSignals(store: Store, d: Document, ratio: int, limit: int, calendar: Calendar)
    returns (r: Result<seq<Signal>>)
    ensures r.Ok? <==> ratio >= 1
    ensures r.Ok? ==> Explained(store, d, ratio, limit, calendar, r.value)
    ensures r.Ok? ==> r.value == Signals(store, d, ratio, limit, calendar)
  {
    hide Prior, Stored, Dated, History, HistorySignals, RoundSignals, TrailingZeros, Explained;
    if ratio < 1 { return Err(Invalid); }
    var history := History(store, d.supplier, limit);
    var prior := SelectPrior(history, d);
    var signals := CompareWithPrior(d, prior, ratio);
    signals := signals + RoundSignals(d);
    var weekend := CountWeekends(prior, calendar);
    if d.date != "" && calendar(d.date).Weekend? && weekend.0 > 0 && weekend.1 == 0 {
      signals := signals + [WeekendDate];
    }
    var original := Stored(store, d);
    if original.Some? && (original.value.total != d.total || original.value.currency != d.currency) {
      signals := signals + [DuplicateAltered];
    }
    assert signals == Signals(store, d, ratio, limit, calendar);
    SignalsAreExplained(store, d, ratio, limit, calendar);
    return Ok(signals);
  }

  method SelectPrior(history: Store, d: Document) returns (prior: Store)
    ensures prior == Prior(history, d)
  {
    prior := [];
    for k := 0 to |history|
      invariant prior == Prior(history[..k], d)
    {
      assert history[..k + 1][..k] == history[..k];
      if history[k].currency == d.currency && !SameKey(history[k], d) { prior := prior + [history[k]]; }
    }
    assert history[..|history|] == history;
  }

  method CompareWithPrior(d: Document, prior: Store, ratio: nat) returns (signals: seq<Signal>)
    ensures signals == HistorySignals(d, prior, ratio)
  {
    hide Median;
    signals := [];
    if prior == [] { return [NoHistory]; }
    var median := Median(Totals(prior));
    if median > 0 && d.total >= median * ratio { signals := signals + [AmountOutlier(median, |prior|)]; }
    if d.bank != "" && prior[0].bank != "" && prior[0].bank != d.bank { signals := signals + [BankAccountChanged]; }
  }

  method CountWeekends(rows: Store, calendar: Calendar) returns (r: (nat, nat))
    ensures r == Dated(rows, calendar)
  {
    var dated, weekends := 0, 0;
    for k := 0 to |rows|
      invariant (dated, weekends) == Dated(rows[..k], calendar)
    {
      assert rows[..k + 1][..k] == rows[..k];
      if rows[k].date != "" {
        var day := calendar(rows[k].date);
        if !day.Unreadable? {
          dated := dated + 1;
          if day.Weekend? { weekends := weekends + 1; }
        }
      }
    }
    assert rows[..|rows|] == rows;
    return (dated, weekends);
  }

  /** Main result: storing a first-seen document before checking it does not change its
      signals, as long as it pushes no row of its own currency out of the history. */
  lemma StoringFirstChangesNothing(
    store: Store, d: Document, at: nat, ratio: nat, limit: int, calendar: Calendar)
    requires at <= |store| && !Known(store, d)
    requires PopulationStands(store, d, at, limit)
    ensures Signals(Remember(store, d, at), d, ratio, limit, calendar) == Signals(store, d, ratio, limit, calendar)
  {
    hide OfSupplier, Prior, History;
    PriorIgnoresItselfIff(store, d, at, limit);
    OnlyItself(store, d, at);
  }

  lemma OnlyItself(store: Store, d: Document, at: nat)
    requires at <= |store| && !Known(store, d)
    ensures Stored(Remember(store, d, at), d) == Some(d)
  {
    var store' := Remember(store, d, at);
    assert store'[at] == d;
    forall k | 0 <= k < |store'| && k != at ensures !SameKey(store'[k], d) {
      assert store'[k] == store[if k < at then k else k - 1];
    }
  }

  const MAX_NUMBER_CHARS := 64

  predicate IsAlphanumeric(c: char) { 'A' <= c <= 'Z' || 'a' <= c <= 'z' || IsDigit(c) }

  /** A document number the supplier may use: `[A-Za-z0-9][A-Za-z0-9/_.-]{0,63}`. */
  predicate NumberOk(s: string) {
    && 1 <= |s| <= MAX_NUMBER_CHARS && IsAlphanumeric(s[0])
    && forall k :: 0 <= k < |s| ==> IsAlphanumeric(s[k]) || s[k] in {'/', '_', '.', '-'}
  }

  /** The number of a sibling: a letter the document's own number does not start with, and
      the digits of `k`. */
  function SiblingNumber(number: string, k: nat): string {
    [if number != "" && number[0] == 'A' then 'B' else 'A'] + Decimal(k)
  }

  /** A document of the same supplier under another number. */
  function Sibling(d: Document, k: nat, currency: Currency): Document {
    d.(number := SiblingNumber(d.number, k), currency := currency)
  }

  lemma SiblingNumberOk(number: string, k: nat)
    requires k < MAX_HISTORY
    ensures NumberOk(SiblingNumber(number, k)) && SiblingNumber(number, k) != number
  {
    DecimalLength(k, 3);
    assert Pow10(3) == 10 * Pow10(2) && Pow10(2) == 10 * Pow10(1) && Pow10(1) == 10 * Pow10(0);
    var s := SiblingNumber(number, k);
    forall j | 1 <= j < |s| ensures IsDigit(s[j]) {
      assert s[j] == Decimal(k)[j - 1];
    }
  }

  lemma SiblingNumbersDiffer(number: string, j: nat, k: nat)
    requires j != k
    ensures SiblingNumber(number, j) != SiblingNumber(number, k)
  {
    assert SiblingNumber(number, j)[1..] == Decimal(j) && SiblingNumber(number, k)[1..] == Decimal(k);
    assert Value(Decimal(j)) != Value(Decimal(k));
  }

  function Another(c: Currency): Currency { if c == UZS then USD else UZS }

  /** A full history of which only the oldest row is in the document's own currency. */
  function FullHistory(d: Document, n: nat): Store {
    seq(n, k requires 0 <= k < n => Sibling(d, k, if k == n - 1 then d.currency else Another(d.currency)))
  }

  /** The condition is needed, whatever the limit: storing the document first can push the
      only prior document of its currency out, and then there is no history to compare with. */
  lemma StoringFirstCanHideHistory(d: Document, ratio: nat, limit: int, calendar: Calendar)
    ensures var store := FullHistory(d, Clamp(limit));
            && UniqueKeys(store) && !Known(store, d)
            && (forall k :: 0 <= k < |store| ==> NumberOk(store[k].number))
            && NoHistory !in Signals(store, d, ratio, limit, calendar)
            && NoHistory in Signals(Remember(store, d, 0), d, ratio, limit, calendar)
  {
    hide OfSupplier, Prior, Median, Signals;
    var n := Clamp(limit);
    var store := FullHistory(d, n);
    SiblingsDiffer(d, n);
    hide NumberOk;
    AllOfSupplier(store, d.supplier);
    var store' := Remember(store, d, 0);
    assert store' == [d] + store;
    AllOfSupplier(store', d.supplier);
    assert store'[..n] == [d] + store[..n - 1];
    NoHistoryIff(store, d, ratio, limit, calendar);
    NoHistoryIff(store', d, ratio, limit, calendar);
    assert History(store, d.supplier, limit)[n - 1] == store[n - 1];
    forall k | 0 <= k < n ensures store'[..n][k].currency != d.currency || SameKey(store'[..n][k], d) {
      assert k > 0 ==> store'[..n][k] == store[k - 1];
    }
  }

  lemma SiblingsDiffer(d: Document, n: nat)
    requires n <= MAX_HISTORY
    ensures UniqueKeys(FullHistory(d, n)) && !Known(FullHistory(d, n), d)
    ensures forall k :: 0 <= k < n ==>
              && FullHistory(d, n)[k].supplier == d.supplier && NumberOk(FullHistory(d, n)[k].number)
              && (FullHistory(d, n)[k].currency == d.currency <==> k == n - 1)
  {
    hide SiblingNumber, NumberOk;
    var store := FullHistory(d, n);
    forall k | 0 <= k < n
      ensures store[k].number == SiblingNumber(d.number, k) != d.number && NumberOk(store[k].number)
      ensures store[k].supplier == d.supplier && (store[k].currency == d.currency <==> k == n - 1)
    {
      assert store[k] == Sibling(d, k, if k == n - 1 then d.currency else Another(d.currency));
      SiblingNumberOk(d.number, k);
    }
    forall j, k | 0 <= j < k < n ensures store[j].number != store[k].number {
      SiblingNumbersDiffer(d.number, j, k);
    }
  }

  lemma {:induction false} AllOfSupplier(store: Store, supplier: string)
    requires forall k :: 0 <= k < |store| ==> store[k].supplier == supplier
    ensures OfSupplier(store, supplier) == store
  {
    if store != [] {
      AllOfSupplier(store[..|store| - 1], supplier);
    }
  }
}
