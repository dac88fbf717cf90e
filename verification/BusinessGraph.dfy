/** The business graph: one pass over every source, indexed by entity id, instead of one
    pass per id. */
module BusinessGraph {
  import opened Basics

  const MAX_SCAN := 200
  const MAX_MATCHES := 100

  /** A row as a provider returned it. A cell that is absent is None; the text of a key cell
      is the entity id. */
  datatype Row = NotAnObject | Row(cells: map<string, string>)

  /** One declared source: the field holding the id, and the field of each attribute. */
  datatype Source = Source(name: string, key: string, fields: seq<(string, string)>)

  /** What reading a source came to. `Denied` is Forbidden, which ends the whole call; `cut`
      is the source's own evidence that it may hold more rows than it returned. */
  datatype Reading = Denied | Failed | Got(rows: seq<Row>, cut: bool)

  datatype Obs = Obs(source: string, value: string)

  datatype Status = Status(source: string, rows: nat, matched: nat, read: bool, truncated: bool)

  type Bucket = map<string, seq<Obs>>

  /** `by_id`, with its keys in insertion order, and the sources that could not be read. */
  datatype Index = Index(ids: seq<string>, buckets: map<string, Bucket>, status: seq<Status>, failed: seq<string>)

  function Lookup(b: Bucket, attribute: string): seq<Obs> {
    if attribute in b then b[attribute] else []
  }

  function BucketOf(buckets: map<string, Bucket>, id: string): Bucket {
    if id in buckets then buckets[id] else map[]
  }

  // ------------------------------------------------------------- what a read means

  predicate Blank(s: string) { forall c :: c in s ==> IsSpace(c) }

  /** The id a row carries, if it carries one. */
  function KeyOf(key: string, row: Row): Option<string> {
    if row.Row? && key in row.cells && !Blank(row.cells[key]) then Some(row.cells[key]) else None
  }

  function Scanned(rows: seq<Row>): seq<Row> { if |rows| <= MAX_SCAN then rows else rows[..MAX_SCAN] }

  /** The first row carrying an id: a source contributes at most one row per entity. */
  function FirstRow(key: string, rows: seq<Row>, id: string): Option<Row> {
    if rows == [] then None
    else
      var earlier := FirstRow(key, rows[..|rows| - 1], id);
      var last := rows[|rows| - 1];
      if earlier.Some? then earlier else if KeyOf(key, last) == Some(id) then Some(last) else None
  }

  /** What one cell says of one attribute. Empty cells say nothing. */
  function SaidInCell(name: string, mapping: (string, string), row: Row, attribute: string): seq<Obs> {
    if mapping.0 == attribute && row.Row? && mapping.1 in row.cells && row.cells[mapping.1] != ""
    then [Obs(name, row.cells[mapping.1])] else []
  }

  /** What one row says of one attribute. */
  function Said(name: string, fields: seq<(string, string)>, row: Row, attribute: string): seq<Obs> {
    if fields == [] then []
    else
      Said(name, fields[..|fields| - 1], row, attribute) + SaidInCell(name, fields[|fields| - 1], row, attribute)
  }

  lemma SaidNext(name: string, fields: seq<(string, string)>, k: nat, row: Row, attribute: string)
    requires k < |fields|
    ensures Said(name, fields[..k + 1], row, attribute)
         == Said(name, fields[..k], row, attribute) + SaidInCell(name, fields[k], row, attribute)
  {
    assert fields[..k + 1][..k] == fields[..k];
  }

  lemma SaidByNext(source: Source, rows: seq<Row>, k: nat, id: string, attribute: string)
    requires k < |rows|
    ensures SaidBy(source, rows[..k + 1], id, attribute)
         == if FirstRow(source.key, rows[..k], id).Some? || KeyOf(source.key, rows[k]) != Some(id)
            then SaidBy(source, rows[..k], id, attribute)
            else SaidBy(source, rows[..k], id, attribute) + Said(source.name, source.fields, rows[k], attribute)
    ensures FirstRow(source.key, rows[..k + 1], id).Some?
       <==> FirstRow(source.key, rows[..k], id).Some? || KeyOf(source.key, rows[k]) == Some(id)
  {
    assert rows[..k + 1][..k] == rows[..k];
  }

  function SaidBy(source: Source, rows: seq<Row>, id: string, attribute: string): seq<Obs> {
    var row := FirstRow(source.key, rows, id);
    if row.None? then [] else Said(source.name, source.fields, row.value, attribute)
  }

  /** The meaning of a collection: for one id and one attribute, what each source's first
      row for the id says, in the declared order of the sources. */
  function Observations(sources: seq<Source>, readings: seq<Reading>, id: string, attribute: string): seq<Obs>
    requires |sources| == |readings|
  {
    if sources == [] then []
    else
      var n := |sources| - 1;
      Observations(sources[..n], readings[..n], id, attribute)
      + (if readings[n].Got? then SaidBy(sources[n], Scanned(readings[n].rows), id, attribute) else [])
  }

  /** Adds an id at the end unless it is there. */
  function Noted(ids: seq<string>, id: string): seq<string> { if id in ids then ids else ids + [id] }

  function IdsOfRows(key: string, rows: seq<Row>, before: seq<string>): seq<string> {
    if rows == [] then before
    else
      var ids := IdsOfRows(key, rows[..|rows| - 1], before);
      var k := KeyOf(key, rows[|rows| - 1]);
      if k.Some? then Noted(ids, k.value) else ids
  }

  /** Every id, in the order of its first sighting. */
  function AllIds(sources: seq<Source>, readings: seq<Reading>): seq<string>
    requires |sources| == |readings|
  {
    if sources == [] then []
    else
      var n := |sources| - 1;
      var before := AllIds(sources[..n], readings[..n]);
      if readings[n].Got? then IdsOfRows(sources[n].key, Scanned(readings[n].rows), before) else before
  }

  predicate AnyDenied(readings: seq<Reading>) { Denied in readings }

  /** `_source_truncated`: the source may hold rows this read did not see. */
  predicate Truncated(reading: Reading) { reading.Got? && (reading.cut || |reading.rows| > MAX_SCAN) }

  /** The sources a read may have left rows in, in their order. */
  function TruncatedSources(sources: seq<Source>, readings: seq<Reading>): seq<string>
    requires |sources| == |readings|
  {
    if sources == [] then []
    else
      var n := |sources| - 1;
      TruncatedSources(sources[..n], readings[..n]) + (if Truncated(readings[n]) then [sources[n].name] else [])
  }

  /** The sources that could not be read, in their order. */
  function FailedSources(sources: seq<Source>, readings: seq<Reading>): seq<string>
    requires |sources| == |readings|
  {
    if sources == [] then []
    else
      var n := |sources| - 1;
      FailedSources(sources[..n], readings[..n]) + (if readings[n].Failed? then [sources[n].name] else [])
  }

  /** The status of a source says what its read came to. */
  predicate StatusFits(s: Status, source: Source, reading: Reading, matched: nat) {
    && s.source == source.name && (s.read <==> reading.Got?) && (s.truncated <==> Truncated(reading))
    && (reading.Got? ==> s.rows == |reading.rows| && s.matched == matched)
    && (!reading.Got? ==> s.rows == 0 && s.matched == 0)
  }

  /** `_truncated_names`. With `unmatchedOnly`, a source that returned the id does not count. */
  method TruncatedNames(status: seq<Status>, unmatchedOnly: bool) returns (names: seq<string>)
    ensures names == NamesOf(status, unmatchedOnly)
  {
    names := [];
    for k := 0 to |status|
      invariant names == NamesOf(status[..k], unmatchedOnly)
    {
      assert status[..k + 1][..k] == status[..k];
      if status[k].truncated && !(unmatchedOnly && status[k].matched > 0) { names := names + [status[k].source]; }
    }
    assert status[..|status|] == status;
  }

  function NamesOf(status: seq<Status>, unmatchedOnly: bool): seq<string> {
    if status == [] then []
    else
      var s := status[|status| - 1];
      NamesOf(status[..|status| - 1], unmatchedOnly)
      + (if s.truncated && !(unmatchedOnly && s.matched > 0) then [s.source] else [])
  }

  lemma {:induction false} NamesAreTruncated(status: seq<Status>, sources: seq<Source>, readings: seq<Reading>)
    requires |status| == |sources| == |readings|
    requires forall n :: 0 <= n < |sources| ==>
               status[n].source == sources[n].name && (status[n].truncated <==> Truncated(readings[n]))
    ensures NamesOf(status, false) == TruncatedSources(sources, readings)
  {
    if status != [] {
      var n := |status| - 1;
      NamesAreTruncated(status[..n], sources[..n], readings[..n]);
    }
  }

  // ------------------------------------------------------------------ shared loops

  /** The attribute loop of one row, into one bucket. */
  method AddRow(bucket: Bucket, source: Source, row: Row) returns (b: Bucket)
    requires row.Row?
    ensures forall a :: Lookup(b, a) == Lookup(bucket, a) + Said(source.name, source.fields, row, a)
  {
    hide Said, SaidInCell, Lookup;
    b := bucket;
    NothingSaid(source.name, row);
    for k := 0 to |source.fields|
      invariant forall a :: Lookup(b, a) == Lookup(bucket, a) + Said(source.name, source.fields[..k], row, a)
    {
      var was := b;
      var (attribute, field) := source.fields[k];
      if field in row.cells && row.cells[field] != "" {
        b := b[attribute := Lookup(b, attribute) + [Obs(source.name, row.cells[field])]];
      }
      forall a ensures Lookup(b, a) == Lookup(bucket, a) + Said(source.name, source.fields[..k + 1], row, a) {
        SaidNext(source.name, source.fields, k, row, a);
        CellIsAdded(was, b, source.name, source.fields[k], row, a);
        Assoc(Lookup(bucket, a), Said(source.name, source.fields[..k], row, a),
              SaidInCell(source.name, source.fields[k], row, a));
      }
    }
    assert source.fields[..|source.fields|] == source.fields;
  }

  lemma CellIsAdded(b: Bucket, b': Bucket, name: string, mapping: (string, string), row: Row, a: string)
    requires row.Row?
    requires b' == if mapping.1 in row.cells && row.cells[mapping.1] != ""
                   then b[mapping.0 := Lookup(b, mapping.0) + [Obs(name, row.cells[mapping.1])]] else b
    ensures Lookup(b', a) == Lookup(b, a) + SaidInCell(name, mapping, row, a)
  {
  }

  lemma NothingSaid(name: string, row: Row)
    ensures forall a :: Said(name, [], row, a) == []
  {
  }

  // ------------------------------------------------------------------- one id at a time

  /** How many rows a source contributes for one id: one, or none. */
  function MatchedIn(source: Source, reading: Reading, id: string): nat {
    if reading.Got? && FirstRow(source.key, Scanned(reading.rows), id).Some? then 1 else 0
  }

  /** `_collect` for one entity id. None: a source refused the agent. */
  method Collect(sources: seq<Source>, readings: seq<Reading>, id: string)
    returns (r: Option<(Bucket, seq<Status>)>)
    requires |sources| == |readings|
    ensures r.None? <==> AnyDenied(readings)
    ensures r.Some? ==> forall a :: Lookup(r.value.0, a) == Observations(sources, readings, id, a)
    ensures r.Some? ==> |r.value.1| == |sources|
    ensures r.Some? ==> forall n :: 0 <= n < |sources| ==>
              StatusFits(r.value.1[n], sources[n], readings[n], MatchedIn(sources[n], readings[n], id))
  {
    hide SaidBy, FirstRow, Lookup, Scanned;
    NothingCollected();
    var observations: Bucket := map[];
    var status: seq<Status> := [];
    for n := 0 to |sources|
      invariant !AnyDenied(readings[..n]) && |status| == n
      invariant forall a :: Lookup(observations, a) == Observations(sources[..n], readings[..n], id, a)
      invariant forall m :: 0 <= m < n ==>
                  StatusFits(status[m], sources[m], readings[m], MatchedIn(sources[m], readings[m], id))
    {
      assert sources[..n + 1][..n] == sources[..n] && readings[..n + 1][..n] == readings[..n];
      if readings[n].Denied? { return None; }
      if readings[n].Failed? {
        status := status + [Status(sources[n].name, 0, 0, false, false)];
      } else {
        var matched := 0;
        observations, matched := CollectRows(observations, sources[n], Scanned(readings[n].rows), id);
        status := status + [Status(sources[n].name, |readings[n].rows|, matched, true, Truncated(readings[n]))];
      }
    }
    assert sources[..|sources|] == sources && readings[..|sources|] == readings;
    return Some((observations, status));
  }

  /** The row loop of `_collect` for one id. */
  method CollectRows(bucket: Bucket, source: Source, rows: seq<Row>, id: string)
    returns (b: Bucket, matched: nat)
    ensures forall a :: Lookup(b, a) == Lookup(bucket, a) + SaidBy(source, rows, id, a)
    ensures matched == if FirstRow(source.key, rows, id).Some? then 1 else 0
  {
    hide Said, SaidBy, FirstRow, KeyOf, Lookup;
    b, matched := bucket, 0;
    var seen := {};
    NoRowsYet(source, []);
    for k := 0 to |rows|
      invariant forall a :: Lookup(b, a) == Lookup(bucket, a) + SaidBy(source, rows[..k], id, a)
      invariant seen == if FirstRow(source.key, rows[..k], id).Some? then {id} else {}
      invariant matched == |seen|
    {
      var was := b;
      var key := KeyOf(source.key, rows[k]);
      var isNew := key == Some(id) && id !in seen;
      SaidByNext(source, rows, k, id, "");
      if isNew {
        seen := seen + {id};
        matched := matched + 1;
        KeyedIsRow(source.key, rows[k]);
        b := AddRow(b, source, rows[k]);
      }
      forall a ensures Lookup(b, a) == Lookup(bucket, a) + SaidBy(source, rows[..k + 1], id, a) {
        SaidByNext(source, rows, k, id, a);
        Assoc(Lookup(bucket, a), SaidBy(source, rows[..k], id, a), Said(source.name, source.fields, rows[k], a));
      }
    }
    assert rows[..|rows|] == rows;
  }

  lemma Assoc(a: seq<Obs>, b: seq<Obs>, c: seq<Obs>)
    ensures (a + b) + c == a + (b + c)
  {
  }

  lemma KeyedIsRow(key: string, row: Row)
    requires KeyOf(key, row).Some?
    ensures row.Row?
  {
  }

  // -------------------------------------------------------------------- the whole index

  /** `_collect_all`: every source read once, its rows grouped by id. Main result: for every
      id, seen or not, the index holds exactly what reading for that id alone would return,
      and its ids are in the order of first sighting. */
  method CollectAll(sources: seq<Source>, readings: seq<Reading>) returns (r: Option<Index>)
    requires |sources| == |readings|
    ensures r.None? <==> AnyDenied(readings)
    ensures r.Some? ==> forall id, a ::
              Lookup(BucketOf(r.value.buckets, id), a) == Observations(sources, readings, id, a)
    ensures r.Some? ==> r.value.ids == AllIds(sources, readings)
    ensures r.Some? ==> forall id :: id in r.value.ids <==> id in r.value.buckets
    ensures r.Some? ==> StatusesFit(r.value.status, sources, readings)
    ensures r.Some? ==> r.value.failed == FailedSources(sources, readings)
  {
    hide SaidBy, FirstRow, Lookup, BucketOf, IdsOfRows, Scanned, StatusesFit;
    var ids: seq<string> := [];
    var buckets: map<string, Bucket> := map[];
    var status: seq<Status> := [];
    var failed: seq<string> := [];
    NothingCollected();
    for n := 0 to |sources|
      invariant !AnyDenied(readings[..n])
      invariant forall id, a :: Lookup(BucketOf(buckets, id), a) == Observations(sources[..n], readings[..n], id, a)
      invariant ids == AllIds(sources[..n], readings[..n])
      invariant forall id :: id in ids <==> id in buckets
      invariant StatusesFit(status, sources[..n], readings[..n])
      invariant failed == FailedSources(sources[..n], readings[..n])
    {
      assert sources[..n + 1][..n] == sources[..n] && readings[..n + 1][..n] == readings[..n];
      if readings[n].Denied? { return None; }
      var before := status;
      if readings[n].Failed? {
        failed := failed + [sources[n].name];
        status := status + [Status(sources[n].name, 0, 0, false, false)];
      } else {
        var matched;
        ids, buckets, matched := IndexRows(ids, buckets, sources[n], Scanned(readings[n].rows));
        status := status + [Status(sources[n].name, |readings[n].rows|, matched, true, Truncated(readings[n]))];
      }
      StatusesNext(before, status[|before|], status, sources, readings, n);
    }
    assert sources[..|sources|] == sources && readings[..|sources|] == readings;
    return Some(Index(ids, buckets, status, failed));
  }

  /** How many ids a source supplies. */
  function SuppliedBy(source: Source, reading: Reading): nat {
    if reading.Got? then |IdsOfRows(source.key, Scanned(reading.rows), [])| else 0
  }

  predicate StatusesFit(status: seq<Status>, sources: seq<Source>, readings: seq<Reading>) {
    && |status| == |sources| == |readings|
    && forall n :: 0 <= n < |sources| ==>
         StatusFits(status[n], sources[n], readings[n], SuppliedBy(sources[n], readings[n]))
  }

  lemma NothingCollected()
    ensures forall id, a :: Lookup(BucketOf(map[], id), a) == []
    ensures forall a :: Lookup(map[], a) == []
    ensures StatusesFit([], [], [])
  {
  }

  lemma StatusesNext(
    status: seq<Status>, s: Status, status': seq<Status>, sources: seq<Source>, readings: seq<Reading>, n: nat)
    requires n < |sources| == |readings| && StatusesFit(status, sources[..n], readings[..n])
    requires status' == status + [s] && StatusFits(s, sources[n], readings[n], SuppliedBy(sources[n], readings[n]))
    ensures StatusesFit(status', sources[..n + 1], readings[..n + 1])
  {
    hide StatusFits, SuppliedBy;
    forall m | 0 <= m < n + 1
      ensures StatusFits(status'[m], sources[..n + 1][m], readings[..n + 1][m],
                         SuppliedBy(sources[..n + 1][m], readings[..n + 1][m]))
    {
      if m < n {
        assert status'[m] == status[m] && sources[..n][m] == sources[m] && readings[..n][m] == readings[m];
      }
    }
  }

  /** The row loop of `_collect_all` for one source. */
  method IndexRows(ids: seq<string>, buckets: map<string, Bucket>, source: Source, rows: seq<Row>)
    returns (ids': seq<string>, buckets': map<string, Bucket>, matched: nat)
    requires forall id :: id in ids <==> id in buckets
    ensures forall id, a ::
              Lookup(BucketOf(buckets', id), a) == Lookup(BucketOf(buckets, id), a) + SaidBy(source, rows, id, a)
    ensures ids' == IdsOfRows(source.key, rows, ids)
    ensures forall id :: id in ids' <==> id in buckets'
    ensures matched == |IdsOfRows(source.key, rows, [])|
  {
    hide Said, SaidBy, FirstRow, IdsOfRows, KeyOf, Lookup, BucketOf;
    ids', buckets', matched := ids, buckets, 0;
    var seen: set<string> := {};
    NoRowsYet(source, ids);
    NoRowsYet(source, []);
    for k := 0 to |rows|
      invariant forall id, a ::
                  Lookup(BucketOf(buckets', id), a)
                  == Lookup(BucketOf(buckets, id), a) + SaidBy(source, rows[..k], id, a)
      invariant ids' == IdsOfRows(source.key, rows[..k], ids)
      invariant forall id :: id in ids' <==> id in buckets'
      invariant forall id :: id in seen <==> FirstRow(source.key, rows[..k], id).Some?
      invariant forall id :: id in seen ==> id in ids'
      invariant matched == |IdsOfRows(source.key, rows[..k], [])|
      invariant forall id :: id in seen <==> id in IdsOfRows(source.key, rows[..k], [])
    {
      IdsNext(source.key, rows, k, ids);
      IdsNext(source.key, rows, k, []);
      var key := KeyOf(source.key, rows[k]);
      if key.Some? && key.value !in seen {
        matched := matched + 1;
        ids', buckets' := IndexRow(ids', buckets', source, rows[k], key.value);
      }
      forall id, a
        ensures Lookup(BucketOf(buckets', id), a)
             == Lookup(BucketOf(buckets, id), a) + SaidBy(source, rows[..k + 1], id, a)
      {
        SaidByNext(source, rows, k, id, a);
        Assoc(Lookup(BucketOf(buckets, id), a), SaidBy(source, rows[..k], id, a),
              Said(source.name, source.fields, rows[k], a));
      }
      forall id ensures FirstRow(source.key, rows[..k + 1], id).Some? <==> id in seen || key == Some(id) {
        SaidByNext(source, rows, k, id, "");
      }
      if key.Some? { seen := seen + {key.value}; }
    }
    assert rows[..|rows|] == rows;
  }

  /** The first row of a source that carries `id`, into its bucket. */
  method IndexRow(ids: seq<string>, buckets: map<string, Bucket>, source: Source, row: Row, id: string)
    returns (ids': seq<string>, buckets': map<string, Bucket>)
    requires KeyOf(source.key, row) == Some(id)
    requires forall i :: i in ids <==> i in buckets
    ensures forall a :: Lookup(BucketOf(buckets', id), a)
                     == Lookup(BucketOf(buckets, id), a) + Said(source.name, source.fields, row, a)
    ensures forall i :: i != id ==> BucketOf(buckets', i) == BucketOf(buckets, i)
    ensures ids' == Noted(ids, id) && forall i :: i in ids' <==> i in buckets'
  {
    ids', buckets' := ids, buckets;
    if id !in buckets' {
      ids' := ids' + [id];
      buckets' := buckets'[id := map[]];
    }
    var was := buckets'[id];
    var bucket := AddRow(was, source, row);
    buckets' := buckets'[id := bucket];
    assert was == BucketOf(buckets, id) && bucket == BucketOf(buckets', id);
  }

  lemma NoRowsYet(source: Source, ids: seq<string>)
    ensures forall id :: FirstRow(source.key, [], id).None?
    ensures forall id, a :: SaidBy(source, [], id, a) == []
    ensures IdsOfRows(source.key, [], ids) == ids
  {
  }

  lemma IdsNext(key: string, rows: seq<Row>, k: nat, before: seq<string>)
    requires k < |rows|
    ensures IdsOfRows(key, rows[..k + 1], before)
         == if KeyOf(key, rows[k]).Some? then Noted(IdsOfRows(key, rows[..k], before), KeyOf(key, rows[k]).value)
            else IdsOfRows(key, rows[..k], before)
  {
    assert rows[..k + 1][..k] == rows[..k];
  }

  // ------------------------------------------------------------------------ identifiers

  function Take<T>(s: seq<T>, n: nat): seq<T> { if |s| <= n then s else s[..n] }

  /** `identifiers` over an index already collected. */
  method IdentifiersCollected(index: Index, limit: nat) returns (ids: seq<string>, cut: bool)
    requires NoRepeats(index.ids)
    ensures ids == Take(index.ids, limit) && (cut <==> |index.ids| > limit)
  {
    ids := [];
    var seen: set<string> := {};
    for k := 0 to |index.ids|
      invariant k <= limit && ids == index.ids[..k]
      invariant forall id :: id in seen <==> id in index.ids[..k]
    {
      if index.ids[k] !in seen {
        if |ids| >= limit { return ids, true; }
        seen := seen + {index.ids[k]};
        ids := ids + [index.ids[k]];
      }
    }
    return ids, false;
  }

  predicate NoRepeats(s: seq<string>) { forall i, j :: 0 <= i < j < |s| ==> s[i] != s[j] }

  lemma {:induction false} IdsOfRowsExtend(key: string, rows: seq<Row>, before: seq<string>)
    requires NoRepeats(before)
    ensures NoRepeats(IdsOfRows(key, rows, before)) && before <= IdsOfRows(key, rows, before)
    decreases |rows|
  {
    if rows != [] {
      IdsOfRowsExtend(key, rows[..|rows| - 1], before);
    }
  }

  lemma {:induction false} AllIdsDistinct(sources: seq<Source>, readings: seq<Reading>)
    requires |sources| == |readings|
    ensures NoRepeats(AllIds(sources, readings))
    decreases |sources|
  {
    if sources != [] {
      var n := |sources| - 1;
      AllIdsDistinct(sources[..n], readings[..n]);
      if readings[n].Got? {
        IdsOfRowsExtend(sources[n].key, Scanned(readings[n].rows), AllIds(sources[..n], readings[..n]));
      }
    }
  }

  /** Ids of a longer read extend those of a shorter one. */
  lemma {:induction false} AllIdsGrow(sources: seq<Source>, readings: seq<Reading>, n: nat)
    requires |sources| == |readings| && n <= |sources|
    ensures AllIds(sources[..n], readings[..n]) <= AllIds(sources, readings)
    decreases |sources|
  {
    if n == |sources| {
      assert sources[..n] == sources && readings[..n] == readings;
    } else {
      var m := |sources| - 1;
      assert sources[..m][..n] == sources[..n] && readings[..m][..n] == readings[..n];
      AllIdsGrow(sources[..m], readings[..m], n);
      AllIdsDistinct(sources[..m], readings[..m]);
      if readings[m].Got? {
        IdsOfRowsExtend(sources[m].key, Scanned(readings[m].rows), AllIds(sources[..m], readings[..m]));
      }
    }
  }

  lemma {:induction false} IdsOfRowsGrow(key: string, rows: seq<Row>, before: seq<string>, k: nat)
    requires k <= |rows| && NoRepeats(before)
    ensures IdsOfRows(key, rows[..k], before) <= IdsOfRows(key, rows, before)
    decreases |rows|
  {
    if k == |rows| {
      assert rows[..k] == rows;
    } else {
      assert rows[..|rows| - 1][..k] == rows[..k];
      IdsOfRowsGrow(key, rows[..|rows| - 1], before, k);
    }
  }

  /** A source refuses the agent before the read has seen more ids than the limit. */
  ghost predicate RefusedWithin(sources: seq<Source>, readings: seq<Reading>, limit: nat)
    requires |sources| == |readings|
  {
    exists n :: 0 <= n < |sources| && readings[n].Denied? && |AllIds(sources[..n], readings[..n])| <= limit
  }

  /** `identifiers` reading the sources itself, stopping at the first id over the limit. None,
      which is Forbidden, if and only if a source refuses before that; the index refuses for
      any source. Otherwise it returns the same ids and the same cut as over the index, and
      the sources that could not be read before it stopped. */
  method IdentifiersRead(sources: seq<Source>, readings: seq<Reading>, limit: nat)
    returns (r: Option<(seq<string>, seq<string>, bool)>)
    requires |sources| == |readings|
    ensures r.None? <==> RefusedWithin(sources, readings, limit)
    ensures r.Some? ==> r.value.0 == Take(AllIds(sources, readings), limit)
    ensures r.Some? ==> (r.value.2 <==> |AllIds(sources, readings)| > limit)
    ensures r.Some? ==> r.value.1 <= FailedSources(sources, readings)
    ensures r.Some? && !r.value.2 ==> r.value.1 == FailedSources(sources, readings)
  {
    hide AllIds, IdsOfRows, KeyOf, FailedSources, RefusedWithin, Scanned, Take;
    var ids, failed := [], [];
    NoSourcesYet();
    assert sources[..0] == [] && readings[..0] == [];
    for n := 0 to |sources|
      invariant ids == AllIds(sources[..n], readings[..n]) && |ids| <= limit
      invariant forall m :: 0 <= m < n ==> !readings[m].Denied?
      invariant failed == FailedSources(sources[..n], readings[..n])
    {
      AllIdsNext(sources, readings, n);
      FailedNext(sources, readings, n);
      if readings[n].Denied? {
        RefusedAt(sources, readings, n, limit);
        return None;
      }
      if readings[n].Failed? { failed := failed + [sources[n].name]; }
      if readings[n].Got? {
        var before := ids;
        var rows := Scanned(readings[n].rows);
        AllIdsDistinct(sources[..n], readings[..n]);
        AllIdsGrow(sources, readings, n + 1);
        NoRowsYet(sources[n], before);
        for k := 0 to |rows|
          invariant ids == IdsOfRows(sources[n].key, rows[..k], before) && |ids| <= limit
        {
          IdsNext(sources[n].key, rows, k, before);
          var key := KeyOf(sources[n].key, rows[k]);
          if key.Some? && key.value !in ids {
            if |ids| >= limit {
              IdsOfRowsGrow(sources[n].key, rows, before, k + 1);
              PrefixTaken(ids, ids + [key.value], AllIds(sources, readings), limit);
              NotRefusedWithin(sources, readings, n, limit);
              FailedGrow(sources, readings, n);
              return Some((ids, failed, true));
            }
            ids := ids + [key.value];
          }
        }
        assert rows[..|rows|] == rows;
      }
    }
    assert sources[..|sources|] == sources && readings[..|sources|] == readings;
    NeverRefused(sources, readings, limit);
    AllTaken(ids, limit);
    return Some((ids, failed, false));
  }

  lemma FailedNext(sources: seq<Source>, readings: seq<Reading>, n: nat)
    requires |sources| == |readings| && n < |sources|
    ensures FailedSources(sources[..n + 1], readings[..n + 1])
         == FailedSources(sources[..n], readings[..n]) + (if readings[n].Failed? then [sources[n].name] else [])
  {
    assert sources[..n + 1][..n] == sources[..n] && readings[..n + 1][..n] == readings[..n];
  }

  lemma RefusedAt(sources: seq<Source>, readings: seq<Reading>, n: nat, limit: nat)
    requires |sources| == |readings| && n < |sources|
    requires readings[n].Denied? && |AllIds(sources[..n], readings[..n])| <= limit
    ensures RefusedWithin(sources, readings, limit)
  {
    hide AllIds;
  }

  lemma NeverRefused(sources: seq<Source>, readings: seq<Reading>, limit: nat)
    requires |sources| == |readings| && forall m :: 0 <= m < |sources| ==> !readings[m].Denied?
    ensures !RefusedWithin(sources, readings, limit)
  {
    hide AllIds;
  }

  lemma {:induction false} FailedGrow(sources: seq<Source>, readings: seq<Reading>, n: nat)
    requires |sources| == |readings| && n <= |sources|
    ensures FailedSources(sources[..n], readings[..n]) <= FailedSources(sources, readings)
    decreases |sources|
  {
    if n == |sources| {
      assert sources[..n] == sources && readings[..n] == readings;
    } else {
      var m := |sources| - 1;
      assert sources[..m][..n] == sources[..n] && readings[..m][..n] == readings[..n];
      FailedGrow(sources[..m], readings[..m], n);
    }
  }

  /** Whoever has seen more ids than the limit before any refusal is not refused. */
  lemma NotRefusedWithin(sources: seq<Source>, readings: seq<Reading>, n: nat, limit: nat)
    requires |sources| == |readings| && n < |sources|
    requires forall m :: 0 <= m <= n ==> !readings[m].Denied?
    requires |AllIds(sources[..n + 1], readings[..n + 1])| > limit
    ensures !RefusedWithin(sources, readings, limit)
  {
    hide AllIds;
    forall m | 0 <= m < |sources| && readings[m].Denied? ensures |AllIds(sources[..m], readings[..m])| > limit {
      assert sources[..m][..n + 1] == sources[..n + 1] && readings[..m][..n + 1] == readings[..n + 1];
      AllIdsGrow(sources[..m], readings[..m], n + 1);
    }
  }

  lemma NoSourcesYet()
    ensures AllIds([], []) == [] && FailedSources([], []) == []
  {
  }

  lemma AllIdsNext(sources: seq<Source>, readings: seq<Reading>, n: nat)
    requires |sources| == |readings| && n < |sources|
    ensures AllIds(sources[..n + 1], readings[..n + 1])
         == var before := AllIds(sources[..n], readings[..n]);
            if readings[n].Got? then IdsOfRows(sources[n].key, Scanned(readings[n].rows), before) else before
  {
    assert sources[..n + 1][..n] == sources[..n] && readings[..n + 1][..n] == readings[..n];
  }

  lemma AllTaken(ids: seq<string>, limit: nat)
    requires |ids| <= limit
    ensures ids == Take(ids, limit)
  {
  }

  lemma PrefixTaken(ids: seq<string>, more: seq<string>, all: seq<string>, limit: nat)
    requires |ids| == limit && ids <= more <= all && |more| > limit
    ensures ids == Take(all, limit) && |all| > limit
  {
  }

  // -------------------------------------------------------------------------- selection

  /** The declaration a view is built against. */
  datatype Declaration = Declaration(
    priority: seq<string>, attributePriority: map<string, seq<string>>, primaryWins: bool)

  datatype Choice = Choice(value: string, source: string)

  predicate Present(values: seq<Obs>, name: string) { exists k :: 0 <= k < |values| && values[k].source == name }

  /** The source is the first of the order that supplied the attribute; where none of the
      order did, it is the one that was read first. */
  ghost predicate Preferred(order: seq<string>, values: seq<Obs>, name: string)
    requires values != []
  {
    || ((forall j :: 0 <= j < |order| ==> !Present(values, order[j])) && name == values[0].source)
    || exists k :: 0 <= k < |order| && FirstPresent(order, values, name, k)
  }

  predicate FirstPresent(order: seq<string>, values: seq<Obs>, name: string, k: nat)
    requires k < |order|
  {
    order[k] == name && Present(values, name) && forall j :: 0 <= j < k ==> !Present(values, order[j])
  }

  /** The first source of the declared order that supplied the attribute. */
  function Primary(order: seq<string>, values: seq<Obs>): (name: string)
    requires values != []
    ensures Present(values, name) && Preferred(order, values, name)
  {
    if order == [] then
      assert values[0].source == values[0].source;
      values[0].source
    else if Present(values, order[0]) then
      assert FirstPresent(order, values, order[0], 0);
      order[0]
    else
      assert forall k: nat :: k < |order[1..]| && FirstPresent(order[1..], values, Primary(order[1..], values), k) ==>
               FirstPresent(order, values, Primary(order[1..], values), k + 1);
      Primary(order[1..], values)
  }

  predicate Conflicting(canonical: string -> string, values: seq<Obs>) {
    exists j, k :: 0 <= j < k < |values| && canonical(values[j].value) != canonical(values[k].value)
  }

  /** What the source said first. */
  ghost predicate FirstFrom(values: seq<Obs>, name: string, o: Obs) {
    exists k :: 0 <= k < |values| && values[k] == o && o.source == name
                && forall j :: 0 <= j < k ==> values[j].source != name
  }

  function FirstOf(values: seq<Obs>, name: string): (o: Obs)
    requires Present(values, name)
    ensures o in values && FirstFrom(values, name, o)
  {
    if values[0].source == name then values[0]
    else
      assert forall k: nat :: k < |values[1..]| ==> values[1..][k] == values[k + 1];
      assert forall j: nat :: 0 < j < |values| ==> values[j] == values[1..][j - 1];
      FirstOf(values[1..], name)
  }

  function OrderFor(d: Declaration, attribute: string): seq<string> {
    if attribute in d.attributePriority && d.attributePriority[attribute] != [] then d.attributePriority[attribute]
    else d.priority
  }

  /** All sources say the same, but for the way it is written. */
  ghost predicate Agree(canonical: string -> string, values: seq<Obs>) {
    forall a, b :: a in values && b in values ==> canonical(a.value) == canonical(b.value)
  }

  /** What a view may show: the first value read where all agree, nothing where they do not and
      nobody is preferred, and else the first value of the preferred source, by the order
      declared for the attribute, or by the entity's where none was. */
  ghost predicate Shows(
    d: Declaration, canonical: string -> string, attribute: string, values: seq<Obs>, shown: Option<Choice>)
    requires values != []
  {
    if Agree(canonical, values) then shown == Some(Choice(values[0].value, values[0].source))
    else if !d.primaryWins then shown.None?
    else
      && shown.Some?
      && FirstFrom(values, shown.value.source, Obs(shown.value.source, shown.value.value))
      && Preferred(if attribute in d.attributePriority && |d.attributePriority[attribute]| > 0
                   then d.attributePriority[attribute] else d.priority, values, shown.value.source)
  }

  lemma AgreeIffNoConflict(canonical: string -> string, values: seq<Obs>)
    ensures Agree(canonical, values) <==> !Conflicting(canonical, values)
  {
    if !Agree(canonical, values) {
      var a, b :| a in values && b in values && canonical(a.value) != canonical(b.value);
      var j, k :| 0 <= j < |values| && 0 <= k < |values| && values[j] == a && values[k] == b;
      assert values[if j < k then j else k] in [a, b];
    }
  }

  /** `selected` of one attribute view. None: the sources disagree, and none is preferred. */
  function Selected(d: Declaration, canonical: string -> string, attribute: string, values: seq<Obs>)
    : (shown: Option<Choice>)
    requires values != []
    ensures Shows(d, canonical, attribute, values, shown)
  {
    AgreeIffNoConflict(canonical, values);
    if !Conflicting(canonical, values) then Some(Choice(values[0].value, values[0].source))
    else if d.primaryWins then
      var o := FirstOf(values, Primary(OrderFor(d, attribute), values));
      Some(Choice(o.value, o.source))
    else None
  }

  // ----------------------------------------------------------------------------- search

  datatype Match = Match(id: string, value: string, source: string, conflict: bool)

  predicate Hit(canonical: string -> string, values: seq<Obs>, target: string) {
    exists k :: 0 <= k < |values| && canonical(values[k].value) == target
  }

  /** The match an id makes. */
  function MatchOf(d: Declaration, canonical: string -> string, attribute: string, target: string,
                   id: string, values: seq<Obs>): seq<Match>
  {
    if !Hit(canonical, values, target) then []
    else
      var selected := Selected(d, canonical, attribute, values);
      var chosen := if selected.Some? then selected.value else Choice(values[0].value, values[0].source);
      [Match(id, chosen.value, chosen.source, Conflicting(canonical, values))]
  }

  /** The per-id definition of a search: every id one of whose values equals the target. */
  function Hits(d: Declaration, canonical: string -> string, sources: seq<Source>, readings: seq<Reading>,
                attribute: string, target: string, ids: seq<string>): seq<Match>
    requires |sources| == |readings|
  {
    if ids == [] then []
    else
      var id := ids[|ids| - 1];
      Hits(d, canonical, sources, readings, attribute, target, ids[..|ids| - 1])
      + MatchOf(d, canonical, attribute, target, id, Observations(sources, readings, id, attribute))
  }

  lemma HitsNext(d: Declaration, canonical: string -> string, sources: seq<Source>, readings: seq<Reading>,
                 attribute: string, target: string, ids: seq<string>, k: nat)
    requires |sources| == |readings| && k < |ids|
    ensures Hits(d, canonical, sources, readings, attribute, target, ids[..k + 1])
         == Hits(d, canonical, sources, readings, attribute, target, ids[..k])
            + MatchOf(d, canonical, attribute, target, ids[k], Observations(sources, readings, ids[k], attribute))
  {
    assert ids[..k + 1][..k] == ids[..k];
  }

  /** Some source says so. */
  ghost predicate Says(canonical: string -> string, values: seq<Obs>, target: string) {
    exists v :: v in values && canonical(v.value) == target
  }

  /** A match for an id: some source says the target of it, and it carries what a view of the
      id shows, or the first value read where a view shows none. */
  ghost predicate MatchFor(d: Declaration, canonical: string -> string, sources: seq<Source>, readings: seq<Reading>,
                           attribute: string, target: string, m: Match)
    requires |sources| == |readings|
  {
    var values := Observations(sources, readings, m.id, attribute);
    && Says(canonical, values, target) && values != []
    && (m.conflict <==> !Agree(canonical, values))
    && (if m.conflict && !d.primaryWins then m.value == values[0].value && m.source == values[0].source
        else Shows(d, canonical, attribute, values, Some(Choice(m.value, m.source))))
  }

  lemma MatchMeans(d: Declaration, canonical: string -> string, sources: seq<Source>, readings: seq<Reading>,
                   attribute: string, target: string, id: string)
    requires |sources| == |readings|
    ensures var values := Observations(sources, readings, id, attribute);
            var found := MatchOf(d, canonical, attribute, target, id, values);
            if Says(canonical, values, target)
            then
              && |found| == 1 && found[0].id == id
              && MatchFor(d, canonical, sources, readings, attribute, target, found[0])
            else found == []
  {
    hide Observations;
    var values := Observations(sources, readings, id, attribute);
    AgreeIffNoConflict(canonical, values);
    if Says(canonical, values, target) {
      var v :| v in values && canonical(v.value) == target;
      var k :| 0 <= k < |values| && values[k] == v;
      assert Hit(canonical, values, target);
    }
  }

  /** The ids some source says the target of, in their order. */
  ghost function Saying(canonical: string -> string, sources: seq<Source>, readings: seq<Reading>,
                        attribute: string, target: string, ids: seq<string>): seq<string>
    requires |sources| == |readings|
  {
    if ids == [] then []
    else
      var id := ids[|ids| - 1];
      Saying(canonical, sources, readings, attribute, target, ids[..|ids| - 1])
      + (if Says(canonical, Observations(sources, readings, id, attribute), target) then [id] else [])
  }

  /** The matches of these ids, in their order: one for each id some source says the target
      of, and nothing else. */
  lemma {:induction false} HitsMean(
    d: Declaration, canonical: string -> string, sources: seq<Source>, readings: seq<Reading>,
    attribute: string, target: string, ids: seq<string>)
    requires |sources| == |readings|
    ensures forall m :: m in Hits(d, canonical, sources, readings, attribute, target, ids) ==>
              m.id in ids && MatchFor(d, canonical, sources, readings, attribute, target, m)
    ensures forall id :: id in ids && Says(canonical, Observations(sources, readings, id, attribute), target) ==>
              exists m :: m in Hits(d, canonical, sources, readings, attribute, target, ids) && m.id == id
    ensures var hits, saying := Hits(d, canonical, sources, readings, attribute, target, ids),
                                Saying(canonical, sources, readings, attribute, target, ids);
            |hits| == |saying| && forall k :: 0 <= k < |hits| ==> hits[k].id == saying[k]
  {
    hide Observations, MatchFor, MatchOf, Says;
    if ids != [] {
      var init, last := ids[..|ids| - 1], ids[|ids| - 1];
      HitsMean(d, canonical, sources, readings, attribute, target, init);
      MatchMeans(d, canonical, sources, readings, attribute, target, last);
      var before := Hits(d, canonical, sources, readings, attribute, target, init);
      var more := MatchOf(d, canonical, attribute, target, last, Observations(sources, readings, last, attribute));
      assert Hits(d, canonical, sources, readings, attribute, target, ids) == before + more;
      forall id | id in ids && Says(canonical, Observations(sources, readings, id, attribute), target)
        ensures exists m: Match :: m in before + more && m.id == id
      {
        if id == last {
          assert more[0] in before + more;
        } else {
          assert id in init;
        }
      }
    }
  }

  /** A bounded answer: what was found, whether it may be incomplete, the sources a read may
      have left rows in, and the sources that could not be read. */
  datatype Bounded<T> = Bounded(found: seq<T>, truncated: bool, ceiling: seq<string>, failed: seq<string>)

  /** The answer is the first `limit` of all there is to find; it is marked truncated if and
      only if there is one more or a source may hold more; and it names those sources and the
      ones it could not read. */
  predicate Answers<T(==)>(r: Bounded<T>, all: seq<T>, limit: nat, sources: seq<Source>, readings: seq<Reading>)
    requires |sources| == |readings|
  {
    && r.found == Take(all, limit)
    && (r.truncated <==> |all| > limit || TruncatedSources(sources, readings) != [])
    && r.ceiling == TruncatedSources(sources, readings)
    && r.failed == FailedSources(sources, readings)
  }

  /** Nothing is made up, and an answer that is not marked truncated leaves nothing out. */
  lemma AnswerIsOfAll<T>(r: Bounded<T>, all: seq<T>, limit: nat, sources: seq<Source>, readings: seq<Reading>)
    requires |sources| == |readings| && Answers(r, all, limit, sources, readings)
    ensures forall x :: x in r.found ==> x in all
    ensures r.found <= all && |r.found| == if |all| <= limit then |all| else limit
    ensures !r.truncated ==> r.found == all
  {
    hide TruncatedSources, FailedSources;
  }

  /** The ends of `search` and `conflicts`. */
  method Answer<T(==)>(found: seq<T>, cut: bool, index: Index, ghost all: seq<T>, limit: nat,
                       ghost sources: seq<Source>, ghost readings: seq<Reading>) returns (r: Bounded<T>)
    requires |sources| == |readings| && StatusesFit(index.status, sources, readings)
    requires index.failed == FailedSources(sources, readings)
    requires found == Take(all, limit) && (cut <==> |all| > limit)
    ensures Answers(r, all, limit, sources, readings)
  {
    hide SuppliedBy;
    var ceiling := TruncatedNames(index.status, false);
    NamesAreTruncated(index.status, sources, readings);
    return Bounded(found, cut || ceiling != [], ceiling, index.failed);
  }

  /** `search`. Main result: it returns exactly the first `limit` matches that reading each
      scanned id on its own would give, and reports a cut if and only if one more exists or a
      source may hold more rows. */
  method Search(d: Declaration, canonical: string -> string, sources: seq<Source>, readings: seq<Reading>,
                attribute: string, equals: string, limit: nat)
    returns (r: Option<Bounded<Match>>)
    requires |sources| == |readings|
    ensures r.None? <==> AnyDenied(readings)
    ensures r.Some? ==>
              var hits := Hits(d, canonical, sources, readings, attribute, canonical(equals),
                               Take(AllIds(sources, readings), MAX_MATCHES));
              Answers(r.value, hits, limit, sources, readings)
    ensures r.Some? ==> forall m :: m in r.value.found ==>
              && m.id in AllIds(sources, readings)
              && MatchFor(d, canonical, sources, readings, attribute, canonical(equals), m)
    ensures r.Some? ==>
              var saying := Saying(canonical, sources, readings, attribute, canonical(equals),
                                   Take(AllIds(sources, readings), MAX_MATCHES));
              && |r.value.found| == (if |saying| <= limit then |saying| else limit)
              && forall k :: 0 <= k < |r.value.found| ==> r.value.found[k].id == saying[k]
    ensures r.Some? && !r.value.truncated ==>
              forall id :: id in Take(AllIds(sources, readings), MAX_MATCHES)
                           && Says(canonical, Observations(sources, readings, id, attribute), canonical(equals)) ==>
                exists m :: m in r.value.found && m.id == id
  {
    hide StatusesFit, FailedSources, TruncatedSources, Answers, Hits, AllIds, Observations, Selected, Conflicting,
         Lookup, BucketOf, MatchFor, Says;
    var index := CollectAll(sources, readings);
    if index.None? { return None; }
    var target := canonical(equals);
    AllIdsDistinct(sources, readings);
    var ids, _ := IdentifiersCollected(index.value, MAX_MATCHES);
    ghost var hits := Hits(d, canonical, sources, readings, attribute, target, ids);
    HitsMean(d, canonical, sources, readings, attribute, target, ids);
    var matches := [];
    NoHits(d, canonical, sources, readings, attribute, target);
    for k := 0 to |ids|
      invariant matches == Hits(d, canonical, sources, readings, attribute, target, ids[..k]) && |matches| <= limit
    {
      HitsNext(d, canonical, sources, readings, attribute, target, ids, k);
      var values := Lookup(BucketOf(index.value.buckets, ids[k]), attribute);
      if Hit(canonical, values, target) {
        if |matches| >= limit {
          HitsGrow(d, canonical, sources, readings, attribute, target, ids, k + 1);
          var cut := Answer(matches, true, index.value, hits, limit, sources, readings);
          AnswerIsOfAll(cut, hits, limit, sources, readings);
          return Some(cut);
        }
        var selected := Selected(d, canonical, attribute, values);
        var chosen := if selected.Some? then selected.value else Choice(values[0].value, values[0].source);
        matches := matches + [Match(ids[k], chosen.value, chosen.source, Conflicting(canonical, values))];
      }
    }
    assert ids[..|ids|] == ids;
    var whole := Answer(matches, false, index.value, hits, limit, sources, readings);
    AnswerIsOfAll(whole, hits, limit, sources, readings);
    return Some(whole);
  }

  lemma NoHits(d: Declaration, canonical: string -> string, sources: seq<Source>, readings: seq<Reading>,
               attribute: string, target: string)
    requires |sources| == |readings|
    ensures Hits(d, canonical, sources, readings, attribute, target, []) == []
  {
  }

  lemma {:induction false} HitsGrow(
    d: Declaration, canonical: string -> string, sources: seq<Source>, readings: seq<Reading>,
    attribute: string, target: string, ids: seq<string>, k: nat)
    requires |sources| == |readings| && k <= |ids|
    ensures Hits(d, canonical, sources, readings, attribute, target, ids[..k])
         <= Hits(d, canonical, sources, readings, attribute, target, ids)
    decreases |ids|
  {
    if k == |ids| {
      assert ids[..k] == ids;
    } else {
      assert ids[..|ids| - 1][..k] == ids[..k];
      HitsGrow(d, canonical, sources, readings, attribute, target, ids[..|ids| - 1], k);
    }
  }

  // -------------------------------------------------------------------------- conflicts

  datatype Disagreement = Disagreement(id: string, attribute: string, values: seq<Obs>, selected: Option<Choice>)

  /** The conflicts of one id, over `attributes` in their order. A view goes over the
      attributes somebody observed, sorted; going over any sorted list that has them all is
      the same, since an attribute nobody observed has no conflict (`OnlyObservedMatter`). */
  function ConflictsOf(d: Declaration, canonical: string -> string, sources: seq<Source>, readings: seq<Reading>,
                       attributes: seq<string>, id: string): seq<Disagreement>
    requires |sources| == |readings|
  {
    if attributes == [] then []
    else
      var a := attributes[|attributes| - 1];
      var values := Observations(sources, readings, id, a);
      ConflictsOf(d, canonical, sources, readings, attributes[..|attributes| - 1], id)
      + (if Conflicting(canonical, values) then [Disagreement(id, a, values, Selected(d, canonical, a, values))]
         else [])
  }

  /** The attributes somebody observed for one id, in the order of the list. */
  function Observed(sources: seq<Source>, readings: seq<Reading>, attributes: seq<string>, id: string): seq<string>
    requires |sources| == |readings|
  {
    if attributes == [] then []
    else
      var a := attributes[|attributes| - 1];
      Observed(sources, readings, attributes[..|attributes| - 1], id)
      + (if Observations(sources, readings, id, a) != [] then [a] else [])
  }

  lemma {:induction false} OnlyObservedMatter(
    d: Declaration, canonical: string -> string, sources: seq<Source>, readings: seq<Reading>,
    attributes: seq<string>, id: string)
    requires |sources| == |readings|
    ensures ConflictsOf(d, canonical, sources, readings, Observed(sources, readings, attributes, id), id)
         == ConflictsOf(d, canonical, sources, readings, attributes, id)
  {
    hide Observations, Selected;
    if attributes != [] {
      var init, a := attributes[..|attributes| - 1], attributes[|attributes| - 1];
      OnlyObservedMatter(d, canonical, sources, readings, init, id);
      var observed := Observed(sources, readings, init, id);
      assert (observed + [a])[..|observed|] == observed && (observed + [a])[|observed|] == a;
      if Observations(sources, readings, id, a) == [] {
        assert !Conflicting(canonical, Observations(sources, readings, id, a));
        assert Observed(sources, readings, attributes, id) == observed;
        assert ConflictsOf(d, canonical, sources, readings, attributes, id)
            == ConflictsOf(d, canonical, sources, readings, init, id);
      } else {
        assert Observed(sources, readings, attributes, id) == observed + [a];
      }
    }
  }

  function AllConflicts(d: Declaration, canonical: string -> string, sources: seq<Source>, readings: seq<Reading>,
                        attributes: seq<string>, ids: seq<string>): seq<Disagreement>
    requires |sources| == |readings|
  {
    if ids == [] then []
    else
      AllConflicts(d, canonical, sources, readings, attributes, ids[..|ids| - 1])
      + ConflictsOf(d, canonical, sources, readings, attributes, ids[|ids| - 1])
  }

  lemma {:induction false} AllConflictsGrow(
    d: Declaration, canonical: string -> string, sources: seq<Source>, readings: seq<Reading>,
    attributes: seq<string>, ids: seq<string>, k: nat)
    requires |sources| == |readings| && k <= |ids|
    ensures AllConflicts(d, canonical, sources, readings, attributes, ids[..k])
         <= AllConflicts(d, canonical, sources, readings, attributes, ids)
    decreases |ids|
  {
    if k == |ids| {
      assert ids[..k] == ids;
    } else {
      assert ids[..|ids| - 1][..k] == ids[..k];
      AllConflictsGrow(d, canonical, sources, readings, attributes, ids[..|ids| - 1], k);
    }
  }

  /** The conflicts `_view` reports for one id, from its bucket. */
  method ViewConflicts(d: Declaration, canonical: string -> string, sources: seq<Source>, readings: seq<Reading>,
                       attributes: seq<string>, id: string, bucket: Bucket) returns (found: seq<Disagreement>)
    requires |sources| == |readings|
    requires forall a :: Lookup(bucket, a) == Observations(sources, readings, id, a)
    ensures found == ConflictsOf(d, canonical, sources, readings, attributes, id)
  {
    found := [];
    for k := 0 to |attributes|
      invariant found == ConflictsOf(d, canonical, sources, readings, attributes[..k], id)
    {
      assert attributes[..k + 1][..k] == attributes[..k];
      var values := Lookup(bucket, attributes[k]);
      if Conflicting(canonical, values) {
        found := found + [Disagreement(id, attributes[k], values, Selected(d, canonical, attributes[k], values))];
      }
    }
    assert attributes[..|attributes|] == attributes;
  }

  /** A conflict: the sources disagree about this attribute of this id; it lists what each
      said, and what a view shows. */
  ghost predicate ConflictFor(d: Declaration, canonical: string -> string, sources: seq<Source>,
                              readings: seq<Reading>, c: Disagreement)
    requires |sources| == |readings|
  {
    && c.values == Observations(sources, readings, c.id, c.attribute) && c.values != []
    && !Agree(canonical, c.values)
    && Shows(d, canonical, c.attribute, c.values, c.selected)
  }

  lemma {:induction false} ConflictsMean(
    d: Declaration, canonical: string -> string, sources: seq<Source>, readings: seq<Reading>,
    attributes: seq<string>, id: string)
    requires |sources| == |readings|
    ensures forall c :: c in ConflictsOf(d, canonical, sources, readings, attributes, id) ==>
              c.id == id && c.attribute in attributes && ConflictFor(d, canonical, sources, readings, c)
    ensures forall a :: a in attributes && !Agree(canonical, Observations(sources, readings, id, a)) ==>
              exists c :: c in ConflictsOf(d, canonical, sources, readings, attributes, id) && c.attribute == a
  {
    hide Observations, Shows, Agree, Conflicting;
    if attributes != [] {
      var init, last := attributes[..|attributes| - 1], attributes[|attributes| - 1];
      ConflictsMean(d, canonical, sources, readings, init, id);
      var values := Observations(sources, readings, id, last);
      AgreeIffNoConflict(canonical, values);
      NothingAgrees(canonical);
      var before := ConflictsOf(d, canonical, sources, readings, init, id);
      var all := ConflictsOf(d, canonical, sources, readings, attributes, id);
      forall a | a in attributes && !Agree(canonical, Observations(sources, readings, id, a))
        ensures exists c :: c in all && c.attribute == a
      {
        if a == last {
          assert all[|before|].attribute == a;
        } else {
          assert a in init;
          var c :| c in before && c.attribute == a;
          assert c in all;
        }
      }
    }
  }

  lemma NothingAgrees(canonical: string -> string)
    ensures Agree(canonical, [])
  {
  }

  lemma {:induction false} AllConflictsMean(
    d: Declaration, canonical: string -> string, sources: seq<Source>, readings: seq<Reading>,
    attributes: seq<string>, ids: seq<string>)
    requires |sources| == |readings|
    ensures forall c :: c in AllConflicts(d, canonical, sources, readings, attributes, ids) ==>
              c.id in ids && c.attribute in attributes && ConflictFor(d, canonical, sources, readings, c)
    ensures forall id, a :: id in ids && a in attributes
                            && !Agree(canonical, Observations(sources, readings, id, a)) ==>
              exists c :: c in AllConflicts(d, canonical, sources, readings, attributes, ids)
                          && c.id == id && c.attribute == a
  {
    hide Observations, ConflictFor, Agree, ConflictsOf;
    if ids != [] {
      var init, last := ids[..|ids| - 1], ids[|ids| - 1];
      AllConflictsMean(d, canonical, sources, readings, attributes, init);
      ConflictsMean(d, canonical, sources, readings, attributes, last);
      var before := AllConflicts(d, canonical, sources, readings, attributes, init);
      var more := ConflictsOf(d, canonical, sources, readings, attributes, last);
      forall id, a | id in ids && a in attributes && !Agree(canonical, Observations(sources, readings, id, a))
        ensures exists c: Disagreement :: c in before + more && c.id == id && c.attribute == a
      {
        if id == last {
          var c :| c in more && c.attribute == a;
          assert c in before + more && c.id == id;
        } else {
          assert id in init;
          var c :| c in before && c.id == id && c.attribute == a;
          assert c in before + more;
        }
      }
    }
  }

  /** `conflicts`. It returns the first `limit` conflicts that viewing each scanned id on its
      own would report, and a cut if and only if one more exists. */
  method FindConflicts(d: Declaration, canonical: string -> string, sources: seq<Source>, readings: seq<Reading>,
                       attributes: seq<string>, limit: nat)
    returns (r: Option<Bounded<Disagreement>>)
    requires |sources| == |readings|
    ensures r.None? <==> AnyDenied(readings)
    ensures r.Some? ==>
              var all := AllConflicts(d, canonical, sources, readings, attributes,
                                      Take(AllIds(sources, readings), MAX_MATCHES));
              Answers(r.value, all, limit, sources, readings)
    ensures r.Some? ==> forall c :: c in r.value.found ==>
              && c.id in AllIds(sources, readings) && c.attribute in attributes
              && ConflictFor(d, canonical, sources, readings, c)
    ensures r.Some? && !r.value.truncated ==>
              forall id, a :: id in Take(AllIds(sources, readings), MAX_MATCHES) && a in attributes
                              && !Agree(canonical, Observations(sources, readings, id, a)) ==>
                exists c :: c in r.value.found && c.id == id && c.attribute == a
  {
    hide StatusesFit, FailedSources, TruncatedSources, Answers, AllConflicts, ConflictsOf, AllIds, Observations,
         Lookup, BucketOf, ConflictFor, Agree;
    var index := CollectAll(sources, readings);
    if index.None? { return None; }
    AllIdsDistinct(sources, readings);
    var ids, _ := IdentifiersCollected(index.value, MAX_MATCHES);
    ghost var all := AllConflicts(d, canonical, sources, readings, attributes, ids);
    AllConflictsMean(d, canonical, sources, readings, attributes, ids);
    var found := [];
    NoConflicts(d, canonical, sources, readings, attributes);
    for k := 0 to |ids|
      invariant found == AllConflicts(d, canonical, sources, readings, attributes, ids[..k]) && |found| <= limit
    {
      ConflictsNext(d, canonical, sources, readings, attributes, ids, k);
      var view := ViewConflicts(d, canonical, sources, readings, attributes, ids[k],
                                BucketOf(index.value.buckets, ids[k]));
      var before := found;
      for j := 0 to |view|
        invariant found == before + view[..j] && |found| <= limit
      {
        if |found| >= limit {
          AllConflictsGrow(d, canonical, sources, readings, attributes, ids, k + 1);
          assert found + [view[j]] <= before + view;
          var cut := Answer(found, true, index.value, all, limit, sources, readings);
          AnswerIsOfAll(cut, all, limit, sources, readings);
          return Some(cut);
        }
        found := found + [view[j]];
      }
    }
    assert ids[..|ids|] == ids;
    var whole := Answer(found, false, index.value, all, limit, sources, readings);
    AnswerIsOfAll(whole, all, limit, sources, readings);
    return Some(whole);
  }

  lemma NoConflicts(d: Declaration, canonical: string -> string, sources: seq<Source>, readings: seq<Reading>,
                    attributes: seq<string>)
    requires |sources| == |readings|
    ensures AllConflicts(d, canonical, sources, readings, attributes, []) == []
  {
  }

  lemma ConflictsNext(d: Declaration, canonical: string -> string, sources: seq<Source>, readings: seq<Reading>,
                      attributes: seq<string>, ids: seq<string>, k: nat)
    requires |sources| == |readings| && k < |ids|
    ensures AllConflicts(d, canonical, sources, readings, attributes, ids[..k + 1])
         == AllConflicts(d, canonical, sources, readings, attributes, ids[..k])
            + ConflictsOf(d, canonical, sources, readings, attributes, ids[k])
  {
    assert ids[..k + 1][..k] == ids[..k];
  }
}
