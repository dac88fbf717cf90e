/** What a read of the business graph means, row by row: which row of a source counts for an
    id, who observed what, and in which order ids are seen. */
module GraphReadings {
  import opened Basics
  import opened BusinessGraph

  /** The row is about this entity. */
  predicate Carries(source: Source, row: Row, id: string) {
    && row.Row? && source.key in row.cells && row.cells[source.key] == id
    && exists k :: 0 <= k < |id| && !IsSpace(id[k])
  }

  lemma CarriesIff(source: Source, row: Row, id: string)
    ensures Carries(source, row, id) <==> KeyOf(source.key, row) == Some(id)
  {
  }

  /** The source was read, and this row of it, among the first two hundred, is about the id. */
  predicate Sighting(source: Source, reading: Reading, id: string, r: nat) {
    reading.Got? && r < |reading.rows| && r < 200 && Carries(source, reading.rows[r], id)
  }

  /** ... and no earlier one is. */
  predicate CountsFor(source: Source, reading: Reading, id: string, r: nat) {
    Sighting(source, reading, id, r) && forall q: nat :: q < r ==> !Sighting(source, reading, id, q)
  }

  /** The row says this of the attribute, in the field the source maps it to. */
  predicate SaysIn(source: Source, row: Row, attribute: string, f: nat, o: Obs) {
    && f < |source.fields| && source.fields[f].0 == attribute
    && row.Row? && source.fields[f].1 in row.cells && row.cells[source.fields[f].1] == o.value
    && o.value != "" && o.source == source.name
  }

  lemma {:induction false} SaidIff(source: Source, row: Row, attribute: string, n: nat, o: Obs)
    requires n <= |source.fields|
    ensures o in Said(source.name, source.fields[..n], row, attribute)
       <==> exists f :: 0 <= f < n && SaysIn(source, row, attribute, f, o)
  {
    if n > 0 {
      SaidIff(source, row, attribute, n - 1, o);
      SaidNext(source.name, source.fields, n - 1, row, attribute);
      assert o in SaidInCell(source.name, source.fields[n - 1], row, attribute)
        <==> SaysIn(source, row, attribute, n - 1, o);
    } else {
      assert source.fields[..0] == [];
    }
  }

  /** The row that counts, in a list of rows. */
  lemma {:induction false} FirstRowIs(source: Source, rows: seq<Row>, id: string)
    ensures var row := FirstRow(source.key, rows, id);
            && (row.None? <==> forall q :: 0 <= q < |rows| ==> !Carries(source, rows[q], id))
            && (row.Some? ==> exists r :: 0 <= r < |rows| && rows[r] == row.value && FirstCarrier(source, rows, id, r))
  {
    if rows != [] {
      var init, last := rows[..|rows| - 1], |rows| - 1;
      FirstRowIs(source, init, id);
      CarriesIff(source, rows[last], id);
      if FirstRow(source.key, init, id).Some? {
        var r :| 0 <= r < |init| && init[r] == FirstRow(source.key, init, id).value
                 && FirstCarrier(source, init, id, r);
        assert FirstCarrier(source, rows, id, r);
      } else if Carries(source, rows[last], id) {
        assert FirstCarrier(source, rows, id, last);
      }
    }
  }

  predicate FirstCarrier(source: Source, rows: seq<Row>, id: string, r: nat)
    requires r < |rows|
  {
    Carries(source, rows[r], id) && forall q :: 0 <= q < r ==> !Carries(source, rows[q], id)
  }

  /** What a source says of an id is what the row that counts says. */
  lemma SaidByIff(source: Source, reading: Reading, id: string, attribute: string, o: Obs)
    requires reading.Got?
    ensures o in SaidBy(source, Scanned(reading.rows), id, attribute)
       <==> exists r: nat, f: nat ::
              CountsFor(source, reading, id, r) && SaysIn(source, reading.rows[r], attribute, f, o)
  {
    hide Carries, Said, FirstRow;
    var rows := Scanned(reading.rows);
    FirstRowIs(source, rows, id);
    assert forall r: nat :: Sighting(source, reading, id, r) <==> r < |rows| && Carries(source, rows[r], id);
    var row := FirstRow(source.key, rows, id);
    if row.Some? {
      var r :| 0 <= r < |rows| && rows[r] == row.value && FirstCarrier(source, rows, id, r);
      assert CountsFor(source, reading, id, r) && reading.rows[r] == row.value;
      assert forall q: nat :: CountsFor(source, reading, id, q) ==> q == r;
      SaidIff(source, row.value, attribute, |source.fields|, o);
      assert source.fields[..|source.fields|] == source.fields;
      if f :| 0 <= f < |source.fields| && SaysIn(source, row.value, attribute, f, o) {
        assert CountsFor(source, reading, id, r) && SaysIn(source, reading.rows[r], attribute, f, o);
      }
    }
  }

  /** Main result: an observation is in the view of an id if and only if the row that counts
      for the id in some source that was read says so. */
  lemma {:induction false} ObservedIff(
    sources: seq<Source>, readings: seq<Reading>, id: string, attribute: string, o: Obs)
    requires |sources| == |readings|
    ensures o in Observations(sources, readings, id, attribute)
       <==> exists n: nat, r: nat, f: nat ::
              && 0 <= n < |sources| && CountsFor(sources[n], readings[n], id, r)
              && SaysIn(sources[n], readings[n].rows[r], attribute, f, o)
  {
    hide SaidBy, CountsFor, SaysIn, Scanned;
    if sources != [] {
      var last := |sources| - 1;
      ObservedIff(sources[..last], readings[..last], id, attribute, o);
      CountsOnlyIfRead(sources[last], readings[last], id);
      if readings[last].Got? {
        SaidByIff(sources[last], readings[last], id, attribute, o);
      }
      assert o in Observations(sources, readings, id, attribute)
        <==> || o in Observations(sources[..last], readings[..last], id, attribute)
             || (readings[last].Got? && o in SaidBy(sources[last], Scanned(readings[last].rows), id, attribute));
      Widen(sources, readings, id, attribute, o);
    }
  }

  lemma CountsOnlyIfRead(source: Source, reading: Reading, id: string)
    ensures forall r: nat :: CountsFor(source, reading, id, r) ==> reading.Got? && r < |reading.rows|
  {
    hide Carries;
  }

  /** Some source says so: the last, or one before it. */
  lemma Widen(sources: seq<Source>, readings: seq<Reading>, id: string, attribute: string, o: Obs)
    requires |sources| == |readings| > 0
    ensures var last := |sources| - 1;
            (exists n: nat, r: nat, f: nat ::
               && 0 <= n < |sources| && CountsFor(sources[n], readings[n], id, r)
               && SaysIn(sources[n], readings[n].rows[r], attribute, f, o))
            <==> || (exists n: nat, r: nat, f: nat ::
                       && 0 <= n < last && CountsFor(sources[..last][n], readings[..last][n], id, r)
                       && SaysIn(sources[..last][n], readings[..last][n].rows[r], attribute, f, o))
                 || (exists r: nat, f: nat ::
                       && CountsFor(sources[last], readings[last], id, r)
                       && SaysIn(sources[last], readings[last].rows[r], attribute, f, o))
  {
    hide CountsFor, SaysIn;
    CountsEverywhere(sources, readings, id);
  }

  lemma CountsEverywhere(sources: seq<Source>, readings: seq<Reading>, id: string)
    requires |sources| == |readings|
    ensures forall n, r: nat :: 0 <= n < |sources| && CountsFor(sources[n], readings[n], id, r) ==>
              readings[n].Got? && r < |readings[n].rows|
  {
    hide Carries;
  }

  /** Main result: observations stand in the declared order of their sources. */
  lemma {:induction false} InDeclaredOrder(sources: seq<Source>, readings: seq<Reading>, id: string, attribute: string)
    returns (from: seq<nat>)
    requires |sources| == |readings|
    ensures |from| == |Observations(sources, readings, id, attribute)|
    ensures forall k :: 0 <= k < |from| ==>
              from[k] < |sources|
              && Observations(sources, readings, id, attribute)[k].source == sources[from[k]].name
    ensures forall j, k :: 0 <= j < k < |from| ==> from[j] <= from[k]
  {
    hide SaidBy, Scanned;
    from := [];
    if sources != [] {
      var last := |sources| - 1;
      var init := InDeclaredOrder(sources[..last], readings[..last], id, attribute);
      var said :=
        if readings[last].Got? then SaidBy(sources[last], Scanned(readings[last].rows), id, attribute) else [];
      if readings[last].Got? {
        SaidUnderName(sources[last], Scanned(readings[last].rows), id, attribute);
      }
      assert Observations(sources, readings, id, attribute)
          == Observations(sources[..last], readings[..last], id, attribute) + said;
      from := init + seq(|said|, k => last);
    }
  }

  lemma SaidUnderName(source: Source, rows: seq<Row>, id: string, attribute: string)
    ensures forall o :: o in SaidBy(source, rows, id, attribute) ==> o.source == source.name
  {
    var row := FirstRow(source.key, rows, id);
    forall o | o in SaidBy(source, rows, id, attribute) ensures o.source == source.name {
      SaidIff(source, row.value, attribute, |source.fields|, o);
      assert source.fields[..|source.fields|] == source.fields;
    }
  }

  // ---------------------------------------------------------------------------- ids

  /** The ids of one source's rows, after those there were. */
  lemma {:induction false} IdsOfRowsMean(source: Source, rows: seq<Row>, before: seq<string>)
    ensures before <= IdsOfRows(source.key, rows, before)
    ensures forall id :: id in IdsOfRows(source.key, rows, before) <==>
              id in before || exists r :: 0 <= r < |rows| && Carries(source, rows[r], id)
    ensures var ids := IdsOfRows(source.key, rows, before);
            forall i, j, r ::
              0 <= i < j < |ids| && |before| <= j && 0 <= r < |rows| && Carries(source, rows[r], ids[j]) ==>
              ids[i] in before || exists q :: 0 <= q < r && Carries(source, rows[q], ids[i])
  {
    hide Carries, KeyOf;
    if rows != [] {
      var last := |rows| - 1;
      IdsOfRowsMean(source, rows[..last], before);
      forall id ensures Carries(source, rows[last], id) <==> KeyOf(source.key, rows[last]) == Some(id) {
        CarriesIff(source, rows[last], id);
      }
      assert forall q :: 0 <= q < last ==> rows[..last][q] == rows[q];
    }
  }

  predicate Earlier(n: nat, r: nat, m: nat, q: nat) { n < m || (n == m && r < q) }

  /** Main result: an id is known if and only if some source that was read has a row about it,
      among its first two hundred. */
  lemma {:induction false} SightedIff(sources: seq<Source>, readings: seq<Reading>, id: string)
    requires |sources| == |readings|
    ensures id in AllIds(sources, readings)
       <==> exists n: nat, r: nat :: 0 <= n < |sources| && Sighting(sources[n], readings[n], id, r)
  {
    hide Carries, IdsOfRows;
    if sources != [] {
      var last := |sources| - 1;
      SightedIff(sources[..last], readings[..last], id);
      if readings[last].Got? {
        var rows := Scanned(readings[last].rows);
        IdsOfRowsMean(sources[last], rows, AllIds(sources[..last], readings[..last]));
        assert forall r: nat :: Sighting(sources[last], readings[last], id, r) <==>
                 r < |rows| && Carries(sources[last], rows[r], id);
      }
      assert forall n, r: nat :: 0 <= n < last ==>
               (Sighting(sources[..last][n], readings[..last][n], id, r) <==> Sighting(sources[n], readings[n], id, r));
    }
  }

  /** Main result: ids stand in the order in which they are first seen: wherever an id is seen,
      the ids before it have been seen already. */
  lemma {:induction false} FirstSeenFirst(
    sources: seq<Source>, readings: seq<Reading>, i: nat, j: nat, m: nat, q: nat)
    requires |sources| == |readings| && i < j < |AllIds(sources, readings)| && m < |sources|
    requires Sighting(sources[m], readings[m], AllIds(sources, readings)[j], q)
    ensures exists n: nat, r: nat ::
              && n < |sources| && Sighting(sources[n], readings[n], AllIds(sources, readings)[i], r)
              && Earlier(n, r, m, q)
  {
    hide Carries, IdsOfRows;
    var last := |sources| - 1;
    var before := AllIds(sources[..last], readings[..last]);
    var ids := AllIds(sources, readings);
    var rows := if readings[last].Got? then Scanned(readings[last].rows) else [];
    if readings[last].Got? {
      IdsOfRowsMean(sources[last], rows, before);
    }
    assert before <= ids;
    if i < |before| && m == last {
      assert ids[i] == before[i];
      SightedIff(sources[..last], readings[..last], ids[i]);
      var n: nat, r: nat :| 0 <= n < last && Sighting(sources[..last][n], readings[..last][n], ids[i], r);
      assert Sighting(sources[n], readings[n], ids[i], r) && Earlier(n, r, m, q);
    } else if m < last {
      SightedIff(sources[..last], readings[..last], ids[j]);
      assert Sighting(sources[..last][m], readings[..last][m], ids[j], q);
      AllIdsDistinct(sources, readings);
      var k :| 0 <= k < |before| && before[k] == ids[j];
      assert ids[k] == ids[j];
      FirstSeenFirst(sources[..last], readings[..last], i, j, m, q);
      var n: nat, r: nat :|
        n < last && Sighting(sources[..last][n], readings[..last][n], before[i], r) && Earlier(n, r, m, q);
      assert Sighting(sources[n], readings[n], ids[i], r);
    } else {
      assert Carries(sources[last], rows[q], ids[j]);
      if ids[i] in before {
        SightedIff(sources[..last], readings[..last], ids[i]);
        var n: nat, r: nat :| 0 <= n < last && Sighting(sources[..last][n], readings[..last][n], ids[i], r);
        assert Sighting(sources[n], readings[n], ids[i], r) && Earlier(n, r, m, q);
      } else {
        var p :| 0 <= p < q && Carries(sources[last], rows[p], ids[i]);
        assert Sighting(sources[last], readings[last], ids[i], p) && Earlier(last, p, m, q);
      }
    }
  }

  // ------------------------------------------------------------------ what may be missing

  /** A source may hold more rows if it says so, or returned more than two hundred. */
  lemma {:induction false} MayHoldMoreIff(sources: seq<Source>, readings: seq<Reading>, name: string)
    requires |sources| == |readings|
    ensures name in TruncatedSources(sources, readings)
       <==> exists n :: 0 <= n < |sources| && sources[n].name == name && readings[n].Got?
                        && (readings[n].cut || |readings[n].rows| > 200)
  {
    if sources != [] {
      var last := |sources| - 1;
      MayHoldMoreIff(sources[..last], readings[..last], name);
      assert forall n :: 0 <= n < last ==> sources[..last][n] == sources[n] && readings[..last][n] == readings[n];
    }
  }

  lemma {:induction false} FailedIff(sources: seq<Source>, readings: seq<Reading>, name: string)
    requires |sources| == |readings|
    ensures name in FailedSources(sources, readings)
       <==> exists n :: 0 <= n < |sources| && sources[n].name == name && readings[n].Failed?
  {
    if sources != [] {
      var last := |sources| - 1;
      FailedIff(sources[..last], readings[..last], name);
      assert forall n :: 0 <= n < last ==> sources[..last][n] == sources[n] && readings[..last][n] == readings[n];
    }
  }
}
