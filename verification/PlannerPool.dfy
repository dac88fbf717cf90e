/** The worker's planner pool: one pump collects finished calls and starts new ones,
    round-robin over (tenant, source), within the pool's and each tenant's bounds. */
module PlannerPool {
  import opened Basics

  datatype Source = Runs | Events

  datatype Entry = Entry(tenant: string, source: Source)

  /** A submitted call. `run` is None for an inbound event. */
  datatype Planned = Planned(tenant: string, run: Option<Id>)

  /** What reserving one run came to. */
  datatype Reserving = Reserving(moved: bool, reserved: bool)

  datatype Budget = Budget(maxInflight: int, inflight: int)

  /** What the pool finds in the store. Every answer depends on `when`, the number of
      visits made before it, in this pump or an earlier one, so the store may change between
      any two of them. An `Err` is an exception. */
  datatype World = World(
    candidates: (string, nat) -> Result<seq<Id>>,
    reserve: (Id, nat) -> Result<Reserving>,
    event: (string, nat) -> Result<bool>,
    budget: (string, nat) -> Result<Option<Budget>>)

  function Running(inflight: seq<Planned>, tenant: string): nat {
    if inflight == [] then 0
    else Running(inflight[..|inflight| - 1], tenant)
         + (if inflight[|inflight| - 1].tenant == tenant then 1 else 0)
  }

  /** `_held`. */
  function Held(inflight: seq<Planned>, tenant: string): set<Id> {
    set i | 0 <= i < |inflight| && inflight[i].tenant == tenant && inflight[i].run.Some? :: inflight[i].run.value
  }

  // ------------------------------------------------------------ what may be started

  /** The first `k` candidates outside `skip` were asked, and none was due a call. */
  predicate Passed(world: World, ids: seq<Id>, skip: set<Id>, when: nat, k: nat)
    requires k <= |ids|
  {
    forall j :: 0 <= j < k && ids[j] !in skip ==>
      world.reserve(ids[j], when).Ok? && !world.reserve(ids[j], when).value.reserved
  }

  /** The tenant's oldest candidate outside `skip` that is due a call. */
  ghost predicate FirstDue(world: World, tenant: string, skip: set<Id>, when: nat, run: Id) {
    world.candidates(tenant, when).Ok? && var ids := world.candidates(tenant, when).value;
    exists k :: 0 <= k < |ids| && Passed(world, ids, skip, when, k) && ids[k] == run && run !in skip
      && world.reserve(run, when).Ok? && world.reserve(run, when).value.reserved
  }

  /** Every candidate outside `skip` was asked, and none was due a call. */
  predicate NothingDue(world: World, tenant: string, skip: set<Id>, when: nat) {
    world.candidates(tenant, when).Ok? && var ids := world.candidates(tenant, when).value;
    Passed(world, ids, skip, when, |ids|)
  }

  /** Reading the candidates raised, or asking the first of them that was not passed did. */
  ghost predicate ReservingRaises(world: World, tenant: string, skip: set<Id>, when: nat) {
    world.candidates(tenant, when).Err? || var ids := world.candidates(tenant, when).value;
    exists k :: 0 <= k < |ids| && Passed(world, ids, skip, when, k) && ids[k] !in skip
      && world.reserve(ids[k], when).Err?
  }

  /** `more` calls keep the tenant within its own bound and its budget's parallel limit, as
      counted here and as the budget counts. */
  predicate Fits(perTenant: nat, budget: Option<Budget>, running: nat, more: int) {
    && running + more <= perTenant
    && (budget.Some? ==> running + more <= budget.value.maxInflight
                         && budget.value.inflight + more <= budget.value.maxInflight)
  }

  /** The room of a tenant now, if its budget was read when `before` was in flight: what was
      granted then, less what was started since. */
  ghost predicate RoomSince(
    world: World, perTenant: nat, before: seq<Planned>, asked: nat, inflight: seq<Planned>, tenant: string, room: int)
  {
    && before <= inflight && world.budget(tenant, asked).Ok?
    && forall n: int :: n <= room <==> FitsSince(world, perTenant, before, asked, inflight, tenant, n)
  }

  /** The calls started since then, and `n` more, fit. */
  predicate FitsSince(
    world: World, perTenant: nat, before: seq<Planned>, asked: nat, inflight: seq<Planned>, tenant: string, n: int)
    requires world.budget(tenant, asked).Ok?
  {
    Fits(perTenant, world.budget(tenant, asked).value, Running(before, tenant),
         Running(inflight, tenant) - Running(before, tenant) + n)
  }

  /** One pump: what it runs against, its pool's bound, the calls it found still going, and
      when its first visit was. */
  datatype Context = Context(world: World, perTenant: nat, kept: seq<Planned>, first: nat)

  /** The tenant's budget was read during this pump, and leaves this room. */
  ghost predicate RoomNow(c: Context, inflight: seq<Planned>, when: nat, tenant: string, room: int) {
    exists before: seq<Planned>, asked: nat ::
      c.kept <= before && c.first <= asked <= when
      && RoomSince(c.world, c.perTenant, before, asked, inflight, tenant, room)
  }

  ghost predicate Rooms(c: Context, inflight: seq<Planned>, when: nat, room: map<string, int>) {
    forall t :: t in room ==> RoomNow(c, inflight, when, t, room[t])
  }

  /** Why an entry starts nothing: its budget cannot be read, its tenant has no room left, it
      raises, or it has nothing to do. */
  ghost predicate Excused(c: Context, e: Entry, inflight: seq<Planned>, when: nat) {
    || c.world.budget(e.tenant, when).Err?
    || (exists room :: room <= 0 && RoomNow(c, inflight, when, e.tenant, room))
    || (e.source.Runs? && ReservingRaises(c.world, e.tenant, Held(inflight, e.tenant), when))
    || (e.source.Runs? && NothingDue(c.world, e.tenant, Held(inflight, e.tenant), when))
    || (e.source.Events? && (c.world.event(e.tenant, when).Err? || !c.world.event(e.tenant, when).value))
  }

  /** At a visit of this pump, before visit `asked`, the entry had a reason to leave the
      rotation. */
  ghost predicate WasExcused(c: Context, e: Entry, inflight: seq<Planned>, asked: nat) {
    exists at: seq<Planned>, when: nat :: c.kept <= at <= inflight && c.first <= when < asked && Excused(c, e, at, when)
  }

  /** A call the entry may start while `inflight` is in flight: at a visit of this pump, before
      visit `asked`, its tenant has room, and the call is its next work. */
  ghost predicate Startable(c: Context, e: Entry, inflight: seq<Planned>, asked: nat, p: Planned) {
    exists when: nat :: c.first <= when < asked && NextCall(c.world, e, inflight, when, p)
      && exists room :: room > 0 && RoomNow(c, inflight, when, e.tenant, room)
  }

  ghost predicate NextCall(world: World, e: Entry, inflight: seq<Planned>, when: nat, p: Planned) {
    && p.tenant == e.tenant
    && (p.run.Some? <==> e.source.Runs?)
    && (e.source.Runs? ==> FirstDue(world, e.tenant, Held(inflight, e.tenant), when, p.run.value))
    && (e.source.Events? ==> world.event(e.tenant, when) == Ok(true))
  }

  lemma RoomIsBounded(c: Context, inflight: seq<Planned>, when: nat, tenant: string, room: int)
    requires RoomNow(c, inflight, when, tenant, room)
    ensures room <= c.perTenant - Running(inflight, tenant)
  {
    hide Running;
    var before: seq<Planned>, asked: nat :|
      c.kept <= before && c.first <= asked <= when
      && RoomSince(c.world, c.perTenant, before, asked, inflight, tenant, room);
    assert FitsSince(c.world, c.perTenant, before, asked, inflight, tenant, room);
  }

  /** Starting a call takes one from its tenant's room and leaves the others'. */
  lemma RoomAfter(c: Context, inflight: seq<Planned>, p: Planned, when: nat, tenant: string, room: int)
    requires RoomNow(c, inflight, when, tenant, room)
    ensures RoomNow(c, inflight + [p], when + 1, tenant, if p.tenant == tenant then room - 1 else room)
  {
    hide Running, Fits;
    var before: seq<Planned>, asked: nat :|
      c.kept <= before && c.first <= asked <= when
      && RoomSince(c.world, c.perTenant, before, asked, inflight, tenant, room);
    RunningAppend(inflight, p, tenant);
    var room' := if p.tenant == tenant then room - 1 else room;
    forall n: int
      ensures n <= room' <==> FitsSince(c.world, c.perTenant, before, asked, inflight + [p], tenant, n)
    {
      assert n + room - room' <= room <==>
        FitsSince(c.world, c.perTenant, before, asked, inflight, tenant, n + room - room');
    }
    assert RoomSince(c.world, c.perTenant, before, asked, inflight + [p], tenant, room');
  }

  lemma RoomsAfter(c: Context, inflight: seq<Planned>, p: Planned, when: nat, room: map<string, int>)
    requires Rooms(c, inflight, when, room) && p.tenant in room
    ensures Rooms(c, inflight + [p], when + 1, room[p.tenant := room[p.tenant] - 1])
  {
    hide RoomNow;
    forall t | t in room
      ensures RoomNow(c, inflight + [p], when + 1, t, room[p.tenant := room[p.tenant] - 1][t])
    {
      RoomAfter(c, inflight, p, when, t, room[t]);
    }
  }

  lemma RoomsLast(c: Context, inflight: seq<Planned>, when: nat, room: map<string, int>)
    requires Rooms(c, inflight, when, room)
    ensures Rooms(c, inflight, when + 1, room)
  {
    hide RoomSince;
  }

  lemma RoomAsked(c: Context, inflight: seq<Planned>, when: nat, tenant: string, room: int)
    requires c.kept <= inflight && c.first <= when && c.world.budget(tenant, when).Ok?
    requires forall n: int :: n <= room <==>
               Fits(c.perTenant, c.world.budget(tenant, when).value, Running(inflight, tenant), n)
    ensures RoomNow(c, inflight, when, tenant, room)
  {
    hide Running, Fits;
    assert RoomSince(c.world, c.perTenant, inflight, when, inflight, tenant, room);
  }

  lemma StillExcused(c: Context, e: Entry, inflight: seq<Planned>, inflight': seq<Planned>, asked: nat, asked': nat)
    requires WasExcused(c, e, inflight, asked) && inflight <= inflight' && asked <= asked'
    ensures WasExcused(c, e, inflight', asked')
  {
    hide Excused;
  }

  lemma NextIsNew(world: World, e: Entry, inflight: seq<Planned>, when: nat, p: Planned)
    requires NextCall(world, e, inflight, when, p)
    ensures p.tenant == e.tenant && (p.run.Some? ==> p.run.value !in Held(inflight, e.tenant))
  {
    hide Held, Passed;
  }

  predicate NoRunTwice(inflight: seq<Planned>) {
    forall i, j :: 0 <= i < j < |inflight| && inflight[i].run.Some? ==> inflight[i] != inflight[j]
  }

  /** How often an entry occurs. */
  function Count(entries: seq<Entry>, e: Entry): nat { multiset(entries)[e] }

  function First(order: seq<Entry>, e: Entry): (i: nat)
    requires e in order
    ensures i < |order| && order[i] == e
  {
    if order[0] == e then 0 else 1 + First(order[1..], e)
  }

  /** `list.remove`. */
  function RemoveFirst(order: seq<Entry>, e: Entry): (rest: seq<Entry>)
    requires e in order
    ensures |rest| == |order| - 1
    ensures forall x :: x in rest ==> x in order
  {
    var i := First(order, e);
    order[..i] + order[i + 1..]
  }

  lemma RemoveKeepsDistinct(order: seq<Entry>, e: Entry)
    requires e in order && NoDuplicates(order)
    ensures NoDuplicates(RemoveFirst(order, e)) && e !in RemoveFirst(order, e)
  {
    var i := First(order, e);
    var rest := RemoveFirst(order, e);
    forall j | 0 <= j < |rest| ensures rest[j] != e && rest[j] == order[if j < i then j else j + 1] {
    }
  }

  /** The rotation of one pump: tenants from `start` on, each with its sources. */
  function Rotated(tenants: seq<string>, start: nat): seq<string>
    requires start <= |tenants|
  {
    tenants[start..] + tenants[..start]
  }

  /** The rotation's entries: each tenant with its sources, in order. */
  function Entries(tenants: seq<string>, events: bool): (entries: seq<Entry>)
    ensures forall e :: e in entries <==> e.tenant in tenants && (events || e.source.Runs?)
  {
    if tenants == [] then []
    else
      var first := [Entry(tenants[0], Runs)] + (if events then [Entry(tenants[0], Events)] else []);
      var rest := Entries(tenants[1..], events);
      assert forall e :: e in first <==> e.tenant == tenants[0] && (events || e.source.Runs?) by {
        FirstEntries(tenants[0], events);
      }
      first + rest
  }

  lemma FirstEntries(tenant: string, events: bool)
    ensures var first := [Entry(tenant, Runs)] + (if events then [Entry(tenant, Events)] else []);
            forall e :: e in first <==> e.tenant == tenant && (events || e.source.Runs?)
  {
    var first := [Entry(tenant, Runs)] + (if events then [Entry(tenant, Events)] else []);
    assert first[0] == Entry(tenant, Runs);
    assert events ==> first[1] == Entry(tenant, Events);
    forall e ensures e in first <==> e.tenant == tenant && (events || e.source.Runs?) {
      if e.tenant == tenant && (events || e.source.Runs?) {
        assert e == first[if e.source.Runs? then 0 else 1];
      }
    }
  }

  /** The entry comes before the other in the rotation. */
  ghost predicate Ahead(all: seq<Entry>, e: Entry, f: Entry) {
    exists p, q :: 0 <= p < q < |all| && all[p] == e && all[q] == f
  }

  /** What is left of the rotation is still in its order. */
  ghost predicate SameOrder(all: seq<Entry>, order: seq<Entry>) {
    forall a, b :: 0 <= a < b < |order| ==> Ahead(all, order[a], order[b])
  }

  /** Whoever comes before the entry has started a call already, or been excused. */
  ghost predicate NobodyAhead(
    c: Context, all: seq<Entry>, before: seq<Entry>, f: Entry, inflight: seq<Planned>, asked: nat)
  {
    forall e :: Ahead(all, e, f) ==> e in before || WasExcused(c, e, inflight, asked)
  }

  /** Every call was started in turn. */
  ghost predicate InTurn(c: Context, all: seq<Entry>, started: seq<Entry>, inflight: seq<Planned>, asked: nat) {
    forall b :: 0 <= b < |started| ==> NobodyAhead(c, all, started[..b], started[b], inflight, asked)
  }

  /** In the middle of a round: whoever is not in it, or was visited, has had a turn. */
  ghost predicate TurnsSoFar(
    c: Context, all: seq<Entry>, rows: seq<Entry>, k: nat, started: seq<Entry>, inflight: seq<Planned>, asked: nat)
    requires k <= |rows|
  {
    && InTurn(c, all, started, inflight, asked)
    && (forall e :: e in all ==> e in rows || WasExcused(c, e, inflight, asked))
    && (forall i :: 0 <= i < k ==> rows[i] in started || WasExcused(c, rows[i], inflight, asked))
  }

  lemma StillInTurn(
    c: Context, all: seq<Entry>, started: seq<Entry>, inflight: seq<Planned>, inflight': seq<Planned>,
    asked: nat, asked': nat)
    requires InTurn(c, all, started, inflight, asked) && inflight <= inflight' && asked <= asked'
    ensures InTurn(c, all, started, inflight', asked')
  {
    hide WasExcused, Ahead;
    forall b | 0 <= b < |started| ensures NobodyAhead(c, all, started[..b], started[b], inflight', asked') {
      assert NobodyAhead(c, all, started[..b], started[b], inflight, asked);
      forall e | Ahead(all, e, started[b]) && e !in started[..b] ensures WasExcused(c, e, inflight', asked') {
        StillExcused(c, e, inflight, inflight', asked, asked');
      }
    }
  }

  lemma TurnsBegin(
    c: Context, all: seq<Entry>, rows: seq<Entry>, started: seq<Entry>, inflight: seq<Planned>, asked: nat)
    requires InTurn(c, all, started, inflight, asked)
    requires forall e :: e in all ==> e in rows || WasExcused(c, e, inflight, asked)
    ensures TurnsSoFar(c, all, rows, 0, started, inflight, asked)
  {
    hide WasExcused, InTurn;
  }

  /** One visit: the entry starts a call, or is excused. */
  lemma TurnsGoOn(
    c: Context, all: seq<Entry>, rows: seq<Entry>, k: nat, started: seq<Entry>, started': seq<Entry>,
    inflight: seq<Planned>, inflight': seq<Planned>, asked: nat)
    requires k < |rows| && TurnsSoFar(c, all, rows, k, started, inflight, asked) && inflight <= inflight'
    requires NoDuplicates(all) && SameOrder(all, rows)
    requires || started' == started + [rows[k]]
             || (started' == started && WasExcused(c, rows[k], inflight', asked + 1))
    ensures TurnsSoFar(c, all, rows, k + 1, started', inflight', asked + 1)
  {
    hide WasExcused, Ahead, NobodyAhead, SameOrder, NoDuplicates;
    StillInTurn(c, all, started, inflight, inflight', asked, asked + 1);
    forall e | WasExcused(c, e, inflight, asked) ensures WasExcused(c, e, inflight', asked + 1) {
      StillExcused(c, e, inflight, inflight', asked, asked + 1);
    }
    if started' != started {
      NextInTurn(c, all, rows, k, started, inflight', asked + 1);
      assert started'[..|started|] == started && started'[|started|] == rows[k];
      forall b | 0 <= b < |started'| ensures NobodyAhead(c, all, started'[..b], started'[b], inflight', asked + 1) {
        if b < |started| {
          assert started'[..b] == started[..b] && started'[b] == started[b];
        }
      }
      forall i | 0 <= i < k + 1 ensures rows[i] in started' || WasExcused(c, rows[i], inflight', asked + 1) {
        assert i < k ==> rows[i] in started || WasExcused(c, rows[i], inflight, asked);
      }
    }
  }

  lemma NextInTurn(
    c: Context, all: seq<Entry>, rows: seq<Entry>, k: nat, started: seq<Entry>, inflight: seq<Planned>, asked: nat)
    requires k < |rows| && NoDuplicates(all) && SameOrder(all, rows)
    requires forall e :: e in all ==> e in rows || WasExcused(c, e, inflight, asked)
    requires forall i :: 0 <= i < k ==> rows[i] in started || WasExcused(c, rows[i], inflight, asked)
    ensures NobodyAhead(c, all, started, rows[k], inflight, asked)
  {
    hide WasExcused;
    forall e | Ahead(all, e, rows[k]) && !WasExcused(c, e, inflight, asked) ensures e in started {
      var i :| 0 <= i < |rows| && rows[i] == e;
      NeverBoth(all, e, rows[k]);
    }
  }

  lemma NeverBoth(all: seq<Entry>, e: Entry, f: Entry)
    requires NoDuplicates(all) && Ahead(all, e, f)
    ensures e != f && !Ahead(all, f, e)
  {
  }

  lemma RemoveKeepsOrder(all: seq<Entry>, order: seq<Entry>, e: Entry)
    requires SameOrder(all, order) && e in order
    ensures SameOrder(all, RemoveFirst(order, e))
  {
    hide Ahead;
    var i := First(order, e);
    var rest := RemoveFirst(order, e);
    forall a, b | 0 <= a < b < |rest| ensures Ahead(all, rest[a], rest[b]) {
      assert rest[a] == order[if a < i then a else a + 1] && rest[b] == order[if b < i then b else b + 1];
    }
  }

  lemma WholeOrder(all: seq<Entry>)
    ensures SameOrder(all, all)
  {
  }

  /** How many tenants a pump that begins at `start` visits before this one. */
  function Wait(i: nat, start: nat, n: nat): nat
    requires i < n && start < n
  {
    if start <= i then i - start else i + n - start
  }

  /** The rotation begins at `start`: a tenant with less to wait is ahead of one with more. */
  lemma RotationIsAhead(tenants: seq<string>, start: nat, events: bool, i: nat, j: nat, e: Entry, f: Entry)
    requires i < |tenants| && j < |tenants| && start < |tenants|
    requires Wait(i, start, |tenants|) < Wait(j, start, |tenants|)
    requires e.tenant == tenants[i] && f.tenant == tenants[j] && (events || (e.source.Runs? && f.source.Runs?))
    ensures Ahead(Entries(Rotated(tenants, start), events), e, f)
  {
    hide Ahead;
    EntriesAhead(Rotated(tenants, start), events, Wait(i, start, |tenants|), Wait(j, start, |tenants|), e, f);
  }

  lemma {:induction false} EntriesAhead(tenants: seq<string>, events: bool, i: nat, j: nat, e: Entry, f: Entry)
    requires i < j < |tenants|
    requires e.tenant == tenants[i] && f.tenant == tenants[j] && (events || (e.source.Runs? && f.source.Runs?))
    ensures Ahead(Entries(tenants, events), e, f)
  {
    hide Ahead;
    var first := [Entry(tenants[0], Runs)] + (if events then [Entry(tenants[0], Events)] else []);
    var rest := Entries(tenants[1..], events);
    FirstEntries(tenants[0], events);
    var all := Entries(tenants, events);
    assert all == first + rest;
    if i == 0 {
      assert tenants[j] == tenants[1..][j - 1];
      AheadAcross(first, rest, e, f);
    } else {
      EntriesAhead(tenants[1..], events, i - 1, j - 1, e, f);
      AheadBehind(first, rest, e, f);
    }
  }

  lemma AheadAcross(first: seq<Entry>, rest: seq<Entry>, e: Entry, f: Entry)
    requires e in first && f in rest
    ensures Ahead(first + rest, e, f)
  {
    var p :| 0 <= p < |first| && first[p] == e;
    var q :| 0 <= q < |rest| && rest[q] == f;
    assert (first + rest)[p] == e && (first + rest)[|first| + q] == f;
  }

  lemma AheadBehind(first: seq<Entry>, rest: seq<Entry>, e: Entry, f: Entry)
    requires Ahead(rest, e, f)
    ensures Ahead(first + rest, e, f)
  {
    var p, q :| 0 <= p < q < |rest| && rest[p] == e && rest[q] == f;
    assert (first + rest)[|first| + p] == e && (first + rest)[|first| + q] == f;
  }

  /** Nobody is passed over: an entry has started a call by then, or was excused, if its tenant
      had less to wait than one for which a call was started. */
  ghost predicate NobodyPassedOver(
    c: Context, tenants: seq<string>, events: bool, start: nat, started: seq<Entry>, inflight: seq<Planned>, asked: nat)
    requires start < |tenants|
  {
    forall b, i, j, e: Entry ::
      0 <= b < |started| && 0 <= i < |tenants| && 0 <= j < |tenants| && started[b].tenant == tenants[j]
      && e.tenant == tenants[i] && (events || e.source.Runs?)
      && Wait(i, start, |tenants|) < Wait(j, start, |tenants|) ==>
        e in started[..b] || WasExcused(c, e, inflight, asked)
  }

  lemma InTurnMeans(
    c: Context, tenants: seq<string>, events: bool, start: nat, started: seq<Entry>, inflight: seq<Planned>, asked: nat)
    requires start < |tenants| && InTurn(c, Entries(Rotated(tenants, start), events), started, inflight, asked)
    requires forall e :: e in started ==> e in Entries(tenants, events)
    ensures NobodyPassedOver(c, tenants, events, start, started, inflight, asked)
  {
    hide WasExcused, Rotated, Wait, Ahead;
    var all := Entries(Rotated(tenants, start), events);
    forall b, i, j, e: Entry |
      0 <= b < |started| && 0 <= i < |tenants| && 0 <= j < |tenants| && started[b].tenant == tenants[j]
      && e.tenant == tenants[i] && (events || e.source.Runs?)
      && Wait(i, start, |tenants|) < Wait(j, start, |tenants|)
      ensures e in started[..b] || WasExcused(c, e, inflight, asked)
    {
      assert started[b] in started;
      assert NobodyAhead(c, all, started[..b], started[b], inflight, asked);
      RotationIsAhead(tenants, start, events, i, j, e, started[b]);
    }
  }

  predicate NoDuplicates<T(==)>(s: seq<T>) { forall i, j :: 0 <= i < j < |s| ==> s[i] != s[j] }

  lemma {:induction false} EntriesDistinct(tenants: seq<string>, events: bool)
    requires NoDuplicates(tenants)
    ensures NoDuplicates(Entries(tenants, events))
  {
    if tenants != [] {
      EntriesDistinct(tenants[1..], events);
      var first := [Entry(tenants[0], Runs)] + (if events then [Entry(tenants[0], Events)] else []);
      var rest := Entries(tenants[1..], events);
      forall i, j | 0 <= i < |first| && 0 <= j < |rest| ensures first[i] != rest[j] {
        assert rest[j] in rest && first[i].tenant == tenants[0];
      }
    }
  }

  lemma RotatedDistinct(tenants: seq<string>, start: nat)
    requires start <= |tenants| && NoDuplicates(tenants)
    ensures NoDuplicates(Rotated(tenants, start))
  {
  }

  lemma RunningAppend(inflight: seq<Planned>, p: Planned, tenant: string)
    ensures Running(inflight + [p], tenant) == Running(inflight, tenant) + (if p.tenant == tenant then 1 else 0)
  {
    assert (inflight + [p])[..|inflight|] == inflight;
  }

  lemma NothingRuns()
    ensures NoRunTwice([]) && forall t :: Running([], t) == 0
  {
  }

  lemma StillNoneTwice(inflight: seq<Planned>, i: nat, kept: seq<Planned>)
    requires i < |inflight| && NoRunTwice(inflight) && NoRunTwice(kept)
    requires forall q :: q in kept ==> q in inflight[..i]
    ensures NoRunTwice(kept + [inflight[i]])
  {
    forall k | 0 <= k < |kept| && kept[k].run.Some? ensures kept[k] != inflight[i] {
      assert kept[k] in inflight[..i];
      var j :| 0 <= j < i && inflight[j] == kept[k];
    }
  }

  class Pool {
    const workers: nat
    const perTenant: nat
    const events: bool
    var inflight: seq<Planned>
    var turn: nat

    /** At most `workers` calls, at most `perTenant` of any tenant, and no run twice. */
    ghost predicate Valid()
      reads `inflight
    {
      && |inflight| <= workers
      && (forall t :: Running(inflight, t) <= perTenant)
      && NoRunTwice(inflight)
    }

    constructor (workers: nat, perTenant: nat, events: bool)
      ensures Valid() && inflight == [] && turn == 0
      ensures this.workers == workers && this.perTenant == perTenant && this.events == events
    {
      this.workers, this.perTenant, this.events := workers, perTenant, events;
      inflight, turn := [], 0;
    }

    /** `_reap`: forget the calls that have finished. */
    method Reap(finished: Planned -> bool) returns (any: bool)
      requires Valid()
      modifies `inflight
      ensures Valid()
      ensures any <==> exists i :: 0 <= i < |old(inflight)| && finished(old(inflight)[i])
      ensures forall p :: p in inflight <==> p in old(inflight) && !finished(p)
      ensures forall t :: Running(inflight, t) <= Running(old(inflight), t)
    {
      hide Running, NoRunTwice;
      var kept := [];
      any := false;
      NothingRuns();
      for i := 0 to |inflight|
        invariant inflight == old(inflight) && |kept| <= i
        invariant forall p :: p in kept <==> p in inflight[..i] && !finished(p)
        invariant any <==> exists j :: 0 <= j < i && finished(inflight[j])
        invariant forall t :: Running(kept, t) <= Running(inflight[..i], t)
        invariant NoRunTwice(kept) && forall q :: q in kept ==> q in inflight[..i]
      {
        var p := inflight[i];
        assert inflight[..i + 1] == inflight[..i] + [p];
        forall t ensures Running(inflight[..i + 1], t) == Running(inflight[..i], t) + (if p.tenant == t then 1 else 0) {
          RunningAppend(inflight[..i], p, t);
        }
        if finished(p) {
          any := true;
        } else {
          forall t ensures Running(kept + [p], t) == Running(kept, t) + (if p.tenant == t then 1 else 0) {
            RunningAppend(kept, p, t);
          }
          StillNoneTwice(inflight, i, kept);
          kept := kept + [p];
        }
      }
      assert inflight[..|inflight|] == inflight;
      inflight := kept;
    }

    /** `AgentLoop.reserve_next`: the oldest candidate due a call, past the ones in `skip`. */
    method ReserveNext(world: World, tenant: string, skip: set<Id>, when: nat)
      returns (changed: bool, run: Result<Option<Id>>)
      ensures run.Ok? && run.value.Some? ==> changed && FirstDue(world, tenant, skip, when, run.value.value)
      ensures run == Ok(None) ==> NothingDue(world, tenant, skip, when)
      ensures run == Ok(None) ==>
                (changed <==> exists c :: c in world.candidates(tenant, when).value && c !in skip
                                && world.reserve(c, when).Ok? && world.reserve(c, when).value.moved)
      ensures run.Err? ==> !changed && ReservingRaises(world, tenant, skip, when)
    {
      changed := false;
      var candidates := world.candidates(tenant, when);
      if candidates.Err? { return false, Err(candidates.error); }
      var ids := candidates.value;
      for k := 0 to |ids|
        invariant Passed(world, ids, skip, when, k)
        invariant changed <==> exists j :: 0 <= j < k && ids[j] !in skip && world.reserve(ids[j], when).value.moved
      {
        if ids[k] !in skip {
          var r := world.reserve(ids[k], when);
          if r.Err? { return false, Err(r.error); }
          if r.value.reserved { return true, Ok(Some(ids[k])); }
          changed := changed || r.value.moved;
        }
      }
      run := Ok(None);
    }

    /** `_room`: the most calls the tenant may still start. Err: its budget could not be read. */
    method Room(world: World, tenant: string, when: nat) returns (room: Result<int>)
      ensures room.Err? <==> world.budget(tenant, when).Err?
      ensures room.Ok? ==> forall n: int :: n <= room.value <==>
                Fits(perTenant, world.budget(tenant, when).value, Running(inflight, tenant), n)
      // ... which is the least of what the tenant's bound and both counts of its budget leave.
      ensures room.Ok? && world.budget(tenant, when).value.None? ==>
                room.value == perTenant - Running(inflight, tenant)
      ensures room.Ok? && world.budget(tenant, when).value.Some? ==>
                var b := world.budget(tenant, when).value.value;
                var left := {perTenant - Running(inflight, tenant), b.maxInflight - Running(inflight, tenant),
                             b.maxInflight - b.inflight};
                room.value in left && forall n :: n in left ==> room.value <= n
    {
      var running := Running(inflight, tenant);
      var room0: int := perTenant - running;
      var budget := world.budget(tenant, when);
      if budget.Err? { return Err(budget.error); }
      if budget.value.None? { return Ok(room0); }
      var b := budget.value.value;
      var room1 := b.maxInflight - running;
      var room2 := b.maxInflight - b.inflight;
      var least := if room1 < room2 then room1 else room2;
      return Ok(if room0 < least then room0 else least);
    }

    /** `_run` and `_event`. Ok(Some(p)): a call to submit. */
    method Take(world: World, e: Entry, when: nat, ghost c: Context)
      returns (changed: bool, job: Result<Option<Planned>>)
      requires c.world == world
      ensures job.Ok? && job.value.Some? ==> changed && NextCall(world, e, inflight, when, job.value.value)
      ensures job.Err? || job.value.None? ==> Excused(c, e, inflight, when)
    {
      hide FirstDue, NothingDue, ReservingRaises, RoomNow, Held;
      if e.source == Runs {
        var run;
        changed, run := ReserveNext(world, e.tenant, Held(inflight, e.tenant), when);
        if run.Err? { return false, Err(run.error); }
        if run.value.None? { return changed, Ok(None); }
        return changed, Ok(Some(Planned(e.tenant, run.value)));
      }
      var event := world.event(e.tenant, when);
      if event.Err? { return false, Err(event.error); }
      if !event.value { return false, Ok(None); }
      return true, Ok(Some(Planned(e.tenant, None)));
    }

    /** Submitting one call within the bounds. */
    method Submit(p: Planned)
      requires Valid() && |inflight| < workers && Running(inflight, p.tenant) < perTenant
      requires p.run.Some? ==> p.run.value !in Held(inflight, p.tenant)
      modifies `inflight
      ensures Valid() && inflight == old(inflight) + [p]
      ensures forall t :: Running(inflight, t) == Running(old(inflight), t) + (if p.tenant == t then 1 else 0)
    {
      forall t ensures Running(inflight + [p], t) == Running(inflight, t) + (if p.tenant == t then 1 else 0) {
        RunningAppend(inflight, p, t);
      }
      if p.run.Some? {
        forall i | 0 <= i < |inflight| ensures inflight[i] != p {
          assert inflight[i].tenant == p.tenant && inflight[i].run.Some? ==>
            inflight[i].run.value in Held(inflight, p.tenant);
        }
      }
      inflight := inflight + [p];
    }

    /** One entry of one round: its next call is started, or it leaves the rotation for a
        reason. */
    method Visit(world: World, e: Entry, order: seq<Entry>, room: map<string, int>, when: nat, ghost c: Context)
      returns (changed: bool, started: bool, order': seq<Entry>, room': map<string, int>)
      requires Valid() && |inflight| < workers && e in order
      requires c.world == world && c.perTenant == perTenant && c.kept <= inflight
      requires c.first <= when && Rooms(c, inflight, when, room)
      modifies `inflight
      ensures Valid()
      ensures Rooms(c, inflight, when + 1, room')
      ensures started ==> changed
      ensures started ==>
                && order' == order && |inflight| == |old(inflight)| + 1
                && inflight == old(inflight) + [inflight[|old(inflight)|]]
                && Startable(c, e, old(inflight), when + 1, inflight[|old(inflight)|])
      ensures !started ==>
                && order' == RemoveFirst(order, e) && inflight == old(inflight)
                && Excused(c, e, old(inflight), when)
    {
      hide RoomSince, NextCall, Fits, Running, Held, NoRunTwice;
      changed, started, order', room' := false, false, RemoveFirst(order, e), room;
      RoomsLast(c, inflight, when, room);
      if e.tenant !in room' {
        var granted := Room(world, e.tenant, when);
        if granted.Err? { return; }
        RoomAsked(c, inflight, when, e.tenant, granted.value);
        room' := room'[e.tenant := granted.value];
        RoomsLast(c, inflight, when, room');
      }
      assert RoomNow(c, inflight, when, e.tenant, room'[e.tenant]);
      if room'[e.tenant] <= 0 { return; }
      var job;
      changed, job := Take(world, e, when, c);
      if job.Err? || job.value.None? { return; }
      var p := job.value.value;
      RoomIsBounded(c, inflight, when, e.tenant, room'[e.tenant]);
      NextIsNew(world, e, inflight, when, p);
      RoomsAfter(c, inflight, p, when, room');
      room' := room'[e.tenant := room'[e.tenant] - 1];
      Submit(p);
      started, order' := true, order;
    }

    /** One pass over the rotation, stopping early only when the pool is full. */
    method Round(world: World, rows: seq<Entry>, room: map<string, int>, when: nat,
                 ghost c: Context, ghost round: nat, ghost all: seq<Entry>, ghost startedBefore: seq<Entry>)
      returns (progressed: bool, ghost started: seq<Entry>, full: bool, order: seq<Entry>,
               room': map<string, int>, when': nat)
      requires Valid() && rows != [] && |inflight| < workers
      requires c.world == world && c.perTenant == perTenant && c.kept <= inflight
      requires c.first <= when && Rooms(c, inflight, when, room)
      requires NoDuplicates(all) ==> NoDuplicates(rows) && Even(startedBefore, rows, all, round)
      requires forall e :: e in all ==> e in rows || WasExcused(c, e, inflight, when)
      requires NoDuplicates(all) ==> SameOrder(all, rows) && InTurn(c, all, startedBefore, inflight, when)
      modifies `inflight
      ensures Valid()
      ensures when <= when' && Rooms(c, inflight, when', room')
      ensures Grown(c, old(inflight), inflight, when', started)
      ensures forall e :: e in order || e in started ==> e in rows
      ensures forall e :: e in rows ==> e in order || WasExcused(c, e, inflight, when')
      ensures |order| - |inflight| < |rows| - |old(inflight)|
      ensures full ==> |inflight| >= workers
      ensures NoDuplicates(all) ==>
                && NoDuplicates(order)
                && Between(startedBefore + started, order, all, if full then round else round + 1)
                && (!full ==> Even(startedBefore + started, order, all, round + 1))
                && SameOrder(all, order) && InTurn(c, all, startedBefore + started, inflight, when')
      ensures |started| > 0 ==> progressed
    {
      hide Held, NoRunTwice, Grown, MidRound, Pending, Even, Between, NoDuplicates, RemoveFirst, Running, Valid,
           Rooms, WasExcused, Excused, Startable, SameOrder, InTurn, TurnsSoFar;
      progressed, started, order, room', when' := false, [], rows, room, when;
      var k := 0;
      RoundBegins(startedBefore, rows, all, round);
      NoneGrown(c, inflight, when);
      assert startedBefore + started == startedBefore;
      if NoDuplicates(all) { TurnsBegin(c, all, rows, startedBefore, inflight, when); }
      while k < |rows| && |inflight| < workers
        invariant k <= |rows| && Valid() && (k == 0 ==> |inflight| < workers)
        invariant when <= when' && c.kept <= inflight && Rooms(c, inflight, when', room')
        invariant Grown(c, old(inflight), inflight, when', started)
        invariant forall e :: e in order || e in started ==> e in rows
        invariant forall e :: e in rows ==> e in order || WasExcused(c, e, inflight, when')
        invariant |rows| - |order| + |inflight| - |old(inflight)| == k
        invariant Pending(rows, k, order)
        invariant NoDuplicates(all) ==> NoDuplicates(order)
        invariant NoDuplicates(all) ==> MidRound(startedBefore + started, rows, k, order, all, round)
        invariant NoDuplicates(all) ==>
                    SameOrder(all, order) && TurnsSoFar(c, all, rows, k, startedBefore + started, inflight, when')
        invariant |started| > 0 ==> progressed
      {
        var e := rows[k];
        PendingHead(rows, k, order);
        var changed, began;
        ghost var was, startedWas, inflightWas := order, started, inflight;
        changed, began, order, room' := Visit(world, e, order, room', when', c);
        when' := when' + 1;
        progressed := progressed || changed;
        if began {
          GrownNext(c, old(inflight), inflightWas, inflight, when' - 1, started, e);
          started := started + [e];
        } else {
          GrownLast(c, old(inflight), inflight, when' - 1, started);
        }
        LeavesExcused(c, e, rows, was, order, inflightWas, inflight, when' - 1);
        PendingNext(rows, k, was, order);
        if NoDuplicates(all) {
          assert startedBefore + (startedWas + [e]) == startedBefore + startedWas + [e];
          if !began {
            RemoveKeepsDistinct(was, e);
            RemoveKeepsOrder(all, was, e);
            NowExcused(c, e, inflight, when' - 1);
          }
          TurnsGoOn(c, all, rows, k, startedBefore + startedWas, startedBefore + started, inflightWas, inflight,
                    when' - 1);
          RoundGoesOn(startedBefore + startedWas, startedBefore + started, rows, k, was, order, all, round);
        }
        k := k + 1;
      }
      full := k < |rows|;
      if NoDuplicates(all) {
        TurnsTaken(c, all, rows, k, startedBefore + started, inflight, when');
        RoundEnds(startedBefore + started, rows, k, order, all, round);
      }
    }

    /** `pump`. It terminates, whatever the store answers; it keeps every bound; it is
        work-conserving: it ends with the pool full or the rotation empty; and it is fair:
        no entry starts two calls more than one that stayed in the rotation to the end. No
        entry leaves the rotation without a reason, and no call is started but the next one of
        an entry with room. */
    method Pump(world: World, tenants: seq<string>, finished: Planned -> bool, first: nat)
      returns (progressed: bool, ghost started: seq<Entry>, ghost left: seq<Entry>, ghost asked: nat)
      requires Valid()
      modifies this
      ensures Valid()
      ensures tenants != [] ==> |inflight| >= workers || left == []
      ensures turn == old(turn) + (if tenants == [] then 0 else 1)
      ensures forall p :: p in old(inflight) && !finished(p) ==> p in inflight
      ensures |started| <= |inflight| && forall e :: e in started ==> e in Entries(tenants, events)
      ensures var kept := inflight[..|inflight| - |started|];
              && (forall p :: p in kept <==> p in old(inflight) && !finished(p))
              && Grown(Context(world, perTenant, kept, first), kept, inflight, asked, started)
              && forall e :: e in Entries(tenants, events) ==>
                   e in left || WasExcused(Context(world, perTenant, kept, first), e, inflight, asked)
      ensures NoDuplicates(tenants) ==>
                forall e, f :: e in left && f in Entries(tenants, events) ==> Count(started, f) <= Count(started, e) + 1
      ensures tenants != [] && NoDuplicates(tenants) ==>
                NobodyPassedOver(Context(world, perTenant, inflight[..|inflight| - |started|], first), tenants, events,
                                 old(turn) % |tenants|, started, inflight, asked)
      ensures |started| > 0 ==> progressed
    {
      hide Held, NoRunTwice, Grown, Even, Between, NoDuplicates, Running, Valid, Entries, Rotated, Rooms, WasExcused,
           Startable, SameOrder, InTurn, NobodyPassedOver;
      progressed := Reap(finished);
      started, left, asked := [], [], first;
      ghost var c := Context(world, perTenant, inflight, first);
      assert inflight[..|inflight|] == inflight;
      NoneGrown(c, inflight, first);
      if tenants == [] {
        NoEntries(events);
        return;
      }
      var start := turn % |tenants|;
      turn := turn + 1;
      var order := Entries(Rotated(tenants, start), events);
      ghost var all := order;
      if NoDuplicates(tenants) {
        RotatedDistinct(tenants, start);
        EntriesDistinct(Rotated(tenants, start), events);
      }
      var room: map<string, int> := map[];
      var when := first;
      ghost var round := 0;
      RotationBegins(all);
      WholeOrder(all);
      NobodyYet(c, all, inflight, when);
      while order != [] && |inflight| < workers
        invariant Valid() && turn == old(turn) + 1
        invariant c.kept <= inflight && first <= when && Rooms(c, inflight, when, room)
        invariant Grown(c, c.kept, inflight, when, started)
        invariant forall e :: e in order || e in started ==> e in all
        invariant forall e :: e in all ==> e in order || WasExcused(c, e, inflight, when)
        invariant NoDuplicates(all) ==> NoDuplicates(order)
        invariant NoDuplicates(all) ==> Between(started, order, all, round)
        invariant NoDuplicates(all) && |inflight| < workers ==> Even(started, order, all, round)
        invariant NoDuplicates(all) ==> SameOrder(all, order) && InTurn(c, all, started, inflight, when)
        invariant |started| > 0 ==> progressed
        decreases |order| + workers - |inflight|
      {
        var moved, full;
        ghost var more;
        ghost var inflightWas, orderWas, whenWas := inflight, order, when;
        moved, more, full, order, room, when := Round(world, order, room, when, c, round, all, started);
        progressed := progressed || moved;
        GrownTogether(c, c.kept, inflightWas, inflight, whenWas, when, started, more);
        ExcusedTogether(c, all, orderWas, order, inflightWas, inflight, whenWas, when);
        started := started + more;
        if !full { round := round + 1; }
      }
      left, asked := order, when;
      GrownIsSuffix(c, c.kept, inflight, when, started);
      RotationMembers(tenants, start, events);
      if NoDuplicates(tenants) {
        BetweenIsFair(started, left, all, round);
        InTurnMeans(c, tenants, events, start, started, inflight, asked);
      }
    }
  }

  lemma NobodyYet(c: Context, all: seq<Entry>, inflight: seq<Planned>, asked: nat)
    ensures InTurn(c, all, [], inflight, asked)
  {
  }

  lemma NowExcused(c: Context, e: Entry, inflight: seq<Planned>, when: nat)
    requires Excused(c, e, inflight, when) && c.kept <= inflight && c.first <= when
    ensures WasExcused(c, e, inflight, when + 1)
  {
    hide Excused;
  }

  lemma TurnsTaken(
    c: Context, all: seq<Entry>, rows: seq<Entry>, k: nat, started: seq<Entry>, inflight: seq<Planned>, asked: nat)
    requires k <= |rows| && TurnsSoFar(c, all, rows, k, started, inflight, asked)
    ensures InTurn(c, all, started, inflight, asked)
  {
    hide WasExcused, InTurn;
  }

  lemma NoEntries(events: bool)
    ensures Entries([], events) == []
  {
  }

  lemma GrownIsSuffix(c: Context, kept: seq<Planned>, inflight: seq<Planned>, asked: nat, started: seq<Entry>)
    requires Grown(c, kept, inflight, asked, started)
    ensures |started| <= |inflight| && inflight[..|inflight| - |started|] == kept
    ensures forall p :: p in kept ==> p in inflight
  {
    hide Startable;
  }

  lemma RotationMembers(tenants: seq<string>, start: nat, events: bool)
    requires start <= |tenants|
    ensures forall e :: e in Entries(Rotated(tenants, start), events) <==> e in Entries(tenants, events)
  {
    hide Entries;
    assert tenants == tenants[..start] + tenants[start..];
    assert forall t :: t in Rotated(tenants, start) <==> t in tenants;
  }

  lemma BetweenIsFair(started: seq<Entry>, left: seq<Entry>, all: seq<Entry>, round: nat)
    requires Between(started, left, all, round)
    ensures forall e, f :: e in left && f in all ==> Count(started, f) <= Count(started, e) + 1
  {
  }

  /** The calls in flight are those kept plus, for each entry started, its next call at that
      moment. */
  ghost predicate Grown(c: Context, kept: seq<Planned>, inflight: seq<Planned>, asked: nat, started: seq<Entry>) {
    && kept <= inflight && |inflight| == |kept| + |started|
    && forall i :: 0 <= i < |started| ==>
         Startable(c, started[i], inflight[..|kept| + i], asked, inflight[|kept| + i])
  }

  lemma NoneGrown(c: Context, inflight: seq<Planned>, asked: nat)
    ensures Grown(c, inflight, inflight, asked, []) && Rooms(c, inflight, asked, map[])
  {
  }

  lemma StillStartable(c: Context, e: Entry, inflight: seq<Planned>, asked: nat, asked': nat, p: Planned)
    requires Startable(c, e, inflight, asked, p) && asked <= asked'
    ensures Startable(c, e, inflight, asked', p)
  {
    hide NextCall, RoomNow;
  }

  lemma GrownNext(
    c: Context, kept: seq<Planned>, inflight: seq<Planned>, inflight': seq<Planned>, asked: nat,
    started: seq<Entry>, e: Entry)
    requires Grown(c, kept, inflight, asked, started)
    requires |inflight'| == |inflight| + 1 && inflight' == inflight + [inflight'[|inflight|]]
    requires Startable(c, e, inflight, asked + 1, inflight'[|inflight|])
    ensures Grown(c, kept, inflight', asked + 1, started + [e])
  {
    hide Startable;
    forall i | 0 <= i < |started + [e]|
      ensures Startable(c, (started + [e])[i], inflight'[..|kept| + i], asked + 1, inflight'[|kept| + i])
    {
      assert inflight'[..|kept| + i] == inflight[..|kept| + i];
      if i < |started| {
        StillStartable(c, started[i], inflight[..|kept| + i], asked, asked + 1, inflight[|kept| + i]);
      }
    }
  }

  lemma GrownLast(c: Context, kept: seq<Planned>, inflight: seq<Planned>, asked: nat, started: seq<Entry>)
    requires Grown(c, kept, inflight, asked, started)
    ensures Grown(c, kept, inflight, asked + 1, started)
  {
    hide Startable;
    forall i | 0 <= i < |started|
      ensures Startable(c, started[i], inflight[..|kept| + i], asked + 1, inflight[|kept| + i])
    {
      StillStartable(c, started[i], inflight[..|kept| + i], asked, asked + 1, inflight[|kept| + i]);
    }
  }

  lemma GrownTogether(
    c: Context, kept: seq<Planned>, b: seq<Planned>, d: seq<Planned>, asked: nat, asked': nat,
    first: seq<Entry>, second: seq<Entry>)
    requires Grown(c, kept, b, asked, first) && Grown(c, b, d, asked', second) && asked <= asked'
    ensures Grown(c, kept, d, asked', first + second) && b <= d
  {
    hide Startable;
    forall i | 0 <= i < |first + second|
      ensures Startable(c, (first + second)[i], d[..|kept| + i], asked', d[|kept| + i])
    {
      if i < |first| {
        assert d[..|kept| + i] == b[..|kept| + i] && d[|kept| + i] == b[|kept| + i];
        StillStartable(c, first[i], b[..|kept| + i], asked, asked', b[|kept| + i]);
      } else {
        assert (first + second)[i] == second[i - |first|];
      }
    }
  }

  /** One visit: whoever is no longer in the rotation has been excused. */
  lemma LeavesExcused(
    c: Context, e: Entry, rows: seq<Entry>, order: seq<Entry>, order': seq<Entry>,
    inflight: seq<Planned>, inflight': seq<Planned>, when: nat)
    requires forall f :: f in rows ==> f in order || WasExcused(c, f, inflight, when)
    requires c.kept <= inflight <= inflight' && c.first <= when && e in order
    requires order' == order || (order' == RemoveFirst(order, e) && Excused(c, e, inflight, when))
    ensures forall f :: f in rows ==> f in order' || WasExcused(c, f, inflight', when + 1)
  {
    hide Excused;
    forall f | f in rows && f !in order' ensures WasExcused(c, f, inflight', when + 1) {
      if f in order {
        if f != e {
          RemoveKeepsOthers(order, e, f);
        }
        assert WasExcused(c, e, inflight, when + 1);
        StillExcused(c, f, inflight, inflight', when + 1, when + 1);
      } else {
        StillExcused(c, f, inflight, inflight', when, when + 1);
      }
    }
  }

  lemma RemoveKeepsOthers(order: seq<Entry>, e: Entry, f: Entry)
    requires e in order && f in order && f != e
    ensures f in RemoveFirst(order, e)
  {
    RemoveCounts(order, e);
    assert f in multiset(order);
    assert f in multiset(RemoveFirst(order, e));
  }

  lemma ExcusedTogether(
    c: Context, all: seq<Entry>, order: seq<Entry>, order': seq<Entry>,
    inflight: seq<Planned>, inflight': seq<Planned>, asked: nat, asked': nat)
    requires forall f :: f in all ==> f in order || WasExcused(c, f, inflight, asked)
    requires forall f :: f in order ==> f in order' || WasExcused(c, f, inflight', asked')
    requires inflight <= inflight' && asked <= asked'
    ensures forall f :: f in all ==> f in order' || WasExcused(c, f, inflight', asked')
  {
    hide WasExcused;
    forall f | f in all && f !in order' ensures WasExcused(c, f, inflight', asked') {
      if f !in order {
        StillExcused(c, f, inflight, inflight', asked, asked');
      }
    }
  }

  lemma RoundBegins(started: seq<Entry>, rows: seq<Entry>, all: seq<Entry>, round: nat)
    ensures Pending(rows, 0, rows)
    ensures Even(started, rows, all, round) ==> MidRound(started, rows, 0, rows, all, round)
  {
    assert rows[0..] == rows;
  }

  lemma RotationBegins(all: seq<Entry>)
    ensures Even([], all, all, 0) && Between([], all, all, 0)
  {
  }

  /** Every row not yet visited this round is still in the rotation, once for each time it
      is still to be visited. */
  ghost predicate Pending(rows: seq<Entry>, k: nat, order: seq<Entry>)
    requires k <= |rows|
  {
    multiset(rows[k..]) <= multiset(order)
  }

  lemma PendingHead(rows: seq<Entry>, k: nat, order: seq<Entry>)
    requires k < |rows| && Pending(rows, k, order)
    ensures rows[k] in order
  {
    assert rows[k..][0] == rows[k];
    assert rows[k] in multiset(rows[k..]);
  }

  lemma PendingNext(rows: seq<Entry>, k: nat, order: seq<Entry>, order': seq<Entry>)
    requires k < |rows| && Pending(rows, k, order) && rows[k] in order
    requires order' == order || order' == RemoveFirst(order, rows[k])
    ensures Pending(rows, k + 1, order')
  {
    assert rows[k..] == [rows[k]] + rows[k + 1..];
    RemoveCounts(order, rows[k]);
  }

  lemma RemoveCounts(order: seq<Entry>, e: Entry)
    requires e in order
    ensures multiset(RemoveFirst(order, e)) == multiset(order) - multiset{e}
  {
    var i := First(order, e);
    assert order == order[..i] + [e] + order[i + 1..];
  }

  /** Between rounds: every entry still in the rotation has started one call per round. */
  ghost predicate Even(started: seq<Entry>, order: seq<Entry>, all: seq<Entry>, round: nat) {
    && (forall f :: f in all ==> Count(started, f) <= round)
    && (forall e :: e in order ==> Count(started, e) == round)
  }

  ghost predicate Between(started: seq<Entry>, order: seq<Entry>, all: seq<Entry>, round: nat) {
    && (forall f :: f in all ==> Count(started, f) <= round + 1)
    && (forall e :: e in order ==> round <= Count(started, e))
  }

  /** Within a round: the rows already visited and still in the rotation are one ahead. */
  ghost predicate MidRound(
    started: seq<Entry>, rows: seq<Entry>, k: nat, order: seq<Entry>, all: seq<Entry>, round: nat)
    requires k <= |rows|
  {
    && (forall f :: f in all ==> Count(started, f) <= round + 1)
    && (forall i :: k <= i < |rows| ==> Count(started, rows[i]) == round)
    && (forall i :: 0 <= i < k && rows[i] in order ==> Count(started, rows[i]) == round + 1)
  }

  lemma RoundGoesOn(
    started: seq<Entry>, started': seq<Entry>, rows: seq<Entry>, k: nat, order: seq<Entry>, order': seq<Entry>,
    all: seq<Entry>, round: nat)
    requires k < |rows| && NoDuplicates(rows) && rows[k] in order && NoDuplicates(order)
    requires MidRound(started, rows, k, order, all, round)
    requires || (started' == started + [rows[k]] && order' == order)
             || (started' == started && order' == RemoveFirst(order, rows[k]))
    ensures MidRound(started', rows, k + 1, order', all, round)
  {
    forall f ensures Count(started + [rows[k]], f) == Count(started, f) + (if f == rows[k] then 1 else 0) {
      assert multiset(started + [rows[k]]) == multiset(started) + multiset{rows[k]};
    }
  }

  lemma RoundEnds(started: seq<Entry>, rows: seq<Entry>, k: nat, order: seq<Entry>, all: seq<Entry>, round: nat)
    requires k <= |rows| && MidRound(started, rows, k, order, all, round)
    requires forall e :: e in order ==> e in rows
    ensures k < |rows| ==> Between(started, order, all, round)
    ensures k == |rows| ==> Even(started, order, all, round + 1) && Between(started, order, all, round + 1)
  {
    forall e | e in order ensures round <= Count(started, e) && (k == |rows| ==> Count(started, e) == round + 1) {
      var i :| 0 <= i < |rows| && rows[i] == e;
    }
  }
}
