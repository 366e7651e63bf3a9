/**
 Fill polling over whole runs. Each reconciliation cycle fetches two overlapping windows of executions
 and stores the ones it does not know. When the broker shows every fill soon enough and cycles are not too
 far apart, no fill is lost and none is stored twice; a fill shown too late is lost for good.
 */
module Fills {
  import opened Common

  const SECOND: Time := 1_000_000
  const MINUTE: Time := 60 * SECOND
  const DAY: Time := 24 * 60 * MINUTE

  /** One execution of the account, and the moment from which the broker's list shows it. */
  datatype Fill = Fill(id: string, category: Category, linkId: string, symbol: string, side: Side, price: real,
                       quantity: real, fee: real, executedAt: Time, visibleAt: Time)

  /** A stored execution; the order link is resolved once, when the row is inserted. */
  datatype FillRow = FillRow(fill: Fill, orderId: Option<Id>)

  datatype SaveFailure = DuplicateExecution

  // ----- the table of one connection

  ghost predicate Known(rows: seq<FillRow>, id: string) {
    exists i :: 0 <= i < |rows| && rows[i].fill.id == id
  }

  /** The unique constraint on connection and execution id. */
  ghost predicate UniqueIds(rows: seq<FillRow>) {
    forall i, j :: 0 <= i < j < |rows| ==> rows[i].fill.id != rows[j].fill.id
  }

  function Latest(rows: seq<FillRow>): Option<Time> {
    if |rows| == 0 then None
    else
      match Latest(rows[..|rows| - 1])
      case None => Some(rows[|rows| - 1].fill.executedAt)
      case Some(t) => Some(if t < rows[|rows| - 1].fill.executedAt then rows[|rows| - 1].fill.executedAt else t)
  }

  lemma {:induction false} LatestIsMaximum(rows: seq<FillRow>)
    ensures Latest(rows).None? <==> |rows| == 0
    ensures Latest(rows).Some? ==> exists i :: 0 <= i < |rows| && rows[i].fill.executedAt == Latest(rows).value
    ensures forall i :: 0 <= i < |rows| ==> rows[i].fill.executedAt <= Latest(rows).value
  {
    if |rows| == 0 {
    } else {
      LatestIsMaximum(rows[..|rows| - 1]);
      if Latest(rows[..|rows| - 1]).Some? {
        var i :| 0 <= i < |rows| - 1 && rows[..|rows| - 1][i].fill.executedAt == Latest(rows[..|rows| - 1]).value;
        assert rows[i].fill.executedAt == Latest(rows[..|rows| - 1]).value;
      }
    }
  }

  function RowFor(fill: Fill, links: map<string, Id>): FillRow {
    FillRow(fill, if fill.linkId in links then Some(links[fill.linkId]) else None)
  }

  /** Inserts the unknown fills of a batch in order; a new id listed twice breaks the constraint. */
  ghost function Insert(existing: seq<FillRow>, rows: seq<FillRow>, batch: seq<Fill>,
                        links: map<string, Id>): Result<seq<FillRow>, SaveFailure>
    decreases |batch|
  {
    if |batch| == 0 then Ok(rows)
    else if Known(existing, batch[0].id) then Insert(existing, rows, batch[1..], links)
    else if Known(rows, batch[0].id) then Err(DuplicateExecution)
    else Insert(existing, rows + [RowFor(batch[0], links)], batch[1..], links)
  }

  ghost function Save(rows: seq<FillRow>, batch: seq<Fill>, links: map<string, Id>): Result<seq<FillRow>, SaveFailure> {
    Insert(rows, rows, batch, links)
  }

  class ExecutionTable {
    var rows: seq<FillRow>

    constructor ()
      ensures rows == []
    {
      rows := [];
    }

    /** The newest stored execution time. */
    method LatestExecutionAt() returns (latest: Option<Time>)
      ensures latest == Latest(rows)
    {
      latest := None;
      for i := 0 to |rows|
        invariant latest == Latest(rows[..i])
      {
        assert rows[..i + 1][..i] == rows[..i];
        if latest.None? || latest.value < rows[i].fill.executedAt {
          latest := Some(rows[i].fill.executedAt);
        }
      }
      assert rows[..|rows|] == rows;
    }

    /** The start of the window a cycle fetches, in whole milliseconds. */
    method NextWindow(now: Time) returns (startMs: int)
      ensures startMs == StartMs(rows, now)
    {
      var latest := LatestExecutionAt();
      var start := now - DAY;
      if latest.Some? { start := latest.value - MINUTE; }
      if start < now - 7 * DAY { start := now - 7 * DAY; }
      return start / 1000;
    }

    /** One transaction: all unknown fills of the batch, or nothing when an id is inserted twice. */
    method SaveExecutions(batch: seq<Fill>, links: map<string, Id>) returns (r: Result<(), SaveFailure>)
      requires UniqueIds(rows)
      modifies this
      ensures UniqueIds(rows)
      ensures r.Ok? <==> Save(old(rows), batch, links).Ok?
      ensures r.Ok? ==> Save(old(rows), batch, links) == Ok(rows)
      ensures r.Err? ==> rows == old(rows)
    {
      var existing := set i | 0 <= i < |rows| :: rows[i].fill.id;
      assert forall id :: id in existing <==> Known(rows, id);
      var session, ids := rows, existing;
      for i := 0 to |batch|
        invariant rows == old(rows) && UniqueIds(session)
        invariant forall id :: id in ids <==> Known(session, id)
        invariant Save(rows, batch, links) == Insert(rows, session, batch[i..], links)
      {
        var fill := batch[i];
        assert batch[i..][0] == fill && batch[i..][1..] == batch[i + 1..];
        if fill.id !in existing {
          if fill.id in ids { return Err(DuplicateExecution); }
          KnownAfter(session, RowFor(fill, links));
          session := session + [RowFor(fill, links)];
          ids := ids + {fill.id};
        }
      }
      rows := session;
      return Ok(());
    }
  }

  lemma KnownAfter(rows: seq<FillRow>, row: FillRow)
    ensures forall id :: Known(rows + [row], id) <==> Known(rows, id) || id == row.fill.id
  {
    forall id | Known(rows, id) ensures Known(rows + [row], id) {
      var i :| 0 <= i < |rows| && rows[i].fill.id == id;
      assert (rows + [row])[i].fill.id == id;
    }
    assert (rows + [row])[|rows|] == row;
  }

  /** No unknown id is listed twice. */
  ghost predicate Savable(existing: seq<FillRow>, batch: seq<Fill>) {
    forall i, j :: 0 <= i < j < |batch| && batch[i].id == batch[j].id ==> Known(existing, batch[i].id)
  }

  ghost predicate Lists(batch: seq<Fill>, id: string) {
    exists i :: 0 <= i < |batch| && batch[i].id == id
  }

  /** Saving appends rows: it keeps what is stored and afterwards knows exactly the old and the listed ids. */
  ghost predicate Saves(existing: seq<FillRow>, rows: seq<FillRow>, batch: seq<Fill>, after: seq<FillRow>,
                        links: map<string, Id>) {
    && rows <= after
    && UniqueIds(after)
    && (forall id :: Known(after, id) <==> Known(rows, id) || Lists(batch, id))
    && (forall i :: |rows| <= i < |after| ==>
          && after[i].fill in batch
          && after[i].orderId == if after[i].fill.linkId in links then Some(links[after[i].fill.linkId]) else None)
  }

  lemma {:induction false} InsertSaves(existing: seq<FillRow>, rows: seq<FillRow>, batch: seq<Fill>,
                                       links: map<string, Id>)
    requires UniqueIds(rows) && existing <= rows
    requires Insert(existing, rows, batch, links).Ok?
    ensures Saves(existing, rows, batch, Insert(existing, rows, batch, links).value, links)
    decreases |batch|
  {
    if |batch| == 0 {
    } else {
      var rest := batch[1..];
      KnownGrows(existing, rows);
      forall id ensures Lists(batch, id) <==> Lists(rest, id) || batch[0].id == id { ListsHead(batch, id); }
      if Known(existing, batch[0].id) {
        InsertSaves(existing, rows, rest, links);
      } else {
        var row := RowFor(batch[0], links);
        KnownAfter(rows, row);
        InsertSaves(existing, rows + [row], rest, links);
        var after := Insert(existing, rows + [row], rest, links).value;
        assert after[|rows|] == row;
      }
    }
  }

  lemma KnownGrows(rows: seq<FillRow>, after: seq<FillRow>)
    requires rows <= after
    ensures forall id :: Known(rows, id) ==> Known(after, id)
  {
  }

  lemma ListsHead(batch: seq<Fill>, id: string)
    requires |batch| > 0
    ensures Lists(batch, id) <==> Lists(batch[1..], id) || batch[0].id == id
  {
  }

  /** A batch is saved exactly when no unknown id is listed twice. */
  lemma SaveOkIff(rows: seq<FillRow>, batch: seq<Fill>, links: map<string, Id>)
    requires UniqueIds(rows)
    ensures Save(rows, batch, links).Ok? <==> Savable(rows, batch)
  {
    InsertOkIff(rows, rows, batch, links);
  }

  lemma {:induction false} InsertOkIff(existing: seq<FillRow>, rows: seq<FillRow>, batch: seq<Fill>,
                                       links: map<string, Id>)
    requires existing <= rows
    ensures Insert(existing, rows, batch, links).Ok? <==>
            Savable(existing, batch) && forall i :: 0 <= i < |batch| && Known(rows, batch[i].id) ==>
              Known(existing, batch[i].id)
    decreases |batch|
  {
    if |batch| == 0 {
    } else {
      var rest := batch[1..];
      KnownGrows(existing, rows);
      SavableHead(existing, batch);
      if Known(existing, batch[0].id) {
        InsertOkIff(existing, rows, rest, links);
        assert forall i :: 0 < i < |batch| ==> batch[i] == rest[i - 1];
      } else {
        var row := RowFor(batch[0], links);
        KnownAfter(rows, row);
        InsertOkIff(existing, rows + [row], rest, links);
        assert forall i :: 0 < i < |batch| ==> batch[i] == rest[i - 1];
        assert forall i :: 0 <= i < |rest| ==> rest[i] == batch[i + 1];
      }
    }
  }

  lemma SavableHead(existing: seq<FillRow>, batch: seq<Fill>)
    requires |batch| > 0
    ensures Savable(existing, batch) <==>
            Savable(existing, batch[1..]) &&
              (Known(existing, batch[0].id) || forall i :: 0 < i < |batch| ==> batch[i].id != batch[0].id)
  {
  }

  // ----- one cycle

  /** The time window of a cycle: it overlaps what is stored by a minute, and never reaches back more than a week. */
  function WindowStart(rows: seq<FillRow>, now: Time): Time {
    var wanted := if Latest(rows).Some? then Latest(rows).value - MINUTE else now - DAY;
    if now - 7 * DAY < wanted then wanted else now - 7 * DAY
  }

  /** The start is sent in whole milliseconds. */
  function StartMs(rows: seq<FillRow>, now: Time): int {
    WindowStart(rows, now) / 1000
  }

  /**
   With nothing stored a cycle asks for the last day; else from a minute before the newest stored fill, and at most
   for the last week.
   */
  lemma WindowInFields(rows: seq<FillRow>, now: Time, newest: int)
    requires |rows| > 0 ==> 0 <= newest < |rows| && forall i :: 0 <= i < |rows| ==>
               rows[i].fill.executedAt <= rows[newest].fill.executedAt
    ensures |rows| == 0 ==> StartMs(rows, now) == (now - 86_400_000_000) / 1000
    ensures |rows| > 0 ==>
              var overlap, week := rows[newest].fill.executedAt - 60_000_000, now - 604_800_000_000;
              StartMs(rows, now) == (if overlap >= week then overlap else week) / 1000
  {
    LatestIsMaximum(rows);
  }

  /** The broker shows this fill to a request made now for this window. */
  predicate InPage(fill: Fill, category: Category, startMs: int, at: Time) {
    fill.category == category && fill.visibleAt <= at && startMs <= fill.executedAt / 1000
  }

  /** A cycle that stored its fills: when it began, when it fetched each category, and what came back. */
  datatype Cycle = Cycle(now: Time, spotAt: Time, linearAt: Time, spot: seq<Fill>, linear: seq<Fill>,
                         links: map<string, Id>)

  function FetchedAt(cycle: Cycle, category: Category): Time {
    if category == Spot then cycle.spotAt else cycle.linearAt
  }

  ghost predicate Returned(broker: set<Fill>, page: seq<Fill>, category: Category, startMs: int, at: Time) {
    && (forall fill :: fill in page <==> fill in broker && InPage(fill, category, startMs, at))
    && forall i, j :: 0 <= i < j < |page| ==> page[i] != page[j]
  }

  ghost predicate Fetches(broker: set<Fill>, rows: seq<FillRow>, cycle: Cycle) {
    && Returned(broker, cycle.spot, Spot, StartMs(rows, cycle.now), cycle.spotAt)
    && Returned(broker, cycle.linear, Linear, StartMs(rows, cycle.now), cycle.linearAt)
  }

  /** The broker names each fill once. */
  ghost predicate DistinctFills(broker: set<Fill>) {
    forall f, g :: f in broker && g in broker && f.id == g.id ==> f == g
  }

  ghost function Polled(rows: seq<FillRow>, cycle: Cycle): seq<FillRow> {
    var saved := Save(rows, cycle.spot + cycle.linear, cycle.links);
    if saved.Ok? then saved.value else rows
  }

  /** The table after some cycles. */
  ghost function Stored(cycles: seq<Cycle>): seq<FillRow> {
    if |cycles| == 0 then [] else Polled(Stored(cycles[..|cycles| - 1]), cycles[|cycles| - 1])
  }

  /** Every cycle fetched its windows from the broker. */
  ghost predicate Polls(broker: set<Fill>, cycles: seq<Cycle>) {
    forall k :: 0 <= k < |cycles| ==> Fetches(broker, Stored(cycles[..k]), cycles[k])
  }

  /** Each row holds a fill of the broker. */
  ghost predicate FromBroker(broker: set<Fill>, rows: seq<FillRow>) {
    UniqueIds(rows) && forall i :: 0 <= i < |rows| ==> rows[i].fill in broker
  }

  lemma BatchSavable(broker: set<Fill>, rows: seq<FillRow>, cycle: Cycle)
    requires DistinctFills(broker) && Fetches(broker, rows, cycle)
    ensures Savable(rows, cycle.spot + cycle.linear)
    ensures forall fill :: fill in cycle.spot + cycle.linear <==>
              fill in broker && InPage(fill, fill.category, StartMs(rows, cycle.now), FetchedAt(cycle, fill.category))
  {
    var batch := cycle.spot + cycle.linear;
    forall i, j | 0 <= i < j < |batch| ensures batch[i].id != batch[j].id {
      if i < |cycle.spot| <= j {
        assert batch[i] in cycle.spot && batch[j] in cycle.linear;
      }
    }
  }

  /** What one cycle does: it keeps every row and stores exactly the fills shown in its windows. */
  lemma CycleStores(broker: set<Fill>, rows: seq<FillRow>, cycle: Cycle)
    requires DistinctFills(broker) && FromBroker(broker, rows) && Fetches(broker, rows, cycle)
    ensures rows <= Polled(rows, cycle) && FromBroker(broker, Polled(rows, cycle))
    ensures forall fill :: fill in broker ==> (Known(Polled(rows, cycle), fill.id) <==>
              Known(rows, fill.id) ||
                InPage(fill, fill.category, StartMs(rows, cycle.now), FetchedAt(cycle, fill.category)))
  {
    var batch := cycle.spot + cycle.linear;
    BatchSavable(broker, rows, cycle);
    SaveOkIff(rows, batch, cycle.links);
    InsertSaves(rows, rows, batch, cycle.links);
    hide StartMs, Fetches, Insert, Known, Savable, InPage;
    forall fill | fill in broker ensures Lists(batch, fill.id) <==> fill in batch {
      if Lists(batch, fill.id) {
        var i :| 0 <= i < |batch| && batch[i].id == fill.id;
        assert batch[i] in batch;
      }
    }
  }

  // ----- whole runs

  lemma Unroll(cycles: seq<Cycle>, k: nat)
    requires k < |cycles|
    ensures Stored(cycles[..k + 1]) == Polled(Stored(cycles[..k]), cycles[k])
  {
    assert cycles[..k + 1][..k] == cycles[..k];
  }

  lemma {:induction false} RunsFromBroker(broker: set<Fill>, cycles: seq<Cycle>, k: nat)
    requires DistinctFills(broker) && Polls(broker, cycles) && k <= |cycles|
    ensures FromBroker(broker, Stored(cycles[..k]))
  {
    if k == 0 {
    } else {
      RunsFromBroker(broker, cycles, k - 1);
      Unroll(cycles, k - 1);
      CycleStores(broker, Stored(cycles[..k - 1]), cycles[k - 1]);
    }
  }

  /** Rows are never lost, changed or reordered. */
  lemma {:induction false} RowsKept(broker: set<Fill>, cycles: seq<Cycle>, k: nat, m: nat)
    requires DistinctFills(broker) && Polls(broker, cycles) && k <= m <= |cycles|
    ensures Stored(cycles[..k]) <= Stored(cycles[..m])
    decreases m
  {
    hide Stored, Known, Fetches, FromBroker;
    if k == m {
    } else {
      RowsKept(broker, cycles, k, m - 1);
      RunsFromBroker(broker, cycles, m - 1);
      Unroll(cycles, m - 1);
      CycleStores(broker, Stored(cycles[..m - 1]), cycles[m - 1]);
    }
  }

  /** Cycles run one after the other, and fetch both categories within the skew. */
  ghost predicate Sequential(cycles: seq<Cycle>, skew: Time) {
    && (forall k :: 0 <= k < |cycles| ==>
          cycles[k].now <= cycles[k].spotAt <= cycles[k].linearAt <= cycles[k].spotAt + skew)
    && (forall k :: 0 < k < |cycles| ==> cycles[k - 1].linearAt <= cycles[k].now)
  }

  /** Cycles are at most a day less a minute apart while nothing is stored, and a week less a minute after that. */
  ghost predicate Frequent(cycles: seq<Cycle>) {
    forall k :: 0 < k < |cycles| ==>
      cycles[k].now - cycles[k - 1].now <= (if |Stored(cycles[..k])| == 0 then DAY else 7 * DAY) - MINUTE
  }

  /** The broker shows every fill within a minute of its execution, less the skew. */
  ghost predicate Timely(broker: set<Fill>, skew: Time) {
    0 <= skew && forall f :: f in broker ==> f.executedAt <= f.visibleAt <= f.executedAt + MINUTE - skew
  }

  /** The first cycle that could see the fill. */
  predicate FirstShown(cycles: seq<Cycle>, fill: Fill, k: nat) {
    && k < |cycles|
    && fill.visibleAt <= FetchedAt(cycles[k], fill.category)
    && forall j :: 0 <= j < k ==> FetchedAt(cycles[j], fill.category) < fill.visibleAt
  }

  lemma {:induction false} HiddenUnknown(broker: set<Fill>, cycles: seq<Cycle>, fill: Fill, k: nat)
    requires DistinctFills(broker) && Polls(broker, cycles) && k <= |cycles| && fill in broker
    requires forall j :: 0 <= j < k ==> FetchedAt(cycles[j], fill.category) < fill.visibleAt
    ensures !Known(Stored(cycles[..k]), fill.id)
  {
    if k == 0 {
    } else {
      HiddenUnknown(broker, cycles, fill, k - 1);
      RunsFromBroker(broker, cycles, k - 1);
      Unroll(cycles, k - 1);
      CycleStores(broker, Stored(cycles[..k - 1]), cycles[k - 1]);
    }
  }

  /** Everything stored by cycle k was executed before its last fetch. */
  lemma {:induction false} StoredIsPast(broker: set<Fill>, cycles: seq<Cycle>, skew: Time, k: nat, i: nat)
    requires DistinctFills(broker) && Polls(broker, cycles) && Sequential(cycles, skew) && Timely(broker, skew)
    requires 0 < k <= |cycles| && i < |Stored(cycles[..k])|
    ensures Stored(cycles[..k])[i].fill.executedAt <= cycles[k - 1].linearAt
  {
    RunsFromBroker(broker, cycles, k);
    var rows, row := Stored(cycles[..k - 1]), Stored(cycles[..k])[i];
    RunsFromBroker(broker, cycles, k - 1);
    Unroll(cycles, k - 1);
    CycleStores(broker, rows, cycles[k - 1]);
    if i < |rows| {
      assert k > 1;
      StoredIsPast(broker, cycles, skew, k - 1, i);
      assert row == rows[i];
    } else {
      assert !Known(rows, row.fill.id) by {
        forall j | 0 <= j < |rows| ensures rows[j].fill.id != row.fill.id {
          assert rows[j] == Stored(cycles[..k])[j];
        }
      }
      assert Known(Stored(cycles[..k]), row.fill.id);
    }
  }

  /** The window of the first cycle that could see a fill reaches back to it. */
  lemma WindowReaches(broker: set<Fill>, cycles: seq<Cycle>, skew: Time, fill: Fill, k: nat)
    requires DistinctFills(broker) && Polls(broker, cycles) && Sequential(cycles, skew) && Timely(broker, skew) &&
             Frequent(cycles)
    requires fill in broker && FirstShown(cycles, fill, k)
    requires cycles[0].now - DAY <= fill.executedAt
    ensures WindowStart(Stored(cycles[..k]), cycles[k].now) <= fill.executedAt
  {
    var rows := Stored(cycles[..k]);
    LatestIsMaximum(rows);
    if k > 0 {
      assert FetchedAt(cycles[k - 1], fill.category) < fill.visibleAt;
      if Latest(rows).Some? {
        var i :| 0 <= i < |rows| && rows[i].fill.executedAt == Latest(rows).value;
        StoredIsPast(broker, cycles, skew, k, i);
      }
    } else {
      assert cycles[..0] == [];
    }
  }

  /** One row, and only one, holds the fill. */
  ghost predicate StoredOnce(rows: seq<FillRow>, fill: Fill) {
    exists i :: 0 <= i < |rows| && rows[i].fill == fill && forall j ::
      0 <= j < |rows| && rows[j].fill.id == fill.id ==> j == i
  }

  lemma KnownIsStored(broker: set<Fill>, rows: seq<FillRow>, fill: Fill)
    requires DistinctFills(broker) && FromBroker(broker, rows) && fill in broker && Known(rows, fill.id)
    ensures StoredOnce(rows, fill)
  {
  }

  /**
   Complete and exactly once: if the broker shows fills in time and cycles are frequent, every fill executed
   no earlier than a day before the first cycle is stored by the first cycle that could see it, not before,
   and exactly once ever after.
   */
  lemma EveryFillStoredOnce(broker: set<Fill>, cycles: seq<Cycle>, skew: Time, fill: Fill, k: nat, m: nat)
    requires DistinctFills(broker) && Polls(broker, cycles) && Sequential(cycles, skew) && Timely(broker, skew) &&
             Frequent(cycles)
    requires fill in broker && FirstShown(cycles, fill, k) && k < m <= |cycles|
    requires cycles[0].now - DAY <= fill.executedAt
    ensures !Known(Stored(cycles[..k]), fill.id)
    ensures StoredOnce(Stored(cycles[..m]), fill)
  {
    HiddenUnknown(broker, cycles, fill, k);
    WindowReaches(broker, cycles, skew, fill, k);
    RunsFromBroker(broker, cycles, k);
    Unroll(cycles, k);
    CycleStores(broker, Stored(cycles[..k]), cycles[k]);
    RowsKept(broker, cycles, k + 1, m);
    KnownGrows(Stored(cycles[..k + 1]), Stored(cycles[..m]));
    RunsFromBroker(broker, cycles, m);
    hide Stored, Known, Fetches;
    KnownIsStored(broker, Stored(cycles[..m]), fill);
  }

  /**
   Without those assumptions: the first cycle that could see a fill stores it if and only if its window
   reaches back to it.
   */
  lemma FirstCycleStoresIff(broker: set<Fill>, cycles: seq<Cycle>, fill: Fill, k: nat)
    requires DistinctFills(broker) && Polls(broker, cycles) && fill in broker && FirstShown(cycles, fill, k)
    ensures Known(Stored(cycles[..k + 1]), fill.id) <==>
            StartMs(Stored(cycles[..k]), cycles[k].now) <= fill.executedAt / 1000
  {
    HiddenUnknown(broker, cycles, fill, k);
    RunsFromBroker(broker, cycles, k);
    Unroll(cycles, k);
    CycleStores(broker, Stored(cycles[..k]), cycles[k]);
    hide Stored, Known, Fetches, StartMs;
  }

  /** Something stored is newer than the fill by more than the overlap of the windows. */
  predicate TooOld(rows: seq<FillRow>, fill: Fill) {
    Latest(rows).Some? && fill.executedAt / 1000 < (Latest(rows).value - MINUTE) / 1000
  }

  /** A fill that is unknown once something more than a minute newer is stored is lost for good. */
  lemma {:induction false} MissedForever(broker: set<Fill>, cycles: seq<Cycle>, fill: Fill, k: nat, m: nat)
    requires DistinctFills(broker) && Polls(broker, cycles) && fill in broker && k <= m <= |cycles|
    requires !Known(Stored(cycles[..k]), fill.id)
    requires TooOld(Stored(cycles[..k]), fill)
    ensures !Known(Stored(cycles[..m]), fill.id)
    decreases m
  {
    hide Stored, Known, Fetches, TooOld, FromBroker, DistinctFills;
    if k == m {
    } else {
      MissedForever(broker, cycles, fill, k, m - 1);
      RunsFromBroker(broker, cycles, m - 1);
      Unroll(cycles, m - 1);
      RowsKept(broker, cycles, k, m - 1);
      StaysTooOld(Stored(cycles[..k]), Stored(cycles[..m - 1]), fill);
      StillMissed(broker, Stored(cycles[..m - 1]), cycles[m - 1], fill);
    }
  }

  lemma StillMissed(broker: set<Fill>, rows: seq<FillRow>, cycle: Cycle, fill: Fill)
    requires DistinctFills(broker) && FromBroker(broker, rows) && Fetches(broker, rows, cycle)
    requires fill in broker && !Known(rows, fill.id)
    requires TooOld(rows, fill)
    ensures !Known(Polled(rows, cycle), fill.id)
  {
    CycleStores(broker, rows, cycle);
    hide Known, Fetches, Latest, Polled;
  }

  lemma StaysTooOld(rows: seq<FillRow>, after: seq<FillRow>, fill: Fill)
    requires rows <= after && TooOld(rows, fill)
    ensures TooOld(after, fill)
  {
    LatestIsMaximum(rows);
    LatestIsMaximum(after);
    var i :| 0 <= i < |rows| && rows[i].fill.executedAt == Latest(rows).value;
    assert after[i] == rows[i];
  }

  /** The cycle fetches when the broker shows the fill, and its window reaches back to it. */
  ghost predicate Catches(cycles: seq<Cycle>, fill: Fill, j: int) {
    && 0 <= j < |cycles|
    && InPage(fill, fill.category, StartMs(Stored(cycles[..j]), cycles[j].now), FetchedAt(cycles[j], fill.category))
  }

  /**
   With no assumption on when fills are shown or cycles run: a fill is stored if and only if some cycle
   catches it.
   */
  lemma {:induction false} StoredIff(broker: set<Fill>, cycles: seq<Cycle>, fill: Fill, m: nat)
    requires DistinctFills(broker) && Polls(broker, cycles) && fill in broker && m <= |cycles|
    ensures Known(Stored(cycles[..m]), fill.id) <==> exists j :: j < m && Catches(cycles, fill, j)
  {
    hide Known, Fetches, FromBroker, StartMs, InPage;
    if m == 0 {
      NoneStored(fill.id);
      assert cycles[..0] == [];
    } else {
      StoredIff(broker, cycles, fill, m - 1);
      RunsFromBroker(broker, cycles, m - 1);
      Unroll(cycles, m - 1);
      CycleStores(broker, Stored(cycles[..m - 1]), cycles[m - 1]);
      hide Stored;
      if exists j :: j < m && Catches(cycles, fill, j) {
        var j :| j < m && Catches(cycles, fill, j);
        assert j == m - 1 || j < m - 1;
      }
      assert Catches(cycles, fill, m - 1) <==>
             InPage(fill, fill.category, StartMs(Stored(cycles[..m - 1]), cycles[m - 1].now),
                    FetchedAt(cycles[m - 1], fill.category));
    }
  }

  lemma NoneStored(id: string)
    ensures !Known(Stored([]), id)
  {
  }

  /** A batch that lists one new execution twice raises. */
  lemma TwiceListedRaises(fill: Fill, links: map<string, Id>)
    ensures Save([], [fill, fill], links).Err?
  {
    SaveOkIff([], [fill, fill], links);
    assert [fill, fill][0].id == [fill, fill][1].id;
  }

  // ----- a fill that is lost

  /** A fill the broker shows three minutes late, and one it shows at once. */
  const LATE_FILL := Fill("late", Spot, "", "BTCUSDT", Buy, 1.0, 1.0, 0.0, 0, 3 * MINUTE)
  const PROMPT_FILL := Fill("prompt", Spot, "", "BTCUSDT", Buy, 1.0, 1.0, 0.0, 2 * MINUTE, 2 * MINUTE)

  /** Two cycles: the second fetches when the broker shows both fills. */
  const FIRST_CYCLE := Cycle(2 * MINUTE, 2 * MINUTE, 2 * MINUTE, [PROMPT_FILL], [], map[])
  const SECOND_CYCLE := Cycle(4 * MINUTE, 4 * MINUTE, 4 * MINUTE, [PROMPT_FILL], [], map[])

  lemma SaveOne(fill: Fill, links: map<string, Id>)
    ensures Save([], [fill], links) == Ok([RowFor(fill, links)])
  {
    var none: seq<FillRow> := [];
    var batch := [fill];
    assert !Known(none, batch[0].id);
    assert none + [RowFor(fill, links)] == [RowFor(fill, links)];
    assert Insert(none, none + [RowFor(fill, links)], batch[1..], links) == Ok(none + [RowFor(fill, links)]);
  }

  /** The first cycle stores the prompt fill, which puts the late one behind every later window. */
  lemma FirstCycleStored()
    ensures Stored([FIRST_CYCLE]) == [FillRow(PROMPT_FILL, None)] && Fetches({LATE_FILL, PROMPT_FILL}, [], FIRST_CYCLE)
  {
    assert [FIRST_CYCLE][..0] == [];
    assert [PROMPT_FILL] + [] == [PROMPT_FILL];
    SaveOne(PROMPT_FILL, map[]);
  }

  /**
   Such a run exists, it is sequential and frequent, and its second cycle is the first that could see the
   late fill.
   */
  lemma LateFillShown()
    ensures var cycles := [FIRST_CYCLE, SECOND_CYCLE];
            && Polls({LATE_FILL, PROMPT_FILL}, cycles) && Sequential(cycles, 0) && Frequent(cycles)
            && FirstShown(cycles, LATE_FILL, 1)
  {
    var cycles := [FIRST_CYCLE, SECOND_CYCLE];
    assert cycles[..0] == [] && cycles[..1] == [FIRST_CYCLE];
    FirstCycleStored();
    assert Stored(cycles[..1])[..0] == [];
    assert Latest(Stored(cycles[..1])) == Some(2 * MINUTE);
    hide Stored, Known;
  }

  /** However polling goes on, the late fill is never stored. */
  lemma LateFillLost(cycles: seq<Cycle>, m: nat)
    requires |cycles| > 0 && cycles[0] == FIRST_CYCLE && Polls({LATE_FILL, PROMPT_FILL}, cycles) && m <= |cycles|
    ensures !Known(Stored(cycles[..m]), LATE_FILL.id)
  {
    FirstCycleStored();
    if m > 0 {
      assert cycles[..1] == [FIRST_CYCLE];
      assert [FillRow(PROMPT_FILL, None)][..0] == [];
      MissedForever({LATE_FILL, PROMPT_FILL}, cycles, LATE_FILL, 1, m);
    } else {
      assert cycles[..0] == [];
    }
  }
}
