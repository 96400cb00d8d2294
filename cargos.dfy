/** Cargo: the shipment record, its status vocabulary, the CBM rule applied on every save,
    the audit history row, and the public tracking view derived from them. */
module Cargos {
  import opened Common

  /** Status values the cargo model declares. The status field itself is free text:
      a status update stores whatever string it is given. */
  const Pending: string := "pending"
  const InTransit: string := "in_transit"
  const Arrived: string := "arrived"
  const Delivered: string := "delivered"

  /** A newly registered cargo is pending unless a status is supplied. */
  const DefaultStatus: string := Pending

  predicate IsDeclaredStatus(s: string) {
    s == Pending || s == InTransit || s == Arrived || s == Delivered
  }

  /** A cargo row. Money in cents, weight in hundredths of a kilogram, dimensions and cbm as
      exact reals; None is an empty (null) column. */
  datatype Cargo = Cargo(
    customer: nat,
    warehouse: nat,
    trackingNumber: string,
    name: string,
    origin: string,
    destination: string,
    weight: int,
    value: int,
    cbm: Option<real>,
    width: Option<real>,
    height: Option<real>,
    length: Option<real>,
    status: string,
    createdBy: Option<nat>)

  /** Python truthiness of a nullable decimal column: None and 0 are false. */
  predicate Set(x: Option<real>) {
    x.Some? && x.value != 0.0
  }

  /** length * width * height / 1000, the cbm formula of the save rule. */
  function Volume(length: real, width: real, height: real): (v: real) {
    length * width * height / 1000.0
  }

  /** Cargo.save: cbm is derived from the three dimensions when all three are set and cbm is not;
      every other column is stored as it is. */
  function Saved(c: Cargo): (r: Cargo)
    ensures r == c.(cbm := r.cbm)
    ensures Set(c.cbm) ==> r == c
    ensures !(Set(c.length) && Set(c.width) && Set(c.height)) ==> r == c
    ensures Set(c.length) && Set(c.width) && Set(c.height) && !Set(c.cbm) ==>
              r.cbm == Some(Volume(c.length.value, c.width.value, c.height.value))
  {
    if Set(c.length) && Set(c.width) && Set(c.height) && !Set(c.cbm) then
      c.(cbm := Some(Volume(c.length.value, c.width.value, c.height.value)))
    else
      c
  }

  /** A product of non-zero reals is non-zero, so a derived cbm is itself set. */
  lemma VolumeIsSet(l: real, w: real, h: real)
    requires l != 0.0 && w != 0.0 && h != 0.0
    ensures Volume(l, w, h) != 0.0
  {
    assert l * w != 0.0;
    assert (l * w) * h != 0.0;
  }

  /** Saving twice is saving once: the second save never recomputes cbm. */
  lemma SavedIdempotent(c: Cargo)
    ensures Saved(Saved(c)) == Saved(c)
  {
    if Set(c.length) && Set(c.width) && Set(c.height) && !Set(c.cbm) {
      VolumeIsSet(c.length.value, c.width.value, c.height.value);
    }
  }

  /** An audit row: previous status (None for the registration row), new status, who, why, when. */
  datatype CargoHistory = CargoHistory(
    cargo: nat,
    previousStatus: Option<string>,
    newStatus: string,
    updatedBy: Option<nat>,
    remarks: Option<string>,
    updatedAt: int)

  /** One entry of the public timeline. */
  datatype TimelineEntry = TimelineEntry(status: string, timestamp: int, remarks: Option<string>)

  function Entry(h: CargoHistory): (e: TimelineEntry) {
    TimelineEntry(h.newStatus, h.updatedAt, h.remarks)
  }

  /** CargoHistory.objects.filter(cargo=id): the rows of cargo `id`, each as often as it
      occurs in the table, and no other rows. */
  function RowsFor(history: seq<CargoHistory>, id: nat): (rows: seq<CargoHistory>)
    ensures forall i :: 0 <= i < |rows| ==> rows[i].cargo == id
    ensures forall h :: multiset(rows)[h] == if h.cargo == id then multiset(history)[h] else 0
  {
    if history == [] then []
    else
      var n := |history| - 1;
      assert history == history[..n] + [history[n]];
      RowsFor(history[..n], id) + (if history[n].cargo == id then [history[n]] else [])
  }

  predicate StampsSorted(rows: seq<CargoHistory>) {
    forall i, j :: 0 <= i < j < |rows| ==> rows[i].updatedAt <= rows[j].updatedAt
  }

  /** Places h into time-ordered rows after every row stamped no later than it. */
  function InsertByTime(h: CargoHistory, rows: seq<CargoHistory>): (r: seq<CargoHistory>)
    requires StampsSorted(rows)
    ensures StampsSorted(r)
    ensures multiset(r) == multiset(rows) + multiset{h}
  {
    if rows == [] then [h]
    else
      var n := |rows| - 1;
      if rows[n].updatedAt <= h.updatedAt then rows + [h]
      else
        var front := InsertByTime(h, rows[..n]);
        assert rows == rows[..n] + [rows[n]];
        assert forall k :: 0 <= k < |front| ==> front[k].updatedAt <= rows[n].updatedAt by {
          forall k | 0 <= k < |front|
            ensures front[k].updatedAt <= rows[n].updatedAt
          {
            assert front[k] in multiset(front);
            if front[k] != h {
              assert front[k] in multiset(rows[..n]);
              var i :| 0 <= i < n && rows[..n][i] == front[k];
              assert rows[i] == front[k];
            }
          }
        }
        front + [rows[n]]
  }

  /** .order_by('updated_at'): the rows sorted by their stamps, a permutation of the rows
      that keeps table order among rows stamped alike. */
  function ByTime(rows: seq<CargoHistory>): (r: seq<CargoHistory>)
    ensures StampsSorted(r)
    ensures multiset(r) == multiset(rows)
  {
    if rows == [] then []
    else
      var n := |rows| - 1;
      assert rows == rows[..n] + [rows[n]];
      InsertByTime(rows[n], ByTime(rows[..n]))
  }

  /** The history of cargo `id` as public_tracking queries it: its rows, oldest first. */
  function SortedRowsFor(history: seq<CargoHistory>, id: nat): (rows: seq<CargoHistory>)
    ensures StampsSorted(rows)
    ensures forall h :: multiset(rows)[h] == if h.cargo == id then multiset(history)[h] else 0
  {
    ByTime(RowsFor(history, id))
  }

  predicate TimelineSorted(t: seq<TimelineEntry>) {
    forall i, j :: 0 <= i < j < |t| ==> t[i].timestamp <= t[j].timestamp
  }

  /** Each row as its timeline entry, in the order given. */
  function Entries(rows: seq<CargoHistory>): (t: seq<TimelineEntry>)
    ensures |t| == |rows|
    ensures forall k :: 0 <= k < |rows| ==> t[k] == Entry(rows[k])
  {
    if rows == [] then [] else Entries(rows[..|rows| - 1]) + [Entry(rows[|rows| - 1])]
  }

  /** A sequence that agrees with Entries(rows) everywhere is Entries(rows). */
  lemma EntriesPointwise(rows: seq<CargoHistory>, t: seq<TimelineEntry>)
    requires |t| == |rows| && forall k :: 0 <= k < |rows| ==> t[k] == Entry(rows[k])
    ensures t == Entries(rows)
  {
  }

  /** The timeline of cargo `id`: one entry per history row of that cargo, and no other,
      oldest first. */
  function Timeline(history: seq<CargoHistory>, id: nat): (t: seq<TimelineEntry>)
    ensures TimelineSorted(t)
    ensures forall k :: 0 <= k < |t| ==>
              exists i :: 0 <= i < |history| && history[i].cargo == id && t[k] == Entry(history[i])
    ensures forall i :: 0 <= i < |history| && history[i].cargo == id ==> Entry(history[i]) in t
  {
    var rows := SortedRowsFor(history, id);
    EntriesSorted(rows);
    EntriesFromHistory(history, id, rows);
    HistoryInEntries(history, id, rows);
    Entries(rows)
  }

  /** Timeline, read as the entries of the cargo's rows in time order. */
  lemma TimelineIsEntries(history: seq<CargoHistory>, id: nat)
    ensures Timeline(history, id) == Entries(SortedRowsFor(history, id))
  {
  }

  /** The loop that turns selected rows into timeline entries, one per row. */
  method CollectEntries(rows: seq<CargoHistory>) returns (timeline: seq<TimelineEntry>)
    ensures timeline == Entries(rows)
  {
    timeline := [];
    var i := 0;
    while i < |rows|
      invariant 0 <= i <= |rows|
      invariant |timeline| == i
      invariant forall k :: 0 <= k < i ==> timeline[k] == Entry(rows[k])
    {
      timeline := timeline + [Entry(rows[i])];
      i := i + 1;
    }
    EntriesPointwise(rows, timeline);
  }

  /** The timeline of cargo `id` as public_tracking builds it: its rows, filtered and ordered by
      stamp, then turned into entries one by one. */
  method CollectTimeline(history: seq<CargoHistory>, id: nat) returns (timeline: seq<TimelineEntry>)
    ensures timeline == Timeline(history, id)
  {
    timeline := CollectEntries(SortedRowsFor(history, id));
    TimelineIsEntries(history, id);
  }

  /** Entries of time-ordered rows are in time order. */
  lemma EntriesSorted(rows: seq<CargoHistory>)
    requires StampsSorted(rows)
    ensures TimelineSorted(Entries(rows))
  {
  }

  /** Every entry of a selection of cargo `id`'s rows comes from one of that cargo's rows. */
  lemma EntriesFromHistory(history: seq<CargoHistory>, id: nat, rows: seq<CargoHistory>)
    requires forall h :: multiset(rows)[h] == if h.cargo == id then multiset(history)[h] else 0
    ensures forall k :: 0 <= k < |rows| ==>
              exists i :: 0 <= i < |history| && history[i].cargo == id && Entries(rows)[k] == Entry(history[i])
  {
    forall k | 0 <= k < |rows|
      ensures exists i :: 0 <= i < |history| && history[i].cargo == id && Entries(rows)[k] == Entry(history[i])
    {
      var h := rows[k];
      assert multiset(rows)[h] > 0;
      assert multiset(history)[h] > 0;
      var i :| 0 <= i < |history| && history[i] == h;
    }
  }

  /** Every row of cargo `id` has its entry among the entries of a selection holding all of them. */
  lemma HistoryInEntries(history: seq<CargoHistory>, id: nat, rows: seq<CargoHistory>)
    requires forall h :: multiset(rows)[h] == if h.cargo == id then multiset(history)[h] else 0
    ensures forall i :: 0 <= i < |history| && history[i].cargo == id ==> Entry(history[i]) in Entries(rows)
  {
    forall i | 0 <= i < |history| && history[i].cargo == id
      ensures Entry(history[i]) in Entries(rows)
    {
      var h := history[i];
      assert multiset(history)[h] > 0;
      assert multiset(rows)[h] > 0;
      var k :| 0 <= k < |rows| && rows[k] == h;
      assert Entries(rows)[k] == Entry(h);
    }
  }

  /** The timeline has exactly one entry per history row of its cargo. */
  lemma TimelineLength(history: seq<CargoHistory>, id: nat)
    ensures |Timeline(history, id)| == |RowsFor(history, id)|
  {
    assert |multiset(SortedRowsFor(history, id))| == |multiset(RowsFor(history, id))|;
  }

  /** The public tracking location: the destination once the cargo has arrived, the origin in
      every other status, delivered included. */
  function CurrentLocation(c: Cargo): (loc: string)
    ensures c.status == Arrived ==> loc == c.destination
    ensures c.status != Arrived ==> loc == c.origin
  {
    if c.status == Arrived then c.destination else c.origin
  }
}
