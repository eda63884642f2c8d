/**
 * The store keeps every kind of record three ways: a dictionary from ids to records, the list of
 * ids of each run, and the next free id. A table holds the three together.
 */
module Tables {
  datatype Row<T> = Row(run: nat, data: T)

  datatype Table<T> = Table(rows: map<nat, Row<T>>, byRun: map<nat, seq<nat>>, next: nat)
  {
    /** The id exists and belongs to the run: the store's ownership test. */
    predicate Has(run: nat, id: nat) { id in rows && rows[id].run == run }

    function Ids(run: nat): seq<nat> { if run in byRun then byRun[run] else [] }

    function OpenRun(run: nat): Table<T> { this.(byRun := byRun[run := []]) }

    /** Stores a record under the next id. */
    function Add(run: nat, data: T): Table<T> {
      Table(rows[next := Row(run, data)], byRun[run := Ids(run) + [next]], next + 1)
    }

    /** Replaces the record stored under an id; the owner never changes. */
    function Put(id: nat, data: T): Table<T>
      requires id in rows
    {
      this.(rows := rows[id := Row(rows[id].run, data)])
    }

    /** The run's records in list order. */
    function OfRun(run: nat): seq<T> { Lookup(rows, Ids(run)) }

    /**
     * The three parts agree: ids are below the next one, and the list of each known run is
     * strictly ascending and holds exactly the ids of the records the run owns.
     */
    ghost predicate Indexed(runs: set<nat>) {
      && byRun.Keys == runs
      && (forall id :: id in rows ==> id < next && rows[id].run in runs)
      && (forall r :: r in byRun ==> Ascending(byRun[r]))
      && (forall r, id :: r in byRun ==> (id in byRun[r] <==> Has(r, id)))
    }
  }

  function Lookup<T>(rows: map<nat, Row<T>>, ids: seq<nat>): seq<T> {
    if ids == [] then []
    else (if ids[0] in rows then [rows[ids[0]].data] else []) + Lookup(rows, ids[1..])
  }

  ghost predicate Ascending(ids: seq<nat>) {
    forall i, j :: 0 <= i < j < |ids| ==> ids[i] < ids[j]
  }

  function Empty<T>(): Table<T> { Table(map[], map[], 1) }

  lemma {:induction false} LookupAt<T>(rows: map<nat, Row<T>>, ids: seq<nat>)
    requires forall id :: id in ids ==> id in rows
    ensures |Lookup(rows, ids)| == |ids|
    ensures forall i :: 0 <= i < |ids| ==> Lookup(rows, ids)[i] == rows[ids[i]].data
  {
    if ids != [] {
      assert ids[0] in ids;
      assert forall id :: id in ids[1..] ==> id in ids;
      LookupAt(rows, ids[1..]);
    }
  }

  lemma {:induction false} LookupAppend<T>(rows: map<nat, Row<T>>, ids: seq<nat>, more: seq<nat>)
    ensures Lookup(rows, ids + more) == Lookup(rows, ids) + Lookup(rows, more)
  {
    if ids == [] {
      assert ids + more == more;
    } else {
      assert (ids + more)[1..] == ids[1..] + more;
      LookupAppend(rows, ids[1..], more);
    }
  }

  /** Only the rows whose ids are listed matter. */
  lemma {:induction false} LookupSame<T>(a: map<nat, Row<T>>, b: map<nat, Row<T>>, ids: seq<nat>)
    requires forall id :: id in ids ==> (id in a <==> id in b) && (id in a ==> a[id] == b[id])
    ensures Lookup(a, ids) == Lookup(b, ids)
  {
    if ids != [] {
      assert ids[0] in ids;
      assert forall id :: id in ids[1..] ==> id in ids;
      LookupSame(a, b, ids[1..]);
    }
  }

  /** Every record of the list belongs to a row of the run. */
  lemma OwnedRecords<T>(t: Table<T>, runs: set<nat>, run: nat)
    requires t.Indexed(runs) && run in runs
    ensures |t.OfRun(run)| == |t.byRun[run]|
    ensures forall i :: 0 <= i < |t.byRun[run]| ==>
      t.Has(run, t.byRun[run][i]) && t.OfRun(run)[i] == t.rows[t.byRun[run][i]].data
  {
    LookupAt(t.rows, t.byRun[run]);
    assert forall i :: 0 <= i < |t.byRun[run]| ==> t.byRun[run][i] in t.byRun[run];
  }

  lemma OpenRunIndexed<T>(t: Table<T>, runs: set<nat>, run: nat)
    requires t.Indexed(runs) && run !in runs
    ensures t.OpenRun(run).Indexed(runs + {run})
  {
  }

  lemma NextIsNew<T>(t: Table<T>, runs: set<nat>)
    requires t.Indexed(runs)
    ensures t.next !in t.rows
  {
  }

  lemma AddIndexed<T>(t: Table<T>, runs: set<nat>, run: nat, data: T)
    requires t.Indexed(runs) && run in runs
    ensures t.Add(run, data).Indexed(runs)
  {
    var u := t.Add(run, data);
    var ids := t.byRun[run];
    forall i | 0 <= i < |ids| ensures ids[i] < t.next { assert ids[i] in ids; }
    assert Ascending(u.byRun[run]);
    forall r, id | r in u.byRun ensures id in u.byRun[r] <==> u.Has(r, id) {
      assert id in t.byRun[r] <==> t.Has(r, id);
      assert u.byRun[r] == if r == run then ids + [t.next] else t.byRun[r];
    }
  }

  lemma AddExtends<T>(t: Table<T>, runs: set<nat>, run: nat, data: T)
    requires t.Indexed(runs) && run in runs
    ensures t.Add(run, data).OfRun(run) == t.OfRun(run) + [data]
  {
    var u := t.Add(run, data);
    LookupAppend(u.rows, t.byRun[run], [t.next]);
    LookupSame(t.rows, u.rows, t.byRun[run]);
    assert Lookup(u.rows, [t.next]) == [data] + Lookup(u.rows, []);
  }

  lemma PutIndexed<T>(t: Table<T>, runs: set<nat>, id: nat, data: T)
    requires t.Indexed(runs) && id in t.rows
    ensures t.Put(id, data).Indexed(runs)
  {
  }

  /** Writing one run's record never shows in another run's list. */
  lemma OtherRunsKept<T>(t: Table<T>, runs: set<nat>, run: nat, id: nat, data: T, other: nat)
    requires t.Indexed(runs) && run in runs && other in runs && other != run
    ensures t.Add(run, data).OfRun(other) == t.OfRun(other)
    ensures t.Has(run, id) ==> t.Put(id, data).OfRun(other) == t.OfRun(other)
  {
    LookupSame(t.rows, t.Add(run, data).rows, t.byRun[other]);
    if t.Has(run, id) {
      LookupSame(t.rows, t.Put(id, data).rows, t.byRun[other]);
    }
  }
}
