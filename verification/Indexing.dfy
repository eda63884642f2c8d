/** The store's lists and counters always agree with its dictionaries, and runs never touch each other. */
module Indexing {
  import opened Tables
  import opened Model
  import opened Store

  /** Event ids strictly increase along one run's timeline and stay below the next id. */
  ghost predicate Ordered(es: seq<Event>, next: nat) {
    && (forall i :: 0 <= i < |es| ==> es[i].id < next)
    && (forall i, j :: 0 <= i < j < |es| ==> es[i].id < es[j].id)
  }

  ghost predicate TimelineIndexed(t: Timeline, runs: set<nat>) {
    && t.events.Keys == runs
    && (forall r :: r in t.events ==> Ordered(t.events[r], t.next))
  }

  ghost predicate QueueIndexed(q: Queue, runs: set<nat>) {
    forall id :: id in q.events ==> id < q.next && q.events[id].run in runs
  }

  ghost predicate RunsBelow(s: State) { forall r :: r in s.runs ==> r < s.nextRun }

  /** Every list is exactly the ascending ids of its run's records, below the next id. */
  ghost predicate Indexed(s: State) {
    && RunsBelow(s)
    && TimelineIndexed(s.timeline, s.runs.Keys)
    && QueueIndexed(s.queue, s.runs.Keys)
    && s.storedBytes.Keys == s.executions.rows.Keys
    && s.steps.Indexed(s.runs.Keys)
    && s.executions.Indexed(s.runs.Keys)
    && s.chunks.Indexed(s.runs.Keys)
    && s.sources.Indexed(s.runs.Keys)
    && s.results.Indexed(s.runs.Keys)
    && s.expectations.Indexed(s.runs.Keys)
    && s.backups.Indexed(s.runs.Keys)
    && s.requests.Indexed(s.runs.Keys)
  }

  lemma InitialIndexed(limit: nat, clock: int)
    ensures Indexed(Initial(limit, clock))
  {
  }

  /** The parts of an ordered store. */
  lemma IndexedMeans(s: State)
    requires Indexed(s)
    ensures TimelineIndexed(s.timeline, s.runs.Keys) && QueueIndexed(s.queue, s.runs.Keys)
    ensures s.executions.Indexed(s.runs.Keys) && s.chunks.Indexed(s.runs.Keys) && s.results.Indexed(s.runs.Keys)
    ensures s.expectations.Indexed(s.runs.Keys)
  {
    hide Table.Indexed, TimelineIndexed, QueueIndexed;
  }

  /** No record has the id that is given out next. */
  lemma FreshIds(s: State)
    requires Indexed(s)
    ensures s.steps.next !in s.steps.rows && s.executions.next !in s.executions.rows
    ensures s.chunks.next !in s.chunks.rows && s.results.next !in s.results.rows
    ensures s.requests.next !in s.requests.rows && s.queue.next !in s.queue.events
    ensures s.nextRun !in s.runs && s.nextRun !in s.timeline.events && s.nextRun !in s.chunks.byRun
  {
    var runs := s.runs.Keys;
    assert s.nextRun !in s.runs && s.chunks.byRun.Keys == runs;
    hide Table.Indexed;
    NextIsNew(s.steps, runs);
    NextIsNew(s.executions, runs);
    NextIsNew(s.chunks, runs);
    NextIsNew(s.results, runs);
    NextIsNew(s.requests, runs);
  }

  /** Records belong to runs and lie below the next id. */
  lemma OwnersAreKnown(s: State)
    requires Indexed(s)
    ensures forall id :: id in s.steps.rows ==> id < s.steps.next && s.steps.rows[id].run in s.runs
    ensures forall x :: x in s.executions.rows ==> s.executions.rows[x].run in s.runs
    ensures forall q :: q in s.requests.rows ==> s.requests.rows[q].run in s.runs
  {
    hide TimelineIndexed, QueueIndexed;
  }

  lemma EmitIndexed(s: State, run: nat, body: Body)
    requires Indexed(s) && run in s.runs
    ensures Indexed(Emit(s, run, body))
  {
    hide Table.Indexed;
  }

  lemma PutRunIndexed(s: State, id: nat, run: Run)
    requires Indexed(s) && id in s.runs
    ensures Indexed(PutRun(s, id, run)) && PutRun(s, id, run).runs.Keys == s.runs.Keys
  {
    hide Table.Indexed;
    assert PutRun(s, id, run).runs.Keys == s.runs.Keys;
  }

  // ---- each operation ----------------------------------------------------------------------------

  lemma CommandListsOpen(s: State, runs: set<nat>, id: nat)
    requires s.steps.Indexed(runs) && s.executions.Indexed(runs) && s.chunks.Indexed(runs) && s.sources.Indexed(runs)
    requires id !in runs
    ensures var t := OpenCommandLists(s, id);
            && t.steps.Indexed(runs + {id}) && t.executions.Indexed(runs + {id})
            && t.chunks.Indexed(runs + {id}) && t.sources.Indexed(runs + {id})
            && t == s.(steps := t.steps, executions := t.executions, chunks := t.chunks, sources := t.sources)
            && t.executions.rows == s.executions.rows
  {
    hide Table.Indexed;
    OpenRunIndexed(s.steps, runs, id);
    OpenRunIndexed(s.executions, runs, id);
    OpenRunIndexed(s.chunks, runs, id);
    OpenRunIndexed(s.sources, runs, id);
  }

  lemma OutcomeListsOpen(s: State, runs: set<nat>, id: nat)
    requires s.results.Indexed(runs) && s.expectations.Indexed(runs) && s.backups.Indexed(runs)
      && s.requests.Indexed(runs)
    requires id !in runs
    ensures var t := OpenOutcomeLists(s, id);
            && t.results.Indexed(runs + {id}) && t.expectations.Indexed(runs + {id})
            && t.backups.Indexed(runs + {id}) && t.requests.Indexed(runs + {id})
            && t == s.(results := t.results, expectations := t.expectations, backups := t.backups,
              requests := t.requests)
  {
    hide Table.Indexed;
    OpenRunIndexed(s.results, runs, id);
    OpenRunIndexed(s.expectations, runs, id);
    OpenRunIndexed(s.backups, runs, id);
    OpenRunIndexed(s.requests, runs, id);
  }

  lemma OpenRunKeepsIndexed(s: State, ticketId: int, snapshot: string)
    requires Indexed(s)
    ensures Indexed(OpenRun(s, ticketId, snapshot))
    ensures OpenRun(s, ticketId, snapshot).runs.Keys == s.runs.Keys + {s.nextRun}
  {
    hide Table.Indexed, QueueIndexed, OpenCommandLists, OpenOutcomeLists;
    var id, runs, s1 := s.nextRun, s.runs.Keys, OpenTimeline(s, ticketId, snapshot);
    assert s1.runs.Keys == runs + {id};
    QueueOpens(s.queue, runs, id);
    CommandListsOpen(s1, runs, id);
    OutcomeListsOpen(OpenCommandLists(s1, id), runs, id);
  }

  lemma QueueOpens(q: Queue, runs: set<nat>, run: nat)
    requires QueueIndexed(q, runs)
    ensures QueueIndexed(q, runs + {run})
  {
  }
}
