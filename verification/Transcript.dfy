/** The output store: its byte counter, its chunk log, its aggregates and its truncation mark always agree. */
module Transcript {
  import opened Wrappers
  import opened Tables
  import opened Model
  import opened Store
  import opened Indexing
  import opened History
  import opened Footprints
  import opened Silence
  import opened Delivery
  import opened Runs
  import opened Approval
  import opened Earning
  import opened Validation
  import Utf8

  // ---- what must agree ---------------------------------------------------------------------------

  function TotalSize(cs: seq<Chunk>): nat {
    if cs == [] then 0 else TotalSize(cs[..|cs| - 1]) + Utf8.Size(cs[|cs| - 1].content)
  }

  /** The contents of one stream's chunks, in order. */
  function Joined(cs: seq<Chunk>, stream: Stream): string {
    if cs == [] then ""
    else Joined(cs[..|cs| - 1], stream) + if cs[|cs| - 1].stream == stream then cs[|cs| - 1].content else ""
  }

  predicate Numbered(cs: seq<Chunk>) { forall i :: 0 <= i < |cs| ==> cs[i].sequence == i + 1 }

  /** How often the log says that an execution's output was truncated. */
  function Marks(es: seq<Event>, x: nat): nat {
    if es == [] then 0 else Marks(es[..|es| - 1], x) + if es[|es| - 1].body == OutputTruncated(x) then 1 else 0
  }

  /** One execution's output: the counter, the aggregates, the chunks, what was offered and what the log says. */
  predicate Agreeing(e: Execution, cs: seq<Chunk>, stored: nat, offered: nat, marks: nat) {
    && stored == Utf8.Size(e.stdout) + Utf8.Size(e.stderr) == TotalSize(cs)
    && stored <= e.limit
    && Numbered(cs)
    && Joined(cs, Stdout) == e.stdout && Joined(cs, Stderr) == e.stderr
    && stored <= offered && (e.truncated <==> stored < offered)
    && (e.truncated ==> e.limit - stored <= 3)
    && marks == if e.truncated then 1 else 0
  }

  function ChunksOf(s: State, x: nat): seq<Chunk>
    requires x in s.executions.rows
  {
    ChunksFor(s.chunks.OfRun(s.executions.rows[x].run), x)
  }

  ghost predicate Transcribed(y: System, x: nat)
    requires x in y.store.executions.rows
  {
    Agreeing(y.store.executions.rows[x].data, ChunksOf(y.store, x), Stored(y.store, x), Offered(y, x),
             Marks(y.store.timeline.Of(y.store.executions.rows[x].run), x))
  }

  /** Nothing is recorded about executions that do not exist yet. */
  ghost predicate NothingAhead(s: State) {
    && (forall c :: c in s.chunks.rows ==> s.chunks.rows[c].data.executionId in s.executions.rows)
    && (forall r: nat, x: nat :: x !in s.executions.rows ==> Marks(s.timeline.Of(r), x) == 0)
  }

  ghost predicate AllTranscribed(y: System) {
    (forall x :: x in y.store.executions.rows ==> Transcribed(y, x)) && NothingAhead(y.store)
  }

  // ---- sequences ---------------------------------------------------------------------------------

  lemma {:induction false} ChunksForAppend(a: seq<Chunk>, c: Chunk, x: nat)
    ensures ChunksFor(a + [c], x) == ChunksFor(a, x) + if c.executionId == x then [c] else []
  {
    if a == [] {
      assert [] + [c] == [c];
      assert [c][1..] == [];
    } else {
      var first := if a[0].executionId == x then [a[0]] else [];
      var last := if c.executionId == x then [c] else [];
      assert (a + [c])[1..] == a[1..] + [c];
      ChunksForAppend(a[1..], c, x);
      assert first + (ChunksFor(a[1..], x) + last) == (first + ChunksFor(a[1..], x)) + last;
    }
  }

  lemma {:induction false} NoChunks(a: seq<Chunk>, x: nat)
    requires forall i :: 0 <= i < |a| ==> a[i].executionId != x
    ensures ChunksFor(a, x) == []
  {
    if a != [] { NoChunks(a[1..], x); }
  }

  lemma {:induction false} SilentMarks(a: seq<Event>, b: seq<Event>, x: nat)
    requires a <= b && NoneAbout(OutputDropped, b, |a|)
    ensures Marks(b, x) == Marks(a, x)
    decreases |b|
  {
    if |b| > |a| {
      var c := b[..|b| - 1];
      assert NoneAbout(OutputDropped, c, |a|) && !About(OutputDropped, b[|b| - 1].body);
      SilentMarks(a, c, x);
    } else {
      assert a == b;
    }
  }

  lemma MarksStay(a: Timeline, b: Timeline)
    requires Silent(OutputDropped, a, b)
    ensures forall r: nat, x: nat :: Marks(b.Of(r), x) == Marks(a.Of(r), x)
  {
    hide Marks, NoneAbout;
    forall r: nat, x: nat ensures Marks(b.Of(r), x) == Marks(a.Of(r), x) { SilentMarks(a.Of(r), b.Of(r), x); }
  }

  // ---- actions that store no output --------------------------------------------------------------

  /** Existing executions keep their output and its mark; chunks and counters are as before. */
  ghost predicate OutputKept(s: State, t: State) {
    && s.executions.rows.Keys == t.executions.rows.Keys
    && (forall x :: x in s.executions.rows ==>
          t.executions.rows[x].run == s.executions.rows[x].run
          && t.executions.rows[x].data.stdout == s.executions.rows[x].data.stdout
            && t.executions.rows[x].data.stderr == s.executions.rows[x].data.stderr
          && t.executions.rows[x].data.truncated == s.executions.rows[x].data.truncated
            && t.executions.rows[x].data.limit == s.executions.rows[x].data.limit)
    && t.chunks.rows == s.chunks.rows && (forall r: nat :: t.chunks.Ids(r) == s.chunks.Ids(r))
    && t.storedBytes == s.storedBytes
  }

  lemma TranscribedStays(y: System, z: System)
    requires AllTranscribed(y) && OutputKept(y.store, z.store) && z.offered == y.offered
      && Silent(OutputDropped, y.store.timeline, z.store.timeline)
    ensures AllTranscribed(z)
  {
    hide Marks, ChunksFor, Lookup, Agreeing, Silent;
    MarksStay(y.store.timeline, z.store.timeline);
    forall x | x in z.store.executions.rows ensures Transcribed(z, x) {
      assert Transcribed(y, x);
      SameAgreeing(y.store.executions.rows[x].data, z.store.executions.rows[x].data, ChunksOf(y.store, x),
        Stored(y.store, x), Offered(y, x),
                   Marks(y.store.timeline.Of(y.store.executions.rows[x].run), x));
    }
  }

  lemma SameAgreeing(a: Execution, b: Execution, cs: seq<Chunk>, stored: nat, offered: nat, marks: nat)
    requires Agreeing(a, cs, stored, offered, marks) && b.stdout == a.stdout && b.stderr == a.stderr
      && b.truncated == a.truncated && b.limit == a.limit
    ensures Agreeing(b, cs, stored, offered, marks)
  {
  }

  // ---- storing a piece of output -----------------------------------------------------------------

  lemma StoreIs(s: State, run: nat, x: nat, stream: Stream, kept: string, redacted: bool)
    requires s.executions.Has(run, x)
    ensures var t := StoreChunk(s, run, x, stream, kept, redacted);
            && t.executions.rows == s.executions.rows[x := Row(run, AppendTo(s.executions.rows[x].data, stream, kept))]
            && t.chunks == s.chunks.Add(run, Chunk(x, |ChunksOf(s, x)| + 1, stream, kept, redacted))
            && t.storedBytes == s.storedBytes[x := Stored(s, x) + Utf8.Size(kept)]
            && t == s.(timeline := t.timeline, executions := t.executions, chunks := t.chunks,
              storedBytes := t.storedBytes)
  {
    hide ChunksFor, Table.OfRun, Utf8.Size;
  }

  /** A new chunk joins the log of its own execution and of no other. */
  lemma ChunkAdded(t: Table<Chunk>, runs: set<nat>, run: nat, c: Chunk, r: nat, o: nat)
    requires t.Indexed(runs) && run in runs && r in runs
    ensures ChunksFor(t.Add(run, c).OfRun(r), o) == ChunksFor(t.OfRun(r), o) + if r == run && c.executionId == o
      then [c] else []
  {
    hide Table.Indexed, Table.OfRun, ChunksFor;
    if r == run {
      AddExtends(t, runs, run, c);
      ChunksForAppend(t.OfRun(run), c, o);
    } else {
      OtherRunsKept(t, runs, run, 0, c, r);
    }
  }

  /** The piece as it is stored. */
  lemma ChunkStored(s: State, run: nat, x: nat, stream: Stream, kept: string, redacted: bool)
    requires Indexed(s) && run in s.runs && s.executions.Has(run, x)
    ensures var t := StoreChunk(s, run, x, stream, kept, redacted);
            && t.executions.rows == s.executions.rows[x := Row(run, AppendTo(s.executions.rows[x].data, stream, kept))]
            && ChunksOf(t, x) == ChunksOf(s, x) + [Chunk(x, |ChunksOf(s, x)| + 1, stream, kept, redacted)]
            && (forall o :: o in s.executions.rows && o != x ==> ChunksOf(t, o) == ChunksOf(s, o))
  {
    hide Indexed, Table.Indexed, Table.OfRun, ChunksFor, StoreChunk, Utf8.Size;
    StoreIs(s, run, x, stream, kept, redacted);
    IndexedMeans(s);
    OwnersAreKnown(s);
    var c := Chunk(x, |ChunksOf(s, x)| + 1, stream, kept, redacted);
    ChunkAdded(s.chunks, s.runs.Keys, run, c, run, x);
    forall o | o in s.executions.rows
      && o != x ensures ChunksOf(StoreChunk(s, run, x, stream, kept, redacted), o) == ChunksOf(s, o) {
      ChunkAdded(s.chunks, s.runs.Keys, run, c, s.executions.rows[o].run, o);
    }
  }

  lemma OneMoreChunk(cs: seq<Chunk>, c: Chunk)
    ensures TotalSize(cs + [c]) == TotalSize(cs) + Utf8.Size(c.content)
    ensures forall stream ::
      Joined(cs + [c], stream) == Joined(cs, stream) + if c.stream == stream then c.content else ""
    ensures Numbered(cs) && c.sequence == |cs| + 1 ==> Numbered(cs + [c])
  {
    assert (cs + [c])[..|cs|] == cs;
  }

  /** What one stored piece does to an execution's books. */
  lemma StoredAgrees(e: Execution, cs: seq<Chunk>, stored: nat, offered: nat, marks: nat, c: Chunk, size: nat)
    requires Agreeing(e, cs, stored, offered, marks) && (c.stream == Stdout || c.stream == Stderr)
      && c.sequence == |cs| + 1
    requires size == Utf8.Size(c.content) && stored + size <= e.limit
    ensures Agreeing(AppendTo(e, c.stream, c.content), cs + [c], stored + size, offered + size, marks)
  {
    OneMoreChunk(cs, c);
    Utf8.SizeAppend(e.stdout, c.content);
    Utf8.SizeAppend(e.stderr, c.content);
    hide TotalSize, Utf8.Size, Joined, Numbered;
    assert c.stream != Stdout ==> Joined(cs + [c], Stdout) == Joined(cs, Stdout) + "";
  }

  /** Only one execution's output was touched. */
  ghost predicate OnlyAbout(s: State, t: State, run: nat, x: nat) {
    && t.runs == s.runs
    && t.executions.Has(run, x) && t.executions.rows.Keys == s.executions.rows.Keys
    && (forall o :: o in s.executions.rows && o != x ==>
          t.executions.rows[o] == s.executions.rows[o] && ChunksOf(t, o) == ChunksOf(s, o)
            && Stored(t, o) == Stored(s, o))
    && (forall r: nat, o: nat :: r != run || o != x ==> Marks(t.timeline.Of(r), o) == Marks(s.timeline.Of(r), o))
    && (forall c :: c in t.chunks.rows && c !in s.chunks.rows ==> t.chunks.rows[c].data.executionId == x)
    && (forall c :: c in t.chunks.rows && c in s.chunks.rows ==> t.chunks.rows[c] == s.chunks.rows[c])
  }

  lemma OnlyAboutThen(s: State, t: State, u: State, run: nat, x: nat)
    requires OnlyAbout(s, t, run, x) && OnlyAbout(t, u, run, x) && s.executions.Has(run, x)
    requires forall c :: c in s.chunks.rows ==> c in t.chunks.rows
    ensures OnlyAbout(s, u, run, x)
  {
    hide Marks, ChunksOf, Stored;
  }

  /** The books of the execution x of a run, in a state. */
  ghost predicate AgreesAt(s: State, run: nat, x: nat, offered: nat) {
    s.executions.Has(run, x)
      && Agreeing(s.executions.rows[x].data, ChunksOf(s, x), Stored(s, x), offered, Marks(s.timeline.Of(run), x))
  }

  /** Something was dropped, within three bytes of the cap: the mark is set, and logged once. */
  lemma DroppedAgrees(e: Execution, cs: seq<Chunk>, stored: nat, offered: nat, marks: nat, more: nat)
    requires Agreeing(e, cs, stored, offered, marks) && e.limit - stored <= 3 && more > 0
    ensures Agreeing(e.(truncated := true), cs, stored, offered + more, if e.truncated then marks else marks + 1)
  {
  }

  lemma EmitMarks(s: State, run: nat, body: Body, r: nat, x: nat)
    ensures Marks(Emit(s, run, body).timeline.Of(r), x) ==
            Marks(s.timeline.Of(r), x) + if r == run && body == OutputTruncated(x) then 1 else 0
  {
    var es := s.timeline.Of(run);
    assert (es + [Event(s.timeline.next, body)])[..|es|] == es;
  }

  lemma MarkIs(s: State, run: nat, x: nat)
    requires s.executions.Has(run, x)
    ensures var t := MarkTruncated(s, run, x);
            && t.executions.rows == s.executions.rows[x := Row(run, s.executions.rows[x].data.(truncated := true))]
            && t == s.(timeline := t.timeline, executions := t.executions)
            && (forall r: nat, o: nat :: Marks(t.timeline.Of(r), o) ==
                  Marks(s.timeline.Of(r), o) + if r == run && o == x && !s.executions.rows[x].data.truncated then 1
                    else 0)
  {
    hide Marks;
    var current := s.executions.rows[x].data;
    if !current.truncated {
      var s1 := s.(executions := s.executions.Put(x, current.(truncated := true)));
      forall r: nat, o: nat ensures Marks(Emit(s1, run, OutputTruncated(x)).timeline.Of(r), o) ==
                                    Marks(s.timeline.Of(r), o) + if r == run && o == x then 1 else 0
      {
        EmitMarks(s1, run, OutputTruncated(x), r, o);
      }
    } else {
      assert s.executions.rows[x := Row(run, current.(truncated := true))] == s.executions.rows;
    }
  }

  lemma MarkAgrees(s: State, run: nat, x: nat, offered: nat, more: nat)
    requires AgreesAt(s, run, x, offered) && s.executions.rows[x].data.limit - Stored(s, x) <= 3 && more > 0
    ensures AgreesAt(MarkTruncated(s, run, x), run, x, offered + more) && OnlyAbout(s, MarkTruncated(s, run, x), run, x)
  {
    hide Marks, ChunksFor, Table.OfRun, Agreeing, MarkTruncated;
    MarkIs(s, run, x);
    DroppedAgrees(s.executions.rows[x].data, ChunksOf(s, x), Stored(s, x), offered, Marks(s.timeline.Of(run), x), more);
    assert ChunksOf(MarkTruncated(s, run, x), x) == ChunksOf(s, x);
  }

  lemma StoreMarks(s: State, run: nat, x: nat, stream: Stream, kept: string, redacted: bool)
    requires x in s.executions.rows
    ensures forall r: nat, o: nat ::
      Marks(StoreChunk(s, run, x, stream, kept, redacted).timeline.Of(r), o) == Marks(s.timeline.Of(r), o)
  {
    hide ChunksFor, Table.OfRun, Utf8.Size;
    var sequence := |ChunksFor(s.chunks.OfRun(run), x)| + 1;
    forall r: nat, o: nat
      ensures Marks(StoreChunk(s, run, x, stream, kept, redacted).timeline.Of(r), o) == Marks(s.timeline.Of(r), o)
    {
    }
  }

  lemma StoreAgrees(s: State, run: nat, x: nat, stream: Stream, kept: string, redacted: bool, offered: nat)
    requires Indexed(s) && run in s.runs && AgreesAt(s, run, x, offered) && (stream == Stdout || stream == Stderr)
    requires Stored(s, x) + Utf8.Size(kept) <= s.executions.rows[x].data.limit
    ensures var t := StoreChunk(s, run, x, stream, kept, redacted);
            AgreesAt(t, run, x, offered + Utf8.Size(kept)) && OnlyAbout(s, t, run, x)
            && Stored(t, x) == Stored(s, x) + Utf8.Size(kept)
              && t.executions.rows[x].data.limit == s.executions.rows[x].data.limit
  {
    hide Indexed, Marks, ChunksOf, Agreeing, StoreChunk, Utf8.Size;
    StoreIs(s, run, x, stream, kept, redacted);
    FreshIds(s);
    ChunkStored(s, run, x, stream, kept, redacted);
    StoreMarks(s, run, x, stream, kept, redacted);
    StoredAgrees(s.executions.rows[x].data, ChunksOf(s, x), Stored(s, x), offered, Marks(s.timeline.Of(run), x),
                 Chunk(x, |ChunksOf(s, x)| + 1, stream, kept, redacted), Utf8.Size(kept));
  }

  /** What appending does, by how much room is left. */
  lemma AppendIs(p: Policy, s: State, run: nat, x: nat, stream: Stream, content: string, redacted: bool)
    requires run in s.runs && s.executions.Has(run, x) && !stream.OtherStream?
    ensures var (clean, changed) := p.redact(content);
            var room := s.executions.rows[x].data.limit - Stored(s, x);
            var kept := Utf8.Fitting(clean, room);
            var t := AppendChunk(p, s, run, x, stream, content, redacted).state;
            if room <= 0 || kept == "" then t == MarkTruncated(s, run, x)
            else
              var s1 := StoreChunk(s, run, x, stream, kept, redacted || changed);
              t == if Utf8.Size(clean) > room then MarkTruncated(s1, run, x) else s1
  {
    hide MarkTruncated, StoreChunk, Utf8.Size;
  }

  lemma BooksRoom(s: State, run: nat, x: nat, offered: nat)
    requires AgreesAt(s, run, x, offered)
    ensures Stored(s, x) <= s.executions.rows[x].data.limit
  {
    hide Marks, ChunksOf, TotalSize, Joined, Utf8.Size;
  }

  /** Storing a non-empty piece keeps the execution's books and touches no other's. */
  lemma AppendAgrees(p: Policy, s: State, run: nat, x: nat, stream: Stream, content: string, redacted: bool,
      offered: nat)
    requires run in s.runs && AgreesAt(s, run, x, offered) && !stream.OtherStream? && p.redact(content).0 != ""
      && Indexed(s)
    ensures var t := AppendChunk(p, s, run, x, stream, content, redacted).state;
            AgreesAt(t, run, x, offered + Utf8.Size(p.redact(content).0)) && OnlyAbout(s, t, run, x)
  {
    hide Indexed, OnlyAbout, AppendChunk, Marks, ChunksOf, Agreeing, StoreChunk, MarkTruncated, Stored, Utf8.Fitting;
    var clean, changed := p.redact(content).0, p.redact(content).1;
    var room := s.executions.rows[x].data.limit - Stored(s, x);
    var kept := Utf8.Fitting(clean, room);
    BooksRoom(s, run, x, offered);
    AppendIs(p, s, run, x, stream, content, redacted);

    if room == 0 {
      MarkAgrees(s, run, x, offered, Utf8.Size(clean));
    } else if Utf8.Size(clean) <= room {
      Utf8.FittingWhole(clean, room);
      StoreAgrees(s, run, x, stream, kept, redacted || changed, offered);
    } else {
      Utf8.FittingWastesLittle(clean, room);
      if kept == "" { MarkAgrees(s, run, x, offered, Utf8.Size(clean)); }
      else { PartlyAgrees(s, run, x, stream, clean, redacted || changed, offered); }
    }
  }

  lemma ChunksKept(s: State, run: nat, x: nat, stream: Stream, kept: string, redacted: bool)
    requires s.executions.Has(run, x)
    ensures forall c :: c in s.chunks.rows ==> c in StoreChunk(s, run, x, stream, kept, redacted).chunks.rows
  {
    hide ChunksFor, Table.OfRun, Utf8.Size;
  }

  /** The last piece that fits in part. */
  lemma PartlyAgrees(s: State, run: nat, x: nat, stream: Stream, clean: string, redacted: bool, offered: nat)
    requires run in s.runs && AgreesAt(s, run, x, offered) && !stream.OtherStream?
      && Stored(s, x) <= s.executions.rows[x].data.limit
    requires Utf8.Size(clean) > s.executions.rows[x].data.limit - Stored(s, x) && Indexed(s)
    ensures var kept := Utf8.Fitting(clean, s.executions.rows[x].data.limit - Stored(s, x));
            var t := MarkTruncated(StoreChunk(s, run, x, stream, kept, redacted), run, x);
            AgreesAt(t, run, x, offered + Utf8.Size(clean)) && OnlyAbout(s, t, run, x)
  {
    hide Indexed, OnlyAbout, Marks, ChunksOf, Agreeing, StoreChunk, MarkTruncated, Stored, Utf8.Size, Utf8.Fitting;
    var room := s.executions.rows[x].data.limit - Stored(s, x);
    var kept := Utf8.Fitting(clean, room);
    var s1 := StoreChunk(s, run, x, stream, kept, redacted);
    Utf8.FittingIsLongest(clean, room);
    Utf8.FittingWastesLittle(clean, room);
    StoreAgrees(s, run, x, stream, kept, redacted, offered);
    MarkAgrees(s1, run, x, offered + Utf8.Size(kept), Utf8.Size(clean) - Utf8.Size(kept));
    ChunksKept(s, run, x, stream, kept, redacted);
    OnlyAboutThen(s, s1, MarkTruncated(s1, run, x), run, x);
  }

  // ---- every action ------------------------------------------------------------------------------

  /** Redacting never empties a piece of output. */
  ghost predicate KeepsText(p: Policy) { forall text: string :: text != "" ==> p.redact(text).0 != "" }

  lemma AboutTranscribed(y: System, z: System, run: nat, x: nat, more: nat)
    requires AllTranscribed(y) && OnlyAbout(y.store, z.store, run, x) && y.store.executions.Has(run, x)
    requires AgreesAt(z.store, run, x, Offered(y, x) + more) && z.offered == y.offered[x := Offered(y, x) + more]
    ensures AllTranscribed(z)
  {
    hide Marks, ChunksOf, Agreeing;
    forall o | o in z.store.executions.rows ensures Transcribed(z, o) {
      if o != x { assert Transcribed(y, o); }
    }
  }

  lemma ReceiveIs(p: Policy, y: System, run: nat, x: nat, stream: Stream, content: string)
    requires content != "" && !stream.OtherStream?
    ensures var z := ReceiveOutput(p, y, run, x, stream, content);
            var (clean, changed) := p.redact(content);
            z.store == AppendChunk(p, y.store, run, x, stream, clean, changed).state
            && z.offered == y.offered[x := Offered(y, x) + Utf8.Size(p.redact(clean).0)]
  {
    hide AppendChunk, Utf8.Size;
  }

  lemma BooksOf(y: System, x: nat)
    requires AllTranscribed(y) && x in y.store.executions.rows
    ensures AgreesAt(y.store, y.store.executions.rows[x].run, x, Offered(y, x))
  {
    hide Marks, ChunksOf, Agreeing, NothingAhead, Stored;
    assert Transcribed(y, x);
  }

  lemma TwiceKept(p: Policy, text: string)
    requires KeepsText(p) && text != ""
    ensures p.redact(p.redact(text).0).0 != ""
  {
  }

  lemma ReceiveTranscribed(p: Policy, y: System, run: nat, x: nat, stream: Stream, content: string)
    requires KeepsText(p) && run in y.store.runs && y.store.executions.Has(run, x) && AllTranscribed(y)
      && Indexed(y.store)
    ensures AllTranscribed(ReceiveOutput(p, y, run, x, stream, content))
  {
    hide Indexed, AllTranscribed, OnlyAbout, AgreesAt, AppendChunk, Utf8.Size, KeepsText;
    if content != "" && !stream.OtherStream? {
      hide ReceiveOutput;
      var (clean, changed) := p.redact(content);
      TwiceKept(p, content);
      BooksOf(y, x);
      ReceiveIs(p, y, run, x, stream, content);
      AppendAgrees(p, y.store, run, x, stream, clean, changed, Offered(y, x));
      AboutTranscribed(y, ReceiveOutput(p, y, run, x, stream, content), run, x, Utf8.Size(p.redact(clean).0));
    }
  }

  lemma FreshAgrees(e: Execution)
    requires e.stdout == "" && e.stderr == "" && !e.truncated
    ensures Agreeing(e, [], 0, 0, 0)
  {
  }

  lemma NoChunksYet(s: State, r: nat, x: nat)
    requires s.chunks.Indexed(s.runs.Keys) && r in s.runs
      && forall c :: c in s.chunks.rows ==> s.chunks.rows[c].data.executionId != x
    ensures ChunksFor(s.chunks.OfRun(r), x) == []
  {
    hide ChunksFor;
    OwnedRecords(s.chunks, s.runs.Keys, r);
    NoChunks(s.chunks.OfRun(r), x);
  }

  lemma StartTranscribed(y: System, event: nat, run: nat, step: nat)
    requires Indexed(y.store) && AllTranscribed(y)
    ensures AllTranscribed(StartCommand(y, event, run, step))
  {
    hide Indexed, Table.Indexed, TimelineIndexed, QueueIndexed, StartExecution, Agreeing, Marks, ChunksFor, Table.OfRun,
      Silent;
    var s := y.store;
    var z := StartCommand(y, event, run, step);
    StartedIs(s, run, step);
    StartSilent(OutputDropped, s, run, step);
    MarksStay(s.timeline, z.store.timeline);
    FreshIds(s);
    IndexedMeans(s);
    if StartExecution(s, run, step).result.Success? {
      var x := s.executions.next;
      NoChunksYet(s, run, x);
      FreshAgrees(z.store.executions.rows[x].data);
      assert Transcribed(z, x);
      forall o | o in s.executions.rows ensures Transcribed(z, o) {
        assert z.store.executions.rows[o] == s.executions.rows[o] && Transcribed(y, o);
      }
    }
  }

  lemma CallSilent(p: Policy, s: State, call: Call)
    requires Indexed(s)
    ensures Silent(OutputDropped, s.timeline, Apply(p, s, call).timeline)
  {
    hide Indexed, Silent, AboutSteps, CreateRun, ApproveConnection, CreateManualStep, ApproveStep, EditAndApproveStep,
      RejectStep, RetryRun, AbortRun, RecordBackupNotApplicable, ProposeRestore, CreateActivityDraft, SaveActivityDraft,
      QueueSubmission;
    if call.NewRun? {
      FreshIds(s);
      NewRunSilent(OutputDropped, s, call.ticketId, call.snapshot);
    } else if AboutSteps(call) {
      StepCallSilent(p, s, call);
    } else {
      OtherCallSilent(OutputDropped, p, s, call);
    }
  }

  lemma KeptStill(s: State, t: State)
    requires t.executions.rows == s.executions.rows && t.storedBytes == s.storedBytes && t.chunks.rows == s.chunks.rows
    requires forall r: nat :: t.chunks.Ids(r) == s.chunks.Ids(r)
    ensures OutputKept(s, t)
  {
  }

  lemma NewRunKept(s: State, ticketId: int, snapshot: string)
    requires Indexed(s)
    ensures OutputKept(s, CreateRun(s, ticketId, snapshot).state)
  {
    hide Indexed, OutputKept, Emit;
    FreshIds(s);
    OpenedIs(s, ticketId, snapshot);
    KeptStill(s, CreateRun(s, ticketId, snapshot).state);
  }

  lemma OpenedIs(s: State, ticketId: int, snapshot: string)
    requires s.nextRun !in s.chunks.byRun
    ensures var t := CreateRun(s, ticketId, snapshot).state;
            t.executions.rows == s.executions.rows && t.storedBytes == s.storedBytes && t.chunks.rows == s.chunks.rows
            && forall r: nat :: t.chunks.Ids(r) == s.chunks.Ids(r)
  {
  }

  lemma CallKept(p: Policy, s: State, call: Call)
    requires Indexed(s)
    ensures OutputKept(s, Apply(p, s, call))
  {
    hide Indexed, OutputKept, CreateRun, ApproveConnection, CreateManualStep, ApproveStep, EditAndApproveStep,
      RejectStep, RetryRun, AbortRun, RecordBackupNotApplicable, ProposeRestore, CreateActivityDraft, SaveActivityDraft,
      QueueSubmission;
    match call
    case NewRun(ticketId, snapshot) => NewRunKept(s, ticketId, snapshot);
    case _ => KeptStill(s, Apply(p, s, call));
  }

  lemma CallTranscribed(p: Policy, y: System, call: Call)
    requires AllTranscribed(y) && Indexed(y.store)
    ensures AllTranscribed(y.(store := Apply(p, y.store, call)))
  {
    hide *;
    CallSilent(p, y.store, call);
    CallKept(p, y.store, call);
    TranscribedStays(y, y.(store := Apply(p, y.store, call)));
  }

  lemma FinishKept(p: Policy, s: State, run: nat, x: nat, exitCode: Option<int>, error: Option<string>, timedOut: bool)
    ensures OutputKept(s, CompleteExecution(p, s, run, x, exitCode, error, timedOut).state)
  {
    hide Settle, WithOutcome, OutputKept;
    var t := CompleteExecution(p, s, run, x, exitCode, error, timedOut).state;
    if run in s.runs && s.executions.Has(run, x) {
      OutcomeKept(s, t, x, exitCode, error, timedOut);
    } else {
      KeptStill(s, t);
    }
  }

  lemma OutcomeKept(s: State, t: State, x: nat, exitCode: Option<int>, error: Option<string>, timedOut: bool)
    requires x in s.executions.rows
      && t.executions == s.executions.Put(x, WithOutcome(s.executions.rows[x].data, exitCode, error, timedOut))
    requires t.chunks == s.chunks && t.storedBytes == s.storedBytes
    ensures OutputKept(s, t)
  {
    hide FinalStatus;
  }

  lemma OutputWorkTranscribed(p: Policy, y: System, a: Action)
    requires KeepsText(p) && Enabled(y.stage, a) && (a.Start? || a.Receive?) && Live(y) && AllTranscribed(y)
      && Indexed(y.store)
    ensures AllTranscribed(Work(p, y, a))
  {
    hide Indexed, AllTranscribed, KeepsText, StartCommand, ReceiveOutput;
    match a
    case Start => StartTranscribed(y, y.stage.event, y.stage.run, y.stage.step);
    case Receive(stream, content) => ReceiveTranscribed(p, y, y.stage.run, y.stage.execution, stream, content);
  }

  lemma OtherWorkTranscribed(p: Policy, y: System, a: Action)
    requires Enabled(y.stage, a) && !a.Start? && !a.Receive? && AllTranscribed(y)
    ensures AllTranscribed(Work(p, y, a))
  {
    hide AllTranscribed, OutputKept, Silent, ClaimEvent, ReadPlannerContext, CheckNotAborted, StartCommand,
      InvokeRunner, ReceiveOutput, TakeRequest, AskForActivity, AppendEvent, CreateStep, CompleteExecution,
      CreateActivityDraft, MarkActivityCreated, MarkCompleted, FailRequest, FailOutbox, CompleteOutbox;
    var s, at := y.store, y.stage;
    if a.Propose? {
      CreateStepSilent(p, s, at.run, Agent, a.command, a.purpose, a.phase);
      KeptStill(s, Work(p, y, a).store);
    } else {
      OtherWorkSilent(OutputDropped, p, y, a);
      if a.Finish? {
        FinishKept(p, s, at.run, at.execution, a.exitCode, a.error, a.timedOut);
      } else {
        KeptStill(s, Work(p, y, a).store);
      }
    }
    TranscribedStays(y, Work(p, y, a));
  }

  lemma WorkTranscribed(p: Policy, y: System, a: Action)
    requires KeepsText(p) && Enabled(y.stage, a) && Live(y) && AllTranscribed(y) && Indexed(y.store)
    ensures AllTranscribed(Work(p, y, a))
  {
    hide *;
    if a.Start? || a.Receive? { OutputWorkTranscribed(p, y, a); } else { OtherWorkTranscribed(p, y, a); }
  }

  lemma NextTranscribed(p: Policy, y: System, a: Action)
    requires KeepsText(p) && Live(y) && AllTranscribed(y) && Indexed(y.store)
    ensures AllTranscribed(Next(p, y, a))
  {
    hide KeepsText, Indexed, Live, Apply, Work, Enabled;
    match a
    case Api(call) => CallTranscribed(p, y, call);
    case Wait(_) =>
    case Crash =>
    case _ => if Enabled(y.stage, a) { WorkTranscribed(p, y, a); }
  }

  lemma {:induction false} AlwaysLive(p: Policy, limit: nat, clock: int, actions: seq<Action>)
    ensures Live(After(p, Begin(limit, clock), actions))
  {
    hide After, Indexed, Vetted, Readiness.Validated, Ending.Attended;
    AlwaysHealthy(p, limit, clock, actions);
  }

  lemma {:induction false} AlwaysTranscribed(p: Policy, limit: nat, clock: int, actions: seq<Action>)
    requires KeepsText(p)
    ensures AllTranscribed(After(p, Begin(limit, clock), actions))
    decreases |actions|
  {
    hide *;
    AfterUnfolds(p, Begin(limit, clock), actions);
    if actions == [] {
      BeginsTranscribed(limit, clock);
    } else {
      AlwaysTranscribed(p, limit, clock, actions[..|actions| - 1]);
      AlwaysLive(p, limit, clock, actions[..|actions| - 1]);
      AlwaysIndexed(p, limit, clock, actions[..|actions| - 1]);
      NextTranscribed(p, After(p, Begin(limit, clock), actions[..|actions| - 1]), actions[|actions| - 1]);
    }
  }

  lemma BeginsTranscribed(limit: nat, clock: int)
    ensures AllTranscribed(Begin(limit, clock))
  {
  }

  /**
   * In every reachable state, for every execution: the byte counter is the encoded size of the two aggregates and of
   * the stored chunks, within the cap; the chunks are numbered from one without gaps and spell out the aggregates; the
   * output is marked truncated exactly if something was dropped, then fewer than four bytes are left unused, and the
   * log says so exactly once.
   */
  lemma TranscriptsAgree(p: Policy, limit: nat, clock: int, actions: seq<Action>, x: nat)
    requires KeepsText(p) && x in After(p, Begin(limit, clock), actions).store.executions.rows
    ensures var y := After(p, Begin(limit, clock), actions);
            var e := y.store.executions.rows[x].data;
            var cs := ChunksFor(y.store.chunks.OfRun(y.store.executions.rows[x].run), x);
            && Stored(y.store, x) == Utf8.Size(e.stdout) + Utf8.Size(e.stderr) == TotalSize(cs) <= e.limit
            && (forall i :: 0 <= i < |cs| ==> cs[i].sequence == i + 1)
            && Joined(cs, Stdout) == e.stdout && Joined(cs, Stderr) == e.stderr
            && (e.truncated <==> Offered(y, x) > Stored(y.store, x))
            && (e.truncated ==> e.limit - Stored(y.store, x) <= 3)
            && Marks(y.store.timeline.Of(y.store.executions.rows[x].run), x) == if e.truncated then 1 else 0
  {
    hide After, Marks, ChunksFor, Table.OfRun, TotalSize, Joined, KeepsText, NothingAhead, Utf8.Size;
    AlwaysTranscribed(p, limit, clock, actions);
    assert Transcribed(After(p, Begin(limit, clock), actions), x);
  }

  /** An empty piece is marked as truncation although nothing was dropped, unless the mark was there before. */
  lemma EmptyPieceIsMarked(p: Policy, s: State, run: nat, x: nat, stream: Stream, content: string, redacted: bool)
    requires run in s.runs && s.executions.Has(run, x) && !stream.OtherStream? && p.redact(content).0 == ""
    ensures var t := AppendChunk(p, s, run, x, stream, content, redacted).state;
            t == MarkTruncated(s, run, x) && t.executions.rows[x].data.truncated && t.storedBytes == s.storedBytes
  {
  }

  /**
   * A piece adds to the transcript exactly if its first character still fits, whether or not something was dropped
   * before.
   */
  lemma AddsIfFirstFits(p: Policy, s: State, run: nat, x: nat, stream: Stream, content: string, redacted: bool)
    requires run in s.runs && s.executions.Has(run, x) && !stream.OtherStream?
    ensures var clean := p.redact(content).0;
            var reply := AppendChunk(p, s, run, x, stream, content, redacted);
            reply.result.Success?
            && (reply.result.value.Some? <==>
              clean != "" && Stored(s, x) + Utf8.CharSize(clean[0]) <= s.executions.rows[x].data.limit)
  {
    hide StoreChunk, MarkTruncated, Utf8.Size;
  }

  /** Two bytes of room: the euro sign does not fit and marks the output truncated, the letter after it is stored. */
  lemma StoredAfterTruncation(p: Policy, s: State, run: nat, x: nat)
    requires run in s.runs && s.executions.Has(run, x) && s.executions.rows[x].data.limit == 2 && Stored(s, x) == 0
    requires p.redact("\U{20AC}") == ("\U{20AC}", false) && p.redact("a") == ("a", false)
    ensures var first := AppendChunk(p, s, run, x, Stdout, "\U{20AC}", false);
            var second := AppendChunk(p, first.state, run, x, Stdout, "a", false);
            && first.result == Success(None) && first.state.executions.rows[x].data.truncated
            && second.result.Success? && second.result.value.Some?
  {
    hide StoreChunk, Utf8.Size;
    assert Utf8.CharSize('\U{20AC}') == 3 && Utf8.CharSize('a') == 1;
    AddsIfFirstFits(p, s, run, x, Stdout, "\U{20AC}", false);
    var t := AppendChunk(p, s, run, x, Stdout, "\U{20AC}", false).state;
    AddsIfFirstFits(p, t, run, x, Stdout, "a", false);
  }

  lemma SameCap(s: State, t: State, x: nat)
    requires Later(s, t) && x in s.executions.rows
    ensures x in t.executions.rows && t.executions.rows[x].data.limit == s.executions.rows[x].data.limit
  {
    hide Owned, StepsLater, ExpectationsLater, Preserved, RunsKept, EventsKept, QueueKept;
  }

  /** Once something was dropped, at most three more bytes are ever stored for the command. */
  lemma LittleAfterTruncation(p: Policy, limit: nat, clock: int, before: seq<Action>, after: seq<Action>, x: nat)
    requires KeepsText(p)
    requires var s := After(p, Begin(limit, clock), before).store;
             x in s.executions.rows && s.executions.rows[x].data.truncated
    ensures var s := After(p, Begin(limit, clock), before).store;
            var t := After(p, After(p, Begin(limit, clock), before), after).store;
            x in t.executions.rows && Stored(t, x) <= Stored(s, x) + 3
  {
    hide *;
    var y := After(p, Begin(limit, clock), before);
    AlwaysIndexed(p, limit, clock, before);
    HistoryIsKept(p, y, after);
    SameCap(y.store, After(p, y, after).store, x);
    AfterAppend(p, Begin(limit, clock), before, after);
    TranscriptsAgree(p, limit, clock, before, x);
    TranscriptsAgree(p, limit, clock, before + after, x);
  }
}
