/**
 * The depth journal of one instrument (orderflow_engine/recorder/depth_writer.py): every flush is a
 * part of its own; a part that cannot be written is dropped and counted, and the writer goes on.
 */
module DepthJournal {
  import opened Seqs
  import opened PartFiles

  /** What the file system does to one flush. */
  datatype Io = Io(mkdirOk: bool, write: Write) {
    /** What becomes of the part this flush writes. */
    function Fate(): Write {
      if mkdirOk then write else Lost
    }
  }

  datatype State<T> = State(buffer: seq<T>, parts: seq<Part<T>>, partIdx: nat, rowsWritten: nat, dropped: nat, partsSealed: nat)

  function Start<T>(): State<T> {
    State([], [], 0, 0, 0, 0)
  }

  /** A part that is in place but whose write raised is counted as dropped. */
  function Flushed<T>(s: State<T>, io: Io): State<T> {
    if s.buffer == [] then s
    else
      var done := io.Fate() == Done;
      State([],
            if io.Fate().Landed() then s.parts + [Part(s.partIdx + 1, s.buffer)] else s.parts,
            if io.mkdirOk then s.partIdx + 1 else s.partIdx,
            if done then s.rowsWritten + |s.buffer| else s.rowsWritten,
            if done then s.dropped else s.dropped + |s.buffer|,
            if done then s.partsSealed + 1 else s.partsSealed)
  }

  datatype Op<T> = AddRow(row: T, io: Io) | FlushNow(io: Io)

  function Step<T>(maxBuffer: int, s: State<T>, op: Op<T>): State<T> {
    match op
    case FlushNow(io) => Flushed(s, io)
    case AddRow(row, io) =>
      var t := s.(buffer := s.buffer + [row]);
      if |t.buffer| >= maxBuffer then Flushed(t, io) else t
  }

  function Run<T>(maxBuffer: int, ops: seq<Op<T>>): State<T> {
    if ops == [] then Start() else Step(maxBuffer, Run(maxBuffer, ops[..|ops| - 1]), ops[|ops| - 1])
  }

  function RowsAdded<T>(ops: seq<Op<T>>): seq<T> {
    if ops == [] then []
    else RowsAdded(ops[..|ops| - 1]) + if ops[|ops| - 1].AddRow? then [ops[|ops| - 1].row] else []
  }

  // --------------------------------------------------- a cut of the rows into batches

  /** A batch of consecutive rows and what became of its part. */
  datatype Batch<T> = Batch(rows: seq<T>, fate: Write)

  function AllRows<T>(log: seq<Batch<T>>): seq<T> {
    if log == [] then [] else AllRows(log[..|log| - 1]) + log[|log| - 1].rows
  }

  /** How rows are told apart: on disk or missing, counted as written or as dropped, or on disk and yet
      counted as dropped. */
  datatype Kind = OnDisk | Missing | Counted | Dropped | Uncounted

  predicate In(fate: Write, kind: Kind) {
    match kind
    case OnDisk => fate != Lost
    case Missing => fate == Lost
    case Counted => fate == Done
    case Dropped => fate != Done
    case Uncounted => fate == Unsynced
  }

  function When<T>(c: bool, rows: seq<T>): seq<T> {
    if c then rows else []
  }

  /** The rows of the batches of this kind. */
  function RowsWith<T>(log: seq<Batch<T>>, kind: Kind): seq<T> {
    if log == [] then []
    else RowsWith(log[..|log| - 1], kind) + When(In(log[|log| - 1].fate, kind), log[|log| - 1].rows)
  }

  function Count<T>(log: seq<Batch<T>>, kind: Kind): nat {
    if log == [] then 0 else Count(log[..|log| - 1], kind) + if In(log[|log| - 1].fate, kind) then 1 else 0
  }

  /** The rows on disk. */
  function Kept<T>(log: seq<Batch<T>>): seq<T> {
    RowsWith(log, OnDisk)
  }

  /** The writer's books agree with `log`: a cut of the rows added into batches, those on disk being the
      parts in order and those whose write raised being counted as dropped. */
  ghost predicate Books<T>(s: State<T>, added: seq<T>, log: seq<Batch<T>>) {
    && added == AllRows(log) + s.buffer
    && Contents(s.parts) == Kept(log)
    && s.rowsWritten == |RowsWith(log, Counted)|
    && s.dropped == |RowsWith(log, Dropped)|
    && |s.parts| == Count(log, OnDisk) && s.partsSealed == Count(log, Counted)
    && Numbered(s.parts, s.partIdx)
    && NoneEmpty(log)
  }

  ghost predicate NoneEmpty<T>(log: seq<Batch<T>>) {
    forall i :: 0 <= i < |log| ==> log[i].rows != []
  }

  lemma RowsSnoc<T>(log: seq<Batch<T>>, b: Batch<T>, kind: Kind)
    ensures RowsWith(log + [b], kind) == RowsWith(log, kind) + When(In(b.fate, kind), b.rows)
    ensures AllRows(log + [b]) == AllRows(log) + b.rows
    ensures Count(log + [b], kind) == Count(log, kind) + if In(b.fate, kind) then 1 else 0
  {
    assert (log + [b])[..|log|] == log;
  }

  lemma NoneEmptySnoc<T>(log: seq<Batch<T>>, b: Batch<T>)
    requires NoneEmpty(log) && b.rows != []
    ensures NoneEmpty(log + [b])
  {
  }

  lemma NumberedSnoc<T>(parts: seq<Part<T>>, last: nat, rows: seq<T>)
    requires Numbered(parts, last)
    ensures Numbered(parts, last + 1) && Numbered(parts + [Part(last + 1, rows)], last + 1)
  {
  }

  lemma FlushedMeans<T>(s: State<T>, io: Io)
    requires s.buffer != [] && Numbered(s.parts, s.partIdx)
    ensures var t, f := Flushed(s, io), io.Fate();
            && t.buffer == [] && Numbered(t.parts, t.partIdx)
            && Contents(t.parts) == Contents(s.parts) + When(In(f, OnDisk), s.buffer)
            && t.rowsWritten == s.rowsWritten + |When(In(f, Counted), s.buffer)|
            && t.dropped == s.dropped + |When(In(f, Dropped), s.buffer)|
            && |t.parts| == |s.parts| + (if In(f, OnDisk) then 1 else 0)
            && t.partsSealed == s.partsSealed + (if In(f, Counted) then 1 else 0)
  {
    hide Contents, Numbered;
    NumberedSnoc(s.parts, s.partIdx, s.buffer);
    ContentsSnoc(s.parts, Part(s.partIdx + 1, s.buffer));
  }

  lemma FlushBooks<T>(s: State<T>, io: Io, added: seq<T>, log: seq<Batch<T>>) returns (log': seq<Batch<T>>)
    requires Books(s, added, log)
    ensures Books(Flushed(s, io), added, log')
    ensures log' == if s.buffer == [] then log else log + [Batch(s.buffer, io.Fate())]
  {
    if s.buffer == [] {
      return log;
    }
    hide Contents, AllRows, RowsWith, Count, Numbered, NoneEmpty, Flushed, In, When;
    var b := Batch(s.buffer, io.Fate());
    log' := log + [b];
    FlushedMeans(s, io);
    NoneEmptySnoc(log, b);
    RowsSnoc(log, b, OnDisk);
    RowsSnoc(log, b, Counted);
    RowsSnoc(log, b, Dropped);
  }

  /** What was asked for, whatever the file system does. */
  function Asked<T>(ops: seq<Op<T>>): (r: seq<Option<T>>)
    ensures |r| == |ops|
  {
    seq(|ops|, i requires 0 <= i < |ops| => if ops[i].AddRow? then Some(ops[i].row) else None)
  }

  ghost predicate LogOf<T>(log: seq<Batch<T>>, c: Cut<T>, buffer: seq<T>) {
    |log| == |c.batches| && c.rest == buffer && forall i :: 0 <= i < |log| ==> log[i].rows == c.batches[i]
  }

  /** For every pattern of failed part writes, the batches being cut where the limit and the flushes say. */
  lemma {:induction false} BooksOfRun<T>(maxBuffer: int, ops: seq<Op<T>>) returns (log: seq<Batch<T>>)
    ensures Books(Run(maxBuffer, ops), RowsAdded(ops), log)
    ensures LogOf(log, CutOf(maxBuffer, Asked(ops)), Run(maxBuffer, ops).buffer)
  {
    if ops == [] {
      log := [];
    } else {
      var before, op := ops[..|ops| - 1], ops[|ops| - 1];
      log := BooksOfRun(maxBuffer, before);
      AskedSnoc(maxBuffer, ops);
      hide Books, LogOf, Step, CutStep, CutOf;
      log := StepBooks(maxBuffer, Run(maxBuffer, before), op, RowsAdded(before), log, CutOf(maxBuffer, Asked(before)));
    }
  }

  function Call<T>(op: Op<T>): Option<T> {
    if op.AddRow? then Some(op.row) else None
  }

  lemma AskedSnoc<T>(maxBuffer: int, ops: seq<Op<T>>)
    requires ops != []
    ensures CutOf(maxBuffer, Asked(ops)) == CutStep(maxBuffer, CutOf(maxBuffer, Asked(ops[..|ops| - 1])), Call(ops[|ops| - 1]))
  {
    hide CutOf;
    var before := ops[..|ops| - 1];
    assert Asked(ops) == Asked(before) + [Call(ops[|ops| - 1])];
    CutSnoc(maxBuffer, Asked(before), Call(ops[|ops| - 1]));
  }

  lemma StepBooks<T>(maxBuffer: int, s: State<T>, op: Op<T>, added: seq<T>, log: seq<Batch<T>>, c: Cut<T>)
    returns (log': seq<Batch<T>>)
    requires Books(s, added, log) && LogOf(log, c, s.buffer)
    ensures Books(Step(maxBuffer, s, op), added + (if op.AddRow? then [op.row] else []), log')
    ensures LogOf(log', CutStep(maxBuffer, c, Call(op)), Step(maxBuffer, s, op).buffer)
  {
    hide Contents, AllRows, RowsWith, Count, Numbered, NoneEmpty, Flushed;
    FlushEmpties(s, op.io);
    match op
    case FlushNow(io) =>
      log' := FlushBooks(s, io, added, log);
      assert added + [] == added;
    case AddRow(row, io) =>
      var t := s.(buffer := s.buffer + [row]);
      assert Books(t, added + [row], log);
      FlushEmpties(t, io);
      log' := log;
      if |t.buffer| >= maxBuffer {
        log' := FlushBooks(t, io, added + [row], log);
      }
  }

  lemma FlushEmpties<T>(s: State<T>, io: Io)
    ensures Flushed(s, io).buffer == []
  {
  }

  /** Every batch is on disk or lost, and counted as written or as dropped. */
  lemma {:induction false} CountsAdd<T>(log: seq<Batch<T>>)
    ensures |AllRows(log)| == |RowsWith(log, Counted)| + |RowsWith(log, Dropped)|
    ensures |Kept(log)| == |RowsWith(log, Counted)| + |RowsWith(log, Uncounted)|
    ensures |RowsWith(log, Dropped)| == |RowsWith(log, Missing)| + |RowsWith(log, Uncounted)|
  {
    if log != [] {
      var front, b := log[..|log| - 1], log[|log| - 1];
      assert front + [b] == log;
      CountsAdd(front);
      hide RowsWith, AllRows;
      RowsSnoc(front, b, Counted);
      RowsSnoc(front, b, Uncounted);
      RowsSnoc(front, b, Missing);
      RowsSnoc(front, b, Dropped);
      RowsSnoc(front, b, OnDisk);
    }
  }

  lemma {:induction false} EveryRowOnce<T>(log: seq<Batch<T>>)
    ensures multiset(AllRows(log)) == multiset(Kept(log)) + multiset(RowsWith(log, Missing))
    ensures RowsWith(log, Missing) == [] ==> AllRows(log) == Kept(log)
  {
    if log != [] {
      var front, b := log[..|log| - 1], log[|log| - 1];
      assert front + [b] == log;
      EveryRowOnce(front);
      hide RowsWith, AllRows;
      RowsSnoc(front, b, Missing);
      RowsSnoc(front, b, OnDisk);
    }
  }

  lemma {:induction false} NoneWith<T>(log: seq<Batch<T>>, kind: Kind)
    requires NoneEmpty(log)
    ensures RowsWith(log, kind) == [] <==> forall i :: 0 <= i < |log| ==> !In(log[i].fate, kind)
  {
    if log != [] {
      var front, b := log[..|log| - 1], log[|log| - 1];
      NoneWith(front, kind);
      assert front + [b] == log;
      RowsSnoc(front, b, kind);
      hide RowsWith;
      assert forall i :: 0 <= i < |front| ==> front[i].fate == log[i].fate;
    }
  }

  /** Rows added = rows written + rows dropped + rows buffered, at every moment of every run, and nothing is
      missing while nothing was dropped.  The rows on disk are the rows counted as written and those of the
      parts whose write raised with the part in place: the counter agrees with the disk if and only if there
      is no such part. */
  lemma Conservation<T>(maxBuffer: int, ops: seq<Op<T>>) returns (log: seq<Batch<T>>)
    ensures var s := Run(maxBuffer, ops);
            && Books(s, RowsAdded(ops), log)
            && |RowsAdded(ops)| == s.rowsWritten + s.dropped + |s.buffer|
            && (s.dropped == 0 ==> Contents(s.parts) + s.buffer == RowsAdded(ops))
            && |Contents(s.parts)| == s.rowsWritten + |RowsWith(log, Uncounted)|
            && (|Contents(s.parts)| == s.rowsWritten <==> forall i :: 0 <= i < |log| ==> log[i].fate != Unsynced)
  {
    log := BooksOfRun(maxBuffer, ops);
    hide Run, RowsAdded, Contents, AllRows, RowsWith, Count, Numbered;
    CountsAdd(log);
    EveryRowOnce(log);
    NoneWith(log, Uncounted);
  }

  /** The daily file is the batches on disk of a cut of the rows added, losing none; in the order they were
      added if and only if the part names are in order (rows being distinct). */
  ghost predicate DailyIs<T>(s: State<T>, daily: seq<T>, added: seq<T>, log: seq<Batch<T>>) {
    && AllRows(log) == added
    && multiset(daily) == multiset(Kept(log))
    && s.rowsWritten == |RowsWith(log, Counted)| && s.dropped == |RowsWith(log, Dropped)|
    && (InNameOrder(s.parts) ==> daily == Kept(log))
    && (Distinct(Kept(log)) && daily == Kept(log) ==> InNameOrder(s.parts))
    && (s.partIdx < 10_000 ==> InNameOrder(s.parts))
  }

  lemma CloseAfterRun<T(!new)>(maxBuffer: int, ops: seq<Op<T>>, io: Io)
    ensures var s := Run(maxBuffer, ops + [FlushNow(io)]);
            exists log :: DailyIs(s, Contents(Listing(s.parts)), RowsAdded(ops), log)
  {
    var all := ops + [FlushNow(io)];
    assert all[..|all| - 1] == ops;
    assert RowsAdded(all) == RowsAdded(ops);
    var log := BooksOfRun(maxBuffer, all);
    var s := Run(maxBuffer, all);
    hide Run, RowsAdded, Contents, Listing, Distinct, InNameOrder, Numbered, RowsWith;
    var daily := Contents(Listing(s.parts));
    ListingKeepsRows(s.parts);
    DailyInOrder(s.parts);
    if s.partIdx < 10_000 {
      NumberedInOrder(s.parts, s.partIdx);
    }
    assert DailyIs(s, daily, RowsAdded(ops), log);
  }

  // ---------------------------------------------------------------- runs without failures

  ghost predicate Tidy<T>(s: State<T>) {
    && Gapless(s.parts) && s.partIdx == |s.parts| && s.dropped == 0
    && forall i :: 0 <= i < |s.parts| ==> s.parts[i].rows != []
  }

  lemma {:induction false} TidyRun<T>(maxBuffer: int, ops: seq<Op<T>>)
    requires forall i :: 0 <= i < |ops| ==> ops[i].io.Fate() == Done
    ensures Tidy(Run(maxBuffer, ops))
  {
    if ops != [] {
      TidyRun(maxBuffer, ops[..|ops| - 1]);
      assert ops[|ops| - 1].io.Fate() == Done;
    }
  }

  /** If every part can be written, part i is the i-th batch. */
  lemma {:induction false} PartPerBatch<T>(maxBuffer: int, ops: seq<Op<T>>)
    requires forall i :: 0 <= i < |ops| ==> ops[i].io.Fate() == Done
    ensures var s, c := Run(maxBuffer, ops), CutOf(maxBuffer, Asked(ops));
            && s.buffer == c.rest && s.partIdx == |s.parts| == |c.batches|
            && forall i :: 0 <= i < |s.parts| ==> s.parts[i] == Part(i + 1, c.batches[i])
  {
    if ops != [] {
      hide CutOf, Asked;
      PartPerBatch(maxBuffer, ops[..|ops| - 1]);
      AskedSnoc(maxBuffer, ops);
      assert ops[|ops| - 1].io.Fate() == Done;
    }
  }

  /** If every part can be written, the daily file is the rows added, in order, if and only if there are fewer
      than 10,000 parts (rows being distinct). */
  lemma CalmClose<T(!new)>(maxBuffer: int, ops: seq<Op<T>>, io: Io)
    requires io.Fate() == Done && forall i :: 0 <= i < |ops| ==> ops[i].io.Fate() == Done
    requires Distinct(RowsAdded(ops))
    ensures var s := Run(maxBuffer, ops + [FlushNow(io)]);
            && multiset(Contents(Listing(s.parts))) == multiset(RowsAdded(ops))
            && (Contents(Listing(s.parts)) == RowsAdded(ops) <==> |s.parts| < 10_000)
  {
    var all := ops + [FlushNow(io)];
    assert forall i :: 0 <= i < |all| ==> all[i].io.Fate() == Done;
    assert all[..|all| - 1] == ops && RowsAdded(all) == RowsAdded(ops);
    var _ := Conservation(maxBuffer, all);
    TidyRun(maxBuffer, all);
    FlushEmpties(Run(maxBuffer, ops), io);
    var s := Run(maxBuffer, all);
    assert s.buffer == [];
    hide Run, RowsAdded, Contents, Listing, Distinct, InNameOrder;
    ListingKeepsRows(s.parts);
    DailyInOrder(s.parts);
    GaplessInOrder(s.parts);
  }

  // ---------------------------------------------------------------- the writer object

  class DepthWriter<T> {
    const maxBuffer: int
    var buffer: seq<T>
    var parts: seq<Part<T>>
    var partIdx: nat
    var rowsWritten: nat
    var dropped: nat
    var partsSealed: nat
    var closed: bool
    var daily: Option<seq<T>>

    function View(): State<T>
      reads this
    {
      State(buffer, parts, partIdx, rowsWritten, dropped, partsSealed)
    }

    constructor (maxBuffer: int)
      ensures View() == Start() && !closed && this.maxBuffer == maxBuffer
    {
      this.maxBuffer := maxBuffer;
      buffer, parts, partIdx, rowsWritten, dropped, partsSealed := [], [], 0, 0, 0, 0;
      closed, daily := false, None;
    }

    method Add(row: T, io: Io)
      modifies this
      ensures View() == Step(maxBuffer, old(View()), AddRow(row, io)) && closed == old(closed) && daily == old(daily)
    {
      buffer := buffer + [row];
      if |buffer| >= maxBuffer {
        Flush(io);
      }
    }

    method Flush(io: Io)
      modifies this
      ensures View() == Flushed(old(View()), io) && closed == old(closed) && daily == old(daily)
    {
      if buffer == [] {
        return;
      }
      var sealed := false;
      if io.mkdirOk {
        partIdx := partIdx + 1;
        if io.write.Landed() {
          parts := parts + [Part(partIdx, buffer)];
        }
        if io.write == Done {
          rowsWritten := rowsWritten + |buffer|;
          partsSealed := partsSealed + 1;
          sealed := true;
        }
      }
      if !sealed {
        dropped := dropped + |buffer|;
      }
      buffer := [];
    }

    /** Whatever raises leaves the writer not closed, and the old daily file unless the new one was already in
        place. */
    method Close(io: Io, final: Write) returns (raised: bool)
      modifies this
      ensures old(closed) ==> !raised && closed && View() == old(View()) && daily == old(daily)
      ensures !old(closed) ==> View() == Flushed(old(View()), io) && raised == (final != Done) && closed == !raised
      ensures !old(closed) ==> daily == if final == Lost then old(daily) else Some(Contents(Listing(parts)))
    {
      if closed {
        return false;
      }
      Flush(io);
      var rows := ConsolidateParts(parts);
      if final.Landed() {
        daily := Some(rows);
      }
      raised := final != Done;
      closed := !raised;
    }
  }
}
