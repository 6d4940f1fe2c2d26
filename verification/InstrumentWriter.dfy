/**
 * The journaling writer of one instrument's ticks (orderflow_engine/recorder/writer.py): a row buffer,
 * a primary file that is open row group by row group, rotation into numbered parts, the fallback to
 * part files, and the daily file made at close.  `Io` says what the file system does to one flush.
 */
module InstrumentJournal {
  import opened Seqs
  import opened PartFiles

  /** How the primary write of one flush ends, by the call that raises. */
  datatype Primary =
    | Fine
    | OpenFails       // opening the file: nothing was opened
    | WriteFails      // write_table: nothing of the batch is in the file
    | SyncFails       // after write_table, or while rotating with the writer still there: the batch is in the open file
    | SealFails       // while rotating, after the writer was given up and before a part number was taken
    | ReplaceFails    // while rotating, the rename: the part number is used up
    | SealSyncFails   // while rotating, after the rename

  /** What becomes of the half-written primary file on the way to part mode. */
  datatype Promotion =
    | Promoted
    | GivenUp         // it cannot be closed
    | RenameFails     // it cannot be renamed: the part number is used up

  /** `dirOk`: the parts directory can be made on the way to part mode; it cannot fail to be made when it is
      already there.  `part`: the part write inside the `try`; `retryOk`: whether the one inside the `except`
      puts the part in place. */
  datatype Io = Io(primary: Primary, dirOk: bool, promotion: Promotion, part: Write, retryOk: bool)

  datatype Config = Config(maxBuffer: int, rotateAfter: nat) {
    /** The most rows one flush can carry. */
    function Limit(): nat {
      BatchLimit(maxBuffer)
    }
  }

  /** The writer and its files: row buffer, row groups of the open primary file, sealed parts, and whether
      the parts directory is there. */
  datatype State<T> = State(buffer: seq<T>, open: Option<seq<seq<T>>>, parts: seq<Part<T>>, partIdx: nat,
                            partMode: bool, rotated: bool, dirMade: bool, rowsWritten: nat)

  function Start<T>(): State<T> {
    State([], None, [], 0, false, false, false, 0)
  }

  function Groups<T>(s: State<T>): seq<seq<T>> {
    s.open.GetOr([])
  }

  function Held<T>(s: State<T>): seq<T> {
    Flatten(Groups(s))
  }

  /** Everything the writer still has, in order: sealed parts, open row groups, buffer. */
  function Journal<T>(s: State<T>): seq<T> {
    Contents(s.parts) + Held(s) + s.buffer
  }

  // ------------------------------------------------------------ what a flush does

  function Sealed<T>(s: State<T>, rows: seq<T>): State<T> {
    s.(parts := s.parts + [Part(s.partIdx + 1, rows)], partIdx := s.partIdx + 1)
  }

  /** A part write: the number is used up even when the write fails, as it does without a directory. */
  function PartWrite<T>(s: State<T>, rows: seq<T>, ok: bool): State<T> {
    if ok && s.dirMade then Sealed(s, rows) else s.(partIdx := s.partIdx + 1)
  }

  /** The fallback promotes the open file to a part if it still can. */
  function Fallback<T>(s: State<T>, promotion: Promotion): State<T> {
    var t := s.(dirMade := true);
    (if t.open.None? || promotion == GivenUp then t else PartWrite(t, Held(s), promotion == Promoted))
    .(open := None, partMode := true)
  }

  predicate RotationDue<T>(cfg: Config, s: State<T>) {
    cfg.rotateAfter > 0 && |Groups(s)| + 1 >= cfg.rotateAfter
  }

  predicate RaisesInRotation(p: Primary) {
    p == SealFails || p == ReplaceFails || p == SealSyncFails
  }

  /** A failure of a call this flush does not make is no failure. */
  function Outcome<T>(cfg: Config, s: State<T>, io: Io): Primary {
    if io.primary == OpenFails && s.open.Some? then Fine
    else if RaisesInRotation(io.primary) && !RotationDue(cfg, s) then Fine
    else io.primary
  }

  function Grown<T>(s: State<T>): State<T> {
    s.(open := Some(Groups(s) + [s.buffer]))
  }

  /** The batch as a row group of the primary file, rotated into a part when due. */
  function FineWrite<T>(cfg: Config, s: State<T>): State<T> {
    if RotationDue(cfg, s) then Sealed(Grown(s), Held(Grown(s))).(open := None, rotated := true, dirMade := true)
    else Grown(s)
  }

  /** What the raising call left behind. */
  function AfterFailure<T>(s: State<T>, outcome: Primary): State<T> {
    match outcome
    case Fine => s
    case OpenFails => s
    case WriteFails => s.(open := Some(Groups(s)))
    case SyncFails => Grown(s)
    case SealFails => s.(open := None, dirMade := true)
    case ReplaceFails => s.(open := None, dirMade := true, partIdx := s.partIdx + 1)
    case SealSyncFails => Sealed(Grown(s), Held(Grown(s))).(open := None, dirMade := true)
  }

  /** The open file after a rotation that ends in `p`. */
  function Rotated<T>(s: State<T>, p: Primary): State<T> {
    var t := s.(open := None, dirMade := true);
    match p
    case SyncFails => s
    case SealFails => t
    case ReplaceFails => t.(partIdx := s.partIdx + 1)
    case SealSyncFails => Sealed(t, Held(s))
    case _ => Sealed(t, Held(s)).(rotated := true)
  }

  lemma RotatedGrown<T>(cfg: Config, s: State<T>, p: Primary)
    requires RotationDue(cfg, s) && (p == Fine || RaisesInRotation(p) || (p == OpenFails && s.open.Some?))
    ensures Rotated(Grown(s), p) == if RaisesInRotation(p) then AfterFailure(s, p) else FineWrite(cfg, s)
  {
    hide Held;
  }

  /** The files after the batch in the buffer met `io`. */
  function Written<T>(cfg: Config, s: State<T>, io: Io): State<T> {
    var batch := s.buffer;
    if s.partMode then
      var first := PartWrite(s, batch, io.part.Landed());
      if io.part == Done && s.dirMade then first else PartWrite(first, batch, io.retryOk)
    else
      var outcome := Outcome(cfg, s, io);
      if outcome == Fine then FineWrite(cfg, s)
      else PartWrite(Fallback(AfterFailure(s, outcome), io.promotion), batch, io.retryOk)
  }

  /** The parts directory cannot be made on the way to part mode, and the failure leaves `flush`: a rotation
      would have made the directory already. */
  predicate Stalls<T>(cfg: Config, s: State<T>, io: Io) {
    && s.buffer != [] && !s.partMode && !s.dirMade && !io.dirOk
    && Outcome(cfg, s, io) != Fine && !RaisesInRotation(Outcome(cfg, s, io))
  }

  /** The writer is in part mode, its open file is never read again, and the buffer is not cleared. */
  function Stalled<T>(cfg: Config, s: State<T>, io: Io): State<T> {
    AfterFailure(s, Outcome(cfg, s, io)).(open := None, partMode := true)
  }

  function Flushed<T>(cfg: Config, s: State<T>, io: Io): State<T> {
    if s.buffer == [] then s
    else if Stalls(cfg, s, io) then Stalled(cfg, s, io)
    else Written(cfg, s, io).(buffer := [], rowsWritten := s.rowsWritten + |s.buffer|)
  }

  function Added<T>(cfg: Config, s: State<T>, row: T, io: Io): State<T> {
    var t := s.(buffer := s.buffer + [row]);
    if |t.buffer| >= cfg.maxBuffer then Flushed(cfg, t, io) else t
  }

  /** Exactly the failures after which every row handed over is still there once and in place. */
  predicate Harmless<T>(cfg: Config, s: State<T>, io: Io) {
    if s.buffer == [] then true
    else if s.partMode then
      s.dirMade && (io.part == Done || io.retryOk == io.part.Lost?)
    else if Stalls(cfg, s, io) then Held(s) == []
    else
      match Outcome(cfg, s, io)
      case Fine => true
      case OpenFails => io.retryOk
      case WriteFails => io.retryOk && (io.promotion == Promoted || Held(s) == [])
      case SyncFails => if io.promotion == Promoted then !io.retryOk else io.retryOk && Held(s) == []
      case SealFails => io.retryOk && Held(s) == []
      case ReplaceFails => io.retryOk && Held(s) == []
      case SealSyncFails => !io.retryOk
  }

  // --------------------------------------------------------------- lost and repeated rows

  /** Some row that was handed over is missing from `kept`, or is there more than once. */
  ghost predicate Damaged<T>(done: seq<T>, kept: seq<T>) {
    exists i :: 0 <= i < |done| && multiset(kept)[done[i]] != 1
  }

  lemma {:induction false} DistinctCount<T>(s: seq<T>, i: nat)
    requires Distinct(s) && i < |s|
    ensures multiset(s)[s[i]] == 1
  {
    var x := s[i];
    assert s == s[..i] + [x] + s[i + 1..];
    assert x !in multiset(s[..i]) && x !in multiset(s[i + 1..]);
  }

  /** Later batches neither repair damage nor hide it. */
  lemma DamageStays<T>(done: seq<T>, batch: seq<T>, kept: seq<T>)
    requires Distinct(done + batch) && Damaged(done, kept)
    ensures Damaged(done + batch, kept) && Damaged(done + batch, kept + batch) && Damaged(done + batch, kept + batch + batch)
  {
    var i :| 0 <= i < |done| && multiset(kept)[done[i]] != 1;
    assert (done + batch)[i] == done[i];
    forall k | 0 <= k < |batch| ensures batch[k] != done[i] {
      assert (done + batch)[|done| + k] == batch[k];
    }
    assert done[i] !in multiset(batch);
  }

  lemma MissingDamages<T>(done: seq<T>, lost: seq<T>, kept: seq<T>)
    requires lost != [] && kept + lost == done && Distinct(done)
    ensures Damaged(done, kept)
  {
    var i := |kept|;
    assert done[i] == lost[0];
    assert lost[0] !in multiset(kept) by {
      forall k | 0 <= k < |kept| ensures kept[k] != lost[0] {
        assert done[k] == kept[k];
      }
    }
  }

  lemma SkippedDamages<T>(kept: seq<T>, lost: seq<T>, batch: seq<T>)
    requires lost != [] && Distinct(kept + lost + batch)
    ensures Damaged(kept + lost + batch, kept + batch)
  {
    var done := kept + lost + batch;
    var i := |kept|;
    assert done[i] == lost[0];
    forall k | 0 <= k < |kept| ensures kept[k] != lost[0] {
      assert done[k] == kept[k];
    }
    forall k | 0 <= k < |batch| ensures batch[k] != lost[0] {
      assert done[|kept| + |lost| + k] == batch[k];
    }
    assert lost[0] !in multiset(kept + batch);
  }

  lemma RepeatDamages<T>(done: seq<T>, batch: seq<T>)
    requires batch != [] && Distinct(done + batch)
    ensures Damaged(done + batch, done + batch + batch)
  {
    var i := |done|;
    assert (done + batch)[i] == batch[0];
    assert batch == [batch[0]] + batch[1..];
    assert multiset(batch)[batch[0]] >= 1;
    assert multiset(done + batch + batch) == multiset(done) + multiset(batch) + multiset(batch);
  }

  lemma DamageShows<T>(added: seq<T>, kept: seq<T>)
    requires Distinct(added) && Damaged(added, kept)
    ensures multiset(kept) != multiset(added)
  {
    var i :| 0 <= i < |added| && multiset(kept)[added[i]] != 1;
    DistinctCount(added, i);
  }


  /** The shapes a flush can leave the files in: rows in sealed parts (`now`) and in the open file,
      from the rows that were sealed (`kept`), open (`held`) and buffered (`batch`). */
  ghost predicate Settled<T>(kept: seq<T>, held: seq<T>, batch: seq<T>, now: seq<T>, open: seq<T>, harmless: bool) {
    if harmless then now + open == kept + held + batch
    else
      || now == kept
      || now == kept + held
      || (now == kept + batch && held != [])
      || now == kept + held + batch + batch
  }

  lemma SealedContents<T>(s: State<T>, rows: seq<T>)
    ensures Contents(Sealed(s, rows).parts) == Contents(s.parts) + rows
  {
    ContentsSnoc(s.parts, Part(s.partIdx + 1, rows));
  }

  lemma FallbackContents<T>(s: State<T>, promotion: Promotion, batch: seq<T>, retryOk: bool)
    ensures var t := PartWrite(Fallback(s, promotion), batch, retryOk);
            && t.open.None?
            && Contents(t.parts) == Contents(s.parts) + (if promotion == Promoted then Held(s) else []) + if retryOk then batch else []
  {
    hide Contents;
    SealedContents(s, Held(s));
    SealedContents(Fallback(s, promotion), batch);
    assert Flatten<T>([]) == [];
  }

  lemma GrownHeld<T>(s: State<T>)
    ensures Held(Grown(s)) == Held(s) + s.buffer
  {
    FlattenSnoc(Groups(s), s.buffer);
  }

  lemma FineContents<T>(cfg: Config, s: State<T>)
    ensures var t := FineWrite(cfg, s); Contents(t.parts) + Held(t) == Contents(s.parts) + Held(s) + s.buffer
  {
    hide Contents;
    GrownHeld(s);
    SealedContents(Grown(s), Held(Grown(s)));
    Associative(Contents(s.parts), Held(s), s.buffer);
    assert Flatten<T>([]) == [];
  }

  lemma AfterFailureContents<T>(s: State<T>, outcome: Primary)
    requires outcome == OpenFails ==> s.open.None?
    ensures var t := AfterFailure(s, outcome);
            match outcome
            case SyncFails => Contents(t.parts) == Contents(s.parts) && Held(t) == Held(s) + s.buffer
            case SealFails => Contents(t.parts) == Contents(s.parts) && Held(t) == []
            case ReplaceFails => Contents(t.parts) == Contents(s.parts) && Held(t) == []
            case SealSyncFails => Contents(t.parts) == Contents(s.parts) + Held(s) + s.buffer && Held(t) == []
            case _ => Contents(t.parts) == Contents(s.parts) && Held(t) == Held(s)
  {
    hide Contents;
    GrownHeld(s);
    SealedContents(Grown(s), Held(Grown(s)));
    Associative(Contents(s.parts), Held(s), s.buffer);
  }

  lemma WrittenSettles<T>(cfg: Config, s: State<T>, io: Io)
    requires s.buffer != [] && (s.partMode ==> s.open.None?) && !Stalls(cfg, s, io)
    ensures var t := Written(cfg, s, io);
            Settled(Contents(s.parts), Held(s), s.buffer, Contents(t.parts), Held(t), Harmless(cfg, s, io))
  {
    hide Contents, Flatten, AfterFailure, Fallback, PartWrite, FineWrite;
    NothingFlat<T>();
    var outcome := Outcome(cfg, s, io);
    if s.partMode {
      PartModeWrite(cfg, s, io);
    } else if outcome == Fine {
      FineContents(cfg, s);
    } else {
      AfterFailureContents(s, outcome);
      FallbackContents(AfterFailure(s, outcome), io.promotion, s.buffer, io.retryOk);
      Associative(Contents(s.parts), Held(s), s.buffer);
    }
  }

  /** A harmless flush keeps the journal whole; any other leaves damage that can be seen. */
  lemma Reckon<T>(done: seq<T>, kept: seq<T>, held: seq<T>, batch: seq<T>, now: seq<T>, open: seq<T>, harmless: bool)
    requires batch != [] && Settled(kept, held, batch, now, open, harmless)
    requires kept + held == done
    ensures harmless ==> now + open == done + batch
    ensures !harmless && Distinct(done + batch) ==> Damaged(done + batch, now)
  {
    hide Distinct, Damaged;
    if !harmless && Distinct(done + batch) {
      if now == kept {
        assert kept + (held + batch) == done + batch;
        MissingDamages(done + batch, held + batch, kept);
      } else if now == kept + held {
        MissingDamages(done + batch, batch, kept + held);
      } else if now == kept + batch && held != [] {
        SkippedDamages(kept, held, batch);
      } else {
        RepeatDamages(done, batch);
      }
    }
  }

  lemma PartModeWrite<T>(cfg: Config, s: State<T>, io: Io)
    requires s.partMode && s.buffer != []
    ensures Written(cfg, s, io).open == s.open
    ensures var now := Contents(Written(cfg, s, io).parts);
            if Harmless(cfg, s, io) then now == Contents(s.parts) + s.buffer
            else now == Contents(s.parts) || now == Contents(s.parts) + s.buffer + s.buffer
  {
    hide Contents;
    SealedContents(s, s.buffer);
    SealedContents(PartWrite(s, s.buffer, io.part.Landed()), s.buffer);
  }

  // ---------------------------------------------------------------- runs

  datatype Op<T> = AddRow(row: T, io: Io) | FlushNow(io: Io)

  function Step<T>(cfg: Config, s: State<T>, op: Op<T>): State<T> {
    match op
    case AddRow(row, io) => Added(cfg, s, row, io)
    case FlushNow(io) => Flushed(cfg, s, io)
  }

  function Run<T>(cfg: Config, ops: seq<Op<T>>): State<T> {
    if ops == [] then Start() else Step(cfg, Run(cfg, ops[..|ops| - 1]), ops[|ops| - 1])
  }

  function RowsAdded<T>(ops: seq<Op<T>>): seq<T> {
    if ops == [] then []
    else
      RowsAdded(ops[..|ops| - 1]) + if ops[|ops| - 1].AddRow? then [ops[|ops| - 1].row] else []
  }

  predicate StepHarmless<T>(cfg: Config, s: State<T>, op: Op<T>) {
    match op
    case FlushNow(io) => Harmless(cfg, s, io)
    case AddRow(row, io) =>
      var t := s.(buffer := s.buffer + [row]);
      |t.buffer| >= cfg.maxBuffer ==> Harmless(cfg, t, io)
  }

  /** No flush of the run met a harmful failure. */
  predicate AllHarmless<T>(cfg: Config, ops: seq<Op<T>>) {
    ops == [] ||
    var before := ops[..|ops| - 1];
    AllHarmless(cfg, before) && StepHarmless(cfg, Run(cfg, before), ops[|ops| - 1])
  }

  ghost predicate OpenFileOk<T>(cfg: Config, s: State<T>) {
    && (s.partMode ==> s.open.None?)
    && (cfg.rotateAfter > 0 && s.open.Some? ==> |s.open.value| < cfg.rotateAfter)
    && forall g :: g in Groups(s) ==> |g| <= cfg.Limit()
  }

  /** The state of the files and counters that every operation keeps. */
  ghost predicate Shape<T>(cfg: Config, s: State<T>) {
    && OpenFileOk(cfg, s)
    && Numbered(s.parts, s.partIdx)
    && (!s.partMode ==> (s.rotated <==> s.parts != []))
    && (s.parts != [] ==> s.dirMade)
  }

  /** How the rows handed over (`added`) stand to the rows kept. */
  ghost predicate Accounts<T>(s: State<T>, added: seq<T>, faithful: bool) {
    && |s.buffer| <= |added| && s.buffer == added[|added| - |s.buffer|..]
    && (faithful ==> Journal(s) == added)
    && (!faithful ==> s.partMode && (Distinct(added) ==> Damaged(added[..|added| - |s.buffer|], Contents(s.parts))))
    && (added == [] ==> s == Start())
  }

  lemma FineShape<T>(cfg: Config, s: State<T>)
    requires Shape(cfg, s) && |s.buffer| <= cfg.Limit() && !s.partMode
    ensures Shape(cfg, FineWrite(cfg, s))
  {
    var g := Groups(s) + [s.buffer];
    assert forall x :: x in g ==> x in Groups(s) || x == s.buffer;
  }

  lemma FallbackShape<T>(cfg: Config, s: State<T>, promotion: Promotion, batch: seq<T>, retryOk: bool)
    requires Numbered(s.parts, s.partIdx)
    ensures Shape(cfg, PartWrite(Fallback(s, promotion), batch, retryOk)) && PartWrite(Fallback(s, promotion), batch, retryOk).partMode
  {
  }

  lemma WrittenShape<T>(cfg: Config, s: State<T>, io: Io)
    requires Shape(cfg, s) && (s.partMode || |s.buffer| <= cfg.Limit())
    ensures Shape(cfg, Written(cfg, s, io))
    ensures s.partMode || (s.buffer != [] && !Stalls(cfg, s, io) && !Harmless(cfg, s, io)) ==> Written(cfg, s, io).partMode
  {
    hide FineWrite, Held, Numbered, AfterFailure, Fallback, PartWrite, OpenFileOk;
    if s.partMode {
      PartShape(cfg, s, s.buffer, io.part.Landed());
      PartShape(cfg, PartWrite(s, s.buffer, io.part.Landed()), s.buffer, io.retryOk);
    } else {
      FineShape(cfg, s);
      var x := AfterFailure(s, Outcome(cfg, s, io));
      FailureNumbered(s, Outcome(cfg, s, io));
      FallbackShape(cfg, x, io.promotion, s.buffer, io.retryOk);
    }
  }

  lemma PartShape<T>(cfg: Config, s: State<T>, batch: seq<T>, ok: bool)
    requires Shape(cfg, s) && s.partMode
    ensures Shape(cfg, PartWrite(s, batch, ok)) && PartWrite(s, batch, ok).partMode
  {
  }

  lemma FailureNumbered<T>(s: State<T>, outcome: Primary)
    requires Numbered(s.parts, s.partIdx)
    ensures Numbered(AfterFailure(s, outcome).parts, AfterFailure(s, outcome).partIdx)
  {
    hide Flatten;
  }

  lemma FlushAccounts<T>(cfg: Config, s: State<T>, io: Io, added: seq<T>, faithful: bool)
    requires Shape(cfg, s) && (s.partMode || |s.buffer| <= cfg.Limit()) && Accounts(s, added, faithful)
    ensures Shape(cfg, Flushed(cfg, s, io)) && Accounts(Flushed(cfg, s, io), added, faithful && Harmless(cfg, s, io))
    ensures if Stalls(cfg, s, io) then Flushed(cfg, s, io).buffer == s.buffer && Flushed(cfg, s, io).partMode
            else Flushed(cfg, s, io).buffer == []
  {
    hide Written, Contents, Flatten, Distinct, Damaged, Numbered, Harmless, Stalls, Stalled;
    if s.buffer == [] {
      HarmlessNothing(cfg, s, io);
    } else if Stalls(cfg, s, io) {
      StallAccounts(cfg, s, io, added, faithful);
    } else {
      WrittenShape(cfg, s, io);
      BatchAccounts(cfg, s, io, added, faithful);
      assert added[..|added|] == added;
    }
  }

  /** A stalled flush loses the open row groups and nothing else. */
  lemma StallAccounts<T>(cfg: Config, s: State<T>, io: Io, added: seq<T>, faithful: bool)
    requires Shape(cfg, s) && Stalls(cfg, s, io) && Accounts(s, added, faithful)
    ensures var t := Stalled(cfg, s, io);
            && Shape(cfg, t) && t.buffer == s.buffer && t.partMode
            && Accounts(t, added, faithful && Harmless(cfg, s, io))
  {
    hide Contents, Flatten, Distinct, Damaged;
    var t, done := Stalled(cfg, s, io), added[..|added| - |s.buffer|];
    AfterFailureContents(s, Outcome(cfg, s, io));
    NothingFlat<T>();
    assert t.parts == s.parts && t.partIdx == s.partIdx;
    assert added == done + s.buffer && Contents(s.parts) + Held(s) == done;
    if Held(s) != [] && Distinct(added) {
      DistinctFront(done, s.buffer);
      MissingDamages(done, Held(s), Contents(s.parts));
    }
  }

  lemma DistinctFront<T>(s: seq<T>, t: seq<T>)
    requires Distinct(s + t)
    ensures Distinct(s)
  {
    assert forall i :: 0 <= i < |s| ==> s[i] == (s + t)[i];
  }

  lemma HarmlessNothing<T>(cfg: Config, s: State<T>, io: Io)
    requires s.buffer == []
    ensures Harmless(cfg, s, io) && !Stalls(cfg, s, io)
  {
  }

  lemma BatchAccounts<T>(cfg: Config, s: State<T>, io: Io, added: seq<T>, faithful: bool)
    requires Shape(cfg, s) && s.buffer != [] && !Stalls(cfg, s, io) && Accounts(s, added, faithful)
    ensures var t := Written(cfg, s, io);
            && (faithful && Harmless(cfg, s, io) ==> Contents(t.parts) + Held(t) == added)
            && (!(faithful && Harmless(cfg, s, io)) && Distinct(added) ==> Damaged(added, Contents(t.parts)))
  {
    hide Distinct, Damaged, Settled, Contents, Flatten, Written, Harmless, Numbered, Stalls;
    var batch, done := s.buffer, added[..|added| - |s.buffer|];
    var t := Written(cfg, s, io);
    assert added == done + batch;
    if faithful {
      WrittenSettles(cfg, s, io);
      assert Contents(s.parts) + Held(s) == done;
      Reckon(done, Contents(s.parts), Held(s), batch, Contents(t.parts), Held(t), Harmless(cfg, s, io));
    } else if Distinct(added) {
      PartModeWrite(cfg, s, io);
      assert Contents(s.parts) + [] == Contents(s.parts);
      DamageStays(done, batch, Contents(s.parts));
    }
  }

  lemma AppendAccounts<T>(s: State<T>, row: T, added: seq<T>, faithful: bool)
    requires Accounts(s, added, faithful)
    ensures Accounts(s.(buffer := s.buffer + [row]), added + [row], faithful)
  {
    hide Damaged, Contents, Flatten;
    var t, more := s.(buffer := s.buffer + [row]), added + [row];
    assert more[..|more| - |t.buffer|] == added[..|added| - |s.buffer|];
    if Distinct(more) {
      assert forall i :: 0 <= i < |added| ==> added[i] == more[i];
    }
  }

  /** A full buffer stands only after a stalled flush, and then the next row flushes it. */
  ghost predicate BufferOk<T>(cfg: Config, s: State<T>) {
    |s.buffer| < cfg.Limit() || (s.partMode && |s.buffer| <= cfg.Limit())
  }

  /** What every run keeps, whatever fails: at every moment the rows added are the sealed parts, then
      the open row groups, then the buffer, in order, as long as no failure was harmful; and once one
      was, some row is lost or repeated for good (rows being distinct). */
  lemma {:induction false} JournalOfRun<T>(cfg: Config, ops: seq<Op<T>>)
    ensures Shape(cfg, Run(cfg, ops)) && BufferOk(cfg, Run(cfg, ops))
    ensures Accounts(Run(cfg, ops), RowsAdded(ops), AllHarmless(cfg, ops))
  {
    hide Accounts, Shape, StepHarmless, Step;
    if ops == [] {
      StartKeeps<T>(cfg);
    } else {
      var before, op := ops[..|ops| - 1], ops[|ops| - 1];
      JournalOfRun(cfg, before);
      StepKeeps(cfg, Run(cfg, before), op, RowsAdded(before), AllHarmless(cfg, before));
    }
  }

  lemma StartKeeps<T>(cfg: Config)
    ensures Shape(cfg, Start<T>()) && Accounts(Start<T>(), [], true) && BufferOk(cfg, Start<T>())
  {
  }

  lemma StepKeeps<T>(cfg: Config, s: State<T>, op: Op<T>, added: seq<T>, faithful: bool)
    requires Shape(cfg, s) && BufferOk(cfg, s) && Accounts(s, added, faithful)
    ensures Shape(cfg, Step(cfg, s, op)) && BufferOk(cfg, Step(cfg, s, op))
    ensures Accounts(Step(cfg, s, op), added + (if op.AddRow? then [op.row] else []), faithful && StepHarmless(cfg, s, op))
  {
    hide Accounts, Harmless, Written, Numbered, Flushed, Stalls;
    match op
    case FlushNow(io) =>
      FlushAccounts(cfg, s, io, added, faithful);
      assert added + [] == added;
    case AddRow(row, io) =>
      var t := s.(buffer := s.buffer + [row]);
      AppendAccounts(s, row, added, faithful);
      assert Shape(cfg, t);
      StallsInPrimary(cfg, t, io);
      FlushAccounts(cfg, t, io, added + [row], faithful);
  }

  lemma StallsInPrimary<T>(cfg: Config, s: State<T>, io: Io)
    ensures Stalls(cfg, s, io) ==> !s.partMode
  {
  }

  /** In a run without failures no flush is harmful, and the writer never leaves primary mode. */
  lemma {:induction false} CalmRun<T>(cfg: Config, ops: seq<Op<T>>)
    requires forall i :: 0 <= i < |ops| ==> ops[i].io.primary == Fine
    ensures AllHarmless(cfg, ops) && !Run(cfg, ops).partMode
  {
    if ops != [] {
      CalmRun(cfg, ops[..|ops| - 1]);
      assert ops[|ops| - 1].io.primary == Fine;
    }
  }

  // ---------------------------------------------------------------- close

  /** The last part is the tail of the open file. */
  function AllSealed<T>(s: State<T>): State<T> {
    if s.open.Some? then Sealed(s, Held(s)).(open := None) else s
  }

  /** The daily file made from a flushed writer, `before` being the one already on disk. */
  function Daily<T>(s: State<T>, before: Option<seq<T>>): Option<seq<T>> {
    if s.partMode || s.rotated then Some(Contents(Listing(AllSealed(s).parts)))
    else if s.open.Some? then Some(Held(s))
    else if before.Some? && before.value != [] then before
    else Some([])
  }

  lemma DailyRows<T(!new)>(cfg: Config, s: State<T>, before: Option<seq<T>>, added: seq<T>)
    requires Shape(cfg, s) && s.buffer == [] && Accounts(s, added, true) && added != []
    ensures Daily(s, before).Some? && multiset(Daily(s, before).value) == multiset(added)
    ensures InNameOrder(AllSealed(s).parts) ==> Daily(s, before).value == added
    ensures Distinct(added) && Daily(s, before).value == added ==> InNameOrder(AllSealed(s).parts)
    ensures AllSealed(s).partIdx < 10_000 ==> InNameOrder(AllSealed(s).parts)
  {
    hide Contents, Flatten, Listing, Distinct, InNameOrder, Numbered, Shape, Accounts, AllSealed;
    var t := AllSealed(s);
    SealedRows(cfg, s, added);
    ListingKeepsRows(t.parts);
    DailyInOrder(t.parts);
    if t.partIdx < 10_000 {
      NumberedInOrder(t.parts, t.partIdx);
    }
    if !s.partMode && !s.rotated {
      PlainDaily(cfg, s, added);
    }
  }

  lemma SealedRows<T>(cfg: Config, s: State<T>, added: seq<T>)
    requires Shape(cfg, s) && s.buffer == [] && Accounts(s, added, true)
    ensures Contents(AllSealed(s).parts) == added && Numbered(AllSealed(s).parts, AllSealed(s).partIdx)
  {
    hide Contents, Flatten;
    NothingFlat<T>();
    SealedContents(s, Held(s));
  }

  lemma PlainDaily<T>(cfg: Config, s: State<T>, added: seq<T>)
    requires Shape(cfg, s) && s.buffer == [] && Accounts(s, added, true) && added != [] && !s.partMode && !s.rotated
    ensures s.open.Some? && Held(s) == added && InNameOrder(AllSealed(s).parts)
  {
    hide Contents, Flatten, NameAtMost;
    NothingFlat<T>();
    NoParts<T>();
  }

  lemma NoParts<T>()
    ensures Contents<T>([]) == []
  {
  }

  /** Closing after any run, unless the last flush stalls: the daily file holds exactly the rows added if and
      only if no flush met a harmful failure, and in order if and only if the part names are in order (rows
      being distinct), as they are while part numbers keep four digits. */
  lemma CloseAfterRun<T(!new)>(cfg: Config, ops: seq<Op<T>>, io: Io, before: Option<seq<T>>)
    requires !Stalls(cfg, Run(cfg, ops), io)
    ensures var all := ops + [FlushNow(io)];
            var s, daily, added := Run(cfg, all), Daily(Run(cfg, all), before), RowsAdded(all);
            && added == RowsAdded(ops) && daily.Some?
            && (added == [] ==> daily == if before.Some? && before.value != [] then before else Some([]))
            && (added != [] && AllHarmless(cfg, all) ==>
                  && multiset(daily.value) == multiset(added)
                  && (InNameOrder(AllSealed(s).parts) ==> daily.value == added)
                  && (Distinct(added) && daily.value == added ==> InNameOrder(AllSealed(s).parts))
                  && (AllSealed(s).partIdx < 10_000 ==> InNameOrder(AllSealed(s).parts)))
            && (Distinct(added) && !AllHarmless(cfg, all) ==> multiset(daily.value) != multiset(added))
  {
    hide Distinct, Contents, Flatten, Listing, Run, RowsAdded, AllHarmless, Shape, Accounts, Stalls, InNameOrder;
    RunThenFlush(cfg, ops, io);
    var all := ops + [FlushNow(io)];
    var s, added := Run(cfg, all), RowsAdded(all);
    if AllHarmless(cfg, all) {
      if added != [] {
        DailyRows(cfg, s, before, added);
      }
    } else if Distinct(added) {
      DamagedDaily(s, added);
    }
  }

  lemma RunThenFlush<T>(cfg: Config, ops: seq<Op<T>>, io: Io)
    requires !Stalls(cfg, Run(cfg, ops), io)
    ensures var all := ops + [FlushNow(io)];
            var s := Run(cfg, all);
            && Shape(cfg, s) && s.buffer == [] && (s.partMode ==> s.open.None?)
            && RowsAdded(all) == RowsAdded(ops) && Accounts(s, RowsAdded(ops), AllHarmless(cfg, all))
            && (RowsAdded(ops) == [] ==> s == Start()) && (!AllHarmless(cfg, all) ==> s.partMode)
  {
    hide Harmless, Written, Numbered, Contents, Flatten, Distinct, Damaged, Stalls;
    var all := ops + [FlushNow(io)];
    assert all[..|all| - 1] == ops;
    JournalOfRun(cfg, ops);
    FlushAccounts(cfg, Run(cfg, ops), io, RowsAdded(ops), AllHarmless(cfg, ops));
  }

  lemma DamagedDaily<T>(s: State<T>, added: seq<T>)
    requires s.buffer == [] && Accounts(s, added, false) && s.open.None? && Distinct(added)
    ensures multiset(Contents(Listing(AllSealed(s).parts))) != multiset(added)
  {
    assert added[..|added|] == added;
    DamageShows(added, Contents(s.parts));
    ListingKeepsRows(s.parts);
  }

  // ---------------------------------------------------------------- after a stall

  predicate StepStalls<T>(cfg: Config, s: State<T>, op: Op<T>) {
    match op
    case FlushNow(io) => Stalls(cfg, s, io)
    case AddRow(row, io) =>
      var t := s.(buffer := s.buffer + [row]);
      |t.buffer| >= cfg.maxBuffer && Stalls(cfg, t, io)
  }

  /** Some flush of the run stalled. */
  predicate SomeStall<T>(cfg: Config, ops: seq<Op<T>>) {
    ops != [] &&
    var before := ops[..|ops| - 1];
    SomeStall(cfg, before) || StepStalls(cfg, Run(cfg, before), ops[|ops| - 1])
  }

  lemma StallStep<T>(cfg: Config, s: State<T>, op: Op<T>)
    ensures var t := Step(cfg, s, op);
            t.partMode && !t.dirMade <==> (s.partMode && !s.dirMade) || StepStalls(cfg, s, op)
  {
    hide Flatten, Held;
  }

  /** The parts directory is missing in part mode if and only if some flush stalled, and then nothing makes
      it again: no part is ever sealed. */
  lemma {:induction false} StallIsForGood<T>(cfg: Config, ops: seq<Op<T>>)
    ensures SomeStall(cfg, ops) <==> Run(cfg, ops).partMode && !Run(cfg, ops).dirMade
    ensures SomeStall(cfg, ops) ==> Run(cfg, ops).parts == [] && RowsAdded(ops) != []
  {
    hide Step, StepStalls, Shape, Accounts, AllHarmless;
    if ops != [] {
      var before := ops[..|ops| - 1];
      StallIsForGood(cfg, before);
      StallStep(cfg, Run(cfg, before), ops[|ops| - 1]);
    }
    JournalOfRun(cfg, ops);
    ShapeMeans(cfg, Run(cfg, ops));
    StartMeans(Run(cfg, ops), RowsAdded(ops), AllHarmless(cfg, ops));
  }

  lemma ShapeMeans<T>(cfg: Config, s: State<T>)
    requires Shape(cfg, s)
    ensures (s.parts != [] ==> s.dirMade) && (s.partMode ==> s.open.None?)
  {
  }

  lemma StartMeans<T>(s: State<T>, added: seq<T>, faithful: bool)
    requires Accounts(s, added, faithful)
    ensures added == [] ==> !s.partMode
    ensures faithful && s.buffer == [] && s.open.None? && s.parts == [] ==> added == []
  {
    NothingFlat<T>();
    NoParts<T>();
  }

  /** One stalled flush costs the whole day: closing replaces whatever daily file there was by an empty one. */
  lemma StallLosesDay<T>(cfg: Config, ops: seq<Op<T>>, io: Io, before: Option<seq<T>>)
    requires SomeStall(cfg, ops)
    ensures var all := ops + [FlushNow(io)];
            && RowsAdded(all) != [] && Daily(Run(cfg, all), before) == Some([]) && !AllHarmless(cfg, all)
  {
    hide Shape, Accounts, AllHarmless, SomeStall, RowsAdded, Contents, Listing, Run, Flatten;
    var all := ops + [FlushNow(io)];
    StallIsForGood(cfg, ops);
    SomeStallSnoc(cfg, ops, FlushNow(io));
    StallIsForGood(cfg, all);
    RunThenFlush(cfg, ops, io);
    StartMeans(Run(cfg, all), RowsAdded(all), AllHarmless(cfg, all));
    NothingListed<T>();
  }

  lemma SomeStallSnoc<T>(cfg: Config, ops: seq<Op<T>>, op: Op<T>)
    requires SomeStall(cfg, ops)
    ensures SomeStall(cfg, ops + [op])
  {
    hide Run, StepStalls;
    assert (ops + [op])[..|ops|] == ops;
  }

  lemma NothingListed<T>()
    ensures Contents(Listing<T>([])) == []
  {
  }

  // ---------------------------------------------------------------- crash and salvage

  lemma {:induction false} HeldBound<T>(groups: seq<seq<T>>, k: nat)
    requires forall g :: g in groups ==> |g| <= k
    ensures |Flatten(groups)| <= |groups| * k
  {
    if groups != [] {
      assert groups[0] in groups;
      HeldBound(groups[1..], k);
      OneMore(|groups[1..]|, k);
    }
  }

  lemma OneMore(n: nat, k: nat)
    ensures (n + 1) * k == k + n * k
  {
  }

  /** A crash between calls keeps the sealed parts only.  With rotation on they are a prefix of the
      rows added, short of fewer than rotate_after_rowgroups * max_buffer rows while in primary mode, and of
      no more than the buffer in part mode. */
  lemma CrashAfterRun<T>(cfg: Config, ops: seq<Op<T>>)
    requires AllHarmless(cfg, ops)
    ensures Contents(Run(cfg, ops).parts) <= RowsAdded(ops)
    ensures cfg.rotateAfter > 0 && !Run(cfg, ops).partMode ==>
              |RowsAdded(ops)| - |Contents(Run(cfg, ops).parts)| < cfg.rotateAfter * cfg.Limit()
    ensures Run(cfg, ops).partMode ==> |RowsAdded(ops)| - |Contents(Run(cfg, ops).parts)| <= cfg.Limit()
  {
    hide Contents, Numbered, Distinct, Damaged, Run, RowsAdded, AllHarmless;
    JournalOfRun(cfg, ops);
    var s := Run(cfg, ops);
    HeldBound(Groups(s), cfg.Limit());
    if cfg.rotateAfter > 0 && !s.partMode {
      GroupArithmetic(|Held(s)|, |s.buffer|, |Groups(s)|, cfg.Limit(), cfg.rotateAfter);
    }
    assert Journal(s) == Contents(s.parts) + (Held(s) + s.buffer);
  }

  lemma GroupArithmetic(held: nat, buffered: nat, groups: nat, limit: nat, rotateAfter: nat)
    requires held <= groups * limit && buffered < limit && groups < rotateAfter
    ensures held + buffered < rotateAfter * limit
  {
    assert groups * limit <= (rotateAfter - 1) * limit;
  }

  /** Salvage rebuilds the daily file from the sealed parts; the open file has no footer. */
  method SalvageAfterCrash<T(!new)>(cfg: Config, ops: seq<Op<T>>, before: Option<seq<T>>) returns (daily: Option<seq<T>>)
    requires AllHarmless(cfg, ops)
    ensures Run(cfg, ops).parts == [] ==> daily == before
    ensures Run(cfg, ops).parts != [] ==>
              daily.Some? && multiset(daily.value) == multiset(Contents(Run(cfg, ops).parts))
    ensures Run(cfg, ops).parts != [] && InNameOrder(Run(cfg, ops).parts) ==>
              && daily.value <= RowsAdded(ops)
              && (cfg.rotateAfter > 0 && !Run(cfg, ops).partMode ==>
                    |RowsAdded(ops)| - |daily.value| < cfg.rotateAfter * cfg.Limit())
    ensures Run(cfg, ops).partIdx < 10_000 ==> InNameOrder(Run(cfg, ops).parts)
  {
    hide Contents, Numbered, NameAtMost, AllHarmless, Run, RowsAdded;
    var s := Run(cfg, ops);
    JournalOfRun(cfg, ops);
    CrashAfterRun(cfg, ops);
    DailyInOrder(s.parts);
    ListingKeepsRows(s.parts);
    if s.partIdx < 10_000 {
      NumberedInOrder(s.parts, s.partIdx);
    }
    var listing := Listing(s.parts);
    assert |multiset(listing)| == |listing| && |multiset(s.parts)| == |s.parts|;
    SealedPartsIntact(listing);
    var found := Map((p: Part<T>) => AsFound(p), listing);
    var rebuilt, _, _ := ConsolidateInstrument(found, before);
    daily := rebuilt;
  }

  // ---------------------------------------------------------------- runs without failures

  /** Parts are numbered without a gap, and no part and no open file is empty. */
  ghost predicate Tidy<T>(s: State<T>) {
    && Gapless(s.parts) && s.partIdx == |s.parts| && !s.partMode
    && (forall i :: 0 <= i < |s.parts| ==> s.parts[i].rows != [])
    && (s.open.Some? ==> Held(s) != [])
  }

  lemma TidyWrite<T>(cfg: Config, s: State<T>)
    requires Tidy(s) && s.buffer != []
    ensures Tidy(FineWrite(cfg, s))
  {
    hide Flatten;
    GrownHeld(s);
  }

  lemma {:induction false} TidyRun<T>(cfg: Config, ops: seq<Op<T>>)
    requires forall i :: 0 <= i < |ops| ==> ops[i].io.primary == Fine
    ensures Tidy(Run(cfg, ops))
  {
    if ops != [] {
      hide Tidy, FineWrite;
      var before, op := ops[..|ops| - 1], ops[|ops| - 1];
      TidyRun(cfg, before);
      var s := Run(cfg, before);
      TidyBuffer(s);
      assert op.io.primary == Fine;
      var t := if op.AddRow? then s.(buffer := s.buffer + [op.row]) else s;
      TidySame(s, t);
      if t.buffer != [] {
        TidyWrite(cfg, t);
        TidySame(FineWrite(cfg, t), FineWrite(cfg, t).(buffer := [], rowsWritten := t.rowsWritten + |t.buffer|));
      }
    } else {
      NothingTidy<T>();
    }
  }

  lemma NothingTidy<T>()
    ensures Tidy(Start<T>())
  {
  }

  lemma TidyBuffer<T>(s: State<T>)
    requires Tidy(s)
    ensures !s.partMode
  {
  }

  lemma TidySame<T>(s: State<T>, t: State<T>)
    requires Tidy(s) && t.open == s.open && t.parts == s.parts && t.partIdx == s.partIdx && t.partMode == s.partMode
    ensures Tidy(t)
  {
  }

  /** In a run without failures the daily file is the rows added, in order, if and only if fewer than 10,000
      parts were written (rows being distinct). */
  lemma CalmClose<T(!new)>(cfg: Config, ops: seq<Op<T>>, io: Io, before: Option<seq<T>>)
    requires io.primary == Fine && forall i :: 0 <= i < |ops| ==> ops[i].io.primary == Fine
    requires Distinct(RowsAdded(ops)) && RowsAdded(ops) != []
    ensures var s := Run(cfg, ops + [FlushNow(io)]);
            && Daily(s, before).Some? && multiset(Daily(s, before).value) == multiset(RowsAdded(ops))
            && (Daily(s, before).value == RowsAdded(ops) <==> |AllSealed(s).parts| < 10_000)
  {
    hide Run, RowsAdded, Distinct, AllHarmless, Daily, InNameOrder, Contents;
    var all := ops + [FlushNow(io)];
    assert forall i :: 0 <= i < |all| ==> all[i].io.primary == Fine;
    var s := Run(cfg, all);
    CloseAfterRun(cfg, ops, io, before);
    CalmRun(cfg, all);
    TidyRun(cfg, all);
    GaplessInOrder(AllSealed(s).parts);
  }

  // ---------------------------------------------------------------- where every batch lies

  /** What was asked for, whatever the file system does. */
  function Asked<T>(ops: seq<Op<T>>): (r: seq<Option<T>>)
    ensures |r| == |ops|
  {
    seq(|ops|, i requires 0 <= i < |ops| => if ops[i].AddRow? then Some(ops[i].row) else None)
  }

  ghost predicate PartIs<T>(part: Part<T>, batches: seq<seq<T>>, k: nat, i: nat) {
    part.no == i + 1 && k * i + k <= |batches| && part.rows == Flatten(batches[k * i..k * i + k])
  }

  /** Part i holds the i-th lot of `k` batches, and the open file the batches after the last whole lot;
      without rotation there is never a part. */
  ghost predicate LaidOut<T>(k: nat, s: State<T>, batches: seq<seq<T>>) {
    var n, p := |batches|, |s.parts|;
    && s.partIdx == p && !s.partMode && s.rowsWritten == |Flatten(batches)|
    && (if k == 0 then p == 0 else k * p <= n < k * p + k)
    && (s.open == if n == k * p then None else Some(batches[k * p..]))
    && (forall i :: 0 <= i < p ==> PartIs(s.parts[i], batches, k, i))
  }

  lemma PartKept<T>(part: Part<T>, batches: seq<seq<T>>, b: seq<T>, k: nat, i: nat)
    requires PartIs(part, batches, k, i)
    ensures PartIs(part, batches + [b], k, i)
  {
    hide Flatten;
    assert (batches + [b])[k * i..k * i + k] == batches[k * i..k * i + k];
  }

  lemma LastPart<T>(batches: seq<seq<T>>, k: nat, p: nat)
    requires |batches| == k * p + k
    ensures PartIs(Part(p + 1, Flatten(batches[k * p..])), batches, k, p)
  {
    hide Flatten;
    assert batches[k * p..] == batches[k * p..k * p + k];
  }

  lemma GrownLot<T>(k: nat, s: State<T>, batches: seq<seq<T>>)
    requires LaidOut(k, s, batches)
    ensures var more := batches + [s.buffer];
            k * |s.parts| <= |batches| && Grown(s) == s.(open := Some(more[k * |s.parts|..])) && |Groups(s)| == |batches| - k * |s.parts|
  {
    hide Flatten, PartIs;
    var at := k * |s.parts|;
    assert Groups(s) == batches[at..];
    assert (batches + [s.buffer])[at..] == batches[at..] + [s.buffer];
  }

  lemma WriteLaysOut<T>(cfg: Config, s: State<T>, batches: seq<seq<T>>)
    requires LaidOut(cfg.rotateAfter, s, batches) && s.buffer != []
    ensures LaidOut(cfg.rotateAfter, FineWrite(cfg, s).(buffer := [], rowsWritten := s.rowsWritten + |s.buffer|), batches + [s.buffer])
  {
    hide Flatten, PartIs, Grown;
    var k, p, more := cfg.rotateAfter, |s.parts|, batches + [s.buffer];
    var t := FineWrite(cfg, s).(buffer := [], rowsWritten := s.rowsWritten + |s.buffer|);
    GrownLot(k, s, batches);
    LotNext(k, p);
    FlattenSnoc(batches, s.buffer);
    forall i | 0 <= i < p ensures PartIs(s.parts[i], more, k, i) {
      PartKept(s.parts[i], batches, s.buffer, k, i);
    }
    if RotationDue(cfg, s) {
      assert |more| == k * p + k && t.parts == s.parts + [Part(p + 1, Flatten(more[k * p..]))];
      LastPart(more, k, p);
      forall i | 0 <= i < p + 1 ensures PartIs(t.parts[i], more, k, i) {
      }
    }
  }

  /** Without failures, after `n` batches: with rotation every `k` row groups there are exactly n / k parts and
      n % k open row groups, part i being batches k * (i - 1) + 1 to k * i; without rotation there is never a
      part and every batch is a row group of the open file. */
  lemma {:induction false} RotationExact<T>(cfg: Config, ops: seq<Op<T>>)
    requires forall i :: 0 <= i < |ops| ==> ops[i].io.primary == Fine
    ensures var s, c, k := Run(cfg, ops), CutOf(cfg.maxBuffer, Asked(ops)), cfg.rotateAfter;
            && LaidOut(k, s, c.batches) && s.buffer == c.rest
            && (k > 0 ==> |s.parts| == |c.batches| / k && |Groups(s)| == |c.batches| % k)
            && (k == 0 ==> s.parts == [] && Groups(s) == c.batches)
  {
    if ops != [] {
      var before, op := ops[..|ops| - 1], ops[|ops| - 1];
      RotationExact(cfg, before);
      AskedSnoc(cfg.maxBuffer, ops);
      CalmRun(cfg, before);
      assert op.io.primary == Fine;
      hide LaidOut, CutOf, Step, CutStep, Groups, AllHarmless;
      CalmStep(cfg, Run(cfg, before), op, CutOf(cfg.maxBuffer, Asked(before)));
    } else {
      NothingLaidOut<T>(cfg.rotateAfter);
    }
    Counts(cfg.rotateAfter, Run(cfg, ops), CutOf(cfg.maxBuffer, Asked(ops)).batches);
  }

  function Call<T>(op: Op<T>): Option<T> {
    if op.AddRow? then Some(op.row) else None
  }

  lemma AskedSnoc<T>(maxBuffer: int, ops: seq<Op<T>>)
    requires ops != []
    ensures CutOf(maxBuffer, Asked(ops)) == CutStep(maxBuffer, CutOf(maxBuffer, Asked(ops[..|ops| - 1])), Call(ops[|ops| - 1]))
  {
    hide CutOf;
    var before := ops[..|ops| - 1];
    assert Asked(ops) == Asked(before) + [Call(ops[|ops| - 1])];
    CutSnoc(maxBuffer, Asked(before), Call(ops[|ops| - 1]));
  }

  lemma CalmStep<T>(cfg: Config, s: State<T>, op: Op<T>, c: Cut<T>)
    requires LaidOut(cfg.rotateAfter, s, c.batches) && s.buffer == c.rest && op.io.primary == Fine && !s.partMode
    ensures var d := CutStep(cfg.maxBuffer, c, Call(op));
            LaidOut(cfg.rotateAfter, Step(cfg, s, op), d.batches) && Step(cfg, s, op).buffer == d.rest
  {
    hide LaidOut, FineWrite;
    var t := if op.AddRow? then s.(buffer := s.buffer + [op.row]) else s;
    LaidOutSame(cfg.rotateAfter, s, t, c.batches);
    if t.buffer != [] {
      WriteLaysOut(cfg, t, c.batches);
    }
  }

  lemma NothingLaidOut<T>(k: nat)
    ensures LaidOut(k, Start<T>(), [])
  {
  }

  lemma LaidOutSame<T>(k: nat, s: State<T>, t: State<T>, batches: seq<seq<T>>)
    requires LaidOut(k, s, batches) && t == s.(buffer := t.buffer)
    ensures LaidOut(k, t, batches)
  {
  }

  lemma Counts<T>(k: nat, s: State<T>, batches: seq<seq<T>>)
    requires LaidOut(k, s, batches)
    ensures k > 0 ==> |s.parts| == |batches| / k && |Groups(s)| == |batches| % k
    ensures k == 0 ==> s.parts == [] && Groups(s) == batches
  {
    hide Flatten, PartIs;
    if k > 0 {
      LotCount(|batches|, k, |s.parts|);
    } else {
      assert batches[0..] == batches;
    }
  }

  // ---------------------------------------------------------------- two harmful failures

  lemma RunSnoc<T>(cfg: Config, ops: seq<Op<T>>, op: Op<T>)
    ensures Run(cfg, ops + [op]) == Step(cfg, Run(cfg, ops), op)
    ensures RowsAdded(ops + [op]) == if op.AddRow? then RowsAdded(ops) + [op.row] else RowsAdded(ops)
    ensures AllHarmless(cfg, ops + [op]) <==> AllHarmless(cfg, ops) && StepHarmless(cfg, Run(cfg, ops), op)
    ensures Run<T>(cfg, []) == Start() && RowsAdded<T>([]) == [] && AllHarmless<T>(cfg, [])
  {
    assert (ops + [op])[..|ops|] == ops;
    assert RowsAdded(ops) + [] == RowsAdded(ops);
  }

  lemma FirstGroup<T>(x: T)
    ensures var s := State([x], None, [], 0, false, false, false, 0);
            Grown(s) == s.(open := Some([[x]])) && Held(Grown(s)) == [x] && Groups(s) == []
  {
    var s := State([x], None, [], 0, false, false, false, 0);
    assert Groups(s) + [[x]] == [[x]];
    FlattenOne([x]);
  }

  lemma SyncRepeats<T>(x: T)
    ensures var cfg, io, s := Config(1, 0), Io(SyncFails, true, Promoted, Done, true), State([x], None, [], 0, false, false, false, 0);
            Flushed(cfg, s, io) == State([], None, [Part(1, [x]), Part(2, [x])], 2, true, false, true, 1) && !Harmless(cfg, s, io)
  {
    hide Flatten, Grown, Held;
    var s := State([x], None, [], 0, false, false, false, 0);
    FirstGroup(x);
    assert [] + [Part(1, [x])] == [Part(1, [x])];
    assert [Part(1, [x])] + [Part(2, [x])] == [Part(1, [x]), Part(2, [x])];
  }

  lemma FirstStep<T>(x: T, io: Io)
    ensures var cfg, s := Config(1, 0), State([x], None, [], 0, false, false, false, 0);
            && Step(cfg, Start<T>(), AddRow(x, io)) == Flushed(cfg, s, io)
            && StepHarmless(cfg, Start<T>(), AddRow(x, io)) == Harmless(cfg, s, io)
  {
    hide Flushed, Harmless;
    assert Start<T>().buffer + [x] == [x];
  }

  /** A batch that reached the open file before the sync failed is promoted with it and written again. */
  lemma RepeatedRow<T>(x: T)
    ensures var cfg, io := Config(1, 0), Io(SyncFails, true, Promoted, Done, true);
            !AllHarmless(cfg, [AddRow(x, io)]) && Daily(Run(cfg, [AddRow(x, io)]), None) == Some([x, x])
  {
    hide Run, AllHarmless, RowsAdded, Contents, Listing, Flushed, Harmless, Step, StepHarmless;
    var cfg, io := Config(1, 0), Io(SyncFails, true, Promoted, Done, true);
    RunSnoc(cfg, [], AddRow(x, io));
    assert [] + [AddRow(x, io)] == [AddRow(x, io)];
    FirstStep(x, io);
    SyncRepeats(x);
    TwoParts([x], [x]);
    assert [x] + [x] == [x, x];
  }

  lemma FlattenOne<T>(g: seq<T>)
    ensures Flatten([g]) == g
  {
    assert Flatten([g]) == g + Flatten<T>([]);
  }

  lemma TwoParts<T>(a: seq<T>, b: seq<T>)
    ensures Contents(Listing([Part(1, a), Part(2, b)])) == a + b
  {
    var parts := [Part(1, a), Part(2, b)];
    NameOrder(1, 2);
    hide PartName;
    SortOfSorted(parts, ByName());
    assert parts[..1] == [Part(1, a)] && parts[..1][..0] == [];
    assert Contents(parts[..1]) == [] + a;
  }

  /** A write that fails on a file that cannot be closed loses the row groups already in it. */
  lemma LostGroups<T>(x: T, y: T)
    ensures var cfg := Config(1, 0);
            var ops := [AddRow(x, Io(Fine, true, Promoted, Done, true)), AddRow(y, Io(WriteFails, true, GivenUp, Done, true))];
            !AllHarmless(cfg, ops) && RowsAdded(ops) == [x, y] && Daily(Run(cfg, ops), None) == Some([y])
  {
    hide Run, AllHarmless, RowsAdded, Contents, Listing, Flushed, Harmless;
    var cfg, fine, bad := Config(1, 0), Io(Fine, true, Promoted, Done, true), Io(WriteFails, true, GivenUp, Done, true);
    RunSnoc(cfg, [], AddRow(x, fine));
    assert [] + [AddRow(x, fine)] == [AddRow(x, fine)] && [] + [x] == [x] && [] + [y] == [y];
    RunSnoc(cfg, [AddRow(x, fine)], AddRow(y, bad));
    assert [AddRow(x, fine)] + [AddRow(y, bad)] == [AddRow(x, fine), AddRow(y, bad)] && [x] + [y] == [x, y];
    FineFirst(x);
    FailedSecond(x, y);
    OnePart([y]);
  }

  lemma FineFirst<T>(x: T)
    ensures Flushed(Config(1, 0), State([x], None, [], 0, false, false, false, 0), Io(Fine, true, Promoted, Done, true))
         == State([], Some([[x]]), [], 0, false, false, false, 1)
  {
    hide Flatten, Grown, Held;
    FirstGroup(x);
  }

  lemma FailedSecond<T>(x: T, y: T)
    ensures var cfg, io, s := Config(1, 0), Io(WriteFails, true, GivenUp, Done, true), State([y], Some([[x]]), [], 0, false, false, false, 1);
            Flushed(cfg, s, io) == State([], None, [Part(1, [y])], 1, true, false, true, 2) && !Harmless(cfg, s, io)
  {
    FlattenOne([x]);
    hide Flatten;
    assert [] + [Part(1, [y])] == [Part(1, [y])];
  }

  lemma OnePart<T>(a: seq<T>)
    ensures Contents(Listing([Part(1, a)])) == a
  {
    var parts := [Part(1, a)];
    SortOfSorted(parts, ByName());
    assert parts[..0] == [];
    assert Contents(parts) == [] + a;
  }

  // ---------------------------------------------------------------- the writer object

  class InstrumentWriter<T> {
    const cfg: Config
    var buffer: seq<T>
    var open: Option<seq<seq<T>>>
    var rowgroups: nat
    var parts: seq<Part<T>>
    var partIdx: nat
    var partMode: bool
    var rotated: bool
    var dirMade: bool
    var closed: bool
    var rowsWritten: nat
    var daily: Option<seq<T>>

    /** An open file left behind in part mode is never used again. */
    function View(): State<T>
      reads this
    {
      State(buffer, if partMode then None else open, parts, partIdx, partMode, rotated, dirMade, rowsWritten)
    }

    ghost predicate Valid()
      reads this
    {
      open.Some? ==> rowgroups == |open.value|
    }

    constructor (cfg: Config, daily: Option<seq<T>>)
      ensures Valid() && View() == Start() && !closed && this.cfg == cfg && this.daily == daily
    {
      this.cfg, this.daily := cfg, daily;
      buffer, open, rowgroups, parts, partIdx := [], None, 0, [], 0;
      partMode, rotated, dirMade, closed, rowsWritten := false, false, false, false, 0;
    }

    method Add(row: T, io: Io) returns (raised: bool)
      requires Valid()
      modifies this
      ensures Valid() && View() == Added(cfg, old(View()), row, io) && closed == old(closed) && daily == old(daily)
      ensures var t := old(View()).(buffer := old(buffer) + [row]);
              raised == (|t.buffer| >= cfg.maxBuffer && Stalls(cfg, t, io))
    {
      buffer := buffer + [row];
      raised := false;
      if |buffer| >= cfg.maxBuffer {
        raised := Flush(io);
      }
    }

    method Flush(io: Io) returns (raised: bool)
      requires Valid()
      modifies this
      ensures Valid() && View() == Flushed(cfg, old(View()), io) && closed == old(closed) && daily == old(daily)
      ensures raised == Stalls(cfg, old(View()), io)
    {
      if buffer == [] {
        return false;
      }
      hide Written, Stalled;
      raised := WriteBuffer(io);
      if !raised {
        rowsWritten := rowsWritten + |buffer|;
        buffer := [];
      }
    }

    /** The `try` and `except` of a flush. */
    method WriteBuffer(io: Io) returns (raised: bool)
      requires Valid() && buffer != []
      modifies this
      ensures Valid() && raised == Stalls(cfg, old(View()), io)
      ensures View() == if raised then Stalled(cfg, old(View()), io) else Written(cfg, old(View()), io)
      ensures unchanged(`buffer, `rowsWritten, `closed, `daily)
    {
      hide AfterFailure, FineWrite, PartWrite, Fallback, Flatten, Contents;
      var failed: bool;
      raised := false;
      if partMode {
        failed := FlushPart(buffer, io.part);
      } else {
        ghost var s := View();
        failed := FlushPrimary(buffer, io);
        if failed {
          AfterFailureKeeps(s, Outcome(cfg, s, io));
          raised := EnterPartMode(io);
          if raised {
            return;
          }
        }
      }
      if failed {
        var _ := FlushPart(buffer, if io.retryOk then Done else Lost);
      }
    }

    method FlushPart(batch: seq<T>, write: Write) returns (failed: bool)
      modifies `parts, `partIdx
      ensures View() == PartWrite(old(View()), batch, write.Landed()) && failed == !(write == Done && dirMade)
    {
      partIdx := partIdx + 1;
      if !dirMade {
        return true;
      }
      if write.Landed() {
        parts := parts + [Part(partIdx, batch)];
      }
      failed := write != Done;
    }

    /** Writes the batch as one row group of the primary file, and rotates when due. */
    method FlushPrimary(batch: seq<T>, io: Io) returns (failed: bool)
      requires Valid() && !partMode && batch == buffer
      modifies this
      ensures Valid() && unchanged(`buffer, `rowsWritten, `closed, `daily, `partMode)
      ensures failed == (old(Outcome(cfg, View(), io)) != Fine)
      ensures var s := old(View());
              View() == if failed then AfterFailure(s, Outcome(cfg, s, io)) else FineWrite(cfg, s)
    {
      hide Flatten, Rotated, Sealed, Held;
      ghost var s := View();
      if open.None? {
        if io.primary == OpenFails {
          return true;
        }
        open, rowgroups := Some([]), 0;
      }
      if io.primary == WriteFails {
        return true;
      }
      open := Some(open.value + [batch]);
      if io.primary == SyncFails {
        rowgroups := rowgroups + 1;
        return true;
      }
      rowgroups := rowgroups + 1;
      if cfg.rotateAfter > 0 && rowgroups >= cfg.rotateAfter {
        assert RotationDue(cfg, s) && View() == Grown(s);
        RotatedGrown(cfg, s, io.primary);
        failed := RotatePrimary(io.primary);
      } else {
        failed := false;
      }
    }

    /** Closes the open file and renames it to the next part. */
    method RotatePrimary(p: Primary) returns (failed: bool)
      requires Valid() && open.Some? && !partMode
      modifies this
      ensures Valid() && (p != SyncFails ==> open.None?) && unchanged(`buffer, `rowsWritten, `closed, `daily, `partMode)
      ensures failed == (p == SyncFails || RaisesInRotation(p))
      ensures View() == Rotated(old(View()), p)
    {
      if p == SyncFails {
        return true;
      }
      dirMade := true;
      var rows := Flatten(open.value);
      open, rowgroups := None, 0;
      if p == SealFails {
        return true;
      }
      partIdx := partIdx + 1;
      if p == ReplaceFails {
        return true;
      }
      parts := parts + [Part(partIdx, rows)];
      if p == SealSyncFails {
        return true;
      }
      rotated := true;
      failed := false;
    }

    method EnterPartMode(io: Io) returns (raised: bool)
      requires Valid() && !partMode
      modifies this
      ensures Valid() && raised == (!old(dirMade) && !io.dirOk)
      ensures View() == if raised then old(View()).(open := None, partMode := true) else Fallback(old(View()), io.promotion)
      ensures unchanged(`buffer, `rowsWritten, `closed, `daily)
    {
      partMode := true;
      if !dirMade && !io.dirOk {
        return true;
      }
      dirMade := true;
      if open.Some? {
        if io.promotion != GivenUp {
          partIdx := partIdx + 1;
          if io.promotion == Promoted {
            parts := parts + [Part(partIdx, Flatten(open.value))];
          }
        }
        open := None;
      }
      raised := false;
    }

    /** Makes the daily file out of everything flushed.  `seal` is how a last rotation ends, `final` how the
        daily file is written.  Whatever raises leaves the writer not closed, and the old daily file unless
        the new one was already in place. */
    method Close(io: Io, seal: Primary, final: Write) returns (raised: bool)
      requires Valid()
      modifies this
      ensures old(closed) ==> !raised && closed && daily == old(daily) && View() == old(View())
      ensures !old(closed) ==> closed == !raised
      ensures !old(closed) ==>
                raised == (SealRaises(cfg, old(View()), io, seal)
                           || (final != Done && WritesDaily(Flushed(cfg, old(View()), io), old(daily))))
      ensures !old(closed) ==>
                daily == if SealRaises(cfg, old(View()), io, seal) || final == Lost then old(daily)
                         else Daily(Flushed(cfg, old(View()), io), old(daily))
    {
      hide Flushed, Stalls, Daily, WritesDaily, RotationRaises;
      if closed {
        return false;
      }
      raised := Flush(io);
      if raised {
        return;
      }
      var gathered: Option<seq<T>>;
      raised, gathered := Gather(seal);
      if raised {
        return;
      }
      if gathered.Some? {
        if final.Landed() {
          daily := gathered;
        }
        raised := final != Done;
      }
      closed := !raised;
    }

    /** The rows of the new daily file, if one is to be written. */
    method Gather(seal: Primary) returns (raised: bool, rows: Option<seq<T>>)
      requires Valid()
      modifies this
      ensures unchanged(`closed, `daily) && raised == RotationRaises(old(View()), seal)
      ensures !raised ==> if WritesDaily(old(View()), daily) then rows.Some? && rows == Daily(old(View()), daily) else rows == None
      ensures !WritesDaily(old(View()), daily) ==> Daily(old(View()), daily) == daily
    {
      hide Contents, Listing;
      raised, rows := false, None;
      if partMode || rotated {
        if !partMode && open.Some? {
          raised := RotatePrimary(seal);
          if raised {
            return;
          }
        }
        var merged := ConsolidateParts(parts);
        rows := Some(merged);
      } else if open.Some? {
        rows := Some(Flatten(open.value));
        open := None;
      } else if daily.None? || daily.value == [] {
        rows := Some([]);
      }
    }
  }

  lemma AfterFailureKeeps<T>(s: State<T>, outcome: Primary)
    ensures var t := AfterFailure(s, outcome);
            t.partMode == s.partMode && t.rotated == s.rotated && t.dirMade == (s.dirMade || RaisesInRotation(outcome))
  {
  }

  /** Closing raises before it comes to the daily file: the flush stalls, or the last rotation raises. */
  predicate SealRaises<T>(cfg: Config, s: State<T>, io: Io, seal: Primary) {
    Stalls(cfg, s, io) || RotationRaises(Flushed(cfg, s, io), seal)
  }

  predicate RotationRaises<T>(s: State<T>, seal: Primary) {
    !s.partMode && s.rotated && s.open.Some? && (seal == SyncFails || RaisesInRotation(seal))
  }

  /** Closing leaves a daily file with rows alone only if nothing was written. */
  predicate WritesDaily<T>(s: State<T>, before: Option<seq<T>>) {
    s.partMode || s.rotated || s.open.Some? || before.None? || before.value == []
  }
}
