/**
 * Part files: their names and the order names sort in, streaming consolidation, and salvage
 * (orderflow_engine/recorder/writer.py, orderflow_engine/recorder/salvage.py).  A file is the
 * sequence of its rows; an atomic write either leaves the whole file or nothing.
 */
module PartFiles {
  import opened Seqs

  const CONSOLIDATE_BATCH_ROWS: nat := 65_536

  // ----------------------------------------------------------------- part names

  function Digits(n: nat): (s: string)
    ensures s != []
  {
    var d := ['0' + (n % 10) as char];
    if n < 10 then d else Digits(n / 10) + d
  }

  /** `f"{n:04d}"` */
  function Padded(n: nat): string {
    (if n < 10 then "000" else if n < 100 then "00" else if n < 1000 then "0" else "") + Digits(n)
  }

  /** `f"part-{n:04d}.parquet"` */
  function PartName(n: nat): string {
    "part-" + (Padded(n) + ".parquet")
  }

  /** Python's order on strings. */
  predicate StrLess(s: string, t: string) {
    t != [] && (s == [] || s[0] < t[0] || (s[0] == t[0] && StrLess(s[1..], t[1..])))
  }

  lemma {:induction false} StrLessPrefix(p: string, s: string, t: string)
    ensures StrLess(p + s, p + t) == StrLess(s, t)
  {
    if p == [] {
      assert p + s == s && p + t == t;
    } else {
      StrLessPrefix(p[1..], s, t);
      assert (p + s)[1..] == p[1..] + s && (p + t)[1..] == p[1..] + t;
    }
  }

  function Digit(d: nat): char
    requires d < 10
  {
    '0' + d as char
  }

  /** The four digits a part number below 10,000 is written with. */
  function FourDigits(n: nat): (s: string)
    requires n < 10_000
    ensures |s| == 4
  {
    [Digit(n / 1000), Digit(n / 100 % 10), Digit(n / 10 % 10), Digit(n % 10)]
  }

  lemma PaddedDigits(n: nat)
    requires n < 10_000
    ensures Padded(n) == FourDigits(n)
  {
    hide Digits;
    DigitsStep(n);
    DigitsStep(n / 10);
    DigitsStep(n / 100);
    DigitsStep(n / 1000);
  }

  lemma DigitsStep(n: nat)
    ensures Digits(n) == (if n < 10 then [] else Digits(n / 10)) + [Digit(n % 10)]
  {
  }

  lemma Decimal(n: nat)
    requires n < 10_000
    ensures n == 1000 * (n / 1000) + 100 * (n / 100 % 10) + 10 * (n / 10 % 10) + n % 10
  {
    assert n / 10 / 10 == n / 100 && n / 100 / 10 == n / 1000;
  }

  lemma FourDigitsOrder(i: nat, j: nat)
    requires i < j < 10_000
    ensures exists k :: 0 <= k < 4 && FourDigits(i)[..k] == FourDigits(j)[..k] && FourDigits(i)[k] < FourDigits(j)[k]
  {
    var a, b := FourDigits(i), FourDigits(j);
    Decimal(i);
    Decimal(j);
    var k: nat := if a[0] != b[0] then 0 else if a[1] != b[1] then 1 else if a[2] != b[2] then 2 else 3;
    assert a[..k] == b[..k];
    assert a[k] < b[k];
  }

  lemma StrLessAt(s: string, t: string, k: nat)
    requires k < |s| && k < |t| && s[..k] == t[..k] && s[k] < t[k]
    ensures StrLess(s, t)
  {
    assert s == s[..k] + s[k..] && t == t[..k] + t[k..];
    StrLessPrefix(s[..k], s[k..], t[k..]);
  }

  lemma NameOrder(i: nat, j: nat)
    requires i < j < 10_000
    ensures StrLess(PartName(i), PartName(j)) && !StrLess(PartName(j), PartName(i))
  {
    PaddedDigits(i);
    PaddedDigits(j);
    FourDigitsOrder(i, j);
    var a, b := FourDigits(i), FourDigits(j);
    var k :| 0 <= k < 4 && a[..k] == b[..k] && a[k] < b[k];
    assert (a + ".parquet")[..k] == a[..k] && (b + ".parquet")[..k] == b[..k];
    StrLessAt(a + ".parquet", b + ".parquet", k);
    StrLessPrefix("part-", a + ".parquet", b + ".parquet");
    StrLessAsymmetric(PartName(i), PartName(j));
  }

  lemma {:induction false} StrLessAsymmetric(s: string, t: string)
    requires StrLess(s, t)
    ensures !StrLess(t, s)
  {
    if s != [] && s[0] == t[0] {
      StrLessAsymmetric(s[1..], t[1..]);
    }
  }

  lemma NameOrderBreaks()
    ensures StrLess(PartName(10_000), PartName(9_999))
  {
    hide Digits;
    DigitsStep(10_000);
    DigitsStep(1_000);
    DigitsStep(100);
    DigitsStep(10);
    DigitsStep(1);
    PaddedDigits(9_999);
    var s, t := Padded(10_000) + ".parquet", Padded(9_999) + ".parquet";
    assert s[0] == '1' && t[0] == '9';
    StrLessAt(s, t, 0);
    StrLessPrefix("part-", s, t);
  }

  /** Parts 1..n sort by file name into numeric order exactly when there are fewer than 10,000. */
  lemma NamesInOrder(n: nat)
    ensures (forall i, j :: 1 <= i < j <= n ==> StrLess(PartName(i), PartName(j))) <==> n < 10_000
  {
    if n < 10_000 {
      forall i, j | 1 <= i < j <= n ensures StrLess(PartName(i), PartName(j)) {
        NameOrder(i, j);
      }
    } else {
      NameOrderBreaks();
      StrLessAsymmetric(PartName(10_000), PartName(9_999));
    }
  }

  // ---------------------------------------------------------- a parts directory

  datatype Part<T> = Part(no: nat, rows: seq<T>)

  /** How writing a file and renaming it into place ends. */
  datatype Write =
    | Done
    | Lost        // raises before the rename: the file is not there
    | Unsynced    // raises after the rename: the file is there
  {
    predicate Landed() {
      !Lost?
    }
  }

  predicate NameAtMost<T>(p: Part<T>, q: Part<T>) {
    !StrLess(PartName(q.no), PartName(p.no))
  }

  /** `sorted(parts_dir.glob("part-*.parquet"))` */
  function Listing<T>(parts: seq<Part<T>>): (r: seq<Part<T>>)
    ensures multiset(r) == multiset(parts)
  {
    Sort(parts, ByName())
  }

  function ByName<T>(): (Part<T>, Part<T>) -> bool {
    (p: Part<T>, q: Part<T>) => NameAtMost(p, q)
  }

  function Contents<T>(parts: seq<Part<T>>): seq<T> {
    if parts == [] then [] else Contents(parts[..|parts| - 1]) + parts[|parts| - 1].rows
  }

  lemma ContentsSnoc<T>(parts: seq<Part<T>>, p: Part<T>)
    ensures Contents(parts + [p]) == Contents(parts) + p.rows
  {
    assert (parts + [p])[..|parts|] == parts;
  }

  lemma {:induction false} ContentsConcat<T>(parts: seq<Part<T>>, more: seq<Part<T>>)
    ensures Contents(parts + more) == Contents(parts) + Contents(more)
  {
    if more == [] {
      assert parts + more == parts;
    } else {
      var n := |more| - 1;
      ContentsConcat(parts, more[..n]);
      assert parts + more == (parts + more[..n]) + [more[n]];
      ContentsSnoc(parts + more[..n], more[n]);
      Associative(Contents(parts), Contents(more[..n]), more[n].rows);
    }
  }

  /** Numbered in the order they were written. */
  ghost predicate Numbered<T>(parts: seq<Part<T>>, last: nat) {
    && (forall i, j :: 0 <= i < j < |parts| ==> parts[i].no < parts[j].no)
    && (forall i :: 0 <= i < |parts| ==> parts[i].no <= last)
  }

  lemma {:induction false} StrLessTotal(x: string, y: string, z: string)
    ensures StrLess(x, z) ==> StrLess(x, y) || StrLess(y, z)
  {
    if x != [] && y != [] && z != [] && x[0] == y[0] == z[0] {
      StrLessTotal(x[1..], y[1..], z[1..]);
    }
  }

  lemma ByNameOrders<T(!new)>()
    ensures TotalPreorder(ByName<T>())
  {
    forall p: Part<T>, q: Part<T> ensures NameAtMost(p, q) || NameAtMost(q, p) {
      if StrLess(PartName(q.no), PartName(p.no)) {
        StrLessAsymmetric(PartName(q.no), PartName(p.no));
      }
    }
    forall p: Part<T>, q: Part<T>, r: Part<T> | NameAtMost(p, q) && NameAtMost(q, r) ensures NameAtMost(p, r) {
      StrLessTotal(PartName(r.no), PartName(q.no), PartName(p.no));
    }
  }

  /** The names of the parts that hold rows sort in the order of writing. */
  ghost predicate InNameOrder<T>(parts: seq<Part<T>>) {
    forall i, j :: 0 <= i < j < |parts| && parts[i].rows != [] && parts[j].rows != [] ==> NameAtMost(parts[i], parts[j])
  }

  /** Sorting by name restores the order of writing exactly when the names are in that order. */
  lemma ListingInOrder<T(!new)>(parts: seq<Part<T>>)
    ensures Listing(parts) == parts <==> forall i, j :: 0 <= i < j < |parts| ==> NameAtMost(parts[i], parts[j])
  {
    ByNameOrders<T>();
    SortedIff(parts, ByName());
  }

  /** Below 10,000 part numbers the names are in order whatever numbers are missing. */
  lemma NumberedInOrder<T>(parts: seq<Part<T>>, last: nat)
    requires Numbered(parts, last) && last < 10_000
    ensures forall i, j :: 0 <= i < j < |parts| ==> NameAtMost(parts[i], parts[j])
    ensures InNameOrder(parts)
  {
    forall i, j | 0 <= i < j < |parts| ensures NameAtMost(parts[i], parts[j]) {
      NameOrder(parts[i].no, parts[j].no);
    }
  }

  ghost predicate Gapless<T>(parts: seq<Part<T>>) {
    forall i :: 0 <= i < |parts| ==> parts[i].no == i + 1
  }

  /** With no number missing they are in order exactly below 10,000 parts. */
  lemma GaplessInOrder<T>(parts: seq<Part<T>>)
    requires Gapless(parts) && forall i :: 0 <= i < |parts| ==> parts[i].rows != []
    ensures InNameOrder(parts) <==> |parts| < 10_000
  {
    if |parts| < 10_000 {
      NumberedInOrder(parts, |parts|);
    } else {
      NameOrderBreaks();
      assert parts[9_998].no == 9_999 && parts[9_999].no == 10_000;
      assert !NameAtMost(parts[9_998], parts[9_999]);
    }
  }

  // ---------------------------------------------------------- the daily file's order

  predicate HasRows<T>(p: Part<T>) {
    p.rows != []
  }

  function Filled<T>(parts: seq<Part<T>>): seq<Part<T>> {
    Filter(parts, Full())
  }

  lemma ContentsCons<T>(p: Part<T>, parts: seq<Part<T>>)
    ensures Contents([p] + parts) == p.rows + Contents(parts)
  {
    ContentsConcat([p], parts);
    assert [p][..0] == [];
  }

  lemma {:induction false} ContentsFilled<T>(parts: seq<Part<T>>)
    ensures Contents(Filled(parts)) == Contents(parts)
  {
    if parts != [] {
      hide Contents, Filter;
      var p, t := parts[0], parts[1..];
      ContentsFilled(t);
      assert parts == [p] + t;
      ContentsCons(p, t);
      ContentsCons(p, Filled(t));
      FilterCons(p, t, Full<T>());
      assert [] + Contents(t) == Contents(t);
    } else {
      assert Filled(parts) == parts;
    }
  }

  function Full<T>(): Part<T> -> bool {
    (p: Part<T>) => HasRows(p)
  }

  lemma {:induction false} ContentsMember<T>(parts: seq<Part<T>>, p: Part<T>, x: T)
    requires p in parts && x in p.rows
    ensures x in Contents(parts)
  {
    var n := |parts| - 1;
    assert parts == parts[..n] + [parts[n]];
    if p != parts[n] {
      ContentsMember(parts[..n], p, x);
    }
  }

  lemma FirstRowOnce<T>(b: Part<T>, t: seq<Part<T>>, x: T)
    requires b.rows != [] && Distinct(Contents([b] + t)) && x == b.rows[0]
    ensures x !in Contents(t)
  {
    ContentsCons(b, t);
    assert Contents([b] + t)[0] == x;
    forall k | 0 <= k < |Contents(t)| ensures Contents(t)[k] != x {
      assert Contents([b] + t)[|b.rows| + k] == Contents(t)[k];
    }
  }

  /** With distinct rows the first part is known by its first row. */
  lemma SameFirst<T>(a: seq<Part<T>>, b: seq<Part<T>>)
    requires a != [] && b != [] && a[0] in b && a[0].rows != [] && b[0].rows != []
    requires Contents(a) == Contents(b) && Distinct(Contents(b))
    ensures a[0] == b[0]
  {
    hide Contents, Distinct;
    var t := b[1..];
    assert a == [a[0]] + a[1..] && b == [b[0]] + t;
    ContentsCons(a[0], a[1..]);
    ContentsCons(b[0], t);
    var x := a[0].rows[0];
    assert Contents(a)[0] == x && Contents(b)[0] == b[0].rows[0];
    FirstRowOnce(b[0], t, x);
    if a[0] in t {
      ContentsMember(t, a[0], x);
    }
  }

  ghost predicate AllFull<T>(parts: seq<Part<T>>) {
    forall p :: p in parts ==> HasRows(p)
  }

  lemma FullFirst<T>(parts: seq<Part<T>>)
    requires AllFull(parts) && parts != []
    ensures HasRows(parts[0])
  {
    assert parts[0] in parts;
  }

  lemma FullTail<T>(p: Part<T>, parts: seq<Part<T>>)
    requires AllFull([p] + parts)
    ensures AllFull(parts)
  {
    assert forall q :: q in parts ==> q in [p] + parts;
  }

  lemma DistinctTail<T>(s: seq<T>, t: seq<T>)
    requires Distinct(s + t)
    ensures Distinct(t)
  {
    assert forall i :: 0 <= i < |t| ==> t[i] == (s + t)[|s| + i];
  }

  lemma SameRest<T>(x: seq<T>, s: seq<T>, t: seq<T>)
    requires x + s == x + t
    ensures s == t
  {
    assert (x + s)[|x|..] == s && (x + t)[|x|..] == t;
  }

  lemma {:induction false} ContentsDetermine<T>(a: seq<Part<T>>, b: seq<Part<T>>)
    requires multiset(a) == multiset(b) && Contents(a) == Contents(b) && Distinct(Contents(b)) && AllFull(a) && AllFull(b)
    ensures a == b
  {
    assert |a| == |multiset(a)| && |b| == |multiset(b)|;
    if a != [] {
      hide Contents, Distinct, AllFull;
      FullFirst(a);
      FullFirst(b);
      assert a[0] in multiset(b);
      SameFirst(a, b);
      var s, t := a[1..], b[1..];
      assert a == [a[0]] + s && b == [b[0]] + t;
      ContentsCons(a[0], s);
      ContentsCons(b[0], t);
      TailBag(a[0], s, t);
      SameRest(a[0].rows, Contents(s), Contents(t));
      DistinctTail(b[0].rows, Contents(t));
      FullTail(a[0], s);
      FullTail(b[0], t);
      ContentsDetermine(s, t);
    }
  }

  lemma FilledFull<T>(parts: seq<Part<T>>)
    ensures AllFull(Filled(parts)) && AllFull(Sort(Filled(parts), ByName()))
  {
    forall p | p in Filled(parts) ensures HasRows(p) {
      FilterMember(parts, Full(), p);
    }
    forall p | p in Sort(Filled(parts), ByName()) ensures HasRows(p) {
      SortMember(Filled(parts), ByName(), p);
    }
  }

  lemma InNameOrderIff<T>(parts: seq<Part<T>>)
    ensures InNameOrder(parts) <==> Sorted(Filled(parts), ByName())
  {
    hide NameAtMost;
    FilterSorted(parts, ByName<T>(), Full<T>());
    if InNameOrder(parts) {
      forall i, j | 0 <= i < j < |parts| && Full<T>()(parts[i]) && Full<T>()(parts[j]) ensures ByName<T>()(parts[i], parts[j]) {
      }
    }
  }

  /** The daily file is in the order of writing if and only if the names are. */
  lemma DailyInOrder<T(!new)>(parts: seq<Part<T>>)
    ensures InNameOrder(parts) ==> Contents(Listing(parts)) == Contents(parts)
    ensures Distinct(Contents(parts)) && Contents(Listing(parts)) == Contents(parts) ==> InNameOrder(parts)
  {
    hide Contents, Sort, Filter, InNameOrder, TotalPreorder, Sorted, ByName, Full, Distinct, AllFull;
    ByNameOrders<T>();
    FilterSort(parts, ByName(), Full());
    ContentsFilled(parts);
    ContentsFilled(Listing(parts));
    var q := Filled(parts);
    SortedIff(q, ByName());
    InNameOrderIff(parts);
    FilledFull(parts);
    if Distinct(Contents(parts)) && Contents(Listing(parts)) == Contents(parts) {
      ContentsDetermine(Sort(q, ByName()), q);
    }
  }

  ghost function Holding<T>(x: T): Part<T> -> int {
    (p: Part<T>) => multiset(p.rows)[x]
  }

  lemma {:induction false} ContentsIsFold<T>(s: seq<Part<T>>, x: T)
    ensures multiset(Contents(s))[x] == Fold(s, Holding(x), Add, 0)
  {
    if s != [] {
      ContentsIsFold(s[..|s| - 1], x);
    }
  }

  lemma ContentsPermuted<T>(s: seq<Part<T>>, t: seq<Part<T>>)
    requires multiset(s) == multiset(t)
    ensures multiset(Contents(s)) == multiset(Contents(t))
  {
    hide Contents, Fold;
    var a, b := multiset(Contents(s)), multiset(Contents(t));
    AddCommutes();
    forall x | x in a || x in b ensures a[x] == b[x] {
      ContentsIsFold(s, x);
      ContentsIsFold(t, x);
      FoldPermuted(s, t, Holding(x), Add, 0);
    }
    SameBag(a, b);
  }

  /** Consolidation never loses or invents a row, however many parts there are. */
  lemma ListingKeepsRows<T>(parts: seq<Part<T>>)
    ensures multiset(Contents(Listing(parts))) == multiset(Contents(parts))
  {
    ContentsPermuted(Listing(parts), parts);
  }

  // ---------------------------------------------------- streaming consolidation

  /** A part as the reader delivers it: unreadable, or batch by batch. */
  datatype Stored<T> = Unreadable | Readable(batches: seq<seq<T>>)

  function ReadableRows<T>(parts: seq<Stored<T>>): seq<T> {
    if parts == [] then []
    else
      var n := |parts| - 1;
      ReadableRows(parts[..n]) + (if parts[n].Readable? then Flatten(parts[n].batches) else [])
  }

  function UnreadableAt<T>(parts: seq<Stored<T>>): (r: seq<nat>)
    ensures forall i :: i in r <==> 0 <= i < |parts| && parts[i].Unreadable?
  {
    if parts == [] then []
    else
      var n := |parts| - 1;
      assert forall i :: 0 <= i < n ==> parts[..n][i] == parts[i];
      UnreadableAt(parts[..n]) + (if parts[n].Unreadable? then [n] else [])
  }

  predicate Healthy<T>(g: seq<T>) {
    65_536 <= |g| < 131_072
  }

  /** Every row of every readable part once, in order; every row group but the last holds 65,536 to
      131,071 rows; unreadable parts are handed to `on_unreadable`. */
  method StreamConsolidate<T>(parts: seq<Stored<T>>) returns (groups: seq<seq<T>>, rows: nat, skipped: seq<nat>)
    requires forall i, b :: 0 <= i < |parts| && parts[i].Readable? && b in parts[i].batches ==> |b| <= CONSOLIDATE_BATCH_ROWS
    ensures Flatten(groups) == ReadableRows(parts)
    ensures rows == |ReadableRows(parts)|
    ensures skipped == UnreadableAt(parts)
    ensures forall k :: 0 <= k < |groups| - 1 ==> Healthy(groups[k])
    ensures groups != [] ==> 0 < |groups[|groups| - 1]| < 131_072
  {
    hide Buffered, Flatten, ReadableRows, UnreadableAt;
    groups, rows, skipped := [], 0, [];
    var buf: seq<seq<T>> := [];
    NothingBuffered<T>();
    for i := 0 to |parts|
      invariant Flatten(groups) + Flatten(buf) == ReadableRows(parts[..i])
      invariant Buffered(groups, rows, buf)
      invariant skipped == UnreadableAt(parts[..i])
    {
      ReadSnoc(parts, i);
      if parts[i].Unreadable? {
        skipped := skipped + [i];
      } else {
        groups, rows, buf := CopyPart(parts[i].batches, groups, rows, buf);
      }
    }
    assert parts[..|parts|] == parts;
    groups, rows := FlushRest(groups, rows, buf);
  }

  lemma ReadSnoc<T>(parts: seq<Stored<T>>, i: nat)
    requires i < |parts|
    ensures ReadableRows(parts[..i + 1]) == if parts[i].Readable? then ReadableRows(parts[..i]) + Flatten(parts[i].batches) else ReadableRows(parts[..i])
    ensures UnreadableAt(parts[..i + 1]) == if parts[i].Readable? then UnreadableAt(parts[..i]) else UnreadableAt(parts[..i]) + [i]
  {
    assert parts[..i + 1][..i] == parts[..i];
  }

  lemma NothingBuffered<T>()
    ensures Buffered<T>([], 0, []) && Flatten<T>([]) == [] && ReadableRows<T>([]) == [] && UnreadableAt<T>([]) == []
  {
  }

  method FlushRest<T>(groups0: seq<seq<T>>, rows0: nat, buf: seq<seq<T>>) returns (groups: seq<seq<T>>, rows: nat)
    requires Buffered(groups0, rows0, buf)
    ensures Flatten(groups) == Flatten(groups0) + Flatten(buf) && rows == |Flatten(groups)|
    ensures forall k :: 0 <= k < |groups| - 1 ==> Healthy(groups[k])
    ensures groups != [] ==> 0 < |groups[|groups| - 1]| < 131_072
  {
    groups, rows := groups0, rows0;
    if buf != [] {
      var table := Flatten(buf);
      FlattenSnoc(groups, table);
      groups, rows := groups + [table], rows + |table|;
    }
  }

  /** The inner loop: one readable part's batches. */
  method CopyPart<T>(batches: seq<seq<T>>, groups0: seq<seq<T>>, rows0: nat, buf0: seq<seq<T>>)
    returns (groups: seq<seq<T>>, rows: nat, buf: seq<seq<T>>)
    requires forall b :: b in batches ==> |b| <= CONSOLIDATE_BATCH_ROWS
    requires Buffered(groups0, rows0, buf0)
    ensures Flatten(groups) + Flatten(buf) == Flatten(groups0) + Flatten(buf0) + Flatten(batches)
    ensures Buffered(groups, rows, buf)
  {
    hide Buffered, Flatten;
    NothingBuffered<T>();
    groups, rows, buf := groups0, rows0, buf0;
    ghost var start := Flatten(groups0) + Flatten(buf0);
    for j := 0 to |batches|
      invariant Flatten(groups) + Flatten(buf) == start + Flatten(batches[..j])
      invariant Buffered(groups, rows, buf)
    {
      assert batches[..j + 1] == batches[..j] + [batches[j]];
      FlattenSnoc(batches[..j], batches[j]);
      assert batches[j] in batches;
      groups, rows, buf := CopyBatch(batches[j], groups, rows, buf);
    }
    assert batches[..|batches|] == batches;
  }

  /** What holds between batches: full groups written, fewer than a group's worth of rows buffered. */
  ghost predicate Buffered<T>(groups: seq<seq<T>>, rows: nat, buf: seq<seq<T>>) {
    && rows == |Flatten(groups)| && |Flatten(buf)| < CONSOLIDATE_BATCH_ROWS
    && (buf != [] ==> Flatten(buf) != [])
    && forall k :: 0 <= k < |groups| ==> Healthy(groups[k])
  }

  method CopyBatch<T>(batch: seq<T>, groups0: seq<seq<T>>, rows0: nat, buf0: seq<seq<T>>)
    returns (groups: seq<seq<T>>, rows: nat, buf: seq<seq<T>>)
    requires |batch| <= CONSOLIDATE_BATCH_ROWS && Buffered(groups0, rows0, buf0)
    ensures Flatten(groups) + Flatten(buf) == Flatten(groups0) + Flatten(buf0) + batch
    ensures Buffered(groups, rows, buf)
  {
    groups, rows, buf := groups0, rows0, buf0;
    if |batch| > 0 {
      FlattenSnoc(buf, batch);
      buf := buf + [batch];
      var table := Flatten(buf);
      if |table| >= CONSOLIDATE_BATCH_ROWS {
        FlattenSnoc(groups, table);
        groups, rows, buf := groups + [table], rows + |table|, [];
      }
    }
  }

  /** How `iter_batches` cuts up a file. */
  function Chunks<T>(rows: seq<T>): (r: seq<seq<T>>)
    ensures Flatten(r) == rows
    ensures forall b :: b in r ==> |b| <= CONSOLIDATE_BATCH_ROWS
    decreases |rows|
  {
    if |rows| <= CONSOLIDATE_BATCH_ROWS then
      assert Flatten([rows]) == rows + Flatten<T>([]);
      [rows]
    else
      var b := rows[..CONSOLIDATE_BATCH_ROWS];
      assert rows == b + rows[CONSOLIDATE_BATCH_ROWS..];
      [b] + Chunks(rows[CONSOLIDATE_BATCH_ROWS..])
  }

  function StoreAll<T>(parts: seq<Part<T>>): (r: seq<Stored<T>>)
    ensures ReadableRows(r) == Contents(parts)
    ensures forall i, b :: 0 <= i < |r| && r[i].Readable? && b in r[i].batches ==> |b| <= CONSOLIDATE_BATCH_ROWS
  {
    if parts == [] then []
    else
      var n := |parts| - 1;
      var before, last := StoreAll(parts[..n]), Readable(Chunks(parts[n].rows));
      assert (before + [last])[..|before|] == before;
      before + [last]
  }

  /** `_consolidate_parts`: the final file's rows from a parts directory all of whose parts are sealed. */
  method ConsolidateParts<T>(parts: seq<Part<T>>) returns (final: seq<T>)
    ensures final == Contents(Listing(parts))
  {
    var listing := Listing(parts);
    if listing == [] {
      return [];
    }
    var groups, _, _ := StreamConsolidate(StoreAll(listing));
    final := Flatten(groups);
  }

  // -------------------------------------------------------------------- salvage

  /** What a crash leaves of one part: readable rows, or a file no reader accepts. */
  datatype Found<T> = Corrupt(name: string) | Intact(name: string, rows: seq<T>)

  function IntactRows<T>(found: seq<Found<T>>): seq<T> {
    if found == [] then []
    else
      var n := |found| - 1;
      IntactRows(found[..n]) + (if found[n].Intact? then found[n].rows else [])
  }

  function CorruptNames<T>(found: seq<Found<T>>): seq<string> {
    if found == [] then []
    else
      var n := |found| - 1;
      CorruptNames(found[..n]) + (if found[n].Corrupt? then [found[n].name] else [])
  }

  function IntactNames<T>(found: seq<Found<T>>): seq<string> {
    if found == [] then []
    else
      var n := |found| - 1;
      IntactNames(found[..n]) + (if found[n].Intact? then [found[n].name] else [])
  }

  /** Salvages one instrument.  The daily file is rebuilt from every intact part in order, or not
      touched when there is no part at all; corrupt parts are moved, intact ones stay. */
  method ConsolidateInstrument<T>(found: seq<Found<T>>, before: Option<seq<T>>)
    returns (final: Option<seq<T>>, stay: seq<string>, quarantined: seq<string>)
    ensures final == if found == [] then before else Some(IntactRows(found))
    ensures quarantined == CorruptNames(found) && stay == IntactNames(found)
    ensures |stay| + |quarantined| == |found|
  {
    var rows: seq<T> := [];
    stay, quarantined := [], [];
    for i := 0 to |found|
      invariant rows == IntactRows(found[..i])
      invariant quarantined == CorruptNames(found[..i]) && stay == IntactNames(found[..i])
      invariant |stay| + |quarantined| == i
    {
      assert found[..i + 1][..i] == found[..i];
      match found[i] {
        case Intact(name, rs) =>
          rows := rows + rs;
          stay := stay + [name];
        case Corrupt(name) =>
          quarantined := quarantined + [name];
      }
    }
    assert found[..|found|] == found;
    if stay != [] {
      final := Some(rows);
    } else if quarantined != [] {
      NoIntact(found);
      final := Some([]);
    } else {
      final := before;
    }
  }

  lemma {:induction false} NoIntact<T>(found: seq<Found<T>>)
    requires IntactNames(found) == []
    ensures IntactRows(found) == []
  {
    if found != [] {
      NoIntact(found[..|found| - 1]);
    }
  }

  function AsFound<T>(p: Part<T>): Found<T> {
    Intact(PartName(p.no), p.rows)
  }

  /** Sealed parts are complete files: salvage recovers all their rows. */
  lemma {:induction false} SealedPartsIntact<T>(parts: seq<Part<T>>)
    ensures IntactRows(Map((p: Part<T>) => AsFound(p), parts)) == Contents(parts)
    ensures CorruptNames(Map((p: Part<T>) => AsFound(p), parts)) == []
  {
    if parts != [] {
      var n := |parts| - 1;
      var f := (p: Part<T>) => AsFound(p);
      SealedPartsIntact(parts[..n]);
      assert Map(f, parts)[..n] == Map(f, parts[..n]);
      assert parts == parts[..n] + [parts[n]];
      ContentsSnoc(parts[..n], parts[n]);
    }
  }

  // ---------------------------------------------------------- rows cut into batches

  /** Rows as a writer hands them to its files: the batches so far and what is still buffered. */
  datatype Cut<T> = Cut(batches: seq<seq<T>>, rest: seq<T>)

  function OneMoreRow<T>(maxBuffer: int, c: Cut<T>, row: T): Cut<T> {
    if |c.rest| + 1 >= maxBuffer then Cut(c.batches + [c.rest + [row]], []) else Cut(c.batches, c.rest + [row])
  }

  /** A call is a row to add, or nothing but a flush: a batch ends when it reaches the limit, and when a flush
      finds rows buffered. */
  function CutStep<T>(maxBuffer: int, c: Cut<T>, call: Option<T>): Cut<T> {
    match call
    case Some(row) => OneMoreRow(maxBuffer, c, row)
    case None => if c.rest == [] then c else Cut(c.batches + [c.rest], [])
  }

  function CutOf<T>(maxBuffer: int, calls: seq<Option<T>>): Cut<T> {
    if calls == [] then Cut([], []) else CutStep(maxBuffer, CutOf(maxBuffer, calls[..|calls| - 1]), calls[|calls| - 1])
  }

  lemma CutSnoc<T>(maxBuffer: int, calls: seq<Option<T>>, call: Option<T>)
    ensures CutOf(maxBuffer, calls + [call]) == CutStep(maxBuffer, CutOf(maxBuffer, calls), call)
  {
    assert (calls + [call])[..|calls|] == calls;
  }

  /** Elements `size * i` to `size * i + size - 1`. */
  ghost predicate Chunk<T>(s: seq<T>, size: nat, i: nat, chunk: seq<T>) {
    size * i + size <= |s| && chunk == s[size * i..size * i + size]
  }

  lemma LotNext(k: nat, p: nat)
    ensures k * (p + 1) == k * p + k
  {
  }

  /** What `n` batches come to, in lots of `k`. */
  lemma LotCount(n: nat, k: nat, p: nat)
    requires k > 0 && k * p <= n < k * p + k
    ensures p == n / k && n - k * p == n % k
  {
    var q, r := n / k, n % k;
    assert n == k * q + r && 0 <= r < k;
    assert k * p - k * q == k * (p - q);
    Multiple(k, p - q);
  }

  lemma Multiple(k: int, d: int)
    requires k > 0
    ensures d >= 1 ==> k * d >= k
    ensures d <= -1 ==> k * d <= -k
  {
    if d >= 1 {
      assert k * d == k + k * (d - 1);
    } else if d <= -1 {
      assert k * d == -k + k * (d + 1);
    }
  }

  ghost predicate InLots<T>(c: Cut<T>, rows: seq<T>, m: nat) {
    && m * |c.batches| <= |rows| < m * |c.batches| + m && c.rest == rows[m * |c.batches|..]
    && forall i :: 0 <= i < |c.batches| ==> Chunk(rows, m, i, c.batches[i])
  }

  /** The most rows a batch can hold. */
  function BatchLimit(maxBuffer: int): nat {
    if maxBuffer < 1 then 1 else maxBuffer
  }

  function AddAll<T>(rows: seq<T>): (r: seq<Option<T>>)
    ensures |r| == |rows|
  {
    seq(|rows|, i requires 0 <= i < |rows| => Some(rows[i]))
  }

  /** Rows that are only added fill every batch to the limit: batch i is the i-th lot of max_buffer rows. */
  lemma {:induction false} FullBatches<T>(maxBuffer: int, rows: seq<T>)
    ensures var c, m := CutOf(maxBuffer, AddAll(rows)), BatchLimit(maxBuffer);
            InLots(c, rows, m) && |c.batches| == |rows| / m && |c.rest| == |rows| % m
  {
    if rows != [] {
      var front, row := rows[..|rows| - 1], rows[|rows| - 1];
      FullBatches(maxBuffer, front);
      assert AddAll(rows) == AddAll(front) + [Some(row)] && front + [row] == rows;
      CutSnoc(maxBuffer, AddAll(front), Some(row));
      hide CutOf, AddAll, InLots, OneMoreRow, BatchLimit;
      LotsGrow(maxBuffer, CutOf(maxBuffer, AddAll(front)), front, row);
    }
    LotsCount(CutOf(maxBuffer, AddAll(rows)), rows, BatchLimit(maxBuffer));
  }

  lemma LotsCount<T>(c: Cut<T>, rows: seq<T>, m: nat)
    requires InLots(c, rows, m)
    ensures |c.batches| == |rows| / m && |c.rest| == |rows| % m
  {
    hide Chunk;
    LotCount(|rows|, m, |c.batches|);
  }

  lemma LotsGrow<T>(maxBuffer: int, c: Cut<T>, rows: seq<T>, row: T)
    requires InLots(c, rows, BatchLimit(maxBuffer))
    ensures InLots(OneMoreRow(maxBuffer, c, row), rows + [row], BatchLimit(maxBuffer))
  {
    hide Chunk;
    var m, p := BatchLimit(maxBuffer), |c.batches|;
    forall i | 0 <= i < p ensures Chunk(rows + [row], m, i, c.batches[i]) {
      ChunkKept(rows, row, m, i, c.batches[i]);
    }
    LotNext(m, p);
    if |c.rest| + 1 >= maxBuffer {
      ChunkNew(rows, row, m, p);
      assert (rows + [row])[m * p + m..] == [];
    } else {
      assert (rows + [row])[m * p..] == rows[m * p..] + [row];
    }
  }

  lemma ChunkKept<T>(s: seq<T>, x: T, size: nat, i: nat, chunk: seq<T>)
    requires Chunk(s, size, i, chunk)
    ensures Chunk(s + [x], size, i, chunk)
  {
    assert (s + [x])[size * i..size * i + size] == s[size * i..size * i + size];
  }

  lemma ChunkNew<T>(s: seq<T>, x: T, size: nat, i: nat)
    requires size * i <= |s| && |s| + 1 == size * i + size
    ensures Chunk(s + [x], size, i, s[size * i..] + [x])
  {
    assert (s + [x])[size * i..size * i + size] == s[size * i..] + [x];
  }
}
