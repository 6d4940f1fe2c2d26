/**
 * Max pain (orderflow_engine/chain/analytics.py): the strike at which option writers pay out least.
 * The program tries the listed strikes only; the payout is convex, so no other expiry price does better.
 */
module MaxPain {
  import opened Seqs

  datatype Right = Call | Put | Other

  datatype Strike = Strike(right: Right, strike: int, oi: Option<int>)

  function OiOf(s: Strike): int {
    s.oi.GetOr(0)
  }

  function Pos(x: real): real {
    if x > 0.0 then x else 0.0
  }

  /** What the writers of one row pay when the contract expires at `x`. */
  function RowPayout(s: Strike, x: real): real {
    match s.right
    case Call => OiOf(s) as real * Pos(x - s.strike as real)
    case Put => OiOf(s) as real * Pos(s.strike as real - x)
    case Other => 0.0
  }

  function Payout(rows: seq<Strike>, x: real): real {
    if rows == [] then 0.0 else Payout(rows[..|rows| - 1], x) + RowPayout(rows[|rows| - 1], x)
  }

  predicate Listed(rows: seq<Strike>, k: int) {
    exists i :: 0 <= i < |rows| && rows[i].right != Other && rows[i].strike == k
  }

  ghost predicate NonNegative(rows: seq<Strike>) {
    forall i :: 0 <= i < |rows| ==> OiOf(rows[i]) >= 0
  }

  // ---------------------------------------------------------------- convexity

  /** Between two neighbouring kinks a payout is a straight line. */
  lemma PosAffine(k: real, a: real, x: real, b: real)
    requires a <= x <= b && (k <= a || b <= k)
    ensures (b - a) * Pos(x - k) == (b - x) * Pos(a - k) + (x - a) * Pos(b - k)
    ensures (b - a) * Pos(k - x) == (b - x) * Pos(k - a) + (x - a) * Pos(k - b)
  {
    if k <= a {
      assert Pos(x - k) == x - k && Pos(a - k) == a - k && Pos(b - k) == b - k;
      assert (b - a) * (x - k) == (b - x) * (a - k) + (x - a) * (b - k);
    } else {
      assert Pos(k - x) == k - x && Pos(k - a) == k - a && Pos(k - b) == k - b;
      assert (b - a) * (k - x) == (b - x) * (k - a) + (x - a) * (k - b);
    }
  }

  lemma Scale(o: real, d: real, p: real, u: real, q: real, v: real, r: real)
    requires d * p == u * q + v * r
    ensures d * (o * p) == u * (o * q) + v * (o * r)
  {
    assert d * (o * p) == o * (d * p);
    assert u * (o * q) == o * (u * q) && v * (o * r) == o * (v * r);
  }

  /** `p` at x lies on the chord from `q` at a to `r` at b. */
  ghost predicate OnChord(a: real, x: real, b: real, p: real, q: real, r: real) {
    (b - a) * p == (b - x) * q + (x - a) * r
  }

  lemma RowAffine(s: Strike, a: real, x: real, b: real)
    requires a <= x <= b && (s.right == Other || s.strike as real <= a || b <= s.strike as real)
    ensures OnChord(a, x, b, RowPayout(s, x), RowPayout(s, a), RowPayout(s, b))
  {
    var k, o := s.strike as real, OiOf(s) as real;
    match s.right
    case Call =>
      PosAffine(k, a, x, b);
      Scale(o, b - a, Pos(x - k), b - x, Pos(a - k), x - a, Pos(b - k));
    case Put =>
      PosAffine(k, a, x, b);
      Scale(o, b - a, Pos(k - x), b - x, Pos(k - a), x - a, Pos(k - b));
    case Other =>
  }

  lemma AddChords(a: real, x: real, b: real, p: real, q: real, r: real, p': real, q': real, r': real)
    requires OnChord(a, x, b, p, q, r) && OnChord(a, x, b, p', q', r')
    ensures OnChord(a, x, b, p + p', q + q', r + r')
  {
    assert (b - a) * (p + p') == (b - a) * p + (b - a) * p';
    assert (b - x) * (q + q') == (b - x) * q + (b - x) * q';
    assert (x - a) * (r + r') == (x - a) * r + (x - a) * r';
  }

  lemma {:induction false} PayoutAffine(rows: seq<Strike>, a: real, x: real, b: real)
    requires a <= x <= b
    requires forall i :: 0 <= i < |rows| && rows[i].right != Other ==> rows[i].strike as real <= a || b <= rows[i].strike as real
    ensures OnChord(a, x, b, Payout(rows, x), Payout(rows, a), Payout(rows, b))
  {
    if rows != [] {
      hide RowPayout, OnChord;
      var n := |rows| - 1;
      PayoutAffine(rows[..n], a, x, b);
      RowAffine(rows[n], a, x, b);
      AddChords(a, x, b, Payout(rows[..n], x), Payout(rows[..n], a), Payout(rows[..n], b),
                RowPayout(rows[n], x), RowPayout(rows[n], a), RowPayout(rows[n], b));
    }
  }

  /** A point on a chord is no lower than the lower end. */
  lemma ChordAboveEnd(a: real, x: real, b: real, pa: real, px: real, pb: real)
    requires a < b && a <= x <= b && OnChord(a, x, b, px, pa, pb)
    ensures pa <= px || pb <= px
  {
    var low := if pa <= pb then pa else pb;
    Monotone(b - x, low, pa);
    Monotone(x - a, low, pb);
    assert (b - a) * low == (b - x) * low + (x - a) * low;
    CancelFactor(b - a, low, px);
  }

  lemma CancelFactor(d: real, p: real, q: real)
    requires d > 0.0 && d * p <= d * q
    ensures p <= q
  {
    assert d * (q - p) == d * q - d * p;
  }

  /** Beyond the outermost strikes the payout only grows (open interest not being negative). */
  lemma {:induction false} PayoutOutside(rows: seq<Strike>, x: real, k: real)
    requires NonNegative(rows)
    requires forall i :: 0 <= i < |rows| && rows[i].right != Other ==>
                           if x <= k then k <= rows[i].strike as real else rows[i].strike as real <= k
    ensures Payout(rows, k) <= Payout(rows, x)
  {
    if rows != [] {
      var n := |rows| - 1;
      PayoutOutside(rows[..n], x, k);
      RowOutside(rows[n], x, k);
      hide RowPayout;
    }
  }

  lemma RowOutside(s: Strike, x: real, k: real)
    requires OiOf(s) >= 0
    requires s.right != Other ==> if x <= k then k <= s.strike as real else s.strike as real <= k
    ensures RowPayout(s, k) <= RowPayout(s, x)
  {
    var o := OiOf(s) as real;
    Monotone(o, Pos(k - s.strike as real), Pos(x - s.strike as real));
    Monotone(o, Pos(s.strike as real - k), Pos(s.strike as real - x));
  }

  lemma Monotone(o: real, p: real, q: real)
    requires o >= 0.0
    ensures p <= q ==> o * p <= o * q
  {
    if p <= q {
      assert o * (q - p) >= 0.0;
    }
  }

  ghost predicate Candidates(rows: seq<Strike>, cs: seq<int>) {
    Increasing(cs) && forall k :: k in cs <==> Listed(rows, k)
  }

  /** Whatever the expiry price, some listed strike pays out no more. */
  lemma SomeStrikeIsBest(rows: seq<Strike>, cs: seq<int>, x: real) returns (k: int)
    requires NonNegative(rows) && Candidates(rows, cs) && cs != []
    ensures k in cs && Payout(rows, k as real) <= Payout(rows, x)
  {
    hide Payout;
    if x <= cs[0] as real {
      k := cs[0];
      NoneBelow(rows, cs);
      PayoutOutside(rows, x, k as real);
    } else {
      var i := 0;
      while i + 1 < |cs| && (cs[i + 1] as real) < x
        invariant 0 <= i < |cs| && (cs[i] as real) < x
      {
        i := i + 1;
      }
      NoneBetween(rows, cs, i);
      if i + 1 == |cs| {
        k := cs[i];
        PayoutOutside(rows, x, k as real);
      } else {
        var a, b := cs[i] as real, cs[i + 1] as real;
        PayoutAffine(rows, a, x, b);
        ChordAboveEnd(a, x, b, Payout(rows, a), Payout(rows, x), Payout(rows, b));
        k := if Payout(rows, a) <= Payout(rows, x) then cs[i] else cs[i + 1];
      }
    }
  }

  lemma NoneBelow(rows: seq<Strike>, cs: seq<int>)
    requires Candidates(rows, cs) && cs != []
    ensures forall i :: 0 <= i < |rows| && rows[i].right != Other ==> cs[0] <= rows[i].strike
  {
    forall i | 0 <= i < |rows| && rows[i].right != Other ensures cs[0] <= rows[i].strike {
      assert Listed(rows, rows[i].strike);
      var p :| 0 <= p < |cs| && cs[p] == rows[i].strike;
    }
  }

  lemma NoneBetween(rows: seq<Strike>, cs: seq<int>, j: nat)
    requires Candidates(rows, cs) && j < |cs|
    ensures forall i :: 0 <= i < |rows| && rows[i].right != Other ==>
                          rows[i].strike <= cs[j] || (j + 1 < |cs| && cs[j + 1] <= rows[i].strike)
    ensures j + 1 < |cs| ==> cs[j] < cs[j + 1]
  {
    forall i | 0 <= i < |rows| && rows[i].right != Other
      ensures rows[i].strike <= cs[j] || (j + 1 < |cs| && cs[j + 1] <= rows[i].strike)
    {
      assert Listed(rows, rows[i].strike);
      var p :| 0 <= p < |cs| && cs[p] == rows[i].strike;
    }
  }

  // ---------------------------------------------------------------- calls and puts

  ghost predicate Only(rows: seq<Strike>, right: Right) {
    forall i :: 0 <= i < |rows| ==> rows[i].right == right || rows[i].right == Other
  }

  /** One row: a call costs its writers every point above the strike, a put every point below it. */
  lemma RowPays(s: Strike, x: real)
    ensures s.right == Call && x <= s.strike as real ==> RowPayout(s, x) == 0.0
    ensures s.right == Call && x >= s.strike as real ==> RowPayout(s, x) == OiOf(s) as real * (x - s.strike as real)
    ensures s.right == Put && x >= s.strike as real ==> RowPayout(s, x) == 0.0
    ensures s.right == Put && x <= s.strike as real ==> RowPayout(s, x) == OiOf(s) as real * (s.strike as real - x)
    ensures s.right == Other ==> RowPayout(s, x) == 0.0
  {
    var o, k := OiOf(s) as real, s.strike as real;
    assert o * 0.0 == 0.0;
    assert x == k ==> x - k == 0.0 && k - x == 0.0;
    assert Pos(x - k) == (if x <= k then 0.0 else x - k) && Pos(k - x) == if x >= k then 0.0 else k - x;
  }

  /** Open interest on the losing side of `x`: a call struck below it, a put struck above it. */
  ghost predicate Loses(s: Strike, right: Right, x: real) {
    s.right == right && s.oi.Some? && s.oi.value > 0 && if right == Call then (s.strike as real) < x else x < s.strike as real
  }

  ghost predicate Exposed(rows: seq<Strike>, right: Right, x: real) {
    exists i :: 0 <= i < |rows| && Loses(rows[i], right, x)
  }

  lemma RowPaysOrNot(s: Strike, right: Right, x: real)
    requires OiOf(s) >= 0 && right != Other && (s.right == right || s.right == Other)
    ensures RowPayout(s, x) >= 0.0 && (RowPayout(s, x) > 0.0 <==> Loses(s, right, x))
  {
    var o, d := OiOf(s) as real, if right == Call then x - s.strike as real else s.strike as real - x;
    RowPays(s, x);
    Positive(o, d);
    hide RowPayout;
  }

  lemma Positive(o: real, d: real)
    requires o >= 0.0
    ensures d >= 0.0 ==> o * d >= 0.0 && (o * d > 0.0 <==> o > 0.0 && d > 0.0)
  {
    if o > 0.0 && d > 0.0 {
      assert o * d > 0.0;
    } else {
      assert o * d == 0.0 || d < 0.0;
    }
  }

  lemma ExposedSnoc(rows: seq<Strike>, s: Strike, right: Right, x: real)
    ensures Exposed(rows + [s], right, x) <==> Exposed(rows, right, x) || Loses(s, right, x)
  {
    hide Loses;
    var more := rows + [s];
    if i :| 0 <= i < |rows| && Loses(rows[i], right, x) {
      assert Loses(more[i], right, x);
    }
    assert more[|rows|] == s;
  }

  /** Rows of calls alone, or of puts alone, pay nothing exactly where no open interest is exposed: calls at
      or below the lowest strike that has some, puts at or above the highest. */
  lemma {:induction false} PaysIffExposed(rows: seq<Strike>, right: Right, x: real)
    requires NonNegative(rows) && Only(rows, right) && right != Other
    ensures Payout(rows, x) >= 0.0 && (Payout(rows, x) > 0.0 <==> Exposed(rows, right, x))
  {
    if rows != [] {
      hide RowPayout, Exposed, Loses;
      var n := |rows| - 1;
      PaysIffExposed(rows[..n], right, x);
      RowPaysOrNot(rows[n], right, x);
      ExposedSnoc(rows[..n], rows[n], right, x);
      assert rows[..n] + [rows[n]] == rows;
    } else {
      assert Payout(rows, x) == 0.0;
    }
  }

  lemma RowPaysMoreOut(s: Strike, x: real, y: real)
    requires OiOf(s) >= 0 && x <= y
    ensures s.right == Call ==> RowPayout(s, x) <= RowPayout(s, y)
    ensures s.right == Put ==> RowPayout(s, y) <= RowPayout(s, x)
    ensures s.right == Other ==> RowPayout(s, x) == RowPayout(s, y)
  {
    var o, k := OiOf(s) as real, s.strike as real;
    RowPays(s, x);
    RowPays(s, y);
    hide RowPayout;
    Monotone(o, x - k, y - k);
    Monotone(o, k - y, k - x);
    Monotone(o, 0.0, y - k);
    Monotone(o, 0.0, k - x);
  }

  /** Calls alone never pay less at a higher price, and puts alone never less at a lower one. */
  lemma {:induction false} PaysMoreOut(rows: seq<Strike>, right: Right, x: real, y: real)
    requires NonNegative(rows) && Only(rows, right) && x <= y
    ensures right == Call ==> Payout(rows, x) <= Payout(rows, y)
    ensures right == Put ==> Payout(rows, y) <= Payout(rows, x)
  {
    if rows != [] {
      hide RowPayout;
      var n := |rows| - 1;
      PaysMoreOut(rows[..n], right, x, y);
      RowPaysMoreOut(rows[n], x, y);
    } else {
      assert Payout(rows, x) == Payout(rows, y);
    }
  }

  predicate IsCall(s: Strike) {
    s.right == Call
  }

  predicate IsPut(s: Strike) {
    s.right == Put
  }

  /** The payout is what the calls cost and what the puts cost: every row counts once, on its own side. */
  lemma {:induction false} PayoutSplits(rows: seq<Strike>, x: real)
    ensures Payout(rows, x) == Payout(Filter(rows, IsCall), x) + Payout(Filter(rows, IsPut), x)
  {
    if rows == [] {
      NothingPays(x);
    } else {
      hide *;
      var front, s := rows[..|rows| - 1], rows[|rows| - 1];
      assert front + [s] == rows;
      PayoutSplits(front, x);
      PayoutSnoc(front, s, x);
      SideSnoc(front, s, IsCall, x);
      SideSnoc(front, s, IsPut, x);
      Counted(s, x);
    }
  }

  lemma SideSnoc(rows: seq<Strike>, s: Strike, side: Strike -> bool, x: real)
    ensures Payout(Filter(rows + [s], side), x) == Payout(Filter(rows, side), x) + if side(s) then RowPayout(s, x) else 0.0
  {
    hide *;
    FilterSnoc(rows, s, side);
    PayoutSnoc(Filter(rows, side), s, x);
  }

  lemma NothingPays(x: real)
    ensures Payout([], x) == 0.0 && Filter<Strike>([], IsCall) == [] && Filter<Strike>([], IsPut) == []
  {
  }

  lemma Counted(s: Strike, x: real)
    ensures !(IsCall(s) && IsPut(s)) && (!IsCall(s) && !IsPut(s) ==> RowPayout(s, x) == 0.0)
  {
  }

  lemma PayoutSnoc(rows: seq<Strike>, s: Strike, x: real)
    ensures Payout(rows + [s], x) == Payout(rows, x) + RowPayout(s, x)
  {
    assert (rows + [s])[..|rows|] == rows;
  }

  // ---------------------------------------------------------------- the program

  /** A dictionary from strike to open interest, in insertion order. */
  type Table = seq<(int, int)>

  function AddTo(t: Table, k: int, oi: int): Table {
    if t == [] then [(k, oi)]
    else if t[0].0 == k then [(k, t[0].1 + oi)] + t[1..]
    else [t[0]] + AddTo(t[1..], k, oi)
  }

  predicate HasKey(t: Table, k: int) {
    exists i :: 0 <= i < |t| && t[i].0 == k
  }

  function IntPos(x: int): int {
    if x > 0 then x else 0
  }

  /** What the writers of a table's calls (or puts) pay at `x`. */
  function TablePay(t: Table, calls: bool, x: int): int {
    if t == [] then 0
    else t[0].1 * IntPos(if calls then x - t[0].0 else t[0].0 - x) + TablePay(t[1..], calls, x)
  }

  lemma {:induction false} AddToPay(t: Table, k: int, oi: int, calls: bool, x: int)
    ensures TablePay(AddTo(t, k, oi), calls, x) == TablePay(t, calls, x) + oi * IntPos(if calls then x - k else k - x)
  {
    if t != [] {
      var m := IntPos(if calls then x - k else k - x);
      if t[0].0 == k {
        assert (t[0].1 + oi) * m == t[0].1 * m + oi * m;
        assert AddTo(t, k, oi)[1..] == t[1..];
      } else {
        AddToPay(t[1..], k, oi, calls, x);
        assert AddTo(t, k, oi)[1..] == AddTo(t[1..], k, oi);
      }
    }
  }

  lemma {:induction false} AddToKeys(t: Table, k: int, oi: int, key: int)
    ensures HasKey(AddTo(t, k, oi), key) <==> HasKey(t, key) || key == k
  {
    if t != [] && t[0].0 != k {
      AddToKeys(t[1..], k, oi, key);
      KeyCons(t[0], t[1..], key);
      KeyCons(t[0], AddTo(t[1..], k, oi), key);
      assert t == [t[0]] + t[1..];
    } else if t != [] {
      KeyCons(t[0], t[1..], key);
      KeyCons((k, t[0].1 + oi), t[1..], key);
      assert t == [t[0]] + t[1..];
    } else {
      KeyCons((k, oi), [], key);
      assert [(k, oi)] + [] == [(k, oi)];
    }
  }

  lemma KeyCons(e: (int, int), t: Table, key: int)
    ensures HasKey([e] + t, key) <==> e.0 == key || HasKey(t, key)
  {
    var u := [e] + t;
    if HasKey(t, key) {
      var i :| 0 <= i < |t| && t[i].0 == key;
      assert u[i + 1].0 == key;
    }
    if e.0 == key {
      assert u[0].0 == key;
    }
    if HasKey(u, key) && e.0 != key {
      var i :| 0 <= i < |u| && u[i].0 == key;
      assert t[i - 1].0 == key;
    }
  }

  /** The two dictionaries hold what the rows say: same strikes, same payout at every strike. */
  ghost predicate Books(rows: seq<Strike>, ce: Table, pe: Table) {
    && (forall k :: HasKey(ce, k) || HasKey(pe, k) <==> Listed(rows, k))
    && (forall x: int :: Agrees(rows, ce, pe, x))
  }

  ghost predicate Agrees(rows: seq<Strike>, ce: Table, pe: Table, x: int) {
    (TablePay(ce, true, x) + TablePay(pe, false, x)) as real == Payout(rows, x as real)
  }

  lemma ListedSnoc(rows: seq<Strike>, s: Strike, k: int)
    ensures Listed(rows + [s], k) <==> Listed(rows, k) || (s.right != Other && s.strike == k)
  {
    var more := rows + [s];
    if Listed(rows, k) {
      var i :| 0 <= i < |rows| && rows[i].right != Other && rows[i].strike == k;
      assert more[i] == rows[i];
    }
    if s.right != Other && s.strike == k {
      assert more[|rows|] == s;
    }
  }

  lemma BooksSnoc(rows: seq<Strike>, s: Strike, ce: Table, pe: Table, ce': Table, pe': Table)
    requires Books(rows, ce, pe)
    requires ce' == if s.right == Call then AddTo(ce, s.strike, OiOf(s)) else ce
    requires pe' == if s.right == Put then AddTo(pe, s.strike, OiOf(s)) else pe
    ensures Books(rows + [s], ce', pe')
  {
    forall k ensures HasKey(ce', k) || HasKey(pe', k) <==> Listed(rows + [s], k) {
      ListedSnoc(rows, s, k);
      AddToKeys(ce, s.strike, OiOf(s), k);
      AddToKeys(pe, s.strike, OiOf(s), k);
    }
    forall x: int ensures Agrees(rows + [s], ce', pe', x) {
      assert Agrees(rows, ce, pe, x);
      AddToPay(ce, s.strike, OiOf(s), true, x);
      AddToPay(pe, s.strike, OiOf(s), false, x);
      assert (rows + [s])[..|rows|] == rows;
      RowPayAt(s, x);
    }
  }

  lemma RowPayAt(s: Strike, x: int)
    ensures RowPayout(s, x as real) ==
            (match s.right case Call => OiOf(s) * IntPos(x - s.strike) case Put => OiOf(s) * IntPos(s.strike - x) case Other => 0) as real
  {
    ProductAsReal(OiOf(s), IntPos(x - s.strike));
    ProductAsReal(OiOf(s), IntPos(s.strike - x));
  }

  lemma ProductAsReal(a: int, b: int)
    ensures (a * b) as real == a as real * b as real
  {
  }

  lemma IncreasingCons(h: int, t: seq<int>)
    requires Increasing(t) && (t != [] ==> h < t[0])
    ensures Increasing([h] + t)
  {
    assert forall i :: 0 < i < |t| ==> t[0] < t[i];
  }

  /** Adds a key to a sorted list of distinct keys. */
  function WithKey(cs: seq<int>, k: int): (r: seq<int>)
    requires Increasing(cs)
    ensures Increasing(r) && r != [] && r[0] == if cs == [] || k < cs[0] then k else cs[0]
    ensures forall x :: x in r <==> x in cs || x == k
  {
    if cs == [] || k < cs[0] then
      IncreasingCons(k, cs);
      [k] + cs
    else if k == cs[0] then cs
    else
      var t := WithKey(cs[1..], k);
      IncreasingCons(cs[0], t);
      assert cs == [cs[0]] + cs[1..];
      [cs[0]] + t
  }

  /** `sorted(set(ce_oi) | set(pe_oi))` */
  function Keys(t: Table, cs: seq<int>): (r: seq<int>)
    requires Increasing(cs)
    ensures Increasing(r) && forall x :: x in r <==> x in cs || HasKey(t, x)
  {
    if t == [] then cs
    else
      assert forall x :: HasKey(t, x) <==> t[0].0 == x || HasKey(t[1..], x) by {
        assert t == [t[0]] + t[1..];
        forall x ensures HasKey(t, x) <==> t[0].0 == x || HasKey(t[1..], x) {
          KeyCons(t[0], t[1..], x);
        }
      }
      Keys(t[1..], WithKey(cs, t[0].0))
  }

  method TablePayout(t: Table, calls: bool, x: int, start: int) returns (pay: int)
    ensures pay == start + TablePay(t, calls, x)
  {
    pay := start;
    for i := 0 to |t|
      invariant pay + TablePay(t[i..], calls, x) == start + TablePay(t, calls, x)
    {
      assert t[i..][1..] == t[i + 1..];
      pay := pay + t[i].1 * IntPos(if calls then x - t[i].0 else t[i].0 - x);
    }
  }

  /** The lowest listed strike whose payout no listed strike undercuts; with open interest that is not
      negative, no expiry price at all undercuts it. */
  method MaxPainStrike(rows: seq<Strike>) returns (best: Option<int>)
    ensures best.None? <==> forall k :: !Listed(rows, k)
    ensures best.Some? ==> Listed(rows, best.value)
    ensures best.Some? ==> forall k :: Listed(rows, k) ==>
              && Payout(rows, best.value as real) <= Payout(rows, k as real)
              && (k < best.value ==> Payout(rows, best.value as real) < Payout(rows, k as real))
    ensures best.Some? && NonNegative(rows) ==> forall x: real :: Payout(rows, best.value as real) <= Payout(rows, x)
    ensures best.Some? && NonNegative(rows) && Only(rows, Call) ==> forall k :: Listed(rows, k) ==> best.value <= k
    ensures best.Some? && NonNegative(rows) && Only(rows, Put) ==> HighestPut(rows, best.value)
  {
    var ce, pe := FillTables(rows);
    var cs := Keys(pe, Keys(ce, []));
    assert Candidates(rows, cs);
    if cs == [] {
      assert forall k :: Listed(rows, k) ==> k in cs;
      return None;
    }
    var k := Cheapest(rows, ce, pe, cs);
    best := Some(k);
    if NonNegative(rows) {
      forall x: real ensures Payout(rows, k as real) <= Payout(rows, x) {
        var c := SomeStrikeIsBest(rows, cs, x);
      }
      if Only(rows, Call) {
        CallsAlone(rows, k);
      }
      if Only(rows, Put) {
        PutsAlone(rows, k);
      }
    }
  }

  /** The lowest listed strike that no listed strike undercuts. */
  ghost predicate LowestBest(rows: seq<Strike>, best: int) {
    && Listed(rows, best)
    && forall k :: Listed(rows, k) ==>
         && Payout(rows, best as real) <= Payout(rows, k as real)
         && (k < best ==> Payout(rows, best as real) < Payout(rows, k as real))
  }

  /** For calls alone that is the lowest listed strike. */
  lemma CallsAlone(rows: seq<Strike>, best: int)
    requires NonNegative(rows) && Only(rows, Call) && LowestBest(rows, best)
    ensures forall k :: Listed(rows, k) ==> best <= k
  {
    hide Payout;
    forall k | Listed(rows, k) ensures best <= k {
      if k < best {
        PaysMoreOut(rows, Call, k as real, best as real);
      }
    }
  }

  ghost predicate HeldPut(s: Strike) {
    s.right == Put && s.oi.Some? && s.oi.value > 0
  }

  ghost predicate SomeHeld(rows: seq<Strike>) {
    exists i :: 0 <= i < |rows| && HeldPut(rows[i])
  }

  /** The highest strike of a put that has open interest, or the lowest strike when none has any. */
  ghost predicate HighestPut(rows: seq<Strike>, k: int) {
    && (forall i :: 0 <= i < |rows| && HeldPut(rows[i]) ==> rows[i].strike <= k)
    && (SomeHeld(rows) ==> exists i :: 0 <= i < |rows| && HeldPut(rows[i]) && rows[i].strike == k)
    && (!SomeHeld(rows) ==> forall c :: Listed(rows, c) ==> k <= c)
  }

  lemma {:induction false} TopPut(rows: seq<Strike>) returns (t: nat)
    requires SomeHeld(rows)
    ensures t < |rows| && HeldPut(rows[t])
    ensures forall i :: 0 <= i < |rows| && HeldPut(rows[i]) ==> rows[i].strike <= rows[t].strike
  {
    hide HeldPut;
    var n := |rows| - 1;
    var r := rows[..n];
    assert forall i :: 0 <= i < n ==> rows[i] == r[i];
    if SomeHeld(r) {
      t := TopPut(r);
      if HeldPut(rows[n]) && rows[t].strike < rows[n].strike {
        t := n;
      }
    } else {
      assert forall i :: 0 <= i < n ==> !HeldPut(r[i]);
      t := n;
    }
  }

  lemma PutsAlone(rows: seq<Strike>, best: int)
    requires NonNegative(rows) && Only(rows, Put) && LowestBest(rows, best)
    ensures HighestPut(rows, best)
  {
    hide Payout;
    if SomeHeld(rows) {
      var t := TopPut(rows);
      var top := rows[t].strike;
      assert best < top ==> Loses(rows[t], Put, best as real);
      assert Listed(rows, top) && !Exposed(rows, Put, top as real);
      PaysIffExposed(rows, Put, top as real);
      PaysIffExposed(rows, Put, best as real);
    } else {
      forall c | Listed(rows, c) ensures best <= c {
        PaysIffExposed(rows, Put, c as real);
        PaysIffExposed(rows, Put, best as real);
      }
    }
  }

  method FillTables(rows: seq<Strike>) returns (ce: Table, pe: Table)
    ensures Books(rows, ce, pe)
  {
    hide Books;
    ce, pe := [], [];
    EmptyBooks();
    for i := 0 to |rows|
      invariant Books(rows[..i], ce, pe)
    {
      assert rows[..i + 1] == rows[..i] + [rows[i]];
      ghost var ce0, pe0 := ce, pe;
      if rows[i].right == Call {
        ce := AddTo(ce, rows[i].strike, OiOf(rows[i]));
      } else if rows[i].right == Put {
        pe := AddTo(pe, rows[i].strike, OiOf(rows[i]));
      }
      BooksSnoc(rows[..i], rows[i], ce0, pe0, ce, pe);
    }
    assert rows[..|rows|] == rows;
  }

  lemma EmptyBooks()
    ensures Books([], [], [])
  {
    forall x: int ensures Agrees([], [], [], x) {
    }
  }

  method Cheapest(rows: seq<Strike>, ce: Table, pe: Table, cs: seq<int>) returns (best: int)
    requires Books(rows, ce, pe) && Increasing(cs) && cs != []
    ensures best in cs
    ensures forall k :: k in cs ==> Payout(rows, best as real) <= Payout(rows, k as real)
    ensures forall k :: k in cs && k < best ==> Payout(rows, best as real) < Payout(rows, k as real)
  {
    best := cs[0];
    var bestPay: Option<int> := None;
    for i := 0 to |cs|
      invariant bestPay.None? <==> i == 0
      invariant i > 0 ==> best in cs[..i] && bestPay.value as real == Payout(rows, best as real)
      invariant i > 0 ==> forall j :: 0 <= j < i ==>
                  && Payout(rows, best as real) <= Payout(rows, cs[j] as real)
                  && (cs[j] < best ==> Payout(rows, best as real) < Payout(rows, cs[j] as real))
    {
      var pay := TablePayout(ce, true, cs[i], 0);
      pay := TablePayout(pe, false, cs[i], pay);
      assert Agrees(rows, ce, pe, cs[i]);
      if bestPay.None? || pay < bestPay.value {
        bestPay, best := Some(pay), cs[i];
      }
    }
  }
}
