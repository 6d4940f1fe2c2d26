/** The one-off clean-up of duplicated broker rows: counting references, planning which rows to keep, and
    applying the plan in one transaction. */
module BrokerDedup {

  import opened Seqs

  type Id = int

  datatype Row = Row(id: Id, user: int, name: string, active: bool, created: int)

  /** The row that must survive; its number stands for the fixed UUID. */
  const SACRED: Id := 0

  predicate Allowed(name: string) {
    name == "dhan" || name == "fyers"
  }

  function LowerChar(c: char): char {
    if 'A' <= c <= 'Z' then c - 'A' + 'a' else c
  }

  function Lower(s: string): (r: string)
    ensures |r| == |s|
    ensures forall i :: 0 <= i < |s| ==> r[i] == LowerChar(s[i])
  {
    seq(|s|, i requires 0 <= i < |s| => LowerChar(s[i]))
  }

  const UPPER := "ABCDEFGHIJKLMNOPQRSTUVWXYZ"
  const LOWER := "abcdefghijklmnopqrstuvwxyz"

  /** Every capital becomes its small letter, and nothing else changes. */
  lemma LowerMeans(c: char, i: nat)
    requires i < 26
    ensures LowerChar(UPPER[i]) == LOWER[i]
    ensures c !in UPPER ==> LowerChar(c) == c
  {
    Letters(i);
    if 'A' <= c <= 'Z' {
      Letters((c - 'A') as int);
    }
  }

  lemma Letters(i: nat)
    requires i < 26
    ensures UPPER[i] == 'A' + i as char && LOWER[i] == 'a' + i as char
  {
    if i < 13 {
      assert i == 0 || i == 1 || i == 2 || i == 3 || i == 4 || i == 5 || i == 6 || i == 7 || i == 8 || i == 9 || i == 10 || i == 11 || i == 12;
    } else {
      assert i == 13 || i == 14 || i == 15 || i == 16 || i == 17 || i == 18 || i == 19 || i == 20 || i == 21 || i == 22 || i == 23 || i == 24 || i == 25;
    }
  }

  lemma LowerTwice(s: string)
    ensures Lower(Lower(s)) == Lower(s)
  {
  }

  type Key = (int, string)

  function KeyOf(r: Row): Key {
    (r.user, Lower(r.name))
  }

  ghost predicate DistinctIds(rows: seq<Row>) {
    forall i, j :: 0 <= i < j < |rows| ==> rows[i].id != rows[j].id
  }

  // ---------------------------------------------------------------- counting references

  /** `fk_refs`, a dictionary by table name in insertion order. */
  type Counts = seq<(string, nat)>

  function Put(d: Counts, table: string, n: nat): Counts {
    if d == [] then [(table, n)]
    else if d[0].0 == table then [(table, n)] + d[1..]
    else [d[0]] + Put(d[1..], table, n)
  }

  function Total(d: Counts): nat {
    if d == [] then 0 else d[0].1 + Total(d[1..])
  }

  /** One query: how often each row is referenced through one column of one table. */
  datatype Query = Query(table: string, groups: seq<(Id, nat)>)

  function Counted(d: Counts, table: string, groups: seq<(Id, nat)>, id: Id): Counts {
    if groups == [] then d
    else
      var g, before := groups[|groups| - 1], Counted(d, table, groups[..|groups| - 1], id);
      if g.0 == id then Put(before, table, g.1) else before
  }

  function CountsOf(queries: seq<Query>, id: Id): Counts {
    if queries == [] then []
    else
      var q := queries[|queries| - 1];
      Counted(CountsOf(queries[..|queries| - 1], id), q.table, q.groups, id)
  }

  function Lookup(d: Counts, table: string): Option<nat> {
    if d == [] then None else if d[0].0 == table then Some(d[0].1) else Lookup(d[1..], table)
  }

  function LastIn(groups: seq<(Id, nat)>, id: Id): Option<nat> {
    if groups == [] then None
    else if groups[|groups| - 1].0 == id then Some(groups[|groups| - 1].1)
    else LastIn(groups[..|groups| - 1], id)
  }

  /** What the last query of `table` that groups the row says. */
  function LastCount(queries: seq<Query>, table: string, id: Id): Option<nat> {
    if queries == [] then None
    else
      var q := queries[|queries| - 1];
      if q.table == table && LastIn(q.groups, id).Some? then LastIn(q.groups, id)
      else LastCount(queries[..|queries| - 1], table, id)
  }

  lemma {:induction false} PutLookup(d: Counts, table: string, n: nat, t: string)
    ensures Lookup(Put(d, table, n), t) == if t == table then Some(n) else Lookup(d, t)
  {
    if d != [] {
      PutLookup(d[1..], table, n, t);
      assert Put(d, table, n)[1..] == if d[0].0 == table then d[1..] else Put(d[1..], table, n);
    }
  }

  lemma {:induction false} CountedLookup(d: Counts, table: string, groups: seq<(Id, nat)>, id: Id, t: string)
    ensures Lookup(Counted(d, table, groups, id), t)
         == if t == table && LastIn(groups, id).Some? then LastIn(groups, id) else Lookup(d, t)
  {
    if groups != [] {
      hide Lookup, Put;
      var n := |groups| - 1;
      CountedLookup(d, table, groups[..n], id, t);
      PutLookup(Counted(d, table, groups[..n], id), table, groups[n].1, t);
    }
  }

  /** A later column of a table overwrites an earlier one: a row's count for a table is the last one found. */
  lemma {:induction false} CountIsLast(queries: seq<Query>, id: Id, table: string)
    ensures Lookup(CountsOf(queries, id), table) == LastCount(queries, table, id)
  {
    if queries != [] {
      hide Counted, LastIn;
      var n := |queries| - 1;
      CountIsLast(queries[..n], id, table);
      CountedLookup(CountsOf(queries[..n], id), queries[n].table, queries[n].groups, id, table);
    }
  }

  lemma {:induction false} TotalConcat(d: Counts, e: Counts)
    ensures Total(d + e) == Total(d) + Total(e)
  {
    if d == [] {
      assert d + e == e;
    } else {
      TotalConcat(d[1..], e);
      assert (d + e)[1..] == d[1..] + e;
    }
  }

  ghost predicate Referenced(queries: seq<Query>, id: Id) {
    exists q, g :: 0 <= q < |queries| && 0 <= g < |queries[q].groups| && queries[q].groups[g].0 == id
  }

  /** `GROUP BY` yields no empty group. */
  ghost predicate Grouped(queries: seq<Query>) {
    forall q, g :: 0 <= q < |queries| && 0 <= g < |queries[q].groups| ==> queries[q].groups[g].1 >= 1
  }

  ghost predicate AllPositive(d: Counts) {
    forall i :: 0 <= i < |d| ==> d[i].1 >= 1
  }

  lemma {:induction false} PutPositive(d: Counts, table: string, n: nat)
    requires AllPositive(d) && n >= 1
    ensures AllPositive(Put(d, table, n)) && Put(d, table, n) != []
  {
    if d != [] && d[0].0 != table {
      PutPositive(d[1..], table, n);
    }
  }

  lemma {:induction false} TotalPositive(d: Counts)
    requires AllPositive(d)
    ensures Total(d) == 0 <==> d == []
  {
  }

  lemma {:induction false} CountedPositive(d: Counts, table: string, groups: seq<(Id, nat)>, id: Id)
    requires AllPositive(d) && forall g :: 0 <= g < |groups| ==> groups[g].1 >= 1
    ensures AllPositive(Counted(d, table, groups, id))
    ensures Counted(d, table, groups, id) == [] <==> d == [] && forall g :: 0 <= g < |groups| ==> groups[g].0 != id
  {
    if groups != [] {
      var n := |groups| - 1;
      CountedPositive(d, table, groups[..n], id);
      if groups[n].0 == id {
        PutPositive(Counted(d, table, groups[..n], id), table, groups[n].1);
      }
    }
  }

  /** Counts are kept by table name, so a second column of a table overwrites the first and the total can
      fall short; but it is zero exactly when nothing references the row, which is all the plan relies on. */
  lemma {:induction false} TotalZeroMeansUnreferenced(queries: seq<Query>, id: Id)
    requires Grouped(queries)
    ensures AllPositive(CountsOf(queries, id))
    ensures Total(CountsOf(queries, id)) == 0 <==> !Referenced(queries, id)
    ensures CountsOf(queries, id) == [] <==> !Referenced(queries, id)
  {
    if queries != [] {
      var n := |queries| - 1;
      var before := queries[..n];
      assert Grouped(before) by {
        assert forall q :: 0 <= q < n ==> before[q] == queries[q];
      }
      TotalZeroMeansUnreferenced(before, id);
      CountedPositive(CountsOf(before, id), queries[n].table, queries[n].groups, id);
      ReferencedSnoc(queries, id);
    }
    TotalPositive(CountsOf(queries, id));
  }

  lemma ReferencedSnoc(queries: seq<Query>, id: Id)
    requires queries != []
    ensures var n := |queries| - 1;
            Referenced(queries, id) <==> Referenced(queries[..n], id) ||
                                         !(forall g :: 0 <= g < |queries[n].groups| ==> queries[n].groups[g].0 != id)
  {
    var n := |queries| - 1;
    if Referenced(queries, id) {
      var q, g :| 0 <= q < |queries| && 0 <= g < |queries[q].groups| && queries[q].groups[g].0 == id;
      assert q < n ==> queries[..n][q].groups[g].0 == id;
    }
    if Referenced(queries[..n], id) {
      var q, g :| 0 <= q < n && 0 <= g < |queries[..n][q].groups| && queries[..n][q].groups[g].0 == id;
      assert queries[q].groups[g].0 == id;
    }
  }

  function Ids(rows: seq<Row>): set<Id> {
    set r | r in rows :: r.id
  }

  method LoadFkRefCounts(rows: seq<Row>, queries: seq<Query>) returns (counts: map<Id, Counts>)
    ensures counts.Keys == Ids(rows)
    ensures forall id :: id in Ids(rows) ==> id in counts && counts[id] == CountsOf(queries, id)
  {
    var ids := Ids(rows);
    counts := map id | id in ids :: [];
    for q := 0 to |queries|
      invariant counts.Keys == ids
      invariant forall id :: id in ids ==> id in counts && counts[id] == CountsOf(queries[..q], id)
    {
      ghost var was := counts;
      var groups := queries[q].groups;
      for g := 0 to |groups|
        invariant counts.Keys == ids && was.Keys == ids
        invariant forall id :: id in ids ==> id in counts && counts[id] == Counted(was[id], queries[q].table, groups[..g], id)
      {
        assert groups[..g + 1][..g] == groups[..g];
        var (id, n) := groups[g];
        if id in counts {
          counts := counts[id := Put(counts[id], queries[q].table, n)];
        }
      }
      assert groups[..|groups|] == groups;
      assert queries[..q + 1][..q] == queries[..q];
    }
    assert queries[..|queries|] == queries;
  }

  // ---------------------------------------------------------------- grouping

  type Group = (Key, seq<Row>)

  function AddTo(groups: seq<Group>, r: Row): seq<Group> {
    if groups == [] then [(KeyOf(r), [r])]
    else if groups[0].0 == KeyOf(r) then [(groups[0].0, groups[0].1 + [r])] + groups[1..]
    else [groups[0]] + AddTo(groups[1..], r)
  }

  function Groups(rows: seq<Row>): seq<Group> {
    if rows == [] then [] else AddTo(Groups(rows[..|rows| - 1]), rows[|rows| - 1])
  }

  ghost predicate GoodGroup(g: Group) {
    g.1 != [] && forall i :: 0 <= i < |g.1| ==> KeyOf(g.1[i]) == g.0
  }

  ghost predicate HasKey(groups: seq<Group>, k: Key) {
    groups != [] && (groups[0].0 == k || HasKey(groups[1..], k))
  }

  /** Every group holds rows of its own key, and no key has two groups. */
  ghost predicate GoodGroups(groups: seq<Group>) {
    groups == [] || (GoodGroup(groups[0]) && !HasKey(groups[1..], groups[0].0) && GoodGroups(groups[1..]))
  }

  ghost function Together(groups: seq<Group>): multiset<Row> {
    if groups == [] then multiset{} else multiset(groups[0].1) + Together(groups[1..])
  }

  lemma {:induction false} AddToKeys(groups: seq<Group>, r: Row, k: Key)
    ensures HasKey(AddTo(groups, r), k) <==> HasKey(groups, k) || k == KeyOf(r)
  {
    if groups != [] && groups[0].0 != KeyOf(r) {
      AddToKeys(groups[1..], r, k);
      assert AddTo(groups, r)[1..] == AddTo(groups[1..], r);
    } else if groups != [] {
      assert AddTo(groups, r)[1..] == groups[1..];
    } else {
      assert AddTo(groups, r)[1..] == [];
    }
  }

  lemma {:induction false} AddToTogether(groups: seq<Group>, r: Row)
    ensures Together(AddTo(groups, r)) == Together(groups) + multiset{r}
  {
    var gs := AddTo(groups, r);
    if groups == [] {
      assert gs[1..] == [];
    } else if groups[0].0 == KeyOf(r) {
      assert gs[1..] == groups[1..];
      assert multiset(groups[0].1 + [r]) == multiset(groups[0].1) + multiset{r};
      Regroup(multiset(groups[0].1), multiset{r}, Together(groups[1..]));
    } else {
      AddToTogether(groups[1..], r);
      assert gs[1..] == AddTo(groups[1..], r);
    }
  }

  lemma Regroup<T>(a: multiset<T>, b: multiset<T>, c: multiset<T>)
    ensures (a + b) + c == (a + c) + b
    ensures a + (c + b) == (a + c) + b
  {
  }

  lemma {:induction false} AddToGood(groups: seq<Group>, r: Row)
    requires GoodGroups(groups)
    ensures GoodGroups(AddTo(groups, r))
  {
    hide KeyOf;
    var gs := AddTo(groups, r);
    if groups == [] {
      assert gs[1..] == [];
    } else if groups[0].0 == KeyOf(r) {
      assert gs[1..] == groups[1..];
    } else {
      AddToGood(groups[1..], r);
      AddToKeys(groups[1..], r, groups[0].0);
      assert gs[1..] == AddTo(groups[1..], r);
    }
  }

  /** Grouping loses and repeats nothing. */
  lemma {:induction false} GroupsMean(rows: seq<Row>)
    ensures GoodGroups(Groups(rows)) && Together(Groups(rows)) == multiset(rows)
  {
    if rows != [] {
      hide GoodGroups, Together, AddTo;
      var n := |rows| - 1;
      GroupsMean(rows[..n]);
      AddToGood(Groups(rows[..n]), rows[n]);
      AddToTogether(Groups(rows[..n]), rows[n]);
      SnocBag(rows[..n], rows[n]);
      assert rows == rows[..n] + [rows[n]];
    }
  }

  /** The identifier is a primary key: no row occurs twice, and no two rows share one. */
  ghost predicate UniqueIds(ms: multiset<Row>) {
    && (forall a, b :: a in ms && b in ms && a.id == b.id ==> a == b)
    && (forall a :: a in ms ==> ms[a] == 1)
  }

  lemma UniqueLess(a: multiset<Row>, b: multiset<Row>)
    requires UniqueIds(b) && a <= b
    ensures UniqueIds(a)
  {
    forall x | x in a ensures a[x] == 1 {
      assert x in b;
    }
  }

  lemma UniqueOther(x: Row, ms: multiset<Row>, y: Row)
    requires UniqueIds(multiset{x} + ms) && y in ms
    ensures y.id != x.id
  {
    assert x in multiset{x} + ms && y in multiset{x} + ms;
    assert (multiset{x} + ms)[x] == 1 + ms[x];
  }

  lemma {:induction false} DistinctIsUnique(rows: seq<Row>)
    requires DistinctIds(rows)
    ensures UniqueIds(multiset(rows))
  {
    if rows != [] {
      var n := |rows| - 1;
      DistinctIsUnique(rows[..n]);
      assert rows == rows[..n] + [rows[n]];
      var ms := multiset(rows[..n]);
      forall y | y in ms ensures y.id != rows[n].id {
        assert y in rows[..n];
      }
      assert multiset(rows) == ms + multiset{rows[n]};
    }
  }

  // ---------------------------------------------------------------- planning one group

  type Refs = Id -> nat

  datatype Abort = UnknownBroker(key: Key) | SacredDelete(id: Id) | HasRefs(id: Id)

  datatype Plan = Plan(fix: seq<Row>, same: seq<Row>, delete: seq<Row>, aborts: seq<Abort>)

  const NoPlan := Plan([], [], [], [])

  /** More references first, then the newer, then the active one. */
  predicate Better(refs: Refs, a: Row, b: Row) {
    || refs(a.id) > refs(b.id)
    || (refs(a.id) == refs(b.id) && (a.created > b.created || (a.created == b.created && (a.active || !b.active))))
  }

  function Ranking(refs: Refs): (Row, Row) -> bool {
    (a: Row, b: Row) => Better(refs, a, b)
  }

  function FindSacred(grp: seq<Row>): Option<Row> {
    if grp == [] then None else if grp[0].id == SACRED then Some(grp[0]) else FindSacred(grp[1..])
  }

  function Others(grp: seq<Row>): seq<Row> {
    if grp == [] then [] else (if grp[0].id == SACRED then [] else [grp[0]]) + Others(grp[1..])
  }

  predicate Overridden(refs: Refs, grp: seq<Row>)
    requires grp != []
  {
    FindSacred(grp).Some? && Sort(grp, Ranking(refs))[0].id != SACRED
  }

  function Keep(refs: Refs, grp: seq<Row>): Row
    requires grp != []
  {
    if Overridden(refs, grp) then FindSacred(grp).value else Sort(grp, Ranking(refs))[0]
  }

  function Rest(refs: Refs, grp: seq<Row>): seq<Row>
    requires grp != []
  {
    if Overridden(refs, grp) then Others(grp) else Sort(grp, Ranking(refs))[1..]
  }

  function Deletable(refs: Refs, rest: seq<Row>): seq<Row> {
    if rest == [] then []
    else
      var n := |rest| - 1;
      Deletable(refs, rest[..n]) + if rest[n].id == SACRED || refs(rest[n].id) > 0 then [] else [rest[n]]
  }

  function Blocked(refs: Refs, rest: seq<Row>): seq<Abort> {
    if rest == [] then []
    else
      var n := |rest| - 1;
      Blocked(refs, rest[..n]) + if rest[n].id == SACRED then [SacredDelete(SACRED)]
                                 else if refs(rest[n].id) > 0 then [HasRefs(rest[n].id)]
                                 else []
  }

  function PlanGroup(refs: Refs, g: Group): Plan
    requires g.1 != []
  {
    if !Allowed(g.0.1) then NoPlan.(aborts := [UnknownBroker(g.0)])
    else
      PlanAround(refs, g.0.1, Keep(refs, g.1), Rest(refs, g.1))
  }

  function PlanAround(refs: Refs, lower: string, keep: Row, rest: seq<Row>): Plan {
    if keep.name == lower then Plan([], [keep], Deletable(refs, rest), Blocked(refs, rest))
    else Plan([keep], [], Deletable(refs, rest), Blocked(refs, rest))
  }

  function Join(p: Plan, q: Plan): Plan {
    Plan(p.fix + q.fix, p.same + q.same, p.delete + q.delete, p.aborts + q.aborts)
  }

  function PlanOf(refs: Refs, groups: seq<Group>): Plan
    requires GoodGroups(groups)
  {
    if groups == [] then NoPlan else Join(PlanGroup(refs, groups[0]), PlanOf(refs, groups[1..]))
  }

  lemma {:induction false} FindMeans(grp: seq<Row>)
    ensures FindSacred(grp).None? <==> forall r :: r in grp ==> r.id != SACRED
    ensures FindSacred(grp).Some? ==> FindSacred(grp).value.id == SACRED && FindSacred(grp).value in grp
  {
    if grp != [] {
      FindMeans(grp[1..]);
      assert grp == [grp[0]] + grp[1..];
    }
  }

  lemma {:induction false} OthersOnly(grp: seq<Row>)
    ensures forall r :: r in Others(grp) ==> r.id != SACRED
    ensures (forall r :: r in grp ==> r.id != SACRED) ==> Others(grp) == grp
  {
    if grp != [] {
      OthersOnly(grp[1..]);
      assert grp == [grp[0]] + grp[1..];
    }
  }

  lemma {:induction false} OthersMean(grp: seq<Row>)
    requires UniqueIds(multiset(grp)) && FindSacred(grp).Some?
    ensures multiset(grp) == multiset{FindSacred(grp).value} + multiset(Others(grp))
  {
    hide UniqueIds;
    var x, t, s := grp[0], grp[1..], FindSacred(grp).value;
    assert grp == [x] + t;
    ConsBag(x, t);
    if x.id == SACRED {
      NoOther(x, t);
      OthersOnly(t);
      assert Others(grp) == [] + Others(t) == t;
    } else {
      UniqueLess(multiset(t), multiset(grp));
      OthersMean(t);
      ConsBag(x, Others(t));
      Regroup(multiset{s}, multiset{x}, multiset(Others(t)));
    }
  }

  lemma NoOther(x: Row, t: seq<Row>)
    requires UniqueIds(multiset{x} + multiset(t)) && x.id == SACRED
    ensures forall r :: r in t ==> r.id != SACRED
  {
    forall r | r in t ensures r.id != SACRED {
      UniqueOther(x, multiset(t), r);
    }
  }

  lemma RankingOrders(refs: Refs)
    ensures TotalPreorder(Ranking(refs))
  {
  }

  /** The kept row and the rest make up the group; the kept one is the sacred row if the group has it and
      otherwise ranks no lower than any; the sacred row is never among the rest. */
  lemma KeepAndRest(refs: Refs, grp: seq<Row>)
    requires grp != [] && UniqueIds(multiset(grp))
    ensures multiset(grp) == multiset{Keep(refs, grp)} + multiset(Rest(refs, grp))
    ensures forall r :: r in Rest(refs, grp) ==> r.id != SACRED
    ensures FindSacred(grp).Some? ==> Keep(refs, grp).id == SACRED
    ensures FindSacred(grp).None? ==> forall r :: r in grp ==> Better(refs, Keep(refs, grp), r)
    ensures FindSacred(grp).None? ==> FirstBy(refs, grp, Keep(refs, grp))
  {
    FindMeans(grp);
    OthersOnly(grp);
    if FindSacred(grp).Some? {
      OthersMean(grp);
    }
    var sorted := Sort(grp, Ranking(refs));
    RankingOrders(refs);
    SortSorted(grp, Ranking(refs));
    hide Sort, FindSacred, Others;
    assert sorted == [sorted[0]] + sorted[1..];
    assert multiset(sorted) == multiset{sorted[0]} + multiset(sorted[1..]);
    if !Overridden(refs, grp) {
      forall r | r in sorted[1..] ensures r.id != SACRED {
        UniqueOther(sorted[0], multiset(sorted[1..]), r);
        assert r in multiset(sorted);
      }
    }
    forall r | r in grp ensures Better(refs, sorted[0], r) {
      assert r in multiset(sorted);
      var i :| 0 <= i < |sorted| && sorted[i] == r;
      assert i > 0 ==> Ranking(refs)(sorted[0], sorted[i]);
    }
    FirstSorted(refs, grp);
  }

  /** Fewer references, or as many and older, or as old and inactive where the other is active. */
  predicate Behind(refs: Refs, a: Row, b: Row) {
    || refs(a.id) < refs(b.id)
    || (refs(a.id) == refs(b.id) && a.created < b.created)
    || (refs(a.id) == refs(b.id) && a.created == b.created && !a.active && b.active)
  }

  ghost predicate FirstAt(refs: Refs, grp: seq<Row>, k: int) {
    && 0 <= k < |grp|
    && (forall j :: 0 <= j < |grp| ==> !Behind(refs, grp[k], grp[j]))
    && (forall j :: 0 <= j < k ==> Behind(refs, grp[j], grp[k]))
  }

  /** `keep` is the first of the rows that are behind no other. */
  ghost predicate FirstBy(refs: Refs, grp: seq<Row>, keep: Row) {
    exists k :: FirstAt(refs, grp, k) && grp[k] == keep
  }

  lemma BetterIs(refs: Refs, a: Row, b: Row)
    ensures Ranking(refs)(a, b) <==> !Behind(refs, a, b)
  {
  }

  lemma BehindOrders(refs: Refs, a: Row, b: Row, c: Row)
    ensures !Behind(refs, a, a) && (Behind(refs, a, b) && Behind(refs, b, c) ==> Behind(refs, a, c))
    ensures Behind(refs, a, c) ==> Behind(refs, a, b) || Behind(refs, b, c)
  {
  }

  lemma SortHead(grp: seq<Row>, le: (Row, Row) -> bool)
    requires |grp| > 1
    ensures Sort(grp, le)[0] == if le(grp[0], Sort(grp[1..], le)[0]) then grp[0] else Sort(grp[1..], le)[0]
  {
    hide Sort;
    assert grp == [grp[0]] + grp[1..];
    SortCons(grp[0], grp[1..], le);
  }

  lemma SortOne(grp: seq<Row>, le: (Row, Row) -> bool)
    requires |grp| == 1
    ensures Sort(grp, le)[0] == grp[0]
  {
    assert grp == [grp[0]] && grp[1..] == [];
  }

  lemma {:induction false} FirstSorted(refs: Refs, grp: seq<Row>)
    requires grp != []
    ensures FirstBy(refs, grp, Sort(grp, Ranking(refs))[0])
  {
    hide *;
    if |grp| == 1 {
      SortOne(grp, Ranking(refs));
      OnlyRow(refs, grp);
    } else {
      var y := Sort(grp[1..], Ranking(refs))[0];
      FirstSorted(refs, grp[1..]);
      SortHead(grp, Ranking(refs));
      BetterIs(refs, grp[0], y);
      FirstOfTwo(refs, grp, y);
    }
  }

  lemma OnlyRow(refs: Refs, grp: seq<Row>)
    requires |grp| == 1
    ensures FirstBy(refs, grp, grp[0])
  {
    BehindOrders(refs, grp[0], grp[0], grp[0]);
    assert FirstAt(refs, grp, 0);
  }

  lemma FirstOfTwo(refs: Refs, grp: seq<Row>, y: Row)
    requires |grp| > 1 && FirstBy(refs, grp[1..], y)
    ensures FirstBy(refs, grp, if !Behind(refs, grp[0], y) then grp[0] else y)
  {
    hide Behind;
    var t := grp[1..];
    var k :| FirstAt(refs, t, k) && t[k] == y;
    assert forall j :: 1 <= j < |grp| ==> grp[j] == t[j - 1];
    BehindOrders(refs, grp[0], y, grp[0]);
    if !Behind(refs, grp[0], y) {
      forall j | 0 <= j < |grp| ensures !Behind(refs, grp[0], grp[j]) {
        BehindOrders(refs, grp[0], y, grp[j]);
      }
      assert FirstAt(refs, grp, 0);
    } else {
      BehindOrders(refs, y, grp[0], y);
      assert FirstAt(refs, grp, k + 1);
    }
  }

  lemma {:induction false} RestSweeps(refs: Refs, rest: seq<Row>)
    requires forall r :: r in rest ==> r.id != SACRED
    ensures Blocked(refs, rest) == [] <==> forall r :: r in rest ==> refs(r.id) == 0
    ensures Blocked(refs, rest) == [] ==> Deletable(refs, rest) == rest
    ensures forall r :: r in Deletable(refs, rest) ==> r in rest && refs(r.id) == 0 && r.id != SACRED
    ensures forall a :: a in Blocked(refs, rest) ==> a.HasRefs?
  {
    if rest != [] {
      var n := |rest| - 1;
      assert rest == rest[..n] + [rest[n]];
      RestSweeps(refs, rest[..n]);
    }
  }

  // ---------------------------------------------------------------- when a plan goes through

  /** No two rows of one key stand in each other's way: at most one is referenced, and beside the sacred
      row none is. */
  ghost predicate Clean(refs: Refs, ms: multiset<Row>) {
    && (forall r :: r in ms ==> Allowed(Lower(r.name)))
    && (forall a, b :: a in ms && b in ms && a.id != b.id && KeyOf(a) == KeyOf(b) && refs(a.id) > 0 ==>
          refs(b.id) == 0 && b.id != SACRED)
  }

  ghost predicate CleanGroup(refs: Refs, grp: seq<Row>) {
    forall a, b :: a in grp && b in grp && a.id != b.id && refs(a.id) > 0 ==> refs(b.id) == 0 && b.id != SACRED
  }

  lemma SplitClean(refs: Refs, grp: seq<Row>, keep: Row, rest: seq<Row>)
    requires forall r :: r in grp <==> r == keep || r in rest
    requires forall r :: r in rest ==> r.id != keep.id && r.id != SACRED
    requires keep.id == SACRED || forall r :: r in rest ==> refs(r.id) <= refs(keep.id)
    ensures (forall r :: r in rest ==> refs(r.id) == 0) <==> CleanGroup(refs, grp)
  {
    if CleanGroup(refs, grp) {
      forall r | r in rest ensures refs(r.id) == 0 {
        assert r in grp && keep in grp;
      }
    } else {
      var a, b :| a in grp && b in grp && a.id != b.id && refs(a.id) > 0 && (refs(b.id) > 0 || b.id == SACRED);
    }
  }

  lemma KeepOrRest(grp: seq<Row>, keep: Row, rest: seq<Row>)
    requires UniqueIds(multiset(grp)) && multiset(grp) == multiset{keep} + multiset(rest)
    ensures forall r :: r in grp <==> r == keep || r in rest
    ensures forall r :: r in rest ==> r.id != keep.id
  {
    forall r ensures r in grp <==> r == keep || r in rest {
      assert r in grp <==> r in multiset(grp);
    }
    forall r | r in rest ensures r.id != keep.id {
      UniqueOther(keep, multiset(rest), r);
    }
  }

  /** Nothing but the kept row of a group is referenced exactly when the group is clean. */
  lemma RestUnreferencedIff(refs: Refs, grp: seq<Row>)
    requires grp != [] && UniqueIds(multiset(grp))
    ensures (forall r :: r in Rest(refs, grp) ==> refs(r.id) == 0) <==> CleanGroup(refs, grp)
  {
    KeepAndRest(refs, grp);
    hide Sort, FindSacred, Others, Keep, Rest, KeyOf, UniqueIds;
    KeepOrRest(grp, Keep(refs, grp), Rest(refs, grp));
    SplitClean(refs, grp, Keep(refs, grp), Rest(refs, grp));
  }

  lemma CleanGroupIff(refs: Refs, grp: seq<Row>, k: Key)
    requires grp != [] && forall i :: 0 <= i < |grp| ==> KeyOf(grp[i]) == k
    ensures Clean(refs, multiset(grp)) <==> Allowed(k.1) && CleanGroup(refs, grp)
  {
    hide Lower;
    assert forall r :: r in grp <==> r in multiset(grp);
    forall r | r in grp ensures KeyOf(r) == k && Lower(r.name) == k.1 {
      NameOfKey(r, k);
    }
    assert grp[0] in grp;
  }

  lemma NameOfKey(r: Row, k: Key)
    requires KeyOf(r) == k
    ensures Lower(r.name) == k.1
  {
  }

  // ---------------------------------------------------------------- the plan of one group

  ghost function Listed(p: Plan): multiset<Row> {
    multiset(p.fix) + multiset(p.same) + multiset(p.delete)
  }

  predicate Kept(p: Plan, r: Row) {
    r in p.fix || r in p.same
  }

  ghost predicate FineKept(p: Plan) {
    && (forall r :: r in p.fix ==> r.name != Lower(r.name))
    && (forall r :: r in p.same ==> r.name == Lower(r.name))
  }

  ghost predicate FineDeleted(refs: Refs, p: Plan) {
    && (forall r :: r in p.delete ==> refs(r.id) == 0 && r.id != SACRED)
    && (forall a :: a in p.aborts ==> !a.SacredDelete?)
  }

  lemma AroundListed(refs: Refs, lower: string, keep: Row, rest: seq<Row>)
    requires Deletable(refs, rest) == rest
    ensures Listed(PlanAround(refs, lower, keep, rest)) == multiset{keep} + multiset(rest)
  {
    hide Deletable, Blocked;
  }

  lemma AroundKept(refs: Refs, lower: string, keep: Row, rest: seq<Row>)
    requires Lower(keep.name) == lower
    ensures var p := PlanAround(refs, lower, keep, rest);
            FineKept(p) && Kept(p, keep) && forall r :: Kept(p, r) ==> r == keep
  {
    hide Deletable, Blocked, Lower;
  }

  lemma GroupListed(refs: Refs, g: Group)
    requires GoodGroup(g) && UniqueIds(multiset(g.1)) && PlanGroup(refs, g).aborts == []
    ensures Listed(PlanGroup(refs, g)) == multiset(g.1)
  {
    hide Allowed, UniqueIds, Keep, Rest, Deletable, Blocked, Listed;
    KeepAndRest(refs, g.1);
    RestSweeps(refs, Rest(refs, g.1));
    AroundListed(refs, g.0.1, Keep(refs, g.1), Rest(refs, g.1));
  }

  lemma KeepKey(refs: Refs, g: Group)
    requires GoodGroup(g) && UniqueIds(multiset(g.1))
    ensures var keep := Keep(refs, g.1); keep in g.1 && KeyOf(keep) == g.0 && Lower(keep.name) == g.0.1
  {
    KeepAndRest(refs, g.1);
    hide UniqueIds, Keep, Rest, KeyOf;
    var keep := Keep(refs, g.1);
    assert keep in multiset(g.1);
    assert KeyOf(keep) == g.0;
    NameOfKey(keep, g.0);
  }

  lemma GroupKept(refs: Refs, g: Group)
    requires GoodGroup(g) && UniqueIds(multiset(g.1)) && Allowed(g.0.1)
    ensures FineKept(PlanGroup(refs, g)) && Kept(PlanGroup(refs, g), Keep(refs, g.1))
    ensures forall r :: Kept(PlanGroup(refs, g), r) ==> r == Keep(refs, g.1)
  {
    hide Allowed, UniqueIds, Keep, Rest, Lower, PlanAround, FineKept, Kept;
    KeepKey(refs, g);
    AroundKept(refs, g.0.1, Keep(refs, g.1), Rest(refs, g.1));
  }

  lemma GroupDeleted(refs: Refs, g: Group)
    requires GoodGroup(g) && UniqueIds(multiset(g.1))
    ensures FineDeleted(refs, PlanGroup(refs, g))
  {
    hide Allowed, UniqueIds, Keep, Rest, Deletable, Blocked;
    KeepAndRest(refs, g.1);
    RestSweeps(refs, Rest(refs, g.1));
  }

  lemma GroupAborts(refs: Refs, g: Group)
    requires GoodGroup(g) && UniqueIds(multiset(g.1))
    ensures PlanGroup(refs, g).aborts == [] <==> Clean(refs, multiset(g.1))
  {
    hide Allowed, UniqueIds, Keep, Rest, Deletable, Blocked, Clean, CleanGroup;
    KeepAndRest(refs, g.1);
    RestSweeps(refs, Rest(refs, g.1));
    RestUnreferencedIff(refs, g.1);
    CleanGroupIff(refs, g.1, g.0);
  }

  // ---------------------------------------------------------------- the whole plan

  ghost predicate Ready(groups: seq<Group>) {
    GoodGroups(groups) && UniqueIds(Together(groups))
  }

  lemma ReadyParts(groups: seq<Group>)
    requires Ready(groups) && groups != []
    ensures GoodGroup(groups[0]) && UniqueIds(multiset(groups[0].1)) && Ready(groups[1..])
  {
    UniqueLess(multiset(groups[0].1), Together(groups));
    UniqueLess(Together(groups[1..]), Together(groups));
  }

  lemma ListedJoin(p: Plan, q: Plan)
    ensures Listed(Join(p, q)) == Listed(p) + Listed(q)
  {
    assert multiset(p.fix + q.fix) == multiset(p.fix) + multiset(q.fix);
    assert multiset(p.same + q.same) == multiset(p.same) + multiset(q.same);
    assert multiset(p.delete + q.delete) == multiset(p.delete) + multiset(q.delete);
  }

  lemma {:induction false} PlanListed(refs: Refs, groups: seq<Group>)
    requires Ready(groups) && PlanOf(refs, groups).aborts == []
    ensures Listed(PlanOf(refs, groups)) == Together(groups)
  {
    if groups == [] {
      assert PlanOf(refs, groups) == NoPlan;
    } else {
      ReadyParts(groups);
      var p, q := PlanGroup(refs, groups[0]), PlanOf(refs, groups[1..]);
      hide Ready, GoodGroup, UniqueIds, PlanGroup, Listed;
      GroupListed(refs, groups[0]);
      PlanListed(refs, groups[1..]);
      ListedJoin(p, q);
    }
  }

  lemma FineJoin(refs: Refs, p: Plan, q: Plan)
    requires FineKept(p) && FineDeleted(refs, p) && FineKept(q) && FineDeleted(refs, q)
    ensures FineKept(Join(p, q)) && FineDeleted(refs, Join(p, q))
  {
    hide Lower;
  }

  lemma KeptJoin(p: Plan, q: Plan, r: Row)
    ensures Kept(Join(p, q), r) <==> Kept(p, r) || Kept(q, r)
  {
  }

  lemma GroupKeptFine(refs: Refs, g: Group)
    requires GoodGroup(g) && UniqueIds(multiset(g.1))
    ensures FineKept(PlanGroup(refs, g))
  {
    hide Allowed, UniqueIds, PlanAround;
    if Allowed(g.0.1) {
      GroupKept(refs, g);
    }
  }

  /** Whatever the plan: rows to fix are not in lower case and the others are; a row to delete has no
      references and is not the sacred one, and the guard against deleting it never has to fire. */
  lemma {:induction false} PlanFine(refs: Refs, groups: seq<Group>)
    requires Ready(groups)
    ensures FineKept(PlanOf(refs, groups)) && FineDeleted(refs, PlanOf(refs, groups))
  {
    if groups != [] {
      ReadyParts(groups);
      var p, q := PlanGroup(refs, groups[0]), PlanOf(refs, groups[1..]);
      hide Ready, GoodGroup, UniqueIds, PlanGroup, FineKept, FineDeleted, Join;
      GroupKeptFine(refs, groups[0]);
      GroupDeleted(refs, groups[0]);
      PlanFine(refs, groups[1..]);
      FineJoin(refs, p, q);
    }
  }

  lemma GroupKeptKey(refs: Refs, g: Group, r: Row)
    requires GoodGroup(g) && UniqueIds(multiset(g.1)) && Kept(PlanGroup(refs, g), r)
    ensures r == Keep(refs, g.1) && KeyOf(r) == g.0
  {
    hide UniqueIds, Keep, Rest, KeyOf, PlanAround, Allowed;
    if Allowed(g.0.1) {
      GroupKept(refs, g);
    }
    KeepKey(refs, g);
  }

  lemma {:induction false} PlanKeptKey(refs: Refs, groups: seq<Group>, r: Row)
    requires Ready(groups) && Kept(PlanOf(refs, groups), r)
    ensures HasKey(groups, KeyOf(r))
  {
    if groups != [] {
      ReadyParts(groups);
      var p, q := PlanGroup(refs, groups[0]), PlanOf(refs, groups[1..]);
      hide Ready, GoodGroup, UniqueIds, PlanGroup, KeyOf, Kept, Join;
      KeptJoin(p, q, r);
      if Kept(p, r) {
        GroupKeptKey(refs, groups[0], r);
      } else {
        PlanKeptKey(refs, groups[1..], r);
      }
    }
  }

  /** At most one row of a key is kept. */
  lemma {:induction false} PlanKeepsOne(refs: Refs, groups: seq<Group>, a: Row, b: Row)
    requires Ready(groups) && Kept(PlanOf(refs, groups), a) && Kept(PlanOf(refs, groups), b) && KeyOf(a) == KeyOf(b)
    ensures a == b
  {
    if groups != [] {
      ReadyParts(groups);
      var p, q := PlanGroup(refs, groups[0]), PlanOf(refs, groups[1..]);
      hide Ready, GoodGroup, UniqueIds, PlanGroup, KeyOf, Kept, Join;
      KeptJoin(p, q, a);
      KeptJoin(p, q, b);
      if Kept(p, a) {
        GroupKeptKey(refs, groups[0], a);
      } else {
        PlanKeptKey(refs, groups[1..], a);
      }
      if Kept(p, b) {
        GroupKeptKey(refs, groups[0], b);
      } else {
        PlanKeptKey(refs, groups[1..], b);
      }
      if !Kept(p, a) && !Kept(p, b) {
        PlanKeepsOne(refs, groups[1..], a, b);
      }
    }
  }

  /** And without aborts every key has one. */
  lemma {:induction false} PlanKeepsSome(refs: Refs, groups: seq<Group>, k: Key) returns (r: Row)
    requires Ready(groups) && PlanOf(refs, groups).aborts == [] && HasKey(groups, k)
    ensures Kept(PlanOf(refs, groups), r) && KeyOf(r) == k
  {
    ReadyParts(groups);
    var g, p, q := groups[0], PlanGroup(refs, groups[0]), PlanOf(refs, groups[1..]);
    hide Ready, GoodGroup, UniqueIds, KeyOf, Kept, Keep, Rest, Allowed, PlanAround;
    if g.0 == k {
      assert Allowed(g.0.1);
      GroupKept(refs, g);
      r := Keep(refs, g.1);
      GroupKeptKey(refs, g, r);
    } else {
      r := PlanKeepsSome(refs, groups[1..], k);
    }
    KeptJoin(p, q, r);
  }

  lemma {:induction false} TogetherKey(groups: seq<Group>, r: Row)
    requires GoodGroups(groups) && r in Together(groups)
    ensures HasKey(groups, KeyOf(r))
  {
    if r in groups[0].1 {
    } else {
      assert r in Together(groups[1..]);
      TogetherKey(groups[1..], r);
    }
  }

  lemma CleanJoin(refs: Refs, a: multiset<Row>, b: multiset<Row>)
    requires forall x, y :: x in a && y in b ==> KeyOf(x) != KeyOf(y)
    ensures Clean(refs, a + b) <==> Clean(refs, a) && Clean(refs, b)
  {
    hide Allowed, Lower, KeyOf;
    if Clean(refs, a + b) {
      assert forall x :: x in a ==> x in a + b;
      assert forall x :: x in b ==> x in a + b;
    }
  }

  lemma {:induction false} PlanAborts(refs: Refs, groups: seq<Group>)
    requires Ready(groups)
    ensures PlanOf(refs, groups).aborts == [] <==> Clean(refs, Together(groups))
  {
    if groups == [] {
      assert PlanOf(refs, groups) == NoPlan;
    } else {
      ReadyParts(groups);
      var g, t := groups[0], groups[1..];
      forall x, y | x in multiset(g.1) && y in Together(t) ensures KeyOf(x) != KeyOf(y) {
        assert x in g.1;
        TogetherKey(t, y);
      }
      hide Ready, GoodGroup, UniqueIds, PlanGroup, KeyOf, Clean;
      GroupAborts(refs, g);
      PlanAborts(refs, t);
      CleanJoin(refs, multiset(g.1), Together(t));
    }
  }

  lemma RowsReady(rows: seq<Row>)
    requires DistinctIds(rows)
    ensures Ready(Groups(rows))
  {
    GroupsMean(rows);
    DistinctIsUnique(rows);
  }

  /** The plan for a table. */
  ghost function PlanFor(refs: Refs, rows: seq<Row>): Plan
    requires DistinctIds(rows)
  {
    RowsReady(rows);
    PlanOf(refs, Groups(rows))
  }

  /** A plan goes through exactly when every broker is known and no two rows of one key are in each other's
      way; then keep, case-fix and delete are a partition of the table. */
  lemma PlanPartitions(refs: Refs, rows: seq<Row>)
    requires DistinctIds(rows)
    ensures PlanFor(refs, rows).aborts == [] <==> Clean(refs, multiset(rows))
    ensures PlanFor(refs, rows).aborts == [] ==> Listed(PlanFor(refs, rows)) == multiset(rows)
    ensures FineKept(PlanFor(refs, rows)) && FineDeleted(refs, PlanFor(refs, rows))
  {
    RowsReady(rows);
    GroupsMean(rows);
    hide Ready, Groups, Together, PlanOf, Listed, Clean, FineKept, FineDeleted;
    PlanAborts(refs, Groups(rows));
    PlanFine(refs, Groups(rows));
    if PlanOf(refs, Groups(rows)).aborts == [] {
      PlanListed(refs, Groups(rows));
    }
  }

  /** With no aborts, each (user, lower-case broker) of the table keeps exactly one row. */
  lemma OneKeptPerKey(refs: Refs, rows: seq<Row>, r: Row)
    requires DistinctIds(rows) && PlanFor(refs, rows).aborts == [] && r in rows
    ensures exists k :: Kept(PlanFor(refs, rows), k) && KeyOf(k) == KeyOf(r)
    ensures forall a, b :: Kept(PlanFor(refs, rows), a) && Kept(PlanFor(refs, rows), b) && KeyOf(a) == KeyOf(b) ==> a == b
  {
    RowsReady(rows);
    GroupsMean(rows);
    var groups := Groups(rows);
    assert r in multiset(rows);
    TogetherKey(groups, r);
    hide Groups, Together, PlanOf, KeyOf, HasKey, Kept;
    var k := PlanKeepsSome(refs, groups, KeyOf(r));
    forall a, b | Kept(PlanFor(refs, rows), a) && Kept(PlanFor(refs, rows), b) && KeyOf(a) == KeyOf(b) ensures a == b {
      PlanKeepsOne(refs, groups, a, b);
    }
  }

  // ---------------------------------------------------------------- building it

  method BuildPlan(rows: seq<Row>, refs: Refs) returns (plan: Plan)
    requires DistinctIds(rows)
    ensures plan == PlanFor(refs, rows)
  {
    hide AddTo, GoodGroup, PlanGroup;
    var groups: seq<Group> := [];
    for i := 0 to |rows|
      invariant groups == Groups(rows[..i])
    {
      assert rows[..i + 1][..i] == rows[..i];
      groups := AddTo(groups, rows[i]);
    }
    assert rows[..|rows|] == rows;
    RowsReady(rows);
    plan := NoPlan;
    assert Join(NoPlan, PlanOf(refs, groups)) == PlanOf(refs, groups);
    assert groups[0..] == groups;
    hide Groups;
    for i := 0 to |groups|
      invariant GoodGroups(groups[i..]) && Join(plan, PlanOf(refs, groups[i..])) == PlanOf(refs, groups)
    {
      assert groups[i..][1..] == groups[i + 1..];
      GoodNonEmpty(groups[i]);
      var more := PlanOne(refs, groups[i]);
      JoinAssociative(plan, more, PlanOf(refs, groups[i + 1..]));
      plan := Join(plan, more);
    }
    assert Join(plan, NoPlan) == plan;
  }

  lemma GoodNonEmpty(g: Group)
    ensures GoodGroup(g) ==> g.1 != []
  {
  }

  lemma JoinAssociative(p: Plan, q: Plan, r: Plan)
    ensures Join(Join(p, q), r) == Join(p, Join(q, r))
  {
  }

  method PlanOne(refs: Refs, g: Group) returns (plan: Plan)
    requires g.1 != []
    ensures plan == PlanGroup(refs, g)
  {
    hide Allowed, Sort, FindSacred, Others;
    if !Allowed(g.0.1) {
      return NoPlan.(aborts := [UnknownBroker(g.0)]);
    }
    var sorted := Sort(g.1, Ranking(refs));
    var keep, rest := sorted[0], sorted[1..];
    var sacred := FindSacred(g.1);
    if sacred.Some? && keep.id != SACRED {
      keep, rest := sacred.value, Others(g.1);
    }
    var delete, aborts := SweepRest(refs, rest);
    if keep.name == g.0.1 {
      plan := Plan([], [keep], delete, aborts);
    } else {
      plan := Plan([keep], [], delete, aborts);
    }
  }

  method SweepRest(refs: Refs, rest: seq<Row>) returns (delete: seq<Row>, aborts: seq<Abort>)
    ensures delete == Deletable(refs, rest) && aborts == Blocked(refs, rest)
  {
    delete, aborts := [], [];
    for i := 0 to |rest|
      invariant delete == Deletable(refs, rest[..i]) && aborts == Blocked(refs, rest[..i])
    {
      assert rest[..i + 1][..i] == rest[..i];
      if rest[i].id == SACRED {
        aborts := aborts + [SacredDelete(SACRED)];
      } else if refs(rest[i].id) > 0 {
        aborts := aborts + [HasRefs(rest[i].id)];
      } else {
        delete := delete + [rest[i]];
      }
    }
    assert rest[..|rest|] == rest;
  }

  // ---------------------------------------------------------------- applying it

  function Without(table: seq<Row>, ids: set<Id>): seq<Row> {
    if table == [] then []
    else
      var n := |table| - 1;
      Without(table[..n], ids) + if table[n].id in ids then [] else [table[n]]
  }

  function Normalised(r: Row): Row {
    r.(name := Lower(r.name))
  }

  /** The table the two statements leave. */
  function Mutated(table: seq<Row>, plan: Plan): seq<Row> {
    Map(Normalised, Without(table, Ids(plan.delete)))
  }

  ghost predicate Resolves(table: seq<Row>, refs: seq<Id>) {
    forall i :: 0 <= i < |refs| ==> refs[i] in Ids(table)
  }

  /** The four checks before the commit. */
  ghost predicate Verified(table: seq<Row>, rowsBefore: int, deleted: nat, strategyRefs: seq<Id>) {
    && (forall r :: r in table ==> r.name == Lower(r.name) && Allowed(r.name))
    && (exists r :: r in table && r.id == SACRED)
    && (forall r :: r in table && r.id == SACRED ==> r.name == "dhan")
    && |table| == rowsBefore - deleted
    && Resolves(table, strategyRefs)
  }

  datatype Statement = DeleteRows | UpdateNames | Checks | Commit

  datatype Outcome = Refused | Committed | RolledBack

  class Database {
    var table: seq<Row>

    constructor (table: seq<Row>)
      ensures this.table == table
    {
      this.table := table;
    }

    /** Everything happens in one transaction; `faults` are the statements the database makes fail. */
    method ApplyPlan(plan: Plan, rowsBefore: int, strategyRefs: seq<Id>, faults: set<Statement>) returns (outcome: Outcome)
      modifies this
      ensures outcome == Refused <==> plan.aborts != []
      ensures outcome != Committed ==> table == old(table)
      ensures outcome == Committed ==> table == Mutated(old(table), plan)
      ensures plan.aborts == [] ==>
                (outcome == Committed <==>
                   && (plan.delete == [] || (DeleteRows !in faults && SACRED !in Ids(plan.delete)
                                             && |old(table)| - |Without(old(table), Ids(plan.delete))| == |plan.delete|))
                   && UpdateNames !in faults && Checks !in faults && Commit !in faults
                   && Verified(Mutated(old(table), plan), rowsBefore, |plan.delete|, strategyRefs))
    {
      hide Verified, Lower;
      if plan.aborts != [] {
        return Refused;
      }
      var saved := table;
      if plan.delete != [] {
        if SACRED in Ids(plan.delete) || DeleteRows in faults {
          return RolledBack;
        }
        table := Without(table, Ids(plan.delete));
        if |saved| - |table| != |plan.delete| {
          table := saved;
          return RolledBack;
        }
      } else {
        WithoutNone(table);
      }
      if UpdateNames in faults {
        table := saved;
        return RolledBack;
      }
      table := Map(Normalised, table);
      var ok := Check(table, rowsBefore, |plan.delete|, strategyRefs);
      if !ok || Checks in faults || Commit in faults {
        table := saved;
        return RolledBack;
      }
      return Committed;
    }
  }

  lemma {:induction false} WithoutNone(table: seq<Row>)
    ensures Without(table, Ids([])) == table
  {
    if table != [] {
      WithoutNone(table[..|table| - 1]);
    }
  }

  method Check(table: seq<Row>, rowsBefore: int, deleted: nat, strategyRefs: seq<Id>) returns (ok: bool)
    ensures ok <==> Verified(table, rowsBefore, deleted, strategyRefs)
  {
    var names, sacred, dhan := true, false, true;
    for i := 0 to |table|
      invariant names <==> forall r :: r in table[..i] ==> r.name == Lower(r.name) && Allowed(r.name)
      invariant sacred <==> exists r :: r in table[..i] && r.id == SACRED
      invariant dhan <==> forall r :: r in table[..i] && r.id == SACRED ==> r.name == "dhan"
    {
      assert table[..i + 1] == table[..i] + [table[i]];
      if table[i].name != Lower(table[i].name) || !Allowed(table[i].name) {
        names := false;
      }
      if table[i].id == SACRED {
        sacred := true;
        if table[i].name != "dhan" {
          dhan := false;
        }
      }
    }
    assert table[..|table|] == table;
    var resolves := true;
    for i := 0 to |strategyRefs|
      invariant resolves <==> forall j :: 0 <= j < i ==> strategyRefs[j] in Ids(table)
    {
      if strategyRefs[i] !in Ids(table) {
        resolves := false;
      }
    }
    ok := names && sacred && dhan && |table| == rowsBefore - deleted && resolves;
  }

  // ---------------------------------------------------------------- what a commit leaves

  lemma {:induction false} WithoutMeans(table: seq<Row>, ids: set<Id>)
    ensures forall r :: r in Without(table, ids) <==> r in table && r.id !in ids
    ensures DistinctIds(table) ==> DistinctIds(Without(table, ids))
  {
    if table != [] {
      var n := |table| - 1;
      WithoutMeans(table[..n], ids);
      assert table == table[..n] + [table[n]];
      if DistinctIds(table) {
        var w := Without(table[..n], ids);
        forall i | 0 <= i < |w| ensures w[i].id != table[n].id {
          assert w[i] in w;
          assert w[i] in table[..n];
        }
      }
    }
  }

  /** The rows a deletion takes. */
  ghost function Taken(table: seq<Row>, ids: set<Id>): seq<Row> {
    if table == [] then []
    else
      var n := |table| - 1;
      Taken(table[..n], ids) + if table[n].id in ids then [table[n]] else []
  }

  lemma {:induction false} TakenMeans(table: seq<Row>, ids: set<Id>)
    ensures forall r :: r in Taken(table, ids) <==> r in table && r.id in ids
    ensures multiset(Taken(table, ids)) <= multiset(table)
    ensures |Taken(table, ids)| + |Without(table, ids)| == |table|
  {
    if table != [] {
      var n := |table| - 1;
      TakenMeans(table[..n], ids);
      assert table == table[..n] + [table[n]];
      SnocBag(table[..n], table[n]);
      SnocBag(Taken(table[..n], ids), table[n]);
    }
  }

  lemma SameMembers(a: multiset<Row>, b: multiset<Row>)
    requires UniqueIds(a) && UniqueIds(b) && forall r :: r in a <==> r in b
    ensures a == b
  {
    forall r ensures a[r] == b[r] {
      assert r in a <==> r in b;
    }
  }

  lemma ListedMember(p: Plan, r: Row)
    ensures r in Listed(p) <==> Kept(p, r) || r in p.delete
  {
  }

  lemma DeletedBag(p: Plan)
    ensures multiset(p.delete) <= Listed(p)
  {
  }

  /** The delete statement takes exactly the planned rows, so its row count is the planned one. */
  lemma DeleteTakesPlanned(refs: Refs, rows: seq<Row>)
    requires DistinctIds(rows) && PlanFor(refs, rows).aborts == []
    ensures var p := PlanFor(refs, rows); |rows| - |Without(rows, Ids(p.delete))| == |p.delete|
  {
    PlanPartitions(refs, rows);
    DistinctIsUnique(rows);
    var p := PlanFor(refs, rows);
    hide PlanFor, FineKept, FineDeleted, Clean, Listed, UniqueIds, Without, Taken;
    var ids := Ids(p.delete);
    TakenMeans(rows, ids);
    var taken := Taken(rows, ids);
    DeletedBag(p);
    UniqueLess(multiset(taken), multiset(rows));
    UniqueLess(multiset(p.delete), multiset(rows));
    forall r ensures r in multiset(taken) <==> r in multiset(p.delete) {
      TakenIsDeleted(rows, p, r);
    }
    SameMembers(multiset(taken), multiset(p.delete));
    assert |multiset(taken)| == |taken| && |multiset(p.delete)| == |p.delete|;
  }

  lemma TakenIsDeleted(rows: seq<Row>, p: Plan, r: Row)
    requires UniqueIds(multiset(rows)) && multiset(p.delete) <= multiset(rows)
    ensures r in rows && r.id in Ids(p.delete) <==> r in p.delete
  {
    if r in rows && r.id in Ids(p.delete) {
      var d :| d in p.delete && d.id == r.id;
      assert d in multiset(p.delete) && d in multiset(rows) && r in multiset(rows);
    }
    if r in p.delete {
      assert r in multiset(p.delete) && r in multiset(rows);
    }
  }

  /** Every row left was kept by the plan. */
  lemma LeftIsKept(refs: Refs, rows: seq<Row>, r: Row)
    requires DistinctIds(rows) && PlanFor(refs, rows).aborts == [] && r in Without(rows, Ids(PlanFor(refs, rows).delete))
    ensures Kept(PlanFor(refs, rows), r)
  {
    PlanPartitions(refs, rows);
    var p := PlanFor(refs, rows);
    hide PlanFor, FineKept, FineDeleted, Clean, Listed, Without;
    WithoutMeans(rows, Ids(p.delete));
    assert r in multiset(rows);
    ListedMember(p, r);
  }

  ghost predicate UniqueBrokers(table: seq<Row>) {
    forall i, j :: 0 <= i < j < |table| ==> (table[i].user, table[i].name) != (table[j].user, table[j].name)
  }

  /** Applied to the table it was planned for, a plan without aborts leaves each user with each broker once,
      in lower case and known, and the sacred row in place if it was there. */
  lemma MutatedIsUnique(refs: Refs, rows: seq<Row>)
    requires DistinctIds(rows) && PlanFor(refs, rows).aborts == []
    ensures var after := Mutated(rows, PlanFor(refs, rows));
            && UniqueBrokers(after)
            && (forall r :: r in after ==> r.name == Lower(r.name) && Allowed(r.name))
            && |after| == |rows| - |PlanFor(refs, rows).delete|
  {
    DeleteTakesPlanned(refs, rows);
    var after := Mutated(rows, PlanFor(refs, rows));
    hide PlanFor, Without, Lower, Allowed;
    forall i, j | 0 <= i < j < |after| ensures (after[i].user, after[i].name) != (after[j].user, after[j].name) {
      BrokersDiffer(refs, rows, i, j);
    }
    forall r | r in after ensures r.name == Lower(r.name) && Allowed(r.name) {
      var i :| 0 <= i < |after| && after[i] == r;
      NameIsFine(refs, rows, i);
    }
  }

  lemma BrokersDiffer(refs: Refs, rows: seq<Row>, i: nat, j: nat)
    requires DistinctIds(rows) && PlanFor(refs, rows).aborts == [] && i < j < |Mutated(rows, PlanFor(refs, rows))|
    ensures var after := Mutated(rows, PlanFor(refs, rows));
            (after[i].user, after[i].name) != (after[j].user, after[j].name)
  {
    var p := PlanFor(refs, rows);
    hide PlanFor, Without, Lower, Kept;
    var left := Without(rows, Ids(p.delete));
    WithoutMeans(rows, Ids(p.delete));
    assert left[i] in left && left[j] in left && left[i].id != left[j].id;
    LeftIsKept(refs, rows, left[i]);
    LeftIsKept(refs, rows, left[j]);
    OneKeptPerKey(refs, rows, left[i]);
    assert KeyOf(left[i]) != KeyOf(left[j]);
  }

  lemma NameIsFine(refs: Refs, rows: seq<Row>, i: nat)
    requires DistinctIds(rows) && PlanFor(refs, rows).aborts == [] && i < |Mutated(rows, PlanFor(refs, rows))|
    ensures var r := Mutated(rows, PlanFor(refs, rows))[i]; r.name == Lower(r.name) && Allowed(r.name)
  {
    var p := PlanFor(refs, rows);
    PlanPartitions(refs, rows);
    hide PlanFor, Without, Lower, Listed, Allowed, FineKept, FineDeleted;
    var left := Without(rows, Ids(p.delete));
    WithoutMeans(rows, Ids(p.delete));
    assert left[i] in left;
    assert left[i] in multiset(rows);
    LowerTwice(left[i].name);
  }

  lemma NormalisedIds(t: seq<Row>)
    ensures Ids(Map(Normalised, t)) == Ids(t)
  {
    var m := Map(Normalised, t);
    forall x ensures x in Ids(m) <==> x in Ids(t) {
      if x in Ids(t) {
        var r :| r in t && r.id == x;
        var i :| 0 <= i < |t| && t[i] == r;
        assert m[i] in m && m[i].id == x;
      }
      if x in Ids(m) {
        var r :| r in m && r.id == x;
        var i :| 0 <= i < |m| && m[i] == r;
        assert t[i] in t && t[i].id == x;
      }
    }
  }

  /** No reference is lost: whatever row a reference pointed at is still there. */
  lemma ReferencesSurvive(refs: Refs, rows: seq<Row>, x: Id)
    requires DistinctIds(rows) && PlanFor(refs, rows).aborts == [] && x in Ids(rows)
    requires refs(x) > 0 || x == SACRED
    ensures x in Ids(Mutated(rows, PlanFor(refs, rows)))
  {
    var p := PlanFor(refs, rows);
    var left := Without(rows, Ids(p.delete));
    PlanPartitions(refs, rows);
    hide PlanFor, Without;
    WithoutMeans(rows, Ids(p.delete));
    NormalisedIds(left);
    var r :| r in rows && r.id == x;
    assert x !in Ids(p.delete);
    assert r in left;
  }

  /** The checks then pass exactly when the sacred row is in the table under the name it must have and the
      strategies' references resolved to begin with. */
  lemma ChecksPassIff(refs: Refs, rows: seq<Row>, strategyRefs: seq<Id>)
    requires DistinctIds(rows) && PlanFor(refs, rows).aborts == []
    requires forall i :: 0 <= i < |strategyRefs| && strategyRefs[i] in Ids(rows) ==> refs(strategyRefs[i]) > 0
    ensures Verified(Mutated(rows, PlanFor(refs, rows)), |rows|, |PlanFor(refs, rows).delete|, strategyRefs) <==>
            (exists r :: r in rows && r.id == SACRED && Lower(r.name) == "dhan") && Resolves(rows, strategyRefs)
  {
    hide PlanFor, Mutated, Resolves, Lower, Allowed, UniqueBrokers;
    MutatedIsUnique(refs, rows);
    ResolvesIff(refs, rows, strategyRefs);
    SacredIff(refs, rows);
  }

  lemma ResolvesIff(refs: Refs, rows: seq<Row>, strategyRefs: seq<Id>)
    requires DistinctIds(rows) && PlanFor(refs, rows).aborts == []
    requires forall i :: 0 <= i < |strategyRefs| && strategyRefs[i] in Ids(rows) ==> refs(strategyRefs[i]) > 0
    ensures Resolves(Mutated(rows, PlanFor(refs, rows)), strategyRefs) <==> Resolves(rows, strategyRefs)
  {
    var p := PlanFor(refs, rows);
    WithoutMeans(rows, Ids(p.delete));
    NormalisedIds(Without(rows, Ids(p.delete)));
    forall i | 0 <= i < |strategyRefs|
      ensures strategyRefs[i] in Ids(Mutated(rows, p)) <==> strategyRefs[i] in Ids(rows)
    {
      if strategyRefs[i] in Ids(rows) {
        ReferencesSurvive(refs, rows, strategyRefs[i]);
      }
    }
  }

  lemma SacredIff(refs: Refs, rows: seq<Row>)
    requires DistinctIds(rows) && PlanFor(refs, rows).aborts == []
    ensures var after := Mutated(rows, PlanFor(refs, rows));
            (exists r :: r in after && r.id == SACRED) && (forall r :: r in after && r.id == SACRED ==> r.name == "dhan") <==>
            exists r :: r in rows && r.id == SACRED && Lower(r.name) == "dhan"
  {
    var p := PlanFor(refs, rows);
    var after := Mutated(rows, PlanFor(refs, rows));
    PlanPartitions(refs, rows);
    hide PlanFor, Lower, Listed, FineKept, Mutated, Normalised;
    forall r: Row | r.id == SACRED ensures r in after <==> exists q :: q in rows && q.id == SACRED && r == Normalised(q) {
      SacredStays(rows, p, r);
    }
    if q :| q in rows && q.id == SACRED {
      NormalisedName(q);
      forall r | r in rows && r.id == SACRED ensures r == q {
        SameId(rows, r, q);
      }
      assert Normalised(q) in after;
    }
  }

  lemma SameId(rows: seq<Row>, a: Row, b: Row)
    requires DistinctIds(rows) && a in rows && b in rows && a.id == b.id
    ensures a == b
  {
  }

  lemma NormalisedName(q: Row)
    ensures Normalised(q).id == q.id && Normalised(q).name == Lower(q.name)
  {
  }

  lemma SacredStays(rows: seq<Row>, p: Plan, r: Row)
    requires SACRED !in Ids(p.delete) && r.id == SACRED
    ensures r in Mutated(rows, p) <==> exists q :: q in rows && q.id == SACRED && r == Normalised(q)
  {
    hide Without, Lower;
    var left, after := Without(rows, Ids(p.delete)), Mutated(rows, p);
    WithoutMeans(rows, Ids(p.delete));
    if r in after {
      var i :| 0 <= i < |after| && after[i] == r;
      assert left[i] in left && r == Normalised(left[i]);
    }
    if q :| q in rows && q.id == SACRED && r == Normalised(q) {
      assert q in left;
      var i :| 0 <= i < |left| && left[i] == q;
      assert after[i] == r;
    }
  }

  // ---------------------------------------------------------------- the whole clean-up

  /** Every broker is known, and no two rows of one user and broker are in each other's way: at most one is
      referenced, and beside the sacred row none is. */
  ghost predicate CleanTable(queries: seq<Query>, table: seq<Row>) {
    && (forall r :: r in table ==> Allowed(Lower(r.name)))
    && (forall a, b :: a in table && b in table && a.id != b.id && KeyOf(a) == KeyOf(b) && Referenced(queries, a.id) ==>
          !Referenced(queries, b.id) && b.id != SACRED)
  }

  ghost predicate SacredIsDhan(table: seq<Row>) {
    exists r :: r in table && r.id == SACRED && Lower(r.name) == "dhan"
  }

  /** The counts tell which rows of the table are referenced. */
  ghost predicate Tells(refs: Refs, queries: seq<Query>, table: seq<Row>) {
    forall r :: r in table ==> (refs(r.id) == 0 <==> !Referenced(queries, r.id))
  }

  lemma CleanTells(refs: Refs, queries: seq<Query>, table: seq<Row>)
    requires Tells(refs, queries, table)
    ensures Clean(refs, multiset(table)) <==> CleanTable(queries, table)
  {
    hide Allowed, Lower, KeyOf, Referenced;
    assert forall r :: r in table <==> r in multiset(table);
  }

  function RefsFrom(counts: map<Id, Counts>): Refs {
    (id: Id) => if id in counts then Total(counts[id]) else 0
  }

  lemma LoadedTells(queries: seq<Query>, table: seq<Row>, counts: map<Id, Counts>)
    requires Grouped(queries) && forall id :: id in Ids(table) ==> id in counts && counts[id] == CountsOf(queries, id)
    ensures Tells(RefsFrom(counts), queries, table)
  {
    hide Referenced, CountsOf;
    forall r | r in table ensures RefsFrom(counts)(r.id) == 0 <==> !Referenced(queries, r.id) {
      assert r.id in Ids(table);
      TotalZeroMeansUnreferenced(queries, r.id);
    }
  }

  lemma SacredKeptIff(refs: Refs, rows: seq<Row>)
    requires DistinctIds(rows) && PlanFor(refs, rows).aborts == []
    ensures (exists r :: Kept(PlanFor(refs, rows), r) && r.id == SACRED) <==> (exists r :: r in rows && r.id == SACRED)
  {
    PlanPartitions(refs, rows);
    var p := PlanFor(refs, rows);
    hide PlanFor, Listed, Kept, FineKept, Clean;
    if r :| Kept(p, r) && r.id == SACRED {
      ListedMember(p, r);
      assert r in multiset(rows);
    }
    if r :| r in rows && r.id == SACRED {
      ListedMember(p, r);
      assert r in multiset(rows);
    }
  }

  /** Every row a reference pointed at is still there. */
  lemma ReferencedStay(refs: Refs, queries: seq<Query>, rows: seq<Row>)
    requires DistinctIds(rows) && PlanFor(refs, rows).aborts == [] && Tells(refs, queries, rows)
    ensures forall x :: x in Ids(rows) && Referenced(queries, x) ==> x in Ids(Mutated(rows, PlanFor(refs, rows)))
  {
    hide PlanFor, Referenced, Mutated;
    forall x | x in Ids(rows) && Referenced(queries, x) ensures x in Ids(Mutated(rows, PlanFor(refs, rows))) {
      var r :| r in rows && r.id == x;
      ReferencesSurvive(refs, rows, x);
    }
  }

  datatype Ending = NotPlanned | SacredMissing | Declined | BackupFailed | Applied(outcome: Outcome)

  /** From the loaded counts to the transaction.  A commit leaves each user with each broker once and loses no
      referenced row; any other ending leaves the table as it was; and with a database that does not fail it
      commits exactly when the table is clean, the sacred row is there as it must be, the strategies'
      references resolve and the operator and the backup agree. */
  method CleanUp(db: Database, queries: seq<Query>, strategyRefs: seq<Id>, confirmed: bool, backupOk: bool, faults: set<Statement>)
    returns (ending: Ending)
    requires DistinctIds(db.table) && Grouped(queries)
    requires forall i :: 0 <= i < |strategyRefs| && strategyRefs[i] in Ids(db.table) ==> Referenced(queries, strategyRefs[i])
    modifies db
    ensures ending != Applied(Committed) ==> db.table == old(db.table)
    ensures ending == Applied(Committed) ==>
              && UniqueBrokers(db.table)
              && (forall r :: r in db.table ==> r.name == Lower(r.name) && Allowed(r.name))
              && (forall x :: x in Ids(old(db.table)) && Referenced(queries, x) ==> x in Ids(db.table))
    ensures ending == NotPlanned <==> !CleanTable(queries, old(db.table))
    ensures faults == {} ==>
              (ending == Applied(Committed) <==>
                 && CleanTable(queries, old(db.table)) && SacredIsDhan(old(db.table)) && Resolves(old(db.table), strategyRefs)
                 && confirmed && backupOk)
  {
    hide PlanFor, Mutated, Referenced, CleanTable, Lower, Allowed, Verified, UniqueBrokers, Grouped, Without, Kept, Resolves, SacredIsDhan;
    var rows := db.table;
    var counts := LoadFkRefCounts(rows, queries);
    var refs := RefsFrom(counts);
    LoadedTells(queries, rows, counts);
    hide RefsFrom;
    var plan := BuildPlan(rows, refs);
    CleanTells(refs, queries, rows);
    PlanPartitions(refs, rows);
    if plan.aborts != [] {
      return NotPlanned;
    }
    SacredKeptIff(refs, rows);
    DhanIsThere(rows);
    if !KeepsSacred(plan) {
      return SacredMissing;
    }
    if !confirmed {
      return Declined;
    }
    if !backupOk {
      return BackupFailed;
    }
    MutatedIsUnique(refs, rows);
    ReferencedStay(refs, queries, rows);
    StrategiesTell(refs, queries, rows, strategyRefs);
    ChecksPassIff(refs, rows, strategyRefs);
    DeleteTakesPlanned(refs, rows);
    assert SACRED !in Ids(plan.delete);
    SacredDhanIs(rows);
    var outcome := db.ApplyPlan(plan, |rows|, strategyRefs, faults);
    ending := Applied(outcome);
  }

  predicate KeepsSacred(plan: Plan) {
    exists r :: r in plan.fix + plan.same && r.id == SACRED
  }

  lemma DhanIsThere(rows: seq<Row>)
    ensures SacredIsDhan(rows) ==> exists r :: r in rows && r.id == SACRED
  {
  }

  lemma SacredDhanIs(rows: seq<Row>)
    ensures SacredIsDhan(rows) <==> exists r :: r in rows && r.id == SACRED && Lower(r.name) == "dhan"
  {
  }

  lemma StrategiesTell(refs: Refs, queries: seq<Query>, rows: seq<Row>, strategyRefs: seq<Id>)
    requires Tells(refs, queries, rows)
    requires forall i :: 0 <= i < |strategyRefs| && strategyRefs[i] in Ids(rows) ==> Referenced(queries, strategyRefs[i])
    ensures forall i :: 0 <= i < |strategyRefs| && strategyRefs[i] in Ids(rows) ==> refs(strategyRefs[i]) > 0
  {
    hide Referenced;
    forall i | 0 <= i < |strategyRefs| && strategyRefs[i] in Ids(rows) ensures refs(strategyRefs[i]) > 0 {
      var r :| r in rows && r.id == strategyRefs[i];
    }
  }
}
