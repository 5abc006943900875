/** `_dedup_pipeline`: records grouped by exact key, then greedy leader clustering of the groups
    under an arbitrary judge. */
module DedupPipeline {

  // ------------------------------------------------------------------ exact groups

  /** One entry of the insertion-ordered dict of exact clusters. */
  datatype Group<K, R> = Group(key: K, records: seq<R>)

  /** `setdefault(k, []).append(r)`. */
  function Put<K(==), R>(d: seq<Group<K, R>>, k: K, r: R): seq<Group<K, R>> {
    if d == [] then [Group(k, [r])]
    else if d[0].key == k then [Group(k, d[0].records + [r])] + d[1..]
    else [d[0]] + Put(d[1..], k, r)
  }

  function Grouped<K(==), R>(key: R -> K, records: seq<R>): seq<Group<K, R>> {
    if records == [] then []
    else
      var n := |records| - 1;
      Put(Grouped(key, records[..n]), key(records[n]), records[n])
  }

  function Flatten<R>(clusters: seq<seq<R>>): seq<R> {
    if clusters == [] then [] else clusters[0] + Flatten(clusters[1..])
  }

  function RecordsOf<K, R>(d: seq<Group<K, R>>): seq<seq<R>> {
    seq(|d|, i requires 0 <= i < |d| => d[i].records)
  }

  ghost predicate HasKey<K, R>(d: seq<Group<K, R>>, k: K) {
    exists i :: 0 <= i < |d| && d[i].key == k
  }

  /** Each group is non-empty and holds records of its own key, and no key has two groups. */
  ghost predicate WellGrouped<K, R>(key: R -> K, d: seq<Group<K, R>>) {
    && (forall i :: 0 <= i < |d| ==> d[i].records != [])
    && (forall i, x :: 0 <= i < |d| && x in d[i].records ==> key(x) == d[i].key)
    && (forall i, j :: 0 <= i < j < |d| ==> d[i].key != d[j].key)
  }

  lemma {:induction false} PutKeys<K, R>(d: seq<Group<K, R>>, k: K, r: R)
    ensures var e := Put(d, k, r);
      && |d| <= |e|
      && (forall i :: 0 <= i < |d| ==> e[i].key == d[i].key)
      && (forall i :: 0 <= i < |d| && d[i].key != k ==> e[i] == d[i])
      && (|e| > |d| ==> |e| == |d| + 1 && e[|d|] == Group(k, [r]) && !HasKey(d, k))
      && (forall i :: 0 <= i < |d| && d[i].key == k ==>
            e[i].records == d[i].records || e[i].records == d[i].records + [r])
  {
    if d != [] && d[0].key != k {
      PutKeys(d[1..], k, r);
    }
  }

  lemma PutWellGrouped<K, R>(key: R -> K, d: seq<Group<K, R>>, r: R)
    requires WellGrouped(key, d)
    ensures WellGrouped(key, Put(d, key(r), r))
  {
    var k, e := key(r), Put(d, key(r), r);
    PutKeys(d, k, r);
    forall i, x | 0 <= i < |e| && x in e[i].records
      ensures key(x) == e[i].key
    {
      if i < |d| && d[i].key == k && e[i].records == d[i].records + [r] && x != r {
        assert x in d[i].records;
      }
    }
    forall i, j | 0 <= i < j < |e|
      ensures e[i].key != e[j].key
    {
      if j == |d| {
        assert d[i].key == e[i].key;
      }
    }
  }

  lemma {:induction false} PutKeepsRecords<K, R>(d: seq<Group<K, R>>, k: K, r: R)
    ensures multiset(Flatten(RecordsOf(Put(d, k, r)))) == multiset(Flatten(RecordsOf(d))) + multiset{r}
  {
    var e := Put(d, k, r);
    assert e != [] && RecordsOf(e)[1..] == RecordsOf(e[1..]);
    if d != [] {
      assert RecordsOf(d)[1..] == RecordsOf(d[1..]);
      if d[0].key == k {
        assert e[1..] == d[1..];
      } else {
        assert e[1..] == Put(d[1..], k, r);
        PutKeepsRecords(d[1..], k, r);
      }
    } else {
      assert Flatten(RecordsOf(e)) == [r];
    }
  }

  lemma {:induction false} GroupedWell<K, R>(key: R -> K, records: seq<R>)
    ensures WellGrouped(key, Grouped(key, records))
  {
    if records != [] {
      var n := |records| - 1;
      GroupedWell(key, records[..n]);
      PutWellGrouped(key, Grouped(key, records[..n]), records[n]);
    }
  }

  lemma {:induction false} GroupedAll<K, R>(key: R -> K, records: seq<R>)
    ensures multiset(Flatten(RecordsOf(Grouped(key, records)))) == multiset(records)
  {
    if records == [] {
      assert RecordsOf(Grouped(key, records)) == [];
    } else {
      var n := |records| - 1;
      GroupedAll(key, records[..n]);
      PutKeepsRecords(Grouped(key, records[..n]), key(records[n]), records[n]);
      LastCounts(records);
    }
  }

  lemma LastCounts<R>(s: seq<R>)
    requires s != []
    ensures multiset(s) == multiset(s[..|s| - 1]) + multiset{s[|s| - 1]}
  {
    assert s == s[..|s| - 1] + [s[|s| - 1]];
  }

  /** Grouping loses and invents no record, and groups exactly by key. */
  lemma GroupedRight<K, R>(key: R -> K, records: seq<R>)
    ensures WellGrouped(key, Grouped(key, records))
    ensures multiset(Flatten(RecordsOf(Grouped(key, records)))) == multiset(records)
  {
    GroupedWell(key, records);
    GroupedAll(key, records);
  }

  /** The records with key `k`, in order. */
  function WithKey<K(==), R>(key: R -> K, records: seq<R>, k: K): seq<R> {
    if records == [] then []
    else
      var n := |records| - 1;
      WithKey(key, records[..n], k) + (if key(records[n]) == k then [records[n]] else [])
  }

  predicate InRange<R>(records: seq<R>, first: seq<nat>) {
    forall g :: 0 <= g < |first| ==> first[g] < |records|
  }

  /** The key of record `k` is that of a record listed in `first`. */
  ghost predicate HasFirst<K, R>(key: R -> K, records: seq<R>, first: seq<nat>, k: nat)
    requires InRange(records, first) && k < |records|
  {
    exists g :: 0 <= g < |first| && key(records[first[g]]) == key(records[k])
  }

  /** `first` lists, in order, the records whose key no earlier record has. */
  ghost predicate FirstOfKeys<K, R>(key: R -> K, records: seq<R>, first: seq<nat>) {
    && (forall g, h :: 0 <= g < h < |first| ==> first[g] < first[h])
    && InRange(records, first)
    && (forall g, k :: 0 <= g < |first| && 0 <= k < first[g] ==> key(records[k]) != key(records[first[g]]))
    && (forall k: nat :: k < |records| ==> HasFirst(key, records, first, k))
  }

  /** Group `g` holds every record with the key of record `first[g]`, in order. */
  function GroupsAt<K(==), R>(key: R -> K, records: seq<R>, first: seq<nat>): seq<seq<R>>
    requires InRange(records, first)
  {
    seq(|first|, g requires 0 <= g < |first| => WithKey(key, records, key(records[first[g]])))
  }

  ghost predicate KeysOf<K, R>(key: R -> K, records: seq<R>, d: seq<Group<K, R>>, first: seq<nat>) {
    && |d| == |first|
    && (forall g :: 0 <= g < |first| ==> first[g] < |records| && d[g].key == key(records[first[g]]))
  }

  lemma {:induction false} PutExact<K, R>(d: seq<Group<K, R>>, k: K, r: R)
    requires forall i, j :: 0 <= i < j < |d| ==> d[i].key != d[j].key
    ensures var e := Put(d, k, r);
      && |e| == |d| + (if HasKey(d, k) then 0 else 1)
      && (forall i :: 0 <= i < |d| ==> e[i] == if d[i].key == k then Group(k, d[i].records + [r]) else d[i])
      && (!HasKey(d, k) ==> e[|d|] == Group(k, [r]))
  {
    if d != [] {
      assert d[0].key == k ==> HasKey(d, k);
      if d[0].key != k {
        PutExact(d[1..], k, r);
        assert HasKey(d[1..], k) <==> HasKey(d, k) by {
          if i :| 0 <= i < |d| && d[i].key == k {
            assert d[1..][i - 1].key == k;
          }
        }
      }
    }
  }

  lemma WithKeyNext<K, R>(key: R -> K, records: seq<R>, k: K)
    requires records != []
    ensures var n := |records| - 1;
      WithKey(key, records, k) ==
        if key(records[n]) == k then WithKey(key, records[..n], k) + [records[n]] else WithKey(key, records[..n], k)
  {
  }

  lemma {:induction false} WithoutKey<K, R>(key: R -> K, records: seq<R>, k: K)
    requires forall j :: 0 <= j < |records| ==> key(records[j]) != k
    ensures WithKey(key, records, k) == []
  {
    if records != [] {
      WithoutKey(key, records[..|records| - 1], k);
    }
  }

  /** Groups are in the order of their first records, and each keeps the order of the input. */
  lemma {:induction false} GroupedInOrder<K, R>(key: R -> K, records: seq<R>) returns (first: seq<nat>)
    ensures FirstOfKeys(key, records, first) && RecordsOf(Grouped(key, records)) == GroupsAt(key, records, first)
    ensures KeysOf(key, records, Grouped(key, records), first)
  {
    first := [];
    if records != [] {
      var n := |records| - 1;
      var d := Grouped(key, records[..n]);
      first := GroupedInOrder(key, records[..n]);
      first := NextInOrder(key, records, d, first);
    }
  }

  lemma DistinctKeys<K, R>(key: R -> K, records: seq<R>, d: seq<Group<K, R>>, first: seq<nat>)
    requires FirstOfKeys(key, records, first) && KeysOf(key, records, d, first)
    ensures forall i, j :: 0 <= i < j < |d| ==> d[i].key != d[j].key
  {
    forall i, j | 0 <= i < j < |d| ensures d[i].key != d[j].key {
      assert first[i] < first[j];
    }
  }

  lemma FirstStays<K, R>(key: R -> K, records: seq<R>, first: seq<nat>)
    requires records != [] && FirstOfKeys(key, records[..|records| - 1], first)
    requires InRange(records, first) && HasFirst(key, records, first, |records| - 1)
    ensures FirstOfKeys(key, records, first)
  {
    var before := records[..|records| - 1];
    forall k: nat | k < |records| ensures HasFirst(key, records, first, k) {
      if k < |before| {
        assert HasFirst(key, before, first, k);
      }
    }
  }

  lemma NewKey<K, R>(key: R -> K, records: seq<R>, first: seq<nat>)
    requires records != [] && FirstOfKeys(key, records[..|records| - 1], first)
    requires InRange(records, first) && !HasFirst(key, records, first, |records| - 1)
    ensures forall j :: 0 <= j < |records| - 1 ==> key(records[j]) != key(records[|records| - 1])
    ensures WithKey(key, records[..|records| - 1], key(records[|records| - 1])) == []
  {
    var n, k := |records| - 1, key(records[|records| - 1]);
    var before := records[..n];
    forall j: nat | j < n ensures key(before[j]) != k {
      assert HasFirst(key, before, first, j);
    }
    WithoutKey(key, before, k);
  }

  lemma HasFirstGrows<K, R>(key: R -> K, records: seq<R>, first: seq<nat>, j: nat)
    requires records != [] && InRange(records[..|records| - 1], first) && j < |records|
    requires j < |records| - 1 ==> HasFirst(key, records[..|records| - 1], first, j)
    ensures InRange(records, first + [|records| - 1]) && HasFirst(key, records, first + [|records| - 1], j)
  {
    var before, next := records[..|records| - 1], first + [|records| - 1];
    if j < |before| {
      var g :| 0 <= g < |first| && key(before[first[g]]) == key(before[j]);
      assert next[g] == first[g];
    } else {
      assert next[|first|] == j;
    }
  }

  lemma FirstGrows<K, R>(key: R -> K, records: seq<R>, first: seq<nat>)
    requires records != [] && FirstOfKeys(key, records[..|records| - 1], first)
    requires InRange(records, first) && !HasFirst(key, records, first, |records| - 1)
    ensures FirstOfKeys(key, records, first + [|records| - 1])
  {
    var next := first + [|records| - 1];
    NewKey(key, records, first);
    forall j: nat | j < |records| ensures HasFirst(key, records, next, j) {
      HasFirstGrows(key, records, first, j);
    }
  }

  lemma NextGroups<K, R>(key: R -> K, records: seq<R>, d: seq<Group<K, R>>, e: seq<Group<K, R>>, first: seq<nat>)
    requires records != [] && InRange(records[..|records| - 1], first)
    requires RecordsOf(d) == GroupsAt(key, records[..|records| - 1], first)
    requires KeysOf(key, records[..|records| - 1], d, first)
    requires var k, r := key(records[|records| - 1]), records[|records| - 1];
      |e| >= |d| && forall i :: 0 <= i < |d| ==> e[i] == if d[i].key == k then Group(k, d[i].records + [r]) else d[i]
    ensures RecordsOf(e[..|d|]) == GroupsAt(key, records, first)
    ensures KeysOf(key, records, e[..|d|], first)
  {
    var old' := records[..|records| - 1];
    forall g | 0 <= g < |first| ensures RecordsOf(e[..|d|])[g] == GroupsAt(key, records, first)[g] {
      WithKeyNext(key, records, key(records[first[g]]));
      assert RecordsOf(d)[g] == GroupsAt(key, old', first)[g];
    }
  }

  lemma RecordsOfNext<K, R>(e: seq<Group<K, R>>)
    requires e != []
    ensures RecordsOf(e) == RecordsOf(e[..|e| - 1]) + [e[|e| - 1].records]
  {
  }

  lemma GroupsAtNext<K, R>(key: R -> K, records: seq<R>, first: seq<nat>, j: nat)
    requires InRange(records, first) && j < |records|
    ensures InRange(records, first + [j])
    ensures GroupsAt(key, records, first + [j])
         == GroupsAt(key, records, first) + [WithKey(key, records, key(records[j]))]
  {
    var a, b := GroupsAt(key, records, first + [j]), GroupsAt(key, records, first);
    forall g | 0 <= g < |first| ensures a[g] == b[g] {
      assert (first + [j])[g] == first[g];
    }
  }

  lemma NewGroup<K, R>(key: R -> K, records: seq<R>, e: seq<Group<K, R>>, first: seq<nat>)
    requires records != [] && InRange(records, first)
    requires e != [] && RecordsOf(e[..|e| - 1]) == GroupsAt(key, records, first)
    requires e[|e| - 1].records == [records[|records| - 1]]
    requires WithKey(key, records[..|records| - 1], key(records[|records| - 1])) == []
    ensures RecordsOf(e) == GroupsAt(key, records, first + [|records| - 1])
  {
    var n := |records| - 1;
    WithKeyNext(key, records, key(records[n]));
    RecordsOfNext(e);
    GroupsAtNext(key, records, first, n);
    assert [] + [records[n]] == [records[n]];
  }

  lemma NextInOrder<K, R>(key: R -> K, records: seq<R>, d: seq<Group<K, R>>, before: seq<nat>)
    returns (first: seq<nat>)
    requires records != [] && FirstOfKeys(key, records[..|records| - 1], before)
    requires RecordsOf(d) == GroupsAt(key, records[..|records| - 1], before)
    requires KeysOf(key, records[..|records| - 1], d, before)
    ensures var n := |records| - 1; var e := Put(d, key(records[n]), records[n]);
      && FirstOfKeys(key, records, first) && KeysOf(key, records, e, first)
      && RecordsOf(e) == GroupsAt(key, records, first)
  {
    var n := |records| - 1;
    var k, e := key(records[n]), Put(d, key(records[n]), records[n]);
    DistinctKeys(key, records[..n], d, before);
    PutExact(d, k, records[n]);
    NextGroups(key, records, d, e, before);
    KnownKey(key, records, d, before);
    if HasKey(d, k) {
      first := before;
      FirstStays(key, records, before);
      assert e[..|d|] == e;
    } else {
      first := before + [n];
      FirstGrows(key, records, before);
      NewKey(key, records, before);
      NewGroup(key, records, e, before);
    }
  }

  lemma KnownKey<K, R>(key: R -> K, records: seq<R>, d: seq<Group<K, R>>, first: seq<nat>)
    requires records != [] && InRange(records[..|records| - 1], first)
    requires KeysOf(key, records[..|records| - 1], d, first)
    ensures InRange(records, first)
    ensures HasKey(d, key(records[|records| - 1])) <==> HasFirst(key, records, first, |records| - 1)
  {
    var k := key(records[|records| - 1]);
    if g :| 0 <= g < |d| && d[g].key == k {
      assert key(records[first[g]]) == k;
    }
  }

  /** The groups handed to the judging loops. */
  function ExactGroups<K(==), R>(key: R -> K, records: seq<R>): (groups: seq<seq<R>>)
    ensures |groups| == |Grouped(key, records)|
    ensures forall i :: 0 <= i < |groups| ==> groups[i] != []
  {
    GroupedRight(key, records);
    RecordsOf(Grouped(key, records))
  }

  /** The first record of the highest rank, as `max(cluster, key=rank)` picks it. */
  function Representative<R>(rank: R -> int, group: seq<R>): (rep: R)
    requires group != []
    ensures exists p :: IsFirstBest(rank, group, p) && group[p] == rep
    decreases |group|
  {
    if |group| == 1 then
      assert IsFirstBest(rank, group, 0);
      group[0]
    else
      var n := |group| - 1;
      var best := Representative(rank, group[..n]);
      FirstBestGrows(rank, group, best);
      if rank(group[n]) > rank(best) then group[n] else best
  }

  lemma FirstBestGrows<R>(rank: R -> int, group: seq<R>, best: R)
    requires |group| > 1
    requires exists p :: IsFirstBest(rank, group[..|group| - 1], p) && group[p] == best
    ensures var rep := if rank(group[|group| - 1]) > rank(best) then group[|group| - 1] else best;
      exists p :: IsFirstBest(rank, group, p) && group[p] == rep
  {
    var n := |group| - 1;
    var p :| IsFirstBest(rank, group[..n], p) && group[p] == best;
    assert forall q :: 0 <= q < n ==> group[..n][q] == group[q];
    assert IsFirstBest(rank, group, if rank(group[n]) > rank(best) then n else p);
  }

  /** `group[p]` outranks everything before it and is outranked by nothing after it. */
  ghost predicate IsFirstBest<R>(rank: R -> int, group: seq<R>, p: int) {
    && 0 <= p < |group|
    && (forall q :: 0 <= q < p ==> rank(group[q]) < rank(group[p]))
    && (forall q :: p <= q < |group| ==> rank(group[q]) <= rank(group[p]))
  }

  // ------------------------------------------------------------------ greedy leaders

  /** `same(i, j)`: the judge takes the representatives of groups i and j for the same finding. */
  type Judge = (nat, nat) -> bool

  /** The group `j` ends up with: the earliest earlier leader judged the same, or itself. */
  function Home(same: Judge, j: nat): (h: nat)
    ensures h <= j
    decreases j, 1, 0
  {
    Seek(same, 0, j)
  }

  function Seek(same: Judge, i: nat, j: nat): (h: nat)
    requires i <= j
    ensures i <= h <= j
    decreases j, 0, j - i
  {
    if i == j then j
    else if Home(same, i) == i && same(i, j) then i
    else Seek(same, i + 1, j)
  }

  predicate Leads(same: Judge, i: nat) {
    Home(same, i) == i
  }

  lemma {:induction false} SeekExact(same: Judge, i: nat, j: nat)
    requires i <= j
    ensures var h := Seek(same, i, j);
      && (h < j ==> Leads(same, h) && same(h, j))
      && (forall l :: i <= l < h ==> !(Leads(same, l) && same(l, j)))
    decreases j - i
  {
    if i < j && !(Leads(same, i) && same(i, j)) {
      SeekExact(same, i + 1, j);
    }
  }

  /** Greedy leader clustering, for any judge: an absorbed group sits with the earliest leader judged
      the same as it, and no leader is judged the same as an earlier one. */
  lemma HomesAreGreedy(same: Judge, j: nat)
    ensures var h := Home(same, j);
      && Leads(same, h)
      && (h < j ==> same(h, j))
      && (forall l :: 0 <= l < h && Leads(same, l) ==> !same(l, j))
  {
    SeekExact(same, 0, j);
  }

  lemma LeadersDiffer(same: Judge, i: nat, j: nat)
    requires i < j && Leads(same, i) && Leads(same, j)
    ensures !same(i, j)
  {
    HomesAreGreedy(same, j);
  }

  /** The records of the first `n` groups that belong to leader `i`, in order. */
  function Cluster<R>(same: Judge, groups: seq<seq<R>>, i: nat, n: nat): seq<R>
    requires i <= n <= |groups|
    decreases n
  {
    if n == i then []
    else Cluster(same, groups, i, n - 1) + (if Home(same, n - 1) == i then groups[n - 1] else [])
  }

  /** The clusters of the leaders below `m`. */
  function Clusters<R>(same: Judge, groups: seq<seq<R>>, m: nat): seq<seq<R>>
    requires m <= |groups|
  {
    if m == 0 then []
    else Clusters(same, groups, m - 1) + (if Leads(same, m - 1) then [Cluster(same, groups, m - 1, |groups|)] else [])
  }

  // ------------------------------------------------------------------ the pipeline as written

  /** `k` judge pairs with a smaller index: 1 + 2 + ... + k. */
  function Pairs(k: nat): nat {
    if k == 0 then 0 else k + Pairs(k - 1)
  }

  lemma {:induction false} PairsClosed(k: nat)
    ensures 2 * Pairs(k) == k * (k + 1)
  {
    if k > 0 {
      PairsClosed(k - 1);
    }
  }

  lemma CallsBound(n: nat, calls: nat)
    requires n >= 1 && calls <= Pairs(n - 1)
    ensures 2 * calls <= n * (n - 1)
  {
    PairsClosed(n - 1);
  }

  /** After the outer loop dealt with groups below `i`, the merged set is exactly those groups and
      the ones absorbed by their leaders. */
  ghost predicate MergedUpTo(same: Judge, merged: set<nat>, i: nat, n: nat) {
    forall j :: 0 <= j < n ==> (j in merged <==> j < i || Home(same, j) < i)
  }

  ghost predicate MergedWithin(same: Judge, merged: set<nat>, i: nat, j: nat, n: nat) {
    forall k :: 0 <= k < n ==> (k in merged <==> k < i || Home(same, k) < i || (i < k < j && Home(same, k) == i))
  }

  /** The inner loop: judges leader `i` against every later group not merged yet. */
  method Absorb<R>(same: Judge, groups: seq<seq<R>>, i: nat, merged0: set<nat>)
    returns (cluster: seq<R>, merged: set<nat>, calls: nat)
    requires i < |groups| && Leads(same, i) && MergedUpTo(same, merged0, i, |groups|)
    ensures cluster == Cluster(same, groups, i, |groups|)
    ensures MergedUpTo(same, merged, i + 1, |groups|)
    ensures calls <= |groups| - 1 - i
  {
    cluster, merged, calls := groups[i], merged0, 0;
    assert Cluster(same, groups, i, i + 1) == groups[i];
    for j := i + 1 to |groups|
      invariant cluster == Cluster(same, groups, i, j)
      invariant MergedWithin(same, merged, i, j, |groups|)
      invariant calls <= j - 1 - i
    {
      HomesAreGreedy(same, j);
      if j in merged {
        continue;
      }
      calls := calls + 1;
      if same(i, j) {
        cluster := cluster + groups[j];
        merged := merged + {j};
      }
    }
    merged := merged + {i};
  }

  method MergeGroups<R>(same: Judge, groups: seq<seq<R>>) returns (clusters: seq<seq<R>>, calls: nat)
    ensures clusters == Clusters(same, groups, |groups|)
    ensures |groups| > 0 ==> calls <= Pairs(|groups| - 1)
    ensures |groups| <= 1 ==> calls == 0
  {
    clusters, calls := [], 0;
    var merged: set<nat> := {};
    for i := 0 to |groups|
      invariant clusters == Clusters(same, groups, i)
      invariant MergedUpTo(same, merged, i, |groups|)
      invariant i < |groups| ==> calls + Pairs(|groups| - 1 - i) <= Pairs(|groups| - 1)
      invariant i == |groups| > 0 ==> calls <= Pairs(|groups| - 1)
      invariant |groups| <= 1 ==> calls == 0
    {
      if i in merged {
        assert MergedUpTo(same, merged, i + 1, |groups|) by {
          forall j | 0 <= j < |groups| ensures Home(same, j) != i {
            HomesAreGreedy(same, j);
          }
        }
        continue;
      }
      var cluster, more;
      cluster, merged, more := Absorb(same, groups, i, merged);
      clusters := clusters + [cluster];
      calls := calls + more;
    }
  }

  /** The loop filling `exact_clusters`. */
  method GroupRecords<K(==), R>(records: seq<R>, key: R -> K) returns (d: seq<Group<K, R>>)
    ensures d == Grouped(key, records)
  {
    d := [];
    for k := 0 to |records|
      invariant d == Grouped(key, records[..k])
    {
      assert records[..k + 1][..k] == records[..k];
      d := Put(d, key(records[k]), records[k]);
    }
    assert records[..|records|] == records;
  }

  /** The pipeline once the exact groups are known: a single group is not judged at all. */
  method JudgeGroups<R>(groups: seq<seq<R>>, rank: R -> int, judge: (R, R) -> bool)
    returns (clusters: seq<seq<R>>, calls: nat)
    requires forall i :: 0 <= i < |groups| ==> groups[i] != []
    ensures clusters == Clusters(Judged(groups, rank, judge), groups, |groups|)
    ensures 2 * calls <= |groups| * (|groups| - 1)
  {
    var same := Judged(groups, rank, judge);
    if |groups| <= 1 {
      SingleGroup(same, groups);
      return groups, 0;
    }
    clusters, calls := MergeGroups(same, groups);
    CallsBound(|groups|, calls);
  }

  /** The whole pipeline. `judge` is the LLM's answer on two representatives' payloads, a failed call
      counting as "different". The output is greedy leader clustering, read off the judge and
      the ranks, and a permutation of the records. */
  method Dedup<K(==), R>(records: seq<R>, key: R -> K, rank: R -> int, judge: (R, R) -> bool)
    returns (clusters: seq<seq<R>>, calls: nat)
    ensures clusters == Deduped(records, key, rank, judge)
    ensures IsDedup(records, key, rank, judge, clusters)
    ensures multiset(Flatten(clusters)) == multiset(records)
    ensures var n := |Grouped(key, records)|; 2 * calls <= n * (n - 1)
  {
    var d := GroupRecords(records, key);
    assert RecordsOf(d) == ExactGroups(key, records);
    clusters, calls := JudgeGroups(RecordsOf(d), rank, judge);
    DedupIsLeaderClustering(records, key, rank, judge, clusters);
  }

  function Judged<R>(groups: seq<seq<R>>, rank: R -> int, judge: (R, R) -> bool): Judge
    requires forall i :: 0 <= i < |groups| ==> groups[i] != []
  {
    (i: nat, j: nat) =>
      && i < |groups| && j < |groups|
      && judge(Representative(rank, groups[i]), Representative(rank, groups[j]))
  }

  function Deduped<K(==), R>(records: seq<R>, key: R -> K, rank: R -> int, judge: (R, R) -> bool): seq<seq<R>> {
    var groups := ExactGroups(key, records);
    Clusters(Judged(groups, rank, judge), groups, |groups|)
  }

  lemma SingleGroup<R>(same: Judge, groups: seq<seq<R>>)
    requires |groups| <= 1
    ensures Clusters(same, groups, |groups|) == groups
  {
    if |groups| == 1 {
      assert Leads(same, 0);
      assert Cluster(same, groups, 0, 1) == [] + groups[0] == groups[0];
      assert Clusters(same, groups, 1) == [] + [groups[0]];
    }
  }

  // ------------------------------------------------------------------ nothing lost, keys together

  lemma FlattenAppend<R>(a: seq<seq<R>>, c: seq<R>)
    ensures Flatten(a + [c]) == Flatten(a) + c
  {
    if a == [] {
      assert a + [c] == [c];
      assert Flatten([c]) == c + [] == [] + c;
    } else {
      assert (a + [c])[1..] == a[1..] + [c];
      FlattenAppend(a[1..], c);
      assert a[0] + (Flatten(a[1..]) + c) == a[0] + Flatten(a[1..]) + c;
    }
  }

  ghost function Share<R>(group: seq<R>, has: bool): multiset<R> {
    if has then multiset(group) else multiset{}
  }

  /** What leader `i` holds of the first `n` groups; nothing, if it is no leader. */
  ghost function Part<R>(same: Judge, groups: seq<seq<R>>, i: nat, n: nat): multiset<R>
    requires i <= n <= |groups|
  {
    if Leads(same, i) then multiset(Cluster(same, groups, i, n)) else multiset{}
  }

  /** What the leaders below `m` hold of the first `n` groups. */
  ghost function HeldBy<R>(same: Judge, groups: seq<seq<R>>, m: nat, n: nat): multiset<R>
    requires m <= n <= |groups|
    decreases m
  {
    if m == 0 then multiset{} else HeldBy(same, groups, m - 1, n) + Part(same, groups, m - 1, n)
  }

  lemma PartGrows<R>(same: Judge, groups: seq<seq<R>>, i: nat, n: nat)
    requires i <= n < |groups|
    ensures Part(same, groups, i, n + 1)
         == Part(same, groups, i, n) + Share(groups[n], Home(same, n) == i)
  {
    HomesAreGreedy(same, n);
    if Home(same, n) != i {
      assert Cluster(same, groups, i, n + 1) == Cluster(same, groups, i, n) + [] == Cluster(same, groups, i, n);
    }
  }

  lemma HeldByStep<R>(same: Judge, groups: seq<seq<R>>, m: nat, n: nat)
    requires m < n < |groups|
    requires HeldBy(same, groups, m, n + 1) == HeldBy(same, groups, m, n) + Share(groups[n], Home(same, n) < m)
    ensures HeldBy(same, groups, m + 1, n + 1)
         == HeldBy(same, groups, m + 1, n) + Share(groups[n], Home(same, n) < m + 1)
  {
    PartGrows(same, groups, m, n);
    var g := groups[n];
    var h, p := HeldBy(same, groups, m, n), Part(same, groups, m, n);
    assert (h + Share(g, Home(same, n) < m)) + (p + Share(g, Home(same, n) == m))
        == (h + p) + Share(g, Home(same, n) < m + 1);
  }

  lemma NobodyHolds<R>(same: Judge, groups: seq<seq<R>>, n: nat)
    requires n < |groups|
    ensures HeldBy(same, groups, 0, n + 1) == HeldBy(same, groups, 0, n) + Share(groups[n], Home(same, n) < 0)
  {
    assert HeldBy(same, groups, 0, n) == multiset{} == HeldBy(same, groups, 0, n + 1);
  }

  lemma {:induction false} HeldByGrows<R>(same: Judge, groups: seq<seq<R>>, m: nat, n: nat)
    requires m <= n < |groups|
    ensures HeldBy(same, groups, m, n + 1) == HeldBy(same, groups, m, n) + Share(groups[n], Home(same, n) < m)
    decreases m
  {
    if m == 0 {
      NobodyHolds(same, groups, n);
    } else {
      HeldByGrows(same, groups, m - 1, n);
      HeldByStep(same, groups, m - 1, n);
    }
  }

  /** The group just reached adds its records to what the leaders up to it hold. */
  lemma HeldByNext<R>(same: Judge, groups: seq<seq<R>>, n: nat)
    requires n < |groups|
    ensures HeldBy(same, groups, n + 1, n + 1) == HeldBy(same, groups, n, n) + multiset(groups[n])
  {
    HeldByGrows(same, groups, n, n);
    PartGrows(same, groups, n, n);
    assert Cluster(same, groups, n, n) == [];
  }

  lemma FlattenNext<R>(groups: seq<seq<R>>, n: nat)
    requires n < |groups|
    ensures multiset(Flatten(groups[..n + 1])) == multiset(Flatten(groups[..n])) + multiset(groups[n])
  {
    assert groups[..n + 1] == groups[..n] + [groups[n]];
    FlattenAppend(groups[..n], groups[n]);
  }

  lemma {:induction false} HeldByAll<R>(same: Judge, groups: seq<seq<R>>, n: nat)
    requires n <= |groups|
    ensures HeldBy(same, groups, n, n) == multiset(Flatten(groups[..n]))
  {
    if n > 0 {
      HeldByAll(same, groups, n - 1);
      HeldByNext(same, groups, n - 1);
      FlattenNext(groups, n - 1);
    }
  }

  lemma {:induction false} ClustersHold<R>(same: Judge, groups: seq<seq<R>>, m: nat)
    requires m <= |groups|
    ensures multiset(Flatten(Clusters(same, groups, m))) == HeldBy(same, groups, m, |groups|)
  {
    if m > 0 {
      ClustersHold(same, groups, m - 1);
      if Leads(same, m - 1) {
        FlattenAppend(Clusters(same, groups, m - 1), Cluster(same, groups, m - 1, |groups|));
      } else {
        assert Clusters(same, groups, m) == Clusters(same, groups, m - 1);
      }
    }
  }

  /** The clusters flatten to a permutation of the input. */
  lemma DedupPermutes<K, R>(records: seq<R>, key: R -> K, rank: R -> int, judge: (R, R) -> bool)
    ensures multiset(Flatten(Deduped(records, key, rank, judge))) == multiset(records)
  {
    GroupedRight(key, records);
    var groups := ExactGroups(key, records);
    var same := Judged(groups, rank, judge);
    assert groups[..|groups|] == groups;
    HeldByAll(same, groups, |groups|);
    ClustersHold(same, groups, |groups|);
  }

  /** The leaders below `m`, ascending: cluster `p` of the output is that of leader `p`. */
  function Leaders(same: Judge, m: nat): seq<nat> {
    if m == 0 then [] else Leaders(same, m - 1) + (if Leads(same, m - 1) then [m - 1] else [])
  }

  lemma {:induction false} LeadersAscend(same: Judge, m: nat)
    ensures var ls := Leaders(same, m);
      && (forall p :: 0 <= p < |ls| ==> ls[p] < m && Leads(same, ls[p]))
      && (forall p, q :: 0 <= p < q < |ls| ==> ls[p] < ls[q])
      && (forall i :: 0 <= i < m && Leads(same, i) ==> i in ls)
  {
    if m > 0 {
      LeadersAscend(same, m - 1);
    }
  }

  lemma {:induction false} ClustersOfLeaders<R>(same: Judge, groups: seq<seq<R>>, m: nat)
    requires m <= |groups|
    ensures |Clusters(same, groups, m)| == |Leaders(same, m)|
    ensures forall p :: 0 <= p < |Leaders(same, m)| ==> Leaders(same, m)[p] < |groups|
    ensures forall p :: 0 <= p < |Leaders(same, m)| ==>
              Clusters(same, groups, m)[p] == Cluster(same, groups, Leaders(same, m)[p], |groups|)
  {
    if m > 0 {
      ClustersOfLeaders(same, groups, m - 1);
    }
  }

  /** A cluster is made of exactly the groups at home with its leader. */
  lemma {:induction false} ClusterIsHomes<R>(same: Judge, groups: seq<seq<R>>, i: nat, n: nat, x: R)
    requires i <= n <= |groups|
    ensures x in Cluster(same, groups, i, n) <==> exists j :: i <= j < n && Home(same, j) == i && x in groups[j]
    decreases n
  {
    if i < n {
      ClusterIsHomes(same, groups, i, n - 1, x);
      if Home(same, n - 1) == i && x in groups[n - 1] {
        assert x in Cluster(same, groups, i, n);
      }
    }
  }

  /** Equal exact keys share a cluster: records of different clusters have different keys. */
  lemma EqualKeysShare<K, R>(records: seq<R>, key: R -> K, rank: R -> int, judge: (R, R) -> bool,
                             p: nat, q: nat, x: R, y: R)
    requires var out := Deduped(records, key, rank, judge);
      p < q < |out| && x in out[p] && y in out[q]
    ensures key(x) != key(y)
  {
    var d := Grouped(key, records);
    GroupedRight(key, records);
    var groups := ExactGroups(key, records);
    var same := Judged(groups, rank, judge);
    var n := |groups|;
    ClustersOfLeaders(same, groups, n);
    LeadersAscend(same, n);
    var i, k := Leaders(same, n)[p], Leaders(same, n)[q];
    ClusterIsHomes(same, groups, i, n, x);
    ClusterIsHomes(same, groups, k, n, y);
    var a :| i <= a < n && Home(same, a) == i && x in groups[a];
    var b :| k <= b < n && Home(same, b) == k && y in groups[b];
    assert x in d[a].records && y in d[b].records && a != b;
    assert key(x) == d[a].key && key(y) == d[b].key;
    assert d[a].key != d[b].key by {
      if a < b {
      } else {
        assert b < a;
      }
    }
  }

  // ------------------------------------------------------------------ the output, from judge and rank

  /** The judge, asked about the first best-ranked record of group `i` and that of group `j`, in this
      order, takes them for the same finding. */
  ghost predicate SameFinding<R>(groups: seq<seq<R>>, rank: R -> int, judge: (R, R) -> bool, i: nat, j: nat)
    requires i < |groups| && j < |groups|
  {
    exists p, q ::
      IsFirstBest(rank, groups[i], p) && IsFirstBest(rank, groups[j], q) && judge(groups[i][p], groups[j][q])
  }

  function Joined<R>(groups: seq<seq<R>>, js: seq<nat>): seq<R>
    requires AscendsBelow(js, |groups|)
  {
    if js == [] then [] else Joined(groups, js[..|js| - 1]) + groups[js[|js| - 1]]
  }

  ghost predicate AscendsBelow(js: seq<nat>, n: nat) {
    && (forall k :: 0 <= k < |js| ==> js[k] < n)
    && (forall k, l :: 0 <= k < l < |js| ==> js[k] < js[l])
  }

  ghost predicate IsMember(members: seq<seq<nat>>, j: nat) {
    exists p :: 0 <= p < |members| && j in members[p]
  }

  /** Ascending indices of groups, each group in exactly one of the lists, each list headed by its
      leader. */
  ghost predicate Partitions(n: nat, leaders: seq<nat>, members: seq<seq<nat>>) {
    && |members| == |leaders|
    && (forall p :: 0 <= p < |leaders| ==> members[p] != [] && members[p][0] == leaders[p])
    && (forall p :: 0 <= p < |leaders| ==> AscendsBelow(members[p], n))
    && (forall j: nat :: j < n ==> IsMember(members, j))
    && (forall p, q, j :: 0 <= p < q < |leaders| && j in members[p] ==> j !in members[q])
    && AscendsBelow(leaders, n)
  }

  /** Greedy leader clustering by the judge: an absorbed group was judged the same as its leader and
      as no earlier leader, and no leader was judged the same as an earlier one. */
  ghost predicate JudgedBy<R>(groups: seq<seq<R>>, rank: R -> int, judge: (R, R) -> bool,
                              leaders: seq<nat>, members: seq<seq<nat>>)
    requires Partitions(|groups|, leaders, members)
  {
    && (forall p, j :: 0 <= p < |leaders| && j in members[p] && j != leaders[p] ==>
          SameFinding(groups, rank, judge, members[p][0], j))
    && (forall p, q, j :: 0 <= q < p < |leaders| && j in members[p] ==>
          !SameFinding(groups, rank, judge, members[q][0], j))
  }

  /** Cluster `p` of the output is the concatenation of the groups in `members[p]`. */
  ghost predicate IsClustering<R>(groups: seq<seq<R>>, rank: R -> int, judge: (R, R) -> bool,
                                  leaders: seq<nat>, members: seq<seq<nat>>, out: seq<seq<R>>)
  {
    && Partitions(|groups|, leaders, members)
    && JudgedBy(groups, rank, judge, leaders, members)
    && |out| == |leaders|
    && (forall p :: 0 <= p < |out| ==> out[p] == Joined(groups, members[p]))
  }

  /** What the deduplicated output is, from the records, their keys and ranks and the judge. */
  ghost predicate IsDedup<K, R>(records: seq<R>, key: R -> K, rank: R -> int, judge: (R, R) -> bool,
                                out: seq<seq<R>>)
  {
    exists first: seq<nat>, leaders: seq<nat>, members: seq<seq<nat>> ::
      && FirstOfKeys(key, records, first)
      && IsClustering(GroupsAt(key, records, first), rank, judge, leaders, members, out)
  }

  lemma FirstBestOnly<R>(rank: R -> int, group: seq<R>, p: int, q: int)
    requires IsFirstBest(rank, group, p) && IsFirstBest(rank, group, q)
    ensures p == q
  {
    var a, b := rank(group[p]), rank(group[q]);
  }

  lemma JudgedIs<R>(groups: seq<seq<R>>, rank: R -> int, judge: (R, R) -> bool, i: nat, j: nat)
    requires forall k :: 0 <= k < |groups| ==> groups[k] != []
    requires i < |groups| && j < |groups|
    ensures Judged(groups, rank, judge)(i, j) <==> SameFinding(groups, rank, judge, i, j)
  {
    var a, b := Representative(rank, groups[i]), Representative(rank, groups[j]);
    var p :| IsFirstBest(rank, groups[i], p) && groups[i][p] == a;
    var q :| IsFirstBest(rank, groups[j], q) && groups[j][q] == b;
    if SameFinding(groups, rank, judge, i, j) {
      var p', q' :| IsFirstBest(rank, groups[i], p') && IsFirstBest(rank, groups[j], q')
                 && judge(groups[i][p'], groups[j][q']);
      FirstBestOnly(rank, groups[i], p, p');
      FirstBestOnly(rank, groups[j], q, q');
    }
  }

  /** The groups below `n` at home with leader `i`, ascending. */
  function HomesOf(same: Judge, i: nat, n: nat): seq<nat>
    requires i <= n
  {
    if n == i then [] else HomesOf(same, i, n - 1) + (if Home(same, n - 1) == i then [n - 1] else [])
  }

  lemma {:induction false} HomesOfIn(same: Judge, i: nat, n: nat, j: nat)
    requires i <= n
    ensures j in HomesOf(same, i, n) <==> i <= j < n && Home(same, j) == i
  {
    if i < n {
      HomesOfIn(same, i, n - 1, j);
    }
  }

  /** The next index, if it is kept, keeps the list ascending. */
  lemma AscendsNext(js: seq<nat>, n: nat, kept: bool)
    requires n > 0 && AscendsBelow(js, n - 1)
    ensures AscendsBelow(js + (if kept then [n - 1] else []), n)
  {
  }

  lemma {:induction false} HomesOfAscend(same: Judge, i: nat, n: nat)
    requires i <= n
    ensures AscendsBelow(HomesOf(same, i, n), n)
    ensures i < n && Leads(same, i) ==> HomesOf(same, i, n) != [] && HomesOf(same, i, n)[0] == i
  {
    if i < n {
      HomesOfAscend(same, i, n - 1);
      AscendsNext(HomesOf(same, i, n - 1), n, Home(same, n - 1) == i);
    }
  }

  lemma {:induction false} ClusterJoins<R>(same: Judge, groups: seq<seq<R>>, i: nat, n: nat)
    requires i <= n <= |groups|
    ensures AscendsBelow(HomesOf(same, i, n), |groups|)
    ensures Cluster(same, groups, i, n) == Joined(groups, HomesOf(same, i, n))
  {
    HomesOfAscend(same, i, n);
    if i < n {
      ClusterJoins(same, groups, i, n - 1);
      var js := HomesOf(same, i, n - 1);
      if Home(same, n - 1) == i {
        assert HomesOf(same, i, n) == js + [n - 1] && (js + [n - 1])[..|js|] == js;
      } else {
        assert HomesOf(same, i, n) == js + [] == js;
        assert Cluster(same, groups, i, n) == Cluster(same, groups, i, n - 1) + [] == Cluster(same, groups, i, n - 1);
      }
    }
  }

  ghost predicate MembersAre(same: Judge, n: nat, i: nat, js: seq<nat>) {
    && (forall j :: j in js <==> i <= j < n && Home(same, j) == i)
    && AscendsBelow(js, n) && js != [] && js[0] == i
  }

  lemma HomesOfAre(same: Judge, n: nat, i: nat)
    requires i < n && Leads(same, i)
    ensures MembersAre(same, n, i, HomesOf(same, i, n))
  {
    HomesOfAscend(same, i, n);
    forall j: nat ensures j in HomesOf(same, i, n) <==> i <= j < n && Home(same, j) == i {
      HomesOfIn(same, i, n, j);
    }
  }

  lemma OneHome(same: Judge, n: nat, i: nat, k: nat, js: seq<nat>, ks: seq<nat>, j: nat)
    requires i != k && MembersAre(same, n, i, js) && MembersAre(same, n, k, ks) && j in js
    ensures j !in ks
  {
  }

  /** `members[p]` is what is at home with leader `p`. */
  ghost predicate AllMembers(same: Judge, n: nat, members: seq<seq<nat>>) {
    && |members| == |Leaders(same, n)|
    && forall p :: 0 <= p < |members| ==> MembersAre(same, n, Leaders(same, n)[p], members[p])
  }

  lemma MembersPartition(same: Judge, n: nat, members: seq<seq<nat>>)
    requires AllMembers(same, n, members)
    ensures Partitions(n, Leaders(same, n), members)
  {
    var leaders := Leaders(same, n);
    LeadersAscend(same, n);
    forall j: nat | j < n ensures IsMember(members, j) {
      HomesAreGreedy(same, j);
      assert Home(same, j) in leaders;
      var p :| 0 <= p < |leaders| && leaders[p] == Home(same, j);
      assert MembersAre(same, n, leaders[p], members[p]);
    }
    forall p, q, j: nat | 0 <= p < q < |leaders| && j in members[p] ensures j !in members[q] {
      assert Leaders(same, n)[p] < Leaders(same, n)[q];
      OneHome(same, n, leaders[p], leaders[q], members[p], members[q], j);
    }
  }

  lemma MembersJudged<R>(groups: seq<seq<R>>, rank: R -> int, judge: (R, R) -> bool, members: seq<seq<nat>>)
    requires forall k :: 0 <= k < |groups| ==> groups[k] != []
    requires var same := Judged(groups, rank, judge);
      AllMembers(same, |groups|, members) && Partitions(|groups|, Leaders(same, |groups|), members)
    ensures JudgedBy(groups, rank, judge, Leaders(Judged(groups, rank, judge), |groups|), members)
  {
    var same := Judged(groups, rank, judge);
    var leaders := Leaders(same, |groups|);
    LeadersAscend(same, |groups|);
    forall p, j | 0 <= p < |leaders| && j in members[p] && j != leaders[p]
      ensures SameFinding(groups, rank, judge, members[p][0], j)
    {
      assert MembersAre(same, |groups|, leaders[p], members[p]);
      HomesAreGreedy(same, j);
      JudgedIs(groups, rank, judge, leaders[p], j);
    }
    forall p, q, j | 0 <= q < p < |leaders| && j in members[p]
      ensures !SameFinding(groups, rank, judge, members[q][0], j)
    {
      assert MembersAre(same, |groups|, leaders[p], members[p]);
      HomesAreGreedy(same, j);
      JudgedIs(groups, rank, judge, leaders[q], j);
    }
  }

  lemma ClustersJoin<R>(same: Judge, groups: seq<seq<R>>) returns (members: seq<seq<nat>>)
    ensures AllMembers(same, |groups|, members)
    ensures |Clusters(same, groups, |groups|)| == |members|
    ensures forall p :: 0 <= p < |members| ==> AscendsBelow(members[p], |groups|)
    ensures forall p :: 0 <= p < |members| ==> Clusters(same, groups, |groups|)[p] == Joined(groups, members[p])
  {
    var n, leaders := |groups|, Leaders(same, |groups|);
    LeadersAscend(same, n);
    ClustersOfLeaders(same, groups, n);
    members := seq(|leaders|, p requires 0 <= p < |leaders| => HomesOf(same, leaders[p], n));
    forall p | 0 <= p < |leaders|
      ensures MembersAre(same, n, leaders[p], members[p])
      ensures Clusters(same, groups, n)[p] == Joined(groups, members[p])
    {
      HomesOfAre(same, n, leaders[p]);
      ClusterJoins(same, groups, leaders[p], n);
    }
  }

  /** The pipeline's output is greedy leader clustering of the exact groups by the judge, and a
      permutation of the records. */
  lemma DedupIsLeaderClustering<K, R>(records: seq<R>, key: R -> K, rank: R -> int, judge: (R, R) -> bool,
                                      out: seq<seq<R>>)
    requires out == Deduped(records, key, rank, judge)
    ensures IsDedup(records, key, rank, judge, out)
    ensures multiset(Flatten(out)) == multiset(records)
  {
    DedupPermutes(records, key, rank, judge);
    var groups := ExactGroups(key, records);
    var same := Judged(groups, rank, judge);
    var first := GroupedInOrder(key, records);
    var members := ClustersJoin(same, groups);
    MembersPartition(same, |groups|, members);
    MembersJudged(groups, rank, judge, members);
    assert IsClustering(GroupsAt(key, records, first), rank, judge, Leaders(same, |groups|), members, out);
  }
}
