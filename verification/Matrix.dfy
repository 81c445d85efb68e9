/** Expanding `strategy.matrix` into one cell per combination, as `src/plan.rs`
    does it. */
module Matrix {
  import opened Common
  import opened Text
  import opened Values

  type Cell = map<string, Value>

  datatype Axis = Axis(name: string, values: seq<Value>)

  /** A YAML list item: its JSON form and, if it is a mapping, that. */
  datatype Item = Item(json: Value, mapping: Option<Cell>)

  /** An entry of the matrix mapping, with what its key and value are not
      told apart further. */
  datatype Entry = Entry(name: Option<string>, list: Option<seq<Item>>)

  datatype Source = Absent | NotAMapping | Mapping(entries: seq<Entry>)

  datatype MatrixError = NeedsAMapping | NameNotAString | NotAList(name: string) | EmptyAxis(name: string) | NoCells

  datatype Parts = Parts(axes: seq<Axis>, includes: seq<Cell>, excludes: seq<Cell>)

  // ---- reading the mapping ---------------------------------------------------------

  function Jsons(items: seq<Item>): (vs: seq<Value>)
    ensures |vs| == |items|
  {
    if items == [] then [] else [items[0].json] + Jsons(items[1..])
  }

  function Mappings(items: seq<Item>): seq<Cell> {
    if items == [] then []
    else (if items[0].mapping.Some? then [items[0].mapping.value] else []) + Mappings(items[1..])
  }

  function ReadEntry(p: Parts, e: Entry): Result<Parts, MatrixError> {
    if e.name.None? then Err(NameNotAString)
    else if e.list.None? then Err(NotAList(e.name.value))
    else if e.name.value == "include" then Ok(p.(includes := Mappings(e.list.value)))
    else if e.name.value == "exclude" then Ok(p.(excludes := Mappings(e.list.value)))
    else Ok(p.(axes := p.axes + [Axis(e.name.value, Jsons(e.list.value))]))
  }

  function ReadEntries(p: Parts, es: seq<Entry>): Result<Parts, MatrixError>
    decreases |es|
  {
    if es == [] then Ok(p)
    else
      match ReadEntry(p, es[0])
      case Err(x) => Err(x)
      case Ok(q) => ReadEntries(q, es[1..])
  }

  // ---- the order of the axes -----------------------------------------------------------

  lemma {:induction false} Total(a: string, b: string)
    ensures AtMost(a, b) || AtMost(b, a)
  {
    if a != "" && b != "" && a[0] == b[0] { Total(a[1..], b[1..]); }
  }

  lemma {:induction false} Antisymmetric(a: string, b: string)
    requires AtMost(a, b) && AtMost(b, a)
    ensures a == b
  {
    if a != "" {
      Antisymmetric(a[1..], b[1..]);
      assert a == [a[0]] + a[1..] && b == [b[0]] + b[1..];
    }
  }

  lemma {:induction false} Transitive(a: string, b: string, c: string)
    requires AtMost(a, b) && AtMost(b, c)
    ensures AtMost(a, c)
  {
    if a != "" && a[0] == b[0] == c[0] { Transitive(a[1..], b[1..], c[1..]); }
  }

  function Insert(x: Axis, axes: seq<Axis>): seq<Axis> {
    if axes == [] || AtMost(x.name, axes[0].name) then [x] + axes else [axes[0]] + Insert(x, axes[1..])
  }

  function Sorted(axes: seq<Axis>): seq<Axis> {
    if axes == [] then [] else Insert(axes[0], Sorted(axes[1..]))
  }

  predicate Ascending(axes: seq<Axis>) {
    forall i, j :: 0 <= i < j < |axes| ==> AtMost(axes[i].name, axes[j].name)
  }

  predicate DistinctNames(axes: seq<Axis>) {
    forall i, j :: 0 <= i < j < |axes| ==> axes[i].name != axes[j].name
  }

  lemma {:induction false} InsertKeeps(x: Axis, axes: seq<Axis>)
    ensures multiset(Insert(x, axes)) == multiset(axes) + multiset{x}
  {
    if axes != [] && !AtMost(x.name, axes[0].name) {
      InsertKeeps(x, axes[1..]);
      assert axes == [axes[0]] + axes[1..];
    }
  }

  lemma {:induction false} InsertAscends(x: Axis, axes: seq<Axis>)
    requires Ascending(axes)
    ensures Ascending(Insert(x, axes))
  {
    if axes != [] {
      if AtMost(x.name, axes[0].name) {
        forall j | 0 <= j < |axes| ensures AtMost(x.name, axes[j].name) {
          if j > 0 { Transitive(x.name, axes[0].name, axes[j].name); }
        }
      } else {
        var rest := Insert(x, axes[1..]);
        InsertAscends(x, axes[1..]);
        InsertKeeps(x, axes[1..]);
        Total(x.name, axes[0].name);
        forall j | 0 <= j < |rest| ensures AtMost(axes[0].name, rest[j].name) {
          assert rest[j] in multiset(rest);
          assert rest[j] in multiset(axes[1..]) || rest[j] == x;
        }
      }
    }
  }

  lemma {:induction false} SortedAscends(axes: seq<Axis>)
    ensures Ascending(Sorted(axes)) && multiset(Sorted(axes)) == multiset(axes)
  {
    if axes != [] {
      SortedAscends(axes[1..]);
      InsertAscends(axes[0], Sorted(axes[1..]));
      InsertKeeps(axes[0], Sorted(axes[1..]));
      assert axes == [axes[0]] + axes[1..];
    }
  }

  lemma Least(a: seq<Axis>, x: Axis)
    requires Ascending(a) && a != [] && x in multiset(a)
    ensures AtMost(a[0].name, x.name)
  {
    var i :| 0 <= i < |a| && a[i] == x;
    if i == 0 { Total(x.name, x.name); }
  }

  /** Taking the same head off both leaves the same rest. */
  lemma SameRest(a: seq<Axis>, b: seq<Axis>)
    requires a != [] && b != [] && a[0] == b[0] && multiset(a) == multiset(b)
    ensures multiset(a[1..]) == multiset(b[1..]) && multiset(a[1..]) <= multiset(a)
    ensures a[1..] == b[1..] ==> a == b
  {
    assert a == [a[0]] + a[1..] && b == [b[0]] + b[1..];
    assert multiset(a[1..]) == multiset(a) - multiset{a[0]};
    assert multiset(b[1..]) == multiset(b) - multiset{b[0]};
  }

  ghost predicate UniqueNames(m: multiset<Axis>) {
    forall x, y :: x in m && y in m && x.name == y.name ==> x == y
  }

  lemma SameLeast(a: seq<Axis>, b: seq<Axis>)
    requires Ascending(a) && Ascending(b) && a != [] && b != []
    requires multiset(a) == multiset(b) && UniqueNames(multiset(a))
    ensures a[0] == b[0]
  {
    assert a[0] in multiset(a) && b[0] in multiset(b);
    Least(a, b[0]);
    Least(b, a[0]);
    Antisymmetric(a[0].name, b[0].name);
  }

  lemma {:induction false} OneAscendingOrder(a: seq<Axis>, b: seq<Axis>)
    requires Ascending(a) && Ascending(b) && multiset(a) == multiset(b) && UniqueNames(multiset(a))
    ensures a == b
  {
    assert |a| == |multiset(a)| == |b|;
    if a != [] {
      SameLeast(a, b);
      SameRest(a, b);
      OneAscendingOrder(a[1..], b[1..]);
    }
  }

  /** However the axes are written down, they come out in one order. */
  lemma WrittenOrderIsIrrelevant(a: seq<Axis>, b: seq<Axis>)
    requires multiset(a) == multiset(b) && DistinctNames(a)
    ensures Sorted(a) == Sorted(b)
  {
    SortedAscends(a);
    SortedAscends(b);
    forall x, y | x in multiset(a) && y in multiset(a) && x.name == y.name ensures x == y {
      var i :| 0 <= i < |a| && a[i] == x;
      var j :| 0 <= j < |a| && a[j] == y;
    }
    OneAscendingOrder(Sorted(a), Sorted(b));
  }

  lemma {:induction false} InsertDistinct(x: Axis, axes: seq<Axis>)
    requires DistinctNames([x] + axes)
    ensures DistinctNames(Insert(x, axes))
  {
    var all := [x] + axes;
    if axes != [] && !AtMost(x.name, axes[0].name) {
      var next, rest := [x] + axes[1..], Insert(x, axes[1..]);
      forall i, j | 0 <= i < j < |next| ensures next[i].name != next[j].name {
        assert all[if i == 0 then 0 else i + 1] == next[i] && all[j + 1] == next[j];
      }
      InsertDistinct(x, axes[1..]);
      InsertKeeps(x, axes[1..]);
      forall j | 0 <= j < |rest| ensures rest[j].name != axes[0].name {
        assert rest[j] in multiset(rest);
        if rest[j] == x {
          assert all[0].name != all[1].name;
        } else {
          var k :| 0 <= k < |axes[1..]| && axes[1..][k] == rest[j];
          assert all[1].name != all[k + 2].name;
        }
      }
    }
  }

  lemma {:induction false} SortedDistinct(a: seq<Axis>)
    requires DistinctNames(a)
    ensures DistinctNames(Sorted(a))
  {
    if a != [] {
      var rest := Sorted(a[1..]);
      SortedDistinct(a[1..]);
      SortedAscends(a[1..]);
      forall j | 0 <= j < |rest| ensures rest[j].name != a[0].name {
        assert rest[j] in multiset(a[1..]);
        var k :| 0 <= k < |a[1..]| && a[1..][k] == rest[j];
        assert a[k + 1].name != a[0].name;
      }
      InsertDistinct(a[0], rest);
    }
  }

  // ---- the product ----------------------------------------------------------------------

  function Row(base: Cell, name: string, values: seq<Value>): (r: seq<Cell>)
    ensures |r| == |values| && forall i :: 0 <= i < |r| ==> r[i] == base[name := values[i]]
  {
    if values == [] then [] else [base[name := values[0]]] + Row(base, name, values[1..])
  }

  function Extend(cells: seq<Cell>, axis: Axis): seq<Cell> {
    if cells == [] then [] else Row(cells[0], axis.name, axis.values) + Extend(cells[1..], axis)
  }

  function Product(axes: seq<Axis>): seq<Cell> {
    if axes == [] then [map[]] else Extend(Product(axes[..|axes| - 1]), axes[|axes| - 1])
  }

  function Size(axes: seq<Axis>): nat {
    if axes == [] then 1 else Size(axes[..|axes| - 1]) * |axes[|axes| - 1].values|
  }

  function Names(axes: seq<Axis>): set<string> {
    set a | a in axes :: a.name
  }

  lemma {:induction false} ExtendCount(cells: seq<Cell>, axis: Axis)
    ensures |Extend(cells, axis)| == |cells| * |axis.values|
  {
    if cells != [] {
      ExtendCount(cells[1..], axis);
      OneMoreRow(|cells[1..]|, |axis.values|);
    }
  }

  lemma OneMoreRow(n: nat, k: nat)
    ensures (n + 1) * k == k + n * k
  {
  }

  /** As many cells as there are choices of one value per axis. */
  lemma {:induction false} ProductCount(axes: seq<Axis>)
    ensures |Product(axes)| == Size(axes)
  {
    if axes != [] {
      ProductCount(axes[..|axes| - 1]);
      ExtendCount(Product(axes[..|axes| - 1]), axes[|axes| - 1]);
    }
  }

  /** `c` is `b` with one of the axis's values put in. */
  ghost predicate Takes(b: Cell, axis: Axis, c: Cell) {
    axis.name in c && c[axis.name] in axis.values && c == b[axis.name := c[axis.name]]
  }

  lemma RowMembers(base: Cell, axis: Axis, c: Cell)
    ensures c in Row(base, axis.name, axis.values) <==> Takes(base, axis, c)
  {
    var row := Row(base, axis.name, axis.values);
    if c in row {
      var i :| 0 <= i < |row| && row[i] == c;
    }
    if Takes(base, axis, c) {
      var i :| 0 <= i < |axis.values| && axis.values[i] == c[axis.name];
      assert row[i] == c;
    }
  }

  ghost predicate TakesFrom(cells: seq<Cell>, axis: Axis, c: Cell) {
    exists b :: b in cells && Takes(b, axis, c)
  }

  lemma {:induction false} ExtendMembers(cells: seq<Cell>, axis: Axis, c: Cell)
    ensures c in Extend(cells, axis) <==> TakesFrom(cells, axis, c)
  {
    if cells != [] {
      ExtendMembers(cells[1..], axis, c);
      RowMembers(cells[0], axis, c);
      assert cells == [cells[0]] + cells[1..];
      assert TakesFrom(cells, axis, c) <==> Takes(cells[0], axis, c) || TakesFrom(cells[1..], axis, c);
    }
  }

  /** `c` gives every axis one of its values, and nothing else. */
  ghost predicate Chooses(axes: seq<Axis>, c: Cell) {
    c.Keys == Names(axes) && forall a :: a in axes ==> a.name in c && c[a.name] in a.values
  }

  lemma ChoosesMore(front: seq<Axis>, last: Axis, b: Cell, c: Cell)
    requires DistinctNames(front + [last]) && Chooses(front, b) && Takes(b, last, c)
    ensures Chooses(front + [last], c)
  {
    var axes := front + [last];
    forall a | a in axes ensures a.name in c && c[a.name] in a.values {
      if a in front {
        var i :| 0 <= i < |front| && front[i] == a;
        assert axes[i].name != axes[|front|].name;
      }
    }
    forall k ensures k in c.Keys <==> k in Names(axes) {
      if k in Names(axes) && k != last.name {
        var a :| a in axes && a.name == k;
        assert a in front;
      }
      if k in c.Keys && k != last.name {
        assert k in Names(front);
      }
    }
  }

  lemma ChoosesLess(front: seq<Axis>, last: Axis, c: Cell)
    requires DistinctNames(front + [last]) && Chooses(front + [last], c)
    ensures Chooses(front, c - {last.name}) && Takes(c - {last.name}, last, c)
  {
    var axes, b := front + [last], c - {last.name};
    assert last in axes;
    forall a | a in front ensures a.name in b && b[a.name] in a.values {
      var i :| 0 <= i < |front| && front[i] == a;
      assert axes[i].name != axes[|front|].name && a in axes;
    }
    forall k ensures k in b.Keys <==> k in Names(front) {
      if k in b.Keys {
        assert k in Names(axes);
        var a :| a in axes && a.name == k;
        assert a in front;
      }
    }
  }

  lemma {:induction false} ProductChooses(axes: seq<Axis>, c: Cell)
    requires DistinctNames(axes) && c in Product(axes)
    ensures Chooses(axes, c)
    decreases |axes|
  {
    if axes == [] {
      assert c == map[];
    } else {
      var front, last := axes[..|axes| - 1], axes[|axes| - 1];
      assert axes == front + [last];
      ExtendMembers(Product(front), last, c);
      var b :| b in Product(front) && Takes(b, last, c);
      ProductChooses(front, b);
      ChoosesMore(front, last, b, c);
    }
  }

  lemma {:induction false} ChoicesInProduct(axes: seq<Axis>, c: Cell)
    requires DistinctNames(axes) && Chooses(axes, c)
    ensures c in Product(axes)
    decreases |axes|
  {
    if axes == [] {
      assert c.Keys == {};
      assert c == map[];
    } else {
      var front, last := axes[..|axes| - 1], axes[|axes| - 1];
      assert axes == front + [last];
      ChoosesLess(front, last, c);
      ChoicesInProduct(front, c - {last.name});
      ExtendMembers(Product(front), last, c);
    }
  }

  /** The cells of the product are exactly the choices of one value per axis. */
  lemma ProductMembers(axes: seq<Axis>, c: Cell)
    requires DistinctNames(axes)
    ensures c in Product(axes) <==> Chooses(axes, c)
  {
    if c in Product(axes) { ProductChooses(axes, c); }
    if Chooses(axes, c) { ChoicesInProduct(axes, c); }
  }

  // ---- no cell twice --------------------------------------------------------------------------

  ghost predicate NoRepeats<T>(s: seq<T>) {
    forall i, j :: 0 <= i < j < |s| ==> s[i] != s[j]
  }

  lemma NoRepeatsJoined<T>(a: seq<T>, b: seq<T>)
    requires NoRepeats(a) && NoRepeats(b) && forall x :: x in a ==> x !in b
    ensures NoRepeats(a + b)
  {
    var s := a + b;
    forall i, j | 0 <= i < j < |s| ensures s[i] != s[j] {
      if i < |a| <= j { assert a[i] in a && b[j - |a|] in b; }
    }
  }

  lemma {:induction false} ExtendNoRepeats(cells: seq<Cell>, axis: Axis)
    requires NoRepeats(cells) && NoRepeats(axis.values) && forall c :: c in cells ==> axis.name !in c
    ensures NoRepeats(Extend(cells, axis))
  {
    if cells != [] {
      var row, rest := Row(cells[0], axis.name, axis.values), Extend(cells[1..], axis);
      forall i, j | 0 <= i < j < |row| ensures row[i] != row[j] {
        assert row[i][axis.name] != row[j][axis.name];
      }
      ExtendNoRepeats(cells[1..], axis);
      forall c | c in row ensures c !in rest {
        RowMembers(cells[0], axis, c);
        if c in rest {
          ExtendMembers(cells[1..], axis, c);
          var b :| b in cells[1..] && Takes(b, axis, c);
          SameBase(b, cells[0], axis, c);
        }
      }
      NoRepeatsJoined(row, rest);
    }
  }

  lemma SameBase(a: Cell, b: Cell, axis: Axis, c: Cell)
    requires axis.name !in a && axis.name !in b && Takes(a, axis, c) && Takes(b, axis, c)
    ensures a == b
  {
    assert a == c - {axis.name} && b == c - {axis.name};
  }

  /** With no value twice on an axis, no cell comes twice. */
  lemma {:induction false} ProductNoRepeats(axes: seq<Axis>)
    requires DistinctNames(axes) && forall a :: a in axes ==> NoRepeats(a.values)
    ensures NoRepeats(Product(axes))
  {
    if axes != [] {
      var front, last := axes[..|axes| - 1], axes[|axes| - 1];
      ProductNoRepeats(front);
      forall c | c in Product(front) ensures last.name !in c {
        ProductMembers(front, c);
      }
      ExtendNoRepeats(Product(front), last);
    }
  }

  // ---- excluding ------------------------------------------------------------------------------

  /** The entry and the cell agree wherever both have a value. */
  predicate Agrees(c: Cell, entry: Cell) {
    forall k :: k in entry && k in c ==> c[k] == entry[k]
  }

  predicate Excluded(c: Cell, excludes: seq<Cell>) {
    exists i :: 0 <= i < |excludes| && Agrees(c, excludes[i])
  }

  function Retained(cells: seq<Cell>, excludes: seq<Cell>): seq<Cell> {
    if cells == [] then []
    else (if Excluded(cells[0], excludes) then [] else [cells[0]]) + Retained(cells[1..], excludes)
  }

  function CountExcluded(cells: seq<Cell>, excludes: seq<Cell>): nat {
    if cells == [] then 0 else (if Excluded(cells[0], excludes) then 1 else 0) + CountExcluded(cells[1..], excludes)
  }

  lemma {:induction false} RetainedAre(cells: seq<Cell>, excludes: seq<Cell>)
    ensures |Retained(cells, excludes)| + CountExcluded(cells, excludes) == |cells|
    ensures forall c :: c in Retained(cells, excludes) <==> c in cells && !Excluded(c, excludes)
  {
    if cells != [] {
      RetainedAre(cells[1..], excludes);
      assert cells == [cells[0]] + cells[1..];
    }
  }

  // ---- including --------------------------------------------------------------------------------

  predicate AnyAgrees(cells: seq<Cell>, entry: Cell) {
    exists i :: 0 <= i < |cells| && Agrees(cells[i], entry)
  }

  function MergedWith(c: Cell, entry: Cell): Cell {
    if Agrees(c, entry) then c + entry else c
  }

  function Merged(cells: seq<Cell>, entry: Cell): (r: seq<Cell>)
    ensures |r| == |cells|
    ensures forall i :: 0 <= i < |r| ==> r[i] == MergedWith(cells[i], entry)
  {
    if cells == [] then [] else [MergedWith(cells[0], entry)] + Merged(cells[1..], entry)
  }

  function IncludeOne(cells: seq<Cell>, entry: Cell): seq<Cell> {
    if AnyAgrees(cells, entry) then Merged(cells, entry) else cells + [entry]
  }

  function IncludeAll(cells: seq<Cell>, entries: seq<Cell>): seq<Cell>
    decreases |entries|
  {
    if entries == [] then cells else IncludeAll(IncludeOne(cells, entries[0]), entries[1..])
  }

  /** The entries that, at their turn, agree with no cell. */
  function Unmatched(cells: seq<Cell>, entries: seq<Cell>): seq<Cell>
    decreases |entries|
  {
    if entries == [] then []
    else
      var rest := Unmatched(IncludeOne(cells, entries[0]), entries[1..]);
      (if AnyAgrees(cells, entries[0]) then [] else [entries[0]]) + rest
  }

  /** `d` has all of `c`'s values, and perhaps more. */
  predicate Keeps(c: Cell, d: Cell) {
    forall k :: k in c ==> k in d && d[k] == c[k]
  }

  ghost predicate AllKept(before: seq<Cell>, after: seq<Cell>) {
    |before| <= |after| && forall i :: 0 <= i < |before| ==> Keeps(before[i], after[i])
  }

  lemma IncludeOneKeeps(cells: seq<Cell>, entry: Cell)
    ensures AllKept(cells, IncludeOne(cells, entry))
    ensures Shows(IncludeOne(cells, entry), entry)
  {
    var after := IncludeOne(cells, entry);
    if AnyAgrees(cells, entry) {
      var i :| 0 <= i < |cells| && Agrees(cells[i], entry);
      assert Keeps(entry, after[i]);
    } else {
      assert after[|cells|] == entry && Keeps(entry, after[|cells|]);
    }
  }

  /** No include changes a value a cell already had; cells are only added at
      the end, each grown from an include that agreed with none. */
  lemma {:induction false} IncludesOnlyAdd(cells: seq<Cell>, entries: seq<Cell>)
    ensures |IncludeAll(cells, entries)| == |cells| + |Unmatched(cells, entries)|
    ensures AllKept(cells + Unmatched(cells, entries), IncludeAll(cells, entries))
    decreases |entries|
  {
    if entries == [] {
      assert cells + [] == cells;
    } else {
      var next, rest := IncludeOne(cells, entries[0]), entries[1..];
      IncludeOneKeeps(cells, entries[0]);
      IncludesOnlyAdd(next, rest);
      KeptThrough(cells, entries[0], Unmatched(next, rest), IncludeAll(next, rest));
    }
  }

  lemma KeptThrough(cells: seq<Cell>, entry: Cell, more: seq<Cell>, after: seq<Cell>)
    requires AllKept(IncludeOne(cells, entry) + more, after)
    ensures AllKept(cells + ((if AnyAgrees(cells, entry) then [] else [entry]) + more), after)
  {
    var next := IncludeOne(cells, entry) + more;
    var all := cells + ((if AnyAgrees(cells, entry) then [] else [entry]) + more);
    IncludeOneKeeps(cells, entry);
    forall i | 0 <= i < |all| ensures Keeps(all[i], after[i]) {
      assert Keeps(next[i], after[i]);
      if i < |cells| {
        assert Keeps(cells[i], IncludeOne(cells, entry)[i]) && next[i] == IncludeOne(cells, entry)[i];
      } else {
        assert next[i] == all[i];
      }
    }
  }

  /** A value of `d` that `c` does not have is one an entry gives. */
  ghost predicate Sourced(c: Cell, d: Cell, entries: seq<Cell>) {
    forall k :: k in d && k !in c ==> exists e :: e in entries && k in e && e[k] == d[k]
  }

  ghost predicate AllSourced(before: seq<Cell>, after: seq<Cell>, entries: seq<Cell>) {
    |before| <= |after| && forall i :: 0 <= i < |before| ==> Sourced(before[i], after[i], entries)
  }

  lemma {:induction false} NothingFromNowhere(cells: seq<Cell>, entries: seq<Cell>)
    ensures AllSourced(cells + Unmatched(cells, entries), IncludeAll(cells, entries), entries)
    decreases |entries|
  {
    if entries == [] {
      assert cells + [] == cells;
    } else {
      var next, rest := IncludeOne(cells, entries[0]), entries[1..];
      IncludesOnlyAdd(next, rest);
      NothingFromNowhere(next, rest);
      SourcedThrough(cells, entries, Unmatched(next, rest), IncludeAll(next, rest));
    }
  }

  lemma SourcedThrough(cells: seq<Cell>, entries: seq<Cell>, more: seq<Cell>, after: seq<Cell>)
    requires entries != [] && AllSourced(IncludeOne(cells, entries[0]) + more, after, entries[1..])
    requires AllKept(IncludeOne(cells, entries[0]) + more, after)
    ensures AllSourced(cells + ((if AnyAgrees(cells, entries[0]) then [] else [entries[0]]) + more), after, entries)
  {
    var entry := entries[0];
    var next := IncludeOne(cells, entry) + more;
    var all := cells + ((if AnyAgrees(cells, entry) then [] else [entry]) + more);
    forall i | 0 <= i < |all| ensures Sourced(all[i], after[i], entries) {
      assert Sourced(next[i], after[i], entries[1..]) && Keeps(next[i], after[i]);
      forall k | k in after[i] && k !in all[i] ensures exists e :: e in entries && k in e && e[k] == after[i][k] {
        if k in next[i] {
          assert i < |cells| && next[i] == cells[i] + entry;
          assert entry in entries && k in entry && entry[k] == after[i][k];
        } else {
          var e :| e in entries[1..] && k in e && e[k] == after[i][k];
          assert e in entries;
        }
      }
    }
  }

  /** `e` is part of some cell. */
  ghost predicate Shows(cells: seq<Cell>, e: Cell) {
    exists i :: 0 <= i < |cells| && Keeps(e, cells[i])
  }

  lemma KeptFront(cells: seq<Cell>, more: seq<Cell>, after: seq<Cell>)
    requires AllKept(cells + more, after)
    ensures AllKept(cells, after)
  {
    forall i | 0 <= i < |cells| ensures Keeps(cells[i], after[i]) {
      assert (cells + more)[i] == cells[i];
    }
  }

  lemma StillShows(before: seq<Cell>, after: seq<Cell>, e: Cell)
    requires AllKept(before, after) && Shows(before, e)
    ensures Shows(after, e)
  {
    var i :| 0 <= i < |before| && Keeps(e, before[i]);
    assert Keeps(before[i], after[i]);
    assert Keeps(e, after[i]);
  }

  /** Every include shows up whole in some cell. */
  lemma {:induction false} EveryIncludeShows(cells: seq<Cell>, entries: seq<Cell>, e: Cell)
    requires e in entries
    ensures Shows(IncludeAll(cells, entries), e)
    decreases |entries|
  {
    var next := IncludeOne(cells, entries[0]);
    if e == entries[0] {
      IncludeOneKeeps(cells, e);
      IncludesOnlyAdd(next, entries[1..]);
      KeptFront(next, Unmatched(next, entries[1..]), IncludeAll(next, entries[1..]));
      StillShows(next, IncludeAll(next, entries[1..]), e);
    } else {
      EveryIncludeShows(next, entries[1..], e);
    }
  }

  // ---- the whole expansion ---------------------------------------------------------------------------

  function FirstEmpty(axes: seq<Axis>): Option<string> {
    if axes == [] then None else if axes[0].values == [] then Some(axes[0].name) else FirstEmpty(axes[1..])
  }

  function Cells(p: Parts): seq<Cell> {
    IncludeAll(Retained(Product(Sorted(p.axes)), p.excludes), p.includes)
  }

  function Expanded(src: Source): Result<seq<Cell>, MatrixError> {
    match src
    case Absent => Ok([map[]])
    case NotAMapping => Err(NeedsAMapping)
    case Mapping(entries) =>
      match ReadEntries(Parts([], [], []), entries)
      case Err(e) => Err(e)
      case Ok(p) =>
        var empty := FirstEmpty(Sorted(p.axes));
        if empty.Some? then Err(EmptyAxis(empty.value))
        else if Cells(p) == [] then Err(NoCells)
        else Ok(Cells(p))
  }

  /** Product less excluded, plus the includes that agreed with nothing. */
  lemma CellCount(p: Parts)
    ensures var product := Product(Sorted(p.axes));
            var kept := Retained(product, p.excludes);
            |Cells(p)| == Size(Sorted(p.axes)) - CountExcluded(product, p.excludes) + |Unmatched(kept, p.includes)|
  {
    var product := Product(Sorted(p.axes));
    ProductCount(Sorted(p.axes));
    RetainedAre(product, p.excludes);
    IncludesOnlyAdd(Retained(product, p.excludes), p.includes);
  }

  /** Every choice of values that no `exclude` agrees with is, with all its
      values and otherwise only some from includes, one of the cells. */
  lemma ChoicesAreCells(p: Parts, c: Cell)
    requires DistinctNames(p.axes) && Chooses(Sorted(p.axes), c) && !Excluded(c, p.excludes)
    ensures exists d :: d in Cells(p) && Keeps(c, d) && Sourced(c, d, p.includes)
  {
    var product := Product(Sorted(p.axes));
    SortedDistinct(p.axes);
    ProductMembers(Sorted(p.axes), c);
    RetainedAre(product, p.excludes);
    var kept := Retained(product, p.excludes);
    IncludesOnlyAdd(kept, p.includes);
    var i :| 0 <= i < |kept| && kept[i] == c;
    NothingFromNowhere(kept, p.includes);
    assert (kept + Unmatched(kept, p.includes))[i] == c;
    assert Keeps(c, Cells(p)[i]) && Sourced(c, Cells(p)[i], p.includes);
  }

  /** And every cell is such a choice, or an include that agreed with none, with
      values from includes added to it. */
  lemma CellsAreChoices(p: Parts, i: nat) returns (c: Cell)
    requires DistinctNames(p.axes) && i < |Cells(p)|
    ensures Keeps(c, Cells(p)[i]) && Sourced(c, Cells(p)[i], p.includes)
    ensures || (Chooses(Sorted(p.axes), c) && !Excluded(c, p.excludes))
            || c in Unmatched(Retained(Product(Sorted(p.axes)), p.excludes), p.includes)
  {
    var product := Product(Sorted(p.axes));
    var kept := Retained(product, p.excludes);
    var all := kept + Unmatched(kept, p.includes);
    IncludesOnlyAdd(kept, p.includes);
    NothingFromNowhere(kept, p.includes);
    c := all[i];
    if i < |kept| {
      assert c in kept;
      RetainedAre(product, p.excludes);
      SortedDistinct(p.axes);
      ProductMembers(Sorted(p.axes), c);
    }
  }

  method ExpandMatrix(src: Source) returns (r: Result<seq<Cell>, MatrixError>)
    ensures r == Expanded(src)
  {
    match src {
      case Absent => return Ok([map[]]);
      case NotAMapping => return Err(NeedsAMapping);
      case Mapping(entries) =>
        var read := Read(entries);
        if read.Err? {
          return Err(read.error);
        }
        var p := read.value;
        var product := BuildProduct(Sorted(p.axes));
        if product.Err? {
          return Err(EmptyAxis(product.error));
        }
        var cells := ApplyIncludes(Retained(product.value, p.excludes), p.includes);
        r := if cells == [] then Err(NoCells) else Ok(cells);
    }
  }

  method Read(entries: seq<Entry>) returns (r: Result<Parts, MatrixError>)
    ensures r == ReadEntries(Parts([], [], []), entries)
  {
    var p := Parts([], [], []);
    for i := 0 to |entries|
      invariant ReadEntries(p, entries[i..]) == ReadEntries(Parts([], [], []), entries)
    {
      var next := ReadEntry(p, entries[i]);
      if next.Err? {
        return Err(next.error);
      }
      p := next.value;
      assert entries[i..][1..] == entries[i + 1..];
    }
    r := Ok(p);
  }

  /** The nested loops over axes, cells and values. */
  method BuildProduct(axes: seq<Axis>) returns (r: Result<seq<Cell>, string>)
    ensures r.Ok? <==> FirstEmpty(axes).None?
    ensures r.Ok? ==> r.value == Product(axes)
    ensures r.Err? ==> FirstEmpty(axes) == Some(r.error)
  {
    var cells: seq<Cell> := [map[]];
    for k := 0 to |axes|
      invariant cells == Product(axes[..k])
      invariant FirstEmpty(axes[k..]) == FirstEmpty(axes)
    {
      assert axes[k..][1..] == axes[k + 1..];
      if axes[k].values == [] {
        return Err(axes[k].name);
      }
      var next: seq<Cell> := [];
      for i := 0 to |cells|
        invariant next + Extend(cells[i..], axes[k]) == Extend(cells, axes[k])
      {
        var row := BuildRow(cells[i], axes[k]);
        assert cells[i..][1..] == cells[i + 1..];
        assert next + (row + Extend(cells[i + 1..], axes[k])) == next + row + Extend(cells[i + 1..], axes[k]);
        next := next + row;
      }
      assert axes[..k + 1][..k] == axes[..k];
      cells := next;
    }
    assert axes[..|axes|] == axes;
    r := Ok(cells);
  }

  method BuildRow(base: Cell, axis: Axis) returns (row: seq<Cell>)
    ensures row == Row(base, axis.name, axis.values)
  {
    row := [];
    for i := 0 to |axis.values|
      invariant |row| == i && forall k :: 0 <= k < i ==> row[k] == base[axis.name := axis.values[k]]
    {
      row := row + [base[axis.name := axis.values[i]]];
    }
  }

  method ApplyIncludes(start: seq<Cell>, entries: seq<Cell>) returns (cells: seq<Cell>)
    ensures cells == IncludeAll(start, entries)
  {
    cells := start;
    for n := 0 to |entries|
      invariant IncludeAll(cells, entries[n..]) == IncludeAll(start, entries)
    {
      assert entries[n..][1..] == entries[n + 1..];
      ghost var before := cells;
      var merged;
      cells, merged := MergeInto(cells, entries[n]);
      if !merged {
        cells := cells + [entries[n]];
      }
      Include(before, entries[n], merged, cells);
    }
  }

  /** The loop over the cells for one entry. */
  method MergeInto(before: seq<Cell>, entry: Cell) returns (cells: seq<Cell>, merged: bool)
    ensures cells == Merged(before, entry) && merged == AnyAgrees(before, entry)
  {
    cells, merged := before, false;
    for i := 0 to |cells|
      invariant |cells| == |before|
      invariant merged == AnyAgrees(before[..i], entry)
      invariant forall k :: 0 <= k < i ==> cells[k] == MergedWith(before[k], entry)
      invariant forall k :: i <= k < |cells| ==> cells[k] == before[k]
    {
      OneMoreAgrees(before, entry, i);
      if Agrees(cells[i], entry) {
        cells := cells[i := cells[i] + entry];
        merged := true;
      }
    }
    assert before[..|before|] == before;
  }

  lemma OneMoreAgrees(cells: seq<Cell>, entry: Cell, i: nat)
    requires i < |cells|
    ensures AnyAgrees(cells[..i + 1], entry) <==> AnyAgrees(cells[..i], entry) || Agrees(cells[i], entry)
  {
    var front, more := cells[..i], cells[..i + 1];
    assert more == front + [cells[i]];
    if AnyAgrees(front, entry) {
      var k :| 0 <= k < |front| && Agrees(front[k], entry);
      assert Agrees(more[k], entry);
    }
    if Agrees(cells[i], entry) {
      assert Agrees(more[i], entry);
    }
  }

  lemma Include(before: seq<Cell>, entry: Cell, merged: bool, after: seq<Cell>)
    requires merged <==> AnyAgrees(before, entry)
    requires if merged then |after| == |before| else |after| == |before| + 1 && after[|before|] == entry
    requires forall k :: 0 <= k < |before| ==> after[k] == Merged(before, entry)[k]
    ensures after == IncludeOne(before, entry)
  {
    if merged {
      assert after == Merged(before, entry);
    } else {
      assert after == before + [entry];
    }
  }
}
