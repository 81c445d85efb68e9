/** The expansion said of the mapping as it is written: what its entries named
    `include` and `exclude` do to the choices its other entries offer. */
module MatrixReading {
  import opened Common
  import opened Values
  import opened Matrix

  // ---- what is written ---------------------------------------------------------

  /** The entries have names, no two the same, and lists. */
  ghost predicate WellWritten(es: seq<Entry>) {
    && (forall i :: 0 <= i < |es| ==> es[i].name.Some? && es[i].list.Some?)
    && (forall i, k :: 0 <= i < k < |es| ==> es[i].name != es[k].name)
  }

  /** `c` is a mapping listed under `name`. */
  ghost predicate Lists(es: seq<Entry>, name: string, c: Cell) {
    exists e, x :: e in es && e.name == Some(name) && e.list.Some? && x in e.list.value && x.mapping == Some(c)
  }

  predicate IsAxis(e: Entry) {
    e.name.Some? && e.name.value != "include" && e.name.value != "exclude"
  }

  /** `v` is one of the values of the axis `name`. */
  ghost predicate Offers(es: seq<Entry>, name: string, v: Value) {
    exists e, x :: e in es && IsAxis(e) && e.name == Some(name) && e.list.Some? && x in e.list.value && x.json == v
  }

  /** One value for every axis, and nothing else. */
  ghost predicate IsChoice(es: seq<Entry>, c: Cell) {
    && (forall k :: k in c ==> Offers(es, k, c[k]))
    && (forall e :: e in es && IsAxis(e) ==> e.name.value in c)
  }

  /** Some exclude agrees with it wherever both have a value. */
  ghost predicate IsExcluded(es: seq<Entry>, c: Cell) {
    exists x :: Lists(es, "exclude", x) && forall k :: k in x && k in c ==> x[k] == c[k]
  }

  /** What `d` has beyond `c` is what includes give. */
  ghost predicate GrownByIncludes(es: seq<Entry>, c: Cell, d: Cell) {
    && (forall k :: k in c ==> k in d && d[k] == c[k])
    && (forall k :: k in d && k !in c ==> exists x :: Lists(es, "include", x) && k in x && x[k] == d[k])
  }

  // ---- what is read -----------------------------------------------------------------

  /** The mappings listed under `name`, or `d` if nothing has that name. */
  function Listed(es: seq<Entry>, name: string, d: seq<Cell>): seq<Cell>
    requires forall i :: 0 <= i < |es| ==> es[i].list.Some?
  {
    if es == [] then d
    else if es[0].name == Some(name) then Mappings(es[0].list.value)
    else Listed(es[1..], name, d)
  }

  function AxesOf(es: seq<Entry>): seq<Axis>
    requires forall i :: 0 <= i < |es| ==> es[i].name.Some? && es[i].list.Some?
  {
    if es == [] then []
    else (if IsAxis(es[0]) then [Axis(es[0].name.value, Jsons(es[0].list.value))] else []) + AxesOf(es[1..])
  }

  lemma {:induction false} Unlisted(es: seq<Entry>, name: string, d: seq<Cell>)
    requires WellWritten(es) && forall i :: 0 <= i < |es| ==> es[i].name != Some(name)
    ensures Listed(es, name, d) == d
  {
    if es != [] { Unlisted(es[1..], name, d); }
  }

  /** Each entry is read into the part it is named for. */
  lemma {:induction false} EntriesAreRead(p: Parts, es: seq<Entry>)
    requires WellWritten(es)
    ensures ReadEntries(p, es)
            == Ok(Parts(p.axes + AxesOf(es), Listed(es, "include", p.includes), Listed(es, "exclude", p.excludes)))
    decreases |es|
  {
    if es == [] {
      assert p.axes + [] == p.axes;
    } else {
      var e, rest := es[0], es[1..];
      var q := ReadEntry(p, e).value;
      EntriesAreRead(q, rest);
      if e.name.value == "include" {
        Unlisted(rest, "include", q.includes);
        assert [] + AxesOf(rest) == AxesOf(rest);
      } else if e.name.value == "exclude" {
        Unlisted(rest, "exclude", q.excludes);
        assert [] + AxesOf(rest) == AxesOf(rest);
      } else {
        var a := Axis(e.name.value, Jsons(e.list.value));
        assert p.axes + [a] + AxesOf(rest) == p.axes + ([a] + AxesOf(rest));
      }
    }
  }

  lemma {:induction false} MappingsAre(items: seq<Item>, c: Cell)
    ensures c in Mappings(items) <==> exists x :: x in items && x.mapping == Some(c)
  {
    if items != [] {
      MappingsAre(items[1..], c);
      assert items == [items[0]] + items[1..];
    }
  }

  lemma {:induction false} JsonsAre(items: seq<Item>, v: Value)
    ensures v in Jsons(items) <==> exists x :: x in items && x.json == v
  {
    if items != [] {
      JsonsAre(items[1..], v);
      assert items == [items[0]] + items[1..];
    }
  }

  lemma {:induction false} ListedAre(es: seq<Entry>, name: string, c: Cell)
    requires WellWritten(es)
    ensures c in Listed(es, name, []) <==> Lists(es, name, c)
  {
    if es != [] {
      var e, rest := es[0], es[1..];
      assert es == [e] + rest;
      ListedAre(rest, name, c);
      MappingsAre(e.list.value, c);
      if e.name == Some(name) && Lists(es, name, c) {
        var f, x :| f in es && f.name == Some(name) && f.list.Some? && x in f.list.value && x.mapping == Some(c);
        assert f == e;
      }
    }
  }

  ghost predicate InAxis(axes: seq<Axis>, name: string, v: Value) {
    exists a :: a in axes && a.name == name && v in a.values
  }

  ghost predicate HasAxis(axes: seq<Axis>, name: string) {
    exists a :: a in axes && a.name == name
  }

  ghost predicate WritesAxis(es: seq<Entry>, name: string) {
    exists e :: e in es && IsAxis(e) && e.name == Some(name)
  }

  lemma OneMoreAxis(a: Axis, axes: seq<Axis>, name: string, v: Value)
    ensures InAxis([a] + axes, name, v) <==> (a.name == name && v in a.values) || InAxis(axes, name, v)
    ensures HasAxis([a] + axes, name) <==> a.name == name || HasAxis(axes, name)
  {
    var all := [a] + axes;
    assert a in all && forall b :: b in axes ==> b in all;
  }

  lemma OneMoreEntry(e: Entry, es: seq<Entry>, name: string, v: Value)
    requires e.name.Some? && e.list.Some?
    ensures Offers([e] + es, name, v) <==>
            (IsAxis(e) && e.name == Some(name) && v in Jsons(e.list.value)) || Offers(es, name, v)
    ensures WritesAxis([e] + es, name) <==> (IsAxis(e) && e.name == Some(name)) || WritesAxis(es, name)
  {
    var all := [e] + es;
    assert e in all && forall f :: f in es ==> f in all;
    JsonsAre(e.list.value, v);
  }

  /** The axes read are the ones written. */
  lemma {:induction false} AxesAre(es: seq<Entry>, name: string, v: Value)
    requires WellWritten(es)
    ensures InAxis(AxesOf(es), name, v) <==> Offers(es, name, v)
    ensures HasAxis(AxesOf(es), name) <==> WritesAxis(es, name)
  {
    if es != [] {
      var e, rest := es[0], es[1..];
      assert es == [e] + rest;
      AxesAre(rest, name, v);
      OneMoreEntry(e, rest, name, v);
      if IsAxis(e) {
        OneMoreAxis(Axis(e.name.value, Jsons(e.list.value)), AxesOf(rest), name, v);
      } else {
        assert [] + AxesOf(rest) == AxesOf(rest);
      }
    }
  }

  lemma {:induction false} AxesDistinct(es: seq<Entry>)
    requires WellWritten(es)
    ensures DistinctNames(AxesOf(es))
  {
    if es != [] {
      var e, rest := es[0], es[1..];
      var axes := AxesOf(rest);
      AxesDistinct(rest);
      forall i | 0 <= i < |axes| ensures Some(axes[i].name) != e.name {
        AxesAre(rest, axes[i].name, Null);
        assert axes[i] in axes && HasAxis(axes, axes[i].name);
        var f :| f in rest && IsAxis(f) && f.name == Some(axes[i].name);
        var k :| 0 <= k < |rest| && rest[k] == f;
        assert es[k + 1] == f && es[0].name != es[k + 1].name;
      }
    }
  }

  lemma SortedAxes(axes: seq<Axis>, name: string, v: Value)
    ensures InAxis(Sorted(axes), name, v) <==> InAxis(axes, name, v)
    ensures HasAxis(Sorted(axes), name) <==> HasAxis(axes, name)
  {
    SortedAscends(axes);
    forall a ensures a in Sorted(axes) <==> a in axes {
      assert a in multiset(Sorted(axes)) <==> a in multiset(axes);
    }
  }

  lemma OneOfAName(axes: seq<Axis>, a: Axis, b: Axis)
    requires DistinctNames(axes) && a in axes && b in axes && a.name == b.name
    ensures a == b
  {
    var i :| 0 <= i < |axes| && axes[i] == a;
    var k :| 0 <= k < |axes| && axes[k] == b;
  }

  lemma ChoosesIs(axes: seq<Axis>, c: Cell)
    requires DistinctNames(axes)
    ensures Chooses(axes, c) <==>
            (forall k :: k in c ==> InAxis(axes, k, c[k])) && (forall k :: HasAxis(axes, k) ==> k in c)
  {
    if (forall k :: k in c ==> InAxis(axes, k, c[k])) && forall k :: HasAxis(axes, k) ==> k in c {
      forall a | a in axes ensures a.name in c && c[a.name] in a.values {
        assert HasAxis(axes, a.name) && InAxis(axes, a.name, c[a.name]);
        var b :| b in axes && b.name == a.name && c[a.name] in b.values;
        OneOfAName(axes, a, b);
      }
      forall k ensures k in c.Keys <==> k in Names(axes) {
        if k in c { assert InAxis(axes, k, c[k]); }
      }
    }
    if Chooses(axes, c) {
      forall k | k in c ensures InAxis(axes, k, c[k]) {
        assert k in Names(axes);
      }
      forall k | HasAxis(axes, k) ensures k in c {
        assert k in Names(axes);
      }
    }
  }

  // ---- the answer ---------------------------------------------------------------------------

  lemma ChoicesAre(es: seq<Entry>, c: Cell)
    requires WellWritten(es)
    ensures DistinctNames(AxesOf(es)) && (Chooses(Sorted(AxesOf(es)), c) <==> IsChoice(es, c))
  {
    var axes := AxesOf(es);
    AxesDistinct(es);
    SortedDistinct(axes);
    ChoosesIs(Sorted(axes), c);
    forall k, v ensures InAxis(Sorted(axes), k, v) <==> Offers(es, k, v) {
      SortedAxes(axes, k, v);
      AxesAre(es, k, v);
    }
    forall k ensures HasAxis(Sorted(axes), k) <==> WritesAxis(es, k) {
      SortedAxes(axes, k, Null);
      AxesAre(es, k, Null);
    }
    ChoiceCovers(es, c);
  }

  lemma ChoiceCovers(es: seq<Entry>, c: Cell)
    ensures (forall e :: e in es && IsAxis(e) ==> e.name.value in c) <==> forall k :: WritesAxis(es, k) ==> k in c
  {
    forall e | e in es && IsAxis(e) ensures WritesAxis(es, e.name.value) {
    }
  }

  lemma ExcludedIs(es: seq<Entry>, c: Cell)
    requires WellWritten(es)
    ensures Excluded(c, Listed(es, "exclude", [])) <==> IsExcluded(es, c)
  {
    var xs := Listed(es, "exclude", []);
    forall x ensures x in xs <==> Lists(es, "exclude", x) {
      ListedAre(es, "exclude", x);
    }
    if IsExcluded(es, c) {
      var x :| Lists(es, "exclude", x) && forall k :: k in x && k in c ==> x[k] == c[k];
      var i :| 0 <= i < |xs| && xs[i] == x;
      assert Agrees(c, xs[i]);
    }
    if Excluded(c, xs) {
      var i :| 0 <= i < |xs| && Agrees(c, xs[i]);
      assert Lists(es, "exclude", xs[i]);
    }
  }

  /** The parts of what is written. */
  function PartsOf(es: seq<Entry>): Parts
    requires WellWritten(es)
  {
    Parts(AxesOf(es), Listed(es, "include", []), Listed(es, "exclude", []))
  }

  lemma AnswerIs(es: seq<Entry>)
    requires WellWritten(es) && Expanded(Mapping(es)).Ok?
    ensures Expanded(Mapping(es)).value == Cells(PartsOf(es))
  {
    EntriesAreRead(Parts([], [], []), es);
    assert [] + AxesOf(es) == AxesOf(es);
  }

  lemma GrownIs(es: seq<Entry>, c: Cell, d: Cell)
    requires WellWritten(es)
    ensures GrownByIncludes(es, c, d) <==> Keeps(c, d) && Sourced(c, d, Listed(es, "include", []))
  {
    forall x ensures x in Listed(es, "include", []) <==> Lists(es, "include", x) {
      ListedAre(es, "include", x);
    }
  }

  /** Every choice that no exclude agrees with is, with all its values and
      otherwise only some from includes, a cell of the answer. */
  lemma ChoicesHaveCells(es: seq<Entry>, c: Cell)
    requires WellWritten(es) && Expanded(Mapping(es)).Ok? && IsChoice(es, c) && !IsExcluded(es, c)
    ensures exists d :: d in Expanded(Mapping(es)).value && GrownByIncludes(es, c, d)
  {
    AnswerIs(es);
    ChoicesAre(es, c);
    ExcludedIs(es, c);
    ChoicesAreCells(PartsOf(es), c);
    var d :| d in Cells(PartsOf(es)) && Keeps(c, d) && Sourced(c, d, PartsOf(es).includes);
    GrownIs(es, c, d);
  }

  /** And every cell of the answer comes from such a choice, or from a mapping
      listed under `include`; so an excluded choice has no cell of its own. */
  lemma CellsComeFromWriting(es: seq<Entry>, i: nat) returns (c: Cell)
    requires WellWritten(es) && Expanded(Mapping(es)).Ok? && i < |Expanded(Mapping(es)).value|
    ensures GrownByIncludes(es, c, Expanded(Mapping(es)).value[i])
    ensures (IsChoice(es, c) && !IsExcluded(es, c)) || Lists(es, "include", c)
  {
    AnswerIs(es);
    ChoicesAre(es, map[]);
    var p := PartsOf(es);
    c := CellsAreChoices(p, i);
    GrownIs(es, c, Cells(p)[i]);
    ChoicesAre(es, c);
    ExcludedIs(es, c);
    if !(Chooses(Sorted(p.axes), c) && !Excluded(c, p.excludes)) {
      UnmatchedAreEntries(Retained(Product(Sorted(p.axes)), p.excludes), p.includes, c);
      ListedAre(es, "include", c);
    }
  }

  lemma {:induction false} UnmatchedAreEntries(cells: seq<Cell>, entries: seq<Cell>, c: Cell)
    requires c in Unmatched(cells, entries)
    ensures c in entries
    decreases |entries|
  {
    var rest := Unmatched(IncludeOne(cells, entries[0]), entries[1..]);
    if c in rest {
      UnmatchedAreEntries(IncludeOne(cells, entries[0]), entries[1..], c);
    }
  }

  /** Every mapping listed under `include` is part of some cell. */
  lemma IncludesShow(es: seq<Entry>, x: Cell)
    requires WellWritten(es) && Expanded(Mapping(es)).Ok? && Lists(es, "include", x)
    ensures exists d :: d in Expanded(Mapping(es)).value && forall k :: k in x ==> k in d && d[k] == x[k]
  {
    AnswerIs(es);
    ListedAre(es, "include", x);
    var p := PartsOf(es);
    var kept := Retained(Product(Sorted(p.axes)), p.excludes);
    EveryIncludeShows(kept, p.includes, x);
    var i :| 0 <= i < |Cells(p)| && Keeps(x, Cells(p)[i]);
    assert Cells(p)[i] in Cells(p);
  }

  // ---- when there is an answer ------------------------------------------------------------------

  lemma {:induction false} FirstEmptyIs(axes: seq<Axis>)
    ensures FirstEmpty(axes).None? <==> forall a :: a in axes ==> a.values != []
    ensures FirstEmpty(axes).Some? ==> exists a :: a in axes && a.name == FirstEmpty(axes).value && a.values == []
  {
    if axes != [] {
      FirstEmptyIs(axes[1..]);
      assert axes == [axes[0]] + axes[1..];
    }
  }

  /** Some mapping is listed under `include`, or some choice is not excluded. */
  ghost predicate SomethingLeft(es: seq<Entry>) {
    || (exists x :: Lists(es, "include", x))
    || (exists c :: IsChoice(es, c) && !IsExcluded(es, c))
  }

  /** What is well written is expanded if and only if every axis has a value and
      something is left; it is refused for the first that fails. */
  lemma ExpandsExactly(es: seq<Entry>)
    requires WellWritten(es)
    ensures var r := Expanded(Mapping(es));
            var full := forall e :: e in es && IsAxis(e) ==> e.list.value != [];
            && (r.Ok? <==> full && SomethingLeft(es))
            && (!full ==> r.Err? && r.error.EmptyAxis?)
            && (full && !SomethingLeft(es) ==> r == Err(NoCells))
  {
    EntriesAreRead(Parts([], [], []), es);
    assert [] + AxesOf(es) == AxesOf(es);
    AxesFull(es);
    if Cells(PartsOf(es)) != [] && FirstEmpty(Sorted(AxesOf(es))).None? {
      var c := CellsComeFromWriting(es, 0);
    }
    if SomethingLeft(es) {
      LeftHaveCells(es);
    }
  }

  lemma {:induction false} AxesListed(es: seq<Entry>)
    requires WellWritten(es)
    ensures (forall a :: a in AxesOf(es) ==> a.values != []) <==>
            forall e :: e in es && IsAxis(e) ==> e.list.value != []
  {
    if es != [] {
      var e, rest := es[0], es[1..];
      assert es == [e] + rest;
      AxesListed(rest);
      if IsAxis(e) {
        assert AxesOf(es)[0] in AxesOf(es) && |Jsons(e.list.value)| == |e.list.value|;
        assert forall a :: a in AxesOf(rest) ==> a in AxesOf(es);
      }
    }
  }

  lemma AxesFull(es: seq<Entry>)
    requires WellWritten(es)
    ensures FirstEmpty(Sorted(AxesOf(es))).None? <==> forall e :: e in es && IsAxis(e) ==> e.list.value != []
  {
    var axes := AxesOf(es);
    AxesListed(es);
    FirstEmptyIs(Sorted(axes));
    SortedAscends(axes);
    forall a ensures a in Sorted(axes) <==> a in axes {
      assert a in multiset(Sorted(axes)) <==> a in multiset(axes);
    }
  }

  lemma LeftHaveCells(es: seq<Entry>)
    requires WellWritten(es) && SomethingLeft(es)
    ensures Cells(PartsOf(es)) != []
  {
    var p := PartsOf(es);
    if x :| Lists(es, "include", x) {
      ListedAre(es, "include", x);
      EveryIncludeShows(Retained(Product(Sorted(p.axes)), p.excludes), p.includes, x);
    } else {
      var c :| IsChoice(es, c) && !IsExcluded(es, c);
      ChoicesAre(es, c);
      ExcludedIs(es, c);
      ChoicesAreCells(p, c);
    }
  }

  /** What is not well written is refused at the first entry without a text for
      a name, or without a list. */
  lemma {:induction false} BadEntryIsNamed(p: Parts, es: seq<Entry>, i: nat)
    requires i < |es| && (es[i].name == None || es[i].list == None)
    requires forall k :: 0 <= k < i ==> es[k].name.Some? && es[k].list.Some?
    ensures ReadEntries(p, es) == if es[i].name == None then Err(NameNotAString) else Err(NotAList(es[i].name.value))
    decreases i
  {
    if i > 0 {
      BadEntryIsNamed(ReadEntry(p, es[0]).value, es[1..], i - 1);
    }
  }
}
