/** Making a right side does not change what names stand for: it may empty variables and entries, but
    references stay. */
module TargetsStay {
  import opened Heap
  import opened Store
  import opened Language
  import opened Scopes
  import opened Discipline
  import opened ValueSemantics
  import opened ValueRefinement
  import opened StatementMeaning

  predicate IsRef(p: Plain) { p.PLeaf? && p.v.VRef? }

  /** What a reference names is no reference. */
  predicate GoodRefs(w: World) {
    forall l | l in w.cells && IsRef(w.cells[l]) :: !IsRef(Content(w, w.cells[l].v.loc))
  }

  /** The same references, and no others. */
  ghost predicate SameRefs(w: World, x: World) {
    && x.tables == w.tables
    && forall l: Loc :: if IsRef(Content(w, l)) then Content(x, l) == Content(w, l) else !IsRef(Content(x, l))
  }

  lemma {:induction false} SameDenoted(w: World, x: World, k: nat, sym: Sym)
    requires SameRefs(w, x) && k <= |w.tables|
    ensures Denoted(x, k, sym) == Denoted(w, k, sym)
    decreases k
  {
    hide Content;
    if k == 0 {
    } else if Lookup(w.tables[k - 1], sym).None? {
      SameDenoted(w, x, k - 1, sym);
    } else {
      var l := Lookup(w.tables[k - 1], sym).value;
      assert IsRef(Content(w, l)) <==> IsRef(Content(x, l));
    }
  }

  lemma RefsStayGood(w: World, x: World)
    requires GoodRefs(w) && SameRefs(w, x)
    ensures GoodRefs(x)
  {
    forall l | l in x.cells && IsRef(x.cells[l]) ensures !IsRef(Content(x, x.cells[l].v.loc)) {
      assert Content(x, l) == x.cells[l];
      assert IsRef(Content(w, l));
    }
  }

  lemma {:induction false} DenotedNoRef(w: World, k: nat, sym: Sym)
    requires GoodRefs(w) && k <= |w.tables| && Denoted(w, k, sym).Some?
    ensures !IsRef(Content(w, Denoted(w, k, sym).value))
    decreases k
  {
    if Lookup(w.tables[k - 1], sym).None? { DenotedNoRef(w, k - 1, sym); }
  }

  /** Something else put where there is no reference. */
  lemma HoldRefs(w: World, l: Loc, p: Plain)
    requires !IsRef(Content(w, l)) && !IsRef(p)
    ensures SameRefs(w, Hold(w, l, p))
  {
  }

  lemma {:induction false} MakeRefs(fl: Floats, w: World, rhs: Rhs)
    requires GoodRefs(w)
    ensures SameRefs(w, Make(fl, w, rhs).w)
    decreases rhs
  {
    hide Content, Denoted, Read, Write, ValueOf, SameRefs, Hold;
    SameSelf(w);
    match rhs {
      case RExpr(_) =>
      case RInit(isMap, items) => ItemsRefs(fl, w, PNode(isMap, [], []), items);
      case RMoveId(x) => NamedRefs(w, x);
      case RCopyId(_) =>
      case RMoveAccess(a) => EntryRefs(w, a);
      case RCopyAccess(_) =>
    }
  }

  lemma SameSelf(w: World)
    ensures SameRefs(w, w)
  {
  }

  lemma NamedRefs(w: World, x: Sym)
    requires GoodRefs(w)
    ensures SameRefs(w, MakeNamed(w, |w.tables|, x, true).w)
  {
    hide Content, Denoted, SameRefs;
    SameSelf(w);
    if Denoted(w, |w.tables|, x).Some? {
      DenotedNoRef(w, |w.tables|, x);
      HoldRefs(w, Denoted(w, |w.tables|, x).value, PLeaf(VNone));
    }
  }

  lemma EntryRefs(w: World, a: Access)
    requires GoodRefs(w)
    ensures SameRefs(w, MakeEntry(w, a, InvalidMapAccess, true).w)
  {
    hide Content, Denoted, SameRefs, Read, Write;
    SameSelf(w);
    if DenotedAny(w, a.root).Some? {
      var l, path := DenotedAny(w, a.root).value, a.mids + [a.last];
      DenotedNoRef(w, |w.tables|, a.root);
      if Read(Content(w, l), path).Some? {
        WrittenInside(Content(w, l), path, PLeaf(VNone));
        HoldRefs(w, l, Write(Content(w, l), path, PLeaf(VNone)));
      }
    }
  }

  lemma WrittenInside(p: Plain, path: seq<Sym>, q: Plain)
    requires path != [] && Read(p, path).Some?
    ensures Write(p, path, q).PNode?
  {
  }

  lemma {:induction false} ItemsRefs(fl: Floats, w: World, box: Plain, items: seq<Item>)
    requires GoodRefs(w)
    ensures SameRefs(w, MakeItems(fl, w, box, items).w)
    decreases items
  {
    hide GoodRefs, SameRefs, With;
    if items == [] {
      SameSelf(w);
    } else {
      ItemRefs(fl, w, items[0]);
      var m := MakeItem(fl, w, items[0]);
      RefsStayGood(w, m.w);
      if m.Made? {
        var box1 := With(box, items[0].key, m.p);
        ItemsRefs(fl, m.w, box1, items[1..]);
        SameChain(w, m.w, MakeItems(fl, m.w, box1, items[1..]).w);
      }
    }
  }

  lemma {:induction false} ItemRefs(fl: Floats, w: World, item: Item)
    requires GoodRefs(w)
    ensures SameRefs(w, MakeItem(fl, w, item).w)
    decreases item
  {
    MakeRefs(fl, w, item.rhs);
  }

  lemma SameChain(w: World, x: World, y: World)
    requires SameRefs(w, x) && SameRefs(x, y)
    ensures SameRefs(w, y)
  {
    hide Content;
  }

  // ---------------------------------------------------------------- right sides that move nothing

  predicate Moves(rhs: Rhs)
    decreases rhs
  {
    match rhs
    case RMoveId(_) => true
    case RMoveAccess(_) => true
    case RInit(_, items) => ItemsMove(items)
    case _ => false
  }

  predicate ItemsMove(items: seq<Item>)
    decreases items
  {
    items != [] && (ItemMoves(items[0]) || ItemsMove(items[1..]))
  }

  predicate ItemMoves(item: Item)
    decreases item
  {
    Moves(item.rhs)
  }

  lemma {:induction false} MakeStill(fl: Floats, w: World, rhs: Rhs)
    requires !Moves(rhs)
    ensures Make(fl, w, rhs).w == w
    decreases rhs
  {
    hide Content, Denoted, Read, Write, ValueOf;
    if rhs.RInit? { ItemsStill(fl, w, PNode(rhs.isMap, [], []), rhs.items); }
  }

  lemma {:induction false} ItemsStill(fl: Floats, w: World, box: Plain, items: seq<Item>)
    requires !ItemsMove(items)
    ensures MakeItems(fl, w, box, items).w == w
    decreases items
  {
    hide With;
    if items == [] {
    } else {
      ItemStill(fl, w, items[0]);
      var m := MakeItem(fl, w, items[0]);
      if m.Made? { ItemsStill(fl, w, With(box, items[0].key, m.p), items[1..]); }
    }
  }

  lemma {:induction false} ItemStill(fl: Floats, w: World, item: Item)
    requires !ItemMoves(item)
    ensures MakeItem(fl, w, item).w == w
    decreases item
  {
    MakeStill(fl, w, item.rhs);
  }

  // ---------------------------------------------------------------- stores

  lemma KnownGood(s: Store)
    requires Fine(s)
    ensures GoodRefs(Known(s))
  {
    hide Known, Locs, Scoped, PlainOf;
    KnownIs(s);
    var w := Known(s);
    forall l | l in w.cells && IsRef(w.cells[l]) ensures !IsRef(Content(w, w.cells[l].v.loc)) {
      PlainRef(s, l);
      RefsLand(s.tables, s.cells, s.ext, l);
      PlainRef(s, s.cells[l].loc);
    }
  }

  /** A name stands for the same variable before a right side is made and after. */
  lemma NameStays(fl: Floats, s: Store, rhs: Rhs, x: Sym)
    requires Fine(s)
    ensures Fine(Build(fl, s, rhs).s)
    ensures ResolveAny(Build(fl, s, rhs).s, x) == ResolveAny(s, x)
  {
    hide Fine, Known, Build, Make, Denoted, Resolve, GoodRefs, SameRefs;
    BuildMeans(fl, s, rhs);
    var b, m := Build(fl, s, rhs), Make(fl, Known(s), rhs);
    MeansKind(s, b, m);
    KnownGood(s);
    MakeRefs(fl, Known(s), rhs);
    NameMeans(s, x);
    NameMeans(b.s, x);
    TablesSame(Known(s), m.w);
    SameDenoted(Known(s), m.w, |Known(s).tables|, x);
  }

  lemma TablesSame(w: World, x: World)
    requires SameRefs(w, x)
    ensures x.tables == w.tables
  {
  }

  /** A path leads to a map after a right side is made if and only if it does over plain values once the
      right side's moves are done; so if it moves nothing, if and only if the path does before. */
  lemma PathStays(fl: Floats, s: Store, rhs: Rhs, a: Access)
    requires Fine(s)
    ensures MapAt(Build(fl, s, rhs).s, a).Ok? <==> FindMap(Make(fl, Known(s), rhs).w, a).MapIn?
    ensures !Moves(rhs) ==> (MapAt(Build(fl, s, rhs).s, a).Ok? <==> MapAt(s, a).Ok?)
  {
    hide Fine, Known, Build, Make, FindMap, MapAt, PlainOf;
    BuildMeans(fl, s, rhs);
    MeansKind(s, Build(fl, s, rhs), Make(fl, Known(s), rhs));
    MapMeans(Build(fl, s, rhs).s, a);
    MapMeans(s, a);
    if !Moves(rhs) { MakeStill(fl, Known(s), rhs); }
  }
}
