/** Exactly when the card scan of a pass takes a forwarding marker for a header and cannot go on. */
module Misreads {
  import opened Layouts
  import opened Options
  import opened Bitmaps
  import opened Pages
  import opened Objects
  import opened Cards
  import opened Moves
  import opened Rewrite
  import opened Copying
  import opened Graphs
  import opened Placement
  import opened Passes
  import opened PassSteps
  import opened PassStates
  import opened Following

  // -- Headers and markers --------------------------------------------------

  /** No header of an object reads as a pointer into the heap. */
  ghost predicate PlainHeaders(g: Geometry, v: View)
    requires |v.starts| == |v.cells|
  {
    forall s: nat | s < |v.starts| && IsObj(v, s) && v.starts[s] == HeaderStart :: !InHeap(g, v.cells[s])
  }

  /** `v` with the objects of `at` forwarded to where `at` says. */
  ghost function WithMarkers(g: Geometry, v: View, at: map<nat, nat>): (w: View)
    requires GeoOk(g)
    ensures w.starts == v.starts && w.descs == v.descs && |w.cells| == |v.cells|
    ensures forall c | 0 <= c < |v.cells| ::
              w.cells[c] == if c in at && at[c] < PAGE_CELLS * g.nPages then Marker(g, at[c]) else v.cells[c]
  {
    v.(cells := seq(|v.cells|, c requires 0 <= c < |v.cells| =>
      if c in at && at[c] < PAGE_CELLS * g.nPages then Marker(g, at[c]) else v.cells[c]))
  }

  /** Page `p` looks the same to the card scan: the same starts, the same headers. */
  ghost predicate SameHeads(g: Geometry, v: View, w: View, p: nat) {
    && Shaped(g, v) && Shaped(g, w) && p < g.nPages
    && v.descs[p].generation != Free && w.descs[p].generation != Free
    && (forall c: nat | c < |v.starts| && c / PAGE_CELLS == p ::
          w.starts[c] == v.starts[c] && (v.starts[c] == HeaderStart ==> w.cells[c] == v.cells[c]))
  }

  lemma ReadsAlike(g: Geometry, v: View, w: View, p: nat, s: nat)
    requires SameHeads(g, v, w, p) && PlainHeaders(g, v) && PlainHeaders(g, w)
    requires s < |v.starts| && s / PAGE_CELLS == p && v.starts[s] == HeaderStart
    ensures Readable(g, w, s) <==> Readable(g, v, s)
  {
    hide LayoutAt, PtrCellOf, InHeap;
    assert LayoutAt(g, w, s) == LayoutAt(g, v, s) by { SameLayoutAt(g, v, w, s); }
    SamePtrCells(g, v, w, s);
    forall c: nat ensures Harmless(g, w, s, c) <==> Harmless(g, v, s, c) {
      if s < c < |v.starts| && c / PAGE_CELLS == p {
        forall x | s < x <= c ensures x / PAGE_CELLS == p {}
      }
    }
    hide Harmless, PtrCells;
  }

  lemma SameLayoutAt(g: Geometry, v: View, w: View, s: nat)
    requires s < |v.starts| == |v.cells| && s < |w.starts| == |w.cells| && w.starts[s] == v.starts[s] != NoStart
    requires v.starts[s] == HeaderStart ==> w.cells[s] == v.cells[s]
    ensures LayoutAt(g, w, s) == LayoutAt(g, v, s)
  {
  }

  lemma VisitAlike(g: Geometry, v: View, w: View, p: nat, s: nat)
    requires SameHeads(g, v, w, p) && PlainHeaders(g, v) && PlainHeaders(g, w)
    requires s < |v.starts| && s / PAGE_CELLS == p && v.starts[s] != NoStart
    ensures Visitable(g, w, s) <==> Visitable(g, v, s)
    ensures SizeOf(g, w, s) == SizeOf(g, v, s)
  {
    hide Readable, PlainHeaders;
    SameLayoutAt(g, v, w, s);
    if v.starts[s] == HeaderStart { ReadsAlike(g, v, w, p, s); }
  }

  lemma {:induction false} WalksAlike(g: Geometry, v: View, w: View, p: nat, s: nat, end: nat)
    requires SameHeads(g, v, w, p) && PlainHeaders(g, v) && PlainHeaders(g, w)
    requires end <= |v.starts| && PAGE_CELLS * p <= s && end <= PAGE_CELLS * (p + 1)
    ensures WalkLegible(g, w, s, end) <==> WalkLegible(g, v, s, end)
    decreases end - s
  {
    hide Visitable, PlainHeaders, SizeOf;
    if s < end && v.starts[s] != NoStart {
      assert s / PAGE_CELLS == p;
      VisitAlike(g, v, w, p, s);
      if SizeOf(g, v, s) != 0 { WalksAlike(g, v, w, p, s + SizeOf(g, v, s), end); }
    }
  }

  /** Whether the scan of a card comes through depends on the headers of its page only. */
  lemma CardsAlike(g: Geometry, v: View, w: View, k: nat)
    requires k < CARDS_PER_PAGE * g.nPages && SameHeads(g, v, w, k / CARDS_PER_PAGE)
    requires PlainHeaders(g, v) && PlainHeaders(g, w)
    ensures CardLegible(g, w, k) <==> CardLegible(g, v, k)
  {
    hide PlainHeaders, WalkLegible;
    var start, end, p := CARD_CELLS * k, CARD_CELLS * (k + 1), k / CARDS_PER_PAGE;
    CardOnPage(k);
    assert forall x: nat | start / PAGE_CELLS * PAGE_CELLS <= x <= start :: x / PAGE_CELLS == p;
    SameOwner(v.starts, w.starts, start);
    SameNext(v.starts, w.starts, start, end);
    assert PAGE_CELLS * p <= WalkStart(v.starts, start, end);
    WalksAlike(g, v, w, p, WalkStart(v.starts, start, end), end);
  }

  // -- The condition --------------------------------------------------------

  /** A dirty card on one of the `pages` that the scan looks at leads it to a marker that it cannot
      take for a header, objects being forwarded as `at` says. */
  ghost predicate GarbledCard(g: Geometry, v: View, cards: seq<bool>, snapshot: seq<PageDesc>, from: Generation,
                              at: map<nat, nat>, pages: set<nat>, k: nat)
    requires GeoOk(g) && Shaped(g, v)
  {
    && k < CARDS_PER_PAGE * g.nPages && k / CARDS_PER_PAGE in pages && CardScanned(cards, snapshot, from, k)
    && !CardLegible(g, WithMarkers(g, v, at), k)
  }

  ghost predicate Garbled(g: Geometry, v: View, cards: seq<bool>, scan: Option<seq<PageDesc>>, from: Generation,
                          at: map<nat, nat>, pages: set<nat>)
    requires GeoOk(g) && Shaped(g, v)
  {
    scan.Some? && exists k: nat :: GarbledCard(g, v, cards, scan.value, from, at, pages, k)
  }

  lemma GarbledParts(g: Geometry, v: View, cards: seq<bool>, scan: Option<seq<PageDesc>>, from: Generation,
                     at: map<nat, nat>, a: set<nat>, b: set<nat>)
    requires GeoOk(g) && Shaped(g, v)
    ensures Garbled(g, v, cards, scan, from, at, a + b) <==>
              Garbled(g, v, cards, scan, from, at, a) || Garbled(g, v, cards, scan, from, at, b)
  {
    hide CardLegible, CardScanned;
    if scan.Some? {
      forall k: nat ensures GarbledCard(g, v, cards, scan.value, from, at, a + b, k) <==>
        GarbledCard(g, v, cards, scan.value, from, at, a, k) || GarbledCard(g, v, cards, scan.value, from, at, b, k) {}
      hide GarbledCard;
      if Garbled(g, v, cards, scan, from, at, a + b) {
        var k: nat :| GarbledCard(g, v, cards, scan.value, from, at, a + b, k);
        assert GarbledCard(g, v, cards, scan.value, from, at, a, k)
            || GarbledCard(g, v, cards, scan.value, from, at, b, k);
      }
      if Garbled(g, v, cards, scan, from, at, a) {
        var k: nat :| GarbledCard(g, v, cards, scan.value, from, at, a, k);
        assert GarbledCard(g, v, cards, scan.value, from, at, a + b, k);
      }
      if Garbled(g, v, cards, scan, from, at, b) {
        var k: nat :| GarbledCard(g, v, cards, scan.value, from, at, b, k);
        assert GarbledCard(g, v, cards, scan.value, from, at, a + b, k);
      }
    }
  }

  /** Only what `at` says of objects on these pages matters. */
  lemma GarbledBy(g: Geometry, v: View, cards: seq<bool>, scan: Option<seq<PageDesc>>, from: Generation,
                  at: map<nat, nat>, at': map<nat, nat>, pages: set<nat>)
    requires GeoOk(g) && Shaped(g, v) && PlainHeaders(g, v)
    requires forall p | p in pages :: p < |v.descs| && v.descs[p].generation != Free
    requires forall s: nat | s / PAGE_CELLS in pages :: (s in at' <==> s in at) && (s in at ==> at'[s] == at[s])
    ensures Garbled(g, v, cards, scan, from, at', pages) <==> Garbled(g, v, cards, scan, from, at, pages)
  {
    hide PlainHeaders, CardLegible, Marker, CardScanned, WithMarkers;
    if scan.Some? {
      forall k: nat ensures GarbledCard(g, v, cards, scan.value, from, at', pages, k) <==>
                              GarbledCard(g, v, cards, scan.value, from, at, pages, k)
      {
        if k < CARDS_PER_PAGE * g.nPages && k / CARDS_PER_PAGE in pages { CardBy(g, v, at, at', k); }
      }
      hide GarbledCard;
    }
  }

  lemma CardBy(g: Geometry, v: View, at: map<nat, nat>, at': map<nat, nat>, k: nat)
    requires GeoOk(g) && Shaped(g, v) && PlainHeaders(g, v) && k < CARDS_PER_PAGE * g.nPages
    requires v.descs[k / CARDS_PER_PAGE].generation != Free
    requires forall s: nat | s / PAGE_CELLS == k / CARDS_PER_PAGE ::
               (s in at' <==> s in at) && (s in at ==> at'[s] == at[s])
    ensures CardLegible(g, WithMarkers(g, v, at'), k) <==> CardLegible(g, WithMarkers(g, v, at), k)
  {
    hide PlainHeaders, CardLegible, WithMarkers, SameHeads;
    PlainWithMarkers(g, v, at);
    PlainWithMarkers(g, v, at');
    MarkersAlike(g, v, at, at', k / CARDS_PER_PAGE);
    CardsAlike(g, WithMarkers(g, v, at), WithMarkers(g, v, at'), k);
  }

  lemma MarkersAlike(g: Geometry, v: View, at: map<nat, nat>, at': map<nat, nat>, p: nat)
    requires GeoOk(g) && Shaped(g, v) && p < |v.descs| && v.descs[p].generation != Free
    requires forall s: nat | s / PAGE_CELLS == p :: (s in at' <==> s in at) && (s in at ==> at'[s] == at[s])
    ensures SameHeads(g, WithMarkers(g, v, at), WithMarkers(g, v, at'), p)
  {
    hide Marker, Lawful;
    var a, b := WithMarkers(g, v, at), WithMarkers(g, v, at');
    forall c: nat | c < |v.starts| && c / PAGE_CELLS == p ensures b.cells[c] == a.cells[c] {
      assert c in at' <==> c in at;
    }
  }

  lemma PlainWithMarkers(g: Geometry, v: View, at: map<nat, nat>)
    requires GeoOk(g) && Shaped(g, v) && PlainHeaders(g, v)
    ensures PlainHeaders(g, WithMarkers(g, v, at))
  {
    hide Marker;
    var w := WithMarkers(g, v, at);
    forall s: nat | s < |w.starts| && IsObj(w, s) && w.starts[s] == HeaderStart ensures !InHeap(g, w.cells[s]) {
      assert IsObj(v, s);
      if s in at && at[s] < PAGE_CELLS * g.nPages { MarkerLaw(g, at[s]); }
    }
  }

  // -- Which markers stop the scan ------------------------------------------

  /** Walking from `s` up to `end` the scan looks at what stands at `x`. */
  predicate Examines(g: Geometry, v: View, s: nat, end: nat, x: nat)
    requires end <= |v.starts| == |v.cells|
    decreases end - s
  {
    && s < end && v.starts[s] != NoStart
    && (s == x || (Visitable(g, v, s) && SizeOf(g, v, s) != 0 && Examines(g, v, s + SizeOf(g, v, s), end, x)))
  }

  /** The scan does not come through if and only if it looks at a marker that may not be taken for a header. */
  lemma {:induction false} StopsAt(g: Geometry, v: View, s: nat, end: nat)
    requires end <= |v.starts| == |v.cells|
    ensures !WalkLegible(g, v, s, end) <==>
              exists x: nat :: x < end && Examines(g, v, s, end, x) && !Visitable(g, v, x)
    decreases end - s
  {
    hide Visitable, SizeOf;
    if s < end && v.starts[s] != NoStart {
      if !Visitable(g, v, s) {
        assert Examines(g, v, s, end, s);
      } else if SizeOf(g, v, s) != 0 {
        var t := s + SizeOf(g, v, s);
        StopsAt(g, v, t, end);
        forall x: nat | x < end && !Visitable(g, v, x)
          ensures Examines(g, v, s, end, x) <==> Examines(g, v, t, end, x) {}
      }
    }
  }

  /** With the Lisp tags: a marker may be taken for a header if and only if its target lies on a
      multiple of 32 bytes, and there is a cell behind it. */
  lemma LispReads(g: Geometry, v: View, s: nat, c: nat)
    requires GeoOk(g) && Shaped(g, v) && PlainHeaders(g, v) && g.layout == LispLayout() && c < PAGE_CELLS * g.nPages
    requires IsObj(v, s) && v.starts[s] == HeaderStart && v.cells[s] == Marker(g, c)
    ensures Readable(g, v, s) <==> (g.base + 8 * c) % 32 == 0 && s + 1 < |v.cells|
  {
    hide Lawful, InHeap, LispForward, LispHeaderLayout, HeaderType, LispClassify, LispRewrite, NewHeader, Harmless;
    MarkerAsHeader(AddrOf(g, c));
    assert g.layout.decodes(v.cells[s]) <==> HeaderType(LispForward(AddrOf(g, c))).Some?;
    if (g.base + 8 * c) % 32 == 0 {
      assert LayoutAt(g, v, s).ptrStart == 1 && LayoutAt(g, v, s).ptrEnd == 2;
      forall x: nat ensures x in PtrCells(g, v, s) <==> x == s + 1 {
        assert PtrCellOf(g, v, s, x) <==> x == s + 1;
      }
      NextHarmless(g, v, s);
      assert s + 1 in PtrCells(g, v, s);
    }
  }

  lemma NextHarmless(g: Geometry, v: View, s: nat)
    requires Shaped(g, v) && PlainHeaders(g, v) && s < |v.starts|
    ensures Harmless(g, v, s, s + 1) <==> s + 1 < |v.cells|
  {
    hide InHeap;
    assert s + 1 < |v.cells| && (s + 1) / PAGE_CELLS != s / PAGE_CELLS ==> s + 1 == PAGE_CELLS * (s / PAGE_CELLS + 1);
  }

  /** The scan of card `k` comes to the object at `x`, whose new address is no multiple of 32 (or
      which is the very last cell of the reservation). */
  ghost predicate Halts(g: Geometry, v: View, at: map<nat, nat>, k: nat, x: nat)
    requires GeoOk(g) && Shaped(g, v) && k < CARDS_PER_PAGE * g.nPages
  {
    && x < CARD_CELLS * (k + 1) && x in at && v.starts[x] == HeaderStart
    && Examines(g, WithMarkers(g, v, at), WalkStart(v.starts, CARD_CELLS * k, CARD_CELLS * (k + 1)),
                CARD_CELLS * (k + 1), x)
    && ((g.base + 8 * at[x]) % 32 != 0 || x + 1 == |v.cells|)
  }

  lemma ExaminedMarked(g: Geometry, v: View, at: map<nat, nat>, k: nat, x: nat)
    requires GeoOk(g) && HeapOk(g, v) && Shaped(g, v) && PlainHeaders(g, v) && g.layout == LispLayout()
    requires k < CARDS_PER_PAGE * g.nPages && GenAt(v, CARD_CELLS * k) != Free
    requires (x in at ==> at[x] < PAGE_CELLS * g.nPages)
    requires Examines(g, WithMarkers(g, v, at), WalkStart(v.starts, CARD_CELLS * k, CARD_CELLS * (k + 1)),
                      CARD_CELLS * (k + 1), x)
    ensures x < CARD_CELLS * (k + 1) && x < |v.starts|
    ensures !Visitable(g, WithMarkers(g, v, at), x) <==>
              x in at && v.starts[x] == HeaderStart && ((g.base + 8 * at[x]) % 32 != 0 || x + 1 == |v.cells|)
  {
    hide PlainHeaders, HeapOk, Visitable, Lawful, Examines, Marker, LispLayout;
    var end := CARD_CELLS * (k + 1);
    var start := WalkStart(v.starts, CARD_CELLS * k, end);
    CardOnPage(k);
    assert PAGE_CELLS * (k / CARDS_PER_PAGE) <= start;
    ExaminesAfter(g, WithMarkers(g, v, at), start, end, x);
    assert x / PAGE_CELLS == k / CARDS_PER_PAGE;
    VisitsMarked(g, v, at, x);
  }

  lemma HaltsAt(g: Geometry, v: View, at: map<nat, nat>, k: nat, x: nat)
    requires GeoOk(g) && HeapOk(g, v) && Shaped(g, v) && PlainHeaders(g, v) && g.layout == LispLayout()
    requires k < CARDS_PER_PAGE * g.nPages && GenAt(v, CARD_CELLS * k) != Free
    requires forall s | s in at :: at[s] < PAGE_CELLS * g.nPages
    ensures var (w, end) := (WithMarkers(g, v, at), CARD_CELLS * (k + 1));
      Halts(g, v, at, k, x) <==>
        x < end && Examines(g, w, WalkStart(v.starts, CARD_CELLS * k, end), end, x) && !Visitable(g, w, x)
  {
    hide PlainHeaders, HeapOk, Visitable, Examines, WithMarkers, LispLayout, WalkStart, GeoOk;
    var end := CARD_CELLS * (k + 1);
    if Examines(g, WithMarkers(g, v, at), WalkStart(v.starts, CARD_CELLS * k, end), end, x) {
      ExaminedMarked(g, v, at, k, x);
    }
  }

  /** So on that binding the scan of a card stops exactly if it comes to such an object. */
  lemma LispGarbled(g: Geometry, v: View, at: map<nat, nat>, k: nat)
    requires GeoOk(g) && HeapOk(g, v) && Shaped(g, v) && PlainHeaders(g, v) && g.layout == LispLayout()
    requires k < CARDS_PER_PAGE * g.nPages && GenAt(v, CARD_CELLS * k) != Free
    requires forall s | s in at :: at[s] < PAGE_CELLS * g.nPages
    ensures !CardLegible(g, WithMarkers(g, v, at), k) <==> exists x: nat :: Halts(g, v, at, k, x)
  {
    hide PlainHeaders, HeapOk, Visitable, Lawful, Examines, LispLayout, Halts, WalkLegible, WithMarkers, WalkStart;
    var w, end := WithMarkers(g, v, at), CARD_CELLS * (k + 1);
    StopsAt(g, w, WalkStart(v.starts, CARD_CELLS * k, end), end);
    forall x: nat ensures Halts(g, v, at, k, x) <==>
      x < end && Examines(g, w, WalkStart(v.starts, CARD_CELLS * k, end), end, x) && !Visitable(g, w, x)
    {
      HaltsAt(g, v, at, k, x);
    }
  }

  /** With the Lisp tags a card scan is led to a marker that it cannot take for a header if and only
      if it comes, on a dirty card, to an object whose new address is no multiple of 32. */
  lemma LispScan(g: Geometry, v: View, cards: seq<bool>, snapshot: seq<PageDesc>, from: Generation, at: map<nat, nat>,
                 pages: set<nat>)
    requires GeoOk(g) && HeapOk(g, v) && Shaped(g, v) && PlainHeaders(g, v) && g.layout == LispLayout()
    requires forall p | p in pages :: p < |v.descs| && v.descs[p].generation != Free
    requires forall s | s in at :: at[s] < PAGE_CELLS * g.nPages
    ensures Garbled(g, v, cards, Some(snapshot), from, at, pages) <==>
              exists k: nat, x: nat :: k < CARDS_PER_PAGE * g.nPages && k / CARDS_PER_PAGE in pages
                && CardScanned(cards, snapshot, from, k) && Halts(g, v, at, k, x)
  {
    hide HeapOk, PlainHeaders, CardLegible, CardScanned, WithMarkers, LispLayout, Halts;
    forall k: nat | k < CARDS_PER_PAGE * g.nPages && k / CARDS_PER_PAGE in pages
      ensures GarbledCard(g, v, cards, snapshot, from, at, pages, k) <==>
                CardScanned(cards, snapshot, from, k) && exists x: nat :: Halts(g, v, at, k, x)
    {
      CardOnPage(k);
      LispGarbled(g, v, at, k);
    }
  }

  lemma {:induction false} ExaminesAfter(g: Geometry, v: View, s: nat, end: nat, x: nat)
    requires end <= |v.starts| == |v.cells| && Examines(g, v, s, end, x)
    ensures s <= x < end && v.starts[x] != NoStart
    decreases end - s
  {
    hide Visitable, SizeOf;
    if s != x { ExaminesAfter(g, v, s + SizeOf(g, v, s), end, x); }
  }

  lemma VisitsMarked(g: Geometry, v: View, at: map<nat, nat>, x: nat)
    requires GeoOk(g) && HeapOk(g, v) && Shaped(g, v) && PlainHeaders(g, v) && g.layout == LispLayout()
    requires IsObj(v, x) && (x in at ==> at[x] < PAGE_CELLS * g.nPages)
    ensures !Visitable(g, WithMarkers(g, v, at), x) <==>
              x in at && v.starts[x] == HeaderStart && ((g.base + 8 * at[x]) % 32 != 0 || x + 1 == |v.cells|)
  {
    hide PlainHeaders, Lawful, Marker, LispLayout, Readable, IsMarker, HeapOk, GeoOk, WithMarkers, InHeap;
    var w := WithMarkers(g, v, at);
    PlainWithMarkers(g, v, at);
    assert IsObj(w, x);
    if x in at {
      MarkerLaw(g, at[x]);
      if v.starts[x] == HeaderStart { LispReads(g, w, x, at[x]); }
    } else {
      NoMarkerYet(g, v, x);
    }
  }

  lemma NoMarkerYet(g: Geometry, v: View, x: nat)
    requires HeapOk(g, v) && IsObj(v, x) && |v.starts| == |v.cells|
    ensures !IsMarker(g, v.cells[x])
  {
    hide IsMarker;
    assert ObjOk(g, v, x);
  }

  // -- Headers through a pass -----------------------------------------------

  lemma PlainKept(g: Geometry, vs: View, cardsS: seq<bool>, v: View, cards: seq<bool>, phi: map<nat, nat>,
                  live: set<nat>, pins: set<nat>, from: Generation, dest: Generation, rest: set<nat>)
    requires PassState(g, vs, cardsS, v, cards, phi, live, pins, from, dest, rest) && Shaped(g, vs) && Shaped(g, v)
    requires RestLayouts(g, vs, v, rest) && PlainHeaders(g, vs)
    ensures PlainHeaders(g, v)
  {
    hide CardedSoFar, TiledSoFar, Emptied, OnlyIntoDest, ObjOk, SameShape, LayoutAt, InHeap;
    forall x: nat | x < |v.starts| && IsObj(v, x) && v.starts[x] == HeaderStart ensures !InHeap(g, v.cells[x]) {
      if x / PAGE_CELLS in rest {
        RestObject(g, vs, v, from, rest, x);
        assert v.cells[x] == vs.cells[x];
      } else {
        var s :| s in phi && phi[s] == x;
        assert InPlace(g, vs, v, pins, from, dest, rest, s, x);
        ShapeFit(g, vs, v, s, x);
        HeaderKept(g, vs, v, s, x);
      }
    }
  }

  lemma PlainCopied(g: Geometry, v0: View, v1: View, f: map<nat, nat>, dest: Generation)
    requires GeoOk(g) && HeapOk(g, v0) && Copied(g, v0, v1, f, dest) && PlainHeaders(g, v0)
    ensures Shaped(g, v1) && PlainHeaders(g, v1)
  {
    hide ObjOk, CopyAt, Kept, InHeap, Marker;
    forall x: nat | x < |v1.starts| && IsObj(v1, x) && v1.starts[x] == HeaderStart ensures !InHeap(g, v1.cells[x]) {
      if x in f.Values {
        var s :| s in f && f[s] == x;
        CopySame(g, v0, v1, s, x, dest);
        CopyStart(g, v0, v1, s, x, dest);
      } else if x in f {
        MarkerPlain(g, f[x]);
      } else {
        KeptSame(g, v0, v1, x);
        KeptStart(g, v0, v1, x);
      }
    }
  }

  lemma KeptStart(g: Geometry, v0: View, v1: View, s: nat)
    requires s < |v0.starts| == |v0.cells| && Kept(g, v0, v1, s)
    ensures v1.starts[s] == v0.starts[s]
  {
  }

  lemma CopyStart(g: Geometry, v0: View, v1: View, s: nat, t: nat, dest: Generation)
    requires s < |v0.starts| == |v0.cells| && CopyAt(g, v0, v1, s, t, dest)
    ensures t < |v1.starts| && v1.starts[t] == v0.starts[s]
  {
  }

  lemma MarkerPlain(g: Geometry, c: nat)
    requires GeoOk(g) && c < PAGE_CELLS * g.nPages
    ensures !InHeap(g, Marker(g, c))
  {
    MarkerLaw(g, c);
  }

  // -- Cards through a pass -------------------------------------------------

  /** The cards of a block lie on its page. */
  lemma BlockOnPage(c: nat, n: nat, k: nat)
    requires CoversCard(c, n, k) && n >= 1 && (c + n - 1) / PAGE_CELLS == c / PAGE_CELLS
    ensures k / CARDS_PER_PAGE == c / PAGE_CELLS
  {
  }

  lemma ObjOnPage(g: Geometry, v: View, s: nat)
    requires HeapOk(g, v) && IsObj(v, s)
    ensures SizeOf(g, v, s) >= 1 && (s + SizeOf(g, v, s) - 1) / PAGE_CELLS == s / PAGE_CELLS
  {
    assert ObjOk(g, v, s);
    ExtentOwner(g, v, s, SizeOf(g, v, s) - 1);
  }

  /** The cards of the pages still to come are as they were at the start of the pass. */
  lemma RestCards(g: Geometry, vs: View, cardsS: seq<bool>, v: View, cards: seq<bool>, phi: map<nat, nat>,
                  live: set<nat>, pins: set<nat>, from: Generation, dest: Generation, rest: set<nat>, k: nat)
    requires PassState(g, vs, cardsS, v, cards, phi, live, pins, from, dest, rest) && Shaped(g, vs)
    requires k / CARDS_PER_PAGE in rest && k < |cardsS|
    ensures |cards| == |cardsS| && cards[k] == cardsS[k]
  {
    hide TiledSoFar, Emptied, OnlyIntoDest, ObjOk, SameShape, BlockCarded, HeapOk, CoversCard, RestKept, LayoutAt;
    if cards[k] && !cardsS[k] {
      assert CardOwed(g, vs, phi, from, rest, k);
      var s :| s in phi && s < |vs.starts| && GenAt(vs, s) == from && s / PAGE_CELLS !in rest
               && CoversCard(phi[s], SizeOf(g, vs, s), k);
      assert InPlace(g, vs, v, pins, from, dest, rest, s, phi[s]);
      ShapeFit(g, vs, v, s, phi[s]);
      ShapeOffsets(g, vs, v, s, phi[s], 0);
      ObjOnPage(g, v, phi[s]);
      BlockOnPage(phi[s], SizeOf(g, vs, s), k);
    }
  }

  /** The copies of Phase 1 lie on no closed page, nor do their cards. */
  lemma ClosedCards(g: Geometry, v0: View, cards0: seq<bool>, v1: View, cards1: seq<bool>, f: map<nat, nat>,
                    dest: Generation, closed: set<nat>, k: nat)
    requires GeoOk(g) && CopySoFar(g, v0, cards0, v1, cards1, f, dest, closed) && Shaped(g, v1)
    requires k / CARDS_PER_PAGE in closed && k < |cards0|
    ensures |cards1| == |cards0| && cards1[k] == cards0[k]
  {
    hide TiledKept, DescsGrown, BlockCarded, HeapOk, CoversCard, Copied, PartOk;
    SoFarShape(g, v0, v1, f, dest);
    if cards1[k] && !cards0[k] {
      var s :| s in f && s < |v0.starts| && CoversCard(f[s], SizeOf(g, v0, s), k);
      CopyOnPage(g, v0, v1, f, dest, s);
      BlockOnPage(f[s], SizeOf(g, v0, s), k);
    }
  }

  lemma CopyOnPage(g: Geometry, v0: View, v1: View, f: map<nat, nat>, dest: Generation, s: nat)
    requires GeoOk(g) && HeapOk(g, v0) && PartOk(g, v1) && Copied(g, v0, v1, f, dest) && s in f && s < |v0.cells|
    ensures SizeOf(g, v0, s) >= 1 && (f[s] + SizeOf(g, v0, s) - 1) / PAGE_CELLS == f[s] / PAGE_CELLS
  {
    hide HeapOk, CopyAt, Kept, ObjOk;
    CopySame(g, v0, v1, s, f[s], dest);
    assert ObjOk(g, v1, f[s]);
    WholeIfOk(g, v1, f[s]);
    ExtentOwner(g, v1, f[s], SizeOf(g, v0, s) - 1);
  }

  // -- One chunk ------------------------------------------------------------

  /** After Phase 1 the headers of a page of the chunk are those of the start of the pass, but for
      the markers. */
  lemma ChunkHeads(g: Geometry, vs: View, v0: View, cards0: seq<bool>, v1: View, cards1: seq<bool>, f: map<nat, nat>,
                   from: Generation, dest: Generation, rest: set<nat>, closed: set<nat>, at: map<nat, nat>, p: nat)
    requires GeoOk(g) && Shaped(g, vs) && Shaped(g, v0) && Shaped(g, v1) && RestKept(vs, v0, from, rest)
    requires RestLayouts(g, vs, v0, rest) && CopySoFar(g, v0, cards0, v1, cards1, f, dest, closed) && rest <= closed
    requires p in rest && from != Free && (forall s | s in f :: s in at && at[s] == f[s])
    requires forall s: nat | s in at && s / PAGE_CELLS == p :: s in f
    ensures SameHeads(g, WithMarkers(g, vs, at), v1, p)
  {
    hide CopySoFar, WithMarkers, LayoutAt, Marker;
    var w := WithMarkers(g, vs, at);
    forall c: nat | c < |vs.starts| && c / PAGE_CELLS == p
      ensures v1.starts[c] == vs.starts[c] && (vs.starts[c] == HeaderStart ==> v1.cells[c] == w.cells[c])
      ensures v1.descs[p] == vs.descs[p]
    {
      SealedStart(g, v0, cards0, v1, cards1, f, dest, closed, c);
      if vs.starts[c] == HeaderStart { HeadAfter(g, vs, v0, cards0, v1, cards1, f, dest, closed, c); }
    }
    assert (PAGE_CELLS * p) / PAGE_CELLS == p;
  }

  lemma HeadAfter(g: Geometry, vs: View, v0: View, cards0: seq<bool>, v1: View, cards1: seq<bool>, f: map<nat, nat>,
                  dest: Generation, closed: set<nat>, c: nat)
    requires GeoOk(g) && Shaped(g, v0) && Shaped(g, v1) && CopySoFar(g, v0, cards0, v1, cards1, f, dest, closed)
    requires IsObj(v0, c)
    ensures v1.cells[c] == if c in f && f[c] < PAGE_CELLS * g.nPages then Marker(g, f[c]) else v0.cells[c]
  {
    hide CopyAt, CopiesCarded, DescsGrown, TiledKept, HeapOk, PartOk, Marker, Kept;
    if c !in f { KeptSame(g, v0, v1, c); }
  }

  /** Phase 2 of a chunk comes through exactly if no page of the chunk is garbled. */
  lemma ChunkVerdict(g: Geometry, vs: View, cardsS: seq<bool>, v0: View, cards0: seq<bool>, phi: map<nat, nat>,
                     live: set<nat>, pins: set<nat>, from: Generation, dest: Generation, rest: set<nat>,
                     closed: set<nat>, chunk: set<nat>, scan: Option<seq<PageDesc>>, v1: View, cards1: seq<bool>,
                     f: map<nat, nat>, at: map<nat, nat>)
    requires PassState(g, vs, cardsS, v0, cards0, phi, live, pins, from, dest, rest) && from != Free && Shaped(g, vs)
    requires Shaped(g, v0) && Shaped(g, v1) && RestLayouts(g, vs, v0, rest) && PlainHeaders(g, vs)
    requires CopySoFar(g, v0, cards0, v1, cards1, f, dest, closed) && FwdMap(g, v1, f)
    requires chunk <= rest <= closed && (forall s | s in f :: s / PAGE_CELLS in chunk && s in at && at[s] == f[s])
    requires (forall s: nat | s in at && s / PAGE_CELLS in chunk :: s in f) && |cards0| == CARDS_PER_PAGE * g.nPages
    ensures ScanLegible(g, v1, cards1, scan, from) <==> !Garbled(g, vs, cardsS, scan, from, at, chunk)
  {
    hide PassState, CopySoFar, FwdMap, PlainHeaders, CardLegible, WithMarkers, RestLayouts, CardScanned, CopiesCarded;
    if scan.None? { return; }
    StateHeapOk(g, vs, cardsS, v0, cards0, phi, live, pins, from, dest, rest);
    PlainKept(g, vs, cardsS, v0, cards0, phi, live, pins, from, dest, rest);
    SoFarParts(g, v0, cards0, v1, cards1, f, dest, closed);
    PlainCopied(g, v0, v1, f, dest);
    PlainWithMarkers(g, vs, at);
    SoFarCards(g, v0, cards0, v1, cards1, f, dest, closed);
    RestLength(g, vs, cardsS, v0, cards0, phi, live, pins, from, dest, rest);
    forall k: nat | k < CARDS_PER_PAGE * g.nPages && k / CARDS_PER_PAGE in chunk
      ensures CardScanned(cards1, scan.value, from, k) <==> CardScanned(cardsS, scan.value, from, k)
      ensures CardLegible(g, v1, k) <==> CardLegible(g, WithMarkers(g, vs, at), k)
    {
      RestCards(g, vs, cardsS, v0, cards0, phi, live, pins, from, dest, rest, k);
      ClosedCards(g, v0, cards0, v1, cards1, f, dest, closed, k);
      SameScanned(cards1, cardsS, scan.value, from, k);
      ChunkHeads(g, vs, v0, cards0, v1, cards1, f, from, dest, rest, closed, at, k / CARDS_PER_PAGE);
      CardsAlike(g, WithMarkers(g, vs, at), v1, k);
    }
    forall k: nat | k < CARDS_PER_PAGE * g.nPages && k / CARDS_PER_PAGE !in chunk ensures CardLegible(g, v1, k) {
      OffChunk(g, v1, f, chunk, k);
    }
    if Garbled(g, vs, cardsS, scan, from, at, chunk) {
      var k: nat :| GarbledCard(g, vs, cardsS, scan.value, from, at, chunk, k);
    }
    if !ScanLegible(g, v1, cards1, scan, from) {
      var k: nat :| k < CARDS_PER_PAGE * g.nPages && CardScanned(cards1, scan.value, from, k) && !CardLegible(g, v1, k);
      assert GarbledCard(g, vs, cardsS, scan.value, from, at, chunk, k);
    }
  }

  lemma RestLength(g: Geometry, vs: View, cardsS: seq<bool>, v: View, cards: seq<bool>, phi: map<nat, nat>,
                   live: set<nat>, pins: set<nat>, from: Generation, dest: Generation, rest: set<nat>)
    requires PassState(g, vs, cardsS, v, cards, phi, live, pins, from, dest, rest)
    ensures |cardsS| == |cards| && Shaped(g, vs) && Shaped(g, v) && RestKept(vs, v, from, rest)
  {
    hide TiledSoFar, Emptied, OnlyIntoDest, ObjOk, InPlace, BlockCarded, HeapOk, CardOwed, RestKept;
  }

  lemma SameScanned(a: seq<bool>, b: seq<bool>, snapshot: seq<PageDesc>, from: Generation, k: nat)
    requires k < |a| && k < |b| && a[k] == b[k]
    ensures CardScanned(a, snapshot, from, k) <==> CardScanned(b, snapshot, from, k)
  {
  }

  /** On pages of which nothing moves the scan comes through. */
  lemma OffChunk(g: Geometry, v: View, f: map<nat, nat>, chunk: set<nat>, k: nat)
    requires GeoOk(g) && PartOk(g, v) && Shaped(g, v) && FwdMap(g, v, f) && k < CARDS_PER_PAGE * g.nPages
    requires k / CARDS_PER_PAGE !in chunk && forall s | s in f :: s / PAGE_CELLS in chunk
    ensures CardLegible(g, v, k)
  {
    hide PartOk, WalkLegible;
    CardOnPage(k);
    var p := k / CARDS_PER_PAGE;
    assert HeadersIntact(g, v, p);
    if GenAt(v, CARD_CELLS * k) != Free {
      IntactLegible(g, v, p, WalkStart(v.starts, CARD_CELLS * k, CARD_CELLS * (k + 1)), CARD_CELLS * (k + 1));
    }
  }
}
