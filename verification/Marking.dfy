/** The mark pass: exactly the objects of one generation reachable from the roots. */
module Marking {
  import opened Bits
  import opened Bitmaps
  import opened Layouts
  import opened Pages
  import opened Objects
  import opened PageHeaps

  // -- Reachability ---------------------------------------------------------

  /** The gates of the mark pass: `w` points into the reservation, at an object
      start of generation `target` whose shape agrees with the tag. */
  predicate Follows(g: Geometry, v: View, target: Generation, w: u64) {
    && InHeap(g, w)
    && IsObj(v, CellOf(g, w))
    && GenAt(v, CellOf(g, w)) == target
    && (g.layout.classify(w).PointerCons? <==> v.starts[CellOf(g, w)] == ConsStart)
  }

  /** Some pointer cell of the object at `s` leads through the gates to `t`. */
  ghost predicate Edge(g: Geometry, v: View, target: Generation, s: nat, t: nat) {
    exists i: nat :: EdgeAt(g, v, target, s, i, t)
  }

  predicate EdgeAt(g: Geometry, v: View, target: Generation, s: nat, i: nat, t: nat) {
    && s < |v.starts| && s + i < |v.cells| && IsPtrOff(g, v, s, i)
    && Follows(g, v, target, v.cells[s + i]) && CellOf(g, v.cells[s + i]) == t
  }

  ghost predicate IsPath(g: Geometry, v: View, target: Generation, seeds: set<nat>, path: seq<nat>) {
    && |path| >= 1 && path[0] in seeds
    && forall k | 0 <= k < |path| - 1 :: Edge(g, v, target, path[k], path[k + 1])
  }

  /** `c` is reachable from one of the seed objects. */
  ghost predicate Reachable(g: Geometry, v: View, target: Generation, seeds: set<nat>, c: nat) {
    exists path: seq<nat> :: IsPath(g, v, target, seeds, path) && path[|path| - 1] == c
  }

  /** The objects the given words lead to through the gates. */
  function SeedCells(g: Geometry, v: View, target: Generation, words: set<u64>): set<nat> {
    set w | w in words && Follows(g, v, target, w) :: CellOf(g, w)
  }

  lemma ReachSeed(g: Geometry, v: View, target: Generation, seeds: set<nat>, c: nat)
    requires c in seeds
    ensures Reachable(g, v, target, seeds, c)
  {
    assert IsPath(g, v, target, seeds, [c]);
  }

  lemma ReachStep(g: Geometry, v: View, target: Generation, seeds: set<nat>, s: nat, t: nat)
    requires Reachable(g, v, target, seeds, s) && Edge(g, v, target, s, t)
    ensures Reachable(g, v, target, seeds, t)
  {
    var path :| IsPath(g, v, target, seeds, path) && path[|path| - 1] == s;
    var longer := path + [t];
    forall k | 0 <= k < |longer| - 1 ensures Edge(g, v, target, longer[k], longer[k + 1]) {
      if k < |path| - 1 { assert longer[k] == path[k] && longer[k + 1] == path[k + 1]; }
    }
    assert IsPath(g, v, target, seeds, longer);
  }

  /** A set that holds the seeds and is closed under edges holds all that is reachable. */
  lemma {:induction false} ReachInside(g: Geometry, v: View, target: Generation, seeds: set<nat>, inside: set<nat>,
                                       path: seq<nat>)
    requires IsPath(g, v, target, seeds, path) && seeds <= inside
    requires forall s, t | s in inside && Edge(g, v, target, s, t) :: t in inside
    ensures path[|path| - 1] in inside
    decreases |path|
  {
    if |path| > 1 {
      var n := |path| - 1;
      var front := path[..n];
      assert IsPath(g, v, target, seeds, front) by {
        forall k | 0 <= k < |front| - 1 ensures Edge(g, v, target, front[k], front[k + 1]) {
          assert Edge(g, v, target, path[k], path[k + 1]);
        }
      }
      ReachInside(g, v, target, seeds, inside, front);
      assert Edge(g, v, target, path[n - 1], path[n - 1 + 1]);
    }
  }

  /** What a headed Lisp object holds: its edges lead from exactly the cells that its header, read
      as a number, says are words. */
  lemma LispEdges(g: Geometry, v: View, target: Generation, s: nat, bit: nat, n: nat, code: nat, t: nat)
    requires g.layout == LispLayout() && |v.starts| == |v.cells| && s < |v.starts| && v.starts[s] == HeaderStart
    requires n <= MAX_OBJECT_CELLS && code <= 9 && bit < 0x8_0000_0000
    requires v.cells[s] == bit * GC_SHIFT + n * 32 + code
    ensures Edge(g, v, target, s, t) <==> exists i: nat ::
              LispWord(code, n, i) && s + i < |v.cells| && Follows(g, v, target, v.cells[s + i])
                  && CellOf(g, v.cells[s + i]) == t
  {
    hide LispWord, InHeap, LispHeaderLayout, LispClassify, LispForward, LispRewrite;
    LispFields(bit, n, code);
    forall i: nat ensures IsPtrOff(g, v, s, i) <==> LispWord(code, n, i) {}
    if i: nat :| LispWord(code, n, i) && s + i < |v.cells| && Follows(g, v, target, v.cells[s + i])
                 && CellOf(g, v.cells[s + i]) == t {
      assert EdgeAt(g, v, target, s, i, t);
    }
  }

  /** So what a reached Lisp vector has among its elements is reached. */
  lemma VectorElement(g: Geometry, v: View, target: Generation, seeds: set<nat>, s: nat, n: nat, i: nat)
    requires g.layout == LispLayout() && |v.starts| == |v.cells| && s < |v.starts| && v.starts[s] == HeaderStart
    requires n <= MAX_OBJECT_CELLS && v.cells[s] == n * 32 + 1 && 1 <= i <= n && s + i < |v.cells|
    requires Reachable(g, v, target, seeds, s) && Follows(g, v, target, v.cells[s + i])
    ensures Reachable(g, v, target, seeds, CellOf(g, v.cells[s + i]))
  {
    hide InHeap, Edge, Reachable, LispLayout;
    LispEdges(g, v, target, s, 0, n, 1, CellOf(g, v.cells[s + i]));
    assert LispWord(1, n, i);
    ReachStep(g, v, target, seeds, s, CellOf(g, v.cells[s + i]));
  }

  // -- The state of a mark pass ---------------------------------------------

  /** The marked objects of `target`. */
  function MarkedObjs(v: View, target: Generation, marks: seq<bool>): set<nat> {
    set c | 0 <= c < |marks| && marks[c] && IsObj(v, c) && GenAt(v, c) == target
  }

  /** Only objects of `target` carry marks on its pages, and whatever is marked and
      not waiting in the queue has its children marked. */
  ghost predicate MarkInv(g: Geometry, v: View, target: Generation, marks: seq<bool>, queue: seq<nat>) {
    && |marks| == |v.starts|
    && (forall c | 0 <= c < |marks| && c / PAGE_CELLS < |v.descs| && GenAt(v, c) == target && marks[c] :: IsObj(v, c))
    && (forall q | q in queue :: q in MarkedObjs(v, target, marks))
    && (forall s, t | s in MarkedObjs(v, target, marks) && s !in queue && Edge(g, v, target, s, t) ::
          t in MarkedObjs(v, target, marks))
  }

  /** Everything marked in `target` is reachable from the seeds. */
  ghost predicate MarkSound(g: Geometry, v: View, target: Generation, seeds: set<nat>, marks: seq<bool>) {
    forall c | c in MarkedObjs(v, target, marks) :: Reachable(g, v, target, seeds, c)
  }

  /** Marks of other generations are left alone. */
  ghost predicate MarksElsewhere(v: View, target: Generation, marks: seq<bool>, marks': seq<bool>) {
    && |marks| == |marks'|
    && forall c | 0 <= c < |marks| && c / PAGE_CELLS < |v.descs| && GenAt(v, c) != target :: marks'[c] == marks[c]
  }

  function Unmarked(marks: seq<bool>): set<nat> {
    set c | 0 <= c < |marks| && !marks[c]
  }

  /** A drained mark pass that is sound and covers the seeds marks exactly the reachable objects. */
  lemma MarkExact(g: Geometry, v: View, target: Generation, seeds: set<nat>, marks: seq<bool>)
    requires MarkInv(g, v, target, marks, []) && MarkSound(g, v, target, seeds, marks)
    requires seeds <= MarkedObjs(v, target, marks)
    ensures forall c: nat :: c in MarkedObjs(v, target, marks) <==> Reachable(g, v, target, seeds, c)
  {
    forall c: nat | Reachable(g, v, target, seeds, c) ensures c in MarkedObjs(v, target, marks) {
      var path :| IsPath(g, v, target, seeds, path) && path[|path| - 1] == c;
      ReachInside(g, v, target, seeds, MarkedObjs(v, target, marks), path);
    }
  }

  /** Two drained passes from the same seeds mark the same objects, whichever of the two
      implementations ran and in whatever order it took them. */
  lemma MarkersAgree(g: Geometry, v: View, target: Generation, seeds: set<nat>, marks: seq<bool>, marks': seq<bool>)
    requires MarkInv(g, v, target, marks, []) && MarkSound(g, v, target, seeds, marks)
    requires MarkInv(g, v, target, marks', []) && MarkSound(g, v, target, seeds, marks')
    requires seeds <= MarkedObjs(v, target, marks) && seeds <= MarkedObjs(v, target, marks')
    ensures MarkedObjs(v, target, marks) == MarkedObjs(v, target, marks')
  {
    hide MarkInv, MarkSound, MarkedObjs, Reachable;
    MarkExact(g, v, target, seeds, marks);
    MarkExact(g, v, target, seeds, marks');
  }

  /** Like `MarkInv` while the object at `c` is being scanned: of `c`'s own
      children only those at offsets below `upto` are known to be marked. */
  ghost predicate MarkInvBut(g: Geometry, v: View, target: Generation, marks: seq<bool>, queue: seq<nat>, c: nat,
                             upto: nat) {
    && |marks| == |v.starts|
    && (forall x | 0 <= x < |marks| && x / PAGE_CELLS < |v.descs| && GenAt(v, x) == target && marks[x] :: IsObj(v, x))
    && (forall q | q in queue :: q in MarkedObjs(v, target, marks))
    && (forall s, t | s in MarkedObjs(v, target, marks) && s !in queue && s != c && Edge(g, v, target, s, t) ::
          t in MarkedObjs(v, target, marks))
    && (forall i: nat, t | i < upto && EdgeAt(g, v, target, c, i, t) :: t in MarkedObjs(v, target, marks))
  }

  /** What offering `w` to the mark pass does to the marks and the queue. */
  ghost predicate Offered(g: Geometry, v: View, target: Generation, w: u64,
                          marks: seq<bool>, queue: seq<nat>, marks': seq<bool>, queue': seq<nat>)
    requires |marks| == |v.starts| == PAGE_CELLS * g.nPages
  {
    if Follows(g, v, target, w) && !marks[CellOf(g, w)]
    then marks' == marks[CellOf(g, w) := true] && queue' == queue + [CellOf(g, w)]
    else marks' == marks && queue' == queue
  }

  /** The worklist makes progress: either nothing changed or an unmarked cell was marked. */
  ghost predicate Progress(marks: seq<bool>, queue: seq<nat>, marks': seq<bool>, queue': seq<nat>) {
    (marks' == marks && queue' == queue) || Unmarked(marks') < Unmarked(marks)
  }

  lemma OfferEffect(g: Geometry, v: View, target: Generation, w: u64,
                    marks: seq<bool>, queue: seq<nat>, marks': seq<bool>, queue': seq<nat>)
    requires Shaped(g, v) && |marks| == |v.starts| && Offered(g, v, target, w, marks, queue, marks', queue')
    ensures |marks'| == |marks| && Progress(marks, queue, marks', queue')
    ensures MarkedObjs(v, target, marks) <= MarkedObjs(v, target, marks')
    ensures forall c | c in MarkedObjs(v, target, marks') && c !in MarkedObjs(v, target, marks) ::
              c in queue' && Follows(g, v, target, w) && CellOf(g, w) == c
    ensures Follows(g, v, target, w) ==> CellOf(g, w) in MarkedObjs(v, target, marks')
    ensures MarksElsewhere(v, target, marks, marks')
  {
    if Follows(g, v, target, w) && !marks[CellOf(g, w)] {
      var c := CellOf(g, w);
      assert c in Unmarked(marks) && c !in Unmarked(marks');
    }
  }

  /** Offering a word keeps a mark pass in progress consistent. */
  lemma OfferKeeps(g: Geometry, v: View, target: Generation, w: u64,
                   marks: seq<bool>, queue: seq<nat>, marks': seq<bool>, queue': seq<nat>, c: nat, upto: nat)
    requires Shaped(g, v) && |marks| == |v.starts| && Offered(g, v, target, w, marks, queue, marks', queue')
    requires MarkInvBut(g, v, target, marks, queue, c, upto)
    ensures MarkInvBut(g, v, target, marks', queue', c, upto)
    ensures NextChildMarked(g, v, target, w, marks', c, upto)
  {
    OfferEffect(g, v, target, w, marks, queue, marks', queue');
  }

  /** If `w` is the word at offset `upto` of `c`, the child there is marked now. */
  ghost predicate NextChildMarked(g: Geometry, v: View, target: Generation, w: u64, marks: seq<bool>, c: nat,
                                  upto: nat) {
    c + upto < |v.cells| && v.cells[c + upto] == w ==>
      forall t | EdgeAt(g, v, target, c, upto, t) :: t in MarkedObjs(v, target, marks)
  }

  /** Everything the scan of the object at `c` keeps, from the state it started in. */
  ghost predicate Scanning(g: Geometry, v: View, target: Generation, seeds: set<nat>,
                           marks0: seq<bool>, queue0: seq<nat>, marks: seq<bool>, queue: seq<nat>, c: nat, upto: nat)
  {
    && MarkInvBut(g, v, target, marks, queue, c, upto)
    && MarkSound(g, v, target, seeds, marks)
    && MarkedObjs(v, target, marks0) <= MarkedObjs(v, target, marks)
    && Progress(marks0, queue0, marks, queue)
    && MarksElsewhere(v, target, marks0, marks)
  }

  /** One more pointer cell of `c` offered. */
  lemma ScanStep(g: Geometry, v: View, target: Generation, seeds: set<nat>, marks0: seq<bool>, queue0: seq<nat>,
                 marks: seq<bool>, queue: seq<nat>, marks': seq<bool>, queue': seq<nat>, c: nat, i: nat)
    requires Shaped(g, v) && |marks| == |v.starts| && c + i < |v.cells| && IsPtrOff(g, v, c, i)
    requires Offered(g, v, target, v.cells[c + i], marks, queue, marks', queue')
    requires Scanning(g, v, target, seeds, marks0, queue0, marks, queue, c, i)
    requires Reachable(g, v, target, seeds, c)
    ensures Scanning(g, v, target, seeds, marks0, queue0, marks', queue', c, i + 1)
  {
    var w := v.cells[c + i];
    OfferEffect(g, v, target, w, marks, queue, marks', queue');
    OfferKeeps(g, v, target, w, marks, queue, marks', queue', c, i);
    forall x | x in MarkedObjs(v, target, marks') ensures Reachable(g, v, target, seeds, x) {
      if x !in MarkedObjs(v, target, marks) {
        assert EdgeAt(g, v, target, c, i, x);
        assert Edge(g, v, target, c, x);
        ReachStep(g, v, target, seeds, c, x);
      }
    }
  }

  lemma ScanStart(g: Geometry, v: View, target: Generation, seeds: set<nat>, marks: seq<bool>, queue: seq<nat>, c: nat,
                  lo: nat)
    requires Shaped(g, v) && c < |v.starts| && |marks| == |v.starts| && lo <= LayoutAt(g, v, c).ptrStart
    requires MarkInvBut(g, v, target, marks, queue, c, 0) && MarkSound(g, v, target, seeds, marks)
    ensures Scanning(g, v, target, seeds, marks, queue, marks, queue, c, lo)
  {
  }

  lemma ScanEnd(g: Geometry, v: View, target: Generation, marks: seq<bool>, queue: seq<nat>, c: nat, hi: nat)
    requires Shaped(g, v) && c < |v.starts| && LayoutAt(g, v, c).ptrEnd <= hi
    requires MarkInvBut(g, v, target, marks, queue, c, hi)
    ensures MarkInv(g, v, target, marks, queue)
  {
    forall t | Edge(g, v, target, c, t) ensures t in MarkedObjs(v, target, marks) {
      var i: nat :| EdgeAt(g, v, target, c, i, t);
    }
  }

  /** An object taken off the queue is the one being scanned. */
  lemma Popped(g: Geometry, v: View, target: Generation, marks: seq<bool>, queue: seq<nat>)
    requires MarkInv(g, v, target, marks, queue) && queue != []
    ensures MarkInvBut(g, v, target, marks, queue[..|queue| - 1], queue[|queue| - 1], 0)
    ensures queue[|queue| - 1] in MarkedObjs(v, target, marks)
  {
    var n := |queue| - 1;
    assert queue == queue[..n] + [queue[n]];
    assert queue[n] in queue;
  }

  /** The pointer cells of an object lie on its page. */
  lemma PtrCellsFit(g: Geometry, v: View, c: nat)
    requires HeapOk(g, v) && IsObj(v, c)
    ensures LayoutAt(g, v, c).ptrStart < LayoutAt(g, v, c).ptrEnd ==> c + LayoutAt(g, v, c).ptrEnd <= |v.cells|
    ensures c < |v.cells|
  {
    assert ObjOk(g, v, c);
    assert c / PAGE_CELLS < g.nPages;
  }

  lemma MarkedIsObj(v: View, target: Generation, marks: seq<bool>, c: nat)
    requires c in MarkedObjs(v, target, marks)
    ensures IsObj(v, c) && c < |marks| && marks[c] && GenAt(v, c) == target
  {
  }

  /** The heap facts a mark pass over `target` works under. */
  ghost predicate MarkReady(h: PageHeap, target: Generation)
    reads h, h.cells, h.startTable.bits
  {
    && h.Valid() && HeapOk(h.Geo(), h.V()) && NoLarge(h.V()) && target != Free
    && KindsOk(h.descs) && ConsPagesOk(h.V())
  }

  /** A mark pass that went from `marks0` to `marks` with `queue` still to scan. */
  ghost predicate Drained(g: Geometry, v: View, target: Generation, seeds: set<nat>,
                          marks0: seq<bool>, marks: seq<bool>, queue: seq<nat>)
  {
    && MarkInv(g, v, target, marks, queue)
    && MarkSound(g, v, target, seeds, marks)
    && MarkedObjs(v, target, marks0) <= MarkedObjs(v, target, marks)
    && MarksElsewhere(v, target, marks0, marks)
  }

  lemma DrainStart(g: Geometry, v: View, target: Generation, seeds: set<nat>, marks: seq<bool>, queue: seq<nat>)
    requires MarkInv(g, v, target, marks, queue) && MarkSound(g, v, target, seeds, marks)
    ensures Drained(g, v, target, seeds, marks, marks, queue)
  {
  }

  lemma DrainTrans(v: View, target: Generation, a: seq<bool>, b: seq<bool>, c: seq<bool>)
    requires MarksElsewhere(v, target, a, b) && MarksElsewhere(v, target, b, c)
    ensures MarksElsewhere(v, target, a, c)
  {
  }

  lemma SoundAt(g: Geometry, v: View, target: Generation, seeds: set<nat>, marks: seq<bool>, c: nat)
    requires MarkSound(g, v, target, seeds, marks) && c in MarkedObjs(v, target, marks)
    ensures Reachable(g, v, target, seeds, c)
  {
  }

  lemma ConsPage(v: View, c: nat)
    requires ConsPagesOk(v) && IsObj(v, c)
    ensures v.descs[c / PAGE_CELLS].kind == Cons ==> v.starts[c] == ConsStart
  {
  }

  /** A Cons page holds conses only. */
  ghost predicate ConsPagesOk(v: View) {
    forall c | 0 <= c < |v.starts| && IsObj(v, c) && v.descs[c / PAGE_CELLS].kind == Cons :: v.starts[c] == ConsStart
  }

  // -- mark.rs: PageMarker --------------------------------------------------

  /** `try_mark_root`. */
  method TryMarkRoot(h: PageHeap, w: u64, target: Generation, queue: seq<nat>) returns (queue': seq<nat>)
    requires h.Valid() && NoLarge(h.V()) && target != Free && KindsOk(h.descs)
    modifies h.markTable.bits
    ensures h.Valid()
    ensures Offered(h.Geo(), h.V(), target, w, old(h.markTable.Map()), queue, h.markTable.Map(), queue')
  {
    hide GeoOk, Starts, Marks;
    queue' := queue;
    var kind := h.layout.classify(w);
    if !kind.IsPointer() { return; }
    var page := h.PageOf(kind.addr);
    if page.None? { return; }
    if h.descs[page.value].generation != target { return; }
    if h.descs[page.value].kind == Unassigned { return; }
    var c := (kind.addr - h.base) / 8;
    var isStart := h.startTable.IsStart(c);
    if !isStart { return; }
    var isCons := h.startTable.IsConsStart(c);
    if kind.PointerCons? != isCons { return; }
    var seen := h.markTable.MarkCell(c);
    if seen {
      assert old(h.markTable.Map())[c := true] == old(h.markTable.Map());
      return;
    }
    queue' := queue + [c];
  }

  /** `Unassigned` is the kind of the Free pages and of no others. */
  predicate KindsOk(descs: seq<PageDesc>) {
    forall p | 0 <= p < |descs| :: descs[p].generation == Free <==> descs[p].kind == Unassigned
  }

  /** `scan_marked_object`: offers every pointer cell of the object at `c`. */
  method ScanMarkedObject(h: PageHeap, c: nat, target: Generation, queue: seq<nat>, ghost seeds: set<nat>)
    returns (queue': seq<nat>)
    requires MarkReady(h, target)
    requires c in MarkedObjs(h.V(), target, h.markTable.Map())
    requires MarkInvBut(h.Geo(), h.V(), target, h.markTable.Map(), queue, c, 0)
    requires MarkSound(h.Geo(), h.V(), target, seeds, h.markTable.Map())
    modifies h.markTable.bits
    ensures h.Valid()
    ensures Drained(h.Geo(), h.V(), target, seeds, old(h.markTable.Map()), h.markTable.Map(), queue')
    ensures Progress(old(h.markTable.Map()), queue, h.markTable.Map(), queue')
  {
    hide GeoOk, Starts, Marks, MarkedObjs, Unmarked, Reachable, MarkInvBut, MarkSound, Edge, HeapOk, Lawful;
    ghost var g, v, marks0 := h.Geo(), h.V(), h.markTable.Map();
    MarkedIsObj(v, target, marks0, c);
    PtrCellsFit(g, v, c);
    assert Reachable(g, v, target, seeds, c) by { SoundAt(g, v, target, seeds, marks0, c); }
    ConsPage(v, c);
    queue' := queue;
    ScanStart(g, v, target, seeds, marks0, queue, c, LayoutAt(g, v, c).ptrStart);
    var isCons := true;
    if h.descs[c / PAGE_CELLS].kind == Boxed {
      isCons := h.startTable.IsConsStart(c);
    }
    if isCons {
      queue' := TryMarkRoot(h, h.cells[c], target, queue);
      ScanStep(g, v, target, seeds, marks0, queue, marks0, queue, h.markTable.Map(), queue', c, 0);
      ghost var marks1, queue1 := h.markTable.Map(), queue';
      queue' := TryMarkRoot(h, h.cells[c + 1], target, queue');
      ScanStep(g, v, target, seeds, marks0, queue, marks1, queue1, h.markTable.Map(), queue', c, 1);
      ScanEnd(g, v, target, h.markTable.Map(), queue', c, 2);
      return;
    }
    var layout := h.layout.headerLayout(h.cells[c]);
    assert layout == LayoutAt(g, v, c);
    var i := layout.ptrStart;
    while i < layout.ptrEnd
      invariant h.Valid() && h.V() == v
      invariant layout.ptrStart <= i && (i <= layout.ptrEnd || i == layout.ptrStart)
      invariant Scanning(g, v, target, seeds, marks0, queue, h.markTable.Map(), queue', c, i)
    {
      ghost var marks1, queue1 := h.markTable.Map(), queue';
      queue' := TryMarkRoot(h, h.cells[c + i], target, queue');
      ScanStep(g, v, target, seeds, marks0, queue, marks1, queue1, h.markTable.Map(), queue', c, i);
      i := i + 1;
    }
    ScanEnd(g, v, target, h.markTable.Map(), queue', c, i);
  }

  /** `PageMarker::drain`: empties the queue. */
  method PageMarkerDrain(h: PageHeap, target: Generation, queue: seq<nat>, ghost seeds: set<nat>)
    requires MarkReady(h, target)
    requires MarkInv(h.Geo(), h.V(), target, h.markTable.Map(), queue)
    requires MarkSound(h.Geo(), h.V(), target, seeds, h.markTable.Map())
    modifies h.markTable.bits
    ensures h.Valid()
    ensures Drained(h.Geo(), h.V(), target, seeds, old(h.markTable.Map()), h.markTable.Map(), [])
  {
    hide GeoOk, Starts, Marks, MarkedObjs, Unmarked, Reachable, MarkInv, MarkInvBut, MarkSound, HeapOk, Lawful,
      ConsPagesOk, KindsOk, NoLarge;
    ghost var g, v, marks0 := h.Geo(), h.V(), h.markTable.Map();
    var q := queue;
    DrainStart(g, v, target, seeds, marks0, q);
    while q != []
      invariant MarkReady(h, target) && h.V() == v
      invariant Drained(g, v, target, seeds, marks0, h.markTable.Map(), q)
      decreases Unmarked(h.markTable.Map()), |q|
    {
      ghost var marks1 := h.markTable.Map();
      var c := q[|q| - 1];
      Popped(g, v, target, marks1, q);
      q := ScanMarkedObject(h, c, target, q[..|q| - 1], seeds);
      DrainTrans(v, target, marks0, marks1, h.markTable.Map());
    }
  }

  // -- evac.rs: PageEvacuator in Mark mode ----------------------------------

  /** `mark_visit_slot`. */
  method MarkVisitSlot(h: PageHeap, w: u64, fromGen: Generation, queue: seq<nat>) returns (queue': seq<nat>)
    requires h.Valid() && NoLarge(h.V()) && fromGen != Free && KindsOk(h.descs)
    modifies h.markTable.bits
    ensures h.Valid()
    ensures Offered(h.Geo(), h.V(), fromGen, w, old(h.markTable.Map()), queue, h.markTable.Map(), queue')
  {
    hide GeoOk, Starts, Marks;
    queue' := queue;
    var kind := h.layout.classify(w);
    match kind {
      case PointerCons(_) =>
      case PointerHeader(_) =>
      case _ => return;
    }
    var page := h.PageOf(kind.addr);
    if page.None? || h.descs[page.value].generation != fromGen { return; }
    if h.descs[page.value].kind != Cons && h.descs[page.value].kind != Boxed { return; }
    var c := (kind.addr - h.base) / 8;
    var isStart := h.startTable.IsStart(c);
    if !isStart { return; }
    var isCons := h.startTable.IsConsStart(c);
    match (kind, isCons) {
      case (PointerCons(_), true) =>
      case (PointerHeader(_), false) =>
      case _ => return;
    }
    var seen := h.markTable.MarkCell(c);
    if seen {
      assert old(h.markTable.Map())[c := true] == old(h.markTable.Map());
      return;
    }
    queue' := queue + [c];
  }

  /** `mark_scan_object`: offers every pointer cell of the object at `c`. */
  method MarkScanObject(h: PageHeap, c: nat, fromGen: Generation, queue: seq<nat>, ghost seeds: set<nat>)
    returns (queue': seq<nat>)
    requires MarkReady(h, fromGen)
    requires c in MarkedObjs(h.V(), fromGen, h.markTable.Map())
    requires MarkInvBut(h.Geo(), h.V(), fromGen, h.markTable.Map(), queue, c, 0)
    requires MarkSound(h.Geo(), h.V(), fromGen, seeds, h.markTable.Map())
    modifies h.markTable.bits
    ensures h.Valid()
    ensures Drained(h.Geo(), h.V(), fromGen, seeds, old(h.markTable.Map()), h.markTable.Map(), queue')
    ensures Progress(old(h.markTable.Map()), queue, h.markTable.Map(), queue')
  {
    hide GeoOk, Starts, Marks, MarkedObjs, Unmarked, Reachable, MarkInvBut, MarkSound, Edge, HeapOk, Lawful;
    ghost var g, v, marks0 := h.Geo(), h.V(), h.markTable.Map();
    MarkedIsObj(v, fromGen, marks0, c);
    PtrCellsFit(g, v, c);
    assert Reachable(g, v, fromGen, seeds, c) by { SoundAt(g, v, fromGen, seeds, marks0, c); }
    ConsPage(v, c);
    queue' := queue;
    ScanStart(g, v, fromGen, seeds, marks0, queue, c, LayoutAt(g, v, c).ptrStart);
    var isCons := h.descs[c / PAGE_CELLS].kind == Cons;
    if !isCons {
      isCons := h.startTable.IsConsStart(c);
    }
    var layout := if isCons then ObjectLayout(2, 0, 2) else h.layout.headerLayout(h.cells[c]);
    assert layout == LayoutAt(g, v, c);
    var i := layout.ptrStart;
    while i < layout.ptrEnd
      invariant h.Valid() && h.V() == v
      invariant layout.ptrStart <= i && (i <= layout.ptrEnd || i == layout.ptrStart)
      invariant Scanning(g, v, fromGen, seeds, marks0, queue, h.markTable.Map(), queue', c, i)
    {
      ghost var marks1, queue1 := h.markTable.Map(), queue';
      queue' := MarkVisitSlot(h, h.cells[c + i], fromGen, queue');
      ScanStep(g, v, fromGen, seeds, marks0, queue, marks1, queue1, h.markTable.Map(), queue', c, i);
      i := i + 1;
    }
    ScanEnd(g, v, fromGen, h.markTable.Map(), queue', c, i);
  }

  /** `mark_drain`: empties the queue. */
  method MarkDrain(h: PageHeap, fromGen: Generation, queue: seq<nat>, ghost seeds: set<nat>)
    requires MarkReady(h, fromGen)
    requires MarkInv(h.Geo(), h.V(), fromGen, h.markTable.Map(), queue)
    requires MarkSound(h.Geo(), h.V(), fromGen, seeds, h.markTable.Map())
    modifies h.markTable.bits
    ensures h.Valid()
    ensures Drained(h.Geo(), h.V(), fromGen, seeds, old(h.markTable.Map()), h.markTable.Map(), [])
  {
    hide GeoOk, Starts, Marks, MarkedObjs, Unmarked, Reachable, MarkInv, MarkInvBut, MarkSound, HeapOk, Lawful,
      ConsPagesOk, KindsOk, NoLarge;
    ghost var g, v, marks0 := h.Geo(), h.V(), h.markTable.Map();
    var q := queue;
    DrainStart(g, v, fromGen, seeds, marks0, q);
    while q != []
      invariant MarkReady(h, fromGen) && h.V() == v
      invariant Drained(g, v, fromGen, seeds, marks0, h.markTable.Map(), q)
      decreases Unmarked(h.markTable.Map()), |q|
    {
      ghost var marks1 := h.markTable.Map();
      var c := q[|q| - 1];
      Popped(g, v, fromGen, marks1, q);
      q := MarkScanObject(h, c, fromGen, q[..|q| - 1], seeds);
      DrainTrans(v, fromGen, marks0, marks1, h.markTable.Map());
    }
  }

  // -- Whole mark passes ----------------------------------------------------

  /** `clear_mark_bits_in_gen`. */
  method ClearMarkBitsInGen(h: PageHeap, target: Generation)
    requires h.Valid()
    modifies h.markTable.bits
    ensures h.Valid()
    ensures NoMarksIn(h.V(), target, h.markTable.Map())
    ensures MarksElsewhere(h.V(), target, old(h.markTable.Map()), h.markTable.Map())
  {
    hide GeoOk, Starts, Marks;
    ghost var v := h.V();
    for p := 0 to h.nPages
      invariant h.Valid() && h.V() == v
      invariant |h.markTable.Map()| == |old(h.markTable.Map())| == PAGE_CELLS * h.nPages
      invariant forall c | 0 <= c < PAGE_CELLS * h.nPages ::
        h.markTable.Map()[c] == (if c / PAGE_CELLS < p
            && GenAt(v, c) == target then false else old(h.markTable.Map())[c])
    {
      if h.descs[p].generation == target {
        h.markTable.ClearPage(p);
      }
    }
  }

  ghost predicate NoMarksIn(v: View, target: Generation, marks: seq<bool>) {
    forall c | 0 <= c < |marks| && c / PAGE_CELLS < |v.descs| && GenAt(v, c) == target :: (!marks[c])
  }

  /** If `w` passes the gates, the object it leads to is marked. */
  ghost predicate ChildMarked(g: Geometry, v: View, target: Generation, w: u64, marks: seq<bool>) {
    Follows(g, v, target, w) ==> CellOf(g, w) in MarkedObjs(v, target, marks)
  }

  lemma ChildStaysMarked(g: Geometry, v: View, target: Generation, w: u64, marks: seq<bool>, marks': seq<bool>)
    requires ChildMarked(g, v, target, w, marks) && MarkedObjs(v, target, marks) <= MarkedObjs(v, target, marks')
    ensures ChildMarked(g, v, target, w, marks')
  {
  }

  lemma FreshMarks(g: Geometry, v: View, target: Generation, seeds: set<nat>, marks: seq<bool>)
    requires NoMarksIn(v, target, marks) && |marks| == |v.starts| == PAGE_CELLS * |v.descs|
    ensures Drained(g, v, target, seeds, marks, marks, [])
    ensures MarkedObjs(v, target, marks) == {}
  {
  }

  /** Offering a word that leads to a seed. */
  lemma OfferSeed(g: Geometry, v: View, target: Generation, seeds: set<nat>, w: u64, marks0: seq<bool>,
                  marks: seq<bool>, queue: seq<nat>, marks': seq<bool>, queue': seq<nat>)
    requires Shaped(g, v) && |marks| == |v.starts|
    requires Drained(g, v, target, seeds, marks0, marks, queue)
    requires Offered(g, v, target, w, marks, queue, marks', queue')
    requires Follows(g, v, target, w) ==> CellOf(g, w) in seeds
    ensures Drained(g, v, target, seeds, marks0, marks', queue')
    ensures MarkedObjs(v, target, marks) <= MarkedObjs(v, target, marks')
    ensures ChildMarked(g, v, target, w, marks')
  {
    OfferEffect(g, v, target, w, marks, queue, marks', queue');
    forall c | c in MarkedObjs(v, target, marks') ensures Reachable(g, v, target, seeds, c) {
      if c !in MarkedObjs(v, target, marks) { ReachSeed(g, v, target, seeds, c); }
    }
    hide Reachable, Edge;
    DrainTrans(v, target, marks0, marks, marks');
  }

  /** Marking the object at `c` itself and queueing it, as the pin extension does. */
  lemma MarkSeed(g: Geometry, v: View, target: Generation, seeds: set<nat>, c: nat, marks0: seq<bool>,
                 marks: seq<bool>, queue: seq<nat>)
    requires Shaped(g, v) && |marks| == |v.starts| && c in seeds
    requires IsObj(v, c) && GenAt(v, c) == target && !marks[c]
    requires Drained(g, v, target, seeds, marks0, marks, queue)
    ensures Drained(g, v, target, seeds, marks0, marks[c := true], queue + [c])
    ensures MarkedObjs(v, target, marks[c := true]) == MarkedObjs(v, target, marks) + {c}
  {
    ReachSeed(g, v, target, seeds, c);
    hide Reachable, Edge;
    var marks' := marks[c := true];
    assert MarkedObjs(v, target, marks') == MarkedObjs(v, target, marks) + {c};
    assert MarksElsewhere(v, target, marks, marks');
    DrainTrans(v, target, marks0, marks, marks');
  }

  /** `mark_from_roots`: afterwards the marked objects of `target` are exactly
      those reachable from the roots, whatever was marked there before. */
  method MarkFromRoots(h: PageHeap, target: Generation, roots: seq<u64>)
    requires MarkReady(h, target)
    modifies h.markTable.bits
    ensures h.Valid()
    ensures forall c: nat :: c in MarkedObjs(h.V(), target, h.markTable.Map()) <==>
              Reachable(h.Geo(), h.V(), target, SeedCells(h.Geo(), h.V(), target, set i | 0 <= i < |roots| :: roots[i]),
                  c)
    ensures MarksElsewhere(h.V(), target, old(h.markTable.Map()), h.markTable.Map())
  {
    hide GeoOk, Starts, Marks, MarkedObjs, Unmarked, Reachable, MarkInv, MarkSound, HeapOk, Lawful, ConsPagesOk,
      KindsOk, NoLarge, Follows, SeedCells, ChildMarked;
    ghost var g, v, marks0 := h.Geo(), h.V(), h.markTable.Map();
    ghost var words := set i | 0 <= i < |roots| :: roots[i];
    ghost var seeds := SeedCells(g, v, target, words);
    ClearMarkBitsInGen(h, target);
    ghost var cleared := h.markTable.Map();
    FreshMarks(g, v, target, seeds, cleared);
    var queue: seq<nat> := [];
    for i := 0 to |roots|
      invariant MarkReady(h, target) && h.V() == v
      invariant Drained(g, v, target, seeds, cleared, h.markTable.Map(), queue)
      invariant forall j | 0 <= j < i :: ChildMarked(g, v, target, roots[j], h.markTable.Map())
    {
      ghost var marks1, queue1 := h.markTable.Map(), queue;
      queue := TryMarkRoot(h, roots[i], target, queue);
      SeedOf(g, v, target, words, roots[i]);
      OfferSeed(g, v, target, seeds, roots[i], cleared, marks1, queue1, h.markTable.Map(), queue);
      ghost var marks2 := h.markTable.Map();
      forall j | 0 <= j < i ensures ChildMarked(g, v, target, roots[j], marks2) {
        ChildStaysMarked(g, v, target, roots[j], marks1, marks2);
      }
    }
    ghost var offered := h.markTable.Map();
    PageMarkerDrain(h, target, queue, seeds);
    DrainTrans(v, target, cleared, offered, h.markTable.Map());
    DrainTrans(v, target, marks0, cleared, h.markTable.Map());
    ghost var final := h.markTable.Map();
    forall j | 0 <= j < |roots| ensures ChildMarked(g, v, target, roots[j], final) {
      ChildStaysMarked(g, v, target, roots[j], offered, final);
    }
    SeedsMarked(g, v, target, roots, final);
    MarkExact(g, v, target, seeds, h.markTable.Map());
  }

  lemma SeedOf(g: Geometry, v: View, target: Generation, words: set<u64>, w: u64)
    requires w in words
    ensures Follows(g, v, target, w) ==> CellOf(g, w) in SeedCells(g, v, target, words)
  {
  }

  lemma SeedsMarked(g: Geometry, v: View, target: Generation, roots: seq<u64>, marks: seq<bool>)
    requires forall j | 0 <= j < |roots| :: ChildMarked(g, v, target, roots[j], marks)
    ensures SeedCells(g, v, target, set i | 0 <= i < |roots| :: roots[i]) <= MarkedObjs(v, target, marks)
  {
  }
}
