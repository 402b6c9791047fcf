/**
 The layout tree: recursive clipping, scrolling by translation, and hit-testing that prunes by clip.
 Stack sizes, scroll offsets and line counts are arbitrary inputs.
 */
module Layout {
  import opened Common
  import opened StableSort

  datatype Rect = Rect(x: int, y: int, width: nat, height: nat)

  datatype Point = Point(x: int, y: int)

  predicate In(r: Rect, p: Point) {
    r.x <= p.x < r.x + r.width && r.y <= p.y < r.y + r.height
  }

  function Intersect(a: Rect, b: Rect): Rect {
    var x, y := Max(a.x, b.x), Max(a.y, b.y);
    var right, bottom := Min(a.x + a.width, b.x + b.width), Min(a.y + a.height, b.y + b.height);
    Rect(x, y, Max(0, right - x), Max(0, bottom - y))
  }

  /** Rounding up to an empty rectangle loses nothing: it is the intersection of the point sets. */
  lemma IntersectIs(a: Rect, b: Rect, p: Point)
    ensures In(Intersect(a, b), p) <==> In(a, p) && In(b, p)
  {
  }

  datatype Box = Box(rect: Rect, clip: Rect, children: seq<Box>, scrolls: bool, layer: int)

  datatype Align = Stretch | AtStart | Center | AtEnd

  /** A stack's child with the size it was given and its measured height. */
  datatype Entry = Entry(component: Component, size: nat, natural: nat)

  /** `before` and `after` are the scroll offsets a layout finds and leaves. */
  datatype Component =
    | Leaf(lines: nat)
    | Scroll(child: Component, contentWidth: nat, before: nat, after: nat)
    | VStack(entries: seq<Entry>, gap: nat)
    | HStack(entries: seq<Entry>, gap: nat, align: Align)

  // ---------------------------------------------------------------- layout

  function Moved(r: Rect, dy: int): Rect { r.(y := r.y + dy) }

  function Translate(b: Box, dy: int): Box {
    b.(rect := Moved(b.rect, dy),
       children := seq(|b.children|, i requires 0 <= i < |b.children| => Translate(b.children[i], dy)))
  }

  function UpdateClips(b: Box, parentClip: Rect): Box {
    var clip := Intersect(parentClip, b.rect);
    b.(clip := clip, children := seq(|b.children|, i requires 0 <= i < |b.children| =>
        UpdateClips(b.children[i], clip)))
  }

  function Allocated(height: Option<nat>, natural: nat): nat { if height.Some? then height.value else natural }

  /** Where the `i`th child of a stack begins. */
  function Offset(entries: seq<Entry>, gap: nat, i: nat): nat
    requires i <= |entries|
  {
    if i == 0 then 0 else Offset(entries, gap, i - 1) + entries[i - 1].size + gap
  }

  function NaturalHeight(entries: seq<Entry>, gap: nat): nat {
    if entries == [] then 0 else Offset(entries, gap, |entries|) - gap
  }

  function Tallest(entries: seq<Entry>): nat {
    if entries == [] then 0 else Max(Tallest(entries[..|entries| - 1]), entries[|entries| - 1].natural)
  }

  function ChildHeight(align: Align, room: nat, natural: nat): nat {
    if align.Stretch? then room else Min(room, natural)
  }

  function ChildTop(align: Align, y: int, room: nat, height: nat): int {
    match align
    case Center => y + (room - height) / 2
    case AtEnd => y + room - height
    case _ => y
  }

  function LayOut(c: Component, x: int, y: int, width: nat, height: Option<nat>, clip: Rect): Box
    decreases c
  {
    var safeWidth := Max(1, width);
    match c
    case Leaf(lines) =>
      var rect := Rect(x, y, safeWidth, Allocated(height, lines));
      Box(rect, Intersect(clip, rect), [], false, 0)
    case Scroll(child, contentWidth, before, after) =>
      var content := LayOut(child, x, y - before, contentWidth, None, clip);
      var rect := Rect(x, y, safeWidth, Allocated(height, content.rect.height));
      var childClip := Intersect(clip, rect);
      Box(rect, childClip, [UpdateClips(Translate(content, before - after), childClip)], true, 0)
    case VStack(entries, gap) =>
      var rect := Rect(x, y, safeWidth, Allocated(height, NaturalHeight(entries, gap)));
      var boxClip := Intersect(clip, rect);
      Box(rect, boxClip,
          seq(|entries|, i requires 0 <= i < |entries| =>
            LayOut(entries[i].component, x, y + Offset(entries, gap, i), safeWidth, Some(entries[i].size), boxClip)),
          false, 0)
    case HStack(entries, gap, align) =>
      var room := Allocated(height, Tallest(entries));
      var rect := Rect(x, y, safeWidth, room);
      var boxClip := Intersect(clip, rect);
      Box(rect, boxClip,
          seq(|entries|, i requires 0 <= i < |entries| =>
            var childX := x + Offset(entries, gap, i);
            var h := ChildHeight(align, room, entries[i].natural);
            var childY := ChildTop(align, y, room, h);
            if entries[i].size == 0 then Box(Rect(childX, childY, 0, h), Rect(childX, childY, 0, 0), [], false, 0)
            else LayOut(entries[i].component, childX, childY, entries[i].size, Some(h), boxClip)),
          false, 0)
  }

  // ---------------------------------------------------------------- clips

  /** Every box shows exactly the points of its rectangle that its parent shows. */
  ghost predicate ClipsOk(b: Box, clip: Rect) {
    && (forall p :: In(b.clip, p) <==> In(clip, p) && In(b.rect, p))
    && forall i :: 0 <= i < |b.children| ==> ClipsOk(b.children[i], b.clip)
  }

  /** Whatever the clips were before. */
  lemma {:induction false} UpdatedClips(b: Box, clip: Rect)
    ensures ClipsOk(UpdateClips(b, clip), clip)
    decreases b
  {
    var u := UpdateClips(b, clip);
    forall p ensures In(u.clip, p) <==> In(clip, p) && In(u.rect, p) { IntersectIs(clip, b.rect, p); }
    forall i | 0 <= i < |u.children| ensures ClipsOk(u.children[i], u.clip) {
      UpdatedClips(b.children[i], u.clip);
    }
  }

  lemma IntersectClip(clip: Rect, rect: Rect)
    ensures forall p :: In(Intersect(clip, rect), p) <==> In(clip, p) && In(rect, p)
  {
  }

  lemma EmptyChild(x: int, y: int, h: nat, clip: Rect)
    ensures ClipsOk(Box(Rect(x, y, 0, h), Rect(x, y, 0, 0), [], false, 0), clip)
  {
  }

  /** In every laid-out tree, for any sizes and scroll offsets, however deeply nested. */
  lemma {:induction false} LayoutClips(c: Component, x: int, y: int, width: nat, height: Option<nat>, clip: Rect)
    ensures ClipsOk(LayOut(c, x, y, width, height, clip), clip)
    decreases c, 1
  {
    hide In, Intersect, Translate, UpdateClips;
    var b := LayOut(c, x, y, width, height, clip);
    IntersectClip(clip, b.rect);
    match c
    case Leaf(_) =>
    case Scroll(child, contentWidth, before, after) =>
      UpdatedClips(Translate(LayOut(child, x, y - before, contentWidth, None, clip), before - after), b.clip);
    case VStack(_, _) => VStackClips(c, x, y, width, height, clip);
    case HStack(_, _, _) => HStackClips(c, x, y, width, height, clip);
  }

  lemma {:induction false} VStackClips(c: Component, x: int, y: int, width: nat, height: Option<nat>, clip: Rect)
    requires c.VStack?
    ensures var b := LayOut(c, x, y, width, height, clip); forall i :: 0 <= i < |b.children| ==>
      ClipsOk(b.children[i], b.clip)
    decreases c, 0
  {
    var b := LayOut(c, x, y, width, height, clip);
    hide LayOut, ClipsOk;
    forall i: nat | i < |b.children| ensures ClipsOk(b.children[i], b.clip) {
      VStackChild(c, x, y, width, height, clip, i);
      LayoutClips(c.entries[i].component, x, y + Offset(c.entries, c.gap, i), Max(1, width), Some(c.entries[i].size),
          b.clip);
    }
  }

  lemma {:induction false} VStackChild(c: Component, x: int, y: int, width: nat, height: Option<nat>, clip: Rect,
      i: nat)
    requires c.VStack? && i < |LayOut(c, x, y, width, height, clip).children|
    ensures var b := LayOut(c, x, y, width, height, clip);
      && i < |c.entries|
      && b.children[i] == LayOut(c.entries[i].component, x, y + Offset(c.entries, c.gap, i), Max(1, width),
         Some(c.entries[i].size), b.clip)
  {
    hide Intersect, NaturalHeight, Offset, Allocated;
  }

  lemma {:induction false} HStackClips(c: Component, x: int, y: int, width: nat, height: Option<nat>, clip: Rect)
    requires c.HStack?
    ensures var b := LayOut(c, x, y, width, height, clip); forall i :: 0 <= i < |b.children| ==>
      ClipsOk(b.children[i], b.clip)
    decreases c, 0
  {
    var b := LayOut(c, x, y, width, height, clip);
    hide LayOut, ClipsOk;
    forall i: nat | i < |b.children| ensures ClipsOk(b.children[i], b.clip) {
      HStackChild(c, x, y, width, height, clip, i);
      var h := ChildHeight(c.align, b.rect.height, c.entries[i].natural);
      var childX, childY := x + Offset(c.entries, c.gap, i), ChildTop(c.align, y, b.rect.height, h);
      if c.entries[i].size != 0 {
        LayoutClips(c.entries[i].component, childX, childY, c.entries[i].size, Some(h), b.clip);
      } else {
        EmptyChild(childX, childY, h, b.clip);
      }
    }
  }

  lemma {:induction false} HStackChild(c: Component, x: int, y: int, width: nat, height: Option<nat>, clip: Rect,
      i: nat)
    requires c.HStack? && i < |LayOut(c, x, y, width, height, clip).children|
    ensures var b := LayOut(c, x, y, width, height, clip);
      && i < |c.entries|
      && var h := ChildHeight(c.align, b.rect.height, c.entries[i].natural);
         var childX, childY := x + Offset(c.entries, c.gap, i), ChildTop(c.align, y, b.rect.height, h);
         b.children[i] == if c.entries[i].size == 0 then
             Box(Rect(childX, childY, 0, h), Rect(childX, childY, 0, 0), [], false, 0)
                          else LayOut(c.entries[i].component, childX, childY, c.entries[i].size, Some(h), b.clip)
  {
    hide Intersect, Tallest, Offset, Allocated, ChildHeight, ChildTop;
  }

  // ---------------------------------------------------------------- boxes by their path from the root

  predicate HasPath(b: Box, path: seq<nat>)
    decreases |path|
  {
    path == [] || (path[0] < |b.children| && HasPath(b.children[path[0]], path[1..]))
  }

  function BoxAt(b: Box, path: seq<nat>): Box
    requires HasPath(b, path)
    decreases |path|
  {
    if path == [] then b else BoxAt(b.children[path[0]], path[1..])
  }

  /** The box and all its ancestors cover the point. */
  predicate Covered(b: Box, path: seq<nat>, p: Point)
    requires HasPath(b, path)
    decreases |path|
  {
    In(b.rect, p) && (path == [] || Covered(b.children[path[0]], path[1..], p))
  }

  /** A clip contains exactly the points of the outermost clip that the box and all its ancestors cover. */
  lemma {:induction false} ClipMeansCovered(b: Box, clip: Rect, path: seq<nat>, p: Point)
    requires ClipsOk(b, clip) && HasPath(b, path)
    ensures In(BoxAt(b, path).clip, p) <==> In(clip, p) && Covered(b, path, p)
    decreases |path|
  {
    if path != [] { ClipMeansCovered(b.children[path[0]], b.clip, path[1..], p); }
  }

  // ---------------------------------------------------------------- hit-testing

  datatype Hit = Hit(path: seq<nat>, scrolls: bool, layer: int)

  function HitOf(b: Box, at: seq<nat>): Hit { Hit(at, b.scrolls, b.layer) }

  /** All boxes whose clip contains the point, parents before children, by looking at every box. */
  function Everywhere(b: Box, at: seq<nat>, p: Point): seq<Hit>
    decreases b, 1, 0
  {
    (if In(b.clip, p) then [HitOf(b, at)] else []) + EverywhereIn(b, at, p, |b.children|)
  }

  function EverywhereIn(b: Box, at: seq<nat>, p: Point, n: nat): seq<Hit>
    requires n <= |b.children|
    decreases b, 0, n
  {
    if n == 0 then [] else EverywhereIn(b, at, p, n - 1) + Everywhere(b.children[n - 1], at + [n - 1], p)
  }

  /** Outside a box's clip there is nothing to hit in it. */
  lemma {:induction false} NothingOutside(b: Box, clip: Rect, at: seq<nat>, p: Point)
    requires ClipsOk(b, clip) && !In(b.clip, p)
    ensures Everywhere(b, at, p) == []
    decreases b, |b.children| + 1
  {
    NothingOutsideIn(b, clip, at, p, |b.children|);
  }

  lemma {:induction false} NothingOutsideIn(b: Box, clip: Rect, at: seq<nat>, p: Point, n: nat)
    requires ClipsOk(b, clip) && !In(b.clip, p) && n <= |b.children|
    ensures EverywhereIn(b, at, p, n) == []
    decreases b, n
  {
    if n > 0 {
      NothingOutsideIn(b, clip, at, p, n - 1);
      assert ClipsOk(b.children[n - 1], b.clip);
      NothingOutside(b.children[n - 1], b.clip, at + [n - 1], p);
    }
  }

  /** The pruned visit finds the same hits in the same order. */
  method Visit(b: Box, ghost clip: Rect, at: seq<nat>, p: Point) returns (hits: seq<Hit>)
    requires ClipsOk(b, clip)
    ensures hits == Everywhere(b, at, p)
    decreases b
  {
    if !In(b.clip, p) {
      NothingOutside(b, clip, at, p);
      return [];
    }
    hits := [HitOf(b, at)];
    var i := 0;
    while i < |b.children|
      invariant 0 <= i <= |b.children|
      invariant hits == [HitOf(b, at)] + EverywhereIn(b, at, p, i)
    {
      var inside := Visit(b.children[i], b.clip, at + [i], p);
      hits := hits + inside;
      i := i + 1;
    }
  }

  /** The hits are the boxes whose clip contains the point, each under its own path. */
  lemma {:induction false} EverywhereIs(b: Box, at: seq<nat>, p: Point, path: seq<nat>, h: Hit)
    requires h.path == at + path
    ensures h in Everywhere(b, at, p) <==> HasPath(b, path) && In(BoxAt(b, path).clip, p) && h == HitOf(BoxAt(b, path),
      at + path)
    decreases b, |b.children| + 1
  {
    EverywhereInIs(b, at, p, path, h, |b.children|);
    if path == [] {
      assert at + path == at;
    } else {
      assert |at + path| > |at|;
    }
  }

  lemma {:induction false} EverywhereInIs(b: Box, at: seq<nat>, p: Point, path: seq<nat>, h: Hit, n: nat)
    requires n <= |b.children| && h.path == at + path
    ensures h in EverywhereIn(b, at, p, n) <==>
            path != [] && path[0] < n && HasPath(b.children[path[0]], path[1..]) &&
                In(BoxAt(b.children[path[0]], path[1..]).clip, p)
            && h == HitOf(BoxAt(b.children[path[0]], path[1..]), at + path)
    decreases b, n
  {
    if n > 0 {
      EverywhereInIs(b, at, p, path, h, n - 1);
      var below := at + [n - 1];
      if path != [] && path[0] == n - 1 {
        assert below + path[1..] == at + path;
        EverywhereIs(b.children[n - 1], below, p, path[1..], h);
      } else {
        EverywhereUnder(b.children[n - 1], below, p);
        forall g: Hit | below <= g.path ensures g.path != at + path { assert g.path[|at|] == n - 1; }
      }
    }
  }

  lemma {:induction false} EverywhereUnder(b: Box, at: seq<nat>, p: Point)
    ensures forall h :: h in Everywhere(b, at, p) ==> at <= h.path
    decreases b, |b.children| + 1
  {
    EverywhereInUnder(b, at, p, |b.children|);
  }

  lemma {:induction false} EverywhereInUnder(b: Box, at: seq<nat>, p: Point, n: nat)
    requires n <= |b.children|
    ensures forall h :: h in EverywhereIn(b, at, p, n) ==> at <= h.path
    decreases b, n
  {
    if n > 0 {
      EverywhereInUnder(b, at, p, n - 1);
      EverywhereUnder(b.children[n - 1], at + [n - 1], p);
    }
  }

  /** The visit for scroll views tests the rectangle as well, which the clip makes superfluous. */
  method VisitScrollViews(b: Box, ghost clip: Rect, at: seq<nat>, p: Point) returns (hits: seq<Hit>)
    requires ClipsOk(b, clip)
    ensures hits == OnlyScrolling(Everywhere(b, at, p))
    decreases b
  {
    if !In(b.clip, p) {
      NothingOutside(b, clip, at, p);
      return [];
    }
    ScrollsStart(b, at, p);
    hide Everywhere, EverywhereIn, OnlyScrolling;
    hits := if b.scrolls && In(b.rect, p) then [HitOf(b, at)] else [];
    var i := 0;
    while i < |b.children|
      invariant 0 <= i <= |b.children|
      invariant hits == OnlyScrolling([HitOf(b, at)] + EverywhereIn(b, at, p, i))
    {
      var inside := VisitScrollViews(b.children[i], b.clip, at + [i], p);
      ScrollsNext(b, at, p, i);
      hits := hits + inside;
      i := i + 1;
    }
    EverywhereFrom(b, at, p);
  }

  lemma EverywhereFrom(b: Box, at: seq<nat>, p: Point)
    requires In(b.clip, p)
    ensures Everywhere(b, at, p) == [HitOf(b, at)] + EverywhereIn(b, at, p, |b.children|)
  {
  }

  lemma ScrollsStart(b: Box, at: seq<nat>, p: Point)
    ensures OnlyScrolling([HitOf(b, at)] + EverywhereIn(b, at, p, 0)) == if b.scrolls then [HitOf(b, at)] else []
  {
    OnlyOne(HitOf(b, at));
  }

  lemma ScrollsNext(b: Box, at: seq<nat>, p: Point, i: nat)
    requires i < |b.children|
    ensures OnlyScrolling([HitOf(b, at)] + EverywhereIn(b, at, p, i + 1)) ==
            OnlyScrolling([HitOf(b, at)] + EverywhereIn(b, at, p, i)) + OnlyScrolling(Everywhere(b.children[i],
                at + [i], p))
  {
    var own, before, next := [HitOf(b, at)], EverywhereIn(b, at, p, i), Everywhere(b.children[i], at + [i], p);
    assert EverywhereIn(b, at, p, i + 1) == before + next;
    hide Everywhere, EverywhereIn, OnlyScrolling;
    assert own + (before + next) == own + before + next;
    OnlyScrollingAppend(own + before, next);
  }

  function OnlyScrolling(hits: seq<Hit>): seq<Hit> {
    if hits == [] then []
    else OnlyScrolling(hits[..|hits| - 1]) + if hits[|hits| - 1].scrolls then [hits[|hits| - 1]] else []
  }

  lemma OnlyOne(h: Hit)
    ensures OnlyScrolling([h] + []) == if h.scrolls then [h] else []
  {
    assert ([h] + [])[..0] == [];
  }

  lemma {:induction false} OnlyScrollingAppend(a: seq<Hit>, b: seq<Hit>)
    ensures OnlyScrolling(a + b) == OnlyScrolling(a) + OnlyScrolling(b)
    decreases |b|
  {
    if b == [] {
      assert a + b == a;
    } else {
      assert (a + b)[..|a + b| - 1] == a + b[..|b| - 1];
      OnlyScrollingAppend(a, b[..|b| - 1]);
    }
  }

  lemma {:induction false} OnlyScrollingIs(hits: seq<Hit>, h: Hit)
    ensures h in OnlyScrolling(hits) <==> h in hits && h.scrolls
    decreases |hits|
  {
    if hits != [] {
      OnlyScrollingIs(hits[..|hits| - 1], h);
      assert hits == hits[..|hits| - 1] + [hits[|hits| - 1]];
    }
  }

  // ---------------------------------------------------------------- deepest first

  /** Higher layers first, then by decreasing depth. */
  predicate Topmost(a: Hit, b: Hit) {
    a.layer > b.layer || (a.layer == b.layer && |a.path| > |b.path|)
  }

  predicate Deeper(a: Hit, b: Hit) { |a.path| > |b.path| }

  /** Every hit with its place in the visit. */
  function InVisit(hits: seq<Hit>): seq<Placed<Hit>> {
    seq(|hits|, i requires 0 <= i < |hits| => Placed(i, hits[i]))
  }

  predicate Listed(rs: seq<Placed<Hit>>, h: Hit) { exists r :: r in rs && r.item == h }

  lemma ListedAre(hits: seq<Hit>, sorted: seq<Placed<Hit>>)
    requires SameElements(sorted, InVisit(hits))
    ensures forall h :: Listed(sorted, h) <==> h in hits
  {
    forall h ensures Listed(sorted, h) <==> h in hits {
      if h in hits {
        var k :| 0 <= k < |hits| && hits[k] == h;
        assert InVisit(hits)[k] == Placed(k, h);
        assert Placed(k, h) in InVisit(hits);
      }
    }
  }

  /** The boxes whose clip contains the point, and no others, topmost layer and then deepest first. */
  method GetLayoutBoxesAt(root: Box, ghost clip: Rect, p: Point) returns (sorted: seq<Placed<Hit>>)
    requires ClipsOk(root, clip)
    ensures Ordered(Topmost, sorted) && SameElements(sorted, InVisit(Everywhere(root, [], p)))
    ensures forall h: Hit :: Listed(sorted, h) <==>
              HasPath(root, h.path) && In(BoxAt(root, h.path).clip, p) && h == HitOf(BoxAt(root, h.path), h.path)
    ensures forall h: Hit :: Listed(sorted, h) <==>
              HasPath(root, h.path) && In(clip, p) && Covered(root, h.path, p) &&
                  h == HitOf(BoxAt(root, h.path), h.path)
  {
    var hits := Visit(root, clip, [], p);
    sorted := Sort(Topmost, InVisit(hits));
    ListedAre(hits, sorted);
    forall h: Hit ensures Listed(sorted, h) <==> AtPoint(root, p, h) { RootHits(root, p, h); }
    forall h: Hit | HasPath(root, h.path) ensures In(BoxAt(root, h.path).clip, p) <==>
      In(clip, p) && Covered(root, h.path, p) {
      ClipMeansCovered(root, clip, h.path, p);
    }
  }

  /** The scroll views whose box and all its ancestors cover the point, deepest first. */
  method GetScrollViewsAt(root: Box, ghost clip: Rect, p: Point) returns (sorted: seq<Placed<Hit>>)
    requires ClipsOk(root, clip)
    ensures Ordered(Deeper, sorted) && SameElements(sorted, InVisit(OnlyScrolling(Everywhere(root, [], p))))
    ensures forall h: Hit :: Listed(sorted, h) <==>
              h.scrolls && HasPath(root, h.path) && In(clip, p) && Covered(root, h.path, p) &&
                  h == HitOf(BoxAt(root, h.path), h.path)
  {
    var hits := VisitScrollViews(root, clip, [], p);
    sorted := Sort(Deeper, InVisit(hits));
    ListedAre(hits, sorted);
    forall h: Hit ensures Listed(sorted, h) <==> h.scrolls && AtPoint(root, p, h) {
      OnlyScrollingIs(Everywhere(root, [], p), h);
      RootHits(root, p, h);
    }
    forall h: Hit | HasPath(root, h.path) ensures In(BoxAt(root, h.path).clip, p) <==>
      In(clip, p) && Covered(root, h.path, p) {
      ClipMeansCovered(root, clip, h.path, p);
    }
  }

  predicate AtPoint(root: Box, p: Point, h: Hit) {
    HasPath(root, h.path) && In(BoxAt(root, h.path).clip, p) && h == HitOf(BoxAt(root, h.path), h.path)
  }

  lemma RootHits(root: Box, p: Point, h: Hit)
    ensures h in Everywhere(root, [], p) <==> AtPoint(root, p, h)
  {
    assert [] + h.path == h.path;
    EverywhereIs(root, [], p, h.path, h);
  }

  // ---------------------------------------------------------------- the scrollbar

  /** Rounds halves up. */
  function Round(x: real): int { (x + 0.5).Floor }

  /** Within half a row. */
  predicate Nearest(n: int, x: real) { n as real - 0.5 <= x <= n as real + 0.5 }

  datatype Scrollbar = Scrollbar(trackTop: int, trackHeight: nat, thumbTop: int, thumbHeight: nat)

  lemma RoundMonotone(a: real, b: real)
    requires a <= b
    ensures Round(a) <= Round(b)
  {
  }

  lemma RoundInteger(n: int)
    ensures Round(n as real) == n
  {
  }

  /** A share of a whole stays within it. */
  function Share(t: nat, m: nat, k: nat): (x: real)
    requires 0 < m && t <= m
    ensures 0.0 <= x <= k as real && (t == 0 ==> x == 0.0) && (t == m ==> x == k as real)
  {
    ShareOf(t as real / m as real, k as real);
    (t as real / m as real) * k as real
  }

  lemma ShareOf(r: real, k: real)
    requires 0.0 <= r <= 1.0 && 0.0 <= k
    ensures 0.0 <= r * k <= k && (r == 0.0 ==> r * k == 0.0) && (r == 1.0 ==> r * k == k)
  {
  }

  /** The thumb lies inside the track whatever the rounding, at its ends when the content is scrolled to its ends. */
  function ScrollbarOf(trackTop: int, trackHeight: nat, contentHeight: nat, scrollTop: nat): (g: Scrollbar)
    requires trackHeight > 0 && scrollTop <= Max(0, contentHeight - trackHeight)
    ensures g.trackTop == trackTop && g.trackHeight == trackHeight
    ensures 0 < g.thumbHeight <= trackHeight
    ensures trackTop <= g.thumbTop && g.thumbTop + g.thumbHeight <= trackTop + trackHeight
    ensures scrollTop == 0 ==> g.thumbTop == trackTop
    ensures contentHeight > trackHeight && scrollTop == contentHeight - trackHeight ==>
      g.thumbTop + g.thumbHeight == trackTop + trackHeight
    ensures contentHeight <= trackHeight ==> g.thumbHeight == trackHeight
    ensures contentHeight > trackHeight ==>
      Nearest(g.thumbTop - trackTop, Share(scrollTop, contentHeight - trackHeight, trackHeight - g.thumbHeight))
  {
    var thumbHeight := ThumbHeight(trackHeight, contentHeight);
    var maxScrollTop := Max(0, contentHeight - trackHeight);
    var maxThumbTop := trackHeight - thumbHeight;
    var thumbOffset := if maxScrollTop == 0 then 0 else ThumbOffset(scrollTop, maxScrollTop, maxThumbTop);
    Scrollbar(trackTop, trackHeight, trackTop + thumbOffset, thumbHeight)
  }

  function ThumbHeight(trackHeight: nat, contentHeight: nat): (h: nat)
    requires trackHeight > 0
    ensures 0 < h <= trackHeight && (contentHeight <= trackHeight ==> h == trackHeight)
    ensures contentHeight > trackHeight ==>
      var exact := (trackHeight * trackHeight) as real / contentHeight as real;
      exact - 0.5 <= h as real && (h > 2 ==> Nearest(h, exact))
  {
    var proportional := if contentHeight == 0 then trackHeight
                        else Min(trackHeight, Round((trackHeight * trackHeight) as real / contentHeight as real));
    if 0 < contentHeight <= trackHeight then
      WholeTrack(trackHeight, contentHeight);
      Max(Min(2, trackHeight), proportional)
    else if 0 < contentHeight then
      PartOfTrack(trackHeight, contentHeight);
      Max(Min(2, trackHeight), proportional)
    else Max(Min(2, trackHeight), proportional)
  }

  /** Content no longer than the track fills it. */
  lemma WholeTrack(h: nat, c: nat)
    requires 0 < c <= h
    ensures Round((h * h) as real / c as real) >= h
  {
    assert (h * h) as real / c as real >= h as real by { Quotient(h, c); }
    RoundMonotone(h as real, (h * h) as real / c as real);
    RoundInteger(h);
  }

  /** Longer content shows in less than the track. */
  lemma PartOfTrack(h: nat, c: nat)
    requires 0 < h < c
    ensures (h * h) as real / c as real <= h as real
  {
    var exact := (h * h) as real / c as real;
    MultipliedBack((h * h) as real, c as real);
    Product(h, c, h);
    assert h as real * c as real == (h * c) as real;
    if exact > h as real { LessProduct(h as real, exact, c as real); }
  }

  lemma Quotient(h: nat, c: nat)
    requires 0 < c <= h
    ensures (h * h) as real / c as real >= h as real
  {
    assert h * h >= h * c by { Product(h, h, c); }
    assert (h * h) as real >= h as real * c as real;
    DivideOut((h * h) as real, h as real, c as real);
  }

  lemma Product(a: nat, b: nat, c: nat)
    requires b >= c
    ensures a * b >= a * c
  {
  }

  lemma DivideOut(x: real, y: real, c: real)
    requires c > 0.0 && x >= y * c
    ensures x / c >= y
  {
    MultipliedBack(x, c);
    AtLeast(x / c, y, c, x);
  }

  lemma MultipliedBack(x: real, c: real)
    requires c > 0.0
    ensures (x / c) * c == x
  {
  }

  lemma AtLeast(q: real, y: real, c: real, x: real)
    requires c > 0.0 && q * c == x >= y * c
    ensures q >= y
  {
    if q < y { LessProduct(q, y, c); }
  }

  lemma LessProduct(a: real, b: real, c: real)
    requires a < b && c > 0.0
    ensures a * c < b * c
  {
  }

  function ThumbOffset(scrollTop: nat, maxScrollTop: nat, maxThumbTop: nat): (o: int)
    requires 0 < maxScrollTop && scrollTop <= maxScrollTop
    ensures 0 <= o <= maxThumbTop && (scrollTop == 0 ==> o == 0) && (scrollTop == maxScrollTop ==> o == maxThumbTop)
    ensures Nearest(o, Share(scrollTop, maxScrollTop, maxThumbTop))
  {
    var x := Share(scrollTop, maxScrollTop, maxThumbTop);
    RoundMonotone(0.0, x);
    RoundMonotone(x, maxThumbTop as real);
    RoundInteger(maxThumbTop);
    RoundInteger(0);
    Round(x)
  }
}
