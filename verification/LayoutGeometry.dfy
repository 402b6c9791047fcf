/**
 Where a layout puts its boxes, as relations between each box and its children: nothing here computes an
 offset. Relations between rectangles do not change when a whole tree moves, so the arrangement inside a
 scroll view is the same for every scroll offset.
 */
module LayoutGeometry {
  import opened Common
  import opened Layout

  function Bottom(r: Rect): int { r.y + r.height }

  function Right(r: Rect): int { r.x + r.width }

  /** Below each other, a gap apart, from the stack's top, as wide as the stack and as tall as their sizes. */
  ghost predicate Stacked(entries: seq<Entry>, gap: nat, b: Box)
    requires |b.children| == |entries|
  {
    && (forall i :: 0 <= i < |entries| ==> InColumn(b, b.children[i], entries[i].size))
    && (entries != [] ==> b.children[0].rect.y == b.rect.y)
    && (forall i :: 0 < i < |entries| ==> b.children[i].rect.y == Bottom(b.children[i - 1].rect) + gap)
  }

  predicate InColumn(b: Box, child: Box, size: nat) {
    child.rect.x == b.rect.x && child.rect.width == b.rect.width && child.rect.height == size
  }

  /** Beside each other, a gap apart, from the stack's left edge, each aligned. */
  ghost predicate Aligned(entries: seq<Entry>, gap: nat, align: Align, b: Box)
    requires |b.children| == |entries|
  {
    && (forall i :: 0 <= i < |entries| ==> InRow(align, b, b.children[i], entries[i]))
    && (entries != [] ==> b.children[0].rect.x == b.rect.x)
    && (forall i :: 0 < i < |entries| ==> b.children[i].rect.x == Right(b.children[i - 1].rect) + gap)
  }

  predicate InRow(align: Align, b: Box, child: Box, e: Entry) {
    && child.rect.width == e.size && AlignedIn(align, b.rect, child.rect, e.natural)
    && (e.size == 0 ==> child.children == [] && !child.scrolls)
  }

  /** Stretched from edge to edge, or as tall as it is and fits: at the top, at the bottom, or in the middle. */
  predicate AlignedIn(align: Align, outer: Rect, inner: Rect, natural: nat) {
    var above, below := inner.y - outer.y, Bottom(outer) - Bottom(inner);
    && above >= 0 && below >= 0
    && (align.Stretch? ==> above == below == 0)
    && (!align.Stretch? ==> inner.height == natural || (natural > inner.height == outer.height))
    && (align.AtStart? ==> above == 0)
    && (align.AtEnd? ==> below == 0)
    && (align.Center? ==> above <= below <= above + 1)
  }

  ghost predicate Arranged(c: Component, b: Box)
    decreases c
  {
    && (b.scrolls <==> c.Scroll?) && b.layer == 0
    && match c
       case Leaf(_) => b.children == []
       case Scroll(child, contentWidth, _, after) =>
         && |b.children| == 1
         && b.children[0].rect.x == b.rect.x && b.children[0].rect.width == Max(1, contentWidth)
         && b.rect.y - b.children[0].rect.y == after
         && FitsContent(child, b.children[0]) && Arranged(child, b.children[0])
       case VStack(entries, gap) =>
         && |b.children| == |entries| && Stacked(entries, gap, b)
         && forall i :: 0 <= i < |entries| ==> Arranged(entries[i].component, b.children[i])
       case HStack(entries, gap, align) =>
         && |b.children| == |entries| && Aligned(entries, gap, align, b)
         && forall i :: 0 <= i < |entries| && entries[i].size > 0 ==> Arranged(entries[i].component, b.children[i])
  }

  /** Exactly as tall as what is inside. */
  ghost predicate FitsContent(c: Component, b: Box) {
    match c
    case Leaf(lines) => b.rect.height == lines
    case Scroll(_, _, _, _) => |b.children| == 1 && b.rect.height == b.children[0].rect.height
    case VStack(entries, _) =>
      if b.children == [] then b.rect.height == 0
      else Bottom(b.rect) == Bottom(b.children[|b.children| - 1].rect)
    case HStack(entries, _, _) =>
      && (forall i :: 0 <= i < |entries| ==> entries[i].natural <= b.rect.height)
      && (b.rect.height == 0 || exists i :: 0 <= i < |entries| && entries[i].natural == b.rect.height)
  }

  /** At the place and of the width it was given, as tall as it was told or as its content, and arranged. */
  ghost predicate LaidOut(c: Component, b: Box, x: int, y: int, width: nat, height: Option<nat>) {
    && b.rect.x == x && b.rect.y == y && b.rect.width == Max(1, width)
    && (if height.Some? then b.rect.height == height.value else FitsContent(c, b))
    && Arranged(c, b)
  }

  /** In every layout, for any sizes, gaps, alignments and scroll offsets. */
  lemma {:induction false} LayoutArranges(c: Component, x: int, y: int, width: nat, height: Option<nat>, clip: Rect)
    ensures LaidOut(c, LayOut(c, x, y, width, height, clip), x, y, width, height)
    decreases c, 1
  {
    hide Intersect, Translate, UpdateClips;
    match c
    case Leaf(_) =>
    case Scroll(_, _, _, _) => ScrollArranges(c, x, y, width, height, clip);
    case VStack(_, _) => VStackArranges(c, x, y, width, height, clip);
    case HStack(_, _, _) => HStackArranges(c, x, y, width, height, clip);
  }

  // ---------------------------------------------------------------- scrolling

  /** The same tree further down, whatever the clips. */
  ghost predicate Displaced(b: Box, m: Box, dy: int)
    decreases b
  {
    && m.rect == Moved(b.rect, dy) && m.scrolls == b.scrolls && m.layer == b.layer
    && |m.children| == |b.children|
    && forall i :: 0 <= i < |b.children| ==> Displaced(b.children[i], m.children[i], dy)
  }

  lemma {:induction false} TranslateDisplaces(b: Box, dy: int)
    ensures Displaced(b, Translate(b, dy), dy)
    decreases b
  {
    forall i | 0 <= i < |b.children| ensures Displaced(b.children[i], Translate(b, dy).children[i], dy) {
      TranslateDisplaces(b.children[i], dy);
    }
  }

  lemma {:induction false} ReclippingStays(b: Box, clip: Rect)
    ensures Displaced(b, UpdateClips(b, clip), 0)
    decreases b
  {
    var u := UpdateClips(b, clip);
    hide Intersect;
    forall i | 0 <= i < |b.children| ensures Displaced(b.children[i], u.children[i], 0) {
      ReclippingStays(b.children[i], u.clip);
    }
  }

  lemma ColumnMoves(entries: seq<Entry>, gap: nat, b: Box, m: Box, dy: int)
    requires Displaced(b, m, dy) && |b.children| == |m.children| == |entries| && Stacked(entries, gap, b)
    ensures Stacked(entries, gap, m)
  {
    hide Displaced;
    ChildrenMove(b, m, dy);
  }

  lemma RowMoves(entries: seq<Entry>, gap: nat, align: Align, b: Box, m: Box, dy: int)
    requires Displaced(b, m, dy) && |b.children| == |m.children| == |entries| && Aligned(entries, gap, align, b)
    ensures Aligned(entries, gap, align, m)
  {
    hide Displaced, InRow;
    ChildrenMove(b, m, dy);
    forall i | 0 <= i < |entries| ensures InRow(align, m, m.children[i], entries[i]) {
      InRowMoves(align, b, b.children[i], m, m.children[i], entries[i], dy);
    }
  }

  lemma InRowMoves(align: Align, b: Box, child: Box, m: Box, moved: Box, e: Entry, dy: int)
    requires InRow(align, b, child, e) && m.rect == Moved(b.rect, dy) && Displaced(child, moved, dy)
    ensures InRow(align, m, moved, e)
  {
  }

  lemma ChildrenMove(b: Box, m: Box, dy: int)
    requires Displaced(b, m, dy)
    ensures m.rect == Moved(b.rect, dy) && |m.children| == |b.children|
    ensures forall i :: 0 <= i < |b.children| ==>
      m.children[i].rect == Moved(b.children[i].rect, dy) && Displaced(b.children[i], m.children[i], dy)
  {
  }

  /** The arrangement does not depend on where the tree is, nor on its clips. */
  lemma {:induction false} DisplacedArranged(c: Component, b: Box, m: Box, dy: int)
    requires Arranged(c, b) && Displaced(b, m, dy)
    ensures Arranged(c, m)
    decreases c
  {
    hide Stacked, Aligned, FitsContent;
    match c
    case Leaf(_) =>
    case Scroll(child, _, _, _) =>
      DisplacedArranged(child, b.children[0], m.children[0], dy);
      DisplacedFits(child, b.children[0], m.children[0], dy);
    case VStack(entries, gap) =>
      ColumnMoves(entries, gap, b, m, dy);
      forall i | 0 <= i < |entries| ensures Arranged(entries[i].component, m.children[i]) {
        DisplacedArranged(entries[i].component, b.children[i], m.children[i], dy);
      }
    case HStack(entries, gap, align) =>
      RowMoves(entries, gap, align, b, m, dy);
      forall i | 0 <= i < |entries| && entries[i].size > 0 ensures Arranged(entries[i].component, m.children[i]) {
        DisplacedArranged(entries[i].component, b.children[i], m.children[i], dy);
      }
  }

  lemma DisplacedFits(c: Component, b: Box, m: Box, dy: int)
    requires FitsContent(c, b) && Displaced(b, m, dy)
    ensures FitsContent(c, m)
  {
    ChildrenMove(b, m, dy);
    hide Displaced;
  }

  lemma {:induction false} ScrollArranges(c: Component, x: int, y: int, width: nat, height: Option<nat>, clip: Rect)
    requires c.Scroll?
    ensures LaidOut(c, LayOut(c, x, y, width, height, clip), x, y, width, height)
    decreases c, 0
  {
    hide *;
    var b := LayOut(c, x, y, width, height, clip);
    var content := LayOut(c.child, x, y - c.before, c.contentWidth, None, clip);
    LayoutArranges(c.child, x, y - c.before, c.contentWidth, None, clip);
    ScrollBox(c, x, y, width, height, clip);
    ContentMoves(c.child, content, x, y - c.before, c.contentWidth, c.before - c.after, b.clip);
    ScrollLaidOut(c, b, x, y, width, height);
  }

  /** Content laid out for one offset and moved to another. */
  lemma ContentMoves(c: Component, content: Box, x: int, y: int, width: nat, dy: int, clip: Rect)
    requires LaidOut(c, content, x, y, width, None)
    ensures var b := UpdateClips(Translate(content, dy), clip);
      LaidOut(c, b, x, y + dy, width, None) && b.rect.height == content.rect.height
  {
    hide Translate, UpdateClips, Arranged, FitsContent;
    var moved := Translate(content, dy);
    TranslateDisplaces(content, dy);
    ReclippingStays(moved, clip);
    DisplacedArranged(c, content, moved, dy);
    DisplacedFits(c, content, moved, dy);
    DisplacedArranged(c, moved, UpdateClips(moved, clip), 0);
    DisplacedFits(c, moved, UpdateClips(moved, clip), 0);
  }

  lemma ScrollLaidOut(c: Component, b: Box, x: int, y: int, width: nat, height: Option<nat>)
    requires c.Scroll? && |b.children| == 1
    requires b.rect == Rect(x, y, Max(1, width), Allocated(height, b.children[0].rect.height)) && b.scrolls
    requires b.layer == 0 && LaidOut(c.child, b.children[0], x, y - c.after, c.contentWidth, None)
    ensures LaidOut(c, b, x, y, width, height)
  {
  }

  lemma ScrollBox(c: Component, x: int, y: int, width: nat, height: Option<nat>, clip: Rect)
    requires c.Scroll?
    ensures var b := LayOut(c, x, y, width, height, clip);
      var content := LayOut(c.child, x, y - c.before, c.contentWidth, None, clip);
      && b.rect == Rect(x, y, Max(1, width), Allocated(height, content.rect.height)) && b.scrolls && b.layer == 0
      && b.children == [UpdateClips(Translate(content, c.before - c.after), b.clip)]
  {
    hide Intersect, Translate, UpdateClips;
  }

  // ---------------------------------------------------------------- stacks

  lemma {:induction false} VStackArranges(c: Component, x: int, y: int, width: nat, height: Option<nat>, clip: Rect)
    requires c.VStack?
    ensures LaidOut(c, LayOut(c, x, y, width, height, clip), x, y, width, height)
    decreases c, 0
  {
    hide LayOut, LaidOut, Arranged, FitsContent, Intersect, InRow, Offset;
    var b := LayOut(c, x, y, width, height, clip);
    VStackBox(c, x, y, width, height, clip);
    forall i: nat | i < |c.entries| ensures InPlace(c, b, i) {
      VStackChild(c, x, y, width, height, clip, i);
      LayoutArranges(c.entries[i].component, x, y + Offset(c.entries, c.gap, i), Max(1, width), Some(c.entries[i].size),
        b.clip);
    }
    VStackLaidOut(c, b, x, y, width, height);
  }

  /** A stack's child is laid out at its offset. */
  ghost predicate InPlace(c: Component, b: Box, i: nat)
    requires c.VStack? && i < |b.children| == |c.entries|
  {
    LaidOut(c.entries[i].component, b.children[i], b.rect.x, b.rect.y + Offset(c.entries, c.gap, i), b.rect.width,
      Some(c.entries[i].size))
  }

  lemma VStackLaidOut(c: Component, b: Box, x: int, y: int, width: nat, height: Option<nat>)
    requires c.VStack? && |b.children| == |c.entries| && !b.scrolls && b.layer == 0
    requires b.rect == Rect(x, y, Max(1, width), Allocated(height, NaturalHeight(c.entries, c.gap)))
    requires forall i: nat :: i < |c.entries| ==> InPlace(c, b, i)
    ensures LaidOut(c, b, x, y, width, height)
  {
    forall i: nat | i < |c.entries|
      ensures b.children[i].rect == Rect(b.rect.x, b.rect.y + Offset(c.entries, c.gap, i), b.rect.width,
        c.entries[i].size)
      ensures Arranged(c.entries[i].component, b.children[i]) {
      assert InPlace(c, b, i);
      hide Arranged, Offset;
    }
    ColumnIs(c.entries, c.gap, b);
    hide Stacked, FitsContent, Offset, InPlace;
  }

  /** Children put down one after the other. */
  lemma ColumnIs(entries: seq<Entry>, gap: nat, b: Box)
    requires |b.children| == |entries|
    requires forall i: nat :: i < |entries| ==>
      b.children[i].rect == Rect(b.rect.x, b.rect.y + Offset(entries, gap, i), b.rect.width, entries[i].size)
    ensures Stacked(entries, gap, b)
    ensures b.rect.height == NaturalHeight(entries, gap) ==> FitsContent(VStack(entries, gap), b)
  {
  }

  lemma VStackBox(c: Component, x: int, y: int, width: nat, height: Option<nat>, clip: Rect)
    requires c.VStack?
    ensures var b := LayOut(c, x, y, width, height, clip);
      && b.rect == Rect(x, y, Max(1, width), Allocated(height, NaturalHeight(c.entries, c.gap)))
      && |b.children| == |c.entries| && !b.scrolls && b.layer == 0
  {
    hide Intersect, NaturalHeight, Offset, Allocated;
  }

  lemma {:induction false} HStackArranges(c: Component, x: int, y: int, width: nat, height: Option<nat>, clip: Rect)
    requires c.HStack?
    ensures LaidOut(c, LayOut(c, x, y, width, height, clip), x, y, width, height)
    decreases c, 0
  {
    hide LayOut, LaidOut, Arranged, FitsContent, Intersect, InRow, Offset;
    var b := LayOut(c, x, y, width, height, clip);
    HStackBox(c, x, y, width, height, clip);
    forall i: nat | i < |c.entries| ensures Beside(c, b, i) {
      HStackChild(c, x, y, width, height, clip, i);
      var h := ChildHeight(c.align, b.rect.height, c.entries[i].natural);
      var childX, childY := x + Offset(c.entries, c.gap, i), ChildTop(c.align, y, b.rect.height, h);
      if c.entries[i].size != 0 {
        LayoutArranges(c.entries[i].component, childX, childY, c.entries[i].size, Some(h), b.clip);
      }
      BesideIs(c, b, i);
    }
    HStackLaidOut(c, b, x, y, width, height);
  }

  /** A stack's child is aligned at its offset. */
  ghost predicate Beside(c: Component, b: Box, i: nat)
    requires c.HStack? && i < |b.children| == |c.entries|
  {
    && b.children[i].rect.x == b.rect.x + Offset(c.entries, c.gap, i)
    && InRow(c.align, b, b.children[i], c.entries[i])
    && (c.entries[i].size > 0 ==> Arranged(c.entries[i].component, b.children[i]))
  }

  lemma BesideIs(c: Component, b: Box, i: nat)
    requires c.HStack? && i < |b.children| == |c.entries|
    requires var h := ChildHeight(c.align, b.rect.height, c.entries[i].natural);
      var childX, childY := b.rect.x + Offset(c.entries, c.gap, i), ChildTop(c.align, b.rect.y, b.rect.height, h);
      var child := b.children[i];
      if c.entries[i].size == 0 then child.rect == Rect(childX, childY, 0, h) && child.children == [] && !child.scrolls
      else LaidOut(c.entries[i].component, child, childX, childY, c.entries[i].size, Some(h))
    ensures Beside(c, b, i)
  {
    hide Arranged, Offset;
  }

  lemma HStackLaidOut(c: Component, b: Box, x: int, y: int, width: nat, height: Option<nat>)
    requires c.HStack? && |b.children| == |c.entries| && !b.scrolls && b.layer == 0
    requires b.rect == Rect(x, y, Max(1, width), Allocated(height, Tallest(c.entries)))
    requires forall i: nat :: i < |c.entries| ==> Beside(c, b, i)
    ensures LaidOut(c, b, x, y, width, height)
  {
    forall i: nat | i < |c.entries|
      ensures b.children[i].rect.x == b.rect.x + Offset(c.entries, c.gap, i)
      ensures InRow(c.align, b, b.children[i], c.entries[i])
      ensures c.entries[i].size > 0 ==> Arranged(c.entries[i].component, b.children[i]) {
      assert Beside(c, b, i);
      hide Arranged, Offset, InRow;
    }
    RowIs(c.entries, c.gap, c.align, b);
    if height.None? { RowFits(c, b); }
    hide Aligned, Offset, Beside, InRow, Tallest, FitsContent;
  }

  lemma RowFits(c: Component, b: Box)
    requires c.HStack? && b.rect.height == Tallest(c.entries)
    ensures FitsContent(c, b)
  {
    TallestIs(c.entries);
    hide Tallest;
  }

  /** Children put down side by side. */
  lemma RowIs(entries: seq<Entry>, gap: nat, align: Align, b: Box)
    requires |b.children| == |entries|
    requires forall i: nat :: i < |entries| ==>
      && b.children[i].rect.x == b.rect.x + Offset(entries, gap, i)
      && InRow(align, b, b.children[i], entries[i])
    ensures Aligned(entries, gap, align, b)
  {
  }

  lemma HStackBox(c: Component, x: int, y: int, width: nat, height: Option<nat>, clip: Rect)
    requires c.HStack?
    ensures var b := LayOut(c, x, y, width, height, clip);
      && b.rect == Rect(x, y, Max(1, width), Allocated(height, Tallest(c.entries)))
      && |b.children| == |c.entries| && !b.scrolls && b.layer == 0
  {
    hide Intersect, Tallest, Offset, Allocated, ChildHeight, ChildTop;
  }

  lemma {:induction false} TallestIs(entries: seq<Entry>)
    ensures forall i :: 0 <= i < |entries| ==> entries[i].natural <= Tallest(entries)
    ensures Tallest(entries) == 0 || exists i :: 0 <= i < |entries| && entries[i].natural == Tallest(entries)
    decreases |entries|
  {
    if entries != [] {
      var n := |entries| - 1;
      TallestIs(entries[..n]);
      assert forall i :: 0 <= i < n ==> entries[..n][i] == entries[i];
    }
  }
}
