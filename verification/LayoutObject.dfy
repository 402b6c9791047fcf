/** Layout boxes as the mutable tree they are: translated and re-clipped in place. */
module LayoutObject {
  import opened Layout

  lemma TranslatedAll(b: Box, c: Box, dy: int)
    requires c.rect == Moved(b.rect, dy) && c.clip == b.clip && c.scrolls == b.scrolls && c.layer == b.layer
    requires |c.children| == |b.children|
    requires forall k :: 0 <= k < |b.children| ==> c.children[k] == Translate(b.children[k], dy)
    ensures c == Translate(b, dy)
  {
    assert c.children == Translate(b, dy).children;
  }

  lemma ReclippedAll(b: Box, c: Box, clip: Rect)
    requires c.rect == b.rect && c.clip == Intersect(clip, b.rect) && c.scrolls == b.scrolls && c.layer == b.layer
    requires |c.children| == |b.children|
    requires forall k :: 0 <= k < |b.children| ==> c.children[k] == UpdateClips(b.children[k], c.clip)
    ensures c == UpdateClips(b, clip)
  {
    assert c.children == UpdateClips(b, clip).children;
  }

  class LayoutBox {
    var rect: Rect
    var clip: Rect
    var children: seq<LayoutBox>
    const scrolls: bool
    const layer: int
    ghost var Repr: set<LayoutBox>

    /** A tree: no box is shared. */
    ghost predicate Valid()
      reads this, Repr
      decreases Repr
    {
      && this in Repr
      && (forall i :: 0 <= i < |children| ==>
            && children[i] in Repr && children[i].Repr < Repr && this !in children[i].Repr
            && children[i].Valid())
      && (forall i, j :: 0 <= i < j < |children| ==> children[i].Repr !! children[j].Repr)
    }

    ghost function View(): Box
      requires Valid()
      reads this, Repr
      decreases Repr
    {
      Box(rect, clip,
          seq(|children|, i requires 0 <= i < |children| && Valid() reads this, Repr => children[i].View()),
          scrolls, layer)
    }

    constructor (rect: Rect, clip: Rect, children: seq<LayoutBox>, scrolls: bool, layer: int)
      requires forall i :: 0 <= i < |children| ==> children[i].Valid()
      requires forall i, j :: 0 <= i < j < |children| ==> children[i].Repr !! children[j].Repr
      ensures Valid() && this.rect == rect && this.clip == clip && this.children == children &&
        this.scrolls == scrolls && this.layer == layer
      ensures forall b :: b in Repr <==> b == this || exists i :: 0 <= i < |children| && b in children[i].Repr
    {
      this.rect, this.clip, this.children, this.scrolls, this.layer := rect, clip, children, scrolls, layer;
      Repr := {this} + (set i, b | 0 <= i < |children| && b in children[i].Repr :: b);
    }

    /** Scrolling moves the whole subtree. */
    method TranslateBox(deltaY: int)
      requires Valid()
      modifies Repr
      ensures Valid() && Repr == old(Repr) && View() == Translate(old(View()), deltaY)
      decreases Repr
    {
      hide Translate, Moved;
      rect := Moved(rect, deltaY);
      var i := 0;
      while i < |children|
        invariant 0 <= i <= |children| && children == old(children) && Repr == old(Repr)
        invariant rect == Moved(old(rect), deltaY) && clip == old(clip)
        invariant forall k :: 0 <= k < |children| ==> children[k].Valid() && children[k].Repr == old(children[k].Repr)
        invariant forall k :: 0 <= k < i ==> children[k].View() == Translate(old(children[k].View()), deltaY)
        invariant forall k :: i <= k < |children| ==> children[k].View() == old(children[k].View())
      {
        children[i].TranslateBox(deltaY);
        i := i + 1;
      }
      TranslatedAll(old(View()), View(), deltaY);
    }

    /** Every clip below is recomputed from the one above, whatever it was. */
    method UpdateClipsBelow(parentClip: Rect)
      requires Valid()
      modifies Repr
      ensures Valid() && Repr == old(Repr) && View() == UpdateClips(old(View()), parentClip)
      ensures ClipsOk(View(), parentClip)
      decreases Repr
    {
      hide UpdateClips, Intersect, ClipsOk;
      clip := Intersect(parentClip, rect);
      var i := 0;
      while i < |children|
        invariant 0 <= i <= |children| && children == old(children) && Repr == old(Repr)
        invariant rect == old(rect) && clip == Intersect(parentClip, old(rect))
        invariant forall k :: 0 <= k < |children| ==> children[k].Valid() && children[k].Repr == old(children[k].Repr)
        invariant forall k :: 0 <= k < i ==> children[k].View() == UpdateClips(old(children[k].View()), clip)
        invariant forall k :: i <= k < |children| ==> children[k].View() == old(children[k].View())
      {
        children[i].UpdateClipsBelow(clip);
        i := i + 1;
      }
      ReclippedAll(old(View()), View(), parentClip);
      UpdatedClips(old(View()), parentClip);
    }
  }
}
