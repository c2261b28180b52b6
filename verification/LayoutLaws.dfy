/** client/pane/wire.go and client/pane/place.go: what a layout's fields say, one leaf at a time,
    for every layout and not only for one that was written here. */
module LayoutLaws {
  import opened Options
  import opened PaneCodec

  // ---------------------------------------------------------------- projections

  /** The level a namespace starts at is the nearest, from level i down, with a grid of its own,
      or else the bottom. */
  lemma {:induction false} StartIsNearest(frames: seq<Frame>, i: nat)
    requires i < |frames|
    ensures var k := StartAt(frames, i);
            && (forall j :: k < j <= i ==> frames[j].content || frames[j].gridId == "")
            && (k == 0 || (!frames[k].content && frames[k].gridId != ""))
  {
    if (frames[i].content || frames[i].gridId == "") && i > 0 {
      StartIsNearest(frames, i - 1);
    }
  }

  lemma {:induction false} DoorsOfPath(frames: seq<Frame>, path: seq<string>, lo: nat, hi: nat)
    requires lo <= hi <= |frames| && hi - lo <= |path|
    requires forall i :: lo <= i < hi ==> !frames[i].content && frames[i].door == path[i - lo]
    ensures Doors(frames, lo, hi) == path[..hi - lo]
  {
    if lo < hi {
      DoorsOfPath(frames, path, lo, hi - 1);
    }
  }

  lemma FramesNamed(grid: string, path: seq<string>, content: string)
    ensures var frames, n := FramesAt(grid, path, content), |path|;
            && |frames| == n + 1 + (if content == "" then 0 else 1) && frames[0] == BLANK.(gridId := grid)
            && (forall i :: 0 < i <= n ==> frames[i] == BLANK.(door := path[i - 1]))
            && (content != "" ==> frames[n + 1] == BLANK.(door := content, content := true))
  {
  }

  /** Reading back what a root grid, a path of doors and a content name: exactly them. So the
      frames they name need no place of their own. */
  lemma ProjectionReadsBack(grid: string, path: seq<string>, content: string)
    ensures var frames := FramesAt(grid, path, content);
            && AnchorAt(frames, |frames| - 1) == grid && PathAt(frames, |frames| - 1) == path
            && ContentId(frames) == content && ProjectionHolds(frames)
  {
    hide FramesAt, StartAt, Doors;
    FramesNamed(grid, path, content);
    var frames := FramesAt(grid, path, content);
    var last, n := |frames| - 1, |path|;
    StartIsNearest(frames, last);
    assert StartAt(frames, last) == 0;
    DoorsOfPath(frames, path, 1, n + 1);
    assert path[..n] == path;
    if content != "" {
      ContentHasNoDoor(frames, 1, last + 1);
    }
  }

  lemma ContentHasNoDoor(frames: seq<Frame>, lo: nat, hi: nat)
    requires lo < hi <= |frames| && frames[hi - 1].content
    ensures Doors(frames, lo, hi) == Doors(frames, lo, hi - 1)
  {
  }

  /** A place is left out exactly when its projection says it all; anchor, path and content are
      written either way. */
  lemma PlaceIsWritten(p: Pane, rel: Rel, prefix: string)
    requires p.frames != [] && EncodeLeaf(p, rel, prefix).1
    ensures var lp, n := EncodeLeaf(p, rel, prefix).0, |p.frames|;
            && prefix + lp.id == (if prefix <= p.id then p.id else prefix + p.id)
            && (if AnchorAt(p.frames, n - 1) == "" then lp.anchor == "" else rel(AnchorAt(p.frames, n - 1)) == Some(lp.anchor))
            && |lp.path| == |PathAt(p.frames, n - 1)|
            && (forall i :: 0 <= i < |lp.path| ==> rel(PathAt(p.frames, n - 1)[i]) == Some(lp.path[i]))
            && (if ContentId(p.frames) == "" then lp.textFocus == "" else rel(ContentId(p.frames)) == Some(lp.textFocus))
            && (lp.place == [] <==> ProjectionHolds(p.frames))
            && (lp.place != [] ==> |lp.place| == n)
  {
    hide AnchorAt, PathAt, ContentId, ProjectionHolds, EncodeViews, LayoutTextOf;
    RelEach(PathAt(p.frames, |p.frames| - 1), rel);
    PlaceLength(p.frames, rel);
  }

  lemma {:induction false} RelEach(ids: seq<string>, rel: Rel)
    ensures RelIds(ids, rel).Some? <==> forall i :: 0 <= i < |ids| ==> rel(ids[i]).Some?
    ensures RelIds(ids, rel).Some? ==>
              |RelIds(ids, rel).value| == |ids| && forall i :: 0 <= i < |ids| ==> rel(ids[i]) == Some(RelIds(ids, rel).value[i])
  {
    if ids != [] {
      var k := |ids| - 1;
      RelEach(ids[..k], rel);
      if RelIds(ids, rel).Some? {
        assert forall i :: 0 <= i < k ==> ids[i] == ids[..k][i];
      } else if rel(ids[k]).Some? {
        var i :| 0 <= i < k && rel(ids[..k][i]).None?;
        assert ids[i] == ids[..k][i];
      }
    }
  }

  /** A frame whose ids the owner reaches. */
  predicate Reaches(f: Frame, rel: Rel)
  {
    (f.gridId == "" || rel(f.gridId).Some?) && (f.door == "" || rel(f.door).Some?)
  }

  lemma {:induction false} PlaceReaches(frames: seq<Frame>, rel: Rel)
    ensures EncodePlace(frames, rel).Some? <==> forall i :: 0 <= i < |frames| ==> Reaches(frames[i], rel)
  {
    if frames != [] {
      var k := |frames| - 1;
      PlaceReaches(frames[..k], rel);
      if EncodePlace(frames[..k], rel).None? {
        var i :| 0 <= i < k && !Reaches(frames[..k][i], rel);
        assert frames[i] == frames[..k][i];
      } else {
        assert forall i :: 0 <= i < k ==> frames[i] == frames[..k][i];
      }
    }
  }

  /** A leaf is written home exactly when an id of its place, or a step of its path, is out of
      the owner's reach. */
  lemma SkippedWhen(p: Pane, rel: Rel, prefix: string)
    requires p.frames != []
    ensures EncodeLeaf(p, rel, prefix).1 <==>
              && (forall i :: 0 <= i < |p.frames| ==> Reaches(p.frames[i], rel))
              && (forall id :: id in PathAt(p.frames, |p.frames| - 1) ==> rel(id).Some?)
    ensures !EncodeLeaf(p, rel, prefix).1 ==>
              EncodeLeaf(p, rel, prefix).0 == LayoutPane(TrimPrefix(p.id, prefix), "", [], "", [], [], None)
  {
    hide EncodeViews, LayoutTextOf, AnchorAt, PathAt, ContentId, TrimPrefix, ProjectionHolds, EncodePlace, RelIds, RelId, Reaches;
    var frames, n := p.frames, |p.frames|;
    var path := PathAt(frames, n - 1);
    RelEach(path, rel);
    PlaceReaches(frames, rel);
    EndsReach(frames, rel);
    if ProjectionHolds(frames) && EncodeLeaf(p, rel, prefix).1 {
      ProjectionReaches(frames, rel);
    }
  }

  lemma EndsReach(frames: seq<Frame>, rel: Rel)
    requires frames != []
    ensures (forall i :: 0 <= i < |frames| ==> Reaches(frames[i], rel)) ==>
              RelId(AnchorAt(frames, |frames| - 1), rel).Some? && RelId(ContentId(frames), rel).Some?
  {
    if forall i :: 0 <= i < |frames| ==> Reaches(frames[i], rel) {
      assert Reaches(frames[StartAt(frames, |frames| - 1)], rel) && Reaches(frames[|frames| - 1], rel);
    }
  }

  lemma ProjectionReaches(frames: seq<Frame>, rel: Rel)
    requires frames != [] && ProjectionHolds(frames)
    requires RelId(AnchorAt(frames, |frames| - 1), rel).Some? && RelId(ContentId(frames), rel).Some?
    requires forall id :: id in PathAt(frames, |frames| - 1) ==> rel(id).Some?
    ensures forall i :: 0 <= i < |frames| ==> Reaches(frames[i], rel)
  {
    hide AnchorAt, PathAt, ContentId, RelId, Reaches;
    var path := PathAt(frames, |frames| - 1);
    forall i | 0 <= i < |frames| ensures Reaches(frames[i], rel) {
      ProjectedReaches(frames, path, rel, i);
    }
  }

  lemma ProjectedReaches(frames: seq<Frame>, path: seq<string>, rel: Rel, i: nat)
    requires frames != [] && i < |frames|
    requires SamePlaces(frames, FramesAt(AnchorAt(frames, |frames| - 1), path, ContentId(frames)))
    requires RelId(AnchorAt(frames, |frames| - 1), rel).Some? && RelId(ContentId(frames), rel).Some?
    requires forall j :: 0 <= j < |path| ==> rel(path[j]).Some?
    ensures Reaches(frames[i], rel)
  {
    hide AnchorAt, ContentId;
    var rebuilt := FramesAt(AnchorAt(frames, |frames| - 1), path, ContentId(frames));
    assert SamePlace(frames[i], rebuilt[i]);
    if 0 < i <= |path| {
      assert rebuilt[i] == BLANK.(door := path[i - 1]);
    }
  }

  /** The leaves skipped are exactly those written home, in order. */
  lemma {:induction false} SkippedNames(n: Node, rel: Rel, prefix: string)
    requires Framed(n)
    ensures forall id :: id in Skipped(n, rel, prefix) <==>
              exists p :: p in Leaves(n) && p.frames != [] && p.id == id && !EncodeLeaf(p, rel, prefix).1
  {
    hide EncodeLeaf;
    match n
    case Leaf(p) =>
      assert p in Leaves(n);
      assert forall q :: q in Leaves(n) ==> q == p;
    case Inner(_, _, a, b) =>
      FramedParts(n);
      SkippedNames(a, rel, prefix);
      SkippedNames(b, rel, prefix);
      SkippedOf(n, rel, prefix);
  }

  lemma SkippedOf(n: Node, rel: Rel, prefix: string)
    requires n.Inner? && Framed(n) && Framed(n.a) && Framed(n.b)
    ensures forall id :: id in Skipped(n, rel, prefix) <==> id in Skipped(n.a, rel, prefix) || id in Skipped(n.b, rel, prefix)
    ensures forall p :: p in Leaves(n) <==> p in Leaves(n.a) || p in Leaves(n.b)
  {
  }

  // ---------------------------------------------------------------- any layout

  /** The same tree, each ratio the nearest there is between none and all. */
  ghost predicate Mirrors(n: LayoutNode, m: Node, abs: Abs, prefix: string)
  {
    if m.Leaf? then n.pane.Some? && m.pane == DecodeLeaf(n.pane.value, abs, prefix)
    else
      n.split.Some? &&
      var s := n.split.value;
      && m.dir == s.dir && 0.0 <= m.ratio <= 1.0
      && (0.0 <= s.ratio <= 1.0 ==> m.ratio == s.ratio) && (s.ratio < 0.0 ==> m.ratio == 0.0) && (s.ratio > 1.0 ==> m.ratio == 1.0)
      && Mirrors(s.a, m.a, abs, prefix) && Mirrors(s.b, m.b, abs, prefix)
  }

  lemma {:induction false} DecodeMirrors(n: LayoutNode, abs: Abs, prefix: string)
    requires DecodeNode(n, abs, prefix).Ok?
    ensures Mirrors(n, DecodeNode(n, abs, prefix).value, abs, prefix)
    decreases n
  {
    hide DecodeLeaf;
    if n.pane.None? && n.split.Some? {
      DecodeMirrors(n.split.value.a, abs, prefix);
      DecodeMirrors(n.split.value.b, abs, prefix);
    }
  }

  /** Decoding is loose on arrangement: an unknown focus falls to the first leaf, an unknown zoom
      to none, and each node is the layout's with its ratio clamped. */
  lemma DecodeRepairs(l: Layout, abs: Abs, prefix: string)
    requires Decode(l, abs, prefix).Ok?
    ensures var t := Decode(l, abs, prefix).value;
            var panes := Leaves(t.root);
            && Mirrors(l.root, t.root, abs, prefix) && t.prefix == prefix
            && t.focus in IdsOf(panes) && (t.zoomed == "" || t.zoomed in IdsOf(panes))
            && t.focus == (if exists p :: p in panes && p.id == prefix + l.focus then prefix + l.focus else panes[0].id)
            && t.zoomed == (if l.zoomed != "" && exists p :: p in panes && p.id == prefix + l.zoomed then prefix + l.zoomed else "")
  {
    hide DecodeNode, MaxNum, BadId, Mirrors, Leaves;
    DecodeMirrors(l.root, abs, prefix);
    var panes := Leaves(Decode(l, abs, prefix).value.root);
    assert panes[0] in panes;
  }

  /** A leaf's frames: from its place level by level, or from its projection; views only when one
      is recorded, or none, for every level, and then on grids alone and only framings; a scroll
      only under a content top; and a top without a view at the origin, waiting. */
  lemma LeafReads(lp: LayoutPane, abs: Abs, prefix: string)
    ensures var p, r := DecodePlace(lp, abs), DecodeLeaf(lp, abs, prefix).frames;
            var seen := |lp.views| == |p|;
            && SamePlaces(p, r)
            && (forall i :: 0 <= i < |r| ==>
                  if seen && lp.views[i].Some? && !p[i].content && lp.views[i].value.zoom > 0.0 then
                    r[i].view == r[i].settled == lp.views[i] && !r[i].pending
                  else r[i].settled.None? && if i < |r| - 1 then r[i].view.None? else r[i].view == Some(Framing(0.0, 0.0, 1.0)) && r[i].pending)
            && (if lp.text.Some? && Top(p).content then
                  Top(r).ownScroll && Top(r).scrollX == lp.text.value.x && Top(r).scrollY == lp.text.value.y
                else !Top(r).ownScroll)
  {
    BlankPlace(lp, abs);
    hide DecodePlace;
  }

  lemma BlankPlace(lp: LayoutPane, abs: Abs)
    ensures forall i :: 0 <= i < |DecodePlace(lp, abs)| ==>
              var f := DecodePlace(lp, abs)[i];
              f == BLANK.(gridId := f.gridId, door := f.door, content := f.content)
  {
  }

  /** Each level's ids are the owner's as the reader reaches them, an absent one absent. */
  lemma PlaceReads(lp: LayoutPane, abs: Abs, i: nat)
    ensures var p := DecodePlace(lp, abs);
            if lp.place != [] then
              |p| == |lp.place| &&
              (i < |p| ==>
                && p[i].content == lp.place[i].content
                && p[i].gridId == (if lp.place[i].gridId == "" then "" else abs(lp.place[i].gridId))
                && p[i].door == (if lp.place[i].door == "" then "" else abs(lp.place[i].door)))
            else
              && |p| == 1 + |lp.path| + (if lp.textFocus == "" || abs(lp.textFocus) == "" then 0 else 1)
              && p[0].gridId == (if lp.anchor == "" then "" else abs(lp.anchor)) && p[0].door == "" && !p[0].content
              && (0 < i <= |lp.path| ==> p[i].gridId == "" && p[i].door == abs(lp.path[i - 1]) && !p[i].content)
              && (|lp.path| < i < |p| ==> p[i].gridId == "" && p[i].door == abs(lp.textFocus) && p[i].content)
  {
  }

  // ---------------------------------------------------------------- a row's view

  /** A top that waits settles on its row's view, remembers it as the row's, and takes the row's
      scroll unless it has one of its own; a top that does not wait, and a row with no view,
      change nothing. */
  lemma AdoptSettles(frames: seq<Frame>, v: Frame)
    requires frames != []
    ensures var r, was := Adopted(frames, v), Top(frames);
            && |r| == |frames| && (forall i :: 0 <= i < |frames| - 1 ==> r[i] == frames[i])
            && (was.pending && v.view.Some? ==>
                  && Top(r).view == Top(r).adopted == Top(r).settled == v.view && !Top(r).pending && Top(r).textMode == v.textMode
                  && (if was.ownScroll then Top(r).scrollX == was.scrollX && Top(r).scrollY == was.scrollY
                      else Top(r).scrollX == v.scrollX && Top(r).scrollY == v.scrollY)
                  && SamePlace(Top(r), was) && Top(r).ownScroll == was.ownScroll)
            && (!was.pending || v.view.None? ==> r == frames)
  {
  }
}
