/** client/pane/wire.go and client/pane/place.go: a pane's place as a stack of frames, and the
    persisted form of a pane tree. The JSON bytes around the wire form are not part of this
    model; lengths and ratios are reals. */
module PaneCodec {
  import opened Numerals
  import opened Options

  // ---------------------------------------------------------------- frames

  datatype Framing = Framing(cx: real, cy: real, zoom: real)

  type View = Option<Framing>

  datatype Frame = Frame(gridId: string, door: string, content: bool, view: View, textMode: string,
    scrollX: real, scrollY: real, pending: bool, settled: View, adopted: View, ownScroll: bool)

  const BLANK: Frame := Frame("", "", false, None, "", 0.0, 0.0, false, None, None, false)
  const ORIGIN: Framing := Framing(0.0, 0.0, 1.0)

  /** A framing is refused when its zoom is not a size. */
  predicate IsFraming(f: Framing)
  {
    f.zoom > 0.0
  }

  predicate HasView(f: Frame)
  {
    f.view.Some? && !f.pending
  }

  /** The viewport the blob keeps for a frame. */
  function LayoutViewOf(f: Frame): View
  {
    if f.content || !HasView(f) || f.view == f.adopted then None else f.view
  }

  datatype LayoutText = LayoutText(x: real, y: real)

  /** The scroll the blob keeps for a leaf. */
  function LayoutTextOf(top: Frame): Option<LayoutText>
  {
    if !top.content || !top.ownScroll then None else Some(LayoutText(top.scrollX, top.scrollY))
  }

  predicate SamePlace(a: Frame, b: Frame)
  {
    a.gridId == b.gridId && a.door == b.door && a.content == b.content
  }

  predicate SamePlaces(a: seq<Frame>, b: seq<Frame>)
  {
    |a| == |b| && forall i :: 0 <= i < |a| ==> SamePlace(a[i], b[i])
  }

  // ---------------------------------------------------------------- places

  /** The frame a level's namespace starts at. */
  function StartAt(frames: seq<Frame>, i: nat): (start: nat)
    requires i < |frames|
    ensures start <= i
  {
    if !frames[i].content && frames[i].gridId != "" then i
    else if i == 0 then 0 else StartAt(frames, i - 1)
  }

  /** The doors of the levels lo to hi that are not contents. */
  function Doors(frames: seq<Frame>, lo: nat, hi: nat): seq<string>
    requires lo <= hi <= |frames|
    decreases hi - lo
  {
    if lo == hi then []
    else Doors(frames, lo, hi - 1) + if frames[hi - 1].content then [] else [frames[hi - 1].door]
  }

  function AnchorAt(frames: seq<Frame>, i: nat): string
    requires i < |frames|
  {
    frames[StartAt(frames, i)].gridId
  }

  function PathAt(frames: seq<Frame>, i: nat): seq<string>
    requires i < |frames|
  {
    Doors(frames, StartAt(frames, i) + 1, i + 1)
  }

  function Top(frames: seq<Frame>): Frame
    requires frames != []
  {
    frames[|frames| - 1]
  }

  function ContentId(frames: seq<Frame>): string
    requires frames != []
  {
    if Top(frames).content then Top(frames).door else ""
  }

  function DoorFrames(path: seq<string>): seq<Frame>
  {
    seq(|path|, i requires 0 <= i < |path| => BLANK.(door := path[i]))
  }

  /** The frames a root grid, a path of doors and a content name. */
  function FramesAt(grid: string, path: seq<string>, content: string): (frames: seq<Frame>)
    ensures frames != []
  {
    [BLANK.(gridId := grid)] + DoorFrames(path) +
    if content == "" then [] else [BLANK.(door := content, content := true)]
  }

  /** Anchor, path and content name the whole stack. */
  predicate ProjectionHolds(frames: seq<Frame>)
    requires frames != []
  {
    SamePlaces(frames,
      FramesAt(AnchorAt(frames, |frames| - 1), PathAt(frames, |frames| - 1), ContentId(frames)))
  }

  /** A pending top settled on its row's view, keeping a scroll of its own. */
  function Adopted(frames: seq<Frame>, v: Frame): seq<Frame>
    requires frames != []
  {
    var top := Top(frames);
    if !top.pending || v.view.None? then frames
    else
      var seen := top.(view := v.view, adopted := v.view, settled := v.view, textMode := v.textMode, pending := false);
      frames[|frames| - 1 := if top.ownScroll then seen else seen.(scrollX := v.scrollX, scrollY := v.scrollY)]
  }

  /** A pane's place: the top frame apart, and the frames below it, bottom first. */
  class Stack {
    var top: Frame
    var below: seq<Frame>

    ghost function Frames(): (frames: seq<Frame>)
      reads this
      ensures frames != []
    {
      below + [top]
    }

    constructor (f: Frame)
      ensures Frames() == [f]
    {
      top, below := f, [];
    }

    method Push(f: Frame)
      modifies this
      ensures Frames() == old(Frames()) + [f]
    {
      below := below + [top];
      top := f;
    }

    /** Ascends one level, refused at the bottom. */
    method Pop() returns (ok: bool)
      modifies this
      ensures ok == (|old(Frames())| > 1)
      ensures Frames() == if ok then old(Frames())[..|old(Frames())| - 1] else old(Frames())
    {
      if |below| == 0 {
        return false;
      }
      ghost var was := Frames();
      top := below[|below| - 1];
      below := below[..|below| - 1];
      assert was[..|was| - 1] == below + [top];
      return true;
    }

    method Reset(f: Frame)
      modifies this
      ensures Frames() == [f]
    {
      below := [];
      top := f;
    }

    method Adopt(v: Frame) returns (ok: bool)
      modifies this
      ensures Frames() == Adopted(old(Frames()), v)
      ensures ok == (old(top).pending && v.view.Some?)
    {
      ghost var was := Frames();
      assert Top(was) == top;
      if !top.pending {
        return false;
      }
      if v.view.None? {
        return false;
      }
      top := top.(view := v.view, adopted := v.view, settled := v.view, textMode := v.textMode);
      if !top.ownScroll {
        top := top.(scrollX := v.scrollX, scrollY := v.scrollY);
      }
      top := top.(pending := false);
      assert Frames() == was[|was| - 1 := top];
      return true;
    }

    /** The user's own pan or zoom. */
    method Steer(v: Framing) returns (ok: bool)
      modifies this`top
      ensures ok == IsFraming(v)
      ensures top == if ok then old(top).(view := Some(v)) else old(top)
    {
      if !IsFraming(v) {
        return false;
      }
      top := top.(view := Some(v));
      return true;
    }

    /** A content's scroll, held at the top, and the layout's own once it moves. */
    method ScrollText(x: real, y: real) returns (moved: bool)
      modifies this`top
      ensures var cx, cy := if x > 0.0 then x else 0.0, if y > 0.0 then y else 0.0;
              && moved == !(cx == old(top).scrollX && cy == old(top).scrollY)
              && top == if moved then old(top).(scrollX := cx, scrollY := cy, ownScroll := true) else old(top)
    {
      var cx, cy := if x > 0.0 then x else 0.0, if y > 0.0 then y else 0.0;
      if cx == top.scrollX && cy == top.scrollY {
        return false;
      }
      top := top.(scrollX := cx, scrollY := cy, ownScroll := true);
      return true;
    }

    /** Anchor and path as of a level, levels past the top read as the top. */
    method AnchorPathAt(level: int) returns (anchor: string, path: seq<string>)
      ensures level < 0 ==> anchor == "" && path == []
      ensures level >= 0 ==>
                var i := if level > |Frames()| - 1 then |Frames()| - 1 else level;
                anchor == AnchorAt(Frames(), i) && path == PathAt(Frames(), i)
    {
      if level < 0 {
        return "", [];
      }
      var frames := below + [top];
      var i := level;
      if i > |frames| - 1 {
        i := |frames| - 1;
      }
      var start, k := 0, i;
      while k >= 0
        invariant -1 <= k <= i
        invariant start == 0 && StartAt(frames, i) == if k < 0 then 0 else StartAt(frames, k)
      {
        if !frames[k].content && frames[k].gridId != "" {
          start := k;
          break;
        }
        k := k - 1;
      }
      anchor := frames[start].gridId;
      path := [];
      k := start + 1;
      while k <= i
        invariant start + 1 <= k <= i + 1
        invariant path == Doors(frames, start + 1, k)
      {
        if !frames[k].content {
          path := path + [frames[k].door];
        }
        k := k + 1;
      }
    }
  }

  /** The stack of these frames, pushed one by one. */
  method StackOf(frames: seq<Frame>) returns (s: Stack)
    ensures fresh(s) && s.Frames() == if frames == [] then [BLANK] else frames
  {
    if |frames| == 0 {
      s := new Stack(BLANK);
      return;
    }
    s := new Stack(frames[0]);
    var k := 1;
    while k < |frames|
      invariant 1 <= k <= |frames| && fresh(s) && s.Frames() == frames[..k]
    {
      s.Push(frames[k]);
      k := k + 1;
    }
  }

  /** The stack a restored place names. */
  method StackAt(grid: string, path: seq<string>, content: string) returns (s: Stack)
    ensures fresh(s) && s.Frames() == FramesAt(grid, path, content)
  {
    s := new Stack(BLANK.(gridId := grid));
    var k := 0;
    while k < |path|
      invariant 0 <= k <= |path| && fresh(s)
      invariant s.Frames() == [BLANK.(gridId := grid)] + DoorFrames(path)[..k]
    {
      s.Push(BLANK.(door := path[k]));
      k := k + 1;
    }
    if content != "" {
      s.Push(BLANK.(door := content, content := true));
    }
  }

  // ---------------------------------------------------------------- the wire form

  datatype LayoutFrame = LayoutFrame(door: string, gridId: string, content: bool)

  datatype LayoutPane = LayoutPane(id: string, anchor: string, path: seq<string>, textFocus: string,
    place: seq<LayoutFrame>, views: seq<View>, text: Option<LayoutText>)

  /** As read from a blob, a node may hold both a pane and a split, or neither. */
  datatype LayoutNode = LayoutNode(pane: Option<LayoutPane>, split: Option<LayoutSplit>)

  datatype LayoutSplit = LayoutSplit(dir: string, ratio: real, a: LayoutNode, b: LayoutNode)

  datatype Layout = Layout(v: int, root: LayoutNode, focus: string, zoomed: string)

  const VERSION := 1

  datatype Pane = Pane(id: string, frames: seq<Frame>)

  datatype Node = Leaf(pane: Pane) | Inner(dir: string, ratio: real, a: Node, b: Node)

  datatype Tree = Tree(root: Node, focus: string, zoomed: string, nextId: int, prefix: string)

  datatype Error = BadVersion(v: int) | BothPaneAndSplit | NeitherPaneNorSplit | BadDir(dir: string)
    | EmptyId | DuplicateId(id: string)

  datatype Result<T> = Ok(value: T) | Err(error: Error)

  function Leaves(n: Node): (panes: seq<Pane>)
    ensures panes != []
  {
    match n
    case Leaf(p) => [p]
    case Inner(_, _, a, b) => Leaves(a) + Leaves(b)
  }

  function TrimPrefix(s: string, prefix: string): string
  {
    if prefix <= s then s[|prefix|..] else s
  }

  // ---------------------------------------------------------------- encoding

  /** A client id in the owning node's frame, none for one outside its reach. */
  type Rel = string -> Option<string>

  /** An owner's id as the reader reaches it. */
  type Abs = string -> string

  function RelIds(ids: seq<string>, rel: Rel): Option<seq<string>>
  {
    if ids == [] then Some([])
    else
      var rest, last := RelIds(ids[..|ids| - 1], rel), rel(ids[|ids| - 1]);
      if rest.None? || last.None? then None else Some(rest.value + [last.value])
  }

  /** An id that may be absent. */
  function RelId(id: string, rel: Rel): Option<string>
  {
    if id == "" then Some("") else rel(id)
  }

  function EncodePlace(frames: seq<Frame>, rel: Rel): Option<seq<LayoutFrame>>
  {
    if frames == [] then Some([])
    else
      var f := frames[|frames| - 1];
      var rest, g, d := EncodePlace(frames[..|frames| - 1], rel), RelId(f.gridId, rel), RelId(f.door, rel);
      if rest.None? || g.None? || d.None? then None
      else Some(rest.value + [LayoutFrame(d.value, g.value, f.content)])
  }

  function ViewsOf(frames: seq<Frame>): seq<View>
  {
    seq(|frames|, i requires 0 <= i < |frames| => LayoutViewOf(frames[i]))
  }

  /** None at all when no frame has one. */
  function EncodeViews(frames: seq<Frame>): seq<View>
  {
    if forall i :: 0 <= i < |frames| ==> LayoutViewOf(frames[i]).None? then [] else ViewsOf(frames)
  }

  /** A leaf's place in the owner's frame, or home when an id of it is outside. */
  function EncodeLeaf(p: Pane, rel: Rel, prefix: string): (LayoutPane, bool)
    requires p.frames != []
  {
    var bare, n := TrimPrefix(p.id, prefix), |p.frames|;
    var home := LayoutPane(bare, "", [], "", [], [], None);
    var place := if ProjectionHolds(p.frames) then Some([]) else EncodePlace(p.frames, rel);
    var anchor := RelId(AnchorAt(p.frames, n - 1), rel);
    var path := RelIds(PathAt(p.frames, n - 1), rel);
    var text := RelId(ContentId(p.frames), rel);
    if place.None? || anchor.None? || path.None? || text.None? then (home, false)
    else
      (LayoutPane(bare, anchor.value, path.value, text.value, place.value,
         EncodeViews(p.frames), LayoutTextOf(Top(p.frames))), true)
  }

  ghost predicate Framed(n: Node)
  {
    forall p :: p in Leaves(n) ==> p.frames != []
  }

  function EncodeNode(n: Node, rel: Rel, prefix: string): LayoutNode
    requires Framed(n)
  {
    match n
    case Leaf(p) =>
      assert p in Leaves(n);
      LayoutNode(Some(EncodeLeaf(p, rel, prefix).0), None)
    case Inner(dir, ratio, a, b) =>
      FramedParts(n);
      LayoutNode(None, Some(LayoutSplit(dir, ratio, EncodeNode(a, rel, prefix), EncodeNode(b, rel, prefix))))
  }

  lemma FramedParts(n: Node)
    requires n.Inner? && Framed(n)
    ensures Framed(n.a) && Framed(n.b)
  {
    forall p | p in Leaves(n.a) ensures p.frames != [] { assert p in Leaves(n); }
    forall p | p in Leaves(n.b) ensures p.frames != [] { assert p in Leaves(n); }
  }

  /** The leaves that look outside the owner's reach. */
  function Skipped(n: Node, rel: Rel, prefix: string): seq<string>
    requires Framed(n)
  {
    match n
    case Leaf(p) =>
      assert p in Leaves(n);
      if EncodeLeaf(p, rel, prefix).1 then [] else [p.id]
    case Inner(_, _, a, b) =>
      FramedParts(n);
      Skipped(a, rel, prefix) + Skipped(b, rel, prefix)
  }

  function Encode(t: Tree, rel: Rel): Layout
    requires Framed(t.root)
  {
    Layout(VERSION, EncodeNode(t.root, rel, t.prefix), TrimPrefix(t.focus, t.prefix), TrimPrefix(t.zoomed, t.prefix))
  }

  // ---------------------------------------------------------------- decoding

  function AbsId(id: string, abs: Abs): string
  {
    if id == "" then "" else abs(id)
  }

  /** A leaf's frames from its place, or else from the projection. */
  function DecodePlace(lp: LayoutPane, abs: Abs): (frames: seq<Frame>)
    ensures frames != []
  {
    if |lp.place| > 0 then
      seq(|lp.place|, i requires 0 <= i < |lp.place| =>
        BLANK.(gridId := AbsId(lp.place[i].gridId, abs), door := AbsId(lp.place[i].door, abs), content := lp.place[i].content))
    else
      FramesAt(AbsId(lp.anchor, abs), seq(|lp.path|, i requires 0 <= i < |lp.path| => abs(lp.path[i])), AbsId(lp.textFocus, abs))
  }

  /** A frame with a recorded view; one that is no framing is refused. */
  function Viewed(f: Frame, v: View): Frame
  {
    if v.Some? && !f.content && IsFraming(v.value) then f.(view := v, settled := v) else f
  }

  function WithViews(frames: seq<Frame>, views: seq<View>): (r: seq<Frame>)
    ensures |r| == |frames|
  {
    if |views| == |frames| then seq(|frames|, i requires 0 <= i < |frames| => Viewed(frames[i], views[i])) else frames
  }

  function WithText(top: Frame, text: Option<LayoutText>): Frame
  {
    if text.Some? && top.content then top.(scrollX := text.value.x, scrollY := text.value.y, ownScroll := true) else top
  }

  /** A top with no view waits at the origin for its row's. */
  function Awaiting(top: Frame): Frame
  {
    if top.view.None? then top.(view := Some(ORIGIN), pending := true) else top
  }

  function DecodeLeaf(lp: LayoutPane, abs: Abs, prefix: string): Pane
  {
    var frames := WithViews(DecodePlace(lp, abs), lp.views);
    var last := |frames| - 1;
    Pane(prefix + lp.id, frames[last := Awaiting(WithText(frames[last], lp.text))])
  }

  function Clamp01(x: real): real
  {
    var y := if x > 0.0 then x else 0.0;
    if y < 1.0 then y else 1.0
  }

  function DecodeNode(n: LayoutNode, abs: Abs, prefix: string): Result<Node>
  {
    if n.pane.Some? && n.split.Some? then Err(BothPaneAndSplit)
    else if n.pane.Some? then Ok(Leaf(DecodeLeaf(n.pane.value, abs, prefix)))
    else if n.split.Some? then
      var s := n.split.value;
      if s.dir != "h" && s.dir != "v" then Err(BadDir(s.dir))
      else
        var a := DecodeNode(s.a, abs, prefix);
        if a.Err? then a
        else
          var b := DecodeNode(s.b, abs, prefix);
          if b.Err? then b else Ok(Inner(s.dir, Clamp01(s.ratio), a.value, b.value))
    else Err(NeitherPaneNorSplit)
  }

  // ---------------------------------------------------------------- pane ids

  /** The number of a pane id of the form the tree mints. */
  function PaneIdNum(id: string): Option<nat>
  {
    if id == [] || id[0] != 'p' then None
    else
      var n := Atoi(id[1..]);
      if n.None? || n.value < 0 then None else Some(n.value)
  }

  function MintId(prefix: string, n: nat): string
  {
    prefix + ("p" + Itoa(n))
  }

  /** A number within the machine's width is read back as written. */
  lemma MintedNum(n: nat)
    requires n <= MAX_INT
    ensures PaneIdNum("p" + Itoa(n)) == Some(n)
  {
    ItoaValue(n);
    var id := "p" + Itoa(n);
    assert id[1..] == Itoa(n);
    assert IsDigit(Itoa(n)[0]);
  }

  /** Ids minted under one prefix differ as their numbers do. */
  lemma MintIsNumber(prefix: string, n: nat)
    ensures MintId(prefix, n)[|prefix|..] == "p" + Itoa(n) && ("p" + Itoa(n))[1..] == Itoa(n) && Value(Itoa(n)) == n
  {
    ItoaValue(n);
  }

  function MaxNum(panes: seq<Pane>, prefix: string): nat
  {
    if panes == [] then 0
    else
      var rest, n := MaxNum(panes[..|panes| - 1], prefix), PaneIdNum(TrimPrefix(panes[|panes| - 1].id, prefix));
      if n.Some? && n.value > rest then n.value else rest
  }

  function IdsOf(panes: seq<Pane>): set<string>
  {
    set p | p in panes :: p.id
  }

  /** The first leaf in order with no id, or an id already met. */
  function BadId(panes: seq<Pane>): Option<Error>
  {
    if panes == [] then None
    else
      var before, id := panes[..|panes| - 1], panes[|panes| - 1].id;
      var bad := BadId(before);
      if bad.Some? then bad
      else if id == "" then Some(EmptyId)
      else if id in IdsOf(before) then Some(DuplicateId(id))
      else None
  }

  function Decode(l: Layout, abs: Abs, prefix: string): Result<Tree>
  {
    if l.v != VERSION then Err(BadVersion(l.v))
    else
      var root := DecodeNode(l.root, abs, prefix);
      if root.Err? then Err(root.error)
      else
        var panes := Leaves(root.value);
        if BadId(panes).Some? then Err(BadId(panes).value)
        else
          Ok(Tree(root.value,
            if prefix + l.focus in IdsOf(panes) then prefix + l.focus else panes[0].id,
            if l.zoomed != "" && prefix + l.zoomed in IdsOf(panes) then prefix + l.zoomed else "",
            MaxNum(panes, prefix), prefix))
  }

  /** Parses a layout back into a tree, walking its leaves once. */
  method DecodeLayout(l: Layout, abs: Abs, prefix: string) returns (res: Result<Tree>)
    ensures res == Decode(l, abs, prefix)
  {
    hide DecodeNode, MaxNum, IdsOf, BadId, TrimPrefix, PaneIdNum;
    if l.v != VERSION {
      return Err(BadVersion(l.v));
    }
    var root := DecodeNode(l.root, abs, prefix);
    if root.Err? {
      return Err(root.error);
    }
    var panes := Leaves(root.value);
    var seen: set<string> := {};
    var maxN: nat, first := 0, "";
    var k := 0;
    NothingWalked(panes, prefix);
    while k < |panes|
      invariant 0 <= k <= |panes|
      invariant seen == IdsOf(panes[..k]) && maxN == MaxNum(panes[..k], prefix)
      invariant BadId(panes[..k]).None? && first == if k == 0 then "" else panes[0].id
      invariant k > 0 ==> panes[0].id != ""
    {
      var p := panes[k];
      OneWalked(panes, prefix, k);
      if p.id == "" {
        BadIdStands(panes, k + 1);
        return Err(EmptyId);
      }
      if p.id in seen {
        BadIdStands(panes, k + 1);
        return Err(DuplicateId(p.id));
      }
      seen := seen + {p.id};
      if first == "" {
        first := p.id;
      }
      var n := PaneIdNum(TrimPrefix(p.id, prefix));
      if n.Some? && n.value > maxN {
        maxN := n.value;
      }
      k := k + 1;
    }
    assert panes[..k] == panes;
    var t := Tree(root.value, prefix + l.focus, "", maxN, prefix);
    if t.focus !in seen {
      t := t.(focus := first);
    }
    if l.zoomed != "" && prefix + l.zoomed in seen {
      t := t.(zoomed := prefix + l.zoomed);
    }
    return Ok(t);
  }

  lemma NothingWalked(panes: seq<Pane>, prefix: string)
    ensures IdsOf(panes[..0]) == {} && MaxNum(panes[..0], prefix) == 0 && BadId(panes[..0]).None?
  {
  }

  /** One more leaf walked. */
  lemma OneWalked(panes: seq<Pane>, prefix: string, k: nat)
    requires k < |panes|
    ensures IdsOf(panes[..k + 1]) == IdsOf(panes[..k]) + {panes[k].id}
    ensures var n, was := PaneIdNum(TrimPrefix(panes[k].id, prefix)), MaxNum(panes[..k], prefix);
            MaxNum(panes[..k + 1], prefix) == if n.Some? && n.value > was then n.value else was
    ensures BadId(panes[..k]).None? ==>
              BadId(panes[..k + 1]) ==
                if panes[k].id == "" then Some(EmptyId)
                else if panes[k].id in IdsOf(panes[..k]) then Some(DuplicateId(panes[k].id)) else None
  {
    hide PaneIdNum, TrimPrefix;
    var more := panes[..k + 1];
    assert more[..k] == panes[..k];
    forall id | id in IdsOf(more) ensures id in IdsOf(panes[..k]) + {panes[k].id} {
      var p :| p in more && p.id == id;
      assert p in panes[..k] || p == panes[k];
    }
    assert forall p :: p in panes[..k] ==> p in more;
    assert panes[k] in more;
  }

  lemma {:induction false} BadIdStands(panes: seq<Pane>, k: nat)
    requires k <= |panes| && BadId(panes[..k]).Some?
    ensures BadId(panes) == BadId(panes[..k])
    decreases |panes|
  {
    if k == |panes| {
      assert panes[..k] == panes;
    } else {
      var rest := panes[..|panes| - 1];
      assert rest[..k] == panes[..k];
      BadIdStands(rest, k);
    }
  }

  // ---------------------------------------------------------------- what decoding accepts

  predicate Unique(panes: seq<Pane>)
  {
    forall i, j :: 0 <= i < j < |panes| ==> panes[i].id != panes[j].id
  }

  predicate Identified(panes: seq<Pane>)
  {
    forall i :: 0 <= i < |panes| ==> panes[i].id != ""
  }

  lemma {:induction false} NoBadId(panes: seq<Pane>)
    ensures BadId(panes).None? <==> Identified(panes) && Unique(panes)
  {
    if panes != [] {
      var k := |panes| - 1;
      NoBadId(panes[..k]);
      if BadId(panes[..k]).None? {
        if panes[k].id in IdsOf(panes[..k]) {
          var p :| p in panes[..k] && p.id == panes[k].id;
          var i :| 0 <= i < k && panes[i] == p;
          assert panes[i].id == panes[k].id;
        } else {
          forall i | 0 <= i < k ensures panes[i].id != panes[k].id {
            assert panes[i] in panes[..k];
          }
        }
      } else {
        assert panes[..k] == panes[0..k];
      }
    }
  }

  /** Every node holds exactly one of a pane and a split, and a split has a direction. */
  predicate Shaped(n: LayoutNode)
  {
    && (n.pane.Some? <==> n.split.None?)
    && (n.split.Some? ==>
          (n.split.value.dir == "h" || n.split.value.dir == "v") && Shaped(n.split.value.a) && Shaped(n.split.value.b))
  }

  function LayoutPanes(n: LayoutNode): seq<LayoutPane>
    requires Shaped(n)
  {
    if n.pane.Some? then [n.pane.value] else LayoutPanes(n.split.value.a) + LayoutPanes(n.split.value.b)
  }

  lemma {:induction false} NodeDecodes(n: LayoutNode, abs: Abs, prefix: string)
    ensures DecodeNode(n, abs, prefix).Ok? <==> Shaped(n)
    ensures Shaped(n) ==>
              var panes, lps := Leaves(DecodeNode(n, abs, prefix).value), LayoutPanes(n);
              |panes| == |lps| && forall i :: 0 <= i < |panes| ==> panes[i].id == prefix + lps[i].id
    decreases n
  {
    hide DecodeLeaf;
    if n.pane.Some? && n.split.None? {
      DecodedId(n.pane.value, abs, prefix);
    } else if n.split.Some? && n.pane.None? {
      NodeDecodes(n.split.value.a, abs, prefix);
      NodeDecodes(n.split.value.b, abs, prefix);
    }
  }

  lemma DecodedId(lp: LayoutPane, abs: Abs, prefix: string)
    ensures DecodeLeaf(lp, abs, prefix).id == prefix + lp.id
  {
  }

  /** A layout is accepted exactly when its version is known, every node is well shaped, and
      the pane ids, prefixed, are present and unique; anything else is arrangement and is
      repaired. */
  lemma DecodeAccepts(l: Layout, abs: Abs, prefix: string)
    ensures Decode(l, abs, prefix).Ok? <==>
              && l.v == VERSION && Shaped(l.root)
              && var lps := LayoutPanes(l.root);
                 && (forall i :: 0 <= i < |lps| ==> prefix + lps[i].id != "")
                 && (forall i, j :: 0 <= i < j < |lps| ==> lps[i].id != lps[j].id)
  {
    hide DecodeNode, MaxNum, BadId, Leaves;
    NodeDecodes(l.root, abs, prefix);
    if Shaped(l.root) {
      var panes, lps := Leaves(DecodeNode(l.root, abs, prefix).value), LayoutPanes(l.root);
      NoBadId(panes);
      forall i, j | 0 <= i < j < |lps|
        ensures panes[i].id == panes[j].id <==> lps[i].id == lps[j].id
      {
        Cancels(prefix, lps[i].id, lps[j].id);
      }
      hide Shaped;
      assert Identified(panes) <==> forall i :: 0 <= i < |lps| ==> prefix + lps[i].id != "";
    }
  }

  lemma Cancels(prefix: string, a: string, b: string)
    ensures prefix + a == prefix + b <==> a == b
    ensures TrimPrefix(prefix + a, prefix) == a
  {
    assert (prefix + a)[|prefix|..] == a;
    assert (prefix + b)[|prefix|..] == b;
  }

  // ---------------------------------------------------------------- a tree fit to be kept

  ghost predicate Framings(frames: seq<Frame>)
  {
    frames != [] && forall i :: 0 <= i < |frames| && frames[i].view.Some? ==> IsFraming(frames[i].view.value)
  }

  predicate Arranged(n: Node)
  {
    n.Inner? ==> (n.dir == "h" || n.dir == "v") && 0.0 <= n.ratio <= 1.0 && Arranged(n.a) && Arranged(n.b)
  }

  ghost predicate WellFormed(t: Tree)
  {
    && Arranged(t.root)
    && (forall p :: p in Leaves(t.root) ==> Framings(p.frames) && t.prefix < p.id)
    && Unique(Leaves(t.root))
    && t.focus in IdsOf(Leaves(t.root))
    && (t.zoomed == "" || t.zoomed in IdsOf(Leaves(t.root)))
  }

  /** The two ways an id is read name each other. */
  ghost predicate Mirror(rel: Rel, abs: Abs)
  {
    forall id :: rel(id).Some? ==> abs(rel(id).value) == id && (id != "" ==> rel(id).value != "")
  }

  lemma MirrorId(id: string, rel: Rel, abs: Abs)
    requires Mirror(rel, abs) && RelId(id, rel).Some?
    ensures AbsId(RelId(id, rel).value, abs) == id
  {
  }

  /** A frame that has only its place. */
  function PlaceOnly(f: Frame): Frame
  {
    BLANK.(gridId := f.gridId, door := f.door, content := f.content)
  }

  function Places(frames: seq<Frame>): seq<Frame>
  {
    seq(|frames|, i requires 0 <= i < |frames| => PlaceOnly(frames[i]))
  }

  lemma {:induction false} PlaceEncoded(frames: seq<Frame>, rel: Rel, i: nat)
    requires EncodePlace(frames, rel).Some? && i < |frames|
    ensures var place, f := EncodePlace(frames, rel).value, frames[i];
            && |place| == |frames|
            && RelId(f.gridId, rel).Some? && RelId(f.door, rel).Some?
            && place[i] == LayoutFrame(RelId(f.door, rel).value, RelId(f.gridId, rel).value, f.content)
  {
    hide RelId;
    var k := |frames| - 1;
    PlaceLength(frames[..k], rel);
    if i < k {
      PlaceEncoded(frames[..k], rel, i);
    }
  }

  lemma {:induction false} PlaceLength(frames: seq<Frame>, rel: Rel)
    ensures EncodePlace(frames, rel).Some? ==> |EncodePlace(frames, rel).value| == |frames|
  {
    if frames != [] {
      PlaceLength(frames[..|frames| - 1], rel);
    }
  }

  lemma {:induction false} IdsEncoded(ids: seq<string>, rel: Rel, abs: Abs)
    requires Mirror(rel, abs) && RelIds(ids, rel).Some?
    ensures var r := RelIds(ids, rel).value;
            |r| == |ids| && forall i :: 0 <= i < |ids| ==> abs(r[i]) == ids[i]
  {
    if ids != [] {
      IdsEncoded(ids[..|ids| - 1], rel, abs);
    }
  }

  /** Whichever way the place was written, it is read back frame for frame. */
  lemma PlaceRoundTrip(p: Pane, rel: Rel, abs: Abs, prefix: string)
    requires Mirror(rel, abs) && p.frames != [] && EncodeLeaf(p, rel, prefix).1
    ensures DecodePlace(EncodeLeaf(p, rel, prefix).0, abs) == Places(p.frames)
  {
    hide EncodeViews, LayoutTextOf, Mirror, RelId, AbsId, TrimPrefix, AnchorAt, PathAt, EncodePlace, RelIds;
    var frames, lp := p.frames, EncodeLeaf(p, rel, prefix).0;
    if ProjectionHolds(frames) {
      var anchor, path, content := AnchorAt(frames, |frames| - 1), PathAt(frames, |frames| - 1), ContentId(frames);
      MirrorId(anchor, rel, abs);
      MirrorId(content, rel, abs);
      IdsEncoded(path, rel, abs);
      assert seq(|lp.path|, i requires 0 <= i < |lp.path| => abs(lp.path[i])) == path;
      ProjectionPlaces(frames, FramesAt(anchor, path, content), anchor, path, content);
    } else {
      PlaceLength(frames, rel);
      forall i | 0 <= i < |frames|
        ensures DecodePlace(lp, abs)[i] == PlaceOnly(frames[i])
      {
        PlaceEncoded(frames, rel, i);
        MirrorId(frames[i].gridId, rel, abs);
        MirrorId(frames[i].door, rel, abs);
      }
    }
  }

  lemma ProjectionPlaces(frames: seq<Frame>, rebuilt: seq<Frame>, anchor: string, path: seq<string>, content: string)
    requires rebuilt == FramesAt(anchor, path, content) && SamePlaces(frames, rebuilt)
    ensures rebuilt == Places(frames)
  {
    forall i | 0 <= i < |frames|
      ensures rebuilt[i] == PlaceOnly(frames[i])
    {
      assert SamePlace(frames[i], rebuilt[i]);
    }
  }

  // ---------------------------------------------------------------- the round trip

  /** A view of the layout's own: on a grid, settled, and not the one its row gave. */
  predicate OwnView(f: Frame)
  {
    !f.content && f.view.Some? && !f.pending && f.view != f.adopted
  }

  /** r is frames as a blob keeps them: every level's place; of each view that is the layout's
      own exactly it, settled; no other view below the top, where the top without one waits at
      the origin for its row's; a content top's own scroll; and nothing else. */
  ghost predicate Kept(frames: seq<Frame>, r: seq<Frame>)
  {
    && frames != [] && SamePlaces(frames, r)
    && (forall i :: 0 <= i < |r| && OwnView(frames[i]) ==>
          r[i].view == r[i].settled == frames[i].view && !r[i].pending)
    && (forall i :: 0 <= i < |r| && !OwnView(frames[i]) ==>
          && r[i].settled == None
          && if i < |r| - 1 then r[i].view == None && !r[i].pending else r[i].view == Some(ORIGIN) && r[i].pending)
    && (if Top(frames).content && Top(frames).ownScroll then
          Top(r).ownScroll && Top(r).scrollX == Top(frames).scrollX && Top(r).scrollY == Top(frames).scrollY
        else !Top(r).ownScroll && Top(r).scrollX == Top(r).scrollY == 0.0)
    && (forall i :: 0 <= i < |r| ==> r[i].adopted == None && r[i].textMode == "")
    && (forall i :: 0 <= i < |r| - 1 ==> !r[i].ownScroll && r[i].scrollX == r[i].scrollY == 0.0)
    && (forall i :: 0 <= i < |r| ==> LayoutViewOf(r[i]) == LayoutViewOf(frames[i]))
    && LayoutTextOf(Top(r)) == LayoutTextOf(Top(frames))
  }

  lemma LeafRoundTrip(p: Pane, rel: Rel, abs: Abs, from: string, to: string)
    requires Mirror(rel, abs) && Framings(p.frames) && EncodeLeaf(p, rel, from).1
    ensures Kept(p.frames, DecodeLeaf(EncodeLeaf(p, rel, from).0, abs, to).frames)
  {
    hide Mirror, RelId, AbsId, TrimPrefix, AnchorAt, PathAt, EncodePlace, RelIds, ProjectionHolds, DecodePlace;
    PlaceRoundTrip(p, rel, abs, from);
    var frames, lp := p.frames, EncodeLeaf(p, rel, from).0;
    var last := |frames| - 1;
    assert lp.views == EncodeViews(frames) && lp.text == LayoutTextOf(Top(frames));
    var viewed := WithViews(Places(frames), lp.views);
    ViewsRoundTrip(frames);
    var r := DecodeLeaf(lp, abs, to).frames;
    assert r == viewed[last := Awaiting(WithText(viewed[last], lp.text))];
    hide DecodeLeaf, EncodeLeaf, WithViews, EncodeViews, Places, Awaiting, WithText, Viewed, LayoutViewOf, LayoutTextOf, Kept;
    FramesKept(frames, r);
  }

  lemma FramesKept(frames: seq<Frame>, r: seq<Frame>)
    requires Framings(frames) && |r| == |frames|
    requires var last := |frames| - 1;
             && (forall i :: 0 <= i < last ==> r[i] == Viewed(PlaceOnly(frames[i]), LayoutViewOf(frames[i])))
             && r[last] == Awaiting(WithText(Viewed(PlaceOnly(frames[last]), LayoutViewOf(frames[last])), LayoutTextOf(frames[last])))
    ensures Kept(frames, r)
  {
  }

  lemma ViewsRoundTrip(frames: seq<Frame>)
    requires frames != []
    ensures var r := WithViews(Places(frames), EncodeViews(frames));
            forall i :: 0 <= i < |frames| ==> r[i] == Viewed(PlaceOnly(frames[i]), LayoutViewOf(frames[i]))
  {
    hide LayoutViewOf, PlaceOnly;
  }

  /** A leaf that looks outside the owner's reach comes back home. */
  lemma HomeRoundTrip(p: Pane, rel: Rel, abs: Abs, from: string, to: string)
    requires p.frames != [] && !EncodeLeaf(p, rel, from).1
    ensures DecodeLeaf(EncodeLeaf(p, rel, from).0, abs, to).frames == [Awaiting(BLANK)]
  {
    hide AnchorAt, PathAt, EncodePlace, RelIds, ProjectionHolds, TrimPrefix;
    var lp := EncodeLeaf(p, rel, from).0;
    assert DecodePlace(lp, abs) == [BLANK];
  }

  /** n' is n as kept: the same shape, directions and ratios, and leaf by leaf the same pane
      under the other prefix, at its place or, out of reach, at home. */
  ghost predicate Restores(n: Node, n': Node, rel: Rel, from: string, to: string)
    requires Framed(n)
  {
    match n
    case Leaf(p) =>
      assert p in Leaves(n);
      && n'.Leaf? && n'.pane.id == to + TrimPrefix(p.id, from)
      && if EncodeLeaf(p, rel, from).1 then Kept(p.frames, n'.pane.frames) else n'.pane.frames == [Awaiting(BLANK)]
    case Inner(dir, ratio, a, b) =>
      FramedParts(n);
      && n'.Inner? && n'.dir == dir && n'.ratio == ratio
      && Restores(a, n'.a, rel, from, to) && Restores(b, n'.b, rel, from, to)
  }

  ghost predicate AllFramings(n: Node)
  {
    forall p :: p in Leaves(n) ==> Framings(p.frames)
  }

  lemma PartsFramings(n: Node)
    requires AllFramings(n)
    ensures Framed(n) && (n.Inner? ==> AllFramings(n.a) && AllFramings(n.b))
  {
    if n.Inner? {
      forall p | p in Leaves(n.a) ensures Framings(p.frames) { assert p in Leaves(n); }
      forall p | p in Leaves(n.b) ensures Framings(p.frames) { assert p in Leaves(n); }
    }
  }

  lemma {:induction false} NodeRoundTrip(n: Node, rel: Rel, abs: Abs, from: string, to: string)
    requires Mirror(rel, abs) && Arranged(n) && AllFramings(n) && Framed(n)
    ensures var res := DecodeNode(EncodeNode(n, rel, from), abs, to);
            res.Ok? && Restores(n, res.value, rel, from, to)
  {
    hide EncodeLeaf, DecodeLeaf, Mirror, Kept, AllFramings, Framed, TrimPrefix;
    PartsFramings(n);
    match n
    case Leaf(p) =>
      OneLeaf(p, rel, abs, from, to);
    case Inner(dir, ratio, a, b) =>
      FramedParts(n);
      NodeRoundTrip(a, rel, abs, from, to);
      NodeRoundTrip(b, rel, abs, from, to);
  }

  lemma OneLeaf(p: Pane, rel: Rel, abs: Abs, from: string, to: string)
    requires Mirror(rel, abs) && AllFramings(Leaf(p))
    ensures p.frames != []
    ensures var q := DecodeLeaf(EncodeLeaf(p, rel, from).0, abs, to);
            && q.id == to + TrimPrefix(p.id, from)
            && if EncodeLeaf(p, rel, from).1 then Kept(p.frames, q.frames) else q.frames == [Awaiting(BLANK)]
  {
    hide Mirror, Kept, DecodeLeaf;
    assert p in Leaves(Leaf(p));
    DecodedId(EncodeLeaf(p, rel, from).0, abs, to);
    assert EncodeLeaf(p, rel, from).0.id == TrimPrefix(p.id, from);
    if EncodeLeaf(p, rel, from).1 {
      LeafRoundTrip(p, rel, abs, from, to);
    } else {
      HomeRoundTrip(p, rel, abs, from, to);
    }
  }

  lemma {:induction false} RestoredIds(n: Node, n': Node, rel: Rel, from: string, to: string)
    requires Framed(n) && Restores(n, n', rel, from, to)
    ensures |Leaves(n')| == |Leaves(n)|
    ensures forall i :: 0 <= i < |Leaves(n)| ==> Leaves(n')[i].id == to + TrimPrefix(Leaves(n)[i].id, from)
  {
    hide EncodeLeaf, Kept, Framed, TrimPrefix;
    if n.Inner? {
      FramedParts(n);
      RestoredIds(n.a, n'.a, rel, from, to);
      RestoredIds(n.b, n'.b, rel, from, to);
    }
  }

  lemma Trimmed(prefix: string, id: string)
    requires prefix <= id
    ensures prefix + TrimPrefix(id, prefix) == id
  {
  }

  lemma IdFound(panes: seq<Pane>, id: string) returns (i: nat)
    requires id in IdsOf(panes)
    ensures i < |panes| && panes[i].id == id
  {
    var p :| p in panes && p.id == id;
    i :| 0 <= i < |panes| && panes[i] == p;
  }

  lemma IdThere(panes: seq<Pane>, i: nat)
    requires i < |panes|
    ensures panes[i].id in IdsOf(panes)
  {
    assert panes[i] in panes;
  }

  /** Decoding what was encoded restores the tree under any prefix: shape, ratios, ids, every
      level of every place, the layout's own views and scroll, the focus and the zoom; only
      leaves out of the owner's reach come back home. */
  lemma RoundTrip(t: Tree, rel: Rel, abs: Abs, to: string)
    requires WellFormed(t) && Mirror(rel, abs)
    ensures Framed(t.root)
    ensures var res := Decode(Encode(t, rel), abs, to);
            && res.Ok? && res.value.prefix == to
            && Restores(t.root, res.value.root, rel, t.prefix, to)
            && res.value.focus == to + TrimPrefix(t.focus, t.prefix)
            && res.value.zoomed == (if t.zoomed == "" then "" else to + TrimPrefix(t.zoomed, t.prefix))
            && res.value.nextId == MaxNum(Leaves(res.value.root), to)
  {
    hide EncodeNode, DecodeNode, Restores, Mirror, BadId, MaxNum, TrimPrefix, Leaves, Arranged, Kept, IdsOf, Framings;
    assert Framed(t.root) && AllFramings(t.root) by { PartsFramings(t.root); }
    NodeRoundTrip(t.root, rel, abs, t.prefix, to);
    var root := DecodeNode(EncodeNode(t.root, rel, t.prefix), abs, to).value;
    RestoredIds(t.root, root, rel, t.prefix, to);
    var was, now := Leaves(t.root), Leaves(root);
    RestoredUnique(was, now, t.prefix, to);
    NoBadId(now);
    var i := IdFound(was, t.focus);
    IdThere(now, i);
    if t.zoomed != "" {
      var j := IdFound(was, t.zoomed);
      IdThere(now, j);
      assert was[j] in was;
      Longer(t.prefix, t.zoomed);
    } else {
      EmptyTrim(t.prefix);
    }
  }

  lemma Longer(prefix: string, id: string)
    requires prefix < id
    ensures TrimPrefix(id, prefix) != ""
  {
  }

  lemma EmptyTrim(prefix: string)
    ensures TrimPrefix("", prefix) == ""
  {
  }

  lemma RestoredUnique(was: seq<Pane>, now: seq<Pane>, from: string, to: string)
    requires |was| == |now| && Unique(was) && forall p :: p in was ==> from < p.id
    requires forall i :: 0 <= i < |was| ==> now[i].id == to + TrimPrefix(was[i].id, from)
    ensures Unique(now) && Identified(now)
  {
    hide TrimPrefix;
    forall i, j | 0 <= i < j < |was|
      ensures now[i].id != now[j].id
    {
      assert was[i] in was && was[j] in was;
      Trimmed(from, was[i].id);
      Trimmed(from, was[j].id);
      Cancels(to, TrimPrefix(was[i].id, from), TrimPrefix(was[j].id, from));
    }
    forall i | 0 <= i < |was|
      ensures now[i].id != ""
    {
      assert was[i] in was;
      Longer(from, was[i].id);
    }
  }

  // ---------------------------------------------------------------- a visit writes nothing

  /** Panes that have only adopted their rows' views since. */
  ghost predicate Visited(n: Node, n': Node)
    requires Framed(n)
  {
    match n
    case Leaf(p) =>
      assert p in Leaves(n);
      && n'.Leaf? && n'.pane.id == p.id
      && (n'.pane.frames == p.frames || exists v :: n'.pane.frames == Adopted(p.frames, v))
    case Inner(dir, ratio, a, b) =>
      FramedParts(n);
      n'.Inner? && n'.dir == dir && n'.ratio == ratio && Visited(a, n'.a) && Visited(b, n'.b)
  }

  /** Adopting a row's view leaves what the blob keeps alone. */
  lemma AdoptingKeeps(frames: seq<Frame>, v: Frame)
    requires frames != []
    ensures SamePlaces(frames, Adopted(frames, v))
    ensures forall i :: 0 <= i < |frames| ==> LayoutViewOf(Adopted(frames, v)[i]) == LayoutViewOf(frames[i])
    ensures LayoutTextOf(Top(Adopted(frames, v))) == LayoutTextOf(Top(frames))
  {
  }

  /** What encoding reads of a leaf. */
  ghost predicate EncodesAlike(a: seq<Frame>, b: seq<Frame>)
  {
    && a != [] && SamePlaces(a, b)
    && (forall i :: 0 <= i < |a| ==> LayoutViewOf(a[i]) == LayoutViewOf(b[i]))
    && LayoutTextOf(Top(a)) == LayoutTextOf(Top(b))
  }

  lemma {:induction false} PlacesAlike(a: seq<Frame>, b: seq<Frame>, rel: Rel, i: nat)
    requires SamePlaces(a, b) && i < |a|
    ensures StartAt(a, i) == StartAt(b, i) && AnchorAt(a, i) == AnchorAt(b, i)
  {
    assert SamePlace(a[i], b[i]);
    if i > 0 {
      PlacesAlike(a, b, rel, i - 1);
    }
  }

  lemma {:induction false} DoorsAlike(a: seq<Frame>, b: seq<Frame>, lo: nat, hi: nat)
    requires SamePlaces(a, b) && lo <= hi <= |a|
    ensures Doors(a, lo, hi) == Doors(b, lo, hi)
    decreases hi - lo
  {
    if lo < hi {
      assert SamePlace(a[hi - 1], b[hi - 1]);
      DoorsAlike(a, b, lo, hi - 1);
    }
  }

  lemma {:induction false} EncodedPlacesAlike(a: seq<Frame>, b: seq<Frame>, rel: Rel)
    requires SamePlaces(a, b)
    ensures EncodePlace(a, rel) == EncodePlace(b, rel)
  {
    if a != [] {
      var k := |a| - 1;
      assert SamePlace(a[k], b[k]);
      assert SamePlaces(a[..k], b[..k]) by {
        forall i | 0 <= i < k ensures SamePlace(a[..k][i], b[..k][i]) { assert SamePlace(a[i], b[i]); }
      }
      EncodedPlacesAlike(a[..k], b[..k], rel);
    }
  }

  lemma ProjectsAlike(a: seq<Frame>, b: seq<Frame>, rebuilt: seq<Frame>)
    requires SamePlaces(a, b)
    ensures SamePlaces(a, rebuilt) <==> SamePlaces(b, rebuilt)
  {
    if |a| == |rebuilt| {
      assert forall i :: 0 <= i < |a| ==> SamePlace(a[i], b[i]);
      assert forall i :: 0 <= i < |a| ==> (SamePlace(a[i], rebuilt[i]) <==> SamePlace(b[i], rebuilt[i]));
    }
  }

  lemma LeavesAlike(p: Pane, q: Pane, rel: Rel, from: string, to: string)
    requires EncodesAlike(p.frames, q.frames) && TrimPrefix(p.id, from) == TrimPrefix(q.id, to)
    ensures q.frames != [] && EncodeLeaf(p, rel, from) == EncodeLeaf(q, rel, to)
  {
    hide SamePlaces, StartAt, Doors, EncodePlace, RelIds, LayoutViewOf, LayoutTextOf, TrimPrefix, FramesAt;
    var a, b := p.frames, q.frames;
    SameLength(a, b);
    var last := |a| - 1;
    PlacesAlike(a, b, rel, last);
    DoorsAlike(a, b, StartAt(a, last) + 1, last + 1);
    EncodedPlacesAlike(a, b, rel);
    ProjectsAlike(a, b, FramesAt(AnchorAt(a, last), PathAt(a, last), ContentId(a)));
    assert ViewsOf(a) == ViewsOf(b);
    assert EncodeViews(a) == EncodeViews(b);
  }

  lemma SameLength(a: seq<Frame>, b: seq<Frame>)
    requires SamePlaces(a, b) && a != []
    ensures |a| == |b| && SamePlace(Top(a), Top(b))
  {
    assert SamePlace(a[|a| - 1], b[|a| - 1]);
  }

  /** Home, waiting or adopted, encodes as home. */
  lemma HomeEncodes(q: Pane, rel: Rel, to: string)
    requires EncodesAlike([BLANK], q.frames)
    ensures q.frames != []
    ensures EncodeLeaf(q, rel, to).0 == LayoutPane(TrimPrefix(q.id, to), "", [], "", [], [], None)
  {
    hide TrimPrefix;
    Cancels(to, q.id, q.id);
    LeavesAlike(Pane(to + q.id, [BLANK]), Pane(to + q.id, q.frames), rel, to, to);
    assert ProjectionHolds([BLANK]);
    hide ProjectionHolds;
    BareId(q, rel, to);
  }

  lemma BareId(q: Pane, rel: Rel, to: string)
    requires q.frames != []
    ensures EncodeLeaf(q, rel, to).0 == EncodeLeaf(Pane(to + q.id, q.frames), rel, to).0.(id := TrimPrefix(q.id, to))
  {
    hide ProjectionHolds, EncodePlace, RelIds, AnchorAt, PathAt, EncodeViews;
  }

  lemma AlikeOn(a: seq<Frame>, b: seq<Frame>, c: seq<Frame>)
    requires EncodesAlike(a, b) && EncodesAlike(b, c)
    ensures EncodesAlike(a, c)
  {
    forall i | 0 <= i < |a| ensures SamePlace(a[i], c[i]) {
      assert SamePlace(a[i], b[i]) && SamePlace(b[i], c[i]);
    }
  }

  lemma VisitedAlike(frames: seq<Frame>, r: seq<Frame>)
    requires frames != [] && (r == frames || exists v :: r == Adopted(frames, v))
    ensures EncodesAlike(frames, r)
  {
    if r != frames {
      var v :| r == Adopted(frames, v);
      AdoptingKeeps(frames, v);
    }
  }

  lemma KeptAlike(frames: seq<Frame>, r: seq<Frame>)
    requires Kept(frames, r)
    ensures EncodesAlike(frames, r) && r != []
  {
  }

  lemma HomeAlike()
    ensures EncodesAlike([BLANK], [Awaiting(BLANK)])
  {
  }

  /** A leaf restored, and perhaps visited since, encodes as it first did. */
  lemma LeafAgain(p: Pane, q: Pane, v: Pane, rel: Rel, from: string, to: string)
    requires p.frames != [] && q.frames != [] && q.id == to + TrimPrefix(p.id, from) && v.id == q.id
    requires if EncodeLeaf(p, rel, from).1 then Kept(p.frames, q.frames) else q.frames == [Awaiting(BLANK)]
    requires v.frames == q.frames || exists f :: v.frames == Adopted(q.frames, f)
    ensures v.frames != [] && EncodeLeaf(v, rel, to).0 == EncodeLeaf(p, rel, from).0
  {
    hide Kept, EncodesAlike, TrimPrefix, Adopted, ProjectionHolds, EncodePlace, RelIds, AnchorAt, PathAt, EncodeViews;
    Cancels(to, TrimPrefix(p.id, from), "");
    VisitedAlike(q.frames, v.frames);
    if EncodeLeaf(p, rel, from).1 {
      KeptAlike(p.frames, q.frames);
      AlikeOn(p.frames, q.frames, v.frames);
      LeavesAlike(p, v, rel, from, to);
    } else {
      HomeAlike();
      AlikeOn([BLANK], q.frames, v.frames);
      HomeEncodes(v, rel, to);
    }
  }

  lemma {:induction false} NodesAgain(n: Node, n': Node, seen: Node, rel: Rel, from: string, to: string)
    requires Framed(n) && Restores(n, n', rel, from, to) && Framed(n') && Visited(n', seen)
    ensures Framed(seen) && EncodeNode(seen, rel, to) == EncodeNode(n, rel, from)
  {
    hide Kept, EncodeLeaf, TrimPrefix, Adopted;
    match n
    case Leaf(p) =>
      assert p in Leaves(n) && n'.pane in Leaves(n');
      LeafAgain(p, n'.pane, seen.pane, rel, from, to);
    case Inner(dir, ratio, a, b) =>
      hide Framed;
      FramedParts(n);
      FramedParts(n');
      NodesAgain(a, n'.a, seen.a, rel, from, to);
      NodesAgain(b, n'.b, seen.b, rel, from, to);
      FramedWhole(seen);
  }

  lemma FramedWhole(n: Node)
    requires n.Inner? && Framed(n.a) && Framed(n.b)
    ensures Framed(n)
  {
    forall p | p in Leaves(n) ensures p.frames != [] {
      assert p in Leaves(n.a) || p in Leaves(n.b);
    }
  }

  lemma {:induction false} RestoredFramed(n: Node, n': Node, rel: Rel, from: string, to: string)
    requires Framed(n) && Restores(n, n', rel, from, to)
    ensures Framed(n')
  {
    hide EncodeLeaf, TrimPrefix;
    if n.Inner? {
      FramedParts(n);
      RestoredFramed(n.a, n'.a, rel, from, to);
      RestoredFramed(n.b, n'.b, rel, from, to);
      FramedWhole(n');
    }
  }

  /** Opening a kept tree, under any prefix, and only looking at it, its waiting panes settling
      on their rows' views, leaves exactly the layout it was read from. */
  lemma VisitWritesNothing(t: Tree, rel: Rel, abs: Abs, to: string, seen: Node)
    requires WellFormed(t) && Mirror(rel, abs)
    ensures Framed(t.root)
    ensures var res := Decode(Encode(t, rel), abs, to);
            res.Ok? && Framed(res.value.root) &&
            (Visited(res.value.root, seen) ==>
               Framed(seen) && Encode(res.value.(root := seen), rel) == Encode(t, rel))
  {
    hide WellFormed, EncodeNode, Decode, Restores, Mirror, TrimPrefix, Visited, Framed;
    RoundTrip(t, rel, abs, to);
    var r := Decode(Encode(t, rel), abs, to).value;
    RestoredFramed(t.root, r.root, rel, t.prefix, to);
    Cancels(to, TrimPrefix(t.focus, t.prefix), "");
    Cancels(to, TrimPrefix(t.zoomed, t.prefix), "");
    EmptyTrim(to);
    EmptyTrim(t.prefix);
    if Visited(r.root, seen) {
      NodesAgain(t.root, r.root, seen, rel, t.prefix, to);
    }
  }

  // ---------------------------------------------------------------- minted ids

  lemma {:induction false} NumAtMost(panes: seq<Pane>, prefix: string, i: nat)
    requires i < |panes| && PaneIdNum(TrimPrefix(panes[i].id, prefix)).Some?
    ensures PaneIdNum(TrimPrefix(panes[i].id, prefix)).value <= MaxNum(panes, prefix)
  {
    hide PaneIdNum, TrimPrefix;
    if i < |panes| - 1 {
      NumAtMost(panes[..|panes| - 1], prefix, i);
    }
  }

  /** No pane a decoded tree goes on to mint collides with one it read. */
  lemma MintsAreFresh(l: Layout, abs: Abs, prefix: string, n: nat, i: nat)
    requires Decode(l, abs, prefix).Ok?
    requires Decode(l, abs, prefix).value.nextId < n <= MAX_INT
    requires i < |Leaves(Decode(l, abs, prefix).value.root)|
    ensures Leaves(Decode(l, abs, prefix).value.root)[i].id != MintId(prefix, n)
  {
    hide DecodeNode, BadId, PaneIdNum, Itoa, Leaves, MaxNum, TrimPrefix;
    var panes := Leaves(Decode(l, abs, prefix).value.root);
    if panes[i].id == MintId(prefix, n) {
      Cancels(prefix, "p" + Itoa(n), "");
      MintedNum(n);
      NumAtMost(panes, prefix, i);
    }
  }
}
