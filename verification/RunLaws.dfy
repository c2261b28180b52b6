/** What whole runs of GridSync are: the link and the gap by the acts alone, and the cache as a
    run of its own operations. */
module RunLaws {
  import opened Options
  import C = CacheState
  import CacheLaws
  import opened GridSync

  // ---------------------------------------------------------------- the link

  /** The last stream to end before step n, if any did, was subscribed anew since. */
  ghost predicate Listening(acts: seq<Act>, n: nat)
    requires n <= |acts|
  {
    exists i :: 0 <= i < n && acts[i] == Subscribe && forall j :: i < j < n ==> acts[j] != StreamEnds
  }

  /** Step i has a stream that is listened to open. */
  ghost predicate Opens(acts: seq<Act>, i: nat)
    requires i < |acts|
  {
    acts[i] == StreamOpens && Listening(acts, i)
  }

  /** A stream ended, and none has opened since. */
  ghost predicate Missed(acts: seq<Act>, n: nat)
    requires n <= |acts|
  {
    exists i :: 0 <= i < n && acts[i] == StreamEnds && forall j :: i < j < n ==> !Opens(acts, j)
  }

  ghost predicate Opened(acts: seq<Act>, n: nat)
    requires n <= |acts|
  {
    exists i :: 0 <= i < n && Opens(acts, i) && forall j :: i < j < n ==> acts[j] != StreamEnds
  }

  lemma StepLinks(w: World, a: Act)
    ensures var r := Do(w, a);
            && r.link == (match a
                          case StreamEnds => Down
                          case Subscribe => if w.link == Down then Subscribed else w.link
                          case StreamOpens => if w.link == Subscribed then Open else w.link
                          case _ => w.link)
            && r.gap == (a.StreamEnds? || (w.gap && !(a.StreamOpens? && w.link == Subscribed)))
  {
    hide C.Apply, C.PutGrid, C.Step, Lists, Wronged, Differing, Overtaken, CanSet, CanList;
  }

  lemma RunStep(acts: seq<Act>)
    requires acts != []
    ensures Run(START, acts) == Do(Run(START, acts[..|acts| - 1]), acts[|acts| - 1])
  {
  }

  lemma StartsDown()
    ensures Run(START, []) == START && !Listening([], 0) && !Opened([], 0) && !Missed([], 0)
  {
  }

  /** In every run the stream is down until it is subscribed, open from when a subscribed stream
      opens until one ends, and a gap is owed from when a stream ends until the next opens. */
  lemma {:induction false} LinkIsLast(acts: seq<Act>)
    ensures var w, n := Run(START, acts), |acts|;
            && (w.link == Down <==> !Listening(acts, n))
            && (w.link == Open <==> Opened(acts, n))
            && (w.gap <==> Missed(acts, n))
            && (w.link == Open ==> !w.gap)
  {
    hide Run, Do, Listening, Opened, Missed;
    if acts == [] {
      StartsDown();
    } else {
      var n := |acts| - 1;
      LinkIsLast(acts[..n]);
      RunStep(acts);
      StepLinks(Run(START, acts[..n]), acts[n]);
      ListeningNext(acts);
      OpenedNext(acts);
      MissedNext(acts);
    }
  }

  lemma ListeningBefore(acts: seq<Act>, k: nat)
    requires k < |acts|
    ensures Listening(acts, k) <==> Listening(acts[..|acts| - 1], k)
  {
  }

  /** Steps before the last open a stream in the run as they do in the run before it. */
  lemma OpensBefore(acts: seq<Act>)
    requires acts != []
    ensures var n := |acts| - 1;
            && (forall k :: 0 <= k < n ==> acts[..n][k] == acts[k] && Opens(acts[..n], k) == Opens(acts, k))
            && (Opens(acts, n) <==> acts[n] == StreamOpens && Listening(acts[..n], n))
  {
    hide Listening;
    forall k | 0 <= k < |acts|
      ensures Listening(acts, k) == Listening(acts[..|acts| - 1], k)
    {
      ListeningBefore(acts, k);
    }
  }

  lemma OpenedNext(acts: seq<Act>)
    requires acts != []
    ensures var n := |acts| - 1;
            Opened(acts, n + 1) <==>
              acts[n] != StreamEnds && ((acts[n] == StreamOpens && Listening(acts[..n], n)) || Opened(acts[..n], n))
  {
    hide Listening, Opens;
    var n := |acts| - 1;
    var was := acts[..n];
    OpensBefore(acts);
    if acts[n] != StreamEnds {
      if Opened(was, n) {
        var i :| 0 <= i < n && Opens(was, i) && forall j :: i < j < n ==> was[j] != StreamEnds;
        assert Opens(acts, i);
      }
      if Opened(acts, n + 1) && !Opens(acts, n) {
        var i :| 0 <= i < n + 1 && Opens(acts, i) && forall j :: i < j < n + 1 ==> acts[j] != StreamEnds;
        assert Opens(was, i);
      }
    }
  }

  lemma MissedNext(acts: seq<Act>)
    requires acts != []
    ensures var n := |acts| - 1;
            Missed(acts, n + 1) <==>
              acts[n] == StreamEnds || (Missed(acts[..n], n) && !(acts[n] == StreamOpens && Listening(acts[..n], n)))
  {
    hide Listening, Opens;
    var n := |acts| - 1;
    var was := acts[..n];
    OpensBefore(acts);
    if Missed(was, n) && !Opens(acts, n) {
      var i :| 0 <= i < n && was[i] == StreamEnds && forall j :: i < j < n ==> !Opens(was, j);
      assert acts[i] == StreamEnds;
    }
    if Missed(acts, n + 1) && acts[n] != StreamEnds {
      var i :| 0 <= i < n + 1 && acts[i] == StreamEnds && forall j :: i < j < n + 1 ==> !Opens(acts, j);
      assert was[i] == StreamEnds;
    }
  }

  lemma ListeningNext(acts: seq<Act>)
    requires acts != []
    ensures var n := |acts| - 1;
            Listening(acts, n + 1) <==> acts[n] != StreamEnds && (acts[n] == Subscribe || Listening(acts[..n], n))
  {
  }

  /** Whatever was lost while no stream was heard, a stream that opens after one has ended has every
      grid cached, failed or being read, and no other, read anew, and no grid is behind. */
  lemma ReconnectRenews(acts: seq<Act>, g: string)
    requires acts != [] && Opens(acts, |acts| - 1) && Missed(acts, |acts| - 1)
    ensures var was, w := Run(START, acts[..|acts| - 1]), Run(START, acts);
            && w.link == Open && w.latched == {} && w.behind == {} && w.early == {} && w.client == was.client
            && (g in w.claims <==> g != "" && (g in was.claims || g in was.latched || g in was.client.grids))
            && (g in w.claims ==> w.claims[g] == Read(Asked, false))
  {
    hide Run, Listening, Missed, Opened, C.Apply, C.PutGrid, C.Step;
    var n := |acts| - 1;
    LinkIsLast(acts[..n]);
    MissedNext(acts);
    ListeningBefore(acts, n);
    assert Missed(acts[..n], n) by { MissedBefore(acts); }
    RunStep(acts);
  }

  lemma MissedBefore(acts: seq<Act>)
    requires acts != [] && Missed(acts, |acts| - 1)
    ensures Missed(acts[..|acts| - 1], |acts| - 1)
  {
    hide Opens;
    OpensBefore(acts);
    var n := |acts| - 1;
    var i :| 0 <= i < n && acts[i] == StreamEnds && forall j :: i < j < n ==> !Opens(acts, j);
    assert acts[..n][i] == StreamEnds;
  }

  // ---------------------------------------------------------------- the cache

  /** What a step has the cache do, if anything. */
  ghost function CacheOp(w: World, a: Act): Option<C.Op>
  {
    match a
    case Deliver => if w.link == Open && w.stream != [] then Some(C.OpApply(w.stream[0])) else None
    case Land(g, rest) =>
      if g in w.claims && w.claims[g].phase.Answered? && w.claims[g].phase.rows.Some? then
        Some(C.OpPutGrid(g, rest, w.claims[g].phase.rows.value))
      else None
    case Fold(op) => if op.OpUpdateTile? || op.OpWriteResponse? then Some(op) else None
    case Body(op) => if CacheLaws.Writes(op) || op.OpBeginWrite? || op.OpEndWrite? then Some(op) else None
    case _ => None
  }

  /** What a run has the cache do. */
  ghost function CacheOps(acts: seq<Act>): seq<C.Op>
  {
    if acts == [] then []
    else
      var n := |acts| - 1;
      var op := CacheOp(Run(START, acts[..n]), acts[n]);
      CacheOps(acts[..n]) + if op.Some? then [op.value] else []
  }

  lemma StepCaches(w: World, a: Act)
    ensures Do(w, a).client == if CacheOp(w, a).Some? then C.Step(w.client, CacheOp(w, a).value) else w.client
  {
    hide C.Apply, C.PutGrid, C.UpdateTile, C.PutWriteResponse, Lists, Wronged, Differing, Overtaken, CanSet, CanList;
  }

  /** In every run the cache is what the events delivered, the answers landed and the client's own
      writes make of the empty cache, and nothing else reaches it. */
  lemma {:induction false} CacheIsRun(acts: seq<Act>)
    ensures Run(START, acts).client == C.Run(C.EMPTY, CacheOps(acts))
  {
    hide Run, Do, C.Step, CacheOp;
    if acts == [] {
      StartsDown();
    } else {
      var n := |acts| - 1;
      var was, op := CacheOps(acts[..n]), CacheOp(Run(START, acts[..n]), acts[n]);
      CacheIsRun(acts[..n]);
      RunStep(acts);
      StepCaches(Run(START, acts[..n]), acts[n]);
      var ops := CacheOps(acts);
      assert ops == was + if op.Some? then [op.value] else [];
      if op.Some? {
        assert ops[..|ops| - 1] == was && ops[|ops| - 1] == op.value;
      } else {
        assert ops == was;
      }
    }
  }

  /** Unsaved bytes outlast whatever the stream, the reads and the reconnects do: they are there
      until an edit to other bytes, a save that confirms them, or their being dropped by name. */
  lemma {:induction false} SyncKeepsEdit(acts: seq<Act>, i: nat, t: string, data: C.Bytes)
    requires i <= |acts| && CacheLaws.Unsaved(Run(START, acts[..i]).client, t, data)
    requires forall j :: i <= j < |acts| && acts[j].Body? ==>
               match acts[j].op
               case OpEdited(x, other) => x != t || other == data
               case OpSaved(row, saved) => row.id != t || saved != data
               case OpDrop(x) => x != t
               case _ => true
    ensures CacheLaws.Unsaved(Run(START, acts).client, t, data)
  {
    hide Run, Do, C.Step;
    if i == |acts| {
      assert acts[..i] == acts;
    } else {
      var n := |acts| - 1;
      assert acts[..n][..i] == acts[..i];
      SyncKeepsEdit(acts[..n], i, t, data);
      var w := Run(START, acts[..n]);
      RunStep(acts);
      StepCaches(w, acts[n]);
      if CacheOp(w, acts[n]).Some? {
        CacheLaws.EditSurvives(w.client, CacheOp(w, acts[n]).value, t);
      }
    }
  }

  // ---------------------------------------------------------------- the node

  /** What the node may do at any time, told while the stream is up: set a tile of a grid it has to
      any row not older than the one there, unless another grid has it, or change a grid's
      listing to any rows no other grid has. No other grid's rows move. */
  lemma NodeMay(w: World, n: C.Tile, told: bool, g: string, rows: Rows)
    requires n.at.gridId in w.server && g in w.server && RowsFiled(g, rows)
    requires forall h :: h in w.server && h != n.at.gridId ==> n.id !in w.server[h]
    requires n.id in w.server[n.at.gridId] ==> w.server[n.at.gridId][n.id].version <= n.version
    requires forall h :: h in w.server && h != g ==> w.server[h].Keys !! rows.Keys
    ensures var r := Do(w, SetTile(n, told));
            && r.server == w.server[n.at.gridId := w.server[n.at.gridId][n.id := n]]
            && r.stream == w.stream + if w.link == Down then [] else [C.TileChanged(n, told)]
    ensures var r := Do(w, Relist(g, rows));
            r.server == w.server[g := rows] && r.stream == w.stream + if w.link == Down then [] else [C.GridChanged(g)]
  {
    assert forall h, t :: h in w.server && h != g && t in rows ==> t !in w.server[h];
    assert w.stream + [] == w.stream;
  }

  /** It may also say a grid or a selection changed when no row did. */
  lemma NodeSays(w: World, e: C.Event)
    requires e.GridChanged? || e.SelectionChanged?
    ensures Do(w, Announce(e)) == w.(stream := w.stream + if w.link == Down then [] else [e])
  {
    assert w.stream + [] == w.stream;
  }

  // ---------------------------------------------------------------- answers

  /** Rows can be listed. */
  lemma {:induction false} Listing(g: string, rows: Rows) returns (tiles: seq<C.Tile>)
    requires RowsFiled(g, rows)
    ensures Lists(tiles, rows)
    decreases |rows|
  {
    if rows == map[] {
      tiles := [];
    } else {
      var t :| t in rows;
      var rest := rows - {t};
      assert rest.Keys == rows.Keys - {t};
      var listed := Listing(g, rest);
      tiles := listed + [rows[t]];
      forall u | u in rows
        ensures rows[u] in tiles
      {
        assert u != t ==> rest[u] in listed;
      }
    }
  }

  /** A read asked may always fail, and may be answered with its grid's rows when the node has
      the grid. */
  lemma AnswersCome(w: World, g: string)
    requires g in w.claims && w.claims[g].phase == Asked
    ensures Do(w, Answer(g, None)).claims[g].phase == Answered(None)
    ensures g in w.server && RowsFiled(g, w.server[g]) ==>
              exists tiles ::
                Lists(tiles, w.server[g]) && Do(w, Answer(g, Some(tiles))).claims[g].phase == Answered(Some(tiles))
  {
    hide Lists;
    if g in w.server && RowsFiled(g, w.server[g]) {
      var tiles := Listing(g, w.server[g]);
      assert Lists(tiles, w.server[g]) && Do(w, Answer(g, Some(tiles))).claims[g].phase == Answered(Some(tiles));
    }
  }
}
