# Gridwell client: verified models of its decisions

Gridwell's client keeps its decisions in packages that touch no browser. This project models
the ones that carry a protocol or an algorithm and proves what each is for. Every mutating
object is a class whose methods are proved equal to a function of the old state; the laws are
then proved of those functions, over every sequence or interleaving of steps.

- **Cache and event stream.** `CacheState` says what each critical section of the tile cache
  does, `Cache` proves the methods that update its maps against it, and `CacheLaws` proves what
  every sequence of operations keeps: one home per tile, optimistic moves held in place, unsaved
  edits never lost. `BodyLaws` says exactly when a row drops a stale body, and `ReadLaws` what a
  grid read leaves. `Inflight` is the claims and failure latches of reads. `GridSync` runs a
  server, an ordered stream that may break, reads in flight and the cache together, and proves
  that a quiet client shows what the server holds; `RunLaws` says what its runs make of the link
  and the cache; `GridFetch` proves the fetch and event glue over `Cache` and `Inflight` to take
  its steps.
- **Panes.** `PaneLayout` and `PaneTree` are the split tree, its layout and its edits;
  `PaneResize` the cascading divider drag that writes ratios in place, and `PaneMinimum` what its
  minimums and walls mean; `PaneCodec` a pane's place and the persisted layout, and `LayoutLaws`
  what any layout's fields say.
- **Descents.** `NavLevel` and `Nav` are the continuations and the two-arm barrier of entering
  a workspace, `NavContent` what a level is opened with, and `NavStuck` what a token delivered by
  the wrong route leaves behind.
- **Trace.** `TraceRing` is the ring of records and the one post in flight, `Flusher` the
  debounce and the flush loop that must not stall.
- **Saves.** `SaveQueue` is the per-key chain of content writes, with its goroutines interleaved
  step by step.
- **Rasters.** `RasterCache` is the cache of revocable pictures loaded in any order.
- **Drags.** `Carry` is the order a set of tiles is moved in.
- **Addresses.** `Reach` is routes and ids across connected nodes, `Address` the glob match.
- **Text.** `Wrap` and `Caret` are the soft wrap and the caret offset of a press.
- `Text`, `Numerals` and `Options` are shared helpers.

Where a statement the code or its comments make is not true of every input, the model keeps the
code and the condition is proved:

- A grid read of a tile's old grid that lands after the tile's move takes the tile out of its
  new grid, which is not asked for again (`GridSync.MovedTileIsLost`). A landing loses another
  grid nothing exactly when each tile it takes out of it is gone from it on the server, or still
  to be told there (`GridSync.LandingSpares`), and a row answered outside the stream when the
  undelivered events put it right (`GridSync.FoldSpares`).
- A change between a grid read's answer and the very first subscription is never told; the
  first stream resyncs nothing (`GridSync.EarlyAnswerIsStale`). It is behind exactly the grids
  whose cached or answered rows are not the server's when it opens, each until its next read
  (`GridSync.FirstStreamSpares`).
- A failing read that is owed a re-ask is not asked again (`GridSync.OwedIsAskedAgain`).
- A move refused while its target grid is not cached does not come back
  (`CacheLaws.MoveTakenBack`).
- A raster's margin is under a ninth of its box only up to an eighth past the widest step
  (`RasterCache.MarginIsSmall`).
- A respelled id reads back only when its tail does not itself read as a hop
  (`Reach.RespelledReadsBack`).

Floats are reals and 64-bit integers unbounded unless said otherwise. Strings are sequences of
characters. A mutex-protected section is one atomic step.

`dafny verify dfyconfig.toml` checks the whole project.

## Model

| member | source | states |
|---|---|---|
| GridSync.Quiescent | client/wasm/main.go:1048-1091 | In every run without local moves, once all events are delivered and no read is in flight each cached grid is the server's, unless its own last read failed or a change was lost to it since it was read; tiles may move between grids, listings move and be told by their grid's name alone, rows be answered outside the stream, reads fail, and streams end and reopen at any time |
| GridSync.GuardedRun | client/wasm/main.go:1048-1091 | No change is lost to any grid in a run whose first stream opens on current rows and whose landings and answers meet their guard, and such a run goes quiet only with every cached grid that did not fail last the server's |
| GridSync.FirstStreamSpares | client/retry/retry.go:104-110 | The first stream opens behind a cached grid, or an answer on its way in, exactly when the events to come will not make it what the server holds |
| GridSync.LandingSpares | client/cache/cache.go:265-284 | A landing leaves another grid catching up exactly when each tile it takes out of it is gone from it on the server, still to be told there, or the grid is to be read again |
| GridSync.FoldSpares | client/cache/cache.go:526-611 | A row answered outside the stream leaves a grid catching up exactly when the undelivered events put right each row it changes |
| GridSync.StepKeeps | client/wasm/main.go:750-814 | Each fetch, landing, release, event, answer and reconnect keeps it that every cached grid will catch up from the undelivered events, is being asked for again, failed last, or is known to have lost a change |
| GridSync.EventAsks | client/events/events.go:67-69 | Delivering an event clears its grid's failure and owes a read in flight of it another; a changed grid is also read if it is not being; no other grid's read or failure moves |
| GridSync.ResyncAsks | client/wasm/main.go:1117-1141 | After a gap exactly the grids cached, failed or being read are read anew and no failure is left |
| GridSync.FailedIsLastRead | client/wasm/main.go:779-807 | In every run a grid is failed, and left out of Quiescent, exactly when the last answer that landed for it was a failure |
| GridSync.LandingRenews | client/wasm/main.go:789-807 | A landed answer clears the grid's failure and it has caught up unless the first stream opened behind its back; no other read moves |
| RunLaws.LinkIsLast | client/retry/retry.go:91-116 | In every run the link is down until subscribed and open from a subscribed stream's opening to an end; a gap is owed from an end to the next opening, by the acts alone |
| RunLaws.ReconnectRenews | client/retry/retry.go:101-116 | In every run the opening after an end reads anew every grid cached, failed or being read, and leaves none behind |
| RunLaws.CacheIsRun | client/wasm/main.go:1048-1091 | In every run the cache is exactly what the events delivered, the answers landed and the client's own writes make of the empty one, so every law of CacheLaws holds of it |
| RunLaws.SyncKeepsEdit | client/cache/cache.go:88-97 | In every run unsaved bytes outlast all events, reads and reconnects until edited, confirmed or dropped |
| GridSync.SnapshotStands | client/events/events.go:123-138 | Events a snapshot already contains, replayed onto it, change nothing |
| GridSync.ReplayTile | client/cache/cache.go:512-524 | Whatever row a tile has, replaying the undelivered events ends at the server's exactly when one is left for it that the version refusal lets through, or it is the server's already |
| GridSync.OwnEventsSuffice | client/cache/cache.go:286-296 | What a grid's own events make of an answer the cache's evictions make of it too |
| GridSync.ApplyTells | client/cache/cache.go:638-677 | With no holds an event does to each cached grid exactly what it says: a row stored unless refused for its version, and taken out of every other grid |
| GridSync.PutGridReads | client/cache/cache.go:263-284 | With no holds a grid read installs the answered rows and takes exactly the tiles it lists out of every other grid |
| GridSync.OwedIsAskedAgain | client/wasm/main.go:789-804 | A read owed a re-ask is asked again exactly when it was answered: a failure latches before the claim is released, so its re-ask is refused |
| GridSync.MovedTileIsLost | client/cache/cache.go:286-296 | The landing's guard failing: a run in which a tile changes grid, a stale read of its old grid lands, and the tile stays missing from its new one |
| GridSync.EarlyAnswerIsStale | client/retry/retry.go:104-110 | The first stream's guard failing: a run in which a change between a read's answer and the very first subscription is never told, and the cached grid stays stale |
| GridFetch.App.FetchGrid | client/wasm/main.go:779-807 | Asks exactly when the grid is neither latched nor in flight, leaving the protocol's claims |
| GridFetch.App.Receive | client/wasm/main.go:1048-1081 | The event arm leaves the cache, claims and latches the protocol's step says |
| GridFetch.App.Land | client/wasm/main.go:750-775 | An answer is stored and clears the latch, a failure latches, as the protocol's landing |
| GridFetch.App.Done | client/wasm/main.go:792-804 | The claim goes and an owed read is asked again, as the protocol's release |
| GridFetch.App.RetryKick | client/wasm/main.go:1117-1141 | After a gap exactly the grids latched, in flight or cached are in flight anew, owed nothing |
| Inflight.VerdictStands | client/inflight/reads.go:72-91 | One verdict sets its own key's latches and no other's, an abandoned read none |
| Inflight.LatchesSayLastWord | client/inflight/reads.go:72-143 | Over every sequence of verdicts, clears, revivals and backstops the latches say of each key its last verdict that was not abandoned and has not been cleared since |
| Inflight.Reads.Join | client/inflight/reads.go:58-63 | A key is claimed exactly when it is neither latched nor in flight, and a fresh claim is owed nothing |
| Inflight.Reads.Release | client/inflight/inflight.go:85-102 | Only the claim's own hold on the key is dropped |
| Inflight.Reads.Change | client/inflight/reads.go:113-119 | The latches are cleared and a read in flight is owed a re-ask |
| Inflight.Reads.CancelIf | client/inflight/inflight.go:104-121 | Exactly the matched claims are dropped and cancelled |
| Inflight.Reads.ClearIf | client/inflight/reads.go:129-143 | Exactly the matched failed keys are cleared and named |
| Inflight.CancelledReadReturnsLate | client/inflight/inflight.go:85-102 | A cancelled read that returns after its key was asked again leaves the second claim held, live and owed nothing |
| CacheLaws.RunKeepsPlaces | client/cache/placement.go:26-35 | Over every sequence of operations a tile is cached in one grid at most, rows and grids are under their own ids, and while a hold stands a cached row is where the hold put it |
| CacheLaws.StepKeepsPlaces | client/cache/placement.go:104-142 | Each single operation keeps that |
| CacheLaws.AnswersNeverPlant | client/cache/cache.go:526-548 | Neither UpdateTile nor PutWriteResponse ever caches a tile that was not |
| CacheLaws.VersionsNeverFall | client/cache/cache.go:512-524 | Nothing but a grid read takes a cached row back a version |
| CacheLaws.HoldStands | client/cache/placement.go:26-35 | A hold ends only by its own echo, a read once its write landed, an answer under another id, its own failure, or a newer move; an older move's verdict leaves it alone |
| CacheLaws.MoveTakenBack | client/cache/placement.go:46-99 | A move refused at once leaves every grid as it was exactly when its target grid was cached, and otherwise leaves the row uncached |
| CacheLaws.EditSurvives | client/cache/cache.go:130-199 | An unsaved edit is lost or changed exactly by another edit, a save confirming the same bytes, or dropping the body by name |
| CacheLaws.RunKeepsEdit | client/cache/cache.go:298-361 | Over any run without one of those the edit is still there byte for byte |
| CacheLaws.GenNamesOneBody | client/cache/cache.go:148-164 | Over a whole run one body generation never names two byte strings |
| CacheLaws.OwnSaveIsNotNews | client/cache/cache.go:81-101 | The echo of a save's own row keeps the body unless it says the bytes changed and names no stamp |
| CacheLaws.WriteHoldsAging | client/cache/cache.go:298-361 | Over every run of operations, while any of a tile's overlapping writes is in flight its body is what it was, byte for byte, unless an operation writes it by name, the tile is removed, or the last write ends |
| CacheLaws.LastEndAges | client/cache/cache.go:347-361 | A row seen during a write waits for its end, which ages the body against the row then cached, or else the last one seen |
| BodyLaws.EventDrops | client/cache/cache.go:81-101 | An event's row, unless older than the cached one, drops its tile's body exactly when clean, unwritten and stale: the row is newer, or at the same version has another stamp, or no stamp and is told of a change or names another blob; no other body moves |
| BodyLaws.ReadDrops | client/cache/cache.go:265-284 | A grid read drops a body exactly when clean, unwritten and stale against a row it lists of that tile |
| BodyLaws.UpdateDrops | client/cache/cache.go:526-535 | A row read outside the stream judges its tile's body the same way, stored or not, unless refused |
| BodyLaws.ResponseDrops | client/cache/cache.go:586-611 | A write's answer judges it by the row it makes, and does nothing when it claims an older version |
| BodyLaws.RemovalDrops | client/cache/cache.go:650-674 | A removal from a cached grid takes the tile's clean body along, unless a move holds it there |
| BodyLaws.EndDrops | client/cache/cache.go:347-361 | The last end of a tile's writes judges its body by the row then cached, or the last one seen, told if any was; an earlier end is one write less |
| BodyLaws.WriteRemembers | client/cache/cache.go:298-311 | A row seen during a write is kept as the last one, told once any was told |
| BodyLaws.FetchFiles | client/cache/cache.go:131-146 | A read body is refused over an unsaved edit, a newer version, or a cached row that names other bytes than it was asked under, and otherwise filed clean |
| BodyLaws.SavedThenRow | client/cache/cache.go:177-199 | After a save, a later row drops the body exactly when it is newer than the saved row or names other bytes than it at the same version |
| BodyLaws.SaveFiles | client/cache/cache.go:177-199 | A save files its row over bytes edited since, which stay unsaved, or the saved bytes clean; a generation outlives a save of the bytes it names |
| BodyLaws.EditFiles | client/cache/cache.go:165-176 | An edit is unsaved, under a generation of its own, and stays on the version it was made over |
| BodyLaws.AnswerSets | client/cache/cache.go:550-584 | Which fields each kind of write takes from its answer, all else from the cached row |
| BodyLaws.EventShows | client/cache/cache.go:638-677 | An event shows exactly when its row is stored in a cached grid, or its removal takes a row no move holds there |
| BodyLaws.AnswerSettlesHold | client/cache/placement.go:64-82 | A move's answer marks its own hold landed, or ends it when another tile answered |
| ReadLaws.UnlistedAfterRead | client/cache/placement.go:120-142 | A tile a read does not list stays in the grid exactly when a move not landed holds it there; a hold there whose write landed ends |
| ReadLaws.ListedAfterRead | client/cache/placement.go:104-118 | A tile it lists and keeps is there alone, as listed but where a move not landed put it; a landed hold ends |
| ReadLaws.AwayAfterRead | client/cache/cache.go:265-284 | A listed tile that a move holds in another grid goes there, unless that grid is not cached or has a newer row |
| Cache.Store.PutGrid | client/cache/cache.go:263-284 | The loop over the answered rows, the holds and the rows set aside leaves what the specification says, which the laws are about |
| Cache.Store.Apply | client/cache/cache.go:638-677 | An event's branch by branch effect and, but for a selection, whether it shows |
| Cache.Store.UpdateTile | client/cache/cache.go:526-534 | A row read outside the stream is stored only where it already is |
| Cache.Store.PutWriteResponse | client/cache/cache.go:586-611 | A write's answer contributes what the write set, and a stale claim nothing |
| Cache.Store.KeepHeld | client/cache/placement.go:125-142 | Rows held in a grid that its read predates are carried over; landed holds end |
| Cache.Store.EvictElsewhere | client/cache/cache.go:286-296 | Every other grid forgets the tile |
| Cache.Store.Move | client/cache/placement.go:46-62 | The row is moved and held under a number of its own |
| Cache.Store.Landed | client/cache/placement.go:64-82 | The answer is folded in, then speaks for the hold |
| Cache.Store.Failed | client/cache/placement.go:84-99 | The row goes back unless the hold is no longer this move's |
| Cache.Store.PutFetchedContent | client/cache/cache.go:131-146 | A read body is filed, or refused over an edit, an older version or a moved row |
| Cache.Store.End | client/cache/cache.go:347-361 | The last end of a write ages the body |
| Cache.Store.DirtyTileIds | client/cache/cache.go:226-237 | Exactly the tiles with an unsaved edit |
| PaneLayout.PanesTile | client/pane/layout.go:28-52 | Each point of the window is in exactly one pane and no pane reaches outside it |
| PaneLayout.HalvesPart | client/pane/layout.go:73-90 | A split's two halves part its rectangle point by point |
| PaneLayout.FirstHalfLeads | client/pane/layout.go:72-90 | The first half is the part above, or left of, the ratio's share of the rectangle, the ratio held between nothing and the whole |
| PaneLayout.FirstChildLeads | client/pane/layout.go:72-90 | On screen every pane of a split's first child is above, or left of, every pane of its second |
| PaneLayout.Layout | client/pane/layout.go:28-52 | A zoom on a pane owns the window; otherwise each pane gets its rectangle |
| PaneLayout.Restore | client/pane/resize.go:426-433 | Every ratio recorded is put back |
| PaneResize.ResizeThrough | client/pane/resize.go:242-279 | Writes, in place, exactly the ratios of the drag to the clamped cursor, and none when nothing moves |
| PaneResize.DragLands | client/pane/resize.go:242-279 | With room for every minimum, the divider ends exactly at the cursor held between the walls, the rewritten ratios give exactly the new sizes, the corridor keeps its extent, and no segment is pushed below its minimum |
| PaneResize.MovedBy | client/pane/resize.go:339-361 | The divider gets where it was to, with the extent conserved, exactly when the pressed side's slack covers the move |
| PaneResize.DragCascades | client/pane/resize.go:339-361 | A farther segment is pressed only once every nearer one is at its minimum, and only the segment across the divider grows |
| PaneResize.DragRedraws | client/pane/resize.go:363-382 | On screen each corridor pane is redrawn inside its segment's new stretch and no pane outside the corridor moves |
| PaneResize.AppliedLaysOut | client/pane/resize.go:363-382 | The ratios rewritten for given sizes lay out to exactly those sizes |
| PaneResize.TakeSequential | client/pane/resize.go:339-361 | The loop takes the need outward from the boundary, in place |
| PaneResize.TakenExactly | client/pane/resize.go:339-361 | Exactly the need is taken, or all the slack there is |
| PaneResize.Apply | client/pane/resize.go:363-382 | The walk rewrites each split's ratio from its children's new extents |
| PaneResize.CorridorTop | client/pane/resize.go:281-311 | The climb stops at the topmost split of the run |
| PaneResize.TopIsWholeRun | client/pane/resize.go:281-311 | The run's top splits the target's axis and its parent, if any, the other |
| PaneResize.OpenCorridor | client/pane/resize.go:21-39 | A corridor opens around every divider of the tree and no other |
| PaneResize.SegmentsLinedUp | client/pane/resize.go:313-326 | A run's segments are laid out one after another by their sizes |
| PaneResize.Walls | client/pane/resize.go:41-51 | The walls are the sums of the minimums from each end |
| PaneMinimum.MinSizeIsLeast | client/pane/resize.go:384-398 | A segment's minimum is exactly the least extent in which some ratios give every pane of it the minimum along the axis |
| PaneMinimum.WallsAreExact | client/pane/resize.go:41-51 | Between the walls, and there only, some sizes of the corridor's extent put the divider and give every segment its minimum |
| PaneMinimum.WallsAreTight | client/pane/resize.go:41-51 | At a wall every segment on that side is at its minimum |
| PaneMinimum.HeldBetween | client/pane/resize.go:242-279 | The cursor is held to the nearest place between the walls |
| PaneTree.Tree.SplitOnSideAt | client/pane/pane.go:143-211 | The new pane has an id never used, sits beside the focused one and takes the focus |
| PaneTree.SplitDraws | client/pane/pane.go:143-169 | A split leaves every other pane where it was; the new one takes the asked share from its side |
| PaneTree.Tree.Swap | client/pane/pane.go:242-257 | Two panes are exchanged, an unknown one is refused after the zoom is gone |
| PaneTree.ExchangeDraws | client/pane/pane.go:242-257 | Exchanged panes take each other's rectangles and no other moves |
| PaneTree.Tree.RemoveSegment | client/pane/resize.go:178-208 | A segment goes and its sibling is hoisted, never the whole tree; a focus that went with it lands on a leaf |
| PaneTree.WithoutKeeps | client/pane/resize.go:178-208 | Exactly the segment's panes go |
| PaneTree.WithoutDraws | client/pane/resize.go:176-211 | On screen the segment's sibling takes the whole rectangle the two shared and no other pane moves |
| PaneTree.AnyLeafIsFirst | client/pane/pane.go:230-240 | The pane that takes a lost focus is the first with an id, top to bottom and left to right |
| PaneTree.Tree.Focus | client/pane/pane.go:283-300 | Recency keeps each pane once, most recent first, without the focused one |
| PaneTree.FilteredInOrder | client/pane/pane.go:283-300 | Panes kept in the recency keep their order |
| PaneTree.Tree.ToggleZoom | client/pane/pane.go:91-101 | Zooms a known pane, unzooms it, ignores others |
| PaneTree.Removed | client/pane/resize.go:185-200 | The walk removes exactly a subtree that is under the root and is not the root |
| PaneCodec.RoundTrip | client/pane/wire.go:61-89 | Decoding what was encoded restores shape, ratios, ids, focus, zoom, every level of every place, and the views and scroll the layout owns, under any id prefix; leaves out of reach come back home |
| PaneCodec.VisitWritesNothing | client/pane/wire.go:61-67 | Encoding the decoded tree again, before or after waiting panes adopt their rows' views, gives the identical layout |
| PaneCodec.LeafRoundTrip | client/pane/wire.go:56-61 | Every view of the layout's own comes back exactly, settled; every other is left out, and a top without one waits at the origin; a content top's own scroll comes back; and nothing else |
| PaneCodec.PlaceRoundTrip | client/pane/wire.go:322-352 | A place reads back frame for frame, whether written level by level or as its projection |
| PaneCodec.HomeRoundTrip | client/pane/wire.go:116-124 | A leaf with an id out of reach reads back as home |
| PaneCodec.DecodeAccepts | client/pane/wire.go:205-298 | A layout is accepted exactly when its version is known, its nodes are well shaped, and its prefixed pane ids are present and unique |
| PaneCodec.MintsAreFresh | client/pane/wire.go:227-258 | No pane id minted after a decode collides with one it read |
| PaneCodec.DecodeLayout | client/pane/wire.go:205-269 | The walk over the leaves finds the first bad id, the first leaf and the highest number |
| PaneCodec.Stack.AnchorPathAt | client/pane/place.go:275-303 | The anchor is the nearest level with a grid of its own, the path the doors below it |
| PaneCodec.AdoptingKeeps | client/pane/place.go:129-146 | Adopting a row's view changes nothing the layout keeps |
| PaneCodec.Stack.Adopt | client/pane/place.go:129-146 | Only a pending top with a view to adopt is settled; a scroll of its own stays |
| PaneCodec.Stack.Pop | client/pane/place.go:233-242 | Ascends one level, refused at the bottom |
| PaneCodec.StackAt | client/pane/place.go:161-174 | The stack a grid, a path and a content name |
| LayoutLaws.ProjectionReadsBack | client/pane/place.go:192-206 | The frames a root grid, a path and a content name project back to exactly those, and need no place written |
| LayoutLaws.StartIsNearest | client/pane/place.go:277-303 | A level's anchor is the nearest level down with a grid of its own, or the bottom |
| LayoutLaws.PlaceIsWritten | client/pane/wire.go:112-178 | Anchor, path and content are always written, and the place exactly when they do not say it all |
| LayoutLaws.SkippedWhen | client/pane/wire.go:120-178 | A leaf is written home exactly when an id of its place or a step of its path is out of reach |
| LayoutLaws.SkippedNames | client/pane/wire.go:91-110 | The ids skipped are exactly those of the leaves written home |
| LayoutLaws.DecodeRepairs | client/pane/wire.go:206-269 | Any accepted layout keeps its shape with ratios clamped; an unknown focus falls to the first leaf, an unknown zoom to none |
| LayoutLaws.LeafReads | client/pane/wire.go:296-322 | Views that do not match the place frame for frame are dropped whole, and otherwise land on grids only; a scroll only under a content top; a top without a view waits at the origin |
| LayoutLaws.PlaceReads | client/pane/wire.go:324-352 | Level by level the place, or else the projection, in the reader's ids |
| LayoutLaws.AdoptSettles | client/pane/place.go:132-154 | A waiting top takes its row's view as its own and the row's, and the row's scroll unless it has one; any other top, and a row with no view, change nothing |
| Numerals.ItoaValue | client/pane/pane.go:197 | A number written in an id reads back |
| NavLevel.OneInstallEach | client/nav/nav.go:144-174 | Over any interleaving of landings, answers, newer descents and panes going away a descent installs its level at most once, exactly when both arms reported and the fetch had not failed; a pending descent is owed a report by a live continuation |
| NavContent.InstalledAsAnswered | client/nav/level.go:113-180 | A level installed in any run opens by the row read under its own id, the door's or one link hop on the target's; it captures the window exactly when that row has no layout, and otherwise shows the layout read under its id, read-only exactly when that did not decode |
| NavContent.RunIsWatched | client/nav/level.go:113-180 | Every run can be watched so |
| NavContent.EffectsAreNamed | client/nav/level.go:74-111 | Each read a step asks for is awaited by a live continuation of its level under the level's id, and a transition lands on a live one of its pane |
| NavContent.EnterNames | client/nav/level.go:48-97 | A descent starts its pane's transition, expanding exactly when the door was never arranged, landing on its new join |
| NavContent.ReportReads | client/nav/level.go:191-229 | The last arm of a join puts the origin pane's place back and, unless one failed, installs the level; an earlier one shows nothing |
| NavLevel.StepKeeps | client/nav/nav.go:123-174 | Every step keeps a live barrier's arms equal to the live continuations carrying it |
| NavLevel.PendingIsOwed | client/nav/nav.go:176-178 | While a level is pending some live continuation carries a live barrier |
| NavLevel.RunGoesOn | client/nav/nav.go:226-342 | Every run goes on by any act delivered by its own route, so the results over runs leave none out |
| NavStuck.MisroutedSticks | client/nav/nav.go:226-342 | A token delivered by the other route leaves its descent pending for good: over every later run its join stays owed more than live continuations carry, until a newer descent in its pane or the pane goes while one still carries it |
| NavStuck.SupersededNeverInstalls | client/nav/nav.go:128-158 | A descent still pending when its pane is entered anew or goes never installs, at that step or in any run from it |
| NavStuck.ForgotRetires | client/nav/nav.go:124-145 | A pane that goes takes its continuations and its joins with it, and no other's |
| NavLevel.AnswerTells | client/nav/level.go:111-217 | An answer lets a fetch wait on under a new continuation or ends its arm |
| Nav.Machine.EnterLevel | client/nav/level.go:46-97 | A descent arms its animation and its fetch on one barrier |
| Nav.Machine.ForgetPane | client/nav/nav.go:125-142 | A pane's continuations go with the barriers they armed |
| Nav.Machine.ArriveAt | client/nav/nav.go:158-174 | The barrier is answered to its last arm only |
| Nav.Machine.LevelRow | client/nav/level.go:119-151 | One hop along a link, a refusal of a non-workspace reload, then the layout or a capture |
| Nav.Machine.ResumeToken | client/nav/nav.go:226-309 | An awaited answer retires its continuation |
| TraceRing.Client.PendingBatch | client/trace/trace.go:97-122 | Exactly the unacknowledged records in order, after one that tells the losses; none of a kept batch |
| TraceRing.DropsReadBack | client/trace/trace.go:97-106 | The record of losses reads back as how many were lost |
| TraceRing.Client.BatchFrom | client/trace/trace.go:131-142 | The ring read from a serial on is the log from there |
| TraceRing.Client.Append | client/trace/trace.go:67-88 | A record joins the log; the one it evicts is counted lost exactly when the node had not acknowledged it |
| TraceRing.Client.Ack | client/trace/trace.go:115-121 | Acknowledging a batch keeps its serials and leaves later ones owed |
| TraceRing.NothingSlips | client/trace/trace.go:31-42 | Every record emitted is kept, counted as lost, or still held and owed |
| TraceRing.Pump.Unload | client/trace/pump.go:40-48 | The last batch holds nothing kept and nothing a post still out carries |
| TraceRing.Pump.Start | client/trace/pump.go:20-28 | A batch is posted exactly when none is out and one is due |
| TraceRing.Pump.DueWhen | client/trace/pump.go:73-86 | Nothing owed is never due; anything is a second after the last post; sooner only a full batch, and not after a post not kept |
| TraceRing.Pump.Done | client/trace/pump.go:51-65 | A failure acknowledges nothing |
| TraceRing.Pump.Wait | client/trace/pump.go:65-76 | Until the flush clock, or a millisecond when that is nearer or past; nothing when none is owed or one is out |
| Flusher.Loop.Kick | client/trace/flusher.go:34-48 | Afterwards a pending record has a post out or the timer armed, for no sooner than the flush clock and, on a clock that does not run back, less than a millisecond past it |
| Flusher.Loop.TimerFires | client/trace/flusher.go:34-48 | On the flush clock a firing posts what is owed |
| Flusher.Loop.Answered | client/trace/flusher.go:71-76 | After an answer the loop is live again |
| Flusher.Debounce.Arm | client/debounce/debounce.go:45-55 | A pending debounce has exactly one firing scheduled |
| Flusher.Debounce.Fire | client/debounce/debounce.go:70-80 | A settle waits out a moved window with one firing, and a run clears pending first |
| SaveQueue.OneAtATimeInOrder | client/outbox/chain.go:78-106 | In every interleaving one task a key runs at a time, tasks start in the order added, and none is forgotten |
| SaveQueue.HookHearsLastWrite | client/outbox/chain.go:32-36 | After hears how the last write of the busy run went, true with none, whatever hooks ran between |
| SaveQueue.EndAnswers | client/outbox/chain.go:22-36 | A write that ends answers for itself, a hook for the last write before it |
| SaveQueue.HoldersComeFirst | client/outbox/chain.go:47-85 | In every interleaving a task that waits for holds starts after everything its chain was given while any hold it found still lived, its holders' writes among them, in that order |
| SaveQueue.NoneIsLost | client/outbox/chain.go:27-106 | In every interleaving a task brought is waiting under a hold, on its way to its chain or in it, and with no hold left and the chain idle it has started |
| SaveQueue.WaitersAreHeld | client/outbox/chain.go:47-85 | A task waits for holds only while there is one |
| SaveQueue.LastReleaseFrees | client/outbox/chain.go:38-62 | The last release frees every waiting task in order, an earlier one none |
| SaveQueue.Queue.TakeNext | client/outbox/chain.go:90-106 | Between two tasks the chain takes the next in line or goes idle |
| SaveQueue.Queue.Add | client/outbox/chain.go:78-88 | A task joins a busy chain's line or starts an idle one |
| RasterCache.Cache.Ensure | client/rasterprev/rasterprev.go:106-171 | A ready raster of the very key is answered, a failed key never, and else what stands in; a load begins exactly on a miss with the bytes there, and then other widths whose bytes moved on are let go and the slot keeps only a picture of the document's other bytes |
| RasterCache.Cache.StandIn | client/rasterprev/rasterprev.go:182-212 | The ready raster of the document nearest in width, the narrower of two as near, or else the slot's picture before while its load is out, or else none |
| RasterCache.Cache.LoadReady | client/resload/resload.go:70-81 | A raster is installed exactly when its load is its slot's newest, which then shows it alone and is no longer loading or failed; otherwise it is revoked and nothing else changes |
| RasterCache.Cache.LoadFailed | client/resload/resload.go:83-92 | Only the newest load settles a miss: the key is failed, no longer loading, and the picture before goes |
| RasterCache.Cache.Drop | client/rasterprev/rasterprev.go:218-227 | Exactly the tile's slots go, each handle revoked |
| RasterCache.ClearAccounts | client/resload/resload.go:63-68 | Every delivered handle is owned at one place or revoked, never both, through a release |
| RasterCache.MoveAccounts | client/rasterprev/rasterprev.go:147-158 | Handing the slot's picture to its successor keeps that account |
| RasterCache.Bucket | client/rasterprev/rasterprev.go:18-36 | The widest step that does not clip the box |
| RasterCache.MarginIsSmall | client/rasterprev/rasterprev.go:15-17 | The margin is under a ninth of the box exactly up to an eighth past the last step |
| Carry.MoveOrder | client/dragdrop/carry.go:92-121 | Every member is placed once, the leftover branch running exactly when the unmoved block one another |
| Carry.DisjointIsNotStuck | client/dragdrop/carry.go:92-96 | Members that share no cell are never stuck, so the leftover branch never runs |
| Carry.StuckHasNoSafeOrder | client/dragdrop/carry.go:110-120 | A set that is stuck has no safe order at all |
| Carry.NothingAhead | client/dragdrop/carry.go:92-96 | Among disjoint tiles one always has nothing ahead of it |
| Carry.DropLands | client/dragdrop/carry.go:74-121 | When no landing meets a tile outside the set, every placement is accepted in the order and the grid ends with the set landed and all else in place |
| Carry.Occupied | client/dragdrop/carry.go:74-90 | The set is refused exactly when a landing meets a tile the drop does not vacate |
| Carry.OverlapIsSharedCell | client/dragdrop/dragdrop.go:126-132 | Two tiles overlap exactly when some cell is in both |
| Reach.RespellReaches | api/rpc/reach.go:143-171 | A respelled id reads, at the holder and at the asker, to the same node with the same tail as the id it respells |
| Reach.RespelledReadsBack | api/rpc/reach.go:143-171 | It reads back exactly unless its tail would be read as one more hop |
| Reach.Respell | api/rpc/reach.go:143-171 | It refuses exactly where a walk or the route is missing and otherwise spells grid's hops, a shortest route and the tail |
| Reach.Route | api/rpc/reach.go:99-132 | A shortest chain of at most the given hops, exactly when there is one, on every finite graph |
| Reach.ReadChain | api/rpc/reach.go:53-73 | The hops at the front of an id and its tail |
| Reach.ChainSpellsId | api/rpc/reach.go:53-73 | An id's hops and its tail spell it |
| Reach.Walk | api/rpc/reach.go:75-97 | Each connection's landing in turn |
| Address.MatchAddress | api/rpc/address.go:9-27 | The greedy leftmost scan accepts exactly the addresses spelled by some run of characters for each star |
| Address.LeftmostSuffices | api/rpc/address.go:18-25 | Taking the leftmost occurrence loses no match |
| Wrap.WrapRawLine | client/markdown/wrap.go:13-54 | The loop's rows are the rule's |
| Wrap.WrapKeepsLine | client/markdown/wrap.go:7-12 | The rows concatenate to the line, whatever the width |
| Wrap.RowsAreGood | client/markdown/wrap.go:7-12 | Each row shows at most cols and ends at a word, at the line's end, or cuts a word longer than cols |
| Wrap.RowsAreFull | client/markdown/wrap.go:16-54 | No word moves down that the row above could still show |
| Wrap.WrapRawText | client/markdown/wrap.go:56-69 | Each line's rows, line after line |
| Caret.CaretAt | client/textcursor/caret.go:25-52 | The offset of a press counts, in UTF-16 units, exactly the text before it |
| Caret.PressedRow | client/textcursor/caret.go:25-33 | A press's row is the slot it falls in, above the first the first |
| Caret.PressedColumn | client/textcursor/caret.go:25-33 | Its column is the nearest, and left of the first the first |
| Caret.UnitsAreRunes | client/textcursor/caret.go:54-54 | A text's UTF-16 units are its runes and one more for each beyond the basic plane |
| Caret.RowIsRead | client/textcursor/caret.go:25-52 | A visual row reads the text from its position on |
| Caret.ColumnsCountRunes | client/textcursor/caret.go:25-52 | Along its row each column is one rune on, clamped to the row |

## Left out

- JSON, base64 and protobuf bytes: layouts, records and rows are modelled as the values they carry.
- client/wasm other than the fetch and event glue: DOM, canvas, drawing and the draw's own asks for a missing grid, which GridSync admits at any time.
- client/cache/selection.go: taps ahead of the node's word.
- Cache.Store.Apply: says nothing of what a selection event shows, because selections are not part of the cache model.
- Source health, dark sources and cache.Current: which source is answering, and the scoping of a resync to one source; GridSync models the resync of every source.
- A cancelled read whose answer had already arrived: GridSync lets a cancelled read store nothing, as its error tells it to.
- An answer under another grid id: GridSync lets a read answer only for the grid asked.
- Undeclared namespaces refused before a read: not part of GridSync.
- Write ends are modelled by tile id; the once around each end is the caller's.
- GridSync.Quiescent: bounded to runs without local moves, because a hold shows a placement the server does not hold yet; holds are CacheLaws' subject.
- Tree nodes are values that hold split objects: ratios are written in place, but a node's two children are replaced by building a new tree, so aliasing of child slots is not captured.
- PaneResize.ResizeThrough: reads every ratio once before it moves any, where the code reads them as it walks; nothing writes between.
- Red close states of a crush drag (CrushPlan): one comparison per segment.
- Minimum sizes of leaves inside perpendicular subtrees: minimums are kept per segment, as the code keeps them.
- Float rounding, durations of animations, and NaN or infinite framings beyond a zoom that is not positive.
- PaneTree.Tree.SplitOnSideAt: the copy of the focused pane's place into the new pane, which PaneCodec's frames carry.
- Trace record truncation and the wire line format of a batch.
- Gesture planning in client/nav other than workspace descents: zoom geometry, ascents, restores from a URL, shells and links.
- NavLevel.OneInstallEach: for tokens delivered by their own route; the other route is NavStuck.MisroutedSticks.
- The wall-clock of timers: a debounce's firing may come at any time, and Flusher says what it does then.
- SaveQueue: what a task does while it runs, beyond whether it landed.
- The rasterizer's documents and error notices, and the testhook's state summary.
- CarryOf's choice of which selected tiles ride along, and the decision tables of a drop.
- The shape of an id segment is a parameter of Reach, so its results hold for every total classifier.
- Markdown and org rendering, and everything the server does.
