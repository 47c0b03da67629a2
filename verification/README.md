# OpenSesh, verified

A Dafny model of the parts of OpenSesh where a mistake is hard to see by reading one function:
what the terminal draws, what a remote desktop shows, and what happens to tunnels, files,
settings, command lines and macros over whole runs. Every claim is for all inputs, all runs or
all reachable states. `dafny verify dfyconfig.toml` checks everything.

| file | models |
|---|---|
| `GlyphAtlas.dfy` | the texture the terminal's glyphs are packed in: shelves, growth, clears, the caches, the budget of a frame |
| `Terminal.dfy` | the terminal's copy of the grid, what each cell means, and the quads that draw it |
| `Renderer.dfy` | the nodes of the scene: which rows are drawn again, the passes of a frame, the texture |
| `RemoteScreen.dfy` | the remote desktop: the shared frame and its changed rectangles, the tiles, the nodes |
| `Mailbox.dfy` | the mailbox between a remote session and its pane, and the wake-ups |
| `Tunnels.dfy` | the tunnel manager: runs, callbacks, questions, sessions |
| `AtomicWrite.dfy` | atomic saves with rotated backups, with a failure or a crash at any step |
| `SettingKinds.dfy`, `Settings.dfy` | reading and writing the settings file, as a table |
| `CommandLine.dfy` | splitting and joining command lines |
| `Common.dfy` | what several modules share |
| `Macros.dfy` | recording typed input as steps, and typing steps |

## How to read it

**The terminal.** `Atlas` and `RootNode` are classes with the fields the program has. The state of
the atlas but for its texels is the record `View`; `live` in it lists what was placed since the last
clear, and `drawn` what was painted for each cached glyph. `Sound` says that the entries lie inside
the image, at least a texel apart, and that every cached glyph and both fixed tiles name one of
them, and that a cached glyph is invalid only for want of room; `ImageShows` that the image is
exactly the picture they make. Painting, shaping time and memory are arbitrary values. `Progress` is
what any work in a frame may do to the atlas, and `Worked` that time is only spent on something new;
`UpToDate` is what `Sync` leaves behind, and `Displayed` that every item is then shown with all its
ink. The comment in the program allows for a third pass; the proof shows that it never happens.
Glyphs left for a later frame run out: `Missing` counts what the grid still needs. A new frame
background marks no row: `BackStaysRight` says exactly which unmarked rows stay right.

**The remote desktop.** The tiles refine one flat picture (`flat`), and the nodes show the frame. A
paint on a fresh root that nothing asked nodes for shows no tile at all: `Paint` says exactly when
the screen shows the frame. The mailbox is one for all panes that show a session, one after the
other: a wake of an earlier pane that comes late takes what the present one should be told.
`CanMiss` says exactly when that can happen.

**Tunnels.** Commands, callbacks and the turns of a tied tunnel's task each happen at once, so every
interleaving is a sequence of the methods of `Manager`; `Good` holds between any two of them, and
`History` relates any two states of a run. Each entry carries a number of its own (`life`) for the
proofs. A tunnel removed and made again counts its runs from 0 again, so a late callback of the old
one can be taken for the new one's, even when that is off: `OffShowsNothing` says exactly when it
is, and `OutlivedForGood` and `ReachOldRun` exactly when it still can be. A tied tunnel's forwarder
is its task's: after a tunnel is switched off it lasts until the task ends, which `TasksQuiet` waits
for.

**Files.** The disk is a map from names to contents, and `seen` lists every state a crash could
leave. If the target, through a symbolic link, is one of its own backups, a save that goes well can
bring back the old contents, and a crash can leave no target: `Save` says exactly when.

**Settings.** One table of fields (section, name, kind, default) stands for the calls written out in
the program; fields and sections are read in any order. Numbers of the file are reals or not finite.

**Command lines.** The documentation of `join` promises that `split` undoes it. That holds exactly
if there are words and none has both kinds of quote.

**Macros.** Waits see the last 64 KiB of the output since the one before matched. What is typed and
the pauses between are one sequence of events; steps say events, and playing them makes events.
Typed text that happens to read as `{{name}}` is not typed back: `RecordingTypesBack` says exactly
when a recording is.

## Model

| member | source | states |
|---|---|---|
| GlyphAtlas.Atlas.Allocate | crates/opensesh-app/cpp/terminal_render.cpp:345-363 | Succeeds exactly when the size and its gutter fit the current or the next shelf; the place is inside the image and a texel apart from everything placed |
| GlyphAtlas.CursorIsApart | crates/opensesh-app/cpp/terminal_render.cpp:345-363 | The shelf cursor is apart from every entry, on this shelf and the earlier ones |
| GlyphAtlas.Atlas.Blit | crates/opensesh-app/cpp/terminal_render.cpp:394-413 | Copies the area's pixels (alpha alone for a mask) into its rectangle and changes no other texel |
| GlyphAtlas.Atlas.Grow | crates/opensesh-app/cpp/terminal_render.cpp:369-384 | Doubling keeps every entry's texels, caches and places; without memory nothing changes |
| GlyphAtlas.Atlas.TryPlace | crates/opensesh-app/cpp/terminal_render.cpp:391-416 | Without moving the atlas: placed exactly if it fits, and the image then shows the new entry and all the others |
| GlyphAtlas.Atlas.MakeRoom | crates/opensesh-app/cpp/terminal_render.cpp:369-390 | Grows below the largest size, else clears at most once per frame, else does nothing; nothing named is left dead |
| GlyphAtlas.Atlas.Place | crates/opensesh-app/cpp/terminal_render.cpp:365-417 | Never moves the atlas if the area fits; fails only when it fits nowhere even after growing or clearing, and then for want of memory, for its size, or because the largest image is full; terminates with ClearContents and AddFixedTiles; the rectangle returned is alive even if placing it cleared the atlas |
| GlyphAtlas.Atlas.ClearContents | crates/opensesh-app/cpp/terminal_render.cpp:277-293 | Leaves no cached glyph, a later generation and a sound atlas |
| GlyphAtlas.Atlas.AddSolid | crates/opensesh-app/cpp/terminal_render.cpp:297-310 | The white block is placed and alive |
| GlyphAtlas.Atlas.AddFixedTiles | crates/opensesh-app/cpp/terminal_render.cpp:295-343 | Both tiles, if they have room, name live rectangles, though placing the second may grow the atlas |
| GlyphAtlas.EntryKeepsItsPixels | crates/opensesh-app/cpp/terminal_render.cpp:394-413 | Whatever was placed later, each entry holds exactly the pixels placed in it |
| GlyphAtlas.OutsideIsTransparent | crates/opensesh-app/cpp/terminal_render.cpp:277-293 | Every texel outside the entries is transparent |
| GlyphAtlas.StaysSound | crates/opensesh-app/cpp/terminal_render.cpp:365-417 | Placing more keeps every cached glyph and tile alive |
| GlyphAtlas.PackedKeysDiffer | crates/opensesh-app/cpp/terminal_render.cpp:419-452 | The packed keys of the caches never confuse two glyphs |
| GlyphAtlas.Sanitize | crates/opensesh-app/cpp/terminal_render.cpp:103-108 | Gives a Unicode scalar value: the code point itself, or U+FFFD |
| GlyphAtlas.InkBounds | crates/opensesh-app/cpp/terminal_render.cpp:644-667 | The box holds all the ink and touches it on every side, is nowhere exactly for a blank canvas; colored exactly if some ink is not gray |
| GlyphAtlas.Atlas.PlaceInk | crates/opensesh-app/cpp/terminal_render.cpp:669-680 | The glyph shows all the ink of its canvas, and is invalid only if the canvas fits nowhere |
| GlyphAtlas.Atlas.Rasterize | crates/opensesh-app/cpp/terminal_render.cpp:530-690 | For any painting and any time it takes: shows all the ink or finds no room, charges the time, and loses cached glyphs only to a clear |
| GlyphAtlas.Atlas.Fetch | crates/opensesh-app/cpp/terminal_render.cpp:437-452 | Cached: nothing changes. Budget spent: left for later, counted, nothing else changes. Else in the cache afterwards, even if adding it cleared the atlas, and valid unless there is nothing to paint or its canvas fits nowhere |
| GlyphAtlas.Atlas.GlyphOf | crates/opensesh-app/cpp/terminal_render.cpp:419-435 | The same for a code point, from any style and span |
| GlyphAtlas.CachedAfterRasterizing | crates/opensesh-app/cpp/terminal_render.cpp:432-434 | Adding the glyph to the cache keeps all cached rectangles alive, and no cached glyph is invalid but for want of room |
| GlyphAtlas.Atlas.ShapeRun | crates/opensesh-app/cpp/terminal_render.cpp:454-503 | A run shaped before costs nothing; with the budget spent it is counted as left for later and nothing else changes; else it is known afterwards; a list is dropped only when it is full |
| GlyphAtlas.Atlas.BeginFrame | crates/opensesh-app/cpp/terminal_render.h:186-191 | Allows one clear and restarts the budget; the atlas stays sound |
| GlyphAtlas.Atlas.Reset | crates/opensesh-app/cpp/terminal_render.cpp:252-275 | A later generation for the new metrics; printable ASCII is cached unless the budget was spent or a clear came, each valid unless for want of room |
| GlyphAtlas.ProgressComposes | crates/opensesh-app/cpp/terminal_render.h:181-198 | The contract of generation, clear flag and budget holds over any run of calls in a frame |
| GlyphAtlas.WorkedComposes | crates/opensesh-app/cpp/terminal_render.h:195-198 | Over any run of calls in a frame, time is only spent on a glyph or a shaped run that stays, unless something was dropped |
| GlyphAtlas.FewerMissing | crates/opensesh-app/cpp/terminal_render.h:195-198 | Adding something that is needed, and losing nothing, leaves fewer glyphs and runs missing |
| GlyphAtlas.CachedGlyphIsIntact | crates/opensesh-app/cpp/terminal_render.cpp:365-452 | In every sound state a cached glyph's rectangle is inside the image and holds, pixel by pixel, all the ink painted for it |
| GlyphAtlas.SolidIsWhite | crates/opensesh-app/cpp/terminal_render.cpp:1004-1015 | Filled rectangles sample white, with any filtering around their texel |
| Terminal.CopyRow | crates/opensesh-app/cpp/terminal_render.cpp:776-797 | For any frame data: every cluster reference is well formed, and each cell shows its sanitized character and the sanitized marks of its entry, or the character alone if the entry is invalid |
| Terminal.NewCellShows | crates/opensesh-app/cpp/terminal_render.cpp:777-796 | The cell just copied shows what the frame means |
| Terminal.LongerRowShowsTheSame | crates/opensesh-app/cpp/terminal_render.cpp:915-930 | Marks added for later cells leave earlier lookups as they were |
| Terminal.CopyRows | crates/opensesh-app/cpp/terminal_render.cpp:754-799 | Row by row: the last of the frame's whole rows for it, marked, or else what it was; a frame of a new size or a full one starts from blank marked rows |
| Terminal.QuadsStayRight | crates/opensesh-app/cpp/terminal_render.h:181-183 | While the generation stays, quads of glyphs that are cached (or left for later) need not be built again |
| Terminal.FindStripes | crates/opensesh-app/cpp/terminal_render.cpp:1075-1092 | The stripes behind a row: its longest runs of one background color, without the frame's own and invisible ones |
| Terminal.StripesCover | crates/opensesh-app/cpp/terminal_render.cpp:1079-1092 | A column lies in a stripe exactly if its background is drawn, and the stripe has its color |
| Terminal.ReachDecides | crates/opensesh-app/cpp/terminal_render.cpp:1079-1092 | Which columns decide the stripes that are drawn: all, or those up to the last stripe a node can hold |
| Terminal.StripesStayRight | crates/opensesh-app/cpp/terminal_render.cpp:1079-1092 | With another frame background the stripes drawn of a row, of any length, are the same if and only if no column that decides them has the old or the new one as a visible background |
| Terminal.RowAsksFor | crates/opensesh-app/cpp/terminal_render.cpp:1124-1142 | Drawing a row, with whatever part of its shaping, asks only for glyphs of its cells and alternates of its parts |
| Renderer.ScanRun | crates/opensesh-app/cpp/terminal_render.cpp:951-989 | The longest run of plain cells in one style, and whether two ligature symbols meet in it |
| Renderer.RootNode.FindLigatures | crates/opensesh-app/cpp/terminal_render.cpp:951-989 | Unless something is left for later, the shaped glyphs of every run of the row, 0 elsewhere |
| Renderer.RootNode.DrawCells | crates/opensesh-app/cpp/terminal_render.cpp:1065-1146 | The quads of all cells, in order; right as long as the atlas did not move |
| Renderer.RootNode.BuildRow | crates/opensesh-app/cpp/terminal_render.cpp:1065-1146 | The row's node shows its stripes and its glyphs with the ligatures found, whole if nothing was left for later, on the present frame background; no other row changes, and only what the row needs is added to the atlas |
| Renderer.RootNode.BuildRows | crates/opensesh-app/cpp/terminal_render.cpp:889-897 | A pass over the marked rows: afterwards unmarked rows are shown whole, marked ones wait for glyphs |
| Renderer.RootNode.BuildOverlay | crates/opensesh-app/cpp/terminal_render.cpp:1148-1232 | The overlay's node shows the preedit or the cursor, unless the atlas moved |
| Renderer.RootNode.Rebuild | crates/opensesh-app/cpp/terminal_render.cpp:882-903 | Stops by the second pass with the atlas unmoved; every row and the overlay match the atlas's current generation, which is the built one; every marked row is on the present background; only what the frame needs was added |
| Renderer.BecomesSteady | crates/opensesh-app/cpp/terminal_render.cpp:882-885 | After a pass, another one in the same frame cannot move the atlas: every glyph is cached, or the budget is spent, or the one clear was used |
| Renderer.SteadyPass | crates/opensesh-app/cpp/terminal_render.cpp:887-902 | A pass from such a state leaves the generation alone |
| Renderer.PassIsLast | crates/opensesh-app/cpp/terminal_render.cpp:899-900 | A pass that left the generation alone leaves every node up to date |
| Renderer.AfterPass | crates/opensesh-app/cpp/terminal_render.cpp:882-903 | A pass is the last with everything up to date, or it was the first and the next cannot move the atlas; unmarked rows keep their nodes over a first pass that is the last |
| Renderer.RootNode.Prepare | crates/opensesh-app/cpp/terminal_render.cpp:871-880 | New metrics, another generation or another padding mark every row; unmarked rows are known to be shown whole |
| Renderer.RootNode.UploadAtlas | crates/opensesh-app/cpp/terminal_render.cpp:1272-1296 | The texture equals the image unless it could not be made, in which case it is tried again |
| Renderer.RootNode.Sync | crates/opensesh-app/cpp/terminal_render.cpp:860-913 | After every frame, in every run: one or two passes, every node up to date with grid and atlas, every item of an unmarked row shown in place with all its ink (or blank, or without room), texture equal to the image; rows wait only if the budget is spent, and a clear is reported only at the largest size; rows are on the present background unless they were not marked, and those that were not keep their nodes if nothing moved; a frame that leaves something for later leaves less missing; nothing changes when no text is drawn |
| Renderer.BackStaysRight | crates/opensesh-app/cpp/terminal_render.cpp:801-809 | A row that is not drawn again for a new frame background is right if and only if no column that decides its stripes has the old or the new one as a visible background |
| Renderer.FrameHasFilled | crates/opensesh-app/cpp/terminal_render.h:195-198 | A frame that leaves something for later, without a clear or a dropped list, has fewer of the grid's glyphs and runs missing than the one before |
| Renderer.FramesRunOut | crates/opensesh-app/cpp/terminal_render.h:195-198 | So for an unchanged grid only finitely many frames in a row leave something for later: at most as many as glyphs and runs were missing |
| Renderer.RootNode.ApplyFrame | crates/opensesh-app/cpp/terminal_render.cpp:745-810 | The grid after any frame, valid or not; rows left unmarked are unchanged, so nodes stay right |
| Renderer.EveryQuadSamplesItsItem | crates/opensesh-app/cpp/terminal_render.cpp:991-1063 | No node shows another glyph's texels: every quad of an up-to-date node samples what was painted for one of its items |
| Renderer.UpToDateIsDisplayed | crates/opensesh-app/cpp/terminal_render.cpp:991-1063 | An up-to-date node shows every item of an unmarked row: a quad in its place samples all its ink, unless it is blank or found no room |
| Renderer.ItemIsShown | crates/opensesh-app/cpp/terminal_render.cpp:991-1063 | The same for one item among any items of a node |
| RemoteScreen.OneTileEach | crates/opensesh-app/cpp/framebuffer_item.cpp:177-191 | Every pixel of the desktop belongs to exactly one tile |
| RemoteScreen.MakeTiles | crates/opensesh-app/cpp/framebuffer_item.cpp:177-191 | For any size, the tiles cover the desktop once and are black |
| RemoteScreen.Item.ResizeFramebuffer | crates/opensesh-app/cpp/framebuffer_item.cpp:171-192 | A black desktop of that size, none for a negative one; the nodes are asked for |
| RemoteScreen.WriteThrough | crates/opensesh-app/cpp/framebuffer_item.cpp:219-232 | Writes exactly the pixels the rectangle and the tile share, reads the frame in bounds, and marks the tile exactly if there are any |
| RemoteScreen.WrittenShows | crates/opensesh-app/cpp/framebuffer_item.cpp:208-234 | Writing tile by tile is writing into one flat picture |
| RemoteScreen.Item.WritePixels | crates/opensesh-app/cpp/framebuffer_item.cpp:208-234 | The flat picture with the clipped rectangle taken from the frame (nothing if it is clipped away or the frame is too small); exactly the touched tiles are marked |
| RemoteScreen.Item.PixelColor | crates/opensesh-app/cpp/framebuffer_item.cpp:289-297 | The flat picture's pixel, none outside the desktop |
| RemoteScreen.Item.UpdatePaintNode | crates/opensesh-app/cpp/framebuffer_item.cpp:252-286 | Uploading only marked tiles leaves every node with its tile's pixels, or none, and that only if a texture could not be made; there is a node per tile exactly if they were asked for or the root was kept |
| RemoteScreen.Rect.Union | crates/opensesh-rdp-protocol/src/frame.rs:31-42 | Covers both rectangles up to the 16-bit edge |
| RemoteScreen.Mark | crates/opensesh-rdp-protocol/src/frame.rs:150-170 | Everything marked before and now stays marked, and the list never grows past its limit |
| RemoteScreen.RemoteFrame.Resize | crates/opensesh-rdp-protocol/src/frame.rs:93-104 | A new size and generation, black, all of it marked |
| RemoteScreen.RemoteFrame.CopyRect | crates/opensesh-rdp-protocol/src/frame.rs:130-147 | The clipped rectangle holds the given pixels, the rest is as it was, and every pixel that changed is marked |
| RemoteScreen.StaysInStep | crates/opensesh-rdp-protocol/src/frame.rs:93-170 | Whatever the session does to the frame, the tiles differ from it only where it is marked, or not at all in generation |
| RemoteScreen.FillFramebuffer | crates/opensesh-app/src/bridge/rdp_view.rs:1049-1081 | Taking only the marked rectangles makes the tiles equal the frame |
| RemoteScreen.Paint | crates/opensesh-app/cpp/framebuffer_item.cpp:236-287 | After every paint the frame is as it was with nothing marked, the tiles are of its generation, and the nodes show it, if and only if the root was kept or the nodes were asked for; otherwise no tile is shown. If every texture could be made, every pixel is on the screen |
| RemoteScreen.AnotherRootShowsNothing | crates/opensesh-app/cpp/framebuffer_item.cpp:252-270 | A screen painted on one root and then on another: the second paint shows no tile |
| Mailbox.Connection.Notify | crates/opensesh-app/src/rdp.rs:275-286 | One step of the interleaved system: afterwards a wake is on its way to the attached pane if it is still there, and it is raised by this call only as the first since the last take |
| Mailbox.Connection.Attach | crates/opensesh-app/src/rdp.rs:258-264 | One step of the interleaved system: what waits is kept for the new pane, and a wake for it is about to be raised |
| Mailbox.Connection.Take | crates/opensesh-app/src/rdp.rs:267-273 | One step of the interleaved system: the pane that takes then knows what waited as if told change by change, no other pane does, and nothing waits |
| Mailbox.AlwaysGood | crates/opensesh-app/src/rdp.rs:257-286 | The invariant of the mailbox and of every pane over every interleaving of received messages, attaches, takes, paints, panes that leave, and wakes raised after the lock is released |
| Mailbox.NoLostWakeUp | crates/opensesh-app/src/rdp.rs:257-286 | While a change waits and the attached pane is there, a wake for it is queued, about to be raised or being drained; between two takes `notify` raises at most one |
| Mailbox.NotingIsLater | crates/opensesh-app/src/rdp.rs:307-344 | A change noted in the mail and taken with it does what it does on its own |
| Mailbox.CoalescingKeepsMeaning | crates/opensesh-app/src/rdp.rs:266-286 | A mail does to what a pane knows what its changes do one by one |
| Mailbox.QuietMeansTaken | crates/opensesh-app/src/bridge/rdp_view.rs:803-858 | If no other pane's wake was late when it attached: once no wake is on its way to it, the pane knows every change since, and painted the last frame it was told of |
| Mailbox.CanMiss | crates/opensesh-app/src/rdp.rs:257-286 | The attached pane can miss a change before another attaches if and only if a wake of another pane that is still there is on its way |
| Mailbox.NothingIsMissed | crates/opensesh-app/src/rdp.rs:257-286 | Without such a wake, in every run: none comes, and the pane is told every change that is taken, in order |
| Mailbox.LateWakeTakes | crates/opensesh-app/src/bridge/rdp_view.rs:803-807 | With one, for every change there is a run in which the other pane takes it and the attached one never hears of it |
| Mailbox.LatestIsKnown | crates/opensesh-app/src/bridge/rdp_view.rs:744-760 | A new pane, with no other wake late, knows the session's latest status and end, as if told every change ever received |
| Tunnels.Manager.Start | crates/opensesh-app/src/tunnels.rs:487-585 | A new run that only its own callbacks can reach, tied to the host's sessions or on its own connection; nothing without a runtime |
| Tunnels.Manager.SetOn | crates/opensesh-app/src/tunnels.rs:340-356 | Exactly the switch: off halts and forgets, on starts; nothing asked, answered or captured is forgotten, runs never shrink and grow when it goes off |
| Tunnels.Manager.Answer | crates/opensesh-app/src/tunnels.rs:359-376 | Finds the question exactly if that tunnel has it waiting, and only takes that one from its queue and answers it |
| Tunnels.Manager.StopAll | crates/opensesh-app/src/tunnels.rs:379-385 | Every entry is halted and off and nothing else changes; every question ever asked was answered once, and the callbacks still out keep their place in history |
| Tunnels.Manager.Remove | crates/opensesh-app/src/tunnels.rs:313-321 | The entry is gone and its questions are answered |
| Tunnels.Manager.Duplicate | crates/opensesh-app/src/tunnels.rs:324-337 | A new entry, off, right after the original, that does not start by itself |
| Tunnels.Manager.Upsert | crates/opensesh-app/src/tunnels.rs:289-310 | Unusable: nothing. New: added at the end, off. Known: untouched if equal, else halted, redefined and started again if it was on |
| Tunnels.Manager.Load | crates/opensesh-app/src/tunnels.rs:202-222 | All entries are new and in the file's order, each exactly a new one, or a started one if it is marked to start; every question asked so far was answered; sessions, closed connections and the tasks there are stay as they were, and new tasks are those of the started entries |
| Tunnels.Manager.Reload | crates/opensesh-app/src/tunnels.rs:226-261 | In the file's order, each entry exactly: unchanged definitions keep theirs untouched, changed ones are halted and redefined, and started again if on, new ones are off; questions of removed ones are answered; sessions, closed connections and the tasks there are stay as they were |
| Tunnels.Manager.SessionLive | crates/opensesh-app/src/tunnels.rs:389-419 | The host's panes, the connection of its first pane published, the flag of every tied tunnel; if and only if the published connection changed, every task of the host is to wake |
| Tunnels.Manager.SessionClosed | crates/opensesh-app/src/tunnels.rs:422-432 | The pane is gone from every host and all others keep their order; of the entries only the session flags change |
| Tunnels.Manager.Accept | crates/opensesh-app/src/tunnels.rs:474-484 | A callback reaches the entry with its id exactly if the run is the same; else nothing changes |
| Tunnels.Manager.OnReport | crates/opensesh-app/src/tunnels.rs:508-529 | A report of the present run is noted (a failure drops the forwarder and answers the questions); any other changes nothing |
| Tunnels.Manager.OnLink | crates/opensesh-app/src/tunnels.rs:572-575 | A state of the connection is noted for the present run only |
| Tunnels.Manager.OnQuestion | crates/opensesh-app/src/tunnels.rs:548-561 | A question of the present run waits in exactly one queue; any other is cancelled at once |
| Tunnels.ChangeIsAccounted | crates/opensesh-app/src/tunnels.rs:183-194 | Moving questions of one entry from its queue to the answered ones keeps each in exactly one place |
| Tunnels.AnswerIsGood | crates/opensesh-app/src/tunnels.rs:364-373 | An answered question leaves its queue and is answered once |
| Tunnels.OnlyTheLastRunIsHeard | crates/opensesh-app/src/tunnels.rs:474-484 | In every reachable state a callback of an entry is taken only while it is on and only if no later run of it began |
| Tunnels.OffHears | crates/opensesh-app/src/tunnels.rs:474-484 | Exactly which callbacks reach a tunnel that is off: those of an earlier entry with its id and the number of its present run |
| Tunnels.OffShowsNothing | crates/opensesh-app/src/tunnels.rs:138-155 | A tunnel that is off can hear a callback if and only if an entry with its id before was started in a run with the same number; if not, it has no link, port, failure or question and shows none |
| Tunnels.OutlivedForGood | crates/opensesh-app/src/tunnels.rs:183-194 | An entry past every run of the earlier entries with its id never hears their callbacks again, in any later state |
| Tunnels.ReachOldRun | crates/opensesh-app/src/tunnels.rs:289-310 | Otherwise, if it is off, new definitions alone bring it to a state in which it is off and hears such a callback |
| Tunnels.LateQuestion | crates/opensesh-app/src/tunnels.rs:548-561 | Then a tunnel that is off asks the user, with the question of a tunnel that was removed |
| Tunnels.MadeAgain | crates/opensesh-app/src/tunnels.rs:121-136 | For any tunnel with a connection of its own: switched on, removed and made again, it does |
| Tunnels.HistoryComposes | crates/opensesh-app/src/tunnels.rs:183-194 | What every command and callback keeps, over any run of them: nothing asked, answered or captured is forgotten, no entry comes back, runs never shrink and grow when a tunnel goes off |
| Tunnels.StartIsGood | crates/opensesh-app/src/tunnels.rs:487-585 | Starting restores every invariant of a halted entry, the session flag included |
| Tunnels.LiveIsGood | crates/opensesh-app/src/tunnels.rs:389-419 | After a session came or went, every tied tunnel that is on knows whether a connection is published, which is that of the first pane, with unique pane ids |
| Tunnels.Manager.Wake | crates/opensesh-app/src/tunnels.rs:596-612 | A task that wakes sees the connection published for its host, and has a forwarder exactly if that is there and open; one is started only if it had none |
| Tunnels.Manager.EndTask | crates/opensesh-app/src/tunnels.rs:613-619 | A task whose run is not kept ends, and nothing else changes |
| Tunnels.PublishingWakes | crates/opensesh-app/src/tunnels.rs:404-412 | Publishing another connection leaves every task of the host with a wake on its way |
| Tunnels.TaskFollows | crates/opensesh-app/src/tunnels.rs:588-620 | In every reachable state a task with no wake on its way saw the published connection, and has a forwarder exactly if there is one that was open then |
| Tunnels.OnlyItsTask | crates/opensesh-app/src/tunnels.rs:530-546 | In every reachable state the only task of a tunnel that is not about to end is that of its present run; of a tunnel that is off, all are |
| Tunnels.QuietMeansFollowing | crates/opensesh-app/src/tunnels.rs:588-620 | Once no task is about to wake or end: a tied tunnel has just its run's task, whose forwarder exists exactly if the host's published connection was open when it looked; a tunnel that is off has none |
| AtomicWrite.RotateBackups | crates/opensesh-core/src/fsutil.rs:176-185 | An exact shift of the backups, gaps included; in every state on the way and after a failure no backup but the oldest is lost; each backup that was there is missing at some moment |
| AtomicWrite.MovedUp | crates/opensesh-core/src/fsutil.rs:178-183 | Every rename goes to a free name |
| AtomicWrite.CopyAside | crates/opensesh-core/src/fsutil.rs:152-171 | A copy of the current file under a name of its own, or none; nothing else is touched, even midway |
| AtomicWrite.Prepare | crates/opensesh-core/src/fsutil.rs:51-67 | Before the rename nothing but temporary files changes, whatever fails |
| AtomicWrite.Commit | crates/opensesh-core/src/fsutil.rs:68-81 | A failed rename leaves the target and every backup as they were; after it the target has the new contents in every state, unless it is one of its own backups; what it ends as is said in either case, and no other file changes for any target; without a failed call it goes well |
| AtomicWrite.Save | crates/opensesh-core/src/fsutil.rs:49-82 | For every sequence of failures and a crash between any two steps: the target holds the old or the new contents, backups change only after the rename, a good save shifts them, and no other file changes; without a failed call the save goes well. For a target that may be one of its own backups: exactly when a good save leaves it with the new contents, and that every state on the way is safe if and only if it is not one |
| AtomicWrite.RotatedEndsAs | crates/opensesh-core/src/fsutil.rs:176-185 | What a full rotation leaves in the target: the new contents, or for one of its own backups the version that was there or the backup before it |
| AtomicWrite.OwnBackupComesBack | crates/opensesh-core/src/fsutil.rs:50-80 | A save through a link to the first backup that goes well brings back the old version, and a stop on the way could have left no file |
| AtomicWrite.SaveIsRemembered | crates/opensesh-core/src/fsutil.rs:49-82 | One more good save is one more version, unless it is the same |
| AtomicWrite.RunIsRemembered | crates/opensesh-core/src/fsutil.rs:173-185 | Over any run of good saves from no file, backup i is the i-th previous distinct version, with none beyond the number kept |
| AtomicWrite.SaveAll | crates/opensesh-core/src/fsutil.rs:49-82 | A run of `Save` over any list of versions is such a run if no call failed |
| AtomicWrite.SafeStaysInOrder | crates/opensesh-core/src/fsutil.rs:173-185 | Whatever a save leaves behind, after a failure or a crash at any step: the backups read from the first up are earlier versions in order of age |
| AtomicWrite.RunStaysInOrder | crates/opensesh-core/src/fsutil.rs:173-185 | The same over any run of saves, failed and interrupted ones included |
| AtomicWrite.SaveOn | crates/opensesh-core/src/fsutil.rs:49-82 | A run of `Save` that goes on after failures is such a run |
| SettingKinds.ColorRoundTrips | crates/opensesh-core/src/theme.rs:82-142 | Every color is read back from its text, opaque |
| SettingKinds.ReadIsValid | crates/opensesh-core/src/config.rs:1006-1158 | What is read for a setting is always valid for its kind |
| SettingKinds.ReadUndoesWritten | crates/opensesh-core/src/config.rs:813-914 | A setting is read back as it was exactly if it is valid |
| Settings.Reader.TakeField | crates/opensesh-core/src/config.rs:1000-1158 | Takes the key out, valid or not; the setting changes exactly if the value is of use, else there is a warning |
| Settings.Reader.Section | crates/opensesh-core/src/config.rs:986-998 | Takes the section out; anything but a table is as good as none, with a warning |
| Settings.Reader.Fields | crates/opensesh-core/src/config.rs:627-790 | All fields of a section, each from its own key; what is left is exactly the unknown keys |
| Settings.Parse | crates/opensesh-core/src/config.rs:596-809 | The settings, unknown keys and read-only state of any table, and a warning for exactly each wrong version, section and value and each unknown key |
| Settings.KeepUnknown | crates/opensesh-core/src/config.rs:916-940 | Unknown keys go back to their sections, and known keys win |
| Settings.Serialize | crates/opensesh-core/src/config.rs:813-949 | The document of any settings, as independently defined key by key |
| Settings.ParsedIsValid | crates/opensesh-core/src/config.rs:596-809 | Every setting that comes out of any document is valid |
| Settings.SavedThenLoaded | crates/opensesh-core/src/config.rs:813-949 | Loading what was saved gives the same settings if and only if they are all valid, and of the extra keys what a load keeps of them |
| Settings.RoundTrip | crates/opensesh-core/src/config.rs:596-949 | For every document: loading, saving and loading gives the same settings and unknown keys |
| Settings.SavingIsStable | crates/opensesh-core/src/config.rs:813-949 | Saving what was loaded of a saved document writes the same document |
| Settings.SavedIsClean | crates/opensesh-core/src/config.rs:813-949 | A document saved from any settings is never read-only; from valid ones it gives no warning but for unknown keys |
| Settings.OneBadValue | crates/opensesh-core/src/config.rs:978-1172 | Changing one key changes no setting but its own |
| Settings.UnknownSurvives | crates/opensesh-core/src/config.rs:793-807 | Unknown keys, at the top and in every section, are written back as they were |
| CommandLine.Split | crates/opensesh-core/src/command_line.rs:23-58 | The loop computes the specification of splitting, errors included |
| CommandLine.SplitUndoesJoin | crates/opensesh-core/src/command_line.rs:60-79 | Splitting undoes joining if and only if there are words and none has both kinds of quote |
| CommandLine.BothQuotesAreLost | crates/opensesh-core/src/command_line.rs:71-72 | A word with both kinds of quote that, joined, is not even split again: its last quote is never closed |
| Macros.StepsOf | crates/opensesh-app/src/snippets.rs:380-408 | The steps say exactly what was typed, Enter as newline, with one bounded pause per long gap, in order; no empty step and no two texts in a row |
| Macros.PauseFor | crates/opensesh-app/src/snippets.rs:394-400 | A pause is between 0.8 seconds and ten minutes, to the tenth of a second below the gap |
| Macros.Parse | crates/opensesh-core/src/snippets.rs:128-164 | The pieces of a text: plain text, variables, secrets |
| Macros.AllTextIsPlain | crates/opensesh-core/src/snippets.rs:125-164 | A text that asks for nothing is one piece, itself, whatever braces it has |
| Macros.TypedBytes | crates/opensesh-app/src/snippets.rs:166-209 | The filled-in pieces with every line end as Enter, or the first part that is missing |
| Macros.FoldEnters | crates/opensesh-app/src/snippets.rs:195-208 | The result depends on the bytes alone, not on how they are cut into pieces |
| Macros.Enters | crates/opensesh-app/src/snippets.rs:195-207 | Never more bytes than the pieces hold, and no newline among them |
| Macros.EntersBoth | crates/opensesh-app/src/snippets.rs:199-207 | Texts typed one after the other are typed as one, except where a cut splits `\r\n` |
| Macros.Play | crates/opensesh-app/src/snippets.rs:244-305 | Steps are done in order up to the first that misses a value, has no usable pattern, or waits in vain; what it keeps of the output is enough for every wait |
| Macros.Wait | crates/opensesh-app/src/snippets.rs:260-302 | The loop that keeps only the last of the output finds what a search in all output since the last match, cut to its last part, finds |
| Macros.WaitsForTheFirst | crates/opensesh-app/src/snippets.rs:270-302 | A wait ends at the first piece of output after which there is a match, right behind it; else there is none after any piece |
| Macros.RunGoesForward | crates/opensesh-app/src/snippets.rs:271-275 | Over a whole run no output is matched twice: each wait looks only behind the match of the one before |
| Macros.WaitsLookAtAll | crates/opensesh-app/src/snippets.rs:63-64 | Waits for whatever pattern are as if they looked at all output since the last match if and only if that is never more than is kept |
| Macros.RecordingTypesBack | crates/opensesh-app/src/snippets.rs:379-408 | Playing a recording back with nothing filled in makes the recorded bytes and pauses, line ends as Enter, if and only if none of its texts reads as asking for something |
| Macros.TypedBackWhateverIsFilledIn | crates/opensesh-app/src/snippets.rs:166-209 | The same condition decides whether it is typed back for all values, secrets and output |
| Macros.BracesAreNotTypedBack | crates/opensesh-core/src/snippets.rs:125-164 | A recording of `{{a}}` stops for want of a value |
| Macros.WithoutBracesTypesBack | crates/opensesh-app/src/snippets.rs:379-408 | In particular if no two `{` were typed one after the other, whatever the values, secrets and output |

## Left out

- Painting, font layout, shaping and textures: pixels, times and memory are arbitrary, and shaping is a function of text and style given as a table.
- The three glyph caches are one map from keys, by PackedKeysDiffer; the four caches of shaped runs are one set, and what shaping gives is a table.
- Where decorations lie within a cell, the segments of the preedit, and all floating-point geometry: given as tables or left out.
- Integers are unbounded: generations, runs and coordinates do not wrap around.
- The queued copy of the desktop's size on the GUI thread, the layout of its tiles, and a paint without a window.
- Renderer.RootNode.Sync: the counters it reports are not modelled.
- Mailbox.Connection.Attach: reading the latest status and end, and attaching, are one step; texts, certificates and pictures are numbers.
- Renderer.FramesRunOut: runs in which a frame clears the atlas or drops a full list of shaped runs are not covered; such frames lose glyphs, and can go on for ever if the grid needs more than fits.
- Tunnels.Manager.Start: which connection or forwarder is made is not modelled, only that there is one; whether a connector can be made is arbitrary.
- Tunnels.Manager.SessionClosed: a step of its own for all hosts; other steps between two hosts are runs of SessionLive.
- The unknown keys and the read-only state of the tunnels' file, traffic counts, and what a tunnel forwards.
- AtomicWrite.Save: permissions, directories, the syncing of files and directories to the disk, and names that are no plain files are not modelled.
- Settings.Parse: the text of TOML is not modelled, documents are tables; warnings have keys, not messages, and no order.
- An accent's alpha is not in its text: a valid accent is opaque here, and any other comes back opaque.
- Settings.Serialize: the defaults of hosts made from the same settings are not modelled.
- Macros.StepsOf: bytes are characters, so undecodable bytes are not replaced.
- Macros.Play: patterns are arbitrary functions and the output in time is given, so deadlines are not counted; a pane that goes away while something is typed is not modelled.
- The SSH, VNC and RDP engines, the keychain, object storage, the paste analyzer, the single-instance socket, the updater, the command-line options, logging and the build tools: plumbing around libraries and the system.
