# Verified model of the Bot computer and its neighbours

OpenBot gives every Bot a computer: a browser, a screen people watch, a wheel they can take, a shell and a
folder of files. Around it stand two agents that talk to a model, a server with an audit trail and a vault of
credentials, and a bridge that carries the live screen to the page. This project models the parts of that whose
correctness is not visible from any one function, and proves what they promise:

| module | what it models | the main results |
| --- | --- | --- |
| `FileSystem` | the system calls under the workspace, on a disk of directories, files and symbolic links, after section 4.13, Pathname Resolution, of POSIX.1-2017 Base Definitions | walks, `realpath`, `mkdir -p` and `writeFile` keep the disk well formed and grow it predictably |
| `Workspace`, `WorkspaceLinks`, `Acceptance`, `Listing` | a Bot's files and the boundary they may not cross | every write lands under the real root, on every disk; exactly which requests are accepted, and where; exactly when what is written is read back by the same request; an uncut listing is complete and lists nothing twice |
| `Eviction`, `Profiles` | which browsers run, and every interleaving of launches, evictions, sweeps, stops and resets | never more than the cap; a close holds launches back, and no call is forgotten at it; one launch per Bot exactly when no replacement overlaps; no browser lost exactly when none is stranded, taken from the map by another's replacement or overwritten by a second launch; a sweep closes one in use exactly when it was used after the choice; a launch closes its own Bot exactly when every other browser was used after it |
| `Viewer` | who owns the live screen | each cast and each follow loop is held, or stopped exactly once; a superseded claim changes nothing; what is given up is free once it has settled |
| `Control` | who has the wheel, with requests that expire when they are next read | no observer can tell it from a machine that drops them on time |
| `Stream`, `History`, `AgentRun` | the two agents' translations to and from the wire | every run on the wire is well formed, the plain Bot's exactly when it does not fail after some text; every call is reported exactly when none overtakes it; every call is answered in place; tool calls are whole whatever their fragments' order |
| `AuditTrail`, `Credentials` | the server's keyset pages and its vault | a walk shows rows newest first, none twice and none missed, on as few pages as hold them; one live row per key, and what is revoked is never used again |
| `Aria`, `Snapshot`, `Shell`, `Bridge` | the snapshot parser, the output trimmer and the socket bridge | what is printed is parsed back; cutting early is cutting late; what came is what was sent |

Asynchronous code is modelled as a machine whose steps are the code between two awaits, and a theorem about a
run quantifies over every sequence of such steps. Code that updates state in place is a class whose methods are
each proved equal to a step of that machine, so that the theorems about runs are theorems about the methods.
`Text` holds the string functions the source takes from JavaScript.

Where the code does not do what its own comments say, the code was kept and the exact condition proved:

- `writeDestination` says it is where a write would put the bytes. It reads a link against its directory as the
  request spells it, the system against the real one, and the system wants a directory where a text ends in a
  slash. The write stays inside all the same, but a read of the same request can miss it:
  `WorkspaceLinks.LinkedWriteIsNotReadBack` and `WorkspaceLinks.SlashedWriteIsNotReadBack` are two such disks.
  `WorkspaceLinks.WrittenIsReadBackWhen` says exactly when: the read finds the bytes if and only if, before the
  write, the system follows the name requested and the path resolved to the same place. Where every `..` in a link
  comes before its names and is taken from a real directory, and the system follows the name at all, it does:
  `WorkspaceLinks.LandsWhereTheSystemWould`.
- A listing can be marked as cut although it is complete, when what follows a full list is neither a file nor a
  folder: `Listing.UncutIsWhole` says exactly when.
- A listing shows paths as a request may name them, but a request is trimmed, and refused for a `..` between
  backslashes: `Listing.BlankEndIsNotFound` is a file shown and not found. `Listing.ListedIsFoundWhen` says exactly when
  a path shown is found, and `Listing.ListedIsFoundAgain` that it is wherever a request takes it as it is spelled.
- A half-dead browser's replacement awaits between reading `starting` and setting it. `Profiles.OneLaunchAtATime` says,
  over every run, which events put two launches of a Bot in flight, and `Profiles.NoBrowserIsLost` which leave a browser
  that is up in no map and in nobody's hands; `Profiles.TwoCallsOverlap`, `Profiles.ReplacementDropsAnother` and
  `Profiles.SecondLaunchBuriesTheFirst` are runs that do. A replacement that finds nothing in the map loses none but
  closes one twice, as in `Profiles.CountedTwiceIsNotLost`: `Profiles.EachIsClosedOnce` says exactly when each browser
  is closed once.
- The idle sweep awaits each close before the next, so a Bot chosen as idle can be in use when its turn comes.
  `Profiles.SweepClosesOneInUse` says exactly when it is, and `Profiles.SweepClosesOneJustUsed` is such a run.
- "The Bot that just asked is never the one closed" holds while the clock does not run back. Whatever the clock does,
  `Profiles.LauncherIsPickedWhen` says exactly when it is closed.
- A tool call announced under a key while another call under it is still unanswered replaces it, and the earlier one
  is never reported. `Stream.EachCallIsReported` says that every call is reported if and only if none is overtaken so.
- A call without an id is sent to the provider unanswered: `History.AcceptedWhenCallsHaveIds`.
- The plain Bot's run leaves its text message open when it fails: by `AgentRun.WellFormedUnlessCutShort` what it sends is
  well formed exactly when it does not fail, or fails before any text. The comment at
  agent-langgraph/src/stream.ts:226-227 says it closes it.

`dafny verify dfyconfig.toml` checks the whole project.

## Model

| member | source | states |
|---|---|---|
| Workspace.InsideIsPrefix | agent-computer/src/workspace.ts:314-327 | the text comparison `relative` allows is component-wise containment, whatever the names look like |
| Workspace.WriteDestination | agent-computer/src/workspace.ts:351-366 | the walk along links ends, and gives where the chain leads or that it does not settle in 32 links |
| Workspace.NearestExistingAncestor | agent-computer/src/workspace.ts:369-387 | the walk up ends, at the closest ancestor `realpath` knows or at a refusal |
| Workspace.Wanted | agent-computer/src/workspace.ts:107-123 | a request is refused exactly when it is blank, absolute or has a `..` part by either separator; an accepted one is trimmed |
| Workspace.TextStaysInside | agent-computer/src/workspace.ts:126-127 | a request without `..` names a path under the root as text, so the second layer never refuses |
| Workspace.ReadStaysInside | agent-computer/src/workspace.ts:131-145 | a path resolved for reading is a fixed point of `realpath` under the real root |
| Workspace.WriteStaysInside | agent-computer/src/workspace.ts:103-187 | on every disk, when resolving, making the parents and writing succeed, the bytes are at one real path under the real root and nothing else changed but new directories under it |
| Workspace.WrittenIsReadBack | agent-computer/src/workspace.ts:285-307 | after a write to a name that is no link, a read of the same request finds that file |
| Workspace.FollowsToItsBytes | agent-computer/src/workspace.ts:302-305 | a written path leads, links followed, to the bytes written |
| Workspace.Files.Resolve | agent-computer/src/workspace.ts:103-187 | resolving by the two walks is resolving as specified |
| Workspace.Files.Write | agent-computer/src/workspace.ts:285-307 | the whole outcome of a write asked for: the new disk, the answer, which of its steps refused, and where the bytes went, and that the disk differs only inside the root |
| Workspace.Files.Read | agent-computer/src/workspace.ts:254-282 | a read gives the start of the file its path resolves to and its whole size, or says why not |
| WorkspaceLinks.OrdinaryWriteIsMade | agent-computer/src/workspace.ts:285-307 | a name under directories that exist or are free is written under exactly that name, parents made |
| WorkspaceLinks.MissingDirectoriesAreMade | agent-computer/src/workspace.ts:301 | `mkdir -p` on a way without links succeeds and adds only directories |
| WorkspaceLinks.LandsWhereTheSystemWould | agent-computer/src/workspace.ts:167-186 | for links that read alike, the resolved destination is the real path a write to the name would open, if there is one |
| WorkspaceLinks.WrittenIsReadBackWhen | agent-computer/src/workspace.ts:285-307 | over every request, a read after the write finds the bytes exactly when the name and the path resolved led to one place before it |
| WorkspaceLinks.LinkedWriteIsReadBack | agent-computer/src/workspace.ts:285-307 | for links that read alike, exactly when the system follows the name anywhere |
| WorkspaceLinks.LinkedWriteIsNotReadBack | agent-computer/src/workspace.ts:361 | a disk on which a linked write and a later read of the same request go to different places |
| WorkspaceLinks.SlashedWriteIsNotReadBack | agent-computer/src/workspace.ts:361 | a disk on which a link without `..` is written through and then not found |
| Acceptance.PlainWriteIsAccepted | agent-computer/src/workspace.ts:147-166 | a name that is no link is written under exactly that name if and only if what holds it, or else the nearest place above that exists, is really under the root |
| Acceptance.LinkedWriteIsAccepted | agent-computer/src/workspace.ts:147-187 | a name that is a link is accepted, and where, if and only if besides its chain ends, in at most 32 hops, at a name in a directory that exists really under the root |
| Acceptance.LinkedWriteIsRefused | agent-computer/src/workspace.ts:167-186 | which refusal: exactly when it does not settle, exactly when it leads nowhere, else outside |
| Acceptance.LinkBesideAFile | agent-computer/src/workspace.ts:167-186 | a link beside a file is accepted and the bytes are in the file |
| Acceptance.ReadIsAccepted | agent-computer/src/workspace.ts:131-145 | a read goes exactly where the path really leads, if that is under the root, and there is no such file exactly when it leads nowhere |
| Acceptance.LeadsAlongAChain | agent-computer/src/workspace.ts:351-366 | the walk along links ends wherever a chain of at most 33 names does |
| Listing.List | agent-computer/src/workspace.ts:199-251 | starts inside the root, and gives the first entries in walking order and whether a turn found the list full |
| Listing.Walker.Walk | agent-computer/src/workspace.ts:223-247 | the bounded walk holds the prefix of the unbounded one |
| Listing.UncutIsWhole | agent-computer/src/workspace.ts:226-239 | a listing not marked cut is whole, and exactly when one marked cut is whole too |
| Listing.WholeAndSaidToBeCut | agent-computer/src/workspace.ts:227-239 | one file and one link, with room for one entry, are listed whole and marked cut |
| Listing.UncutListsTheDisk | agent-computer/src/workspace.ts:223-250 | an uncut listing has an entry for each file and folder under the start, once, and no other |
| Listing.ListedIsFoundAgain | agent-computer/src/workspace.ts:232-243 | a path shown, where a request is taken as it is spelled, reads, writes and lists just what it was shown for |
| Listing.ListedIsFoundWhen | agent-computer/src/workspace.ts:107-145 | and however it is spelled, exactly when what the request makes of it leads there |
| Listing.BlankEndIsNotFound | agent-computer/src/workspace.ts:107-111 | a file named with a blank at its end, shown and then not found |
| Listing.NothingNamedListsTheRoot | agent-computer/src/workspace.ts:207-210 | `.` or nothing lists the whole workspace |
| Listing.WalkedInOrder | agent-computer/src/workspace.ts:223-247 | items in their order, a folder before what is in it |
| Eviction.ChooseEvictions | agent-computer/src/browser-eviction.ts:29-40 | as many victims as there are browsers over the cap, none when there are not |
| Eviction.VictimsAreTheQuietest | agent-computer/src/browser-eviction.ts:33-39 | a victim was used no later than any browser that stays, and earlier started on a tie |
| Eviction.VictimsAreRunning | agent-computer/src/browser-eviction.ts:36-39 | victims are running and none is named twice |
| Eviction.NewestStays | agent-computer/src/browser-eviction.ts:23-28 | the browser used last stays while the cap leaves room for one |
| Eviction.LastIsPicked | agent-computer/src/browser-eviction.ts:36-39 | one over the cap, the last browser of the map is the victim exactly when every other was used after it |
| Eviction.ChooseIdle | agent-computer/src/browser-eviction.ts:49-60 | exactly the browsers unused for the timeout, and none when it is switched off |
| Profiles.CapHolds | agent-computer/src/profiles.ts:302-312 | in every interleaving no more browsers are live than the cap, and no `enforceCap` has a victim left |
| Profiles.OpenKeepsCap | agent-computer/src/profiles.ts:464-467 | one launch over the cap picks at most one victim, closed before its first await |
| Profiles.LauncherIsSpared | agent-computer/src/profiles.ts:465-467 | with a clock that does not run back a launch never evicts its own Bot |
| Profiles.LauncherIsPickedWhen | agent-computer/src/profiles.ts:436-467 | whatever the clock did, a launch evicts its own Bot exactly when the map was full of browsers used after it |
| Profiles.ClockRunningBackPicksTheLauncher | agent-computer/src/profiles.ts:436-467 | a run with a clock set back in which it does |
| Profiles.GateHolds | agent-computer/src/profiles.ts:254-269 | `closing` holds the last section of a Bot until it is over, and its promise covers every one before it |
| Profiles.ClosingHoldsLaunchesBack | agent-computer/src/profiles.ts:375-378 | a launch is begun only after every close and reset registered before its call came in is finished |
| Profiles.StepSingle | agent-computer/src/profiles.ts:398-408 | a step puts a second launch of a Bot in flight exactly when a replacement overlaps one |
| Profiles.OneLaunchAtATime | agent-computer/src/profiles.ts:379-480 | at most one launch per Bot, held in `starting`, throughout a run exactly when no replacement overlaps |
| Profiles.TwoCallsOverlap | agent-computer/src/profiles.ts:398-410 | a run in which two calls replace one half-dead browser and launch twice |
| Profiles.SecondLaunchBuriesTheFirst | agent-computer/src/profiles.ts:398-464 | the same run gone on with: the second browser is set over the first, which is lost |
| Profiles.StepCovered | agent-computer/src/profiles.ts:282-471 | a step loses a browser exactly when one that is up is in no map, or a replacement takes another than its own, or a launch comes up over one |
| Profiles.NoBrowserIsLost | agent-computer/src/profiles.ts:282-471 | in every run each browser opened is live, or was handed to a close, or dropped after its own, throughout, exactly when no event is one of those three |
| Profiles.ReplacementDropsAnother | agent-computer/src/profiles.ts:406-410 | a run without overlap in which a replacement drops a fresh browser, which is lost |
| Profiles.StepAccounted | agent-computer/src/profiles.ts:398-435 | a step upsets the count of one place for each browser exactly when a replacement does not find its own in the map, or one that is up is in no map |
| Profiles.EachIsClosedOnce | agent-computer/src/profiles.ts:282-300 | in every run each browser opened is live, being closed or dropped, and counted once, throughout, exactly when replacements find their own and none is stranded; no launches overlap then |
| Profiles.CountedIsNotLost | agent-computer/src/profiles.ts:282-300 | a run that counts each browser once loses none |
| Profiles.CountedTwiceIsNotLost | agent-computer/src/profiles.ts:406-407 | a run in which a browser is closed by a stop and by its replacement, and not lost |
| Profiles.SweepClosesOneInUse | agent-computer/src/profiles.ts:320-328 | whatever happens between a sweep's choice and a Bot's turn, the browser then closed was used within the timeout exactly when it was last used or launched since the choice at such a time; with a clock that does not run back, when it was at all |
| Profiles.SweepClosesOneJustUsed | agent-computer/src/profiles.ts:320-328 | a run in which a Bot is asked for while another is swept, and swept next |
| Profiles.FreshProcess | agent-computer/src/profiles.ts:247-252 | an empty process starts inside these invariants |
| Profiles.CallGoesOn | agent-computer/src/profiles.ts:375-410 | a call is held exactly while its Bot is closing; else, or once admitted, it joins the launch in flight, begins the one launch, uses the browser, or waits for the half-dead one to close |
| Profiles.ReplacementLaunches | agent-computer/src/profiles.ts:398-410 | takes the Bot's record out of the map and begins a launch for the call that waited |
| Profiles.NoCallIsForgotten | agent-computer/src/profiles.ts:375-412 | in every run a call that waits goes on waiting for the same, until it is let on and goes on so |
| Profiles.CallCanGoOn | agent-computer/src/profiles.ts:254-269 | whatever is closing, no promise waits for a later one: the closes can end, and then the call is admitted and goes on |
| Profiles.GateCanOpen | agent-computer/src/profiles.ts:254-269 | and the Bot's entry leaves `closing` |
| Profiles.LaunchComesUp | agent-computer/src/profiles.ts:436-469 | the new browser is its Bot's, used at that moment, every other stays as it was but for the one victim, and the launch waits for that one's close |
| Profiles.CapIsWaitedFor | agent-computer/src/profiles.ts:308-312 | a launch that had to close another answers once that close is done and not before |
| Profiles.EvictionCloses | agent-computer/src/profiles.ts:282-298 | exactly the Bot's record leaves the map, and the close of its browser is registered after the last of its Bot |
| Profiles.GuardRegisters | agent-computer/src/profiles.ts:254-261 | a reset registers a section that closes nothing |
| Profiles.SectionEnds | agent-computer/src/profiles.ts:262-268 | the work ends, then the promise resolves, and nothing else changes |
| Profiles.LastReleaseOpensTheGate | agent-computer/src/profiles.ts:265-267 | the last section's end removes the entry, an earlier one's does not |
| Profiles.LaunchFails | agent-computer/src/profiles.ts:471-479 | a failed launch answers, and a browser left up behind it is counted as opened |
| Profiles.LaunchOverFrees | agent-computer/src/profiles.ts:472-479 | however a launch went, it holds no later call of its Bot back |
| Profiles.ShutdownDropsAll | agent-computer/src/profiles.ts:547-559 | the map is empty and every browser that was there dropped |
| Profiles.Browsers.WhileClosing | agent-computer/src/profiles.ts:254-261 | registers a section chained on the one before |
| Profiles.Browsers.EvictBrowser | agent-computer/src/profiles.ts:282-298 | forgets the browser before anything is awaited |
| Profiles.Browsers.Page | agent-computer/src/profiles.ts:375-378 | waits at the gate exactly when something is closing |
| Profiles.Browsers.Proceed | agent-computer/src/profiles.ts:383-408 | joins a launch, uses what is running, replaces it or launches |
| Profiles.Browsers.PageReplaces | agent-computer/src/profiles.ts:406-410 | drops the record by its Bot and launches |
| Profiles.Browsers.EnforceCap | agent-computer/src/profiles.ts:308-312 | one turn of the loop, up to its await |
| Profiles.Browsers.BrowserOpens | agent-computer/src/profiles.ts:464-469 | enters the map, then counts the cap, which holds after |
| Profiles.Browsers.BrowserStrands | agent-computer/src/profiles.ts:414-435 | a browser that is up and gives no page is in no map when its launch fails |
| Profiles.Browsers.LaunchOver | agent-computer/src/profiles.ts:472-479 | `starting` is cleared by its Bot |
| Profiles.Browsers.PromiseReleased | agent-computer/src/profiles.ts:265-267 | the entry goes only if it is still the promise's own |
| Profiles.Browsers.Shutdown | agent-computer/src/profiles.ts:547-559 | every live browser is dropped and none stays |
| Profiles.Browsers.SweepIdle | agent-computer/src/profiles.ts:320-328 | uninterrupted, what stays is the browsers in use, as they were and in order; `Profiles.SweepClosesOneInUse` has what may come between its closes |
| Viewer.RunKeeps | agent-computer/src/viewer.ts:103-223 | in every run one entry owns the screen and is the only one not revoked, and all casts and loops are accounted for |
| Viewer.HeldOrStoppedOnce | agent-computer/src/viewer.ts:123-146 | a cast installed once is held by the owner or was told to stop exactly once; a follow loop likewise |
| Viewer.UnoccupiedMeansSettled | agent-computer/src/viewer.ts:232-234 | when nothing occupies the slot every cast ever installed was stopped and its teardown settled |
| Viewer.SupersededCannotInterfere | agent-computer/src/viewer.ts:149-199 | no release, install or follow loop of a superseded claim changes what the owner has |
| Viewer.ClaimTakesTheScreen | agent-computer/src/viewer.ts:149-161 | the socket that claims is starting from then on; the former claim is revoked, told exactly once, its loop cancelled and its cast being stopped |
| Viewer.ReleaseGivesUpTheScreen | agent-computer/src/viewer.ts:201-213 | by the owner's socket: nobody owns the screen, its cast and loop are stopped and nobody is told; by any other: nothing |
| Viewer.ReleaseAllGivesUpTheScreen | agent-computer/src/viewer.ts:215-223 | nobody owns the screen, and the owner, if any, is told and let go of |
| Viewer.InstalledCastIsShown | agent-computer/src/viewer.ts:163-184 | the owner is casting it, and the cast before is stopped; of a revoked claim the new cast is |
| Viewer.FollowedIsKept | agent-computer/src/viewer.ts:185-197 | the owner follows with it, and the loop before is cancelled; of a revoked claim the new loop is |
| Viewer.SettledLeavesTheCount | agent-computer/src/viewer.ts:112-115 | one teardown fewer, and nothing else |
| Viewer.ReleasedAndSettledIsFree | agent-computer/src/viewer.ts:201-234 | once its owner gave it up the screen is unoccupied exactly when every teardown has settled |
| Viewer.Slot.TakeScreen | agent-computer/src/viewer.ts:149-161 | the new claim owns the screen, the old one is revoked, told and torn down |
| Viewer.Slot.Install | agent-computer/src/viewer.ts:163-184 | accepted exactly when not revoked; the cast replaced or refused is stopped |
| Viewer.Slot.SetFollow | agent-computer/src/viewer.ts:185-197 | accepted exactly when not revoked; the loop replaced or refused is cancelled |
| Viewer.Slot.Release | agent-computer/src/viewer.ts:201-213 | only the owner's own socket gives the screen up |
| Viewer.Slot.ReleaseAll | agent-computer/src/viewer.ts:215-223 | the owner, if any, is revoked, told and torn down |
| Viewer.Slot.TearDownSettles | agent-computer/src/viewer.ts:112-115 | a settled teardown leaves the count |
| Viewer.Slot.IsOccupied | agent-computer/src/viewer.ts:232-234 | occupied while somebody owns the screen or a teardown runs |
| Stream.RunIsWellFormed | agent-langgraph/src/stream.ts:48-237 | for all events, and wherever they throw: distinct messages, each opened once and closed before any call; calls whole; one end with nothing open |
| Stream.EachCallIsReported | agent-langgraph/src/stream.ts:123-200 | the reports of a key are one per call announced, as announced and with the first answer after it, exactly when none is overtaken; otherwise they are fewer |
| Stream.CallsAreReportedOnce | agent-langgraph/src/stream.ts:123-200 | so with distinct keys each announced call is reported once, with its result exactly when the tools node answered |
| Stream.RepeatedKeyLosesACall | agent-langgraph/src/stream.ts:127-130 | events in which a call is overtaken and lost |
| Stream.ChunkIsRead | agent-langgraph/src/deltas.ts:27-48 | the text of a chunk is a string itself, or its strings and blocks of type `text` by their places, all of them, in order, and nothing of any other block |
| Stream.ReadChunk | agent-langgraph/src/deltas.ts:35-47 | the loop over the blocks gives that text |
| Stream.CallIsReportedAsMade | agent-langgraph/src/stream.ts:123-161 | a call is reported under its id, or its name if it has none, with its own arguments and answer |
| Stream.RunSaysHowItEnded | agent-langgraph/src/stream.ts:219-236 | the last event is the run's end, or what was thrown |
| Stream.ToldInOrder | agent-langgraph/src/stream.ts:93-171 | texts and results are on the wire in the order the framework said them |
| Stream.TextIsKept | agent-langgraph/src/stream.ts:95-121 | the deltas sent are the events' texts for a person, by their places, one after the other, or the fallback exactly when there was neither text nor call |
| Stream.StreamRun | agent-langgraph/src/stream.ts:48-237 | the loop sends the specified run |
| Stream.SendAnswers | agent-langgraph/src/stream.ts:140-171 | one batch of answers, in order, each for a pending call only |
| Stream.SendRest | agent-langgraph/src/stream.ts:186-200 | what stays pending is sent without results |
| History.ToProviderMessages | agent-bot/src/history.ts:17-109 | the passes over the history send the specified messages |
| History.Collect | agent-bot/src/history.ts:37-60 | the set and the map name the same calls, so a result is never looked up in vain |
| History.SentIsPaired | agent-bot/src/history.ts:76-105 | each call with an id is followed at once by its last result or the notice, in call order; no tool message elsewhere |
| History.TurnsAreKept | agent-bot/src/history.ts:20-74 | apart from those, the opening and every turn once and in place |
| History.WordsAreSent | agent-bot/src/history.ts:59-72 | instructions and results go out in their own words, or empty |
| History.OpensWithContext | agent-bot/src/history.ts:20-29 | the guidance first, then each piece of context under its description |
| History.ResultsMayArriveAnywhere | agent-bot/src/history.ts:46-60 | histories with the same turns and the same results per call in order are sent alike |
| History.ResultMoves | agent-bot/src/history.ts:46-63 | moving one result past any neighbour but another for its call changes nothing |
| History.AcceptedWhenCallsHaveIds | agent-bot/src/history.ts:94-105 | what is sent answers every call, as a provider demands, exactly when every call came with an id |
| History.TwoSpellingsOneCall | agent-bot/src/history.ts:123-142 | both spellings of a call are sent as the same call, the one that was made |
| History.NestedSpellingFirst | agent-bot/src/history.ts:128-129 | each field comes from the nested spelling unless it is missing or null there |
| History.MissingPartsAreMadeUp | agent-bot/src/history.ts:130-142 | `tool` for a name, `{}` for arguments, and JSON for what is not text |
| AgentRun.RunAgent | agent-bot/src/index.ts:120-222 | the loops over the stream and the buffer send the specified run |
| AgentRun.Absorb | agent-bot/src/index.ts:171-182 | the buffer holds, in order of first appearance, each index's fragments put together |
| AgentRun.FirstsInOrder | agent-bot/src/index.ts:144-149 | calls stand in the order in which their indexes first appear |
| AgentRun.AssembledWithOneMore | agent-bot/src/index.ts:177-181 | one more fragment replaces the id and the name it gives and adds its arguments |
| AgentRun.AssembledFromOne | agent-bot/src/index.ts:172-181 | a call begins with its fragment's id, or one made from the run and the index |
| AgentRun.ChunkIsRead | agent-bot/src/index.ts:151-171 | a chunk adds its text and its fragments, as far as it has any |
| AgentRun.InterleavingIsForgotten | agent-bot/src/index.ts:144-182 | two neighbouring fragments of different calls changed round leave every call as it was, and their order unless both come up there first |
| AgentRun.WellFormedUnlessCutShort | agent-bot/src/index.ts:120-222 | what is sent is one run in order, its message closed before any call, each call in one piece and one end, exactly when it does not fail after some text |
| AgentRun.FinishedRunReads | agent-bot/src/index.ts:151-208 | a run that ends well is well formed and has all the text, then every index's call once in order of first appearance, then its end |
| AgentRun.CallsAreReported | agent-bot/src/index.ts:189-203 | each call in three events: id and name, its arguments or `{}`, its end |
| AgentRun.FailedRunReads | agent-bot/src/index.ts:209-221 | a run that fails reports no call and leaves its message open exactly when there was text |
| AuditTrail.ConditionsMean | server/src/audit.ts:703-742 | the conditions built hold of exactly the rows the query means, below its cursor |
| AuditTrail.EmptyFilterShowsNothing | server/src/audit.ts:669-701 | a filter asked for that names nothing shows nothing |
| AuditTrail.Trail.Insert | server/src/audit.ts:576-585 | a row is added and none changed |
| AuditTrail.Trail.Select | server/src/audit.ts:743-760 | the newest rows that meet the conditions, in order |
| AuditTrail.Trail.List | server/src/audit.ts:705-778 | a page of them, and where the next begins exactly when there is more |
| AuditTrail.PageFacts | server/src/audit.ts:759-778 | what a page leaves out is older than where its cursor points |
| AuditTrail.WalkDescends | server/src/audit.ts:727-760 | whatever is written or removed in between, a walk shows rows newest first and none twice |
| AuditTrail.WalkMissesNothing | server/src/audit.ts:727-778 | a matching row there throughout a walk to the end is shown |
| AuditTrail.WalkIsShort | server/src/audit.ts:759-778 | on a fixed table a walk has ended exactly when it has as many pages as its rows fill, and has never more |
| AuditTrail.PagesForRoundsUp | server/src/audit.ts:759-762 | that is the rows by the page size, rounded up |
| AuditTrail.WalkIsExact | server/src/audit.ts:705-778 | on a fixed table it shows exactly the filtered rows, each once |
| Credentials.RunKeeps | server/src/credentials.ts:260-400 | in every interleaving one live row per key at most, rows stay under their key, revoked rows never change |
| Credentials.RotationIsExact | server/src/credentials.ts:295-377 | a rotation retires exactly the row named and adds one, or is refused; its insert never collides |
| Credentials.CreationIsExact | server/src/credentials.ts:267-277 | a row is added exactly when its key has no live one, and hands out its secret; no other is touched |
| Credentials.UpdateIsExact | server/src/credentials.ts:278-294 | a secret is replaced exactly in a live row, which hands out the new one; nothing else changes |
| Credentials.RevocationIsExact | server/src/credentials.ts:378-393 | exactly a live row is stamped, which leaves its key without one; nothing else changes |
| Credentials.RevokedIsNeverUsed | server/src/credentials.ts:225-239 | a revoked secret is never handed out again |
| Credentials.RevokingEndsUse | server/src/credentials.ts:225-393 | after a revocation that succeeded, in any run before and after, the secret is refused for use |
| Credentials.StoredUnlessOvertaken | server/src/credentials.ts:529-545 | with others at work in between, storing succeeds exactly when the live row is still the one seen |
| Credentials.StoredAlone | server/src/credentials.ts:529-560 | alone, it succeeds, leaves one live row and says whether it created or rotated |
| Credentials.Vault.Create | server/src/credentials.ts:267-277 | inserts, or is refused by the index on live keys |
| Credentials.Vault.UpdateSecret | server/src/credentials.ts:278-294 | writes a live row in place, and no other |
| Credentials.Vault.Rotate | server/src/credentials.ts:295-377 | commits both writes or neither |
| Credentials.Vault.Revoke | server/src/credentials.ts:378-393 | stamps a live row once |
| Credentials.Vault.FindLiveByKey | server/src/credentials.ts:402-417 | the one live row of a key, if there is one |
| Credentials.Service.RotateCredential | server/src/credentials.ts:562-642 | the trail says rotated or refused as the vault did |
| Credentials.Service.CreateCredential | server/src/credentials.ts:529-560 | one live row for the key, and the trail says how it came to be |
| Credentials.Service.RevokeCredential | server/src/credentials.ts:644-660 | the trail has a row exactly when a live row was stamped |
| Control.LazyIsEager | agent-computer/src/control.ts:101-309 | in every run, what `get` and `pendingSecret` answer is what a machine that expires on time would |
| Control.ShownWhenAnswerable | agent-computer/src/control.ts:224-238 | a prompt is shown at a moment exactly when a value typed then is taken, for the same field |
| Control.HelpLastsItsTime | agent-computer/src/control.ts:164-176 | an ask shows, in its own words, until ten minutes are over and no longer, whoever looks in between |
| Control.SecretLastsItsTime | agent-computer/src/control.ts:135-150 | a secret is taken until its time is up and only for the field named |
| Control.OnlyTakeAndReleaseDrive | agent-computer/src/control.ts:263-293 | nothing but taking and releasing changes who drives, and since when |
| Control.SecretShowsItsLabel | agent-computer/src/control.ts:200-222 | the prompt shows in its own words just as long as a value would be taken |
| Control.SuppliedEndsTheRequest | agent-computer/src/control.ts:246-254 | once supplied, no prompt shows and no value is taken until another is asked for |
| Control.HandoverEndsRequests | agent-computer/src/control.ts:263-293 | taking the wheel or giving it back ends whatever was asked, until somebody asks again |
| Control.Wheel.Get | agent-computer/src/control.ts:164-176 | drops what is stale, and only that |
| Control.Wheel.RequestHelp | agent-computer/src/control.ts:184-197 | asks, in at most 500 code units, without taking the wheel |
| Control.Wheel.RequestSecret | agent-computer/src/control.ts:200-222 | asks for a named field, or is refused and changes nothing |
| Control.Wheel.PendingSecret | agent-computer/src/control.ts:234-238 | the field waiting, once what is stale is dropped |
| Control.Wheel.SecretSupplied | agent-computer/src/control.ts:246-254 | closes the request |
| Control.Wheel.Take | agent-computer/src/control.ts:263-274 | a person drives, and every request is gone |
| Control.Wheel.Release | agent-computer/src/control.ts:284-293 | the Bot drives, and every request is gone |
| Control.Wheel.AssertBotMayAct | agent-computer/src/control.ts:301-303 | over the wheel's whole history, refuses exactly when the last to take it or give it back was a person taking it |
| Control.Wheel.HumanMayDrive | agent-computer/src/control.ts:306-308 | lets a person drive in exactly the same case |
| Shell.CuttingEarlyIsCuttingLate | agent-computer/src/shell.ts:286-305 | for every chunking the text and the flag are those of trimming once at the end |
| Shell.CollectedIsAnEnd | agent-computer/src/shell.ts:290-297 | after each chunk the buffer is an end of the stream and at most twice the limit |
| Shell.Collector.Add | agent-computer/src/shell.ts:290-297 | one chunk |
| Shell.Run | agent-computer/src/shell.ts:307-361 | however the pipes interleave: the last bytes of each, and truncated exactly when either lost any |
| Aria.ParseDescriptor | agent-computer/src/aria-snapshot.ts:92-157 | the scan ends on every text and reads what is specified |
| Aria.PrintedIsParsed | agent-computer/src/aria-snapshot.ts:85-157 | role, name and flags as printed are read back, whatever the name holds |
| Aria.UnnamedIsParsed | agent-computer/src/aria-snapshot.ts:92-157 | so are a role and flags printed without a name |
| Aria.NothingWithoutARole | agent-computer/src/aria-snapshot.ts:93-106 | only a blank text, or one that begins with a quote or a bracket, describes nothing |
| Aria.DistinctFlagsAreKept | agent-computer/src/aria-snapshot.ts:110-149 | flags with different keys are all there, and no others |
| Snapshot.ParseAriaSnapshot | agent-computer/src/aria-snapshot.ts:222-277 | the first 200 actionable elements in walking order, and truncated exactly when there are more |
| Snapshot.Walker.Walk | agent-computer/src/aria-snapshot.ts:247-273 | the bounded walk holds the prefix of the unbounded one |
| Snapshot.PrintedIsDescribed | agent-computer/src/aria-snapshot.ts:255-266 | a printed entry is read as the element its descriptor stands for |
| Snapshot.ControlTells | agent-computer/src/aria-snapshot.ts:178-219 | a control with a ref is one element with that ref and name, the text beside it for its value, ticked exactly when it is flagged so and neither mixed nor false |
| Snapshot.OnlyControlsTell | agent-computer/src/aria-snapshot.ts:178-192 | what cannot be acted on, or has no ref, is no element, and only that |
| Snapshot.ElementsAreThoseWithin | agent-computer/src/aria-snapshot.ts:247-273 | however deep, and under an actionable entry or not, exactly the elements of the tree's texts are met |
| Snapshot.MetInOrder | agent-computer/src/aria-snapshot.ts:247-273 | in the tree's order, an entry before what is nested in it |
| Snapshot.CutSplitsNoCharacter | agent-computer/src/aria-snapshot.ts:171-175 | cutting code units keeps the most whole characters that fit |
| Bridge.RunKeeps | app/serve.ts:103-191 | in every run: sent and pending are what was received, in order; at most 64 frames and 8 MiB, counted exactly; terminated at most once |
| Bridge.AttachedPageHasItAll | app/serve.ts:179-188 | an attached page has been sent exactly what came |
| Bridge.EndIsTheEnd | app/serve.ts:116-134 | the handshake's outcome never changes and nothing is sent after the end |
| Bridge.PageHearsOfTheEnd | app/serve.ts:140-148 | a page that stays is told of the end, however it comes, and only then |
| Bridge.LateWhenTimerFound | app/serve.ts:109-121 | the handshake counts as late, for a 504, exactly when the timer went off while it was waited for |
| Bridge.OpensWhenWaitedFor | app/serve.ts:103-116 | the handshake succeeds exactly when the upstream opened while it was waited for |
| Bridge.EndsWhen | app/serve.ts:109-177 | exactly which events end the bridge |
| Bridge.PageIsToldWhy | app/serve.ts:140-183 | 1000 when the upstream closed with that, 1011 of every other end |
| Bridge.FrameGoesOn | app/serve.ts:150-167 | a frame is sent on, or held, until the end |
| Bridge.HeldUntilTooMuch | app/serve.ts:150-167 | frames before any page are all held until there are too many of them or of their bytes |
| Bridge.WebSocketBridge.Dispose | app/serve.ts:123-134 | everything is let go of, once |
| Bridge.WebSocketBridge.OnMessage | app/serve.ts:150-167 | sent on, held, or the end of the bridge |
| Bridge.WebSocketBridge.Attach | app/serve.ts:179-188 | what was held is sent, in order |
| FileSystem.RealPathIsFixed | agent-computer/src/workspace.ts:125-134 | a path without links is its own real path |
| FileSystem.WalkFinds | agent-computer/src/workspace.ts:125-145 | what a walk finds is in the disk under its real name, and free names are in real directories |
| FileSystem.WalkGrows | agent-computer/src/workspace.ts:300-305 | a disk that only grew is walked as before |
| FileSystem.ParentsMade | agent-computer/src/workspace.ts:301 | `mkdir -p` makes a parent that is missing before its child |

## Left out

- A disk that changes between the check in `resolvePath` and the write: it is fixed during one call.
- WorkspaceLinks.LandsWhereTheSystemWould: only for links that read alike, a sufficient case; `WorkspaceLinks.WrittenIsReadBackWhen` has the condition for all.
- WorkspaceLinks.LinkedWriteIsReadBack: only for links that read alike, likewise.
- Two budgets of links: `realpath` and the kernel share one of 40.
- A `mkdir -p` that fails part-way leaves the modelled disk as it was, where the real one may keep some directories.
- Encodings: contents are bytes already, a request that is not a string is not modelled.
- Listing.List: the order in which a directory is read, and the trees read from it, are parameters tied to the disk.
- `settleWithin` in the browser lifecycle: deadlines that pass before a launch or an announcement is over; so a stop or a reset closes whatever is live when it gets to it. The `Evict` event stands for stops, resets and the turns of sweeps at any moment, in any number.
- Profiles.Browsers.SweepIdle: the method runs without interruption; what may come between its closes is `Profiles.SweepClosesOneInUse`, over every run.
- An `onClosed` callback that throws before it returns a promise.
- A page's retargeting to popups, and what a browser's health is read from: health is a parameter.
- Viewer.Slot.TearDownSettles: a teardown may settle at any time, which covers both its stop's answer and its deadline. Callbacks that throw are left out; sockets, casts and loops are identities.
- A `send` or `JSON.stringify` that throws in the two translations to the wire, and clashes between the ids of results and of messages.
- `userContent` in agent-bot/src/history.ts: a user's parts arrive already in the provider's shape; `agent-langgraph/src/history.ts` is weaker and not modelled.
- The audit trail's cursor as text, its parsing, and redaction of payloads: a cursor is a time in microseconds and an id in the order PostgreSQL gives uuids.
- AuditTrail.Trail.Insert: the database draws an id no row has; the same for new rows of the vault.
- Encryption and the reading of model keys by provider; an envelope is opaque.
- What the state of the wheel says a person was asked to do: `reason` may be an expired one after `take`, which is why `Control.LazyIsEager` leaves it out.
- Characters cut in half by the shell's buffer: it is modelled on bytes. How long a command may run, and its environment.
- YAML, sockets, browsers, models and the database themselves; texts with lone surrogates.
- The page's own messages to the upstream, and the routes beside the bridge.
- Session sweeping, request routing, configuration, deployment and every user interface: plumbing around these machines.
