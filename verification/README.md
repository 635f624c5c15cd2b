# AutoGov: a Dafny model of the agent, the control plane and the report writers

AutoGov finds unsanctioned automation engines. An agent on each host collects observations,
spools them on disk and ships them to a control plane. The control plane deduplicates them,
puts them on a bounded bus, and a discovery module turns them into instances, graph edges and
scored findings, which analysts acknowledge or whitelist. Reports leave as PDF, alerts as CEF.

This project models the five parts of that system that carry hard properties:

* **Delivery.** `Spool` is the agent's on-disk queue and its flush loop. `Delivery` is the
  control plane's side as a transition system: concurrent ingest calls, remembered ids with
  their 24-hour pruning, the bounded bus, the dispatch loop, snapshots and crashes; a lost
  request never arrives and a lost reply is never confirmed. `Once` proves when an id is
  dispatched at most and exactly once, `Recovery` and `Snapshots` what crashes lose, `Ordering`
  the order, and `EndToEnd` joins agent and control plane. `EventBus`, `Server` and `Dispatch`
  hold the loops themselves, and `Ordering.CallIsIngest` ties the two views of ingest.
* **Store and finding state machine.** `Store` is the object with its maps and dirty flag,
  `State` and `Control` give each mutation, handler and API action as a function on the
  contents of the store, `Merge` is the merge of observations, `Glob` the pattern matcher.
  `Lifecycle`, `Repeat` and `Assets` prove what every run keeps, and `Interleaving` what finer
  interleavings keep. `Durability` is the snapshot file under crashes in the middle of a flush.
  `Modules`, `Dispatch` and `Server` are the imperative handlers, proved to take exactly the
  steps of `Control`. `Routing` and `Alerts` follow a batch from the request to the handlers
  and the channels, `Inputs` a finding back to the stored rows, `Rules` says which instances a
  rule covers, and `Upserts` what any sequence of upserts adds up to.
* **PDF writer.** `PdfText`, `Pdf` and `PdfWriter` give the bytes. `PdfReader` is a reader that
  shares no text with them: it starts at `startxref`, as in sections 7.5.4 and 7.5.5 of ISO
  32000-1:2008, looks values up in dictionaries (`PdfObjects`) and follows the text operators.
  `PdfPages` and `PdfRoundTrip` prove that it undoes the writer. `Report` breaks texts into
  lines.
* **Risk engine.** `Risk`, `Versions`, and `VersionTexts` on what the version parser reads.
* **Text transformers.** `Sanitize` and `Secrets` (redaction on the host), `Cef` (record
  escaping) and `Records` (the records of published findings).

`Text`, `Sorting` and `Model` hold what the parts share. `dafny verify dfyconfig.toml` checks
the whole project.

Byte strings are `string` values with characters below 256; times are counts of nanoseconds.
Handlers and API actions are atomic steps in `Control` and `Lifecycle`. `Interleaving` takes
them apart into store calls: there the finding states stay sound exactly as long as every
call is orderly (`Interleaving.FineRunsExactly`). `Delivery` takes ingest calls, the dispatch
loop and the handlers apart, and `Snapshots` the flushes.

Some properties do not hold of the code as it stands. Each has its exact condition, and an
input on which it fails:

* Finding states under interleaving: `Lifecycle.StaleRescoreExactly` and
  `Interleaving.FineStepExactly`, with `Interleaving.StaleRunFails`,
  `Interleaving.PassesRace`, `Lifecycle.StaleRescoreBreaks` and
  `Lifecycle.StaleRescoreBlanks`.
* Delivery of confirmed observations across crashes and clean shutdowns:
  `Recovery.LostForGoodExactly`, `Recovery.LostUnlessRetriedExactly` and
  `Recovery.ShutdownLoses`, with `Recovery.ConfirmedThenLost` and
  `Recovery.ConfirmedThenLostForGood`.
* Delivery through a full bus: `Once.ExactlyOnce`, with `Once.FullBusLoses`. The comment at
  `internal/bus/bus.go:61` expects the agent to resend a dropped event, but its id is already
  marked, so a resend is a duplicate.
* Deduplication of retries: `Once.NewTwiceExactly`, with `Once.ArrivalNotEnough`.
* Repeated handling: `Repeat.HandleAgainExactly`, with `Repeat.EmptyNameFails`.
* Explanations in the PDF, which are broken at 100 characters and then indented:
  `PdfRoundTrip.ExplanationFits`, with `PdfRoundTrip.LongExplanation`.
* Latin-1 text in the PDF: `PdfText.LatinOneExactly`, with `PdfText.AccentedLetter`.
* Severity after rounding, for configured weights: `Risk.ShownSeverity`, with
  `Risk.TinyWeightsShowLower`. The default weights are not affected.

## Model

| member | source | states |
|---|---|---|
| PdfText.PdfEscape | internal/report/pdf.go:91-109 | The loop over runes produces the escaped line: a backslash before parentheses and backslashes, a space for control characters, UTF-8 up to U+00FF, transliteration above. |
| PdfText.TranslitPlain | internal/report/pdf.go:112-129 | No transliteration contains a parenthesis or a backslash, so it needs no escaping. |
| PdfText.ReadEscaped | internal/report/pdf.go:91-109 | For every line, a reader of literal strings (section 7.3.4.2) that counts parentheses stops exactly at the closing one and returns the shown text: escaping leaves no bare parenthesis. |
| PdfText.EscapedBytes | internal/report/pdf.go:91-109 | Every character that escaping produces is one byte, so lengths of escaped text are byte counts. |
| PdfText.LatinOneExactly | internal/report/report.go:106-107 | The stored text is the announced one-byte Latin-1 encoding if and only if the line has no rune from 128 to 255. |
| PdfText.AccentedLetter | internal/report/pdf.go:98-104 | A line that fails: one accented letter is written as two bytes. |
| PdfText.TranslitLetters | internal/report/pdf.go:112-129 | The table spells every Cyrillic letter as a list by Latin spelling does, and turns every other rune above U+00FF into a question mark. |
| PdfText.ShownDecodes | internal/report/pdf.go:91-109 | For every line, the bytes shown decode as UTF-8 (section 4 of RFC 3629) to a space for each control character, Latin-1 runes as they are, letters by that list, and question marks. |
| PdfText.PrintableShown | internal/report/pdf.go:91-109 | A line of printable ASCII is shown exactly as it is. |
| Pdf.PaginateConcatenates | internal/report/pdf.go:23-30 | Pages hold 1 to 54 lines and concatenate back to the input. |
| PdfWriter.SplitPages | internal/report/pdf.go:22-33 | The slicing loop produces those pages, or the single page "(empty report)". |
| PdfWriter.WriteContent | internal/report/pdf.go:49-57 | The loop over the lines of a page produces its content stream. |
| PdfWriter.BuildObjects | internal/report/pdf.go:35-72 | Appending objects and filling catalog and page tree in afterwards gives the numbered objects of the layout, whose references are proved right by the round trip. |
| PdfWriter.WriteObjects | internal/report/pdf.go:74-84 | The buffer is the header, each object at its recorded offset, the table of those offsets and the trailer. |
| PdfWriter.WritePdfLines | internal/report/pdf.go:22-87 | The whole writer: reading what it writes gives the shown lines back. |
| PdfObjects.ReadPrint | internal/report/pdf.go:35-72 | The reader of names, numbers, references, arrays and dictionaries (section 7.3) undoes their printed form, for all nested values. |
| PdfPages.ReadContentOk | internal/report/pdf.go:49-57 | Following the operators of a content stream shows the lines of its page in font F1 at 9 points, the first at (40, 800) and each further one 13 units below. |
| PdfPages.ReadStreamOk | internal/report/pdf.go:58 | The declared length is exactly the number of bytes between the stream keywords (section 7.3.8). |
| PdfPages.PageRead | internal/report/pdf.go:59-61 | By its keys, a page object gives its parent, its contents, a sheet of 595 by 842 units and the font behind F1. |
| PdfPages.TreeRead | internal/report/pdf.go:65-70 | By its keys, the page tree lists the page objects in order, with a count that agrees. |
| PdfRoundTrip.EntryWidth | internal/report/pdf.go:80-82 | A table entry has 20 bytes if and only if its offset is below 10^10 (section 7.5.4). |
| PdfRoundTrip.ObjectAtOffset | internal/report/pdf.go:74-78 | At the offset recorded for object i stand the bytes of "i 0 obj" and its body. |
| PdfRoundTrip.EntryOffsetOk | internal/report/pdf.go:80-82 | Entry i of the table reads as the offset of object i, for objects within 10^10 bytes. |
| PdfRoundTrip.FindXrefOk | internal/report/pdf.go:79-84 | The last number of the file is the position of the table. |
| PdfRoundTrip.ReadObjectOk | internal/report/pdf.go:74-82 | Looking an object up through the table gives its body, followed by its end mark. |
| PdfRoundTrip.RoundTrip | internal/report/pdf.go:22-87 | From startxref through table, trailer, catalog, kids and content streams the reader gets back the pages as they are meant to look, and so exactly the input lines as shown, in order, or "(empty report)" for none; on the way every reference is found below the size and has the intended type. |
| PdfRoundTrip.TextComesBack | internal/report/pdf.go:22-109 | The texts read from the file decode to what each line is meant to look like, and lines of printable ASCII come back unchanged. |
| PdfRoundTrip.LinesOnSheets | internal/report/pdf.go:13-19 | On every page every line stands between the lower and the upper edge and no two overlap; a line ends before the right edge if and only if it shows at most 102 bytes. |
| PdfRoundTrip.ExplanationFits | internal/report/report.go:127-131 | A printable line of an explanation fits the page if and only if it has at most 98 characters. |
| PdfRoundTrip.LongExplanation | internal/report/report.go:127-131 | Counterexample: words of 49 and 50 letters are kept on one line of 100, which runs off the page. |
| PdfRoundTrip.LayoutExact | internal/report/pdf.go:74-84 | Position by position: startxref points at "xref", each entry is the 20 bytes that print an offset, and at that offset its object starts. |
| Report.Wrap | internal/report/report.go:152-172 | No word is lost, reordered or split, only a single word may exceed the width, no line ends before the next word stops fitting, and the first line is empty exactly when the first word leaves no room. |
| Spool.NamesChronological | internal/agent/spool/spool.go:41-66 | For timestamps of 19 digits, sorting file names as strings sorts batches by time, whatever their sizes. |
| Spool.NarrowNamesReversed | internal/agent/spool/spool.go:66 | Without equal width the order can be reversed. |
| Spool.NameReads | internal/agent/spool/spool.go:41-42 | A file name tells the time and the size of its batch. |
| Spool.Spool.Pending | internal/agent/spool/spool.go:55-68 | The listing is exactly the names of the batches without a fate, oldest first: the pending spool is a suffix of everything enqueued. |
| Spool.Spool.Load | internal/agent/spool/spool.go:71-79 | A batch, or nothing for a missing or damaged file. |
| Spool.Spool.Remove | internal/agent/spool/spool.go:82-84 | Any file may be removed; a missing one is an error, and a refusal by the disk leaves the directory as it was. |
| Spool.Spool.RemoveOldest | internal/agent/spool/spool.go:82-84 | Removing the oldest file gives its batch one fate that fits the file (dropped as corrupt exactly if it was damaged, unless trimmed unread) and leaves the others pending. |
| Spool.Spool.Trim | internal/agent/spool/spool.go:86-92 | Exactly the excess over the cap is trimmed, from the old end. |
| Spool.Spool.Enqueue | internal/agent/spool/spool.go:36-52 | The batch joins the history, at most the cap stay pending, and only the oldest are trimmed; a failed write changes nothing. |
| Spool.Spool.Damage | internal/agent/agent.go:178-180 | A file may be damaged at any time; every batch that has a fate keeps one that fits. |
| Spool.Agent.FlushSpool | internal/agent/agent.go:175-188 | Of the batches that a flush gets past, exactly those with damaged files are dropped as corrupt, and exactly the others were shipped and confirmed, one request each, in order; it ends at the end of the spool or at the first request that is not confirmed, which is the last one sent. Acknowledged batches are those the server confirmed, in the order of enqueueing. |
| Spool.DamageFile | internal/agent/agent.go:178-180 | Damage to a pending file changes no fate: in every reachable state a batch that was not trimmed was dropped as corrupt if and only if its file had been damaged. |
| Spool.Agent.ScanAndShip | internal/agent/agent.go:146-171 | One cycle appends one batch with what the working collectors found, if anything; exactly the excess over the cap is trimmed from the old end; the rest is flushed with the outcome above. |
| Spool.Gather | internal/agent/agent.go:148-156 | Failed collectors are skipped, the others keep their order. |
| Spool.Answered | internal/agent/agent.go:181-186 | A confirmed request adds its batch to the acknowledged ones, any other outcome leaves them as they are. |
| State.MarkSeenKeeps | internal/store/store.go:124-142 | Marking remembers the new id; an older one is forgotten exactly when more than 200000 are stored and it is more than 24 hours older than the mark. |
| Delivery.Conservation | internal/server/ingest.go:49-70 | Over every run with concurrent calls and crashes, every mark of an id is exactly one of dispatched (though a crash may undo the effect), on the bus, held by a call, dropped by a full bus, or lost to a crash. |
| Delivery.StepSeen | internal/store/store.go:124-142 | Without crashes an id is remembered from its lookup until a mark forgets it, and it is marked exactly when it is looked up and not remembered. |
| Once.NewTwiceExactly | internal/store/store.go:124-142 | Over every crash-free run an id is new twice if and only if some mark forgets it (200000 ids stored, and marked more than 24 hours before that call arrived) and some call looks it up after that. |
| Once.AtMostOnce | internal/server/ingest.go:49-70 | Over every crash-free run in which that does not happen to an id, it is dispatched at most once, and never if it was dropped or known before. |
| Once.DroppedExactly | internal/bus/bus.go:62-68 | Over every run an id has been dropped if and only if some call published it while the bus was full. |
| Once.ExactlyOnce | internal/bus/bus.go:62-81 | In such a run, once the bus has drained, each observation with id and type in a confirmed batch that was not known before has been dispatched exactly once if and only if no call published it while the bus was full, and not at all otherwise. |
| Once.FullBusLoses | internal/bus/bus.go:62-68 | Counterexample for every capacity: both requests are confirmed and the bus drains, and the second observation is never dispatched, because the bus was full at its publish and sending it again is a duplicate. |
| Once.ExactlyOnceWithRoom | internal/bus/bus.go:62-81 | If the bus has room at every publish of an observation, each such observation has been dispatched exactly once. |
| Once.TimelySuffices | internal/server/ingest.go:50-57 | It does not happen if every repeated lookup comes within 24 hours of the first mark by the clock. |
| Once.ArrivalSuffices | internal/server/ingest.go:35-57 | It does not happen if lookups keep the order of arrival and every retry arrives within 24 hours of the first mark. |
| Once.PromptlyOnce | internal/server/ingest.go:35-70 | Under that assumption: at most once in every run, and exactly once after the bus has drained, unless published to a full bus. |
| Once.ArrivalNotEnough | internal/store/store.go:124-142 | Counterexample without the order of lookups: a retry that arrives exactly 24 hours after the first mark counts as new, because a later request is looked up before it and prunes. |
| Once.FullStoreExists | internal/store/store.go:132-140 | A store on which that counterexample runs exists, for every time: 200000 ids marked at that time. |
| EndToEnd.JointRuns | internal/agent/agent.go:175-212 | Every run of an agent together with the control plane and other agents, with lost requests and replies, is a crash-free run of the pipeline in which the confirmed requests are confirmed calls and the acknowledged batches are those of the confirmed requests, in order. |
| EndToEnd.AgentToDispatch | internal/agent/agent.go:175-188 | Over every such run, once the bus has drained, each named observation of each batch that the agent counts as acknowledged has been dispatched exactly once, unless a call published it while the bus was full. |
| EndToEnd.AcknowledgedIsDispatched | internal/agent/agent.go:175-188 | The same for any records of an agent whose confirmed requests are confirmed calls. |
| Recovery.EffectsOnce | internal/store/store.go:85-104 | Over every run with crashes and flushes, also in the middle of a handler, in which an id is not forgotten, every snapshot that holds any effect of its observation also remembers it, and the observation is never handed to its handler when the store already holds any effect of it. |
| Recovery.LostForGoodExactly | internal/store/store.go:60-104 | A crash loses an observation for good, or leaves it half handled for good, whatever retries and later crashes follow, if and only if the snapshot remembers its id without holding its complete effect (as long as no mark forgets the id). |
| Recovery.LostUnlessRetriedExactly | internal/store/store.go:60-104 | Without a retry, the effect of an observation is never complete after a crash if and only if the snapshot lacks the complete effect, confirmed or not. |
| Recovery.ShutdownLoses | cmd/controlplane/main.go:95-109 | A clean shutdown, which stops the dispatch loop and then flushes, loses for good exactly the observations that are remembered and not complete, among them all those still on the bus. |
| Recovery.ConfirmedThenLost | internal/server/ingest.go:66-72 | Counterexample: a confirmed observation is lost, because the reply does not wait for a flush. |
| Recovery.ConfirmedThenLostForGood | internal/server/ingest.go:50-72 | Counterexample that a retry does not repair: the mark was flushed before the crash, the effect was not, and the retry is confirmed as a duplicate. |
| Snapshots.FlushesRefine | internal/store/store.go:85-104 | Every run with flushes in stages under the lock of the store, and crashes at any point of them, is a run with flushes in one move, whose memory and snapshot are those of the file machine. |
| Snapshots.CrashAnywhere | internal/store/store.go:60-104 | A crash at any point, inside a flush or a handler, reopens to a snapshot that remembers every observation of which it holds any effect, and loses for good exactly those it remembers without their complete effect. |
| Ordering.OrderKept | internal/server/ingest.go:49-70 | When requests are handled one at a time, retries arrive within 24 hours and nothing is dropped, a drained bus has dispatched exactly the new ids, once each, in the order of first occurrence in the requests. |
| Ordering.CallIsIngest | internal/server/ingest.go:49-70 | The moves of one undisturbed call remember and publish what the ingest loop does. |
| Server.Server.HandleIngest | internal/server/ingest.go:25-73 | A batch without agent or host name is refused unchanged; otherwise host, remembered ids, bus and counts are those of handling the observations one by one. |
| Server.AllCounted | internal/server/ingest.go:49-72 | Accepted plus duplicates is the number of observations with id and type. |
| Server.BatchRemembered | internal/server/ingest.go:50-57 | After a batch each of its ids is remembered, if none was already more than 24 hours old. |
| Server.RetryAcceptsNothing | internal/server/ingest.go:50-72 | Sending such a batch again accepts nothing, queues nothing and counts every observation as duplicate. |
| EventBus.Bus.Publish | internal/bus/bus.go:62-68 | The event is appended if there is room and dropped otherwise. |
| EventBus.Bus.Subscribe | internal/bus/bus.go:54-58 | Subscriptions keep their order. |
| EventBus.Bus.constructor | internal/bus/bus.go:38-50 | A capacity that is not positive becomes 4096. |
| EventBus.EnqueuedExactly | internal/bus/bus.go:62-68 | Of a sequence of events the queue takes the first ones, in order, up to its capacity. |
| EventBus.MatchExactly | internal/bus/bus.go:99-107 | A pattern matches a type if and only if it is a star, the type itself, or a prefix of the type followed by a star. |
| Modules.ReceiversExactly | cmd/controlplane/main.go:72-93 | Observations reach discovery, findings the notification manager, and the three other types their module; nothing else is received. |
| Modules.OneReceiver | internal/bus/bus.go:86-107 | With the subscriptions of the control plane every event reaches at most one handler, which adds less to the queue's measure than the event takes away. |
| Modules.PlanMeasure | internal/modules/discovery/discovery.go:399-449 | An observation yields events of total weight at most 2: one asset event and one finding event. |
| Modules.PublishMeasure | internal/modules/runtime.go:41-59 | Publishing a finding adds at most one event of weight 1. |
| Dispatch.Runtime.Register | internal/modules/runtime.go:98-116 | A module of a registered name is refused; otherwise its patterns are subscribed in order. |
| Dispatch.Runtime.Start | cmd/controlplane/main.go:72-93 | Start-up produces exactly the subscriptions that the measure argument uses. |
| Dispatch.Runtime.HandleEvent | internal/modules/discovery/discovery.go:36-54 | The handler takes exactly the steps that its module prescribes for the event, what they publish joins the queue, and the measure grows by at most its allowance. |
| Dispatch.Runtime.Dispatch | internal/bus/bus.go:86-96 | One turn takes the head of the queue, makes exactly the steps of the matching modules, appends what they publish, keeps the invariant, strictly lowers the measure, and notifies the manager only of finding events. |
| Dispatch.Runtime.RunUntilEmpty | internal/bus/bus.go:71-81 | With no outside publishes the loop terminates with an empty queue; its turns dispatch every event that was queued or published on the way, the store has taken exactly the steps of those events, and the channels received exactly what they call for. |
| Dispatch.FirstComeFirstServed | internal/bus/bus.go:71-81 | Over every sequence of turns, the events dispatched and those still queued start with the queue as it was, in its order. |
| Dispatch.TurnStepsExactly | internal/bus/bus.go:86-96 | A turn makes the steps that the addressee of its event prescribes, and no others. |
| Dispatch.PlansDoneExactly | internal/bus/bus.go:71-96 | Over every sequence of turns the discovery module carries out exactly the plans of the observations dispatched, once each and in their order. |
| Dispatch.QueuedAreHandled | internal/bus/bus.go:71-96 | When the loop has emptied its queue, every observation that was queued has been handled. |
| Dispatch.NothingLost | internal/bus/bus.go:62-96 | If what the handlers publish fits, the events dispatched and those still queued are the queue as it was followed by everything published since, in order. |
| Routing.QueuedStandsFor | internal/server/ingest.go:49-70 | Every event that a batch adds to the bus has the id, type, payload, time, agent and host of one of its named observations. |
| Routing.FreshIsQueued | internal/server/ingest.go:49-70 | With room on the bus, every named observation of a batch whose id is new is on it afterwards. |
| Routing.AcceptedAreQueued | internal/server/ingest.go:49-72 | With room on the bus, the number reported as accepted is the number of events added to it. |
| Routing.IngestedIsHandled | internal/server/ingest.go:49-70 | Every such observation has been handled by the time the dispatch loop has emptied the bus. |
| Routing.IngestedHost | internal/server/ingest.go:35-47 | The stored host has the name, system, addresses, agent and time of the request, and the first-seen time of its first one. |
| Routing.OneHostPerAgent | internal/server/ingest.go:35-47 | Two requests are about one host if and only if host name and agent agree. |
| Routing.PublishedGoTo | internal/modules/runtime.go:41-92 | A published finding goes to the notification manager and a new instance to autodoc, with the host of its subject. |
| Routing.AlertsAreSent | internal/modules/honeynodes/honeynodes.go:47-64 | A honeypot access is severe enough for every threshold, a failing workflow for those up to medium. |
| Routing.AlertsSay | internal/modules/honeynodes/honeynodes.go:47-64 | The findings of both modules are about the instance of the payload and the host of the event, and show the severity that their score has. |
| Routing.OneAlertPerSecond | internal/modules/honeynodes/honeynodes.go:46-48 | Two accesses share a finding if and only if honeypot and address agree and they are handled within the same second. |
| Routing.OneFindingPerNode | internal/modules/selfhealing/selfhealing.go:43-44 | Two failures share a finding if and only if instance, workflow and node agree. |
| Alerts.HoneyAccessAlerts | internal/modules/honeynodes/honeynodes.go:38-65 | When the loop has emptied its queue, with room for what handlers publish, every channel has received a critical alert for every honeypot access that was queued, whatever its threshold, unless that finding was already stored. |
| Alerts.FindingsAppearTold | internal/modules/runtime.go:41-59 | Over every run a finding that was not stored has appeared if and only if a published event tells of it, and no finding disappears. |
| Alerts.DetectedIsTold | internal/modules/discovery/discovery.go:399-449 | When the loop has emptied its queue, with such room, every detected instance that was queued has its finding, and an event that tells of it was dispatched if it had none before. |
| Notify.SentExactly | internal/notify/notify.go:182-191 | Over every sequence of events a channel receives a finding if and only if it was published, reaches the threshold rank and is not whitelisted. |
| Notify.MediumThreshold | internal/notify/notify.go:176-184 | At the default threshold exactly medium, high and critical findings are sent, unless they are whitelisted. |
| Notify.Manager.Notify | internal/notify/notify.go:182-191 | One delivery to each channel in order, or none below the threshold or for a whitelisted finding. |
| Notify.Manager.constructor | internal/notify/notify.go:118-125 | A missing threshold becomes medium. |
| Durability.CrashRecovers | internal/store/store.go:60-104 | A crash at any point of any run, also between writing, renaming and clearing the flag, reopens to the state after a prefix of the mutations no older than the last completed flush; while the store is not dirty it reopens to the state in memory. |
| Durability.FlushCompletes | internal/store/store.go:85-104 | A dirty store can always be flushed, and unless something goes wrong the flush ends with the store in memory on disk and not dirty. |
| Store.Store.Open | internal/store/store.go:60-82 | The snapshot if there is a directory and a file, otherwise an empty store; not dirty. |
| Store.Store.Flush | internal/store/store.go:85-104 | Snapshot and flag change together, or on any failure not at all. |
| Store.Store.MarkEventSeen | internal/store/store.go:124-142 | The loop that deletes while iterating leaves exactly the ids that the specification of pruning keeps; dirty only for a new id. |
| Store.Store.UpsertHost | internal/store/store.go:146-171 | Replaces all fields except first-seen and, when absent, the labels. |
| Upserts.HostsAddUp | internal/store/store.go:146-171 | After any sequence of reports a host is as the last one says, with the first-seen time of the first and the labels of the last that had any. |
| Store.MergeInstance | internal/store/store.go:199-249 | The field-by-field merge is the merge that the lemmas about upserts are about. |
| Store.Store.UpsertInstance | internal/store/store.go:199-249 | Stores a first observation or the merge, and reports creation exactly for an unknown id. |
| Store.Store.SetInstanceWhitelisted | internal/store/store.go:275-287 | Changes flag and reason of a known instance and nothing else. |
| Store.Store.UpsertFinding | internal/store/store.go:369-403 | The new status and contents of a finding, and whether an event is due: it is new, or its severity changed while neither status is whitelisted. |
| Upserts.FindingsAddUp | internal/store/store.go:369-403 | After any sequence of upserts a finding shows the last score, severity, title, factors and time and the origin and creation time of the first; its status is new until the whitelist first comes in, whitelisted while it holds, and blank once it is gone. |
| Store.Store.SetFindingStatus | internal/store/store.go:416-428 | Sets status and time of a known finding, or reports that there is none. |
| Store.Store.WhitelistRules | internal/store/store.go:468-478 | All rules, by time of creation. |
| Store.Store.MatchWhitelist | internal/store/store.go:481-505 | An earliest rule that matches host, image, id, engine or identity by the declarative meaning of its pattern, or none exactly if no rule matches. |
| Rules.RuleCoversExactly | internal/store/store.go:481-505 | By its kind, a rule without wildcards covers exactly the instances with its pattern as host name, image, id, engine or identity, and one with a star at its end those that start with it; an absent text is never covered. |
| Rules.HostRuleExactly | internal/store/store.go:481-505 | A rule by host name covers exactly the instances of the stored hosts of that name. |
| Store.Store.DeleteWhitelistRule | internal/store/store.go:457-466 | Removes a known rule, or reports that there is none. |
| Merge.UnionIntsLoop | internal/store/store.go:570-581 | The deduplicating loop and sort give the sorted union. |
| Merge.UnionStrsLoop | internal/store/store.go:583-594 | The same for strings, without "". |
| Merge.UpsertsAddUp | internal/store/store.go:199-249 | For any sequence of observations of an instance, exposure rank and confidence are the maxima, queue mode the disjunction, the lists the unions without "", identity and first-seen those of the first; from the second on the lists are sorted without duplicates. |
| Merge.UpsertsKeepLatest | internal/store/store.go:213-238 | For any sequence of observations, version, status, database type, owner, image and run mode are each the last value that was not empty. |
| Merge.WidestExposure | internal/store/store.go:217-219 | An instance is public if and only if it was ever seen so, otherwise reachable from the local network if it was ever seen so, and otherwise from its host. |
| Merge.OrderIrrelevant | internal/store/store.go:199-249 | Reordering or repeating observations changes none of these, and from two observations on the stored lists are identical. |
| Merge.MergeTwice | internal/store/store.go:199-249 | A repeated observation changes at most the order and repetition of lists, and a second repetition nothing. |
| Glob.MatchesDenotes | internal/store/store.go:601-628 | The recursive matcher agrees with the meaning of patterns by splitting the subject into literals, single bytes and arbitrary runs. |
| Glob.GlobMatch | internal/store/store.go:597-628 | The loop with its recursive calls terminates and decides that meaning, for all patterns and subjects. |
| Glob.StarsCollapse | internal/store/store.go:604-606 | Two adjacent stars mean one, anywhere in a pattern. |
| Glob.LiteralDenotes | internal/store/store.go:597-628 | A pattern without wildcards denotes itself, with a star at its end whatever starts with it, and with a question mark whatever has one byte more. |
| Modules.API.PublishFinding | internal/modules/runtime.go:41-59 | Store and bus after publishing are those of the atomic step. |
| Modules.DiscoveryModule.Rescore | internal/modules/discovery/discovery.go:414-449 | The finding is computed from the current instance, its edges, credentials and workflows, and published. |
| Inputs.RowsOfInstance | internal/store/store.go:355-363 | The edges, credentials and workflows listed for an instance are exactly the stored ones that name it. |
| Inputs.EdgeCounts | internal/risk/risk.go:112-124 | A further edge adds the weight of its category to the base score of its instance if no stored edge of that instance has it, and nothing otherwise. |
| Inputs.CredentialCounts | internal/risk/risk.go:145-149 | A further credential adds the credential weight if it is the first sign of one for its instance, and nothing otherwise. |
| Inputs.WorkflowCounts | internal/risk/risk.go:136-143 | A further workflow adds the webhook weight if it has the first webhook of its instance and more than the host reaches it, and nothing otherwise. |
| Inputs.OwnerCounts | internal/risk/risk.go:152-159 | An owner outside IT multiplies the raw score by its weight; an unknown owner, root, or one from IT leaves it. |
| Inputs.RescoreReports | internal/modules/discovery/discovery.go:414-449 | A rescore leaves one finding of the instance: whitelisted without score, or with the score, severity, factors and title that the stored rows give; nothing else changes. |
| Inputs.DetectedOutcome | internal/modules/discovery/discovery.go:399-449 | A detected instance leaves its edges and credentials, itself with the verdict on it, and that finding, computed from what is then stored; no other instance or finding changes. |
| Modules.DiscoveryModule.UpsertAndScore | internal/modules/discovery/discovery.go:399-411 | The verdict is one that the rules allow, and store and bus are those of the atomic step. |
| Modules.DiscoveryModule.AddReachability | internal/modules/discovery/discovery.go:451-463 | Edges without a target are not stored, later edges of one id win. |
| Modules.DiscoveryModule.Handle | internal/modules/discovery/discovery.go:36-197 | Handling an observation, reduced to its effects, is an enabled atomic step. |
| Control.OwnerOfFinding | internal/modules/discovery/discovery.go:430-432 | Each instance has one m1 finding identifier, from which it can be told. |
| Control.OtherModulesOwnNothing | internal/modules/honeynodes/honeynodes.go:47-48 | Findings of the other modules have identifiers of no instance's m1 finding. |
| Model.StableIDInjective | internal/model/model.go:191-198 | Identifiers determine their parts as long as no part has a NUL byte. |
| Lifecycle.StatusesSound | internal/store/store.go:369-403 | In every state of every run from an empty store, an m1 finding has an instance and is new, acked, resolved or whitelisted, the last only while its instance is flagged. |
| Lifecycle.StepKeepsInv | internal/modules/discovery/discovery.go:399-449 | Each handler and API step keeps that invariant from any state that has it. |
| Lifecycle.RescoreAgrees | internal/modules/discovery/discovery.go:414-449 | Right after a rescore the finding is whitelisted if and only if its instance is flagged. |
| Lifecycle.AckSurvives | internal/store/store.go:369-403 | An acked or resolved finding of an unflagged instance survives any number of rescans of any instances and any other background steps. |
| Lifecycle.WriteExactly | internal/modules/discovery/discovery.go:414-449 | Writing a finding built from any earlier read keeps the finding states sound if and only if it is fresh: a whitelisted status for a flagged instance, or a blank one over a finding that is not whitelisted. |
| Lifecycle.StaleRescoreExactly | internal/modules/discovery/discovery.go:414-449 | A rescore with a stale read keeps them sound if and only if it read no flag that was removed since and did not miss one that has reached the finding. |
| Interleaving.FineStepExactly | internal/server/api.go:189-201 | One store call of a handler or of a pass over the whitelist keeps the finding states sound, but for instances whose status is still to be reset, if and only if it is orderly: a finding written back is fresh, a whitelisted status is set for an instance flagged at that moment. |
| Interleaving.FineRunsExactly | internal/modules/discovery/discovery.go:399-449 | Over every run in which handlers and API actions interleave between their store calls, the finding states are sound throughout, but for pending instances, if and only if every call is orderly. |
| Interleaving.OrderlyRunsSound | internal/server/api.go:189-201 | After an orderly run from an empty store that leaves nothing pending, every m1 finding is sound. |
| Interleaving.PassExactly | internal/server/api.go:189-201 | After a pass that sets flags by rules that stay as they are, among other calls, an instance is flagged as the rules say if and only if it was before or the pass set its flag. |
| Interleaving.FlagExactly | internal/store/store.go:275-287 | Setting one flag keeps all flags right if and only if that flag is right. |
| Interleaving.PassesRace | internal/server/api.go:189-201 | Counterexample: two passes around the deletion of a rule leave a whitelisted finding of an unflagged instance, with nothing pending. |
| Interleaving.StaleRunFails | internal/modules/discovery/discovery.go:414-449 | Counterexample from an empty store: a rescore reads while a rule matches, the rule is deleted and its pass completes, and the rescore writes what it read. |
| Lifecycle.StaleRescoreBreaks | internal/modules/discovery/discovery.go:414-449 | Counterexample: a rule is deleted between read and write; the finding says whitelisted for an unflagged instance, and the next rescore stores an empty status. |
| Lifecycle.StaleRescoreBlanks | internal/modules/discovery/discovery.go:414-449 | Counterexample: a rule is added between read and write; the empty status is stored at once. |
| Lifecycle.RuleChangesExact | internal/server/api.go:140-201 | After every addition or deletion of a rule, an instance is flagged if and only if some current rule matches it. |
| Lifecycle.ApplyIdempotent | internal/server/api.go:189-201 | Applying the rules twice is applying them once, and the finding of an instance whose flag does not change stays untouched. |
| Lifecycle.WhitelistedIsSilent | internal/store/store.go:369-403 | Over every run, a finding publishes no event while it stays whitelisted, whatever is computed for it. |
| Lifecycle.PublishedSeverities | internal/store/store.go:369-403 | Over every run in which a finding is never whitelisted, the severities in its events are those that the risk engine computed, without consecutive repeats. |
| Server.Server.ApplyWhitelist | internal/server/api.go:189-201 | The loop over instances, in any order, is the atomic application of the rules, with reasons of matching rules. |
| Server.Server.AddRule | internal/server/api.go:140-170 | A rule of unknown kind or empty pattern is refused unchanged; any other is stored and applied. |
| Server.Server.DeleteRule | internal/server/api.go:173-185 | An unknown rule is reported and nothing changes; any other is removed and the rules applied. |
| Server.Server.FindingAction | internal/server/api.go:103-133 | Ack, resolve and reopen set the status of a known finding; anything else is refused unchanged. |
| Rules.ActionThenRescan | internal/server/api.go:103-133 | Ack, resolve and reopen give a finding the status acked, resolved or new and change nothing else but its time; the next rescan keeps it, unless the instance is whitelisted. |
| Assets.InstancesStay | internal/modules/discovery/discovery.go:399-411 | Over every run an instance never disappears, keeps identity and first-seen time, and is announced at most once, not at all if it was known. |
| Repeat.HandleAgain | internal/modules/discovery/discovery.go:58-476 | Handling a dated observation again publishes nothing and changes at most the order and repetition of its instance's lists; a third time changes nothing at all. Verdicts, times and the order of lists may differ each time. The observation must be steady: the instance is known, its credential names are not all empty, a credential is recorded, or credentials weigh nothing. |
| Repeat.HandleAgainExactly | internal/modules/discovery/discovery.go:58-476 | That condition is exact: the second handling leaves the findings as they are if and only if the observation is steady. |
| Repeat.EmptyNameFails | internal/store/store.go:583-594 | Counterexample: a first container whose only credential name is empty, under the default weights. |
| Repeat.ReorderedIsSame | internal/modules/discovery/discovery.go:156-193 | Ranging over the map of secrets in another order gives another reading of the same plan. |
| Merge.MergeReading | internal/store/store.go:199-249 | Two readings of one observation, with lists in any order, merge to the same instance. |
| Repeat.KeysSurvive | internal/store/store.go:583-594 | Whether an instance counts as holding credentials survives its first merge if and only if it has no names or one that is not empty. |
| Repeat.PublishAgain | internal/modules/runtime.go:41-59 | Publishing a dated finding over itself changes nothing and emits nothing. |
| Repeat.ScoreUpToLists | internal/risk/risk.go:96-182 | Scores and factors do not depend on the order or repetition of an instance's lists, as long as the credentials weigh the same. |
| Risk.Score | internal/risk/risk.go:96-182 | The reported score is the rounded, capped sum of the reported factors, the severity is that of the unrounded capped sum, and both are those of the specification by categories. |
| Risk.AddReachability | internal/risk/risk.go:112-124 | The loop with its set of seen categories adds each category once, in order of first occurrence. |
| Risk.OnlyCategoriesCount | internal/risk/risk.go:112-124 | Score and severity depend on the edges only through their set of categories. |
| Risk.ScoreRange | internal/risk/risk.go:162-182 | With nonnegative weights and multipliers every score lies between 0 and 100. |
| Risk.ScoreMonotone | internal/risk/risk.go:96-182 | With ordered exposure weights, more categories, credentials, webhooks or exposure never lower score or severity. |
| Risk.DefaultsQualify | internal/risk/risk.go:37-57 | The default weights meet these conditions. |
| Risk.RoundedSeverity | internal/risk/risk.go:266-268 | The rounded score shows a lower severity than the reported one if and only if the score is positive and below 0.05, and never one more than a step higher. |
| Risk.ShownSeverity | internal/risk/risk.go:162-182 | With nonnegative weights the score of a result belongs to a lower severity than the one reported if and only if the raw score is positive and below 0.05, and never to one more than a step higher. |
| Risk.DefaultsNeverShowLower | internal/risk/risk.go:37-57 | With the default weights every raw score is at least 15, so no score shows a lower severity. |
| Risk.TinyWeightsShowLower | internal/risk/risk.go:162-182 | Configured weights that fail: every instance without edges is reported low and shows 0.0. |
| Risk.SortFactorsStable | internal/risk/risk.go:309-311 | Factors are in descending order of weight, those of equal weight in their original order. |
| Inputs.ProductionAccessIsCritical | internal/risk/risk_test.go:11-34 | The case of the tests: access to payments and 1C from a public instance scores 149.5, capped at 100, and is critical. |
| Inputs.ProductionAccessFactors | internal/risk/risk_test.go:11-34 | Its factors with their weights, in the order in which they are added. |
| Inputs.OutdatedCostsMore | internal/risk/risk_test.go:51-68 | The case of the tests: 27.0 in the local network, 33.8 under a rule that the version falls under. |
| Inputs.PublicScoresHigher | internal/risk/risk_test.go:36-49 | The case of the tests: 40.0 in public, 15.0 on localhost. |
| Model.SeverityScale | internal/model/model.go:201-214 | The severity of a score counts how many of the bounds 0, 35, 60 and 80 it has reached. |
| Risk.RoundsToNearest | internal/risk/risk.go:266-268 | A score is rounded to the nearest tenth, halves upwards. |
| Versions.SplitVer | internal/risk/risk.go:291-306 | The parsing loops produce the leading numbers of the fields, with 64-bit wrap-around. |
| VersionTexts.ParsedPrinted | internal/risk/risk.go:291-306 | For every list of numbers, their decimal texts joined by dots are read back modulo 2^64, whatever spaces stand around, with or without a leading v, letters after the last number, or further fields. |
| VersionTexts.CommonSpaces | internal/risk/risk.go:292 | Blanks, tabs and line ends count as spaces. |
| VersionTexts.PrintedExactly | internal/risk/risk.go:291-306 | A printed list is read back unchanged if and only if all its numbers are below 2^63. |
| Versions.CompareVersions | internal/risk/risk.go:271-289 | The result says exactly whether the first differing component is smaller, there is none, or it is greater. |
| VersionTexts.PrintedOrder | internal/risk/risk.go:271-289 | Printed lists of such numbers compare by their first differing number, missing ones being 0. |
| VersionTexts.PreReleaseIsRelease | internal/risk/risk.go:291-306 | A pre-release compares equal to its release. |
| VersionTexts.SeparatorsAlike | internal/risk/risk.go:293 | Dots, hyphens and plus signs separate fields alike. |
| VersionTexts.TestedVersions | internal/risk/risk_test.go:70-86 | The cases of the tests. |
| Versions.TotalPreorder | internal/risk/risk.go:271-289 | Comparison is antisymmetric in sign and transitive. |
| Versions.EqualExactly | internal/risk/risk.go:271-289 | Two versions compare equal if and only if their parsed lists agree after dropping trailing zeros. |
| Versions.MatchVuln | internal/risk/risk.go:184-194 | The advisory of the first rule that affects the version, or none. |
| Versions.FirstAdvisoryExactly | internal/risk/risk.go:184-194 | The advisory is that of the rule that affects the version while none before it does, or empty if none does. |
| Versions.DownwardClosed | internal/risk/risk.go:184-194 | A rule that affects a version affects every older or equal one. |
| Sanitize.LooksRandomCheck | internal/agent/sanitize/sanitize.go:86-108 | The counting loop decides: at least two digits, some letter, no separator. |
| Secrets.RandomExactly | internal/agent/sanitize/sanitize.go:85-108 | A text looks random if and only if it has two digits and an ASCII letter, and neither a slash nor a dot. |
| Sanitize.ScrubSafe | internal/agent/sanitize/sanitize.go:75-83 | The result has no maximal run of 24 or more token characters that looks random, and scrubbing it again changes nothing. |
| Sanitize.ScrubKeeps | internal/agent/sanitize/sanitize.go:75-83 | Everything outside the redacted segments is kept in order, and a redacted segment is a maximal run of at least 24 token characters that looks random, with at most two equals signs after it. |
| Secrets.PlantedSecret | internal/agent/sanitize/sanitize.go:75-83 | A random-looking token of 24 or more characters, wherever it stands apart, becomes with its padding "<redacted:", eight digits of its fingerprint and ">", and the text on both sides is scrubbed as if it stood alone. |
| Secrets.HiddenStaysHome | internal/agent/sanitize/sanitize.go:75-83 | Two strings that agree but for hidden texts with equal fingerprint digits scrub to the same result: nothing else of a hidden text leaves the host. |
| Secrets.UnchangedExactly | internal/agent/sanitize/sanitize.go:75-83 | A string is left as it is if and only if it has no maximal run of 24 or more token characters that looks random. |
| Secrets.TestedCommand | internal/agent/sanitize/sanitize_test.go:55-68 | The command line of the tests: the token is redacted, the path stays. |
| Sanitize.SplitEnv | internal/agent/sanitize/sanitize.go:40-59 | The loop sorts each variable into names, fingerprints and allowlisted values. |
| Secrets.CutExactly | internal/agent/sanitize/sanitize.go:44-47 | A variable is cut at its first equals sign, and is none without one. |
| Secrets.EnvironmentExactly | internal/agent/sanitize/sanitize.go:40-59 | For every environment: all names in order, fingerprints of the last values of exactly the secret names, and the first 120 characters of exactly the other allowlisted ones. |
| Secrets.TestedNames | internal/agent/sanitize/sanitize_test.go:8-52 | The names of the tests: keys and passwords are secret, three settings are passed through. |
| Secrets.SecretWord | internal/agent/sanitize/sanitize.go:15-24 | A name that contains one of the words in any case is secret, whatever stands around it. |
| Sanitize.SecretsStayHome | internal/agent/sanitize/sanitize.go:36-59 | Two environments with the same names give the same output if their secrets have equal fingerprints and their allowlisted values equal first 120 bytes: nothing else of a value leaves the host. |
| Cef.HeaderOnePass | internal/notify/notify.go:271-275 | The two replacement passes equal one pass over the characters. |
| Cef.ExtOnePass | internal/notify/notify.go:277-282 | The three passes equal one pass. |
| Cef.UnescapeHeader | internal/notify/notify.go:271-275 | Unescaping an escaped header gives the text back. |
| Cef.UnescapeExt | internal/notify/notify.go:277-282 | Unescaping an extension value gives the text back with newlines as spaces. |
| Cef.FieldExactly | internal/notify/notify.go:260-269 | A field is read back up to the pipe after it if and only if it has no unescaped pipe and no open backslash. |
| Cef.RecordSplits | internal/notify/notify.go:260-269 | Splitting a record at its first seven unescaped pipes gives its eight fields back if and only if the module name is such a field; the title may be anything. |
| Cef.ExtensionReads | internal/notify/notify.go:266-267 | Reading the extension key by key gives instance, host, score and explanation back, for identifiers without spaces. |
| Cef.RecordReads | internal/notify/notify.go:260-269 | From a record of a sealed module one reads module, title, number of the severity and the fields of the extension. |
| Cef.RecordStarts | internal/notify/notify.go:268-269 | Every record starts with the format version, the product, the component and its version. |
| Cef.SeverityNumbersOrdered | internal/notify/notify.go:261-264 | The numbers lie between 1 and 10 and keep the order of the severities. |
| Records.PublishedRecordsSplit | internal/modules/runtime.go:41-59 | After any run from an empty store, the record of every finding that the next step publishes splits into its eight fields, because every published finding carries the name of one of the three modules. |

## Left out

- HTTP, TLS, tokens and roles, the user interface and the command lines: plumbing around the modelled calls.
- Collectors: observations are arbitrary inputs. Parsing of their payloads and the classification of targets are replaced by the resulting effects on the store (`Control.Plan`).
- Modules.DiscoveryModule.Handle: parsing of payloads and detection of signals are replaced by the plan, the effects of the observation on the store.
- EndToEnd.JointRuns: the agent's loops are single moves there; `Spool.Agent.FlushSpool` has them.
- JSON, SHA-256, Ed25519 and regular expressions: snapshots and payloads are values, the redaction pattern is a scan for maximal runs, a fingerprint is an arbitrary function whose slice has eight hexadecimal digits.
- Model.StableIDInjective: the 64-bit truncated hash is taken to be free of collisions; an identifier is modelled by the bytes that are hashed.
- Explanations and English titles, CSV and JSON export, email, Telegram and webhook sending, egress checks.
- Rounding errors of floating point: weights and scores are real numbers.
- Audit and event logs: they are best effort and nothing is claimed about them.
- A bound on remembered ids: the code enforces none when more than 200000 arrive within 24 hours.
- Lifecycle.StatusesSound: handlers and API actions are atomic there; `Interleaving.FineRunsExactly` treats them call by call.
- Once.ArrivalSuffices: assumes that lookups keep the order of arrival; `Once.ArrivalNotEnough` shows why, `Once.NewTwiceExactly` does without.
- Recovery.EffectsOnce: flushes are one move there; `Snapshots.FlushesRefine` justifies it. A handler is a first store call, any number of further ones and a last one; which of its effects a crash keeps is not told apart.
- Durability.CrashRecovers: a rename that reached the file system survives a crash; the code does not call fsync, and power failures are not modelled.
- Spool.Spool.RemoveOldest: the removals of the flush and of trimming succeed; `Spool.Spool.Remove` has the failures. A restart of the agent leaves the directory as it is and needs no step.
- Spool.NamesChronological: enqueue times strictly increase and have 19 digits, as nanoseconds from 2001 to 2262 do.
- Store.Store.MatchWhitelist: the order of rules with equal creation time is not determined in the code, so the verdict is any earliest matching rule.
- Store.Store.WorkflowsByInstance: workflows are listed in order of their identifiers, not of their names; scores only count their webhooks.
- Server.Server.AddRule: one action reads the clock once; the identifier, author and time of the rule are inputs.
- Risk.ScoreMonotone: exposure grows from localhost on; an unknown exposure is not below localhost, because a webhook counts with it and not with localhost.
- Notify.SentExactly: a finding counts as whitelisted by its status when its event was published.
- PublishEvent: the identifier of an asset event lacks the serialized payload; no property depends on it.
- PdfReader.ReadPdf: single spaces between values, one text object per page and one table of offsets, as the writer produces them; compressed and updated files are not read.
- PdfText.ShownDecodes: the decoding is UTF-8, which is what is written; a viewer that follows `/WinAnsiEncoding` shows two characters for each rune from 128 to 255, see `PdfText.LatinOneExactly`.
- Report.Wrap: words come already split, as `strings.Fields` gives them.
- Sanitize.SplitEnv: keys are compared without case for ASCII letters only.
- Cef.RecordSplits: the product version and the text of the rounded score are fixed or given; the unescaped identifiers in the extension are taken as they are.
- Cef.ExtensionReads: identifiers and scores have no spaces; the code's identifiers are hexadecimal digits.
- PdfRoundTrip.LongExplanation: words come already split, and the loop that breaks lines enters by its contract.
