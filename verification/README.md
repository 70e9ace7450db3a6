# Sessionbus, verified

Sessionbus routes messages and commands between sessions: peers that connect by
themselves and lanes that a daemon launches and supervises. Its parts are event
loops joined by bounded first-in-first-out channels, and most of what it
promises holds only because two loops keep in step. This project models those
loops in Dafny and proves the promises over every run.

Each part has the same shape. Pure step functions say what one event does to
the state; an invariant is proved for every step, and theorems are read off it
for every sequence of events, whatever the other end sends, whenever a queue is
full, a connection is lost or a map yields its keys in another order. Where the
source is an object with methods, a class with the same fields and loops is
proved equal to the step functions.

- **A lane's run protocol** (`SessionModel`, `SessionProofs`, `WorkerModel`,
  `LaneLink`, `LaneOrder`, `RunCalls`, `LaneHonesty`, `RunIds`). The daemon
  session numbers runs, reserves result capacity, queues deliveries that cross
  the end of a turn and holds a close behind a blocking run; the worker keeps a
  table of results acknowledged strictly from the oldest. `LaneLink` composes
  both with two channels; its joint invariant implies that no run frame is ever
  refused. `LaneHonesty` says what happens with a product that lies. `Admission`,
  `LaneCalls` and `TurnEnds` say what has to happen: which requests are taken and
  how they are written, that no call is lost, when a turn's end is noticed and
  when an idle lane closes.
- **Deliveries to a lane** (`DeliveryOnce`, `QueuedRuns`, `LaneDeliveries`). A
  delivery is submitted at most once, and one that was promised the next turn
  becomes exactly one run, in the order of the promises.
- **Answers** (`SessionLedger`, `SessionLoop`, `SessionAnswers`). Every request a
  session takes is a token that moves between inbox, pending table, queue, close
  call and answer; the conservation of tokens gives at most one answer at all
  times and exactly one when the loop returns. Which answer that is follows from
  what the worker said.
- **The objects** (`Session`, `Workers`). The session loop and the Go and
  JavaScript workers as classes, proved equal to the models above. The two
  workers differ exactly above the largest safe JavaScript integer.
- **Automatic messages** (`Notices`, `Provenance`, `ForwardFrames`,
  `SendContext`, `Network`). Any number of lanes on any number of hosts, and the
  messages between them hop by hop: notices that a run has ended, and trace
  copies. What a delivery is marked as is what it was sent as, notices do not
  start runs that send notices, copies are not copied, and no chain of
  automatic messages is longer than three.
- **Directory** (`LaneRows`, `Ownership`). Entries, names, claims and durable
  rows through launch, resume, publication, retreat, offline and forget; and
  lifetimes, whose end reaches every lane that depends on them.
- **Federation** (`OwnerEnds`, `Forwarding`, `HubForwards`). Spawns and ends on
  the origin-hub-destination path, the daemon's end of a link, and the hub's
  registry.
- **Callers** (`Rpc`, `PeerHello`, `HeldClose`). Correlation and cancellation of
  calls, agreement on a peer's identity, and the order of a caller's answers.
- **Log and trace** (`CommsLog`, `RotatingFile`, `TracePolicy`, `Trace`). Sequence
  and gap accounting, file rotation, and copies of settled sends: who still has
  a right to one when the send settles, what it shows, and the budget.

Four statements that look natural are false of the code. Each has a concrete
case that shows it and a theorem that says exactly when the statement holds:
that every run frame is accepted whatever a product answers (`LaneHonesty`), that
the log's byte counter equals the bytes it holds (`CommsLog`), that the answer to
a run releases every close held behind it (`HeldClose`), and that daemon and
worker read the same run references (`RunIds`).

Two assumptions are part of the statements. `AllHonest` says that a product does
not report NotRunning for a seeded run it has accepted; `AcceptedUnlessDenied`
shows for every product that run frames are accepted exactly until such an
answer is read. `Env` supplies, as arbitrary functions, whether
the outbox has room for each write and whether a body fits a frame, so every
theorem covers every pattern of failed writes. Nothing here is executed.

## Model

| member | source | states |
|---|---|---|
| LaneLink.LinkStep | bus/internal/daemon/session.go:264-407 | the joint invariant of session, worker and both channels survives every step of either end |
| LaneLink.LaneSafety | bus/internal/daemon/session.go:264-407 | that invariant holds in every state any interleaving of the two ends can reach |
| LaneLink.EveryRunIsAccepted | bus/sdk/go/runs.go:45-72 | in every interleaving the run frame the worker reads next is admitted: next in sequence, slot free, fewer than 256 records |
| LaneLink.CursorsAgree | bus/internal/daemon/delivery_queue.go:13-38 | daemon acknowledged <= worker acknowledged <= worker last <= daemon sequence <= worker last + 1, and outstanding runs plus promises never exceed 256 nor underflow |
| LaneLink.AckIsExpected | bus/sdk/go/runs.go:106-120 | a ready acknowledgement only reaches a worker whose current turn announced that very call |
| LaneLink.LaunchTaken | bus/internal/daemon/policy.go:130-141 | a run the daemon reserves is the successor of the worker's last one, in its generation, with a record to spare |
| SessionProofs.ReserveThenRefuse | bus/internal/daemon/policy.go:130-152 | reserving a run and refusing it restores sequence, running flag, deadline and timer, and leaves calls, wire and books alone |
| SessionProofs.PromiseIsKept | bus/internal/daemon/delivery_queue.go:31-38 | with no run under way and the lane open, the head of the queue passes every check of issue and is launched |
| SessionProofs.IssueCore | bus/internal/daemon/session.go:264-337 | issuing any request, admitted or not, keeps calls, runs, wire and flags consistent: pending plus queued within 256, or 257 once the close frame is among them |
| SessionProofs.IssueKept | bus/internal/daemon/session.go:264-337 | issuing any request keeps reserved and promised results within capacity, and starts a run only through a reservation the worker can take |
| SessionProofs.StartDeferredKept | bus/internal/daemon/delivery_queue.go:31-38 | draining the queue ends with a run under way or the queue empty, and keeps the invariant and the capacity |
| SessionProofs.TurnReadyKept | bus/internal/daemon/policy.go:171-204 | a matching turn.ready is acknowledged before anything the queue then starts, and both halves keep the invariant |
| LaneOrder.ReadBeforeClose | bus/internal/daemon/lane.go:114-143 | in every interleaving a blocking execute precedes any close frame, and between the two lies a wait for that very run, under the same ticket and destination |
| LaneOrder.CloseDeadlineKept | bus/internal/daemon/lane.go:114-143 | no event but its own expiry moves the deadline of a close in progress or changes its caller |
| LaneOrder.CollectorAdmitted | bus/internal/daemon/session.go:346-402 | the read that replaces a blocking execute is never refused, even while a close waits |
| LaneOrder.CloseIsNotForgotten | bus/internal/daemon/lane.go:123-143 | in every interleaving, while the lane is not stopping and its wire whole, a close in progress is with the worker or a blocking run's answer is still to come |
| LaneOrder.CloseEndsTheLane | bus/internal/daemon/lane.go:145-155 | any answer to the close cuts the wire and tells nobody anything yet; the lane stops exactly after a success, within the bound set for a close |
| Admission.RequestIsTakenIfItMay | bus/internal/daemon/session.go:264-337 | in every reachable state a request is taken if and only if it may be, by conditions spelled out here; taken, it is written as asked with the next run if it starts one, or undone and answered; not taken, it is answered with the first reason and nothing else changes |
| LaneCalls.NoCallIsLost | bus/internal/daemon/session.go:323-336 | in every interleaving, while the wire is whole, each pending call is in a frame still to be read, owed by the worker, or answered in a frame still to be read |
| LaneCalls.AcknowledgedRunsAgree | bus/internal/daemon/delivery_queue.go:21-27 | in every interleaving with no acknowledgement pending, daemon and worker count the same runs as acknowledged |
| TurnEnds.IdleLaneIsDue | bus/internal/daemon/policy.go:115-152 | in every interleaving no auto-close timer runs during a run, and on an open idle lane one runs exactly if there is a deadline; the end of a done turn sets it, and a run started from the queue keeps it aside |
| TurnEnds.EndOfTurnIsNoticed | bus/internal/daemon/policy.go:171-204 | in every interleaving the end of a turn belongs to a run that a frame on the wire started; one notice is charged if and only if the lane sends notices, is not closing and that frame is no notice, and it is traced if and only if that frame is no copy |
| RunCalls.CallsStep | bus/sdk/go/runs.go:45-82 | through every step of either end, at most one pending call carries a run, the current one; its frame is unread or lost with the wire, or it is the worker's turn, and an answer already given is unread |
| RunCalls.TurnOverCalls | bus/sdk/go/runs.go:106-120 | the answer to a run's call is read before the end of its turn, so none is pending when the turn is over |
| LaneHonesty.AcceptedUnlessDenied | bus/internal/daemon/session.go:359-382 | in every interleaving with any product, the run frame the worker reads next is accepted if and only if the daemon has not read NotRunning as the answer to a run; once it has, the first run frame written since is refused as busy |
| LaneHonesty.DishonestProductIsRefused | bus/internal/daemon/session.go:377-379 | a concrete run: a product denies a run it accepted, the daemon reuses the number, and the worker refuses the next run frame as busy |
| DeliveryOnce.WrittenAgainOnlyWhenDeclined | bus/internal/daemon/session.go:359-382 | in every run of a session, of two writes of one delivery the first carried no run and was answered NotRunning, and the second carries a run |
| DeliveryOnce.NeverThrice | bus/internal/daemon/session.go:359-382 | no delivery is written to its worker three times |
| QueuedRuns.PromisesAreKept | bus/internal/daemon/delivery_queue.go:31-38 | in every interleaving the run frames that come from the queue are, in order, exactly the promised deliveries taken from it, less those whose own body fits no frame, those given back by a close and those after the loss of the wire; busy only by a close |
| QueuedRuns.TrackedSafety | bus/internal/daemon/session.go:365-382 | the fate of each delivery taken from the queue agrees with what is on the wire and in the log, after every step |
| LaneDeliveries.PromisedDeliveryRunsOnce | bus/internal/daemon/delivery_queue.go:31-63 | a delivery answered queued_for_next_turn that has left the queue starts exactly one run, unless its body fits no frame, the lane is closing or its wire lost; never two |
| LaneDeliveries.WrittenTwiceIsDeclined | bus/internal/daemon/session.go:359-382 | with any worker, a delivery is written twice only after the worker itself answered the first write, which carried no run, with NotRunning |
| LaneDeliveries.SubmittedOnce | bus/sdk/go/worker.go:302-327 | of all writes of a delivery that the worker has read, at most one was not answered NotRunning |
| SessionLedger.IssueGains | bus/internal/daemon/session.go:264-337 | issuing a request adds exactly one token on its ticket and none elsewhere: an answer, a pending call, or the close call |
| SessionLedger.ReceiveSame | bus/internal/daemon/session.go:339-407 | whatever is answered, the token of the answered call is neither lost nor doubled, on any ticket |
| SessionLedger.TurnReadySame | bus/internal/daemon/policy.go:171-204 | the end of a turn, with everything the queue then starts, conserves every ticket's tokens |
| SessionLedger.SettlePendingSame | bus/internal/daemon/session.go:434-453 | settling turns each owed answer into a given one and leaves nothing pending or queued |
| SessionLedger.ClosedSame | bus/internal/daemon/session.go:417-432 | a lost connection conserves every ticket's tokens |
| SessionLedger.IdentifySame | bus/internal/daemon/handlers.go:79-99 | a peer's change of identity conserves every ticket's tokens |
| SessionLedger.PolicyCloseGains | bus/internal/daemon/policy.go:153-159 | a retirement the daemon decides adds exactly one token, its own, or changes nothing |
| SessionLoop.AtMostOneAnswer | bus/internal/daemon/session.go:145-179 | in every run no request is answered twice, none is promised twice, and deliveries leave the queue in the order of their promises |
| SessionLoop.ExactlyOneAnswer | bus/internal/daemon/session.go:106-143 | when the loop returns, each request ever posted has exactly one answer, each promised delivery exactly one logged outcome, and nothing else has any |
| SessionAnswers.AnswersAreTheWorkers | bus/internal/daemon/session.go:339-407 | in every run a request is told Done, or a refusal that is not the session's own, if and only if its worker said so; everything the worker said is told; the promise of the next turn goes exactly to what is queued |
| SessionAnswers.FinalAnswer | bus/internal/daemon/lane.go:212-239 | when the loop has returned, each request's one answer is the worker's verdict if there was one, the session's own refusal if not, the promise for a queued delivery, and for the close success unless a row to be forgotten was not deleted |
| SessionAnswers.ResponseIsPassedOn | bus/internal/daemon/session.go:339-407 | a response is passed on to the one who asked and nobody else: success as Done, failure with its code, an unreadable or misdirected one as not connected with the wire cut |
| SessionAnswers.GivenUpSays | bus/internal/daemon/session.go:448-453 | giving up queued deliveries logs the same refusal once for each and answers nobody again |
| SessionAnswers.LossIsTold | bus/internal/daemon/session.go:417-446 | a lost connection tells not connected to exactly the callers of pending calls other than the close, and logs it for exactly the promised deliveries |
| SessionAnswers.CloseGivesUpTheQueue | bus/internal/daemon/lane.go:114-121 | a close that is begun gives up every promised delivery as busy, answers nobody, stops the auto-close timer and is due ten seconds later |
| Session.Session.constructor | bus/internal/daemon/session.go:97-104 | a new session has no calls, no run, nothing sent and nothing answered |
| Session.Session.AnswerRouted | bus/internal/daemon/delivery_queue.go:43-63 | a scheduled delivery's outcome goes to the log, any other answer to the caller, and to that ticket only |
| Session.Session.Send | bus/internal/daemon/session.go:324-325 | the frame joins the wire exactly when the outbox has room and the wire is whole; a full outbox cuts it for good |
| Session.Session.ReserveRun | bus/internal/daemon/policy.go:130-141 | returns the run now current; the deadline is remembered and cleared |
| Session.Session.RefuseRun | bus/internal/daemon/policy.go:142-152 | only the current run can be refused, and then sequence and deadline go back |
| Session.Session.OrderlyStop | bus/internal/daemon/lane.go:190-195 | as a hard stop, with a close deadline if there was none |
| Session.Session.SettleDeferred | bus/internal/daemon/session.go:448-453 | each promised delivery is given up once, in order, and the queue is empty |
| Session.Session.Blocked | bus/internal/daemon/lane.go:129-133 | true exactly when a close or a blocking execute is pending, whatever the order of the map |
| Session.Session.WriteDeferredClose | bus/internal/daemon/lane.go:125-143 | the new state is that of the model whose ordering ReadBeforeClose proves |
| Session.Session.BeginClose | bus/internal/daemon/lane.go:114-121 | promised deliveries are given up, the deadline starts, and the close goes out unless blocked |
| Session.Session.Write | bus/internal/daemon/session.go:323-336 | the call is pending under a new number, or it is undone and answered NotConnected |
| Session.Session.HasRunCapacity | bus/internal/daemon/delivery_queue.go:13-19 | although the subtraction wraps, in every state within capacity the answer is whether unacknowledged runs and promises together are fewer than 256 |
| Session.Session.Issue | bus/internal/daemon/session.go:264-337 | the new state is the model's, with its order of refusals |
| Session.Session.Launch | bus/internal/daemon/session.go:291-306 | the run is reserved before the frame and carries the provenance of the delivery that seeds it |
| Session.Session.StartDeferred | bus/internal/daemon/delivery_queue.go:31-38 | the loop equals draining from the head until a run starts |
| Session.Session.RecordAcknowledgment | bus/internal/daemon/delivery_queue.go:21-27 | the acknowledged sequence only rises, within the daemon's own generation and sequence |
| Session.Session.Retain | bus/internal/daemon/session.go:365-376 | a declined delivery is issued at once, refused, or answered as queued and put last |
| Session.Session.SettleResponse | bus/internal/daemon/session.go:349-407 | the new state is the model's for every kind of call and of response; which answer is given is stated by ResponseIsPassedOn |
| Session.Session.ReceiveResponse | bus/internal/daemon/session.go:339-407 | an unknown number stops the session; a known one is removed, settled, and a waiting close follows |
| Session.Session.TurnReady | bus/internal/daemon/policy.go:171-204 | acknowledgement, then queue, then at most one notice, none for a run a notice started, and an untraced one for a run a trace copy started |
| Session.Session.SettleCalls | bus/internal/daemon/session.go:436-445 | in whatever order the map is walked, every pending call but the close call is answered once |
| Session.Session.SettlePending | bus/internal/daemon/session.go:434-446 | promised deliveries first, then every pending call, and both tables are empty |
| Session.Session.ConnectionClosed | bus/internal/daemon/session.go:417-432 | the first loss settles everything; a second changes nothing |
| Session.Session.PolicyClose | bus/internal/daemon/policy.go:153-159 | a close of the daemon's own, unless stopping, closing or not committed |
| Session.Session.Identify | bus/internal/daemon/handlers.go:79-99 | everything owed under the old identity is settled before the new one is taken |
| Session.Session.FinishLane | bus/internal/daemon/lane.go:233-238 | the close call, if any, is answered here: failed if and only if the lane was to be forgotten and its row was not deleted (FinalAnswer) |
| Session.Session.Handle | bus/internal/daemon/session.go:145-179 | one event changes the object exactly as it changes the model all run theorems are about |
| Session.Session.Drain | bus/internal/daemon/session.go:455-464 | what is left in the inbox is handled in order, to the end |
| Session.SettledStep | bus/internal/daemon/session.go:436-445 | taking the pending calls in any order leads to the same answers: one more call moves the books on by exactly its own answer |
| RunIds.RoundTrip | bus/internal/daemon/policy.go:138-139 | the text of every run a daemon can reserve is parsed back to that run |
| RunIds.Canonical | bus/sdk/go/runs.go:20-24 | the worker accepts a text if and only if it is the printed text of some run, and then it denotes that run |
| RunIds.TextInjective | bus/internal/daemon/policy.go:138-139 | two runs with the same text are the same run |
| RunIds.JsAgreesWithGo | bus/sdk/js/index.js:272-272 | the JavaScript parser is the Go parser cut off at the largest safe integer, on every text |
| RunIds.ReadersAgree | bus/internal/daemon/delivery_queue.go:21-27 | worker and daemon read a text alike if and only if it has no number after its first slash, or a generation in front of it and no leading zero in it; otherwise only the daemon reads it |
| RunIds.ReadersDisagree | bus/sdk/go/runs.go:20-24 | three texts only the daemon reads: a padded number, sequence zero, an empty generation |
| Workers.CursorSafety | bus/sdk/go/runs.go:26-72 | after any sequence of frames the records are acknowledged+1..last of one generation in order, cursors never go back, and a closing worker stays closing and takes no run |
| Workers.OnlyHeadIsReleased | bus/sdk/go/runs.go:194-214 | an acknowledgement that changes anything removes the oldest record, which was terminal and named exactly, and nothing else |
| Workers.AckIsIdempotent | bus/sdk/go/runs.go:194-214 | a successful acknowledgement succeeds again and changes nothing |
| Workers.AcceptedIsNew | bus/sdk/go/runs.go:45-55 | an accepted run is in no record and was never acknowledged |
| Workers.AckExact | bus/sdk/go/runs.go:194-214 | an acknowledgement succeeds if and only if its run was acknowledged before or is the oldest retained one and has ended; busy if and only if it is later while any result is retained; otherwise unknown; and the oldest record goes |
| Workers.AcceptExact | bus/sdk/go/runs.go:26-72 | a run is accepted if and only if the worker is open and idle, has fewer than 256 unacknowledged runs, and the run is the next of its generation; busy and invalid likewise |
| Workers.EndedRunsAreReleased | bus/sdk/go/runs.go:194-214 | acknowledging the n oldest ended results in turn releases exactly these |
| Workers.SameText | bus/sdk/go/runs.go:194-214 | comparing accepted references as texts decides whether they name the same run |
| Workers.GoWorker.constructor | bus/sdk/go/worker.go:98-105 | an opened worker starts with the empty cursor |
| Workers.GoWorker.Execute | bus/sdk/go/runs.go:26-72 | code and new state are the cursor's, for every text |
| Workers.GoWorker.Ack | bus/sdk/go/runs.go:194-214 | code and new state are the cursor's, for every text, malformed ones included; AckExact says which they are |
| Workers.GoWorker.Ready | bus/sdk/go/runs.go:106-120 | exactly the record of that run becomes terminal, and its slot is freed unless closing |
| Workers.GoWorker.Close | bus/sdk/go/worker.go:257-270 | the slot holds the closing sentinel |
| Workers.JsWorker.constructor | bus/sdk/js/index.js:95-100 | an opened worker starts with the empty cursor |
| Workers.JsWorker.Execute | bus/sdk/js/index.js:101-115 | as the Go worker for every sequence up to 2^53-1 |
| Workers.JsWorker.Ack | bus/sdk/js/index.js:159-169 | as the Go worker for every sequence up to 2^53-1; AckExact says what that is |
| Workers.JsWorker.Ready | bus/sdk/js/index.js:130-133 | exactly the record of that run becomes terminal, and its slot is freed unless closing |
| Workers.JsWorker.Close | bus/sdk/js/index.js:83-91 | the slot holds the closing sentinel |
| Notices.NoticeSafety | bus/internal/daemon/policy.go:171-204 | in every interleaving of one lane each notice is charged to a finished run that no notice started, no two to the same run, and it is traced if and only if no trace copy started the run |
| Provenance.HandleFlagged | bus/internal/daemon/session.go:264-407 | whatever happens to a session, each delivery it holds or writes carries the marks its ticket came with, through queueing and writing again |
| Provenance.HandleCharges | bus/internal/daemon/policy.go:190-203 | an event charges at most one notice, to the run whose turn it ends |
| ForwardFrames.RoundTrip | bus/internal/federation/forward.go:17-34 | decoding an encoded request gives it back, marks included, if and only if its marks suit what it asks for; otherwise it is refused |
| ForwardFrames.MarkIsLiteral | bus/internal/federation/wake.go:22-45 | from any object, however its keys are capitalised or repeated, the request read is marked if and only if the literal completion key says true |
| ForwardFrames.EachPlaceKeepsMarks | bus/internal/federation/hub.go:308-345 | both ends of both links and the registry each pass the marks on as they are or stop the request |
| ForwardFrames.MarkIsNeverStripped | bus/internal/federation/hub.go:489-537 | from daemon to daemon a request passes if and only if the destination is known, no link fails, both links support its marks and its need for trace, its marks suit it and it fits; then only the wish for a trace can be lost |
| Network.NetSafety | bus/internal/daemon/federation.go:344-364 | the marks of every message, whole or in parts, on any host or hop, say why it was sent, in every run of any number of lanes and hosts |
| Network.LaneStepOk | bus/internal/daemon/policy.go:171-204 | a lane's step keeps its deliveries tied to what arrived, and charges at most one notice, to a run not charged before |
| Network.DeliverOk | bus/internal/daemon/handlers.go:333-343 | a delivery made from a message carries the marks of its origin into the lane |
| Network.DeliveriesTellTheirOrigin | bus/internal/daemon/handlers.go:333-343 | a delivery on any lane's wire belongs to a message that arrived there, and is marked as notice or copy if and only if that message was sent as one |
| Network.NoticesDoNotChain | bus/internal/daemon/policy.go:190-203 | every notice anywhere was charged by a run that no notice started; each charge has one message, and different notices of a lane are of different runs |
| Network.AutomaticMessagesEnd | bus/internal/daemon/policy.go:197-199 | three automatic messages, each caused by the one before, are the notice of a run started from outside, a copy of it, and an untraced notice; nothing is caused by the third |
| Network.CopiesAreNotCopied | bus/internal/daemon/trace.go:131-173 | a send made for a copy, or any part of it on any host, begins no trace and matches nobody; each copy is of a send that began one |
| SendContext.TracedWhereItStarts | bus/internal/daemon/federation.go:518-531 | a send is traced where it starts and only there; its parts on this and other hosts look for traced recipients if and only if it is traced |
| SendContext.PartsKeepMarks | bus/internal/daemon/federation.go:344-364 | the local and the remote part of a send carry its marks, and the remote part of a copy names the copy's one recipient |
| LaneRows.RowsAgree | bus/internal/daemon/directory.go:164-326 | in every run each unclaimed or connected lane is indexed by its name and equals its durable row, every row has a lane, and no offline close lost its claim |
| LaneRows.StepOk | bus/internal/daemon/lane.go:55-112 | each critical section and each table operation keeps the directory's invariant |
| LaneRows.PublishOk | bus/internal/daemon/directory.go:250-268 | a publication that is not refused from outside always succeeds: the launch still has its place and its claim |
| LaneRows.ReleaseFresh | bus/internal/daemon/directory.go:304-326 | an aborted fresh launch leaves no entry, no name and no row |
| LaneRows.ReleaseResumed | bus/internal/daemon/directory.go:304-326 | an aborted resume restores the previous entry, its name and its row, unclaimed |
| LaneRows.FinishCloseOk | bus/internal/daemon/directory.go:399-429 | an offline close finds its claim where it left it |
| LaneRows.UnclaimedRests | bus/internal/daemon/directory.go:182-210 | a lane that may be resumed is held by nobody, indexed by both keys, and equal to its row |
| LaneRows.LaunchSucceeds | bus/internal/daemon/directory.go:164-268 | a launch that nothing hinders leads, through its four steps, to a live lane under its identifier and name with the row asked for; nothing else changes |
| LaneRows.ResumeSucceeds | bus/internal/daemon/directory.go:182-268 | a lane that may be resumed comes back with its name, its identifier and the policy asked for, and what stood for it is gone |
| LaneRows.LaneComesToRest | bus/internal/daemon/directory.go:126-162 | a live lane whose close is admitted is claimed; after its connection ends it rests under both keys with its row |
| LaneRows.LaneIsForgotten | bus/internal/daemon/lane.go:212-232 | closed with forget it has no entry, no name and no row, and nobody else is touched |
| LaneRows.RestingLaneIsKept | bus/internal/daemon/directory.go:399-429 | closing a resting lane without forgetting it, or failing to delete its row, leaves the directory as it was |
| LaneRows.RestingLaneIsForgotten | bus/internal/daemon/directory.go:399-429 | closing a resting lane with forget leaves no entry, no name and no row, and nobody else is touched |
| LaneRows.PeerComesAndGoes | bus/internal/daemon/directory.go:57-92 | a peer takes an identifier no lane has, displacing the peer that had it, and leaves it free |
| LaneRows.LaneStays | bus/internal/daemon/directory.go:72-74 | a peer never displaces a lane |
| LaneRows.Load | bus/internal/daemon/directory.go:48-55 | one resting entry per row, found by identifier and by name, and nothing else |
| LaneRows.Directory.constructor | bus/internal/daemon/directory.go:48-55 | the loaded directory satisfies the start condition of RowsAgree |
| LaneRows.Directory.ReserveNew | bus/internal/daemon/directory.go:164-180 | succeeds if and only if the name is free and the launch not refused; then the name is claimed |
| LaneRows.Directory.Resume | bus/internal/daemon/directory.go:182-210 | succeeds if and only if the lane is there, unclaimed, not attached and not refused; the new entry then takes both its keys, and otherwise nothing changes |
| LaneRows.Directory.TakeId | bus/internal/daemon/directory.go:239-248 | succeeds if and only if the launch holds its claim and the identifier is free |
| LaneRows.Directory.Commit | bus/internal/daemon/directory.go:250-268 | succeeds exactly when the entry is live afterwards; otherwise its row is to be undone |
| LaneRows.Directory.ReleaseLaunch | bus/internal/daemon/directory.go:304-326 | the new state is the one ReleaseFresh and ReleaseResumed describe |
| LaneRows.Directory.GoOffline | bus/internal/daemon/directory.go:151-162 | the claim is given back; both keys go if and only if the row was deleted |
| LaneRows.Directory.FinishOfflineClose | bus/internal/daemon/directory.go:399-429 | reports completion exactly when the claim was not lost |
| Ownership.OrphansLeave | bus/internal/daemon/policy.go:97-113 | in every reachable state a connected non-persistent lane of an ended owner has the notice queued or is leaving, and no lifetime ends twice |
| Ownership.TakeoverKeepsLifetime | bus/internal/daemon/directory.go:57-92 | a same-identifier takeover keeps the displaced peer's lifetime, unended |
| Ownership.OnlyOrphansLeave | bus/internal/daemon/policy.go:97-113 | in every reachable state a lane has been told of its owner's end, or leaves unasked, only if it is not persistent and that owner's lifetime has ended |
| Ownership.ConnectionEndsItsLifetime | bus/internal/daemon/directory.go:137-149 | the end of a connection ends the lifetime it carried, which had not ended, and no other; a lane stays as an entry, a peer goes |
| Ownership.PublishedIfOwned | bus/internal/daemon/directory.go:250-268 | a lane is published if and only if its owner lives or it is to persist, and its place is free; it then has a new lifetime and no notice |
| Ownership.Owners.constructor | bus/internal/daemon/directory.go:48-55 | nobody, and nothing ended |
| Ownership.Owners.TellFollowers | bus/internal/daemon/policy.go:97-113 | exactly the connected non-persistent lanes of the owner are told, whatever the order of the map |
| Ownership.Owners.EndOwner | bus/internal/daemon/policy.go:97-113 | a second end of a lifetime changes nothing |
| Ownership.Owners.RemoteEnded | bus/internal/daemon/ownership.go:38-54 | exactly the matching remote owners end, each once, and are forgotten |
| OwnerEnds.SpawnsComeFirst | bus/internal/federation/hub.go:489-612 | in every run no spawn on the path is behind the end of its owner, of its attachment or of its host |
| OwnerEnds.OrphansAreEnded | bus/internal/daemon/ownership.go:12-54 | in every run a remote child of an ended owner is over, or an end for it is on the path, or the loss of a link on the path is pending |
| OwnerEnds.StepOk | bus/internal/daemon/federation.go:565-586 | forwarding, ending, routing, sending and losing either link all keep order and coverage on the path |
| OwnerEnds.NothingIsLost | bus/internal/daemon/federation.go:565-586 | in every run without overflow or failure, what the destination took followed by what is on the path is what the origin handed over: each spawn and end once, in order |
| OwnerEnds.FrameIsActedOn | bus/internal/daemon/ownership.go:12-54 | at the destination an admitted spawn makes a living child of its owner, an end ends exactly the children of its owner, and the end of a host all |
| Forwarding.LinkCallsAreAnswered | bus/internal/daemon/federation.go:136-170 | over any number of links a call is written at most once and answered at most once, and exactly once when no link is installed |
| Forwarding.ResponsesAnswerTheirCall | bus/internal/federation/daemon_link.go:151-168 | over any number of links a call is told a response only if it was written once, as the request that response answers; calls are taken in the order handed over |
| Forwarding.CallIsSentAndAnswered | bus/internal/federation/daemon_link.go:61-125 | on a link that is not failing the oldest call is sent under the next number, and a response to that number is what its caller is told, once |
| Forwarding.BadResponseFailsTheLink | bus/internal/federation/daemon_link.go:156-168 | a response nobody waits for, or an unreadable one, fails the link and tells nobody anything |
| Forwarding.DaemonLink.constructor | bus/internal/daemon/federation.go:35-66 | no link and no calls |
| Forwarding.DaemonLink.HandOver | bus/internal/daemon/federation.go:157-170 | a call joins the queue if and only if there is a link with room; a full queue fails the link, no link is an unknown host |
| Forwarding.DaemonLink.TakeCall | bus/internal/federation/daemon_link.go:61-125 | the oldest call is written and pending, or answered at once |
| Forwarding.DaemonLink.Response | bus/internal/federation/daemon_link.go:156-168 | a known valid response answers its call; any other ends the link |
| Forwarding.DaemonLink.SettlePending | bus/internal/federation/hub.go:453-458 | each pending call is told once, in whatever order the map is walked |
| Forwarding.DaemonLink.SettleQueue | bus/internal/daemon/federation.go:136-155 | each call still queued is told once, under the lock that uninstalls the link |
| HubForwards.RepliesReachTheirOrigin | bus/internal/federation/hub.go:360-392 | in every run a reply is written at most once, only to the attachment that sent the call, and exactly once when nobody holds the call any more, unless that attachment was refused, removed or has failed or the hub is closing; no call is left with a finished link |
| HubForwards.CallsReachTheirHost | bus/internal/federation/hub.go:489-537 | in every run a call is only in the inbox or the table of an attachment of the host it names, and a reply that an attachment gave, under way or written, is from such a one |
| HubForwards.CallIsHandedOn | bus/internal/federation/hub.go:489-550 | a call goes to the end of the inbox of the attachment serving the host it names; its sender is told if it is unsupported or no such host is attached; without room the destination is unlisted and the call lost; a reply goes to the attachment that sent the call |
| HubForwards.MailIsWritten | bus/internal/federation/hub.go:310-351 | an attachment that has not failed writes what it takes from its inbox: a call under a number of its own, a reply as it is and for good |
| HubForwards.Registry.constructor | bus/internal/federation/hub.go:125-130 | an empty registry |
| HubForwards.Registry.Ready | bus/internal/federation/hub.go:172-217 | an attachment is accepted if and only if its host has none listed |
| HubForwards.Registry.Remove | bus/internal/federation/hub.go:574-584 | only the listed attachment of a host is unlisted, never its successor |
| HubForwards.Registry.Reply | bus/internal/federation/hub.go:539-550 | the reply, with its value, joins the inbox of the origin if that is listed and has room; otherwise a listed origin is removed |
| HubForwards.Registry.Route | bus/internal/federation/hub.go:489-537 | a forward is ignored, answered, handed to the attachment of the host it names, or answered as lost with that one removed; CallIsHandedOn says which, CallsReachTheirHost where to |
| HubForwards.Registry.Handle | bus/internal/federation/hub.go:172-217 | the oldest event is handled as the model's, whose runs the theorem is about |
| HubForwards.Registry.SettlePending | bus/internal/federation/hub.go:453-458 | exactly the calls this link has written get a reply, whatever the order of the map |
| HubForwards.Registry.SettleQueued | bus/internal/federation/hub.go:376-392 | exactly the calls still in this link's inbox get a reply, and its inbox is empty |
| HubForwards.Registry.EndLink | bus/internal/federation/hub.go:360-370 | the link leaves the registry before its calls are settled |
| Rpc.CallSafety | bus/sdk/go/internal/rpc/rpc.go:66-126 | in every interleaving no done channel gets two values, identifiers are written in increasing order, at most 256 correlations exist, and a cancelled call is never observed or written |
| Rpc.EveryCallIsTold | bus/sdk/go/internal/rpc/rpc.go:218-291 | once closed and with no thread holding a call, every call begun was told exactly once |
| Rpc.RepliesReachTheirCaller | bus/sdk/go/internal/rpc/rpc.go:218-246 | in every interleaving a caller is told the response to a request only if its call was given that very identifier, and no two calls are given the same one |
| Rpc.CallIsBegunIfItMay | bus/sdk/go/internal/rpc/rpc.go:90-126 | a call is registered under a new number and about to be written if and only if it can be encoded, the connection is open, and identifiers and room are left; otherwise its caller alone is told why |
| Rpc.ResponseIsTold | bus/sdk/go/internal/rpc/rpc.go:218-246 | the response to a pending request is told to its caller, for what it is, and to nobody else; a caller that gave up has nothing touched; an unreadable or unwanted one closes the connection |
| Rpc.UnmatchedResponseCloses | bus/sdk/go/internal/rpc/rpc.go:218-291 | a response that matches no request closes the connection, and everybody who waits will be told |
| Rpc.Conn.constructor | bus/sdk/go/internal/rpc/rpc.go:46-51 | no calls and nothing written |
| Rpc.Conn.Begin | bus/sdk/go/internal/rpc/rpc.go:90-126 | the call is registered under the next identifier, or told at once |
| Rpc.Conn.Abandon | bus/sdk/go/internal/rpc/rpc.go:251-261 | only the very call still in the table can be abandoned, and it keeps its correlation |
| Rpc.Conn.Drop | bus/sdk/go/internal/rpc/rpc.go:263-272 | only the very call still in the table is removed |
| Rpc.Conn.Close | bus/sdk/go/internal/rpc/rpc.go:276-291 | the first close takes every pending call, a later one none |
| Rpc.Conn.TellAll | bus/sdk/go/internal/rpc/rpc.go:276-291 | each call taken is told exactly once |
| Rpc.Conn.ReceiveResponse | bus/sdk/go/internal/rpc/rpc.go:218-246 | the call leaves the table before it is handed to the decoder, so nobody else can tell it |
| Rpc.Conn.FinishResponse | bus/sdk/go/internal/rpc/rpc.go:218-246 | target and observer are touched only if the caller has not given up; the call is told either way |
| PeerHello.IdentityConverges | bus/sdk/go/peer.go:75-158 | however hellos and acknowledgements crossed, with none outstanding the processed, admitted and wanted identities are equal |
| PeerHello.ResendsAtMostOnce | bus/sdk/go/peer.go:253-282 | after the last request each hello loop resends at most once, and not at all if already current |
| PeerHello.WishIsRecorded | bus/sdk/go/peer.go:129-158 | a new identity is what is wanted from then on, and a hello that will carry it is under way; asking for the same again changes nothing |
| PeerHello.Peer.constructor | bus/sdk/go/peer.go:187-235 | dialled, with one hello loop |
| PeerHello.Peer.Desire | bus/sdk/go/peer.go:129-158 | the wish is recorded under a new generation, and a loop starts exactly when reported |
| PeerHello.Peer.Acknowledged | bus/sdk/go/peer.go:253-282 | the loop is done exactly when its hello was of the newest generation |
| HeldClose.CloseAnswersAfterRuns | bus/internal/daemon/handlers.go:392-440 | in every run a caller is never told that a close succeeded while it has an unanswered turn.run of the same target |
| HeldClose.OneHeldCloseIsReleased | bus/internal/daemon/handlers.go:422-430 | the last run's answer leaves no close held for its target if and only if at most one was held |
| HeldClose.ReplyIsPassedOn | bus/internal/daemon/handlers.go:367-440 | a successful close is held if and only if its caller still waits for a run of that lane; any other reply is passed on as it is, and the answer to a lane's last run also releases one close held for it, as a success |
| HeldClose.SecondHeldCloseStays | bus/internal/daemon/handlers.go:425-429 | a concrete run in which a second held close is left behind with no run to release it |
| HeldClose.Requests.constructor | bus/internal/daemon/session.go:97-104 | no requests and no answers |
| HeldClose.Requests.StillRunning | bus/internal/daemon/handlers.go:433-440 | true exactly when some turn.run of that target is unanswered |
| HeldClose.Requests.Reply | bus/internal/daemon/handlers.go:400-421 | the request is answered once and forgotten |
| HeldClose.Requests.FinishRequest | bus/internal/daemon/handlers.go:400-431 | if any close is held for the target, it is one of these that is picked for release |
| HeldClose.Requests.ConsumeReply | bus/internal/daemon/handlers.go:367-398 | a successful close is held exactly while a run of its target is unanswered |
| CommsLog.LogSafety | bus/internal/commslog/commslog.go:315-381 | in every run last = written + lost to overflow + lost to writing + queued + in flight; the queue keeps its bound; until a failure the lines and the pending gap partition 1..last and each gap counts what it covers |
| CommsLog.EventIsKeptIfItFits | bus/internal/commslog/commslog.go:315-381 | in every run an event given to an open log is kept if and only if it can be encoded and it, with the pending gap before it, has room; kept, it is queued last behind that gap; lost, it is counted and ends the pending gap; a closing or failed log ignores it |
| CommsLog.ClosedLogIsComplete | bus/internal/commslog/commslog.go:541-589 | a log closed without failure has named every number, in an event or in a gap |
| CommsLog.ClosedLogDrains | bus/internal/commslog/commslog.go:541-589 | from any reachable closing log a writer that does not fail gets to the end in as many rounds as there are lines left, and the reader then knows of every number |
| CommsLog.BytesMatchUnlessClosingGap | bus/internal/commslog/commslog.go:571-589 | the byte counter stays equal to the bytes held exactly as long as no gap is taken at closing |
| CommsLog.ClosingGapIsNotCounted | bus/internal/commslog/commslog.go:562-589 | a concrete run that leaves the byte counter below zero |
| CommsLog.Logger.constructor | bus/internal/commslog/commslog.go:249-266 | an empty log within its limits |
| CommsLog.Logger.Emit | bus/internal/commslog/commslog.go:315-381 | the new state is the model's, whose EventIsKeptIfItFits says when the event is kept and what becomes of a pending gap |
| CommsLog.Logger.TakeLine | bus/internal/commslog/commslog.go:571-589 | the oldest line, or at closing the pending gap |
| CommsLog.Logger.WroteLine | bus/internal/commslog/commslog.go:541-569 | the line is counted once, as event or as gap record |
| CommsLog.Logger.Fail | bus/internal/commslog/commslog.go:591-615 | exactly the events held or queued are counted as lost to writing |
| CommsLog.Logger.Close | bus/internal/commslog/commslog.go:635-648 | nothing more is admitted, and what is queued stays |
| RotatingFile.RotationDropsOldest | bus/internal/commslog/file.go:131-167 | the files read oldest to newest after a rotation are those before it, less the last one |
| RotatingFile.ReadRotated | bus/internal/commslog/file.go:131-167 | for every k, the k newest files after a rotation hold what the k-1 newest held before |
| RotatingFile.RotatingFile.constructor | bus/internal/commslog/file.go:24-74 | whatever was found stays readable, less what one rotation drops, and the file written to is empty |
| RotatingFile.RotatingFile.Shift | bus/internal/commslog/file.go:144-161 | every surviving file moves up by one, and none is overwritten |
| RotatingFile.RotatingFile.Rotate | bus/internal/commslog/file.go:131-167 | what is readable stays a suffix of the stream, and files this process wrote stay within the limit |
| RotatingFile.RotatingFile.WriteRecord | bus/internal/commslog/file.go:114-129 | refused if and only if larger than a file; rotates first if and only if it does not fit a non-empty one; readable records stay a suffix of the stream |
| Trace.SourceSeesAll | bus/internal/daemon/trace.go:324-336 | the parent of the sender sees every delivery row, in order |
| Trace.OthersSeeTheirOwn | bus/internal/daemon/trace.go:324-336 | any other parent sees a row if and only if it is that of one of its matched children |
| Trace.ResolvedByLabel | bus/internal/daemon/trace.go:324-336 | a row keeps label, disposition and the session it names; an unresolved one gets the child of the first match with its label, and stays unresolved without one |
| TracePolicy.RunOk | bus/internal/daemon/trace.go:84-104 | in every run of the directory only lanes with a living parent have a policy, and a session living on this host is attached under its identifier |
| TracePolicy.TracedByMode | bus/internal/daemon/trace.go:84-104 | in every reachable directory a lane gives a match if and only if it has a mode; the checks of parent and attachment then hold |
| TracePolicy.MatchCountsByVersion | bus/internal/daemon/trace.go:274-287 | whatever happened since, a local match counts at settlement if and only if it would be made again just so, and if and only if the child still has its policy version; one that no longer counts never counts again |
| TracePolicy.RemoteMatchCounts | bus/internal/daemon/trace.go:274-287 | a match that another host made counts here whatever this host's directory says |
| TracePolicy.ParentSetsThePolicy | bus/internal/daemon/trace.go:51-104 | in every run a living parent, and nobody else, sets the policy of its own unclaimed lane; the lane is then traced for it in that mode under a version no lane has had |
| TracePolicy.PublishedWithPolicy | bus/internal/daemon/directory.go:250-268 | a lane that appears is traced as asked if and only if its parent still lives then, and has a lifetime of its own |
| TracePolicy.Policies.constructor | bus/internal/daemon/directory.go:48-55 | no sessions and no policies |
| TracePolicy.Policies.EndOwner | bus/internal/daemon/policy.go:97-113 | exactly the lanes of the ended lifetime lose their policy, whatever the order of the map |
| TracePolicy.Policies.ConfigureTrace | bus/internal/daemon/trace.go:61-80 | code and new state for every caller; only a living parent sets the policy of its own unclaimed lane |
| TracePolicy.Policies.PublishLane | bus/internal/daemon/directory.go:250-268 | a lane gets the policy it was asked for exactly if its parent still lives |
| TracePolicy.Policies.DetachSession | bus/internal/daemon/directory.go:137-149 | the session's own policy and those of its lanes go with its connection |
| Trace.Group | bus/internal/daemon/trace.go:273-290 | each parent's matches that count when looked at, all of them, in order |
| Trace.Project | bus/internal/daemon/trace.go:303-336 | matched children ascending without repetition, body if and only if one wants content, rows as the two lemmas say |
| Trace.Settle | bus/internal/daemon/trace.go:256-344 | a parent gets its one copy if and only if it has a match that counts, did not send or solely receive the message, and the copy is not too long |
| Trace.OneCopy | bus/internal/daemon/trace.go:303-336 | there is only one copy that fits this description |
| Trace.Budget.constructor | bus/internal/daemon/trace.go:106-123 | nothing reserved |
| Trace.Budget.Reserve | bus/internal/daemon/trace.go:106-116 | admitted if and only if open and within both limits; a refusal is counted |
| Trace.Budget.Begin | bus/internal/daemon/trace.go:131-160 | begun if and only if what the session was created with allows it and both limits do; the counters stay the sums of live reservations |
| Trace.Budget.CopyTracesNothing | bus/internal/daemon/trace.go:131-173 | a session created for a copy holds no traced send and no match, whatever was called on it |
| Trace.Budget.TraceTarget | bus/internal/daemon/trace.go:162-173 | a recipient is matched only for a session that may, and only if its directory entry says so; for the traced send if there is one |
| Trace.Budget.Matched | bus/internal/daemon/trace.go:180-184 | true exactly when the child is already matched |
| Trace.Budget.AddRef | bus/internal/daemon/trace.go:175-229 | taken if and only if new, within the number, size and byte limits; then charged to its request |
| Trace.Budget.AddTarget | bus/internal/daemon/trace.go:195-215 | taken under the same limits and its own; only the first counts as work |
| Trace.Budget.ReleaseTargets | bus/internal/daemon/trace.go:231-236 | exactly what the targets held is given back |
| Trace.Budget.Finish | bus/internal/daemon/trace.go:256-265 | exactly what the request held is given back |
| Trace.Budget.Enqueue | bus/internal/daemon/trace.go:346-350 | a copy on its way holds one reservation |
| Trace.Budget.Delivered | bus/internal/daemon/trace.go:346-381 | that reservation is given back once |

## Left out

- Session.Session.ReserveRun: run numbers are unbounded; the wrap of a 64-bit counter after 2^64 runs is not modelled. HasRunCapacity does its subtraction modulo 2^64.
- Session.Session.TurnReady: the comparison of session identifiers is folded into the match on the run; whether there is anybody to notify is part of `Env.notifies`. The notice is recorded as a charge; Network sends it.
- Session.Session.ConnectionClosed: the process deadline a lost lane connection starts, and the caller's own requests, are not in this class; HeldClose has the requests.
- Session.Session.OrderlyStop: the guard on a process that has already exited is not modelled, because processes are not.
- Session.Session.Identify: the detaching of the caller's own requests and an installation that the directory refuses are not in this class; Ownership has the takeover.
- Session.Session.FinishLane: only the answer to the close call; whether the lane was to be forgotten and whether its row was deleted are inputs, the row and the directory entry are in LaneRows, and the reply to the launch is not modelled.
- Session.Session.Handle: shutdown of the daemon, the exit of the worker process and the supersession of a peer whose wire is still open (bus/internal/daemon/directory.go:84-89) are no events of this model.
- Session.Session.constructor: `launching` does not change during a session's run; the open handshake and its commit are in LaneRows.
- Session.Session.PolicyClose: the owner check before it is in Ownership, the timer before it is an arbitrary event.
- SessionProofs.IssueCore: the bound is 256 only without the close frame, which the code adds without a check.
- Workers.GoWorker.Close: only the closing sentinel; the wait for the turn and its readers, and the product's own close, are not in this class (WorkerModel has the wait).
- Workers.JsWorker.Close: only the closing sentinel, as for the Go worker.
- LaneLink.LaneSafety: worker requests other than turn.ready, and the text of messages and results, are left out; reads and closes wait for the product, whose answers are arbitrary.
- Network.NetSafety: lanes are the recipients; what peers do with a message counts as sent from outside. Any send may have any parts and any recipients, so name resolution and the aggregation of answers are not needed and not modelled, and neither is the refusal of a copy whose parent has a new lifetime (bus/internal/daemon/directory.go:453). Lanes obey `AllHonest`.
- SessionAnswers.AnswersAreTheWorkers: an answer is success, promise or a code; the value of a success is not modelled.
- Rpc.RepliesReachTheirCaller: an outcome names the request it answers; the content of a result is not modelled.
- ForwardFrames.RoundTrip: a destination and a target are identifiers; the caller fields of a forwarded frame, the bounds on their lengths and its message identifier are not modelled, and keys are folded as ASCII.
- TracePolicy.MatchCountsByVersion: policy versions are fresh numbers where the source draws random identifiers. Matches of other hosts count as the other host said, as in the source; the hub's own filter of them (bus/internal/federation/hub.go:552-572) is left out.
- OwnerEnds.OrphansAreEnded: one origin attachment and one destination, as values; a new attachment is a new instance.
- LaneRows.RowsAgree: table operations are atomic and rollback writes succeed; the upgrade of rows without a creation time is left out, and rows have distinct names.
- Trace.Settle: a copy may still be dropped later for the budget; freedom from leaks over all callers is not claimed, only the ledger and its bounds.
- Trace.Budget.constructor: copies in delivery, and what other sessions of the daemon hold, are represented by ghost reservations.
- RotatingFile.RotatingFile.WriteRecord: short writes and filesystem errors are left out.
- HubForwards.CallsReachTheirHost: the host a call names is a function of the call, and a reply is known by the attachment that gave it; its content is not modelled.
- HubForwards.RepliesReachTheirOrigin: roster and host listings, which take the same path, are left out, and posting to the registry is not bounded.
- HubForwards.Registry.Remove: the host_end notices that a removal posts to the other links are not in this class; OwnerEnds has them.
- Sockets, TLS, key derivation, reconnect delays and byte framing: a wire is a queue that may be full and may close.
- JSON beyond the marks of a forwarded request, the frame schema and size computations: sizes and decodability are arbitrary inputs.
- Processes, signals and real clocks: only the events they cause.
- normalizePolicy fills in and rejects the policy options of lane.spawn; visibility and name resolution pick directory entries by group, identifier or name; session.list and roster rendering print them; the command line and the operator socket issue requests. None of these takes part in a protocol between loops, and requests arrive here already resolved.
- message.send fan-out over several targets and the aggregation of its answers across hosts.
