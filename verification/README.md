# Verified model of the media server's protocols

This project models, in Dafny, the parts of the repository whose correctness spans many calls, and proves
what they promise over every run:

* the push-to-talk floor arbiter, its timers and the media bindings it causes (`Floor*.dfy`, `MediaBinding.dfy`),
* the mesh bus between routers and clients: key expressions and the subscription index (`KeyExpr.dfy`,
  `MeshIndex.dfy`), messages, frames and lanes of a session (`MeshMsg.dfy`, `MeshWire.dfy`, `MeshFrames.dfy`,
  `MeshLanes.dfy`, `MeshLink.dfy`, `MeshClosing.dfy`, `MeshOrder.dfy`, `MeshLong.dfy`), declarations and their
  mirrors (`MeshTables.dfy`, `MeshRouter.dfy`,
  `MeshMirror.dfy`, `MeshCore.dfy`), queries (`MeshQueries.dfy`, `MeshReplies.dfy`), which of two connections survives
  (`MeshAgreement.dfy`), and delivery of puts in a full mesh (`MeshDelivery.dfy`, `MeshNetwork.dfy`,
  `MeshConverge.dfy`),
* the subscription assignment table (`Sub*.dfy`),
* sequence and timestamp rewriting (`Rewriter.dfy`) and transport-wide congestion feedback (`Twcc.dfy`,
  `TwccRuns.dfy`, `TwccWire.dfy`),
* the hub's presence view and placement (`Presence.dfy`, `PresenceRuns.dfy`),
* the inbox of a forwarding worker (`Inbox.dfy`).

Each stateful part has a specification on values, with the invariants and the theorems over runs, and a class
(`Floor`, `Slot`, `Clock`, `SubIndex`, `Reassembler`, `Outbox`, `Router`, `Queries`, `Table`, `Stream`,
`Receiver`, `Hub`) whose methods update fields in place, with the loops of the original, and are proved to do
exactly what the specification says. `Wrappers.dfy` holds what the modules share.

How things are represented: users, tracks, rooms and nodes are numbers where only identity and order matter;
text on the wire is its UTF-8 bytes; clocks, randomness and the fullness of a lane at a moment are parameters;
hash tables are visited in an arbitrary order; 16-, 24-, 32- and 64-bit arithmetic is written out wherever it
wraps. The tables of the sessions of a mesh node and its own are one map keyed by who declared.

Findings worth knowing:

* A queued user who sends media leaves the waiting state but not the queue, so when the speaker releases it is
  made the speaker, and its media bound, while it is not permitted (`FloorStrong.QueuedRtpBreaks`); without
  that, and only without that, the stronger floor invariants hold (`FloorStrong.StrongExactly`).
* A mesh peer that declares a live id again with another text leaves the router's counts, index or outgoing
  declarations stale (`MeshMirror.DeclareExactly`), and a token's old text then stays counted for good
  (`MeshMirror.RetextedTokenStays`); routers never do that to each other (`MeshMirror.HearReplays`).
* A data or declaration message beyond 64 MiB is accepted by the outbox and ends the session at the reader
  (`MeshLong.LongPutKills`, `MeshLong.LongDeclareKills`, `MeshLink.DrainedFidelity`); on the request lane that
  cannot happen (`MeshLink.RequestsAreShort`).
* A close does not wait for the end of a control message: one that it cuts swallows the reason
  (`MeshClosing.ClosingFidelity`). No message of more than one frame is sent there, so it does not happen
  (`MeshClosing.OneFrameUncut`).
* A track that turns from full video to full audio in its room is on no row for one round
  (`SubRuns.ChangedKindWaits`, `SubSync.OptimalInTwo`). The only caller cannot bring that about: a track's id is
  fresh and its kind is set when it is made (`SubRuns.EveryRoundIsOptimal`).
* Congestion feedback wraps its reference time outside 24 signed bits, after about six days: all times of a
  report are then off by the same multiple of some twelve days (`TwccWire.RoundTrip`, `TwccWire.LateIsWrong`).
* A tick after a long gap closes all sessions and ends no query for its deadline (`MeshQueries.FenceAllOk`,
  `MeshReplies.FenceSparesLate`).
* A packet that comes late moves the window of the congestion feedback back over numbers already reported; those
  forgotten by then are reported as not arrived (`TwccRuns.ReportedTwice`, `TwccRuns.LateNineForgetsTen`).
* When no dynamic payload type is left, one that is taken is given out again (`SubPts.TypesStayApart`,
  `SubPts.NothingLeft`).

## Model

| member | source | states |
|---|---|---|
| `FloorRuns.MutualExclusion` | crates/oxsfud/src/flr/core.rs:241-298 | On every run at most one participant is in Permitted or Prevoke and it is the holder; speaker and revoking agree with the group state; idle participants exist only on an idle floor and waiting ones only on a taken one; the idle floor has an empty queue |
| `FloorRuns.NoticesAreTruthful` | crates/oxsfud/src/flr/core.rs:225-261 | In any step of any run a Taken notice names the holder the floor has afterwards, an Idle notice goes out only if it is idle then and names the one who had it last, and a Granted one only to the holder of a floor taken then, at its priority |
| `FloorRuns.QueueDiscipline` | crates/oxsfud/src/flr/core.rs:205-219 | On every run the queue has no user twice, at most one preempting waiter and that at the head, the rest by falling priority with first come first on ties, and at most qmax ordinary waiters |
| `FloorRuns.SuccessionGrantsBest` | crates/oxsfud/src/flr/core.rs:263-288 | In every step of every run, while anybody waits, a change of holder or a media effect hands the floor to the head of the queue at the priority it asked for, the rest keeps waiting, and by rank and then by the arrivals of that run the head deserves it over every other waiter; the floor falls idle only if nobody waits |
| `FloorLaws.FloorMovesExactly` | crates/oxsfud/src/flr/core.rs:253-851 | In every step of every run, in terms checked before it: the floor changes hands if and only if the holder gives up (releases, goes away while speaking, joins anew while revoked, or runs out of time) or an entitled request finds it idle; a speaker is put out if and only if an entitled request has a higher priority, its permission goes or it spoke too long, with that cause; the waiters change exactly by requests and withdrawals; else nothing of this moves |
| `FloorNotices.PreemptionRevokes` | crates/oxsfud/src/flr/core.rs:337-347 | On every run an entitled request above the priority of the speaker, from a user who does not wait yet, leaves the group revoking that speaker, who is sent a Revoke with cause 4, and the requester at the head of the queue, told place 1 |
| `FloorNotices.PreemptingOnlyUntilRevoked` | crates/oxsfud/src/flr/core.rs:337-347 | On every run a preempting waiter stands in the queue only while the speaker it put out is being revoked |
| `FloorNotices.RequestsAreAnswered` | crates/oxsfud/src/flr/core.rs:300-412 | On every run each request gets the answer the rules say, in their order: not a member, receive only, not publishing here, no permission, alone, barred, the grant, its place in the queue, queue full; refused or unanswered requests change nothing |
| `FloorNotices.ChangesAreTold` | crates/oxsfud/src/flr/core.rs:241-298 | On every run a change of hands is told exactly so: a release is acknowledged, the new speaker granted the floor, and every other member who listens gets one Taken naming it, or one Idle naming the last holder, in member order; a speaker put out gets the cause |
| `FloorNotices.OthersAreTold` | crates/oxsfud/src/flr/core.rs:414-851 | On every run every other step says exactly this: releases of others, places asked for, media without permission, readiness, loss of permission and each reminder; and nothing else |
| `FloorFlags.FlagsAreHistory` | crates/oxsfud/src/flr/core.rs:430-515 | On every run the members, permissions, publishing and bars are functions of the events so far |
| `FloorClocks.TimersExactly` | crates/oxsfud/src/flr/core.rs:853-886 | On every run the timers of the group that run are read off the events: the clock of a speaker from its first media on, the repeated grant of a floor from the queue until media comes, the announcements of an idle floor up to ten |
| `FloorReminders.NoticesAreRepeated` | crates/oxsfud/src/flr/core.rs:554-630 | On every run each member told of a new speaker will be reminded, and a speaker put out is revoked with its cause and will be reminded |
| `FloorNumbers.FanNumbers` | crates/oxsfud/src/flr/core.rs:225-251 | The recipients of one fan-out share the next number if and only if it is not zero or at most one is told; where the counter wraps to zero each gets a number of its own, counting from one |
| `FloorTimers.TimersComeToRest` | crates/oxsfud/src/flr/core.rs:761-886 | From every reachable state a run of timer firings that goes on as long as a timer is armed is finite, and ends idle, with an empty queue and no timer armed |
| `FloorTimers.TimerDescends` | crates/oxsfud/src/flr/core.rs:761-851 | Each firing of an armed timer lowers a lexicographic measure of queue, group state, retransmission counters and flags |
| `FloorTimers.QuietIsIdle` | crates/oxsfud/src/flr/core.rs:853-886 | A reachable floor with no timer armed is idle, with an empty queue |
| `FloorStrong.StrongExactly` | crates/oxsfud/src/flr/core.rs:379-515 | The stronger invariants (waiters are entitled members waiting, the holder is not queued, the speaker is Permitted) hold throughout a run if and only if no queued user sends media in it |
| `FloorStrong.StrongFromStart` | crates/oxsfud/src/flr/core.rs:145-167 | The same from a new floor |
| `FloorStrong.BindsAreEntitled` | crates/oxsfud/src/flr/core.rs:253-261 | In every run from a new floor in which no queued user sends media, every media binding is for the holder, a permitted member that publishes here |
| `FloorStrong.QueuedRtpBreaks` | crates/oxsfud/src/flr/core.rs:704-707 | For any two users on any floor with a queue, a concrete run in which a queued user sends media and the stronger invariants are lost; when the speaker then releases, that user holds the floor and its media is bound while it is still told to stop sending |
| `FloorStrong.SenderSucceeds` | crates/oxsfud/src/flr/core.rs:263-288 | Succession takes the head of the queue in whatever stage it is: one that sends without permission becomes the speaker and stays without |
| `FloorSteps.StepGood` | crates/oxsfud/src/flr/core.rs:379-851 | Every event keeps the invariant, sends only truthful notices, binds media only as the group state changes, and moves the queue only by one arrival, departure or succession |
| `FloorArbiter.Floor.constructor` | crates/oxsfud/src/flr/core.rs:145-167 | A new floor is the initial state and meets the invariant |
| `FloorArbiter.Floor.Send` | crates/oxsfud/src/flr/core.rs:225-239 | The in-place send is the specified one: which messages take a number, which number, and the order of the messages |
| `FloorArbiter.Floor.InsertQ` | crates/oxsfud/src/flr/core.rs:213-219 | The in-place insertion is the specified one |
| `FloorArbiter.Floor.Dequeue` | crates/oxsfud/src/flr/core.rs:205-207 | The in-place removal is the specified one |
| `FloorArbiter.Floor.Fan` | crates/oxsfud/src/flr/core.rs:241-251 | The in-place fan-out over the members, in order, is the specified one |
| `FloorArbiter.Floor.EnterTaken` | crates/oxsfud/src/flr/core.rs:253-261 | The in-place grant is the specified one |
| `FloorArbiter.Floor.IdleEnter` | crates/oxsfud/src/flr/core.rs:263-288 | The in-place fall to idle or to the next waiter is the specified one |
| `FloorArbiter.Floor.PrevokeEnter` | crates/oxsfud/src/flr/core.rs:290-298 | The in-place revocation is the specified one |
| `FloorArbiter.Floor.ArbReqIdle` | crates/oxsfud/src/flr/core.rs:300-324 | A request on an idle floor, in place, is the specified one |
| `FloorArbiter.Floor.ArbReqPermitted` | crates/oxsfud/src/flr/core.rs:326-335 | A request of the speaker itself, in place, is the specified one |
| `FloorArbiter.Floor.ArbPreempt` | crates/oxsfud/src/flr/core.rs:337-347 | A preempting request, in place, is the specified one |
| `FloorArbiter.Floor.ArbRel` | crates/oxsfud/src/flr/core.rs:349-363 | A release, in place, is the specified one |
| `FloorArbiter.Floor.ArbRtp` | crates/oxsfud/src/flr/core.rs:365-377 | Media arriving from the speaker, in place, is the specified one |
| `FloorArbiter.Floor.PartA` | crates/oxsfud/src/flr/core.rs:554-630 | How a participant takes a message of the group, in place, is the specified one |
| `FloorArbiter.Floor.TakenReq` | crates/oxsfud/src/flr/core.rs:637-659 | A request on a taken floor, in place, is the specified one |
| `FloorArbiter.Floor.PartC` | crates/oxsfud/src/flr/core.rs:661-749 | How a participant takes a message of its user, in place, is the specified one |
| `FloorArbiter.Floor.ServerRx` | crates/oxsfud/src/flr/core.rs:379-412 | The receive path with its refusals, in place, is the specified one |
| `FloorArbiter.Floor.Rtp` | crates/oxsfud/src/flr/core.rs:751-759 | The media path, in place, is the specified one |
| `FloorArbiter.Floor.Ready` | crates/oxsfud/src/flr/core.rs:414-428 | What a newcomer is told, in place, is the specified one |
| `FloorArbiter.Floor.PermDown` | crates/oxsfud/src/flr/core.rs:430-444 | Loss of permission, in place, is the specified one |
| `FloorArbiter.Floor.Away` | crates/oxsfud/src/flr/core.rs:453-466 | A publisher leaving, in place, is the specified one |
| `FloorArbiter.Floor.Leave` | crates/oxsfud/src/flr/core.rs:483-493 | A member leaving, in place, is the specified one |
| `FloorArbiter.Floor.Join` | crates/oxsfud/src/flr/core.rs:495-515 | A member joining, in place, is the specified one |
| `FloorArbiter.Floor.Fire` | crates/oxsfud/src/flr/core.rs:761-851 | Each timer, in place, is the specified one |
| `FloorArbiter.Floor.Step` | crates/oxsfud/src/flr/core.rs:379-851 | Any enabled event, in place, keeps the object valid, is the specified step and sends only truthful notices |
| `FloorArbiter.Floor.RunDown` | crates/oxsfud/src/ops/floor.rs:311-345 | Firing armed timers until none is armed ends, with the floor idle and its queue empty |
| `MediaBinding.Slot.Apply` | crates/oxsfud/src/flr/bind.rs:18-39 | The in-place application of a late or early effect is the specified one and says whether the binding changed |
| `MediaBinding.NewestGrantWins` | crates/oxsfud/src/flr/bind.rs:18-39 | Whatever order effects come in, the highest grant stays bound if no release reaches it |
| `MediaBinding.NewestReleaseWins` | crates/oxsfud/src/flr/bind.rs:18-39 | Whatever order effects come in, nothing stays bound if the last grant was released |
| `MediaBinding.GrantNeverGoesBack` | crates/oxsfud/src/flr/bind.rs:18-39 | The number of the bound grant never goes backwards |
| `MediaBinding.BindingConverges` | crates/oxsfud/src/ops/floor.rs:145-157 | The effects of any floor run, numbered and applied in any permutation, leave the slot bound to exactly the holder, or to nobody on an idle floor |
| `MediaBinding.Clock.Stamp` | crates/oxsfud/src/ops/floor.rs:145-157 | Effects of one step are numbered as specified: a bind takes the next number, a release the current |
| `MediaBinding.Clock.Rearm` | crates/oxsfud/src/ops/floor.rs:166-183 | Afterwards exactly the armed timers run; those that ran keep their deadline, new ones start from their base |
| `KeyExpr.Valid` | crates/oxmesh/src/keyexpr.rs:7-23 | The scan accepts exactly the well-formed expressions |
| `KeyExpr.IntersectsScan` | crates/oxmesh/src/keyexpr.rs:36-63 | The loop with recursion computes the specified relation |
| `KeyExpr.IntersectsExact` | crates/oxmesh/src/keyexpr.rs:36-63 | Two valid expressions intersect if and only if some concrete key matches both |
| `KeyExpr.IncludesScan` | crates/oxmesh/src/keyexpr.rs:65-91 | The loop with recursion computes the specified relation |
| `KeyExpr.IncludesSound` | crates/oxmesh/src/keyexpr.rs:65-91 | If one valid expression includes another, every key matching the second matches the first |
| `KeyExpr.IncludesExact` | crates/oxmesh/src/keyexpr.rs:65-91 | With a concrete right side, inclusion holds if and only if that key matches |
| `KeyExpr.ConcreteIntersects` | crates/oxmesh/src/keyexpr.rs:25-63 | Two concrete keys intersect only if they are equal |
| `MeshIndex.LookupIsScan` | crates/oxmesh/src/core.rs:129-133 | Looking up the exact key and scanning the wildcards finds exactly what a scan of all subscriptions finds |
| `MeshIndex.SubIndex.Add` | crates/oxmesh/src/core.rs:108-116 | Adding keeps the index in step with the subscriptions and replaces one entry |
| `MeshIndex.SubIndex.Remove` | crates/oxmesh/src/core.rs:118-127 | Removing keeps the index in step and drops one entry |
| `MeshIndex.SubIndex.Matching` | crates/oxmesh/src/core.rs:129-133 | After any history of additions and removals, lists without repetition exactly the subscriptions matching the key |
| `MeshWire.PutVarLoop` | crates/oxmesh/src/wire.rs:348-358 | The loop appends the specified variable-length number |
| `MeshWire.VarLoop` | crates/oxmesh/src/wire.rs:389-399 | The loop reads the specified number, at most ten groups, the last of one bit |
| `MeshWire.DecodeEncode` | crates/oxmesh/src/wire.rs:138-294 | Decoding an encoded message gives that message, for all fourteen kinds |
| `MeshWire.ParseStable` | crates/oxmesh/src/wire.rs:219-294 | What a parser reads does not depend on what follows |
| `MeshWire.PrefixFree` | crates/oxmesh/src/wire.rs:287-289 | No strict extension and no strict prefix of an encoding decodes |
| `MeshFrames.Frames` | crates/oxmesh/src/wire.rs:296-310 | The loop over chunks yields the specified frames |
| `MeshFrames.CutJoins` | crates/oxmesh/src/wire.rs:296-310 | Joining the chunks of the frames gives the body |
| `MeshFrames.FrameBack` | crates/oxmesh/src/session.rs:196-209 | A frame written is read back whatever follows it |
| `MeshFrames.FrameCut` | crates/oxmesh/src/session.rs:196-209 | Fewer bytes than a frame yield no frame and no error |
| `MeshFrames.Reassembler.Push` | crates/oxmesh/src/wire.rs:335-345 | Chunks of a lane accumulate untouched by other lanes until one without the flag; only exceeding the largest message fails |
| `MeshFrames.ReadLoop` | crates/oxmesh/src/session.rs:211-244 | The read loop delivers and fails as the specified receiver does |
| `MeshLanes.Outbox.PushMsg` | crates/oxmesh/src/session.rs:85-113 | Accepts, drops with a count, refuses with a count, or is closed, as specified, with the lane caps |
| `MeshLanes.Outbox.Close` | crates/oxmesh/src/session.rs:115-122 | Only the first close counts |
| `MeshLanes.Outbox.Pop` | crates/oxmesh/src/session.rs:128-148 | One write is filled from the highest non-empty lane frame by frame; after a close the queues are emptied and the last word given |
| `MeshLanes.HigherLanesFirst` | crates/oxmesh/src/session.rs:137-146 | A frame is written only when every higher lane has been written out: the frames of one write are in the order of the lanes, and no higher lane is left with anything |
| `MeshLanes.BatchSize` | crates/oxmesh/src/session.rs:137-146 | One write exceeds its size by less than a frame |
| `MeshLanes.StepOk` | crates/oxmesh/src/session.rs:85-185 | Every push, pop, close and keepalive keeps each lane cut from the messages it accepted |
| `MeshLink.LaneFidelity` | crates/oxmesh/src/session.rs:85-244 | For every interleaving of pushes, pops, closes and keepalives and wherever the stream is cut, each lane delivers in order and never partially a prefix of what it accepted |
| `MeshLink.DrainedFidelity` | crates/oxmesh/src/session.rs:211-244 | When all was written and read, the reader reports an error if and only if some accepted message exceeds the largest, and otherwise every lane delivered all |
| `MeshOrder.OrderIsKept` | crates/oxmesh/src/wire.rs:123-136 | For every interleaving of pushes, pops, closes and keepalives and wherever the stream is cut: over all lanes together, of the questions and answers, the declarations, or the data, or any part of one of these, the reader is given a prefix of what was accepted, in the order of acceptance |
| `MeshOrder.AllIsGiven` | crates/oxmesh/src/wire.rs:123-136 | When all was written and no message is too long, the reader has been given all of it, in that order |
| `MeshOrder.RepliesComeFirst` | crates/oxmesh/src/wire.rs:133-133 | A reader that was given the end of a query was given before it exactly the replies to that query accepted before its end |
| `MeshOrder.DeclarationsComeInOrder` | crates/oxmesh/src/wire.rs:126-132 | What is declared and withdrawn under one kind and id is given in the order accepted |
| `MeshClosing.ClosingFidelity` | crates/oxmesh/src/session.rs:157-185 | After a close with a reason, the control lane delivers, however the stream is cut, a prefix of the messages written whole before it, in order, and then one more; read to its end, it delivers all of that, or the reader reports an error, if and only if too much of one message was written on some lane or the closing word and the rest of a message in front of it do not make a message; the one more is the reason if and only if the close cut no control message |
| `MeshClosing.OneFrameUncut` | crates/oxmesh/src/session.rs:85-113 | Control messages of one frame, which is all that routers and clients send, are never cut |
| `MeshClosing.StopsExactly` | crates/oxmesh/src/session.rs:115-148 | In every run only the first close counts: from then on every message is turned away, and with the next pop, and not before, the writer has stopped after the reason of that close |
| `MeshClosing.KeepAliveGoesOut` | crates/oxmesh/src/session.rs:157-185 | In every run a writer that found nothing to write and has not stopped writes one keepalive frame, of which the reader is shown nothing |
| `MeshLink.DiesExactly` | crates/oxmesh/src/session.rs:211-244 | The first frames of a lane, however many, kill the reader if and only if they carry more than the largest message of one message |
| `MeshLink.RequestsAreShort` | crates/oxmesh/src/session.rs:85-113 | The request lane never accepts a message the reader would refuse for its length |
| `MeshLong.AcceptsExactly` | crates/oxmesh/src/session.rs:85-113 | An open writer accepts a message if and only if its lane has no cap or its frames still fit there; the length itself is not looked at |
| `MeshLong.FamiliesAreQueued` | crates/oxmesh/src/session.rs:85-113 | By kind of message: session and declaration messages are always accepted; questions and answers are refused, and data dropped, if and only if their frames do not fit beside those waiting, 4096 and 8192 in all; each goes to the end of its own queue |
| `MeshLong.PopsDrain` | crates/oxmesh/src/session.rs:128-148 | An open writer that is popped often enough has written everything it accepted |
| `MeshLong.LongKills` | crates/oxmesh/src/session.rs:211-244 | Any accepted message longer than the reader takes is written like another, and the session dies with nothing of it delivered |
| `MeshLong.LongPutKills` | crates/oxmesh/src/session.rs:85-113 | For every length from the largest message up to the size of the data lane there is such a put |
| `MeshLong.LongDeclareKills` | crates/oxmesh/src/session.rs:85-113 | And a declaration of every such length, without an upper limit |
| `MeshTables.EnterOk` | crates/oxmesh/src/core.rs:594-608 | Entering a new declaration keeps counts, index and outgoing declarations in step with what is live |
| `MeshTables.DropOk` | crates/oxmesh/src/core.rs:610-622 | Dropping a live declaration keeps them in step |
| `MeshTables.SameTables` | crates/oxmesh/src/core.rs:655-730 | Counts, index and imaged declarations are determined by what is live, whatever the history |
| `MeshRouter.CloseOk` | crates/oxmesh/src/core.rs:533-579 | Closing a session, in whatever order its declarations are visited, keeps the invariant and removes exactly what it declared |
| `MeshRouter.InstallOk` | crates/oxmesh/src/core.rs:499-508 | A new session of a peer that has none keeps the invariant; a router among them is told exactly what is out |
| `MeshMirror.DeclareExactly` | crates/oxmesh/src/core.rs:865-884 | A remote declaration keeps the invariant if and only if it does not give a known declaration another text where a table holds it |
| `MeshMirror.RetextedTokenStays` | crates/oxmesh/src/core.rs:865-884 | The failing input, for any two texts and either role: a peer comes up, declares a token and declares it again with another text; the invariant is gone, and after the session has closed and nothing is live the first text is still counted |
| `MeshMirror.RouterTables` | crates/oxmesh/src/core.rs:655-899 | In every state of every conforming run tokens are counted exactly, the index holds the live subscriptions, the own and the clients' declarations are out under ids of their own, every peer router was told exactly what is out with nothing twice, and byPeer is the inverse of sessions |
| `MeshMirror.CloseLeavesNothing` | crates/oxmesh/src/core.rs:533-579 | A closed session leaves nothing in counts, index, images, outgoing declarations, sessions or byPeer |
| `MeshMirror.HearReplays` | crates/oxmesh/src/core.rs:865-899 | A peer that takes in a router's log, or any prefix, holds its replay, and every message of it conforms |
| `MeshMirror.PeerHoldsOut` | crates/oxmesh/src/core.rs:501-508 | A peer router that took in all it was told holds exactly what is out at the sender |
| `MeshCore.Router.constructor` | crates/oxmesh/src/core.rs:179-217 | A new router has empty tables and meets the invariant |
| `MeshCore.Router.Announce` | crates/oxmesh/src/core.rs:581-588 | Every peer router is told, once |
| `MeshCore.Router.CountUp` | crates/oxmesh/src/core.rs:594-608 | The count of a token goes up by one |
| `MeshCore.Router.CountDown` | crates/oxmesh/src/core.rs:610-622 | The count goes down, the entry goes with the last, and the result says so |
| `MeshCore.Router.Declare` | crates/oxmesh/src/core.rs:655-691 | A declaration made here, in place, is the specified one under the next id |
| `MeshCore.Router.Undeclare` | crates/oxmesh/src/core.rs:709-730 | A withdrawal made here, in place, is the specified one |
| `MeshCore.Router.OnDeclare` | crates/oxmesh/src/core.rs:865-884 | A peer's declaration, in place, is the specified one, text replacement included |
| `MeshCore.Router.OnUndeclare` | crates/oxmesh/src/core.rs:886-899 | A peer's withdrawal, in place, is the specified one |
| `MeshCore.Router.Install` | crates/oxmesh/src/core.rs:456-508 | A new session, in place, is the specified one |
| `MeshCore.Router.Close` | crates/oxmesh/src/core.rs:533-564 | Closing, in place, is the specified one for some order of the declarations |
| `MeshCore.Router.Serve` | crates/oxmesh/src/core.rs:388-439 | Any event from a conforming peer, and an id taken by a query, keeps the object valid, its subscription index included, and is the specified step |
| `MeshCore.Router.Route` | crates/oxmesh/src/core.rs:901-928 | In a valid router, looking the key up in the subscription index sends a put to each matching local subscription once and to each session that wants it and may get it once |
| `MeshQueries.StepOk` | crates/oxmesh/src/core.rs:930-1011 | Every step keeps the fence, and a query leaves only with its answers ended or with the session it was asked over |
| `MeshQueries.QueriesAreFenced` | crates/oxmesh/src/core.rs:930-1011 | In every run, whatever lanes are full, every pending query has somebody left to answer and both ends alive, and no answer to a query follows its final one, so never two finals |
| `MeshReplies.AwaitedExactly` | crates/oxmesh/src/core.rs:930-1011 | In every run, a target is still expected to answer a query if and only if it was asked, took the query, and since then neither finished nor lost its session, the session of the asker stayed, no fence struck either, and no tick found the deadline passed |
| `MeshReplies.RepliesAreAwaited` | crates/oxmesh/src/core.rs:856-860 | Every reply given to an asker in a run stems from the event asking that very query of that asker: from a target whose part had not ended, or for a peer whose lane refused the question |
| `MeshReplies.RefusalsAreTold` | crates/oxmesh/src/core.rs:957-982 | In every run the asker is told at once, in order, of each peer that could not be asked, and of the end if and only if nobody is left; else the query waits for exactly those asked |
| `MeshReplies.AwaitedRepliesPass` | crates/oxmesh/src/core.rs:743-747 | Every reply of a target still expected is passed on, once, to the asker of that query; any other reply changes nothing |
| `MeshReplies.NothingAfterFinal` | crates/oxmesh/src/core.rs:983-1011 | If no two questions of a run share asker and id, no asker is told anything after a final answer |
| `MeshReplies.FenceKeeps` | crates/oxmesh/src/core.rs:297-308 | After a fence exactly those parts of queries are left that were asked here and are answered here, whatever their deadline |
| `MeshReplies.FenceSparesLate` | crates/oxmesh/src/core.rs:270-274 | The run that shows it: a query asked here of a queryable here is still pending after a fenced tick at or past its deadline, which an ordinary tick would have ended |
| `MeshQueries.CloseFreesQueries` | crates/oxmesh/src/core.rs:565-575 | Closing a session leaves no query with an end there and ends those it was the last to answer |
| `MeshQueries.TickEndsLate` | crates/oxmesh/src/core.rs:286-289 | A tick that is not fenced ends exactly the queries whose deadline has passed |
| `MeshQueries.FenceAllOk` | crates/oxmesh/src/core.rs:270-308 | A tick after a long gap closes every session, in any order, and finishes no query for its deadline: a query that is gone was asked by a peer or has lost its last answerer and ended |
| `MeshQueries.AskOk` | crates/oxmesh/src/core.rs:930-981 | A query gets an id never used before, and one that nobody is left to answer ends at once |
| `MeshQueries.Queries.FinishQuery` | crates/oxmesh/src/core.rs:1004-1011 | In place, the specified end of a query |
| `MeshQueries.Queries.Complete` | crates/oxmesh/src/core.rs:997-1002 | In place, the specified end of one target |
| `MeshQueries.Queries.PassOn` | crates/oxmesh/src/core.rs:983-995 | In place, the specified reply |
| `MeshQueries.Queries.RouteGet` | crates/oxmesh/src/core.rs:951-980 | The loop over targets, in place, is the specified one, refusals included |
| `MeshQueries.Queries.Close` | crates/oxmesh/src/core.rs:565-575 | The loop over pending queries, in place, is the specified one |
| `MeshQueries.Queries.Tick` | crates/oxmesh/src/core.rs:286-289 | The loop over late queries, in place, is the specified one |
| `MeshQueries.Queries.Fence` | crates/oxmesh/src/core.rs:297-308 | The loop over the sessions, in place, is the specified one |
| `MeshQueries.Queries.Serve` | crates/oxmesh/src/core.rs:655-757 | Any event keeps the fence and is the specified step |
| `MeshAgreement.VerdictsExactly` | crates/oxmesh/src/core.rs:388-454 | Whatever it dialed or was dialed, an end turns down a wrong protocol, itself, and whom a client need not know, and besides exactly what is no better than the session it has, each for its reason |
| `MeshAgreement.OfferKeepsBetter` | crates/oxmesh/src/core.rs:388-454 | Each single decision, dialed or accepted, keeps the better of two connections |
| `MeshAgreement.EndKeepsBest` | crates/oxmesh/src/core.rs:388-454 | An end keeps the best of all connections it saw, in whatever order |
| `MeshAgreement.EndsAgree` | crates/oxmesh/src/core.rs:388-454 | Two routers that saw the same connections, each in its own order, keep the same one |
| `MeshDelivery.RoutePut` | crates/oxmesh/src/core.rs:901-928 | The routing loop yields each matching local subscription once and each session that wants the put and may get it once |
| `MeshDelivery.AskPeers` | crates/oxmesh/src/core.rs:943-955 | The loop over sessions asks exactly those that may be asked and declared a matching queryable |
| `MeshNetwork.SecondIsLast` | crates/oxmesh/src/core.rs:901-928 | What a router got from a router it passes only to its own clients, so there is no third hop |
| `MeshNetwork.ExactlyOnce` | crates/oxmesh/src/core.rs:901-955 | In a converged full mesh of any size, a put at any node gives every matching subscription of every node exactly one sample and every other none, and a question reaches every matching queryable exactly once |
| `MeshConverge.StepOk` | crates/oxmesh/src/core.rs:456-899 | Every declaration, withdrawal, hearing of one note, and connection that goes at one end or comes up keeps each router holding, of each peer, the replay of what it has heard |
| `MeshConverge.HeardIsConverged` | crates/oxmesh/src/core.rs:456-899 | However connections that come and go, declarations, withdrawals and their hearing interleave in a run from new routers and clients, when all are connected and everything said has been heard the mesh has converged, for every kind of declaration |
| `MeshConverge.HeardIsExactlyOnce` | crates/oxmesh/src/core.rs:901-955 | So that a put made then gives every matching subscription exactly one sample, and a question reaches every matching queryable exactly once |
| `SubSlots.AllOrNothing` | crates/oxsfud/src/sub/mod.rs:417-454 | A round is refused if and only if the count made beforehand exceeds a limit, and then nothing changed |
| `SubSlots.NeverRefused` | crates/oxsfud/src/sub/mod.rs:466-489 | The refusal inside the loop never happens: the loop adds exactly the rows counted beforehand |
| `SubSlots.SlotsFill` | crates/oxsfud/src/sub/mod.rs:455-485 | Every slot candidate ends on a row and no room and kind on two |
| `SubFull.TargetIsTop` | crates/oxsfud/src/sub/mod.rs:505-524 | The sorted and cut list is the best of the candidates |
| `SubFull.LoadFullOk` | crates/oxsfud/src/sub/mod.rs:532-567 | Every target gets a row: a free one, a new one or a retuned one |
| `SubSync.RoundIsOptimal` | crates/oxsfud/src/sub/mod.rs:440-577 | A round not refused leaves every slot candidate on exactly one row, no track on two, and exactly the 25 best-ranked full candidates of each kind loaded, ties kept for those loaded before, if and only if no full audio candidate it chooses is on a full video row |
| `SubSync.RoundKeeps` | crates/oxsfud/src/sub/mod.rs:440-577 | Every round keeps the table in order, and one not refused leaves only wanted tracks, blocked or not |
| `SubCodecs.RowsAreFitting` | crates/oxsfud/src/sub/mod.rs:440-577 | After any round every row with a track either had it before and is unchanged but for the room of a track that moved, or was given in this round to a candidate of its kind, class and codec, from now on and not open; every other row is as it was, or was closed when its track was taken down |
| `SubCodecs.ActiveRowsCarry` | crates/oxsfud/src/sub/mod.rs:361-415 | In every run only rows with a track are active |
| `SubCodecs.TracksAreOnTheirCodec` | crates/oxsfud/src/sub/mod.rs:532-567 | For every offer and catalogue in which a track has one codec, in every run every track is on a row of its codec, with the payload types of that kind and codec |
| `SubTies.TiesAreFair` | crates/oxsfud/src/sub/mod.rs:517-525 | Of two candidates of one kind and rank, the one a round leaves on a row was put up no earlier, if both were on rows, and has waited no shorter, if neither was |
| `SubTies.WaitingExactly` | crates/oxsfud/src/sub/mod.rs:512-567 | After a round a candidate on a row waits no longer; one that is not waits since when it did, or from this round on if it was on no row |
| `SubSync.SecondRoundIdle` | crates/oxsfud/src/sub/mod.rs:440-577 | After a round that was not blocked, a second one with the same candidates changes no row and no revision |
| `SubSync.OptimalInTwo` | crates/oxsfud/src/sub/mod.rs:440-577 | Blocked or not, the second round with the same candidates is optimal and the third changes nothing |
| `SubRuns.TablesStayInOrder` | crates/oxsfud/src/sub/mod.rs:440-603 | Whatever the offer, in every run of rounds, acknowledgements and carried revisions the table is in order: no track on two rows, no room and kind on two slots, all limits kept |
| `SubRuns.EveryRoundIsOptimal` | crates/oxsfud/src/ops/media.rs:155-165 | Whatever the offer, with candidates from a catalogue in which a track has one kind, every round of every run is refused as a whole or optimal, and repeating it changes no row |
| `SubRuns.ChangedKindWaits` | crates/oxsfud/src/sub/mod.rs:532-537 | The failing input: a track put up as full video and then offered as full audio in the same room is on no audio row after that round, which is not optimal, and is after the next, which is |
| `SubAck.RoundStamped` | crates/oxsfud/src/sub/mod.rs:361-415 | Every row a round changes or adds carries the round's revision |
| `SubAck.OpenRowsAreAcknowledged` | crates/oxsfud/src/sub/mod.rs:579-603 | Whatever the offer, in every run of rounds, acknowledgements and carried revisions, acknowledged never exceeds reached, and every open row is as in the table at the acknowledged revision |
| `SubAck.AcknowledgedExactly` | crates/oxsfud/src/sub/mod.rs:579-603 | In every run acknowledged is the most that any acknowledgement reached, none counting beyond the revision of its time |
| `SubAck.ReadyOpensExactly` | crates/oxsfud/src/sub/mod.rs:579-603 | After any run an acknowledgement opens exactly the rows with a track whose last change it covers, all of them if it is for the revision reached, and changes nothing else; a carried revision raises the revision only |
| `SubAssign.Table.CountFresh` | crates/oxsfud/src/sub/mod.rs:417-438 | The simulation loop counts as specified |
| `SubAssign.Table.TakeDownSlots` | crates/oxsfud/src/sub/mod.rs:455-460 | The loop takes down exactly the unwanted slots |
| `SubAssign.Table.PutUpSlots` | crates/oxsfud/src/sub/mod.rs:461-485 | The loop over slot candidates, in place, is the specified one |
| `SubAssign.Table.Add` | crates/oxsfud/src/sub/mod.rs:332-359 | A new row gets the next mid and the payload types of its kind and codec |
| `SubAssign.Table.FollowMoved` | crates/oxsfud/src/sub/mod.rs:491-503 | The loop over moved tracks, in place, is the specified one |
| `SubAssign.Table.MarkWaiting` | crates/oxsfud/src/sub/mod.rs:512-516 | The loop notes since when the others wait, as specified |
| `SubAssign.Table.TakeDownOthers` | crates/oxsfud/src/sub/mod.rs:526-531 | The loop takes down exactly those not chosen |
| `SubAssign.Table.Room` | crates/oxsfud/src/sub/mod.rs:538-562 | The choice of a row, in place, is the specified one |
| `SubAssign.Table.PutUpFull` | crates/oxsfud/src/sub/mod.rs:532-567 | The loop over targets, in place, is the specified one |
| `SubAssign.Table.Round` | crates/oxsfud/src/sub/mod.rs:440-577 | A round, in place, is the specified one |
| `SubAssign.Table.Acknowledge` | crates/oxsfud/src/sub/mod.rs:579-603 | An acknowledgement, in place, is the specified one |
| `SubAssign.Table.CarryOver` | crates/oxsfud/src/sub/mod.rs:240-246 | A carried revision, in place, is the specified one |
| `SubPts.PtFreshExactly` | crates/oxsfud/src/sub/mod.rs:300-330 | New payload types are taken by nobody, and the two of a video row differ, if and only if as many dynamic ones are free as the kind needs: one for audio, two for video |
| `SubPts.UsualTypes` | crates/oxsfud/src/sub/mod.rs:300-330 | With two connections Opus gets 111, VP8 96 and 97, and H264 102 and 103, wherever these are free |
| `SubPts.FirstTypes` | crates/oxsfud/src/sub/mod.rs:300-330 | Elsewhere the first free type is given, 96 to 127 before 35 to 63, and to video the first free one besides |
| `SubPts.TypesStayApart` | crates/oxsfud/src/sub/mod.rs:196-330 | For every offer, in every run of rounds, acknowledgements and carried revisions, the kinds and codecs of the offer keep its payload types and every row has the types of its kind and codec; the types given out beyond the offer are shaped for their kind, and are given once and not against the offer if and only if the kinds and codecs they are for need no more types than the offer leaves free |
| `SubPts.NothingLeft` | crates/oxsfud/src/sub/mod.rs:318-326 | The failing input, for any offer that leaves too few types and does not name the codec: in the first round an audio row is given 127, which is in the offer; a video row 126 and 127, which are, or, with one type left, that one and 127 again |
| `SubPts.NoneIsFree` | crates/oxsfud/src/sub/mod.rs:196-208 | There is an offer that leaves no type |
| `SubAssign.ReadOffer` | crates/oxsfud/src/sub/mod.rs:196-208 | The loop over the codecs of an offer reserves and seeds as specified: the first of a kind and codec counts |
| `SubAssign.Table.constructor` | crates/oxsfud/src/sub/mod.rs:176-208 | A new table with its offer read is the fresh one of the specification |
| `SubTable.Oldest` | crates/oxsfud/src/sub/mod.rs:549-556 | The row retuned is an empty one loaded no later than any other |
| `SubTable.PtFor` | crates/oxsfud/src/sub/mod.rs:300-330 | The payload types of a kind and codec, once given, stay, and so do all others |
| `Rewriter.Stream.Rewrite` | crates/oxsfud/src/fwd/core.rs:65-99 | The in-place rewriting is the specified one |
| `Rewriter.SwitchContinues` | crates/oxsfud/src/fwd/core.rs:65-99 | Over any number of switches, a packet of another source continues right after the newest packet of the one before: the next number, and a timestamp later by the largest of one, what that packet covers, and the whole ticks of the clock in the milliseconds since, at least one |
| `Rewriter.SwitchesAreCounted` | crates/oxsfud/src/fwd/core.rs:65-99 | The switches counted are the changes of source, and the last output is that of the last packet |
| `Rewriter.FirstUnchanged` | crates/oxsfud/src/fwd/core.rs:70-74 | The first packet passes unchanged |
| `Rewriter.GapsKept` | crates/oxsfud/src/fwd/core.rs:88-112 | Within a source, distances between outputs equal distances between inputs, and report timestamps are translated alike |
| `Rewriter.NackExactly` | crates/oxsfud/src/fwd/core.rs:101-108 | A number is traced back to its packet if and only if that is at most 2^15 after the first of its source; exactly the 2^15-1 numbers before that are refused |
| `Twcc.RecordOk` | crates/oxsfud/src/rtcp/core.rs:158-186 | Recording keeps the invariant, forgets nothing still to be reported and puts the new packet among it |
| `Twcc.ReportTiles` | crates/oxsfud/src/rtcp/core.rs:193-238 | Whenever something is pending a report is made, true of every number it covers, ending at one that arrived, with the window moved right behind it |
| `Twcc.EachOnce` | crates/oxsfud/src/rtcp/core.rs:193-238 | Over successive reports every number of the window is in exactly one, marked as arrived if and only if it did |
| `TwccRuns.ReportedExactly` | crates/oxsfud/src/rtcp/core.rs:158-238 | In every run of packets and reports, a report that covers a number marks it as arrived if and only if a packet brought it and no packet since made the receiver forget it, for being more than half a second older than the newest and behind the window |
| `TwccRuns.ReportsAreCounted` | crates/oxsfud/src/rtcp/core.rs:193-238 | In every run a report carries the number of reports made before it, in eight bits |
| `TwccRuns.ReportedTwice` | crates/oxsfud/src/rtcp/core.rs:158-238 | Two reports of a run cover a number only if a packet no later than it came in between; and a number the first marks as arrived is marked otherwise by the second if and only if the receiver was made to forget it in between and it did not come again |
| `TwccRuns.LateNineForgetsTen` | crates/oxsfud/src/rtcp/core.rs:178-186 | The failing input: ten arrives and is reported, eleven 600 milliseconds later, then nine, late; the next report says that ten did not arrive |
| `Twcc.Receiver.OnPacket` | crates/oxsfud/src/rtcp/core.rs:158-186 | In place, the specified recording |
| `Twcc.Receiver.Scan` | crates/oxsfud/src/rtcp/core.rs:203-219 | The loop over the window yields the specified symbols and deltas |
| `Twcc.Receiver.Build` | crates/oxsfud/src/rtcp/core.rs:193-238 | In place, the specified report; one is made if and only if something is pending |
| `Twcc.Receiver.Drain` | crates/oxsfud/src/rtcp/mod.rs:506-515 | The drain loop ends with nothing pending and its reports tile the window |
| `TwccWire.WriteChunks` | crates/oxsfud/src/rtcp/mod.rs:172-182 | The loops write the specified run-length chunks |
| `TwccWire.SplitLoop` | crates/oxsfud/src/rtcp/mod.rs:223-238 | The loop splits off the specified packets |
| `TwccWire.ReadSymbols` | crates/oxsfud/src/rtcp/mod.rs:267-291 | The loop reads the specified symbols from runs and vectors |
| `TwccWire.SplitBack` | crates/oxsfud/src/rtcp/mod.rs:164-238 | Every packet built is split off whole: its length always fits the length field |
| `TwccWire.HeadBack` | crates/oxsfud/src/rtcp/mod.rs:164-172 | Read back from its bytes, a packet names the reporter, 1, then the medium, and the count of the report; the padding flag is set if and only if there is padding, and the last byte says how much |
| `TwccWire.NoDrift` | crates/oxsfud/src/rtcp/mod.rs:292-308 | Decoded times stay within 125 microseconds of the arrivals however many came before |
| `TwccWire.LateIsWrong` | crates/oxsfud/src/rtcp/mod.rs:265-266 | The failing input: the first packet of a receiver, if it arrives at 2^23 times 64 milliseconds or later, is reported at a wrong time |
| `TwccWire.RoundTrip` | crates/oxsfud/src/rtcp/mod.rs:164-310 | A report of any reachable state, written, split off and parsed, gives back the base, None exactly for numbers that did not arrive, and every other arrival to within 125 microseconds plus one shift, the wrap of the reference; so the times are accurate if and only if the reference fits 24 signed bits |
| `Presence.SettleKeeps` | crates/oxhubd/src/bus/view.rs:123-192 | Held rooms stay routed and no room changes its place; a room goes if and only if the bus was quiet and its present owner deleted it, being this node if isolated, or, not isolated, it was held and its node does not live; and which rooms are held afterwards, exactly |
| `Presence.RoomsLeaveRightly` | crates/oxhubd/src/bus/view.rs:82-192 | In every run, a room leaves the routing only in a settling on a quiet bus, after its present owner deleted it with no put of the room since, in isolation only if it is its own, and if for having been held only with its node dead |
| `Presence.IsolationHolds` | crates/oxhubd/src/bus/view.rs:123-175 | Through any stretch of isolation no room of another node leaves the routing |
| `PresenceRuns.NodesExactly` | crates/oxhubd/src/bus/view.rs:82-148 | In every run a node is known if and only if it was put, with the instance of its last put, and lives if and only if no settling on a quiet bus since found a delete of that instance |
| `PresenceRuns.IsolatedExactly` | crates/oxhubd/src/bus/view.rs:149-153 | In every run the hub is isolated if and only if another node was put and every other node put has been taken down since its last put |
| `PresenceRuns.AllGoneKeepsRooms` | crates/oxhubd/src/bus/view.rs:149-167 | A settling after which every other node is down takes no room of another node out of the routing; those deleted are held |
| `PresenceRuns.RoomsGoExactly` | crates/oxhubd/src/bus/view.rs:82-192 | In every run a room is routed by its last put, and a settling takes it out if and only if the bus is quiet and either its delete waits, and the hub is not isolated or the room its own, or it was held, the hub is not isolated and its node does not live |
| `PresenceRuns.ReportsExactly` | crates/oxhubd/src/bus/view.rs:82-117 | In every run a recovery is reported if and only if another node was put while the hub was cut off, and the duplicates counted are the puts of rooms routed to another node |
| `PresenceRuns.CandidatesExactly` | crates/oxhubd/src/bus/view.rs:194-204 | In every run the candidates are this node, the nodes that live, and those taken down less than the grace ago |
| `Presence.OrderFree` | crates/oxhubd/src/bus/view.rs:135-170 | The order of the deletes in a batch and their repetition make no difference |
| `Presence.BlipMovesNothing` | crates/oxhubd/src/bus/view.rs:194-204 | Through any run of tokens and settlings about nodes that were candidates, each taken down, if at all, less than the grace ago, the candidates are the same, and the pick for every room is too, for every score and any listing of them |
| `Presence.PickOrderFree` | crates/oxhubd/src/bus/placement.rs:32-43 | Any two listings of the same nodes give the same pick |
| `Presence.Hub.Receive` | crates/oxhubd/src/bus/view.rs:82-117 | In place, the specified taking in of a token |
| `Presence.Hub.MarkGone` | crates/oxhubd/src/bus/view.rs:137-148 | The loop marks exactly the nodes whose present instance was deleted |
| `Presence.Hub.DropRooms` | crates/oxhubd/src/bus/view.rs:154-167 | The loop drops or holds exactly the rooms whose present owner deleted them |
| `Presence.Hub.ReleaseHeld` | crates/oxhubd/src/bus/view.rs:177-192 | The loop drops exactly the held rooms whose node is dead |
| `Presence.Hub.SettleNow` | crates/oxhubd/src/bus/view.rs:123-175 | In place, the specified settling |
| `Presence.Pick` | crates/oxhubd/src/bus/placement.rs:32-43 | The loop yields the best node by score, the smaller name on a tie |
| `Presence.BestIsUnique` | crates/oxhubd/src/bus/placement.rs:32-43 | There is one best, so the order of candidates does not matter |
| `Inbox.StepOk` | crates/oxsfud/src/fwd/rt.rs:95-117 | Every step of every interleaving keeps the counter exact, the limit, and the coming wake |
| `Inbox.InboxIsSafe` | crates/oxsfud/src/fwd/mod.rs:287-328 | In every interleaving, packets let in stay within the limit, the counter is exact when nobody is pushing, and a parked worker without a wake has nothing waiting |
| `Inbox.RingsAreFifo` | crates/oxsfud/src/fwd/mod.rs:292-303 | In every interleaving what the worker took out of a ring and then what is in it is exactly what was put in, in order |
| `Inbox.LetInExactly` | crates/oxsfud/src/fwd/rt.rs:95-117 | In every interleaving a producer is let in if and only if its packets fit the limit beside all that waits, is processed or is asked for, and its item goes to the end of its ring |

## Left out

- Sockets, dialing and accepting, tasks, locks, HTTP, gRPC, WebSocket, command line, configuration and logging.
- DTLS, SRTP, SCTP, HMAC and tokens.
- Simulcast rate control, RTCP jitter and receiver reports: floating-point heuristics.
- Media side effects of the floor (priming frames, key frame bursts) and the log labels of floor steps.
- Peer discovery, back-off, partial-mesh warnings and the state after shutdown of a mesh node.
- Token subscriptions of the mesh: the events they receive, their history and batch ends.
- The client role of a mesh node beyond delivery and what it says to its router: its own tables and its reconnect timing.
- The quality of the placement hash; the score is any function of node and room.
- SSRC numbers of rows, room gates, the readiness time of rooms and preferences of the assignment table.
- How the format parameters of an offered codec tell which kind and codec it stands for, and the header extensions of an offer.
- How long a codec's packet covers is a parameter of the rewriter; the count of switches does not wrap.
- Small codecs beside the mesh wire (data channel, floor messages, STUN, TCP framing).
- FloorRuns.SuccessionGrantsBest: the order of arrival is that of the run, not wall-clock time.
- MeshNetwork.ExactlyOnce: lanes that are full or cut, and mirrors that have not converged, are outside it.
- MeshConverge.HeardIsConverged: a connection comes up at both ends at once, and one that replaces another is a drop and a join; it goes at each end by itself.
- SubTies.TiesAreFair: that of candidates equal in rank and time the one listed first is chosen is not stated.
- SubSync.RoundIsOptimal: candidates are distinct, and the slot budget leaves room for fifty full rows, as without these the code does not promise it.
- MeshReplies.NothingAfterFinal: it supposes that no asker uses an id of its own twice; per query, MeshQueries.QueriesAreFenced does not.
- MeshQueries.Queries.Serve: ids taken by declarations are the event TakeId; the declarations themselves are in MeshCore.
