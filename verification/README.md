# Nexus SFU: the control plane, proved

Nexus is a selective forwarding unit for WebRTC. One orchestrator owns every participant's
signaling and negotiation state. It keeps that state in several tables, steers a data-plane
shard through a bounded queue of commands that may refuse any of them, and hears back only
asynchronously. The shard keeps tables of its own and refuses what contradicts them. The
orchestrator is written so that this never happens. That is the centre of this project:

* **The shard is refined.** `Orchestrator` models the orchestrator as the class it is, with
  its negotiation and subscription managers and the control plane below it. Every event of
  every run, with the queue refusing whenever it likes, ends with all tables in agreement
  and nothing left to close. While the queue has refused nothing, the shard's tables *equal*
  what the orchestrator's say, and the shard never rejected a command (`Run`, `Exact`).
  With refusals, the shard rejects only a subscription over its limit or the removal of one
  it never got; a participant the refusal left out of step is closed in the same event.
* **Offer and answer.** Offers are numbered, repeat their predecessor's m-lines in place and
  answer mid for mid (section 8 of RFC 3264). A client that answers every offer wrongly gets
  only as many offers as something was waiting for.
* **Conservation.** Publish m-lines, published tracks and awaited mids; sessions on the
  shard, in the table, and waiting to be closed; subscriptions, m-lines and registry.
* **SSRC allocation**, **the DTLS handshake** (exactly-once, and independent of the order in
  which answer and first flight arrive), **the datagram packing** of its records (the greedy
  packing is optimal), **the SDK's fences** (which reply belongs to which request), and the
  bandwidth side: **REMB**, **RTT** and **allocation**.

Some properties turn out false of the code as it stands. Each has a condition under which, and
only under which, it holds, and the lemma or run named first is a concrete input that breaks it:

* The SSRC allocator refuses a peer's SSRC not only when the session uses it, as its comment
  says, but also when `allocate` skipped it; after any calls it does so exactly for 0 and the
  remembered SSRCs below its next offset (`SkippedPeerSsrcIsRefused`, `RefusedThoughUnused`).
* The SDK promises that errors of other requests never reject a publish. Four things break it,
  each with its own exact condition, and a run without any of them keeps the promise
  (`NexusClient.Run`, `NexusClient.OnMessage`):
  * replacing an open socket with fences in flight (`ReplacedSocketMisattributes`): `connect`
    keeps the fences matched exactly when there are as many as pings queued, which on an open
    socket means none (`NexusClient.Connect`);
  * a request that was queued when the connection was lost, even with the fences matched
    throughout (`QueuedRequestMisattributes`): after a disconnect every error can be attributed
    exactly when no request was queued (`NexusClient.OnDisconnected`);
  * publishing a track again after it timed out, while the fence of its first publish is still
    there (`RepublishedTrackMisattributes`): every publish keeps a fence of its own exactly when
    no earlier publish of the track is fenced (`OwnedAsked`);
  * a timeout of a track that an answer counts on, after which the refusal of its m-line rejects
    the answer's next track (`TimedOutAnswerMisattributes`): the answers' lists stay right exactly
    when none of them names the track (`ListedFailed`), and the refusal of an m-line rejects that
    m-line's track exactly when it is the next one owed a reply (`RefusalHits`).
* The SDK's loop over the actions it held back ends exactly when nothing is queued behind a
  publish that is still wanted (`EndsExactly`); once the offer of a publish with two more behind
  it is answered, the client goes round for ever (`ThreePublishesHang`).
* The allocator's closing assertions pass exactly when every track's layers increase and its
  minimum, or share, is within its maximum; nothing checks the latter before
  (`LowestLayerAboveMaximum`, `VerifyPasses`).
* A handshake fails on an all-zero fingerprint wherever it comes, but whether the role was
  fixed before depends on the order; for every other fingerprint nothing does
  (`OnlyZeroIsOrdered`).

Two more exact conditions come without such an input:

* The shard rejects a subscription of a participant in step exactly when the session is filled
  by its m-lines and by subscriptions to tracks whose publisher left and whose close did not fit
  into the queue (`RejectsExactly`). Such a leave frees none of its subscribers' room on the
  shard, although their m-lines are free again (`RefusedCloseFreesNothing`); a whole run that
  fills a session's 31 subscriptions is not written out.
* As DTLS client, answer and address lead to the same start in either order exactly when no
  ClientHello of the peer's comes before the answer (`ClientOrder`).

## How it is laid out

| file | contents |
|---|---|
| `Ssrc.dfy`, `Shard.dfy` | the SSRC allocator; the shard's tables and its verdict on each command |
| `Tables.dfy` | the orchestrator's tables and what it means for them to agree (`Core`) |
| `Updates.dfy`, `Commands.dfy`, `Publishing.dfy`, `Lifecycle.dfy`, `Mlines.dfy`, `Offers.dfy` | each single change of the tables keeps the agreement |
| `Steps.dfy`, `Protocol.dfy`, `Answers.dfy`, `Orchestration.dfy` | what a step, a negotiation, an answer and a removal do, as relations between two worlds |
| `Plane.dfy`, `Negotiation.dfy`, `Subscriptions.dfy`, `Orchestrator.dfy` | the classes, method by method |
| `Guarantees.dfy` | what a settled orchestrator promises, in its own terms |
| `Dtls.dfy`, `Records.dfy` | the handshake machine; records into datagrams |
| `Line.dfy` | the SDK's signaling transport, and the line between it and the SFU |
| `Held.dfy` | the requests it holds back, and when taking them up ends |
| `Publishes.dfy` | what its client keeps about requests and publishes, and whose error rejects which |
| `Fences.dfy` | the client itself, its runs, and the ones that break its promise |
| `Remb.dfy`, `Rtt.dfy`, `Allocation.dfy` | bandwidth estimation |

`Sound(w, k)` is the agreement of all tables in the world `w`, sealed so that proofs open it
only where they need it (`assert Look(0)`); the slack `k` names what a step in progress may
have out of place. `PlaneView` is the record of the control plane's tables; it also carries a
history that no branch consults: the shard's tables, its rejections, how often the queue
refused, and who was affected.

## Model

| member | source | states |
|---|---|---|
| `Orchestrator.SessionOrchestrator.Run` | src/orchestrator/mod.rs:96-130 | After any signaling events, batches of data-plane events and timer ticks in any order, with the queue refusing any command, all tables agree and nothing is left to close; while no command was refused, the shard's tables equal what the orchestrator's say and it rejected nothing. |
| `Orchestrator.SessionOrchestrator.HandleEvent` | src/orchestrator/mod.rs:108-128 | One event, or one batch from the data plane, and the closes it caused keep all of this; whoever left, disconnected, lost consent, timed out or had a command seriously rejected is gone when it returns, and whoever connected is there. |
| `Orchestrator.SessionOrchestrator.HandleBatch` | src/orchestrator/mod.rs:116-124 | A batch is handled event by event with nothing closed in between: the tables agree after each, and everybody whose session one of its at most 256 events ended is listed for closing at the end, as the list cannot fill up. |
| `Orchestrator.SessionOrchestrator.HandlePlaneEvent` | src/orchestrator/connection.rs:48-75 | Each event lists at most one participant more for closing and takes nobody off; lost consent and a serious rejection list the session's. |
| `Orchestrator.SessionOrchestrator.constructor` | src/orchestrator/mod.rs:67-89 | An empty orchestrator is settled. |
| `Orchestrator.SessionOrchestrator.Settle` | src/orchestrator/mod.rs:149-161 | The bound of one round more than there are participants is always enough: afterwards the closing list is empty and everybody who was on it is gone. With nothing to close, nothing changes. |
| `Orchestrator.SessionOrchestrator.CloseParticipant` | src/orchestrator/mod.rs:163-177 | The participant leaves every table, and with it what was out of step on its account. |
| `Orchestrator.SessionOrchestrator.CleanupParticipant` | src/orchestrator/mod.rs:420-436 | The participant and exactly its tracks leave; every subscriber is renegotiated without them and the tables agree again. |
| `Orchestrator.SessionOrchestrator.OnTracksRemoved` | src/orchestrator/mod.rs:389-409 | After tracks left registry and shard, forgetting them and re-offering to everybody affected restores the agreement of all managers; without tracks nothing happens. |
| `Orchestrator.SessionOrchestrator.HandleConnected` | src/orchestrator/mod.rs:196-217 | A new participant starts with empty tables in every manager; id 0 is ignored. |
| `Orchestrator.SessionOrchestrator.HandleMessage` | src/orchestrator/mod.rs:219-298 | A message of an unknown participant changes nothing; any other does what the relation of its kind says, and keeps the agreement. |
| `Orchestrator.SessionOrchestrator.HandleJoin` | src/orchestrator/room.rs:227-262 | At most one room per participant: a second join is answered with an error and changes no room. |
| `Orchestrator.SessionOrchestrator.HandlePublish` | src/orchestrator/mod.rs:239-247 | A publish request is refused, queued, or claimed and offered, as room, limits and outstanding offer decide; only the participant is touched. |
| `Orchestrator.SessionOrchestrator.HandleAnswer` | src/orchestrator/mod.rs:300-320 | The subscriptions that the answer put on the shard become active, no others, and the handle mirrors the published tracks. |
| `Orchestrator.SessionOrchestrator.HandleSubscribe` | src/orchestrator/mod.rs:253-261 | The set grows by the accepted ids and the participant is renegotiated for exactly the new set. |
| `Orchestrator.SessionOrchestrator.HandleUnsubscribe` | src/orchestrator/mod.rs:262-270 | The set shrinks by exactly the ids that were in it, their m-lines go inactive, and the participant is renegotiated for the rest. |
| `Orchestrator.SessionOrchestrator.HandleUnpublish` | src/orchestrator/mod.rs:324-367 | Only own tracks are removed; unless the queue refused, all own tracks among the first 32 ids are; registry, handle and every subscriber follow. |
| `Orchestrator.SessionOrchestrator.UnpublishTrack` | src/orchestrator/mod.rs:326-354 | Somebody else's track is refused with an error and stays; an own one leaves shard, registry and m-lines together, or the queue refused. |
| `Orchestrator.SessionOrchestrator.OnHandshake` | src/orchestrator/connection.rs:50-111 | A failed handshake call ends its participant; a completed one installs the keys in the table and on the shard, or ends it; any other leaves the keys alone. |
| `Orchestrator.SessionOrchestrator.OnPeerSrtpVerified` | src/orchestrator/connection.rs:62-67 | Only a complete handshake is freed. |
| `Orchestrator.SessionOrchestrator.OnSessionFailed` | src/orchestrator/connection.rs:68-73 | Exactly the session's participant is listed for closing. |
| `Orchestrator.SessionOrchestrator.OnRejected` | src/orchestrator/connection.rs:119-145 | Unknown ids are ignored; a limit closes the participant as overloaded, anything else as an internal error. |
| `Orchestrator.SessionOrchestrator.PollDtls` | src/orchestrator/connection.rs:148-159 | Retransmissions of any sessions keep the agreement and touch only the plane. |
| `Orchestrator.SessionOrchestrator.Sweep` | src/orchestrator/connection.rs:162-175 | Every expired session's participant is listed for closing while the list has room, and if the queue refuses nothing no close is left pending. |
| `Guarantees.ShardRefinement` | src/orchestrator/plane.rs:154-167 | With no refused push, a sound world is exact: sessions, bases, high-water marks, keys, tracks and subscriptions of the shard are those of the tables, one for one, and there was no rejection. |
| `Guarantees.OnlyTheseRejects` | src/orchestrator/connection.rs:113-145 | Whatever the queue does, the shard rejects only a subscription over its limit or the removal of an unknown one, and even these only after a refusal: no SSRC out of order, no id twice, no keys twice. |
| `Guarantees.RejectsExactly` | src/orchestrator/connection.rs:113-145 | A participant in step has a subscription rejected if and only if its m-lines on the shard and its subscriptions to tracks of sessions waiting to be closed fill the session, so never with none waiting; its unsubscribes are always taken. |
| `Guarantees.RefusedCloseFreesNothing` | src/orchestrator/plane.rs:203-213 | When a publisher leaves and its close does not fit, every subscription that a participant's m-lines forget becomes overdue, one for one: the session stays as full as it was. |
| `Guarantees.SessionConservation` | src/orchestrator/plane.rs:195-229 | The shard's sessions are those of the table, those pending close and those given up, disjoint and each once; the table and its index by participant are inverse. |
| `Guarantees.CrossManagerAgreement` | src/orchestrator/subscription.rs:176-207 | Active subscriptions are the m-lines on the shard; every m-line's track was asked for, each at most once; every subscribed track exists in the participant's room; handle, negotiation and registry list the same published tracks. |
| `Guarantees.OfferDiscipline` | src/orchestrator/negotiation.rs:884-933 | Offers are numbered without gaps, each extends the one before it m-line by m-line, mids are distinct, and an outstanding offer has exactly the current m-lines. |
| `Guarantees.OfferedSlotsAreFresh` | src/orchestrator/negotiation.rs:935-954 | While an offer is outstanding, every slot of it that is not yet on the shard has an SSRC above the shard's high-water mark and below the allocator's next one. |
| `Guarantees.PublishConservation` | src/orchestrator/negotiation.rs:508-612 | Publish m-lines are as many as published tracks and awaited mids, each m-line one or the other; with queued requests they never exceed a session's limit. |
| `Guarantees.NobodyIsLeftBehind` | src/orchestrator/mod.rs:147-161 | Once the closing list is empty, nobody that a refused push left out of step remains, except those the full list could not take or the shard rejected. |
| `ControlPlane.Plane.Push` | src/orchestrator/plane.rs:156-167 | Either the shard judged the command, or the participant is listed for closing and recorded as out of step; nothing else changes. |
| `ControlPlane.Plane.CloseParticipant` | src/orchestrator/plane.rs:231-241 | At most one entry per participant, at most 4096 in all; the first reason stays. |
| `ControlPlane.Plane.TakeClosing` | src/orchestrator/plane.rs:243-246 | The list is handed over whole and left empty. |
| `ControlPlane.Plane.CreateSession` | src/orchestrator/plane.rs:169-193 | A fresh id and non-zero base, in the table and on the shard; on a full queue the tables are as before and the id is spent. Below the table's limit only the queue can refuse a participant without a session. |
| `ControlPlane.Plane.CloseSession` | src/orchestrator/plane.rs:195-215 | The session leaves the table; it leaves the shard now, waits in the pending list, or is counted as given up. |
| `ControlPlane.Plane.RetryPendingCloses` | src/orchestrator/plane.rs:217-229 | Every pending close is sent once; the agreement holds throughout, and if nothing was refused none is left. |
| `ControlPlane.Plane.SendDatagrams` | src/orchestrator/plane.rs:248-263 | No table changes unless the queue refused, and then only the closing of that session's participant. |
| `ControlPlane.Plane.InstallSrtp` | src/orchestrator/plane.rs:265-302 | Keys of a completed handshake are installed once, in the table and by command, or the participant is closed. |
| `Negotiation.NegotiationManager.EnsureSession` | src/orchestrator/negotiation.rs:167-193 | An existing session is kept untouched; otherwise there is a new one, or none and the participant was told. |
| `Negotiation.NegotiationManager.ClaimMline` | src/orchestrator/negotiation.rs:268-291 | An inactive m-line of the same kind is reused in place, otherwise one is appended under the next mid; every other m-line is as it was. |
| `Negotiation.NegotiationManager.HandlePublish` | src/orchestrator/negotiation.rs:195-266 | Not in a room, too many tracks, queued behind the outstanding offer, or claimed and offered: which it is follows from the state, and each outcome is stated whole. |
| `Negotiation.NegotiationManager.ClaimPublish` | src/orchestrator/negotiation.rs:259-264 | One publish m-line of the right kind is claimed and awaited for each requested track, and subscribe m-lines stay. |
| `Negotiation.NegotiationManager.SendOrderedOffer` | src/orchestrator/negotiation.rs:884-933 | Stale slots get fresh SSRCs; then the offer with the next version carries exactly the m-lines and is outstanding, or the participant was told that it failed and nothing is outstanding. |
| `Negotiation.NegotiationManager.RefreshStaleSlots` | src/orchestrator/negotiation.rs:935-954 | Afterwards no slot is stale except where SSRCs ran out and it went inactive; only subscribe m-lines off the shard change. |
| `Negotiation.NegotiationManager.DropSubscriptionsExcept` | src/orchestrator/negotiation.rs:779-808 | Exactly the subscribe m-lines of tracks not kept go inactive; those on the shard are unsubscribed there. |
| `Negotiation.NegotiationManager.TriggerSubscriberRenegotiation` | src/orchestrator/negotiation.rs:708-767 | Afterwards the subscribed m-lines are for live tracks of the wanted set; nothing on the shard outside the set stays, and one offer went out or the participant was told. |
| `Negotiation.NegotiationManager.RequestRenegotiation` | src/orchestrator/negotiation.rs:685-706 | With an offer outstanding the wish is remembered; otherwise it is carried out at once. |
| `Negotiation.NegotiationManager.AfterAnswer` | src/orchestrator/negotiation.rs:478-502 | Whatever waited for the answer, a queued publish or a renegotiation, is taken up once and no longer waits. |
| `Negotiation.NegotiationManager.RetryUnanswered` | src/orchestrator/negotiation.rs:372-404 | An unanswered offer is repeated at most once; then its unregistered publish m-lines are released. |
| `Negotiation.NegotiationManager.NotePeerSsrcs` | src/orchestrator/negotiation.rs:539-544 | The announced SSRCs are noted one by one until one is refused, as the session already uses it. |
| `Negotiation.NegotiationManager.RegisterPublish` | src/orchestrator/negotiation.rs:504-612 | A publish m-line of the answer becomes a track of registry, shard and participant under a fresh id, or is released; nobody else changes. |
| `Negotiation.NegotiationManager.RegisterPublishes` | src/orchestrator/negotiation.rs:319-334 | All awaited mids of the answer are settled: each is a registered track or no longer awaited. |
| `Negotiation.NegotiationManager.RegisterSubscriptions` | src/orchestrator/negotiation.rs:614-683 | Unless the queue refused, exactly the accepted m-lines whose tracks still exist are on the shard afterwards, registered in increasing SSRC order so that none is rejected. |
| `Negotiation.NegotiationManager.AcceptAnswer` | src/orchestrator/negotiation.rs:342-414 | Only an answer to an outstanding offer with the same mids in the same order is accepted; any other answer to one is refused with an error and the offer counts as answered. |
| `Negotiation.NegotiationManager.ApplyDtls` | src/orchestrator/negotiation.rs:416-452 | False exactly when the participant is being closed; otherwise the handshake moved as its machine allows, and a completed one has its keys on both sides. |
| `Negotiation.NegotiationManager.HandleAnswer` | src/orchestrator/negotiation.rs:293-340 | Ignored, refuted, shut or applied, and which it is decided by the state and the mids; an applied answer activates what it accepted, keeps the set and leaves nothing waiting. |
| `Negotiation.NegotiationManager.ApplyAnswer` | src/orchestrator/negotiation.rs:319-339 | An accepted answer settles the awaited mids, then the pending slots, then what waited. |
| `Negotiation.NegotiationManager.Stonewall` | src/orchestrator/negotiation.rs:372-404 | A client that answers every offer wrongly, in whatever way, is sent at most one offer per waiting wish and re-offer left; then none is outstanding. The exchange cannot go on for ever. |
| `Negotiation.NegotiationManager.DropSubscriptions` | src/orchestrator/negotiation.rs:810-830 | The m-lines of the given tracks go inactive and leave the shard; others stay. |
| `Negotiation.NegotiationManager.ReleaseUnregisteredPublish` | src/orchestrator/negotiation.rs:832-846 | Only a publish m-line that no registered track uses goes inactive. |
| `Negotiation.NegotiationManager.ReleasePublish` | src/orchestrator/negotiation.rs:848-860 | The track leaves the participant's list and its m-line goes inactive. |
| `Negotiation.NegotiationManager.ForgetTracks` | src/orchestrator/negotiation.rs:862-882 | Every m-line that carried one of the tracks goes inactive, in every participant, and exactly the participants so changed are returned. |
| `Negotiation.NegotiationManager.CleanupParticipant` | src/orchestrator/negotiation.rs:970-993 | The participant's session and tracks leave shard and registry, now or when the queue has room, and the tracks that left are returned. |
| `Negotiation.NegotiationManager.AddParticipant` | src/orchestrator/negotiation.rs:158-160 | A fresh negotiation without session, m-lines or offers. |
| `Subscriptions.SubscriptionManager.Subscribable` | src/orchestrator/subscription.rs:99-110 | Each id at most once, and exactly those that exist in the room and are not subscribed yet. |
| `Subscriptions.SubscriptionManager.HandleSubscribe` | src/orchestrator/subscription.rs:69-137 | Something is accepted if and only if the participant is in a room, asks for at most ten ids, and all new ones among them fit; then all of these are, and the participant is renegotiated for the whole set. |
| `Subscriptions.SubscriptionManager.HandleUnsubscribe` | src/orchestrator/subscription.rs:139-174 | Exactly the ids that were subscribed are removed, from set and m-lines, and the rest is renegotiated. |
| `Subscriptions.SubscriptionManager.ActivateTracks` | src/orchestrator/subscription.rs:176-187 | Exactly the named subscriptions of the set become active. |
| `Subscriptions.SubscriptionManager.ForgetTracks` | src/orchestrator/subscription.rs:189-207 | The tracks leave every set, and exactly the participants whose set changed are returned. |
| `Subscriptions.RetainedSets` | src/orchestrator/subscription.rs:189-207 | Removing tracks from a set removes them from its active part and no others, and keeps it free of duplicates. |
| `Orchestration.ForgottenAccord` | src/orchestrator/mod.rs:389-409 | After both managers forgot the removed tracks, sets and m-lines agree for everybody not yet re-offered to. |
| `Orchestration.AnswerAgrees` | src/orchestrator/mod.rs:300-320 | Activating what an answer put on the shard keeps a participant's set in agreement with its m-lines. |
| `Steps.SubscribeStep` | src/orchestrator/negotiation.rs:664-680 | A registered slot above the mark is accepted by the shard, and marking it keeps all tables sound. |
| `Steps.SlotMarkable` | src/orchestrator/transports.rs:143-150 | Wherever the orchestrator marks a slot's SSRC as registered, both of the allocator's assertions hold: it is not stale, and it was handed out. |
| `Steps.AddTrackStep` | src/orchestrator/negotiation.rs:563-596 | A track registered for an awaited mid is accepted by the shard and keeps all tables sound. |
| `Steps.RemoveTrackStep` | src/orchestrator/mod.rs:343-352 | Removing a track takes its subscriptions off the shard; the tables are sound but for the m-lines still to be forgotten. |
| `Steps.CreateStep` | src/orchestrator/plane.rs:171-193 | A new session is accepted by the shard and keeps all tables sound. |
| `Steps.SrtpStep` | src/orchestrator/plane.rs:266-302 | Installing keys once keeps the shard and the table in step, or the participant is listed. |
| `Steps.DropStep` | src/orchestrator/negotiation.rs:796-807 | An m-line turned inactive together with its unsubscribe keeps all tables sound, refused or not. |
| `Steps.LateStep` | src/orchestrator/plane.rs:218-229 | A close sent late removes a session that nothing refers to any more. |
| `Commands.SubscribeVerdict` | crates/nexus-dataplane/src/shard/commands.rs:203-261 | The shard takes the subscription of a slot above the mark, or rejects it for its limit after an earlier refusal: the ids exist, no id is used twice and the SSRC increases. |
| `Commands.SubscribedKeeps` | src/orchestrator/negotiation.rs:664-680 | The tables agree with the shard after it took the subscription. |
| `Publishing.AddTrackVerdict` | crates/nexus-dataplane/src/shard/commands.rs:144-170 | A track for an awaited mid with SSRCs the session noted is refused for nothing: not its id, not the limit, not the SSRC. |
| `Publishing.TrackAddedKeeps` | src/orchestrator/negotiation.rs:563-596 | The tables agree with the shard after it took the track. |
| `Publishing.TrackRemovedKeeps` | src/orchestrator/mod.rs:343-352 | The tables agree with the shard after it dropped the track, but for m-lines that still name it. |
| `Mlines.SubClaimedKeeps` | src/orchestrator/negotiation.rs:760-764 | Claiming an m-line for a fresh slot keeps offers, mids and slots in order. |
| `Offers.OfferedKeeps` | src/orchestrator/negotiation.rs:921-928 | Sending an offer keeps versions, m-lines and freshness in order. |
| `Offers.GivenUpKeeps` | src/orchestrator/negotiation.rs:396-399 | Releasing what an unanswered offer awaited keeps publish m-lines and tracks in step. |
| `Lifecycle.LeftClosedKeeps` | src/orchestrator/negotiation.rs:972-993 | A participant whose session closed leaves tables and shard in agreement. |
| `Lifecycle.LeftWaitingKeeps` | src/orchestrator/plane.rs:203-213 | A participant whose close did not fit leaves a session on the shard that nothing in the tables refers to. |
| `Lifecycle.ForgottenKeeps` | src/orchestrator/negotiation.rs:862-882 | With the removed tracks forgotten, the tables are sound without exception. |
| `Shard.ApplyKeepsTables` | crates/nexus-dataplane/src/shard/commands.rs:38-332 | Every command, taken or refused, keeps the shard's links, limits and offset order. |
| `Shard.CountsKept` | crates/nexus-dataplane/src/shard/commands.rs:144-261 | No command takes a session over its limits of tracks and subscriptions. |
| `Shard.OffsetsKept` | crates/nexus-dataplane/src/shard/commands.rs:203-261 | No subscription is ever above the last offset its session accepted. |
| `Ssrc.OffsetRoundTrip` | src/orchestrator/transports.rs:138-141 | Offset and SSRC are inverse under 32-bit wrap-around. |
| `Ssrc.NoneMeansExhausted` | src/orchestrator/transports.rs:118-136 | The bounded search gives up if and only if no usable offset is left at all. |
| `Ssrc.AllocatedIsFresh` | src/orchestrator/transports.rs:118-136 | An allocated SSRC is not zero, the base, a noted peer's or stale, and it is the first such one; a failure consumes nothing. |
| `Ssrc.RunsAreAccounted` | src/orchestrator/transports.rs:103-150 | In every run from a new allocator, each SSRC below the next offset but the base was either handed out, or skipped as 0 or the peer's, and none was both. |
| `Ssrc.NeverTwice` | src/orchestrator/transports.rs:118-136 | After any notes, allocations and registrations in any order, the next SSRC handed out is none handed out before, not 0, not the base and not one remembered as the peer's. |
| `Ssrc.AcceptedNoteWasUnused` | src/orchestrator/transports.rs:103-116 | In every run, a peer SSRC in use is refused, and an accepted one that is remembered is not allocated next. |
| `Ssrc.SkippedPeerSsrcIsRefused` | src/orchestrator/transports.rs:103-116 | A run of one note and one allocation, after which the noted SSRC is refused although nothing uses it. |
| `Ssrc.RefusedThoughUnused` | src/orchestrator/transports.rs:103-116 | In every run, an SSRC that nothing uses is refused if and only if it is 0 or remembered as the peer's and below the next offset. |
| `Ssrc.NoteIsExactWithoutSkips` | src/orchestrator/transports.rs:103-116 | In every run, refusal coincides with use for all SSRCs if and only if neither 0 nor a remembered SSRC lies below the next offset. |
| `Ssrc.SsrcAllocator.constructor` | src/orchestrator/transports.rs:67-78 | Starts at offset one with nothing handed out, registered or noted, all of it accounted for. |
| `Ssrc.SsrcAllocator.NotePeerSsrc` | src/orchestrator/transports.rs:103-116 | Refuses an SSRC exactly if the session uses it or the allocator skipped it; remembers any other up to the bound. |
| `Ssrc.SsrcAllocator.Allocate` | src/orchestrator/transports.rs:118-136 | Hands out an SSRC never handed out before, and none exactly when no usable offset is left. |
| `Ssrc.SsrcAllocator.MarkRegistered` | src/orchestrator/transports.rs:143-150 | The SSRC becomes the high-water mark: it is stale from then on, with all that were before. |
| `Dtls.StepKeepsGood` | src/orchestrator/dtls.rs:147-343 | Every call keeps the handshake good: at most one engine, completion reported only by the call that gets there and only for the pinned peer; failure is final and always reported. |
| `Dtls.StepIsAllowed` | src/orchestrator/dtls.rs:147-343 | Every call of the machine is a step that the control plane's oracle allows, with failure and completion reported as it assumes. |
| `Dtls.RunKeepsGood` | src/orchestrator/dtls.rs:147-343 | So does every sequence of calls, and the completions reported are those counted. |
| `Dtls.ExactlyOnce` | src/orchestrator/dtls.rs:147-343 | Over every sequence of calls the engine starts at most once and completion is reported at most once, and a complete handshake was reported and verified. |
| `Dtls.OrderDoesNotMatter` | src/orchestrator/dtls.rs:157-238 | Wherever among the client's datagrams the answer arrives, the handshake ends in the same state. |
| `Dtls.OnlyZeroIsOrdered` | src/orchestrator/dtls.rs:157-190 | The final handshake is the same wherever the answer arrives if and only if the fingerprint is not all zero; with the zero one it has failed in every case. |
| `Dtls.ClientOrder` | src/orchestrator/dtls.rs:157-238 | As client, with any datagrams and timeouts before and between, answer and address lead in either order to the same engine, started once, with the same flight, if and only if no ClientHello of the peer's precedes the answer. |
| `Dtls.DtlsHandshake.constructor` | src/orchestrator/dtls.rs:112-122 | A new handshake waits, without role, engine or pin. |
| `Dtls.DtlsHandshake.OnAnswer` | src/orchestrator/dtls.rs:147-155 | Implements the machine's step for an answer; a failed handshake stays failed. |
| `Dtls.DtlsHandshake.OnAddressSelected` | src/orchestrator/dtls.rs:192-206 | Implements the machine's step for a selected address. |
| `Dtls.DtlsHandshake.Process` | src/orchestrator/dtls.rs:208-221 | Implements the machine's step for a datagram; before the answer only a client hello starts an engine. |
| `Dtls.DtlsHandshake.Feed` | src/orchestrator/dtls.rs:223-238 | Implements feeding a running engine, with completion checked once. |
| `Dtls.DtlsHandshake.HandleTimeout` | src/orchestrator/dtls.rs:240-254 | Implements the machine's step for a timeout. |
| `Dtls.DtlsHandshake.FreeSsl` | src/orchestrator/dtls.rs:289-300 | Frees a complete handshake, and only that. |
| `Dtls.DtlsHandshake.CheckCompletion` | src/orchestrator/dtls.rs:310-327 | Completes only with the pinned peer; another peer fails the handshake. |
| `Records.ParseSound` | src/orchestrator/dtls.rs:355-381 | A parsed output is the concatenation of its records, each whole. |
| `Records.ParseComplete` | src/orchestrator/dtls.rs:355-381 | Every concatenation of whole records parses back to them. |
| `Records.GreedyStaysAhead` | src/orchestrator/dtls.rs:355-381 | No packing of the records in order into datagrams has fewer of them than the greedy one. |
| `Records.SplitRecords` | src/orchestrator/dtls.rs:355-381 | The loop fails if and only if the output is not whole records, and otherwise gives the greedy packing. |
| `Records.SplitIsOptimal` | src/orchestrator/dtls.rs:355-381 | The datagrams concatenate to the output, each within the MTU or a single record, and no packing uses fewer. |
| `Fences.NexusClient.Run` | sdk/src/client.ts:447-470 | Over every sequence of requests, answers, deliveries, timeouts, closes and reconnects: with no fault since the last disconnect, every error to come finds its own request's fence, every publish has its own, and every answer's list is what the SFU still owes it. On one connection every error finds its own request's fence in any case. |
| `Fences.NexusClient.TakeStep` | sdk/src/client.ts:447-470 | Exactly which steps are faults: a connect with more fences than pings queued, a disconnect with a request queued, publishing a track that is still fenced, a timeout of a track that an answer counts on, and a reply about an answer's tracks out of turn. No other step is. |
| `Fences.NexusClient.OnMessage` | sdk/src/client.ts:506-548 | With every error attributed, an error finds its own request's fence at the head; if every publish's fence is its own besides, neither an error nor a Pong rejects a publish but of the request it answers; if the answers' lists are right, the refusal of an m-line rejects its track exactly when that is next. What an error rejects is stated whole. |
| `Fences.NexusClient.DoRequest` | sdk/src/client.ts:278-282 | Request, ping and fence are added together, in this order. |
| `Fences.NexusClient.Publish` | sdk/src/client.ts:208-221 | Refused exactly if the track is pending or published; otherwise it is pending at once, goes out behind its fence unless an offer is awaited, and leaves every publish with a fence of its own exactly when no earlier publish of the track is fenced. |
| `Fences.NexusClient.PublishTrack` | sdk/src/client.ts:252-275 | Goes out, and then an offer is awaited, exactly if none was and the publish is still pending; otherwise nothing changes. |
| `Fences.NexusClient.Subscribe` | sdk/src/client.ts:291-300 | Goes out behind its fence unless an offer is awaited. |
| `Fences.NexusClient.AnswerOffer` | sdk/src/client.ts:591-636 | The attached tracks move from waiting to the answer's fence and leave the server's queue; then what was held back is taken up, which hangs the client exactly when the loop does not end. |
| `Fences.NexusClient.RunPendingActions` | sdk/src/client.ts:603-608 | Takes the held-back actions up in order; the client hangs if and only if the loop does not end on them. |
| `Fences.NexusClient.Keepalive` | sdk/src/client.ts:463-465 | The transport's own ping has a fence too. |
| `Fences.NexusClient.HandleError` | sdk/src/client.ts:416-431 | Rejects exactly the publishes that the head fence and the code blame. |
| `Fences.NexusClient.HandlePong` | sdk/src/client.ts:434-445 | Takes the head fence; an unoffered publish is queued at the server, the tracks that an answer still counts on fail, and what is held back is taken up if that ends the waiting. |
| `Fences.NexusClient.HandleOffer` | sdk/src/client.ts:508-512 | An offer marks the publish at the head as offered, and nothing else. |
| `Fences.NexusClient.HandlePublished` | sdk/src/client.ts:551-568 | A registered track is pending no longer and no answer's fence counts on it, so no Pong can fail it; an unknown one changes nothing. |
| `Fences.NexusClient.OnDisconnected` | sdk/src/client.ts:454-461 | Whatever was in flight, fences and line match again; every error to come can be attributed if and only if no request was queued. |
| `Fences.NexusClient.Connect` | sdk/src/client.ts:116-119 | Replacing a socket keeps the fences matched if and only if there are as many as pings queued: on an open connection, none. |
| `Fences.NexusClient.Close` | sdk/src/client.ts:328-331 | No fence, pending publish or awaited offer is left, and every error to come can be attributed. |
| `Fences.NexusClient.FailPublish` | sdk/src/client.ts:376-406 | The track leaves everything that counts on it and can be published again; the last one waiting for an offer ends the waiting and lets out what was held back; the answers' lists stay right exactly when none names the track. |
| `Publishes.OwnedAsked` | sdk/src/client.ts:208-221 | After publishing a track, held back or not, every pending publish's fences are of its own request if and only if they were before and no earlier publish of the track is fenced. |
| `Publishes.OwnedReplied` | sdk/src/client.ts:506-548 | No reply of any kind makes a fence somebody else's publish's. |
| `Publishes.ListedFailed` | sdk/src/client.ts:376-406 | When a publish fails for itself, the answers' lists are still what the SFU owes them if and only if none of them counts on the track. |
| `Publishes.ListedReplied` | sdk/src/client.ts:506-568 | Replies in the order of an answer's m-lines keep its list right. |
| `Publishes.RefusalHits` | sdk/src/client.ts:416-431 | The refusal of an m-line rejects that m-line's track if and only if it is the next that its answer is owed a reply about. |
| `Publishes.DrainedHangs` | sdk/src/client.ts:603-608 | Taking up what was held back hangs if and only if something is held back behind a live publish. |
| `Publishes.DrainedSends` | sdk/src/client.ts:603-608 | Where it does not, exactly what is still wanted goes out, in order, each behind its own fence. |
| `Line.AlignedAnswered` | sdk/src/client.ts:434-445 | A message answered in order by replies about it keeps the line aligned. |
| `Line.AlignedDelivered` | sdk/src/client.ts:434-445 | On an aligned line the next Pong is the head fence's, and the next error about a fenced request is about the head. |
| `Line.SuffixAligned` | sdk/src/client.ts:116-119 | Losing the front of an aligned line keeps it aligned if and only if no ping was in it. |
| `Fences.ReplacedSocketMisattributes` | sdk/src/client.ts:116-119 | A run: with a publish and an answer in flight the client connects again and subscribes; the error of that subscription, whose fence is there, rejects the publish. |
| `Fences.QueuedRequestMisattributes` | sdk/src/client.ts:454-461 | A run: a subscription queued before a disconnect goes out on the next connection without its fence, and its error rejects a publish, with the fences matched throughout. |
| `Fences.RepublishedTrackMisattributes` | sdk/src/client.ts:208-221 | A run: a publish times out and its track is published again; the refusal of the first request rejects the second publish, on one connection and with every error attributed. |
| `Fences.TwoAttachedIsReached` | sdk/src/client.ts:591-636 | By the client's own steps, a client with two tracks attached to one answer, owed a reply about each. |
| `Fences.TimedOutAnswerMisattributes` | sdk/src/client.ts:376-406 | From there: the first track times out, and the refusal of its m-line rejects the second. |
| `Fences.ThreePublishesHang` | sdk/src/client.ts:603-608 | A run: two publishes are held back behind a third, whose offer is answered; the client never comes out of its loop. |
| `Line.SignalingTransport.Send` | sdk/src/signaling.ts:111-117 | A message goes behind everything sent or queued before it. |
| `Line.SignalingTransport.OnAuthenticated` | sdk/src/signaling.ts:154-159 | The queue is flushed in order. |
| `Line.SignalingTransport.DropPings` | sdk/src/signaling.ts:120-122 | Exactly the queued pings go, the rest keep their order. |
| `Line.SignalingTransport.Connect` | sdk/src/signaling.ts:25-109 | A new socket keeps the queue and loses what was in flight. |
| `Line.SignalingTransport.Close` | sdk/src/signaling.ts:134-141 | Nothing is queued or in flight afterwards. |
| `Held.EndsExactly` | sdk/src/client.ts:603-608 | The loop over the held-back actions ends if and only if nothing is queued behind a live publish. |
| `Held.TwoPublishesNeverEnd` | sdk/src/client.ts:252-257 | Two publishes held back at once make it go round for ever. |
| `Held.TakesAll` | sdk/src/client.ts:603-608 | Where it ends, every action is taken once and what is live goes out in order. |
| `Remb.ExponentIsMinimal` | crates/nexus-bwe/src/remb.rs:89-108 | The exponent is the least with an 18-bit mantissa, so no precision is given away. |
| `Remb.RoundsDown` | crates/nexus-bwe/src/remb.rs:89-114 | Decoding never exceeds the bitrate, and is less than one unit of the exponent below it. |
| `Remb.RoundedMonotone` | crates/nexus-bwe/src/remb.rs:89-114 | A higher bitrate never decodes to a lower one, across exponents. |
| `Remb.RoundedIdempotent` | crates/nexus-bwe/src/remb.rs:89-114 | Encoding a decoded bitrate gives the same code. |
| `Remb.EncodeBitrate` | crates/nexus-bwe/src/remb.rs:89-108 | The shifting loop computes this code and both fields fit, for every 64-bit bitrate. |
| `Remb.PacketRoundTrip` | crates/nexus-bwe/src/remb.rs:44-83 | A receiver reads back sender, media SSRC, exponent and mantissa. |
| `Remb.Generate` | crates/nexus-bwe/src/remb.rs:44-83 | The 24 bytes have the feedback header, the identifier, and fields that parse back to what went in. |
| `Rtt.UpdateKeepsBounds` | crates/nexus-bwe/src/rtt.rs:60-119 | The smoothed estimate stays between least and greatest sample, and the clamp never acts. |
| `Rtt.SrttWithinSamples` | crates/nexus-bwe/src/rtt.rs:34-119 | After any samples the estimate lies within them and the variation within their spread or the first guess. |
| `Rtt.StallsWithinSeven` | crates/nexus-bwe/src/rtt.rs:82-84 | Integer smoothing stops moving if and only if it is at most seven microseconds below the sample. |
| `Rtt.Converges` | crates/nexus-bwe/src/rtt.rs:60-119 | Under a constant sample the estimator's SRTT gets there in at most as many updates as it was microseconds away: exactly from above, to within seven from below. |
| `Rtt.RttEstimator.Update` | crates/nexus-bwe/src/rtt.rs:60-119 | The in-place update computes the specified estimate. |
| `Rtt.RttEstimator.RtoUs` | crates/nexus-bwe/src/rtt.rs:142-147 | The timeout is at least the estimate plus four variations and within 200 ms and 60 s; its upper clamp is never needed. |
| `Allocation.NeverOverTarget` | crates/nexus-bwe/src/gcc.rs:400-431 | Whatever the requests, the sum never exceeds the target; the result is a stable sort of the requests by priority. |
| `Allocation.FairWhenMinimumsFit` | crates/nexus-bwe/src/gcc.rs:488-511 | When the minimums fit, everything up to the maxima is given out, everybody has its minimum, and nobody gets more while somebody of higher priority is short. |
| `Allocation.ShareWhenTheyDoNot` | crates/nexus-bwe/src/gcc.rs:440-481 | Otherwise everybody has its proportional share of the target. |
| `Allocation.LowestLayerAboveMaximum` | crates/nexus-bwe/src/allocation.rs:168-189 | A track whose lowest layer is above its maximum fails the closing assertion. |
| `Allocation.VerifyPasses` | crates/nexus-bwe/src/gcc.rs:520-560 | All closing assertions pass if and only if every track's layers increase and its reserved minimum, or share, is within its maximum; the total and starvation assertions never fail. |
| `Allocation.AllocateBandwidth` | crates/nexus-bwe/src/gcc.rs:400-431 | Computes the specified allocation. |
| `Allocation.AllocateMinimumLayers` | crates/nexus-bwe/src/gcc.rs:440-481 | Computes the specified reservation, in both cases. |
| `Allocation.AllocateRemaining` | crates/nexus-bwe/src/gcc.rs:488-511 | Distributes the rest down the priorities as specified. |
| `Allocation.ReservedFits` | crates/nexus-bwe/src/gcc.rs:440-481 | Minimums, or proportional shares, never exceed what is available. |
| `Allocation.SortStable` | crates/nexus-bwe/src/gcc.rs:493 | Tracks of one priority keep their order. |
| `Allocation.DistributedTotal` | crates/nexus-bwe/src/gcc.rs:488-511 | What is distributed is the rest, or all the room there is. |
| `Allocation.DistributedInOrder` | crates/nexus-bwe/src/gcc.rs:488-511 | A track gets more only when all before it have their maximum. |
| `Allocation.FittingIsHighest` | crates/nexus-bwe/src/allocation.rs:146-165 | On increasing layers the selected one is the highest that fits. |
| `Allocation.SelectLayer` | crates/nexus-bwe/src/allocation.rs:146-165 | The loop selects that layer, or the lowest. |

## Left out

- One shard: choosing one by load, and several of them, is not modelled.
- SDP text, candidates, certificates and keys: an answer is, per m-line, what the code reads out of it; whether an offer can be built and whether keys can be exported are free choices.
- Rooms: whether a join is granted is a free choice; capacity, tokens and room messages are not modelled.
- Viewport, content, ping and chat messages, and the notifications to other participants of a room about published and unpublished tracks.
- Clocks: which sessions expired or still shake hands is an input of the timer events.
- Outgoing signaling is a list per participant that never drops a message; what it says is stated only where a contract names the message. The closing message goes with the participant's list.
- The bytes of DTLS datagrams and how many were queued for the shard are not recorded, so a handshake step that forgot to send them would satisfy its contract.
- Mids are numbers, equal to the position of their m-line; the source writes them as text.
- The order in which affected participants are offered is arbitrary, where the source goes by id.
- The registry's bound on all tracks and the shard's on all sessions, ufrag collisions, malformed extension maps, and SSRCs that the shard learns from media rather than from a command.
- The orchestrator's tables are fields of one record inside `Plane`, and a session's SSRC allocator is a value there; `Ssrc.SsrcAllocator` is the class.
- Orchestrator.SessionOrchestrator.HandleConnected: an id that is already connected, which the source overwrites, is skipped by `HandleEvent`; ids are not reused while they are connected.
- Orchestrator.SessionOrchestrator.HandleMessage: viewport, content, ping and candidate messages, as above.
- Orchestrator.SessionOrchestrator.HandleJoin: whether the join is granted is a free choice, as above.
- Orchestrator.SessionOrchestrator.OnHandshake: the handshake's step is any that its machine allows, and datagrams are not recorded.
- Negotiation.NegotiationManager.ApplyDtls: likewise.
- ControlPlane.Plane.SendDatagrams: how many datagrams were queued is not recorded.
- Shard.ApplyKeepsTables: session limit, wrong shard, invalid specifications and failures to set SRTP up are not modelled.
- Allocation.AllocateMinimumLayers: the share is the exact floor, as below.
- Orchestrator.SessionOrchestrator.PollDtls: states what every handshake call keeps, not how many calls were made.
- ControlPlane.Plane.StepDtls: takes any step that `Dtls.StepIsAllowed` shows the machine's calls to be, rather than calling the machine.
- Dtls: the engine is any state machine that stays done once done; its cryptography is not modelled.
- Fences: pings that the server drops for their rate, errors that answer nothing, and the browser's peer connection, which decides which tracks an offer finds m-lines for.
- The SDK client's fields are one record (`Desk`), with the bookkeeping of two histories that no branch consults: which request each pending publish went out with, and what the SFU still owes each answer. A track's mid is the answer that attached it. A client in a loop that never ends takes no further step.
- Allocation.AllocateBandwidth: sums are unbounded and the proportional share is the exact floor, where the source goes through 64-bit sums and binary floating point; lists are sequences, not updated in place; the efficiency statistic and the bound on the number of tracks are left out.
- Rtt: the weights 1/8 and 1/4 are exact in binary, so the floor is the source's for every value in range; sample and estimates are plain numbers, not atomics read and written separately.
- Delay- and loss-based estimation, probing, speaker detection, the relay of media itself, ICE and SRTP.
