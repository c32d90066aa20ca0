# simple-remote: a verified model of its connection machinery

A model, in Dafny, of how a viewer is let in to a host: the signaling room both register with, the
first-connection protocol between them (code, key exchange, sealed descriptions, hellos, approval), the
limiter that slows guessing down, the sealed messages and signed bytes, the queues and the second thread
around them, and three self-contained algorithms of the repository (rate limit, simulated link, H.264 byte
streams). What is proved is about every run, every interleaving or every input.

How the parts fit:

- `HostRoom` is the signaling room: a class whose handlers update sockets and owner in place, each proved
  against a function on the room's value; `RoomRuns` proves what all runs keep, with signature checks that
  suspend their handler at any point, `RoomAnswers` what the room owes to each event, and `StaleViewerLeft` when
  its `viewer_left` misleads the host.
- `HostMachine` and `ViewerMachine` are the two sides of the first connection as state machines, one input
  for each result they wait for. `HostAgent` and `ViewerAgent` are the same two sides as the program runs
  them, over a link, a clock, chance, the user and a data channel (`Channel`); their methods are proved to follow
  the machines' runs on a record that holds exactly what all of these gave them. `HostRuns` and `ViewerRuns` (what
  one host or viewer does over all its runs), `HostOutcomes` and `ViewerOutcomes` (the one cause of each outcome),
  `RelayAdversary` with `FirstConnection` (any number of viewers through a relay that belongs to an adversary),
  `FakeHub` with `HubRuns`, `HonestPair` and `WrongCodePair` (the in-memory hub, all interleavings) prove what those
  runs guarantee; `RefusedVisit` shows that the starts of `HonestPair` are reached, and `HelloTerms` that hellos as
  terms and as signed bytes are checked alike.
- `Limiter`, `SealedChannel`, `Identity` (with `Utf8`, `Bytes`, `Signatures`), `Register`, `Pings`,
  `ApproverThread`, `RateLimit`, `AnnexB` and `SimLink` each model one component.

Cryptography is ideal. SPAKE2 with key confirmation (RFC 9382): a MAC is a term for a transcript of code, host
ID and both shares, and it verifies only for that transcript. ChaCha20-Poly1305 (section 2.8 of RFC 8439): a
box opens only under its own key, nonce and label. Ed25519 (RFC 8032): a signature names its signer and its
message. Clocks, randomness, the network, the WebRTC stack and the user are nondeterministic: they appear as
values chosen arbitrarily. Instants of the host, the channel and the limiter are natural numbers of
nanoseconds, those of the rate limit milliseconds, those of the simulated link real seconds.

Two behaviours of the code differ from what its messages and comments suggest; each is kept, with a run that
shows it and the exact condition. `viewer_left` does not mean that no viewer is there: the handler of a viewer
that left by itself can run after the next one was let in, whose attempt the host then ends
(`StaleViewerLeft.StaleViewerLeftHappens`, `StaleViewerLeft.ViewerLeftIsStaleExactly`). And a line that comes in
between two approval questions can answer the second: it is discarded only if it was also read before that
question was shown, which, with a reader that keeps up, happens to the first such line at most, and only if a
read was still in progress
(`ApproverThread.EarlyYesApproves`, `ApproverThread.EarlyLinesAnswerExactly`).

## Model

| member | source | states |
|---|---|---|
| HostRoom.Server.AcceptHostSocket | signaling/src/host-room.ts:36-49 | a host is refused with 404, 409 or 403 as the owner and the claim demand, or its socket is added with a challenge; nothing else changes |
| HostRoom.Server.AcceptViewerSocket | signaling/src/host-room.ts:51-62 | a viewer is refused with 404 or 409, or its socket is added, told `joined`, and the host told `viewer_joined`, in that order |
| HostRoom.Server.WebSocketMessage | signaling/src/host-room.ts:64-81 | the whole new room after any frame from either side, including oversized and unparsable ones |
| HostRoom.Server.OnHostMessage | signaling/src/host-room.ts:83-99 | the whole new room after a host's frame, before and after it is registered |
| HostRoom.Server.BeginAuthentication | signaling/src/host-room.ts:101-109 | up to its await, `authenticate` only leaves a continuation with what it captured |
| HostRoom.Server.FinishAuthentication | signaling/src/host-room.ts:109-123 | the continuation: close on a bad signature or a foreign owner, else bind, replace the previous host, register |
| HostRoom.Server.OnSocketGone | signaling/src/host-room.ts:125-151 | the whole new room after a close or error handler |
| HostRoom.Server.EndHost | signaling/src/host-room.ts:154-161 | the host is no longer registered, and its viewer is told and closed |
| HostRoom.Server.Close | signaling/src/host-room.ts:163-168 | a socket the room closes leaves OPEN at once and a viewer is marked as closed by the room |
| HostRoom.Server.FindAuthedHost | signaling/src/host-room.ts:170-174 | the first host that is registered and OPEN, if there is one |
| HostRoom.Server.FindOpenViewer | signaling/src/host-room.ts:176-178 | the first viewer that is OPEN, if there is one |
| RoomRuns.AtMostOneEach | signaling/src/host-room.ts:51-62 | in every reachable room at most one host is registered and OPEN, at most one viewer is OPEN, an open viewer has a host whose close handler is still to run, and an open registered host has the owner's key |
| RoomRuns.NoOrphanAtRest | signaling/src/host-room.ts:141-161 | once all due close handlers have run, an open viewer has an open registered host |
| RoomRuns.NonceDecodes | signaling/src/host-room.ts:101-106 | the nonce of a reachable room's host always decodes, so that branch never closes a host |
| RoomRuns.HostHearsOnlyTheCurrentViewer | signaling/src/host-room.ts:75-80 | every relay a host is sent was sent, immediately before, by the viewer that joined last, and that viewer had not been closed |
| RoomRuns.ViewerHearsOnlyProvenHosts | signaling/src/host-room.ts:89-92 | every relay a viewer is sent came from a host that signed its own challenge |
| RoomRuns.RegisteredMeansOwner | signaling/src/host-room.ts:107-122 | every `registered` goes to a socket with the owner's key that presented a signature over its own challenge |
| RoomRuns.OwnerIsFinal | signaling/src/host-room.ts:113-116 | once bound, an ID stays bound to the same key in every continuation |
| RoomRuns.ClosesAreJustified | signaling/src/host-room.ts:93-97 | a kick closes only the viewer that joined last and only on a proven host's word; a host-left close comes right after `host_left` |
| RoomRuns.ViewerAdmittedExactly | signaling/src/host-room.ts:51-62 | a viewer is let in if and only if a registered host is open and no viewer is |
| RoomRuns.RelaysAreDelivered | signaling/src/host-room.ts:75-92 | a relay of the open viewer reaches the open registered host unchanged, and the other way round |
| RoomRuns.HonestHostIsRegistered | signaling/src/host-room.ts:109-123 | a correct signature under a free or matching owner ends in registration as the only open host, and the session of a replaced host is over |
| RoomRuns.ReplacingEndsTheSession | signaling/src/host-room.ts:117-120 | replacing a host leaves no viewer open |
| RoomRuns.RunIsOnward | signaling/src/host-room.ts:64-168 | in every continuation of a run each socket keeps its kind, key, nonce and ID, none opens again, and what was logged stays |
| RoomAnswers.KickEndsTheViewer | signaling/src/host-room.ts:93-97 | in every reachable room a kick of the registered host closes the open viewer with 4001, marks it and touches nothing else; the next viewer is let in, and in every continuation the close handler of the kicked one says nothing |
| RoomAnswers.OnlyOffendersAreClosed | signaling/src/host-room.ts:64-99 | an open socket survives its own frame if and only if it may send it; otherwise it alone is closed, with 4013, 4003 or 4000, and nothing else changes |
| RoomAnswers.NobodyToTell | signaling/src/host-room.ts:75-97 | a welcome frame with nobody to hear it, and any frame of a viewer that is no longer open, changes nothing |
| RoomAnswers.SignatureIsChecked | signaling/src/host-room.ts:101-109 | a signature always waits for its check, with the nonce, key and ID of its own socket |
| RoomAnswers.HostAdmittedExactly | signaling/src/host-room.ts:36-49 | a host is let in if and only if the ID is its own, or unbound and claimed; each refusal has its own reason and changes nothing |
| RoomAnswers.RefusedViewersAreTold | signaling/src/host-room.ts:51-54 | 404 exactly without a host, 409 exactly beside another viewer, and the room is as it was |
| RoomAnswers.BadCheckCloses | signaling/src/host-room.ts:109-114 | a bad signature, or a key that is not the owner's, closes its socket with 4003 and changes nothing else |
| RoomAnswers.GoodCheckTells | signaling/src/host-room.ts:112-122 | a host is registered as the last thing said; one that is replaced leaves first, with its viewer told and closed and itself closed with 4010 |
| RoomAnswers.GoneHostsTell | signaling/src/host-room.ts:141-161 | the viewer is told and closed with 4002 exactly when a registered host has gone, and then no viewer is open |
| RoomAnswers.GoneViewersAreReported | signaling/src/host-room.ts:141-151 | the registered host is told that a viewer left, exactly if there is one and the room did not close the viewer itself |
| StaleViewerLeft.ViewerLeftIsStaleExactly | signaling/src/host-room.ts:141-151 | in every run the close handler of a viewer makes the room say `viewer_left` while a viewer is open if and only if that viewer left by itself, was not marked closed since, a registered host is open, and a viewer let in between its leaving and its handler has not ended |
| StaleViewerLeft.NeverStaleIfNobodyIsEarly | signaling/src/host-room.ts:51-62 | a run that lets no viewer in while the handler of one that left by itself is pending never says `viewer_left` while a viewer is open |
| StaleViewerLeft.StaleViewerLeftHappens | apps/host-agent/src/session.rs:138-142 | a run from the empty room in which it happens, and the host's run on exactly what it hears: its attempt with the viewer that is there ends as if that one had left |
| Bytes.HexRoundTrip | signaling/src/hex.ts:2-12 | decoding the hex of a byte string gives it back |
| Bytes.BigEndianRoundTrip | crates/auth/src/sealed.rs:10-14 | a number that fits its width is recovered from its big-endian bytes |
| Limiter.AttemptLimiter.CheckAt | apps/host-agent/src/attempts.rs:33-38 | closed, with the time left, exactly before the end of the wait |
| Limiter.AttemptLimiter.RecordFailure | apps/host-agent/src/attempts.rs:41-58 | both counters, the doubled and capped wait, and whether the code is to be replaced |
| Limiter.AttemptLimiter.RecordSuccess | apps/host-agent/src/attempts.rs:61-65 | everything is as new |
| Limiter.BackoffExactly | apps/host-agent/src/attempts.rs:45-51 | one second after the first failure, doubling up to the seventeenth, a day from the eighteenth on |
| Limiter.FailureKeepsRegular | apps/host-agent/src/attempts.rs:41-58 | failures on the code are always the consecutive failures modulo 5, the code is replaced exactly on each fifth, and that never shortens the wait |
| Limiter.WaitMillisIsLeast | apps/host-agent/src/session.rs:131-136 | the announced delay is positive and the least whole number of milliseconds after which the limiter is open |
| Limiter.GuessingTakes | apps/host-agent/src/attempts.rs:41-58 | k + 1 failures in a row take at least 2^k - 1 seconds, and a day more for each beyond the seventeenth |
| HostAgent.Agent.RecordLeads | apps/host-agent/src/session.rs:110-120 | the agent's invariant: its record of inputs leads the machine to where it is, and holds exactly what the link, chance, the user and the channel gave |
| HostAgent.Agent.ServeNext | apps/host-agent/src/session.rs:110-120 | a call follows a run of the host's machine on a record of exactly what the link, chance, the user and the data channel gave, and ends with that run's outcome and nothing left unsent; the user's answers fit the outcome, and no timeout comes early |
| HostAgent.Agent.AwaitViewer | apps/host-agent/src/session.rs:116-118 | everything that comes before a viewer joins is passed over |
| HostAgent.Agent.Serve | apps/host-agent/src/session.rs:110-187 | what one call sends to signaling is a conversation that belongs to its outcome |
| HostAgent.Agent.Attempt | apps/host-agent/src/session.rs:122-136 | with the limiter closed the viewer is told the delay and kicked; otherwise it is served as the machine does |
| HostAgent.Agent.HearStart | apps/host-agent/src/session.rs:138-146 | every message, timeout and error in place of a share ends as the machine ends |
| HostAgent.Agent.Respond | apps/host-agent/src/session.rs:143-154 | the failure is recorded, and the code replaced if due, before the reply with the old code is sent |
| HostAgent.Agent.HearMac | apps/host-agent/src/session.rs:156-163 | the viewer's MAC and offer are checked; everything else ends as the machine ends |
| HostAgent.Agent.CheckMac | apps/host-agent/src/session.rs:163-167 | the limiter is reset on the right MAC and on no other |
| HostAgent.Agent.EndWithoutMac | apps/host-agent/src/session.rs:158-161 | a viewer that left is not kicked; silence ends with a kick, another message with a rejection |
| HostAgent.Agent.Connect | apps/host-agent/src/session.rs:169-175 | an offer that does not open or is no text is rejected; without a peer the viewer is kicked |
| HostAgent.Agent.AcceptOffer | apps/host-agent/src/session.rs:177-180 | a text that is no description is rejected, and the channel closed |
| HostAgent.Agent.AnswerOffer | apps/host-agent/src/session.rs:177-187 | the sealed answer is sent before the handshake, and every failure after it ends with a kick |
| HostAgent.Agent.Handshake | apps/host-agent/src/session.rs:190-214 | the channel stays open only for a session, a failure comes from what the channel gave, and a timeout only after its time |
| HostAgent.Agent.HearHello | apps/host-agent/src/session.rs:216-221 | the hello, or the failure that belongs to what came instead |
| HostAgent.Agent.CheckHello | apps/host-agent/src/session.rs:222-228 | identity first, then version, before the user is asked |
| HostAgent.Agent.Decide | apps/host-agent/src/session.rs:230-246 | each answer ends as the machine ends; the code is replaced only when acceptance was sent |
| HostAgent.Agent.WaitApproval | apps/host-agent/src/session.rs:260-283 | the user is asked at least once; a yes or a no is exactly the last answer given, all before it being none, with a poll that timed out between any two; no answer means that the deadline has passed; a failure is what the last poll gave |
| HostAgent.Agent.AskUser | apps/host-agent/src/session.rs:268-276 | what each answer of the user, and none, comes to, before and after the deadline |
| HostAgent.Agent.Listen | apps/host-agent/src/session.rs:277-281 | the poll between two questions: time to ask again, or the failure that belongs to what came |
| HostAgent.Agent.RejectDecision | apps/host-agent/src/session.rs:305-311 | one attempt is made to tell the viewer why; if it was told, the loop read on until the viewer closed or time was up |
| HostAgent.Agent.Kicked | apps/host-agent/src/session.rs:286-292 | the kick is the last thing said, and a broken link is reported instead of the failure |
| HostAgent.Agent.RejectRelay | apps/host-agent/src/session.rs:295-301 | `Rejected`, then the kick |
| HostAgent.Agent.RecvRelay | apps/host-agent/src/session.rs:324-335 | what every kind of signaling message comes to while a viewer is served |
| HostRuns.WhatTheHostSays | apps/host-agent/src/session.rs:122-187 | in every run, for every outcome: the signaling output of an attempt is one of the listed sequences; a granted session never kicks |
| HostRuns.AcceptanceIsEarned | apps/host-agent/src/session.rs:190-246 | in every run, acceptance is preceded, with nothing in between, by the whole attempt: begin, reply, right MAC, answer, verified hello of equal version, approval |
| HostRuns.GuessRate | apps/host-agent/src/session.rs:131-167 | in any stretch of any run without a right MAC, n replies take at least the total wait of n - 1 failures, and at most five are for the same code |
| HostRuns.CodeChangesExactly | apps/host-agent/src/session.rs:148-152 | the one-time code changes exactly on each fifth consecutive unconfirmed reply and on a session |
| HostRuns.StepKeepsOrder | apps/host-agent/src/session.rs:122-246 | each step logs only what may follow the last event, and the last event tells where the host is |
| HostRuns.WhatWasSaidWhenTheLinkBroke | apps/host-agent/src/session.rs:116-187 | wherever signaling breaks, at a send or at a receive, what was said is the beginning of a conversation |
| HostOutcomes.OutcomesExactly | apps/host-agent/src/session.rs:122-311 | in every attempt of every run: an outcome is taken if and only if its one cause occurred, and signaling did not break after it |
| HostOutcomes.StepDecides | apps/host-agent/src/session.rs:122-301 | each decision happens exactly on its cause, and what the viewer is then told goes with it: the delay, the rejection, the reason of the refusal, or only the kick |
| HostOutcomes.TheDeadlineStands | apps/host-agent/src/session.rs:260-275 | however often the user is asked, the deadline is the configured time after the hello was accepted |
| ViewerRuns.WhatTheViewerSays | crates/viewer-core/src/connect.rs:101-189 | in every run the result tells how far the viewer came, event by event, and the messages sent are a part of share and offer: no offer with a wrong code or a delay, no session without the whole chain |
| ViewerOutcomes.ResultsExactly | crates/viewer-core/src/connect.rs:101-225 | in every run the viewer ends with a result if and only if its one cause was the last thing it was told: a wrong code exactly on a reply with another MAC than its own code, host ID and share give, a departed host exactly on its leaving or a closed link or channel, reason and version exactly as heard |
| ViewerAgent.Caller.RecordLeads | crates/viewer-core/src/connect.rs:101-134 | the same for the viewer |
| ViewerAgent.Caller.Connect | crates/viewer-core/src/connect.rs:101-134 | a call follows a run of the viewer's machine on a record of exactly what the link, chance and the data channel gave, whose last input is the cause of the result; the link is closed on every return, the channel exactly when there is no session, and no timeout comes early |
| ViewerAgent.Caller.Join | crates/viewer-core/src/connect.rs:109-117 | what each first message leads to |
| ViewerAgent.Caller.Introduce | crates/viewer-core/src/connect.rs:117-134 | no peer is made before the host's MAC is verified |
| ViewerAgent.Caller.Handshake | crates/viewer-core/src/connect.rs:136-158 | the sealed offer goes out with the viewer's MAC, and only a sealed answer of the same session is accepted |
| ViewerAgent.Caller.Open | crates/viewer-core/src/connect.rs:160-169 | each way of opening, and a missing fingerprint, ends as the machine ends |
| ViewerAgent.Caller.Greet | crates/viewer-core/src/connect.rs:169-189 | every decision and every error maps to its result; a session needs a verified hello and an acceptance |
| ViewerAgent.Caller.SendRelay | crates/viewer-core/src/connect.rs:194-199 | a closed link is no error of sending |
| ViewerAgent.Caller.RecvRelay | crates/viewer-core/src/connect.rs:201-215 | every result of the link maps to a message or to the error of its stage |
| ViewerAgent.Caller.NextControl | crates/viewer-core/src/connect.rs:218-225 | every result of the channel maps to a message or to the error of its stage |
| RelayAdversary.HelloNamesItsMaker | crates/auth/src/identity.rs:132-187 | a hello verifies exactly for the role, session and ends it was made for, and then names its maker |
| RelayAdversary.RunKeeps | apps/host-agent/src/session.rs:122-246 | in every world reachable against the adversary, each event of host and viewers has its evidence on the other side |
| FirstConnection.OfferOnlyForTheHost | crates/viewer-core/src/connect.rs:119-147 | a viewer's sealed offer is sent only after the MAC of the host itself, for this viewer's share, code and host ID, and the adversary cannot open it |
| FirstConnection.MismatchRevealsNothing | crates/viewer-core/src/connect.rs:119-127 | with a code the host never answered for, or another host ID, the offer is never sent |
| FirstConnection.AnswerOnlyForTheViewer | apps/host-agent/src/session.rs:156-181 | the host's sealed answer is sent only after the MAC of an honest viewer with the same code, host ID and transcript, for that viewer's own offer |
| FirstConnection.Agreement | crates/viewer-core/src/connect.rs:161-189 | a viewer with a session: the host went through a whole attempt with this very viewer at mirrored ends, and each holds the other's true identity |
| FirstConnection.AcceptedViewerIsGenuine | apps/host-agent/src/session.rs:201-245 | whom the host accepts is an honest viewer of the same transcript, connected to this host, under the identity shown |
| FirstConnection.AcceptedIsGenuineOrGuessed | apps/host-agent/src/session.rs:131-246 | against any relay, whom the host accepts is an honest viewer under its true identity or came with a guessed code, and each stretch of replies up to the accepted MAC without an earlier one took the total wait, at most five of them for one code |
| HelloTerms.HelloChecksAgree | crates/auth/src/identity.rs:132-187 | a hello as a term verifies exactly when its bytes do, for the same device, under any encoding that tells the occurring terms apart |
| HelloTerms.HelloMakersAgree | crates/auth/src/identity.rs:79-97 | the hello made as a term is the one made as bytes |
| FakeHub.SharedHub.AddViewer | crates/transport/src/fake_signal.rs:52-68 | a new generation takes the slot, the old one is closed last of all, both sides are told |
| FakeHub.SharedHub.SendFromHost | crates/transport/src/fake_signal.rs:83-109 | relays go to the current viewer only; a kick empties the slot |
| FakeHub.SharedHub.ReceiveAtHost | crates/transport/src/fake_signal.rs:111-124 | messages come out in order |
| FakeHub.SharedHub.DropHost | crates/transport/src/fake_signal.rs:127-135 | the current viewer is told and then closed |
| FakeHub.SharedHub.SendFromViewer | crates/transport/src/fake_signal.rs:151-164 | only the current generation reaches the host |
| FakeHub.SharedHub.ReceiveAtViewer | crates/transport/src/fake_signal.rs:166-183 | queued messages before the close, and the close for ever after |
| FakeHub.SharedHub.DropViewer | crates/transport/src/fake_signal.rs:186-196 | only the current viewer's leaving is reported |
| HubRuns.OneViewerPerAttempt | apps/host-agent/src/session.rs:116-162 | in every interleaving of joins, replacements, sends, kicks and drops, the share and the MAC of an attempt come from the viewer whose joining began it |
| HubRuns.NoSilentDisconnection | crates/transport/src/fake_signal.rs:166-196 | in every run a link that is no longer current and still held has been or will be closed with a code, never bare |
| HubRuns.LeavingHostIsNoticed | crates/transport/src/fake_signal.rs:127-135 | when the host drops its link in any run, the current viewer then reads all that was queued, that its host left, and the end with 4002 for ever; other links are untouched |
| HubRuns.LosingTheSlotIsNoticed | crates/transport/src/fake_signal.rs:52-62 | after a kick or a replacement in any run, the viewer reads all that was queued and then the end with 4001, and what it sends is refused |
| HubRuns.LeavingIsReportedOnce | crates/transport/src/fake_signal.rs:186-196 | the host is told exactly of the leaving of the viewer with the slot, and once |
| HubRuns.RelaysAreRecorded | crates/transport/src/fake_signal.rs:83-102 | the record of the host's relays holds them in order, with or without a viewer, and nothing else |
| HonestPair.EveryInterleavingConnects | crates/viewer-core/src/connect.rs:109-189 | on a hub with any past and any leftovers in the host's queue: with equal codes, IDs and versions and an approval, no interleaving fails or gets stuck, each ends in a session on both sides, and the number of steps is bounded |
| HonestPair.EveryInterleavingAnnouncesTheWait | apps/host-agent/src/session.rs:110-136 | on such a hub, while the limiter is closed: every interleaving ends with the viewer told to retry, never with its host gone, and with the exact delay |
| WrongCodePair.EveryInterleavingReportsTheWrongCode | crates/viewer-core/src/connect.rs:117-124 | on a hub with any past, with another code or host ID: every interleaving ends in a bounded number of steps with the viewer told that the code is wrong, and the host, after one reply, one counted failure and no kick, left with a free slot |
| RefusedVisit.AnnouncedStartIsReached | apps/host-agent/src/session.rs:116-154 | a run of the hub from its beginning that reaches such a start: the limiter closed by an earlier viewer, which left an entry in the host's queue |
| Channel.ControlChannel.Absorb | crates/transport/src/channel.rs:102-113 | exactly the data of the batch is queued, in order |
| Channel.ControlChannel.WaitOpen | crates/transport/src/channel.rs:50-64 | whole batches are taken in, none lost; ready is the answer to the first batch that opens the channel, and an error that of a poll that failed |
| Channel.ControlChannel.NextControl | crates/transport/src/channel.rs:67-85 | the oldest queued payload first; closed only when nothing is queued, and then for ever; an error only from a poll that failed; nothing lost or reordered |
| Channel.ControlChannel.Close | crates/transport/src/channel.rs:93-100 | the peer is closed once, however often this is called |
| Channel.DataOfSplits | crates/transport/src/channel.rs:102-113 | the data of successive batches is the data of the first followed by that of the rest |
| Pings.HostSession.ServePings | apps/host-agent/src/session.rs:89-103 | exactly one pong for each ping heard, in order; it ends on the first thing that is no message or answer that cannot be sent, and for time only when that is up; the channel is closed exactly on an undecodable message |
| Pings.ViewerSession.Ping | crates/viewer-core/src/connect.rs:83-96 | a time is returned if and only if what was heard ends with the first pong of this ping's own, never used, number, and is the time from sending to the return; an error is that of the last `next`; if all that was heard answers the pings in order, every ping is then answered |
| Pings.PingHearsItsOwnAnswer | crates/viewer-core/src/connect.rs:83-96 | whatever beginning of an answering host's pongs was heard, the pong with a ping's number stands at that ping's place |
| SealedChannel.NoncesDiffer | crates/auth/src/sealed.rs:10-14 | different counters have different nonces |
| SealedChannel.SealedSender.Seal | crates/auth/src/sealed.rs:38-58 | the message carries the counter, which then advances; the last counter gives no message |
| SealedChannel.EverythingIsSealed | crates/auth/src/sealed.rs:38-58 | up to 2^64 - 1 messages everything that is to be sealed is, in order, with counters from zero on |
| SealedChannel.SealedReceiver.OpenMessage | crates/auth/src/sealed.rs:81-105 | opens exactly what fits the expected counter; any failure leaves the state as it was |
| SealedChannel.ViewerSide | crates/auth/src/sealed.rs:110-115 | both halves of the viewer, with their keys and labels |
| SealedChannel.HostSide | crates/auth/src/sealed.rs:118-123 | the mirror image of the viewer's halves |
| SealedChannel.OpenedIsAPrefixOfSealed | crates/auth/src/sealed.rs:38-105 | in either direction, under any schedule of sealing and any deliveries, the plaintexts opened are the first ones sealed, in order |
| SealedChannel.OpensExactlyTheNext | crates/auth/src/sealed.rs:81-105 | a delivery opens if and only if it is, unaltered, the next message its own sender sealed |
| SealedChannel.NoNonceIsReused | crates/auth/src/sealed.rs:38-58 | no two messages of a session share key, label and nonce, even if both keys are equal |
| Utf8.EncodeIsInjective | crates/auth/src/identity.rs:113-127 | the bytes of a name determine it |
| Identity.CheckDeviceName | crates/auth/src/identity.rs:103-111 | accepts exactly names of 1 to 64 bytes without control characters |
| Identity.NamesFitExactly | crates/auth/src/identity.rs:103-111 | a name is accepted if and only if it has 1 to 64 bytes and no character of U+0000-1F or U+007F-9F |
| Identity.SessionMessage | crates/auth/src/identity.rs:113-127 | the layout of the signed bytes, lengths truncated to 16 bits |
| Identity.SessionBytesAreUnambiguous | crates/auth/src/identity.rs:113-127 | if every length fits 16 bits, the bytes determine role, binding, both fingerprints and name |
| Identity.TooLongIsAmbiguous | crates/auth/src/identity.rs:113-127 | two different inputs with the same signed bytes, one length being 65536 |
| Identity.UnambiguousExactly | crates/auth/src/identity.rs:113-127 | the bytes are unambiguous among inputs of a bounded total length if and only if the bound is below 65536 |
| Identity.SignedBytesMeanOneThing | crates/auth/src/identity.rs:79-127 | no hello, reconnect-key or registration message equals another of its kind or of another kind |
| Identity.MakeHello | crates/auth/src/identity.rs:79-97 | a hello with the two signatures over these bytes |
| Identity.VerifyHello | crates/auth/src/identity.rs:132-187 | the first error in the order of the checks, or the identity of the signer |
| Identity.VerifiedExactly | crates/auth/src/identity.rs:132-187 | a hello is accepted if and only if lengths, name and key fit and both statements are signed; each error is that of the first fault in the order of the fields |
| Identity.HelloRoundTrip | crates/auth/src/identity.rs:79-187 | a made hello verifies exactly for its own role, binding and fingerprints, as the maker's identity, and is a bad signature otherwise |
| Identity.AcceptedHelloWasMeant | crates/auth/src/identity.rs:132-187 | the key of an accepted hello signed this session's statement and the reconnect key |
| Register.RegisterHost | apps/host-agent/src/register.rs:22-66 | every outcome; only a good challenge for the ID asked for is ever signed, once, a failed link means that one failed, and the ID returned is the one signed |
| Register.RegistrationSucceeds | apps/host-agent/src/register.rs:54-65 | the bytes the host signs are those the room checks: whatever happens at the room before, between challenge and answer and until the check ends, the answer waits for its check, and if the socket is still open and the ID free or its own the host is registered |
| ApproverThread.ReaderKeepsTokens | apps/host-agent/src/main.rs:125-142 | under any steps of the reader, requests, read in progress and answers number one if a line is requested and none if not, and an answer is as late as its request |
| ApproverThread.RequestsAreServed | apps/host-agent/src/main.rs:125-137 | a request is served with the first unread line and the time of its reading, or at the end of input with none, which is a no |
| ApproverThread.EarlyLinesAnswerExactly | apps/host-agent/src/main.rs:145-175 | with a reader that keeps up, the first line read after a question is shown was typed before it if and only if more lines were unread when the last question ended, or typed since, than reads were in progress |
| ApproverThread.EarlyYesApproves | apps/host-agent/src/main.rs:145-170 | a `y` typed while nothing was asked approves the question shown afterwards |
| ApproverThread.YesExactly | apps/host-agent/src/main.rs:164-164 | only a single `y` with nothing but white space around it is a yes |
| ApproverThread.Approver.AnswerNow | apps/host-agent/src/main.rs:145-170 | under any interleaving, an answer that waits is always received: it is the answer if it was read after the question was shown, and thrown away exactly if not, which happens once at most; there is none yet only if none waits, a line is requested and the reader lives |
| ApproverThread.Approver.EndQuestion | apps/host-agent/src/main.rs:173-175 | the next question has its own time |
| RateLimit.Bucket.Hit | signaling/src/rate-limit.ts:16-23 | the stored window is replaced by the next one, also for a denied hit |
| RateLimit.Bucket.HitAll | signaling/src/rate-limit.ts:6-22 | for a sequence of hits from the first on: a hit is allowed if and only if fewer than the limit came before it in its own window |
| RateLimit.AllowedExactly | signaling/src/rate-limit.ts:6-14 | the law of the limit for every history, in terms of the times alone: windows start at the first hit and at the first one a window after the last start, and each allows its first hits up to the limit |
| RateLimit.WindowsAreApart | signaling/src/rate-limit.ts:6-14 | starts of windows are at least a window apart, and every hit lies less than a window after the start of its own |
| RateLimit.AtMostTwiceLessOne | signaling/src/rate-limit.ts:6-14 | any half-open stretch as long as the window has at most 2L - 1 allowed hits |
| RateLimit.TheBoundIsReached | signaling/src/rate-limit.ts:6-14 | that bound is reached for every limit |
| RateLimit.WindowsEnd | signaling/src/rate-limit.ts:6-14 | hits inside a window, allowed or denied, keep its start; a hit is allowed if and only if the window is over or not yet full |
| AnnexB.Print | spikes/webrtc-rs/tests/h264.rs:152-159 | the stream with a four-byte start code before each unit |
| AnnexB.Split | spikes/webrtc-rs/tests/h264.rs:162-186 | the units between start codes without trailing zeros |
| AnnexB.CleanUnitsComeBack | spikes/webrtc-rs/tests/h264.rs:152-186 | units without a start code inside or a zero at the end survive printing and splitting, whatever the lengths of the start codes |
| AnnexB.UnitsAreClean | spikes/webrtc-rs/tests/h264.rs:162-186 | whatever the data, the units have neither a start code inside nor a zero at the end |
| AnnexB.RoundTripsExactly | spikes/webrtc-rs/tests/h264.rs:152-186 | units come back if and only if they are clean |
| AnnexB.SplittingIsStable | spikes/webrtc-rs/tests/h264.rs:152-186 | splitting, printing and splitting again changes nothing, for any data |
| SimLink.Link.Send | spikes/webrtc-str0m/tests/common/mod.rs:57-90 | loss, tail drop, bottleneck and latency, in this order |
| SimLink.Link.NextDue | spikes/webrtc-str0m/tests/common/mod.rs:92-94 | the earliest due time among all packets in flight, and none exactly if there are none |
| SimLink.Link.Deliver | spikes/webrtc-str0m/tests/common/mod.rs:96-103 | the oldest packet if it is due, and none exactly if nothing in flight is |
| SimLink.Link.DelayAt | spikes/webrtc-str0m/tests/common/mod.rs:106-109 | the least time after which the bottleneck is free, never negative |
| SimLink.Link.Refuse | spikes/webrtc-str0m/tests/common/mod.rs:276-281 | a blocked packet is counted as sent and as blocked |
| SimLink.NothingVanishes | spikes/webrtc-str0m/tests/common/mod.rs:57-103 | in every run, also with settings changed meanwhile, each packet sent was delivered, dropped for one reason or is in flight, and delivery is in order |
| SimLink.DeliveryIsPunctual | spikes/webrtc-str0m/tests/common/mod.rs:92-103 | in every run, also with settings changed meanwhile, nothing is delivered before it is due, and whenever something is due the oldest packet is delivered |
| SimLink.TakenInExactly | spikes/webrtc-str0m/tests/common/mod.rs:57-90 | unless it is lost, a packet is taken in if and only if there is no bottleneck or what waits and the packet take no longer than a full queue, and it is due when it has left the bottleneck and the latency has passed |
| SimLink.DueTimesAreOrdered | spikes/webrtc-str0m/tests/common/mod.rs:84-89 | due times never decrease, even if the latency is lowered |
| SimLink.DelayIsBounded | spikes/webrtc-str0m/tests/common/mod.rs:67-82 | with fixed rate and limit, whatever else is changed, the queue delay never exceeds limit * 8 / rate |
| SimLink.DeparturesArePaced | spikes/webrtc-str0m/tests/common/mod.rs:67-82 | packets come out no faster than the rate, each exactly the latency after it left the bottleneck |
| SimLink.LossIsEveryNth | spikes/webrtc-str0m/tests/common/mod.rs:60-66 | of the packets that entered, exactly every n-th is counted as lost |

## Left out

- Cryptography itself (SPAKE2, Ed25519, ChaCha20-Poly1305, HKDF, X25519, WebCrypto): ideal terms, as described above. A MAC comparison is equality of terms; timing is not modelled.
- Wire formats (JSON frames, postcard, the hex of relayed data): a message is a value, or one that does not decode.
- Agreement: nothing is claimed for codes the adversary tries, where it can simply be one of the two sides; the guess rate says how often it can try.
- The WebRTC stack, sockets and session descriptions (`crates/transport/src/peer.rs`, `net.rs`): a peer is a source of batches of events; a description is a fingerprint; on a data channel a party speaks only for its own fingerprints.
- WebSocket, TLS and URLs (`crates/transport/src/link.rs`), HTTP routing and the choice of IDs (`signaling/src/index.ts`), and the mapping of HTTP statuses in `from_join_error`.
- Cloudflare's runtime beyond what the room relies on: a handler is atomic except at its await, a socket that left OPEN never returns, and its close or error handler runs at most once.
- Limiter.AttemptLimiter.RecordFailure: counters are unbounded; the overflow of 32-bit counters after 2^32 consecutive failures, each a day apart, is not modelled.
- Limiter.WaitMillisIsLeast: the saturation of the announced delay at 2^64 - 1 milliseconds is not modelled, because a wait never exceeds a day.
- Pings.ViewerSession.Ping: the overflow of the 64-bit ping number is not modelled.
- SimLink.Link.Send: times are exact reals, so the rounding of floating point and of durations is not modelled; a rate of zero and a loss interval of zero, with which the code can panic, are excluded by type.
- SimLink.DelayIsBounded: a clock that does not go back is assumed.
- RateLimit.AtMostTwiceLessOne: a clock that does not go back is assumed; the server's clock is not asked for more.
- HonestPair.EveryInterleavingConnects: clients without the slot do nothing meanwhile (they can reach neither side), a user who stays silent does so a bounded number of times, and no timeout fires; what timeouts lead to is in the machines, and every run of them is covered by the other theorems.
- FakeHub.SharedHub.AddViewer: the mutex makes each operation atomic; the hub and both links are one object, and a poisoned mutex is not modelled.
- ApproverThread.Approver.AnswerNow: what is printed is not modelled.
- HostAgent.Agent.WaitApproval: that the user is asked again every 50 milliseconds is not stated, because any amount of time may pass between two steps.
- HostAgent.Agent.ServeNext: the link delivers a finite list and is then closed, so that the wait for a viewer ends; the list is arbitrary.
- What the host is told about a viewer (names and key fingerprints as shown), device key storage, command lines and messages to the user.
- The other spikes (str0m and webrtc-rs integration, Windows, Media Foundation, DPAPI, egui, WiX) and scripts: they only exercise libraries or the operating system.
