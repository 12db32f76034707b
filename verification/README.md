# Listen Together rooms, modelled and proved

This project models the room server behind "Listen Together": rooms with a host,
guests and reserved seats, reconnect tokens, playback that every listener follows,
outbound queues, rate limits, and the write-behind store that carries rooms over a
restart. It proves what the server promises about them over whole runs: any number
of connections, any interleaving of handlers, timers, disconnects and restarts.

How the modules fit together:

- `Base`, `Text`, `Tracks` - Go strings as bytes, `sanitizeString`, track and queue cleaning.
- `Playback`, `PlaybackObject` - the playback state as a value and as the object the
  handler changes in place; int64 positions against unbounded integers.
- `Replica`, `Delivery`, `Canaries`, `Streams`, `Outbox`, `Wire` - what a listener rebuilds from the messages
  it received, with syncMu, the order of queueing, answers to pings and slow connections
  modelled step by step, down to the bytes a connection's writer has taken.
- `Rooms`, `RoomObject` - one room as a value and as an object; the room invariant.
- `Lobby` - the whole server, one critical section per step: 28 kinds of step, among them
  the separate claim, lookup, consume and release of a reconnect and the two halves of cleanup.
- `Links`, `LobbyRooms`, `LobbyLinks`, `Tokens`, `LobbyRuns`, `LobbyTimers`, `Runs` - the
  inductive invariant of that machine, part by part, and the proof that every step keeps it.
- `Properness`, `Discipline` - exactly which steps and runs keep that invariant, and a rule for
  connections under which all of them do.
- `Steering`, `Contents`, `Seats` - who may change a room's playback, the bounds of everything
  stored, and how long a reserved seat and its notices last.
- `Effects`, `Actions` - what every step of the server and every action of the host achieves, field by
  field: when it is refused, what it changes, and that it changes nothing else.
- `Safety`, `Owners`, `Inbox`, `Journeys` - the theorems over reachable states and runs, and what
  several steps achieve together or undo of each other. A state is reachable if a run of proper
  steps leads to it in some life of the server, after any number of restarts.
- `Losses`, `Witness` - what the code can lose, and runs that show it and that the theorems are not empty.
- `SessionTable` - the token table changed in place.
- `Records`, `Snapshots`, `Flusher`, `Restart`, `RestartSafety`, `Reboot`, `Grace` - records, the
  differential flusher, restoring, soundness across restarts, and grace periods as time of service.
- `RateLimit`, `Locks` - the fixed-window limiters and the lock order.

Generated IDs and tokens are fresh; clock readings, randomness and whether a
transaction commits are parameters. Times are nanoseconds except playback times, which
are milliseconds. CRC-32, JSON and protobuf are not interpreted: the canary is stated on
the bytes it hashes, records on the values they encode.

Where the code and its documentation differ the model follows the code. The
repository's own README says `host_sequence` guards play, pause and seek; the code checks it
for every action, and so does `Playback.Handle`. Findings about the code: the branch of `sanitizeString`
that repairs invalid UTF-8 never runs, because the rune mapping before it has already
replaced every invalid byte (`Text.SanitizeOutput`); a connection that is still open between the
two halves of `replaceLiveSession` can be admitted a second time (`Properness.WindowBreaks`);
an outcome decided while its author is active on a closed connection is told to nobody
(`Safety.OutcomesCanBeLost`); a reconnect can leave a room that nobody can ever host
(`Losses.RoomCanDie`); an approval refused because the queue would be too large has already written the
author's name into the suggestion (`Effects.TakeUpSettles`); and a snapshot taken between the two halves of cleanup can forget the
host (`Losses.SeatCanBeLost`).

Properties that do not hold are stated with the exact condition under which they do:

- `Properness.SoundIffProper` and `Properness.RunSoundIffRegular`: which steps and runs keep the
  invariant; `Properness.WindowBreaks` is a family of runs that do not.
- `Reboot.RestartSoundIff`, `Reboot.LivesSoundIff`, `RestartSafety.RoomSurvives` and
  `RestartSafety.HostSurvives`: which snapshots can be restored; `Losses.SeatCanBeLost` and
  `Witness.SeatsDoGetLost` reach ones that cannot.
- `Safety.OutcomesReachAuthors`: which outcomes reach their authors; `Safety.OutcomesCanBeLost`
  and `Witness.OutcomesDoGetLost` lose one.
- `Canaries.CanaryFallsBehind` and `Canaries.RevisionsRiseIffPrompt`: when revisions drop;
  `Canaries.CanariesDoFallBehind` is a run in which they do.
- `Rooms.RejoinedDead`: when a return leaves a dead room; `Losses.RoomCanDie` and
  `Witness.RoomsDoDie` reach one.
- `Seats.SeatStaysIff`: when a reserved seat ends; `Grace.GraceIsUptime` and
  `Grace.FailoverIsUptime`: when it expires and when the host is replaced.
- `Journeys.DepartureIsComplete`, `Rooms.AdmittedRoster`, `Flusher.DiffIsOverwrite`,
  `Playback.LiveExact`, `Playback.RebaseComposes`, `Playback.RejectedEffect`, and
  `Text.ResanitizeIdentity` with `Text.SanitizeNotIdempotent`.

## Model

| member | source | states |
|---|---|---|
| Safety.HostSeats | internal/server/hosts.go:22-43 | In every reachable state a registered room with members is in exactly one of three states - host connected and allowed to host, host away with a reserved seat marked host, or hostless with nobody connected who could host - and a waiting owner is somebody else with a reserved host seat |
| Safety.Membership | internal/server/rooms.go:559-591 | In every reachable state active and reserved members are disjoint, at most 100 together, and the user list names each exactly once with the right connected and host flags |
| Safety.SeatTokens | internal/server/lifecycle.go:243-281 | Every reserved seat has exactly one stored token, unless its expiry is in flight |
| Safety.ActiveTokens | internal/server/lifecycle.go:400-431 | An active member carries a token that is not stored, and no stored token names an active member |
| Safety.NoticesFit | internal/server/rooms.go:925-935 | Stored notices plus pending suggestions of an absent member never exceed 10, and every suggestion's author is still a member |
| Safety.OutcomesReachAuthors | internal/server/rooms.go:182-189 | In every reachable state an approval or rejection is queued to its author's open connection or stored for an absent author if and only if the author is not active on a closed connection; in that one case nothing is stored |
| Safety.OutcomesCanBeLost | internal/server/client.go:453-456 | From every reachable state with an open suggestion of an active author, that author's connection may close, and then no outcome reaches the author |
| Safety.PlaybackInRange | internal/server/validation.go:121-141 | In every reachable state, across restarts, every room's queue has at most 1000 cleaned tracks and 400 KiB, volume and track are in bounds, and the projected position is exact and within 0 and 24 hours |
| Safety.SuggestionsAreStored | internal/server/rooms.go:150-163 | In every reachable state the track of every open suggestion, under its author's name, satisfies every bound of a queued track |
| Seats.SeatStaysIff | internal/server/lifecycle.go:228-281 | A step leaves a reserved seat in place if and only if it does not return, kick or expire its member; a seat left in place keeps its time and its notices |
| Seats.SeatStays | internal/server/lifecycle.go:228-281 | The same over every run: same seat, same time, every notice still stored in order |
| Seats.StampLasts | internal/server/hosts.go:22-43 | Over every run in which the host stays away, the moment they left does not change |
| Seats.OutcomeIsKept | internal/server/rooms.go:925-935 | A notice stored for an absent author is still there when their reconnect succeeds, whatever happened since, and none is left afterwards |
| Safety.SessionsConserved | internal/server/lifecycle.go:341-424 | Every session ever created is in exactly one place: stored, consumed by a reconnect, or revoked |
| Safety.ClaimsExclusive | internal/server/lifecycle.go:341-363 | No two reconnects in flight hold the same token or the same session |
| Safety.ClaimedIsHeld | internal/server/lifecycle.go:341-382 | A stored token is claimed exactly while some reconnect in flight holds it |
| Safety.FailureReleases | internal/server/lifecycle.go:375-382 | A reconnect that ends without its seat gives the claim back: the token can then be claimed by exactly those who could have claimed it before |
| Safety.GoneForGood | internal/server/lifecycle.go:396-424 | Once any step took a token away - consumption, cleanup, kick, leave, closing - no reconnect ever succeeds with that session in any later run |
| Safety.RemovedIsSpent | internal/server/lifecycle.go:30-46 | A token that a step removes leaves its session consumed or revoked |
| Owners.OwnerWaits | internal/server/hosts.go:186-190 | An owner keeps the claim to the seat and a reserved host seat through any run without a transfer, kick of the owner, expiry of the owner's seat, return of the owner or close of the room that is carried out; refused and stale requests do not end it |
| Owners.OwnerOutlives | internal/server/persistence.go:445-539 | The same through any number of restarts and any run since |
| Owners.OwnerReturns | internal/server/lifecycle.go:433-442 | A successful reconnect of the owner gives the seat back and clears the owner |
| Owners.OwnerReclaims | internal/server/hosts.go:158-199 | From a failover through any run of further deputies, failovers and restarts, the replaced host or earlier owner reclaims the seat by reconnecting |
| Inbox.InboxComplete | internal/server/hosts.go:45-90 | Over every run of steps and deliveries, any interleaving: for every registered room with a connected host, every suggestion of the room and every application whose connection is open has been sent to the connection now in the seat since it took the seat, or is on its way there. Stated on the room's own suggestions and applications; messages count only while what they speak of stays open, so a later application under the same ID must be announced anew |
| Inbox.InboxAlwaysComplete | internal/server/hosts.go:70-90 | The same in every life of the server, after any number of restarts: the host of every room always hears of every suggestion and every open application |
| Inbox.StepCalm | internal/server/rooms.go:85-99 | A step that assigns no seat adds nothing to what the host has to decide but the application or suggestion it announces |
| Journeys.ReconnectRestores | internal/server/lifecycle.go:214-484 | Round trip over three steps: a member who drops out and reconnects on another connection within the grace period finds the room as it was; the new connection has the old one's ID, name and token, no token is left in the table, and the other tables are unchanged |
| Grace.ReturnKeepsName | internal/server/lifecycle.go:321-484 | Over runs and restarts: if a seat stays reserved through any number of restarts and whatever others do, then a reconnect that succeeds for it gives the connection the ID and the name the member had when the seat was reserved, the token it came with, and the member's place in the room |
| Grace.DetachedNameReturns | internal/server/lifecycle.go:214-293 | The same from the moment of the disconnect: what a later successful return restores is the name the connection went by when it dropped out |
| Journeys.ReturnUndoesDisconnect | internal/server/lifecycle.go:419-447 | The room half of that round trip: same members, flags, roles, suggestions and playback, the new connection in place of the old |
| Journeys.VisitLeavesNoTrace | internal/server/rooms.go:444-900 | Round trip over application, approval and departure of a stranger: every room, the registry and the token table are exactly as before |
| Journeys.SuggestionIsPlayedNext | internal/server/rooms.go:75-191 | Suggesting and being approved changes nothing of the whole server but the clock, the queue, which gains the track at its head under the author's name, and its revision, which goes up by one |
| Journeys.SuggestionUndone | internal/server/playback.go:309-321 | Round trip over suggestion, approval and removal: the whole server is as before, two revisions on |
| Journeys.DepartureIsComplete | internal/server/rooms.go:841-886 | Whoever leaves is in no list, map or role of the room; the room keeps them as host and host ID if and only if they were the host and the room is deserted |
| Journeys.ExpiryIsComplete | internal/server/lifecycle.go:60-84 | Whoever expires is in no list, map or role of the room |
| Journeys.KickIsComplete | internal/server/rooms.go:722-750 | Whoever is kicked is in no list, map or role of the room, and the kicker still hosts it |
| Journeys.DepartureIsPrivate | internal/server/rooms.go:851-864 | Nobody else's place, notices or suggestions are touched when somebody leaves, expires or is kicked, whoever succeeds them |
| Effects.TransferMoves | internal/server/rooms.go:763-824 | A transfer by the seated host to another connected, eligible member: host pointer and host ID become the target's, owner and away time are cleared, the list flags exactly the new host, the host sequence starts over; members, seats, applications, suggestions, notices and every other room and table are as before. In every other case nothing changes |
| Effects.TransferUndone | internal/server/rooms.go:763-824 | Round trip: handing the seat over and back leaves the whole server as it was, but for the owner's claim and the host sequence |
| Effects.FailoverMoves | internal/server/hosts.go:158-200 | After 30 seconds without the host, and not before, the fastest eligible member gets the seat, and the absent host, or the owner already waiting, is remembered as owner; without an eligible member nothing changes |
| Effects.CreateOpens | internal/server/rooms.go:264-393 | Exactly when a room is created, and that its creator is then alone in it, hosts it, is listed under the cleaned name, with nothing playing at full volume |
| Effects.JoinApplies | internal/server/rooms.go:395-512 | Exactly when an application is filed and under which ID; a request that names a room gives the connection its cleaned name either way |
| Effects.ApproveAdmits | internal/server/rooms.go:514-619 | An approved applicant becomes a member under their own ID and name with a fresh token, listed last and connected; a full room keeps them waiting; a closed applicant or one that found another room is turned away |
| Effects.RejectTurnsAway | internal/server/rooms.go:621-670 | A rejected applicant is on no room's list and waits for no room; nothing else changes |
| Effects.RemovePendingWithdraws | internal/server/lifecycle.go:199-211 | A withdrawn application is gone from wherever it was filed, and from nowhere else |
| Effects.CancelRenews | internal/server/rooms.go:826-837 | Leaving outside a room withdraws the application and renews the ID |
| Effects.KickRemoves | internal/server/rooms.go:672-761 | Whoever is kicked is in no map, list, suggestion, notice or role of the room; a connected member's connection is released, an absent member's tokens are revoked, and nothing else changes; the host cannot kick themselves, and nobody else can kick |
| Effects.LeaveDeparts | internal/server/rooms.go:838-908 | Whoever leaves is gone from every map and list; if they hosted and anybody remains, the seat goes to the fastest eligible member or to nobody, and a room nobody can host any more is marked for closing |
| Effects.ExpireUnseats | internal/server/lifecycle.go:60-102 | The same for a seat whose time is up; an expiry that finds no seat changes nothing |
| Effects.DetachReserves | internal/server/lifecycle.go:214-293 | Whoever drops out leaves a seat with their ID, name, role and the time, filed with their own token; the list marks them disconnected, and a host's absence is noted with its time |
| Effects.ClaimHolds | internal/server/lifecycle.go:332-374 | Exactly which claims are granted, and that a granted one marks the session and nothing else |
| Effects.ConsumeRestores | internal/server/lifecycle.go:396-447 | Exactly which reconnects succeed; one that does restores the seat's ID and name, uses its token up, hands out the notices and takes the host seat exactly if the member may host and hosted, owned, or found the room without any host |
| Effects.ReleaseFreesToken | internal/server/lifecycle.go:375-382 | A reconnect that ends without success gives its token free again, if it is still stored |
| Effects.TakeSweeps | internal/server/lifecycle.go:27-57 | Cleanup takes exactly the tokens whose seats are older than 15 minutes and keeps exactly their sessions for expiry |
| Effects.DeleteForgets | internal/server/lifecycle.go:486-514 | Exactly an empty registered room is deleted; its applicants are free again |
| Effects.CloseClears | internal/server/hosts.go:122-151 | Closing empties the room, frees its members and applicants, revokes exactly its tokens and takes its code out of use |
| Effects.SuggestFiles | internal/server/rooms.go:11-111 | Exactly which suggestions are accepted, and that they are stored cleaned under the author's own ID and name |
| Effects.TakeUpSettles | internal/server/rooms.go:113-205 | An approved suggestion is next in the queue under its author's name and off the list, and an absent author has one more notice, always; one the queue does not admit stays on the list, and one refused for its size stays signed with that name |
| Effects.TurnDownSettles | internal/server/rooms.go:207-262 | A rejected suggestion is off the list, and an absent author has one more notice with the cleaned reason, always |
| Effects.ControlSteers | internal/server/playback.go:138-183 | A playback request of the seated host changes the playback of its own room as Playback.Handle says, with the sender's own round trip; anybody else's changes nothing |
| Rooms.KickedIsDropped | internal/server/rooms.go:722-748 | A kick is exactly such a departure, from either kind of seat |
| Steering.OnlyTheHostSteers | internal/server/playback.go:138-172 | Of all the steps of the server, in any state, only an action or an approval of the host connected to the room changes what the room plays |
| Steering.NewHostStartsOver | internal/server/hosts.go:22-43 | Whatever step gives the seat to another connection, that connection's first action is not refused as stale |
| Witness.OwnersDoWait | internal/server/hosts.go:158-199 | There is a run in which a host drops out, the guest takes over and the host waits as owner |
| Witness.SeatsDoGetLost | internal/server/persistence.go:78-112 | A snapshot between the two halves of cleanup is reached from which an absent host, and one from which a waiting owner, is lost |
| Witness.RoomsDoDie | internal/server/lifecycle.go:433-455 | There is a run to a registered room with members, nobody who can ever host it, and nothing under way to close it |
| Witness.OutcomesDoGetLost | internal/server/rooms.go:207-245 | There is a run in which a suggestion is rejected and its author, active on a closed connection, is never told |
| Losses.RoomCanDie | internal/server/lifecycle.go:433-455 | From every reachable state whose host is the only one who may host and one guest is away, the host may leave and the guest return, which leaves a dead room registered |
| Losses.SeatCanBeLost | internal/server/persistence.go:497-515 | From every reachable state with somebody connected and the absent host or waiting owner overdue, a snapshot after cleanup's first half restores a room with a broken host seat |
| Runs.StepKeeps | internal/server/server.go:424-461 | Each of the 28 kinds of critical section keeps the whole invariant if it is proper |
| Runs.RunKeeps | internal/server/server.go:396-462 | Every run of proper steps keeps the whole invariant: rooms, links between connections and rooms, tokens, claims and history |
| Properness.SoundIffProper | internal/server/rooms.go:539-581 | A step from a sound state keeps the whole invariant if and only if it lets nobody in under an ID that is already a member's and expires no seat whose token is stored |
| Properness.RunSoundIffRegular | internal/server/server.go:396-462 | Over every possible run: the invariant holds in each of its states if and only if every step of it is proper |
| Properness.WindowBreaks | internal/server/lifecycle.go:295-318 | From every sound state with a guest and a connected host the window inside replaceLiveSession is enough to break the invariant: detached but not yet closed, the guest applies and is let in |
| Discipline.QuietIsProper | internal/server/rooms.go:444-491 | While connections whose member became a reserved seat neither create nor join, every step is proper |
| Discipline.DisciplineIsEnough | internal/server/lifecycle.go:181-228 | Every possible run in which no detached connection creates or joins is sound throughout |
| Discipline.DisciplineInEveryLife | internal/server/lifecycle.go:181-228 | The same of every run of every life of the server, from the empty one on |
| Contents.StepTidy | internal/server/rooms.go:40-85 | Every step keeps every name clean and every open suggestion fit for the queue |
| Contents.StepInRange | internal/server/playback.go:163-389 | Every step keeps every room's position, queue, volume and track in bounds, a new room included |
| Contents.LivesInBounds | internal/server/persistence.go:378-443 | Both hold in every state of every life of the server, proper steps or not |
| Contents.LivesCount | internal/server/playback.go:354-377 | Over all lives, while fewer than 2^64 steps are taken, no revision exceeds the number of steps and no track revision its room's revision |
| LobbyRuns.CreateKeeps | internal/server/rooms.go:328-374 | Creating a room under an ID that is nobody's keeps the invariant |
| LobbyRuns.JoinKeeps | internal/server/rooms.go:444-491 | Filing an application keeps it |
| LobbyRuns.WithdrawKeeps | internal/server/lifecycle.go:199-211 | Withdrawing or rejecting an application removes entry and pointer together and keeps it |
| LobbyRuns.CancelKeeps | internal/server/rooms.go:826-839 | Cancelling renews the ID, so a late approval misses, and keeps it |
| LobbyRuns.AdmitKeeps | internal/server/rooms.go:539-581 | Approving an application under an ID that is nobody's keeps it |
| LobbyRuns.KickActiveKeeps | internal/server/rooms.go:722-750 | Kicking an active member keeps it |
| LobbyRuns.KickAwayKeeps | internal/server/rooms.go:730-750 | Kicking an absent member removes the seat and all its tokens together and keeps it |
| LobbyRuns.TransferKeeps | internal/server/rooms.go:763-824 | Handing over the host seat keeps the whole invariant; what it moves is stated by Effects.TransferMoves |
| LobbyRuns.LeaveKeeps | internal/server/rooms.go:841-900 | Leaving, with the succession it causes, keeps it |
| LobbyRuns.DetachKeeps | internal/server/lifecycle.go:228-281 | A disconnect turns member into seat and token in one step and keeps it |
| LobbyRuns.FailoverKeeps | internal/server/hosts.go:174-194 | Failover keeps it |
| LobbyRuns.SuggestKeeps | internal/server/rooms.go:40-85 | Submitting a suggestion keeps it |
| LobbyRuns.ResolveKeeps | internal/server/rooms.go:165-191 | Settling a suggestion keeps it |
| LobbyTimers.ClaimKeeps | internal/server/lifecycle.go:341-363 | Claiming a token keeps it |
| LobbyTimers.DropTokenIdle | internal/server/lifecycle.go:388-394 | A reconnect that finds no room drops a token that is already gone |
| LobbyTimers.ConsumeKeeps | internal/server/lifecycle.go:396-455 | The membership change of a reconnect keeps it |
| LobbyTimers.ReleaseKeeps | internal/server/lifecycle.go:375-382 | The deferred release keeps it |
| LobbyTimers.TakeKeeps | internal/server/lifecycle.go:30-46 | Taking expired tokens keeps it |
| LobbyTimers.ExpiredInKeeps | internal/server/lifecycle.go:60-101 | Expiring a taken session's seat, when no token leads back to it, keeps it |
| LobbyTimers.StaleExpiry | internal/server/lifecycle.go:65-69 | An expiry whose seat went another way changes nothing else |
| LobbyTimers.DeleteKeeps | internal/server/lifecycle.go:486-514 | Deleting an empty room keeps it |
| LobbyTimers.CloseKeeps | internal/server/hosts.go:122-149 | Closing a room leaves no token, seat, client or entry behind and keeps it |
| Tokens.ConsumeTokens | internal/server/lifecycle.go:400-424 | A session about to be consumed was neither consumed nor revoked before, and the token invariant survives |
| Tokens.ReleaseAttempts | internal/server/lifecycle.go:375-382 | After a release the token is free and every other claim is still held |
| Tokens.TakeTokens | internal/server/lifecycle.go:30-46 | Taking tokens keeps seats covered by the expiry now in flight |
| Tokens.DetachTokens | internal/server/lifecycle.go:243-281 | A disconnect files exactly one token for the new seat |
| Rooms.PickDeputy | internal/server/hosts.go:92-112 | The loop over the clients in any order returns a deputy exactly if some client may host. In raw round trips: if some client that may host has a measured round trip under an hour, the deputy's is measured and no higher; an unmeasured one counts as an hour; among equals, and among the unmeasured, the deputy has the least ID |
| Rooms.DeputyIsFastest | internal/server/hosts.go:92-112 | Who the deputy is, if and only if, for every set of clients and measurements and without reference to the ranking: the client that may host, is open, and is preferred to every other such client by measured round trip, then by ID; nobody if no client may host |
| Rooms.DeputyUnique | internal/server/hosts.go:95-112 | There is only one such client, whatever the map order |
| Rooms.DropUser | internal/server/lifecycle.go:104-112 | The loop removes every entry of the user and keeps the rest in order |
| Rooms.WithoutUserFacts | internal/server/lifecycle.go:104-112 | Removing a user keeps the list exact for the remaining members |
| Rooms.OpenedKeeps | internal/server/rooms.go:332-354 | A new room satisfies the room invariant |
| Rooms.AdmittedRoster | internal/server/rooms.go:559-580 | Admitting keeps the partition if and only if the ID has no reserved seat |
| Rooms.AdmittedKeeps | internal/server/rooms.go:559-580 | Admitting a new ID keeps the room invariant |
| Rooms.DisconnectedKeeps | internal/server/lifecycle.go:243-275 | A disconnect keeps it, the host's seat included |
| Rooms.KickedKeeps | internal/server/rooms.go:722-750 | A kick keeps it |
| Rooms.LeftKeeps | internal/server/rooms.go:851-886 | Leaving keeps it, the deputy succeeding a host who leaves |
| Rooms.ExpiredKeeps | internal/server/lifecycle.go:60-84 | Expiry keeps it, the deputy succeeding an absent host |
| Rooms.RejoinedKeeps | internal/server/lifecycle.go:411-447 | A reconnect keeps it |
| Rooms.RejoinedReclaims | internal/server/lifecycle.go:433-442 | A returning host or owner always has the seat afterwards, and no owner waits for them |
| Rooms.RejoinedDead | internal/server/lifecycle.go:433-442 | A reconnect leaves a room nobody can ever host exactly when the last absent member of a hostless room returns without taking the seat |
| Rooms.AssignHostKeeps | internal/server/hosts.go:22-43 | Assigning the seat to a member who may host, or to nobody when nobody may, keeps the invariant and leaves the room seated or hostless |
| Rooms.TransferredKeeps | internal/server/rooms.go:811-814 | A transfer keeps the room invariant |
| Rooms.FailedOverKeeps | internal/server/hosts.go:186-190 | A failover keeps it and remembers the first displaced host |
| Rooms.SubmittedKeeps | internal/server/rooms.go:52-85 | A suggestion within the limits keeps it |
| Rooms.ResolvedKeeps | internal/server/rooms.go:165-189 | Settling a suggestion keeps it, and an absent author's notice is always appended |
| RoomObject.RoomCell.constructor | internal/server/rooms.go:332-354 | The new room object holds the creator as seated host |
| RoomObject.RoomCell.Assign | internal/server/hosts.go:22-43 | The new state after the seat was assigned, whether a new host is announced, and the work handed to the new host: exactly one entry for every suggestion of the room and one for every application on an open connection |
| RoomObject.RoomCell.PendingWork | internal/server/hosts.go:45-66 | Both loops together collect a notice for every suggestion of the room, a request for every applicant whose connection is open, and nothing else |
| RoomObject.RoomCell.Transfer | internal/server/rooms.go:811-814 | In place transfer equals the specification, whose effect Effects.TransferMoves states, and hands the new host a notice for every suggestion and every open application |
| RoomObject.RoomCell.Failover | internal/server/hosts.go:174-194 | In place failover changes the room exactly if it is due and somebody may host, equals the specification for the deputy picked, and hands the deputy a notice for every suggestion and every open application |
| RoomObject.RoomCell.Kick | internal/server/rooms.go:722-748 | In place kick equals the specification |
| RoomObject.RoomCell.Admit | internal/server/rooms.go:559-580 | In place admission equals the specification |
| RoomObject.RoomCell.Disconnect | internal/server/lifecycle.go:239-273 | In place disconnect equals the specification and returns the reserved seat |
| RoomObject.RoomCell.Rejoin | internal/server/lifecycle.go:419-447 | In place return equals the specification, hands out the stored notices, and reports a seat change, with a notice for every suggestion and every open application, exactly when the seat is taken |
| RoomObject.RoomCell.Leave | internal/server/rooms.go:851-886 | In place departure equals the specification for the deputy it picks, reports a dead room, and reports a seat change, with all open work for the new host, exactly when the host leaves others behind |
| RoomObject.RoomCell.Expire | internal/server/lifecycle.go:60-84 | In place expiry equals the specification, leaves a seat that is gone alone, and reports a seat change, with all open work for the new host, exactly when the host expires |
| RoomObject.RoomCell.KeepNotice | internal/server/rooms.go:925-935 | In place notice queue equals the specification |
| RoomObject.RoomCell.Resolve | internal/server/rooms.go:165-189 | In place settlement equals the specification and names the author to tell |
| RoomObject.RoomCell.RemoveSuggestions | internal/server/rooms.go:916-922 | The loop removes exactly the user's suggestions |
| RoomObject.RoomCell.CountSuggestions | internal/server/rooms.go:57-69 | The loop finds a duplicate if there is one, and otherwise counts the author's suggestions |
| SessionTable.Table.TryClaim | internal/server/lifecycle.go:341-363 | The claim in place: which of the four answers is given, each if and only if - not found or held, expired after 15 minutes, host seat asked for by a client that may not host, granted - and that only a granted claim changes the table, by the one flag |
| SessionTable.Table.Consume | internal/server/lifecycle.go:401-415 | The token goes exactly if it still stands for this session |
| SessionTable.Table.Release | internal/server/lifecycle.go:375-382 | In place release equals the specification |
| SessionTable.Table.TakeExpired | internal/server/lifecycle.go:30-46 | The loop removes and returns exactly the expired sessions |
| SessionTable.Table.RevokeMember | internal/server/rooms.go:734-738 | The loop removes exactly the member's tokens of this room |
| SessionTable.Table.RevokeRoom | internal/server/hosts.go:128-132 | The loop removes exactly the room's tokens |
| Delivery.EveryPrefixRebuilds | internal/server/playback.go:184-389 | Over every interleaving, once a snapshot was received folding any received prefix gives the track, queue, play flag and, at every later time, the live position of the state its last message was made from; everybody but the room's creator receives a snapshot first |
| Delivery.OpenMembersAreCurrent | internal/server/client.go:445-475 | An open member who received a snapshot, and to whom nothing is being sent, has the present state: there are no gaps; every guest has received one |
| Delivery.RevisionsRise | internal/server/playback.go:163-389 | The revisions queued under syncMu to one connection during one stay never go down, for guests and creator alike |
| Delivery.EventIsOwed | internal/server/playback.go:383-389 | A published event is owed to every member, update_track only to those who know it; anything else to nobody |
| Delivery.SnapshotIsOwed | internal/server/playback.go:459-493 | Whoever joins or asks for a sync is owed one snapshot that gives the room's present state whatever they had before; nobody else is owed anything |
| Delivery.NudgesAreOwed | internal/server/playback.go:397-457 | Whoever has buffered is owed two messages, each of which puts a listener with the right track on the timeline |
| Delivery.OwedIsPaid | internal/server/client.go:445-505 | To an open connection with room, the first owed message is queued next; a connection is closed exactly if it is closed from outside or has no room |
| Delivery.StepKeeps | internal/server/playback.go:414-492 | Creating, joining, acting, syncing, buffering, pinging, queueing, closing and leaving keep the delivery invariant |
| Canaries.CanaryFallsBehind | internal/server/server.go:495-508 | In every reachable state, queueing a ping's snapshot makes the revisions on that connection drop if and only if something newer was queued to it since the snapshot was taken |
| Canaries.RevisionsRiseIffPrompt | internal/server/server.go:495-508 | Over every run: all revisions queued to a connection, ping snapshots included, never go down if and only if each ping snapshot was queued before anything newer |
| Canaries.CanariesDoFallBehind | internal/server/server.go:495-508 | In every room there is a run in which the revisions a member receives drop |
| Canaries.LogIsQueueWithoutCanaries | internal/server/client.go:430-444 | What a member was sent under syncMu during its stay is its queue since then without the ping snapshots |
| Streams.EveryStreamRebuilds | internal/server/server.go:495-508 | Over every interleaving in which a connection's ping snapshots are queued before anything newer, folding any part of everything it received in a stay, ping snapshots included, rebuilds the state the last message was made from |
| Streams.StreamsAreCurrent | internal/server/client.go:445-475 | Then an open member to whom nothing is being sent, and who has a copy, has the present state |
| Wire.ReceivedIsPrefix | internal/server/client.go:445-475 | Over every run of room, other senders and writer, the bytes the writer has taken are the encodings of the first messages accepted, in order and without omission, and the room's own among them are a prefix of what the room queued |
| Wire.ReceivedRebuilds | internal/server/client.go:259-284 | So a guest, in any stay, whose ping snapshots were in time rebuilds the room from whatever the writer has taken, whatever came before the stay |
| Replica.SnapshotAgrees | internal/server/validation.go:143-151 | A snapshot agrees with the server at every later time |
| Replica.BroadcastAgrees | internal/server/playback.go:184-377 | Every published action and approved suggestion keeps listener and server in agreement |
| Replica.SilenceAgrees | internal/server/playback.go:174-352 | A refused or ignored request changes nothing a listener follows |
| Replica.NudgeAgrees | internal/server/playback.go:430-454 | The replies to buffer_ready keep agreement |
| Outbox.NoGaps | internal/server/client.go:445-475 | Over every run the writer has taken a prefix of what was sent, in order; all of it is taken or waiting while the connection is open; the backlog stays within 256 messages and 8 MiB |
| Outbox.ClosesOnlyWhenFull | internal/server/client.go:445-475 | Over every run a connection ends up closed exactly if it was closed from outside or some message, when it was sent, did not fit into 256 messages and 8 MiB |
| Outbox.Queue.SendEncoded | internal/server/client.go:445-475 | In place: queued if it fits, otherwise the connection closes; nothing is accepted once closed |
| Outbox.Queue.CloseSend | internal/server/client.go:189-200 | Closing stops acceptance and keeps what is queued |
| Outbox.Queue.Write | internal/server/client.go:259-284 | The writer takes the oldest message and deducts exactly its bytes |
| Playback.CompensateExact | internal/server/playback.go:58-78 | The clamped int64 compensation equals position plus time in transit for every input |
| Playback.LiveExact | internal/server/validation.go:121-141 | For every int64 state the projection equals the timeline if and only if the sum does not overflow |
| Playback.RebaseComposes | internal/server/validation.go:143-151 | Re-basing at t0 and projecting to t1 equals projecting to t1, except for a playing state without an anchor |
| Playback.LiveInRange | internal/server/validation.go:121-141 | Within the playback bounds the projection is exact and within 0 and 24 hours; `Safety.PlaybackInRange` shows that every reachable state is within them |
| Playback.ApplyKeepsInv | internal/server/playback.go:163-389 | Each action, and each approval of a stored track, keeps position, queue, volume and track in bounds |
| Playback.ApplyCounts | internal/server/playback.go:354-377 | The revision goes up by one exactly when an event is published, the message carries it, and the track revision never exceeds it |
| Playback.RejectedEffect | internal/server/playback.go:250-257 | A refused request changes at most the recorded sequence number and, for an oversized replacement queue, the title |
| Playback.ChangeTrackConsumes | internal/server/playback.go:238-268 | Starting a queued track drops the queue through its first occurrence and nothing more, stops playback at zero and sets the track revision |
| Playback.RemoveUndoesAdd | internal/server/playback.go:275-321 | An added track is in the queue once, first or last as asked, and removing it restores the queue |
| Actions.TransportLands | internal/server/playback.go:185-235 | Of every play, pause and seek: exactly when it is refused and why; when applied, the play flag, that the position is the requested one plus the time in transit if the room then plays and the requested one if it stands still, both capped at a day, the time stamp, the announced position and track, and that nothing else changes |
| Actions.RoomFollowsHost | internal/server/playback.go:62-78 | If the host stood at a position at the captured server time, then from the moment the request is handled the room's timeline is the host's at every later time, however long the request took within 30 seconds |
| Actions.PauseStands | internal/server/playback.go:205-218 | A paused room stands where the host paused it, at every later time |
| Actions.ChangeLoads | internal/server/playback.go:237-267 | Of every track change: exactly when it is refused and why, the cleaned track loaded at its start and not playing, its revision, the queue sent along or what was queued behind the track, the title, and the announcement |
| Actions.UpdateCorrects | internal/server/playback.go:336-351 | A correction of the current track replaces its details and nothing else, and announces the live position; any other track is stale |
| Actions.AddQueues | internal/server/playback.go:274-307 | Of every queue_add: exactly when it is refused and why; otherwise the cleaned track is first or last as asked |
| Actions.RemoveTakesOut | internal/server/playback.go:309-321 | queue_remove takes out every entry with the ID and keeps all others in order |
| Actions.ClearEmpties | internal/server/playback.go:323-324 | queue_clear leaves an empty queue and the title |
| Actions.SyncReplaces | internal/server/playback.go:326-334 | sync_queue leaves exactly the first 1000 usable entries sent, in order and cleaned, under the title sent, unless they are too large |
| Actions.VolumeIsSet | internal/server/playback.go:353-360 | The volume asked for is set exactly if it is a finite number from 0 to 1 |
| Actions.SkipsWait | internal/server/playback.go:269-272 | Skips change nothing but the remembered sequence number |
| Actions.AnnouncesItself | internal/server/playback.go:366-382 | Whatever is applied is announced with the action, the new revision, the title, the time and, for queue actions, the new queue |
| Actions.SuggestionQueues | internal/server/rooms.go:149-187 | An approved suggestion is put first, unless queue, size or a duplicate forbid it, with which error, and announced with the new queue and revision |
| PlaybackObject.Player.HandleAction | internal/server/playback.go:138-395 | The handler that changes the fields one by one and returns early on every refusal does what Playback.Handle says; what that is, action by action, is stated by the rows of Actions |
| PlaybackObject.WithFeature | internal/server/playback.go:495-503 | The in-place filter leaves exactly the capable connections, in order, at the front |
| Tracks.CleanTrackStores | internal/server/validation.go:70-96 | A cleaned track satisfies every bound and keeps its ID |
| Tracks.CleanTrackFields | internal/server/validation.go:70-96 | Field by field: each text is its own field cleaned to its own limit, an empty title becomes the ID, the duration is kept between 0 and a day; only an unusable ID is refused |
| Tracks.RecleanShrinks | internal/server/validation.go:70-96 | Cleaning a stored track again never grows it and never loses its title |
| Tracks.QueueWireSize | internal/server/playback.go:95-102 | The loop computes the wire estimate |
| Tracks.SanitizeQueue | internal/server/playback.go:80-93 | The loop keeps the first 1000 usable entries, cleaned |
| Tracks.CleanQueueIds | internal/server/playback.go:80-93 | Exactly the unusable entries are dropped, order is kept, and the limit cuts the rest |
| Tracks.CleanQueueEntries | internal/server/playback.go:80-92 | The cleaned queue is, entry by entry, the cleaned form of the first usable entries in order, as many as the limit allows |
| Tracks.RecleanQueue | internal/server/persistence.go:467-467 | Re-cleaning a stored queue keeps every ID in order and does not grow it |
| Tracks.ContainsTrackID | internal/server/playback.go:104-111 | The search finds the ID exactly if it is there |
| Tracks.AdvanceQueue | internal/server/playback.go:115-122 | The search returns the queue after the first occurrence, or all of it |
| Tracks.AdvanceShrinks | internal/server/playback.go:115-122 | Advancing never grows the queue, and shrinks it when the track is found |
| Tracks.RemoveTrack | internal/server/playback.go:309-321 | The loop removes exactly the entries with the ID |
| Tracks.WithoutShrinks | internal/server/playback.go:309-321 | Removal keeps exactly the other entries |
| Text.SanitizeString | internal/server/validation.go:22-54 | The cut-search loop equals the specification |
| Text.SanitizeOutput | internal/server/validation.go:22-54 | For every input and limit of at least 4 the result is valid UTF-8 within the limit without forbidden control characters, and the cut is the longest valid prefix that fits |
| Text.MappedFilters | internal/server/validation.go:23-29 | From well-formed text the mapping drops exactly the forbidden control bytes |
| Text.MappedReplaces | internal/server/validation.go:23-29 | A byte that starts no character becomes U+FFFD wherever it stands, and the text around it is mapped as on its own |
| Text.TrimSplits | internal/server/validation.go:31-32 | Trimming removes whitespace only, from both ends, and leaves none there |
| Text.BoundaryNear | internal/server/validation.go:41-48 | A character boundary lies within the last 3 bytes (sections 3 and 4 of RFC 3629) |
| Text.ResanitizeShrinks | internal/server/validation.go:22-54 | Sanitizing a sanitized string never grows it |
| Text.ResanitizeIdentity | internal/server/validation.go:22-54 | Sanitizing again changes nothing if and only if the trimmed text fits the limit or the cut does not follow a space |
| Text.SanitizeNotIdempotent | internal/server/validation.go:32-50 | A family of inputs on which sanitizing twice differs from sanitizing once |
| Records.RecordUnique | internal/server/persistence.go:114-179 | Equal states have equal records, whatever the order of map iteration |
| Records.ListingUnique | internal/server/persistence.go:150-164 | Sorting by distinct keys leaves only one possible list |
| Records.Sort | internal/server/persistence.go:150-150 | The sorted list holds exactly the given elements in key order |
| Records.PersistRoom | internal/server/persistence.go:114-179 | The loops build the record - members, seats, tokens in order, suggestions in order - and give every client without a token a new one |
| Snapshots.SnapshotRooms | internal/server/persistence.go:78-112 | The loops record every registered room with the tokens stored under its code |
| Snapshots.SnapshotUnique | internal/server/persistence.go:78-112 | Two snapshots of one state are equal |
| Snapshots.SoundIsWhole | internal/server/persistence.go:132-148 | In every sound state each room can be recorded: members carry distinct tokens |
| Flusher.DiffIsOverwrite | internal/server/persistence.go:204-215 | The differential write equals a full overwrite if and only if no new record is empty |
| Flusher.NothingToWrite | internal/server/persistence.go:204-219 | There is nothing to write exactly when nothing changed |
| Flusher.Writer.Flush | internal/server/persistence.go:192-257 | `persisted` equals the bucket before and after; a flush that does not fail leaves exactly the snapshot stored; a failed transaction changes nothing; exactly when a flush is skipped |
| Flusher.Writer.Load | internal/server/persistence.go:432-439 | After loading, what was read counts as written |
| Grace.RestartedSeat | internal/server/persistence.go:456-515 | After a restart exactly the members with a token have a seat; it bears the name the member went by, the room's code and the member's role; a seat that was reserved is as old as at the last flush, and a member who was connected then has only just gone |
| Grace.RestartedRoom | internal/server/persistence.go:463-525 | What a restart makes of every registered room: same code, host, owner and suggestions, nobody connected, no applications or notices, the list of those who come back, and the playback restored from the record |
| Grace.RestartedStamp | internal/server/persistence.go:517-525 | The moment the host left moves along in the same way; a host who was connected counts from their seat |
| Grace.SeatAgeIsUptime | internal/server/persistence.go:378-443 | Through any number of lives of the server a seat that stays reserved keeps user, name, room and role, and ages by the time the server was up, from each start to the last flush, and by nothing else |
| Grace.GraceIsUptime | internal/server/lifecycle.go:30-46 | At any time of any later life cleanup takes the seat's token if and only if the server was up for longer than 15 minutes since the disconnect, and until then a reconnect may claim it under the other conditions |
| Grace.OutageIsFree | internal/server/persistence.go:456-461 | A seat's age at the restart is its age at the flush, less at most the millisecond lost in storing the flush time |
| Grace.ConnectedStartAfresh | internal/server/persistence.go:456-461 | Whoever was connected at the last flush has the whole grace period from the restart on, under the name of their connection |
| Grace.StampAgeIsUptime | internal/server/persistence.go:517-525 | Through any number of lives, while the host stays away, so does how long the host has been away |
| Grace.FailoverIsUptime | internal/server/hosts.go:158-185 | At any time of any later life a failover is due if and only if the server was up for at least 30 seconds since the host left |
| Grace.RestartForgetsNotices | internal/server/persistence.go:114-179 | A restart forgets every stored notice |
| Restart.RestoreMembers | internal/server/persistence.go:497-515 | The members loop restores exactly the seats with tokens and drops the others from the list, in any order |
| Restart.RestoreRoom | internal/server/persistence.go:445-539 | The whole restore equals the specification |
| RestartSafety.PlaySurvives | internal/server/persistence.go:463-476 | Track, queue IDs in order, revisions and the canary's input survive, within every bound; a track plays on if and only if it played and has not ended, at the position it would have; one that ended is parked at its end; a paused position is kept |
| RestartSafety.CanaryTells | internal/server/server.go:518-529 | Two playback states within bounds give the canary the same bytes if and only if they have the same current track and the same queued tracks in the same order |
| RestartSafety.ListAfterAt | internal/server/persistence.go:497-515 | Whoever comes back keeps place, name and role in the user list and is marked disconnected; everybody else is left out |
| RestartSafety.MembersSurvive | internal/server/persistence.go:478-525 | Exactly the members with a token come back, all as reserved seats; same host, owner and suggestions; the list names exactly those who came back |
| RestartSafety.RoomSurvives | internal/server/persistence.go:445-539 | The restored room satisfies the room invariant if and only if the host, the waiting owner and every author of an open suggestion come back |
| Reboot.LoadRooms | internal/server/persistence.go:411-417 | The load loop restores every record and exactly their tokens |
| Reboot.SnapshotReturns | internal/server/persistence.go:527-538 | Loading a snapshot brings back exactly the tokens members bore, for the same members |
| Reboot.BearersApart | internal/server/persistence.go:127-148 | No two members share a token and no member has two |
| Reboot.RestartIsSound | internal/server/persistence.go:378-443 | From the snapshot of a recoverable sound state the restored server satisfies the whole invariant |
| Reboot.RestartSoundIff | internal/server/persistence.go:378-443 | The restored server satisfies the whole invariant if and only if, in the state the snapshot was taken of, every reserved seat without a token leaves somebody else to come back and is not host, owner or author of an open suggestion |
| Reboot.RestartsKeep | internal/server/persistence.go:378-443 | The whole invariant holds after any number of lives and any run since |
| Reboot.LivesSoundIff | internal/server/persistence.go:378-443 | Over any number of lives, each starts sound if and only if each was recoverable at its last snapshot |
| RestartSafety.HostSurvives | internal/server/persistence.go:501-515 | The host seat invariant survives a restart if and only if host and owner have tokens, or nobody comes back |
| RateLimit.IntervalBound | internal/server/client.go:202-218 | No interval of one window length lets twice the limit through |
| RateLimit.BoundIsTight | internal/server/client.go:202-218 | One less is reached |
| RateLimit.OneNoticePerWindow | internal/server/client.go:222-230 | A later notice belongs to a window that opened at least a whole length later |
| RateLimit.FirstRefusalIsNoticed | internal/server/client.go:222-230 | Of any messages refused in a row exactly the first is answered with a notice, unless one was already sent |
| RateLimit.PurgeIsInvisible | internal/server/server.go:289-307 | Purging stale windows never changes a decision |
| RateLimit.OwnWindow | internal/server/server.go:289-307 | Each source is limited by its own fixed window, undisturbed by others |
| RateLimit.CreationsBounded | internal/server/server.go:289-307 | Fewer than 20 room creations per source pass the purging limiter in any minute |
| RateLimit.Limiter.Admit | internal/server/client.go:384-389 | The in-place limiter equals the specification for every message |
| RateLimit.Sources.AllowRoomCreate | internal/server/server.go:289-307 | The in-place limiter with its purge loop equals the specification |
| Locks.CodeOf | internal/server/hosts.go:9-9 | Every handler takes its locks in strictly increasing rank |
| Locks.CodeIsOrderly | internal/server/hosts.go:9-9 | Ranked code never takes a lock below or equal to one it holds, and ends holding none |
| Locks.NoWaitCycle | internal/server/lifecycle.go:396-455 | No group of handlers waits in a circle |
| Locks.NeverDeadlocks | internal/server/hosts.go:122-149 | Over every schedule of any handlers no group waits in a circle, and unless all are finished one can go on |
| Locks.OneAtATime | internal/server/server.go:49-50 | Over every schedule no lock is held by two handlers at once |
| Locks.MessagesUnderSync | internal/server/server.go:49-49 | Every handler that changes members, host or playback and tells the room, or answers a sync or buffer request, queues its messages only while it holds the room's syncMu, so two of them never mix their messages to one room |
| Locks.SectionsHold | internal/server/lifecycle.go:396-455 | Every handler holds together the locks of the critical section that its step in the server model stands for: server and room lock under syncMu where members and tokens change, room lock under syncMu where the seat or playback changes, server and room lock for applications and deletions, the room lock for the rest |

## Left out

- WebSocket frames, deadlines, pongs, the HTTP endpoints, signal handling and graceful shutdown: only queues and their accounting are modelled.
- Protobuf, gzip and JSON encoding, logging, and the numeric values of CRC-32 and FNV.
- User-Agent policy beyond who may host; listeners of a rewritten tier are not in the delivery theorems.
- The connection counters per source, `allowSyncResponse`, and the drift measurement of pings: simple counters.
- Legacy snapshots and file migration.
- Messages other than playback, the host's work and suggestion outcomes (user_joined, user_left, host_changed and the like).
- Volume is a real number and is not part of what a listener rebuilds; the queue title is not either, since an approved suggestion is broadcast without it.
- When empty rooms are deleted: deletion may come at any time an empty room is registered, so the timers and retention windows are not modelled.
- Room creation in the server model has no rate limit, which `RateLimit` treats on its own, and its checks and its registration are one step.
- Connections, rooms and the token table of the whole server are values in `Lobby`; `RoomObject` and `SessionTable` are the objects with update in place, one at a time, without aliasing between them.
- Flusher.Writer.Flush: assumes that no encoded record is empty, which holds of JSON objects; `Flusher.DiffIsOverwrite` gives the exact condition.
- Runs.RunKeeps: an exact condition for single steps and runs is `Properness.SoundIffProper`; theorems over reachable states speak of runs of proper steps.
- The clock of playback positions does not go back, neither within a life of the server nor across a restart.
- Contents.LivesCount: revisions are followed for fewer than 2^64 steps, after which the counter wraps.
- Wire.ReceivedRebuilds: asks that the ping snapshots were in time; after a late one the listener shows an older state until the next message about the same thing, and `Canaries.RevisionsRiseIffPrompt` says when that happens.
- Safety.GoneForGood: holds within one life of the server; a token taken away after the last flush is stored again if the server then stops without another flush.
- Safety.OutcomesReachAuthors: a stored notice waits with its seat (`Seats.SeatStays`), but no notice outlives a restart (`Grace.RestartForgetsNotices`).
- Delivery.EveryPrefixRebuilds: an approved suggestion's track is stored-clean, which `Safety.SuggestionsAreStored` proves of the server; listeners without the update_track feature only have the order of revisions.
- Locks.CodeOf: read locks are exclusive here, and the database's own locks are not modelled.
- Rooms.PickDeputy: the connections' closed flags and round trips are one consistent reading, where the code reads them one after the other.
- A suggestion always has a track; the code also allows for none, which its own handler never stores.
