# Rekreativko: verified behaviour of the activity, outbox, rate limiting and profile code

This project models the parts of the Rekreativko API where several functions, transactions or
processes have to agree, and proves what they promise. Each module opens with the source files it
models.

- **Attendance.** RSVPs, approvals, removals, cancellations and invites of one session share a lock,
  a capacity and a waitlist. `Attendees` has the attendee object, `SessionWorld` every command as a
  function on the session's tables, `SessionStore` and the service modules the methods that load,
  change and write rows, are proved to do those functions and keep the tables valid.
  `SessionInvariants` and `SessionWaitlist` hold the results over every serial run;
  `AttendanceRegister`, `Arrivals` and `AttendanceLog` say what the table shows without naming the
  code: by a register of people, by the order in which they came, by the outbox. `Interleavings`
  splits the transactions into lock, reads, decision and commit with rejections in between
  (`StaleReads`: what these make of what was read; `FormationCommits`: drafts, votes and teams as
  a plan and its writes), `SerialOrder` and `StaleFormations` say when what they commit is a serial
  run, and `LateRejections` what rejecting without the lock does to the waitlist.
- **Team formation.** `Drafts` and `Voting` hold the captain draft and the proposal vote,
  `TeamFormation` the code that keeps them, the teams and attendance together, `SessionTeams` where
  everyone ends up, `SessionLog` what the outbox says about it, `Sturdiness` the part that does not
  depend on who is going, `LateRosters` and `LateLog` what of it survives every interleaving and
  which steps break the rest. `Ballots` and `DraftBoards` tell a vote and a draft from the commands
  accepted, `SessionHistory` settings and hand-made teams, on top of `StepEffects`, what each command
  leaves alone.
- **Session lifecycle.** `SessionService` has the commands and sweeps; `LifecycleRaces` runs
  whole-row writers concurrently and shows why the lock comes before the read.
- **Recurrence and session generation.** `Calendar`, `Recurrence`, `Occurrences`,
  `Phases`, `SessionGenerator`: civil dates with Go's normalisation, the bounded month search, what
  "every n" visits, the resumable watermark loop.
- **Transactional outbox.** `OutboxTable` (rows, publisher, purger), `OutboxProtocol` (concurrent
  publishers with rollback), `OutboxFairness` (how long a poison event can delay others) and
  `OutboxRetention` (how long settled rows are kept, by whose clock).
- **Token bucket.** `RateLimit`, with integer nanoseconds and real tokens.
- **Profile and account clean-up.** `ActivityInterests` and `AccountCleanup`.

Verify with `dafny verify dfyconfig.toml`.

## Results where the code does less than its comments say

- The per-step capacity bound `confirmed' <= max(confirmed, capacity)` holds for every serial
  command. With `RejectAttendee` outside the lock it fails exactly as `CommitOvershootsIff` says:
  `TheOvershootHappens` hands the spot on, `AssignmentOvershoots` writes it back with a team. The
  bound against the count at lock time, and the capacity itself while it is not lowered, hold under
  every interleaving.
- A rejection that commits late overwrites an approval and can leave a spot empty while someone
  waits (`RejectKeepsJustifiedIff`, `LateRejectStrandsTheWaitlist`); and a commit that counted
  before it can put someone in line beside an empty spot (`CommitKeepsJustifiedIff`,
  `StaleCountStrandsTheWaitlist`).
- A request can be decided twice: an approval that read it before a rejection commits over that
  rejection (`CommitIsSerialIff`, `RequestDecidedTwice`). A team taken from it by hand undoes the
  rejection without deciding anything (`UnassignRevivesARequest`).
- A late rejection of someone on a draft's or proposal's roster leaves them on it
  (`RejectKeepsInvIff`, `LateRejectLosesACaptain`), and a draft, proposal or vote that read who is
  going before a rejection stores whom it rejected (`FormationCommitKeepsInvIff`,
  `DraftStoresSomeoneRejected`), so replacing the teams does meet a member who is not going. No
  other step leads there (`StepKeepsInvIff`), and no serial run does.
- A late rejection takes a team away without an event (`StepKeepsLogTrueIff`,
  `LateRejectLeavesTheLogUntrue`).
- Spots a raised capacity adds are never handed to those waiting (`LineMovesByDepartures`), and
  newcomers go past them (`PassesTheLineIff`, `RaiseLetsNewcomersPassIff`).
- `AttendeeLeft` of drafts and rounds has no caller, so drafts never pause and a captain can never
  be replaced (`NoCaptainIsEverReplaced`).
- `published_at` is `NOW()`, which in a transaction is when it began, so a batch that takes long
  shortens the retention of its rows by as much (`KeptSinceOffered`, `SlowBatchCutsRetentionShort`).
- `activity/internal/domain/attendee.go` line 508 says an answer can change from not going to going;
  the code refuses it, and so does the model (`LastAnswerStands`).
- A sweep of idle buckets is invisible only for rates that divide the fill time
  (`SweepingInvisibleIff`), and only for those the burst and what flows in bound what a window lets
  through (`PlainlyBoundedIff`).
- A failed watermark write makes the next run create sessions twice (`FailedWatermarkDuplicates`),
  and a failed session is never retried (`FailedIsNeverRetried`).
- Retry-After can be short by less than a nanosecond's flow (`RetryAfterServesIff`).
- With a read limit of 0 the backlog loop ends only with its context (`PublishSchemaBacklog`).
- `activity/README.md` line 170 says a monthly search multiplies the interval; the code adds it
  each time, and the model follows the code.
- `activity/README.md` line 128 says completing a session takes a group manager; the code also lets
  the session's creator (`activity/internal/domain/session.go` line 823), and so does the model.

## Model

| member | source | states |
|---|---|---|
| `AttendanceRegister.StepKeepsRegister` | activity/internal/application/attendee_service.go:98-897 | every attendance command is accepted exactly when a register of people - a map from each to status, way in and instant, without table or positions - accepts it, and leaves a table whose register is the one that follows: the answer as given, pending for lack of a spot, the spot given up to the first in line; no other command changes the register |
| `AttendanceRegister.LastAnswerStands` | activity/internal/domain/attendee.go:262-318 | over every run an accepted answer is what the table shows until another command about the person or a promotion - not going and maybe as given, going or pending by whether there is a spot - and it is refused exactly to who said no or waits and asks to go |
| `Arrivals.TableIsArrivals` | activity/internal/domain/attendee.go:150-260 | over every run the table is the list of those who came, in the order of their commands, each row with its own command's user, way in and instant, and nothing moves, renames or redates a row |
| `Arrivals.FirstComeFirstServed` | activity/internal/infrastructure/persistence/attendee_repo.go:381-405 | over every run whose instants never decrease whoever in line gets a spot came first by position: anyone before them who is passed over came at the very same instant |
| `AttendanceLog.RunTellsWhoGoes` | activity/internal/domain/attendee.go:112-382 | over every run the last event about anybody on the list is their status, so the outbox alone tells who is going, waiting or not |
| `AttendanceLog.NewSessionTellsWhoGoes` | activity/internal/domain/session.go:930-962 | the same of a new session |
| `Interleavings.NoInterleavingOverbooks` | activity/internal/application/attendee_service.go:68-95 | every interleaving of the session's transactions, with rejections running without the lock, keeps a session of unchanged capacity within it and every user at one live row |
| `Interleavings.CommitWithinStartOrCapacity` | activity/internal/application/attendee_service.go:192-236 | a commit leaves at most as many going as when its lock was taken, or the capacity, whatever was rejected meanwhile and even if the capacity was lowered before |
| `Interleavings.CommitOvershootsIff` | activity/internal/application/attendee_service.go:562-586 | measured against the count just before a commit the bound fails exactly when a rejection took the spot the commit hands on or writes back - an answer, a removal, a team given or taken - and the session is at or over its capacity, or when a draft or vote puts rejected people back on their teams, more than there are spots |
| `Interleavings.StepKeepsSystemInv` | activity/internal/application/attendee_service.go:76-95 | every step of every transaction keeps: one live row per user, what the lock holder read - one row or all of them - is at most outdated by rejections, the count it read is never too low |
| `Interleavings.TraceKeepsSystemInv` | activity/internal/application/attendee_service.go:76-95 | the same over every interleaving |
| `Interleavings.NewSessionStarts` | activity/internal/domain/session.go:242-286 | all of that holds of a new session before any transaction |
| `SerialOrder.CommitIsSerialIff` | activity/internal/application/attendee_service.go:76-95 | a commit of any command is what the command does serially exactly when it would decide the same on the tables as committed by then: who asks to go needs the session as full as counted; a row rejected since matters except to a pending request saying maybe and to a cancellation with no spot to hand on; a reset names those going by then; drafts, votes and teams as the next row says |
| `StaleFormations.FormedIsSerialIff` | activity/internal/application/team_draft_service.go:110-129 | a draft, vote or teams command on attendees read before a rejection commits the serial result exactly when the captains, the player or the voter it names still go, a draft that goes on has someone left and as many as it needs, a division accepted or refused still is, a reset names the same people, and nobody rejected since is moved off or onto a team |
| `FormationCommits.PlanIsOutcome` | activity/internal/application/team_formation.go:93-181 | reading who is going, planning and carrying the plan out with nothing in between is the serial draft, vote or teams command |
| `SerialOrder.RejectIsSerialIff` | activity/internal/application/attendee_service.go:391-416 | the unlocked rejection is the serial command exactly when its request is still undecided as it commits |
| `SerialOrder.InterleavingIsSerial` | activity/internal/application/attendee_service.go:76-95 | on any session, an interleaving of all its transactions whose commits and rejections each meet those conditions commits what a serial run of its commands does |
| `SerialOrder.TimelyRejectionsAreSerial` | activity/internal/application/attendee_service.go:391-416 | so does every interleaving in which each committed rejection finds its request undecided and not yet read, to act on that row, by the lock's holder |
| `SerialOrder.WithoutApprovalIsSerial` | activity/internal/application/attendee_service.go:76-83 | and every interleaving at all on a session without approval or requests |
| `Interleavings.StepKeepsShape` | activity/internal/application/team_formation.go:20-25 | no step of any interleaving spoils the shape of draft and voting rows that the team commands rely on |
| `LateRejections.CommitKeepsJustifiedIff` | activity/internal/application/attendee_service.go:192-236 | a commit keeps the waitlist work-conserving exactly unless it puts someone in line by a count that a rejection has made stale; a team given, taken or formed never spoils it |
| `LateRejections.StepKeepsJustifiedIff` | activity/internal/application/attendee_service.go:391-416 | of all steps of all transactions only a late rejection and such a commit can strand those waiting, and each does exactly under its condition |
| `LateRejections.InterleavingKeepsJustified` | activity/internal/application/attendee_service.go:780-791 | an interleaving free of both, at a fixed capacity, keeps the waitlist work-conserving |
| `LateRejections.StaleCountStrandsTheWaitlist` | activity/internal/application/attendee_service.go:192-236 | a concrete interleaving in which nobody waits when the late rejection commits and the commit on the stale count strands someone |
| `LateRejections.RequestDecidedTwice` | activity/internal/application/attendee_service.go:302-347 | a concrete interleaving in which a rejection and an approval of one request both commit, the approval on what it read before |
| `LateRejections.RejectKeepsJustifiedIff` | activity/internal/application/attendee_service.go:391-416 | a rejection keeps the waitlist work-conserving exactly when its row held no spot, or nobody waits, or the session stays full |
| `LateRejections.LateRejectStrandsTheWaitlist` | activity/internal/application/attendee_service.go:391-416 | a concrete interleaving from a sound session in which a late rejection empties a spot while someone waits, which no serial order does |
| `LateRejections.TheOvershootHappens` | activity/internal/application/attendee_service.go:391-416 | a concrete interleaving from a sound session in which a commit takes one more person over the lowered capacity |
| `LateRejections.AssignmentOvershoots` | activity/internal/application/attendee_service.go:562-586 | another in which putting an attendee on a team writes back the spot a rejection took, over the lowered capacity |
| `LateRejections.UnassignRevivesARequest` | activity/internal/application/attendee_service.go:643-667 | one in which taking a request off no team overwrites its timely rejection: it awaits a decision again though it has been rejected, which serially it does not |
| `SessionWaitlist.CapacityIsKept` | activity/internal/application/attendee_service.go:192-236 | no command leaves more people going than there were or than the capacity, whichever is larger |
| `SessionWaitlist.WaitlistStaysJustified` | activity/internal/application/attendee_service.go:780-791 | whatever leaves the capacity alone keeps: people wait only while there is no spot |
| `SessionWaitlist.FreedSpotIsHandedOn` | activity/internal/application/attendee_service.go:780-791 | a freed spot goes to whoever waits and then the number going is what it was, the promoted attendee put back in line on a full session included |
| `SessionWaitlist.WaitingMeansExactlyFull` | activity/internal/application/attendee_service.go:780-791 | over every run without a capacity change a waiting attendee means exactly capacity people are going |
| `SessionWaitlist.PassesTheLineIff` | activity/internal/application/attendee_service.go:192-236 | someone gets a spot past those still waiting exactly when they ask for one from outside the line, are let in, and a spot is free although people wait |
| `SessionWaitlist.NobodyPassesTheLine` | activity/internal/application/attendee_service.go:780-791 | over every serial run without a capacity change nobody ever does |
| `SessionWaitlist.RaiseLetsNewcomersPassIff` | activity/internal/application/session_service.go:636-686 | after an update the next invited user goes straight past those waiting exactly when the update left people waiting beside free spots |
| `SessionWaitlist.LineMovesByDepartures` | activity/internal/application/attendee_service.go:1119-1144 | over every serial run, raises included, at most as many of those in line get a spot as spots are given up |
| `SessionWaitlist.SpotsGoInOrder` | activity/internal/infrastructure/persistence/attendee_repo.go:381-405 | whoever waits gets a spot only by promotion and only if no other in line has the earlier instant; a join request only by a manager's approval (what the instant is: Arrivals.TableIsArrivals) |
| `SessionWaitlist.AutoRowsFill` | activity/internal/domain/session.go:930-962 | automatic attendees fill the spots in order up to the capacity, the rest wait |
| `SessionWaitlist.NewSessionIsSound` | activity/internal/domain/session.go:242-286 | a new session starts within capacity, with a justified waitlist and every invariant |
| `SessionInvariants.StepKeepsInv` | activity/internal/application/attendee_service.go:76-95 | every command keeps one live row per user, teams of people with a spot, and the draft and vote invariants |
| `SessionInvariants.RunKeepsInv` | activity/internal/application/attendee_service.go:76-95 | the same over every serial run |
| `SessionInvariants.LeavingKeepsInv` | activity/internal/application/attendee_service.go:1119-1144 | after anyone gives up a spot on a session that is not over there are no teams, no running draft and no open vote |
| `Attendees.Attendee.NewRSVPManual` | activity/internal/domain/attendee.go:150-209 | a new RSVP carries the instant it is made at and the answer given, but going onto a full session waits, with the event of what it became |
| `Attendees.Attendee.NewRequest` | activity/internal/domain/attendee.go:234-260 | a join request is pending whatever the capacity, from the instant it is made |
| `Attendees.Attendee.UpdateRSVP` | activity/internal/domain/attendee.go:262-318 | not going and maybe are stored as given, going as going or pending by the capacity; with the team release and events, or the refused transition with nothing changed |
| `Attendees.Attendee.Promote` | activity/internal/domain/attendee.go:320-331 | only a pending attendee is promoted |
| `Attendees.Attendee.Approve` | activity/internal/domain/attendee.go:333-354 | a manager turns an undecided request into going, anything else is refused |
| `Attendees.Attendee.Reject` | activity/internal/domain/attendee.go:483-499 | a manager turns an undecided request into not going, anything else is refused |
| `Attendees.Attendee.Remove` | activity/internal/domain/attendee.go:356-382 | a manager removes someone going, never the creator, and frees the team slot |
| `Attendees.Attendee.AssignToTeam` | activity/internal/domain/attendee.go:384-425 | a manager puts someone going on an existing team, with assigned, changed or no event |
| `Attendees.Attendee.UnassignFromTeam` | activity/internal/domain/attendee.go:427-445 | a manager takes someone off their team |
| `Attendees.Attendee.AssignToFormedTeam` | activity/internal/domain/attendee.go:447-456 | puts the attendee on the formed team with its event |
| `Attendees.Attendee.ReleaseTeam` | activity/internal/domain/attendee.go:465-481 | leaves the team with its event, or nothing without one |
| `AttendeeService.CreateRSVP` | activity/internal/application/attendee_service.go:130-260 | loads, decides and writes to the serial command's tables and error, which the register of AttendanceRegister.StepKeepsRegister settles, and keeps the tables valid, as do the module's other commands |
| `AttendeeService.UpdateRSVP` | activity/internal/application/attendee_service.go:723-802 | writes the changed answer, then promotes and resets when a spot is lost, to the serial command's tables, which the same register settles, and keeps them valid |
| `AttendeeService.PromoteNextPending` | activity/internal/application/attendee_service.go:1146-1187 | promotes whoever has waited longest among those not awaiting approval, or nobody |
| `AttendeeService.SpotFreed` | activity/internal/application/attendee_service.go:1119-1144 | after a freed spot: promotion, then the reset unless the session is over |
| `SessionStore.Database.ConfirmedAttendees` | activity/internal/application/team_formation.go:93-113 | loads exactly the attendees going and lists their ids |
| `SessionStore.Database.GetFirstPending` | activity/internal/infrastructure/persistence/attendee_repo.go:381-426 | finds a longest waiting row that is not a join request, or none |
| `SessionStore.Database.GetAttendee` | activity/internal/infrastructure/persistence/attendee_repo.go:181-224 | loads the user's live row, or nothing |
| `SessionStore.Database.UpdateAttendee` | activity/internal/infrastructure/persistence/attendee_repo.go:112-139 | writes status and team only |
| `SessionStore.Database.DeleteAttendee` | activity/internal/infrastructure/persistence/attendee_repo.go:364-379 | marks the row deleted and clears its team |
| `SessionStore.Database.ReplaceTeams` | activity/internal/infrastructure/persistence/session_repo.go:193-235 | clears every row's team and stores the new setup |
| `SessionStore.DoneKeepsValid` | activity/internal/application/attendee_service.go:76-95 | a service method that did its command took the serial step and kept the tables' invariant |
| `SessionStore.DepartedKeepsValid` | activity/internal/application/attendee_service.go:76-95 | the same for the commands that may free a spot |
| `SessionTeams.RostersHoldOnlyPeopleGoing` | activity/internal/application/team_formation.go:123-129 | in every state of a serial run everyone on a running draft's side or an open proposal's team is going, so the skipped member does not occur there |
| `LateRosters.RejectKeepsInvIff` | activity/internal/application/attendee_service.go:391-416 | the rejection's own commit keeps the session invariant exactly when its row holds no spot, or its user is no captain, not picked, not the last left to pick, in no open proposal and without a vote |
| `LateRosters.FormationCommitKeepsInvIff` | activity/internal/application/team_draft_service.go:110-129 | a draft, vote or teams commit keeps it exactly when everyone the running draft or open vote it leaves names - captains, picks, proposal members, voters - is still going and an unfinished draft has someone left to pick |
| `LateRosters.StepKeepsInvIff` | activity/internal/application/team_formation.go:123-129 | of all steps of all transactions only those two can leave someone on a roster who is not going, each exactly under its condition |
| `LateRosters.InterleavingKeepsInv` | activity/internal/application/team_formation.go:123-129 | an interleaving free of both keeps the session invariant |
| `LateRosters.LateRejectLosesACaptain` | activity/internal/application/team_formation.go:154-171 | a concrete interleaving in which the rejection comes last, after which a running draft's captain is not going, so the skipped member does occur |
| `LateRosters.DraftStoresSomeoneRejected` | activity/internal/application/team_draft_service.go:110-129 | one in which the draft comes last: it is stored with a captain rejected after the ids were read |
| `LateLog.RejectKeepsLogTrueIff` | activity/internal/application/attendee_service.go:391-416 | a late rejection keeps the outbox true of the stored teams exactly when its row is on no team |
| `LateLog.StepKeepsLogTrueIff` | activity/internal/infrastructure/persistence/attendee_repo.go:112-139 | of all steps of all transactions only the rejection of someone on a team makes the outbox untrue; no commit does, whatever was rejected since it read, and the outbox never loses an event |
| `LateLog.InterleavingKeepsLogTrue` | activity/internal/application/team_formation.go:173-180 | over every interleaving that rejects nobody while they are on a team the outbox replays to the stored teams, drafts, votes and endings, even where rosters have come to name people not going |
| `LateLog.LateRejectLeavesTheLogUntrue` | activity/internal/infrastructure/persistence/attendee_repo.go:112-139 | a concrete interleaving from a sound session after which the outbox has someone on a team they are not on |
| `LateRosters.TraceKeepsSturdy` | activity/internal/application/team_formation.go:285-363 | every interleaving, drafts, votes and teams on outdated reads included, keeps the rest of the invariant: one live row per user, teams of people with a spot, at most one draft or vote, never both, none on an ended session, each fitting the session's teams |
| `SessionTeams.CompletedDraftPlacesEveryone` | activity/internal/application/team_formation.go:183-200 | a completed draft stores everyone going, and nobody else, on the team of their side; the two differ by at most one player |
| `SessionTeams.WonVotePlacesTheProposal` | activity/internal/application/team_formation.go:202-227 | a won vote stores everyone the proposal names on that team, and nobody else on any; keep-current changes nothing |
| `SessionTeams.CaptainsAssignTheirSides` | activity/internal/application/team_formation.go:183-200 | after a draft every assignment announced is by the captain of that player's own side to that side's team |
| `SessionTeams.CloserAssigns` | activity/internal/application/team_formation.go:202-227 | after a vote every assignment announced is by whoever closed it |
| `SessionHistory.TeamsAreSetUp` | activity/internal/domain/session.go:485-527 | teams are set up by hand exactly for a manager of a live team-sport session with no draft running: as many as asked for, two by default, all new, with the minimum asked for and nobody on any |
| `SessionHistory.TeamIsAssigned` | activity/internal/domain/attendee.go:384-445 | an assignment by hand puts exactly that person on exactly that team, or takes them off theirs, and announces the change; when it is refused |
| `SessionHistory.ResetNamesEveryoneGoing` | activity/internal/domain/session.go:567-587 | the last event of a reset, by hand or by someone leaving, names everyone going once the freed spot is handed on |
| `SessionTeams.ReplacedTeamOf` | activity/internal/application/team_formation.go:154-171 | with disjoint rosters each member ends on exactly the team of their roster's position and everyone else unassigned |
| `TeamFormation.ReplaceTeams` | activity/internal/application/team_formation.go:130-181 | stored rows, loaded attendees and returned events agree on the new teams, for any rosters |
| `TeamFormation.AssignRosters` | activity/internal/application/team_formation.go:159-171 | the nested loops put each named attendee on the last roster naming them |
| `TeamFormation.CollectEvents` | activity/internal/application/team_formation.go:173-180 | the attendees' events in order, taken off them |
| `TeamFormation.ApplyCompletedDraft` | activity/internal/application/team_formation.go:183-200 | turns the two sides into the session's teams |
| `TeamFormation.ApplyWinningProposal` | activity/internal/application/team_formation.go:202-227 | turns the winning proposal into the session's teams |
| `TeamFormation.TeamsReplacedByHand` | activity/internal/application/team_formation.go:229-247 | cancels an open round, or nothing |
| `TeamFormation.SessionOver` | activity/internal/application/team_formation.go:249-283 | cancels a running draft and an open round of an ended session |
| `TeamFormation.ResetTeamFormation` | activity/internal/application/team_formation.go:285-363 | removes teams, drafts and rounds with the cancellations and the reset event, or does nothing |
| `SessionInvariants.ResetLeavesNothing` | activity/internal/application/team_formation.go:285-292 | a reset leaves no teams, no running draft, no open round and nobody on a team |
| `Sturdiness.NoCaptainIsEverReplaced` | activity/internal/application/team_draft_service.go:252-295 | on every interleaving naming a new captain is refused: no service ever pauses a draft |
| `SessionInvariants.EndKeepsInv` | activity/internal/application/team_formation.go:249-252 | ending a session leaves no running draft and no open round on it |
| `SessionLog.RunKeepsLogTrue` | activity/internal/application/team_formation.go:173-180 | over every serial run the outbox only grows; replaying its team events gives the stored teams, and endings, drafts and votes add up in it |
| `SessionLog.StepIsTold` | activity/internal/application/team_formation.go:173-180 | each serial command's own events say exactly how it moved teams, drafts, votes and the session, even if a roster names someone not going |
| `SessionLog.ReplacementTeams` | activity/internal/application/team_formation.go:130-181 | replaying the returned unassigned and assigned events over the old teams yields the new ones |
| `SessionLog.NewSessionLogTrue` | activity/internal/domain/session.go:242-286 | a new session's outbox is true of it |
| `SessionLog.EndedForGood` | activity/internal/domain/session.go:748-856 | an ended session keeps the status it ended with under every command |
| `Drafts.CompletedDraftSplitsEveryone` | activity/internal/domain/team_draft.go:495-508 | everyone going is on exactly one side, sizes within one, for snake and alternating order |
| `Drafts.PicksAreBalanced` | activity/internal/domain/team_draft.go:32-40 | after any number of turns the sides differ by the pick order's lead, at most one |
| `Drafts.PickKeepsFair` | activity/internal/domain/team_draft.go:247-280 | a pick keeps sides disjoint, going and in turn, and completes the draft exactly when nobody is left |
| `Drafts.NewDraftIsFair` | activity/internal/domain/team_draft.go:146-208 | a started draft has two captains going and is complete at once exactly when nobody else is |
| `DraftBoards.DraftsFollowTheBoard` | activity/internal/domain/team_draft.go:247-280 | over every run the running draft has the captains, order and minimum it was started with and exactly the picks accepted since, each for the side whose turn it was |
| `DraftBoards.LastPickFormsTheTeams` | activity/internal/application/team_formation.go:183-200 | the draft goes on exactly while someone going is on neither side; the pick, or the start, that leaves nobody makes those sides the two teams and puts nobody else on one |
| `DraftBoards.StartingIsDrawn` | activity/internal/domain/team_draft.go:146-208 | a draft starts exactly for a manager of a live team-sport session with two different captains going and players enough, as asked for |
| `DraftBoards.PickIsDrawn` | activity/internal/domain/team_draft.go:247-280 | a pick stands exactly when the captain whose turn it is names someone going whom no side has |
| `Drafts.FairAsPeopleJoin` | activity/internal/domain/team_draft.go:479-493 | people joining cannot spoil a draft |
| `Drafts.RostersAreGoing` | activity/internal/domain/team_draft.go:495-508 | nobody on a side is not going |
| `Voting.ValidateDivision` | activity/internal/domain/team_voting.go:363-401 | finds the first fault in reading order, and none exactly when everyone going is on one big enough team |
| `Voting.AcceptedIffDivides` | activity/internal/domain/team_voting.go:363-401 | a division is accepted exactly when it puts everyone going on one team |
| `Voting.MostVotedOptions` | activity/internal/domain/team_voting.go:635-660 | exactly the options no other beats, in order |
| `Voting.ClosingPicksAMaximum` | activity/internal/domain/team_voting.go:495-559 | a close settles on an option with the most votes, asks for a winner exactly on a tie, and takes only a tied one |
| `Voting.ProposeKeepsSound` | activity/internal/domain/team_voting.go:273-313 | a further proposal keeps every proposal a division of people going |
| `Ballots.RoundsHoldThePoll` | activity/internal/domain/team_voting.go:273-493 | over every run an open vote holds exactly the proposals put forward since it opened and not withdrawn, no two the same division, and exactly everyone's last choice not taken back or withdrawn since |
| `Ballots.VoteFormsTheTeams` | activity/internal/domain/team_voting.go:495-559 | a close goes through exactly for a manager when one option leads alone by those last choices or the given winner is among the leaders; that option wins, keeping the teams or becoming them |
| `Ballots.VoteCounts` | activity/internal/domain/team_voting.go:403-431 | a vote is taken exactly from someone going for an option on offer; afterwards theirs is that choice, everyone else's what it was, and a change is announced |
| `Ballots.TakingBackCounts` | activity/internal/domain/team_voting.go:433-454 | taking a vote back drops that voter's choice and nobody else's, and says which |
| `Ballots.OpeningCounts` | activity/internal/domain/team_voting.go:175-230 | a first proposal opens a vote exactly when it divides everyone going, with keeping the teams on offer exactly if there are some |
| `Ballots.ProposalCounts` | activity/internal/domain/team_voting.go:273-330 | a further one is taken up exactly when it divides everyone going and nobody else proposed the same; again from its author it changes nothing |
| `Ballots.WithdrawalCounts` | activity/internal/domain/team_voting.go:456-493 | exactly its author withdraws a proposal; the votes for it go, with their voters named, and with the last proposal the vote |
| `Voting.WithdrawKeepsSound` | activity/internal/domain/team_voting.go:456-493 | a withdrawal drops its votes with it and ends an empty round |
| `Voting.WinningProposalFits` | activity/internal/domain/team_voting.go:541-548 | the winner is one of the round's proposals, and none exactly when the teams are kept |
| `TeamDraftService.StartDraft` | activity/internal/application/team_draft_service.go:91-140 | refused while a draft or a vote runs; otherwise the serial command's tables, kept valid, as do the module's other commands |
| `TeamDraftService.FinishCommand` | activity/internal/application/team_draft_service.go:417-441 | a completed draft's events and its teams in one |
| `TeamVotingService.Close` | activity/internal/application/team_voting_service.go:352-403 | ends the round and applies the winner to the serial command's tables, kept valid, as do the module's other commands |
| `LifecycleRaces.SessionEndsOnce` | activity/internal/application/session_service.go:886-932 | over every interleaving of whole-row writers a terminal status is never overwritten and exactly one ending event is raised |
| `LifecycleRaces.StatusFollowsTheMachine` | activity/README.md:112 | status moves only scheduled to started to completed, to canceled from either, or by a sweep past the end; and what the machine allows is done |
| `SessionHistory.SettingsShowLastUpdate` | activity/internal/domain/session.go:693-746 | over every run capacity, end and visibility are those last accepted and nothing else about the session changes |
| `SessionHistory.SettingsAreStored` | activity/internal/domain/session.go:693-746 | an update is accepted exactly from a manager while the session is merely scheduled and the capacity, if any, positive; a visibility change from a manager |
| `SessionHistory.SweepCompletesIff` | activity/internal/domain/session.go:838-856 | a sweep completes a live session exactly when its clock is past the end last accepted |
| `LifecycleRaces.OutcomeEndsOnce` | activity/internal/domain/session.go:748-856 | each operation on a row raises one ending event exactly when it ends the session |
| `LifecycleRaces.StaleSweepsEndTwice` | activity/internal/application/session_service.go:893-902 | without reloading under the lock two sweeps end a session twice |
| `LifecycleRaces.StaleUpdateRevives` | activity/internal/application/session_service.go:637-642 | without the lock before the read an update brings a cancelled session back |
| `SessionService.CreateTeams` | activity/internal/application/session_service.go:375-445 | old members unassigned, teams replaced, open vote cancelled, to the serial command's tables, kept valid, as do the module's other commands |
| `SessionService.ExpireCompletedSessions` | activity/internal/application/session_service.go:867-938 | each found session whose transaction goes through is completed exactly if it is past its end and not over, a failing one is untouched, the count is of those completed, and all stay valid |
| `SessionService.CancelGroupSessions` | activity/internal/application/session_service.go:1052-1127 | each live session of the group is cancelled, ended ones untouched, the count is of those, and all stay valid |
| `SessionService.ProcessAutoAttendees` | activity/internal/domain/session.go:930-962 | the loop seats the automatic attendees and raises their events |
| `Recurrence.SearchIsComplete` | activity/internal/domain/recurrence.go:230-262 | the month search gives up only when no month of the progression ever has the day, and otherwise returns the first within 16 tries |
| `Recurrence.SixteenTriesSuffice` | activity/internal/domain/recurrence.go:230-233 | if any later step has the day, one of the first 16 has |
| `Recurrence.LeapYearWithin16` | activity/internal/domain/recurrence.go:230-233 | of years in any fixed step a leap year is among the first 16 or nowhere |
| `Recurrence.SearchFinds` | activity/internal/domain/recurrence.go:235-262 | the bounded search ends at the first month of the progression that has the day |
| `Recurrence.SearchValidMonth` | activity/internal/domain/recurrence.go:235-262 | the loop computes the bounded search |
| `Recurrence.NewRecurrenceRule` | activity/internal/domain/recurrence.go:65-110 | accepts exactly the valid rules that have not ended |
| `Calendar.DaySurvivesNormalisation` | activity/internal/domain/recurrence.go:240-258 | after date normalisation the day is the requested one exactly when the month has it |
| `Calendar.DateRoundTrip` | activity/internal/domain/recurrence.go:160-179 | days and civil dates correspond one to one |
| `Calendar.CivilDate` | activity/internal/domain/recurrence.go:160-179 | the date of a day number is the date with that day number |
| `Calendar.AddDaysIsExact` | activity/internal/domain/recurrence.go:173-205 | adding days crosses months, leap days and centuries without drift |
| `Calendar.WeekdayOfDate` | activity/internal/domain/recurrence.go:181-190 | the weekday the search goes by is the date's weekday by Zeller's congruence (Appendix B of RFC 3339), for every date |
| `Calendar.AtShowsTime` | activity/internal/domain/recurrence.go:160-168 | a day put together with a time of day is the instant of that day at which clocks show that time |
| `Calendar.MonthsInOrder` | activity/internal/domain/recurrence.go:209-228 | months follow each other without gap or overlap |
| `Occurrences.NextIsLaterMatch` | activity/internal/domain/recurrence.go:136-158 | the next occurrence is strictly later, its date and clock reading match the rule, and it keeps within the end |
| `Occurrences.EveryUnitIsLeast` | activity/internal/domain/recurrence.go:136-228 | at interval 1 nothing between is missed |
| `Occurrences.StepFromOccurrence` | activity/internal/domain/recurrence.go:160-228 | from an occurrence it steps by exactly n days, n weeks, or to the first n-month step that has the day |
| `Occurrences.ThirtyFirstFromFebruary` | activity/internal/domain/recurrence.go:209-228 | a 31st every 12 months counted from a February never comes |
| `Occurrences.ThirtyFirstFromJanuary` | activity/internal/domain/recurrence.go:209-228 | counted from a January it comes every January |
| `Phases.NextIsLeastOnPhase` | activity/internal/domain/recurrence.go:136-228 | at every interval and from any instant the next occurrence is the least match that lies a whole number of n-day, n-week or n-month steps from it |
| `SessionGenerator.WalkIsPhase` | activity/internal/application/session_generator_service.go:150-180 | the generator's loop visits exactly the matches of its window on the phase of where it starts, for every interval |
| `SessionGenerator.Generator.GenerateSessionsForTemplate` | activity/internal/application/session_generator_service.go:113-265 | the loop and the watermark do exactly the run described by the walk over occurrences |
| `SessionGenerator.RunCreatesIff` | activity/internal/application/session_generator_service.go:113-265 | a run adds exactly the occurrences of its window and phase that lie ahead and do not fail, in order, and none once the group is gone; the watermark moves exactly when something was added and its write succeeds |
| `SessionGenerator.ExactlyOnce` | activity/internal/application/session_generator_service.go:113-265 | over any runs with a monotone clock and successful watermark writes no occurrence is created twice, whatever fails |
| `SessionGenerator.NothingMissing` | activity/internal/application/session_generator_service.go:113-265 | at interval 1 undisturbed runs create exactly the occurrences up to the watermark |
| `SessionGenerator.FailedIsNeverRetried` | activity/internal/application/session_generator_service.go:215-265 | an occurrence that failed is never retried once its run moved the watermark |
| `SessionGenerator.FailedWatermarkDuplicates` | activity/internal/application/session_generator_service.go:245-265 | after a failed watermark write the next run duplicates exactly the occurrences still ahead whose transaction succeeds and, if there was no watermark yet, that come after its start and on its phase |
| `OutboxProtocol.NoEventLost` | shared/events/outbox_publisher.go:158-214 | every committed event is still pending, or with the broker, or refused as often as it takes to dead-letter it; no row is both published and dead-lettered |
| `OutboxProtocol.PublishersExclude` | shared/domainevent/domain_event.go:119-160 | no two open batches hold the same row |
| `OutboxProtocol.DuplicatesAreRollbacks` | shared/events/outbox_publisher.go:163-214 | the broker has at most one copy more than rollbacks undid accepted publishes |
| `OutboxProtocol.PublishedIsFinal` | shared/events/outbox_publisher.go:163-214 | once published no step adds a copy or changes the row |
| `OutboxRetention.RowsCarryTheirBatchesClock` | shared/domainevent/domain_event.go:161-205 | over every run a published row carries the moment the batch began that published it, a dead-lettered row the moment the batch began that refused it last, by the steps' own clocks |
| `OutboxRetention.PurgedAfterRetention` | shared/events/outbox_purger.go:99-138 | so over every run a purge removes a row only if that batch began longer ago than the retention |
| `OutboxRetention.KeptSinceOffered` | shared/events/outbox_purger.go:99-138 | with clocks that never run backwards and batches that take at most so long, only if the event went out, or was refused last, longer ago than the retention less that |
| `OutboxRetention.SlowBatchCutsRetentionShort` | shared/domainevent/domain_event.go:161-178 | a concrete run in which a slow batch has its row purged one tick after the event went out |
| `OutboxTable.BatchGoesOutInOrder` | shared/domainevent/domain_event.go:119-160 | what the broker takes of a batch goes out oldest first |
| `OutboxProtocol.StepKeepsInv` | shared/events/outbox_publisher.go:163-214 | every step of publishers, broker, rollbacks and purges keeps the protocol's invariant |
| `OutboxProtocol.RunKeepsInv` | shared/events/outbox_publisher.go:163-214 | the same over every run |
| `OutboxFairness.PoisonDelaysBounded` | shared/events/outbox_publisher.go:129-162 | a pending event is left out of batches whose sizes add up to at most the retries left ahead of it |
| `OutboxFairness.WorstCaseDelay` | shared/events/outbox_publisher.go:129-162 | with k rows ahead: at most k times the retry cap over the read limit batches |
| `OutboxFairness.BatchMethodIsSteps` | shared/events/outbox_publisher.go:163-214 | both outcomes of the publisher's method, committed and rolled back after some publishes, are what protocol steps reach |
| `OutboxTable.Table.ReadEvents` | shared/domainevent/domain_event.go:119-160 | the oldest pending rows nobody holds, up to the limit |
| `OutboxTable.Table.MarkEventAsPublished` | shared/domainevent/domain_event.go:161-178 | marks the row published at the instant given, which is the batch's (OutboxRetention.RowsCarryTheirBatchesClock) |
| `OutboxTable.Table.MarkEventAsFailed` | shared/domainevent/domain_event.go:180-205 | counts the retry and dead-letters at the maximum |
| `OutboxTable.Table.DeleteExpired` | shared/domainevent/domain_event.go:207-268 | deletes only expired rows of the kind, all of them if fewer than the limit |
| `OutboxTable.OutboxPublisher.PublishFromSchema` | shared/events/outbox_publisher.go:163-214 | one batch in one transaction: marks match what the broker took, at the batch's own instant, or the table is unchanged |
| `OutboxTable.OutboxPublisher.PublishSchemaBacklog` | shared/events/outbox_publisher.go:129-162 | the backlog loop ends within pending over limit plus one batches, or with the context when the limit is 0 |
| `OutboxTable.OutboxPurger.Purge` | shared/events/outbox_purger.go:116-138 | the loop deletes exactly the expired rows unless cut off |
| `OutboxTable.OutboxPurger.PurgeOnce` | shared/events/outbox_purger.go:99-114 | only rows published, or given up on, longer ago than their retention; none such is left when complete |
| `RateLimit.RateLimiter.Take` | shared/middleware/rate_limit.go:106-130 | spends a token of the refilled bucket or tells the wait, as the accounting functions say |
| `RateLimit.RateLimiter.Sweep` | shared/middleware/rate_limit.go:162-176 | drops exactly the buckets idle long enough |
| `RateLimit.NewRateLimiter` | shared/middleware/rate_limit.go:42-62 | accepts exactly positive limits |
| `RateLimit.WindowBound` | shared/middleware/rate_limit.go:106-130 | in any window of any run a key is allowed at most burst plus rate times window plus the slack of the sweeps in it, which is none when the rate divides the fill time |
| `RateLimit.PlainlyBoundedIff` | shared/middleware/rate_limit.go:162-176 | burst plus rate times window bounds every window of every run exactly when the rate divides the fill time; any other limit lets twice the burst through within it |
| `RateLimit.AfterSound` | shared/middleware/rate_limit.go:106-130 | tokens stay between 0 and the burst over every run |
| `RateLimit.PatientCallerIsServed` | shared/middleware/rate_limit.go:106-130 | a caller keeping the refill distance is never refused |
| `RateLimit.SweepingInvisibleIff` | shared/middleware/rate_limit.go:162-176 | every answer equals that of a limiter that never sweeps, for every trace, exactly when the rate divides the fill time |
| `RateLimit.SweepTellsApart` | shared/middleware/rate_limit.go:162-176 | for any other limit a concrete trace shows the difference |
| `RateLimit.WaitIsTight` | shared/middleware/rate_limit.go:120-130 | before the wait is over a refused caller is refused, one nanosecond after it served, and at that instant exactly when truncation dropped nothing |
| `RateLimit.RetryAfterServesIff` | shared/middleware/rate_limit.go:132-138 | after exactly the whole seconds of Retry-After the caller is served unless truncation made the wait whole seconds; a nanosecond more always serves |
| `ActivityInterests.AccountProfile.UpdateActivityInterests` | account-profile/internal/domain/account_profile.go:311-356 | for every order of walking the maps the profile ends with distinct types at exactly the requested levels, last entry winning, and its events replay to that |
| `ActivityInterests.AccountProfile.AddActivityInterest` | account-profile/internal/domain/account_profile.go:249-265 | adds a new type with its event, refuses a present one |
| `ActivityInterests.AccountProfile.RemoveActivityInterest` | account-profile/internal/domain/account_profile.go:267-282 | removes exactly that type with its event, or reports it missing |
| `ActivityInterests.AccountProfile.UpdateActivityInterestLevel` | account-profile/internal/domain/account_profile.go:284-309 | changes exactly that level in place; the event's old level is the new one |
| `AccountCleanup.AccountStates.Deactivate` | activity/internal/application/account_lifecycle_service.go:116-146 | gives up item by item, kind after kind, until the first failing call; completes exactly when given enough calls |
| `AccountCleanup.AccountStates.EraseAccount` | activity/internal/application/account_lifecycle_service.go:148-197 | erases and confirms the first time only; a failure changes nothing |
| `AccountCleanup.CompletedRunFinishes` | activity/internal/application/account_lifecycle_service.go:95-97 | after any runs cut short anywhere one completed run leaves nothing open, each thing given up exactly once, as one undisturbed run |
| `AccountCleanup.RunsGiveEachOnce` | activity/internal/application/account_lifecycle_service.go:95-97 | over any runs exactly what is gone was given up, each once |
| `AccountCleanup.ErasedOnce` | activity/internal/application/account_lifecycle_service.go:148-151 | any number of deliveries confirms once, as soon as one does not fail |

## Left out

- HTTP handlers, request validation beyond the RSVP answers, error mapping, tracing, metrics and configuration: plumbing.
- SQL text, filters and pagination: tables are sequences and maps; lists are in table order where the source orders by creation time and id.
- Failing statements inside the session's transactions: a failure rolls back, which leaves the state as it was; the services' methods have none but for the expiry sweep, which goes on past a failing session. The outbox, generator and clean-up models do have failures.
- The session, draft and voting aggregates as objects: they are values here, their operations returning the changed value and its events, so aliasing between two loaded copies is not modelled; the attendee, the store, the limiter, the outbox, the generator, the profile and the account states are classes.
- Titles, locations, notes, team names and colors, pause reasons, versions and timestamps of drafts and rounds: they take no part in any decision modelled.
- Membership, invites and account state: whether a user is a member, has priority, may open early or holds an answerable invite is a parameter of the command.
- Interleavings.NoInterleavingOverbooks: the lifecycle commands, which hold the lock and touch no attendee, are single steps of the interleaving model; every command on one attendee's row reads a count although removing, cancelling, giving and taking a team do not need one, and every draft, vote or teams command reads the attendees although cancelling a draft and creating the first teams do not.
- Announcing ties to managers, live streams and notifications: they read the state and change none of what is modelled.
- AttendanceLog.RunTellsWhoGoes: says nothing of people no longer on the list, because a cancelled answer raises no attendance event.
- Wake-ups of the publisher: a lost one only delays the next poll.
- SessionGenerator.NothingMissing: claimed for interval 1 only, because a run resumes from the window's end and not from the last occurrence; what one run visits at other intervals is SessionGenerator.WalkIsPhase.
- SessionGenerator.Generator.GenerateSessionsForTemplate: two clock readings, at the start and for the window; an occurrence that slips into the past while the run is at work is one of its failing ones.
- RateLimit.WindowBound: tokens are reals, so the rounding of the source's floating point is not modelled.
- The database's unique index on live attendees: uniqueness is proved from the commands alone.
- Group capacity, invite links, statistics, identity, gateway and location services: not part of this model.
