# A verified model of the Linux chat server

The server accepts any number of clients, one thread each. A client logs in under a name, chats, and may be the admin, who can kick users and pause or resume the chat. Messages for everyone go through a bounded POSIX queue of ten entries to one broadcast agent, which takes a semaphore, walks the user list and sends. Pausing takes the same semaphore; resuming posts it. Joins are announced through the queue, departures are sent directly, and a new user is told of the others directly.

This project models that server in Dafny 4.11 and proves what it keeps over all runs. `dafny verify dfyconfig.toml` checks everything.

| file | models |
|---|---|
| `CText.dfy`, `Lists.dfy`, `Numerals.dfy` | C strings in fixed buffers and `strncpy` (section 7.21.2.4 of C99, ISO/IEC 9899:1999); a few sequence operations; numbers as digits |
| `ChatModel.dfy` | sessions, agent, queue and semaphore as a labelled transition system; queue and semaphore follow `mq_send`, `mq_receive`, `sem_wait` and `sem_post` of POSIX.1-2017 |
| `ChatFlow.dfy`, `ChatDeparture.dfy`, `ChatNames.dfy`, `ChatGate.dfy`, `ChatAdmins.dfy`, `ChatRoster.dfy` | the invariants: conservation and order, departure notices, names, the semaphore, who acts as the admin, rosters |
| `ChatAnswers.dfy`, `ChatHistory.dfy` | what clients are answered over whole runs, message by message; what the state says of the run that led to it, and the control flow of the threads |
| `ChatDrain.dfy`, `ChatConvergence.dfy`, `ChatRelogin.dfy`, `ChatAdmission.dfy` | what the agent does left alone, roster convergence and its exact conditions, second logins, calm logins and calm runs to where convergence is lost |
| `ChatRace.dfy`, `ChatUnguarded.dfy`, `ChatProgress.dfy`, `ChatPause.dfy`, `ChatWalk.dfy` | the race on names and its exact condition, admins by a tail or by a race, when the server halts, when a pause can be lifted, walks with logouts in between |
| `ChatRuns.dfy` | the main results over all reachable states and runs |
| `ChatServer.dfy` | the code's functions over records in a linked list on the heap, with name arrays and `next` pointers, each proved to be its step or run of the transition system |
| `UserRegistry.dfy`, `RegistrySchedule.dfy` | the doubly linked user list on the heap with its searches, its find-then-act halves interleaved, and the walk from a front read before the lock |
| `ByteOrder.dfy`, `Wire.dfy` | the two 64-bit byte-order conversions, the packed frames, building them in place and reading them back |
| `Logger.dfy`, `LogFormat.dfy` | the log buffer, per-thread files and renaming; the `$`-tag format interpreter |
| `LockOrder.dfy`, `LockPrograms.dfy`, `LockRings.dfy` | a check of lock order over programs with `break` and `return`, proved sound; the server's threads as such programs; any number of them interleaved |

## How to read the chat model

One step is one critical section or one operation on shared state, so a login is a name check, a store, a look at the queue, a post and an introduction walk, and other threads may come between any two of them. A session's walk over the list is one step because it holds the user lock; only logouts, which take no lock, can come in between, and `WalkWithLeavers` shows that they can be moved out of it. The agent's walk is one step per user.

A session has two names. The name check, the admin check and the kick walk compare the *stored* name, the whole array. Every frame carries the *shown* name, as many bytes of the array as the last login was long: the name that login was accepted under. A login that leaves a tail of an earlier name makes them part. Rosters and convergence are about shown names; names are checked and claimed as they are stored.

The state carries history the server does not keep: accepted and delivered messages, everything sent to each user, who told whom of a departure, who took which command.

Most results hold after any run whatever: the *reachable* states. Others need one of four conditions on the steps of a run (`Care` in `ChatRuns`):

- no tail makes an admin: a login whose stored name is the admin's was checked under that name, or an earlier one of the session was. Who commands depends on this alone. `TailIsExact` is if-and-only-if, and `ImpostorsByLength` says for which admin names the code itself breaks it.
- care about the admin's name: no check clears a session for a login that will store it while another session is online under it or cleared for it. It keeps the semaphore accounted for: `BalanceOverRuns` says exactly which posts break that, and `DoubleResumeReachable` reaches one without the condition. What a held pause guarantees (`PauseSafety`) needs the accounting only.
- the same care about every name, for unique stored names. `CheckIsExact` is if-and-only-if, name by name, and `DuplicatesReachable` reaches duplicates without it. Shown names can coincide even so, if there are tails (`ShownAlike`).
- calm: sessions log in once, no join finds the queue full, and a departure walk takes a name off the rosters only if the name is to stay off, or is about to come back. Rosters depend on this alone, not on unique names, and it leaves no tails. `SecondLoginConverges`, `JoinConverges` and `DepartureConverges` are if-and-only-if for the three parts, and `RenameIsLost`, `JoinIsLost` and `ReusedNameIsLost` lead from the start, by a calm run, to where one step that is not calm loses convergence.

The code enforces none of them. States that are shown to be reached on a calm run are reached on one that respects all four, but for `NamesakeConverges`, which takes a race for a name.

## Assumptions

- `self`, `msg` and `msg_length` are file-scope variables in the code although every thread initialises them as its own; the model gives each session its own.
- Names on the wire have 1 to 30 bytes. The code accepts 31, which leaves the 31-byte `login_name` without a terminator.
- Reads are complete, sends are attempted, and `mq_receive`, `malloc` and `fopen` succeed. Runs start after `sem_init` with an empty queue. What a failing `malloc` in `create_User` does to the user lock is stated in `FailedAllocationKeepsTheLock`.
- A resume's post finds a pause to lift, which runs that are careful with the admin's name guarantee (`PauseFindsNone`); `LockRings` takes this for granted.
- A new connection brings a session identity never used before; reuse of descriptors after `close` is not modelled.
- Timestamps, local times, and messages produced by `printf`-style formatting, are inputs; a source file's name does not end in a slash.
- `build_User_Added`, `build_User_Removed` and the relay start from a body that is zero where the code's loop has cleared it. `build_Server_response` is modelled over any body, because most of its callers do not clear it.

## Where the code and its own description part

- `network_Receive` computes a verdict for an oversized text and then overwrites it (src/network/network.c:41-46); `NetworkReceive` has the code's behaviour.
- `set_buffer_Level` is described as choosing which levels are written directly (src/core/logger.h:74-80), but lowering it over pending lines leaves lines pending that the new level says to write directly; `LevelChangeIsExact` says that exactly then it can, and `LowerTooSoon` builds such a log.
- `log_shutdown` does not reset the count, so a flush after it writes the buffered lines again, unless the buffer level is 0 or eighteen lines were pending (`ShutdownAndFlush`).
- A registered thread that had not written anything gets a file without a header, and registering under a name whose file exists replaces that file (`RegisteredKeeps`, `RenameLosesNothing`): the log of a user who comes back replaces that of the earlier visit (`ReturningUser`). Mapping and rename are two steps without the log lock, and a flush in between can lose lines; `FlushBetween` says exactly when.
- `broadcast_message` looks for room before it sends, but another session can take the last slot in between, and the send then waits. If that happens to the admin during a pause, no run that is careful with the admin's name ever lifts the pause; in every other case one does (`LiftableIffNotStuck`, `StuckReachable`).
- `build_Server_response` copies the server's name without clearing the field, so over a body that is not zero the name can come out with a stale tail; `ServerResponseRoundTrip` says exactly when.
- `create_User` returns with the user lock taken when `malloc` fails (`FailedAllocationKeepsTheLock`, `LeakingTrace`).
- A login copies its name without clearing the array (src/user.c:170), so a session can come to be stored under a name it was never checked under, the admin's included, while frames show the name it was checked under; `StoredWhole`, `WholeStep`, `TailIsExact` and `ImpostorsByLength` say exactly when.
- `is_name_free` reads the front of the list before it takes the lock (src/user.c:140-144), so its walk can start at a record that has been unlinked and freed in between; `FrontWalk` says exactly when, and `FrontCanGo` that it can happen. The chat model has the case in which it does not.

## Model

| member | source | states |
|---|---|---|
| ChatRuns.Conservation | src/network/broadcastagent.c:32-104 | in every reachable state accepted = delivered ++ in hand ++ queued, and at most eleven messages are accepted but not fully delivered |
| ChatRuns.TotalOrder | src/network/broadcastagent.c:39-52 | the broadcast frames sent to a user are exactly one unbroken stretch of the accepted order, each once, from its login to the agent's progress or its logout |
| ChatRuns.SharedOrder | src/user.h:39-47 | from any message two users share on, one user's stream is a prefix of the other's |
| ChatRuns.ChatIsAccepted | src/clientthread.c:104-111 | a chat message for which there was room is, whatever the others do before it is posted, accepted next and as built, under the name that is shown of its session |
| ChatAnswers.PostedOrRefused | src/clientthread.c:104-111 | over every run, each chat message a session asked to send was answered that the queue is full, or was posted, or waits to be posted: one of the three, once |
| ChatAnswers.RefusedWhenFull | src/network/broadcastagent.c:97-104 | it is answered so if and only if ten messages are queued at that moment, and otherwise waits as it was asked |
| ChatAnswers.PostedIsCleared | src/clientthread.c:85-111 | what a session adds to the accepted messages, chat and joins, is in order what its looks at the queue found room for, under the names shown then |
| ChatAnswers.AnswersAreExact | src/clientthread.c:59-188 | over every run and topic by topic (logins, full queue, commands, pauses, introductions) the frames a user was sent are in order exactly those its own requests and the others' pauses call for: a login is invalid for a bad byte, taken for a name somebody online has, a success otherwise |
| ChatRuns.GateOrAnswer | src/clientthread.c:116-167 | over every run a pause or resume command enters the gate if and only if it is not answered at once; not the admin, paused already or not paused, by the last store to the flag in the run |
| ChatHistory.MarkedIsKicked | src/clientthread.c:125-196 | over every run a session is marked as kicked if and only if it sent a malformed message, or a session stored under the admin's name named somebody and the walk came to it first |
| ChatHistory.PausedIsLast | src/network/broadcastagent.c:107-122 | the chat is paused if and only if the last store to the flag in the run was a pause's |
| ChatHistory.OnlineIsLast | src/user.c:165-222 | a session is online if and only if it has logged in and not out in the run |
| ChatHistory.ListIsOrdered | src/user.c:35-103 | the list holds, in the order of connection, those connected and not removed in the run |
| ChatHistory.LoginsAreAccepted | src/clientthread.c:62-76 | a login was accepted under a name if and only if the run has that login and the name is what was checked last before it |
| ChatHistory.AgentWalksAlone | src/user.h:39-47 | in no run does anybody check a name, log in, walk, connect or remove itself between the agent's taking and giving back the user lock |
| ChatHistory.ThreadsFollowTheCode | src/clientthread.c:22-232 | in every run each session's steps follow one another as in the control flow of its thread |
| ChatProgress.ReaderTakesAnything | src/clientthread.c:57-200 | a session that reads takes whatever its client sends, a login by what its name deserves; only kicks and logins wait for the agent's walk |
| ChatProgress.WhatBlocks | src/network/broadcastagent.c:97-113 | a session in the middle of something is blocked if and only if it posts into a full queue, pauses without the semaphore, or needs the user lock during the agent's walk |
| ChatModel.NameBytes | src/clientthread.c:236-256 | a name is forbidden if and only if it has a byte other than 33, 35 to 38, 40 to 95 and 97 to 126 |
| ChatRuns.DeparturesExact | src/clientthread.c:206-222 | a departure notice is in a log once for those the walk told and never otherwise, never for the leaver, only after the walk, only for sessions whose login was accepted; name length is nonzero iff a login was accepted, and then frames show an accepted name of the session |
| ChatRuns.DepartureWalk | src/clientthread.c:206-222 | over every run with a departure walk in it, the leaver's notice is sent to exactly those who have logged in and not out when it runs, the leaver excepted and only if a login of it was accepted, once each and at no other time; it says the name of the leaver's last accepted login, and that it was kicked if and only if it had sent a malformed message or a kick of the admin's had come to it first |
| ChatRuns.ShownIsLast | src/clientthread.c:74-87 | over every run, frames show a user under the bytes that were checked last before its last login |
| ChatRuns.NamesAreUnique | src/clientthread.c:59-84 | after every run in which no check clears a session for a login whose stored name another session is online under or cleared for, logged-in names are distinct and each name is claimed by at most one session, whether or not tails show |
| ChatRuns.SemaphoreBalance | src/network/broadcastagent.c:107-122 | after every run that respects this for the admin's name only, the semaphore is accounted for: value + agent in its section + pause held = 1 and pauses and resumes alternate; so the agent can go on iff no pause is held; ordinary names may race and show tails |
| ChatRuns.BalanceOverRuns | src/network/broadcastagent.c:107-122 | along any run the semaphore stays accounted for if and only if every resume's post finds a pause to lift |
| ChatRuns.PausesAlternate | src/clientthread.c:114-169 | over the same runs pause and resume effects strictly alternate starting with a pause, and at most one session is online as the admin |
| ChatRuns.CommandActors | src/clientthread.c:114-169 | over every run in which no tail makes an admin, however checks race, every pause, resume and kick was taken by a session with an accepted login under the admin name, and so is whoever is online under it |
| ChatRuns.PauseFindsNone | src/clientthread.c:145-169 | over every run that is careful with the admin's name a pause waits for the semaphore only while none is held, and a resume posts only while one is |
| ChatRuns.PauseSafety | src/network/broadcastagent.c:42-50 | along every run without a resume post, from a held pause with the semaphore accounted for, no user is sent any broadcast frame and the pause stays held; no condition on names |
| ChatRuns.Drains | src/network/broadcastagent.c:39-52 | in every reachable state with the semaphore free or with the agent, the agent is not stuck while there is work, and left alone it delivers everything accepted |
| ChatRuns.RosterConvergence | src/clientthread.c:85-100 | after every calm run at rest with queue empty and agent idle, the roster each online client has folded from its join and departure frames is the set of online names, shown and stored, names taken over from leavers or raced for included |
| ChatRuns.EventualConvergence | src/network/broadcastagent.c:41-50 | after every calm run at rest with the semaphore free or with the agent, the agent alone brings every online client's roster to the set of online names |
| ChatFlow.ShapeStep | src/clientthread.c:22-232 | every step keeps list and sessions in agreement: distinct records, removed exactly when the session is gone, flags consistent with the session's place in its handler |
| ChatFlow.FlowStep | src/network/broadcastagent.c:97-104 | every step conserves the accepted messages and the queue bound of ten |
| ChatFlow.ReachStep | src/user.h:39-47 | an agent's visit extends a user's stream by one, a first login starts it at the delivered count, nothing else moves it, even with logouts during the walk |
| ChatFlow.StreamsStep | src/network/broadcastagent.c:45-48 | every step keeps every user's stream an unbroken stretch of the accepted order |
| ChatFlow.KickTargetIs | src/clientthread.c:131-138 | the kick walk finds a logged-in user of that name if there is one, and reports none only if there is none |
| ChatDeparture.NoticesStep | src/clientthread.c:216-222 | every step keeps the count of departure notices equal to who was told |
| ChatNames.LoginKeepsUnique | src/user.c:165-177 | a login keeps names unique if and only if the name it stores is still free among the other logged-in users |
| ChatNames.StoredWhole | src/user.c:170-172 | a login stores its name whole if and only if the name ends before its size or the old name ends within it |
| ChatNames.ShownStep | src/user.c:172-172 | every login makes frames show exactly the name that was checked, and nothing else changes what they show |
| ChatNames.WholeStep | src/user.c:170-172 | everybody stays shown under the name it is stored under if and only if the step is not a login that leaves a tail |
| ChatNames.NamesStep | src/clientthread.c:66-76 | a step keeps every name claimed by at most one session, online under it or cleared for it, unless it is a check that clears for a name another session claims |
| ChatNames.OneClaimStep | src/clientthread.c:66-76 | the same name by name, so that care about one name is enough for that name |
| ChatNames.AcceptedStep | src/clientthread.c:62-67 | only names without forbidden characters and of at most 30 bytes are ever accepted, and no name array ever holds anything else before a terminator, tails included |
| ChatRace.CheckIsExact | src/clientthread.c:66-76 | with one claim on the name that a check will store, the check is careful if and only if neither its own login, nor that after the login of another checked session, makes a second user of that name |
| ChatRace.LoginsCollide | src/user.c:165-177 | from every state, the logins of any two checked sessions whose names store alike make duplicates |
| ChatRace.RaceDuplicates | src/clientthread.c:66-76 | from any state, two newcomers that both check before either logs in both end up with the same name, for every free valid name |
| ChatRace.DuplicatesReachable | src/user.c:135-177 | for every valid name a state with two users of that name is reachable |
| ChatAdmins.TailIsExact | src/user.c:165-177 | a step keeps every session named as the admin, every pause, resume and kick with sessions accepted under that name if and only if it is not a login that only a tail makes the admin's |
| ChatUnguarded.ImpostorsByLength | src/user.c:170-170 | some reachable state has a pause, resume or kick by a session never accepted as the admin if and only if the admin's name passes the checks and has at least two bytes |
| ChatUnguarded.ResumedTwice | src/clientthread.c:158-169 | wherever two sessions wait as the admin under a pause, both can resume it: two resumes in a row, and the semaphore one too high |
| ChatUnguarded.DoubleResumeReachable | src/network/broadcastagent.c:116-122 | for every name an admin can have, such a state is reached from the start |
| ChatUnguarded.ShownAlike | src/user.c:135-162 | without any race, and with stored names unique, for every valid name of two or more bytes two users are shown under its first byte |
| ChatGate.OneAtGate | src/clientthread.c:116-120 | with one session online as the admin, at most one is inside a pause or resume |
| ChatGate.BalanceIsExact | src/network/broadcastagent.c:107-122 | a step keeps the semaphore accounted for if and only if it is not a resume's post that finds no pause to lift |
| ChatGate.MarksStep | src/network/broadcastagent.c:107-122 | a pause's semaphore wait only ever finds no pause held and a resume's post only ever finds one |
| ChatGate.GateStep | src/clientthread.c:145-169 | with one session online as the admin, every step keeps the semaphore accounted for, and the flag in step with it except between the two halves of a pause or resume |
| ChatRoster.OutgoingRoster | src/clientthread.c:93-99 | what each step does to a client's roster: a delivery or introduction adds the names that frames show, a departure walk drops one, nothing else changes it |
| ChatRoster.KnowledgeKept | src/network/broadcastagent.c:41-50 | what a client knows or will be told from the queue is reduced only by departure walks |
| ChatRoster.RosterStep | src/clientthread.c:85-100 | calm steps keep every roster and every pending join within the live names, and every announced user known to every introduced one, or about to be; names need not be unique |
| ChatDrain.AgentProgress | src/network/broadcastagent.c:39-52 | with work left and no pause held exactly one agent step is possible, and it decreases (queue length, phase, users left in the walk) |
| ChatDrain.DrainedIsRun | src/network/broadcastagent.c:39-52 | where the agent alone takes the server is reached by a run of agent steps |
| ChatDrain.DrainedEmpties | src/network/broadcastagent.c:39-52 | there the queue is empty, the agent idle and everything accepted delivered |
| ChatDrain.DrainedRoster | src/network/broadcastagent.c:45-48 | there each client's roster is what it knew plus the joins that were pending for it |
| ChatConvergence.Converges | src/clientthread.c:85-100 | a calm server at rest converges |
| ChatConvergence.CalmIsInformed | src/clientthread.c:85-100 | after calm steps with nobody joining, everyone online knows of or will hear of everyone online, and of nobody who is gone |
| ChatConvergence.DepartureConverges | src/clientthread.c:216-222 | a departure leaves an informed server converging if and only if the name shown of the leaver is pending exactly when somebody online is shown under it |
| ChatConvergence.ReusedName | src/user.c:149-149 | with a new owner online, the departure walk of the old one leaves the server converging if and only if the new join is still pending |
| ChatRelogin.SecondLoginNeverConverges | src/clientthread.c:74-79 | once a session has logged in again under another name, and nobody else goes by the old one, no run on which nobody takes that brings the server to converge for those who stay online |
| ChatRelogin.SecondLoginConverges | src/clientthread.c:74-100 | a second login, its join completed, leaves a server at rest converging if and only if the old name is still somebody's and the new one got through or was somebody's before |
| ChatRelogin.SecondLoginDiverges | src/clientthread.c:66-100 | with unique names and no tails it never does |
| ChatRelogin.FirstByteKeepsName | src/user.c:170-170 | what is stored and what is shown can part: a login under the first byte of its name leaves a session stored under the whole name and shown under that byte |
| ChatUnguarded.NamesakeConverges | src/clientthread.c:66-100 | after a race for any valid name a second login of one of the two converges |
| ChatConvergence.AnnouncementConverges | src/clientthread.c:85-100 | an announcement leaves the server converging if and only if it did not find the queue full or everybody online knows the name without it |
| ChatConvergence.JoinConverges | src/clientthread.c:74-100 | a login among sessions at rest leaves the server converging if and only if its announcement does not find the queue full or somebody else is shown under the name already |
| ChatAdmission.Admission | src/clientthread.c:59-101 | a calm server in which nobody is joining, not paused and with room in the queue, can admit any newcomer under any valid name that nobody claims, and is calm again, and converges if nobody is leaving |
| ChatAdmission.ReusedNameIsLost | src/user.c:149-149 | for every valid name a calm run leads to a departure walk after which the server, at rest, does not converge |
| ChatAdmission.JoinIsLost | src/network/broadcastagent.c:100-101 | for any two valid names a calm run leads to a login whose announcement finds the queue full, after which the server, at rest, does not converge |
| ChatAdmission.RenameIsLost | src/clientthread.c:74-76 | for any two different valid names a calm run leads to a second login under the other one, after which the server, at rest, does not converge |
| ChatProgress.HaltedOnlyByPause | src/network/broadcastagent.c:97-113 | over every run that is careful with the admin's name: if agent and all busy sessions are blocked, a pause is held and every busy session waits to post into a full queue |
| ChatProgress.StuckForever | src/network/broadcastagent.c:97-122 | once the admin's session waits to post under its own pause, no run that is careful with the admin's name ever delivers another message |
| ChatPause.LiftableIffNotStuck | src/network/broadcastagent.c:97-122 | in every orderly state, that is after every run that is careful with the admin's name, with a pause held: some such run lifts it if and only if no admin's session waits to post into the full queue |
| ChatPause.RaceToStuck | src/network/broadcastagent.c:100-102 | with one free slot under a pause, two sessions that both see room are enough to get the admin stuck |
| ChatPause.StuckReachable | src/network/broadcastagent.c:97-122 | for every name an admin can have, such a state is reached from the start by a run that respects every condition used here |
| ChatWalk.WalkWithLeavers | src/user.c:219-222 | a walk with logouts in between finds the same users in the same order as one that runs at once after those have logged out that it no longer found |
| ChatServer.HasForbiddenChar | src/clientthread.c:236-256 | the loop returns whether some byte is none of those a name may hold, on signed characters |
| ChatServer.NameBytesValidate | src/core/util.c:197-220 | the result is the length of the longest valid prefix, and the whole length iff the other name test finds nothing |
| ChatServer.Server.Judge | src/clientthread.c:66-67 | the two checks over the heap list answer invalid if and only if the name has a forbidden byte, taken if and only if it has none and somebody online has it, and success otherwise |
| ChatServer.Server.CheckLogin | src/clientthread.c:59-84 | the checks and the reply are the accepting or refusing step, and that reply alone goes out, on the session's own socket |
| ChatServer.Server.LoginUser | src/user.c:165-177 | copying into the name array in place and setting flag and length of one heap record shows the login step, the other records untouched |
| ChatServer.Server.IntroduceOthers | src/clientthread.c:91-100 | the walk along `next` pointers that tells a new user of the other logged-in ones, each name as far as its length field, is the introduction step |
| ChatServer.Server.WalkSending | src/user.h:39-47 | a walk along `next` pointers sends a frame to every user online but the excepted one, once each |
| ChatServer.Server.Kick | src/clientthread.c:125-143 | the kick walk with its early exit marks the first logged-in user of that name, or the admin is told there is none: the kick step |
| ChatServer.Server.TellGate | src/clientthread.c:150-167 | the pause and resume walks are their steps: the notice goes to everyone online |
| ChatServer.Server.LogoutUser | src/user.c:219-222 | clearing the flag of the heap record shows the logout step |
| ChatServer.Server.CreateUser | src/clientthread.c:26-26 | creating a record at the end of the heap list shows the connection step |
| ChatServer.Server.RemoveUser | src/clientthread.c:225-225 | finding the record by its socket and unlinking it, wherever it stands, shows the removal step |
| ChatServer.Server.NotifyDeparture | src/clientthread.c:216-222 | the departure walk, from the leaver's heap record and with its name as far as its length field, is the departure step |
| ChatServer.Server.AgentRound | src/network/broadcastagent.c:39-52 | one turn of the agent's loop, its walk along `next` pointers included, is a run of agent steps that delivers the head of the queue and restores the semaphore |
| UserRegistry.Registry.Find | src/user.c:108-133 | the search returns the first node with the socket, or NULL iff there is none |
| UserRegistry.Registry.IsNameFree | src/user.c:135-162 | from the front as it was read before the lock, the walk along the heap list returns whether no logged-in user has the name; without a front it returns at once that it is free |
| UserRegistry.Registry.FindOnline | src/clientthread.c:131-138 | the walk with its early exit stops at the first logged-in user of the name, or finds none iff there is none |
| UserRegistry.Registry.Append | src/user.c:23-51 | the locked half of a create appends one new node and keeps the list well formed |
| UserRegistry.Registry.Unlink | src/user.c:64-103 | the locked half of a remove deletes exactly that node in the single, first, last and middle cases |
| UserRegistry.Registry.Create | src/user.c:17-52 | an atomic create appends iff the socket is absent and returns NULL otherwise |
| UserRegistry.Registry.Remove | src/user.c:55-104 | an atomic remove deletes the first node with the socket iff there is one |
| UserRegistry.Registry.MirrorImages | src/user.c:31-46 | the next chain from the front is the list, the prev chain from the back is its mirror image, and both end |
| UserRegistry.ServedKeepsDistinct | src/user.c:17-104 | atomic calls keep sockets distinct; after a remove the socket is absent, after a create present |
| UserRegistry.RemoveUndoesCreate | src/user.c:17-104 | removing a user just created gives back the list |
| UserRegistry.Serve | src/user.c:17-133 | every sequence of atomic calls leaves a well-formed heap list with the records the calls say |
| RegistrySchedule.AppendKeepsDistinct | src/user.c:22-46 | the second half of a create keeps sockets distinct if and only if its socket is still absent |
| RegistrySchedule.SchedulesAreSafe | src/user.c:17-133 | every schedule in which no two pending creates share a socket and threads remove their own keeps sockets distinct and never unlinks a record that is gone |
| RegistrySchedule.SharedSocketDuplicates | src/user.c:22-46 | two creates that both look before either appends duplicate their common socket |
| RegistrySchedule.FrontWalk | src/user.c:140-155 | whatever halves other threads run between the unlocked read of the front and the walk, the walk starts at a listed record if and only if the front read was not unlinked in between, and then it reads the whole list |
| RegistrySchedule.FrontCanGo | src/user.c:140-145 | from every state a schedule of the other threads unlinks a front that is not the reader's own |
| RegistrySchedule.RunSchedule | src/user.c:17-133 | the heap list run through such a schedule holds exactly the records of the schedule, in order |
| ByteOrder.HtonllMemory | src/network/network.c:210-223 | the memory of a converted value holds the big-endian digits on either kind of host |
| ByteOrder.HtonllInvolution | src/network/network.c:226-238 | converting back recovers the value |
| ByteOrder.Hton64u | src/core/util.c:237-246 | the byte loop agrees with the half-swapping conversion for all values and both byte orders |
| ByteOrder.Ntoh64u | src/core/util.c:222-234 | the shifting loop agrees with the half-swapping conversion for all values and both byte orders |
| CText.StrNCpyReadsBack | src/network/network.c:173-174 | text copied over old bytes reads back if and only if it brought a terminator or the next old byte is one |
| CText.SeenAfterCopy | src/user.c:170-172 | of an array into which a name was copied, a reader who is given as many bytes sees that name, whatever stands behind it |
| Wire.StrNCpyTo | src/network/network.c:146-148 | the copy stops at the terminator, pads with zeros to its size and touches nothing else |
| Wire.LengthInNetworkOrder | src/network/network.c:67-67 | the two bytes of every length, read most significant first as a timestamp is, are the length |
| Wire.BuildServerToClient | src/network/network.c:133-153 | the in-place rewrite gives type 3, length 40 + n in network order, stamp, zero-padded sender, the text up to its first NUL and zeros, for every text below 512 bytes |
| Wire.Relay | src/network/network.c:133-153 | whoever reads the rewritten frame recovers the clock's time, or 0 if it was not read, the sender's name as far as it is copied, and the client's text up to its first NUL |
| Wire.BuildUserAdded | src/network/network.c:96-111 | the whole buffer after building a join frame, for names shorter or longer than the size copied: type 4, its length in network order, and for a reader the clock's time if it was read and is wanted, 0 otherwise, and the name |
| Wire.BuildUserRemoved | src/network/network.c:114-130 | the whole buffer after building a departure frame, for names shorter or longer than the size copied: type 5, its length in network order, and for a reader time, reason and name |
| Wire.BuildLoginResponse | src/network/network.c:79-93 | the whole buffer after building a login response: type 1, its length in network order, the four magic bytes, and for a reader code and server name |
| Wire.BuildServerResponse | src/network/network.c:156-179 | the whole buffer after building a server response over any body: type 3, its length in network order, and for a reader time and text; the old bytes stay behind the name and behind the text |
| Wire.ServerResponseRoundTrip | src/network/network.c:173-174 | a reader recovers stamp and text of a server response, and the server's name if and only if the byte behind it was zero before |
| Wire.TransmittedImage | src/network/network.c:62-71 | the bytes sent are the header and exactly as many field bytes as the length says |
| Wire.UserAddedRoundTrip | src/network/network.h:113-120 | a reader of the sent bytes recovers the stamp, and of the name as much as was copied |
| Wire.UserRemovedRoundTrip | src/network/network.h:123-131 | a reader recovers stamp and reason, and of the name as much as was copied |
| Wire.LoginResponseRoundTrip | src/network/network.h:84-90 | a reader recovers code and server name of a login response |
| Wire.ServerToClientRoundTrip | src/network/network.h:102-110 | a reader recovers the stamp, and of sender and text as much as was copied |
| Wire.NetworkReceive | src/network/network.c:16-59 | which verdict is returned exactly when, later checks overriding earlier ones and the text-length verdict always overridden |
| Logger.Log.OutputMessage | src/core/logger.c:333-357 | written lines ++ pending lines = all lines output, at most eighteen pending, nothing pending after a line of an unbuffered level |
| Logger.Log.WriteMessages | src/core/logger.c:360-401 | a flush writes every pending line to the file of its thread, in order |
| Logger.Log.FindPath | src/core/logger.c:503-519 | the search returns the first mapping of the thread |
| Logger.Log.SetBufferLevel | src/core/logger.c:560-567 | no directly written level is pending after the change if none was before and the level was not lowered or nothing was pending; an invalid level is logged and flushes |
| Logger.LevelChangeIsExact | src/core/logger.c:560-567 | a change keeps that for all logs with so many pending lines if and only if it does not lower the level or nothing is pending |
| Logger.LowerTooSoon | src/core/logger.c:560-567 | for every lowering and every number of pending lines a log on which it is lost |
| Logger.Log.Shutdown | src/core/logger.c:161-165 | every line output is written exactly once and sits in its thread's file; the count is reset if and only if the buffer level is 0 or eighteen lines were pending |
| Logger.Log.ShutdownAndFlush | src/core/logger.c:161-165 | a flush after the shutdown writes the pending lines a second time, unless the count was reset |
| Logger.Log.Register | src/core/logger.c:404-423 | with nothing in between, a first registration under a fresh name keeps each thread's lines together |
| Logger.ServeAll | src/core/logger.c:333-423 | from the start, whatever is output and however threads register in between, each once, under names of their own that are no default ones: every thread's written lines are together in one file, that of its name once it has registered, and only what is pending is not written |
| Logger.NamedPathsDiffer | src/core/logger.c:409-410 | different names have different files |
| Logger.NamedAsDefault | src/core/logger.c:406-410 | a name's file is a thread's default file if and only if the name is `thread_log_` and the thread's decimal digits |
| Logger.AppendedKeeps | src/core/logger.c:364-400 | writing one line keeps every thread's lines in one file, in order, behind at most a header |
| Logger.RegisteredKeeps | src/core/logger.c:404-462 | registering moves the lines written so far to the new name, with their header if there were any, and leaves all other threads alone |
| Logger.FlushBetween | src/core/logger.c:412-418 | with a flush between mapping and rename, every thread's lines stay together if and only if the registering thread had written nothing before or the flush has no line of it; otherwise the flushed ones are lost, and no other thread's ever |
| Logger.Log.RegisterAround | src/core/logger.c:404-423 | the same for a registration between whose halves another thread outputs a line |
| Logger.SecondRegistration | src/core/logger.c:430-436 | a second registration takes the new path whole if and only if it is no shorter than the old one, and never touches another thread's |
| Logger.RenameLosesNothing | src/core/logger.c:418-420 | the rename loses no line if and only if the target file held none |
| Logger.NameTakenTwice | src/core/logger.c:418-420 | a thread that registers under another's name replaces its file if and only if it has written before, and the two share the file from then on |
| Logger.ReturningUser | src/clientthread.c:76-77 | builds the log of a user served by two threads in turn: the first thread's line, written, is in no file of that name any more |
| Logger.DefaultPathsDiffer | src/core/logger.c:376-376 | different threads have different default files |
| LogFormat.FormatMessage | src/core/logger.c:200-327 | the index-skipping loop over the buffer leaves exactly the recursive expansion, for every format whose expansion fits |
| LogFormat.ExpandDistributes | src/core/logger.c:201-321 | expansion distributes over appended text if and only if the scan does not end on an unpaired `$` |
| LogFormat.Clock | src/core/logger.c:265-282 | the clock expands to hour, minute and second |
| LogFormat.Date | src/core/logger.c:295-312 | the date expands to year, month and day |
| LogFormat.ClockReadsBack | src/core/logger.c:270-290 | hour, minute, second and whole milliseconds read back from what their tags stand for |
| LogFormat.DateReadsBack | src/core/logger.c:300-312 | so do the year, the month counted from one, and the day |
| LogFormat.PlaceReadsBack | src/core/logger.c:249-261 | so do the line, and the thread's lowest 32 bits in hexadecimal |
| LogFormat.ShortFileName | src/core/logger.c:244-256 | the short file name is the end of the long one from behind its last slash |
| LogFormat.LevelIsNamed | src/core/logger.c:225-227 | each level is known by its name |
| LogFormat.GeneralLine | src/application.c:36-36 | what the application's general format expands to |
| LogFormat.UrgentLine | src/application.c:37-39 | what its format for the three most urgent levels expands to |
| Numerals.PaddedReads | src/core/logger.c:266-311 | a padded number reads back, is as wide as it should be, and is not padded if it is wider |
| LockOrder.CheckIsSound | src/user.h:39-47 | every trace of a program that passes the check, left through its end, a `break` or a `return`, takes semaphore, user lock and log lock in that order and waits with nothing held |
| LockPrograms.AgentIsAccepted | src/network/broadcastagent.c:39-52 | the agent's loop passes the check |
| LockPrograms.ClientThreadIsAccepted | src/clientthread.c:22-232 | so does a client thread: login with the `return` out of the locked search, kick walk with its `break`, pause, resume, session end |
| LockPrograms.SearchBalances | src/user.c:145-155 | the search that returns out of its loop has given the lock back first |
| LockPrograms.AgentWalksUnderSemaphore | src/network/broadcastagent.c:39-52 | in every trace of the agent the user lock is taken only with the semaphore held |
| LockPrograms.PauseTakesAndKeeps | src/network/broadcastagent.c:107-113 | every completed pause has taken the semaphore, stored the flag with it, and kept it |
| LockPrograms.ResumePosts | src/network/broadcastagent.c:116-122 | every resume posts it |
| LockPrograms.RegistryTakesTheLock | src/user.c:17-177 | whatever comes of them, the search for a record, its creation, its removal and a login take the user lock |
| LockPrograms.WalksTakeTheLock | src/user.h:39-47 | so does every walk, however it is left |
| LockPrograms.LockedReturnsFail | src/clientthread.c:132-138 | a `return` in place of the kick walk's `break`, or out of a search still locked, fails the check |
| LockPrograms.FailedAllocationKeepsTheLock | src/user.c:23-26 | a trace of the locked half of `create_User`, its failing branch included, keeps the order and gives everything back if and only if it gives the user lock back |
| LockPrograms.LeakingTrace | src/user.c:25-26 | with `malloc` failing there is a trace that ends with the user lock taken |
| LockRings.TracesAreSafe | src/core/logger.c:342-356 | every interleaving of any number of checked threads keeps mutual exclusion and the order, with the semaphore of a pause kept by its thread |
| LockRings.TouchesExclude | src/network/broadcastagent.c:41-50 | no two threads touch the list, the log buffer or the chat under the semaphore at once, and while a pause is kept nobody sends from the queue |
| LockRings.ServerThreadsStart | src/clientthread.c:22-232 | every trace of the agent or of a client thread may start such an interleaving |
| LockRings.WaitsHoldNothing | src/network/broadcastagent.c:39-43 | nobody waits for the queue or for the semaphore, or lifts a pause, with a lock or the semaphore in hand, and a pause is kept with the semaphore alone |
| LockRings.OnlyRing | src/network/broadcastagent.c:107-113 | a ring of threads of any length that wait for each other's semaphore or locks exists if and only if the thread that keeps a pause pauses again |
| LockRings.LocksNeverBlock | src/user.h:39-47 | if nobody can move, nobody holds a lock, and whoever is left waits for the queue, for the semaphore a pause keeps, or posts one that nobody keeps |

## Left out

- Socket creation, bind, listen, accept, port probing and signal handling: a connection is a step with a fresh identity.
- Command-line options, help text and the command table: the session receives an abstract command; `/shutdown` behaves like an unknown command, as in the code.
- Reuse of descriptors after `close`, partial reads and failed sends.
- Clock and calendar calls and the unfinished duration code.
- Terminal colours, hexdumps and file locking.
- The disconnect reason for a connection closed by the client: the loop is left only with a status that never equals it.
- `build_Server_response_Special`: the same tail as `build_Server_response` with another sender.
- The single-file mode of the logger: the application always asks for one file per thread.
- `remove_Entry`: nothing calls it; its three unlink cases are those of the user list.
- Logger.Log.FindPath: the list of thread names is a sequence here, so relinking of its nodes is not captured; the same list is on the heap in `UserRegistry`.
- Logger.Log.Register: stated without a flush between its halves; `FlushBetween` and `RegisterAround` state the case with one.
- ChatServer.Server.AgentRound: the object runs one thread's code at a time; interleaving with others is in the transition system.
- Handing a command, an announcement or a chat message to the queue, and the flag and semaphore of pause and resume, are steps of the transition system only; as methods they would be single assignments.
- LogFormat.FormatMessage: formats whose expansion does not fit the buffer, where the code writes past it.
- Wire.NetworkReceive: bodies longer than the union, where the code reads past it.
