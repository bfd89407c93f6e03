# A beacon-based distributed counting lock, verified

The repository is a lock without a leader. A process announces each resource it wants in UDP
broadcasts, listens for competitors, announces ACQUIRING, waits for a collision window, looks into
the table of what the others announced, and either commits to ACQUIRED or resets and backs off. A
thread per resource repeats the current state every beacon interval. Nothing in the code says why
at most `count` processes hold a resource. This project states why, proves it over all runs, proves
exactly when it stops being true, and proves that a lock object whose `acquire` returns true is one
of at most `count` holders in the system the proof is about.

Notation: B is the beacon interval, S the number of sensed beacons (3 in the source), D the longest
delay of a packet, and L the loss bound: of any L consecutive packets of one sender about one
resource every receiver gets at least one (L = 1: nothing is lost).

## How it is built

- `Protocol`: one process: resource states, member table, reaction to a packet, steps of its own.
- `Network`: all processes, an integer clock, and the broadcast medium. Packets may be delayed
  up to D, reordered, duplicated and lost (within L). Processes may crash at any time. Only packets
  and the beacons of claimed resources are urgent; the timers of the acquiring thread may be
  late by any amount, which only adds runs. Beacons may come at any time, not only when due.
- `Invariants`, `PairSteps`, `Preservation`, `Survivors`: the inductive invariant. For every
  ordered pair of processes and every shared resource it says (A) whoever was already trying when I
  announced ACQUIRING is about to hear of it; (B) whoever began to listen later is aborted by one of
  my ACQUIRING packets in time or learns of my hold before its check; (C) whoever is at the commit
  check knows every holder; (X) no two processes are at the commit check of one resource.
- `Traces`: runs together with their steps. `Exclusion`, `Tables`, `Queries`: the results over all
  runs. `Tightness`: when the timing condition fails, as many processes as want a resource all hold
  it. The condition is one for all loss rates, (L-1)·B + D < S·B; it is D < S·B without loss, and
  D < B when any S-1 packets in a row may be lost.
- `Progress`: the system can always move on, and a process that is left alone can succeed.
  `Undisturbed`: in every run an attempt that nothing disturbs does succeed.
- `Sharing`: the lock is not too strict either: any group up to the count can share a resource.
- `Answers`: what a query's answer means, for the past and in every later state.
- `BeaconThread`: the beacon thread against `setState`, with the lost wakeup. `Threaded`: the system
  with such a thread behind every resource, started at any time before the resource is first set, and
  without the assumption that claimed resources are announced in time. With threads that park in less
  than a window it reaches no state that `Network` does not reach. `JointRuns`, `SlowParking`,
  `ThreadedTightness`: exactly when that system excludes.
- `LockSpec`, `LockObject`: the lock and its resources as classes whose methods update fields in
  place, proved against functions of the packets that arrive while they wait. `LockLaws`,
  `LockResults`, `Hearing`, `Retrying`, `Asking`: what those functions guarantee. `LockRefines`: every acquisition and every
  query of the lock object is a path of steps of `Protocol`. `LockInNetwork`: such a path, interleaved
  in any way with ticks, beacons, the steps of the other processes and every permitted loss, is part
  of a run of `Network`. `LockAlone`: such runs exist.
- `Wire`, `WireLock`: the byte buffer and the packet format. `Strings`, `Tokenizer`, `Replace`,
  `ResourceSpec`: searching and cutting strings, the string tokenizer for delimiters of any length,
  in-place replacement, and the resource options of the command-line tool.

The environment of the lock object is a finite script of arrivals, one for each wait. A script that ends
before the acquire loop does leaves it `Unfinished`; every result about the loop covers that
outcome too, so nothing is assumed about how many attempts there are.

Assumed throughout: process ids are distinct (a lock discards packets with its own id), a lock is
used for one acquisition and release or for one query, and switching phase is atomic with respect to packets.

## Model

| member | source | states |
|---|---|---|
| Exclusion.CountingExclusion | src/DistributedLock.cc:447-535 | in every reachable state, for every resource and count c, at most c live processes that declare c are ACQUIRED, the transient ACQUIRED of a failing commit included |
| Exclusion.LosslessExclusion | src/DistributedLock.cc:396-445 | the bound holds without loss when D < S·B, whatever the order of delivery |
| Exclusion.LossyExclusion | src/DistributedLock.cc:54-73 | the bound holds when all but one of any S consecutive packets of a link may be lost, if D < B: `sense_beacons` is the redundancy |
| Tightness.ExclusionIffTimely | src/DistributedLock.cc:411-427 | for every system, resource r and count c: at most c processes hold r in every reachable state if and only if no more than c processes declare c for r, or (L-1)·B + D < S·B |
| Tightness.AllGetIt | src/DistributedLock.cc:481-515 | when the condition fails, any set of processes that share a resource can all come to hold everything they want |
| Tightness.SourceTimes | src/DistributedLock.h:172-174 | with 50 ms and 3 beacons, and more contenders than the count: without loss the lock excludes if and only if D < 150 ms, with up to two packets lost in a row if and only if D < 50 ms |
| Sharing.AnyGroupHolds | src/DistributedLock.cc:141-153 | the lock counts: in every system, any c or fewer processes that declare count c for a resource can come to be exactly its live holders, whatever else they declare |
| Sharing.HoldersCounted | src/DistributedLock.cc:141-153 | in a timely system the number of live holders is n in some reachable state if and only if n is at most the count and at most the number of contenders |
| Survivors.RunInv | src/DistributedLock.cc:557-591 | every state of every run satisfies the invariant (A), (B), (C), (X) |
| Exclusion.KnowledgeAtCommit | src/DistributedLock.cc:82-96 | a process at the commit check has every current holder of its group recorded as ACQUIRED |
| Exclusion.TrueCountAtCommit | src/DistributedLock.cc:141-153 | the number counted by `isAcquirable` is never below the true number of holders |
| Exclusion.CommitSeparation | src/DistributedLock.cc:416-427 | two collision windows for a shared resource that pass undisturbed begin more than S·B apart, and so do the commits of processes whose timers are prompt, released or not |
| Exclusion.HolderSurvived | src/DistributedLock.cc:489-506 | whoever is ACQUIRED passed a collision window of at least full length; no timing condition |
| Exclusion.NoHoldAndWait | src/DistributedLock.cc:471-534 | whoever listens, waits in ACQUIRING, backs off, has given up or queries holds nothing; no timing condition |
| Exclusion.AllOrNothing | src/DistributedLock.cc:503-523 | the step that ends an attempt leaves every resource ACQUIRED or every resource IDLE with an empty table |
| Tables.TableIsLastDelivered | src/DistributedLock.cc:82-96 | at every point of every run an entry of p exists exactly when, since the last reset, a packet of p was delivered while the resource was not IDLE and passed the count filter, and it is the last such packet with its time; no timing condition |
| Tables.TableSoundness | src/DistributedLock.cc:557-574 | every table entry repeats a packet really sent by that process about this resource, received since the last reset and sent no earlier than that reset minus D |
| Tables.StaleHolderForgotten | src/DistributedLock.cc:155-163 | a process that sent no ACQUIRED after time x does not count in a table reset later than x + D |
| Tables.IdleTableEmpty | src/DistributedLock.cc:569-574 | an IDLE resource remembers nobody |
| Queries.QueryComplete | src/DistributedLock.cc:346-394 | a query that ends while some process held the resource ever since it began answers "busy", and does not end with its short listen |
| Queries.LongListenSuffices | src/DistributedLock.cc:360-362 | the second timing condition of `QueryComplete` follows from the first when `max_backoff` exceeds `sense_beacons` |
| Answers.AnswerStands | src/DistributedLock.cc:346-394 | in every reachable state: if q has answered "not busy", no other live process has held the resource ever since the query began |
| Answers.AnsweredBusyIff | src/DistributedLock.cc:201-212 | in every run, the step that ends a query answers "busy" if and only if the last counting packet delivered from some process since the last reset said ACQUIRED; no timing condition |
| Answers.BusyIsRecent | src/DistributedLock.cc:201-226 | "busy", answered to a query begun with the resource IDLE: some other process sent an ACQUIRED packet about it no earlier than D before the query began |
| Asking.AnswerIs | src/DistributedLock.cc:346-394 | the object's query takes (S+1)·B, or 2·M·B (M = `max_backoff`) from the first foreign packet about a known resource on; it sees a holder if and only if the last word of some process about the resource, heard or else recorded before, was ACQUIRED |
| Asking.StaleBusy | src/DistributedLock.cc:346-394 | a query on a resource that is not IDLE starts from what was recorded: an input that is answered "busy" though nothing was heard |
| Progress.TimeNeverStuck | src/DistributedLock.cc:54-73 | from every state of the system steps lead to one tick later: no duty to deliver or to send a beacon blocks the clock, so the results over all runs are not empty |
| Progress.LeftAloneAcquires | src/DistributedLock.cc:447-535 | in every system there is a run in which a given process holds all its resources after two windows, and one for every amount by which its two timers are late |
| Undisturbed.UndisturbedSucceeds | src/DistributedLock.cc:471-515 | in every run, an attempt that is reached by no foreign ACQUIRING about its resources and finds room at each check never resets; announced, waited and checked once per resource, it holds everything |
| BeaconThread.BeaconsOnTimeIff | src/DistributedLock.cc:54-73 | every claim is announced again within B in every run if and only if the thread parks within less than S·B of testing for IDLE |
| BeaconThread.SleepsThroughClaim | src/DistributedLock.h:137-141 | otherwise both wakeups can be lost: a run with the resource ACQUIRING, its thread parked and its beacon overdue |
| Threaded.ThreadsDischarge | src/DistributedLock.cc:54-73 | with a beacon thread behind every resource and no duty to announce, every run stays within the reachable states of `Network`, if a thread parks within less than S·B |
| Threaded.ThreadedExclusion | src/DistributedLock.cc:54-73 | so the counting bound holds for the system with its threads |
| ThreadedTightness.ThreadedExclusionIff | src/DistributedLock.cc:54-73 | for every system with threads, resource and count: the bound holds in every run if and only if no more processes declare the count than it allows, or (L-1)·B + D < S·B and the threads take less than S·B to park |
| SlowParking.SlowAllGetIt | src/DistributedLock.cc:61-66 | with slower threads any set of processes that share a resource all come to hold it, in timely systems too, without loss |
| ThreadedTightness.LateAllGetIt | src/DistributedLock.cc:481-515 | and when the network is not timely, with threads of any speed |
| LockObject.Resource.BeaconPass | src/DistributedLock.cc:61-66 | one pass up to the timed wait: IDLE parks the thread and says nothing, any other state is announced; it is the test of `BeaconThread`, and the parking if IDLE |
| LockObject.Resource.SetState | src/DistributedLock.h:137-141 | the state is set and announced with name and count, the beacon thread is awake afterwards, and stands where `BeaconThread` has it |
| LockObject.Resource.UpdateMember | src/DistributedLock.cc:82-96 | the entry is inserted or overwritten if the counts agree or the resource is QUERYING, else nothing changes |
| LockObject.Resource.IsAcquirable | src/DistributedLock.cc:141-153 | for every set of exactly the ids recorded as ACQUIRED: true if and only if it has fewer elements than the count |
| LockObject.Resource.Reset | src/DistributedLock.cc:155-163 | IDLE, announced, and the table emptied |
| LockObject.DistributedLock.ActionPerformed | src/DistributedLock.cc:557-591 | tables are those of `HandlePacket`, and the waiting thread is woken exactly by the packets that notify its condition |
| LockObject.DistributedLock.AwaitUntil | src/DistributedLock.cc:537-555 | packets are handled one by one until one ends the wait or the deadline is reached |
| LockObject.DistributedLock.SetStates | src/DistributedLock.cc:473-479 | the round over the resource map meets the function whose closed form is `SetStatesIs` |
| LockObject.DistributedLock.CommitAll | src/DistributedLock.cc:501-512 | commits in order up to the first resource without room |
| LockObject.DistributedLock.ResetAll | src/DistributedLock.cc:520-523 | resets every resource |
| LockObject.DistributedLock.TryOnce | src/DistributedLock.cc:471-523 | one attempt: state, announcements, time and verdict are those of the specification |
| LockObject.DistributedLock.AcquireLoop | src/DistributedLock.cc:471-534 | the whole loop meets `Acquire`, windows and interrupted listens counted |
| LockObject.DistributedLock.AdquireLock | src/DistributedLock.cc:447-535 | all resources: false at once if there are none, else STARTING everywhere and the loop; true leaves every resource ACQUIRED, false every one IDLE with an empty table and after `retry_max` windows |
| LockObject.DistributedLock.AdquireLockOf | src/DistributedLock.cc:396-445 | one resource, created if unknown, and the loop; true leaves it ACQUIRED, false IDLE with an empty table |
| LockObject.DistributedLock.CreateResource | src/DistributedLock.cc:320-332 | the known resource, or a new one that is IDLE with count 1; the map stays ordered |
| LockObject.DistributedLock.DefineResource | src/DistributedLock.cc:175-182 | created if unknown; only a count above 1 is set |
| LockObject.DistributedLock.ReleaseLock | src/DistributedLock.cc:334-344 | RELEASED and announced, and its beacon thread stopped, no other; an unknown name changes nothing |
| LockObject.DistributedLock.ReleaseAll | src/DistributedLock.cc:278-289 | RELEASED on every resource, in order, every beacon thread stopped, and the answer true |
| LockObject.DistributedLock.QueryLock | src/DistributedLock.cc:346-394 | the table after hearing the others out, and nothing else changed |
| LockObject.DistributedLock.ListenOn | src/DistributedLock.cc:369-383 | the loop that subtracts elapsed times ends, and equals one uninterrupted wait |
| LockObject.DistributedLock.IsBusy | src/DistributedLock.cc:201-226 | true if and only if some entry of the queried table says ACQUIRED |
| LockLaws.SetStatesIs | src/DistributedLock.cc:473-492 | a `setState` round sets every target, keeps every table, announces each target once and in order |
| LockLaws.ResetFromIs | src/DistributedLock.cc:520-523 | a reset round leaves IDLE with empty tables and announces each target once |
| LockLaws.CommitIs | src/DistributedLock.cc:501-512 | exactly the targets before the first one without room become ACQUIRED and are announced; success when there is none |
| LockLaws.WokenIff | src/DistributedLock.cc:537-555 | a wait is cut short exactly when a packet that notifies its condition arrives before its deadline |
| LockLaws.ConcludeIs | src/DistributedLock.cc:497-523 | after the window: everything committed, or everything reset, with exactly these announcements |
| LockResults.AttemptWinsIff | src/DistributedLock.cc:471-515 | on any known targets an attempt succeeds if and only if no foreign ACQUIRING about a known resource arrives while it listens, none about a target or a claimed resource arrives in the window, and for every target fewer processes than its count are recorded as ACQUIRED at the check; it then takes at least 2·S·B and less than 3·S·B |
| LockResults.AttemptLeaves | src/DistributedLock.cc:471-529 | won: all ACQUIRED; lost: all IDLE and empty; interrupted: none held; ACQUIRING announced once per window, IDLE once per failure |
| LockResults.AcquireAccounts | src/DistributedLock.cc:408-440 | true only with every target ACQUIRED, false only with every target IDLE and after exactly `retry_max` failed windows; interrupted listens consume no retry; windows equal ACQUIRING announcements |
| LockResults.AcquireEnds | src/DistributedLock.cc:408-440 | however a started loop over any known targets ends: true, all held; false, all IDLE and empty after `retry_max` > 0 windows; cut off, none held |
| LockResults.IdleIgnores | src/DistributedLock.cc:569-574 | an IDLE resource takes no packet in, however long the wait |
| Retrying.AttemptBacksOff | src/DistributedLock.cc:525-529 | an attempt that was interrupted or lost ends exactly one backoff time after that, its tables holding the last counting packets heard meanwhile; one that won ends at once |
| Retrying.AttemptTakes | src/DistributedLock.cc:471-529 | won: the listen and one window; lost: the listen, at most a window, and the backoff; interrupted: less than the listen, and the backoff |
| Retrying.AcquireTakes | src/DistributedLock.cc:408-440 | the whole loop takes at least all backoffs of failed attempts and a listen before each window, and at most those, all listens and one window for each window entered |
| Retrying.GivesUpLate | src/DistributedLock.cc:436-439 | with the listen and backoff times of the source, false comes no sooner than `retry_max` times a window and a backoff, for `acquire` of all resources and of one |
| Hearing.WaitIs | src/DistributedLock.cc:537-555 | a wait handles exactly the packets that arrive before its deadline, up to the first that notifies its condition, and ends with that arrival or at the deadline |
| Hearing.TableIsLastHeard | src/DistributedLock.cc:82-96 | during one wait: each entry is then the last packet of that process that passed the count filter, with its time; without one it is untouched |
| LockRefines.PacketIsOnPacket | src/DistributedLock.cc:557-591 | handling a packet in the object is the process's reaction in `Protocol`; the phase moves exactly when the condition waited on is notified |
| LockRefines.WaitIsPath | src/DistributedLock.cc:537-555 | a wait is a path of packet receptions |
| LockRefines.TryIsPath | src/DistributedLock.cc:471-523 | an attempt is a path of the process, guards, times and announcements included |
| LockRefines.AcquireIsPath | src/DistributedLock.cc:408-440 | so is the loop, from any retry count; it ends held, given up, or resting |
| LockRefines.AdquireLockIsPath | src/DistributedLock.cc:447-535 | so is `acquire` with its first STARTING round |
| LockRefines.AskIsPath | src/DistributedLock.cc:346-394 | so is a query, with the same answer |
| LockRefines.ReleaseIsPath | src/DistributedLock.cc:278-344 | releasing one resource or all of them is a path of the process, with the same announcements |
| LockInNetwork.EventIsStep | src/DistributedLock.cc:42-52 | every event of a path is an enabled step of the distributed system with the same effect, whatever permitted set of packets is lost, and puts the rest of what the object announces on the network for everybody else |
| LockInNetwork.PathInNetwork | src/DistributedLock.cc:471-534 | a path interleaved with ticks, own beacons and the steps, crashes and losses of all others is a segment of a run, and ends there with the state the path ends in |
| LockInNetwork.AcquiredInNetwork | src/DistributedLock.cc:447-535 | an `acquire` that returns true is a sequence of events of the process, and after every such sequence, in every run from a reachable state of a timely system that contains it, the process is one of at most `count` live holders of each of its resources |
| LockInNetwork.AskedInNetwork | src/DistributedLock.cc:201-226 | likewise for a query: the object's `isBusy` answers true in every run in which somebody else has held the resource since the query began |
| LockAlone.PathHappens | src/DistributedLock.cc:471-534 | from every state in which a process is alone, whatever its lock object does while it hears nothing happens in a run |
| LockAlone.AloneAcquires | src/DistributedLock.cc:447-535 | in every system the lock object of any process, left alone, acquires at its first attempt, in a run from the initial state: what `AcquiredInNetwork` speaks of exists |
| Wire.WordRoundTrip | src/Packet.h:46-61 | a 32-bit word written most significant byte first is read back |
| Wire.DLPacket.Build | src/DLPacket.cc:62-76 | the buffer holds exactly `Encode` of the fields |
| Wire.DLPacket.FromDatagram | src/DLPacket.cc:4-22 | for every byte string: the fields are exactly `Decode` of the bytes, or null exactly when the source would read past their end |
| Wire.ReadResource | src/DLPacket.cc:11-21 | the name loop reads at most 64 bytes, up to the first NUL, and says whether it stayed inside the buffer |
| Wire.ReadableIff | src/DLPacket.cc:13-19 | a decoder stays inside the datagram exactly when it has 74 bytes, or 10 and a NUL behind them |
| Wire.RoundTrip | src/DLPacket.cc:62-76 | decoding what was built gives every field back, the name cut to 64 bytes and then at its first NUL, without reading past what was written |
| Wire.Layout | src/DLPacket.cc:62-76 | byte 0 is the state, bytes 1-4 and 5-8 the id and the count most significant byte first, byte 9 the options; a name of at most 64 bytes follows whole with one NUL, of a longer one the first 64 bytes |
| Wire.DecodedFields | src/DLPacket.cc:4-22 | what each field of a decoded datagram is, in terms of its bytes |
| Wire.ReceivedIs | src/DLPacket.cc:11-21 | the received name is the name's part before its first NUL, of its first 64 bytes |
| Wire.NameArrivesIff | src/DLPacket.cc:72-75 | a name arrives unchanged if and only if it has at most 64 bytes and no NUL |
| Wire.RoutesExactly | src/DistributedLock.cc:299-307 | such a name reaches the receiver's resource of exactly that name |
| Wire.LongNamesConfused | src/DLPacket.cc:72-75 | names that agree in their first 64 bytes are not told apart |
| WireLock.DecodedAsAnnounced | src/DistributedLock.cc:42-52 | the receiver decodes exactly the packet that was announced if and only if its name fits on the wire |
| WireLock.AnnouncedBytes | src/DistributedLock.h:35-42 | the bytes of an announcement: the number of its state in the order of the protocol, the sender, the count, no options, and the name with a NUL if it has at most 64 bytes |
| Tokenizer.TokensAreSegmentsIff | src/StringTokenizer.cc:3-48 | the tokens are the non-empty segments between delimiters for every string if and only if no proper prefix of the delimiter is also its suffix |
| Tokenizer.CleanedPieces | src/StringTokenizer.cc:3-48 | for every delimiter: the constructor leaves the pieces between the delimiters, cut from the left, without the empty ones inside, joined again, with one delimiter trimmed at the front and one at the end |
| Tokenizer.DrawnPieces | src/StringTokenizer.cc:88-109 | for every delimiter: the tokens drawn from a string are its pieces, without the last if that is empty |
| Tokenizer.SplitOfJoined | src/StringTokenizer.cc:88-109 | splitting a string joined from words gives the words back, for such a delimiter |
| Tokenizer.SplitIsWords | src/StringTokenizer.cc:3-48 | segments are non-empty, hold no delimiter, and together are the string with its delimiters erased |
| Tokenizer.StringTokenizer.constructor | src/StringTokenizer.cc:3-48 | for every string and delimiter the tokens are those of `Cleaned`; for an unbordered delimiter, the non-empty segments of the original string |
| Tokenizer.StringTokenizer.CollapseDelimiters | src/StringTokenizer.cc:14-28 | the string becomes `Collapsed`; with an unbordered delimiter no two delimiters in a row are left and the segments are unchanged |
| Tokenizer.StringTokenizer.CountTokens | src/StringTokenizer.cc:51-79 | the number of tokens left, at every point |
| Tokenizer.StringTokenizer.HasMoreTokens | src/StringTokenizer.cc:82-85 | whether any token is left |
| Tokenizer.StringTokenizer.NextToken | src/StringTokenizer.cc:88-109 | returns and removes the first token; "" when there is none |
| Tokenizer.AllTokens | src/StringTokenizer.cc:82-109 | taking tokens until none is left gives those the constructor left; with an unbordered delimiter the non-empty segments in order |
| Strings.PiecesAre | src/dist_lock.cc:118-124 | the pieces, joined by the pattern, are the string, and each runs up to the first occurrence |
| Strings.PiecesUnique | src/dist_lock.cc:118-124 | they are the only pieces like that |
| Replace.StringReplace | src/dist_lock.cc:118-124 | the loop ends, also when the replacement contains the pattern, with the leftmost non-overlapping replacement on the original string |
| ResourceSpec.AtoiOfPrinted | src/StringTokenizer.cc:112-115 | a printed number is read back |
| ResourceSpec.PrintedForm | src/dist_lock.cc:429-432 | a number is printed in digits without leading zeros, with a sign only if it is negative |
| ResourceSpec.AtoiReads | src/StringTokenizer.cc:112-115 | white space in front and anything behind a number are ignored, a sign is obeyed |
| ResourceSpec.OptionMeans | src/dist_lock.cc:281-302 | a name alone means count 1, a name and a number that count or an error, an empty argument the usage, and a name without number an error; what follows the number behind another colon does not count |
| ResourceSpec.Parse | src/dist_lock.cc:281-302 | the option branch, through the tokenizer, gives the meaning of the specification, errors included |
| ResourceSpec.RenderedReadIff | src/dist_lock.cc:429-432 | a rendered resource is read back if and only if its name is non-empty and without ':' and its count is a positive `int` |
| ResourceSpec.AcceptedIsFit | src/dist_lock.cc:286-297 | whatever the option accepts can be rendered and read back |
| ResourceSpec.ParseAll | src/dist_lock.cc:281-302 | accepted if and only if every argument means a resource, else refused with the meaning of the first that does not; accepted, each name has the count of the last argument that names it, and no other name is there |
| ResourceSpec.Render | src/dist_lock.cc:427-436 | the list is the items joined by commas, nothing behind the last |
| ResourceSpec.ItemsAre | src/dist_lock.cc:429-432 | one item for each resource, in order: name, colon, count in decimal as an `int` |
| ResourceSpec.ListRoundTripIff | src/dist_lock.cc:427-437 | the list, split at its commas and read as options, gives the map back if and only if every name is non-empty and without ':' or ',' and every count is an `int` |
| ResourceSpec.CommaIsLost | src/dist_lock.cc:281-302 | the option accepts a name with a comma, and the list does not give it back |

## Left out

- Sockets, `recvmsg`/`sendto`, threads as such, fork, exec, signals, the environment array, help texts: the network is a bounded-delay broadcast, everything else is input and output.
- Clocks and random numbers: an integer clock, and listening times anywhere in [S·B, 2·S·B); backoff times are arbitrary, except in `Retrying.GivesUpLate`. Nothing probabilistic is claimed, nor freedom from starvation: two contenders may collide for ever.
- Termination of `adquire_lock`: interrupted listens do not advance the retry counter, so the loop is followed over finite scripts of any length.
- Data races between packet handling, reset and condition waits, and spurious wakeups: a packet is handled atomically with the phase switch it causes. The beacon thread is the exception and has its own model. A packet that notifies a condition just as the wait times out is taken to come before or after.
- The `on_start` callback, the wait in `waitForReady`, and joining the beacon thread in `stop`: a released resource is terminal, as the repository uses it; reuse after release is not modelled, nor several threads on one lock.
- `adquire_lock` of one name on a lock with further claimed resources: `LockRefines` and `LockInNetwork` treat a lock whose resources are all targets of the acquisition; `LockLaws`, `LockResults` and the methods have no such restriction.
- `isAny` and `isWaiting`: contenders that back off are silent and other queriers count as members, so there is no clean statement.
- `removeResource`, `removeMember`, the destructors, `hasOption`, `setOption`: plumbing. The readers and writers of 16 and 64 bits: like those of 32.
- What a decoder finds past the end of a datagram that is not `Readable`: `Wire.DLPacket.FromDatagram` answers null there, and `Wire.ReadableIff` says exactly when that is.
- `nextToken` with another delimiter and `filterNextToken`.
- ResourceSpec.Parse: a count outside `int` is reported as `Undefined`, because `atoi` has no defined value for it.
- Names on the wire are byte strings; the exclusion results take names as given, so names longer than 64 bytes or with a NUL are outside them (`WireLock.DecodedAsAnnounced` is the condition).
