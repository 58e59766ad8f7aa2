# A verified model of a QEMU driver

The repository starts, watches, reconfigures and stops QEMU virtual machines. This project
models the parts of it whose correctness depends on interleavings, on arithmetic or on the exact
text that is produced, and proves what holds of them, over every run and every input. Where an
expected property does not hold of the code, the exact condition under which it does is proved
instead, together with a run or an input that shows the failure.

Concurrent parts are written twice. A step system (`Epoll`, `ForkOwnership`, `SystemdProtocol`,
`SystemdRestart`, `StopProtocol`, `MemoryOverlap`, `CpuOverlap`, `PortOverlap`, `RbdOverlap`,
`TapOverlap`) has one step for each indivisible action of each goroutine or call, of the kernel
and of other clients; its theorems quantify over all runs. A class (`EpollWaiter.Waiter`,
`ForkStrategy.Strategy`, `SystemdWaiter.Waiter`, `SystemdStrategy.Strategy`,
`StopDriver.Driver`) has the fields and methods of the Go object, and each method is proved to
perform the steps of that system; the systems named `Overlap` are proved to do, for a call that
nothing overlaps, what the methods of `MemoryHotplug`, `CpuHotplug`, `PortOccupancy`, `RbdPlug`
and `TapPlug` do. Sequential code is a class or a method with its loops, proved equal to a
function about which the lemmas speak.

Run `dafny verify dfyconfig.toml` to check everything.

## What is proved

- **Process exit, fork path** (`Epoll`, `EpollWaiter`, `ForkOwnership`, `ForkRestart`,
  `ForkWakeups`, `ForkStrategy`). No wake-up is lost before shutdown, and every schedule of the
  loop delivers the ones there are; no channel is closed twice, and an fd number whose channel
  has closed can never be watched again: its map entry stays. A channel can be closed before its
  process exits, exactly when `Add` was called for an fd number that was still in the live part
  of the batch `epoll_wait` had returned. The shutdown event leaves the loop with the mutex
  held, so no later `Add` or `Remove` returns. The strategy may be started any number of times.
  A start whose pidfd the waiter accepts keeps its promises (one close of the number after a
  `Remove` that returned nil, and a live watch that is never lost) exactly when no goroutine of
  an earlier start can still run; otherwise that goroutine can close the new pidfd, after which
  the exit of the running process is never reported. `Close` can be followed by a second close
  of the same number exactly when a goroutine can still run by then, which after a start without
  strays means: when the exit has been processed already. The second close can hit a descriptor
  of somebody else, and a start makes it possible that another client of the waiter loses its
  wake-up exactly when such a goroutine is left. A start that gets a number which has been used
  before returns an error while its process runs.
- **Process exit, systemd path** (`BusEscape`, `SystemdWaiter`, `SystemdProtocol`,
  `SystemdRestart`, `SystemdStrategy`). The bus-path escape round trip holds exactly when all
  bytes are at least 0x10, because `%x` does not pad, and a signal is recognised as one about
  its own unit exactly then; below it a handler can close the channel of another unit.
  `FindRunning` never misses an exit; `Start` misses it exactly when the handlers of the unit's
  signals have all run before `Add`. Whether `IsRunning` answers false after the exit depends on
  which of two assignments to `unitName` came first. A strategy can be started again safely
  exactly when no `watch` goroutine of an earlier start is still to run; otherwise it closes the
  new channel early, or both goroutines close the same channel, which panics. A later call that
  fails or finds its unit gone can strand such a goroutine for ever, or make it close a nil
  channel, each with its exact condition.
- **Driver lifecycle** (`ResetFilter`, `StopProtocol`, `StopDriver`). The RESET filter works as
  intended exactly when both RESETs of every pair come less than 100 ms apart; after one late
  pair it never drops anything again. Every SHUTDOWN is published as a stop event, in order. A call of `Stop` that returns nil from status Running is
  right about the exit exactly when, as it takes the mutex, no watcher can publish an exit: none
  that has already looked at its context (cancelling it then is too late), no uncancelled one of
  an earlier process whose exit is reported, and not the current one because the execution
  strategy closes its exit channel early. Every schedule of `Stop` ends, after a bounded number
  of steps, whatever Quit and Kill answer; once the exit channel is closed no timer is needed,
  because a watcher publishes before it takes the mutex. The answer is an error exactly when
  Kill failed or the exit was awaited and timed out. A running process can lose its monitor
  exactly when a watcher is left that is out of its loop, is cancelled or belongs to an earlier
  process whose exit is reported, or when the exit channel of the running process may be closed
  early. Which channels may be closed early, and which exits are never reported, is a parameter
  there. `Epoll.EarlyCloseExactly` and `SystemdRestart.RestartIsSafeExactly` say when a strategy
  closes a channel early; `SystemdProtocol.StartMissesExactly`, `Epoll.CloseLosesExactly` and
  `ForkRestart.LosesTheWatch` are about exits that are never reported.
- **PCIe** (`PcieAllocator`, `PcieLayout`, `PortOccupancy`, `MachineDescription`). `Allocate`
  computes a closed form, from which the layout theorems follow; hot-plugging over all histories
  never puts two things behind a port and accounts for every free port.
- **Hot-plug** (`CpuHotplug`, `MemoryHotplug`, `TapPlug`, `RbdPlug`). Retried CPU and volume
  hot-plugs converge. A failed roll-back of a memory growth blocks every later growth, and apart
  from used-up indices nothing else does. A tap plug closes every descriptor it opened; after a
  failure its vhost descriptors stay in QEMU, at most one for each queue, and once `netdev_add`
  has been accepted no retry succeeds until an unplug.
- **Hot-plugs that overlap** (`MemoryOverlap`, `CpuOverlap`, `PortOverlap`, `RbdOverlap`,
  `TapOverlap`). The driver takes no lock there, and each resource behaves differently.
  Overlapping growths of the memory can all succeed, and each leaves the memory it was asked for
  exactly when no other DIMM was plugged between its summary and its own; two that look for an
  index before either has plugged never both succeed. Overlapping CPU hot-plugs never plug more
  than the largest request, and one that returns nil is exact. Of the attaches that chose the
  same port at most one succeeds until a device is deleted, and a loser leaves a back end that
  blocks its name. Overlapping attaches of one RBD volume attach it if nothing fails, and at
  least one of them returns nil. Overlapping plugs of one adapter share descriptor names: the
  roll-back of one can take away what another has sent, exactly when one is still to send, to
  fail or to roll back; no tap descriptor stays behind when the roll-backs go through.
- **Canonical text** (`Identifiers`, `Smbios`, with `Text` and `Sorting`). Two node names are
  equal exactly when the first 180 bits of the digests are; a disk identifier or a set of
  cloud-init data owns its hash input exactly when no field has a NUL byte; the SMBIOS text does
  not depend on the order of the map and reads back exactly when keys and values avoid the
  separators.

Assumptions the proofs make explicit: the kernel's interest list is keyed by fd number;
`epoll_ctl` and the other monitor, D-Bus and system calls succeed or fail as parameters say; the
event fan-out delivers in order to each subscriber; the SHA-256 function is any function to 32
bytes; QEMU refuses an id that exists and deletes a device in one step; `Stop` and the watcher
are looked at with a monitor that is connected when `startWatcher` runs; a process number is
started once.

One comment disagrees with the code: `pidfd/epoll.go:139` says the mutex still needs to be
locked there, but it already is; the model follows the code.

## Model

| member | source | states |
|---|---|---|
| Epoll.SafeStep | pidfd/epoll.go:61-150 | Every action of a client, the kernel or the loop keeps: a registered fd maps to an open channel (except between the close and the removal from the interest list), no two fds share a channel, no channel is closed twice |
| Epoll.SafeRun | pidfd/epoll.go:61-150 | The same over every run from any such state, so every channel is closed at most once although entries stay in the map |
| Epoll.SpentForever | pidfd/epoll.go:65-79 | Once its channel has closed, an fd number keeps its entry for ever and is out of the interest list whenever the mutex is free: Add and Remove of it fail in every later state |
| Epoll.WatchableIffUnspent | pidfd/epoll.go:61-100 | Add of an fd number can succeed in some later state if and only if its channel has not closed |
| Epoll.NoLostWakeup | pidfd/epoll.go:118-150 | In every reachable state before shutdown, a watched fd whose process has exited is armed and ready, or in the part of the batch that the loop will act on, or the batch holds the wake-up event; also when Remove and Add fall between epoll_wait and the lock |
| Epoll.WakeupIsDelivered | pidfd/epoll.go:123-149 | Before shutdown, in whatever phase the loop is, there is a schedule of the loop's steps and epoll_wait alone that closes the channel of a watched fd whose process has exited, and ends in waiting |
| Epoll.EveryScheduleDelivers | pidfd/epoll.go:118-150 | Without a shutdown request every such schedule, whatever batches epoll_wait reports, is bounded, and once it cannot go on the channel of every watched fd whose process has exited is closed |
| Epoll.LiveIsDelivered | pidfd/epoll.go:131-149 | From every phase the loop alone reaches each event before the wake-up event of its batch and closes the channel registered there |
| Epoll.ReportedIsDelivered | pidfd/epoll.go:123-149 | For every batch that epoll_wait may return, each event before the wake-up event is acted on |
| Epoll.StuckForever | pidfd/epoll.go:84-97 | An entry whose number is out of the interest list, for instance because it was closed without Remove, makes Add and Remove of the number fail for ever |
| Epoll.DeafForever | pidfd/epoll.go:131-148 | If the loop will not come to an event of it either, its channel is never closed |
| Epoll.CloseLosesExactly | pidfd/epoll.go:118-150 | A client that closes a watched pidfd without Remove loses its wake-up for ever if and only if no event of it is in the part of the batch that the loop will act on |
| Epoll.ClosedMeansExitedOrStale | pidfd/epoll.go:141-147 | A closed channel's process has exited, unless the channel was registered while its fd number was pending |
| Epoll.StaleAddIsClosed | pidfd/epoll.go:131-148 | A pending event closes whatever channel the map holds when the loop reaches it |
| Epoll.EarlyCloseExactly | pidfd/epoll.go:61-150 | A channel registered for a running process can be closed before the exit if and only if Add was called while the fd number was in the live part of the returned batch |
| Epoll.BrokenForever | pidfd/epoll.go:131-137 | After the shutdown event no Add or Remove is ever granted the mutex |
| EpollWaiter.Waiter.Add | pidfd/epoll.go:61-82 | Performs exactly the Add step, and returns its channel or an error |
| EpollWaiter.Waiter.Register | pidfd/epoll.go:69-79 | The entry made before epoll_ctl and taken back on its error |
| EpollWaiter.Waiter.Remove | pidfd/epoll.go:84-100 | Performs exactly the Remove step; an epoll_ctl error leaves the entry |
| EpollWaiter.Waiter.HandleBatch | pidfd/epoll.go:131-149 | One pass over the buffer is a run of Lock, Process, Del and Unlock steps; it leaves the loop holding the mutex exactly when the batch has the shutdown event |
| EpollWaiter.Waiter.Sweep | pidfd/epoll.go:132-148 | The loop over the events ends where the steps of the system end |
| EpollWaiter.Waiter.HandleEvent | pidfd/epoll.go:133-147 | One event: leave, close and disarm, or ignore |
| ForkOwnership.InvRun | execution/fork.go:102-225 | The ownership invariant, in every interleaving of one strategy, any number of starts with their goroutines, the waiter and all other clients |
| ForkOwnership.RemoveNilClosesOnce | execution/fork.go:206-225 | In every run whose starts find no goroutine that can still run: if Close's Remove returned nil the quit channel is never closed later and the pidfd is closed exactly once, and a watched pidfd stays open, assigned and registered |
| ForkOwnership.ClosesExactly | execution/fork.go:110-121 | Over every run, restarts included: the current number is closed at most twice, and twice exactly when Close and a goroutine, of whichever start, both got to their close |
| ForkOwnership.NobodyLosesAWakeup | pidfd/epoll.go:118-150 | With the strategy as one client among others nobody loses a wake-up, double closes included (a number closed a second time is spent or has left the map, so what they can hit is a descriptor outside the waiter), as long as no start finds a goroutine that can still run |
| ForkRestart.LaunchIsSafeExactly | execution/fork.go:102-176 | A start keeps both promises in every continuation (one close after a nil Remove, no live watch lost) if and only if no goroutine of an earlier start can still run or the waiter refuses the number |
| ForkRestart.RestartRace | driver/driver.go:259-432 | From the initial state: start, exit, the batch handled, and a second start with another number before the goroutine has taken the mutex |
| ForkRestart.StrayGetsReady | execution/fork.go:110-121 | Any goroutine that can still run can be brought to its close while the new process is being watched |
| ForkRestart.LosesTheWatch | execution/fork.go:116-120 | It then closes the pidfd of the running process: IsRunning answers false and the exit is never reported |
| ForkRestart.LateClose | execution/fork.go:206-225 | The schedule in which Close closes the pidfd and a goroutine closes the number again, also when Remove returned nil |
| ForkRestart.SecondCloseHitsAnother | execution/fork.go:116-120 | A descriptor opened in between under the same number is closed by the second close |
| ForkRestart.DoubleCloseExactly | execution/fork.go:206-225 | Close can be followed by a second close of the number if and only if some goroutine can still run by then |
| ForkRestart.SurvivesInTheWindow | execution/fork.go:110-225 | After a start without strays that is the case exactly when the channel had been closed when Close was called |
| ForkWakeups.LaunchIsHeardExactly | execution/fork.go:102-176 | After a start every client of the waiter is told of every exit, in every continuation in which the others keep the closing rule, if and only if no goroutine of an earlier start can still run or the waiter refuses the number |
| ForkWakeups.StrayHurtsOthers | execution/fork.go:110-225 | The run in which the goroutine closes the descriptor that another client has opened under the number and added: its channel is never closed |
| ForkRestart.ReplacedPidfdLeaks | execution/fork.go:92-161 | A start while the old pidfd is open overwrites it, and it stays open in every later state |
| ForkRestart.SpentNumberIsNeverWatched | execution/fork.go:102-172 | A start that gets a number whose channel once closed fails in watch in every later state, with the process running, pidFd assigned and no goroutine |
| ForkStrategy.Strategy.FindRunning | execution/fork.go:61-100 | Nil, an error or a channel for each outcome of the pid file and pidfd_open, whatever the object did before; on success the launch and watch steps |
| ForkStrategy.Strategy.Start | execution/fork.go:126-176 | The launch and watch steps, on any object: the pidfd that was there is overwritten |
| ForkStrategy.Strategy.Watch | execution/fork.go:102-124 | Performs the watch step; on an error the pidfd stays assigned |
| ForkStrategy.Strategy.Read | execution/fork.go:111 | The goroutine reads quitCh when it runs, which may be a later one |
| ForkStrategy.Strategy.Reap | execution/fork.go:110-121 | The goroutine closes whatever pidFd is by then and resets it |
| ForkStrategy.Strategy.Close | execution/fork.go:206-225 | Remove and close, both attempted, pidFd not reset |
| BusEscape.PathBusEscape | systemd/escape.go:26-42 | The loop computes the escape of the whole string |
| BusEscape.PathBusUnescape | systemd/escape.go:44-62 | The index-jumping loop computes the recursive reading, with undecodable triples dropped |
| BusEscape.EscapeIsPathElement | systemd/escape.go:19-42 | Every output is a nonempty element of a D-Bus object path that does not start with a digit |
| BusEscape.RoundTripExactly | systemd/escape.go:26-62 | Unescaping gives the string back if and only if all its bytes are at least 0x10 |
| BusEscape.EscapeByteIs | systemd/escape.go:26-42 | A letter, or a digit that is not the first character, stands for itself; any other byte is "_" and its value in unpadded hexadecimal |
| BusEscape.PlainExactly | systemd/escape.go:26-42 | A string is its own escape if and only if it is a nonempty string of letters and digits that does not begin with a digit |
| BusEscape.UnescapeIs | systemd/escape.go:44-62 | "_" and two hexadecimal digits are a byte, "_" and two other characters nothing, and what remains stands for itself |
| BusEscape.EscapeInjective | systemd/escape.go:26-42 | No collision between such strings |
| BusEscape.EscapeCollides | systemd/escape.go:35 | After any bytes, 0x0a 'b' and 0xab have the same escape |
| BusEscape.LowBytesAreNotKept | systemd/escape.go:35-56 | A round trip that keeps the number of low bytes has lost other bytes, so no string with a low byte survives |
| SystemdWaiter.SafeRun | systemd/waiter.go:86-154 | Over every interleaving of Add, Remove and handlers the map holds only open channels, no two units share one and none closes twice |
| SystemdWaiter.QualifiesExactly | systemd/waiter.go:101-118 | The properties qualify if and only if the body is a dictionary with a nonzero InactiveEnterTimestamp and an ActiveState other than "active" |
| SystemdWaiter.TargetElsewhere | systemd/waiter.go:86-90 | A signal at a path outside /org/freedesktop/systemd1/unit/ is about no unit |
| SystemdWaiter.TargetOfUnitPath | systemd/waiter.go:86-118 | A signal at /org/freedesktop/systemd1/unit/ and the escape of a name without a byte below 0x10 is about that unit if the name has the prefix, InactiveEnterTimestamp is there and not zero, and ActiveState is there and not "active"; and about none otherwise |
| SystemdWaiter.TargetExactly | systemd/waiter.go:86-118 | A signal at its escaped path is recognised as one about a unit if and only if all bytes of the name are at least 0x10, the name has the prefix and the two properties are as above |
| SystemdWaiter.ExactDelivery | systemd/waiter.go:86-128 | In every reachable state handling it closes that unit's channel and no other if the prefix, the map and the two properties, written out, allow it, and changes nothing otherwise |
| SystemdWaiter.WrongUnitBelowSpace | systemd/waiter.go:91-126 | For every prefix of bytes from 0x10 up there are two names, one with a byte below, and a reachable state in which the handler of a signal about one closes the channel of the other |
| SystemdWaiter.Waiter.HandleSignal | systemd/waiter.go:86-128 | Performs exactly the Handle step, so that the statements about Target decide which channel closes |
| SystemdWaiter.Waiter.UnitOf | systemd/waiter.go:87-118 | The checks before the mutex, with every early return, name the unit or none |
| SystemdWaiter.Waiter.Add | systemd/waiter.go:130-141 | Performs the Add step; an error for a unit already waited for |
| SystemdWaiter.Waiter.Remove | systemd/waiter.go:143-154 | Performs the Remove step; an error for a unit not waited for |
| SystemdProtocol.NoFalseExit | execution/systemd.go:221-229 | The returned channel closes only after the unit has exited |
| SystemdProtocol.FindRunningNeverMisses | execution/systemd.go:87-106 | From every state of the waiter, wherever the exit falls: FindRunning returns nil, or the channel is closed, or a closing signal is pending |
| SystemdProtocol.NoticedRun | execution/systemd.go:87-106 | An exit that cannot be missed now cannot be missed later |
| SystemdProtocol.StartMissesExactly | execution/systemd.go:162-178 | Subscribing in Start leads to a missed exit if and only if the unit has exited and its signals have been handled by then |
| SystemdProtocol.StartCanMiss | execution/systemd.go:162-184 | A run of Start in which that happens |
| SystemdProtocol.MissedForever | execution/systemd.go:172-229 | Without another signal the channel then stays open and unitName set in every later state |
| SystemdProtocol.UnitNameExactly | execution/systemd.go:180-226 | After the channel has closed, unitName is empty exactly when it was assigned before watch cleared it, and that is final |
| SystemdProtocol.BothOrders | execution/systemd.go:103-106 | Both orders are possible whenever the exit comes before the assignment |
| SystemdRestart.RestartIsSafeExactly | execution/systemd.go:77-229 | A call of FindRunning or Start whose Add succeeds keeps its promises in every continuation (no panic, the channel closed only after the exit, the name known while the unit runs) if and only if no watch goroutine of an earlier call is still to run |
| SystemdRestart.StrayIsReachable | execution/systemd.go:221-229 | From every state in which Start may be called, a start, an exit and a goroutine that has cleared the name but not closed the channel: IsRunning answers false and the next start is unsafe |
| SystemdRestart.StrayClosesEarly | execution/systemd.go:221-229 | Such a goroutine closes the channel of the new process before its exit |
| SystemdRestart.StrayPanics | execution/systemd.go:221-229 | A goroutine that has not begun reads the new channel: both close the same one |
| SystemdRestart.FailedAddSilencesExactly | execution/systemd.go:87-90 | A call whose Add fails leaves chIn nil; from then on no channel is ever closed, not even that of an earlier start whose process exits, if and only if every goroutine is over or has not yet read chIn |
| SystemdRestart.GiveUpIsSafeExactly | execution/systemd.go:108-121 | After a FindRunning that finds its unit gone IsRunning answers false in every continuation, and none panics by closing a nil channel if and only if no goroutine of an earlier call is past reading chIn and not over |
| SystemdRestart.AbandonedIsAwaited | execution/systemd.go:92-95 | After a FindRunning whose query fails, a goroutine of an earlier start that has not yet read chIn waits for the abandoned channel: it can still close the earlier chOut, but only after the unit of that channel is reported |
| SystemdRestart.SaneRun | execution/systemd.go:77-229 | Over every run nothing refers to a start that has not been made |
| SystemdStrategy.Strategy.FindRunning | execution/systemd.go:77-122 | The answer for every state of the file, an empty name included, of Add and of the query: an error when one of them fails or the file of a unit that is not running cannot be removed, nil when it can, and otherwise the channel with the unit watched |
| SystemdStrategy.Strategy.StartWatching | execution/systemd.go:172-184 | Start from the finished start job on: an error exactly when the name is taken, and otherwise the unit is watched under its name |
| SystemdStrategy.Strategy.Watch | execution/systemd.go:221-229 | Clears the name, then closes the channel |
| SystemdStrategy.FindOutcomeIsRun | execution/systemd.go:87-121 | What FindRunning does is a run of the protocol |
| SystemdStrategy.StartOutcomeIsRun | execution/systemd.go:172-184 | What Start does is a run of the protocol |
| ResetFilter.Watch | driver/driver.go:123-152 | The loop hands on exactly the events of the closed form, and publishes their messages: a RESET is dropped when it is the second of its pair and every pair so far was close |
| ResetFilter.HandledExactly | driver/driver.go:134-150 | The events handed on are, in order, those at exactly the positions that hold neither an empty event nor a dropped RESET |
| ResetFilter.OthersAreHandedOn | driver/driver.go:134-150 | After any events, one that is neither empty nor a RESET is handed on at once, and an empty one never is |
| ResetFilter.SuppressedIs | driver/driver.go:140-148 | A RESET is dropped if and only if it is the second of two and every two so far came less than 100 000 000 ns apart |
| ResetFilter.HandleQemuEvent | driver/driver.go:174-190 | SHUTDOWN publishes a stop event and RESET a restart event, with the guest flag of the data or false; anything else publishes nothing |
| ResetFilter.NoStopIsLost | driver/driver.go:134-190 | Over every stream the stop events published are those of all SHUTDOWN events, in order, whatever the filter does to the RESETs between them |
| ResetFilter.RestartsAreKept | driver/driver.go:134-190 | One restart event for each RESET that is not dropped |
| ResetFilter.PairsExactly | driver/driver.go:140-148 | Exactly the second of every two RESETs is dropped if and only if both RESETs of every pair come less than 100 ms apart, whatever the spacing of the pairs |
| ResetFilter.LateForever | driver/driver.go:140-148 | After one late partner no RESET is ever dropped again |
| ResetFilter.PublishedAtLeastDropped | driver/driver.go:140-148 | For every time-ordered stream no two consecutive RESETs are dropped, and never more than half |
| ResetFilter.HandledResets | driver/driver.go:140-150 | The RESETs handed on are, in order, exactly those at the positions that are not dropped |
| ResetFilter.KeptAt | driver/driver.go:140-148 | The position each of them has among those handed on, and how many there are |
| ResetFilter.FirstsAreKept | driver/driver.go:140-148 | For close pairs they are the first of every pair and nothing else |
| StopProtocol.SoundRun | driver/driver.go:669-759 | The invariant of one call of Stop over every interleaving, when no watcher can publish an exit of a running process |
| StopProtocol.StopSoundExactly | driver/driver.go:119-171 | nil from status Running implies that the process has exited, in every run, if and only if, when Stop takes the mutex, no watcher can publish an exit: none is past its test of the context, every one of an earlier process whose exit is reported is cancelled, and the exit channel of the current process cannot be closed early |
| StopProtocol.RestartRace | driver/driver.go:119-171 | The two-watcher run: process exits, Start succeeds, and the old watcher's exit event makes the next Stop return nil while the new process runs |
| StopProtocol.CancelledTooLate | driver/driver.go:154-156 | The same when the old watcher is cancelled after its test of the context and before its publication |
| StopProtocol.OneWatcherExactly | driver/driver.go:126-156 | With one watcher, Stop is sound if and only if the strategy does not close the exit channel of the process early |
| StopProtocol.StopCompletes | driver/driver.go:154-169 | Once the exit channel is closed there is a schedule of steps of Stop, its waiters and the watcher up to its publication in which Stop returns, with nil unless a timer fired |
| StopProtocol.StopNeverStuck | driver/driver.go:669-759 | Whatever happened since Stop saw status Running, if the exit channel is closed there is such a continuation, without a timer and without the watcher taking the mutex |
| StopProtocol.EveryScheduleReturns | driver/driver.go:669-759 | Every schedule of Stop, its waiters, its timers and the watcher that goes on as long as it can ends in the return of Stop after at most Rank steps, even if the process never exits |
| StopProtocol.EveryInternalScheduleReturns | driver/driver.go:714-756 | Once the exit channel is closed the same holds without timers, whatever Quit and Kill answer |
| StopProtocol.AnswerExactly | driver/driver.go:714-756 | Over every run the answer is an error if and only if Kill failed or the exit was awaited and its waiter had timed out |
| StopProtocol.StopScript | driver/driver.go:714-756 | Over every run from status Running to the return: the whole sequence of steps Stop takes and its answer, decided by what Quit and Kill answer and by what the two waiters got; a stop event leads to no kill and to the wait for the exit |
| StopProtocol.KillsExactly | driver/driver.go:714-756 | Over every such run Stop kills if and only if Quit failed or the stop waiter had timed out, and awaits the exit if and only if it has not failed to kill and did not take an exit event |
| StopProtocol.ReceiveIs | driver/driver.go:651-700 | A stop event returns the stop waiter and is passed over by the exit waiter, an exit event returns both, any other event neither |
| StopProtocol.EveryStepCounts | driver/driver.go:714-756 | Every such step brings Stop closer to its end |
| StopProtocol.SchedulesAreBounded | driver/driver.go:714-756 | No such schedule is longer than the rank of the state it starts from |
| StopProtocol.StepOrTimer | driver/driver.go:651-756 | Whether or not the process has exited, Stop has an enabled step or the timer of the waiter it is waiting for |
| StopProtocol.LosesMonitorExactly | driver/driver.go:119-169 | With nobody calling Stop, a running process can lose its monitor if and only if a watcher is left that is out of its loop, is cancelled or belongs to an earlier process whose exit is reported, or the exit channel of the running process may be closed early |
| StopProtocol.NextInternalStep | driver/driver.go:717-756 | Some such step is always enabled and brings Stop closer to its end |
| StopProtocol.RunningIsTracked | driver/driver.go:682-711 | Both waiters subscribe before Quit, while the watcher has not published |
| StopProtocol.WaitForEvent | driver/driver.go:651-667 | For every sequence of choices of the select statement: the first stop or exit event for the stop waiter, the first exit event for the exit waiter, nil when the stopper was picked before one, and still listening otherwise |
| StopDriver.Driver.Stop | driver/driver.go:669-759 | For every outcome of its calls and every fair behaviour of the other goroutines while it waits: a run of the protocol; "not connected" exactly when there is no connection; from status Running a failed kill exactly when Kill fails after a failed Quit or a timed-out wait, and nil exactly when the exit event was seen; and the process exited when it replies nil from status Running and no watcher could publish another exit |
| StopDriver.Driver.Start | driver/driver.go:255-471 | An error and no change for status Running or a failed launch; otherwise another process, with a monitor and one more watcher exactly when the monitor was connected |
| StopDriver.Driver.Trigger | driver/driver.go:714-733 | Quit and the wait: kill if and only if Quit failed or the waiter timed out, and `exited` if and only if the exit event came |
| StopDriver.Driver.CleanUp | driver/driver.go:743-758 | Disconnect, then wait for the exit unless it has been seen: nil if and only if the exit was seen or comes in time |
| StopDriver.Driver.WatcherLeaves | driver/driver.go:154-156 | The goroutine after its loop: the test of the context, and the publication if it passed |
| StopDriver.Driver.PublishesExit | driver/driver.go:155-194 | The publication, whatever has become of the context, before the mutex is taken |
| StopDriver.Driver.WatcherFinishes | driver/driver.go:158-169 | Then, holding the mutex, it drops the monitor |
| StopDriver.NilIsSound | driver/driver.go:751-758 | Any run of Stop that replies nil from status Running when no watcher could publish another exit is right about the exit |
| StopDriver.OutsideKeeps | driver/driver.go:119-169 | What the other goroutines do while Stop waits neither moves Stop nor takes the monitor away |
| PcieAllocator.BusAllocator.Allocate | devices/pcie/bus.go:38-136 | For every device list, entry by entry the closed form: cold device k at port 8+k/8 function k%8, hotplug device j alone at port 8+ceil(n/8)+j, then 8 spare ports; the id, chassis number, bus and address text of every root port written out; a device is multifunction exactly when it is a boot device at 00.0, and one at another function is preceded by a multifunction one at 00.0 of its port |
| PcieAllocator.ItemsAt | devices/pcie/bus.go:54-133 | The three loops' lists, put together, are that closed form |
| PcieAllocator.AllocateCold | devices/pcie/bus.go:54-83 | The loop over the devices present at boot |
| PcieAllocator.AllocateHot | devices/pcie/bus.go:89-113 | The loop over the hotplug devices, starting at the next whole port |
| PcieAllocator.AllocateSpare | devices/pcie/bus.go:116-133 | The loop over the spare ports |
| PcieAllocator.Partition | devices/pcie/bus.go:39-48 | Both classes in their own order |
| PcieAllocator.PortsWritten | devices/pcie/bus.go:61-70 | Root port number p: id pcie_port_p, chassis number p, on pcie.0 at slot p/8 in hexadecimal and function p%8, multifunction exactly at function 0 |
| PcieAllocator.DevicesWritten | devices/pcie/bus.go:74-107 | A device is multifunction if and only if it was there at boot and sits at 00.0; a hotplug device always sits at 00.0; a device at another function comes after a multifunction one at 00.0 of the same port |
| PcieLayout.AddressesDistinct | devices/pcie/bus.go:54-133 | No two entries have the same bus and address strings |
| PcieLayout.BootDeviceIs | devices/pcie/bus.go:54-83 | Boot device k is entry k+k/8+1: behind pcie_port_ 8+k/8 at 00. and k%8, multifunction exactly for k%8 = 0 |
| PcieLayout.HotplugDeviceIs | devices/pcie/bus.go:89-113 | Hotplug device j is alone at 00.0 behind pcie_port_ 8+ceil(n/8)+j, not multifunction, and where its entry stands |
| PcieLayout.RootPortIs | devices/pcie/bus.go:61-133 | Every root port from 8 on is in the list, with its number, chassis and address |
| PcieLayout.LengthIs | devices/pcie/bus.go:54-133 | One port for every eight boot devices, one for each hotplug device and eight spare ones |
| PcieLayout.BusIsEarlierPort | devices/pcie/bus.go:54-110 | Every device's bus is the id of an earlier root port |
| PcieLayout.PortsAreConsecutive | devices/pcie/bus.go:54-133 | The root ports are numbered consecutively from 8, each once, in increasing order |
| PcieLayout.FunctionZeroComesFirst | devices/pcie/bus.go:61-133 | A port at a nonzero function is preceded by function 0 of its slot, marked multifunction |
| PcieLayout.DevicesInOrder | devices/pcie/bus.go:38-113 | Every device has an entry, in the order of its class |
| PcieLayout.OnlyThoseDevices | devices/pcie/bus.go:38-113 | No device has a second entry and nothing else is added |
| PcieLayout.SpareExactly | devices/pcie/bus.go:115-133 | A port has a device behind it if and only if it is not one of the last eight |
| PcieLayout.SlotsFitExactly | devices/pcie/bus.go:62-70 | All slots fit the 5-bit PCI device number if and only if ceil(n/8) + h <= 240 |
| PcieLayout.InsertingHotplugMovesNothing | devices/pcie/bus.go:38-113 | Inserting a hotplug device anywhere moves no other device present at boot and keeps the order of the hotplug devices |
| MachineDescription.Description.Pcie | machine/description.go:56-61 | Makes the allocator on first use only |
| MachineDescription.Description.Scsi | machine/description.go:63-70 | Adds the controller to the allocator on first use only, as the last device |
| MachineDescription.Description.BuildConfig | machine/description.go:148-163 | Panics exactly when there is no allocator; otherwise the hot-plugs of the devices present at boot and then of the hotplug devices, each with its device's address |
| MachineDescription.HotplugOrder | machine/description.go:148-163 | That order, for every allocation: none lost, none repeated |
| MachineDescription.AskingAgain | machine/description.go:56-79 | A repeated request for a controller changes nothing, wherever it stands among other calls |
| MachineDescription.DevicesAre | machine/description.go:56-79 | Which device each request puts on the bus, and whether it can be hot-plugged, as literal device lists |
| MachineDescription.PlugsAre | machine/description.go:148-163 | Each boot device adds what it reports for function k%8 behind port 8+k/8, and each hotplug device what it reports for 00.0 of its own port |
| PortOccupancy.FindEmptyBridge | driver/driver.go:1023-1040 | The last empty root port of the nested loops, or none exactly when no root port is empty |
| PortOccupancy.Machine.AttachNetworkAdapter | driver/driver.go:1004-1062 | The whole new state and the result of one attach |
| PortOccupancy.Machine.DetachNetworkAdapter | devices/pcie/tapNetwork.go:187-199 | The whole new state and the result of one detach |
| PortOccupancy.NeverOccupiedTwice | driver/driver.go:1018-1076 | Over all histories no root port receives an adapter while occupied |
| PortOccupancy.FreePortsExactly | driver/driver.go:1018-1076 | Free ports change by exactly one for a successful attach or a detach that deletes something, and not otherwise |
| PortOccupancy.FreePortsOverRuns | driver/driver.go:1018-1076 | Over whole histories no free port is lost or invented |
| PortOccupancy.RestartRequiredExactly | driver/driver.go:1042-1044 | The restart-required error, once the query has been answered, if and only if no root port is empty |
| PortOccupancy.LeftoverBlocksAttach | devices/pcie/tapNetwork.go:126-150 | A network back end left by a failed attach makes every later attach of that name fail until a detach |
| PortOccupancy.DetachUnblocks | devices/pcie/tapNetwork.go:187-199 | A detach removes it |
| PortOccupancy.AttachIs | driver/driver.go:1018-1062 | Each outcome of an attach: a failure before netdev_add changes nothing, one after it leaves the back end, and success adds the adapter at the chosen port |
| PortOccupancy.DetachAnswers | devices/pcie/tapNetwork.go:187-199 | A detach that returns nil has left neither the adapter nor its back end; an error of device_del leaves both, one of netdev_del the back end |
| PortOccupancy.SpareAfterBoot | devices/pcie/bus.go:115-133 | After booting an allocation exactly eight ports are free, so that many more attaches than detaches can succeed |
| PortOverlap.NeverTwoBehindAPort | driver/driver.go:1004-1076 | However attaches and detaches overlap, no port holds an adapter and something else and no adapter is behind two ports |
| PortOverlap.BothQueryFirst | driver/driver.go:1018-1056 | Two attaches that are shown the same buses never both succeed unless a device is deleted in between, however many ports are free |
| PortOverlap.SamePortOneWins | driver/driver.go:1046-1056 | Of two attaches that have chosen the same port at most one succeeds until a device is deleted |
| PortOverlap.LosesExactly | devices/pcie/tapNetwork.go:126-150 | An attach of a name nobody else uses fails at its device_add if and only if its port has been taken since, and then leaves its back end, which blocks the name |
| PortOverlap.AloneIsAtomic | driver/driver.go:1004-1062 | An attach that nothing overlaps is the attach of PortOccupancy, whichever call fails |
| PortOverlap.DetachAloneIsAtomic | devices/pcie/tapNetwork.go:187-199 | A detach whose halves nothing overlaps is the detach of PortOccupancy, and what it deletes is gone |
| CpuHotplug.Qemu.SetCPUs | driver/driver.go:841-907 | Each outcome, with the slots plugged and the device_add calls made in order, the refused one included |
| CpuHotplug.PluggedAreLeast | driver/driver.go:879-904 | Every slot a call plugs precedes every slot it leaves free: a smaller socket, or the same socket and a smaller core, or the same socket and core and a smaller thread |
| CpuHotplug.AskedInOrder | driver/driver.go:891-904 | The device_add calls of one SetCPUs are for free slots, each before every free slot not asked for by then, in that order written out |
| CpuHotplug.ResultIs | driver/driver.go:867-904 | Nil, the two restart-required errors, the failed query and the incomplete plugging, each with its exact condition |
| CpuHotplug.PlugTwice | driver/driver.go:891-904 | Plugging k slots and then j of the rest is plugging k + j |
| CpuHotplug.PlugIsReal | driver/driver.go:863-904 | What that does to the sets of slots |
| CpuHotplug.RetriesConverge | driver/driver.go:855-904 | After any number of calls, each failing anywhere, a call that meets no failure ends where an uninterrupted one would have |
| CpuHotplug.ConvergesToCount | driver/driver.go:855-904 | There exactly `count` slots are plugged, the original ones among them |
| CpuHotplug.OrderIsSorted | driver/driver.go:879-889 | Sorting the listed free slots gives one order, whatever the order of the list |
| CpuOverlap.PluggedAreLeastRun | driver/driver.go:841-907 | Any number of overlapping calls: over every interleaving what has been plugged precedes what is still free, by socket, then core, then thread |
| CpuOverlap.NeverOvershoots | driver/driver.go:841-907 | In every interleaving no more CPUs are plugged than the largest request |
| CpuOverlap.OkIsExact | driver/driver.go:867-906 | A call that returns nil leaves exactly the number it was asked for, whatever other calls are under way |
| CpuOverlap.RefusedExactly | driver/driver.go:847-904 | A device_add that would get through is refused if and only if another call has plugged a CPU since the query |
| CpuOverlap.OneWins | driver/driver.go:847-904 | Of two calls that have both found CPUs missing at most one returns nil |
| CpuOverlap.AloneIsAtomic | driver/driver.go:841-907 | A call that no other overlaps is the call of CpuHotplug, wherever it fails |
| MemoryHotplug.HighestIndex | driver/driver.go:948-956 | The loop finds the highest index whatever the order of the list |
| MemoryHotplug.Machine.SetMemory | driver/driver.go:923-980 | The whole new state and the result, for every combination of failing calls |
| MemoryHotplug.NextIsFreshExactly | driver/driver.go:948-959 | The new device id is absent from the existing ones, except when index 9223372036854775807 is in use and the id that follows it by overflow is too |
| MemoryHotplug.NewDimmIs | driver/driver.go:958-970 | The new backend is "mem" and the new device "dimm" with the number after the highest in use, and the size is the difference |
| MemoryHotplug.IndexIs | driver/driver.go:948-956 | Only ids that are "dimm" and a number count |
| MemoryHotplug.ResultIs | driver/driver.go:929-979 | Nil, "not supported" and an error, each with its exact condition on the 64-bit sum and the failing calls |
| MemoryHotplug.RollbackIs | driver/driver.go:966-977 | After an error the backend stays if and only if it had been added and could not be deleted |
| MemoryHotplug.SuccessReachesRequest | driver/driver.go:934-979 | Success makes base plus hotplugged equal to the request and touches no existing backend or DIMM |
| MemoryHotplug.ErrorRestoresExactly | driver/driver.go:961-977 | A call that returns an error leaves the state as it was if and only if its roll-back did not fail |
| MemoryHotplug.PairedRun | driver/driver.go:958-977 | Over all histories in which no roll-back failed, every backend memN has its dimmN |
| MemoryHotplug.LeakSticks | driver/driver.go:971-976 | A leaked backend has the id that the next call will choose |
| MemoryHotplug.StuckForever | driver/driver.go:943-964 | From then on every growth fails and nothing changes |
| MemoryHotplug.GrowthFailsExactly | driver/driver.go:923-980 | After any history a growth that meets no failing call fails if and only if an earlier roll-back failed or the indices are used up |
| MemoryHotplug.RemovingUnsticks | driver/driver.go:972 | Deleting the leaked object brings back the state before the call |
| MemoryHotplug.TotalIsReal | driver/driver.go:934 | Over all histories the unsigned sum does not wrap |
| MemoryOverlap.InvRun | driver/driver.go:923-980 | Any number of overlapping calls: no two own the same backend, so a roll-back never removes a backend of another call or one in use |
| MemoryOverlap.Undisturbed | driver/driver.go:961-977 | From its accepted object-add on a call ends as if it were alone |
| MemoryOverlap.SameIndexOneWins | driver/driver.go:943-969 | Of two calls that chose the same index at most one succeeds |
| MemoryOverlap.BothListFirst | driver/driver.go:943-969 | Two calls that both look for the index before either has plugged are such calls |
| MemoryOverlap.Conserved | driver/driver.go:923-980 | In every interleaving the memory is what it was plus what the calls that returned nil plugged |
| MemoryOverlap.ReachesExactly | driver/driver.go:929-970 | A call that plugs its DIMM leaves the memory it was asked for if and only if no other DIMM was plugged since its summary, and overshoots by just those otherwise |
| MemoryOverlap.BothPlug | driver/driver.go:929-970 | The interleaving in which two calls both succeed and both differences are plugged, from every state with indices left |
| MemoryOverlap.AloneIsAtomic | driver/driver.go:923-980 | A call that no other overlaps is the call of MemoryHotplug, whichever of its monitor calls fail |
| TapPlug.World.Plug | devices/pcie/tapNetwork.go:43-153 | For every queue count and every set of failing calls: the open descriptors are those from before, the names sent, closed and passed to netdev_add, QEMU's new state and the result |
| TapPlug.World.SendQueues | devices/pcie/tapNetwork.go:88-120 | The loop sends tap and vhost of each queue in turn up to the first failure, and every open descriptor is in one of the two slices |
| TapPlug.World.Deferred | devices/pcie/tapNetwork.go:58-72 | Every descriptor is closed, each once; after an error every sent tap name is closed in order |
| TapPlug.World.OpenTapFile | devices/pcie/tapNetwork.go:155-180 | No descriptor stays open on an error |
| TapPlug.World.Unplug | devices/pcie/tapNetwork.go:187-199 | Device first, then netdev; "not found" is no error |
| TapPlug.SucceedsExactly | devices/pcie/tapNetwork.go:43-153 | Plug succeeds if and only if no call fails and QEMU has neither the netdev nor the device |
| TapPlug.SentExactly | devices/pcie/tapNetwork.go:88-120 | How far the loop gets: up to the first failing call, tap before vhost in every queue |
| TapPlug.AcceptedExactly | devices/pcie/tapNetwork.go:43-150 | netdev_add and device_add are accepted exactly when every call before them went through and QEMU has no such netdev or device |
| TapPlug.InterleavedAt | devices/pcie/tapNetwork.go:88-120 | What is sent: exactly one tap and one vhost name for each queue, in order |
| TapPlug.RollbackClosesExactly | devices/pcie/tapNetwork.go:67-71 | The roll-back tries every sent tap name and no vhost name |
| TapPlug.FailureLeavesExactly | devices/pcie/tapNetwork.go:67-116 | What a failed call does to any table of QEMU: the vhost names sent are added, the tap names sent removed, and so is what netdev_add took |
| TapPlug.LeaksDoNotAdd | devices/pcie/tapNetwork.go:43-153 | Over all histories no tap name stays and at most one vhost name for each queue does |
| TapPlug.RetrySucceedsExactly | devices/pcie/tapNetwork.go:44-150 | A retry without failures succeeds if and only if no earlier attempt got as far as an accepted netdev_add |
| TapPlug.UnplugUndoes | devices/pcie/tapNetwork.go:187-199 | Unplug undoes a plug, and after any history lets the next one succeed |
| TapPlug.RenderInjective | devices/pcie/tapNetwork.go:96-112 | The names of one adapter are all different as text |
| TapPlug.TextsAre | devices/pcie/tapNetwork.go:96-199 | The names are the netdev id, ".N" for the tap and ".vhost.N" for the vhost descriptor; an unplug removes the netdev only after the device |
| TapPlug.ArgumentSplits | devices/pcie/tapNetwork.go:130-131 | The joined fds and vhostfds arguments split back into the names sent, for an interface name without a colon |
| TapOverlap.NoTapStays | devices/pcie/tapNetwork.go:58-72 | However plugs of one adapter overlap, if the roll-backs go through no tap descriptor is left in QEMU once all have returned |
| TapOverlap.OneGetsTheNetdev | devices/pcie/tapNetwork.go:122-150 | Of two overlapping plugs at most one gets the netdev, and so returns nil, until the netdev is deleted |
| TapOverlap.SpoiltExactly | devices/pcie/tapNetwork.go:67-135 | A plug that has sent all its descriptors can have its netdev_add refused because of other calls if and only if one of them is still to send or to fail, or to take back one of the same names |
| TapOverlap.AloneIsAtomic | devices/pcie/tapNetwork.go:43-153 | A plug that nothing overlaps is the plug of TapPlug, for every queue count and every set of failing calls |
| TapOverlap.UnplugAloneIsAtomic | devices/pcie/tapNetwork.go:187-199 | An unplug whose halves nothing overlaps is the unplug of TapPlug, and the descriptor table is not touched |
| RbdPlug.Machine.PlugRbd | devices/storage/rbd.go:35-101 | Loop and both stages: the new state and the result for every failing call |
| RbdPlug.Machine.PlugImage | devices/storage/image.go:55-100 | The same for a file-backed volume, which checks nothing first |
| RbdPlug.Machine.DetachVolume | driver/driver.go:1169-1195 | The new state, and both parts absent on success |
| RbdPlug.RbdIdempotent | devices/storage/rbd.go:35-101 | Plugging again succeeds and changes nothing |
| RbdPlug.HistoryConverges | devices/storage/rbd.go:35-101 | After any history of attaches and detaches of a volume, each failing anywhere, a clean attach ends where it would have ended at the start, and so does a clean detach |
| RbdPlug.DetachUndoesExactly | driver/driver.go:1169-1195 | Detaching undoes any history of a volume if and only if the volume was not there at the start |
| RbdPlug.ImageRetryExactly | devices/storage/image.go:67-97 | A failed attach of a file-backed volume can be retried if and only if it failed before adding the node, or after a detach |
| RbdPlug.OtherVolumes | devices/storage/rbd.go:54-98 | Volumes with different node names do not touch each other |
| RbdPlug.RbdAttachIs | devices/storage/rbd.go:38-101 | An attach of an RBD volume, call by call: what is there is not added again |
| RbdPlug.ImageAttachIs | devices/storage/image.go:67-97 | An attach of a file-backed volume: what is there is an error |
| RbdPlug.DetachIs | driver/driver.go:1169-1195 | A detach: the device first, and then the node unless a device uses it |
| RbdOverlap.TidyInEveryRun | driver/driver.go:1130-1195 | However attaches and detaches of any volumes overlap, every device uses an existing node and is that node's own |
| RbdOverlap.NilIsReal | devices/storage/rbd.go:35-101 | When an attach returns nil node and device are there, whatever else is under way |
| RbdOverlap.OneAddsTheNode | devices/storage/rbd.go:38-71 | Of two attaches whose queries both came before the node was added at most one returns nil |
| RbdOverlap.OneAddsTheDevice | devices/storage/rbd.go:73-99 | The same for two that both saw the device missing |
| RbdOverlap.SomebodySucceeds | devices/storage/rbd.go:35-101 | Any number of overlapping attaches of one RBD volume in which no call fails for reasons of its own end with the volume attached and at least one nil, and all nil if it was attached before |
| RbdOverlap.AloneIsAtomic | devices/storage/rbd.go:35-101 | An attach that nothing overlaps is the attach of RbdPlug, whichever call fails |
| RbdOverlap.DetachAloneIsAtomic | driver/driver.go:1169-1195 | A detach whose halves nothing overlaps is the detach of RbdPlug |
| Identifiers.NodeNameIsLegal | devices/storage/diskid.go:24-29 | Length 31, first character n, only letters, digits, '-' and '_' (RFC 4648 section 5) |
| Identifiers.NodeNamesEqualExactly | devices/storage/diskid.go:14-30 | Two names are equal if and only if the first 180 bits of the digests are |
| Identifiers.PreimageInjective | devices/storage/diskid.go:15-20 | The hashed bytes tell identifiers apart when vendor and product have no NUL, whatever the serials are |
| Identifiers.NameIsOwnExactly | devices/storage/diskid.go:15-20 | No other identifier has the same hashed bytes if and only if no field has a NUL |
| Identifiers.SameNameUnderEveryHash | devices/storage/diskid.go:14-30 | Equal names under every hash function if and only if equal hashed bytes |
| Identifiers.CollidesWithNul | devices/storage/diskid_test.go:107-118 | The documented collision, for all three parts of it |
| Identifiers.HashEqualExactly | driver/cloudinit.go:15-28 | 43 characters (RFC 4648 section 4), equal if and only if the digests are |
| Identifiers.CloudPreimageInjective | driver/cloudinit.go:16-23 | The hashed bytes tell cloud-init data apart when the first three fields have no NUL |
| Identifiers.CloudInitIsOwnExactly | driver/cloudinit.go:16-23 | No other data has the same hashed bytes if and only if no field has a NUL |
| Identifiers.UniqueExactly | devices/storage/diskid.go:15-20 | For any number of separated fields: the bytes belong to one list of fields if and only if no field has the separator |
| Identifiers.EncodePrefix | devices/storage/diskid.go:24-29 | The first k characters of the encoding are equal if and only if the first 6k bits are |
| Identifiers.AlphabetsAre | devices/storage/diskid.go:24-29 | The alphabets of RFC 4648 sections 4 and 5, as literal strings |
| Identifiers.EncodedAt | devices/storage/diskid.go:24-29 | Character j encodes bits 6j to 6j+5 |
| Identifiers.BitsAt | devices/storage/diskid.go:22-24 | Byte j gives bits 8j to 8j+7, the most significant first |
| Identifiers.NamesAre | driver/cloudinit.go:15-28 | The hashed bytes of both kinds of data with their zero bytes, and how much of the encoding each name keeps |
| Smbios.Description.SmbiosArgs | machine/smbios.go:169-191 | Whatever order the maps are walked in, the result is one function of the entries |
| Smbios.ArgumentsAt | machine/smbios.go:187 | The flag "-smbios" and its text for each entry, in the order the entries were added |
| Smbios.SplitsBackExactly | machine/smbios.go:172-187 | The text reads back as the type and exactly the non-empty fields if and only if the written keys have no ',' or '=' and the written values no ',' |
| Smbios.SameTextExactly | machine/smbios.go:172-187 | Two such entries have the same text if and only if they have the same type and non-empty fields |
| Smbios.SortedKeys | machine/smbios.go:175-181 | Sorting makes the order of the walk irrelevant |
| Smbios.TextBegins | machine/smbios.go:172-187 | Every text begins with "type=" and the number, and has one more part for each non-empty field |
| Smbios.PartsAre | machine/smbios.go:172-187 | The type first, and then key=value of non-empty fields |
| Smbios.KeysAscend | machine/smbios.go:175-181 | The keys stand in ascending order: where two first differ the smaller character comes first |
| Text.AtoiOfItoa | driver/driver.go:951-959 | strconv.Atoi reads back what %d printed, over the 64-bit range |
| Text.PrintIs | devices/pcie/bus.go:65-70 | %d and %x: the digits as literal strings, most significant first, without padding |
| Text.AtoiReads | driver/driver.go:951-955 | strconv.Atoi of an optional sign and digits: the value, or an error outside the 64-bit range |
| Text.SplitOfJoin | machine/smbios.go:187 | Splitting a joined list gives it back when no part has the separator |
| Sorting.SortedUnique | driver/driver.go:879-889 | A sorted list without repetition is determined by its elements |

## Left out

- ForkStrategy.Strategy.Close: and the other methods of the strategy classes show the undisturbed path through a function; what other goroutines do in between is in `ForkOwnership`, `ForkRestart`, `SystemdProtocol` and `SystemdRestart`.
- SystemdStrategy.Strategy.StartWatching: begins when the start job of the transient unit has finished; the unit's name, file and properties are not modelled.
- StopProtocol.WaitForEvent: the fifteen seconds of a stopper are not measured; its timer may fire at any moment while the waiter listens.
- StopDriver.Driver.Start: everything up to the running process is one outcome, and so are the hot-plugs of the cold machine; their calls are in `TapPlug`, `RbdPlug` and `MachineDescription`.
- SystemdStrategy.Strategy.FindRunning: covers the first call on an object; several calls on one object are in `SystemdRestart`, where the waiter appears only as the moment at which it closes the channel of a unit.
- ResetFilter.Watch: the clock is read once for each event, where the code may read it twice. A `guest` entry that is not a boolean, on which the code panics, is left out.
- PortOccupancy.Machine.AttachNetworkAdapter: treats the tap plug as its net effect on QEMU; its calls and descriptors are in `TapPlug`, and calls that overlap in `PortOverlap`.
- PortOccupancy.Machine.DetachNetworkAdapter: is one step with a fault flag; its two halves overlap other calls in `PortOverlap`.
- CpuHotplug.Qemu.SetCPUs: the device id strings are left out, and the sort is the mathematical sorted list rather than the library's algorithm; a slot is one virtual CPU. Calls that overlap are in `CpuOverlap`.
- MemoryHotplug.Machine.SetMemory: QEMU's own limits (slots, alignment, maximum size) appear only as refused calls; calls that overlap are in `MemoryOverlap`.
- TapPlug.World.Plug: a getfd that is reported as failed is taken not to have stored the descriptor. Calls that overlap are in `TapOverlap`.
- RbdPlug.Machine.DetachVolume: the guest deletes the device at once; the second of waiting and the missing event are not modelled. Calls that overlap are in `RbdOverlap`.
- MachineDescription.Description.BuildConfig: the configuration sections are left out; only the allocation and the hot-plugs are modelled.
- Smbios.Description.SmbiosArgs: the `Add*Info` methods, which copy named fields into a map, are left out; entries come from `AddRawSmbios`. Sorting compares characters, which for UTF-8 is the order of the bytes.
- The command and its log files in `Start` of the fork strategy (its outcome, the pidfd and the watch are modelled), `Kill` of both strategies, `EINTR`, and the closing of the epoll and event descriptors after the loop.
- System calls, D-Bus, the QMP socket, `qemu-img`, ISO writing and file operations, beyond their success or failure.
- The configuration builder, the chardev, serial, vsock and simple PCIe devices, the status and option types, disk and memory rounding, and the methods that panic with "implement me".
