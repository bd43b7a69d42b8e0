# Verified model of the kosio runtime

kosio runs coroutines on top of io_uring.  This project models the parts of it
that are hard to get right and proves them with Dafny.  `dafny verify dfyconfig.toml`
verifies everything.

## What is modelled

**Work stealing** (`Ring`, `Stealing`, `StealingInv`, `StealingSafety`, `StealingAlone`,
`StealingWrap`, `LocalQueue`, `GlobalQueue`).  `Ring` describes one ring of 256 slots
with counters that never wrap.  `Stealing` is a step machine: any number of workers push,
pop, overflow, refill and steal, each access to shared memory is one step, a
compare-exchange may fail spuriously, and all decisions are taken on 32-bit words as in
the code.
`StealingInv` has what every step keeps, `StealingSafety` what holds in all runs,
`StealingAlone` what an operation achieves: from every reachable state, with the other
threads wherever they are, its own next steps do exactly what the queue promises.
`StealingWrap` is a run against the one assumption all this needs.  `LocalQueue` has
the packed 64-bit head, the 32-bit tail and the array: each method up to "whole
operations" is one atomic access and changes the ring as the step machine does; the
whole operations then run the loops of the code with no other thread in between.

**Sleeping and waking** (`IdleWord`, `Sleeping`, `SleepingInv`, `SleepingSteps`,
`SleepingSafety`, `SleepingBalance`, `SleepingRoom`, `SleepingPair`, `SleepingLoss`,
`SleepingExact`, `SleepingAlone`, `SleepingLive`, `Idle`).
`Sleeping` is a step machine of N workers in their run loop and any number of outside
threads: the two looks at the packed word, the set of sleepers, the second look of the
last searcher, the single pushes of arriving tasks, the claim, copy and release of a
thief, and wake-ups as tokens that stay until they are consumed.  The key invariant is
called `Watched`: while the global queue is not empty, a wake-up is under way or some
worker is going to look there before it rests.  It rests on this: a worker that is
refused the searching role (it is then `blind`) always leaves a searcher behind, so
that fewer than all workers are blind at once.  One step can break it, a sleeper's push
to the global queue behind a full ring; `SleepingExact` says exactly when that leaves a
task behind, from `SleepingRoom` and `SleepingPair` on one side and the run built in
`SleepingLoss` on the other.  `SleepingBalance` counts: what came in is what was run, what
waits and what workers have in their hands.  `SleepingAlone` says what a worker's own next
steps achieve: it runs a task if there is one for it, pushes, searches, calls and sleeps
as it should.  `SleepingLive` goes on from there: in a run
without such a late push, from every state with work left, the threads can come to run a
task by themselves.

**Waiting time in the global queue** (`Fairness`).

**The timing wheel** (`Words`, `Wheel`, `Grid`, `Search`, `Order`, `Timer`, `Horizon`).  The
bit tricks are specified by base-64 digits: `Index` and `Begin` are adjoint, and the
order of deadlines, the jumps of the clock and the cascade follow from that.  The
`Timer` class is specified by the bag of waiting entries and, for each deadline, by the
line of those that wait for it: together they determine what a drain executes, and in
which order.

**The driver's poll** (`Driver`), on top of `Timer`: requests in flight, sleeping
coroutines, the links between requests and their timeouts, and what is pushed to the
run queue and why.

**The asynchronous mutex** (`Locking`, `LockingSafety`, `LockingAlone`, `Mutex`): a step
machine over pointers that refines a lock with a queue, and goes on: the next steps of a
task get it the lock or its place, or give the lock away.  Then the same as objects, with
the reversal of the stack in place.

**Buffered streams** (`Streams`, `BufferedWrite`, `Sources`, `BufferedRead`,
`ReadLaws`): positions in an array, over a sink and a source that may be short, deliver
nothing, or fail, as a script says; every operation ends exactly as the script makes it.

**The bounded channel** (`Channel`, `ChannelObject`, `RingBuffer`): sends and receives
under the mutex, and a close that takes no mutex and may fall between the look at the
closed flag and the parking.

## Assumptions

- Memory is sequentially consistent, and coroutine handles are opaque numbers.
- No thief loads a queue's counters, sleeps through 2^32 pushes to that queue and then
  swaps (`NoFullWrap`).  `StealingWrap.WrapDeliversTwice` shows that the code needs this.
- The clock does not go back between two drains, and fits 64 bits.  The present time,
  the kernel's completions, the order in which sleepers are picked and the number of
  spurious failures are parameters or arbitrary choices.
- The kernel completes each request once.  A token that was set before a worker waits
  is still there when it waits.
- All workers are registered before any of them runs, and there are from 1 to 65535.

## Where the code does less than it says

- A wake-up can be lost.  A sleeping worker that finds its ring full, of tasks or of a
  thief's claim, pushes to the global queue and tells nobody; with three workers or more
  everybody else may have looked there before.  `SleepingExact.LosesNothingExactly` says
  when this cannot happen: the completions for a sleeper fit its ring, or there are at most
  two workers.
- The longest sleep the wheel declares, 2^36 - 1 ms, is not safe.  The search of the
  top level starts at the clock's own slot, so an entry a full turn ahead hides nearer
  ones.  `Horizon.HorizonIsExact` gives the exact bound, 63 top-level slots; `Timer.Insert`
  and the driver's methods state that the wheel stays in order exactly within it.
- `Timer::remove` of a sleeping coroutine's entry refiles it in the clock's own slot,
  against the order of the wheel; `Timer.Remove` says so.  The driver never does this.
- A sleep whose time has passed ends the program instead of reporting it
  (`Driver.Driver.Sleep`, exactly if the deadline is not after the wheel's clock).
- `Mutex::try_lock` takes a lock that is held (`LockingSafety.TryLockExactly`).
- `HeapRingBuffer::resize` reports success for some sizes that do not fit
  (`RingBuffer.ResizeExact`, with two concrete buffers).
- The channel is not first-in first-out (`Channel.NotFirstInFirstOut`);
  `Channel.FirstInFirstOutExactly` and `Channel.OldestFirst` say when it is.
- A send on a closed channel succeeds while the buffer has room
  (`Channel.RefusedExactlyWhenFull`), also if nobody is left to receive it
  (`Channel.SentToNobody`).
- A close between the look at the closed flag and the parking leaves one sender or receiver
  waiting for good (`Channel.ParksForGood`, `Channel.ReceiverLeftWaiting`).
- A `read_exact` larger than the buffer that fails goes on to the refill loop, which
  then fails too, and may report an early end of a stream that goes on
  (`Sources.WrongReasonExactly`, `ReadLaws.EarlyEndOfALongStream`).  A `read` larger than
  the buffer that fails has handed out the buffered bytes, and does not say so
  (`BufferedRead.Performs`).

## Model

| member | source | states |
|---|---|---|
| StealingSafety.ExactlyOnce | kosio/runtime/scheduler/multi_thread/queue.hpp:126-305 | In every run of any number of workers, with every interleaving of atomic accesses, each task submitted once is at each moment in exactly one place: one local queue, one thread in mid-operation, the global queue, handed out, or dropped by a push after the close; never in two queues or two hands. |
| StealingSafety.NeverDeliveredTwice | kosio/runtime/scheduler/multi_thread/queue.hpp:126-305 | In every run no task is handed out more often than it was submitted, repeated tasks counted. |
| StealingSafety.NothingDropped | kosio/runtime/scheduler/multi_thread/queue.hpp:31-47 | In every run nothing is dropped as long as the global queue is open. |
| StealingSafety.BatchAlwaysFits | kosio/runtime/scheduler/multi_thread/worker.hpp:157-174 | In every run, a worker that computed its room, pulled a batch from the global queue and then publishes it never meets the overflow exception of `push_batch`, although thieves work on its ring meanwhile. |
| StealingInv.BatchRefusedExactly | kosio/runtime/scheduler/multi_thread/queue.hpp:126-147 | `push_batch` refuses a batch exactly if it does not fit behind the tail, as seen from the counter it loaded. |
| StealingSafety.ClaimIsSafe | kosio/runtime/scheduler/multi_thread/queue.hpp:228-277 | In every run, while a thief copies, its claim is at most 128 tasks, fits behind the tail of its own ring although others may steal from that, and the claimed slots still hold exactly the claimed tasks, although the owner keeps pushing and popping. |
| StealingSafety.WordsAlwaysFaithful | kosio/runtime/scheduler/multi_thread/queue.hpp:149-277 | In every run, every comparison and subtraction the code makes on wrapped 32-bit words gives the answer for the counters that never wrap, and a compare-exchange succeeds exactly when the counters are the loaded ones. |
| StealingSafety.NoWrapAtFirst | kosio/runtime/scheduler/multi_thread/queue.hpp:334-337 | The assumption that no queue sees 2^32 tasks between a load and its swap holds by itself until some queue has seen 2^32 tasks. |
| StealingWrap.WrapDeliversTwice | kosio/runtime/scheduler/multi_thread/queue.hpp:228-277 | The assumption cannot be dropped: from every start with two workers or more there is a run in which 2^32 tasks go through a queue between the loads of a thief and its compare-exchange, which then succeeds on the empty queue, and a task that was submitted once is delivered twice. |
| StealingSafety.EventKeeps | kosio/runtime/scheduler/multi_thread/queue.hpp:126-305 | Each step of each thread, each submission from outside and the close keep the whole invariant: ring bounds, what every thread knows at its place, who holds which claim, and conservation. |
| StealingInv.PushKeeps | kosio/runtime/scheduler/multi_thread/queue.hpp:149-174 | Each step of `push_back_or_overflow` and `push_overflow` keeps the ring invariant and moves tasks only between the ring, the thread and the global queue. |
| StealingInv.OverflowSwapKeeps | kosio/runtime/scheduler/multi_thread/queue.hpp:279-295 | The overflow swap succeeds only on a full ring without a thief, and takes out exactly the first 128 tasks. |
| StealingInv.OverflowCopyKeeps | kosio/runtime/scheduler/multi_thread/queue.hpp:297-302 | What the overflow copies out of the slots are the tasks it took, in order, although their slots are already free. |
| StealingInv.PopKeeps | kosio/runtime/scheduler/multi_thread/queue.hpp:176-198 | Each step of `pop` keeps the ring invariant and gets on: it ends empty-handed only if the queue is empty, otherwise it goes on to the swap; a swap that finds the counters it loaded takes the first task; what is read from the slot is that task, and it is handed out. |
| StealingInv.RefillKeeps | kosio/runtime/scheduler/multi_thread/worker.hpp:153-175 | Each step of the refill from the global queue keeps the ring invariant, and the batch fits when its tail is stored. |
| StealingInv.StealKeeps | kosio/runtime/scheduler/multi_thread/queue.hpp:200-277 | Each step of a thief keeps the invariant of both rings, and the claim on the victim belongs to exactly one thread. |
| StealingInv.ClaimedIntact | kosio/runtime/scheduler/multi_thread/queue.hpp:258-263 | As long as a claim is not released, the slots from `steal` on hold the claimed tasks. |
| StealingAlone.PopAlone | kosio/runtime/scheduler/multi_thread/queue.hpp:176-198 | From any state that the invariant admits, a `pop` whose steps nobody interrupts hands out exactly the first task of the queue and leaves the others in order; it leaves everything as it was exactly if the queue is empty. |
| StealingAlone.PushAlone | kosio/runtime/scheduler/multi_thread/queue.hpp:149-174 | A push by itself appends its task if there is room; on a full ring that is being stolen from the task alone goes to the global queue; on any other full ring the older half goes there in order, and then the task. |
| StealingAlone.RefillAlone | kosio/runtime/scheduler/multi_thread/worker.hpp:153-175 | A refill by itself runs the first of its share of the global queue and appends the rest of that share in order; with all slots in use it runs a single task. |
| StealingAlone.PullOneAlone | kosio/runtime/scheduler/multi_thread/shared.hpp:33-38 | The task taken at the interval is the first of the global queue. |
| StealingAlone.StealAlone | kosio/runtime/scheduler/multi_thread/queue.hpp:200-277 | A steal by itself takes the older, larger half of the tasks of its victim: the last of them is run, the others are appended in order, and the claim is given back; it gets nothing exactly if more than half of its own ring is in use, the victim is being stolen from, or the victim has nothing. |
| StealingAlone.PopGivesUp | kosio/runtime/scheduler/multi_thread/queue.hpp:183-187 | In every run, in any interleaving, a `pop` that ends and hands out nothing has found its queue empty. |
| StealingAlone.StealGivesUp | kosio/runtime/scheduler/multi_thread/queue.hpp:204-256 | In every run, in any interleaving, a steal that ends and moves nothing has found its own ring more than half in use, or its victim being stolen from, or empty. |
| Ring.WriteKeeps | kosio/runtime/scheduler/multi_thread/queue.hpp:171-172 | Writing a slot from the tail on, less than a ring beyond `steal`, overwrites no task that is waiting or claimed. |
| Ring.PublishKeeps | kosio/runtime/scheduler/multi_thread/queue.hpp:173 | Storing the tail publishes exactly the tasks written behind it and keeps `steal <= head <= tail <= steal + 256`. |
| Ring.TakeOneKeeps | kosio/runtime/scheduler/multi_thread/queue.hpp:183-194 | Taking the first task keeps the invariant whether or not a thief is at work, and removes exactly that task. |
| Ring.TakeHalfKeeps | kosio/runtime/scheduler/multi_thread/queue.hpp:288-295 | Taking half of a full ring keeps the invariant and removes exactly the first 128 tasks. |
| Ring.ClaimKeeps | kosio/runtime/scheduler/multi_thread/queue.hpp:242-255 | A claim removes exactly the first `n` tasks from the waiting ones and keeps their slots reserved. |
| Ring.ReleaseKeeps | kosio/runtime/scheduler/multi_thread/queue.hpp:265-275 | A release frees the claimed slots and changes nothing that is waiting. |
| Ring.Sub32IsDifference | kosio/runtime/scheduler/multi_thread/queue.hpp:105-113 | 32-bit subtraction of wrapped counters is the true difference whenever that is less than 2^32. |
| Ring.WordsEqual | kosio/runtime/scheduler/multi_thread/queue.hpp:183 | Wrapped counters are equal exactly when the counters are, within one turn. |
| Ring.SlotOfWord | kosio/runtime/scheduler/multi_thread/queue.hpp:141 | Masking a wrapped counter gives the slot of the counter itself. |
| LocalQueue.UnpackPack | kosio/runtime/scheduler/multi_thread/queue.hpp:320-328 | Packing two 32-bit counters with shift and or, and unpacking by shift and truncation, gives the counters back. |
| LocalQueue.PackUnpack | kosio/runtime/scheduler/multi_thread/queue.hpp:320-328 | Every 64-bit word is the packing of what it unpacks to. |
| LocalQueue.PackInjective | kosio/runtime/scheduler/multi_thread/queue.hpp:325-328 | Packed words are equal exactly when both counters are. |
| LocalQueue.HeadMatches | kosio/runtime/scheduler/multi_thread/queue.hpp:189-192 | Under the wrap assumption the packed heads in memory and in a register are equal exactly when the counters are. |
| LocalQueue.LocalQueue.SizesExact | kosio/runtime/scheduler/multi_thread/queue.hpp:102-114 | `size` and `remaining_slots`, computed from wrapped words, are the number of waiting tasks and of free slots. |
| LocalQueue.LocalQueue.SwapPop | kosio/runtime/scheduler/multi_thread/queue.hpp:187-195 | The compare-exchange of `pop` on the packed head is the step of the ring, succeeds exactly when the counters match, and yields the slot of the task taken. |
| LocalQueue.LocalQueue.SwapClaim | kosio/runtime/scheduler/multi_thread/queue.hpp:247-253 | The claiming compare-exchange on the packed head is the claim of the ring. |
| LocalQueue.LocalQueue.SwapRelease | kosio/runtime/scheduler/multi_thread/queue.hpp:267-274 | The releasing compare-exchange on the packed head is the release of the ring. |
| LocalQueue.LocalQueue.SwapHalf | kosio/runtime/scheduler/multi_thread/queue.hpp:288-295 | The overflowing compare-exchange on the packed head takes half of the ring. |
| LocalQueue.LocalQueue.WriteSlot | kosio/runtime/scheduler/multi_thread/queue.hpp:171-172 | A store to the array is the write to the ring, at the slot of a wrapped tail. |
| LocalQueue.LocalQueue.StoreTail | kosio/runtime/scheduler/multi_thread/queue.hpp:173 | A store of the wrapped tail publishes what was written. |
| LocalQueue.LocalQueue.Pop | kosio/runtime/scheduler/multi_thread/queue.hpp:176-198 | Without interference, `pop` returns the oldest task and removes it, after any number of spurious failures, and leaves the claim of a thief as it is; nothing if the queue is empty. |
| LocalQueue.LocalQueue.PushBackOrOverflow | kosio/runtime/scheduler/multi_thread/queue.hpp:149-174 | Without interference: the task is appended if there is room; goes alone to the global queue if the ring is full and being stolen from; else the older half and then the task go there in order; both counters move accordingly. |
| LocalQueue.LocalQueue.PushOverflow | kosio/runtime/scheduler/multi_thread/queue.hpp:279-305 | The older half of a full ring and then the task go to the global queue, or nothing changes. |
| LocalQueue.LocalQueue.PushBatch | kosio/runtime/scheduler/multi_thread/queue.hpp:126-147 | A batch is appended in order exactly if it fits; otherwise nothing is written. |
| LocalQueue.LocalQueue.ClaimHalf | kosio/runtime/scheduler/multi_thread/queue.hpp:230-257 | The claiming loop takes the larger half of the waiting tasks, or nothing if the queue is empty or being stolen from. |
| LocalQueue.LocalQueue.CopyHaul | kosio/runtime/scheduler/multi_thread/queue.hpp:258-263 | The copying loop writes the claimed tasks, in order, behind the tail of the other ring, and disturbs neither ring. |
| LocalQueue.LocalQueue.StealInto2 | kosio/runtime/scheduler/multi_thread/queue.hpp:228-277 | The whole steal moves exactly the older, larger half out of the queue and behind the tail of the other, and gives its claim back, and no claim but its own. |
| LocalQueue.LocalQueue.StealInto | kosio/runtime/scheduler/multi_thread/queue.hpp:200-225 | A thief at most half full gets the older, larger half in order, the last of it handed out at once, and no claim is left on the victim; otherwise nothing moves. |
| GlobalQueue.GlobalQueue.Empty | kosio/runtime/scheduler/multi_thread/queue.hpp:26-29 | The counter alone tells whether the queue is empty. |
| GlobalQueue.GlobalQueue.Push | kosio/runtime/scheduler/multi_thread/queue.hpp:31-38 | Appends, and counts one, unless closed. |
| GlobalQueue.GlobalQueue.PushBatch | kosio/runtime/scheduler/multi_thread/queue.hpp:40-47 | Appends the batch unless closed; the counter stays equal to the length exactly if the count passed is the length of the batch. |
| GlobalQueue.GlobalQueue.Pop | kosio/runtime/scheduler/multi_thread/queue.hpp:49-59 | Removes and returns the oldest task. |
| GlobalQueue.GlobalQueue.PopN | kosio/runtime/scheduler/multi_thread/queue.hpp:61-74 | Removes the oldest tasks, as many as there are up to `n`, in order. |
| GlobalQueue.GlobalQueue.Close | kosio/runtime/scheduler/multi_thread/queue.hpp:76-84 | True for the first caller only; what is queued stays. |
| SleepingBalance.NeverRestsWithWork | kosio/runtime/scheduler/multi_thread/worker.hpp:75-126 | In every run of N workers and any number of outside threads: when all workers wait without a token and no wake-up is under way, no worker holds a task, and the tasks that came in and were not run are those of the global queue; if no sleeper pushed to it when nobody was going to notice, there are none, and everything that came in was run. |
| SleepingBalance.NothingLost | kosio/runtime/scheduler/multi_thread/worker.hpp:145-248 | At each moment of each run the tasks that came in, from outside, from running tasks or with completions, are exactly those that were run, those in a queue, and those a worker has in its hands between two places; each ring has room for what is about to be put in it. |
| SleepingBalance.StepKeepsBalance | kosio/runtime/scheduler/multi_thread/worker.hpp:145-248 | No step of any thread loses a task or makes one up. |
| SleepingBalance.RingsHold | kosio/runtime/scheduler/multi_thread/queue.hpp:101-107 | In every run no ring has more slots in use than it has, counting those a thief still copies from. |
| SleepingExact.LosesNothingExactly | kosio/runtime/scheduler/multi_thread/worker.hpp:237-248 | Exactly when nothing is left behind: for every number of workers and threads, in all runs everything that came in was run whenever everybody rests, if and only if the runs are those in which the completions for a sleeper fit its ring, or there are at most two workers. |
| SleepingLoss.WakeUpLost | kosio/runtime/scheduler/multi_thread/queue.hpp:149-174 | With three workers or more, from every start, there is a run that ends with everybody waiting, no token, no wake-up under way, and a task in the global queue: a sleeper found its ring full and pushes after everybody else has looked. |
| SleepingSafety.LateSpillIsMissed | kosio/runtime/scheduler/multi_thread/queue.hpp:160-163 | A late push is really missed: after it the global queue is not empty and nobody watches it. |
| SleepingRoom.RoomyNeverSpills | kosio/runtime/scheduler/multi_thread/queue.hpp:153-160 | If whatever arrives for a sleeper fits the free slots of its ring, no sleeper ever pushes to the global queue unnoticed, whatever thieves do meanwhile. |
| SleepingPair.PairNeverLate | kosio/runtime/scheduler/multi_thread/queue.hpp:149-174 | With at most two workers no push of a sleeper to the global queue goes unnoticed, whether its ring was full of tasks or of a thief's claim: the other worker is on its way to look. |
| SleepingPair.PairStep | kosio/runtime/scheduler/multi_thread/queue.hpp:149-174 | With two workers every step of every thread keeps what makes that so: a sleeper that is about to push has tasks, or was picked, or the other worker searches, runs what it stole and calls, or has somebody calling for it. |
| SleepingSafety.WorkIsWatched | kosio/runtime/scheduler/multi_thread/worker.hpp:191-248 | In every state of every run without such a late push: while the global queue is not empty, a wake-up is under way that has not picked anybody yet, or some worker is searching, picked, about to look again, rousing, or awake and not refused the searching role. |
| SleepingLive.WorkGetsRun | kosio/runtime/scheduler/multi_thread/worker.hpp:30-52 | From every state of every run without a late push in which a task is anywhere, in a queue or in hands, and none is just about to be pushed too late, the threads can come to run a task, by their own steps and without anything new from outside: the protocol neither deadlocks nor is trapped in loops without progress. |
| SleepingLive.WatchedRuns | kosio/runtime/scheduler/multi_thread/worker.hpp:191-284 | The same for a global queue that is not empty and watched, however deeply everybody is on the way to sleep: someone takes the task on the way, or the look of the last searcher or a wake-up that is under way brings a sleeper to it. |
| SleepingLive.Drive | kosio/runtime/scheduler/multi_thread/worker.hpp:30-52 | A worker that has a task, holds one, or finds the global queue not empty on its way comes to run a task by going on, after at most the steps in which another thread gives the lock back. |
| SleepingLive.CalmStep | kosio/runtime/scheduler/multi_thread/worker.hpp:75-108 | Where work is watched and no worker finds it just by going on, some thread can take a step after which one does, or all are closer to sleep. |
| SleepingLive.RunThieves | kosio/runtime/scheduler/multi_thread/queue.hpp:200-277 | In every run, as long as slots of a ring are claimed, some other worker is copying from it. |
| SleepingSafety.NeverAllBlind | kosio/runtime/scheduler/multi_thread/idle.hpp:107-114 | In every run some worker was not refused the searching role since it was last at the top of its loop. |
| SleepingSafety.WordIsFaithful | kosio/runtime/scheduler/multi_thread/idle.hpp:13-72 | In every run, outside the lock, the packed word counts exactly the workers that are not in the set of sleepers, and the searchers together with the picked sleepers. |
| SleepingSafety.AtMostOnePicked | kosio/runtime/scheduler/multi_thread/idle.hpp:82-97 | Throttling: in every run at most one worker at a time is picked to be woken and does not run yet, although searchers come and go without the lock. |
| SleepingSafety.PickFindsASleeper | kosio/runtime/scheduler/multi_thread/idle.hpp:93-96 | In every run, whoever takes the first of the sleepers finds one, and holds the lock. |
| SleepingSafety.PickedIsWoken | kosio/runtime/scheduler/multi_thread/worker.hpp:262-266 | In every run a picked worker that still waits has its token, or the thread that picked it is about to set it. |
| SleepingSafety.StepKeeps | kosio/runtime/scheduler/multi_thread/worker.hpp:30-52 | Every step of every thread, the single pushes of a sleeper among them, keeps the invariant; every step but a late push also keeps the work watched. |
| SleepingSafety.NoWakeNeeded | kosio/runtime/scheduler/multi_thread/idle.hpp:139-144 | Whoever decides that nobody need be woken leaves somebody who is going to look at the global queue. |
| SleepingSafety.EveryoneAwake | kosio/runtime/scheduler/multi_thread/idle.hpp:139-144 | If the word counts all workers as working and none as searching, the set of sleepers is empty and some awake worker was not refused. |
| SleepingSafety.PickWillBeSafe | kosio/runtime/scheduler/multi_thread/idle.hpp:87-96 | When the test under the lock succeeds there is a sleeper to pick, and none is picked already. |
| SleepingSteps.RefusedLeavesOthers | kosio/runtime/scheduler/multi_thread/idle.hpp:109-111 | A worker that is refused the searching role leaves a searcher behind, or a thread about to pick one. |
| SleepingSteps.NotLastLeavesOthers | kosio/runtime/scheduler/multi_thread/worker.hpp:80-86 | A searcher that falls asleep without being the last one leaves another behind. |
| SleepingSteps.LookingKeeps | kosio/runtime/scheduler/multi_thread/worker.hpp:274-284 | The last searcher's second look at all queues keeps the work watched: it passes it on to a worker with tasks, or starts a wake-up if the global queue is not empty. |
| SleepingSteps.WaitingKeeps | kosio/runtime/scheduler/multi_thread/worker.hpp:237-248 | A sleeper that is given any number of completions, with or without its token, keeps the invariant, and is not helpful before it has looked whether it was picked. |
| SleepingSteps.EnteringKeeps | kosio/runtime/scheduler/multi_thread/idle.hpp:100-105 | Entering the set of sleepers, after the count was taken down, makes word and set agree again. |
| SleepingSteps.RejoiningKeeps | kosio/runtime/scheduler/multi_thread/worker.hpp:93-100 | A roused worker takes itself off the set, or finds itself picked and goes on as a searcher. |
| SleepingSteps.ContainsCheckKeeps | kosio/runtime/scheduler/multi_thread/worker.hpp:102-107 | A sleeper without tasks goes back to wait exactly if nobody picked it. |
| SleepingInv.CountsFit | kosio/runtime/scheduler/multi_thread/idle.hpp:57-71 | With fewer than 2^16 workers neither count ever leaves its field, so nothing carries or borrows. |
| SleepingInv.AfterCounts | kosio/runtime/scheduler/multi_thread/idle.hpp:100-130 | How a step of a worker changes the two counts follows from its own record before and after. |
| SleepingAlone.OwnTaskRuns | kosio/runtime/scheduler/multi_thread/worker.hpp:145-188 | Four steps after the top of its loop a worker with a task of its own runs one, the one kept aside first; it stops searching, and asks for a wake-up if it was the last searcher. |
| SleepingAlone.GlobalTaskRuns | kosio/runtime/scheduler/multi_thread/worker.hpp:153-175 | A worker without a task of its own takes what it asks for out of the global queue, if there is that much, and room, or else one task; it runs one of them and keeps the others. |
| SleepingAlone.GlobalFirstAtInterval | kosio/runtime/scheduler/multi_thread/worker.hpp:146-147 | At the interval the global queue comes first, whatever the worker has itself. |
| SleepingAlone.OwnTaskAtInterval | kosio/runtime/scheduler/multi_thread/worker.hpp:146-147 | With an empty global queue the worker runs a task of its own at the interval, too. |
| SleepingAlone.NothingAtInterval | kosio/runtime/scheduler/multi_thread/worker.hpp:146-147 | With nothing of its own and an empty global queue the worker goes on to search at the interval, too. |
| SleepingAlone.ElectionAlone | kosio/runtime/scheduler/multi_thread/worker.hpp:110-115 | A worker that finds nothing becomes a searcher and is counted, or is refused: exactly if it is none and at least half of the workers search. |
| SleepingAlone.StolenTaskRuns | kosio/runtime/scheduler/multi_thread/worker.hpp:190-211 | A searcher that may steal runs one of the stolen tasks and has the others in its ring; they are gone from the ring of the victim, and the claim is over. |
| SleepingAlone.SearchInVain | kosio/runtime/scheduler/multi_thread/worker.hpp:209-210 | A searcher that can steal nothing and finds nothing in the global queue comes to the last poll. |
| SleepingAlone.SearchFindsGlobal | kosio/runtime/scheduler/multi_thread/worker.hpp:209-210 | A searcher that can steal nothing runs a task that has come into the global queue meanwhile. |
| SleepingAlone.FallsAsleepAlone | kosio/runtime/scheduler/multi_thread/worker.hpp:75-88 | After a last poll without events a worker without tasks is counted out and listed among the sleepers, five steps later; the last searcher goes on to look around. |
| SleepingAlone.LastPollFinds | kosio/runtime/scheduler/multi_thread/worker.hpp:76-78 | A task that the last poll brought keeps the worker awake. |
| SleepingAlone.LooksAround | kosio/runtime/scheduler/multi_thread/worker.hpp:274-284 | The last searcher gives a token to the first worker that has tasks in its ring, or, with all rings empty, starts a wake-up exactly if the global queue is not empty; then it waits. |
| SleepingAlone.NotifyInRun | kosio/runtime/scheduler/multi_thread/idle.hpp:82-97 | In every run, a wake-up that finds the lock free picks a sleeper, counts it as working and searching, and gives it its token, exactly if nobody searches or is picked to; otherwise nothing happens. |
| SleepingAlone.PushAlone | kosio/runtime/scheduler/multi_thread/queue.hpp:149-174 | One arriving task: into the ring if there is room; with half of a full ring to the global queue; alone to the global queue while a thief is copying. |
| SleepingAlone.PollAlone | kosio/runtime/scheduler/multi_thread/worker.hpp:226-235 | When a poll has found completions and their tasks are in the ring, the worker asks for a wake-up exactly if it does not search and has more than one task in its ring. |
| SleepingAlone.EmptyPoll | kosio/runtime/scheduler/multi_thread/worker.hpp:226-230 | A poll without completions sends the worker on to its tasks, or to sleep if it was the last poll. |
| SleepingAlone.SpawnAlone | kosio/runtime/scheduler/multi_thread/worker.hpp:58-66 | A spawned task is kept aside if nothing is; otherwise one task is pushed, and the worker asks for a wake-up. |
| SleepingAlone.RisesAlone | kosio/runtime/scheduler/multi_thread/worker.hpp:90-108 | A sleeper whose wait has ended gets up, as a searcher exactly if it was picked; listed and without tasks it waits on; listed and with tasks it takes itself off the list and is counted as working. |
| SleepingAlone.EventsRouse | kosio/runtime/scheduler/multi_thread/worker.hpp:237-248 | Completions end the wait of a sleeper, with all their tasks in its ring. |
| IdleWord.FieldsOf | kosio/runtime/scheduler/multi_thread/idle.hpp:15-29 | The masks and the shift read the two packed counts back. |
| IdleWord.IncSearchingFaithful | kosio/runtime/scheduler/multi_thread/idle.hpp:31-33 | Adding a searcher carries into the other count exactly when there are 2^16 - 1 already. |
| IdleWord.DecSearchingFaithful | kosio/runtime/scheduler/multi_thread/idle.hpp:35-40 | Taking a searcher away borrows from the other count exactly when there is none. |
| IdleWord.WakeUpOneFaithful | kosio/runtime/scheduler/multi_thread/idle.hpp:42-44 | One addition adds a worker, and a searcher if asked for, as long as both counts fit. |
| IdleWord.DecWorkingFaithful | kosio/runtime/scheduler/multi_thread/idle.hpp:46-55 | One subtraction takes a worker away, and a searcher if it was one. |
| IdleWord.MasksSplitTheWord | kosio/runtime/scheduler/multi_thread/idle.hpp:58-64 | The mask made by exclusive or is all bits from bit 16 up. |
| Idle.IdleState.DecNumSearching | kosio/runtime/scheduler/multi_thread/idle.hpp:35-40 | True exactly for the last searcher. |
| Idle.IdleState.DecNumWorking | kosio/runtime/scheduler/multi_thread/idle.hpp:46-55 | True exactly if the worker was the last searcher. |
| Idle.IdleState.WakeUpOne | kosio/runtime/scheduler/multi_thread/idle.hpp:42-44 | Adds one worker, and the given number of searchers. |
| Idle.IdleState.IncNumSearching | kosio/runtime/scheduler/multi_thread/idle.hpp:31-33 | Adds one searcher. |
| Idle.IdleState.NumWorkingAndSearching | kosio/runtime/scheduler/multi_thread/idle.hpp:25-29 | Returns both counts. |
| Idle.Idle.WorkerToNotify | kosio/runtime/scheduler/multi_thread/idle.hpp:82-97 | Without interference, picks a sleeper exactly if there is one and nobody searches, takes it off the set and counts it as searching. |
| Idle.Idle.TransitionWorkerToSleeping | kosio/runtime/scheduler/multi_thread/idle.hpp:99-105 | Puts the worker among the sleepers; true exactly if it was the last searcher. |
| Idle.Idle.TransitionWorkerToSearching | kosio/runtime/scheduler/multi_thread/idle.hpp:107-114 | Succeeds, and counts, exactly if fewer than half of the workers search. |
| Idle.Idle.TransitionWorkerFromSearching | kosio/runtime/scheduler/multi_thread/idle.hpp:116-119 | True exactly for the last searcher. |
| Idle.Idle.Remove | kosio/runtime/scheduler/multi_thread/idle.hpp:121-130 | Takes the worker off the set and counts it as working, exactly if it is there. |
| Fairness.WaitIsBounded | kosio/runtime/scheduler/multi_thread/worker.hpp:140-147 | A task at position k of the global queue is taken within (k + 1) * interval rounds of any one worker that keeps looping, whatever other threads take and put, for every interval and across every wrap of the 32-bit tick. |
| Fairness.TickAdvances | kosio/runtime/scheduler/multi_thread/worker.hpp:140-142 | Every round brings the tick one closer to a multiple of the interval, also where the counter wraps. |
| Fairness.StepShortensWait | kosio/runtime/scheduler/multi_thread/worker.hpp:144-175 | Every step of the worker or of others shortens the remaining wait or leaves it. |
| Timer.Timer.HandleExpiredEntries | kosio/runtime/timer/timer.hpp:96-128 | Bringing the wheel to `now` drains exactly the entries due by then, each once, in the order of their deadlines and within a deadline in the order of insertion; all others stay, rightly filed; the count is their number; what becomes runnable and which links are cleared; in all, the drain refiles at most five times as many entries as were waiting. |
| Order.DrainedOnlySo | kosio/runtime/timer/timer.hpp:98-128 | What a drain executes, and in which order, is determined by what was filed before: nothing else meets what the drain promises. |
| Order.SameDeadlineInTurn | kosio/runtime/timer/timer.hpp:98-128 | Over any sequence of insertions and drains, the entries of a deadline are executed in the order in which they were inserted, and those still waiting come after them. |
| Order.FileAdds | kosio/runtime/timer/level.hpp:12-16 | A new entry goes to the end of the line of its deadline, because entries of one deadline are always in one slot. |
| Order.TakeLeaves | kosio/runtime/timer/level.hpp:64-70 | Of each deadline the slot that is taken out has all entries, or none. |
| Order.CascadeLeaves | kosio/runtime/timer/timer.hpp:174-202 | Handing the entries of a slot on, the due ones to be executed and the others to lower levels, changes no order within a deadline. |
| Timer.Timer.Insert | kosio/runtime/timer/timer.hpp:31-45 | A passed time is refused and changes nothing; otherwise a new entry joins the bag, and the wheel stays in order if and only if the entry is within the horizon. |
| Timer.Timer.InsertHandle | kosio/runtime/timer/timer.hpp:47-60 | The same for a sleeping coroutine. |
| Timer.Timer.Remove | kosio/runtime/timer/timer.hpp:62-73 | The entry of a request leads nowhere afterwards and stays filed, the wheel in order; the entry of a coroutine is refiled at the present moment, which always breaks the order of the wheel. |
| Timer.Timer.NextExpiration | kosio/runtime/timer/timer.hpp:75-85 | Nothing exactly if no entry waits; otherwise the earliest moment at which any slot of any level is due. |
| Timer.Timer.NextExpirationTime | kosio/runtime/timer/timer.hpp:87-94 | The time until the earliest moment at which a slot is due: never past a waiting entry, never zero, nothing exactly if no entry waits, and exactly the time of the next entry if some entry is due before the next multiple of 64 of the clock. |
| Search.EarliestExact | kosio/runtime/timer/timer.hpp:76-85 | With an entry due before the next multiple of 64 of the clock, the earliest due slot holds the next entry, and is due at its time. |
| Timer.Timer.ProcessExpiration | kosio/runtime/timer/timer.hpp:174-202 | The slot that falls due is emptied: what is due now goes to `pending`, in order, the rest to its right places; nothing is lost. |
| Timer.Timer.Cascade | kosio/runtime/timer/timer.hpp:186-201 | The loop over a due slot puts exactly the due entries in `pending` and refiles the others lower down. |
| Timer.Timer.Descend | kosio/runtime/timer/timer.hpp:187-200 | One entry of a due slot is due now, or is refiled at a strictly lower level. |
| Timer.Timer.Advance | kosio/runtime/timer/timer.hpp:111-122 | Moves the clock strictly forward, never past `now`, and collects only what is due at exactly that moment; or nothing more is due by `now`. |
| Timer.Timer.DrainPending | kosio/runtime/timer/timer.hpp:103-108 | Executes the pending entries in order, each once. |
| Timer.Timer.FileNew | kosio/runtime/timer/timer.hpp:38-44 | A new entry is filed at the level and slot the code computes; the order is kept exactly if it is within the horizon. |
| Timer.Level.AddEntry | kosio/runtime/timer/level.hpp:12-16 | Appends to the slot and keeps the occupancy word exact. |
| Timer.Level.TakeSlot | kosio/runtime/timer/level.hpp:64-70 | Empties the slot and keeps the occupancy word exact. |
| Wheel.LevelForIsHighestDifference | kosio/runtime/timer/timer.hpp:142-167 | The level computed by exclusive or and counting leading zeros is the highest base-64 digit in which the two times differ, for all 64-bit times. |
| Wheel.LevelForPlaces | kosio/runtime/timer/timer.hpp:142-167 | A future time within the horizon gets a level at which it agrees with the clock on all higher digits and is strictly later, by less than a turn at the top. |
| Wheel.DeadlineIsBegin | kosio/runtime/timer/level.hpp:26-38 | The deadline computed by masking and adding is the beginning of the slot as many slots ahead as its number says, for all clocks and levels. |
| Wheel.WrapOnlyAtTop | kosio/runtime/timer/level.hpp:34-38 | Below the top level the correction for a full turn is never needed for an occupied slot. |
| Wheel.FirstOccupied | kosio/runtime/timer/level.hpp:43-62 | The search by rotation and counting trailing zeros finds the nearest occupied slot ahead of the clock, except that the clock's own slot hides all others. |
| Wheel.JumpKeepsPlaced | kosio/runtime/timer/timer.hpp:121-126 | The clock may jump to any moment before the slot of an entry is due. |
| Wheel.LowerLevelFirst | kosio/runtime/timer/timer.hpp:79-83 | A slot of a lower level is due strictly before every slot of a higher level. |
| Wheel.CascadeDescends | kosio/runtime/timer/timer.hpp:192-199 | When its slot falls due an entry is due itself or belongs at a strictly lower level. |
| Wheel.PlacedAhead | kosio/runtime/timer/level.hpp:49-59 | A filed entry is exactly as far ahead of the clock as its slot number says, and never a full turn. |
| Wheel.SlotForIsDigit | kosio/runtime/timer/level.hpp:72-77 | The slot computed by shift and modulus is the base-64 digit. |
| Wheel.LevelRangeIsPower | kosio/runtime/timer/entry.hpp:11-37 | The range tables hold the powers of 64 they promise. |
| Search.FirstLevelIsEarliest | kosio/runtime/timer/timer.hpp:77-83 | The first occupied level's expiration is the earliest of the whole wheel. |
| Search.EarliestBounds | kosio/runtime/timer/timer.hpp:87-94 | The deadline found lies strictly in the future and not after any entry; on level 0 its entries are due exactly then. |
| Search.FileNewPlaced | kosio/runtime/timer/timer.hpp:38-43 | Filing a new entry keeps every entry rightly filed if and only if the new one is within the horizon. |
| Search.TakeKeepsFiled | kosio/runtime/timer/timer.hpp:174-182 | Taking out the earliest slot leaves every other entry rightly filed as seen from its deadline. |
| Search.AdvanceKeepsFiled | kosio/runtime/timer/timer.hpp:114-126 | If nothing is due by `now` the clock can move there. |
| Search.FiledIsLater | kosio/runtime/timer/timer.hpp:125-126 | Every entry rightly filed at a clock is due strictly after it. |
| Grid.HeightBound | kosio/runtime/timer/timer.hpp:186-201 | The levels of all waiting entries add up to at most five per entry, which bounds the moves of a drain. |
| Grid.Entry.Execute | kosio/runtime/timer/entry.hpp:51-69 | A timed-out request loses its link, a sleeping coroutine becomes runnable, an entry whose request completed first does nothing. |
| Horizon.HorizonIsExact | kosio/runtime/timer/entry.hpp:30-31 | Filing a timeout keeps the top level's search right at every later clock, whatever else is filed, if and only if it lies at most 63 top-level slots ahead when it is filed. |
| Horizon.NearDoesNotHide | kosio/runtime/timer/level.hpp:43-62 | Within the horizon the search never reports a deadline past another entry. |
| Horizon.FullTurnHides | kosio/runtime/timer/level.hpp:43-62 | A timeout exactly one turn ahead hides every other one at the top level. |
| Horizon.DurationInHorizon | kosio/runtime/timer/entry.hpp:30-31 | Every duration up to 63 * 2^30 ms is within the horizon. |
| Horizon.MaxDurationIsTooLong | kosio/runtime/timer/entry.hpp:30-31 | The declared maximum of 2^36 - 1 ms is too long: a concrete clock and timeout that hides another. |
| Driver.Driver.Poll | kosio/runtime/scheduler/driver.hpp:32-60 | Completions first, then what is due: exactly the completed requests and then exactly the sleepers whose time has come are pushed to the run queue, in this order, each once, whether or not a timeout came first; results are stored; a timeout that comes first only clears the link; every link left leads to a waiting timeout that leads back. |
| Driver.Driver.CompleteAll | kosio/runtime/scheduler/driver.hpp:36-45 | The completion loop: live requests lose exactly the completed ones, their coroutines are appended in order, the other links stay. |
| Driver.Driver.Complete | kosio/runtime/scheduler/driver.hpp:37-44 | One completion: the timeout is forgotten, the result stored, the coroutine made runnable. |
| Driver.Driver.Forget | kosio/runtime/scheduler/driver.hpp:39-41 | A completed request leaves a waiting timeout that leads nowhere and wakes nobody: it has neither a request nor a coroutine. |
| Driver.Driver.Expire | kosio/runtime/scheduler/driver.hpp:49 | Draining pushes exactly the coroutines of the sleepers that are due, and clears the links of exactly the requests that timed out. |
| Driver.Driver.SubmitWithTimeout | kosio/time/timeout.hpp:19-31 | A request with a timeout is linked with its entry in both directions, or refused because its time has passed; the wheel stays in order if and only if the deadline is within the horizon. |
| Driver.Driver.Sleep | kosio/time/sleep.hpp:25-34 | A sleeping coroutine waits in the wheel; if its time has passed the program ends, for the failed insertion is asked for its value in a function that must not throw. |
| Driver.LinksDrained | kosio/runtime/timer/entry.hpp:51-69 | Clearing the links of the drained requests keeps the links of all others. |
| Driver.PushedOnce | kosio/runtime/scheduler/driver.hpp:33-49 | Over any sequence of submissions, sleeps and polls, as the methods promise them: the run queue gets the coroutine of every submitted request exactly once, on its completion, also if its timeout came first, and every sleeping coroutine exactly once; what is not pushed yet is in flight or asleep. |
| Driver.NoSleeperOverdue | kosio/runtime/scheduler/driver.hpp:49 | In every such run a poll leaves no sleeper behind whose time has come. |
| Driver.OnlySleepersWake | kosio/runtime/timer/entry.hpp:51-69 | Of the drained entries exactly those of sleepers make a coroutine runnable; timeouts, forgotten or not, never do. |
| LockingAlone.RefinesFifoLock | kosio/sync/mutex.hpp:18-108 | In every run each step of the lockers and of the multi-step unlock is invisible, or a step of a lock with one holder and a queue in order of arrival; and from each state, the next steps of a task in `lock`, four at most, get it the free lock or the last place in the queue, and those of the owner, at most four more than there are waiting tasks, give the lock to the first of the queue or free it. |
| LockingAlone.LockAlone | kosio/sync/mutex.hpp:18-40 | A call of `lock` by itself takes a free lock in two steps, and parks as the last of the queue in three. |
| LockingAlone.LockFinishes | kosio/sync/mutex.hpp:22-37 | From anywhere in `lock`, whatever the task has loaded, its next steps get it the lock if it is free, or its place behind all others. |
| LockingAlone.UnlockFinishes | kosio/sync/mutex.hpp:80-108 | From anywhere in `unlock` the next steps of the owner hand the lock to the first of the queue, or free it exactly if nobody waits. |
| LockingSafety.MutualExclusion | kosio/sync/mutex.hpp:18-40 | In every run at most one task holds the lock, and the word says unlocked exactly when none does. |
| LockingSafety.GrantsFollowArrivals | kosio/sync/mutex.hpp:99-107 | In every run the lock has been handed to the first that parked, in that order, and the others are queued in the order in which they parked. |
| LockingSafety.ResumedOncePerPark | kosio/sync/mutex.hpp:105-107 | In every run each task is resumed exactly once for each time it parked, except that the last may be still to come. |
| LockingSafety.AssertionsHold | kosio/sync/mutex.hpp:81-105 | In every run the assertions of `unlock` hold: the exchange returns waiting tasks, and there is a parked task to hand the lock to. |
| LockingSafety.ParkedHasAHolder | kosio/sync/mutex.hpp:80-108 | In every run, while a task is parked, somebody holds the lock and each of its steps goes on. |
| LockingSafety.TryLockExactly | kosio/sync/mutex.hpp:67-73 | `try_lock` compares with whatever it loaded: in every run it leaves one owner if and only if it fails or has found the mutex unlocked; on a lock that is held it succeeds whenever the word has not changed. |
| LockingSafety.StepKeeps | kosio/sync/mutex.hpp:18-108 | Every step keeps the invariant of pointers, lists and places, and simulates the queue lock. |
| Locking.EnqueueKeeps | kosio/sync/mutex.hpp:29-36 | The step that pushes parks the task behind all others, even if the head it compares with was reused meanwhile. |
| Locking.AcquireKeeps | kosio/sync/mutex.hpp:22-28 | The step at a free lock, with the word loaded, makes the task its only holder. |
| Locking.FreeKeeps | kosio/sync/mutex.hpp:90-96 | The lock is freed only if nobody waits. |
| Locking.TakeKeeps | kosio/sync/mutex.hpp:97-98 | The exchange takes a stack that is not empty, and changes nothing of the queue. |
| Locking.ReverseKeeps | kosio/sync/mutex.hpp:99-103 | Each round of the reversal, in place through the links, leaves the order of the queue as it is. |
| Locking.HandKeeps | kosio/sync/mutex.hpp:105-107 | The lock goes to the task that has waited longest. |
| Mutex.Mutex.Lock | kosio/sync/mutex.hpp:18-40 | Without interference: takes a free lock, or puts the awaiter behind all others. |
| Mutex.Mutex.Unlock | kosio/sync/mutex.hpp:80-108 | Without interference: hands the lock to the task that has waited longest and resumes it, or frees it if none waits. |
| Mutex.Mutex.Reverse | kosio/sync/mutex.hpp:97-104 | The in-place reversal of the stack keeps the order of arrival. |
| Streams.StreamBuffer.ResetData | kosio/io/buf/buffer.hpp:18-23 | Moves what is waiting to the front, unchanged. |
| Streams.StreamBuffer.WriteTo | kosio/io/buf/buffer.hpp:93-102 | Copies as much as fits to the caller, in order, and nothing else. |
| Streams.StreamBuffer.ReadFrom | kosio/io/buf/buffer.hpp:104-110 | Takes as much as fits, in order, behind what is waiting. |
| Streams.StreamBuffer.FindFlagAndReturnSlice | kosio/io/buf/buffer.hpp:122-130 | The shortest prefix that ends in the flag, or nothing if it does not occur. |
| Streams.UpToFlagUnique | kosio/io/buf/buffer.hpp:122-130 | There is only one prefix that ends in the first flag. |
| BufferedWrite.BufWriter.RealWrite | kosio/io/impl/impl_buf_write.hpp:48-79 | Sink and buffer together grow by exactly a prefix of the data, whatever the sink does. Data that fits behind the write position is buffered without touching the sink, and the result is its length; otherwise result, sink and outcomes used are those of `Send`. `write_all` succeeds only with all of the data, `write` of something only with something. |
| BufferedWrite.BufWriter.WriteLoop | kosio/io/impl/impl_buf_write.hpp:55-74 | The loop ends because buffered and unsent bytes together become fewer, with the rest of the data fitting the buffer, or after one round, or with the failure that `Send` says. |
| BufferedWrite.BufWriter.WriteSome | kosio/io/impl/impl_buf_write.hpp:56-70 | After a short vectored write, sink and buffer hold the old stream and exactly the bytes that went out. |
| BufferedWrite.BufWriter.Flush | kosio/io/impl/impl_buf_write.hpp:18-35 | Moves bytes to the sink without changing the stream, also if it fails midway; success leaves an empty buffer, and an empty buffer is a success without a write; the result is that of `Drain`. |
| BufferedWrite.EndsExactly | kosio/io/impl/impl_buf_write.hpp:18-79 | A call reports a failure exactly if the last write to the sink that it made failed or took nothing, with that error, and none before it did; a call that makes no write succeeds. |
| BufferedWrite.SendExactly | kosio/io/impl/impl_buf_write.hpp:53-74 | The writes of `write` and `write_all` go on exactly until one fails or takes nothing, the rest of the data fits the buffer, or one was made. |
| BufferedWrite.DrainExactly | kosio/io/impl/impl_buf_write.hpp:22-32 | The writes of a flush go on exactly until one fails or takes nothing, or the buffer is empty. |
| BufferedWrite.GoodSinkSucceeds | kosio/io/impl/impl_buf_write.hpp:18-79 | Over a sink whose writes take something and never fail, every call of a run succeeds. |
| BufferedWrite.StreamLaw | kosio/io/impl/impl_buf_write.hpp:18-79 | For any sequence of `write`, `write_all` and `flush`, with any failures: sink and buffer together are the bytes taken over, in order. |
| BufferedWrite.NothingLost | kosio/io/impl/impl_buf_write.hpp:42-45 | If all calls are `write_all` and `flush` and succeed, all that was handed in is taken over, and after a last flush the sink has it all. |
| BufferedRead.BufReader.RealRead | kosio/io/impl/impl_buf_read.hpp:98-150 | `read` and `read_exact` deliver a prefix of the stream to the caller's memory and leave the rest, whatever the source does: from the buffer alone if that can answer, and otherwise with the reads, the result and the bytes left that `Fetch` says; `read` delivers nothing only at the end; `read_exact` succeeds only with all of it; beyond the size of the buffer the result is that of `LargeExact`. |
| BufferedRead.EndsExactly | kosio/io/impl/impl_buf_read.hpp:18-150 | Every operation but a `read_exact` larger than the buffer reports a failure of the source exactly if the last read that it made failed, with that error, and none before it did; what the buffer can answer is answered without a read, by `read` with as many bytes as are buffered and fit; an early end is reported only of a stream that is too short. |
| BufferedRead.BufReader.ReadBuffered | kosio/io/impl/impl_buf_read.hpp:119-149 | A request answered from the buffer: nothing read means the end, and a failure delivers nothing. |
| BufferedRead.BufReader.FillEnough | kosio/io/impl/impl_buf_read.hpp:124-149 | The refill loop ends, with the reads, the result and the bytes that `Fetch` says; behind a request that fits the buffer every refill has room, so that a read of nothing means the end; a larger one always ends in a failure. |
| BufferedRead.BufReader.ReadLarge | kosio/io/impl/impl_buf_read.hpp:102-117 | A request larger than the buffer takes what is buffered first and then reads past the buffer. |
| BufferedRead.BufReader.ReadUntil | kosio/io/impl/impl_buf_read.hpp:50-90 | Appends exactly the shortest prefix of the stream that ends in the flag, or all of it; without a buffer nothing is read; the reads and the failure are those that `Pending` says. |
| BufferedRead.BufReader.FillBuf | kosio/io/impl/impl_buf_read.hpp:23-34 | Moves bytes from the source to the buffer without changing the stream. |
| BufferedRead.BufReader.Consume | kosio/io/impl/impl_buf_read.hpp:18-21 | Drops that many bytes, at most what is buffered. |
| ReadLaws.StreamLaw | kosio/io/impl/impl_buf_read.hpp:18-150 | For any sequence of `read`, `read_exact`, `read_until`, `consume` and `fill_buf`, as the methods promise them and with any failures: what they took, in order, and what is ahead together are the original stream. |
| ReadLaws.ExactLaw | kosio/io/impl/impl_buf_read.hpp:43-48 | Successful calls of `read_exact`, of whatever sizes, get the beginning of the stream, whole and in order. |
| ReadLaws.LinesLaw | kosio/io/impl/impl_buf_read.hpp:50-96 | Successful calls of `read_until` with one flag get the lines of the stream one after the other, and nothing after the last, however the bytes came in. |
| ReadLaws.EndMeansAll | kosio/io/impl/impl_buf_read.hpp:36-96 | When `read` reports nothing more, or `read_until` stops without its flag, the whole stream has been taken. |
| ReadLaws.LinesAreTheStream | kosio/io/impl/impl_buf_read.hpp:50-96 | A line is never empty, and each but the last ends in the only flag it has. |
| Sources.WrongReasonExactly | kosio/io/impl/impl_buf_read.hpp:102-149 | A `read_exact` larger than the buffer, of a stream that is long enough, reports an early end if and only if a read fails before everything has come, and none fails afterwards before the buffer is full or the stream at its end. |
| Sources.EarlyEndExactly | kosio/io/impl/impl_buf_read.hpp:119-137 | The refill behind such a failure reports an early end exactly if no read fails before the buffer is full or the stream at its end. |
| Sources.FetchExactly | kosio/io/impl/impl_buf_read.hpp:123-149 | The reads of a refill end in a failure of the source exactly if the last of them failed, and none before. |
| Sources.UntilExactly | kosio/io/impl/impl_buf_read.hpp:57-88 | The same of the reads of `read_until`. |
| Sources.FetchIsRefill | kosio/io/impl/impl_buf_read.hpp:119-137 | Behind a request larger than the buffer the refill is the one that never has enough. |
| ReadLaws.SteadySourceSucceeds | kosio/io/impl/impl_buf_read.hpp:36-96 | Over a source whose reads never fail, every operation of a run succeeds, but for a `read_exact` of more than is left. |
| ReadLaws.EarlyEndOfALongStream | kosio/io/impl/impl_buf_read.hpp:105-109 | Such a call: the source fails once, and an early end is reported with the whole stream still ahead, however long it is. |
| Sources.Source.ReadExact | kosio/io/impl/impl_async_read.hpp:49-63 | Fills the caller's memory from the source, or fails with what came so far, as the outcomes of the single reads say. |
| Channel.NothingLost | kosio/sync/channel/channel.hpp:20-42 | In every run, also over the close: values sent are those received and those in the buffer, and every value handed in was sent, refused, or still waits with its sender. |
| Channel.ReceivedOnceAndOnlyIfSent | kosio/sync/channel/channel.hpp:31-51 | In every run a value is received at most once, and never if its send reported a closed channel. |
| Channel.ParkedMeansBlocked | kosio/sync/channel/channel.hpp:63-84 | In every run senders park only before a full buffer, receivers only before an empty one, and never both. |
| Channel.ClosedDrains | kosio/sync/channel/channel.hpp:74-83 | After a close that did not fall before a parking nobody waits, and the buffered values can still be received, in order. |
| Channel.ParksForGood | kosio/sync/channel/channel.hpp:31-36 | Whoever parks has a channel that was closed since it looked, if and only if the close fell between the two; then it is the only one that waits, and no end that is dropped later resumes it. |
| Channel.ReceiverLeftWaiting | kosio/sync/channel/channel.hpp:74-79 | Such a run: a receiver finds the channel open, the last sender goes, the receiver parks. |
| Channel.RefusedExactlyWhenFull | kosio/sync/channel/channel.hpp:31-41 | In every run, a send on a closed channel is refused if and only if the buffer is full and no receiver was left waiting. |
| Channel.RefusedOnlyIfClosed | kosio/sync/channel/channel.hpp:31-36 | In every run no send is refused as long as the channel is open. |
| Channel.SendEndsExactly | kosio/sync/channel/channel.hpp:20-42 | In every run: a value is received at once exactly if a receiver waits, is buffered exactly if none does and there is room, waits with its sender exactly if there is no room and the channel is open, and is refused exactly if there is none and it is closed. |
| Channel.RecvEndsExactly | kosio/sync/channel/channel.hpp:63-84 | In every run: a receive gets one of the outstanding values exactly if there is one; otherwise it parks on an open channel, and on a closed one nothing changes. |
| Channel.SentToNobody | kosio/sync/channel/channel.hpp:37-41 | A run in which a send succeeds after the last receiver has gone: the value sits in the buffer. |
| Channel.EndsStayGone | kosio/sync/channel/channel.hpp:115-133 | In every run, once the last sender or receiver is gone there is never one again. |
| Channel.FirstInFirstOutExactly | kosio/sync/channel/channel.hpp:20-84 | In every run, values come out in the order in which they were handed in, if and only if no receive ever found a parked sender behind a buffer that was not empty. |
| Channel.OldestFirst | kosio/sync/channel/channel.hpp:66-83 | In every run, the next receive takes the oldest value outstanding, if and only if no sender waits or the channel has no buffer. |
| Channel.NotFirstInFirstOut | kosio/sync/channel/channel.hpp:66-72 | The channel is not first-in first-out: a run in which a receiver takes a parked sender's value ahead of the buffer. |
| Channel.SendConserves | kosio/sync/channel/channel.hpp:20-42 | A send keeps the accounts of values. |
| Channel.RecvConserves | kosio/sync/channel/channel.hpp:63-84 | A receive keeps the accounts of values. |
| ChannelObject.Channel.Send | kosio/sync/channel/channel.hpp:20-42 | On the ring buffer and the lists of awaiters: the value goes to the first waiting receiver, or to the buffer, or parks, or is refused; results and resumed tasks accordingly. |
| ChannelObject.Channel.Recv | kosio/sync/channel/channel.hpp:63-84 | The value of the first waiting sender, else the oldest of the buffer, else the receiver parks or finds the channel closed. |
| ChannelObject.Channel.Destroy | kosio/sync/channel/channel.hpp:136-147 | The first close resumes everybody who waits, once, and clears the lists; later ones do nothing. |
| ChannelObject.Channel.AddSender | kosio/sync/channel/channel.hpp:115-117 | One more sender, and nothing else. |
| ChannelObject.Channel.AddReceiver | kosio/sync/channel/channel.hpp:125-127 | One more receiver, and nothing else. |
| ChannelObject.Channel.SubSender | kosio/sync/channel/channel.hpp:119-123 | The last sender closes the channel. |
| ChannelObject.Channel.SubReceiver | kosio/sync/channel/channel.hpp:129-133 | The last receiver closes the channel. |
| RingBuffer.SizeExact | kosio/common/util/ring_buffer.hpp:59-67 | Size, empty and full, computed modulo the number of slots, are right for every position of start and end. |
| RingBuffer.ResizeExact | kosio/common/util/ring_buffer.hpp:116-138 | A resize reports success exactly if the elements do not exceed the new number of slots, and else changes nothing; it keeps the contents if they fit below the new capacity, or an empty buffer's positions do, and leaves a broken buffer otherwise: if and only if. |
| RingBuffer.ResizeBreaksEmpty | kosio/common/util/ring_buffer.hpp:122-136 | A concrete empty buffer that a smaller size breaks. |
| RingBuffer.ResizeBreaksFull | kosio/common/util/ring_buffer.hpp:122-136 | A concrete buffer that is resized below its number of elements. |
| RingBuffer.HeapRingBuffer.SafetyPush | kosio/common/util/ring_buffer.hpp:69-75 | Appends to a buffer that is not full. |
| RingBuffer.HeapRingBuffer.SafetyPop | kosio/common/util/ring_buffer.hpp:77-83 | Removes the oldest of a buffer that is not empty. |
| RingBuffer.HeapRingBuffer.Push | kosio/common/util/ring_buffer.hpp:85-94 | Appends exactly if there is room. |
| RingBuffer.HeapRingBuffer.Pop | kosio/common/util/ring_buffer.hpp:96-104 | Removes and returns the oldest, or nothing. |
| RingBuffer.HeapRingBuffer.Resize | kosio/common/util/ring_buffer.hpp:116-138 | The copying loops: refused exactly if the elements exceed the new number of slots; the buffer survives exactly if it fits. |

## Left out

- Driver.Driver.Poll: needs a wheel in order; what polls do after a deadline beyond the horizon was accepted is not part of this model.
- Timer.Timer.Remove: the branch for a sleeping coroutine is shown to break the order of the wheel; what the wheel does afterwards is not part of this model.
- io_uring, eventfd, sockets, files, signals, logging and the awaiters of single system calls: kernel plumbing; a read or write is any amount up to what was asked, or a failure, and a wake-up is a token.
- Memory orders weaker than sequential consistency, and coroutine frames.
- A worker's start, its shutdown and the look at the closed flag in its loop.
- The slot for the newest task of a worker (kosio/runtime/scheduler/multi_thread/worker.hpp:58-66) is part of `Sleeping` but not of `Stealing`, where a task in it counts as handed out.
- The order in which a thief visits its victims: any victim, and giving up at any time.  Failures to steal are arbitrary.
- In `Sleeping` tasks are only counted, and what a thief sees of a ring between its loads and its claim is any earlier size; `Stealing` has the words.
- SleepingLive.WorkGetsRun: promises that the threads can come to run a task from every state, not a number of steps within which every fair scheduler makes them.
- Parking a handle and advancing the list (kosio/sync/mutex.hpp:106-107) is one step: the handle goes to the slot of the running worker, which no other worker takes from.
- Latch, SharedMutex, ConditionVariable: not part of this model.
- The channel's close is one step with respect to the lists of those who wait, although it does not take the mutex; and the counts of senders and receivers only change while they are positive.
- Reading up to a flag of several characters, which can straddle a refill (kosio/io/impl/impl_buf_read.hpp:67-77).
- The cancellation request that a timeout submits (kosio/runtime/timer/entry.hpp:57-61); its effect is the later completion of the request, which is arbitrary here.
- The current-thread scheduler and StackRingBuffer: simpler doubles.
- The rule that a batch taken from the global queue is at most its share plus one: any amount from one to the room is allowed.
