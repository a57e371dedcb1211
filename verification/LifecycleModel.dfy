/**
 The life of one provider's queues, as a step-by-step concurrent protocol.

 Requests, workers, provider updates, lazy preparation, provider removal, clean-up of replaced
 workers and shutdown interleave freely; every atomic action of core/bifrost.go is one step.
 Each update or preparation makes a new generation: a bounded queue that is never closed, a
 closing flag with a done signal, and a wait group.  Generations are numbered in the order they
 are made, without end.  The scheduler, cancellation, time-outs, the configured capacities and
 worker counts, and failures of provider construction are nondeterministic.
 */
module LifecycleModel {
  import opened Wrappers
  import opened MessageLayer

  /** Where a producer stands in tryRequest or tryStreamRequest; g is the queue it means to use. */
  datatype ProducerPc =
    | Start
    | Loaded(g: nat)
    | GotResponse(g: nat)
    | GotError(g: nat)
    | GotObject(g: nat)
    | Ready(g: nat)
    | Lookup(g: nat)
    | Candidate(g: nat, c: nat)
    | Sending(g: nat, blocking: bool)
    | FoundFull(g: nat)
    | Recheck(g: nat)
    | Waiting
    | Left
    | Releasing(put: nat)
    | Finished

  datatype WorkerPc = Idle | Busy | Draining | DrainHolding | Exited

  datatype WorkerState = WorkerState(gen: nat, pc: WorkerPc)

  datatype PreparePc = QueueStored | BothStored

  datatype UpdatePc =
    | OldLoaded
    | Allocated
    | NewQueueStored
    | NewBothStored
    | Transferring
    | Moving
    | CancelHolding
    | Cancelling
    | Retiring
    | UpdateSignalling
    | UpdateMidSignal
    | UpdateSignalled
    | SyncSweeping
    | SyncHolding

  datatype RemovePc =
    | RemoveSignalling
    | RemoveMidSignal
    | RemoveSignalled
    | RemoveWaiting(wg: nat)
    | RemoveSweeping
    | RemoveHolding
    | RemoveSwept
    | RetiredGone
    | QueueDeleted

  /** The provider's write mutex together with its holder's local variables. */
  datatype Mutex =
    | Free
    | Preparing(g: nat, prep: PreparePc, underUpdate: bool)
    | Updating(oldGen: nat, oldWg: Option<nat>, newGen: nat, upd: UpdatePc)
    | Removing(g: nat, rem: RemovePc)

  datatype CleanPc = Registered | CleanWaiting | CleanSweeping | CleanHolding | CleanSwept | RetiredCounted | CleanDone

  /** The goroutine that waits for a replaced generation: the wait group it waits on and the
      retired wait group it reports to. */
  datatype Cleanup = Cleanup(wg: nat, epoch: nat, pc: CleanPc)

  datatype ShutPc =
    | NotStarted
    | ShutLocked
    | ShutSignalling(g: nat)
    | ShutMidSignal(g: nat)
    | ShutSignalled
    | ShutWaiting(wg: nat)
    | WorkersGone
    | CleanupsGone
    | ShutSweeping(g: nat)
    | ShutHolding(g: nat)
    | ShutDone

  /**
   next: number of generations made.  current, currentWg: the provider's entries in
   requestQueues and waitGroups.  closing, done: generations whose flag is set, whose done
   channel is closed.  retired: the provider's entry in retiredWorkerWaits; retiredCount: the
   counter of every such wait group.  pendingCleanups: oldWorkerCleanups.

   late, swept and settled are bookkeeping that no step reads: the senders past their last
   check when a queue began to close, the closing queues whose sweep has ended, and the
   generations that were complete when shutdown took its lock.
   */
  datatype State = State(
    pcs: map<nat, ProducerPc>,
    ms: MsgState,
    next: nat,
    cap: map<nat, nat>,
    wg: map<nat, nat>,
    closing: set<nat>,
    done: set<nat>,
    current: Option<nat>,
    currentWg: Option<nat>,
    workers: map<nat, WorkerState>,
    mx: Mutex,
    cleaners: map<nat, Cleanup>,
    retired: Option<nat>,
    retiredCount: map<nat, nat>,
    pendingCleanups: nat,
    shut: ShutPc,
    late: map<nat, set<nat>>,
    swept: set<nat>,
    settled: set<nat>)

  const INIT := State(map[], INITIAL, 0, map[], map[], {}, {}, None, None, map[], Free, map[], None, map[], 0,
                      NotStarted, map[], {}, {})

  datatype ProducerAct =
    | Arrive(isStream: bool) | LoadQueue | TakeResponse(c: Chan) | TakeError(c: Chan) | TakeObject(o: nat) | TakeStream(c: Chan)
    | CheckClosing | LookupAgain | CheckCandidate
    | Send | SeeDone | SeeCancel | FindFull | Drop | NoDrop | CheckAgain
    | GetReply(k: Kind) | Leave
    | ReleaseResponse | ReleaseError | ReleaseStream | SkipStream | ReleaseObject

  datatype WorkerAct = TakeMessage | WorkerReply(k: Kind) | Abandon | TimeOut(k: Kind) | WorkerSeesDone | DrainTake | DrainReply | DrainSkip | Exit

  datatype PrepareAct = StoreQueue(cap: nat, underUpdate: bool) | StoreWaitGroup | PrepareFails | PrepareSpawns(w: nat) | PrepareEnds

  datatype UpdateAct =
    | BeginUpdate | UpdateFails | AllocateNew(cap: nat) | StoreNewQueue | StoreNewWaitGroup | UpdateSpawns(w: nat) | SpawnsEnd
    | TransferTake | TransferMove | TransferFull | CancelReply | CancelSkip | CancelTake | CancelEnds | TransferEnds
    | Retire | RetireNothing | UpdateSetsClosing | UpdateSkipsSignal | UpdateClosesDone | StartCleaner | SweepAlone
    | SyncTake | SyncReply | SyncSkip | SyncEnds

  datatype RemoveAct =
    | BeginRemove | RemoveSetsClosing | RemoveSkipsSignal | RemoveClosesDone | RemoveLoadsWaitGroup | RemoveWaitEnds
    | RemoveTake | RemoveReply | RemoveSkip | RemoveSweepEnds | AwaitRetired | DeleteQueue | DeleteWaitGroup

  datatype CleanAct = CleanWaitEnds | CleanTake | CleanReply | CleanSkip | CleanSweepEnds | CountRetired | CountCleanup

  datatype ShutAct =
    | Lock | RangeQueues | ShutSetsClosing | ShutSkipsSignal | ShutClosesDone | RangeWaitGroups | ShutWaitEnds | AwaitCleanups
    | RangeForSweep | ShutTake | ShutReply | ShutSkip | ShutSweepEnds

  datatype EnvironmentAct = CancelRequest(r: nat) | ForgetFromPools(cs: set<Chan>, os: set<nat>)

  datatype Step =
    | Produce(r: nat, p: ProducerAct)
    | Work(w: nat, a: WorkerAct)
    | Prepare(prep: PrepareAct)
    | Update(upd: UpdateAct)
    | Remove(rem: RemoveAct)
    | Clean(g: nat, clean: CleanAct)
    | Shut(act: ShutAct)
    | Environment(env: EnvironmentAct)

  // ----- Shared fragments -----

  ghost predicate HasRoom(s: State, g: nat) {
    g in s.ms.bufs && g in s.cap && |s.ms.bufs[g]| < s.cap[g]
  }

  ghost predicate QueueEmpty(s: State, g: nat) {
    g in s.ms.bufs && s.ms.bufs[g] == []
  }

  ghost predicate QueueHas(s: State, g: nat) {
    g in s.ms.bufs && s.ms.bufs[g] != [] && CanDequeue(s.ms, g)
  }

  /** The caller of the message in this hand has gone. */
  ghost predicate HeldCancelled(s: State, a: Actor) {
    CanGiveUp(s.ms, a) && s.ms.hands[a].req in s.ms.cancelled
  }

  /** A stream request is answered with a stream or an error, any other with a response or an error. */
  predicate Suits(m: MsgState, a: Actor, k: Kind) {
    k != ErrorKind ==> a in m.hands && m.hands[a].req in m.held && (k == StreamKind <==> m.held[m.hands[a].req].isStream)
  }

  /** The producers whose last look at g's closing flag saw it clear. */
  predicate PastCheck(pc: ProducerPc, g: nat) {
    pc == Sending(g, false) || pc == Sending(g, true) || pc == FoundFull(g) || pc == Recheck(g)
  }

  /** signalClosing, first half: store the flag. */
  function SetClosing(s: State, g: nat): State {
    s.(closing := s.closing + {g}, late := s.late[g := set r | r in s.pcs && PastCheck(s.pcs[r], g)])
  }

  function Spawn(s: State, g: nat, w: nat): State
    requires g in s.wg
  {
    s.(wg := s.wg[g := s.wg[g] + 1], workers := s.workers[w := WorkerState(g, Idle)])
  }

  function NewGeneration(s: State, cap: nat): State {
    s.(next := s.next + 1, cap := s.cap[s.next := cap], wg := s.wg[s.next := 0], late := s.late[s.next := {}],
    ms := AddQueue(s.ms, s.next))
  }

  function EndSweep(s: State, g: nat): State {
    s.(swept := if g in s.closing then s.swept + {g} else s.swept)
  }

  // ----- Producers: core/bifrost.go 4076-4308, 4312-4601 -----

  ghost predicate Producing(s: State, r: nat, p: ProducerAct, s': State) {
    match p
    case Arrive(isStream) =>
      && r !in s.pcs && r !in s.ms.held
      && s' == s.(pcs := s.pcs[r := Start], ms := NewRequest(s.ms, r, isStream))
    case _ => r in s.pcs && r in s.ms.held && Advancing(s, r, p, s')
  }

  ghost predicate Advancing(s: State, r: nat, p: ProducerAct, s': State)
    requires r in s.pcs && r in s.ms.held
  {
    match p
    case LoadQueue | TakeResponse(_) | TakeError(_) | TakeObject(_) | TakeStream(_) => Acquiring(s, r, p, s')
    case CheckClosing | LookupAgain | CheckCandidate => Routing(s, r, p, s')
    case Send | SeeDone | SeeCancel | FindFull | Drop | NoDrop | CheckAgain => Enqueuing(s, r, p, s')
    case GetReply(_) | Leave => Awaiting(s, r, p, s')
    case _ => Releases(s, r, p, s')
  }

  /** getProviderQueue's fast path, then getChannelMessage. */
  ghost predicate Acquiring(s: State, r: nat, p: ProducerAct, s': State)
    requires r in s.pcs && r in s.ms.held
  {
    match p
    case LoadQueue =>
      && s.pcs[r] == Start && s.mx.Free? && s.current.Some?
      && s' == s.(pcs := s.pcs[r := Loaded(s.current.value)])
    case TakeResponse(c) =>
      && s.pcs[r].Loaded? && c.kind == ResponseKind && CanGetChan(s.ms, c)
      && s' == s.(pcs := s.pcs[r := GotResponse(s.pcs[r].g)], ms := GetChan(s.ms, r, c))
    case TakeError(c) =>
      && s.pcs[r].GotResponse? && c.kind == ErrorKind && CanGetChan(s.ms, c)
      && s' == s.(pcs := s.pcs[r := GotError(s.pcs[r].g)], ms := GetChan(s.ms, r, c))
    case TakeObject(o) =>
      && s.pcs[r].GotError? && CanGetObject(s.ms, o)
      && s' == s.(pcs := s.pcs[r := if s.ms.held[r].isStream then GotObject(s.pcs[r].g) else Ready(s.pcs[r].g)],
                  ms := GetObject(s.ms, r, o))
    case TakeStream(c) =>
      && s.pcs[r].GotObject? && c.kind == StreamKind && CanGetChan(s.ms, c) && HasObject(s.ms, r)
      && s' == s.(pcs := s.pcs[r := Ready(s.pcs[r].g)], ms := GetStream(s.ms, r, c))
    case _ => false
  }

  /** Use the queue loaded first, or a different open one published since, or give up. */
  ghost predicate Routing(s: State, r: nat, p: ProducerAct, s': State)
    requires r in s.pcs
  {
    match p
    case CheckClosing =>
      && s.pcs[r].Ready?
      && s' == s.(pcs := s.pcs[r := if s.pcs[r].g in s.closing then Lookup(s.pcs[r].g) else Sending(s.pcs[r].g, false)])
    case LookupAgain =>
      && s.pcs[r].Lookup?
      && s' == s.(pcs := s.pcs[r := if s.current.Some? && s.current.value != s.pcs[r].g
                                    then Candidate(s.pcs[r].g, s.current.value) else Releasing(0)])
    case CheckCandidate =>
      && s.pcs[r].Candidate?
      && s' == s.(pcs := s.pcs[r := if s.pcs[r].c in s.closing then Releasing(0) else Sending(s.pcs[r].c, false)])
    case _ => false
  }

  /** The two selects around the send.  The first has a default case, taken only when nothing
      else is ready; dropping excess requests is a setting that can change at any time. */
  ghost predicate Enqueuing(s: State, r: nat, p: ProducerAct, s': State)
    requires r in s.pcs
  {
    match p
    case Send =>
      && s.pcs[r].Sending? && HasRoom(s, s.pcs[r].g) && CanEnqueue(s.ms, r, s.pcs[r].g)
      && s' == s.(pcs := s.pcs[r := Waiting], ms := Enqueue(s.ms, r, s.pcs[r].g))
    case SeeDone =>
      && s.pcs[r].Sending? && s.pcs[r].g in s.done
      && s' == s.(pcs := s.pcs[r := Releasing(0)])
    case SeeCancel =>
      && s.pcs[r].Sending? && r in s.ms.cancelled
      && s' == s.(pcs := s.pcs[r := Releasing(0)])
    case FindFull =>
      && s.pcs[r].Sending? && !s.pcs[r].blocking
      && !HasRoom(s, s.pcs[r].g) && s.pcs[r].g !in s.done && r !in s.ms.cancelled
      && s' == s.(pcs := s.pcs[r := FoundFull(s.pcs[r].g)])
    case Drop => s.pcs[r].FoundFull? && s' == s.(pcs := s.pcs[r := Releasing(0)])
    case NoDrop => s.pcs[r].FoundFull? && s' == s.(pcs := s.pcs[r := Recheck(s.pcs[r].g)])
    case CheckAgain =>
      && s.pcs[r].Recheck?
      && s' == s.(pcs := s.pcs[r := if s.pcs[r].g in s.closing then Releasing(0) else Sending(s.pcs[r].g, true)])
    case _ => false
  }

  /** Wait for the reply.  On cancellation the message is left to whoever has it. */
  ghost predicate Awaiting(s: State, r: nat, p: ProducerAct, s': State)
    requires r in s.pcs
  {
    match p
    case GetReply(k) =>
      && s.pcs[r] == Waiting && CanReceive(s.ms, r, k)
      && s' == s.(pcs := s.pcs[r := Releasing(0)], ms := Receive(s.ms, r, k))
    case Leave =>
      && s.pcs[r] == Waiting && r in s.ms.cancelled
      && s' == s.(pcs := s.pcs[r := Left])
    case _ => false
  }

  /** releaseChannelMessage, one pool at a time. */
  ghost predicate Releases(s: State, r: nat, p: ProducerAct, s': State)
    requires r in s.pcs && r in s.ms.held
  {
    match p
    case ReleaseResponse =>
      && s.pcs[r] == Releasing(0) && s.ms.held[r].chan.response.Some?
      && s' == s.(pcs := s.pcs[r := Releasing(1)], ms := PutChan(s.ms, r, ResponseKind))
    case ReleaseError =>
      && s.pcs[r] == Releasing(1) && s.ms.held[r].chan.error.Some?
      && s' == s.(pcs := s.pcs[r := Releasing(2)], ms := PutChan(s.ms, r, ErrorKind))
    case ReleaseStream =>
      && s.pcs[r] == Releasing(2) && s.ms.held[r].chan.stream.Some?
      && s' == s.(pcs := s.pcs[r := Releasing(3)], ms := PutChan(s.ms, r, StreamKind))
    case SkipStream =>
      && s.pcs[r] == Releasing(2) && s.ms.held[r].chan.stream.None?
      && s' == s.(pcs := s.pcs[r := Releasing(3)])
    case ReleaseObject =>
      && s.pcs[r] == Releasing(3) && HasObject(s.ms, r)
      && s' == s.(pcs := s.pcs[r := Finished], ms := PutObject(s.ms, r))
    case _ => false
  }

  // ----- Workers: core/bifrost.go 5176-5690 -----

  ghost predicate Working(s: State, w: nat, a: WorkerAct, s': State) {
    && w in s.workers
    && var g := s.workers[w].gen;
    var me := Worker(w);
    match a
    case TakeMessage =>
      && s.workers[w].pc == Idle && QueueHas(s, g)
      && s' == s.(workers := s.workers[w := WorkerState(g, Busy)], ms := Dequeue(s.ms, g, me))
    case WorkerReply(k) =>
      && s.workers[w].pc == Busy && CanReply(s.ms, me, k) && Suits(s.ms, me, k)
      && s' == s.(workers := s.workers[w := WorkerState(g, Idle)], ms := Reply(s.ms, me, k))
    case Abandon =>
      && s.workers[w].pc == Busy && HeldCancelled(s, me)
      && s' == s.(workers := s.workers[w := WorkerState(g, Idle)], ms := GiveUp(s.ms, me, true))
    case TimeOut(k) =>
      // the five-second timer wins only while neither other case of the select is ready
      && s.workers[w].pc == Busy && CanGiveUp(s.ms, me) && Suits(s.ms, me, k)
      && !CanReply(s.ms, me, k) && s.ms.hands[me].req !in s.ms.cancelled
      && s' == s.(workers := s.workers[w := WorkerState(g, Idle)], ms := GiveUp(s.ms, me, false))
    case WorkerSeesDone =>
      && s.workers[w].pc == Idle && g in s.done
      && s' == s.(workers := s.workers[w := WorkerState(g, Draining)])
    case DrainTake =>
      && s.workers[w].pc == Draining && QueueHas(s, g)
      && s' == s.(workers := s.workers[w := WorkerState(g, DrainHolding)], ms := Dequeue(s.ms, g, me))
    case DrainReply =>
      && s.workers[w].pc == DrainHolding && CanReply(s.ms, me, ErrorKind)
      && s' == s.(workers := s.workers[w := WorkerState(g, Draining)], ms := Reply(s.ms, me, ErrorKind))
    case DrainSkip =>
      && s.workers[w].pc == DrainHolding && HeldCancelled(s, me)
      && s' == s.(workers := s.workers[w := WorkerState(g, Draining)], ms := GiveUp(s.ms, me, false))
    case Exit =>
      && s.workers[w].pc == Draining && QueueEmpty(s, g) && g in s.wg && s.wg[g] > 0
      && s' == s.(workers := s.workers[w := WorkerState(g, Exited)], wg := s.wg[g := s.wg[g] - 1])
  }

  // ----- Preparation: core/bifrost.go 3446-3548, and 3137-3142 under an update -----

  ghost predicate Prepares(s: State, p: PrepareAct, s': State) {
    match p
    case StoreQueue(cap, underUpdate) =>
      && s.mx.Free? && s.current.None? && cap > 0 && (underUpdate ==> s.shut.NotStarted?)
      && s' == NewGeneration(s, cap).(current := Some(s.next), mx := Preparing(s.next, QueueStored, underUpdate))
    case StoreWaitGroup =>
      && s.mx.Preparing? && s.mx.prep == QueueStored
      && s' == s.(currentWg := Some(s.mx.g), mx := Preparing(s.mx.g, BothStored, s.mx.underUpdate))
    case PrepareFails =>
      && s.mx.Preparing? && s.mx.prep == BothStored
      && s' == s.(mx := Free)
    case PrepareSpawns(w) =>
      && s.mx.Preparing? && s.mx.prep == BothStored && w !in s.workers && s.mx.g in s.wg
      && s' == Spawn(s, s.mx.g, w)
    case PrepareEnds =>
      && s.mx.Preparing? && s.mx.prep == BothStored
      && s' == s.(mx := Free)
  }

  // ----- Updates: core/bifrost.go 3114-3282 -----

  ghost predicate Updates(s: State, u: UpdateAct, s': State) {
    match u
    case BeginUpdate =>
      && s.mx.Free? && s.shut.NotStarted? && s.current.Some?
      && s' == s.(mx := Updating(s.current.value, s.currentWg, 0, OldLoaded))
    case _ => s.mx.Updating? && UpdatesOn(s, u, s')
  }

  ghost predicate UpdatesOn(s: State, u: UpdateAct, s': State)
    requires s.mx.Updating?
  {
    match u
    case UpdateFails | AllocateNew(_) | StoreNewQueue | StoreNewWaitGroup | UpdateSpawns(_) | SpawnsEnd => Publishes(s, u, s')
    case TransferTake | TransferMove | TransferFull | CancelReply | CancelSkip | CancelTake | CancelEnds | TransferEnds => Transfers(s, u, s')
    case SyncTake | SyncReply | SyncSkip | SyncEnds => SyncSweeps(s, u, s')
    case _ => Retires(s, u, s')
  }

  ghost predicate Publishes(s: State, u: UpdateAct, s': State)
    requires s.mx.Updating?
  {
    match u
    case UpdateFails =>
      // construction failed, or the providers slice could not be replaced in 100 attempts
      && (s.mx.upd == OldLoaded || s.mx.upd == Allocated)
      && s' == s.(mx := Free)
    case AllocateNew(cap) =>
      && s.mx.upd == OldLoaded && cap > 0
      && s' == NewGeneration(s, cap).(mx := s.mx.(newGen := s.next, upd := Allocated))
    case StoreNewQueue =>
      && s.mx.upd == Allocated
      && s' == s.(current := Some(s.mx.newGen), mx := s.mx.(upd := NewQueueStored))
    case StoreNewWaitGroup =>
      && s.mx.upd == NewQueueStored
      && s' == s.(currentWg := Some(s.mx.newGen), mx := s.mx.(upd := NewBothStored))
    case UpdateSpawns(w) =>
      && s.mx.upd == NewBothStored && w !in s.workers && s.mx.newGen in s.wg
      && s' == Spawn(s, s.mx.newGen, w)
    case SpawnsEnd =>
      && s.mx.upd == NewBothStored
      && s' == s.(mx := s.mx.(upd := Transferring))
    case _ => false
  }

  ghost predicate Transfers(s: State, u: UpdateAct, s': State)
    requires s.mx.Updating?
  {
    match u
    case TransferTake =>
      && s.mx.upd == Transferring && QueueHas(s, s.mx.oldGen)
      && s' == s.(mx := s.mx.(upd := Moving), ms := Dequeue(s.ms, s.mx.oldGen, Updater))
    case TransferMove =>
      && s.mx.upd == Moving && HasRoom(s, s.mx.newGen) && Updater in s.ms.hands
      && s' == s.(mx := s.mx.(upd := Transferring), ms := Requeue(s.ms, Updater, s.mx.newGen))
    case TransferFull =>
      && s.mx.upd == Moving && !HasRoom(s, s.mx.newGen)
      && s' == s.(mx := s.mx.(upd := CancelHolding))
    case CancelReply =>
      && s.mx.upd == CancelHolding && CanReply(s.ms, Updater, ErrorKind)
      && s' == s.(mx := s.mx.(upd := Cancelling), ms := Reply(s.ms, Updater, ErrorKind))
    case CancelSkip =>
      && s.mx.upd == CancelHolding && HeldCancelled(s, Updater)
      && s' == s.(mx := s.mx.(upd := Cancelling), ms := GiveUp(s.ms, Updater, false))
    case CancelTake =>
      && s.mx.upd == Cancelling && QueueHas(s, s.mx.oldGen)
      && s' == s.(mx := s.mx.(upd := CancelHolding), ms := Dequeue(s.ms, s.mx.oldGen, Updater))
    case CancelEnds =>
      && s.mx.upd == Cancelling && QueueEmpty(s, s.mx.oldGen)
      && s' == s.(mx := s.mx.(upd := Retiring))
    case TransferEnds =>
      && s.mx.upd == Transferring && QueueEmpty(s, s.mx.oldGen)
      && s' == s.(mx := s.mx.(upd := Retiring))
    case _ => false
  }

  /** The retired wait group in use, or a new one, named after the first generation it counts. */
  function RetiredEpoch(s: State): nat
    requires s.mx.Updating?
  {
    if s.retired.Some? then s.retired.value else s.mx.oldGen
  }

  function RetiredCounter(s: State): nat
    requires s.mx.Updating?
  {
    if RetiredEpoch(s) in s.retiredCount then s.retiredCount[RetiredEpoch(s)] else 0
  }

  /** Register the clean-up, signal the old queue, and hand over to the clean-up goroutine.  The
      two wait groups are incremented in one step: nobody can wait on either in between. */
  ghost predicate Retires(s: State, u: UpdateAct, s': State)
    requires s.mx.Updating?
  {
    match u
    case Retire =>
      && s.mx.upd == Retiring && s.mx.oldWg.Some?
      && s' == s.(mx := s.mx.(upd := UpdateSignalling),
                  retired := Some(RetiredEpoch(s)),
                  retiredCount := s.retiredCount[RetiredEpoch(s) := RetiredCounter(s) + 1],
                  pendingCleanups := s.pendingCleanups + 1,
                  cleaners := s.cleaners[s.mx.oldGen := Cleanup(s.mx.oldWg.value, RetiredEpoch(s), Registered)])
    case RetireNothing =>
      && s.mx.upd == Retiring && s.mx.oldWg.None?
      && s' == s.(mx := s.mx.(upd := UpdateSignalling))
    case UpdateSetsClosing =>
      && s.mx.upd == UpdateSignalling && s.mx.oldGen !in s.closing
      && s' == SetClosing(s, s.mx.oldGen).(mx := s.mx.(upd := UpdateMidSignal))
    case UpdateSkipsSignal =>
      && s.mx.upd == UpdateSignalling && s.mx.oldGen in s.done
      && s' == s.(mx := s.mx.(upd := UpdateSignalled))
    case UpdateClosesDone =>
      && s.mx.upd == UpdateMidSignal
      && s' == s.(done := s.done + {s.mx.oldGen}, mx := s.mx.(upd := UpdateSignalled))
    case StartCleaner =>
      && s.mx.upd == UpdateSignalled && s.mx.oldWg.Some? && s.mx.oldGen in s.cleaners
      && s' == s.(mx := Free, cleaners := s.cleaners[s.mx.oldGen := s.cleaners[s.mx.oldGen].(pc := CleanWaiting)])
    case SweepAlone =>
      && s.mx.upd == UpdateSignalled && s.mx.oldWg.None?
      && s' == s.(mx := s.mx.(upd := SyncSweeping))
    case _ => false
  }

  /** The update sweeps the old queue itself when there was no wait group to hand over. */
  ghost predicate SyncSweeps(s: State, u: UpdateAct, s': State)
    requires s.mx.Updating?
  {
    match u
    case SyncTake =>
      && s.mx.upd == SyncSweeping && QueueHas(s, s.mx.oldGen)
      && s' == s.(mx := s.mx.(upd := SyncHolding), ms := Dequeue(s.ms, s.mx.oldGen, Updater))
    case SyncReply =>
      && s.mx.upd == SyncHolding && CanReply(s.ms, Updater, ErrorKind)
      && s' == s.(mx := s.mx.(upd := SyncSweeping), ms := Reply(s.ms, Updater, ErrorKind))
    case SyncSkip =>
      && s.mx.upd == SyncHolding && HeldCancelled(s, Updater)
      && s' == s.(mx := s.mx.(upd := SyncSweeping), ms := GiveUp(s.ms, Updater, false))
    case SyncEnds =>
      && s.mx.upd == SyncSweeping && QueueEmpty(s, s.mx.oldGen)
      && s' == EndSweep(s, s.mx.oldGen).(mx := Free)
    case _ => false
  }

  // ----- Removal: core/bifrost.go 3041-3098 -----

  ghost predicate Removes(s: State, a: RemoveAct, s': State) {
    match a
    case BeginRemove =>
      && s.mx.Free? && s.current.Some?
      && s' == s.(mx := Removing(s.current.value, RemoveSignalling))
    case _ => s.mx.Removing? && RemovesOn(s, a, s')
  }

  ghost predicate RemovesOn(s: State, a: RemoveAct, s': State)
    requires s.mx.Removing?
  {
    var g := s.mx.g;
    match a
    case RemoveSetsClosing =>
      && s.mx.rem == RemoveSignalling && g !in s.closing
      && s' == SetClosing(s, g).(mx := Removing(g, RemoveMidSignal))
    case RemoveSkipsSignal =>
      && s.mx.rem == RemoveSignalling && g in s.done
      && s' == s.(mx := Removing(g, RemoveSignalled))
    case RemoveClosesDone =>
      && s.mx.rem == RemoveMidSignal
      && s' == s.(done := s.done + {g}, mx := Removing(g, RemoveSignalled))
    case RemoveLoadsWaitGroup =>
      && s.mx.rem == RemoveSignalled
      && s' == s.(mx := Removing(g, if s.currentWg.Some? then RemoveWaiting(s.currentWg.value) else RemoveSweeping))
    case RemoveWaitEnds =>
      && s.mx.rem.RemoveWaiting? && s.mx.rem.wg in s.wg && s.wg[s.mx.rem.wg] == 0
      && s' == s.(mx := Removing(g, RemoveSweeping))
    case RemoveTake =>
      && s.mx.rem == RemoveSweeping && QueueHas(s, g)
      && s' == s.(mx := Removing(g, RemoveHolding), ms := Dequeue(s.ms, g, Remover))
    case RemoveReply =>
      && s.mx.rem == RemoveHolding && CanReply(s.ms, Remover, ErrorKind)
      && s' == s.(mx := Removing(g, RemoveSweeping), ms := Reply(s.ms, Remover, ErrorKind))
    case RemoveSkip =>
      && s.mx.rem == RemoveHolding && HeldCancelled(s, Remover)
      && s' == s.(mx := Removing(g, RemoveSweeping), ms := GiveUp(s.ms, Remover, false))
    case RemoveSweepEnds =>
      && s.mx.rem == RemoveSweeping && QueueEmpty(s, g)
      && s' == EndSweep(s, g).(mx := Removing(g, RemoveSwept))
    case AwaitRetired =>
      && s.mx.rem == RemoveSwept
      && (s.retired.Some? ==> s.retired.value in s.retiredCount && s.retiredCount[s.retired.value] == 0)
      && s' == s.(retired := None, mx := Removing(g, RetiredGone))
    case DeleteQueue =>
      && s.mx.rem == RetiredGone
      && s' == s.(current := None, mx := Removing(g, QueueDeleted))
    case DeleteWaitGroup =>
      && s.mx.rem == QueueDeleted
      && s' == s.(currentWg := None, mx := Free)
    case _ => false
  }

  // ----- Clean-up of a replaced generation: core/bifrost.go 3266-3273, 6520-6544 -----

  ghost predicate Cleans(s: State, g: nat, a: CleanAct, s': State) {
    && g in s.cleaners
    && var c := s.cleaners[g];
    var me := Cleaner(g);
    match a
    case CleanWaitEnds =>
      && c.pc == CleanWaiting && c.wg in s.wg && s.wg[c.wg] == 0
      && s' == s.(cleaners := s.cleaners[g := c.(pc := CleanSweeping)])
    case CleanTake =>
      && c.pc == CleanSweeping && QueueHas(s, g)
      && s' == s.(cleaners := s.cleaners[g := c.(pc := CleanHolding)], ms := Dequeue(s.ms, g, me))
    case CleanReply =>
      && c.pc == CleanHolding && CanReply(s.ms, me, ErrorKind)
      && s' == s.(cleaners := s.cleaners[g := c.(pc := CleanSweeping)], ms := Reply(s.ms, me, ErrorKind))
    case CleanSkip =>
      && c.pc == CleanHolding && HeldCancelled(s, me)
      && s' == s.(cleaners := s.cleaners[g := c.(pc := CleanSweeping)], ms := GiveUp(s.ms, me, false))
    case CleanSweepEnds =>
      && c.pc == CleanSweeping && QueueEmpty(s, g)
      && s' == EndSweep(s, g).(cleaners := s.cleaners[g := c.(pc := CleanSwept)])
    case CountRetired =>
      && c.pc == CleanSwept && c.epoch in s.retiredCount && s.retiredCount[c.epoch] > 0
      && s' == s.(cleaners := s.cleaners[g := c.(pc := RetiredCounted)],
                  retiredCount := s.retiredCount[c.epoch := s.retiredCount[c.epoch] - 1])
    case CountCleanup =>
      && c.pc == RetiredCounted && s.pendingCleanups > 0
      && s' == s.(cleaners := s.cleaners[g := c.(pc := CleanDone)], pendingCleanups := s.pendingCleanups - 1)
  }

  // ----- Shutdown: core/bifrost.go 6998-7030 -----

  /** The generations complete when shutdown takes the lifecycle lock. */
  function Complete(s: State): set<nat> {
    set g | g in s.wg && !(s.mx.Preparing? && s.mx.g == g)
  }

  ghost predicate ShutsDown(s: State, a: ShutAct, s': State) {
    match a
    case Lock =>
      // updates hold the lifecycle lock for reading from before they take the mutex
      && s.shut.NotStarted? && !s.mx.Updating? && !(s.mx.Preparing? && s.mx.underUpdate)
      && s' == s.(shut := ShutLocked, settled := Complete(s))
    case RangeQueues =>
      && s.shut.ShutLocked?
      && s' == s.(shut := if s.current.Some? then ShutSignalling(s.current.value) else ShutSignalled)
    case ShutSetsClosing =>
      && s.shut.ShutSignalling? && s.shut.g !in s.closing
      && s' == SetClosing(s, s.shut.g).(shut := ShutMidSignal(s.shut.g))
    case ShutSkipsSignal =>
      && s.shut.ShutSignalling? && s.shut.g in s.done
      && s' == s.(shut := ShutSignalled)
    case ShutClosesDone =>
      && s.shut.ShutMidSignal?
      && s' == s.(done := s.done + {s.shut.g}, shut := ShutSignalled)
    case RangeWaitGroups =>
      && s.shut.ShutSignalled?
      && s' == s.(shut := if s.currentWg.Some? then ShutWaiting(s.currentWg.value) else WorkersGone)
    case ShutWaitEnds =>
      && s.shut.ShutWaiting? && s.shut.wg in s.wg && s.wg[s.shut.wg] == 0
      && s' == s.(shut := WorkersGone)
    case AwaitCleanups =>
      && s.shut.WorkersGone? && s.pendingCleanups == 0
      && s' == s.(shut := CleanupsGone)
    case RangeForSweep =>
      && s.shut.CleanupsGone?
      && s' == s.(shut := if s.current.Some? then ShutSweeping(s.current.value) else ShutDone)
    case ShutTake =>
      && s.shut.ShutSweeping? && QueueHas(s, s.shut.g)
      && s' == s.(shut := ShutHolding(s.shut.g), ms := Dequeue(s.ms, s.shut.g, Closer))
    case ShutReply =>
      && s.shut.ShutHolding? && CanReply(s.ms, Closer, ErrorKind)
      && s' == s.(shut := ShutSweeping(s.shut.g), ms := Reply(s.ms, Closer, ErrorKind))
    case ShutSkip =>
      && s.shut.ShutHolding? && HeldCancelled(s, Closer)
      && s' == s.(shut := ShutSweeping(s.shut.g), ms := GiveUp(s.ms, Closer, false))
    case ShutSweepEnds =>
      && s.shut.ShutSweeping? && QueueEmpty(s, s.shut.g)
      && s' == EndSweep(s, s.shut.g).(shut := ShutDone)
  }

  ghost predicate Changes(s: State, e: EnvironmentAct, s': State) {
    match e
    case CancelRequest(r) => r in s.pcs && s' == s.(ms := Cancel(s.ms, r))
    case ForgetFromPools(cs, os) => s' == s.(ms := ForgetPooled(s.ms, cs, os))
  }

  ghost predicate Next(s: State, st: Step, s': State) {
    match st
    case Produce(r, p) => Producing(s, r, p, s')
    case Work(w, a) => Working(s, w, a, s')
    case Prepare(p) => Prepares(s, p, s')
    case Update(u) => Updates(s, u, s')
    case Remove(a) => Removes(s, a, s')
    case Clean(g, a) => Cleans(s, g, a, s')
    case Shut(a) => ShutsDown(s, a, s')
    case Environment(e) => Changes(s, e, s')
  }

  /** Every interleaving from the start, of any length. */
  ghost predicate IsRun(run: seq<State>, steps: seq<Step>) {
    && |run| == |steps| + 1
    && run[0] == INIT
    && forall i {:trigger steps[i]} :: 0 <= i < |steps| ==> Next(run[i], steps[i], run[i + 1])
  }
}
