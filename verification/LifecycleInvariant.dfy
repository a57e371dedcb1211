/**
 The inductive invariant of the queue protocol.  Each group reads only the fields it names, so
 a step that leaves those fields alone keeps the group at once.
 */
module LifecycleInvariant {
  import opened Wrappers
  import opened MessageLayer
  import opened LifecycleModel

  // ----- Producers and their messages -----

  predicate AnsweredAndTaken(l: Loc) {
    l.Answered? && l.received
  }

  /** How far a producer is tells what it holds. */
  ghost predicate Linked(pcs: map<nat, ProducerPc>, held: map<nat, Holding>, loc: map<nat, Loc>, heap: map<nat, Object>, r: nat) {
    r in pcs ==>
      && r in held && r in loc
      && var h := held[r];
      match pcs[r]
      case Start | Loaded(_) => loc[r] == Unsent && h.chan == NIL && h.obj == None
      case GotResponse(_) =>
        loc[r] == Unsent && h.chan.response.Some? && h.chan.error == None && h.chan.stream == None && h.obj == None
      case GotError(_) =>
        loc[r] == Unsent && h.chan.response.Some? && h.chan.error.Some? && h.chan.stream == None && h.obj == None
      case GotObject(_) =>
        && loc[r] == Unsent && h.isStream && h.chan.response.Some? && h.chan.error.Some? && h.chan.stream == None
        && h.obj.Some? && h.obj.value in heap && heap[h.obj.value].chan == h.chan
      case Ready(_) | Lookup(_) | Candidate(_, _) | Sending(_, _) | FoundFull(_) | Recheck(_) =>
        loc[r] == Unsent && Intact(held, heap, r)
      case Waiting => loc[r] != Unsent && !AnsweredAndTaken(loc[r]) && Intact(held, heap, r)
      case Left => loc[r] != Unsent && !AnsweredAndTaken(loc[r])
      case Releasing(put) =>
        && (loc[r] == Unsent || AnsweredAndTaken(loc[r]))
        && h.obj.Some? && h.obj.value in heap
        && (h.chan.response.Some? <==> put < 1) && (h.chan.error.Some? <==> put < 2)
        && (h.chan.stream.Some? <==> put < 3 && h.isStream)
      case Finished => (loc[r] == Unsent || AnsweredAndTaken(loc[r])) && h.chan == NIL && h.obj == None
  }

  ghost predicate LinkInv(pcs: map<nat, ProducerPc>, held: map<nat, Holding>, loc: map<nat, Loc>, heap: map<nat, Object>) {
    && pcs.Keys == held.Keys
    && (forall r {:trigger Linked(pcs, held, loc, heap, r)} :: Linked(pcs, held, loc, heap, r))
  }

  // ----- Hands -----

  ghost predicate BusyActor(workers: map<nat, WorkerState>, mx: Mutex, cleaners: map<nat, Cleanup>, shut: ShutPc, a: Actor) {
    match a
    case Worker(w) => w in workers && (workers[w].pc == Busy || workers[w].pc == DrainHolding)
    case Updater => mx.Updating? && (mx.upd == Moving || mx.upd == CancelHolding || mx.upd == SyncHolding)
    case Remover => mx.Removing? && mx.rem == RemoveHolding
    case Cleaner(g) => g in cleaners && cleaners[g].pc == CleanHolding
    case Closer => shut.ShutHolding?
  }

  ghost predicate HandBusy(hands: map<Actor, Hand>, workers: map<nat, WorkerState>, mx: Mutex, cleaners: map<nat, Cleanup>, shut: ShutPc,
                           a: Actor) {
    a in hands <==> BusyActor(workers, mx, cleaners, shut, a)
  }

  ghost predicate HandInv(hands: map<Actor, Hand>, workers: map<nat, WorkerState>, mx: Mutex, cleaners: map<nat, Cleanup>, shut: ShutPc) {
    forall a {:trigger HandBusy(hands, workers, mx, cleaners, shut, a)} :: HandBusy(hands, workers, mx, cleaners, shut, a)
  }

  // ----- Generations that exist -----

  predicate PcKnown(pc: ProducerPc, next: nat) {
    match pc
    case Candidate(g, c) => g < next && c < next
    case Loaded(g) => g < next
    case GotResponse(g) => g < next
    case GotError(g) => g < next
    case GotObject(g) => g < next
    case Ready(g) => g < next
    case Lookup(g) => g < next
    case Sending(g, _) => g < next
    case FoundFull(g) => g < next
    case Recheck(g) => g < next
    case _ => true
  }

  ghost predicate ProducerKnown(pcs: map<nat, ProducerPc>, next: nat, r: nat) {
    r in pcs ==> PcKnown(pcs[r], next)
  }

  ghost predicate ProducersKnown(pcs: map<nat, ProducerPc>, next: nat) {
    forall r {:trigger ProducerKnown(pcs, next, r)} :: ProducerKnown(pcs, next, r)
  }

  ghost predicate GenKnown(next: nat, wg: map<nat, nat>, cap: map<nat, nat>, late: map<nat, set<nat>>, closing: set<nat>, settled: set<nat>, g: nat) {
    && (g in wg <==> g < next) && (g in cap <==> g < next) && (g in late <==> g < next)
    && (g in cap ==> cap[g] > 0)
    && (g in closing ==> g < next) && (g in settled ==> g < next)
  }

  ghost predicate GensKnown(next: nat, wg: map<nat, nat>, cap: map<nat, nat>, late: map<nat, set<nat>>, closing: set<nat>, settled: set<nat>) {
    forall g {:trigger GenKnown(next, wg, cap, late, closing, settled, g)} :: GenKnown(next, wg, cap, late, closing, settled, g)
  }

  ghost predicate QueueKnown(next: nat, bufs: map<nat, seq<nat>>, g: nat) {
    g in bufs <==> g < next
  }

  ghost predicate QueuesKnown(next: nat, bufs: map<nat, seq<nat>>) {
    forall g {:trigger QueueKnown(next, bufs, g)} :: QueueKnown(next, bufs, g)
  }

  // ----- Wait groups count the workers that have not exited -----

  function Live(workers: map<nat, WorkerState>, g: nat): set<nat> {
    set w | w in workers && workers[w].gen == g && workers[w].pc != Exited
  }

  ghost predicate Counted(wg: map<nat, nat>, workers: map<nat, WorkerState>, g: nat) {
    g in wg ==> wg[g] == |Live(workers, g)|
  }

  ghost predicate WorkerKnown(workers: map<nat, WorkerState>, next: nat, w: nat) {
    w in workers ==> workers[w].gen < next
  }

  ghost predicate CountInv(wg: map<nat, nat>, workers: map<nat, WorkerState>, next: nat) {
    && (forall g {:trigger Counted(wg, workers, g)} :: Counted(wg, workers, g))
    && (forall w {:trigger WorkerKnown(workers, next, w)} :: WorkerKnown(workers, next, w))
  }

  // ----- What the mutex holder may rely on -----

  predicate BeforeRetire(u: UpdatePc) {
    u == OldLoaded || u == Allocated || u == NewQueueStored || u == NewBothStored || u == Transferring || u == Moving
    || u == CancelHolding || u == Cancelling || u == Retiring
  }

  ghost predicate MutexOk(mx: Mutex, current: Option<nat>, currentWg: Option<nat>, next: nat, cleaners: map<nat, Cleanup>) {
    (current.Some? ==> current.value < next) &&
    match mx
    case Free => currentWg == current
    case Preparing(g, prep, _) => g < next && current == Some(g) && currentWg == (if prep == QueueStored then None else Some(g))
    case Updating(o, oWg, n, u) =>
      && oWg == Some(o) && o < next
      && (u != OldLoaded ==> o < n < next && n !in cleaners)
      && current == (if u == OldLoaded || u == Allocated then Some(o) else Some(n))
      && currentWg == (if u == OldLoaded || u == Allocated || u == NewQueueStored then Some(o) else Some(n))
      && u != SyncSweeping && u != SyncHolding
      && (o in cleaners <==> !BeforeRetire(u))
      && (o in cleaners ==> cleaners[o].pc == Registered)
    case Removing(g, rem) =>
      && g < next
      && current == (if rem == QueueDeleted then None else Some(g)) && currentWg == Some(g)
      && (rem.RemoveWaiting? ==> rem.wg == g)
  }

  ghost predicate CleanerOk(cleaners: map<nat, Cleanup>, current: Option<nat>, currentWg: Option<nat>, next: nat, g: nat) {
    g in cleaners ==> g < next && cleaners[g].wg == g && current != Some(g) && currentWg != Some(g)
  }

  ghost predicate CleanersOk(cleaners: map<nat, Cleanup>, current: Option<nat>, currentWg: Option<nat>, next: nat) {
    forall g {:trigger CleanerOk(cleaners, current, currentWg, next, g)} :: CleanerOk(cleaners, current, currentWg, next, g)
  }

  // ----- Wait-group coverage -----

  predicate IsLive(workers: map<nat, WorkerState>, w: nat) {
    w in workers && workers[w].pc != Exited
  }

  /** A clean-up that has yet to see the generation's last worker go. */
  predicate AwaitsWorkers(cleaners: map<nat, Cleanup>, g: nat) {
    g in cleaners && (cleaners[g].pc == Registered || cleaners[g].pc == CleanWaiting)
  }

  /** Between publishing the new wait group and registering the old one only the update itself
      knows of the old one. */
  predicate HeldByUpdate(mx: Mutex, g: nat) {
    mx.Updating? && mx.oldGen == g && BeforeRetire(mx.upd) && mx.upd != OldLoaded && mx.upd != Allocated && mx.upd != NewQueueStored
  }

  predicate CoveredGen(currentWg: Option<nat>, cleaners: map<nat, Cleanup>, mx: Mutex, g: nat) {
    currentWg == Some(g) || AwaitsWorkers(cleaners, g) || HeldByUpdate(mx, g)
  }

  ghost predicate Covered(workers: map<nat, WorkerState>, currentWg: Option<nat>, cleaners: map<nat, Cleanup>, mx: Mutex, w: nat) {
    IsLive(workers, w) ==> CoveredGen(currentWg, cleaners, mx, workers[w].gen)
  }

  ghost predicate CoverInv(workers: map<nat, WorkerState>, currentWg: Option<nat>, cleaners: map<nat, Cleanup>, mx: Mutex) {
    forall w {:trigger Covered(workers, currentWg, cleaners, mx, w)} :: Covered(workers, currentWg, cleaners, mx, w)
  }

  // ----- The retired wait group and the count of clean-ups -----

  predicate Reporting(c: Cleanup) {
    c.pc != RetiredCounted && c.pc != CleanDone
  }

  function ReportingTo(cleaners: map<nat, Cleanup>, e: nat): set<nat> {
    set g | g in cleaners && cleaners[g].epoch == e && Reporting(cleaners[g])
  }

  function Unfinished(cleaners: map<nat, Cleanup>): set<nat> {
    set g | g in cleaners && cleaners[g].pc != CleanDone
  }

  ghost predicate EpochOk(retiredCount: map<nat, nat>, cleaners: map<nat, Cleanup>, e: nat) {
    e in retiredCount ==> retiredCount[e] == |ReportingTo(cleaners, e)| && e in cleaners
  }

  ghost predicate ReportOk(retired: Option<nat>, retiredCount: map<nat, nat>, cleaners: map<nat, Cleanup>, g: nat) {
    g in cleaners ==> cleaners[g].epoch in retiredCount && (Reporting(cleaners[g]) ==> retired == Some(cleaners[g].epoch))
  }

  ghost predicate RetiredInv(retired: Option<nat>, retiredCount: map<nat, nat>, pending: nat, cleaners: map<nat, Cleanup>) {
    && (retired.Some? ==> retired.value in retiredCount)
    && (forall e {:trigger EpochOk(retiredCount, cleaners, e)} :: EpochOk(retiredCount, cleaners, e))
    && (forall g {:trigger ReportOk(retired, retiredCount, cleaners, g)} :: ReportOk(retired, retiredCount, cleaners, g))
    && pending == |Unfinished(cleaners)|
  }

  // ----- Closing flags -----

  /** Only a removal under way, or a shutdown, can have closed the published queue. */
  ghost predicate OpenInv(current: Option<nat>, closing: set<nat>, done: set<nat>, mx: Mutex, shut: ShutPc) {
    && done <= closing
    && (current.Some? && current.value in closing ==> !shut.NotStarted? || (mx.Removing? && mx.rem != RemoveSignalling))
    && (mx.Updating? ==>
          && shut.NotStarted?
          && (mx.upd != OldLoaded ==> mx.newGen !in closing)
          && (mx.upd == UpdateMidSignal || mx.upd == UpdateSignalled ==> mx.oldGen in closing))
    && (mx.Preparing? && mx.underUpdate ==> shut.NotStarted?)
    && (mx.Removing? && mx.rem != RemoveSignalling ==> mx.g in closing)
    && (shut.ShutMidSignal? ==> shut.g in closing)
  }

  ghost predicate LateOk(pcs: map<nat, ProducerPc>, closing: set<nat>, late: map<nat, set<nat>>, r: nat) {
    r in pcs && (pcs[r].Sending? || pcs[r].FoundFull? || pcs[r].Recheck?) && pcs[r].g in closing ==>
      pcs[r].g in late && r in late[pcs[r].g]
  }

  ghost predicate LateInv(pcs: map<nat, ProducerPc>, closing: set<nat>, late: map<nat, set<nat>>) {
    forall r {:trigger LateOk(pcs, closing, late, r)} :: LateOk(pcs, closing, late, r)
  }

  ghost predicate SweptOk(loc: map<nat, Loc>, swept: set<nat>, late: map<nat, set<nat>>, r: nat) {
    r in loc && loc[r].InQueue? && loc[r].g in swept ==> loc[r].g in late && r in late[loc[r].g]
  }

  ghost predicate SweptInv(loc: map<nat, Loc>, swept: set<nat>, late: map<nat, set<nat>>, closing: set<nat>) {
    && swept <= closing
    && (forall r {:trigger SweptOk(loc, swept, late, r)} :: SweptOk(loc, swept, late, r))
  }

  /** A clean-up is started only for a queue already closing, and a sweep that has ended is on record. */
  ghost predicate CleanerSwept(cleaners: map<nat, Cleanup>, closing: set<nat>, swept: set<nat>, g: nat) {
    g in cleaners ==>
      && (cleaners[g].pc != Registered ==> g in closing)
      && (cleaners[g].pc == CleanSwept || cleaners[g].pc == RetiredCounted || cleaners[g].pc == CleanDone ==> g in swept)
  }

  ghost predicate SweepInv(cleaners: map<nat, Cleanup>, closing: set<nat>, swept: set<nat>, mx: Mutex) {
    && (forall g {:trigger CleanerSwept(cleaners, closing, swept, g)} :: CleanerSwept(cleaners, closing, swept, g))
    && (mx.Removing? && (mx.rem == RemoveSwept || mx.rem == RetiredGone || mx.rem == QueueDeleted) ==> mx.g in swept)
  }

  // ----- Shutdown and removal wait for everyone -----

  ghost predicate ShutOk(workers: map<nat, WorkerState>, settled: set<nat>, cleaners: map<nat, Cleanup>, shut: ShutPc, w: nat) {
    IsLive(workers, w) && workers[w].gen in settled ==>
      match shut
      case ShutWaiting(x) => workers[w].gen == x || AwaitsWorkers(cleaners, workers[w].gen)
      case WorkersGone => AwaitsWorkers(cleaners, workers[w].gen)
      case CleanupsGone => false
      case ShutSweeping(_) => false
      case ShutHolding(_) => false
      case ShutDone => false
      case _ => true
  }

  ghost predicate ShutKnown(shut: ShutPc, next: nat) {
    shut.ShutSignalling? ==> shut.g < next
  }

  ghost predicate ShutInv(workers: map<nat, WorkerState>, settled: set<nat>, cleaners: map<nat, Cleanup>, shut: ShutPc, mx: Mutex) {
    && (!shut.NotStarted? && mx.Preparing? ==> mx.g !in settled)
    && (forall w {:trigger ShutOk(workers, settled, cleaners, shut, w)} :: ShutOk(workers, settled, cleaners, shut, w))
  }

  ghost predicate RemovedOk(workers: map<nat, WorkerState>, mx: Mutex, w: nat) {
    IsLive(workers, w) && mx.Removing? ==>
      && (mx.rem == RemoveSweeping || mx.rem == RemoveHolding || mx.rem == RemoveSwept ==> workers[w].gen != mx.g)
      && mx.rem != RetiredGone && mx.rem != QueueDeleted
  }

  ghost predicate RemovedInv(workers: map<nat, WorkerState>, mx: Mutex) {
    forall w {:trigger RemovedOk(workers, mx, w)} :: RemovedOk(workers, mx, w)
  }

  /** Requests and their messages. */
  ghost predicate MessageSide(s: State) {
    && MsgInv(s.ms)
    && LinkInv(s.pcs, s.ms.held, s.ms.loc, s.ms.heap)
    && HandInv(s.ms.hands, s.workers, s.mx, s.cleaners, s.shut)
    && ProducersKnown(s.pcs, s.next)
    && QueuesKnown(s.next, s.ms.bufs)
    && LateInv(s.pcs, s.closing, s.late)
    && SweptInv(s.ms.loc, s.swept, s.late, s.closing)
  }

  /** Generations, workers and those who wait for them. */
  ghost predicate ControlSide(s: State) {
    && GensKnown(s.next, s.wg, s.cap, s.late, s.closing, s.settled)
    && CountInv(s.wg, s.workers, s.next)
    && MutexOk(s.mx, s.current, s.currentWg, s.next, s.cleaners)
    && CleanersOk(s.cleaners, s.current, s.currentWg, s.next)
    && CoverInv(s.workers, s.currentWg, s.cleaners, s.mx)
    && RetiredInv(s.retired, s.retiredCount, s.pendingCleanups, s.cleaners)
    && OpenInv(s.current, s.closing, s.done, s.mx, s.shut)
    && SweepInv(s.cleaners, s.closing, s.swept, s.mx)
    && ShutInv(s.workers, s.settled, s.cleaners, s.shut, s.mx)
    && RemovedInv(s.workers, s.mx)
    && ShutKnown(s.shut, s.next)
  }

  ghost predicate Inv(s: State) {
    MessageSide(s) && ControlSide(s)
  }
}
