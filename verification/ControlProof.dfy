/**
 Every step keeps the control side of the invariant: which generations exist and are published,
 that wait groups count exactly the workers that run, that whoever waits knows of every worker,
 and which queues are closing.
 */
module ControlProof {
  import opened Wrappers
  import opened MessageLayer
  import opened LifecycleModel
  import opened LifecycleInvariant

  // ----- Steps that leave the control side alone -----

  ghost predicate SameControl(s: State, s': State) {
    && s'.next == s.next && s'.wg == s.wg && s'.cap == s.cap && s'.late == s.late && s'.closing == s.closing && s'.done == s.done
    && s'.settled == s.settled && s'.swept == s.swept && s'.workers == s.workers && s'.mx == s.mx && s'.cleaners == s.cleaners
    && s'.current == s.current && s'.currentWg == s.currentWg && s'.retired == s.retired && s'.retiredCount == s.retiredCount
    && s'.pendingCleanups == s.pendingCleanups && s'.shut == s.shut
  }

  lemma SameControlKeeps(s: State, s': State)
    requires ControlSide(s) == true && SameControl(s, s') == true
    ensures ControlSide(s') == true
  {
  }

  lemma AcquireSame(s: State, r: nat, p: ProducerAct, s': State)
    requires r in s.pcs && r in s.ms.held && Acquiring(s, r, p, s') == true
    ensures SameControl(s, s') == true
  {
  }

  lemma RouteSame(s: State, r: nat, p: ProducerAct, s': State)
    requires r in s.pcs && Routing(s, r, p, s') == true
    ensures SameControl(s, s') == true
  {
  }

  lemma SendSame(s: State, r: nat, s': State)
    requires r in s.pcs && Enqueuing(s, r, Send, s') == true
    ensures SameControl(s, s') == true
  {
  }

  lemma EnqueueSame(s: State, r: nat, p: ProducerAct, s': State)
    requires r in s.pcs && Enqueuing(s, r, p, s') == true
    ensures SameControl(s, s') == true
  {
    if p == Send {
      SendSame(s, r, s');
    } else {
      assert s' == s.(pcs := s.pcs[r := s'.pcs[r]]);
    }
  }

  lemma ReleaseSame(s: State, r: nat, p: ProducerAct, s': State)
    requires r in s.pcs && r in s.ms.held && (Awaiting(s, r, p, s') == true || Releases(s, r, p, s') == true)
    ensures SameControl(s, s') == true
  {
  }

  lemma ArriveSame(s: State, r: nat, isStream: bool, s': State)
    requires Producing(s, r, Arrive(isStream), s') == true
    ensures SameControl(s, s') == true
  {
  }

  lemma ProducerSame(s: State, r: nat, p: ProducerAct, s': State)
    requires Producing(s, r, p, s') == true
    ensures SameControl(s, s') == true
  {
    hide Acquiring, Routing, Enqueuing, Awaiting, Releases, SameControl;
    match p
    case Arrive(isStream) => ArriveSame(s, r, isStream, s');
    case LoadQueue | TakeResponse(_) | TakeError(_) | TakeObject(_) | TakeStream(_) => AcquireSame(s, r, p, s');
    case CheckClosing | LookupAgain | CheckCandidate => RouteSame(s, r, p, s');
    case Send | SeeDone | SeeCancel | FindFull | Drop | NoDrop | CheckAgain => EnqueueSame(s, r, p, s');
    case _ => ReleaseSame(s, r, p, s');
  }

  lemma EnvironmentSame(s: State, e: EnvironmentAct, s': State)
    requires Changes(s, e, s') == true
    ensures SameControl(s, s') == true
  {
  }

  // ----- Workers -----

  /** The workers' places changed, their generations and their being alive did not. */
  ghost predicate SameLife(workers: map<nat, WorkerState>, workers': map<nat, WorkerState>) {
    && workers'.Keys == workers.Keys
    && forall w :: w in workers ==>
                     workers'[w].gen == workers[w].gen && (workers'[w].pc == Exited <==> workers[w].pc == Exited)
  }

  lemma SameLifeKeeps(s: State, s': State)
    requires ControlSide(s) == true && SameLife(s.workers, s'.workers) && SameControl(s.(workers := s'.workers), s') == true
    ensures ControlSide(s') == true
  {
    forall g ensures Counted(s'.wg, s'.workers, g) {
      assert Counted(s.wg, s.workers, g);
      assert Live(s'.workers, g) == Live(s.workers, g);
    }
    forall w ensures WorkerKnown(s'.workers, s'.next, w) { assert WorkerKnown(s.workers, s.next, w); }
    forall w ensures Covered(s'.workers, s'.currentWg, s'.cleaners, s'.mx, w) {
      assert Covered(s.workers, s.currentWg, s.cleaners, s.mx, w);
    }
    forall w ensures ShutOk(s'.workers, s'.settled, s'.cleaners, s'.shut, w) {
      assert ShutOk(s.workers, s.settled, s.cleaners, s.shut, w);
    }
    forall w ensures RemovedOk(s'.workers, s'.mx, w) { assert RemovedOk(s.workers, s.mx, w); }
  }

  /** Replacing one worker's entry changes the workers that run in its own generation only. */
  lemma LiveAfter(workers: map<nat, WorkerState>, w: nat, g: nat, pc: WorkerPc, h: nat)
    requires w in workers ==> workers[w].gen == g
    ensures h != g ==> Live(workers[w := WorkerState(g, pc)], h) == Live(workers, h)
    ensures pc != Exited ==> Live(workers[w := WorkerState(g, pc)], g) == Live(workers, g) + {w}
    ensures pc == Exited ==> Live(workers[w := WorkerState(g, pc)], g) == Live(workers, g) - {w}
  {
  }

  /** A wait group goes down with a worker that exits, up with one that starts. */
  lemma CountsAfter(wg: map<nat, nat>, workers: map<nat, WorkerState>, next: nat, w: nat, g: nat, pc: WorkerPc, n: nat)
    requires CountInv(wg, workers, next) && g in wg && g < next
    requires if pc == Exited then IsLive(workers, w) && workers[w].gen == g && n + 1 == wg[g] else w !in workers && n == wg[g] + 1
    ensures CountInv(wg[g := n], workers[w := WorkerState(g, pc)], next)
  {
    var wg', workers' := wg[g := n], workers[w := WorkerState(g, pc)];
    assert pc == Exited ==> w in Live(workers, g);
    forall h ensures Counted(wg', workers', h) {
      assert Counted(wg, workers, h);
      LiveAfter(workers, w, g, pc, h);
    }
    forall x ensures WorkerKnown(workers', next, x) { assert WorkerKnown(workers, next, x); }
  }

  lemma ExitKeeps(s: State, w: nat, s': State)
    requires ControlSide(s) == true && Working(s, w, Exit, s') == true
    ensures ControlSide(s') == true
  {
    var g := s.workers[w].gen;
    assert WorkerKnown(s.workers, s.next, w);
    CountsAfter(s.wg, s.workers, s.next, w, g, Exited, s.wg[g] - 1);
    forall x ensures Covered(s'.workers, s'.currentWg, s'.cleaners, s'.mx, x) {
      assert Covered(s.workers, s.currentWg, s.cleaners, s.mx, x);
    }
    forall x ensures ShutOk(s'.workers, s'.settled, s'.cleaners, s'.shut, x) {
      assert ShutOk(s.workers, s.settled, s.cleaners, s.shut, x);
    }
    forall x ensures RemovedOk(s'.workers, s'.mx, x) { assert RemovedOk(s.workers, s.mx, x); }
    forall h ensures GenKnown(s'.next, s'.wg, s'.cap, s'.late, s'.closing, s'.settled, h) {
      assert GenKnown(s.next, s.wg, s.cap, s.late, s.closing, s.settled, h);
    }
  }

  lemma WorkerKeepsControl(s: State, w: nat, a: WorkerAct, s': State)
    requires ControlSide(s) == true && Working(s, w, a, s') == true
    ensures ControlSide(s') == true
  {
    if a == Exit { ExitKeeps(s, w, s'); } else { SameLifeKeeps(s, s'); }
  }

  // ----- Spawning -----

  lemma SpawnWaits(s: State, g: nat, w: nat)
    requires ControlSide(s) == true && g in s.wg && w !in s.workers
    requires CoveredGen(s.currentWg, s.cleaners, s.mx, g) && !s.mx.Removing?
    requires g in s.settled ==> s.shut.NotStarted?
    ensures
      var t := Spawn(s, g, w);
      && CoverInv(t.workers, t.currentWg, t.cleaners, t.mx)
      && ShutInv(t.workers, t.settled, t.cleaners, t.shut, t.mx)
      && RemovedInv(t.workers, t.mx)
  {
    var t := Spawn(s, g, w);
    forall x ensures Covered(t.workers, t.currentWg, t.cleaners, t.mx, x) {
      assert Covered(s.workers, s.currentWg, s.cleaners, s.mx, x);
    }
    forall x ensures ShutOk(t.workers, t.settled, t.cleaners, t.shut, x) {
      assert ShutOk(s.workers, s.settled, s.cleaners, s.shut, x);
    }
    NotRemoving(t.workers, t.mx);
  }

  /** A worker may join a generation that is covered and that no waiter has passed. */
  lemma SpawnKeeps(s: State, g: nat, w: nat)
    requires ControlSide(s) == true && g in s.wg && w !in s.workers
    requires CoveredGen(s.currentWg, s.cleaners, s.mx, g) && !s.mx.Removing?
    requires g in s.settled ==> s.shut.NotStarted?
    ensures ControlSide(Spawn(s, g, w)) == true
  {
    var t := Spawn(s, g, w);
    assert GenKnown(s.next, s.wg, s.cap, s.late, s.closing, s.settled, g);
    CountsAfter(s.wg, s.workers, s.next, w, g, Idle, s.wg[g] + 1);
    SpawnWaits(s, g, w);
    forall h ensures GenKnown(t.next, t.wg, t.cap, t.late, t.closing, t.settled, h) {
      assert GenKnown(s.next, s.wg, s.cap, s.late, s.closing, s.settled, h);
    }
  }

  // ----- New generations, publishing and the mutex -----

  /** A generation made and not yet published changes nothing for anyone. */
  lemma NewGenerationKeeps(s: State, cap: nat)
    requires ControlSide(s) == true && cap > 0
    ensures ControlSide(NewGeneration(s, cap)) == true
    ensures s.next !in s.closing && s.next !in s.settled && s.next !in s.cleaners
  {
    var s' := NewGeneration(s, cap);
    var n := s.next;
    assert GenKnown(s.next, s.wg, s.cap, s.late, s.closing, s.settled, n);
    assert CleanerOk(s.cleaners, s.current, s.currentWg, s.next, n) && CleanerSwept(s.cleaners, s.closing, s.swept, n);
    forall h ensures GenKnown(s'.next, s'.wg, s'.cap, s'.late, s'.closing, s'.settled, h) {
      assert GenKnown(s.next, s.wg, s.cap, s.late, s.closing, s.settled, h);
    }
    forall h ensures Counted(s'.wg, s'.workers, h) {
      assert Counted(s.wg, s.workers, h);
      if h == n {
        forall x ensures x !in Live(s.workers, n) { assert WorkerKnown(s.workers, s.next, x); }
        assert Live(s.workers, n) == {};
      }
    }
    forall x ensures WorkerKnown(s'.workers, s'.next, x) { assert WorkerKnown(s.workers, s.next, x); }
    forall g ensures CleanerOk(s'.cleaners, s'.current, s'.currentWg, s'.next, g) {
      assert CleanerOk(s.cleaners, s.current, s.currentWg, s.next, g);
    }
  }

  /** The published entries and the mutex change together; nothing else does. */
  lemma Republish(s: State, current: Option<nat>, currentWg: Option<nat>, mx: Mutex)
    requires ControlSide(s) == true
    requires MutexOk(mx, current, currentWg, s.next, s.cleaners)
    requires OpenInv(current, s.closing, s.done, mx, s.shut)
    requires mx.Removing? && (mx.rem == RemoveSwept || mx.rem == RetiredGone || mx.rem == QueueDeleted) ==> mx.g in s.swept
    requires !s.shut.NotStarted? && mx.Preparing? ==> mx.g !in s.settled
    requires current.Some? ==> current.value !in s.cleaners
    requires currentWg.Some? ==> currentWg.value !in s.cleaners
    requires CoverInv(s.workers, currentWg, s.cleaners, mx)
    requires RemovedInv(s.workers, mx)
    ensures ControlSide(s.(current := current, currentWg := currentWg, mx := mx)) == true
  {
    forall g ensures CleanerOk(s.cleaners, current, currentWg, s.next, g) {
      assert CleanerOk(s.cleaners, s.current, s.currentWg, s.next, g);
    }
  }

  /** Coverage survives when every covered generation stays covered. */
  lemma CoverStays(s: State, currentWg: Option<nat>, cleaners: map<nat, Cleanup>, mx: Mutex)
    requires CoverInv(s.workers, s.currentWg, s.cleaners, s.mx)
    requires forall g {:trigger CoveredGen(s.currentWg, s.cleaners, s.mx, g)} ::
               CoveredGen(s.currentWg, s.cleaners, s.mx, g) ==> CoveredGen(currentWg, cleaners, mx, g)
    ensures CoverInv(s.workers, currentWg, cleaners, mx)
  {
    forall w ensures Covered(s.workers, currentWg, cleaners, mx, w) {
      assert Covered(s.workers, s.currentWg, s.cleaners, s.mx, w);
    }
  }

  lemma NotRemoving(workers: map<nat, WorkerState>, mx: Mutex)
    requires !mx.Removing? || mx.rem == RemoveSignalling || mx.rem == RemoveMidSignal || mx.rem == RemoveSignalled || mx.rem.RemoveWaiting?
    ensures RemovedInv(workers, mx)
  {
  }

  /** The control fields of s' are those of t. */
  lemma Transport(t: State, s': State)
    requires ControlSide(t) == true && SameControl(t, s') == true
    ensures ControlSide(s') == true
  {
  }

  lemma CurrentNotCleaned(s: State)
    requires ControlSide(s) == true
    ensures s.current.Some? ==> s.current.value !in s.cleaners && s.current.value < s.next
    ensures s.currentWg.Some? ==> s.currentWg.value !in s.cleaners
  {
    assert s.current.Some? ==> CleanerOk(s.cleaners, s.current, s.currentWg, s.next, s.current.value);
    assert s.currentWg.Some? ==> CleanerOk(s.cleaners, s.current, s.currentWg, s.next, s.currentWg.value);
  }

  lemma PrepareKeepsControl(s: State, p: PrepareAct, s': State)
    requires ControlSide(s) == true && Prepares(s, p, s') == true
    ensures ControlSide(s') == true
  {
    CurrentNotCleaned(s);
    match p {
      case StoreQueue(cap, u) =>
        NewGenerationKeeps(s, cap);
        var t := NewGeneration(s, cap);
        CoverStays(t, t.currentWg, t.cleaners, s'.mx);
        NotRemoving(t.workers, s'.mx);
        Republish(t, s'.current, t.currentWg, s'.mx);
        Transport(t.(current := s'.current, mx := s'.mx), s');
      case StoreWaitGroup =>
        CoverStays(s, s'.currentWg, s.cleaners, s'.mx);
        NotRemoving(s.workers, s'.mx);
        Republish(s, s.current, s'.currentWg, s'.mx);
      case PrepareSpawns(w) => SpawnKeeps(s, s.mx.g, w);
      case PrepareFails | PrepareEnds =>
        CoverStays(s, s.currentWg, s.cleaners, s'.mx);
        NotRemoving(s.workers, s'.mx);
        Republish(s, s.current, s.currentWg, s'.mx);
    }
  }

  // ----- Updates -----

  /** The mutex holder moves on and nothing else changes on the control side. */
  lemma Holds(s: State, mx: Mutex, s': State)
    requires ControlSide(s) == true && SameControl(s.(mx := mx), s') == true
    requires MutexOk(mx, s.current, s.currentWg, s.next, s.cleaners)
    requires OpenInv(s.current, s.closing, s.done, mx, s.shut)
    requires mx.Removing? && (mx.rem == RemoveSwept || mx.rem == RetiredGone || mx.rem == QueueDeleted) ==> mx.g in s.swept
    requires !s.shut.NotStarted? && mx.Preparing? ==> mx.g !in s.settled
    requires CoverInv(s.workers, s.currentWg, s.cleaners, mx)
    requires RemovedInv(s.workers, mx)
    ensures ControlSide(s') == true
  {
    CurrentNotCleaned(s);
    Republish(s, s.current, s.currentWg, mx);
    Transport(s.(mx := mx), s');
  }

  lemma BeginUpdateKeeps(s: State, s': State)
    requires ControlSide(s) == true && Updates(s, BeginUpdate, s') == true
    ensures ControlSide(s') == true
  {
    CurrentNotCleaned(s);
    CoverStays(s, s.currentWg, s.cleaners, s'.mx);
    Holds(s, s'.mx, s');
  }

  lemma AllocateKeeps(s: State, cap: nat, s': State)
    requires ControlSide(s) == true && s.mx.Updating? && Publishes(s, AllocateNew(cap), s') == true
    ensures ControlSide(s') == true
  {
    CurrentNotCleaned(s);
    NewGenerationKeeps(s, cap);
    var t := NewGeneration(s, cap);
    CoverStays(t, t.currentWg, t.cleaners, s'.mx);
    Holds(t, s'.mx, s');
  }

  lemma StoreNewKeeps(s: State, u: UpdateAct, s': State)
    requires ControlSide(s) == true && s.mx.Updating? && Publishes(s, u, s') == true
    requires u == StoreNewQueue || u == StoreNewWaitGroup
    ensures ControlSide(s') == true
  {
    CurrentNotCleaned(s);
    CoverStays(s, s'.currentWg, s.cleaners, s'.mx);
    NotRemoving(s.workers, s'.mx);
    Republish(s, s'.current, s'.currentWg, s'.mx);
  }

  lemma PublishKeepsControl(s: State, u: UpdateAct, s': State)
    requires ControlSide(s) == true && s.mx.Updating? && Publishes(s, u, s') == true
    ensures ControlSide(s') == true
  {
    match u {
      case AllocateNew(cap) => AllocateKeeps(s, cap, s');
      case StoreNewQueue | StoreNewWaitGroup => StoreNewKeeps(s, u, s');
      case UpdateSpawns(w) => SpawnKeeps(s, s.mx.newGen, w);
      case UpdateFails | SpawnsEnd =>
        CoverStays(s, s.currentWg, s.cleaners, s'.mx);
        Holds(s, s'.mx, s');
      case _ =>
    }
  }

  /** While messages move, only the updater's place in the loop changes. */
  lemma TransferMoves(s: State, u: UpdateAct, s': State)
    requires s.mx.Updating? && Transfers(s, u, s') == true
    ensures SameControl(s.(mx := s'.mx), s') == true
    ensures exists pc: UpdatePc :: s'.mx == s.mx.(upd := pc) && BeforeRetire(pc) && pc != OldLoaded && pc != Allocated && pc != NewQueueStored
    ensures BeforeRetire(s.mx.upd) && s.mx.upd != OldLoaded && s.mx.upd != Allocated && s.mx.upd != NewQueueStored
  {
    assert s'.mx == s.mx.(upd := s'.mx.upd);
  }

  lemma TransferKeepsControl(s: State, u: UpdateAct, s': State)
    requires ControlSide(s) == true && s.mx.Updating? && Transfers(s, u, s') == true
    ensures ControlSide(s') == true
  {
    hide Transfers;
    TransferMoves(s, u, s');
    CoverStays(s, s.currentWg, s.cleaners, s'.mx);
    Holds(s, s'.mx, s');
  }

  /** Setting a closing flag, on its own. */
  lemma SetClosingKeeps(s: State, g: nat, mx: Mutex, shut: ShutPc)
    requires ControlSide(s) == true && g < s.next
    requires OpenInv(s.current, s.closing + {g}, s.done, mx, shut)
    ensures
      var t := SetClosing(s, g);
      && GensKnown(t.next, t.wg, t.cap, t.late, t.closing, t.settled)
      && SweepInv(t.cleaners, t.closing, t.swept, t.mx)
  {
    var t := SetClosing(s, g);
    forall h ensures GenKnown(t.next, t.wg, t.cap, t.late, t.closing, t.settled, h) {
      assert GenKnown(s.next, s.wg, s.cap, s.late, s.closing, s.settled, h);
    }
    forall h ensures CleanerSwept(t.cleaners, t.closing, t.swept, h) { assert CleanerSwept(s.cleaners, s.closing, s.swept, h); }
  }

  /** Registering the clean-up covers the old generation before the update lets go of it. */
  lemma RetireCovers(s: State, s': State)
    requires ControlSide(s) == true && s.mx.Updating? && Retires(s, Retire, s') == true
    ensures CoverInv(s'.workers, s'.currentWg, s'.cleaners, s'.mx)
  {
    CoverStays(s, s'.currentWg, s'.cleaners, s'.mx);
  }

  /** A retired wait group that does not exist yet has nobody to report to it. */
  lemma NoReports(retired: Option<nat>, retiredCount: map<nat, nat>, cleaners: map<nat, Cleanup>, e: nat)
    requires forall g {:trigger ReportOk(retired, retiredCount, cleaners, g)} :: ReportOk(retired, retiredCount, cleaners, g)
    requires e !in retiredCount
    ensures ReportingTo(cleaners, e) == {}
  {
    forall g ensures g !in ReportingTo(cleaners, e) { assert ReportOk(retired, retiredCount, cleaners, g); }
  }

  /** One more clean-up reports to e and to no other retired wait group. */
  lemma ReportsAfter(retired: Option<nat>, counts: map<nat, nat>, cleaners: map<nat, Cleanup>, o: nat, e: nat)
    requires o !in cleaners
    ensures ReportingTo(cleaners[o := Cleanup(o, e, Registered)], e) == ReportingTo(cleaners, e) + {o}
    ensures forall x :: x != e ==> ReportingTo(cleaners[o := Cleanup(o, e, Registered)], x) == ReportingTo(cleaners, x)
    ensures Unfinished(cleaners[o := Cleanup(o, e, Registered)]) == Unfinished(cleaners) + {o}
  {
  }

  lemma RetireEpochs(retired: Option<nat>, counts: map<nat, nat>, pending: nat, cleaners: map<nat, Cleanup>, o: nat, e: nat, n: nat)
    requires RetiredInv(retired, counts, pending, cleaners) && o !in cleaners
    requires e == (if retired.Some? then retired.value else o)
    requires n == (if e in counts then counts[e] else 0)
    ensures forall x {:trigger EpochOk(counts[e := n + 1], cleaners[o := Cleanup(o, e, Registered)], x)} ::
              EpochOk(counts[e := n + 1], cleaners[o := Cleanup(o, e, Registered)], x)
  {
    var cleaners', counts' := cleaners[o := Cleanup(o, e, Registered)], counts[e := n + 1];
    ReportsAfter(retired, counts, cleaners, o, e);
    assert EpochOk(counts, cleaners, e);
    if e !in counts { NoReports(retired, counts, cleaners, e); }
    hide ReportingTo;
    forall x ensures EpochOk(counts', cleaners', x) { assert EpochOk(counts, cleaners, x); }
  }

  /** One more clean-up, counted in the retired wait group e. */
  lemma RetireCounts(retired: Option<nat>, counts: map<nat, nat>, pending: nat, cleaners: map<nat, Cleanup>, o: nat, e: nat, n: nat)
    requires RetiredInv(retired, counts, pending, cleaners) && o !in cleaners
    requires e == (if retired.Some? then retired.value else o)
    requires n == (if e in counts then counts[e] else 0)
    ensures RetiredInv(Some(e), counts[e := n + 1], pending + 1, cleaners[o := Cleanup(o, e, Registered)])
  {
    var cleaners', counts' := cleaners[o := Cleanup(o, e, Registered)], counts[e := n + 1];
    ReportsAfter(retired, counts, cleaners, o, e);
    RetireEpochs(retired, counts, pending, cleaners, o, e, n);
    hide ReportingTo, Unfinished, EpochOk;
    forall g ensures ReportOk(Some(e), counts', cleaners', g) { assert ReportOk(retired, counts, cleaners, g); }
  }

  lemma RetireKeepsRest(s: State, s': State)
    requires ControlSide(s) == true && s.mx.Updating? && Retires(s, Retire, s') == true
    ensures ControlSide(s') == true
  {
    var o := s.mx.oldGen;
    RetireCovers(s, s');
    RetireCounts(s.retired, s.retiredCount, s.pendingCleanups, s.cleaners, o, RetiredEpoch(s), RetiredCounter(s));
    CurrentNotCleaned(s);
    forall g ensures CleanerOk(s'.cleaners, s'.current, s'.currentWg, s'.next, g) {
      assert CleanerOk(s.cleaners, s.current, s.currentWg, s.next, g);
    }
    forall g ensures CleanerSwept(s'.cleaners, s'.closing, s'.swept, g) { assert CleanerSwept(s.cleaners, s.closing, s.swept, g); }
    forall w ensures ShutOk(s'.workers, s'.settled, s'.cleaners, s'.shut, w) {
      assert ShutOk(s.workers, s.settled, s.cleaners, s.shut, w);
    }
    NotRemoving(s'.workers, s'.mx);
  }

  lemma SameReports(s: State, cleaners: map<nat, Cleanup>)
    requires RetiredInv(s.retired, s.retiredCount, s.pendingCleanups, s.cleaners)
    requires cleaners.Keys == s.cleaners.Keys
    requires forall g :: g in cleaners ==>
                           && cleaners[g].epoch == s.cleaners[g].epoch
                           && (Reporting(cleaners[g]) <==> Reporting(s.cleaners[g]))
                           && (cleaners[g].pc == CleanDone <==> s.cleaners[g].pc == CleanDone)
    ensures RetiredInv(s.retired, s.retiredCount, s.pendingCleanups, cleaners)
  {
    assert Unfinished(cleaners) == Unfinished(s.cleaners);
    forall e ensures EpochOk(s.retiredCount, cleaners, e) {
      assert EpochOk(s.retiredCount, s.cleaners, e);
      assert ReportingTo(cleaners, e) == ReportingTo(s.cleaners, e);
    }
    forall g ensures ReportOk(s.retired, s.retiredCount, cleaners, g) { assert ReportOk(s.retired, s.retiredCount, s.cleaners, g); }
  }

  lemma StartCleanerKeeps(s: State, s': State)
    requires ControlSide(s) == true && s.mx.Updating? && Retires(s, StartCleaner, s') == true
    ensures ControlSide(s') == true
  {
    SameReports(s, s'.cleaners);
    CoverStays(s, s'.currentWg, s'.cleaners, s'.mx);
    NotRemoving(s'.workers, s'.mx);
    forall g ensures CleanerOk(s'.cleaners, s'.current, s'.currentWg, s'.next, g) {
      assert CleanerOk(s.cleaners, s.current, s.currentWg, s.next, g);
    }
    forall g ensures CleanerSwept(s'.cleaners, s'.closing, s'.swept, g) { assert CleanerSwept(s.cleaners, s.closing, s.swept, g); }
    forall w ensures ShutOk(s'.workers, s'.settled, s'.cleaners, s'.shut, w) {
      assert ShutOk(s.workers, s.settled, s.cleaners, s.shut, w);
    }
  }

  lemma UpdateSignalKeeps(s: State, u: UpdateAct, s': State)
    requires ControlSide(s) == true && s.mx.Updating? && Retires(s, u, s') == true
    requires u == UpdateSetsClosing || u == UpdateSkipsSignal || u == UpdateClosesDone
    ensures ControlSide(s') == true
  {
    CoverStays(s, s'.currentWg, s'.cleaners, s'.mx);
    NotRemoving(s'.workers, s'.mx);
    if u == UpdateSetsClosing {
      SetClosingKeeps(s, s.mx.oldGen, s'.mx, s.shut);
    }
  }

  lemma RetireKeepsControl(s: State, u: UpdateAct, s': State)
    requires ControlSide(s) == true && s.mx.Updating? && Retires(s, u, s') == true
    ensures ControlSide(s') == true
  {
    hide ControlSide;
    match u
    case Retire => RetireKeepsRest(s, s');
    case StartCleaner => StartCleanerKeeps(s, s');
    case UpdateSetsClosing | UpdateSkipsSignal | UpdateClosesDone => UpdateSignalKeeps(s, u, s');
    case RetireNothing | SweepAlone => OldWgPresent(s);
    case _ =>
  }

  lemma OldWgPresent(s: State)
    requires ControlSide(s) == true
    ensures s.mx.Updating? ==> s.mx.oldWg == Some(s.mx.oldGen) && s.mx.upd != SyncSweeping && s.mx.upd != SyncHolding
  {
  }

  lemma UpdateKeepsControl(s: State, u: UpdateAct, s': State)
    requires ControlSide(s) == true && Updates(s, u, s') == true
    ensures ControlSide(s') == true
  {
    hide ControlSide, Publishes, Transfers, Retires;
    match u
    case BeginUpdate => BeginUpdateKeeps(s, s');
    case UpdateFails | AllocateNew(_) | StoreNewQueue | StoreNewWaitGroup | UpdateSpawns(_) | SpawnsEnd =>
      PublishKeepsControl(s, u, s');
    case TransferTake | TransferMove | TransferFull | CancelReply | CancelSkip | CancelTake | CancelEnds | TransferEnds =>
      TransferKeepsControl(s, u, s');
    case SyncTake | SyncReply | SyncSkip | SyncEnds => OldWgPresent(s);
    case _ => RetireKeepsControl(s, u, s');
  }

  // ----- Removal -----

  /** A zero wait group means nobody of that generation runs. */
  lemma NobodyIn(s: State, g: nat)
    requires ControlSide(s) == true && g in s.wg && s.wg[g] == 0
    ensures forall w :: IsLive(s.workers, w) ==> s.workers[w].gen != g
  {
    assert Counted(s.wg, s.workers, g);
    forall w | IsLive(s.workers, w) ensures s.workers[w].gen != g {
      assert w in Live(s.workers, s.workers[w].gen);
    }
  }

  lemma RemoveWaitKeeps(s: State, s': State)
    requires ControlSide(s) == true && s.mx.Removing? && RemovesOn(s, RemoveWaitEnds, s') == true
    ensures ControlSide(s') == true
  {
    NobodyIn(s, s.mx.g);
    CoverStays(s, s.currentWg, s.cleaners, s'.mx);
    forall w ensures RemovedOk(s'.workers, s'.mx, w) { assert RemovedOk(s.workers, s.mx, w); }
    Holds(s, s'.mx, s');
  }

  /** Once the retired wait group is down to zero no clean-up still has to report. */
  lemma AllReported(s: State)
    requires ControlSide(s) == true
    requires s.retired.Some? ==> s.retired.value in s.retiredCount && s.retiredCount[s.retired.value] == 0
    ensures forall g :: g in s.cleaners ==> !Reporting(s.cleaners[g])
  {
    assert s.retired.Some? ==>
        EpochOk(s.retiredCount, s.cleaners, s.retired.value) && ReportingTo(s.cleaners, s.retired.value) == {};
    forall g | g in s.cleaners ensures !Reporting(s.cleaners[g]) {
      assert ReportOk(s.retired, s.retiredCount, s.cleaners, g);
      assert s.retired.Some? ==> g !in ReportingTo(s.cleaners, s.retired.value);
    }
  }

  /** When the retired wait group is down to zero no generation at all has a worker. */
  lemma NobodyLeft(s: State)
    requires ControlSide(s) == true && s.mx.Removing? && s.mx.rem == RemoveSwept
    requires s.retired.Some? ==> s.retired.value in s.retiredCount && s.retiredCount[s.retired.value] == 0
    ensures forall w :: !IsLive(s.workers, w)
    ensures forall g :: g in s.cleaners ==> !Reporting(s.cleaners[g])
  {
    AllReported(s);
    forall w ensures !IsLive(s.workers, w) {
      assert Covered(s.workers, s.currentWg, s.cleaners, s.mx, w) && RemovedOk(s.workers, s.mx, w);
    }
  }

  lemma AwaitRetiredKeeps(s: State, s': State)
    requires ControlSide(s) == true && s.mx.Removing? && RemovesOn(s, AwaitRetired, s') == true
    ensures ControlSide(s') == true
  {
    NobodyLeft(s);
    CoverStays(s, s.currentWg, s.cleaners, s'.mx);
    forall w ensures RemovedOk(s'.workers, s'.mx, w) { }
    forall g ensures ReportOk(s'.retired, s'.retiredCount, s'.cleaners, g) { assert ReportOk(s.retired, s.retiredCount, s.cleaners, g); }
  }

  lemma RemoveSignalKeeps(s: State, a: RemoveAct, s': State)
    requires ControlSide(s) == true && s.mx.Removing? && RemovesOn(s, a, s') == true
    requires a == RemoveSetsClosing || a == RemoveSkipsSignal || a == RemoveClosesDone
    ensures ControlSide(s') == true
  {
    CoverStays(s, s'.currentWg, s'.cleaners, s'.mx);
    NotRemoving(s'.workers, s'.mx);
    if a == RemoveSetsClosing {
      SetClosingKeeps(s, s.mx.g, s'.mx, s.shut);
    }
  }

  lemma DeleteKeeps(s: State, a: RemoveAct, s': State)
    requires ControlSide(s) == true && s.mx.Removing? && RemovesOn(s, a, s') == true
    requires a == DeleteQueue || a == DeleteWaitGroup
    ensures ControlSide(s') == true
  {
    CurrentNotCleaned(s);
    forall w ensures Covered(s'.workers, s'.currentWg, s'.cleaners, s'.mx, w) {
      assert RemovedOk(s.workers, s.mx, w);
    }
    forall w ensures RemovedOk(s'.workers, s'.mx, w) { assert RemovedOk(s.workers, s.mx, w); }
    Republish(s, s'.current, s'.currentWg, s'.mx);
  }

  /** Loading the wait group and sweeping: the remover only moves on. */
  lemma RemoveSweepKeeps(s: State, a: RemoveAct, s': State)
    requires ControlSide(s) == true && s.mx.Removing? && RemovesOn(s, a, s') == true
    requires a == RemoveLoadsWaitGroup || a == RemoveTake || a == RemoveReply || a == RemoveSkip
    ensures ControlSide(s') == true
  {
    CoverStays(s, s.currentWg, s.cleaners, s'.mx);
    forall w ensures RemovedOk(s'.workers, s'.mx, w) { assert RemovedOk(s.workers, s.mx, w); }
    Holds(s, s'.mx, s');
  }

  lemma EndSweepKeeps(s: State, g: nat)
    requires ControlSide(s) == true
    ensures ControlSide(EndSweep(s, g)) == true
  {
    var t := EndSweep(s, g);
    forall h ensures CleanerSwept(t.cleaners, t.closing, t.swept, h) { assert CleanerSwept(s.cleaners, s.closing, s.swept, h); }
  }

  lemma RemoveSweepEndKeeps(s: State, s': State)
    requires ControlSide(s) == true && s.mx.Removing? && RemovesOn(s, RemoveSweepEnds, s') == true
    ensures ControlSide(s') == true
  {
    EndSweepKeeps(s, s.mx.g);
    var t := EndSweep(s, s.mx.g);
    CoverStays(t, t.currentWg, t.cleaners, s'.mx);
    forall w ensures RemovedOk(t.workers, s'.mx, w) { assert RemovedOk(t.workers, t.mx, w); }
    Holds(t, s'.mx, s');
  }

  lemma BeginRemoveKeeps(s: State, s': State)
    requires ControlSide(s) == true && Removes(s, BeginRemove, s') == true
    ensures ControlSide(s') == true
  {
    CurrentNotCleaned(s);
    CoverStays(s, s.currentWg, s.cleaners, s'.mx);
    NotRemoving(s.workers, s'.mx);
    Holds(s, s'.mx, s');
  }

  lemma RemoveKeepsControl(s: State, a: RemoveAct, s': State)
    requires ControlSide(s) == true && Removes(s, a, s') == true
    ensures ControlSide(s') == true
  {
    hide ControlSide, RemovesOn;
    match a
    case BeginRemove => BeginRemoveKeeps(s, s');
    case RemoveSetsClosing | RemoveSkipsSignal | RemoveClosesDone => RemoveSignalKeeps(s, a, s');
    case RemoveWaitEnds => RemoveWaitKeeps(s, s');
    case RemoveLoadsWaitGroup | RemoveTake | RemoveReply | RemoveSkip => RemoveSweepKeeps(s, a, s');
    case RemoveSweepEnds => RemoveSweepEndKeeps(s, s');
    case AwaitRetired => AwaitRetiredKeeps(s, s');
    case DeleteQueue | DeleteWaitGroup => DeleteKeeps(s, a, s');
  }

  // ----- Clean-up -----

  /** A clean-up goroutine moves on; whom it counts for is the same. */
  lemma CleanerMoves(s: State, g: nat, c: Cleanup)
    requires ControlSide(s) == true && g in s.cleaners
    requires c.wg == s.cleaners[g].wg && c.epoch == s.cleaners[g].epoch
    requires RetiredInv(s.retired, s.retiredCount, s.pendingCleanups, s.cleaners[g := c])
    requires !(s.mx.Updating? && s.mx.oldGen == g)
    requires c.pc != Registered && g in s.closing
    requires c.pc == CleanSwept || c.pc == RetiredCounted || c.pc == CleanDone ==> g in s.swept
    requires AwaitsWorkers(s.cleaners, g) && !AwaitsWorkers(s.cleaners[g := c], g) ==> g in s.wg && s.wg[g] == 0
    ensures ControlSide(s.(cleaners := s.cleaners[g := c])) == true
  {
    var s' := s.(cleaners := s.cleaners[g := c]);
    if g in s.wg && s.wg[g] == 0 { NobodyIn(s, g); }
    forall x ensures CleanerOk(s'.cleaners, s'.current, s'.currentWg, s'.next, x) {
      assert CleanerOk(s.cleaners, s.current, s.currentWg, s.next, x);
    }
    forall x ensures CleanerSwept(s'.cleaners, s'.closing, s'.swept, x) { assert CleanerSwept(s.cleaners, s.closing, s.swept, x); }
    forall w ensures Covered(s'.workers, s'.currentWg, s'.cleaners, s'.mx, w) {
      assert Covered(s.workers, s.currentWg, s.cleaners, s.mx, w);
    }
    forall w ensures ShutOk(s'.workers, s'.settled, s'.cleaners, s'.shut, w) {
      assert ShutOk(s.workers, s.settled, s.cleaners, s.shut, w);
    }
  }

  lemma CleanerFacts(s: State, g: nat)
    requires ControlSide(s) == true && g in s.cleaners
    ensures s.cleaners[g].wg == g && g < s.next && g in s.wg
    ensures s.cleaners[g].pc != Registered ==> g in s.closing && !(s.mx.Updating? && s.mx.oldGen == g)
    ensures s.cleaners[g].pc == CleanSwept || s.cleaners[g].pc == RetiredCounted ==> g in s.swept
  {
    assert CleanerOk(s.cleaners, s.current, s.currentWg, s.next, g) && CleanerSwept(s.cleaners, s.closing, s.swept, g);
    assert GenKnown(s.next, s.wg, s.cap, s.late, s.closing, s.settled, g);
  }

  lemma CleanSweepKeeps(s: State, g: nat, a: CleanAct, s': State)
    requires ControlSide(s) == true && Cleans(s, g, a, s') == true
    requires a == CleanWaitEnds || a == CleanTake || a == CleanReply || a == CleanSkip
    ensures ControlSide(s') == true
  {
    CleanerFacts(s, g);
    SameReports(s, s'.cleaners);
    CleanerMoves(s, g, s'.cleaners[g]);
    Transport(s.(cleaners := s.cleaners[g := s'.cleaners[g]]), s');
  }

  lemma CleanSweepEndKeeps(s: State, g: nat, s': State)
    requires ControlSide(s) == true && Cleans(s, g, CleanSweepEnds, s') == true
    ensures ControlSide(s') == true
  {
    CleanerFacts(s, g);
    EndSweepKeeps(s, g);
    var t := EndSweep(s, g);
    SameReports(t, s'.cleaners);
    CleanerMoves(t, g, s'.cleaners[g]);
  }

  lemma CountRetiredKeeps(s: State, g: nat, s': State)
    requires ControlSide(s) == true && Cleans(s, g, CountRetired, s') == true
    ensures ControlSide(s') == true
  {
    CleanerFacts(s, g);
    var c := s.cleaners[g];
    var t := s.(retiredCount := s'.retiredCount, cleaners := s'.cleaners);
    assert Unfinished(s'.cleaners) == Unfinished(s.cleaners);
    forall e ensures EpochOk(s'.retiredCount, s'.cleaners, e) {
      assert EpochOk(s.retiredCount, s.cleaners, e);
      assert ReportingTo(s'.cleaners, e) == (if e == c.epoch then ReportingTo(s.cleaners, e) - {g} else ReportingTo(s.cleaners, e));
    }
    forall x ensures ReportOk(s'.retired, s'.retiredCount, s'.cleaners, x) { assert ReportOk(s.retired, s.retiredCount, s.cleaners, x); }
    CleanerRestMoves(s, g, s'.cleaners[g], s');
  }

  /** As CleanerMoves, with the counters changed alongside. */
  lemma CleanerRestMoves(s: State, g: nat, c: Cleanup, s': State)
    requires ControlSide(s) == true && g in s.cleaners && s.cleaners[g].pc != Registered && s.cleaners[g].pc != CleanWaiting
    requires c.wg == s.cleaners[g].wg && c.pc != Registered && c.pc != CleanWaiting && g in s.swept && g in s.closing
    requires !(s.mx.Updating? && s.mx.oldGen == g)
    requires s'.cleaners == s.cleaners[g := c]
    requires SameControl(s.(cleaners := s'.cleaners, retiredCount := s'.retiredCount, pendingCleanups := s'.pendingCleanups), s') == true
    requires RetiredInv(s'.retired, s'.retiredCount, s'.pendingCleanups, s'.cleaners)
    ensures ControlSide(s') == true
  {
    forall x ensures CleanerOk(s'.cleaners, s'.current, s'.currentWg, s'.next, x) {
      assert CleanerOk(s.cleaners, s.current, s.currentWg, s.next, x);
    }
    forall x ensures CleanerSwept(s'.cleaners, s'.closing, s'.swept, x) { assert CleanerSwept(s.cleaners, s.closing, s.swept, x); }
    forall w ensures Covered(s'.workers, s'.currentWg, s'.cleaners, s'.mx, w) {
      assert Covered(s.workers, s.currentWg, s.cleaners, s.mx, w);
    }
    forall w ensures ShutOk(s'.workers, s'.settled, s'.cleaners, s'.shut, w) {
      assert ShutOk(s.workers, s.settled, s.cleaners, s.shut, w);
    }
  }

  lemma CountCleanupKeeps(s: State, g: nat, s': State)
    requires ControlSide(s) == true && Cleans(s, g, CountCleanup, s') == true
    ensures ControlSide(s') == true
  {
    CleanerFacts(s, g);
    assert Unfinished(s'.cleaners) == Unfinished(s.cleaners) - {g};
    forall e ensures EpochOk(s'.retiredCount, s'.cleaners, e) {
      assert EpochOk(s.retiredCount, s.cleaners, e);
      assert ReportingTo(s'.cleaners, e) == ReportingTo(s.cleaners, e);
    }
    forall x ensures ReportOk(s'.retired, s'.retiredCount, s'.cleaners, x) { assert ReportOk(s.retired, s.retiredCount, s.cleaners, x); }
    CleanerRestMoves(s, g, s'.cleaners[g], s');
  }

  lemma CleanKeepsControl(s: State, g: nat, a: CleanAct, s': State)
    requires ControlSide(s) == true && Cleans(s, g, a, s') == true
    ensures ControlSide(s') == true
  {
    hide ControlSide;
    match a
    case CleanWaitEnds | CleanTake | CleanReply | CleanSkip => CleanSweepKeeps(s, g, a, s');
    case CleanSweepEnds => CleanSweepEndKeeps(s, g, s');
    case CountRetired => CountRetiredKeeps(s, g, s');
    case CountCleanup => CountCleanupKeeps(s, g, s');
  }

  // ----- Shutdown -----

  /** Shutdown moves on and nothing else changes on the control side. */
  lemma ShutMoves(s: State, shut: ShutPc, s': State)
    requires ControlSide(s) == true && SameControl(s.(shut := shut), s') == true
    requires !s.shut.NotStarted? && !shut.NotStarted?
    requires shut.ShutMidSignal? ==> shut.g in s.closing
    requires ShutKnown(shut, s.next)
    requires ShutInv(s.workers, s.settled, s.cleaners, shut, s.mx)
    ensures ControlSide(s') == true
  {
  }

  lemma LockKeeps(s: State, s': State)
    requires ControlSide(s) == true && ShutsDown(s, Lock, s') == true
    ensures ControlSide(s') == true
  {
    forall h ensures GenKnown(s'.next, s'.wg, s'.cap, s'.late, s'.closing, s'.settled, h) {
      assert GenKnown(s.next, s.wg, s.cap, s.late, s.closing, s.settled, h);
    }
    forall w ensures ShutOk(s'.workers, s'.settled, s'.cleaners, s'.shut, w) { }
  }

  lemma ShutSignalKeeps(s: State, a: ShutAct, s': State)
    requires ControlSide(s) == true && ShutsDown(s, a, s') == true
    requires a == ShutSetsClosing || a == ShutClosesDone
    ensures ControlSide(s') == true
  {
    forall w ensures ShutOk(s'.workers, s'.settled, s'.cleaners, s'.shut, w) { }
    if a == ShutSetsClosing {
      ShutTargetKnown(s);
      SetClosingKeeps(s, s.shut.g, s.mx, s'.shut);
    }
  }

  lemma ShutTargetKnown(s: State)
    requires ControlSide(s) == true
    ensures s.shut.ShutSignalling? ==> s.shut.g < s.next
  {
  }

  /** With no update under way every settled worker is in the wait group just loaded or awaited
      by a clean-up. */
  lemma RangeWaitGroupsKeeps(s: State, s': State)
    requires ControlSide(s) == true && ShutsDown(s, RangeWaitGroups, s') == true
    ensures ControlSide(s') == true
  {
    forall w ensures ShutOk(s.workers, s.settled, s.cleaners, s'.shut, w) {
      assert Covered(s.workers, s.currentWg, s.cleaners, s.mx, w);
    }
    ShutMoves(s, s'.shut, s');
  }

  lemma ShutWaitKeeps(s: State, s': State)
    requires ControlSide(s) == true && ShutsDown(s, ShutWaitEnds, s') == true
    ensures ControlSide(s') == true
  {
    NobodyIn(s, s.shut.wg);
    forall w ensures ShutOk(s.workers, s.settled, s.cleaners, s'.shut, w) {
      assert ShutOk(s.workers, s.settled, s.cleaners, s.shut, w);
    }
    ShutMoves(s, s'.shut, s');
  }

  lemma AwaitCleanupsKeeps(s: State, s': State)
    requires ControlSide(s) == true && ShutsDown(s, AwaitCleanups, s') == true
    ensures ControlSide(s') == true
  {
    assert Unfinished(s.cleaners) == {};
    forall w ensures ShutOk(s.workers, s.settled, s.cleaners, s'.shut, w) {
      assert ShutOk(s.workers, s.settled, s.cleaners, s.shut, w);
      assert IsLive(s.workers, w) ==> s.workers[w].gen !in Unfinished(s.cleaners);
    }
    ShutMoves(s, s'.shut, s');
  }

  lemma ShutPassKeeps(s: State, a: ShutAct, s': State)
    requires ControlSide(s) == true && ShutsDown(s, a, s') == true
    requires a == RangeQueues || a == ShutSkipsSignal || a == RangeForSweep || a == ShutTake || a == ShutReply || a == ShutSkip
    ensures ControlSide(s') == true
  {
    forall w ensures ShutOk(s.workers, s.settled, s.cleaners, s'.shut, w) {
      assert ShutOk(s.workers, s.settled, s.cleaners, s.shut, w);
    }
    ShutMoves(s, s'.shut, s');
  }

  lemma ShutSweepEndKeeps(s: State, s': State)
    requires ControlSide(s) == true && ShutsDown(s, ShutSweepEnds, s') == true
    ensures ControlSide(s') == true
  {
    EndSweepKeeps(s, s.shut.g);
    var t := EndSweep(s, s.shut.g);
    forall w ensures ShutOk(t.workers, t.settled, t.cleaners, s'.shut, w) { assert ShutOk(t.workers, t.settled, t.cleaners, t.shut, w); }
    ShutMoves(t, s'.shut, s');
  }

  lemma ShutKeepsControl(s: State, a: ShutAct, s': State)
    requires ControlSide(s) == true && ShutsDown(s, a, s') == true
    ensures ControlSide(s') == true
  {
    hide ControlSide;
    match a
    case Lock => LockKeeps(s, s');
    case ShutSetsClosing | ShutClosesDone => ShutSignalKeeps(s, a, s');
    case RangeWaitGroups => RangeWaitGroupsKeeps(s, s');
    case ShutWaitEnds => ShutWaitKeeps(s, s');
    case AwaitCleanups => AwaitCleanupsKeeps(s, s');
    case ShutSweepEnds => ShutSweepEndKeeps(s, s');
    case _ => ShutPassKeeps(s, a, s');
  }

  /** Every step keeps the control side. */
  lemma NextKeepsControl(s: State, st: Step, s': State)
    requires ControlSide(s) == true && Next(s, st, s') == true
    ensures ControlSide(s') == true
  {
    hide ControlSide, Producing, Working, Prepares, Updates, Removes, Cleans, ShutsDown, Changes, SameControl;
    match st
    case Produce(r, p) =>
      ProducerSame(s, r, p, s');
      SameControlKeeps(s, s');
    case Work(w, a) => WorkerKeepsControl(s, w, a, s');
    case Prepare(p) => PrepareKeepsControl(s, p, s');
    case Update(u) => UpdateKeepsControl(s, u, s');
    case Remove(a) => RemoveKeepsControl(s, a, s');
    case Clean(g, a) => CleanKeepsControl(s, g, a, s');
    case Shut(a) => ShutKeepsControl(s, a, s');
    case Environment(e) =>
      EnvironmentSame(s, e, s');
      SameControlKeeps(s, s');
  }
}
