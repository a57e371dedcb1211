/**
 What the queue protocol guarantees about generations over whole runs: who is still running when
 a provider is removed or the gateway shut down, which queues are open, and what can be left in
 a queue that has closed.
 */
module PublicationTheorems {
  import opened Wrappers
  import opened MessageLayer
  import opened LifecycleModel
  import opened LifecycleInvariant
  import opened LifecycleTheorems
  import opened ControlProof

  // ----- How one step changes what is published and what is closing -----

  /** The producers past their last look at g's closing flag. */
  function PastSenders(s: State, g: nat): set<nat> {
    set r | r in s.pcs && PastCheck(s.pcs[r], g)
  }

  /** The flag of g goes up in this step, and the senders past their check are on record. */
  ghost predicate ClosingEvolves(s: State, s': State, g: nat) {
    && (g in s.closing ==> g in s'.closing && (g in s.late ==> g in s'.late && s'.late[g] == s.late[g]))
    && (g in s'.closing && g !in s.closing ==> g in s'.late && s'.late[g] == PastSenders(s, g))
  }

  ghost predicate IsPending(s: State, g: nat) {
    s.mx.Updating? && s.mx.upd == Allocated && s.mx.newGen == g
  }

  ghost predicate Evolves(s: State, st: Step, s': State) {
    && s.next <= s'.next
    && (!s.shut.NotStarted? ==> !s'.shut.NotStarted? && s'.settled == s.settled)
    && (s.shut.NotStarted? && !s'.shut.NotStarted? ==> st == Shut(Lock))
    && (!s.mx.Removing? && s'.mx.Removing? ==> st == Remove(BeginRemove))
    && (forall g {:trigger ClosingEvolves(s, s', g)} :: ClosingEvolves(s, s', g))
    && (s'.current == s.current
        || (s'.current.None? && s.mx.Removing?)
        || (s'.current.Some? && (s'.current.value == s.next || IsPending(s, s'.current.value))))
    && (forall g {:trigger IsPending(s', g)} :: IsPending(s', g) ==> IsPending(s, g) || g == s.next)
  }

  lemma SameEvolves(s: State, st: Step, s': State)
    requires SameControl(s, s') == true
    ensures Evolves(s, st, s')
  {
  }

  lemma WorkEvolves(s: State, w: nat, a: WorkerAct, s': State)
    requires Working(s, w, a, s') == true
    ensures Evolves(s, Work(w, a), s')
  {
  }

  lemma NextNotClosing(s: State)
    requires GensKnown(s.next, s.wg, s.cap, s.late, s.closing, s.settled)
    ensures s.next !in s.closing
  {
    assert GenKnown(s.next, s.wg, s.cap, s.late, s.closing, s.settled, s.next);
  }

  lemma PrepareEvolves(s: State, p: PrepareAct, s': State)
    requires GensKnown(s.next, s.wg, s.cap, s.late, s.closing, s.settled) && Prepares(s, p, s') == true
    ensures Evolves(s, Prepare(p), s')
  {
    NextNotClosing(s);
  }

  lemma PublishEvolves(s: State, u: UpdateAct, s': State)
    requires GensKnown(s.next, s.wg, s.cap, s.late, s.closing, s.settled) && s.mx.Updating? && Publishes(s, u, s') == true
    ensures Evolves(s, Update(u), s')
  {
    NextNotClosing(s);
  }

  lemma TransferEvolves(s: State, u: UpdateAct, s': State)
    requires s.mx.Updating? && Transfers(s, u, s') == true
    ensures Evolves(s, Update(u), s')
  {
  }

  lemma RetireEvolves(s: State, u: UpdateAct, s': State)
    requires s.mx.Updating? && Retires(s, u, s') == true
    ensures Evolves(s, Update(u), s')
  {
  }

  lemma SyncEvolves(s: State, u: UpdateAct, s': State)
    requires s.mx.Updating? && (SyncSweeps(s, u, s') == true)
    ensures Evolves(s, Update(u), s')
  {
  }

  lemma BeginUpdateEvolves(s: State, s': State)
    requires Updates(s, BeginUpdate, s') == true
    ensures Evolves(s, Update(BeginUpdate), s')
  {
  }

  lemma UpdateEvolves(s: State, u: UpdateAct, s': State)
    requires GensKnown(s.next, s.wg, s.cap, s.late, s.closing, s.settled) && Updates(s, u, s') == true
    ensures Evolves(s, Update(u), s')
  {
    hide Publishes, Transfers, Retires, SyncSweeps, Evolves, GensKnown;
    match u
    case BeginUpdate => BeginUpdateEvolves(s, s');
    case UpdateFails | AllocateNew(_) | StoreNewQueue | StoreNewWaitGroup | UpdateSpawns(_) | SpawnsEnd => PublishEvolves(s, u, s');
    case TransferTake | TransferMove | TransferFull | CancelReply | CancelSkip | CancelTake | CancelEnds | TransferEnds =>
      TransferEvolves(s, u, s');
    case SyncTake | SyncReply | SyncSkip | SyncEnds => SyncEvolves(s, u, s');
    case _ => RetireEvolves(s, u, s');
  }

  lemma RemoveEvolves(s: State, a: RemoveAct, s': State)
    requires Removes(s, a, s') == true
    ensures Evolves(s, Remove(a), s')
  {
  }

  lemma CleanEvolves(s: State, g: nat, a: CleanAct, s': State)
    requires Cleans(s, g, a, s') == true
    ensures Evolves(s, Clean(g, a), s')
  {
  }

  lemma ShutEvolves(s: State, a: ShutAct, s': State)
    requires ShutsDown(s, a, s') == true
    ensures Evolves(s, Shut(a), s')
  {
  }

  lemma StepEvolves(s: State, st: Step, s': State)
    requires ControlSide(s) == true && Next(s, st, s') == true
    ensures Evolves(s, st, s')
  {
    assert GensKnown(s.next, s.wg, s.cap, s.late, s.closing, s.settled) == true;
    hide Producing, Working, Prepares, Updates, Removes, Cleans, ShutsDown, Changes, ControlSide, Evolves, GensKnown, SameControl;
    match st
    case Produce(r, p) =>
      ProducerSame(s, r, p, s');
      SameEvolves(s, st, s');
    case Work(w, a) => WorkEvolves(s, w, a, s');
    case Prepare(p) => PrepareEvolves(s, p, s');
    case Update(u) => UpdateEvolves(s, u, s');
    case Remove(a) => RemoveEvolves(s, a, s');
    case Clean(g, a) => CleanEvolves(s, g, a, s');
    case Shut(a) => ShutEvolves(s, a, s');
    case Environment(e) =>
      EnvironmentSame(s, e, s');
      SameEvolves(s, st, s');
  }

  // ----- Every live worker is waited for -----

  /** The wait group of g stands above zero, or the retired wait group and the clean-up counter do
      on behalf of g's own clean-up. */
  ghost predicate WaitedFor(s: State, g: nat) {
    || (s.currentWg == Some(g) && g in s.wg && s.wg[g] > 0)
    || (&& g in s.cleaners && s.cleaners[g].wg == g
        && s.retired.Some? && s.retired.value in s.retiredCount && s.retiredCount[s.retired.value] > 0
        && s.pendingCleanups > 0)
  }

  lemma AwaitedCounts(s: State, g: nat)
    requires ControlSide(s) == true && AwaitsWorkers(s.cleaners, g)
    ensures s.retired.Some? && s.retired.value in s.retiredCount && s.retiredCount[s.retired.value] > 0
    ensures s.pendingCleanups > 0 && s.cleaners[g].wg == g
  {
    assert ReportOk(s.retired, s.retiredCount, s.cleaners, g) && CleanerOk(s.cleaners, s.current, s.currentWg, s.next, g);
    assert EpochOk(s.retiredCount, s.cleaners, s.retired.value);
    assert g in ReportingTo(s.cleaners, s.retired.value) && g in Unfinished(s.cleaners);
  }

  /** Whoever takes the provider mutex, and shutdown once no update is under way, finds every live
      worker counted in the current wait group or in the retired one. */
  lemma EveryWorkerIsWaitedFor(run: seq<State>, steps: seq<Step>, i: nat, w: nat)
    requires IsRun(run, steps) && i < |run| && IsLive(run[i].workers, w) && !run[i].mx.Updating?
    ensures WaitedFor(run[i], run[i].workers[w].gen)
  {
    hide IsRun, MessageSide;
    RunInv(run, steps, i);
    var s, g := run[i], run[i].workers[w].gen;
    assert Covered(s.workers, s.currentWg, s.cleaners, s.mx, w);
    if AwaitsWorkers(s.cleaners, g) {
      AwaitedCounts(s, g);
    } else {
      assert GenKnown(s.next, s.wg, s.cap, s.late, s.closing, s.settled, g) && WorkerKnown(s.workers, s.next, w);
      assert Counted(s.wg, s.workers, g);
      assert w in Live(s.workers, g);
    }
  }

  // ----- Removal -----

  ghost predicate NobodyRuns(s: State) {
    forall w :: !IsLive(s.workers, w)
  }

  /** Workers start only for a published provider, and only a removal takes the entry away. */
  ghost predicate Unpublished(s: State, s': State) {
    s'.current.None? ==>
      || (s.current.None? && forall w :: IsLive(s'.workers, w) ==> IsLive(s.workers, w))
      || (s'.mx.Removing? && s'.mx.rem == QueueDeleted)
  }

  lemma UpdateHasCurrent(s: State, u: UpdateAct, s': State)
    requires MutexOk(s.mx, s.current, s.currentWg, s.next, s.cleaners) && Updates(s, u, s') == true
    ensures s.current.Some? && !s.mx.Removing?
  {
    hide UpdatesOn;
  }

  lemma UpdateUnpublished(s: State, u: UpdateAct, s': State)
    requires ControlSide(s) == true && Updates(s, u, s') == true
    ensures Unpublished(s, s')
  {
    hide Updates;
    UpdateEvolves(s, u, s');
    UpdateHasCurrent(s, u, s');
  }

  lemma PrepareHasCurrent(s: State, p: PrepareAct, s': State)
    requires MutexOk(s.mx, s.current, s.currentWg, s.next, s.cleaners) && Prepares(s, p, s') == true
    ensures s'.current.Some?
  {
  }

  lemma RemoveFrame(s: State, a: RemoveAct, s': State)
    requires Removes(s, a, s') == true
    ensures s'.workers == s.workers
    ensures s'.current == s.current || (s'.mx.Removing? && s'.mx.rem == QueueDeleted)
  {
    if a == DeleteQueue { assert s'.mx == Removing(s.mx.g, QueueDeleted); } else { assert s'.current == s.current; }
  }

  lemma WorkUnpublished(s: State, w: nat, a: WorkerAct, s': State)
    requires Working(s, w, a, s') == true
    ensures Unpublished(s, s')
  {
  }

  lemma OtherUnpublished(s: State, s': State)
    requires s'.workers == s.workers && s'.current == s.current
    ensures Unpublished(s, s')
  {
  }

  lemma CleanFrame(s: State, g: nat, a: CleanAct, s': State)
    requires Cleans(s, g, a, s') == true
    ensures s'.workers == s.workers && s'.current == s.current
  {
  }

  lemma ShutFrame(s: State, a: ShutAct, s': State)
    requires ShutsDown(s, a, s') == true
    ensures s'.workers == s.workers && s'.current == s.current
  {
  }

  lemma ControlMutex(s: State)
    requires ControlSide(s) == true
    ensures MutexOk(s.mx, s.current, s.currentWg, s.next, s.cleaners)
  {
  }

  lemma StepUnpublished(s: State, st: Step, s': State)
    requires Inv(s) == true && Inv(s') == true && Next(s, st, s') == true
    ensures Unpublished(s, s')
  {
    hide Producing, Working, Prepares, Updates, Removes, Cleans, ShutsDown, Changes, ControlSide, MessageSide;
    match st
    case Produce(r, p) =>
      ProducerSame(s, r, p, s');
      OtherUnpublished(s, s');
    case Work(w, a) => WorkUnpublished(s, w, a, s');
    case Prepare(p) =>
      ControlMutex(s);
      PrepareHasCurrent(s, p, s');
    case Update(u) => UpdateUnpublished(s, u, s');
    case Remove(a) => RemoveFrame(s, a, s');
    case Clean(g, a) =>
      CleanFrame(s, g, a, s');
      OtherUnpublished(s, s');
    case Shut(a) =>
      ShutFrame(s, a, s');
      OtherUnpublished(s, s');
    case Environment(e) =>
      EnvironmentSame(s, e, s');
      OtherUnpublished(s, s');
  }

  /** While the provider has no queue entry, before it is prepared or after it is removed, no
      worker of any of its generations is running. */
  lemma {:induction false} RemovedMeansIdle(run: seq<State>, steps: seq<Step>, i: nat)
    requires IsRun(run, steps) && i < |run| && run[i].current.None?
    ensures NobodyRuns(run[i])
  {
    hide Next, MessageSide;
    if i > 0 {
      RunInv(run, steps, i - 1);
      RunInv(run, steps, i);
      var st := steps[i - 1];
      StepUnpublished(run[i - 1], st, run[i]);
      if run[i - 1].current.None? { RemovedMeansIdle(run, steps, i - 1); }
      forall w ensures !IsLive(run[i].workers, w) { assert RemovedOk(run[i].workers, run[i].mx, w); }
    }
  }

  lemma EvolvedInRun(run: seq<State>, steps: seq<Step>, i: nat)
    requires IsRun(run, steps) && i < |steps|
    ensures Evolves(run[i], steps[i], run[i + 1])
    ensures Inv(run[i]) == true && Inv(run[i + 1]) == true
  {
    hide Next, MessageSide, ControlSide, Evolves;
    RunInv(run, steps, i);
    RunInv(run, steps, i + 1);
    var st := steps[i];
    StepEvolves(run[i], st, run[i + 1]);
  }

  // ----- Shutdown -----

  lemma {:induction false} SettledStays(run: seq<State>, steps: seq<Step>, i: nat, j: nat)
    requires IsRun(run, steps) && i <= j < |run| && !run[i].shut.NotStarted?
    ensures !run[j].shut.NotStarted? && run[j].settled == run[i].settled
    decreases j
  {
    hide IsRun, Inv;
    if i < j {
      Lengths(run, steps);
      SettledStays(run, steps, i, j - 1);
      EvolvedInRun(run, steps, j - 1);
    }
  }

  /** When shutdown is done no worker runs of any generation that was complete when it took the
      lifecycle lock. */
  lemma ShutdownLeavesNobody(run: seq<State>, steps: seq<Step>, i: nat, j: nat, w: nat)
    requires IsRun(run, steps) && i < |steps| && steps[i] == Shut(Lock) && i < j < |run| && run[j].shut.ShutDone?
    requires IsLive(run[j].workers, w)
    ensures run[j].workers[w].gen !in Complete(run[i])
  {
    assert Next(run[i], steps[i], run[i + 1]);
    hide IsRun, Next;
    SettledStays(run, steps, i + 1, j);
    RunInv(run, steps, j);
    assert ShutOk(run[j].workers, run[j].settled, run[j].cleaners, run[j].shut, w);
  }

  // ----- Open queues -----

  lemma {:induction false} NotBegun(run: seq<State>, steps: seq<Step>, i: nat)
    requires IsRun(run, steps) && i < |run|
    requires forall k :: 0 <= k < i ==> steps[k] != Shut(Lock) && steps[k] != Remove(BeginRemove)
    ensures run[i].shut.NotStarted? && !run[i].mx.Removing?
  {
    hide Next, Inv;
    if i > 0 {
      NotBegun(run, steps, i - 1);
      EvolvedInRun(run, steps, i - 1);
    }
  }

  /** While no removal or shutdown has begun the published queue is open, across any number of
      updates. */
  lemma PublishedIsOpen(run: seq<State>, steps: seq<Step>, i: nat)
    requires IsRun(run, steps) && i < |run| && run[i].current.Some?
    requires forall k :: 0 <= k < i ==> steps[k] != Shut(Lock) && steps[k] != Remove(BeginRemove)
    ensures run[i].current.value !in run[i].closing
  {
    hide Next, MessageSide;
    NotBegun(run, steps, i);
    RunInv(run, steps, i);
  }

  /** At any time a published queue that is closing is closed by the removal holding the mutex or
      by shutdown, never by an update. */
  lemma ClosedByWhom(run: seq<State>, steps: seq<Step>, i: nat)
    requires IsRun(run, steps) && i < |run| && run[i].current.Some? && run[i].current.value in run[i].closing
    ensures !run[i].shut.NotStarted? || (run[i].mx.Removing? && run[i].mx.g == run[i].current.value)
  {
    hide IsRun, MessageSide;
    RunInv(run, steps, i);
  }

  lemma {:induction false} WasPublished(run: seq<State>, steps: seq<Step>, i: nat, j: nat, g: nat)
    requires IsRun(run, steps) && i <= j < |run| && run[i].current == Some(g)
    ensures g < run[j].next && !IsPending(run[j], g)
    decreases j
  {
    hide IsRun, MessageSide;
    Lengths(run, steps);
    if i < j {
      WasPublished(run, steps, i, j - 1, g);
      EvolvedInRun(run, steps, j - 1);
    } else {
      RunInv(run, steps, i);
    }
  }

  /** A generation that has been replaced or removed is never published again. */
  lemma {:induction false} NeverRepublished(run: seq<State>, steps: seq<Step>, i: nat, j: nat, k: nat, g: nat)
    requires IsRun(run, steps) && i <= j <= k < |run| && run[i].current == Some(g) && run[j].current != Some(g)
    ensures run[k].current != Some(g)
    decreases k
  {
    hide IsRun, Inv;
    Lengths(run, steps);
    if j < k {
      NeverRepublished(run, steps, i, j, k - 1, g);
      WasPublished(run, steps, i, k - 1, g);
      EvolvedInRun(run, steps, k - 1);
    }
  }

  /** Published generations only go up. */
  lemma {:induction false} PublishedGrow(run: seq<State>, steps: seq<Step>, i: nat, j: nat, g: nat, h: nat)
    requires IsRun(run, steps) && i <= j < |run| && run[i].current == Some(g) && run[j].current == Some(h)
    ensures g <= h
  {
    hide IsRun, Inv;
    Below(run, steps, i, j, g);
  }

  /** Whatever is published or about to be from now on is at least g. */
  lemma {:induction false} Below(run: seq<State>, steps: seq<Step>, i: nat, j: nat, g: nat)
    requires IsRun(run, steps) && i <= j < |run| && run[i].current == Some(g)
    ensures g < run[j].next && (run[j].current.Some? ==> g <= run[j].current.value)
    ensures forall h :: IsPending(run[j], h) ==> g < h
    decreases j
  {
    hide IsRun, MessageSide;
    Lengths(run, steps);
    if i < j {
      Below(run, steps, i, j - 1, g);
      EvolvedInRun(run, steps, j - 1);
    } else {
      RunInv(run, steps, i);
    }
  }

  /** An update always has the old wait group to hand to a clean-up: it never sweeps by itself. */
  lemma UpdatesHandOver(run: seq<State>, steps: seq<Step>, i: nat)
    requires IsRun(run, steps) && i < |steps|
    ensures steps[i] != Update(SweepAlone) && steps[i] != Update(RetireNothing)
  {
    assert Next(run[i], steps[i], run[i + 1]);
    hide IsRun, MessageSide;
    RunInv(run, steps, i);
    OldWgPresent(run[i]);
  }

  // ----- What can be left in a closed queue -----

  /** Step k is the one that set g's flag. */
  ghost predicate ClosesAt(run: seq<State>, k: nat, g: nat) {
    k + 1 < |run| && g !in run[k].closing && g in run[k + 1].closing
  }

  lemma {:induction false} LateIsPast(run: seq<State>, steps: seq<Step>, i: nat, g: nat)
    requires IsRun(run, steps) && i < |run| && g in run[i].closing
    ensures g in run[i].late
    ensures exists k: nat :: k < i && ClosesAt(run, k, g) && run[i].late[g] == PastSenders(run[k], g)
  {
    hide Next, Inv;
    if i > 0 {
      EvolvedInRun(run, steps, i - 1);
      assert ClosingEvolves(run[i - 1], run[i], g);
      if g in run[i - 1].closing {
        LateIsPast(run, steps, i - 1, g);
      } else {
        assert ClosesAt(run, i - 1, g);
      }
    }
  }

  /** A message enters a closing queue only from a sender that was past its last check when the
      flag was set. */
  lemma LateSendsOnly(run: seq<State>, steps: seq<Step>, i: nat, r: nat)
    requires IsRun(run, steps) && i < |steps| && steps[i] == Produce(r, Send) && run[i].pcs[r].g in run[i].closing
    ensures exists k: nat :: k < i && ClosesAt(run, k, run[i].pcs[r].g) && r in PastSenders(run[k], run[i].pcs[r].g)
  {
    assert Next(run[i], steps[i], run[i + 1]);
    hide Next, ControlSide;
    RunInv(run, steps, i);
    assert LateOk(run[i].pcs, run[i].closing, run[i].late, r);
    LateIsPast(run, steps, i, run[i].pcs[r].g);
  }

  /** The requests whose messages lie in queue g. */
  function Requests(m: MsgState, q: seq<nat>): set<nat> {
    set i | 0 <= i < |q| && q[i] in m.heap :: m.heap[q[i]].req
  }

  lemma {:induction false} OneEach(m: MsgState, q: seq<nat>)
    requires NoRepeats(q)
    requires forall i {:trigger q[i]} :: 0 <= i < |q| ==> q[i] in m.heap && m.heap[q[i]].req in m.held && m.held[m.heap[q[i]].req].obj == Some(q[i])
    ensures |Requests(m, q)| == |q|
  {
    if |q| > 0 {
      var front, last := q[..|q| - 1], q[|q| - 1];
      OneEach(m, front);
      assert Requests(m, q) == Requests(m, front) + {m.heap[last].req};
      assert m.heap[last].req !in Requests(m, front);
    }
  }

  lemma SubsetSize(a: set<nat>, b: set<nat>)
    requires a <= b
    ensures |a| <= |b|
  {
    assert b == a + (b - a);
  }

  lemma SweptLeavesLate(s: State, g: nat)
    requires MessageSide(s) == true && g in s.swept && g in s.ms.bufs && g in s.late
    ensures Requests(s.ms, s.ms.bufs[g]) <= s.late[g] && |s.ms.bufs[g]| <= |s.late[g]|
  {
    var q := s.ms.bufs[g];
    assert QueueOk(s.ms.bufs, s.ms.loc, s.ms.held, s.ms.heap, g);
    forall i | 0 <= i < |q| ensures q[i] in s.ms.heap && s.ms.heap[q[i]].req in s.ms.held && s.ms.held[s.ms.heap[q[i]].req].obj == Some(q[i]) && s.ms.heap[q[i]].req in s.late[g] {
      assert QueuedOk(s.ms.loc, s.ms.held, s.ms.heap, q[i], g);
      assert SweptOk(s.ms.loc, s.swept, s.late, s.ms.heap[q[i]].req);
    }
    OneEach(s.ms, q);
    SubsetSize(Requests(s.ms, q), s.late[g]);
  }

  /** The workers' wait and the final sweep of generation g are over. */
  ghost predicate Finished(s: State, g: nat) {
    || (s.mx.Removing? && s.mx.g == g && (s.mx.rem == RetiredGone || s.mx.rem == QueueDeleted))
    || (g in s.cleaners && (s.cleaners[g].pc == CleanSwept || s.cleaners[g].pc == RetiredCounted || s.cleaners[g].pc == CleanDone))
  }

  lemma FinishedIsIdle(s: State, g: nat, w: nat)
    requires ControlSide(s) == true && Finished(s, g) && IsLive(s.workers, w)
    ensures s.workers[w].gen != g && g in s.swept
  {
    assert Covered(s.workers, s.currentWg, s.cleaners, s.mx, w) && RemovedOk(s.workers, s.mx, w);
    assert CleanerOk(s.cleaners, s.current, s.currentWg, s.next, g) && CleanerSwept(s.cleaners, s.closing, s.swept, g);
  }

  /** After the workers' wait and the final sweep of a removed or replaced generation nobody serves
      its queue any more, and whatever is in it came from the finite set of senders that were past
      their last check when the flag was set, at most one message from each. */
  lemma WhatCanBeLeft(run: seq<State>, steps: seq<Step>, i: nat, g: nat)
    requires IsRun(run, steps) && i < |run| && Finished(run[i], g) && g in run[i].ms.bufs
    ensures forall w :: IsLive(run[i].workers, w) ==> run[i].workers[w].gen != g
    ensures exists k: nat :: k < i && ClosesAt(run, k, g)
                             && Requests(run[i].ms, run[i].ms.bufs[g]) <= PastSenders(run[k], g)
                             && |run[i].ms.bufs[g]| <= |PastSenders(run[k], g)|
  {
    hide IsRun;
    RunInv(run, steps, i);
    var s := run[i];
    assert CleanerSwept(s.cleaners, s.closing, s.swept, g);
    forall w | IsLive(s.workers, w) ensures s.workers[w].gen != g { FinishedIsIdle(s, g, w); }
    LateIsPast(run, steps, i, g);
    SweptLeavesLate(s, g);
  }
}
