/**
 What the queue protocol guarantees over whole runs: every interleaving, any number of requests,
 workers, updates and removals.
 */
module LifecycleTheorems {
  import opened Wrappers
  import opened MessageLayer
  import opened LifecycleModel
  import opened LifecycleInvariant
  import opened MessageHistory
  import MessageProof
  import ControlProof

  lemma InitInv()
    ensures Inv(INIT) == true
  {
    assert Live(INIT.workers, 0) == {};
    forall g ensures Counted(INIT.wg, INIT.workers, g) { }
    assert Unfinished(INIT.cleaners) == {};
  }

  /** The invariant holds in every state of every run. */
  lemma {:induction false} RunInv(run: seq<State>, steps: seq<Step>, i: nat)
    requires IsRun(run, steps) && i < |run|
    ensures Inv(run[i]) == true
  {
    hide Inv, Next;
    if i == 0 {
      InitInv();
    } else {
      RunInv(run, steps, i - 1);
      var st := steps[i - 1];
      assert Next(run[i - 1], st, run[i]) == true;
      StepInv(run[i - 1], st, run[i]);
    }
  }

  lemma StepInv(s: State, st: Step, s': State)
    requires Inv(s) == true && Next(s, st, s') == true
    ensures Inv(s') == true
  {
    hide MessageSide, ControlSide, Next;
    ControlProof.NextKeepsControl(s, st, s');
    MessageProof.NextKeepsMessages(s, st, s');
  }

  // ----- Conservation -----

  /** The message of r lies at position i of queue g. */
  ghost predicate QueuedAt(m: MsgState, r: nat, g: nat, i: nat) {
    g in m.bufs && i < |m.bufs[g]| && m.bufs[g][i] in m.heap && m.heap[m.bufs[g][i]].req == r
  }

  ghost predicate HeldBy(m: MsgState, r: nat, a: Actor) {
    a in m.hands && m.hands[a].req == r
  }

  predicate BeforeSend(pc: ProducerPc) {
    !pc.Waiting? && !pc.Left? && !pc.Releasing? && !pc.Finished?
  }

  lemma QueuedWhere(m: MsgState, r: nat, g: nat, i: nat)
    requires MsgInv(m) && QueuedAt(m, r, g, i)
    ensures r in m.held && r in m.loc && m.loc[r] == InQueue(g) && m.held[r].obj == Some(m.bufs[g][i])
  {
    assert QueueOk(m.bufs, m.loc, m.held, m.heap, g);
  }

  lemma QueuedOnce(m: MsgState, r: nat, g: nat, i: nat, h: nat, j: nat)
    requires MsgInv(m) && QueuedAt(m, r, g, i) && QueuedAt(m, r, h, j)
    ensures g == h && i == j
  {
    QueuedWhere(m, r, g, i);
    QueuedWhere(m, r, h, j);
    assert QueueOk(m.bufs, m.loc, m.held, m.heap, g);
  }

  lemma HeldWhere(m: MsgState, r: nat, a: Actor)
    requires MsgInv(m) && HeldBy(m, r, a)
    ensures r in m.loc && m.loc[r] == InHand(a)
  {
    assert HandOk(m.hands, m.loc, m.held, a);
  }

  /** Where the record says a message is, it is, and it is nowhere else. */
  ghost predicate OnlyAt(m: MsgState, r: nat) {
    && r in m.loc
    && (m.loc[r].InQueue? ==> exists i {:trigger QueuedAt(m, r, m.loc[r].g, i)} :: QueuedAt(m, r, m.loc[r].g, i))
    && (m.loc[r].InHand? ==> HeldBy(m, r, m.loc[r].a))
    && (forall g, i {:trigger QueuedAt(m, r, g, i)} :: QueuedAt(m, r, g, i) ==> m.loc[r] == InQueue(g))
    && (forall g, i, j {:trigger QueuedAt(m, r, g, i), QueuedAt(m, r, g, j)} :: QueuedAt(m, r, g, i) && QueuedAt(m, r, g, j) ==> i == j)
    && (forall a {:trigger HeldBy(m, r, a)} :: HeldBy(m, r, a) ==> m.loc[r] == InHand(a))
  }

  lemma FoundAt(m: MsgState, r: nat)
    requires MsgInv(m) && r in m.loc && m.loc[r].InQueue?
    ensures exists i {:trigger QueuedAt(m, r, m.loc[r].g, i)} :: QueuedAt(m, r, m.loc[r].g, i)
  {
    var g := m.loc[r].g;
    AboutRequest(m, r);
    var i :| 0 <= i < |m.bufs[g]| && m.bufs[g][i] == m.held[r].obj.value;
    assert QueuedAt(m, r, g, i);
  }

  lemma PlacesAreExact(m: MsgState, r: nat)
    requires MsgInv(m) && r in m.held
    ensures OnlyAt(m, r)
  {
    AboutRequest(m, r);
    if m.loc[r].InQueue? { FoundAt(m, r); }
    forall g, i | QueuedAt(m, r, g, i) ensures m.loc[r] == InQueue(g) { QueuedWhere(m, r, g, i); }
    forall g, i, j | QueuedAt(m, r, g, i) && QueuedAt(m, r, g, j) ensures i == j { QueuedOnce(m, r, g, i, g, j); }
    forall a | HeldBy(m, r, a) ensures m.loc[r] == InHand(a) { HeldWhere(m, r, a); }
  }

  /** In every reachable state a message is in exactly one place: not sent, at one position of one
      queue, in one busy actor's hand, answered, or dropped by whoever held it. */
  lemma OnePlace(run: seq<State>, steps: seq<Step>, i: nat, r: nat)
    requires IsRun(run, steps) && i < |run| && r in run[i].pcs
    ensures OnlyAt(run[i].ms, r)
    ensures BeforeSend(run[i].pcs[r]) ==> run[i].ms.loc[r].Unsent?
    ensures run[i].pcs[r].Waiting? || run[i].pcs[r].Left? ==> !run[i].ms.loc[r].Unsent?
    ensures run[i].ms.loc[r].InHand? ==> BusyActor(run[i].workers, run[i].mx, run[i].cleaners, run[i].shut, run[i].ms.loc[r].a)
  {
    hide IsRun;
    RunInv(run, steps, i);
    var s := run[i];
    assert Linked(s.pcs, s.ms.held, s.ms.loc, s.ms.heap, r);
    PlacesAreExact(s.ms, r);
    if s.ms.loc[r].InHand? {
      assert HandBusy(s.ms.hands, s.workers, s.mx, s.cleaners, s.shut, s.ms.loc[r].a);
    }
  }

  // ----- Answers -----

  lemma MovedInRun(run: seq<State>, steps: seq<Step>, i: nat, r: nat)
    requires IsRun(run, steps) && i < |steps|
    ensures Moved(run[i].ms, run[i + 1].ms, r)
    ensures Inv(run[i]) == true && Inv(run[i + 1]) == true
  {
    hide Next, MessageSide, ControlSide, Moved;
    RunInv(run, steps, i);
    RunInv(run, steps, i + 1);
    var st := steps[i];
    StepMoves(run[i], st, run[i + 1], r);
  }

  predicate IsAnswered(m: MsgState, r: nat) {
    r in m.loc && m.loc[r].Answered?
  }

  lemma {:induction false} StaysAnswered(run: seq<State>, steps: seq<Step>, i: nat, j: nat, r: nat)
    requires IsRun(run, steps) && i <= j < |run| && IsAnswered(run[i].ms, r)
    ensures IsAnswered(run[j].ms, r)
    decreases j
  {
    hide IsRun, Inv, PutsReply;
    if i < j {
      Lengths(run, steps);
      StaysAnswered(run, steps, i, j - 1, r);
      MovedInRun(run, steps, j - 1, r);
    }
  }

  lemma Lengths(run: seq<State>, steps: seq<Step>)
    requires IsRun(run, steps)
    ensures |run| == |steps| + 1
  {
  }

  /** Over a whole run at most one value is put on the reply channels of a request. */
  lemma AtMostOneReply(run: seq<State>, steps: seq<Step>, i: nat, j: nat, r: nat)
    requires IsRun(run, steps) && i < |steps| && j < |steps|
    requires PutsReply(run[i].ms, run[i + 1].ms, r) && PutsReply(run[j].ms, run[j + 1].ms, r)
    ensures i == j
  {
    hide IsRun, Inv, PutsReply;
    MovedInRun(run, steps, i, r);
    MovedInRun(run, steps, j, r);
    Lengths(run, steps);
    if i < j {
      StaysAnswered(run, steps, i + 1, j, r);
    } else if j < i {
      StaysAnswered(run, steps, j + 1, i, r);
    }
  }

  lemma {:induction false} AnswerWasPut(run: seq<State>, steps: seq<Step>, i: nat, r: nat)
    requires IsRun(run, steps) && i < |run| && IsAnswered(run[i].ms, r)
    ensures exists j :: 0 <= j < i && PutsReply(run[j].ms, run[j + 1].ms, r)
  {
    hide Inv, PutsReply, Next;
    if i > 0 {
      MovedInRun(run, steps, i - 1, r);
      if IsAnswered(run[i - 1].ms, r) {
        AnswerWasPut(run, steps, i - 1, r);
      } else {
        assert PutsReply(run[i - 1].ms, run[i].ms, r);
      }
    }
  }

  /** A caller receives the outcome produced for its own request, put there earlier in the run,
      whatever was pooled and reused before. */
  lemma OwnReply(run: seq<State>, steps: seq<Step>, i: nat, r: nat, k: Kind)
    requires IsRun(run, steps) && i < |steps| && steps[i] == Produce(r, GetReply(k))
    ensures r in run[i + 1].ms.tally && run[i + 1].ms.tally[r].got == Some(r)
    ensures exists j :: 0 <= j < i && PutsReply(run[j].ms, run[j + 1].ms, r)
  {
    hide PutsReply;
    RunInv(run, steps, i);
    var s, s' := run[i], run[i + 1];
    assert Next(s, steps[i], s');
    assert Linked(s.pcs, s.ms.held, s.ms.loc, s.ms.heap, r);
    ReceiveOwn(s.ms, r, k);
    AnswerWasPut(run, steps, i, r);
  }

  /** An answer that has been put and not yet received is there for the waiting caller to receive. */
  lemma AnswersCanBeReceived(run: seq<State>, steps: seq<Step>, i: nat, r: nat)
    requires IsRun(run, steps) && i < |run| && r in run[i].pcs && run[i].pcs[r] == Waiting && IsAnswered(run[i].ms, r)
    ensures CanReceive(run[i].ms, r, run[i].ms.loc[r].k) && run[i].ms.loc[r] == Answered(run[i].ms.loc[r].k, false)
  {
    hide IsRun;
    RunInv(run, steps, i);
    var s := run[i];
    assert Linked(s.pcs, s.ms.held, s.ms.loc, s.ms.heap, r);
    AboutRequest(s.ms, r);
  }

  /** Whoever holds a message finds the channel it is to answer on empty, so no reply blocks. */
  lemma RepliesNeverBlock(run: seq<State>, steps: seq<Step>, i: nat, a: Actor, k: Kind)
    requires IsRun(run, steps) && i < |run| && a in run[i].ms.hands && Suits(run[i].ms, a, k)
    ensures CanReply(run[i].ms, a, k)
  {
    hide IsRun;
    RunInv(run, steps, i);
    ReplyReady(run[i].ms, a, k);
  }

  lemma NoTimeOut(s: State, w: nat, k: Kind, s': State)
    requires Inv(s) == true
    ensures !Working(s, w, TimeOut(k), s')
  {
    if Worker(w) in s.ms.hands && Suits(s.ms, Worker(w), k) { ReplyReady(s.ms, Worker(w), k); }
  }

  /** The five-second timer around a worker's reply never fires. */
  lemma TimerNeverFires(run: seq<State>, steps: seq<Step>, i: nat, w: nat, k: Kind)
    requires IsRun(run, steps) && i < |steps|
    ensures steps[i] != Work(w, TimeOut(k))
  {
    hide Inv, Working;
    RunInv(run, steps, i);
    var st := steps[i];
    assert Next(run[i], st, run[i + 1]) == true;
    if st == Work(w, TimeOut(k)) { NoTimeOut(run[i], w, k, run[i + 1]); }
  }

  /** A message is dropped only after its caller cancelled. */
  lemma {:induction false} DropsAreCancelled(run: seq<State>, steps: seq<Step>, i: nat, r: nat)
    requires IsRun(run, steps) && i < |run| && IsDropped(run[i].ms, r)
    ensures r in run[i].ms.cancelled
  {
    hide Inv, PutsReply, Next;
    if i > 0 {
      MovedInRun(run, steps, i - 1, r);
      if IsDropped(run[i - 1].ms, r) { DropsAreCancelled(run, steps, i - 1, r); }
    }
  }

  // ----- Post-hooks -----

  predicate RunsHooks(m: MsgState, m': MsgState, r: nat) {
    r in m.tally && r in m'.tally && m'.tally[r].hooks > m.tally[r].hooks
  }

  lemma HooksGrow(m: MsgState, m': MsgState, r: nat)
    requires MsgInv(m) && MsgInv(m') && Moved(m, m', r) && r in m.held
    ensures r in m'.held && r in m.tally && r in m'.tally && m.tally[r].hooks <= m'.tally[r].hooks <= 1
  {
    AboutRequest(m, r);
    assert r in m'.loc;
    AboutRequest(m', r);
  }

  lemma {:induction false} HooksStay(run: seq<State>, steps: seq<Step>, i: nat, j: nat, r: nat)
    requires IsRun(run, steps) && i <= j < |run| && r in run[i].ms.held
    ensures r in run[i].ms.tally && r in run[j].ms.held && r in run[j].ms.tally
    ensures run[i].ms.tally[r].hooks <= run[j].ms.tally[r].hooks
    decreases j
  {
    hide IsRun, Moved, MsgInv;
    if i < j {
      Lengths(run, steps);
      HooksStay(run, steps, i, j - 1, r);
      MovedInRun(run, steps, j - 1, r);
      HooksGrow(run[j - 1].ms, run[j].ms, r);
    } else {
      RunInv(run, steps, i);
      AboutRequest(run[i].ms, r);
    }
  }

  /** The post-hooks of a request run at most once: when its reply is received or when its holder
      bills it as abandoned, never both. */
  lemma HooksRunOnce(run: seq<State>, steps: seq<Step>, i: nat, j: nat, r: nat)
    requires IsRun(run, steps) && i < |steps| && j < |steps| && r in run[i].ms.held && r in run[j].ms.held
    requires RunsHooks(run[i].ms, run[i + 1].ms, r) && RunsHooks(run[j].ms, run[j + 1].ms, r)
    ensures i == j
  {
    hide IsRun, Moved, MsgInv;
    Lengths(run, steps);
    MovedInRun(run, steps, i, r);
    MovedInRun(run, steps, j, r);
    HooksGrow(run[i].ms, run[i + 1].ms, r);
    HooksGrow(run[j].ms, run[j + 1].ms, r);
    if i < j {
      HooksStay(run, steps, i + 1, j, r);
    } else if j < i {
      HooksStay(run, steps, j + 1, i, r);
    }
  }

  // ----- Pools -----

  /** The object o can still be reached by someone who will write to the channels it names. */
  ghost predicate Reachable(m: MsgState, o: nat) {
    || (exists g {:trigger m.bufs[g]} :: g in m.bufs && o in m.bufs[g])
    || (exists a {:trigger m.hands[a]} :: a in m.hands && m.hands[a].obj == o)
  }

  lemma ReachableIsOwned(m: MsgState, o: nat)
    requires MsgInv(m) && Reachable(m, o)
    ensures o in m.heap && m.heap[o].req in m.held && m.held[m.heap[o].req].obj == Some(o)
    ensures m.heap[o].chan == m.held[m.heap[o].req].chan && m.heap[o].owner == OwnedBy(m.heap[o].req)
  {
    if g :| g in m.bufs && o in m.bufs[g] {
      var i :| 0 <= i < |m.bufs[g]| && m.bufs[g][i] == o;
      assert QueueOk(m.bufs, m.loc, m.held, m.heap, g) && QueuedOk(m.loc, m.held, m.heap, m.bufs[g][i], g);
      AboutRequest(m, m.heap[o].req);
    } else {
      var a :| a in m.hands && m.hands[a].obj == o;
      assert HandOk(m.hands, m.loc, m.held, a);
      AboutRequest(m, m.hands[a].req);
    }
  }

  predicate Names(f: Fields, c: Chan) {
    f.response == Some(c) || f.error == Some(c) || f.stream == Some(c)
  }

  lemma HeldNotPooled(m: MsgState, r: nat, c: Chan)
    requires MsgInv(m) && r in m.held && c in m.chanPool
    ensures !Names(m.held[r].chan, c)
  {
    assert PooledOk(m.chanPool, m.owner, c) && ChansOwned(m.held, m.owner, r);
  }

  /** A channel in a pool is empty, no request holds it, and no message still in a queue or in a
      hand names it. */
  lemma PooledChannelsAreQuiet(run: seq<State>, steps: seq<Step>, i: nat, c: Chan)
    requires IsRun(run, steps) && i < |run| && c in run[i].ms.chanPool
    ensures c !in run[i].ms.content
    ensures forall r :: r in run[i].ms.held ==> !Names(run[i].ms.held[r].chan, c)
    ensures forall o :: Reachable(run[i].ms, o) ==> o in run[i].ms.heap && !Names(run[i].ms.heap[o].chan, c)
  {
    hide IsRun;
    RunInv(run, steps, i);
    var m := run[i].ms;
    assert FullOk(m.content, m.loc, m.held, c);
    assert c in m.content ==> Names(m.held[m.content[c]].chan, c);
    forall r | r in m.held ensures !Names(m.held[r].chan, c) { HeldNotPooled(m, r, c); }
    forall o | Reachable(m, o) ensures o in m.heap && !Names(m.heap[o].chan, c) {
      ReachableIsOwned(m, o);
      HeldNotPooled(m, m.heap[o].req, c);
    }
  }

  /** A message object in the pool is in no queue and in no hand. */
  lemma PooledObjectsAreQuiet(run: seq<State>, steps: seq<Step>, i: nat, o: nat)
    requires IsRun(run, steps) && i < |run| && o in run[i].ms.objPool
    ensures !Reachable(run[i].ms, o)
  {
    hide IsRun;
    RunInv(run, steps, i);
    assert ObjectOk(run[i].ms.objPool, run[i].ms.heap, o);
    if Reachable(run[i].ms, o) { ReachableIsOwned(run[i].ms, o); }
  }
}
