/**
 How one message's whereabouts can change in a step, and that an answer is recorded exactly when
 a value is put on a reply channel.
 */
module MessageHistory {
  import opened Wrappers
  import opened MessageLayer
  import opened LifecycleModel
  import opened LifecycleInvariant

  /** The order of a message's life: only an update can put a message back into a queue, and
      nothing follows a drop or a receipt. */
  predicate Follows(l: Loc, l': Loc) {
    l == l' ||
    match l
    case Unsent => l'.InQueue?
    case InQueue(_) => l'.InHand?
    case InHand(a) => l'.Dropped? || (l'.Answered? && !l'.received) || (a == Updater && l'.InQueue?)
    case Answered(k, received) => !received && l' == Answered(k, true)
    case Dropped(_) => false
  }

  /** A value meant for r is put on an empty channel. */
  ghost predicate PutsReply(m: MsgState, m': MsgState, r: nat) {
    exists c {:trigger c in m'.content} :: c !in m.content && c in m'.content && m'.content[c] == r
  }

  predicate IsDropped(m: MsgState, r: nat) {
    r in m.loc && m.loc[r].Dropped?
  }

  /** One step in the life of r: nobody drops a message whose caller has not cancelled. */
  ghost predicate Moved(m: MsgState, m': MsgState, r: nat) {
    && m.cancelled <= m'.cancelled
    && (r in m.loc ==> r in m'.loc && Follows(m.loc[r], m'.loc[r]))
    && (r !in m.loc && r in m'.loc ==> m'.loc[r] == Unsent)
    && (IsDropped(m', r) && !IsDropped(m, r) ==> r in m.cancelled)
    && (PutsReply(m, m', r) <==> r in m.loc && r in m'.loc && !m.loc[r].Answered? && m'.loc[r].Answered?)
  }

  /** Nothing is put on any channel. */
  ghost predicate NoReply(m: MsgState, m': MsgState) {
    forall c {:trigger c in m'.content} :: c in m'.content ==> c in m.content
  }

  /** Nothing moves and nothing is put on any channel. */
  ghost predicate Quiet(m: MsgState, m': MsgState) {
    m'.loc == m.loc && m.cancelled <= m'.cancelled && NoReply(m, m')
  }

  lemma QuietMoves(m: MsgState, m': MsgState, r: nat)
    requires Quiet(m, m')
    ensures Moved(m, m', r)
  {
  }

  /** One message moves, without an answer. */
  lemma MovesTo(m: MsgState, m': MsgState, x: nat, l: Loc, r: nat)
    requires m'.loc == m.loc[x := l] && m'.cancelled == m.cancelled && NoReply(m, m')
    requires l.Dropped? ==> x in m.cancelled
    requires x !in m.loc ==> l == Unsent
    requires x in m.loc ==> Follows(m.loc[x], l) && (m.loc[x].Answered? <==> l.Answered?)
    ensures Moved(m, m', r)
  {
  }

  lemma DequeueMoves(m: MsgState, g: nat, a: Actor, r: nat)
    requires MsgInv(m) && CanDequeue(m, g)
    ensures Moved(m, Dequeue(m, g, a), r)
  {
    assert QueueOk(m.bufs, m.loc, m.held, m.heap, g) && QueuedOk(m.loc, m.held, m.heap, m.bufs[g][0], g);
    MovesTo(m, Dequeue(m, g, a), m.heap[m.bufs[g][0]].req, InHand(a), r);
  }

  lemma ReplyMoves(m: MsgState, a: Actor, k: Kind, r: nat)
    requires MsgInv(m) && CanReply(m, a, k)
    ensures Moved(m, Reply(m, a, k), r)
  {
    assert HandOk(m.hands, m.loc, m.held, a);
    var m' := Reply(m, a, k);
    var c := m.heap[m.hands[a].obj].chan.At(k).value;
    assert c in m'.content && c !in m.content && m'.content[c] == m.hands[a].req;
  }

  lemma GiveUpMoves(m: MsgState, a: Actor, bill: bool, r: nat)
    requires MsgInv(m) && CanGiveUp(m, a) && m.hands[a].req in m.cancelled
    ensures Moved(m, GiveUp(m, a, bill), r)
  {
    assert HandOk(m.hands, m.loc, m.held, a);
    MovesTo(m, GiveUp(m, a, bill), m.hands[a].req, GiveUp(m, a, bill).loc[m.hands[a].req], r);
  }

  lemma RequeueMoves(m: MsgState, g: nat, r: nat)
    requires MsgInv(m) && Updater in m.hands && g in m.bufs
    ensures Moved(m, Requeue(m, Updater, g), r)
  {
    assert HandOk(m.hands, m.loc, m.held, Updater);
    MovesTo(m, Requeue(m, Updater, g), m.hands[Updater].req, InQueue(g), r);
  }

  lemma ReceiveMoves(m: MsgState, x: nat, k: Kind, r: nat)
    requires MsgInv(m) && CanReceive(m, x, k) && Intact(m.held, m.heap, x)
    ensures Moved(m, Receive(m, x, k), r)
  {
    ReceiveOwn(m, x, k);
    MovesTo(m, Receive(m, x, k), x, Answered(k, true), r);
  }

  lemma ArriveMoves(s: State, x: nat, isStream: bool, s': State, r: nat)
    requires MessageSide(s) == true && Producing(s, x, Arrive(isStream), s') == true
    ensures Moved(s.ms, s'.ms, r)
  {
    assert s.ms.loc.Keys == s.ms.held.Keys;
    MovesTo(s.ms, s'.ms, x, Unsent, r);
  }

  lemma SendMoves(s: State, x: nat, p: ProducerAct, s': State, r: nat)
    requires MessageSide(s) == true && x in s.pcs && Enqueuing(s, x, p, s') == true
    ensures Moved(s.ms, s'.ms, r)
  {
    assert Linked(s.pcs, s.ms.held, s.ms.loc, s.ms.heap, x);
    if p == Send { MovesTo(s.ms, s'.ms, x, InQueue(s.pcs[x].g), r); }
  }

  lemma AwaitMoves(s: State, x: nat, p: ProducerAct, s': State, r: nat)
    requires MessageSide(s) == true && x in s.pcs && Awaiting(s, x, p, s') == true
    ensures Moved(s.ms, s'.ms, r)
  {
    assert Linked(s.pcs, s.ms.held, s.ms.loc, s.ms.heap, x);
    if p.GetReply? { ReceiveMoves(s.ms, x, p.k, r); }
  }

  lemma AcquireMoves(s: State, x: nat, p: ProducerAct, s': State, r: nat)
    requires x in s.pcs && x in s.ms.held && (Acquiring(s, x, p, s') == true || Releases(s, x, p, s') == true)
    ensures Moved(s.ms, s'.ms, r)
  {
    QuietMoves(s.ms, s'.ms, r);
  }

  lemma ProducerMoves(s: State, x: nat, p: ProducerAct, s': State, r: nat)
    requires MessageSide(s) == true && Producing(s, x, p, s') == true
    ensures Moved(s.ms, s'.ms, r)
  {
    hide MessageSide, Acquiring, Enqueuing, Awaiting, Releases, Moved;
    match p
    case Arrive(isStream) => ArriveMoves(s, x, isStream, s', r);
    case CheckClosing | LookupAgain | CheckCandidate => QuietMoves(s.ms, s'.ms, r);
    case Send | SeeDone | SeeCancel | FindFull | Drop | NoDrop | CheckAgain => SendMoves(s, x, p, s', r);
    case GetReply(_) | Leave => AwaitMoves(s, x, p, s', r);
    case _ => AcquireMoves(s, x, p, s', r);
  }

  lemma WorkerMoves(s: State, w: nat, a: WorkerAct, s': State, r: nat)
    requires MessageSide(s) == true && Working(s, w, a, s') == true
    ensures Moved(s.ms, s'.ms, r)
  {
    var g, me := s.workers[w].gen, Worker(w);
    match a {
      case TakeMessage | DrainTake => DequeueMoves(s.ms, g, me, r);
      case WorkerReply(k) => ReplyMoves(s.ms, me, k, r);
      case DrainReply => ReplyMoves(s.ms, me, ErrorKind, r);
      case Abandon => GiveUpMoves(s.ms, me, true, r);
      case DrainSkip => GiveUpMoves(s.ms, me, false, r);
      case TimeOut(k) => ReplyReady(s.ms, me, k);
      case _ => QuietMoves(s.ms, s'.ms, r);
    }
  }

  lemma TransferStepMoves(s: State, u: UpdateAct, s': State, r: nat)
    requires MessageSide(s) == true && s.mx.Updating? && Transfers(s, u, s') == true
    ensures Moved(s.ms, s'.ms, r)
  {
    match u {
      case TransferTake | CancelTake => DequeueMoves(s.ms, s.mx.oldGen, Updater, r);
      case TransferMove => RequeueMoves(s.ms, s.mx.newGen, r);
      case CancelReply => ReplyMoves(s.ms, Updater, ErrorKind, r);
      case CancelSkip => GiveUpMoves(s.ms, Updater, false, r);
      case _ => QuietMoves(s.ms, s'.ms, r);
    }
  }

  lemma SyncStepMoves(s: State, u: UpdateAct, s': State, r: nat)
    requires MessageSide(s) == true && s.mx.Updating? && SyncSweeps(s, u, s') == true
    ensures Moved(s.ms, s'.ms, r)
  {
    match u {
      case SyncTake => DequeueMoves(s.ms, s.mx.oldGen, Updater, r);
      case SyncReply => ReplyMoves(s.ms, Updater, ErrorKind, r);
      case SyncSkip => GiveUpMoves(s.ms, Updater, false, r);
      case _ => QuietMoves(s.ms, s'.ms, r);
    }
  }

  lemma QuietUpdates(s: State, u: UpdateAct, s': State, r: nat)
    requires s.mx.Updating? && (Publishes(s, u, s') == true || Retires(s, u, s') == true)
    ensures Moved(s.ms, s'.ms, r)
  {
    QuietMoves(s.ms, s'.ms, r);
  }

  lemma UpdateMoves(s: State, u: UpdateAct, s': State, r: nat)
    requires MessageSide(s) == true && Updates(s, u, s') == true
    ensures Moved(s.ms, s'.ms, r)
  {
    hide MessageSide, Publishes, Transfers, Retires, SyncSweeps, Moved;
    match u
    case BeginUpdate => QuietMoves(s.ms, s'.ms, r);
    case TransferTake | TransferMove | TransferFull | CancelReply | CancelSkip | CancelTake | CancelEnds | TransferEnds =>
      TransferStepMoves(s, u, s', r);
    case SyncTake | SyncReply | SyncSkip | SyncEnds => SyncStepMoves(s, u, s', r);
    case _ => QuietUpdates(s, u, s', r);
  }

  lemma RemoveMoves(s: State, a: RemoveAct, s': State, r: nat)
    requires MessageSide(s) == true && Removes(s, a, s') == true
    ensures Moved(s.ms, s'.ms, r)
  {
    match a {
      case RemoveTake => DequeueMoves(s.ms, s.mx.g, Remover, r);
      case RemoveReply => ReplyMoves(s.ms, Remover, ErrorKind, r);
      case RemoveSkip => GiveUpMoves(s.ms, Remover, false, r);
      case _ => QuietMoves(s.ms, s'.ms, r);
    }
  }

  lemma CleanMoves(s: State, g: nat, a: CleanAct, s': State, r: nat)
    requires MessageSide(s) == true && Cleans(s, g, a, s') == true
    ensures Moved(s.ms, s'.ms, r)
  {
    match a {
      case CleanTake => DequeueMoves(s.ms, g, Cleaner(g), r);
      case CleanReply => ReplyMoves(s.ms, Cleaner(g), ErrorKind, r);
      case CleanSkip => GiveUpMoves(s.ms, Cleaner(g), false, r);
      case _ => QuietMoves(s.ms, s'.ms, r);
    }
  }

  lemma ShutMoves(s: State, a: ShutAct, s': State, r: nat)
    requires MessageSide(s) == true && ShutsDown(s, a, s') == true
    ensures Moved(s.ms, s'.ms, r)
  {
    match a {
      case ShutTake => DequeueMoves(s.ms, s.shut.g, Closer, r);
      case ShutReply => ReplyMoves(s.ms, Closer, ErrorKind, r);
      case ShutSkip => GiveUpMoves(s.ms, Closer, false, r);
      case _ => QuietMoves(s.ms, s'.ms, r);
    }
  }

  lemma PrepareMoves(s: State, p: PrepareAct, s': State, r: nat)
    requires Prepares(s, p, s') == true
    ensures Moved(s.ms, s'.ms, r)
  {
    QuietMoves(s.ms, s'.ms, r);
  }

  lemma EnvironmentMoves(s: State, e: EnvironmentAct, s': State, r: nat)
    requires Changes(s, e, s') == true
    ensures Moved(s.ms, s'.ms, r)
  {
    QuietMoves(s.ms, s'.ms, r);
  }

  /** In every step each message moves along its life, and is answered exactly when a value for it
      is put on a channel. */
  lemma StepMoves(s: State, st: Step, s': State, r: nat)
    requires MessageSide(s) == true && Next(s, st, s') == true
    ensures Moved(s.ms, s'.ms, r)
  {
    hide MessageSide, Producing, Working, Prepares, Updates, Removes, Cleans, ShutsDown, Changes, Moved;
    match st
    case Produce(x, p) => ProducerMoves(s, x, p, s', r);
    case Work(w, a) => WorkerMoves(s, w, a, s', r);
    case Prepare(p) => PrepareMoves(s, p, s', r);
    case Update(u) => UpdateMoves(s, u, s', r);
    case Remove(a) => RemoveMoves(s, a, s', r);
    case Clean(g, a) => CleanMoves(s, g, a, s', r);
    case Shut(a) => ShutMoves(s, a, s', r);
    case Environment(e) => EnvironmentMoves(s, e, s', r);
  }
}
