/**
 Every step keeps the message side of the invariant: ownership of pooled things, what each
 producer holds, who has each message, and who may still send to a closing queue.
 */
module MessageProof {
  import opened Wrappers
  import opened MessageLayer
  import opened LifecycleModel
  import opened LifecycleInvariant

  // ----- Taking, answering, dropping and moving a message, whoever does it -----

  lemma LinkMoves(pcs: map<nat, ProducerPc>, held: map<nat, Holding>, loc: map<nat, Loc>, heap: map<nat, Object>, r: nat, l: Loc)
    requires LinkInv(pcs, held, loc, heap)
    requires r in loc && (loc[r].InQueue? || loc[r].InHand?)
    requires l != Unsent && !AnsweredAndTaken(l)
    ensures LinkInv(pcs, held, loc[r := l], heap)
  {
    var loc' := loc[r := l];
    forall x ensures Linked(pcs, held, loc', heap, x) { assert Linked(pcs, held, loc, heap, x); }
  }

  lemma SweptMoves(loc: map<nat, Loc>, swept: set<nat>, late: map<nat, set<nat>>, closing: set<nat>, r: nat, l: Loc)
    requires SweptInv(loc, swept, late, closing)
    requires l.InQueue? && l.g in swept ==> l.g in late && r in late[l.g]
    ensures SweptInv(loc[r := l], swept, late, closing)
  {
    var loc' := loc[r := l];
    forall x ensures SweptOk(loc', swept, late, x) { assert SweptOk(loc, swept, late, x); }
  }

  /** The part of the message side that the holder of a message can affect. */
  ghost predicate CareInv(s: State, ms: MsgState) {
    && MsgInv(ms)
    && LinkInv(s.pcs, ms.held, ms.loc, ms.heap)
    && SweptInv(ms.loc, s.swept, s.late, s.closing)
    && QueuesKnown(s.next, ms.bufs)
  }

  lemma DequeueCare(s: State, g: nat, a: Actor)
    requires CareInv(s, s.ms) == true && QueueHas(s, g) && a !in s.ms.hands
    ensures CareInv(s, Dequeue(s.ms, g, a)) == true
  {
    DequeueKeeps(s.ms, g, a);
    var o := s.ms.bufs[g][0];
    assert QueueOk(s.ms.bufs, s.ms.loc, s.ms.held, s.ms.heap, g);
    assert QueuedOk(s.ms.loc, s.ms.held, s.ms.heap, o, g);
    LinkMoves(s.pcs, s.ms.held, s.ms.loc, s.ms.heap, s.ms.heap[o].req, InHand(a));
    SweptMoves(s.ms.loc, s.swept, s.late, s.closing, s.ms.heap[o].req, InHand(a));
    BufsKnown(s.next, s.ms.bufs, g, s.ms.bufs[g][1..]);
  }

  lemma ReplyCare(s: State, a: Actor, k: Kind)
    requires CareInv(s, s.ms) == true && CanReply(s.ms, a, k)
    ensures CareInv(s, Reply(s.ms, a, k)) == true
  {
    ReplyKeeps(s.ms, a, k);
    assert HandOk(s.ms.hands, s.ms.loc, s.ms.held, a);
    LinkMoves(s.pcs, s.ms.held, s.ms.loc, s.ms.heap, s.ms.hands[a].req, Answered(k, false));
    SweptMoves(s.ms.loc, s.swept, s.late, s.closing, s.ms.hands[a].req, Answered(k, false));
  }

  lemma GiveUpCare(s: State, a: Actor, bill: bool)
    requires CareInv(s, s.ms) == true && CanGiveUp(s.ms, a)
    ensures CareInv(s, GiveUp(s.ms, a, bill)) == true
  {
    GiveUpKeeps(s.ms, a, bill);
    assert HandOk(s.ms.hands, s.ms.loc, s.ms.held, a);
    var r := s.ms.hands[a].req;
    var l := Dropped(bill && !s.ms.held[r].isStream);
    LinkMoves(s.pcs, s.ms.held, s.ms.loc, s.ms.heap, r, l);
    SweptMoves(s.ms.loc, s.swept, s.late, s.closing, r, l);
  }

  lemma RequeueCare(s: State, a: Actor, g: nat)
    requires CareInv(s, s.ms) == true && a in s.ms.hands && g in s.ms.bufs && g !in s.swept
    ensures CareInv(s, Requeue(s.ms, a, g)) == true
  {
    RequeueKeeps(s.ms, a, g);
    assert HandOk(s.ms.hands, s.ms.loc, s.ms.held, a);
    LinkMoves(s.pcs, s.ms.held, s.ms.loc, s.ms.heap, s.ms.hands[a].req, InQueue(g));
    SweptMoves(s.ms.loc, s.swept, s.late, s.closing, s.ms.hands[a].req, InQueue(g));
    BufsKnown(s.next, s.ms.bufs, g, s.ms.bufs[g] + [s.ms.hands[a].obj]);
  }

  lemma BufsKnown(next: nat, bufs: map<nat, seq<nat>>, g: nat, q: seq<nat>)
    requires QueuesKnown(next, bufs) && g in bufs
    ensures QueuesKnown(next, bufs[g := q])
  {
    var bufs' := bufs[g := q];
    forall x ensures QueueKnown(next, bufs', x) { assert QueueKnown(next, bufs, x); }
  }

  /** A sweep that finds the queue empty leaves nothing in it. */
  lemma EndSweepCare(s: State, g: nat)
    requires CareInv(s, s.ms) == true && QueueEmpty(s, g)
    ensures SweptInv(s.ms.loc, EndSweep(s, g).swept, s.late, s.closing)
  {
    var swept' := EndSweep(s, g).swept;
    forall x ensures SweptOk(s.ms.loc, swept', s.late, x) {
      assert SweptOk(s.ms.loc, s.swept, s.late, x) && Placed(s.ms.loc, s.ms.held, s.ms.bufs, s.ms.hands, x);
    }
  }

  /** Setting a closing flag records every sender already past its last check. */
  lemma SetClosingSide(s: State, g: nat)
    requires LateInv(s.pcs, s.closing, s.late) && SweptInv(s.ms.loc, s.swept, s.late, s.closing) && g !in s.closing
    ensures var s' := SetClosing(s, g); LateInv(s'.pcs, s'.closing, s'.late) && SweptInv(s'.ms.loc, s'.swept, s'.late, s'.closing)
  {
    var s' := SetClosing(s, g);
    forall r ensures LateOk(s'.pcs, s'.closing, s'.late, r) { assert LateOk(s.pcs, s.closing, s.late, r); }
    forall r ensures SweptOk(s'.ms.loc, s'.swept, s'.late, r) { assert SweptOk(s.ms.loc, s.swept, s.late, r); }
  }

  lemma NewGenerationSide(s: State, cap: nat)
    requires MessageSide(s) == true && GensKnown(s.next, s.wg, s.cap, s.late, s.closing, s.settled)
    ensures
      var s' := NewGeneration(s, cap);
      && CareInv(s', s'.ms) == true && LateInv(s'.pcs, s'.closing, s'.late) && ProducersKnown(s'.pcs, s'.next)
  {
    var s' := NewGeneration(s, cap);
    assert QueueKnown(s.next, s.ms.bufs, s.next) && GenKnown(s.next, s.wg, s.cap, s.late, s.closing, s.settled, s.next);
    AddQueueKeeps(s.ms, s.next);
    forall x ensures QueueKnown(s'.next, s'.ms.bufs, x) { assert QueueKnown(s.next, s.ms.bufs, x); }
    forall r ensures LateOk(s'.pcs, s'.closing, s'.late, r) { assert LateOk(s.pcs, s.closing, s.late, r); }
    forall r ensures SweptOk(s'.ms.loc, s'.swept, s'.late, r) { assert SweptOk(s.ms.loc, s.swept, s.late, r); }
    forall r ensures ProducerKnown(s'.pcs, s'.next, r) { assert ProducerKnown(s.pcs, s.next, r); }
  }

  // ----- Producers -----

  lemma MovesPc(s: State, r: nat, pc: ProducerPc)
    requires LateInv(s.pcs, s.closing, s.late) && ProducersKnown(s.pcs, s.next)
    requires PcKnown(pc, s.next)
    requires pc.Sending? || pc.FoundFull? || pc.Recheck? ==> (pc.g in s.closing ==> pc.g in s.late && r in s.late[pc.g])
    ensures LateInv(s.pcs[r := pc], s.closing, s.late) && ProducersKnown(s.pcs[r := pc], s.next)
  {
    var pcs' := s.pcs[r := pc];
    forall x ensures LateOk(pcs', s.closing, s.late, x) { assert LateOk(s.pcs, s.closing, s.late, x); }
    forall x ensures ProducerKnown(pcs', s.next, x) { assert ProducerKnown(s.pcs, s.next, x); }
  }

  lemma ArriveKeeps(s: State, r: nat, isStream: bool, s': State)
    requires MessageSide(s) == true && Producing(s, r, Arrive(isStream), s') == true
    ensures MessageSide(s') == true
  {
    NewRequestKeeps(s.ms, r, isStream);
    MovesPc(s, r, Start);
    forall x ensures Linked(s'.pcs, s'.ms.held, s'.ms.loc, s'.ms.heap, x) {
      assert Linked(s.pcs, s.ms.held, s.ms.loc, s.ms.heap, x);
    }
    SweptMoves(s.ms.loc, s.swept, s.late, s.closing, r, Unsent);
  }

  /** Nothing the link of x reads has changed. */
  ghost predicate Untouched(s: State, s': State, x: nat) {
    && (x in s'.pcs <==> x in s.pcs)
    && (x in s.pcs && x in s.ms.held && x in s.ms.loc ==>
          && x in s'.ms.held && x in s'.ms.loc
          && s'.pcs[x] == s.pcs[x] && s'.ms.held[x] == s.ms.held[x] && s'.ms.loc[x] == s.ms.loc[x]
          && (HasObject(s.ms, x) ==> HasObject(s'.ms, x) && s'.ms.heap[s.ms.held[x].obj.value] == s.ms.heap[s.ms.held[x].obj.value]))
  }

  lemma LinkElsewhere(s: State, s': State, r: nat)
    requires LinkInv(s.pcs, s.ms.held, s.ms.loc, s.ms.heap)
    requires forall x {:trigger Untouched(s, s', x)} :: x != r ==> Untouched(s, s', x)
    requires s'.pcs.Keys == s'.ms.held.Keys && Linked(s'.pcs, s'.ms.held, s'.ms.loc, s'.ms.heap, r)
    ensures LinkInv(s'.pcs, s'.ms.held, s'.ms.loc, s'.ms.heap)
  {
    forall x ensures Linked(s'.pcs, s'.ms.held, s'.ms.loc, s'.ms.heap, x) {
      assert Linked(s.pcs, s.ms.held, s.ms.loc, s.ms.heap, x);
      if x != r { assert Untouched(s, s', x); }
    }
  }

  lemma TakeChanLinks(s: State, r: nat, p: ProducerAct, s': State)
    requires MessageSide(s) == true && r in s.pcs && r in s.ms.held && Acquiring(s, r, p, s') == true
    requires p.TakeResponse? || p.TakeError?
    ensures LinkInv(s'.pcs, s'.ms.held, s'.ms.loc, s'.ms.heap)
  {
    assert Linked(s.pcs, s.ms.held, s.ms.loc, s.ms.heap, r);
    forall x | x != r ensures Untouched(s, s', x) { }
    LinkElsewhere(s, s', r);
  }

  lemma TakeObjectLinks(s: State, r: nat, p: ProducerAct, s': State)
    requires MessageSide(s) == true && r in s.pcs && r in s.ms.held && Acquiring(s, r, p, s') == true
    requires p.TakeObject?
    ensures LinkInv(s'.pcs, s'.ms.held, s'.ms.loc, s'.ms.heap)
  {
    assert Linked(s.pcs, s.ms.held, s.ms.loc, s.ms.heap, r);
    assert ObjectOk(s.ms.objPool, s.ms.heap, p.o);
    forall x | x != r ensures Untouched(s, s', x) { assert ObjectOwned(s.ms.held, s.ms.heap, x); }
    LinkElsewhere(s, s', r);
  }

  lemma TakeStreamLinks(s: State, r: nat, p: ProducerAct, s': State)
    requires MessageSide(s) == true && r in s.pcs && r in s.ms.held && Acquiring(s, r, p, s') == true
    requires p.TakeStream?
    ensures LinkInv(s'.pcs, s'.ms.held, s'.ms.loc, s'.ms.heap)
  {
    assert Linked(s.pcs, s.ms.held, s.ms.loc, s.ms.heap, r);
    assert ObjectOwned(s.ms.held, s.ms.heap, r);
    forall x | x != r ensures Untouched(s, s', x) { assert ObjectOwned(s.ms.held, s.ms.heap, x); }
    LinkElsewhere(s, s', r);
  }

  lemma AcquireKeeps(s: State, r: nat, p: ProducerAct, s': State)
    requires MessageSide(s) == true && r in s.pcs && r in s.ms.held && Acquiring(s, r, p, s') == true
    requires s.current.Some? ==> s.current.value < s.next
    ensures MessageSide(s') == true
  {
    assert Linked(s.pcs, s.ms.held, s.ms.loc, s.ms.heap, r);
    assert ProducerKnown(s.pcs, s.next, r);
    if p == LoadQueue {
      StepsPc(s, r, s'.pcs[r]);
    } else {
      TakeKeeps(s, r, p, s');
      MovesPc(s, r, s'.pcs[r]);
      if p.TakeObject? {
        TakeObjectLinks(s, r, p, s');
      } else if p.TakeStream? {
        TakeStreamLinks(s, r, p, s');
      } else {
        TakeChanLinks(s, r, p, s');
      }
    }
  }

  lemma TakeKeeps(s: State, r: nat, p: ProducerAct, s': State)
    requires MsgInv(s.ms) == true && r in s.pcs && r in s.ms.held && Acquiring(s, r, p, s') == true && p != LoadQueue
    requires Linked(s.pcs, s.ms.held, s.ms.loc, s.ms.heap, r)
    ensures MsgInv(s'.ms) == true && s'.closing == s.closing && s'.late == s.late && s'.next == s.next && s'.swept == s.swept
    ensures s'.ms.loc == s.ms.loc && s'.ms.bufs == s.ms.bufs && s'.ms.hands == s.ms.hands
  {
    match p {
      case TakeResponse(c) => GetChanKeeps(s.ms, r, c);
      case TakeError(c) => GetChanKeeps(s.ms, r, c);
      case TakeObject(o) => GetObjectKeeps(s.ms, r, o);
      case TakeStream(c) => GetStreamKeeps(s.ms, r, c);
      case _ =>
    }
  }

  lemma StepsPc(s: State, r: nat, pc: ProducerPc)
    requires MessageSide(s) == true && r in s.pcs && r in s.ms.held
    requires PcKnown(pc, s.next)
    requires pc.Sending? || pc.FoundFull? || pc.Recheck? ==> (pc.g in s.closing ==> pc.g in s.late && r in s.late[pc.g])
    requires Linked(s.pcs[r := pc], s.ms.held, s.ms.loc, s.ms.heap, r)
    ensures MessageSide(s.(pcs := s.pcs[r := pc])) == true
  {
    MovesPc(s, r, pc);
    var pcs' := s.pcs[r := pc];
    forall x ensures Linked(pcs', s.ms.held, s.ms.loc, s.ms.heap, x) { assert Linked(s.pcs, s.ms.held, s.ms.loc, s.ms.heap, x); }
  }

  lemma SendKeeps(s: State, r: nat, s': State)
    requires MessageSide(s) == true && r in s.pcs && r in s.ms.held && Enqueuing(s, r, Send, s') == true
    ensures MessageSide(s') == true
  {
    var g := s.pcs[r].g;
    assert Linked(s.pcs, s.ms.held, s.ms.loc, s.ms.heap, r) && LateOk(s.pcs, s.closing, s.late, r);
    EnqueueKeeps(s.ms, r, g);
    MovesPc(s, r, Waiting);
    SweptMoves(s.ms.loc, s.swept, s.late, s.closing, r, InQueue(g));
    BufsKnown(s.next, s.ms.bufs, g, s.ms.bufs[g] + [s.ms.held[r].obj.value]);
    forall x ensures Linked(s'.pcs, s'.ms.held, s'.ms.loc, s'.ms.heap, x) { assert Linked(s.pcs, s.ms.held, s.ms.loc, s.ms.heap, x); }
  }

  predicate HasMessage(pc: ProducerPc) {
    pc.Ready? || pc.Lookup? || pc.Candidate? || pc.Sending? || pc.FoundFull? || pc.Recheck?
  }

  /** A producer that has its message and has not sent it may move on or give it back. */
  lemma UnsentMoves(s: State, r: nat, pc: ProducerPc)
    requires MessageSide(s) == true && r in s.pcs && HasMessage(s.pcs[r])
    requires HasMessage(pc) || pc == Releasing(0)
    requires PcKnown(pc, s.next)
    requires pc.Sending? || pc.FoundFull? || pc.Recheck? ==> (pc.g in s.closing ==> pc.g in s.late && r in s.late[pc.g])
    ensures MessageSide(s.(pcs := s.pcs[r := pc])) == true
  {
    assert Linked(s.pcs, s.ms.held, s.ms.loc, s.ms.heap, r);
    StepsPc(s, r, pc);
  }

  lemma EnqueueStepKeeps(s: State, r: nat, p: ProducerAct, s': State)
    requires MessageSide(s) == true && r in s.pcs && r in s.ms.held && Enqueuing(s, r, p, s') == true
    ensures MessageSide(s') == true
  {
    if p == Send {
      SendKeeps(s, r, s');
    } else {
      assert ProducerKnown(s.pcs, s.next, r) && LateOk(s.pcs, s.closing, s.late, r);
      UnsentMoves(s, r, s'.pcs[r]);
      assert s' == s.(pcs := s.pcs[r := s'.pcs[r]]);
    }
  }

  lemma RouteKeeps(s: State, r: nat, p: ProducerAct, s': State)
    requires MessageSide(s) == true && r in s.pcs && r in s.ms.held && Routing(s, r, p, s') == true
    requires s.current.Some? ==> s.current.value < s.next
    ensures MessageSide(s') == true
  {
    assert ProducerKnown(s.pcs, s.next, r);
    UnsentMoves(s, r, s'.pcs[r]);
    assert s' == s.(pcs := s.pcs[r := s'.pcs[r]]);
  }

  lemma GetReplyKeeps(s: State, r: nat, k: Kind)
    requires MessageSide(s) == true && r in s.pcs && s.pcs[r] == Waiting && CanReceive(s.ms, r, k)
    ensures MessageSide(s.(pcs := s.pcs[r := Releasing(0)], ms := Receive(s.ms, r, k))) == true
  {
    var s' := s.(pcs := s.pcs[r := Releasing(0)], ms := Receive(s.ms, r, k));
    assert Linked(s.pcs, s.ms.held, s.ms.loc, s.ms.heap, r);
    ReceiveOwn(s.ms, r, k);
    ReceiveKeeps(s.ms, r, k);
    MovesPc(s, r, Releasing(0));
    SweptMoves(s.ms.loc, s.swept, s.late, s.closing, r, Answered(k, true));
    forall x | x != r ensures Untouched(s, s', x) { }
    LinkElsewhere(s, s', r);
  }

  lemma AwaitKeeps(s: State, r: nat, p: ProducerAct, s': State)
    requires MessageSide(s) == true && r in s.pcs && r in s.ms.held && Awaiting(s, r, p, s') == true
    ensures MessageSide(s') == true
  {
    if p.GetReply? {
      GetReplyKeeps(s, r, p.k);
    } else {
      assert Linked(s.pcs, s.ms.held, s.ms.loc, s.ms.heap, r);
      StepsPc(s, r, Left);
    }
  }

  function KindPut(put: nat): Kind {
    if put == 0 then ResponseKind else if put == 1 then ErrorKind else StreamKind
  }

  /** One channel goes back: the response channel, then the error channel, then the stream channel. */
  lemma PutChanSide(s: State, r: nat, put: nat)
    requires MessageSide(s) == true && r in s.pcs && r in s.ms.held && s.pcs[r] == Releasing(put) && put < 3
    requires s.ms.held[r].chan.At(KindPut(put)).Some?
    ensures MessageSide(s.(pcs := s.pcs[r := Releasing(put + 1)], ms := PutChan(s.ms, r, KindPut(put)))) == true
  {
    var s' := s.(pcs := s.pcs[r := Releasing(put + 1)], ms := PutChan(s.ms, r, KindPut(put)));
    assert Linked(s.pcs, s.ms.held, s.ms.loc, s.ms.heap, r);
    MovesPc(s, r, Releasing(put + 1));
    PutChanKeeps(s.ms, r, KindPut(put));
    forall x | x != r ensures Untouched(s, s', x) { }
    LinkElsewhere(s, s', r);
  }

  lemma SkipStreamSide(s: State, r: nat)
    requires MessageSide(s) == true && r in s.pcs && r in s.ms.held && s.pcs[r] == Releasing(2)
    requires s.ms.held[r].chan.stream == None
    ensures MessageSide(s.(pcs := s.pcs[r := Releasing(3)])) == true
  {
    assert Linked(s.pcs, s.ms.held, s.ms.loc, s.ms.heap, r);
    StepsPc(s, r, Releasing(3));
  }

  lemma PutObjectSide(s: State, r: nat)
    requires MessageSide(s) == true && r in s.pcs && s.pcs[r] == Releasing(3) && HasObject(s.ms, r)
    ensures MessageSide(s.(pcs := s.pcs[r := Finished], ms := PutObject(s.ms, r))) == true
  {
    var s' := s.(pcs := s.pcs[r := Finished], ms := PutObject(s.ms, r));
    assert Linked(s.pcs, s.ms.held, s.ms.loc, s.ms.heap, r) && ObjectOwned(s.ms.held, s.ms.heap, r);
    MovesPc(s, r, Finished);
    PutObjectKeeps(s.ms, r);
    forall x | x != r ensures Untouched(s, s', x) { assert ObjectOwned(s.ms.held, s.ms.heap, x); }
    LinkElsewhere(s, s', r);
  }

  lemma ReleaseKeeps(s: State, r: nat, p: ProducerAct, s': State)
    requires MessageSide(s) == true && r in s.pcs && r in s.ms.held && Releases(s, r, p, s') == true
    ensures MessageSide(s') == true
  {
    hide MessageSide;
    match p
    case ReleaseResponse => PutChanSide(s, r, 0);
    case ReleaseError => PutChanSide(s, r, 1);
    case ReleaseStream => PutChanSide(s, r, 2);
    case SkipStream => SkipStreamSide(s, r);
    case ReleaseObject => PutObjectSide(s, r);
    case _ =>
  }

  lemma ProducerStartKeeps(s: State, r: nat, p: ProducerAct, s': State)
    requires MessageSide(s) == true && Producing(s, r, p, s') == true
    requires s.current.Some? ==> s.current.value < s.next
    requires p.Arrive? || p.LoadQueue? || p.TakeResponse? || p.TakeError? || p.TakeObject? || p.TakeStream?
             || p.CheckClosing? || p.LookupAgain? || p.CheckCandidate?
    ensures MessageSide(s') == true
  {
    hide MessageSide, Acquiring, Routing, Enqueuing, Awaiting, Releases;
    match p
    case Arrive(isStream) => ArriveKeeps(s, r, isStream, s');
    case CheckClosing | LookupAgain | CheckCandidate => RouteKeeps(s, r, p, s');
    case _ => AcquireKeeps(s, r, p, s');
  }

  lemma ProducerKeepsMessages(s: State, r: nat, p: ProducerAct, s': State)
    requires MessageSide(s) == true && Producing(s, r, p, s') == true
    requires s.current.Some? ==> s.current.value < s.next
    ensures MessageSide(s') == true
  {
    hide MessageSide, Acquiring, Routing, Enqueuing, Awaiting, Releases;
    match p
    case Arrive(_) | LoadQueue | TakeResponse(_) | TakeError(_) | TakeObject(_) | TakeStream(_)
       | CheckClosing | LookupAgain | CheckCandidate => ProducerStartKeeps(s, r, p, s');
    case Send | SeeDone | SeeCancel | FindFull | Drop | NoDrop | CheckAgain => EnqueueStepKeeps(s, r, p, s');
    case GetReply(_) | Leave => AwaitKeeps(s, r, p, s');
    case _ => ReleaseKeeps(s, r, p, s');
  }

  // ----- Holders -----

  /** What a step of one holder leaves of the message side, its hand apart. */
  ghost predicate RestInv(s: State) {
    && CareInv(s, s.ms)
    && ProducersKnown(s.pcs, s.next)
    && LateInv(s.pcs, s.closing, s.late)
  }

  lemma Assemble(s: State)
    requires RestInv(s) == true
    requires HandInv(s.ms.hands, s.workers, s.mx, s.cleaners, s.shut)
    ensures MessageSide(s) == true
  {
  }

  lemma WorkerCare(s: State, w: nat, a: WorkerAct, s': State)
    requires MessageSide(s) == true && Working(s, w, a, s') == true
    ensures RestInv(s') == true
  {
    var me := Worker(w);
    assert HandBusy(s.ms.hands, s.workers, s.mx, s.cleaners, s.shut, me);
    assert CareInv(s, s.ms) == true;
    match a
    case TakeMessage | DrainTake => DequeueCare(s, s.workers[w].gen, me);
    case WorkerReply(k) => ReplyCare(s, me, k);
    case Abandon => GiveUpCare(s, me, true);
    case TimeOut(_) | DrainSkip => GiveUpCare(s, me, false);
    case DrainReply => ReplyCare(s, me, ErrorKind);
    case WorkerSeesDone | Exit =>
  }

  lemma WorkerHand(s: State, w: nat, a: WorkerAct, s': State)
    requires HandInv(s.ms.hands, s.workers, s.mx, s.cleaners, s.shut) && Working(s, w, a, s') == true
    ensures w in s'.workers && (Worker(w) in s'.ms.hands <==> s'.workers[w].pc == Busy || s'.workers[w].pc == DrainHolding)
    ensures s'.mx == s.mx && s'.cleaners == s.cleaners && s'.shut == s.shut && s'.workers == s.workers[w := s'.workers[w]]
    ensures s'.ms.hands - {Worker(w)} == s.ms.hands - {Worker(w)}
  {
    assert HandBusy(s.ms.hands, s.workers, s.mx, s.cleaners, s.shut, Worker(w));
  }

  lemma WorkerHands(s: State, w: nat, a: WorkerAct, s': State)
    requires HandInv(s.ms.hands, s.workers, s.mx, s.cleaners, s.shut) && Working(s, w, a, s') == true
    ensures HandInv(s'.ms.hands, s'.workers, s'.mx, s'.cleaners, s'.shut)
  {
    hide Working;
    WorkerHand(s, w, a, s');
    forall b ensures HandBusy(s'.ms.hands, s'.workers, s'.mx, s'.cleaners, s'.shut, b) {
      assert HandBusy(s.ms.hands, s.workers, s.mx, s.cleaners, s.shut, b);
      assert b != Worker(w) ==> (b in s'.ms.hands <==> b in s'.ms.hands - {Worker(w)});
    }
  }

  lemma WorkerKeepsMessages(s: State, w: nat, a: WorkerAct, s': State)
    requires MessageSide(s) == true && Working(s, w, a, s') == true
    ensures MessageSide(s') == true
  {
    WorkerCare(s, w, a, s');
    WorkerHands(s, w, a, s');
    Assemble(s');
  }

  lemma PrepareKeepsMessages(s: State, p: PrepareAct, s': State)
    requires Inv(s) == true && Prepares(s, p, s') == true
    ensures MessageSide(s') == true
  {
    if p.StoreQueue? { NewGenerationSide(s, p.cap); }
    forall b ensures HandBusy(s'.ms.hands, s'.workers, s'.mx, s'.cleaners, s'.shut, b) {
      assert HandBusy(s.ms.hands, s.workers, s.mx, s.cleaners, s.shut, b);
      if p.PrepareSpawns? { assert HandBusy(s.ms.hands, s.workers, s.mx, s.cleaners, s.shut, Worker(p.w)); }
    }
  }

  lemma PublishRest(s: State, u: UpdateAct, s': State)
    requires Inv(s) == true && s.mx.Updating? && Publishes(s, u, s') == true
    ensures RestInv(s') == true
  {
    if u.AllocateNew? {
      NewGenerationSide(s, u.cap);
      SameRest(NewGeneration(s, u.cap), s');
    } else {
      RestFrame(s, s');
    }
  }

  lemma PublishHands(s: State, u: UpdateAct, s': State)
    requires HandInv(s.ms.hands, s.workers, s.mx, s.cleaners, s.shut) && s.mx.Updating? && Publishes(s, u, s') == true
    ensures HandInv(s'.ms.hands, s'.workers, s'.mx, s'.cleaners, s'.shut)
  {
    assert s'.ms.hands == s.ms.hands && s'.cleaners == s.cleaners && s'.shut == s.shut;
    forall b ensures HandBusy(s'.ms.hands, s'.workers, s'.mx, s'.cleaners, s'.shut, b) {
      assert HandBusy(s.ms.hands, s.workers, s.mx, s.cleaners, s.shut, b);
      if u.UpdateSpawns? { assert HandBusy(s.ms.hands, s.workers, s.mx, s.cleaners, s.shut, Worker(u.w)); }
    }
  }

  lemma PublishKeepsMessages(s: State, u: UpdateAct, s': State)
    requires Inv(s) == true && s.mx.Updating? && Publishes(s, u, s') == true
    ensures MessageSide(s') == true
  {
    PublishRest(s, u, s');
    PublishHands(s, u, s');
    Assemble(s');
  }

  lemma TransferTakeCare(s: State, u: UpdateAct, s': State)
    requires Inv(s) == true && s.mx.Updating? && Transfers(s, u, s') == true
    requires u == TransferTake || u == CancelTake
    ensures RestInv(s') == true
  {
    assert HandBusy(s.ms.hands, s.workers, s.mx, s.cleaners, s.shut, Updater);
    DequeueCare(s, s.mx.oldGen, Updater);
  }

  lemma TransferCare(s: State, u: UpdateAct, s': State)
    requires Inv(s) == true && s.mx.Updating? && Transfers(s, u, s') == true
    ensures RestInv(s') == true
  {
    assert CareInv(s, s.ms) == true;
    match u
    case TransferTake | CancelTake => TransferTakeCare(s, u, s');
    case TransferMove => RequeueCare(s, Updater, s.mx.newGen);
    case CancelReply => ReplyCare(s, Updater, ErrorKind);
    case CancelSkip => GiveUpCare(s, Updater, false);
    case _ =>
  }

  lemma TransferHands(s: State, u: UpdateAct, s': State)
    requires HandInv(s.ms.hands, s.workers, s.mx, s.cleaners, s.shut) && s.mx.Updating? && Transfers(s, u, s') == true
    ensures HandInv(s'.ms.hands, s'.workers, s'.mx, s'.cleaners, s'.shut)
  {
    assert HandBusy(s.ms.hands, s.workers, s.mx, s.cleaners, s.shut, Updater);
    assert s'.workers == s.workers && s'.cleaners == s.cleaners && s'.shut == s.shut && s'.mx.Updating?;
    assert s'.ms.hands - {Updater} == s.ms.hands - {Updater};
    forall b ensures HandBusy(s'.ms.hands, s'.workers, s'.mx, s'.cleaners, s'.shut, b) {
      assert HandBusy(s.ms.hands, s.workers, s.mx, s.cleaners, s.shut, b);
    }
  }

  lemma TransferKeepsMessages(s: State, u: UpdateAct, s': State)
    requires Inv(s) == true && s.mx.Updating? && Transfers(s, u, s') == true
    ensures MessageSide(s') == true
  {
    TransferCare(s, u, s');
    TransferHands(s, u, s');
    Assemble(s');
  }

  /** Steps that touch no producer, message or flag. */
  lemma RestFrame(s: State, s': State)
    requires MessageSide(s) == true
    requires s'.ms == s.ms && s'.pcs == s.pcs && s'.closing == s.closing && s'.late == s.late && s'.swept == s.swept && s'.next == s.next
    ensures RestInv(s') == true
  {
  }

  lemma SameRest(s: State, s': State)
    requires RestInv(s) == true
    requires s'.ms == s.ms && s'.pcs == s.pcs && s'.closing == s.closing && s'.late == s.late && s'.swept == s.swept && s'.next == s.next
    ensures RestInv(s') == true
  {
  }

  lemma SetClosingRest(s: State, g: nat)
    requires MessageSide(s) == true && g !in s.closing
    ensures RestInv(SetClosing(s, g)) == true
  {
    SetClosingSide(s, g);
  }

  lemma RetireCare(s: State, u: UpdateAct, s': State)
    requires MessageSide(s) == true && s.mx.Updating? && Retires(s, u, s') == true
    ensures RestInv(s') == true
  {
    if u.UpdateSetsClosing? {
      SetClosingRest(s, s.mx.oldGen);
      SameRest(SetClosing(s, s.mx.oldGen), s');
    } else {
      RestFrame(s, s');
    }
  }

  lemma RetireFrame(s: State, u: UpdateAct, s': State)
    requires s.mx.Updating? && Retires(s, u, s') == true
    requires s.mx.oldGen in s.cleaners ==> s.cleaners[s.mx.oldGen].pc == Registered
    ensures s'.ms.hands == s.ms.hands && s'.workers == s.workers && s'.shut == s.shut && !s'.mx.Removing?
    ensures !BusyActor(s.workers, s.mx, s.cleaners, s.shut, Updater) && !BusyActor(s'.workers, s'.mx, s'.cleaners, s'.shut, Updater)
    ensures forall g: nat {:trigger g in s.cleaners} {:trigger g in s'.cleaners} ::
              g != s.mx.oldGen ==> (g in s'.cleaners <==> g in s.cleaners) && (g in s.cleaners ==> s'.cleaners[g] == s.cleaners[g])
    ensures s.mx.oldGen in s'.cleaners ==> s'.cleaners[s.mx.oldGen].pc != CleanHolding
  {
  }

  lemma RetireHands(s: State, u: UpdateAct, s': State)
    requires HandInv(s.ms.hands, s.workers, s.mx, s.cleaners, s.shut) && s.mx.Updating? && Retires(s, u, s') == true
    requires MutexOk(s.mx, s.current, s.currentWg, s.next, s.cleaners) == true
    ensures HandInv(s'.ms.hands, s'.workers, s'.mx, s'.cleaners, s'.shut)
  {
    assert s.mx.oldGen in s.cleaners ==> s.cleaners[s.mx.oldGen].pc == Registered;
    RetireFrame(s, u, s');
    hide Retires, MutexOk;
    forall b ensures HandBusy(s'.ms.hands, s'.workers, s'.mx, s'.cleaners, s'.shut, b) {
      assert HandBusy(s.ms.hands, s.workers, s.mx, s.cleaners, s.shut, b);
    }
  }

  lemma RetireKeepsMessages(s: State, u: UpdateAct, s': State)
    requires Inv(s) == true && s.mx.Updating? && Retires(s, u, s') == true
    ensures MessageSide(s') == true
  {
    RetireCare(s, u, s');
    RetireHands(s, u, s');
    Assemble(s');
  }

  lemma BeginUpdateKeepsMessages(s: State, s': State)
    requires MessageSide(s) == true && Updates(s, BeginUpdate, s') == true
    ensures MessageSide(s') == true
  {
    forall b ensures HandBusy(s'.ms.hands, s'.workers, s'.mx, s'.cleaners, s'.shut, b) {
      assert HandBusy(s.ms.hands, s.workers, s.mx, s.cleaners, s.shut, b);
    }
  }

  /** An update always finds a wait group to retire, so it never sweeps the old queue itself. */
  lemma NoSyncSweep(s: State, u: UpdateAct, s': State)
    requires MutexOk(s.mx, s.current, s.currentWg, s.next, s.cleaners) && s.mx.Updating?
    ensures s.mx.oldWg == Some(s.mx.oldGen) && !SyncSweeps(s, u, s')
  {
  }

  lemma UpdateKeepsMessages(s: State, u: UpdateAct, s': State)
    requires Inv(s) == true && Updates(s, u, s') == true
    ensures MessageSide(s') == true
  {
    hide Publishes, Transfers, Retires, SyncSweeps, MessageSide;
    match u
    case BeginUpdate => BeginUpdateKeepsMessages(s, s');
    case UpdateFails | AllocateNew(_) | StoreNewQueue | StoreNewWaitGroup | UpdateSpawns(_) | SpawnsEnd =>
      PublishKeepsMessages(s, u, s');
    case TransferTake | TransferMove | TransferFull | CancelReply | CancelSkip | CancelTake | CancelEnds | TransferEnds =>
      TransferKeepsMessages(s, u, s');
    case SyncTake | SyncReply | SyncSkip | SyncEnds => NoSyncSweep(s, u, s');
    case _ => RetireKeepsMessages(s, u, s');
  }

  lemma RemoveCare(s: State, a: RemoveAct, s': State)
    requires MessageSide(s) == true && Removes(s, a, s') == true
    ensures RestInv(s') == true
  {
    assert HandBusy(s.ms.hands, s.workers, s.mx, s.cleaners, s.shut, Remover);
    assert CareInv(s, s.ms) == true;
    match a
    case RemoveSetsClosing => SetClosingSide(s, s.mx.g);
    case RemoveTake => DequeueCare(s, s.mx.g, Remover);
    case RemoveReply => ReplyCare(s, Remover, ErrorKind);
    case RemoveSkip => GiveUpCare(s, Remover, false);
    case RemoveSweepEnds => EndSweepCare(s, s.mx.g);
    case _ =>
  }

  lemma RemoverBusy(s: State, a: RemoveAct, s': State)
    requires HandBusy(s.ms.hands, s.workers, s.mx, s.cleaners, s.shut, Remover) && Removes(s, a, s') == true
    ensures HandBusy(s'.ms.hands, s'.workers, s'.mx, s'.cleaners, s'.shut, Remover)
  {
  }

  lemma RemoveFrame(s: State, a: RemoveAct, s': State)
    requires Removes(s, a, s') == true
    ensures s'.workers == s.workers && s'.shut == s.shut && s'.cleaners == s.cleaners && !s.mx.Updating? && !s'.mx.Updating?
  {
  }

  lemma RemoveOtherHands(s: State, a: RemoveAct, s': State)
    requires Removes(s, a, s') == true
    ensures s'.ms.hands - {Remover} == s.ms.hands - {Remover}
  {
  }

  lemma RemoveHands(s: State, a: RemoveAct, s': State)
    requires HandInv(s.ms.hands, s.workers, s.mx, s.cleaners, s.shut) && Removes(s, a, s') == true
    ensures HandInv(s'.ms.hands, s'.workers, s'.mx, s'.cleaners, s'.shut)
  {
    assert HandBusy(s.ms.hands, s.workers, s.mx, s.cleaners, s.shut, Remover);
    RemoverBusy(s, a, s');
    RemoveFrame(s, a, s');
    RemoveOtherHands(s, a, s');
    hide Removes;
    forall b ensures HandBusy(s'.ms.hands, s'.workers, s'.mx, s'.cleaners, s'.shut, b) {
      assert HandBusy(s.ms.hands, s.workers, s.mx, s.cleaners, s.shut, b);
      assert b != Remover ==> (b in s'.ms.hands - {Remover} <==> b in s.ms.hands - {Remover});
    }
  }

  lemma RemoveKeepsMessages(s: State, a: RemoveAct, s': State)
    requires MessageSide(s) == true && Removes(s, a, s') == true
    ensures MessageSide(s') == true
  {
    RemoveCare(s, a, s');
    RemoveHands(s, a, s');
    Assemble(s');
  }

  lemma CleanCare(s: State, g: nat, a: CleanAct, s': State)
    requires MessageSide(s) == true && Cleans(s, g, a, s') == true
    ensures RestInv(s') == true
  {
    assert HandBusy(s.ms.hands, s.workers, s.mx, s.cleaners, s.shut, Cleaner(g));
    assert CareInv(s, s.ms) == true;
    var me := Cleaner(g);
    match a
    case CleanTake => DequeueCare(s, g, me);
    case CleanReply => ReplyCare(s, me, ErrorKind);
    case CleanSkip => GiveUpCare(s, me, false);
    case CleanSweepEnds => EndSweepCare(s, g);
    case _ =>
  }

  lemma CleanHands(s: State, g: nat, a: CleanAct, s': State)
    requires HandInv(s.ms.hands, s.workers, s.mx, s.cleaners, s.shut) && Cleans(s, g, a, s') == true
    ensures HandInv(s'.ms.hands, s'.workers, s'.mx, s'.cleaners, s'.shut)
  {
    assert HandBusy(s.ms.hands, s.workers, s.mx, s.cleaners, s.shut, Cleaner(g));
    assert s'.workers == s.workers && s'.mx == s.mx && s'.shut == s.shut && s'.cleaners == s.cleaners[g := s'.cleaners[g]];
    assert s'.ms.hands - {Cleaner(g)} == s.ms.hands - {Cleaner(g)};
    forall b ensures HandBusy(s'.ms.hands, s'.workers, s'.mx, s'.cleaners, s'.shut, b) {
      assert HandBusy(s.ms.hands, s.workers, s.mx, s.cleaners, s.shut, b);
    }
  }

  lemma CleanKeepsMessages(s: State, g: nat, a: CleanAct, s': State)
    requires MessageSide(s) == true && Cleans(s, g, a, s') == true
    ensures MessageSide(s') == true
  {
    CleanCare(s, g, a, s');
    CleanHands(s, g, a, s');
    Assemble(s');
  }

  lemma ShutCare(s: State, a: ShutAct, s': State)
    requires MessageSide(s) == true && ShutsDown(s, a, s') == true
    ensures RestInv(s') == true
  {
    assert HandBusy(s.ms.hands, s.workers, s.mx, s.cleaners, s.shut, Closer);
    assert CareInv(s, s.ms) == true;
    match a
    case ShutSetsClosing => SetClosingSide(s, s.shut.g);
    case ShutTake => DequeueCare(s, s.shut.g, Closer);
    case ShutReply => ReplyCare(s, Closer, ErrorKind);
    case ShutSkip => GiveUpCare(s, Closer, false);
    case ShutSweepEnds => EndSweepCare(s, s.shut.g);
    case _ =>
  }

  lemma CloserBusy(s: State, a: ShutAct, s': State)
    requires HandBusy(s.ms.hands, s.workers, s.mx, s.cleaners, s.shut, Closer) && ShutsDown(s, a, s') == true
    ensures HandBusy(s'.ms.hands, s'.workers, s'.mx, s'.cleaners, s'.shut, Closer)
  {
  }

  lemma ShutHands(s: State, a: ShutAct, s': State)
    requires HandInv(s.ms.hands, s.workers, s.mx, s.cleaners, s.shut) && ShutsDown(s, a, s') == true
    ensures HandInv(s'.ms.hands, s'.workers, s'.mx, s'.cleaners, s'.shut)
  {
    assert HandBusy(s.ms.hands, s.workers, s.mx, s.cleaners, s.shut, Closer);
    CloserBusy(s, a, s');
    assert s'.workers == s.workers && s'.mx == s.mx && s'.cleaners == s.cleaners;
    assert s'.ms.hands - {Closer} == s.ms.hands - {Closer};
    hide ShutsDown;
    forall b ensures HandBusy(s'.ms.hands, s'.workers, s'.mx, s'.cleaners, s'.shut, b) {
      assert HandBusy(s.ms.hands, s.workers, s.mx, s.cleaners, s.shut, b);
    }
  }

  lemma ShutKeepsMessages(s: State, a: ShutAct, s': State)
    requires MessageSide(s) == true && ShutsDown(s, a, s') == true
    ensures MessageSide(s') == true
  {
    ShutCare(s, a, s');
    ShutHands(s, a, s');
    Assemble(s');
  }

  lemma EnvironmentKeepsMessages(s: State, e: EnvironmentAct, s': State)
    requires MessageSide(s) == true && Changes(s, e, s') == true
    ensures MessageSide(s') == true
  {
    match e
    case CancelRequest(r) => CancelKeeps(s.ms, r);
    case ForgetFromPools(cs, os) => ForgetPooledKeeps(s.ms, cs, os);
  }

  lemma CurrentKnown(s: State)
    requires MutexOk(s.mx, s.current, s.currentWg, s.next, s.cleaners)
    ensures s.current.Some? ==> s.current.value < s.next
  {
  }

  /** Every step keeps the message side. */
  lemma NextKeepsMessages(s: State, st: Step, s': State)
    requires Inv(s) == true && Next(s, st, s') == true
    ensures MessageSide(s') == true
  {
    hide MessageSide, Producing, Working, Prepares, Updates, Removes, Cleans, ShutsDown, Changes;
    match st
    case Produce(r, p) =>
      CurrentKnown(s);
      ProducerKeepsMessages(s, r, p, s');
    case Work(w, a) => WorkerKeepsMessages(s, w, a, s');
    case Prepare(p) => PrepareKeepsMessages(s, p, s');
    case Update(u) => UpdateKeepsMessages(s, u, s');
    case Remove(a) => RemoveKeepsMessages(s, a, s');
    case Clean(g, a) => CleanKeepsMessages(s, g, a, s');
    case Shut(a) => ShutKeepsMessages(s, a, s');
    case Environment(e) => EnvironmentKeepsMessages(s, e, s');
  }
}
