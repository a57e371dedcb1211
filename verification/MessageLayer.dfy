/**
 The pooled messages of the gateway, below the protocol that decides who touches them when.

 A request (numbered r) borrows a response channel, an error channel, for streams also a
 stream channel, and a ChannelMessage object from four shared pools.  The object's address
 travels through queues; whoever takes it out writes an outcome to the channel that the
 object's fields name AT THAT MOMENT, so an object or a channel that went back to its pool too
 early would carry one request's outcome to another.  Every operation below is one atomic
 action of core/bifrost.go; each channel holds at most one value.

 The owners, loc and tally are bookkeeping that no action reads.
 */
module MessageLayer {
  import opened Wrappers

  datatype Kind = ResponseKind | ErrorKind | StreamKind

  datatype Chan = Chan(kind: Kind, id: nat)

  /** Who may use a pooled thing: nobody while it lies in a pool, else one request. */
  datatype Owner = Pooled | OwnedBy(r: nat)

  /** The three channel fields, None standing for nil. */
  datatype Fields = Fields(response: Option<Chan>, error: Option<Chan>, stream: Option<Chan>) {
    function At(k: Kind): Option<Chan> {
      match k
      case ResponseKind => response
      case ErrorKind => error
      case StreamKind => stream
    }

    function With(k: Kind, c: Option<Chan>): Fields {
      match k
      case ResponseKind => this.(response := c)
      case ErrorKind => this.(error := c)
      case StreamKind => this.(stream := c)
    }

    /** All the fields a request of this sort uses are set. */
    predicate Full(isStream: bool) {
      response.Some? && error.Some? && (stream.Some? <==> isStream)
    }
  }

  const NIL := Fields(None, None, None)

  /** A ChannelMessage object: the request it carries and its channel fields. */
  datatype Object = Object(req: nat, chan: Fields, owner: Owner)

  /** Everyone who can hold a message taken out of a queue. */
  datatype Actor = Worker(w: nat) | Updater | Remover | Cleaner(g: nat) | Closer

  /** A message in hand: the object's address and the request read from it on receipt. */
  datatype Hand = Hand(obj: nat, req: nat)

  /** What a request has borrowed. */
  datatype Holding = Holding(isStream: bool, chan: Fields, obj: Option<nat>)

  datatype Loc =
    | Unsent
    | InQueue(g: nat)
    | InHand(a: Actor)
    | Answered(k: Kind, received: bool)
    | Dropped(billed: bool)

  /** replies: values ever put on the request's channels; hooks: runs of its post-hooks;
      got: the request whose outcome the caller received. */
  datatype Tally = Tally(replies: nat, hooks: nat, got: Option<nat>)

  /** content maps each channel whose buffer is full to the request whose outcome is in it. */
  datatype MsgState = MsgState(
    held: map<nat, Holding>,
    cancelled: set<nat>,
    loc: map<nat, Loc>,
    tally: map<nat, Tally>,
    owner: map<Chan, Owner>,
    content: map<Chan, nat>,
    heap: map<nat, Object>,
    chanPool: set<Chan>,
    objPool: set<nat>,
    bufs: map<nat, seq<nat>>,
    hands: map<Actor, Hand>)

  const INITIAL := MsgState(map[], {}, map[], map[], map[], map[], map[], {}, {}, map[], map[])

  // ----- Producers: acquiring, sending, receiving, leaving, releasing -----

  function NewRequest(s: MsgState, r: nat, isStream: bool): MsgState {
    s.(held := s.held[r := Holding(isStream, NIL, None)],
    loc := s.loc[r := Unsent],
    tally := s.tally[r := Tally(0, 0, None)])
  }

  predicate CanGetChan(s: MsgState, c: Chan) {
    c in s.chanPool || c !in s.owner
  }

  /** Take a channel from its pool, or a new one, and empty it. */
  function GetChan(s: MsgState, r: nat, c: Chan): MsgState
    requires r in s.held
  {
    var h := s.held[r];
    s.(held := s.held[r := h.(chan := h.chan.With(c.kind, Some(c)))],
    owner := s.owner[c := OwnedBy(r)],
    content := s.content - {c},
    chanPool := s.chanPool - {c})
  }

  predicate CanGetObject(s: MsgState, o: nat) {
    o in s.objPool || o !in s.heap
  }

  /** Take a message object and point its fields at the channels held so far. */
  function GetObject(s: MsgState, r: nat, o: nat): MsgState
    requires r in s.held
  {
    var h := s.held[r];
    s.(held := s.held[r := h.(obj := Some(o))],
    heap := s.heap[o := Object(r, h.chan, OwnedBy(r))],
    objPool := s.objPool - {o})
  }

  predicate HasObject(s: MsgState, r: nat) {
    r in s.held && s.held[r].obj.Some? && s.held[r].obj.value in s.heap
  }

  /** A stream request also takes a stream channel and stores it in the object it holds. */
  function GetStream(s: MsgState, r: nat, c: Chan): MsgState
    requires HasObject(s, r)
  {
    var o := s.held[r].obj.value;
    GetChan(s, r, c).(heap := s.heap[o := s.heap[o].(chan := s.heap[o].chan.With(c.kind, Some(c)))])
  }

  predicate CanEnqueue(s: MsgState, r: nat, g: nat) {
    r in s.held && s.held[r].obj.Some? && g in s.bufs
  }

  function Enqueue(s: MsgState, r: nat, g: nat): MsgState
    requires CanEnqueue(s, r, g)
  {
    s.(loc := s.loc[r := InQueue(g)],
    bufs := s.bufs[g := s.bufs[g] + [s.held[r].obj.value]])
  }

  /** A request waits on the channels named by the fields of its own object. */
  predicate CanReceive(s: MsgState, r: nat, k: Kind) {
    && HasObject(s, r) && r in s.tally
    && s.heap[s.held[r].obj.value].chan.At(k).Some?
    && s.heap[s.held[r].obj.value].chan.At(k).value in s.content
  }

  /** The caller takes a reply.  Post-hooks run here unless the reply is a stream, whose hooks
      run chunk by chunk elsewhere. */
  function Receive(s: MsgState, r: nat, k: Kind): MsgState
    requires CanReceive(s, r, k)
  {
    var c := s.heap[s.held[r].obj.value].chan.At(k).value;
    var hooks := if k == StreamKind then s.tally[r].hooks else s.tally[r].hooks + 1;
    s.(loc := s.loc[r := Answered(k, true)],
    tally := s.tally[r := s.tally[r].(got := Some(s.content[c]), hooks := hooks)],
    content := s.content - {c})
  }

  function Cancel(s: MsgState, r: nat): MsgState {
    s.(cancelled := s.cancelled + {r})
  }

  /** Put one channel back.  Only a stream channel is emptied first. */
  function PutChan(s: MsgState, r: nat, k: Kind): MsgState
    requires r in s.held && s.held[r].chan.At(k).Some?
  {
    var h := s.held[r];
    var c := h.chan.At(k).value;
    s.(held := s.held[r := h.(chan := h.chan.With(k, None))],
    owner := s.owner[c := Pooled],
    content := if k == StreamKind then s.content - {c} else s.content,
    chanPool := s.chanPool + {c})
  }

  /** Clear the object's fields and put it back. */
  function PutObject(s: MsgState, r: nat): MsgState
    requires HasObject(s, r)
  {
    var o := s.held[r].obj.value;
    s.(held := s.held[r := s.held[r].(obj := None)],
    heap := s.heap[o := Object(s.heap[o].req, NIL, Pooled)],
    objPool := s.objPool + {o})
  }

  /** sync.Pool may forget what it holds. */
  function ForgetPooled(s: MsgState, cs: set<Chan>, os: set<nat>): MsgState {
    s.(chanPool := s.chanPool - cs, objPool := s.objPool - os)
  }

  function AddQueue(s: MsgState, g: nat): MsgState {
    s.(bufs := s.bufs[g := []])
  }

  // ----- Whoever takes messages out of queues -----

  predicate CanDequeue(s: MsgState, g: nat) {
    g in s.bufs && s.bufs[g] != [] && s.bufs[g][0] in s.heap
  }

  function Dequeue(s: MsgState, g: nat, a: Actor): MsgState
    requires CanDequeue(s, g)
  {
    var o := s.bufs[g][0];
    var r := s.heap[o].req;
    s.(loc := s.loc[r := InHand(a)],
    bufs := s.bufs[g := s.bufs[g][1..]],
    hands := s.hands[a := Hand(o, r)])
  }

  /** The updater moves the message in its hand to another queue. */
  function Requeue(s: MsgState, a: Actor, g: nat): MsgState
    requires a in s.hands && g in s.bufs
  {
    s.(loc := s.loc[s.hands[a].req := InQueue(g)],
    bufs := s.bufs[g := s.bufs[g] + [s.hands[a].obj]],
    hands := s.hands - {a})
  }

  /** The send case of a reply is ready: the field is not nil and the buffer has room. */
  predicate CanReply(s: MsgState, a: Actor, k: Kind) {
    && a in s.hands && s.hands[a].obj in s.heap && s.hands[a].req in s.tally
    && s.heap[s.hands[a].obj].chan.At(k).Some?
    && s.heap[s.hands[a].obj].chan.At(k).value !in s.content
  }

  /** Write the outcome produced for the message in hand to the channel its object names now. */
  function Reply(s: MsgState, a: Actor, k: Kind): MsgState
    requires CanReply(s, a, k)
  {
    var r := s.hands[a].req;
    var c := s.heap[s.hands[a].obj].chan.At(k).value;
    s.(loc := s.loc[r := Answered(k, false)],
    tally := s.tally[r := s.tally[r].(replies := s.tally[r].replies + 1)],
    content := s.content[c := r],
    hands := s.hands - {a})
  }

  predicate CanGiveUp(s: MsgState, a: Actor) {
    a in s.hands && s.hands[a].req in s.tally && s.hands[a].req in s.held
  }

  /** Stop caring for the message in hand; bill runs the terminal post-hooks of an abandoned
      request, which a stream skips. */
  function GiveUp(s: MsgState, a: Actor, bill: bool): MsgState
    requires CanGiveUp(s, a)
  {
    var r := s.hands[a].req;
    var runs := bill && !s.held[r].isStream;
    var hooks := if runs then s.tally[r].hooks + 1 else s.tally[r].hooks;
    s.(loc := s.loc[r := Dropped(runs)],
    tally := s.tally[r := s.tally[r].(hooks := hooks)],
    hands := s.hands - {a})
  }

  // ----- The invariant of the layer, one clause per request, channel, object, queue and hand -----

  ghost predicate NoRepeats(q: seq<nat>) {
    forall i, j :: 0 <= i < j < |q| ==> q[i] != q[j]
  }

  /** The object of r still points at all the channels r holds. */
  ghost predicate Intact(held: map<nat, Holding>, heap: map<nat, Object>, r: nat) {
    && r in held && held[r].obj.Some? && held[r].obj.value in heap
    && heap[held[r].obj.value].chan == held[r].chan
    && held[r].chan.Full(held[r].isStream)
  }

  /** Between the send and the receipt the message is in someone's care. */
  predicate InCare(loc: Loc) {
    loc.InQueue? || loc.InHand? || (loc.Answered? && !loc.received)
  }

  /** The channel borrowed under kind k is of that kind and has no other borrower. */
  ghost predicate Borrows(held: map<nat, Holding>, owner: map<Chan, Owner>, r: nat, k: Kind) {
    r in held && held[r].chan.At(k).Some? ==>
      var c := held[r].chan.At(k).value;
      c.kind == k && c in owner && owner[c] == OwnedBy(r)
  }

  ghost predicate ChansOwned(held: map<nat, Holding>, owner: map<Chan, Owner>, r: nat) {
    Borrows(held, owner, r, ResponseKind) && Borrows(held, owner, r, ErrorKind) && Borrows(held, owner, r, StreamKind)
  }

  ghost predicate ObjectOwned(held: map<nat, Holding>, heap: map<nat, Object>, r: nat) {
    r in held && held[r].obj.Some? ==>
      && held[r].obj.value in heap
      && heap[held[r].obj.value].owner == OwnedBy(r) && heap[held[r].obj.value].req == r
  }

  ghost predicate Tallied(loc: map<nat, Loc>, tally: map<nat, Tally>, r: nat) {
    r in loc ==>
      && r in tally
      && tally[r].replies == (if loc[r].Answered? then 1 else 0)
      && tally[r].hooks == (if (loc[r].Answered? && loc[r].received && loc[r].k != StreamKind) || (loc[r].Dropped? && loc[r].billed)
                            then 1 else 0)
      && tally[r].got == (if loc[r].Answered? && loc[r].received then Some(r) else None)
  }

  ghost predicate CaredFor(loc: map<nat, Loc>, held: map<nat, Holding>, heap: map<nat, Object>, r: nat) {
    r in loc && InCare(loc[r]) ==> Intact(held, heap, r)
  }

  /** What r's loc says about queues and hands is so. */
  ghost predicate Placed(loc: map<nat, Loc>, held: map<nat, Holding>, bufs: map<nat, seq<nat>>, hands: map<Actor, Hand>, r: nat) {
    r in loc ==>
      match loc[r]
      case InQueue(g) => g in bufs && r in held && held[r].obj.Some? && held[r].obj.value in bufs[g]
      case InHand(a) => a in hands && r in held && held[r].obj.Some? && hands[a] == Hand(held[r].obj.value, r)
      case _ => true
  }

  /** An answer not yet received lies in the channel of its kind. */
  ghost predicate Awaited(loc: map<nat, Loc>, held: map<nat, Holding>, content: map<Chan, nat>, r: nat) {
    r in loc && loc[r].Answered? && !loc[r].received ==>
      && r in held && held[r].chan.At(loc[r].k).Some?
      && held[r].chan.At(loc[r].k).value in content && content[held[r].chan.At(loc[r].k).value] == r
  }

  /** A full channel carries the outcome of the request that borrowed it and has not received it. */
  ghost predicate FullOk(content: map<Chan, nat>, loc: map<nat, Loc>, held: map<nat, Holding>, c: Chan) {
    c in content ==>
      && content[c] in loc && loc[content[c]] == Answered(c.kind, false)
      && content[c] in held && held[content[c]].chan.At(c.kind) == Some(c)
  }

  ghost predicate PooledOk(chanPool: set<Chan>, owner: map<Chan, Owner>, c: Chan) {
    c in chanPool ==> c in owner && owner[c] == Pooled
  }

  ghost predicate ObjectOk(objPool: set<nat>, heap: map<nat, Object>, o: nat) {
    o in objPool ==> o in heap && heap[o].owner == Pooled
  }

  ghost predicate QueuedOk(loc: map<nat, Loc>, held: map<nat, Holding>, heap: map<nat, Object>, o: nat, g: nat) {
    && o in heap && heap[o].req in held && heap[o].req in loc
    && held[heap[o].req].obj == Some(o)
    && loc[heap[o].req] == InQueue(g)
  }

  ghost predicate QueueOk(bufs: map<nat, seq<nat>>, loc: map<nat, Loc>, held: map<nat, Holding>, heap: map<nat, Object>, g: nat) {
    g in bufs ==>
      && NoRepeats(bufs[g])
      && forall i {:trigger bufs[g][i]} :: 0 <= i < |bufs[g]| ==> QueuedOk(loc, held, heap, bufs[g][i], g)
  }

  ghost predicate HandOk(hands: map<Actor, Hand>, loc: map<nat, Loc>, held: map<nat, Holding>, a: Actor) {
    a in hands ==>
      && hands[a].req in held && held[hands[a].req].obj == Some(hands[a].obj)
      && hands[a].req in loc && loc[hands[a].req] == InHand(a)
  }

  ghost predicate RequestsOk(s: MsgState) {
    && s.loc.Keys == s.held.Keys
    && (forall r {:trigger ChansOwned(s.held, s.owner, r)} :: ChansOwned(s.held, s.owner, r))
    && (forall r {:trigger ObjectOwned(s.held, s.heap, r)} :: ObjectOwned(s.held, s.heap, r))
    && (forall r {:trigger Tallied(s.loc, s.tally, r)} :: Tallied(s.loc, s.tally, r))
    && (forall r {:trigger CaredFor(s.loc, s.held, s.heap, r)} :: CaredFor(s.loc, s.held, s.heap, r))
    && (forall r {:trigger Placed(s.loc, s.held, s.bufs, s.hands, r)} :: Placed(s.loc, s.held, s.bufs, s.hands, r))
    && (forall r {:trigger Awaited(s.loc, s.held, s.content, r)} :: Awaited(s.loc, s.held, s.content, r))
  }

  ghost predicate StoresOk(s: MsgState) {
    && (forall c {:trigger FullOk(s.content, s.loc, s.held, c)} :: FullOk(s.content, s.loc, s.held, c))
    && (forall c {:trigger PooledOk(s.chanPool, s.owner, c)} :: PooledOk(s.chanPool, s.owner, c))
    && (forall o {:trigger ObjectOk(s.objPool, s.heap, o)} :: ObjectOk(s.objPool, s.heap, o))
    && (forall g {:trigger QueueOk(s.bufs, s.loc, s.held, s.heap, g)} :: QueueOk(s.bufs, s.loc, s.held, s.heap, g))
    && (forall a {:trigger HandOk(s.hands, s.loc, s.held, a)} :: HandOk(s.hands, s.loc, s.held, a))
  }

  ghost predicate MsgInv(s: MsgState) {
    RequestsOk(s) && StoresOk(s)
  }

  /** Everything the invariant says of one request. */
  lemma AboutRequest(s: MsgState, r: nat)
    requires MsgInv(s) && r in s.held
    ensures r in s.loc && r in s.tally
    ensures ChansOwned(s.held, s.owner, r) && ObjectOwned(s.held, s.heap, r) && Tallied(s.loc, s.tally, r)
    ensures CaredFor(s.loc, s.held, s.heap, r) && Placed(s.loc, s.held, s.bufs, s.hands, r) && Awaited(s.loc, s.held, s.content, r)
  {
    assert Tallied(s.loc, s.tally, r);
  }

  // ----- Every operation keeps the invariant -----

  lemma NewRequestKeepsRequests(s: MsgState, r: nat, isStream: bool)
    requires MsgInv(s) && r !in s.held
    ensures RequestsOk(NewRequest(s, r, isStream))
  {
    var s' := NewRequest(s, r, isStream);
    forall x ensures ChansOwned(s'.held, s'.owner, x) { assert ChansOwned(s.held, s.owner, x); }
    forall x ensures ObjectOwned(s'.held, s'.heap, x) { assert ObjectOwned(s.held, s.heap, x); }
    forall x ensures Tallied(s'.loc, s'.tally, x) { assert Tallied(s.loc, s.tally, x); }
    forall x ensures CaredFor(s'.loc, s'.held, s'.heap, x) { assert CaredFor(s.loc, s.held, s.heap, x); }
    forall x ensures Placed(s'.loc, s'.held, s'.bufs, s'.hands, x) { assert Placed(s.loc, s.held, s.bufs, s.hands, x); }
    forall x ensures Awaited(s'.loc, s'.held, s'.content, x) { assert Awaited(s.loc, s.held, s.content, x); }
  }

  lemma NewRequestKeepsStores(s: MsgState, r: nat, isStream: bool)
    requires MsgInv(s) && r !in s.held
    ensures StoresOk(NewRequest(s, r, isStream))
  {
    var s' := NewRequest(s, r, isStream);
    forall c ensures FullOk(s'.content, s'.loc, s'.held, c) { assert FullOk(s.content, s.loc, s.held, c); }
    forall g ensures QueueOk(s'.bufs, s'.loc, s'.held, s'.heap, g) { assert QueueOk(s.bufs, s.loc, s.held, s.heap, g); }
    forall a ensures HandOk(s'.hands, s'.loc, s'.held, a) { assert HandOk(s.hands, s.loc, s.held, a); }
  }

  lemma NewRequestKeeps(s: MsgState, r: nat, isStream: bool)
    requires MsgInv(s) && r !in s.held
    ensures MsgInv(NewRequest(s, r, isStream))
  {
    NewRequestKeepsRequests(s, r, isStream);
    NewRequestKeepsStores(s, r, isStream);
  }

  lemma GetChanKeepsRequests(s: MsgState, r: nat, c: Chan)
    requires MsgInv(s) && r in s.held && s.loc[r] == Unsent
    requires CanGetChan(s, c) && s.held[r].chan.At(c.kind) == None
    ensures RequestsOk(GetChan(s, r, c))
  {
    var s' := GetChan(s, r, c);
    assert PooledOk(s.chanPool, s.owner, c);
    forall x ensures ChansOwned(s'.held, s'.owner, x) { assert ChansOwned(s.held, s.owner, x); }
    forall x ensures ObjectOwned(s'.held, s'.heap, x) { assert ObjectOwned(s.held, s.heap, x); }
    forall x ensures CaredFor(s'.loc, s'.held, s'.heap, x) { assert CaredFor(s.loc, s.held, s.heap, x); }
    forall x ensures Placed(s'.loc, s'.held, s'.bufs, s'.hands, x) { assert Placed(s.loc, s.held, s.bufs, s.hands, x); }
    forall x ensures Awaited(s'.loc, s'.held, s'.content, x) {
      assert Awaited(s.loc, s.held, s.content, x) && ChansOwned(s.held, s.owner, x);
      if x in s.loc && s.loc[x].Answered? { assert Borrows(s.held, s.owner, x, s.loc[x].k); }
    }
  }

  lemma GetChanKeepsStores(s: MsgState, r: nat, c: Chan)
    requires MsgInv(s) && r in s.held && s.loc[r] == Unsent
    requires CanGetChan(s, c) && s.held[r].chan.At(c.kind) == None
    ensures StoresOk(GetChan(s, r, c))
  {
    var s' := GetChan(s, r, c);
    assert PooledOk(s.chanPool, s.owner, c);
    forall d ensures FullOk(s'.content, s'.loc, s'.held, d) { assert FullOk(s.content, s.loc, s.held, d); }
    forall d ensures PooledOk(s'.chanPool, s'.owner, d) { assert PooledOk(s.chanPool, s.owner, d); }
    forall g ensures QueueOk(s'.bufs, s'.loc, s'.held, s'.heap, g) { assert QueueOk(s.bufs, s.loc, s.held, s.heap, g); }
    forall a ensures HandOk(s'.hands, s'.loc, s'.held, a) { assert HandOk(s.hands, s.loc, s.held, a); }
  }

  lemma GetChanKeeps(s: MsgState, r: nat, c: Chan)
    requires MsgInv(s) && r in s.held && s.loc[r] == Unsent
    requires CanGetChan(s, c) && s.held[r].chan.At(c.kind) == None
    ensures MsgInv(GetChan(s, r, c))
  {
    GetChanKeepsRequests(s, r, c);
    GetChanKeepsStores(s, r, c);
  }

  /** An object no request holds is in no queue. */
  lemma QueueAvoids(s: MsgState, g: nat, o: nat)
    requires MsgInv(s) && CanGetObject(s, o) && g in s.bufs
    ensures o !in s.bufs[g]
  {
    assert QueueOk(s.bufs, s.loc, s.held, s.heap, g) && ObjectOk(s.objPool, s.heap, o);
    if o in s.heap {
      assert ObjectOwned(s.held, s.heap, s.heap[o].req);
    }
  }

  lemma GetObjectKeepsRequests(s: MsgState, r: nat, o: nat)
    requires MsgInv(s) && r in s.held && s.loc[r] == Unsent && s.held[r].obj == None
    requires CanGetObject(s, o)
    ensures RequestsOk(GetObject(s, r, o))
  {
    var s' := GetObject(s, r, o);
    assert ObjectOk(s.objPool, s.heap, o);
    forall x ensures ChansOwned(s'.held, s'.owner, x) { assert ChansOwned(s.held, s.owner, x); }
    forall x ensures ObjectOwned(s'.held, s'.heap, x) { assert ObjectOwned(s.held, s.heap, x); }
    forall x ensures CaredFor(s'.loc, s'.held, s'.heap, x) {
      assert CaredFor(s.loc, s.held, s.heap, x) && ObjectOwned(s.held, s.heap, x);
    }
    forall x ensures Placed(s'.loc, s'.held, s'.bufs, s'.hands, x) { assert Placed(s.loc, s.held, s.bufs, s.hands, x); }
    forall x ensures Awaited(s'.loc, s'.held, s'.content, x) { assert Awaited(s.loc, s.held, s.content, x); }
  }

  lemma GetObjectKeepsStores(s: MsgState, r: nat, o: nat)
    requires MsgInv(s) && r in s.held && s.loc[r] == Unsent && s.held[r].obj == None
    requires CanGetObject(s, o)
    ensures StoresOk(GetObject(s, r, o))
  {
    var s' := GetObject(s, r, o);
    assert ObjectOk(s.objPool, s.heap, o);
    forall d ensures FullOk(s'.content, s'.loc, s'.held, d) { assert FullOk(s.content, s.loc, s.held, d); }
    forall p ensures ObjectOk(s'.objPool, s'.heap, p) { assert ObjectOk(s.objPool, s.heap, p); }
    forall g ensures QueueOk(s'.bufs, s'.loc, s'.held, s'.heap, g) {
      assert QueueOk(s.bufs, s.loc, s.held, s.heap, g);
      if g in s.bufs { QueueAvoids(s, g, o); }
    }
    forall a ensures HandOk(s'.hands, s'.loc, s'.held, a) { assert HandOk(s.hands, s.loc, s.held, a); }
  }

  lemma GetObjectKeeps(s: MsgState, r: nat, o: nat)
    requires MsgInv(s) && r in s.held && s.loc[r] == Unsent && s.held[r].obj == None
    requires CanGetObject(s, o)
    ensures MsgInv(GetObject(s, r, o))
  {
    GetObjectKeepsRequests(s, r, o);
    GetObjectKeepsStores(s, r, o);
  }

  /** The stream channel stored in the object, on its own. */
  lemma SetFieldKeeps(s: MsgState, r: nat, k: Kind, c: Chan)
    requires MsgInv(s) && HasObject(s, r) && s.loc[r] == Unsent
    ensures
      var o := s.held[r].obj.value;
      MsgInv(s.(heap := s.heap[o := s.heap[o].(chan := s.heap[o].chan.With(k, Some(c)))]))
  {
    var o := s.held[r].obj.value;
    var s' := s.(heap := s.heap[o := s.heap[o].(chan := s.heap[o].chan.With(k, Some(c)))]);
    assert ObjectOwned(s.held, s.heap, r);
    forall x ensures ObjectOwned(s'.held, s'.heap, x) { assert ObjectOwned(s.held, s.heap, x); }
    forall x ensures CaredFor(s'.loc, s'.held, s'.heap, x) {
      assert CaredFor(s.loc, s.held, s.heap, x) && ObjectOwned(s.held, s.heap, x);
    }
    forall p ensures ObjectOk(s'.objPool, s'.heap, p) { assert ObjectOk(s.objPool, s.heap, p); }
    forall g ensures QueueOk(s'.bufs, s'.loc, s'.held, s'.heap, g) { assert QueueOk(s.bufs, s.loc, s.held, s.heap, g); }
  }

  lemma GetStreamKeeps(s: MsgState, r: nat, c: Chan)
    requires MsgInv(s) && HasObject(s, r) && s.loc[r] == Unsent
    requires CanGetChan(s, c) && s.held[r].chan.At(c.kind) == None
    ensures MsgInv(GetStream(s, r, c))
  {
    GetChanKeeps(s, r, c);
    SetFieldKeeps(GetChan(s, r, c), r, c.kind, c);
  }

  lemma EnqueueKeeps(s: MsgState, r: nat, g: nat)
    requires MsgInv(s) && CanEnqueue(s, r, g) && s.loc[r] == Unsent && Intact(s.held, s.heap, r)
    ensures MsgInv(Enqueue(s, r, g))
  {
    var s' := Enqueue(s, r, g);
    AboutRequest(s, r);
    forall x ensures Tallied(s'.loc, s'.tally, x) { assert Tallied(s.loc, s.tally, x); }
    forall x ensures CaredFor(s'.loc, s'.held, s'.heap, x) { assert CaredFor(s.loc, s.held, s.heap, x); }
    forall x ensures Placed(s'.loc, s'.held, s'.bufs, s'.hands, x) { assert Placed(s.loc, s.held, s.bufs, s.hands, x); }
    forall x ensures Awaited(s'.loc, s'.held, s'.content, x) { assert Awaited(s.loc, s.held, s.content, x); }
    forall c ensures FullOk(s'.content, s'.loc, s'.held, c) { assert FullOk(s.content, s.loc, s.held, c); }
    forall q ensures QueueOk(s'.bufs, s'.loc, s'.held, s'.heap, q) { assert QueueOk(s.bufs, s.loc, s.held, s.heap, q); }
    forall a ensures HandOk(s'.hands, s'.loc, s'.held, a) { assert HandOk(s.hands, s.loc, s.held, a); }
  }

  /** A caller whose object is intact can only find its own reply. */
  lemma ReceiveOwn(s: MsgState, r: nat, k: Kind)
    requires MsgInv(s) && CanReceive(s, r, k) && Intact(s.held, s.heap, r)
    ensures s.loc[r] == Answered(k, false) && s.content[s.heap[s.held[r].obj.value].chan.At(k).value] == r
  {
    var c := s.heap[s.held[r].obj.value].chan.At(k).value;
    AboutRequest(s, r);
    assert Borrows(s.held, s.owner, r, k) && FullOk(s.content, s.loc, s.held, c);
    AboutRequest(s, s.content[c]);
    assert Borrows(s.held, s.owner, s.content[c], k);
  }

  lemma ReceiveKeepsRequests(s: MsgState, r: nat, k: Kind)
    requires MsgInv(s) && CanReceive(s, r, k) && Intact(s.held, s.heap, r)
    ensures RequestsOk(Receive(s, r, k))
  {
    var s' := Receive(s, r, k);
    ReceiveOwn(s, r, k);
    AboutRequest(s, r);
    forall x ensures Tallied(s'.loc, s'.tally, x) { assert Tallied(s.loc, s.tally, x); }
    forall x ensures CaredFor(s'.loc, s'.held, s'.heap, x) { assert CaredFor(s.loc, s.held, s.heap, x); }
    forall x ensures Placed(s'.loc, s'.held, s'.bufs, s'.hands, x) { assert Placed(s.loc, s.held, s.bufs, s.hands, x); }
    forall x ensures Awaited(s'.loc, s'.held, s'.content, x) { assert Awaited(s.loc, s.held, s.content, x); }
  }

  lemma ReceiveKeepsStores(s: MsgState, r: nat, k: Kind)
    requires MsgInv(s) && CanReceive(s, r, k) && Intact(s.held, s.heap, r)
    ensures StoresOk(Receive(s, r, k))
  {
    var s' := Receive(s, r, k);
    ReceiveOwn(s, r, k);
    AboutRequest(s, r);
    forall c ensures FullOk(s'.content, s'.loc, s'.held, c) { assert FullOk(s.content, s.loc, s.held, c); }
    forall q ensures QueueOk(s'.bufs, s'.loc, s'.held, s'.heap, q) { assert QueueOk(s.bufs, s.loc, s.held, s.heap, q); }
    forall a ensures HandOk(s'.hands, s'.loc, s'.held, a) { assert HandOk(s.hands, s.loc, s.held, a); }
  }

  lemma ReceiveKeeps(s: MsgState, r: nat, k: Kind)
    requires MsgInv(s) && CanReceive(s, r, k) && Intact(s.held, s.heap, r)
    ensures MsgInv(Receive(s, r, k))
  {
    ReceiveKeepsRequests(s, r, k);
    ReceiveKeepsStores(s, r, k);
  }

  lemma CancelKeeps(s: MsgState, r: nat)
    requires MsgInv(s)
    ensures MsgInv(Cancel(s, r))
  {
  }

  /** A request that has nothing in care puts back empty channels only. */
  lemma PutEmpty(s: MsgState, r: nat, k: Kind)
    requires MsgInv(s) && r in s.held && s.held[r].chan.At(k).Some? && !InCare(s.loc[r])
    ensures s.held[r].chan.At(k).value !in s.content
  {
    var c := s.held[r].chan.At(k).value;
    AboutRequest(s, r);
    assert Borrows(s.held, s.owner, r, k);
    assert FullOk(s.content, s.loc, s.held, c);
    assert c in s.content ==> Borrows(s.held, s.owner, s.content[c], c.kind) by {
      if c in s.content { assert ChansOwned(s.held, s.owner, s.content[c]); }
    }
  }

  lemma PutChanKeepsRequests(s: MsgState, r: nat, k: Kind)
    requires MsgInv(s) && r in s.held && s.held[r].chan.At(k).Some? && !InCare(s.loc[r])
    ensures RequestsOk(PutChan(s, r, k))
  {
    var s' := PutChan(s, r, k);
    PutEmpty(s, r, k);
    AboutRequest(s, r);
    assert Borrows(s.held, s.owner, r, k);
    assert s'.content == s.content;
    forall x ensures ChansOwned(s'.held, s'.owner, x) { assert ChansOwned(s.held, s.owner, x); }
    forall x ensures ObjectOwned(s'.held, s'.heap, x) { assert ObjectOwned(s.held, s.heap, x); }
    forall x ensures CaredFor(s'.loc, s'.held, s'.heap, x) { assert CaredFor(s.loc, s.held, s.heap, x); }
    forall x ensures Placed(s'.loc, s'.held, s'.bufs, s'.hands, x) { assert Placed(s.loc, s.held, s.bufs, s.hands, x); }
    forall x ensures Awaited(s'.loc, s'.held, s'.content, x) { assert Awaited(s.loc, s.held, s.content, x); }
  }

  lemma PutChanKeepsStores(s: MsgState, r: nat, k: Kind)
    requires MsgInv(s) && r in s.held && s.held[r].chan.At(k).Some? && !InCare(s.loc[r])
    ensures StoresOk(PutChan(s, r, k))
  {
    var s' := PutChan(s, r, k);
    PutEmpty(s, r, k);
    AboutRequest(s, r);
    assert Borrows(s.held, s.owner, r, k);
    assert s'.content == s.content;
    forall d ensures FullOk(s'.content, s'.loc, s'.held, d) { assert FullOk(s.content, s.loc, s.held, d); }
    forall d ensures PooledOk(s'.chanPool, s'.owner, d) { assert PooledOk(s.chanPool, s.owner, d); }
    forall g ensures QueueOk(s'.bufs, s'.loc, s'.held, s'.heap, g) { assert QueueOk(s.bufs, s.loc, s.held, s.heap, g); }
    forall a ensures HandOk(s'.hands, s'.loc, s'.held, a) { assert HandOk(s.hands, s.loc, s.held, a); }
  }

  lemma PutChanKeeps(s: MsgState, r: nat, k: Kind)
    requires MsgInv(s) && r in s.held && s.held[r].chan.At(k).Some? && !InCare(s.loc[r])
    ensures MsgInv(PutChan(s, r, k))
  {
    PutChanKeepsRequests(s, r, k);
    PutChanKeepsStores(s, r, k);
  }

  lemma PutObjectKeepsRequests(s: MsgState, r: nat)
    requires MsgInv(s) && HasObject(s, r) && !InCare(s.loc[r])
    ensures RequestsOk(PutObject(s, r))
  {
    var s' := PutObject(s, r);
    AboutRequest(s, r);
    forall x ensures ChansOwned(s'.held, s'.owner, x) { assert ChansOwned(s.held, s.owner, x); }
    forall x ensures ObjectOwned(s'.held, s'.heap, x) { assert ObjectOwned(s.held, s.heap, x); }
    forall x ensures CaredFor(s'.loc, s'.held, s'.heap, x) {
      assert CaredFor(s.loc, s.held, s.heap, x) && ObjectOwned(s.held, s.heap, x);
    }
    forall x ensures Placed(s'.loc, s'.held, s'.bufs, s'.hands, x) { assert Placed(s.loc, s.held, s.bufs, s.hands, x); }
    forall x ensures Awaited(s'.loc, s'.held, s'.content, x) { assert Awaited(s.loc, s.held, s.content, x); }
  }

  lemma PutObjectKeepsStores(s: MsgState, r: nat)
    requires MsgInv(s) && HasObject(s, r) && !InCare(s.loc[r])
    ensures StoresOk(PutObject(s, r))
  {
    var s' := PutObject(s, r);
    AboutRequest(s, r);
    forall d ensures FullOk(s'.content, s'.loc, s'.held, d) { assert FullOk(s.content, s.loc, s.held, d); }
    forall p ensures ObjectOk(s'.objPool, s'.heap, p) { assert ObjectOk(s.objPool, s.heap, p); }
    forall g ensures QueueOk(s'.bufs, s'.loc, s'.held, s'.heap, g) { assert QueueOk(s.bufs, s.loc, s.held, s.heap, g); }
    forall a ensures HandOk(s'.hands, s'.loc, s'.held, a) { assert HandOk(s.hands, s.loc, s.held, a); }
  }

  lemma PutObjectKeeps(s: MsgState, r: nat)
    requires MsgInv(s) && HasObject(s, r) && !InCare(s.loc[r])
    ensures MsgInv(PutObject(s, r))
  {
    PutObjectKeepsRequests(s, r);
    PutObjectKeepsStores(s, r);
  }

  lemma ForgetPooledKeeps(s: MsgState, cs: set<Chan>, os: set<nat>)
    requires MsgInv(s)
    ensures MsgInv(ForgetPooled(s, cs, os))
  {
    var s' := ForgetPooled(s, cs, os);
    forall c ensures PooledOk(s'.chanPool, s'.owner, c) { assert PooledOk(s.chanPool, s.owner, c); }
    forall o ensures ObjectOk(s'.objPool, s'.heap, o) { assert ObjectOk(s.objPool, s.heap, o); }
  }

  lemma AddQueueKeeps(s: MsgState, g: nat)
    requires MsgInv(s) && g !in s.bufs
    ensures MsgInv(AddQueue(s, g))
  {
    var s' := AddQueue(s, g);
    forall x ensures Placed(s'.loc, s'.held, s'.bufs, s'.hands, x) { assert Placed(s.loc, s.held, s.bufs, s.hands, x); }
    forall q ensures QueueOk(s'.bufs, s'.loc, s'.held, s'.heap, q) { assert QueueOk(s.bufs, s.loc, s.held, s.heap, q); }
  }

  lemma DequeueKeepsRequests(s: MsgState, g: nat, a: Actor)
    requires MsgInv(s) && g in s.bufs && s.bufs[g] != [] && a !in s.hands
    ensures CanDequeue(s, g) && RequestsOk(Dequeue(s, g, a))
  {
    var o := s.bufs[g][0];
    assert QueueOk(s.bufs, s.loc, s.held, s.heap, g);
    assert QueuedOk(s.loc, s.held, s.heap, o, g);
    var r := s.heap[o].req;
    AboutRequest(s, r);
    var s' := Dequeue(s, g, a);
    forall x ensures Tallied(s'.loc, s'.tally, x) { assert Tallied(s.loc, s.tally, x); }
    forall x ensures CaredFor(s'.loc, s'.held, s'.heap, x) { assert CaredFor(s.loc, s.held, s.heap, x); }
    forall x ensures Placed(s'.loc, s'.held, s'.bufs, s'.hands, x) {
      assert Placed(s.loc, s.held, s.bufs, s.hands, x);
      if x in s.loc && s.loc[x] == InQueue(g) && x != r {
        assert ObjectOwned(s.held, s.heap, x);
        assert s.bufs[g] == [o] + s.bufs[g][1..];
      }
    }
    forall x ensures Awaited(s'.loc, s'.held, s'.content, x) { assert Awaited(s.loc, s.held, s.content, x); }
  }

  lemma DequeueKeepsStores(s: MsgState, g: nat, a: Actor)
    requires MsgInv(s) && g in s.bufs && s.bufs[g] != [] && a !in s.hands
    ensures CanDequeue(s, g) && StoresOk(Dequeue(s, g, a))
  {
    var o := s.bufs[g][0];
    assert QueueOk(s.bufs, s.loc, s.held, s.heap, g);
    assert QueuedOk(s.loc, s.held, s.heap, o, g);
    var r := s.heap[o].req;
    AboutRequest(s, r);
    var s' := Dequeue(s, g, a);
    forall c ensures FullOk(s'.content, s'.loc, s'.held, c) { assert FullOk(s.content, s.loc, s.held, c); }
    forall q ensures QueueOk(s'.bufs, s'.loc, s'.held, s'.heap, q) { assert QueueOk(s.bufs, s.loc, s.held, s.heap, q); }
    forall b ensures HandOk(s'.hands, s'.loc, s'.held, b) { assert HandOk(s.hands, s.loc, s.held, b); }
  }

  lemma DequeueKeeps(s: MsgState, g: nat, a: Actor)
    requires MsgInv(s) && g in s.bufs && s.bufs[g] != [] && a !in s.hands
    ensures CanDequeue(s, g) && MsgInv(Dequeue(s, g, a))
  {
    DequeueKeepsRequests(s, g, a);
    DequeueKeepsStores(s, g, a);
  }

  lemma RequeueKeeps(s: MsgState, a: Actor, g: nat)
    requires MsgInv(s) && a in s.hands && g in s.bufs
    ensures MsgInv(Requeue(s, a, g))
  {
    var s' := Requeue(s, a, g);
    assert HandOk(s.hands, s.loc, s.held, a);
    AboutRequest(s, s.hands[a].req);
    forall x ensures Tallied(s'.loc, s'.tally, x) { assert Tallied(s.loc, s.tally, x); }
    forall x ensures CaredFor(s'.loc, s'.held, s'.heap, x) { assert CaredFor(s.loc, s.held, s.heap, x); }
    forall x ensures Placed(s'.loc, s'.held, s'.bufs, s'.hands, x) { assert Placed(s.loc, s.held, s.bufs, s.hands, x); }
    forall x ensures Awaited(s'.loc, s'.held, s'.content, x) { assert Awaited(s.loc, s.held, s.content, x); }
    forall c ensures FullOk(s'.content, s'.loc, s'.held, c) { assert FullOk(s.content, s.loc, s.held, c); }
    forall q ensures QueueOk(s'.bufs, s'.loc, s'.held, s'.heap, q) { assert QueueOk(s.bufs, s.loc, s.held, s.heap, q); }
    forall b ensures HandOk(s'.hands, s'.loc, s'.held, b) { assert HandOk(s.hands, s.loc, s.held, b); }
  }

  /** Every reply send finds its channel present and empty. */
  lemma ReplyReady(s: MsgState, a: Actor, k: Kind)
    requires MsgInv(s) && a in s.hands
    requires k == StreamKind ==> s.hands[a].req in s.held && s.held[s.hands[a].req].isStream
    ensures CanReply(s, a, k)
  {
    var r := s.hands[a].req;
    assert HandOk(s.hands, s.loc, s.held, a);
    AboutRequest(s, r);
    var c := s.heap[s.hands[a].obj].chan.At(k).value;
    assert Borrows(s.held, s.owner, r, k);
    assert FullOk(s.content, s.loc, s.held, c);
    assert c in s.content ==> Borrows(s.held, s.owner, s.content[c], k) by {
      if c in s.content { assert ChansOwned(s.held, s.owner, s.content[c]); }
    }
  }

  lemma ReplyKeepsRequests(s: MsgState, a: Actor, k: Kind)
    requires MsgInv(s) && CanReply(s, a, k)
    ensures RequestsOk(Reply(s, a, k))
  {
    var s' := Reply(s, a, k);
    assert HandOk(s.hands, s.loc, s.held, a);
    AboutRequest(s, s.hands[a].req);
    assert Borrows(s.held, s.owner, s.hands[a].req, k);
    forall x ensures Tallied(s'.loc, s'.tally, x) { assert Tallied(s.loc, s.tally, x); }
    forall x ensures CaredFor(s'.loc, s'.held, s'.heap, x) { assert CaredFor(s.loc, s.held, s.heap, x); }
    forall x ensures Placed(s'.loc, s'.held, s'.bufs, s'.hands, x) { assert Placed(s.loc, s.held, s.bufs, s.hands, x); }
    forall x ensures Awaited(s'.loc, s'.held, s'.content, x) {
      assert Awaited(s.loc, s.held, s.content, x);
    }
  }

  lemma ReplyKeepsStores(s: MsgState, a: Actor, k: Kind)
    requires MsgInv(s) && CanReply(s, a, k)
    ensures StoresOk(Reply(s, a, k))
  {
    var s' := Reply(s, a, k);
    assert HandOk(s.hands, s.loc, s.held, a);
    AboutRequest(s, s.hands[a].req);
    assert Borrows(s.held, s.owner, s.hands[a].req, k);
    forall c ensures FullOk(s'.content, s'.loc, s'.held, c) { assert FullOk(s.content, s.loc, s.held, c); }
    forall q ensures QueueOk(s'.bufs, s'.loc, s'.held, s'.heap, q) { assert QueueOk(s.bufs, s.loc, s.held, s.heap, q); }
    forall b ensures HandOk(s'.hands, s'.loc, s'.held, b) { assert HandOk(s.hands, s.loc, s.held, b); }
  }

  lemma ReplyKeeps(s: MsgState, a: Actor, k: Kind)
    requires MsgInv(s) && CanReply(s, a, k)
    ensures MsgInv(Reply(s, a, k))
  {
    ReplyKeepsRequests(s, a, k);
    ReplyKeepsStores(s, a, k);
  }

  lemma GiveUpKeeps(s: MsgState, a: Actor, bill: bool)
    requires MsgInv(s) && a in s.hands
    ensures CanGiveUp(s, a) && MsgInv(GiveUp(s, a, bill))
  {
    assert HandOk(s.hands, s.loc, s.held, a);
    AboutRequest(s, s.hands[a].req);
    var s' := GiveUp(s, a, bill);
    forall x ensures Tallied(s'.loc, s'.tally, x) { assert Tallied(s.loc, s.tally, x); }
    forall x ensures CaredFor(s'.loc, s'.held, s'.heap, x) { assert CaredFor(s.loc, s.held, s.heap, x); }
    forall x ensures Placed(s'.loc, s'.held, s'.bufs, s'.hands, x) { assert Placed(s.loc, s.held, s.bufs, s.hands, x); }
    forall x ensures Awaited(s'.loc, s'.held, s'.content, x) { assert Awaited(s.loc, s.held, s.content, x); }
    forall c ensures FullOk(s'.content, s'.loc, s'.held, c) { assert FullOk(s.content, s.loc, s.held, c); }
    forall q ensures QueueOk(s'.bufs, s'.loc, s'.held, s'.heap, q) { assert QueueOk(s.bufs, s.loc, s.held, s.heap, q); }
    forall b ensures HandOk(s'.hands, s'.loc, s'.held, b) { assert HandOk(s.hands, s.loc, s.held, b); }
  }
}
