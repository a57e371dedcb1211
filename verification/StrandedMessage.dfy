/**
 The window that core/bifrost.go documents at drainQueueWithErrors is real: a run in which a
 provider has been removed, nobody is left to look at its queue, and a message lies in it whose
 caller has not cancelled.
 */
module StrandedMessage {
  import opened Wrappers
  import opened MessageLayer
  import opened LifecycleModel
  import opened LifecycleInvariant
  import opened LifecycleTheorems
  import opened PublicationTheorems

  /** Some run ends in s. */
  ghost predicate Reached(s: State) {
    exists run, steps :: IsRun(run, steps) && run[|run| - 1] == s
  }

  lemma StartReached()
    ensures Reached(INIT)
  {
    assert IsRun([INIT], []);
  }

  lemma Extends(s: State, st: Step, s': State)
    requires Reached(s) && Next(s, st, s') == true
    ensures Reached(s')
  {
    hide Next;
    var run, steps :| IsRun(run, steps) && run[|run| - 1] == s;
    var run', steps' := run + [s'], steps + [st];
    forall i | 0 <= i < |steps'| ensures Next(run'[i], steps'[i], run'[i + 1]) {
      if i < |steps| {
        assert Next(run[i], steps[i], run[i + 1]);
      }
    }
    assert IsRun(run', steps');
  }

  const RESPONSE := Chan(ResponseKind, 0)
  const ERROR := Chan(ErrorKind, 0)

  /** One worker, one open queue with room for one message. */
  ghost predicate Prepared(s: State) {
    && s.mx.Free? && s.current == Some(0) && s.currentWg == Some(0) && s.next == 1
    && 0 in s.cap && s.cap[0] == 1 && s.wg == map[0 := 1] && s.closing == {} && s.done == {}
    && s.workers == map[0 := WorkerState(0, Idle)] && s.retired == None && s.pcs == map[]
    && s.ms == AddQueue(INITIAL, 0)
  }

  lemma PreparesOne() returns (s: State)
    ensures Reached(s) && Prepared(s)
  {
    StartReached();
    var a := NewGeneration(INIT, 1).(current := Some(0), mx := Preparing(0, QueueStored, false));
    Extends(INIT, Prepare(StoreQueue(1, false)), a);
    var b := a.(currentWg := Some(0), mx := Preparing(0, BothStored, false));
    Extends(a, Prepare(StoreWaitGroup), b);
    var c := Spawn(b, 0, 0);
    Extends(b, Prepare(PrepareSpawns(0)), c);
    s := c.(mx := Free);
    Extends(c, Prepare(PrepareEnds), s);
  }

  /** Request 0 holds its channels and is past its check of queue 0. */
  ghost predicate AboutToSend(s: State) {
    && s.pcs == map[0 := Sending(0, false)] && 0 in s.ms.held && s.ms.held[0].obj == Some(0)
    && s.ms.bufs == map[0 := []] && s.ms.cancelled == {} && s.ms.hands == map[] && 0 in s.ms.heap && s.ms.heap[0].req == 0
  }

  lemma Loads(s: State) returns (t: State)
    requires Reached(s) && Prepared(s)
    ensures Reached(t) && t == s.(pcs := map[0 := Loaded(0)], ms := NewRequest(s.ms, 0, false))
  {
    var a := s.(pcs := s.pcs[0 := Start], ms := NewRequest(s.ms, 0, false));
    Extends(s, Produce(0, Arrive(false)), a);
    t := a.(pcs := a.pcs[0 := Loaded(0)]);
    Extends(a, Produce(0, LoadQueue), t);
  }

  /** What request 0 has when it holds its reply channels. */
  function WithChannels(): MsgState {
    GetChan(GetChan(NewRequest(AddQueue(INITIAL, 0), 0, false), 0, RESPONSE), 0, ERROR)
  }

  lemma TakesChannels(s: State) returns (t: State)
    requires Reached(s) && s.pcs == map[0 := Loaded(0)] && s.ms == NewRequest(AddQueue(INITIAL, 0), 0, false)
    ensures Reached(t) && t == s.(pcs := map[0 := GotError(0)], ms := WithChannels())
  {
    var c := s.(pcs := s.pcs[0 := GotResponse(0)], ms := GetChan(s.ms, 0, RESPONSE));
    Extends(s, Produce(0, TakeResponse(RESPONSE)), c);
    t := c.(pcs := c.pcs[0 := GotError(0)], ms := GetChan(c.ms, 0, ERROR));
    Extends(c, Produce(0, TakeError(ERROR)), t);
  }

  lemma TakesObject(s: State) returns (t: State)
    requires Reached(s) && s.pcs == map[0 := GotError(0)] && s.ms == WithChannels() && s.closing == {}
    ensures Reached(t) && AboutToSend(t) && t == s.(pcs := t.pcs, ms := t.ms)
  {
    var e := s.(pcs := s.pcs[0 := Ready(0)], ms := GetObject(s.ms, 0, 0));
    Extends(s, Produce(0, TakeObject(0)), e);
    t := e.(pcs := e.pcs[0 := Sending(0, false)]);
    Extends(e, Produce(0, CheckClosing), t);
  }

  lemma RemovalSignals(s: State) returns (t: State)
    requires Reached(s) && s.mx.Free? && s.current == Some(0) && s.closing == {}
    ensures Reached(t) && t == s.(mx := Removing(0, RemoveSignalled), closing := {0}, done := s.done + {0}, late := t.late)
  {
    var a := s.(mx := Removing(0, RemoveSignalling));
    Extends(s, Remove(BeginRemove), a);
    var b := SetClosing(a, 0).(mx := Removing(0, RemoveMidSignal));
    Extends(a, Remove(RemoveSetsClosing), b);
    t := b.(done := b.done + {0}, mx := Removing(0, RemoveSignalled));
    Extends(b, Remove(RemoveClosesDone), t);
  }

  lemma WorkerLeaves(s: State) returns (t: State)
    requires Reached(s) && s.workers == map[0 := WorkerState(0, Idle)] && s.wg == map[0 := 1] && 0 in s.done && s.ms.bufs == map[0 := []]
    ensures Reached(t) && t == s.(workers := map[0 := WorkerState(0, Exited)], wg := map[0 := 0])
  {
    var d := s.(workers := s.workers[0 := WorkerState(0, Draining)]);
    Extends(s, Work(0, WorkerSeesDone), d);
    t := d.(workers := d.workers[0 := WorkerState(0, Exited)], wg := d.wg[0 := 0]);
    Extends(d, Work(0, Exit), t);
  }

  lemma RemovalSweeps(s: State) returns (t: State)
    requires Reached(s) && s.mx == Removing(0, RemoveSignalled) && s.currentWg == Some(0) && s.wg == map[0 := 0]
    requires s.ms.bufs == map[0 := []]
    ensures Reached(t) && t == s.(mx := Removing(0, RemoveSwept), swept := t.swept)
  {
    var a := s.(mx := Removing(0, RemoveWaiting(0)));
    Extends(s, Remove(RemoveLoadsWaitGroup), a);
    var b := a.(mx := Removing(0, RemoveSweeping));
    Extends(a, Remove(RemoveWaitEnds), b);
    t := EndSweep(b, 0).(mx := Removing(0, RemoveSwept));
    Extends(b, Remove(RemoveSweepEnds), t);
  }

  lemma RemovalDeletes(s: State) returns (t: State)
    requires Reached(s) && s.mx == Removing(0, RemoveSwept) && s.retired == None
    ensures Reached(t) && t == s.(mx := Free, current := None, currentWg := None)
  {
    var d := s.(retired := None, mx := Removing(0, RetiredGone));
    Extends(s, Remove(AwaitRetired), d);
    var e := d.(current := None, mx := Removing(0, QueueDeleted));
    Extends(d, Remove(DeleteQueue), e);
    t := e.(currentWg := None, mx := Free);
    Extends(e, Remove(DeleteWaitGroup), t);
  }

  /** The removal has signalled queue 0 and its worker is gone, while request 0 is about to send. */
  lemma SignalsAndLeaves() returns (s: State)
    ensures Reached(s) && AboutToSend(s) && NobodyRuns(s) && s.currentWg == Some(0) && s.wg == map[0 := 0]
    ensures s.mx == Removing(0, RemoveSignalled) && s.retired == None && 0 in s.cap && s.cap[0] == 1
  {
    var p := PreparesOne();
    var l := Loads(p);
    var h := TakesChannels(l);
    var a := TakesObject(h);
    var b := RemovalSignals(a);
    s := WorkerLeaves(b);
  }

  /** A message can be left behind: its caller waits and has not cancelled, the provider is removed,
      no worker runs, and the message lies in the removed queue. */
  lemma AMessageCanBeStranded() returns (s: State)
    ensures Reached(s)
    ensures s.mx.Free? && s.current.None? && NobodyRuns(s) && s.ms.hands == map[]
    ensures 0 in s.pcs && s.pcs[0] == Waiting && 0 !in s.ms.cancelled && QueuedAt(s.ms, 0, 0, 0)
  {
    var c := SignalsAndLeaves();
    var d := RemovalSweeps(c);
    var e := RemovalDeletes(d);
    hide Reached;
    s := e.(pcs := e.pcs[0 := Waiting], ms := Enqueue(e.ms, 0, 0));
    Extends(e, Produce(0, Send), s);
  }
}
