/**
 The retry and key-rotation machine: executeRequestWithRetries and the key provider that
 requestWorker hands to it.

 The provider call, the key selector, the key pool filter and the tracer are adversarial: they
 may answer differently on every attempt.  The only promises are that the selector picks one of
 the keys it is given and that the filter returns some of the keys it is given.  Matching of
 error texts against fixed patterns enters as flags of the failure; sleeping, spans and logs are
 not modelled.
 */
module Retry {
  import opened Wrappers

  datatype Key = Key(id: string, name: string)

  const NO_KEY := Key("", "")

  /** The error object of a failure.  networkMessage: the message is one of the two network error
      texts; rateLimitText, capacityText: message, type or code matches such a pattern. */
  datatype ErrorField = ErrorField(errType: Option<string>, networkMessage: bool, rateLimitText: bool, capacityText: bool)

  datatype Failure = Failure(internal: bool, status: Option<int>, error: Option<ErrorField>)

  const PER_KEY_STATUS: set<int> := {401, 402, 403, 429}
  const PERMANENT_STATUS: set<int> := {401, 402, 403}
  const TRANSIENT_STATUS: set<int> := {500, 502, 503, 504}

  /** Internal errors and cancellations end the loop before they are classified. */
  predicate Stops(f: Failure) {
    f.internal || (f.error.Some? && f.error.value.errType == Some("request_cancelled"))
  }

  predicate PerKey(f: Failure) {
    (f.status.Some? && f.status.value in PER_KEY_STATUS) || (f.error.Some? && f.error.value.rateLimitText)
  }

  predicate Permanent(f: Failure) {
    f.status.Some? && f.status.value in PERMANENT_STATUS
  }

  /** fallbacks: the request names providers to fall back to. */
  predicate Retryable(f: Failure, fallbacks: bool) {
    && !Stops(f)
    && ((f.error.Some? && f.error.value.networkMessage) || (f.status.Some? && f.status.value in TRANSIENT_STATUS) || PerKey(f))
    && !(fallbacks && f.error.Some? && f.error.value.capacityText)
  }

  function Reason(f: Failure): string {
    if f.status == Some(429) then "rate_limit_error"
    else if f.status == Some(401) || f.status == Some(403) then "authentication_error"
    else if f.status == Some(402) then "billing_error"
    else if f.error.Some? && f.error.value.errType.Some? && f.error.value.errType.value != "" then f.error.value.errType.value
    else "unknown"
  }

  /** What the worker passes as keyProvider: nil, a fixed key, or a rotating pool. */
  datatype KeySource = NoKeys | Fixed(key: Key) | Pool(pool: seq<Key>) {
    function Keys(): seq<Key> {
      match this
      case NoKeys => []
      case Fixed(k) => [k]
      case Pool(p) => p
    }
  }

  datatype Selection = Chosen(key: Key) | Refused(message: string)

  /** Everything outside: each answer may depend on the attempt. */
  datatype Env = Env(
    selector: (nat, seq<Key>) -> Selection,
    filter: Option<(nat, nat, seq<Key>) -> Option<seq<Key>>>,
    handler: (nat, Key) -> Option<Failure>,
    tracer: nat -> bool,
    fallbacks: bool)
  {
    ghost predicate Honest() {
      && (forall n: nat, keys: seq<Key> {:trigger selector(n, keys)} ::
            keys != [] && selector(n, keys).Chosen? ==> selector(n, keys).key in keys)
      && (filter.Some? ==>
            forall n: nat, round: nat, keys: seq<Key> {:trigger filter.value(n, round, keys)} ::
              filter.value(n, round, keys).Some? ==> forall k :: k in filter.value(n, round, keys).value ==> k in keys)
    }
  }

  datatype Record = Record(attempt: nat, keyID: string, keyName: string, triggeredRotation: bool, failReason: Option<string>)

  datatype Outcome = Success | Failed(failure: Failure) | AllDead | AllFiltered | SelectorFailed(message: string) | TracerMissing | Nothing

  // ----- The history of one request -----

  /** One attempt: the key in use, whether it was selected for this attempt and in a fresh round,
      whether the attempt waited first, whether the provider was called, and how it failed. */
  datatype Attempt = Attempt(key: Key, selected: bool, reset: bool, waited: bool, called: bool, failure: Option<Failure>)

  /** The attempt was followed by another one, or used up the retries. */
  predicate GoesOn(a: Attempt, fallbacks: bool) {
    a.called && a.failure.Some? && Retryable(a.failure.value, fallbacks)
  }

  predicate Kills(a: Attempt, fallbacks: bool) {
    GoesOn(a, fallbacks) && Permanent(a.failure.value)
  }

  predicate RateLimits(a: Attempt, fallbacks: bool) {
    GoesOn(a, fallbacks) && PerKey(a.failure.value) && !Permanent(a.failure.value)
  }

  function Last<T>(s: seq<T>): T
    requires s != []
  {
    s[|s| - 1]
  }

  /** Keys that failed for good. */
  function Dead(log: seq<Attempt>, fallbacks: bool): set<string> {
    set i | 0 <= i < |log| && Kills(log[i], fallbacks) :: log[i].key.id
  }

  /** Keys rate-limited in the present round. */
  function Used(log: seq<Attempt>, fallbacks: bool): set<string> {
    if log == [] then {}
    else
      var before := if Last(log).reset then {} else Used(log[..|log| - 1], fallbacks);
      if RateLimits(Last(log), fallbacks) then before + {Last(log).key.id} else before
  }

  /** Every key is dead or was rate-limited in the present round. */
  predicate RoundOver(keys: seq<Key>, log: seq<Attempt>, fallbacks: bool) {
    forall k :: k in keys ==> k.id in Dead(log, fallbacks) || k.id in Used(log, fallbacks)
  }

  // ----- Which key is picked -----

  datatype Pick = Picked(key: Key, reset: bool) | NoneAlive | NoneEligible | PickFailed(message: string)

  /** The keys that are not excluded, in the order of the pool. */
  function Remaining(pool: seq<Key>, excluded: set<string>): seq<Key> {
    if pool == [] then []
    else
      Remaining(pool[..|pool| - 1], excluded) + if Last(pool).id in excluded then [] else [Last(pool)]
  }

  /** A filter that fails is ignored. */
  function Filtered(env: Env, n: nat, round: nat, keys: seq<Key>): seq<Key> {
    if env.filter.None? then keys
    else
      var f := env.filter.value;
      if f(n, round, keys).Some? then f(n, round, keys).value else keys
  }

  /** From a pool the selector is offered what remains of the present round, and in a fresh round
      what is alive. */
  function PickOf(src: KeySource, env: Env, n: nat, used: set<string>, dead: set<string>): Pick
    requires !src.NoKeys?
  {
    match src
    case Fixed(k) => if k.id in dead then NoneAlive else Picked(k, false)
    case Pool(pool) =>
      var present := Filtered(env, n, 0, Remaining(pool, dead + used));
      var all := Filtered(env, n, 1, Remaining(pool, dead));
      var choice := env.selector;
      if present != [] then Selected(choice(n, present), false)
      else if all != [] then Selected(choice(n, all), true)
      else if Remaining(pool, dead) != [] then NoneEligible
      else NoneAlive
  }

  function Selected(selection: Selection, reset: bool): Pick {
    match selection
    case Chosen(k) => Picked(k, reset)
    case Refused(m) => PickFailed(m)
  }

  /** The pick that is due after these attempts. */
  function NextPick(src: KeySource, env: Env, before: seq<Attempt>): Pick
    requires !src.NoKeys?
  {
    PickOf(src, env, |before|, Used(before, env.fallbacks), Dead(before, env.fallbacks))
  }

  /** The key in use may follow the attempts before it: chosen anew at the start and after a
      per-key failure, never dead, and not rate-limited in the present round. */
  ghost predicate KeyFollows(src: KeySource, env: Env, before: seq<Attempt>, key: Key, selected: bool, reset: bool) {
    && (selected <==> !src.NoKeys? && (before == [] || (Last(before).failure.Some? && PerKey(Last(before).failure.value))))
    && (reset ==> selected && src.Pool?)
    && (selected ==> NextPick(src, env, before) == Picked(key, reset))
    && (selected ==> key in src.Keys() && key.id !in Dead(before, env.fallbacks))
    && (!selected ==> key == if before == [] then NO_KEY else Last(before).key)
    && (selected && src.Pool? && !reset ==> key.id !in Used(before, env.fallbacks))
    && (selected && src.Pool? && env.filter.None? ==> (reset <==> RoundOver(src.Keys(), before, env.fallbacks)))
  }

  /** The wait is skipped exactly after a permanent failure that was answered with another key. */
  predicate Waits(src: KeySource, before: seq<Attempt>, key: Key) {
    before != [] &&
    !(Last(before).failure.Some? && Permanent(Last(before).failure.value) && !src.NoKeys? && key.id != Last(before).key.id)
  }

  /** a may follow the attempts before it. */
  ghost predicate MayFollow(src: KeySource, env: Env, before: seq<Attempt>, a: Attempt) {
    && (before != [] ==> GoesOn(Last(before), env.fallbacks))
    && KeyFollows(src, env, before, a.key, a.selected, a.reset)
    && (a.waited <==> Waits(src, before, a.key))
    && (a.called <==> env.tracer(|before|))
    && a.failure == (if a.called then env.handler(|before|, a.key) else None)
  }

  ghost predicate Legal(src: KeySource, env: Env, log: seq<Attempt>) {
    forall j {:trigger log[j]} :: 0 <= j < |log| ==> MayFollow(src, env, log[..j], log[j])
  }

  // ----- Picking a key -----

  method Eligible(pool: seq<Key>, excluded: set<string>) returns (available: seq<Key>)
    ensures available == Remaining(pool, excluded)
    ensures forall k :: k in available <==> k in pool && k.id !in excluded
  {
    available := [];
    for i := 0 to |pool|
      invariant available == Remaining(pool[..i], excluded)
      invariant forall k :: k in available <==> k in pool[..i] && k.id !in excluded
    {
      assert pool[..i + 1][..i] == pool[..i];
      if pool[i].id !in excluded {
        available := available + [pool[i]];
      }
    }
    assert pool[..|pool|] == pool;
  }

  method Filter(env: Env, n: nat, round: nat, keys: seq<Key>) returns (kept: seq<Key>)
    requires env.Honest()
    ensures kept == Filtered(env, n, round, keys)
    ensures forall k :: k in kept ==> k in keys
  {
    kept := keys;
    if env.filter.Some? {
      var f := env.filter.value;
      var filtered := f(n, round, keys);
      if filtered.Some? {
        kept := filtered.value;
      }
    }
  }

  /** The keyProvider closures.  The used set is emptied when a fresh round starts. */
  method PickKey(src: KeySource, env: Env, n: nat, used: set<string>, dead: set<string>) returns (pick: Pick, stillUsed: set<string>)
    requires env.Honest() && !src.NoKeys? && (src.Pool? ==> src.pool != [])
    ensures pick == PickOf(src, env, n, used, dead)
    ensures pick.Picked? ==> pick.key in src.Keys() && pick.key.id !in dead && (src.Pool? ==> pick.key.id !in stillUsed)
    ensures pick.Picked? ==> stillUsed == if pick.reset then {} else used
    ensures pick.Picked? && pick.reset ==> src.Pool?
    ensures pick.Picked? && src.Pool? && env.filter.None? ==> (pick.reset <==> forall k :: k in src.pool ==> k.id in dead || k.id in used)
    ensures pick.NoneAlive? <==> forall k :: k in src.Keys() ==> k.id in dead
    ensures pick.NoneEligible? ==> src.Pool? && env.filter.Some?
  {
    hide Remaining;
    stillUsed := used;
    if src.Fixed? {
      pick := if src.key.id in dead then NoneAlive else Picked(src.key, false);
      return;
    }
    var available := Eligible(src.pool, dead + used);
    available := Filter(env, n, 0, available);
    var reset := false;
    if available == [] {
      available := Eligible(src.pool, dead);
      ghost var alive := available;
      var liveCount := |available|;
      available := Filter(env, n, 1, available);
      if available == [] {
        if liveCount > 0 {
          assert alive[0] in alive;
          pick := NoneEligible;
        } else {
          pick := NoneAlive;
        }
        return;
      }
      stillUsed := {};
      reset := true;
    }
    assert available[0] in available;
    var choice := env.selector;
    var selection := choice(n, available);
    match selection {
      case Chosen(k) => pick := Picked(k, reset);
      case Refused(m) => pick := PickFailed(m);
    }
  }

  // ----- The loop -----

  /** The request context values the machine reads and writes. */
  class RequestContext {
    var trail: seq<Record>
    var selectedKeyID: string
    var selectedKeyName: string
    var numberOfRetries: nat

    /** Mark the pending record if the key selected since is another one. */
    method MarkRotation(pending: nat, keyID: string)
      modifies this`trail
      ensures trail == if pending < |old(trail)| && old(trail)[pending].keyID != keyID
                       then old(trail)[pending := old(trail)[pending].(triggeredRotation := true)] else old(trail)
    {
      if pending < |trail| && trail[pending].keyID != keyID {
        trail := trail[pending := trail[pending].(triggeredRotation := true)];
      }
    }

    method FillReason(f: Failure)
      requires !Stops(f)
      modifies this`trail
      ensures trail == WithReason(old(trail), Some(f))
    {
      if |trail| > 0 {
        trail := trail[|trail| - 1 := trail[|trail| - 1].(failReason := Some(Reason(f)))];
      }
    }
  }

  /** What attempt i leaves in the trail: a rotation is recorded if and only if a next attempt
      exists and uses another key.  next is the key of an attempt that has just begun. */
  predicate Recorded(log: seq<Attempt>, next: Option<Key>, trail: seq<Record>, i: nat)
    requires i < |log| && i < |trail|
  {
    && trail[i].attempt == i && trail[i].keyID == log[i].key.id && trail[i].keyName == log[i].key.name
    && (trail[i].triggeredRotation <==>
          || (i + 1 < |log| && log[i + 1].key.id != log[i].key.id)
          || (i + 1 == |log| && next.Some? && next.value.id != log[i].key.id))
    && trail[i].failReason == (if log[i].failure.Some? && !Stops(log[i].failure.value) then Some(Reason(log[i].failure.value)) else None)
  }

  predicate TrailTells(log: seq<Attempt>, trail: seq<Record>) {
    |trail| == |log| && forall i :: 0 <= i < |log| ==> Recorded(log, None, trail, i)
  }

  /** An attempt with this key has begun. */
  predicate TrailOpen(log: seq<Attempt>, key: Key, trail: seq<Record>) {
    && |trail| == |log| + 1 && trail[|log|] == Record(|log|, key.id, key.name, false, None)
    && forall i :: 0 <= i < |log| ==> Recorded(log, Some(key), trail, i)
  }

  function WithReason(trail: seq<Record>, failure: Option<Failure>): seq<Record> {
    if trail != [] && failure.Some? && !Stops(failure.value)
    then trail[|trail| - 1 := trail[|trail| - 1].(failReason := Some(Reason(failure.value)))]
    else trail
  }

  /** A request without keys keeps no records of its own, but leaves the reasons of its classified
      failures in the last record it finds. */
  function StaleTrail(trail: seq<Record>, log: seq<Attempt>): seq<Record> {
    if log == [] then trail else WithReason(StaleTrail(trail, log[..|log| - 1]), Last(log).failure)
  }

  predicate TrailIs(src: KeySource, log: seq<Attempt>, before: seq<Record>, trail: seq<Record>) {
    if src.NoKeys? then trail == StaleTrail(before, log) else TrailTells(log, trail)
  }

  predicate TrailBegun(src: KeySource, log: seq<Attempt>, key: Key, before: seq<Record>, trail: seq<Record>) {
    if src.NoKeys? then trail == StaleTrail(before, log) else TrailOpen(log, key, trail)
  }

  lemma TrailOpens(log: seq<Attempt>, key: Key, trail: seq<Record>, trail': seq<Record>)
    requires TrailTells(log, trail)
    requires |trail'| == |log| + 1 && trail'[|log|] == Record(|log|, key.id, key.name, false, None)
    requires forall i :: 0 <= i < |log| - 1 ==> trail'[i] == trail[i]
    requires log != [] ==>
               trail'[|log| - 1] == if Last(log).key.id != key.id then Last(trail).(triggeredRotation := true) else Last(trail)
    ensures TrailOpen(log, key, trail')
  {
    forall i | 0 <= i < |log| ensures Recorded(log, Some(key), trail', i) { assert Recorded(log, None, trail, i); }
  }

  lemma TrailCloses(src: KeySource, log: seq<Attempt>, key: Key, before: seq<Record>, trail: seq<Record>, a: Attempt)
    requires TrailBegun(src, log, key, before, trail) && a.key == key
    ensures TrailIs(src, log + [a], before, WithReason(trail, a.failure))
  {
    assert (log + [a])[..|log|] == log;
    if !src.NoKeys? {
      var trail' := WithReason(trail, a.failure);
      forall i | 0 <= i < |log| + 1 ensures Recorded(log + [a], None, trail', i) {
        if i < |log| { assert Recorded(log, Some(key), trail, i); }
      }
    }
  }

  lemma LegalGrows(src: KeySource, env: Env, log: seq<Attempt>, a: Attempt)
    requires Legal(src, env, log) && MayFollow(src, env, log, a)
    ensures Legal(src, env, log + [a])
  {
    var log' := log + [a];
    forall j | 0 <= j < |log'| ensures MayFollow(src, env, log'[..j], log'[j]) {
      if j < |log| {
        assert log'[..j] == log[..j];
        assert log'[j] == log[j];
      } else {
        assert log'[..j] == log;
      }
    }
  }

  lemma DeadGrows(log: seq<Attempt>, a: Attempt, fallbacks: bool)
    ensures Dead(log + [a], fallbacks) == if Kills(a, fallbacks) then Dead(log, fallbacks) + {a.key.id} else Dead(log, fallbacks)
  {
    var log' := log + [a];
    assert forall i :: 0 <= i < |log| ==> log'[i] == log[i];
    if Kills(a, fallbacks) {
      assert log'[|log|] == a;
    }
    forall id | id in Dead(log, fallbacks) ensures id in Dead(log', fallbacks) {
      var i :| 0 <= i < |log| && Kills(log[i], fallbacks) && log[i].key.id == id;
      assert Kills(log'[i], fallbacks);
    }
  }

  lemma UsedGrows(log: seq<Attempt>, a: Attempt, fallbacks: bool)
    ensures
      var before := if a.reset then {} else Used(log, fallbacks);
      Used(log + [a], fallbacks) == if RateLimits(a, fallbacks) then before + {a.key.id} else before
  {
    assert (log + [a])[..|log|] == log;
  }

  lemma DeadPrefix(log: seq<Attempt>, i: nat, fallbacks: bool)
    requires i < |log|
    ensures Dead(log[..i + 1], fallbacks) == if Kills(log[i], fallbacks) then Dead(log[..i], fallbacks) + {log[i].key.id} else Dead(log[..i], fallbacks)
  {
    assert log[..i + 1] == log[..i] + [log[i]];
    DeadGrows(log[..i], log[i], fallbacks);
  }

  /** No attempt uses a key that has failed for good before it. */
  lemma {:induction false} NeverDead(src: KeySource, env: Env, log: seq<Attempt>, j: nat)
    requires Legal(src, env, log) && !src.NoKeys? && j < |log|
    ensures log[j].key in src.Keys() && log[j].key.id !in Dead(log[..j], env.fallbacks)
  {
    assert MayFollow(src, env, log[..j], log[j]);
    if !log[j].selected {
      NeverDead(src, env, log, j - 1);
      assert Last(log[..j]) == log[j - 1];
      DeadPrefix(log, j - 1, env.fallbacks);
    }
  }

  /** The loop's local variables. */
  datatype Progress = Progress(
    currentKey: Key,
    used: set<string>,
    dead: set<string>,
    lastWasPerKey: bool,
    lastWasPermanent: bool,
    previousKeyID: string,
    pending: int)

  const BEGINNING := Progress(NO_KEY, {}, {}, false, false, "", -1)

  ghost predicate Tracks(src: KeySource, env: Env, log: seq<Attempt>, p: Progress, maxRetries: int) {
    && (log == [] ==> p == BEGINNING)
    && (log != [] ==>
          && GoesOn(Last(log), env.fallbacks)
          && p.currentKey == Last(log).key && p.previousKeyID == Last(log).key.id
          && (p.lastWasPerKey <==> PerKey(Last(log).failure.value))
          && (p.lastWasPermanent <==> !src.NoKeys? && Permanent(Last(log).failure.value))
          && p.pending == if p.lastWasPerKey && !src.NoKeys? && |log| <= maxRetries then |log| - 1 else -1)
    && (!src.NoKeys? ==> p.dead == Dead(log, env.fallbacks) && p.used == Used(log, env.fallbacks))
  }

  /** A failure that does not condemn the key leaves a key alive. */
  lemma StillAlive(src: KeySource, env: Env, log: seq<Attempt>)
    requires Legal(src, env, log) && !src.NoKeys? && log != [] && !Kills(Last(log), env.fallbacks)
    ensures Last(log).key in src.Keys() && Last(log).key.id !in Dead(log, env.fallbacks)
  {
    NeverDead(src, env, log, |log| - 1);
    DeadPrefix(log, |log| - 1, env.fallbacks);
    assert log[..|log|] == log;
  }

  /** Choose or keep the key and open the attempt's record. */
  method BeginAttempt(ctx: RequestContext, src: KeySource, env: Env, attempts: nat, p: Progress, ghost log: seq<Attempt>,
                      ghost maxRetries: int, ghost before: seq<Record>)
      returns (pick: Pick, p': Progress, ghost selected: bool, ghost reset: bool)
    requires env.Honest() && (src.Pool? ==> src.pool != [])
    requires attempts == |log| <= maxRetries && Legal(src, env, log) && Tracks(src, env, log, p, maxRetries)
    requires if log == [] then ctx.trail == before else TrailIs(src, log, before, ctx.trail)
    modifies ctx`trail, ctx`selectedKeyID, ctx`selectedKeyName
    ensures pick.Picked? ==> KeyFollows(src, env, log, p'.currentKey, selected, reset)
    ensures pick.Picked? ==> TrailBegun(src, log, p'.currentKey, before, ctx.trail)
    ensures pick.Picked? ==> p' == p.(currentKey := p'.currentKey, used := if reset then {} else p.used, pending := -1)
    ensures !pick.Picked? ==> !src.NoKeys? && TrailIs(src, log, before, ctx.trail)
    ensures !pick.Picked? ==> ctx.selectedKeyID == "" && ctx.selectedKeyName == ""
    ensures pick.Picked? && selected ==> ctx.selectedKeyID == p'.currentKey.id && ctx.selectedKeyName == p'.currentKey.name
    ensures selected ==> !src.NoKeys?
    ensures pick.Picked? && !selected && log == [] ==> src.NoKeys?
    ensures pick.Picked? && !selected ==> p'.currentKey == p.currentKey && unchanged(ctx`selectedKeyID) && unchanged(ctx`selectedKeyName)
    ensures pick.NoneAlive? <==> !src.NoKeys? && forall k :: k in src.Keys() ==> k.id in Dead(log, env.fallbacks)
    ensures !pick.Picked? ==> Due(src, env, log, maxRetries) && pick == NextPick(src, env, log)
  {
    hide PickOf;
    p', selected, reset := p, false, false;
    if !src.NoKeys? && attempts == 0 {
      ctx.trail := [];
    }
    ghost var trail := ctx.trail;
    if !src.NoKeys? && (attempts == 0 || p.lastWasPerKey) {
      var stillUsed;
      pick, stillUsed := PickKey(src, env, attempts, p.used, p.dead);
      if !pick.Picked? {
        ctx.selectedKeyID, ctx.selectedKeyName := "", "";
        return;
      }
      p' := p.(used := stillUsed, currentKey := pick.key, pending := -1);
      selected, reset := true, pick.reset;
      ctx.selectedKeyID, ctx.selectedKeyName := pick.key.id, pick.key.name;
      if p.pending >= 0 {
        ctx.MarkRotation(p.pending, pick.key.id);
      }
    } else {
      pick := Picked(p.currentKey, false);
      if !src.NoKeys? { StillAlive(src, env, log); }
    }
    if !src.NoKeys? {
      assert log != [] ==> Recorded(log, None, trail, |log| - 1);
      ctx.trail := ctx.trail + [Record(attempts, p'.currentKey.id, p'.currentKey.name, false, None)];
      TrailOpens(log, p'.currentKey, trail, ctx.trail);
    }
  }

  /** After a failure that is to be retried: put the key where it belongs and move on. */
  method Learn(src: KeySource, env: Env, attempts: nat, maxRetries: int, p: Progress, failure: Failure, trailLength: nat, ghost log: seq<Attempt>)
      returns (p': Progress)
    requires log != [] && Last(log).failure == Some(failure) && Last(log).key == p.currentKey && GoesOn(Last(log), env.fallbacks)
    requires attempts + 1 == |log| <= maxRetries + 1 && p.pending == -1
    requires !src.NoKeys? ==> trailLength == |log|
    requires !src.NoKeys? ==> p.dead == Dead(log[..attempts], env.fallbacks)
    requires !src.NoKeys? ==> p.used == if Last(log).reset then {} else Used(log[..attempts], env.fallbacks)
    ensures Tracks(src, env, log, p', maxRetries)
  {
    var isPerKey, isPermanent := PerKey(failure), false;
    var used, dead, pending := p.used, p.dead, p.pending;
    DeadPrefix(log, attempts, env.fallbacks);
    assert log[..|log|] == log;
    if isPerKey && !src.NoKeys? {
      isPermanent := Permanent(failure);
      if isPermanent {
        dead := dead + {p.currentKey.id};
      } else {
        used := used + {p.currentKey.id};
      }
    }
    if isPerKey && !src.NoKeys? && attempts < maxRetries {
      if trailLength > 0 {
        pending := trailLength - 1;
      }
    }
    p' := Progress(p.currentKey, used, dead, isPerKey, isPermanent, p.currentKey.id, pending);
  }

  lemma BeginsTracked(src: KeySource, env: Env, maxRetries: int)
    ensures Legal(src, env, []) && Tracks(src, env, [], BEGINNING, maxRetries)
  {
  }

  /** Which outcome a history ends with. */
  ghost predicate Ends(src: KeySource, env: Env, log: seq<Attempt>, maxRetries: int, outcome: Outcome) {
    && (outcome.Nothing? <==> maxRetries < 0)
    && (outcome.Success? <==> log != [] && Last(log).called && Last(log).failure.None?)
    && (outcome.Failed? <==>
          && log != [] && Last(log).called && Last(log).failure.Some?
          && (|log| == maxRetries + 1 || !Retryable(Last(log).failure.value, env.fallbacks)))
    && (outcome.Failed? ==> outcome.failure == Last(log).failure.value)
    && (outcome.TracerMissing? <==> log != [] && !Last(log).called)
    && (outcome.AllDead? <==> !src.NoKeys? && |log| <= maxRetries && AllKeysDead(src, log, env.fallbacks))
    && (outcome.AllFiltered? <==> Due(src, env, log, maxRetries) && NextPick(src, env, log).NoneEligible?)
    && (outcome.SelectorFailed? <==> Due(src, env, log, maxRetries) && NextPick(src, env, log).PickFailed?)
    && (outcome.SelectorFailed? ==> outcome.message == NextPick(src, env, log).message)
  }

  /** Another attempt is due, with a key to be picked for it. */
  predicate Due(src: KeySource, env: Env, log: seq<Attempt>, maxRetries: int) {
    && !src.NoKeys? && |log| <= maxRetries
    && (log == [] || (GoesOn(Last(log), env.fallbacks) && PerKey(Last(log).failure.value)))
  }

  /** The outcome is that of an attempt that began, not of a key that could not be picked. */
  predicate Answers(outcome: Outcome) {
    outcome.Success? || outcome.Failed? || outcome.TracerMissing?
  }

  predicate AllKeysDead(src: KeySource, log: seq<Attempt>, fallbacks: bool) {
    forall k :: k in src.Keys() ==> k.id in Dead(log, fallbacks)
  }

  /** The selected key in the context is the last one used if it served the request, else empty. */
  predicate Selects(src: KeySource, log: seq<Attempt>, served: bool, before: (string, string), id: string, name: string) {
    if src.NoKeys? then (id, name) == before
    else if log != [] && served then id == Last(log).key.id && name == Last(log).key.name
    else id == "" && name == ""
  }

  lemma NotAllDead(src: KeySource, env: Env, log: seq<Attempt>)
    requires Legal(src, env, log) && log != [] && !GoesOn(Last(log), env.fallbacks)
    ensures !src.NoKeys? ==> !AllKeysDead(src, log, env.fallbacks)
  {
    if !src.NoKeys? { StillAlive(src, env, log); }
  }

  lemma TrailLength(src: KeySource, log: seq<Attempt>, before: seq<Record>, trail: seq<Record>)
    requires TrailIs(src, log, before, trail)
    ensures !src.NoKeys? ==> |trail| == |log|
  {
  }

  /** Judge the answer of a call: finish, or note the failure and go on. */
  method Judge(ctx: RequestContext, src: KeySource, env: Env, attempts: nat, maxRetries: int, p: Progress, failure: Option<Failure>,
               ghost log: seq<Attempt>, ghost before: seq<Record>)
      returns (over: bool, outcome: Outcome, p': Progress)
    requires attempts + 1 == |log| <= maxRetries + 1 && p.pending == -1 && Legal(src, env, log)
    requires Last(log).called && Last(log).failure == failure && Last(log).key == p.currentKey
    requires TrailBegun(src, log[..attempts], p.currentKey, before, ctx.trail)
    requires !src.NoKeys? ==> p.dead == Dead(log[..attempts], env.fallbacks)
    requires !src.NoKeys? ==> p.used == if Last(log).reset then {} else Used(log[..attempts], env.fallbacks)
    requires !src.NoKeys? ==> ctx.selectedKeyID == Last(log).key.id && ctx.selectedKeyName == Last(log).key.name
    modifies ctx`trail, ctx`selectedKeyID, ctx`selectedKeyName
    ensures TrailIs(src, log, before, ctx.trail)
    ensures !over ==> Tracks(src, env, log, p', maxRetries)
    ensures over ==> Ends(src, env, log, maxRetries, outcome) && Answers(outcome)
    ensures Selects(src, log, !over || outcome.Success?, old((ctx.selectedKeyID, ctx.selectedKeyName)), ctx.selectedKeyID, ctx.selectedKeyName)
  {
    hide Legal, TrailIs, TrailBegun, Dead, Used, AllKeysDead;
    over, outcome, p' := true, Success, p;
    TrailCloses(src, log[..attempts], p.currentKey, before, ctx.trail, Last(log));
    assert log == log[..attempts] + [Last(log)];
    if !GoesOn(Last(log), env.fallbacks) { NotAllDead(src, env, log); }
    if failure.Some? {
      outcome := Failed(failure.value);
      if !Stops(failure.value) {
        ctx.FillReason(failure.value);
        if Retryable(failure.value, env.fallbacks) {
          TrailLength(src, log, before, ctx.trail);
          p' := Learn(src, env, attempts, maxRetries, p, failure.value, |ctx.trail|, log);
          over := false;
        }
      }
      if over && !src.NoKeys? {
        ctx.selectedKeyID, ctx.selectedKeyName := "", "";
      }
    }
  }

  /** One pass of the loop; over says that the loop is left. */
  method RunAttempt(ctx: RequestContext, src: KeySource, env: Env, attempts: nat, maxRetries: int, p: Progress,
                    ghost log: seq<Attempt>, ghost before: seq<Record>)
      returns (over: bool, outcome: Outcome, p': Progress, failure: Option<Failure>, ghost log': seq<Attempt>)
    requires env.Honest() && (src.Pool? ==> src.pool != [])
    requires attempts == |log| <= maxRetries && Legal(src, env, log) && Tracks(src, env, log, p, maxRetries)
    requires if log == [] then ctx.trail == before else TrailIs(src, log, before, ctx.trail)
    requires log != [] && !src.NoKeys? ==> ctx.selectedKeyID == Last(log).key.id && ctx.selectedKeyName == Last(log).key.name
    modifies ctx`trail, ctx`selectedKeyID, ctx`selectedKeyName
    ensures Legal(src, env, log') && TrailIs(src, log', before, ctx.trail) && |log'| <= |log| + 1
    ensures !over ==> |log'| == |log| + 1 && failure == Last(log').failure && Tracks(src, env, log', p', maxRetries)
    ensures over ==> Ends(src, env, log', maxRetries, outcome) && |log'| == |log| + if Answers(outcome) then 1 else 0
    ensures Selects(src, log', !over || outcome.Success? || outcome.TracerMissing?, old((ctx.selectedKeyID, ctx.selectedKeyName)),
                    ctx.selectedKeyID, ctx.selectedKeyName)
  {
    hide Legal, TrailIs, TrailBegun, Dead, Used, PerKey, KeyFollows, Retryable, WithReason, PickOf, NextPick;
    over, log', failure := true, log, None;
    ghost var selected, reset;
    var pick;
    pick, p', selected, reset := BeginAttempt(ctx, src, env, attempts, p, log, maxRetries, before);
    if !pick.Picked? {
      outcome := match pick case NoneEligible => AllFiltered case NoneAlive => AllDead case PickFailed(m) => SelectorFailed(m);
      TrackedSoFar(src, env, log, p, maxRetries);
      return;
    }
    var waits := false;
    if attempts > 0 {
      var keyChanged := !src.NoKeys? && p'.currentKey.id != p.previousKeyID;
      waits := !(p.lastWasPermanent && keyChanged);
    }
    var hasTracer, handler := env.tracer, env.handler;
    var called := hasTracer(attempts);
    if called {
      failure := handler(attempts, p'.currentKey);
    }
    ghost var last := Attempt(p'.currentKey, selected, reset, waits, called, failure);
    LegalGrows(src, env, log, last);
    log' := log + [last];
    assert log'[..attempts] == log;
    if !called {
      TrailCloses(src, log, p'.currentKey, before, ctx.trail, last);
      NoReason(ctx.trail);
      NotAllDead(src, env, log');
      outcome := TracerMissing;
      return;
    }
    over, outcome, p' := Judge(ctx, src, env, attempts, maxRetries, p', failure, log', before);
  }

  lemma NoReason(trail: seq<Record>)
    ensures WithReason(trail, None) == trail
  {
  }

  lemma TrackedSoFar(src: KeySource, env: Env, log: seq<Attempt>, p: Progress, maxRetries: int)
    requires Tracks(src, env, log, p, maxRetries)
    ensures log != [] ==> GoesOn(Last(log), env.fallbacks) && Last(log).failure.Some? && Last(log).called
    ensures log != [] ==> Retryable(Last(log).failure.value, env.fallbacks)
  {
  }

  /** The retry loop.  Its history is legal, its trail tells the history, and it ends as the
      history says. */
  method ExecuteRequestWithRetries(ctx: RequestContext, maxRetries: int, src: KeySource, env: Env)
      returns (outcome: Outcome, ghost log: seq<Attempt>)
    requires env.Honest() && (src.Pool? ==> src.pool != [])
    modifies ctx
    ensures Legal(src, env, log)
    ensures |log| <= if maxRetries < 0 then 0 else maxRetries + 1
    ensures if maxRetries < 0 then ctx.trail == old(ctx.trail) else TrailIs(src, log, old(ctx.trail), ctx.trail)
    ensures Ends(src, env, log, maxRetries, outcome)
    ensures ctx.numberOfRetries == if maxRetries < 0 then old(ctx.numberOfRetries) else if Answers(outcome) then |log| - 1 else |log|
    ensures maxRetries < 0 ==> ctx.selectedKeyID == old(ctx.selectedKeyID) && ctx.selectedKeyName == old(ctx.selectedKeyName)
    ensures maxRetries >= 0 ==> Selects(src, log, outcome.Success? || outcome.TracerMissing?,
                                        old((ctx.selectedKeyID, ctx.selectedKeyName)), ctx.selectedKeyID, ctx.selectedKeyName)
  {
    hide Legal, TrailIs, Tracks, AllKeysDead, Retryable;
    log := [];
    ghost var before := ctx.trail;
    BeginsTracked(src, env, maxRetries);
    var p := BEGINNING;
    var failure: Option<Failure> := None;
    var attempts := 0;
    while attempts <= maxRetries
      invariant attempts == |log| && (log != [] ==> attempts <= maxRetries + 1)
      invariant Legal(src, env, log) && Tracks(src, env, log, p, maxRetries)
      invariant if log == [] then ctx.trail == before else TrailIs(src, log, before, ctx.trail)
      invariant log != [] ==> failure.Some? && failure == Last(log).failure && Last(log).called
      invariant if log == [] then unchanged(ctx) else ctx.numberOfRetries == |log| - 1
      invariant src.NoKeys? ==> unchanged(ctx`selectedKeyID) && unchanged(ctx`selectedKeyName)
      invariant !src.NoKeys? && log != [] ==> ctx.selectedKeyID == Last(log).key.id && ctx.selectedKeyName == Last(log).key.name
    {
      ctx.numberOfRetries := attempts;
      var over;
      over, outcome, p, failure, log := RunAttempt(ctx, src, env, attempts, maxRetries, p, log, before);
      if over {
        return;
      }
      TrackedSoFar(src, env, log, p, maxRetries);
      attempts := attempts + 1;
    }
    if maxRetries < 0 {
      outcome := Nothing;
      return;
    }
    outcome := Failed(failure.value);
    if !src.NoKeys? {
      ctx.selectedKeyID, ctx.selectedKeyName := "", "";
    }
  }

  // ----- What a legal history guarantees -----

  lemma {:induction false} DeadMonotone(log: seq<Attempt>, i: nat, j: nat, fallbacks: bool)
    requires i <= j <= |log|
    ensures Dead(log[..i], fallbacks) <= Dead(log[..j], fallbacks)
  {
    if i < j {
      DeadMonotone(log, i, j - 1, fallbacks);
      DeadPrefix(log, j - 1, fallbacks);
    }
  }

  /** A key that failed with 401, 402 or 403 and was to be retried is never used again in the
      request, fixed or pooled. */
  lemma DeadNeverReused(src: KeySource, env: Env, log: seq<Attempt>, i: nat, j: nat)
    requires Legal(src, env, log) && !src.NoKeys? && i < j < |log| && Kills(log[i], env.fallbacks)
    ensures log[j].key.id != log[i].key.id
  {
    DeadPrefix(log, i, env.fallbacks);
    DeadMonotone(log, i + 1, j, env.fallbacks);
    NeverDead(src, env, log, j);
  }

  lemma UsedPrefix(log: seq<Attempt>, i: nat, fallbacks: bool)
    requires i < |log|
    ensures
      var before := if log[i].reset then {} else Used(log[..i], fallbacks);
      Used(log[..i + 1], fallbacks) == if RateLimits(log[i], fallbacks) then before + {log[i].key.id} else before
  {
    assert log[..i + 1] == log[..i] + [log[i]];
    UsedGrows(log[..i], log[i], fallbacks);
  }

  /** With a rotating pool no key is both dead and used, and the key in use is not used up unless
      it has just been rate-limited. */
  lemma {:induction false} UsedAndDeadDisjoint(src: KeySource, env: Env, log: seq<Attempt>, n: nat)
    requires Legal(src, env, log) && src.Pool? && n <= |log|
    ensures Used(log[..n], env.fallbacks) !! Dead(log[..n], env.fallbacks)
    ensures n > 0 && !RateLimits(log[n - 1], env.fallbacks) ==> log[n - 1].key.id !in Used(log[..n], env.fallbacks)
  {
    if n > 0 {
      var i := n - 1;
      assert MayFollow(src, env, log[..i], log[i]);
      hide Legal, RoundOver, Dead, Used;
      UsedAndDeadDisjoint(src, env, log, i);
      NeverDead(src, env, log, i);
      DeadPrefix(log, i, env.fallbacks);
      UsedPrefix(log, i, env.fallbacks);
      assert i > 0 ==> Last(log[..i]) == log[i - 1];
    } else {
      assert Used(log[..0], env.fallbacks) == {};
    }
  }

  predicate NoResetWithin(log: seq<Attempt>, p: nat, m: nat) {
    forall q :: p < q < m && q < |log| ==> !log[q].reset
  }

  /** Before attempt m the key failed for good, or was rate-limited in the round then running. */
  predicate SpentBefore(log: seq<Attempt>, m: nat, id: string, fallbacks: bool) {
    exists p :: 0 <= p < m && p < |log| && log[p].key.id == id
                && (Kills(log[p], fallbacks) || (RateLimits(log[p], fallbacks) && NoResetWithin(log, p, m)))
  }

  lemma {:induction false} UsedSince(log: seq<Attempt>, m: nat, id: string, fallbacks: bool)
    requires m <= |log| && id in Used(log[..m], fallbacks)
    ensures exists p :: 0 <= p < m && log[p].key.id == id && RateLimits(log[p], fallbacks) && NoResetWithin(log, p, m)
  {
    var a := log[m - 1];
    assert log[..m][..m - 1] == log[..m - 1];
    if RateLimits(a, fallbacks) && a.key.id == id {
      assert NoResetWithin(log, m - 1, m);
    } else {
      UsedSince(log, m - 1, id, fallbacks);
      var p :| 0 <= p < m - 1 && log[p].key.id == id && RateLimits(log[p], fallbacks) && NoResetWithin(log, p, m - 1);
      assert NoResetWithin(log, p, m);
    }
  }

  lemma {:induction false} StaysUsed(log: seq<Attempt>, i: nat, m: nat, fallbacks: bool)
    requires i < m <= |log| && RateLimits(log[i], fallbacks) && NoResetWithin(log, i, m)
    ensures log[i].key.id in Used(log[..m], fallbacks)
    decreases m
  {
    assert log[..m][..m - 1] == log[..m - 1];
    if i + 1 < m {
      assert NoResetWithin(log, i, m - 1);
      StaysUsed(log, i, m - 1, fallbacks);
    }
  }

  /** The first fresh round after attempt i. */
  lemma {:induction false} ResetBefore(log: seq<Attempt>, i: nat, j: nat)
    requires i < j <= |log| && !NoResetWithin(log, i, j)
    ensures exists m :: i < m < j && log[m].reset
  {
  }

  /** A used key is not picked again within its round; without a per-key failure it stays in use. */
  lemma NotInUsed(src: KeySource, env: Env, log: seq<Attempt>, j: nat)
    requires Legal(src, env, log) && src.Pool? && j < |log| && !log[j].reset
    ensures log[j].key.id !in Used(log[..j], env.fallbacks)
  {
    assert MayFollow(src, env, log[..j], log[j]);
    if !log[j].selected {
      assert Last(log[..j]) == log[j - 1];
      UsedAndDeadDisjoint(src, env, log, j);
    }
  }

  /** A fresh round begins only when every key is spent. */
  lemma ResetMeansSpent(src: KeySource, env: Env, log: seq<Attempt>, m: nat, k: Key)
    requires Legal(src, env, log) && env.filter.None? && m < |log| && log[m].reset && k in src.Keys()
    ensures SpentBefore(log, m, k.id, env.fallbacks)
  {
    assert MayFollow(src, env, log[..m], log[m]);
    if k.id in Dead(log[..m], env.fallbacks) {
      var p :| 0 <= p < m && Kills(log[..m][p], env.fallbacks) && log[..m][p].key.id == k.id;
      assert log[p].key.id == k.id && Kills(log[p], env.fallbacks);
    } else {
      assert k.id in Used(log[..m], env.fallbacks);
      UsedSince(log, m, k.id, env.fallbacks);
    }
  }

  lemma ReuseNeedsReset(src: KeySource, env: Env, log: seq<Attempt>, i: nat, j: nat)
    requires Legal(src, env, log) && src.Pool? && i < j < |log|
    requires RateLimits(log[i], env.fallbacks) && log[j].key.id == log[i].key.id
    ensures exists m :: i < m <= j && log[m].reset
  {
    if NoResetWithin(log, i, j) {
      StaysUsed(log, i, j, env.fallbacks);
      if !log[j].reset { NotInUsed(src, env, log, j); }
    } else {
      ResetBefore(log, i, j);
    }
  }

  /** Without a pool filter a rate-limited key is used again only after a fresh round that began
      when every key of the pool had failed for good or been rate-limited since the round before. */
  lemma ReuseNeedsFullRound(src: KeySource, env: Env, log: seq<Attempt>, i: nat, j: nat)
    requires Legal(src, env, log) && src.Pool? && env.filter.None? && i < j < |log|
    requires RateLimits(log[i], env.fallbacks) && log[j].key.id == log[i].key.id
    ensures exists m :: i < m <= j && log[m].reset && forall k :: k in src.pool ==> SpentBefore(log, m, k.id, env.fallbacks)
  {
    hide Legal, RateLimits, SpentBefore;
    ReuseNeedsReset(src, env, log, i, j);
    var m :| i < m <= j && log[m].reset;
    forall k | k in src.pool ensures SpentBefore(log, m, k.id, env.fallbacks) { ResetMeansSpent(src, env, log, m, k); }
  }

  /** A recorded rotation names an attempt that failed for its key and was followed by another key;
      with the tracer present there is one record for each call of the provider. */
  lemma RotationsAreReal(src: KeySource, env: Env, log: seq<Attempt>, trail: seq<Record>, i: nat)
    requires Legal(src, env, log) && !src.NoKeys? && TrailTells(log, trail) && i < |log|
    ensures trail[i].triggeredRotation <==> i + 1 < |trail| && trail[i + 1].keyID != trail[i].keyID
    ensures trail[i].triggeredRotation ==> log[i].failure.Some? && PerKey(log[i].failure.value)
    ensures (forall n: nat :: env.tracer(n)) ==> log[i].called
    ensures trail[i].attempt == i
  {
    assert Recorded(log, None, trail, i);
    assert MayFollow(src, env, log[..i], log[i]);
    if i + 1 < |log| {
      assert Recorded(log, None, trail, i + 1);
      assert MayFollow(src, env, log[..i + 1], log[i + 1]) && Last(log[..i + 1]) == log[i];
    }
  }
}
