/**
 API-key authentication (`internal/auth/auth.go`): the cache as an object with two critical sections,
 and concurrent `Authenticate` calls as a state machine over those sections, the unlocked store
 lookup between them, store changes and a non-decreasing clock.
 */
module Auth {
  import opened Text

  datatype KeyRecord = KeyRecord(
    keyId: Str, tenant: Str, group: Str, expiresAt: Option<int>, allowedModels: seq<Str>, app: Option<int>, env: Str)

  /** What a lookup says: the record, or that there is no such key. */
  type Answer = Option<KeyRecord>

  type KeyStore = map<Str, KeyRecord>

  function LookupByHash(store: KeyStore, hash: Str): Answer {
    if hash in store then Some(store[hash]) else None
  }

  datatype Ttl = Ttl(positive: int, negative: int)

  const MINUTE := 60_000_000_000

  function TtlFor(ttl: Ttl, a: Answer): int {
    if a.Some? then ttl.positive else ttl.negative
  }

  datatype Entry = Entry(answer: Answer, expireAt: int)

  type Cache = map<Str, Entry>

  function Hit(cache: Cache, hash: Str, now: int): Option<Answer> {
    if hash in cache && now < cache[hash].expireAt then Some(cache[hash].answer) else None
  }

  function Remembered(cache: Cache, ttl: Ttl, hash: Str, a: Answer, now: int): Cache {
    cache[hash := Entry(a, now + TtlFor(ttl, a))]
  }

  datatype Verdict = Accepted(rec: KeyRecord, at: int) | Expired(at: int) | InvalidKey | StoreFailed

  /** The expiry check with its own clock reading. */
  function Judge(a: Answer, at: int): Verdict {
    if a.None? then InvalidKey
    else if a.value.expiresAt.Some? && at >= a.value.expiresAt.value then Expired(at)
    else Accepted(a.value, at)
  }

  class Authenticator {
    const ttl: Ttl
    var cache: Cache

    constructor (cacheTTL: int, negativeTTL: int)
      ensures ttl.positive == (if cacheTTL <= 0 then 60_000_000_000 else cacheTTL)
      ensures ttl.negative == (if negativeTTL <= 0 then ttl.positive else negativeTTL)
      ensures cache == map[]
    {
      var positive := if cacheTTL <= 0 then MINUTE else cacheTTL;
      ttl := Ttl(positive, if negativeTTL <= 0 then positive else negativeTTL);
      cache := map[];
    }

    /** The first critical section of `resolve`. */
    method Check(hash: Str, now: int) returns (r: Option<Answer>)
      ensures r == Hit(cache, hash, now)
      ensures r == if hash in cache && now < cache[hash].expireAt then Some(cache[hash].answer) else None
    {
      if hash in cache {
        var e := cache[hash];
        if now < e.expireAt {
          return Some(e.answer);
        }
      }
      r := None;
    }

    /** The second critical section of `resolve`. */
    method Remember(hash: Str, a: Answer, now: int)
      modifies this
      ensures cache == Remembered(old(cache), ttl, hash, a, now)
    {
      var life := ttl.negative;
      if a.Some? {
        life := ttl.positive;
      }
      cache := cache[hash := Entry(a, now + life)];
    }

    /** `Authenticate` with nothing in between: `found` is what the store returns if asked, absent when
        it fails; `now` and `later` are the two clock readings. */
    method Authenticate(key: Str, hashKey: Str -> Str, found: Option<Answer>, now: int, later: int) returns (v: Verdict)
      modifies this
      ensures key == [] ==> v == InvalidKey && cache == old(cache)
      ensures key != [] ==>
                var hash := hashKey(key);
                var cached := hash in old(cache) && now < old(cache)[hash].expireAt;
                if !cached && found.None? then v == StoreFailed && cache == old(cache)
                else
                  var a := if cached then old(cache)[hash].answer else found.value;
                  && v == (if a.None? then InvalidKey
                           else if a.value.expiresAt.None? || later < a.value.expiresAt.value
                           then Accepted(a.value, later)
                           else Expired(later))
                  && cache == (if cached then old(cache)
                               else old(cache)[hash := Entry(a, now + if a.Some? then ttl.positive else ttl.negative)])
    {
      if key == [] {
        return InvalidKey;
      }
      var hash := hashKey(key);
      var r := Check(hash, now);
      if r.None? {
        if found.None? {
          return StoreFailed;
        }
        Remember(hash, found.value, now);
        r := found;
      }
      if r.value.None? {
        return InvalidKey;
      }
      var rec := r.value.value;
      if rec.expiresAt.Some? && !(later < rec.expiresAt.value) {
        return Expired(later);
      }
      v := Accepted(rec, later);
    }
  }

  // ---------------------------------------------------------------------------------------
  // Concurrent calls
  // ---------------------------------------------------------------------------------------

  /** Where a call stands: about to check the cache, to ask the store, to write what the store said, to
      check the expiry; or finished. */
  datatype Phase =
    | Checking
    | Looking
    | Writing(answer: Answer)
    | Judging(answer: Answer)
    | Done(answer: Answer, verdict: Verdict)
    | Failed

  datatype Call = Call(hash: Str, now: int, phase: Phase)

  datatype State = State(clock: int, store: KeyStore, cache: Cache, calls: map<nat, Call>)

  datatype Step =
    | Tick(clock: int)
    | Change(store: KeyStore)
    | Begin(id: nat, hash: Str)
    | CheckStep(id: nat)
    | LookStep(id: nat, fails: bool)
    | WriteStep(id: nat)
    | JudgeStep(id: nat)

  function WithPhase(s: State, id: nat, phase: Phase): State
    requires id in s.calls
  {
    s.(calls := s.calls[id := s.calls[id].(phase := phase)])
  }

  /** One atomic step; a step that is not enabled changes nothing. */
  function Next(ttl: Ttl, s: State, step: Step): State {
    match step
    case Tick(clock) => if clock >= s.clock then s.(clock := clock) else s
    case Change(store) => s.(store := store)
    case Begin(id, hash) => if id in s.calls then s else s.(calls := s.calls[id := Call(hash, s.clock, Checking)])
    case CheckStep(id) =>
      if id !in s.calls || s.calls[id].phase != Checking then s
      else
        var hit := Hit(s.cache, s.calls[id].hash, s.calls[id].now);
        WithPhase(s, id, if hit.Some? then Judging(hit.value) else Looking)
    case LookStep(id, fails) =>
      if id !in s.calls || s.calls[id].phase != Looking then s
      else WithPhase(s, id, if fails then Failed else Writing(LookupByHash(s.store, s.calls[id].hash)))
    case WriteStep(id) =>
      if id !in s.calls || !s.calls[id].phase.Writing? then s
      else
        var c := s.calls[id];
        WithPhase(s, id, Judging(c.phase.answer)).(cache := Remembered(s.cache, ttl, c.hash, c.phase.answer, c.now))
    case JudgeStep(id) =>
      if id !in s.calls || !s.calls[id].phase.Judging? then s
      else
        var a := s.calls[id].phase.answer;
        WithPhase(s, id, Done(a, Judge(a, s.clock)))
  }

  function Start(clock: int, store: KeyStore): State {
    State(clock, store, map[], map[])
  }

  function After(ttl: Ttl, s: State, steps: seq<Step>): State {
    if steps == [] then s else Next(ttl, After(ttl, s, steps[..|steps| - 1]), steps[|steps| - 1])
  }

  /** At moment `n` of the run the store answered `a` for this hash, the clock being at least `since`. */
  ghost predicate AnsweredAt(ttl: Ttl, s: State, steps: seq<Step>, n: nat, hash: Str, a: Answer, since: int) {
    && n <= |steps|
    && LookupByHash(After(ttl, s, steps[..n]).store, hash) == a && After(ttl, s, steps[..n]).clock >= since
  }

  ghost predicate Answered(ttl: Ttl, s: State, steps: seq<Step>, hash: Str, a: Answer, since: int) {
    exists n: nat :: AnsweredAt(ttl, s, steps, n, hash, a, since)
  }

  lemma AnsweredStays(ttl: Ttl, s: State, steps: seq<Step>, hash: Str, a: Answer, since: int, since': int)
    requires steps != [] && Answered(ttl, s, steps[..|steps| - 1], hash, a, since) && since' <= since
    ensures Answered(ttl, s, steps, hash, a, since')
  {
    hide After;
    var m := |steps| - 1;
    var n: nat :| AnsweredAt(ttl, s, steps[..m], n, hash, a, since);
    assert steps[..m][..n] == steps[..n];
    assert AnsweredAt(ttl, s, steps, n, hash, a, since');
  }

  /** The store's answer at the last moment before a step. */
  lemma AnsweredNow(ttl: Ttl, s: State, steps: seq<Step>, hash: Str)
    requires steps != []
    ensures var before := After(ttl, s, steps[..|steps| - 1]);
            Answered(ttl, s, steps, hash, LookupByHash(before.store, hash), before.clock)
  {
    hide After;
    var before := After(ttl, s, steps[..|steps| - 1]);
    assert AnsweredAt(ttl, s, steps, |steps| - 1, hash, LookupByHash(before.store, hash), before.clock);
  }

  /** A cached answer was the store's no longer than its lifetime before it expires. */
  ghost predicate EntryOk(ttl: Ttl, s: State, steps: seq<Step>, hash: Str, e: Entry) {
    Answered(ttl, s, steps, hash, e.answer, e.expireAt - TtlFor(ttl, e.answer))
  }

  /** A call that has an answer has one the store gave less than its lifetime before the call's clock
      reading, or later; and it accepts no record that its second clock reading finds expired. */
  ghost predicate CallOk(ttl: Ttl, s: State, steps: seq<Step>, clock: int, c: Call) {
    && c.now <= clock
    && match c.phase
       case Writing(a) => Answered(ttl, s, steps, c.hash, a, c.now)
       case Judging(a) => Answered(ttl, s, steps, c.hash, a, c.now - TtlFor(ttl, a) + 1)
       case Done(a, v) =>
         && Answered(ttl, s, steps, c.hash, a, c.now - TtlFor(ttl, a) + 1)
         && VerdictOk(a, v)
         && (v.Accepted? || v.Expired? ==> c.now <= v.at <= clock)
       case _ => true
  }

  /** A known key is accepted exactly when it has no expiry or the second clock reading is before it, is
      expired exactly when the reading is at or past it, and an unknown one is invalid. */
  predicate VerdictOk(a: Answer, v: Verdict) {
    match v
    case Accepted(rec, at) => a == Some(rec) && (rec.expiresAt.None? || at < rec.expiresAt.value)
    case Expired(at) => a.Some? && a.value.expiresAt.Some? && at >= a.value.expiresAt.value
    case InvalidKey => a.None?
    case StoreFailed => false
  }

  ghost predicate Inv(ttl: Ttl, s: State, steps: seq<Step>) {
    var t := After(ttl, s, steps);
    && (forall hash :: hash in t.cache ==> EntryOk(ttl, s, steps, hash, t.cache[hash]))
    && (forall id :: id in t.calls ==> CallOk(ttl, s, steps, t.clock, t.calls[id]))
  }

  lemma CallStays(ttl: Ttl, s: State, steps: seq<Step>, clock: int, clock': int, c: Call)
    requires steps != [] && CallOk(ttl, s, steps[..|steps| - 1], clock, c) && clock <= clock'
    ensures CallOk(ttl, s, steps, clock', c)
  {
    hide Answered, After;
    match c.phase
    case Writing(a) => AnsweredStays(ttl, s, steps, c.hash, a, c.now, c.now);
    case Judging(a) =>
      AnsweredStays(ttl, s, steps, c.hash, a, c.now - TtlFor(ttl, a) + 1, c.now - TtlFor(ttl, a) + 1);
    case Done(a, v) =>
      AnsweredStays(ttl, s, steps, c.hash, a, c.now - TtlFor(ttl, a) + 1, c.now - TtlFor(ttl, a) + 1);
    case _ =>
  }

  lemma EntryStays(ttl: Ttl, s: State, steps: seq<Step>, hash: Str, e: Entry)
    requires steps != [] && EntryOk(ttl, s, steps[..|steps| - 1], hash, e)
    ensures EntryOk(ttl, s, steps, hash, e)
  {
    var since := e.expireAt - TtlFor(ttl, e.answer);
    AnsweredStays(ttl, s, steps, hash, e.answer, since, since);
  }

  /** The one call a step moves. */
  lemma MovedCall(ttl: Ttl, s: State, steps: seq<Step>, id: nat)
    requires steps != [] && ttl.positive > 0 && ttl.negative > 0 && Inv(ttl, s, steps[..|steps| - 1])
    requires var t := After(ttl, s, steps[..|steps| - 1]);
             var u := Next(ttl, t, steps[|steps| - 1]);
             id in t.calls && id in u.calls && u.calls[id] != t.calls[id]
    ensures var u := Next(ttl, After(ttl, s, steps[..|steps| - 1]), steps[|steps| - 1]);
            CallOk(ttl, s, steps, u.clock, u.calls[id])
  {
    hide After, Answered;
    var before, step := steps[..|steps| - 1], steps[|steps| - 1];
    var t := After(ttl, s, before);
    var c := t.calls[id];
    assert CallOk(ttl, s, before, t.clock, c);
    match step
    case CheckStep(_) =>
      if Hit(t.cache, c.hash, c.now).Some? {
        var e := t.cache[c.hash];
        assert EntryOk(ttl, s, before, c.hash, e);
        AnsweredStays(ttl, s, steps, c.hash, e.answer, e.expireAt - TtlFor(ttl, e.answer),
                      c.now - TtlFor(ttl, e.answer) + 1);
      }
    case LookStep(_, fails) =>
      AnsweredNow(ttl, s, steps, c.hash);
      AnsweredSooner(ttl, s, steps, c.hash, LookupByHash(t.store, c.hash), t.clock, c.now);
    case WriteStep(_) =>
      AnsweredStays(ttl, s, steps, c.hash, c.phase.answer, c.now, c.now - TtlFor(ttl, c.phase.answer) + 1);
    case JudgeStep(_) =>
      var since := c.now - TtlFor(ttl, c.phase.answer) + 1;
      AnsweredStays(ttl, s, steps, c.hash, c.phase.answer, since, since);
  }

  lemma AnsweredSooner(ttl: Ttl, s: State, steps: seq<Step>, hash: Str, a: Answer, since: int, since': int)
    requires Answered(ttl, s, steps, hash, a, since) && since' <= since
    ensures Answered(ttl, s, steps, hash, a, since')
  {
    hide After;
    var n: nat :| AnsweredAt(ttl, s, steps, n, hash, a, since);
    assert AnsweredAt(ttl, s, steps, n, hash, a, since');
  }

  lemma ClockGrows(ttl: Ttl, t: State, step: Step)
    ensures t.clock <= Next(ttl, t, step).clock
    ensures forall id :: id in t.calls ==> id in Next(ttl, t, step).calls
  {
  }

  /** The one entry a step writes. */
  lemma WrittenEntry(ttl: Ttl, s: State, steps: seq<Step>, hash: Str)
    requires steps != [] && Inv(ttl, s, steps[..|steps| - 1])
    requires hash in Next(ttl, After(ttl, s, steps[..|steps| - 1]), steps[|steps| - 1]).cache
    ensures EntryOk(ttl, s, steps, hash, Next(ttl, After(ttl, s, steps[..|steps| - 1]), steps[|steps| - 1]).cache[hash])
  {
    hide After, Answered, EntryOk;
    var before, step := steps[..|steps| - 1], steps[|steps| - 1];
    var t := After(ttl, s, before);
    var e := Next(ttl, t, step).cache[hash];
    if hash in t.cache && e == t.cache[hash] {
      EntryStays(ttl, s, steps, hash, e);
    } else {
      var c := t.calls[step.id];
      assert CallOk(ttl, s, before, t.clock, c);
      AnsweredStays(ttl, s, steps, hash, c.phase.answer, c.now, c.now);
      WrittenIsOk(ttl, s, steps, hash, c.phase.answer, c.now);
    }
  }

  lemma WrittenIsOk(ttl: Ttl, s: State, steps: seq<Step>, hash: Str, a: Answer, now: int)
    requires Answered(ttl, s, steps, hash, a, now)
    ensures EntryOk(ttl, s, steps, hash, Entry(a, now + TtlFor(ttl, a)))
  {
  }

  lemma {:induction false} RunKeepsInv(ttl: Ttl, clock: int, store: KeyStore, steps: seq<Step>)
    requires ttl.positive > 0 && ttl.negative > 0
    ensures Inv(ttl, Start(clock, store), steps)
  {
    hide Answered, CallOk, EntryOk, Next;
    if steps != [] {
      var s, before, step := Start(clock, store), steps[..|steps| - 1], steps[|steps| - 1];
      RunKeepsInv(ttl, clock, store, before);
      var t, u := After(ttl, s, before), After(ttl, s, steps);
      ClockGrows(ttl, t, step);
      forall hash | hash in u.cache ensures EntryOk(ttl, s, steps, hash, u.cache[hash]) {
        WrittenEntry(ttl, s, steps, hash);
      }
      forall id | id in u.calls ensures CallOk(ttl, s, steps, u.clock, u.calls[id]) {
        if id !in t.calls {
          NewCall(ttl, t, step, id);
          NewCallOk(ttl, s, steps, u.clock, u.calls[id]);
        } else if u.calls[id] == t.calls[id] {
          CallStays(ttl, s, steps, t.clock, u.clock, t.calls[id]);
        } else {
          MovedCall(ttl, s, steps, id);
        }
      }
    }
  }

  lemma NewCall(ttl: Ttl, t: State, step: Step, id: nat)
    requires id !in t.calls && id in Next(ttl, t, step).calls
    ensures var c := Next(ttl, t, step).calls[id]; c.phase == Checking && c.now == t.clock
  {
  }

  lemma NewCallOk(ttl: Ttl, s: State, steps: seq<Step>, clock: int, c: Call)
    requires c.phase == Checking && c.now <= clock
    ensures CallOk(ttl, s, steps, clock, c)
  {
  }

  /** In every interleaving, the answer a finished call rests on is what the store held for that key at
      some moment of the run less than the applicable lifetime before the call read the clock, or later;
      and its verdict is acceptance exactly for a known key that the second reading finds unexpired. */
  lemma BoundedStaleness(ttl: Ttl, clock: int, store: KeyStore, steps: seq<Step>, id: nat) returns (n: nat)
    requires ttl.positive > 0 && ttl.negative > 0
    requires var t := After(ttl, Start(clock, store), steps); id in t.calls && t.calls[id].phase.Done?
    ensures var c := After(ttl, Start(clock, store), steps).calls[id];
            && n <= |steps|
            && c.phase.answer == (if c.hash in After(ttl, Start(clock, store), steps[..n]).store
                                  then Some(After(ttl, Start(clock, store), steps[..n]).store[c.hash]) else None)
            && After(ttl, Start(clock, store), steps[..n]).clock
               + (if c.phase.answer.Some? then ttl.positive else ttl.negative) > c.now
            && VerdictOk(c.phase.answer, c.phase.verdict)
            && (c.phase.verdict.Accepted? || c.phase.verdict.Expired? ==> c.now <= c.phase.verdict.at)
  {
    hide After;
    RunKeepsInv(ttl, clock, store, steps);
    var s := Start(clock, store);
    var c := After(ttl, s, steps).calls[id];
    assert CallOk(ttl, s, steps, After(ttl, s, steps).clock, c);
    n :| AnsweredAt(ttl, s, steps, n, c.hash, c.phase.answer, c.now - TtlFor(ttl, c.phase.answer) + 1);
  }

  /** A key gone from the store whenever the clock is past `revoked` is accepted by no call that starts a
      full lifetime after it. */
  lemma RevocationTakesEffect(ttl: Ttl, clock: int, store: KeyStore, steps: seq<Step>, id: nat, revoked: int)
    requires ttl.positive > 0 && ttl.negative > 0
    requires var t := After(ttl, Start(clock, store), steps);
             id in t.calls && t.calls[id].phase.Done? && t.calls[id].now >= revoked + ttl.positive
    requires var hash := After(ttl, Start(clock, store), steps).calls[id].hash;
             forall n :: 0 <= n <= |steps| && After(ttl, Start(clock, store), steps[..n]).clock > revoked ==>
               hash !in After(ttl, Start(clock, store), steps[..n]).store
    ensures !After(ttl, Start(clock, store), steps).calls[id].phase.verdict.Accepted?
  {
    hide After;
    var n := BoundedStaleness(ttl, clock, store, steps, id);
    assert After(ttl, Start(clock, store), steps[..n]).clock > revoked ==>
             LookupByHash(After(ttl, Start(clock, store), steps[..n]).store,
                          After(ttl, Start(clock, store), steps).calls[id].hash).None?;
  }

  /** The cache does its work: from the moment a call writes the store's answer until the lifetime after
      that call's clock reading, calls for the key that read an earlier time than that are answered from
      the cache, whatever has become of the store. */
  lemma WrittenAnswerIsServed(ttl: Ttl, s: State, writer: nat, reader: nat, store: KeyStore)
    requires writer in s.calls && s.calls[writer].phase.Writing? && reader in s.calls && reader != writer
    requires s.calls[reader].phase == Checking && s.calls[reader].hash == s.calls[writer].hash
    ensures var w, r := s.calls[writer], s.calls[reader];
            var lifetime := if w.phase.answer.Some? then ttl.positive else ttl.negative;
            var u := Next(ttl, Next(ttl, Next(ttl, s, WriteStep(writer)), Change(store)), CheckStep(reader));
            && reader in u.calls && u.store == store
            && u.calls[reader].phase == (if r.now < w.now + lifetime then Judging(w.phase.answer) else Looking)
  {
  }

  lemma AfterMore(ttl: Ttl, s: State, steps: seq<Step>, step: Step)
    ensures After(ttl, s, []) == s
    ensures After(ttl, s, steps + [step]) == Next(ttl, After(ttl, s, steps), step)
  {
    assert (steps + [step])[..|steps|] == steps;
  }

  /** A call whose steps nothing interrupts comes to the verdict of `Authenticate`: it takes the cached answer
      while that is fresh, else asks the store, remembers what it says from the time the call began, and
      judges it by the clock at the end. */
  lemma CallRunsThrough(ttl: Ttl, s: State, id: nat, hash: Str, fails: bool, later: int)
    requires id !in s.calls && later >= s.clock
    ensures var asked := Next(ttl, Next(ttl, Next(ttl, s, Begin(id, hash)), CheckStep(id)), LookStep(id, fails));
            var u := Next(ttl, Next(ttl, Next(ttl, asked, WriteStep(id)), Tick(later)), JudgeStep(id));
            var cached := hash in s.cache && s.clock < s.cache[hash].expireAt;
            && id in u.calls && u.calls[id].hash == hash && u.calls[id].now == s.clock
            && u.clock == later && u.store == s.store
            && if !cached && fails then u.calls[id].phase == Failed && u.cache == s.cache
               else
                 var a := if cached then s.cache[hash].answer
                          else if hash in s.store then Some(s.store[hash]) else None;
                 var lifetime := if a.Some? then ttl.positive else ttl.negative;
                 && u.calls[id].phase
                    == Done(a, if a.None? then InvalidKey
                               else if a.value.expiresAt.None? || later < a.value.expiresAt.value
                               then Accepted(a.value, later)
                               else Expired(later))
                 && u.cache == if cached then s.cache else s.cache[hash := Entry(a, s.clock + lifetime)]
  {
  }
}
