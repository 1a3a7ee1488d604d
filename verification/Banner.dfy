/** The status banner: one row in the database, a five second cache on each
    replica, and a generation that keeps a read from caching what a write has
    just replaced.  Version n of the banner is what the n-th committed set or
    clear left behind. */
module Banner {
  import opened Wrappers

  const CACHE_TTL: real := 5.0

  /** A load that fails is served, and cached, as no banner. */
  datatype Value = Loaded(version: nat) | Unavailable

  datatype Cached = Cached(stamp: real, value: Value)

  /** `returned` is history: the newest write this replica has answered. */
  datatype Replica = Replica(cache: Option<Cached>, generation: nat, returned: nat)

  datatype Reader = Reader(replica: nat, generation: nat, stamp: real, floor: nat, seen: Option<Value>)

  datatype Write = Write(replica: nat, version: nat)

  /** A read that was answered: when it started and which writes its replica
      had answered by then. */
  datatype Answer = Answer(started: real, floor: nat, value: Value)

  datatype State = State(
    clock: real,
    commits: seq<real>,
    replicas: map<nat, Replica>,
    writers: map<nat, Write>,
    readers: map<nat, Reader>,
    answers: seq<Answer>)

  datatype Event =
    | Commit(writer: nat, replica: nat, at: real)
    | Return(writer: nat)
    | Start(reader: nat, replica: nat, at: real)
    | Load(reader: nat, succeeds: bool)
    | Finish(reader: nat)

  function Init(): State {
    State(0.0, [], map[], map[], map[], [])
  }

  function Local(s: State, r: nat): Replica {
    if r in s.replicas then s.replicas[r] else Replica(None, 0, 0)
  }

  // ----- the two ways a replica's cache changes -----

  function Invalidated(r: Replica, version: nat): Replica {
    Replica(None, r.generation + 1, if version > r.returned then version else r.returned)
  }

  /** Kept only if no write was answered since the read began. */
  function Kept(r: Replica, generation: nat, stamp: real, value: Value): Replica {
    if generation == r.generation then r.(cache := Some(Cached(stamp, value))) else r
  }

  function Hit(r: Replica, now: real): Option<Value> {
    if r.cache.Some? && now - r.cache.value.stamp < CACHE_TTL then Some(r.cache.value.value) else None
  }

  predicate Enabled(s: State, ev: Event) {
    match ev
    case Commit(w, _, at) => w !in s.writers && s.clock <= at
    case Return(w) => w in s.writers
    case Start(r, _, at) => r !in s.readers && s.clock <= at
    case Load(r, _) => r in s.readers && s.readers[r].seen.None?
    case Finish(r) => r in s.readers && s.readers[r].seen.Some?
  }

  function Next(s: State, ev: Event): State
    requires Enabled(s, ev)
  {
    match ev
    case Commit(w, replica, at) =>
      s.(clock := at, commits := s.commits + [at], writers := s.writers[w := Write(replica, |s.commits| + 1)])
    case Return(w) =>
      var write := s.writers[w];
      s.(replicas := s.replicas[write.replica := Invalidated(Local(s, write.replica), write.version)],
         writers := s.writers - {w})
    case Start(r, replica, at) =>
      var local := Local(s, replica);
      var hit := Hit(local, at);
      if hit.Some? then s.(clock := at, answers := s.answers + [Answer(at, local.returned, hit.value)])
      else s.(clock := at, readers := s.readers[r := Reader(replica, local.generation, at, local.returned, None)])
    case Load(r, succeeds) =>
      s.(readers := s.readers[r := s.readers[r].(seen := Some(if succeeds then Loaded(|s.commits|) else Unavailable))])
    case Finish(r) =>
      var x := s.readers[r];
      s.(replicas := s.replicas[x.replica := Kept(Local(s, x.replica), x.generation, x.stamp, x.seen.value)],
         readers := s.readers - {r},
         answers := s.answers + [Answer(x.stamp, x.floor, x.seen.value)])
  }

  predicate Run(evs: seq<Event>)
    decreases |evs|, 0
  {
    evs == [] || (Run(evs[..|evs| - 1]) && Enabled(After(evs[..|evs| - 1]), evs[|evs| - 1]))
  }

  function After(evs: seq<Event>): State
    requires Run(evs)
    decreases |evs|, 1
  {
    if evs == [] then Init() else Next(After(evs[..|evs| - 1]), evs[|evs| - 1])
  }

  // ----- what every step keeps -----

  /** Everything committed before `from` is in version `v`. */
  predicate Covers(commits: seq<real>, v: nat, from: real) {
    v <= |commits| && forall n | v <= n < |commits| :: commits[n] >= from
  }

  predicate ValueOk(commits: seq<real>, value: Value, floor: nat, from: real) {
    value.Loaded? ==> floor <= value.version && Covers(commits, value.version, from)
  }

  predicate ReplicaOk(s: State, r: Replica) {
    && r.returned <= |s.commits|
    && (r.cache.Some? ==>
          r.cache.value.stamp <= s.clock
          && ValueOk(s.commits, r.cache.value.value, r.returned, r.cache.value.stamp))
  }

  predicate ReaderOk(s: State, x: Reader) {
    var local := Local(s, x.replica);
    && x.stamp <= s.clock && x.floor <= local.returned && x.generation <= local.generation
    && (x.generation == local.generation ==> x.floor == local.returned)
    && (x.seen.Some? ==> ValueOk(s.commits, x.seen.value, x.floor, x.stamp))
  }

  predicate AnswerOk(s: State, a: Answer) {
    a.started <= s.clock && ValueOk(s.commits, a.value, a.floor, a.started - CACHE_TTL)
  }

  predicate Inv(s: State) {
    && (forall c | c in s.commits :: c <= s.clock)
    && (forall r | r in s.replicas :: ReplicaOk(s, s.replicas[r]))
    && (forall w | w in s.writers :: s.writers[w].version <= |s.commits|)
    && (forall x | x in s.readers :: ReaderOk(s, s.readers[x]))
    && (forall a | a in s.answers :: AnswerOk(s, a))
  }

  lemma CommitKeepsInv(s: State, ev: Event)
    requires Inv(s) && Enabled(s, ev) && ev.Commit?
    ensures Inv(Next(s, ev))
  {
    var t := Next(s, ev);
    forall r | r in t.replicas
      ensures ReplicaOk(t, t.replicas[r])
    {
      assert ReplicaOk(s, s.replicas[r]);
    }
    forall x | x in t.readers
      ensures ReaderOk(t, t.readers[x])
    {
      assert ReaderOk(s, s.readers[x]);
    }
    forall a | a in t.answers
      ensures AnswerOk(t, a)
    {
      assert AnswerOk(s, a);
    }
  }

  lemma ReturnKeepsInv(s: State, ev: Event)
    requires Inv(s) && Enabled(s, ev) && ev.Return?
    ensures Inv(Next(s, ev))
  {
    var t := Next(s, ev);
    assert ReplicaOk(s, Local(s, s.writers[ev.writer].replica));
    forall x | x in t.readers
      ensures ReaderOk(t, t.readers[x])
    {
      assert ReaderOk(s, s.readers[x]);
    }
    forall a | a in t.answers
      ensures AnswerOk(t, a)
    {
      assert AnswerOk(s, a);
    }
  }

  lemma LoadKeepsInv(s: State, ev: Event)
    requires Inv(s) && Enabled(s, ev) && ev.Load?
    ensures Inv(Next(s, ev))
  {
    var t := Next(s, ev);
    forall x | x in t.readers
      ensures ReaderOk(t, t.readers[x])
    {
      assert ReaderOk(s, s.readers[x]);
      assert ReplicaOk(s, Local(s, s.readers[x].replica));
    }
    forall a | a in t.answers
      ensures AnswerOk(t, a)
    {
      assert AnswerOk(s, a);
    }
  }

  lemma StartKeepsInv(s: State, ev: Event)
    requires Inv(s) && Enabled(s, ev) && ev.Start?
    ensures Inv(Next(s, ev))
  {
    var t := Next(s, ev);
    assert ReplicaOk(s, Local(s, ev.replica));
    forall r | r in t.replicas
      ensures ReplicaOk(t, t.replicas[r])
    {
      assert ReplicaOk(s, s.replicas[r]);
    }
    forall x | x in t.readers
      ensures ReaderOk(t, t.readers[x])
    {
      if x in s.readers {
        assert ReaderOk(s, s.readers[x]);
        assert ReplicaOk(s, Local(s, s.readers[x].replica));
      }
    }
    forall a | a in t.answers
      ensures AnswerOk(t, a)
    {
      assert a in s.answers ==> AnswerOk(s, a);
    }
  }

  lemma FinishKeepsInv(s: State, ev: Event)
    requires Inv(s) && Enabled(s, ev) && ev.Finish?
    ensures Inv(Next(s, ev))
  {
    var t, x := Next(s, ev), s.readers[ev.reader];
    assert ReaderOk(s, x) && ReplicaOk(s, Local(s, x.replica));
    forall y | y in t.readers
      ensures ReaderOk(t, t.readers[y])
    {
      assert ReaderOk(s, s.readers[y]);
    }
    forall a | a in t.answers
      ensures AnswerOk(t, a)
    {
      assert a in s.answers ==> AnswerOk(s, a);
    }
  }

  lemma {:induction false} RunKeepsInv(evs: seq<Event>)
    requires Run(evs)
    ensures Inv(After(evs))
  {
    if evs != [] {
      var s, ev := After(evs[..|evs| - 1]), evs[|evs| - 1];
      RunKeepsInv(evs[..|evs| - 1]);
      match ev
      case Commit(_, _, _) => CommitKeepsInv(s, ev);
      case Return(_) => ReturnKeepsInv(s, ev);
      case Finish(_) => FinishKeepsInv(s, ev);
      case Start(_, _, _) => StartKeepsInv(s, ev);
      case Load(_, _) => LoadKeepsInv(s, ev);
    }
  }

  /** A read that starts after a set or clear was answered on its replica
      yields that write or a later one, or no banner because a load failed;
      never a value cached by a load that began before the write. */
  lemma ReadsSeeAnsweredWrites(evs: seq<Event>, a: Answer)
    requires Run(evs) && a in After(evs).answers && a.value.Loaded?
    ensures a.floor <= a.value.version
  {
    RunKeepsInv(evs);
    assert AnswerOk(After(evs), a);
  }

  /** On every other replica a write is seen no later than the cache lifetime
      after its commit. */
  lemma ReplicasCatchUp(evs: seq<Event>, a: Answer, n: nat)
    requires Run(evs) && a in After(evs).answers && a.value.Loaded?
    requires n < |After(evs).commits| && After(evs).commits[n] < a.started - CACHE_TTL
    ensures n + 1 <= a.value.version
  {
    RunKeepsInv(evs);
    assert AnswerOk(After(evs), a);
  }

  /** `floor` is what it says: once a write was answered, every later read of
      that replica starts with a floor that includes it. */
  lemma {:induction false} AnsweredWritesStay(evs: seq<Event>, i: nat, writer: nat)
    requires Run(evs) && i < |evs| && Run(evs[..i]) && evs[i] == Return(writer)
    requires Enabled(After(evs[..i]), evs[i])
    ensures var write := After(evs[..i]).writers[writer];
      Local(After(evs), write.replica).returned >= write.version
    decreases |evs|
  {
    var before := evs[..|evs| - 1];
    if i < |before| {
      assert before[..i] == evs[..i];
      AnsweredWritesStay(before, i, writer);
    }
  }

  // ----- a read against a write, over a run -----

  /** The read started at step j is answered at step k: at once from the cache,
      or when it first finishes. */
  predicate AnsweredAt(evs: seq<Event>, j: nat, k: nat)
    requires j <= k < |evs|
  {
    && evs[j].Start? && Run(evs[..j])
    && if k == j then Hit(Local(After(evs[..j]), evs[j].replica), evs[j].at).Some?
       else && Hit(Local(After(evs[..j]), evs[j].replica), evs[j].at).None?
            && evs[k] == Finish(evs[j].reader)
            && forall m | j < m < k :: evs[m] != Finish(evs[j].reader)
  }

  lemma {:induction false} PrefixRuns(evs: seq<Event>, n: nat)
    requires Run(evs) && n <= |evs|
    ensures Run(evs[..n]) && (n < |evs| ==> Enabled(After(evs[..n]), evs[n]))
    ensures n < |evs| ==> Run(evs[..n + 1]) && After(evs[..n + 1]) == Next(After(evs[..n]), evs[n])
  {
    if n == |evs| {
      assert evs[..n] == evs;
    } else if n == |evs| - 1 {
      assert evs[..n + 1] == evs;
    } else {
      PrefixRuns(evs[..|evs| - 1], n);
      assert evs[..|evs| - 1][..n] == evs[..n] && evs[..|evs| - 1][..n + 1] == evs[..n + 1];
    }
  }

  lemma TheAnswer(evs: seq<Event>, j: nat, k: nat)
    requires Run(evs) && j <= k < |evs| && AnsweredAt(evs, j, k) && Run(evs[..k + 1])
    ensures After(evs[..k + 1]).answers != []
    ensures var answers := After(evs[..k + 1]).answers;
      answers[|answers| - 1].floor == Local(After(evs[..j]), evs[j].replica).returned
  {
    PrefixRuns(evs, k);
    if j < k {
      var l := LoadedOnce(evs, j, k);
    }
  }

  /** A write is answered at step i, a read of the same replica starts at a later
      step j and is answered at step k: if its load succeeded, it yields that
      write or a later one. */
  lemma ReadAfterAnsweredWrite(evs: seq<Event>, i: nat, j: nat, k: nat)
    requires Run(evs) && i < j <= k < |evs| && evs[i].Return? && AnsweredAt(evs, j, k)
    requires Run(evs[..i]) && Enabled(After(evs[..i]), evs[i]) && Run(evs[..k + 1])
    requires evs[j].replica == After(evs[..i]).writers[evs[i].writer].replica
    ensures After(evs[..k + 1]).answers != []
    ensures var answers := After(evs[..k + 1]).answers;
      var value := answers[|answers| - 1].value;
      value.Loaded? ==> value.version >= After(evs[..i]).writers[evs[i].writer].version
  {
    var answers := After(evs[..k + 1]).answers;
    TheAnswer(evs, j, k);
    PrefixRuns(evs, j);
    assert evs[..j][..i] == evs[..i];
    AnsweredWritesStay(evs[..j], i, evs[i].writer);
    if answers[|answers| - 1].value.Loaded? {
      ReadsSeeAnsweredWrites(evs[..k + 1], answers[|answers| - 1]);
    }
  }

  // ----- what a read answers, and what the cache is for -----

  predicate Ends(ev: Event, r: nat) { ev == Finish(r) }

  predicate Loads(ev: Event, r: nat) { ev.Load? && ev.reader == r }

  /** What a load at this point would find. */
  function Found(evs: seq<Event>, succeeds: bool): Value
    requires Run(evs)
  {
    if succeeds then Loaded(|After(evs).commits|) else Unavailable
  }

  lemma ReaderStep(s: State, ev: Event, r: nat)
    requires Enabled(s, ev) && r in s.readers && !Ends(ev, r)
    ensures r in Next(s, ev).readers
    ensures Next(s, ev).readers[r]
         == if Loads(ev, r) then s.readers[r].(seen := Some(if ev.succeeds then Loaded(|s.commits|) else Unavailable))
            else s.readers[r]
  {
  }

  /** A read under way holds what its one load found, once there was one. */
  lemma {:induction false} LoadedOnce(evs: seq<Event>, j: nat, k: nat) returns (l: nat)
    requires Run(evs) && j < k <= |evs| && Run(evs[..j]) && Run(evs[..k]) && evs[j].Start?
    requires Hit(Local(After(evs[..j]), evs[j].replica), evs[j].at).None?
    requires forall m | j < m < k :: !Ends(evs[m], evs[j].reader)
    ensures evs[j].reader in After(evs[..k]).readers
    ensures var x := After(evs[..k]).readers[evs[j].reader];
      && x.replica == evs[j].replica && x.stamp == evs[j].at
      && x.generation == Local(After(evs[..j]), evs[j].replica).generation
      && x.floor == Local(After(evs[..j]), evs[j].replica).returned
      && (x.seen.Some? ==> j < l < k && Loads(evs[l], evs[j].reader) && Run(evs[..l])
                           && x.seen == Some(Found(evs[..l], evs[l].succeeds)))
    decreases k
  {
    PrefixRuns(evs, k - 1);
    l := k - 1;
    if k > j + 1 {
      var before := LoadedOnce(evs, j, k - 1);
      ReaderStep(After(evs[..k - 1]), evs[k - 1], evs[j].reader);
      if !Loads(evs[k - 1], evs[j].reader) {
        l := before;
      }
    }
  }

  /** A read that is not served from the cache answers what its own load found:
      every set and clear committed by then, and no banner only if that load
      failed. */
  lemma AnswersItsLoad(evs: seq<Event>, j: nat, k: nat) returns (l: nat)
    requires Run(evs) && j < k < |evs| && AnsweredAt(evs, j, k) && Run(evs[..k + 1])
    ensures j < l < k && Loads(evs[l], evs[j].reader) && Run(evs[..l])
    ensures After(evs[..k + 1]).answers != []
    ensures var answers := After(evs[..k + 1]).answers;
      answers[|answers| - 1].value == Found(evs[..l], evs[l].succeeds)
  {
    PrefixRuns(evs, k);
    l := LoadedOnce(evs, j, k);
  }

  /** A set or clear is answered on this replica. */
  predicate AnswersOn(s: State, ev: Event, replica: nat) {
    ev.Return? && ev.writer in s.writers && s.writers[ev.writer].replica == replica
  }

  predicate AnsweredOn(evs: seq<Event>, m: nat, replica: nat)
    requires m < |evs|
  {
    Run(evs[..m]) && AnswersOn(After(evs[..m]), evs[m], replica)
  }

  predicate NoneAnswered(evs: seq<Event>, j: nat, k: nat, replica: nat)
    requires k <= |evs|
    decreases k
  {
    j < k ==> NoneAnswered(evs, j, k - 1, replica) && !AnsweredOn(evs, k - 1, replica)
  }

  lemma GenerationStep(s: State, ev: Event, replica: nat)
    requires Enabled(s, ev)
    ensures Local(Next(s, ev), replica).generation
         == Local(s, replica).generation + if AnswersOn(s, ev, replica) then 1 else 0
  {
  }

  /** The generation stands still exactly while no write is answered. */
  lemma {:induction false} GenerationTells(evs: seq<Event>, j: nat, k: nat, replica: nat)
    requires Run(evs) && j <= k <= |evs| && Run(evs[..j]) && Run(evs[..k])
    ensures Local(After(evs[..j]), replica).generation <= Local(After(evs[..k]), replica).generation
    ensures Local(After(evs[..j]), replica).generation == Local(After(evs[..k]), replica).generation
            <==> NoneAnswered(evs, j, k, replica)
    decreases k
  {
    if j < k {
      PrefixRuns(evs, k - 1);
      GenerationTells(evs, j, k - 1, replica);
      GenerationStep(After(evs[..k - 1]), evs[k - 1], replica);
      assert AnsweredOn(evs, k - 1, replica) <==> AnswersOn(After(evs[..k - 1]), evs[k - 1], replica);
    }
  }

  /** What a read loaded is cached if and only if no set or clear was answered on
      its replica while it was under way; otherwise the cache stays as it is. */
  lemma KeptExactly(evs: seq<Event>, j: nat, k: nat)
    requires Run(evs) && j < k < |evs| && AnsweredAt(evs, j, k) && Run(evs[..k]) && Run(evs[..k + 1])
    ensures After(evs[..k + 1]).answers != []
    ensures var answers, replica := After(evs[..k + 1]).answers, evs[j].replica;
      Local(After(evs[..k + 1]), replica).cache
      == if NoneAnswered(evs, j, k, replica)
         then Some(Cached(evs[j].at, answers[|answers| - 1].value))
         else Local(After(evs[..k]), replica).cache
  {
    PrefixRuns(evs, k);
    var l := LoadedOnce(evs, j, k);
    GenerationTells(evs, j, k, evs[j].replica);
  }

  /** The steps that may change a replica's cache. */
  predicate Touches(s: State, ev: Event, replica: nat) {
    || AnswersOn(s, ev, replica)
    || (ev.Finish? && ev.reader in s.readers && s.readers[ev.reader].replica == replica)
  }

  predicate TouchedAt(evs: seq<Event>, m: nat, replica: nat)
    requires m < |evs|
  {
    Run(evs[..m]) && Touches(After(evs[..m]), evs[m], replica)
  }

  predicate Untouched(evs: seq<Event>, i: nat, j: nat, replica: nat)
    requires j <= |evs|
    decreases j
  {
    i < j ==> Untouched(evs, i, j - 1, replica) && !TouchedAt(evs, j - 1, replica)
  }

  lemma CacheStep(s: State, ev: Event, replica: nat)
    requires Enabled(s, ev) && !Touches(s, ev, replica)
    ensures Local(Next(s, ev), replica).cache == Local(s, replica).cache
  {
  }

  lemma {:induction false} CacheStays(evs: seq<Event>, i: nat, j: nat, replica: nat)
    requires Run(evs) && i <= j <= |evs| && Run(evs[..i]) && Run(evs[..j])
    requires Untouched(evs, i, j, replica)
    ensures Local(After(evs[..j]), replica).cache == Local(After(evs[..i]), replica).cache
    decreases j
  {
    if i < j {
      PrefixRuns(evs, j - 1);
      CacheStays(evs, i, j - 1, replica);
      CacheStep(After(evs[..j - 1]), evs[j - 1], replica);
    }
  }

  /** A value cached at some point serves every read that starts on its replica
      less than five seconds after the load it came from began, until a write is
      answered there or another read finishes; and no read after that. */
  lemma CacheServesExactly(evs: seq<Event>, i: nat, j: nat, kept: Cached)
    requires Run(evs) && i <= j < |evs| && evs[j].Start? && Run(evs[..i]) && Run(evs[..j]) && Run(evs[..j + 1])
    requires Local(After(evs[..i]), evs[j].replica).cache == Some(kept)
    requires Untouched(evs, i, j, evs[j].replica)
    ensures AnsweredAt(evs, j, j) <==> evs[j].at < kept.stamp + 5.0
    ensures AnsweredAt(evs, j, j) ==>
      var answers := After(evs[..j + 1]).answers;
      answers != [] && answers[|answers| - 1].value == kept.value
  {
    CacheStays(evs, i, j, evs[j].replica);
    PrefixRuns(evs, j);
  }

  // ----- the module globals, updated in place -----

  class Cache {
    var cache: Option<Cached>
    var generation: nat

    constructor ()
      ensures cache.None? && generation == 0
    {
      cache, generation := None, 0;
    }

    ghost predicate Is(r: Replica)
      reads this
    {
      cache == r.cache && generation == r.generation
    }

    method Invalidate(ghost r: Replica, ghost version: nat)
      requires Is(r)
      modifies this
      ensures Is(Invalidated(r, version))
    {
      cache := None;
      generation := generation + 1;
    }

    method Lookup(now: real, ghost r: Replica) returns (value: Option<Value>)
      requires Is(r)
      ensures value == Hit(r, now)
    {
      if cache.Some? && now - cache.value.stamp < CACHE_TTL {
        return Some(cache.value.value);
      }
      return None;
    }

    method Keep(seenGeneration: nat, stamp: real, value: Value, ghost r: Replica)
      requires Is(r)
      modifies this
      ensures Is(Kept(r, seenGeneration, stamp, value))
    {
      if seenGeneration == generation {
        cache := Some(Cached(stamp, value));
      }
    }
  }
}
