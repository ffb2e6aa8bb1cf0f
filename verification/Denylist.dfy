/**
 * The token denylist: one map per worker, one Redis shared by all, any Redis
 * call may fail. Times are microseconds.
 */
module Denylist {
  import opened Basics

  type Jti = string
  type Worker = nat

  function Micros(seconds: int): int { seconds * 1_000_000 }

  /** A Redis entry: the stored expiry, and when its TTL ends. */
  datatype Entry = Entry(expires: int, ttlEnd: int)

  /** `int(x)` of a number of seconds given in microseconds: toward zero. */
  function WholeSeconds(micros: int): int {
    if micros >= 0 then micros / 1_000_000 else -((-micros) / 1_000_000)
  }

  class SharedRedis {
    var entries: map<Jti, Entry>

    constructor ()
      ensures entries == map[]
    {
      entries := map[];
    }

    /** `SETEX` at time `now`; `up` is false when the call fails. */
    method SetEx(jti: Jti, ttl: int, expires: int, now: int, up: bool)
      modifies this
      ensures entries == if up then old(entries)[jti := Entry(expires, now + Micros(ttl))] else old(entries)
    {
      if up {
        entries := entries[jti := Entry(expires, now + Micros(ttl))];
      }
    }
  }

  /** What `GET` answers at `now`: an entry past its TTL is gone. */
  function Get(redis: map<Jti, Entry>, jti: Jti, now: int): Option<int> {
    if jti in redis && now < redis[jti].ttlEnd then Some(redis[jti].expires) else None
  }

  function Added(entries: map<Jti, int>, jti: Jti, expires: int): map<Jti, int> {
    if jti == "" then entries else entries[jti := expires]
  }

  function Published(redis: map<Jti, Entry>, jti: Jti, expires: int, now: int, up: bool): map<Jti, Entry> {
    var ttl := WholeSeconds(expires - now);
    if jti == "" || ttl <= 0 || !up then redis else redis[jti := Entry(expires, now + Micros(ttl))]
  }

  /** The answer, and the worker's map afterwards: hydrated on a Redis hit, pruned on an expired entry. */
  function Asked(entries: map<Jti, int>, redis: map<Jti, Entry>, jti: Jti, now: int, up: bool): (map<Jti, int>, bool) {
    if jti == "" then (entries, false)
    else if jti in entries then
      if entries[jti] <= now then (entries - {jti}, false) else (entries, true)
    else
      var raw := if up then Get(redis, jti, now) else None;
      if raw.Some? && raw.value > now then (entries[jti := raw.value], true) else (entries, false)
  }

  function Purged(entries: map<Jti, int>, now: int): map<Jti, int> {
    map j | j in entries && entries[j] > now :: entries[j]
  }

  class WorkerList {
    var entries: map<Jti, int>

    constructor ()
      ensures entries == map[]
    {
      entries := map[];
    }

    /** `Denylist.add`: the local map first, Redis after, best effort. */
    method Add(redis: SharedRedis, jti: Jti, expires: int, now: int, up: bool)
      modifies this, redis
      ensures entries == Added(old(entries), jti, expires)
      ensures redis.entries == Published(old(redis.entries), jti, expires, now, up)
      ensures jti != "" ==> jti in entries && entries[jti] == expires
      ensures forall j :: j != jti ==>
        (j in entries <==> j in old(entries)) && (j in entries ==> entries[j] == old(entries)[j])
      ensures forall j ::
        j in redis.entries && (j in old(redis.entries) ==> redis.entries[j] != old(redis.entries)[j]) ==>
        j == jti && redis.entries[j].expires == expires && now < redis.entries[j].ttlEnd <= expires
    {
      if jti == "" {
        return;
      }
      entries := entries[jti := expires];
      var ttl := WholeSeconds(expires - now);
      if ttl <= 0 {
        return;
      }
      redis.SetEx(jti, ttl, expires, now, up);
    }

    /** `Denylist.contains` */
    method Contains(redis: SharedRedis, jti: Jti, now: int, up: bool) returns (denied: bool)
      modifies this
      ensures (entries, denied) == old(Asked(entries, redis.entries, jti, now, up))
      ensures denied ==> jti in entries && now < entries[jti]
      ensures denied ==> (if jti in old(entries) then entries[jti] == old(entries)[jti]
                          else up && jti in redis.entries && entries[jti] == redis.entries[jti].expires)
      ensures !denied && jti != "" ==> jti !in entries
      ensures forall j :: j != jti ==>
        (j in entries <==> j in old(entries)) && (j in entries ==> entries[j] == old(entries)[j])
    {
      if jti == "" {
        return false;
      }
      if jti in entries {
        if entries[jti] <= now {
          entries := entries - {jti};
          return false;
        }
        return true;
      }
      if !up {
        return false;
      }
      var raw := Get(redis.entries, jti, now);
      if raw.None? || raw.value <= now {
        return false;
      }
      entries := entries[jti := raw.value];
      return true;
    }

    /** `Denylist.purge_expired` */
    method PurgeExpired(now: int) returns (dropped: nat)
      modifies this
      ensures entries == Purged(old(entries), now)
      ensures forall j :: j in entries <==> j in old(entries) && old(entries)[j] > now
      ensures forall j :: j in entries ==> entries[j] == old(entries)[j]
      ensures dropped == |old(entries)| - |entries|
    {
      var expired := set j | j in entries && entries[j] <= now;
      dropped := |expired|;
      var left := expired;
      while left != {}
        invariant left <= entries.Keys
        invariant forall j :: j in entries <==> j in old(entries) && (old(entries)[j] > now || j in left)
        invariant forall j :: j in entries ==> entries[j] == old(entries)[j]
        invariant dropped + |entries| == |old(entries)| + |left|
        decreases left
      {
        var j :| j in left;
        DropOne(entries, j);
        entries := entries - {j};
        left := left - {j};
      }
      assert entries == Purged(old(entries), now);
    }
  }

  lemma DropOne(entries: map<Jti, int>, j: Jti)
    requires j in entries
    ensures |entries - {j}| == |entries| - 1
  {
    assert (entries - {j}).Keys == entries.Keys - {j};
  }

  // ---------------------------------------------------------------------
  // Many workers
  // ---------------------------------------------------------------------

  /** `asked`: every (jti, expiry) ever added; `own`: each worker's latest add per jti. */
  datatype World = World(
    lists: map<Worker, map<Jti, int>>, redis: map<Jti, Entry>,
    asked: set<(Jti, int)>, own: map<(Worker, Jti), int>, clock: int)

  datatype Step =
    | AddStep(w: Worker, jti: Jti, expires: int, now: int, up: bool)
    | ContainsStep(w: Worker, jti: Jti, now: int, up: bool)
    | PurgeStep(w: Worker, now: int)

  function ListOf(s: World, w: Worker): map<Jti, int> { if w in s.lists then s.lists[w] else map[] }

  function Next(s: World, step: Step): World {
    match step
    case AddStep(w, jti, expires, now, up) =>
      if jti == "" then s.(clock := now)
      else World(s.lists[w := Added(ListOf(s, w), jti, expires)], Published(s.redis, jti, expires, now, up),
                 s.asked + {(jti, expires)}, s.own[(w, jti) := expires], now)
    case ContainsStep(w, jti, now, up) =>
      s.(lists := s.lists[w := Asked(ListOf(s, w), s.redis, jti, now, up).0], clock := now)
    case PurgeStep(w, now) => s.(lists := s.lists[w := Purged(ListOf(s, w), now)], clock := now)
  }

  function Exec(s: World, steps: seq<Step>): World
    decreases |steps|
  {
    if steps == [] then s else Exec(Next(s, steps[0]), steps[1..])
  }

  function Fresh(start: int): World { World(map[], map[], {}, map[], start) }

  /** Nobody holds an expiry that no `add` gave. */
  ghost predicate Honest(s: World) {
    && (forall w, j :: w in s.lists && j in s.lists[w] ==> (j, s.lists[w][j]) in s.asked)
    && (forall j :: j in s.redis ==> (j, s.redis[j].expires) in s.asked)
  }

  lemma {:induction false} ExecKeepsHonest(s: World, steps: seq<Step>)
    requires Honest(s)
    ensures Honest(Exec(s, steps))
    decreases |steps|
  {
    if steps != [] {
      HonestStep(s, steps[0]);
      ExecKeepsHonest(Next(s, steps[0]), steps[1..]);
    }
  }

  lemma HonestStep(s: World, step: Step)
    requires Honest(s)
    ensures Honest(Next(s, step))
  {
  }

  predicate Denies(s: World, w: Worker, jti: Jti, now: int, up: bool) { Asked(ListOf(s, w), s.redis, jti, now, up).1 }

  /** A worker denies a token only if some worker's `add` gave it an expiry still to come. */
  lemma DenialHasACause(start: int, steps: seq<Step>, w: Worker, jti: Jti, now: int, up: bool)
    requires Denies(Exec(Fresh(start), steps), w, jti, now, up)
    ensures exists e :: (jti, e) in Exec(Fresh(start), steps).asked && now < e
  {
    ExecKeepsHonest(Fresh(start), steps);
    var s := Exec(Fresh(start), steps);
    if jti in ListOf(s, w) {
      assert (jti, s.lists[w][jti]) in s.asked;
    } else {
      assert (jti, s.redis[jti].expires) in s.asked;
    }
  }

  // Under a clock that never steps back.

  predicate ClockRuns(clock: int, steps: seq<Step>)
    decreases |steps|
  {
    steps == [] || (clock <= steps[0].now && ClockRuns(steps[0].now, steps[1..]))
  }

  /** Each worker still has its own latest add while that has not expired. */
  ghost predicate Remembers(s: World) {
    forall w, j :: (w, j) in s.own && s.clock < s.own[(w, j)] ==>
      w in s.lists && j in s.lists[w] && s.lists[w][j] == s.own[(w, j)]
  }

  lemma RemembersStep(s: World, step: Step)
    requires Remembers(s) && s.clock <= step.now
    ensures Remembers(Next(s, step))
  {
  }

  lemma {:induction false} ExecRemembers(s: World, steps: seq<Step>)
    requires Remembers(s) && ClockRuns(s.clock, steps)
    ensures Remembers(Exec(s, steps))
    decreases |steps|
  {
    if steps != [] {
      RemembersStep(s, steps[0]);
      ExecRemembers(Next(s, steps[0]), steps[1..]);
    }
  }

  /** Whatever Redis does, a worker denies a token until the expiry of its own latest add. */
  lemma OwnRevocationHolds(start: int, steps: seq<Step>, w: Worker, jti: Jti, now: int, up: bool)
    requires ClockRuns(start, steps) && jti != ""
    requires var s := Exec(Fresh(start), steps); (w, jti) in s.own && s.clock <= now < s.own[(w, jti)]
    ensures Denies(Exec(Fresh(start), steps), w, jti, now, up)
  {
    ExecRemembers(Fresh(start), steps);
  }

  /** Steps that leave `jti` to the one add already made. */
  predicate NotAdding(step: Step, jti: Jti) { !(step.AddStep? && step.jti == jti) }

  lemma {:induction false} RedisKeeps(s: World, steps: seq<Step>, jti: Jti)
    requires forall k: nat :: k < |steps| ==> NotAdding(steps[k], jti)
    ensures jti in Exec(s, steps).redis <==> jti in s.redis
    ensures jti in s.redis ==> Exec(s, steps).redis[jti] == s.redis[jti]
    decreases |steps|
  {
    if steps != [] {
      assert NotAdding(steps[0], jti);
      RedisKeeps(Next(s, steps[0]), steps[1..], jti);
    }
  }

  /** After an add that reached Redis, and while nobody adds the token again, a
      worker without an entry of its own denies it until the whole-second TTL
      ends; after that it does not. */
  lemma RevocationReachesEveryWorker(
    s: World, add: Step, steps: seq<Step>, w: Worker, now: int)
    requires add.AddStep? && add.up && add.jti != "" && WholeSeconds(add.expires - add.now) > 0
    requires forall k: nat :: k < |steps| ==> NotAdding(steps[k], add.jti)
    requires add.jti !in ListOf(Exec(Next(s, add), steps), w)
    ensures var ttlEnd := add.now + Micros(WholeSeconds(add.expires - add.now));
      && (Denies(Exec(Next(s, add), steps), w, add.jti, now, true) <==> now < ttlEnd)
      && add.expires - 1_000_000 < ttlEnd <= add.expires
  {
    TtlBounds(add.expires - add.now);
    AddReachesRedis(s, add);
    EveryWorkerDenies(Next(s, add), steps, add.jti, w, now);
  }

  lemma AddReachesRedis(s: World, add: Step)
    requires add.AddStep? && add.up && add.jti != "" && WholeSeconds(add.expires - add.now) > 0
    ensures add.jti in Next(s, add).redis
    ensures Next(s, add).redis[add.jti] == Entry(add.expires, add.now + Micros(WholeSeconds(add.expires - add.now)))
  {
  }

  lemma EveryWorkerDenies(s: World, steps: seq<Step>, jti: Jti, w: Worker, now: int)
    requires jti != "" && jti in s.redis && s.redis[jti].ttlEnd <= s.redis[jti].expires
    requires forall k: nat :: k < |steps| ==> NotAdding(steps[k], jti)
    requires jti !in ListOf(Exec(s, steps), w)
    ensures Denies(Exec(s, steps), w, jti, now, true) <==> now < s.redis[jti].ttlEnd
  {
    RedisKeeps(s, steps, jti);
    AskedOnAMiss(ListOf(Exec(s, steps), w), Exec(s, steps).redis, jti, now);
  }

  lemma TtlBounds(micros: int)
    requires WholeSeconds(micros) > 0
    ensures micros - 1_000_000 < Micros(WholeSeconds(micros)) <= micros
  {
  }

  lemma AskedOnAMiss(entries: map<Jti, int>, redis: map<Jti, Entry>, jti: Jti, now: int)
    requires jti != "" && jti !in entries && jti in redis && redis[jti].ttlEnd <= redis[jti].expires
    ensures Asked(entries, redis, jti, now, true).1 <==> now < redis[jti].ttlEnd
  {
  }
}
