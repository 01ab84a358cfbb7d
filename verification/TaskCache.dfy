/** The Redis task-list cache: generation counters and stamped pages. */
module TaskCache {
  import opened Domain
  import opened TaskQuery

  /** Hours expressed in the milliseconds Redis counts in. */
  const GEN_TTL := 24 * 3600 * 1000

  datatype Counter = Counter(value: nat, expires: int)

  datatype Entry<+P> = Entry(value: P, expires: int)

  /** The page key: the whole query and the generation; its hash is taken to be injective. */
  datatype PageKey = PageKey(query: Query, gen: nat)

  /** What the cache keeps in Redis; `P` is what a page entry holds. */
  datatype Redis<+P> = Redis(gens: map<Id, Counter>, pages: map<PageKey, Entry<P>>)

  /** An absent counter reads as generation 0. */
  function Generation<P>(r: Redis<P>, team: Id): nat
  {
    if team in r.gens then r.gens[team].value else 0
  }

  function Lookup<P>(r: Redis<P>, q: Query, gen: nat): Option<P>
  {
    if PageKey(q, gen) in r.pages then Some(r.pages[PageKey(q, gen)].value) else None
  }

  function Store<P>(r: Redis<P>, q: Query, gen: nat, value: P, expires: int): Redis<P>
  {
    r.(pages := r.pages[PageKey(q, gen) := Entry(value, expires)])
  }

  /** INCR and EXPIRE in one MULTI. */
  function Bump<P>(r: Redis<P>, team: Id, expires: int): Redis<P>
  {
    r.(gens := r.gens[team := Counter(Generation(r, team) + 1, expires)])
  }

  /** Redis drops a key once the clock is past its expiry. */
  function Purge<P>(r: Redis<P>, now: int): Redis<P>
  {
    Redis(map t | t in r.gens && now <= r.gens[t].expires :: r.gens[t],
          map k | k in r.pages && now <= r.pages[k].expires :: r.pages[k])
  }

  /** The cache client. Whether Redis answers a command is an input. */
  class Client {
    var redis: Redis<Page>
    const ttl: int

    constructor (ttl: int)
      ensures redis == Redis(map[], map[]) && this.ttl == ttl
    {
      this.ttl := ttl;
      redis := Redis(map[], map[]);
    }

    /** A page and its stamp on a hit, a stamp alone on a miss, neither when Redis fails.
        An entry that does not decode is a miss. */
    method Get(q: Query, genAnswers: bool, pageAnswers: bool, decodes: bool) returns (page: Option<Page>, stamp: Option<nat>)
      ensures stamp == if genAnswers && pageAnswers then Some(Generation(redis, q.team)) else None
      ensures page == if genAnswers && pageAnswers && decodes then Lookup(redis, q, Generation(redis, q.team)) else None
    {
      if !genAnswers {
        return None, None;
      }
      var gen := 0;
      if q.team in redis.gens {
        gen := redis.gens[q.team].value;
      }
      if !pageAnswers {
        return None, None;
      }
      var key := PageKey(q, gen);
      if key !in redis.pages || !decodes {
        return None, Some(gen);
      }
      return Some(redis.pages[key].value), Some(gen);
    }

    method Set(q: Query, stamp: Option<nat>, page: Page, now: int, answers: bool)
      modifies this
      ensures redis == if stamp.Some? && answers then Store(old(redis), q, stamp.value, page, now + ttl) else old(redis)
    {
      if stamp.None? || !answers {
        return;
      }
      redis := redis.(pages := redis.pages[PageKey(q, stamp.value) := Entry(page, now + ttl)]);
    }

    method InvalidateTeam(team: Id, now: int, answers: bool)
      modifies this
      ensures redis == if answers then Bump(old(redis), team, now + GEN_TTL) else old(redis)
    {
      if !answers {
        return;
      }
      var n := 1;
      if team in redis.gens {
        n := redis.gens[team].value + 1;
      }
      redis := redis.(gens := redis.gens[team := Counter(n, now + GEN_TTL)]);
    }
  }
}
