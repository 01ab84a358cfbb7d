/** The Redis refresh-token store and the session calls that use it. */
module Tokens {
  import opened Domain
  import opened Strings

  /** A refresh token stands for its own hash: hashing is taken to be injective. */
  type Token = string

  datatype Grant = Grant(user: Id, expires: int)

  type Grants = map<Token, Grant>

  /** Redis drops a key once the clock is past its expiry. */
  function Unexpired(grants: Grants, now: int): Grants
  {
    map t | t in grants && now <= grants[t].expires :: grants[t]
  }

  /** Whether Redis answers a command is an input; an unanswered one took no effect here. */
  class TokenCache {
    var grants: Grants
    const ttl: int

    constructor (ttl: int)
      ensures grants == map[] && this.ttl == ttl
    {
      this.ttl := ttl;
      grants := map[];
    }

    method SetRefreshToken(token: Token, user: Id, now: int, answers: bool) returns (e: Option<Error>)
      modifies this
      ensures e == if answers then None else Some(Unavailable)
      ensures grants == if answers then old(grants)[token := Grant(user, now + ttl)] else old(grants)
    {
      if !answers {
        return Some(Unavailable);
      }
      grants := grants[token := Grant(user, now + ttl)];
      return None;
    }

    method GetRefreshToken(token: Token, answers: bool) returns (r: Result<Id>)
      ensures r.Ok? <==> answers && token in grants
      ensures r.Ok? ==> r.value == grants[token].user
      ensures r.Err? ==> r.error == if answers then NotFound else Unavailable
    {
      if !answers {
        return Err(Unavailable);
      }
      if token !in grants {
        return Err(NotFound);
      }
      return Ok(grants[token].user);
    }

    /** The old token is gone whenever it was found, even when the new one is not stored. */
    method RotateRefreshToken(token: Token, next: Token, user: Id, now: int, takeAnswers: bool, setAnswers: bool) returns (e: Option<Error>)
      modifies this
      ensures e.None? <==> takeAnswers && setAnswers && token in old(grants) && old(grants)[token].user == user
      ensures e == Some(InvalidCredentials) <==> takeAnswers && (token !in old(grants) || old(grants)[token].user != user)
      ensures e.Some? ==> e.value in {InvalidCredentials, Unavailable}
      ensures e.None? ==> grants == (old(grants) - {token})[next := Grant(user, now + ttl)]
      ensures e.Some? ==> grants == if takeAnswers then old(grants) - {token} else old(grants)
    {
      if !takeAnswers {
        return Some(Unavailable);
      }
      if token !in grants {
        return Some(InvalidCredentials);
      }
      var owner := grants[token].user;
      grants := grants - {token};
      if owner != user {
        return Some(InvalidCredentials);
      }
      if !setAnswers {
        return Some(Unavailable);
      }
      grants := grants[next := Grant(user, now + ttl)];
      return None;
    }

    method DeleteRefreshToken(token: Token, answers: bool) returns (e: Option<Error>)
      modifies this
      ensures e == if answers then None else Some(Unavailable)
      ensures grants == if answers then old(grants) - {token} else old(grants)
    {
      if !answers {
        return Some(Unavailable);
      }
      grants := grants - {token};
      return None;
    }
  }

  /** The session calls of the auth service; `next` is the token the generator yields. */
  class AuthService {
    const users: set<Id>
    const sessions: TokenCache

    constructor (users: set<Id>, sessions: TokenCache)
      ensures this.users == users && this.sessions == sessions
    {
      this.users := users;
      this.sessions := sessions;
    }

    method IssueTokens(user: Id, next: Token, now: int, answers: bool) returns (r: Result<Token>)
      modifies sessions
      ensures r == if answers then Ok(next) else Err(Unavailable)
      ensures sessions.grants == if answers then old(sessions.grants)[next := Grant(user, now + sessions.ttl)] else old(sessions.grants)
    {
      var e := sessions.SetRefreshToken(next, user, now, answers);
      if e.Some? {
        return Err(e.value);
      }
      return Ok(next);
    }

    /** Run alone, a refresh hands the presented token's user over to `next` and spends the token. */
    method Refresh(raw: string, next: Token, now: int, getAnswers: bool, takeAnswers: bool, setAnswers: bool) returns (r: Result<Token>)
      modifies sessions
      ensures var t, was := Trim(raw), old(sessions.grants);
        r.Ok? <==> t != "" && t in was && was[t].user in users && getAnswers && takeAnswers && setAnswers
      ensures var t, was := Trim(raw), old(sessions.grants);
        r.Ok? ==> r.value == next && t in was && sessions.grants == (was - {t})[next := Grant(was[t].user, now + sessions.ttl)]
      ensures r.Ok? && next != Trim(raw) ==> Trim(raw) !in sessions.grants
      ensures r.Err? ==> sessions.grants == old(sessions.grants) || sessions.grants == old(sessions.grants) - {Trim(raw)}
      ensures r == Err(InvalidCredentials) ==> sessions.grants == old(sessions.grants)
      ensures r.Err? ==> r.error in {InvalidCredentials, Unavailable}
    {
      var token := Trim(raw);
      if token == "" {
        return Err(InvalidCredentials);
      }
      var found := sessions.GetRefreshToken(token, getAnswers);
      if found.Err? {
        return if found.error == NotFound then Err(InvalidCredentials) else found;
      }
      var user := found.value;
      if user !in users {
        return Err(InvalidCredentials);
      }
      var e := sessions.RotateRefreshToken(token, next, user, now, takeAnswers, setAnswers);
      if e.Some? {
        return Err(e.value);
      }
      return Ok(next);
    }

    method Logout(raw: string, answers: bool) returns (e: Option<Error>)
      modifies sessions
      ensures e == if Trim(raw) == "" || answers then None else Some(Unavailable)
      ensures sessions.grants == if Trim(raw) != "" && answers then old(sessions.grants) - {Trim(raw)} else old(sessions.grants)
    {
      var token := Trim(raw);
      if token != "" {
        e := sessions.DeleteRefreshToken(token, answers);
        return;
      }
      return None;
    }
  }
}

/** Sign-in, refresh and logout from any number of clients, one Redis command at a time. */
module TokenProtocol {
  import opened Domain
  import opened Tokens

  /** What a request knows between two commands: `next` is the token it has generated. */
  datatype Process =
    | SigningIn(user: Id, next: Token)
    | Found(user: Id, token: Token)
    | Ready(user: Id, token: Token, next: Token)
    | Taken(user: Id, token: Token, next: Token)
  {
    /** Holds a token no one has been given yet. */
    predicate Holds() { !Found? }

    /** The chain's right to a session is in this request's hands. */
    predicate Carries() { SigningIn? || Taken? }
  }

  /** The sign-in a token descends from: its first token and its user. */
  datatype Origin = Origin(root: Token, user: Id)

  /**
   * Redis and the open requests, with three histories: every generated token's origin,
   * the tokens each chain went through, and the tokens that won a rotation, in order.
   */
  datatype State = State(
    now: int,
    grants: Grants,
    procs: map<nat, Process>,
    born: map<Token, Origin>,
    paths: map<Token, seq<Token>>,
    won: seq<Token>)

  datatype Step =
    | Advance(elapsed: nat)
    | SignIn(pid: nat, user: Id, minted: Token)
    | StoreFirst(pid: nat, applied: bool)
    | Find(pid: nat, token: Token)
    | Prepare(pid: nat, minted: Token)
    | Take(pid: nat, answered: bool)
    | StoreNext(pid: nat, applied: bool)
    | Logout(token: Token)
    | Abandon(pid: nat)

  function OriginOf(s: State, token: Token): Origin
  {
    if token in s.born then s.born[token] else Origin(token, "")
  }

  function PathOf(s: State, root: Token): seq<Token>
  {
    if root in s.paths then s.paths[root] else []
  }

  /** Any request may present any token; generated tokens are new. */
  predicate Enabled(s: State, step: Step)
  {
    match step
    case Advance(_) => true
    case SignIn(pid, _, minted) => pid !in s.procs && minted !in s.born
    case StoreFirst(pid, _) => pid in s.procs && s.procs[pid].SigningIn?
    case Find(pid, _) => pid !in s.procs
    case Prepare(pid, minted) => pid in s.procs && s.procs[pid].Found? && minted !in s.born
    case Take(pid, _) => pid in s.procs && s.procs[pid].Ready?
    case StoreNext(pid, _) => pid in s.procs && s.procs[pid].Taken?
    case Logout(_) => true
    case Abandon(pid) => pid in s.procs
  }

  /** SET, whose effect and whose reply may each be lost. */
  function Stored(s: State, pid: nat, applied: bool, ttl: int): State
    requires pid in s.procs && s.procs[pid].Carries()
  {
    var p := s.procs[pid];
    State(s.now, if applied then s.grants[p.next := Grant(p.user, s.now + ttl)] else s.grants, s.procs - {pid}, s.born, s.paths, s.won)
  }

  /** GETDEL and the check of the owner it returned; a lost reply ends the request with the token spent. */
  function Rotated(s: State, pid: nat, answered: bool): State
    requires pid in s.procs && s.procs[pid].Ready?
  {
    var p := s.procs[pid];
    if p.token !in s.grants || !answered || s.grants[p.token].user != p.user then
      s.(grants := s.grants - {p.token}, procs := s.procs - {pid})
    else
      var root := OriginOf(s, p.token).root;
      State(s.now, s.grants - {p.token}, s.procs[pid := Taken(p.user, p.token, p.next)], s.born,
            s.paths[root := PathOf(s, root) + [p.next]], s.won + [p.token])
  }

  function Apply(s: State, step: Step, ttl: int): State
    requires Enabled(s, step)
  {
    match step
    case Advance(elapsed) =>
      s.(now := s.now + elapsed, grants := Unexpired(s.grants, s.now + elapsed))
    case SignIn(pid, user, minted) =>
      s.(procs := s.procs[pid := SigningIn(user, minted)], born := s.born[minted := Origin(minted, user)], paths := s.paths[minted := [minted]])
    case StoreFirst(pid, applied) => Stored(s, pid, applied, ttl)
    case Find(pid, token) =>
      if token in s.grants then s.(procs := s.procs[pid := Found(s.grants[token].user, token)]) else s
    case Prepare(pid, minted) =>
      var p := s.procs[pid];
      s.(procs := s.procs[pid := Ready(p.user, p.token, minted)], born := s.born[minted := OriginOf(s, p.token)])
    case Take(pid, answered) => Rotated(s, pid, answered)
    case StoreNext(pid, applied) => Stored(s, pid, applied, ttl)
    case Logout(token) => s.(grants := s.grants - {token})
    case Abandon(pid) => s.(procs := s.procs - {pid})
  }
}
