/** What every interleaving of sign-ins, refreshes and logouts keeps. */
module TokenSafety {
  import opened Domain
  import opened Tokens
  import opened TokenProtocol

  const START := State(0, map[], map[], map[], map[], [])

  ghost predicate Feasible(s: State, steps: seq<Step>, ttl: int)
    decreases |steps|
  {
    steps == [] || (Enabled(s, steps[0]) && Feasible(Apply(s, steps[0], ttl), steps[1..], ttl))
  }

  ghost function Execute(s: State, steps: seq<Step>, ttl: int): State
    requires Feasible(s, steps, ttl)
    decreases |steps|
  {
    if steps == [] then s else Execute(Apply(s, steps[0], ttl), steps[1..], ttl)
  }

  /** The last token its chain has reached. */
  predicate Newest(s: State, t: Token)
  {
    t in s.born && var path := PathOf(s, s.born[t].root); path != [] && path[|path| - 1] == t
  }

  /** A token its chain has moved on from. */
  predicate Spent(s: State, t: Token)
  {
    t in s.born && t in PathOf(s, s.born[t].root) && !Newest(s, t)
  }

  predicate GrantsOk(s: State)
  {
    forall t :: t in s.grants ==> Newest(s, t) && s.grants[t].user == s.born[t].user
  }

  predicate ProcessOk(s: State, p: Process)
  {
    && (p.Holds() ==> p.next in s.born && p.next !in s.grants && s.born[p.next].user == p.user)
    && (p.Carries() ==> Newest(s, p.next))
    && (!p.SigningIn? ==> p.token in s.born && s.born[p.token].user == p.user)
    && (p.Ready? ==> s.born[p.next] == s.born[p.token] && p.next !in PathOf(s, s.born[p.next].root))
    && (p.Taken? ==> s.born[p.next] == s.born[p.token])
  }

  ghost predicate ProcessesOk(s: State)
  {
    forall pid :: pid in s.procs ==> ProcessOk(s, s.procs[pid])
  }

  predicate HoldsToken(s: State, pid: nat, t: Token)
  {
    pid in s.procs && s.procs[pid].Holds() && s.procs[pid].next == t
  }

  ghost predicate HeldOnce(s: State)
  {
    forall a, b, t :: HoldsToken(s, a, t) && HoldsToken(s, b, t) ==> a == b
  }

  predicate PathOk(s: State, root: Token)
    requires root in s.paths
  {
    var path := s.paths[root];
    && path != [] && path[0] == root
    && (forall i :: 0 <= i < |path| ==> path[i] in s.born && s.born[path[i]].root == root)
    && (forall i, j :: 0 <= i < j < |path| ==> path[i] != path[j])
  }

  ghost predicate PathsOk(s: State)
  {
    && (forall root :: root in s.paths ==> PathOk(s, root))
    && (forall t :: t in s.born ==> s.born[t].root in s.paths)
  }

  predicate WinsOk(s: State)
  {
    && (forall i :: 0 <= i < |s.won| ==> Spent(s, s.won[i]))
    && (forall i, j :: 0 <= i < j < |s.won| ==> s.won[i] != s.won[j])
  }

  ghost predicate Inv(s: State)
  {
    GrantsOk(s) && ProcessesOk(s) && HeldOnce(s) && PathsOk(s) && WinsOk(s)
  }

  /** Known tokens keep their origin and chains keep their path; chains may be added. */
  ghost predicate Extends(s: State, s': State)
  {
    && (forall t :: t in s.born ==> t in s'.born && s'.born[t] == s.born[t])
    && (forall t :: t in s'.born ==> s'.born[t].root in s'.paths)
    && (forall root :: root in s.paths ==> root in s'.paths && s'.paths[root] == s.paths[root])
    && (forall root :: root in s'.paths && root !in s.paths ==> PathOk(s', root))
    && s'.won == s.won
  }

  lemma HistoriesStay(s: State, s': State)
    requires PathsOk(s) && WinsOk(s) && Extends(s, s')
    ensures PathsOk(s') && WinsOk(s')
    ensures forall t :: Newest(s, t) ==> Newest(s', t)
  {
    forall root | root in s'.paths
      ensures PathOk(s', root)
    {
      assert root in s.paths ==> PathOk(s, root);
    }
    assert forall t :: Spent(s, t) ==> Spent(s', t);
  }

  /** A request whose token no one stored meanwhile. */
  lemma ProcessStays(s: State, s': State, p: Process)
    requires PathsOk(s) && WinsOk(s) && Extends(s, s') && ProcessOk(s, p)
    requires p.Holds() ==> p.next !in s'.grants
    ensures ProcessOk(s', p)
  {
    hide WinsOk, PathOk, Spent;
    HistoriesStay(s, s');
  }

  /** A step that extends the histories, stores only newest tokens and leaves request `pid` valid. */
  lemma FrameKeeps(s: State, s': State, pid: nat)
    requires Inv(s) && Extends(s, s') && GrantsOk(s')
    requires forall other :: other in s'.procs && other != pid ==> other in s.procs && s'.procs[other] == s.procs[other]
    requires forall t :: t in s'.grants ==> t in s.grants || HoldsToken(s, pid, t)
    requires pid in s'.procs ==> ProcessOk(s', s'.procs[pid])
    requires forall t :: HoldsToken(s', pid, t) ==> t !in s.born || HoldsToken(s, pid, t)
    ensures Inv(s')
  {
    hide PathsOk, PathOk, WinsOk, Spent, Newest, GrantsOk, Extends;
    HistoriesStay(s, s');
    forall other | other in s'.procs && other != pid
      ensures ProcessOk(s', s'.procs[other])
    {
      var p := s.procs[other];
      assert ProcessOk(s, p);
      assert p.Holds() ==> HoldsToken(s, other, p.next);
      ProcessStays(s, s', p);
    }
    forall a, b, t | HoldsToken(s', a, t) && HoldsToken(s', b, t)
      ensures a == b
    {
      assert a != pid ==> HoldsToken(s, a, t) && ProcessOk(s, s.procs[a]);
      assert b != pid ==> HoldsToken(s, b, t) && ProcessOk(s, s.procs[b]);
    }
  }

  lemma SignInExtends(s: State, pid: nat, user: Id, minted: Token)
    requires PathsOk(s) && Enabled(s, SignIn(pid, user, minted))
    ensures var s' := Apply(s, SignIn(pid, user, minted), 0); Extends(s, s') && Newest(s', minted)
  {
    var s' := Apply(s, SignIn(pid, user, minted), 0);
    assert minted !in s.paths by {
      assert minted in s.paths ==> PathOk(s, minted);
    }
    assert PathOk(s', minted);
  }

  lemma SignInKeeps(s: State, pid: nat, user: Id, minted: Token)
    requires Inv(s) && Enabled(s, SignIn(pid, user, minted))
    ensures Inv(Apply(s, SignIn(pid, user, minted), 0))
  {
    hide PathsOk, WinsOk, HeldOnce, Extends;
    var s' := Apply(s, SignIn(pid, user, minted), 0);
    SignInExtends(s, pid, user, minted);
    HistoriesStay(s, s');
    FrameKeeps(s, s', pid);
  }

  lemma PrepareExtends(s: State, pid: nat, minted: Token)
    requires PathsOk(s) && Enabled(s, Prepare(pid, minted)) && ProcessOk(s, s.procs[pid])
    ensures var s' := Apply(s, Prepare(pid, minted), 0); Extends(s, s') && minted !in PathOf(s', s'.born[minted].root)
  {
    assert PathOk(s, s.born[s.procs[pid].token].root);
  }

  lemma PrepareKeeps(s: State, pid: nat, minted: Token)
    requires Inv(s) && Enabled(s, Prepare(pid, minted))
    ensures Inv(Apply(s, Prepare(pid, minted), 0))
  {
    hide PathsOk, WinsOk, HeldOnce, Extends, PathOf;
    var s' := Apply(s, Prepare(pid, minted), 0);
    assert ProcessOk(s, s.procs[pid]);
    PrepareExtends(s, pid, minted);
    HistoriesStay(s, s');
    FrameKeeps(s, s', pid);
  }

  lemma StoreKeeps(s: State, pid: nat, applied: bool, ttl: int)
    requires Inv(s) && pid in s.procs && s.procs[pid].Carries()
    ensures Inv(Stored(s, pid, applied, ttl))
  {
    hide PathOk, WinsOk, HeldOnce, PathOf;
    var s' := Stored(s, pid, applied, ttl);
    assert ProcessOk(s, s.procs[pid]);
    HistoriesStay(s, s');
    FrameKeeps(s, s', pid);
  }

  /** Dropping stored tokens or a request keeps everything. */
  lemma DropKeeps(s: State, s': State, pid: nat)
    requires Inv(s) && s'.born == s.born && s'.paths == s.paths && s'.won == s.won
    requires forall t :: t in s'.grants ==> t in s.grants && s'.grants[t] == s.grants[t]
    requires s'.procs == s.procs || s'.procs == s.procs - {pid}
    ensures Inv(s')
  {
    hide PathOk, WinsOk;
    assert pid in s.procs ==> ProcessOk(s, s.procs[pid]);
    HistoriesStay(s, s');
    FrameKeeps(s, s', pid);
  }

  lemma FindKeeps(s: State, pid: nat, t: Token)
    requires Inv(s) && Enabled(s, Find(pid, t))
    ensures Inv(Apply(s, Find(pid, t), 0))
  {
    hide PathOk, WinsOk;
    var s' := Apply(s, Find(pid, t), 0);
    HistoriesStay(s, s');
    FrameKeeps(s, s', pid);
  }

  /** A rotation that wins moves its chain on by one token: the token it took is spent. */
  lemma WinKeepsHistories(s: State, s': State, token: Token, next: Token)
    requires PathsOk(s) && WinsOk(s) && Newest(s, token) && token !in s.won && s'.born == s.born
    requires next in s.born && s.born[next] == s.born[token] && next !in PathOf(s, s.born[next].root)
    requires var root := s.born[token].root; s'.paths == s.paths[root := s.paths[root] + [next]]
    requires s'.won == s.won + [token]
    ensures PathsOk(s') && WinsOk(s')
    ensures Newest(s', next)
    ensures forall t :: Newest(s, t) && t != token ==> Newest(s', t)
  {
    var root := s.born[token].root;
    var path := s.paths[root];
    assert PathOk(s, root);
    forall r | r in s'.paths
      ensures PathOk(s', r)
    {
      assert PathOk(s, r);
    }
    forall t | Spent(s, t) || t == token
      ensures Spent(s', t)
    {
      assert t != next;
      assert s.born[t].root == root ==> t in path + [next];
    }
  }

  /** The rotation of `pid` finds its token. */
  predicate Wins(s: State, pid: nat)
  {
    pid in s.procs && s.procs[pid].Ready? && s.procs[pid].token in s.grants && s.grants[s.procs[pid].token].user == s.procs[pid].user
  }

  lemma WinHistories(s: State, pid: nat)
    requires Inv(s) && Wins(s, pid)
    ensures var s', p := Apply(s, Take(pid, true), 0), s.procs[pid];
      PathsOk(s') && WinsOk(s') && Newest(s', p.next) && forall t :: Newest(s, t) && t != p.token ==> Newest(s', t)
  {
    hide HeldOnce, PathsOk;
    var p := s.procs[pid];
    assert ProcessOk(s, p);
    assert p.token !in s.won by {
      assert !Spent(s, p.token);
    }
    assert s.born[p.token].root in s.paths;
    WinKeepsHistories(s, Apply(s, Take(pid, true), 0), p.token, p.next);
  }

  lemma WinKeepsProcess(s: State, pid: nat, other: nat)
    requires Inv(s) && Wins(s, pid) && other in s.procs
    ensures var s' := Apply(s, Take(pid, true), 0); other in s'.procs && ProcessOk(s', s'.procs[other])
  {
    hide PathsOk, WinsOk, Newest, GrantsOk;
    var s' := Apply(s, Take(pid, true), 0);
    var p, q := s.procs[pid], s.procs[other];
    assert ProcessOk(s, p) && ProcessOk(s, q);
    assert HoldsToken(s, pid, p.next);
    WinHistories(s, pid);
    if other != pid {
      assert q.Holds() ==> HoldsToken(s, other, q.next);
      assert q.Holds() ==> q.next != p.next && q.next != p.token;
    }
  }

  lemma WinKeeps(s: State, pid: nat)
    requires Inv(s) && Wins(s, pid)
    ensures Inv(Apply(s, Take(pid, true), 0))
  {
    hide PathsOk, WinsOk, Newest, ProcessOk;
    var s' := Apply(s, Take(pid, true), 0);
    WinHistories(s, pid);
    forall other | other in s'.procs
      ensures ProcessOk(s', s'.procs[other])
    {
      WinKeepsProcess(s, pid, other);
    }
    assert forall a, t :: HoldsToken(s', a, t) ==> HoldsToken(s, a, t);
  }

  lemma TakeKeeps(s: State, pid: nat, answered: bool)
    requires Inv(s) && Enabled(s, Take(pid, answered))
    ensures Inv(Apply(s, Take(pid, answered), 0))
  {
    hide Inv;
    if answered && Wins(s, pid) {
      WinKeeps(s, pid);
    } else {
      DropKeeps(s, Apply(s, Take(pid, answered), 0), pid);
    }
  }

  lemma StepKeeps(s: State, step: Step, ttl: int)
    requires Inv(s) && Enabled(s, step)
    ensures Inv(Apply(s, step, ttl))
  {
    hide Inv;
    match step
    case SignIn(pid, user, minted) => SignInKeeps(s, pid, user, minted);
    case Prepare(pid, minted) => PrepareKeeps(s, pid, minted);
    case Take(pid, answered) => TakeKeeps(s, pid, answered);
    case StoreFirst(pid, applied) => StoreKeeps(s, pid, applied, ttl);
    case StoreNext(pid, applied) => StoreKeeps(s, pid, applied, ttl);
    case Find(pid, t) => FindKeeps(s, pid, t);
    case Advance(_) => DropKeeps(s, Apply(s, step, ttl), 0);
    case Logout(_) => DropKeeps(s, Apply(s, step, ttl), 0);
    case Abandon(pid) => DropKeeps(s, Apply(s, step, ttl), pid);
  }

  lemma {:induction false} RunKeeps(s: State, steps: seq<Step>, ttl: int)
    requires Inv(s) && Feasible(s, steps, ttl)
    ensures Inv(Execute(s, steps, ttl))
    decreases |steps|
  {
    if steps != [] {
      StepKeeps(s, steps[0], ttl);
      RunKeeps(Apply(s, steps[0], ttl), steps[1..], ttl);
    }
  }

  /** A refresh nobody interrupts does what `AuthService.Refresh` states. */
  lemma UninterruptedRefresh(s: State, pid: nat, t: Token, minted: Token, ttl: int)
    requires t in s.grants && pid !in s.procs && minted !in s.born
    ensures var found := Apply(s, Find(pid, t), ttl);
      var ready := Apply(found, Prepare(pid, minted), ttl);
      var taken := Apply(ready, Take(pid, true), ttl);
      && Enabled(found, Prepare(pid, minted)) && Enabled(ready, Take(pid, true)) && Enabled(taken, StoreNext(pid, true))
      && var end := Apply(taken, StoreNext(pid, true), ttl);
         end.grants == (s.grants - {t})[minted := Grant(s.grants[t].user, s.now + ttl)] && end.procs == s.procs
  {
  }

  /** Where a chain's session lives: a stored token, or a request about to store one. */
  datatype Carrier = Live(token: Token) | InFlight(pid: nat)

  predicate CarrierOf(s: State, c: Carrier, root: Token)
  {
    match c
    case Live(t) => t in s.grants && OriginOf(s, t).root == root
    case InFlight(pid) => pid in s.procs && s.procs[pid].Carries() && OriginOf(s, s.procs[pid].next).root == root
  }

  ghost predicate Ended(s: State, root: Token)
  {
    forall c :: !CarrierOf(s, c, root)
  }

  /** In every interleaving a token wins at most one rotation. */
  lemma SingleUse(steps: seq<Step>, ttl: int)
    requires Feasible(START, steps, ttl)
    ensures var s := Execute(START, steps, ttl); forall i, j :: 0 <= i < j < |s.won| ==> s.won[i] != s.won[j]
  {
    RunKeeps(START, steps, ttl);
  }

  lemma {:induction false} WinsAccumulate(s: State, steps: seq<Step>, ttl: int)
    requires Feasible(s, steps, ttl)
    ensures s.won <= Execute(s, steps, ttl).won
    decreases |steps|
  {
    if steps != [] {
      var next := Apply(s, steps[0], ttl);
      assert s.won <= next.won;
      WinsAccumulate(next, steps[1..], ttl);
    }
  }

  /** A token that won a rotation is never stored again: every later use of it is refused. */
  lemma ReplayIsRefused(before: seq<Step>, later: seq<Step>, ttl: int, t: Token)
    requires Feasible(START, before, ttl) && t in Execute(START, before, ttl).won
    requires Feasible(Execute(START, before, ttl), later, ttl)
    ensures t !in Execute(Execute(START, before, ttl), later, ttl).grants
  {
    var s := Execute(START, before, ttl);
    var s' := Execute(s, later, ttl);
    RunKeeps(START, before, ttl);
    RunKeeps(s, later, ttl);
    WinsAccumulate(s, later, ttl);
    var i :| 0 <= i < |s.won| && s.won[i] == t;
    assert Spent(s', s'.won[i]);
  }

  /** A chain never has two sessions, counting a rotation caught between its two commands. */
  lemma OneCarrierPerChain(steps: seq<Step>, ttl: int, root: Token, a: Carrier, b: Carrier)
    requires Feasible(START, steps, ttl)
    requires var s := Execute(START, steps, ttl); CarrierOf(s, a, root) && CarrierOf(s, b, root)
    ensures a == b
  {
    RunKeeps(START, steps, ttl);
    OneCarrier(Execute(START, steps, ttl), root, a, b);
  }

  lemma OneCarrier(s: State, root: Token, a: Carrier, b: Carrier)
    requires Inv(s) && CarrierOf(s, a, root) && CarrierOf(s, b, root)
    ensures a == b
  {
    hide PathsOk, WinsOk;
    var t := if a.Live? then a.token else s.procs[a.pid].next;
    if a.InFlight? {
      assert ProcessOk(s, s.procs[a.pid]) && HoldsToken(s, a.pid, t);
    }
    if b.InFlight? {
      assert ProcessOk(s, s.procs[b.pid]) && HoldsToken(s, b.pid, s.procs[b.pid].next);
    }
  }

  /** A rotation that finds its token finds its own user: the owner check never refuses. */
  lemma OwnerAlwaysMatches(steps: seq<Step>, ttl: int, pid: nat)
    requires Feasible(START, steps, ttl)
    requires var s := Execute(START, steps, ttl); pid in s.procs && s.procs[pid].Ready? && s.procs[pid].token in s.grants
    ensures var s := Execute(START, steps, ttl); s.grants[s.procs[pid].token].user == s.procs[pid].user
  {
    RunKeeps(START, steps, ttl);
    var s := Execute(START, steps, ttl);
    assert ProcessOk(s, s.procs[pid]);
  }

  /** Every command may fail or lose its reply: a SET may store nothing, and a GETDEL whose reply is lost
      has spent the token all the same and ends the request. */
  lemma CommandsMayFail(s: State, pid: nat, ttl: int)
    requires pid in s.procs
    ensures Enabled(s, Abandon(pid)) && pid !in Apply(s, Abandon(pid), ttl).procs && Apply(s, Abandon(pid), ttl).grants == s.grants
    ensures s.procs[pid].SigningIn? ==>
      Enabled(s, StoreFirst(pid, false)) && var s' := Apply(s, StoreFirst(pid, false), ttl); s'.grants == s.grants && pid !in s'.procs
    ensures s.procs[pid].Taken? ==>
      Enabled(s, StoreNext(pid, false)) && var s' := Apply(s, StoreNext(pid, false), ttl); s'.grants == s.grants && pid !in s'.procs
    ensures s.procs[pid].Ready? ==>
      Enabled(s, Take(pid, false)) && var s' := Apply(s, Take(pid, false), ttl); s'.grants == s.grants - {s.procs[pid].token} && pid !in s'.procs
  {
  }

  /** In every run, a stored token expires within the TTL and is gone once past it. */
  predicate Timely(s: State, ttl: int)
  {
    forall t :: t in s.grants ==> s.now <= s.grants[t].expires <= s.now + ttl
  }

  lemma {:induction false} TokensExpire(s: State, steps: seq<Step>, ttl: int)
    requires 0 <= ttl && Timely(s, ttl) && Feasible(s, steps, ttl)
    ensures Timely(Execute(s, steps, ttl), ttl)
    decreases |steps|
  {
    if steps != [] {
      StepTimely(s, steps[0], ttl);
      TokensExpire(Apply(s, steps[0], ttl), steps[1..], ttl);
    }
  }

  lemma StepTimely(s: State, step: Step, ttl: int)
    requires 0 <= ttl && Timely(s, ttl) && Enabled(s, step)
    ensures Timely(Apply(s, step, ttl), ttl)
  {
  }

  /** Until then only a rotation or a logout of that very token ends it. */
  lemma TokensLast(s: State, step: Step, ttl: int, t: Token)
    requires Inv(s) && Enabled(s, step) && t in s.grants
    requires step.Advance? ==> s.now + step.elapsed <= s.grants[t].expires
    requires step != Logout(t) && (step.Take? ==> s.procs[step.pid].token != t)
    ensures t in Apply(s, step, ttl).grants && Apply(s, step, ttl).grants[t] == s.grants[t]
  {
    hide WinsOk, PathsOk, HeldOnce;
    if (step.StoreFirst? || step.StoreNext?) {
      assert ProcessOk(s, s.procs[step.pid]);
    }
  }

  /** Where the carrier `c` of the state after `step` was before it. */
  function CameFrom(s: State, step: Step, c: Carrier): Carrier
    requires Enabled(s, step)
  {
    if step.Take? && c == InFlight(step.pid) then Live(s.procs[step.pid].token)
    else if (step.StoreFirst? || step.StoreNext?) && c == Live(s.procs[step.pid].next) then InFlight(step.pid)
    else c
  }

  /** What one step can do to origins, to stored tokens and to carrying requests. */
  lemma StepShape(s: State, step: Step, ttl: int)
    requires Enabled(s, step)
    ensures var s' := Apply(s, step, ttl);
      && (forall t :: t in s.born ==> OriginOf(s', t) == OriginOf(s, t))
      && (forall t :: t in s'.grants && t !in s.grants ==> (step.StoreFirst? || step.StoreNext?) && t == s.procs[step.pid].next)
  {
  }

  lemma StepCarries(s: State, step: Step, ttl: int, pid: nat)
    requires Enabled(s, step)
    requires var s' := Apply(s, step, ttl); pid in s'.procs && s'.procs[pid].Carries()
    ensures var p := Apply(s, step, ttl).procs[pid];
      || (pid in s.procs && p == s.procs[pid])
      || (step.SignIn? && step.minted !in s.born && p.next == step.minted && OriginOf(Apply(s, step, ttl), p.next).root == p.next)
      || (step.Take? && step.pid == pid && p.next == s.procs[pid].next && s.procs[pid].token in s.grants)
  {
  }

  /** Every token a step can touch has a recorded origin, and rotation stays within it. */
  lemma OriginsKnown(s: State)
    requires Inv(s)
    ensures forall t :: t in s.grants ==> t in s.born
    ensures forall pid :: pid in s.procs && s.procs[pid].Holds() ==> s.procs[pid].next in s.born
    ensures forall pid :: pid in s.procs && s.procs[pid].Ready? ==> s.procs[pid].token in s.born && s.born[s.procs[pid].next] == s.born[s.procs[pid].token]
    ensures s.paths.Keys <= s.born.Keys
  {
    hide WinsOk, HeldOnce;
    forall root | root in s.paths
      ensures root in s.born
    {
      assert PathOk(s, root);
      assert s.paths[root][0] in s.born;
    }
  }

  /** A session only passes from carrier to carrier. */
  lemma LivePassesOn(s: State, step: Step, ttl: int, root: Token, t: Token)
    requires Inv(s) && Enabled(s, step) && CarrierOf(Apply(s, step, ttl), Live(t), root)
    ensures CarrierOf(s, CameFrom(s, step, Live(t)), root)
  {
    hide Apply, Inv;
    StepShape(s, step, ttl);
    OriginsKnown(s);
  }

  lemma InFlightPassesOn(s: State, step: Step, ttl: int, root: Token, pid: nat)
    requires Inv(s) && Enabled(s, step) && root in s.paths && CarrierOf(Apply(s, step, ttl), InFlight(pid), root)
    ensures CarrierOf(s, CameFrom(s, step, InFlight(pid)), root)
  {
    hide Apply, Inv;
    StepShape(s, step, ttl);
    StepCarries(s, step, ttl, pid);
    OriginsKnown(s);
  }

  lemma StepStaysEnded(s: State, step: Step, ttl: int, root: Token)
    requires Inv(s) && Enabled(s, step) && root in s.paths && Ended(s, root)
    ensures root in Apply(s, step, ttl).paths && Ended(Apply(s, step, ttl), root)
  {
    forall c | CarrierOf(Apply(s, step, ttl), c, root)
      ensures false
    {
      match c
      case Live(t) => LivePassesOn(s, step, ttl, root, t);
      case InFlight(pid) => InFlightPassesOn(s, step, ttl, root, pid);
    }
  }

  lemma {:induction false} RunStaysEnded(s: State, steps: seq<Step>, ttl: int, root: Token)
    requires Inv(s) && Feasible(s, steps, ttl) && root in s.paths && Ended(s, root)
    ensures Ended(Execute(s, steps, ttl), root)
    decreases |steps|
  {
    if steps != [] {
      StepKeeps(s, steps[0], ttl);
      StepStaysEnded(s, steps[0], ttl, root);
      RunStaysEnded(Apply(s, steps[0], ttl), steps[1..], ttl, root);
    }
  }

  /** Logging out a stored token ends its whole chain: no token of it is ever accepted again. */
  lemma LogoutIsFinal(before: seq<Step>, later: seq<Step>, ttl: int, t: Token)
    requires Feasible(START, before, ttl) && t in Execute(START, before, ttl).grants
    requires Feasible(Apply(Execute(START, before, ttl), Logout(t), ttl), later, ttl)
    ensures var s := Execute(START, before, ttl);
      var s' := Execute(Apply(s, Logout(t), ttl), later, ttl);
      forall t' :: t' in s'.born && s'.born[t'].root == OriginOf(s, t).root ==> t' !in s'.grants
  {
    RunKeeps(START, before, ttl);
    var s := Execute(START, before, ttl);
    var root := OriginOf(s, t).root;
    var out := Apply(s, Logout(t), ttl);
    LogoutEndsChainIff(s, ttl, t);
    StepKeeps(s, Logout(t), ttl);
    RunStaysEnded(out, later, ttl, root);
    var s' := Execute(out, later, ttl);
    forall t' | t' in s'.born && s'.born[t'].root == root
      ensures t' !in s'.grants
    {
      assert !CarrierOf(s', Live(t'), root);
    }
  }

  /** Exactly when: the chain had ended already, or the token presented is the stored one. */
  lemma LogoutEndsChainIff(s: State, ttl: int, t: Token)
    requires Inv(s) && t in s.born
    ensures Ended(Apply(s, Logout(t), ttl), s.born[t].root) <==> Ended(s, s.born[t].root) || t in s.grants
  {
    var root := s.born[t].root;
    var s' := Apply(s, Logout(t), ttl);
    if t in s.grants {
      assert CarrierOf(s, Live(t), root);
      forall c
        ensures !CarrierOf(s', c, root)
      {
        if CarrierOf(s, c, root) {
          OneCarrier(s, root, c, Live(t));
        }
      }
    } else {
      assert s'.grants == s.grants;
      assert forall c :: CarrierOf(s', c, root) == CarrierOf(s, c, root);
    }
  }

  /** A logout with the token handed in cannot stop a rotation caught between its two commands. */
  lemma LogoutMissesRotation(before: seq<Step>, ttl: int, pid: nat)
    requires Feasible(START, before, ttl)
    requires var s := Execute(START, before, ttl); pid in s.procs && s.procs[pid].Taken?
    ensures var s := Execute(START, before, ttl);
      var p := s.procs[pid];
      var s' := Apply(Apply(s, Logout(p.token), ttl), StoreNext(pid, true), ttl);
      p.next in s'.grants && OriginOf(s', p.next) == OriginOf(s, p.token)
  {
    RunKeeps(START, before, ttl);
    var s := Execute(START, before, ttl);
    assert ProcessOk(s, s.procs[pid]);
  }

  /** Such a rotation can be reached. */
  lemma RotationCanBeCaught(ttl: nat, user: Id, first: Token, second: Token)
    requires first != second
    ensures var steps := [SignIn(0, user, first), StoreFirst(0, true), Find(1, first), Prepare(1, second), Take(1, true)];
      && Feasible(START, steps, ttl)
      && Execute(START, steps, ttl).procs == map[1 := Taken(user, first, second)]
  {
    hide Feasible, Execute;
    var a, b, c, d, e := SignIn(0, user, first), StoreFirst(0, true), Find(1, first), Prepare(1, second), Take(1, true);
    var s1 := Apply(START, a, ttl);
    var s2 := Apply(s1, b, ttl);
    assert s2 == State(0, map[first := Grant(user, ttl)], map[], map[first := Origin(first, user)], map[first := [first]], []);
    var s3 := Apply(s2, c, ttl);
    var s4 := Apply(s3, d, ttl);
    assert s4.grants == s2.grants && s4.procs == map[1 := Ready(user, first, second)];
    var s5 := Apply(s4, e, ttl);
    ExecutesNone(s5, ttl);
    Executes([e], [], s4, s5, ttl);
    Executes([d, e], [e], s3, s5, ttl);
    Executes([c, d, e], [d, e], s2, s5, ttl);
    Executes([b, c, d, e], [c, d, e], s1, s5, ttl);
    Executes([a, b, c, d, e], [b, c, d, e], START, s5, ttl);
  }

  lemma ExecutesNone(s: State, ttl: int)
    ensures Feasible(s, [], ttl) && Execute(s, [], ttl) == s
  {
  }

  lemma Executes(steps: seq<Step>, rest: seq<Step>, s: State, end: State, ttl: int)
    requires steps != [] && rest == steps[1..] && Enabled(s, steps[0])
    requires Feasible(Apply(s, steps[0], ttl), rest, ttl) && Execute(Apply(s, steps[0], ttl), rest, ttl) == end
    ensures Feasible(s, steps, ttl) && Execute(s, steps, ttl) == end
  {
  }
}
