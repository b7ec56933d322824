/**
 The two ledgers of the relay, tunnels and outer connections: a total and a count per source, kept by
 handlers that come and go in any order.
 */
module Ledgers {
  import opened ConnectionGrant
  import opened Options
  import opened Sums

  datatype Counts = Counts(total: nat, bySource: map<string, nat>)

  const NOTHING := Counts(0, map[])

  function CountOf(c: Counts, source: string): nat { if source in c.bySource then c.bySource[source] else 0 }

  function Taken(c: Counts, source: string): Counts
  {
    Counts(c.total + 1, c.bySource[source := CountOf(c, source) + 1])
  }

  /** acquire of the tunnel ledger, and the admission of a connection. */
  function TryTake(c: Counts, source: string, cap: int, perSource: int): (Counts, bool)
  {
    if c.total >= cap || CountOf(c, source) >= perSource then (c, false) else (Taken(c, source), true)
  }

  /** release of the tunnel ledger, with its guards against going below zero. */
  function GivenBack(c: Counts, source: string): Counts
  {
    Counts(if c.total > 0 then c.total - 1 else 0,
           if CountOf(c, source) <= 1 then c.bySource - {source} else c.bySource[source := c.bySource[source] - 1])
  }

  // -------------------------------------------------------------------- invariant

  function One(): string -> nat { (s: string) => 1 }

  function Is(source: string): string -> nat { (s: string) => if s == source then 1 else 0 }

  function Itself(): nat -> nat { (n: nat) => n }

  /** The ledger says exactly who holds what: `holders` maps each handler that holds an entry to its
      source. The total is also the sum of the counts, and no source is kept with none. */
  ghost predicate Agrees(c: Counts, holders: map<nat, string>)
  {
    && c.total == MapSum(holders, One()) == MapSum(c.bySource, Itself())
    && (forall s :: CountOf(c, s) == MapSum(holders, Is(s)))
    && (forall s :: s in c.bySource ==> c.bySource[s] >= 1)
  }

  lemma TakeAgrees(c: Counts, holders: map<nat, string>, id: nat, source: string)
    requires Agrees(c, holders) && id !in holders
    ensures Agrees(Taken(c, source), holders[id := source])
  {
    hide MapSum, Is, One, Itself;
    var c', holders' := Taken(c, source), holders[id := source];
    TakeTotals(c, holders, id, source);
    forall s
      ensures CountOf(c', s) == MapSum(holders', Is(s))
    {
      TakeCount(holders, id, source, s);
      assert CountOf(c, s) == MapSum(holders, Is(s));
    }
  }

  lemma TakeTotals(c: Counts, holders: map<nat, string>, id: nat, source: string)
    requires id !in holders
    ensures MapSum(holders[id := source], One()) == MapSum(holders, One()) + 1
    ensures MapSum(Taken(c, source).bySource, Itself()) == MapSum(c.bySource, Itself()) + 1
  {
    MapSumUpdate(holders, One(), id, source);
    MapSumUpdate<string, nat>(c.bySource, Itself(), source, CountOf(c, source) + 1);
  }

  lemma TakeCount(holders: map<nat, string>, id: nat, source: string, s: string)
    requires id !in holders
    ensures MapSum(holders[id := source], Is(s)) == MapSum(holders, Is(s)) + if s == source then 1 else 0
  {
    MapSumUpdate(holders, Is(s), id, source);
  }

  lemma HolderIsCounted(c: Counts, holders: map<nat, string>, id: nat)
    requires Agrees(c, holders) && id in holders
    ensures c.total >= 1 && CountOf(c, holders[id]) >= 1 && holders[id] in c.bySource
  {
    MapSumRemove(holders, One(), id);
    MapSumRemove(holders, Is(holders[id]), id);
    assert CountOf(c, holders[id]) == MapSum(holders, Is(holders[id]));
  }

  lemma GiveBackAgrees(c: Counts, holders: map<nat, string>, id: nat)
    requires Agrees(c, holders) && id in holders
    ensures Agrees(GivenBack(c, holders[id]), holders - {id})
  {
    HolderIsCounted(c, holders, id);
    GiveBackTotals(c, holders, id);
    hide MapSum, Is, One, Itself;
    var source := holders[id];
    var c', holders' := GivenBack(c, source), holders - {id};
    forall s
      ensures CountOf(c', s) == MapSum(holders', Is(s))
    {
      GiveBackCount(holders, id, s);
      assert CountOf(c, s) == MapSum(holders, Is(s));
    }
  }

  lemma GiveBackTotals(c: Counts, holders: map<nat, string>, id: nat)
    requires id in holders && CountOf(c, holders[id]) >= 1
    ensures MapSum(holders - {id}, One()) == MapSum(holders, One()) - 1
    ensures MapSum(GivenBack(c, holders[id]).bySource, Itself()) == MapSum(c.bySource, Itself()) - 1
  {
    var source := holders[id];
    MapSumRemove(holders, One(), id);
    MapSumRemove<string, nat>(c.bySource, Itself(), source);
    if CountOf(c, source) > 1 {
      MapSumUpdate<string, nat>(c.bySource, Itself(), source, c.bySource[source] - 1);
    }
  }

  lemma GiveBackCount(holders: map<nat, string>, id: nat, s: string)
    requires id in holders
    ensures MapSum(holders - {id}, Is(s)) == MapSum(holders, Is(s)) - if s == holders[id] then 1 else 0
  {
    MapSumRemove(holders, Is(s), id);
  }

  // ------------------------------------------------------------- tunnel handlers

  const PER_SOURCE := 8

  /** What a relay is set up with: the session limit, the decision about targets, and whether it is
      restricted to groups. */
  datatype Setup = Setup(maxSessions: int, allowed: string -> bool, groups: bool)

  /** A CONNECT-UDP request on its way through the handler. */
  datatype Phase =
    | Arrived(conn: nat, remote: string)
    | Authorized(remote: string, account: string)
    | Cleared(source: string, target: string)
    | Holding(source: string, target: string)
    | Forwarding(source: string, target: string)

  datatype State = State(counts: Counts, closed: bool, handlers: map<nat, Phase>, used: set<nat>, clock: nat, grants: map<nat, Grant>)

  datatype Action =
    | Tick(ns: nat)
    | Connect(conn: nat)
    | Arrive(id: nat, conn: nat, remote: string)
    | Authorize(id: nat, request: Request, redeemed: Option<(string, int)>)
    | Resolve(id: nat, target: string)
    | Acquire(id: nat)
    | Dial(id: nat)
    | Leave(id: nat)
    | Shutdown

  datatype Event =
    | WasAuthorized(id: nat, conn: nat, remote: string, account: string, at: nat, until: int, renewed: bool, request: Request)
    | WasAcquired(id: nat, source: string)
    | WasDialed(id: nat, target: string)
    | WasReleased(id: nat)

  const INITIAL := State.State(NOTHING, false, map[], {}, 0, map[])

  function SourceOf(remote: string, account: string): string { if account != "" then "account:" + account else remote }

  function Go(s: State, id: nat, p: Phase): State { s.(handlers := s.handlers[id := p]) }

  predicate Holds(p: Phase) { p.Holding? || p.Forwarding? }

  /** A request goes through authorize, which holds the connection's lock throughout: it is let through for
      nothing on a public relay, else by a grant still current or by a ticket redeemed now. */
  function DoAuthorize(s: State, id: nat, r: Request, redeemed: Option<(string, int)>, groups: bool): (State, seq<Event>)
  {
    if id in s.handlers && s.handlers[id].Arrived? then
      var (conn, remote) := (s.handlers[id].conn, s.handlers[id].remote);
      var held := if conn in s.grants then Some(s.grants[conn]) else None;
      var e := Decide(groups, true, held, s.clock, r);
      if e.Public? then (Go(s, id, Authorized(remote, "")), [WasAuthorized(id, conn, remote, "", s.clock, 0, false, r)])
      else if e.Unavailable? then (s.(handlers := s.handlers - {id}), [])
      else if e.StillGranted? then
        (Go(s, id, Authorized(remote, held.value.address)),
         [WasAuthorized(id, conn, remote, held.value.address, s.clock, held.value.until, false, r)])
      else if e.Redeem? && redeemed.Some? then
        var g := Renewed(held.value, redeemed.value.0, redeemed.value.1);
        (Go(s.(grants := s.grants[conn := g]), id, Authorized(remote, g.address)),
         [WasAuthorized(id, conn, remote, g.address, s.clock, g.until, true, r)])
      else (s.(grants := s.grants[conn := Counted(held.value, e)], handlers := s.handlers - {id}), [])
    else (s, [])
  }

  /** A request ends; one that holds a tunnel gives it back first. */
  function DoLeave(s: State, id: nat): (State, seq<Event>)
  {
    if id !in s.handlers then (s, [])
    else
      var p := s.handlers[id];
      if Holds(p) then
        (s.(counts := GivenBack(s.counts, p.source), handlers := s.handlers - {id}), [WasReleased(id)])
      else (s.(handlers := s.handlers - {id}), [])
  }

  function DoAcquire(s: State, id: nat, maxSessions: int): (State, seq<Event>)
  {
    if id in s.handlers && s.handlers[id].Cleared? then
      var p := s.handlers[id];
      var (counts, ok) := TryTake(s.counts, p.source, maxSessions, PER_SOURCE);
      if s.closed || !ok then (s.(handlers := s.handlers - {id}), [])
      else (Go(s.(counts := counts), id, Holding(p.source, p.target)), [WasAcquired(id, p.source)])
    else (s, [])
  }

  function Step(s: State, a: Action, setup: Setup): (State, seq<Event>)
  {
    match a
    case Tick(ns) => (s.(clock := s.clock + ns), [])
    case Connect(conn) => (if conn in s.grants then s else s.(grants := s.grants[conn := Accepted(s.clock).grant]), [])
    case Arrive(id, conn, remote) =>
      if id in s.used then (s, []) else (Go(s.(used := s.used + {id}), id, Arrived(conn, remote)), [])
    case Authorize(id, request, redeemed) => DoAuthorize(s, id, request, redeemed, setup.groups)
    case Resolve(id, target) =>
      if id in s.handlers && s.handlers[id].Authorized? then
        if setup.allowed(target)
        then (Go(s, id, Cleared(SourceOf(s.handlers[id].remote, s.handlers[id].account), target)), [])
        else (s.(handlers := s.handlers - {id}), [])
      else (s, [])
    case Acquire(id) => DoAcquire(s, id, setup.maxSessions)
    case Dial(id) =>
      if id in s.handlers && s.handlers[id].Holding?
      then (Go(s, id, Forwarding(s.handlers[id].source, s.handlers[id].target)), [WasDialed(id, s.handlers[id].target)]) else (s, [])
    case Leave(id) => DoLeave(s, id)
    case Shutdown => (s.(closed := true), [])
  }

  function Run(actions: seq<Action>, setup: Setup): (State, seq<Event>)
  {
    if actions == [] then (INITIAL, [])
    else
      var (s, log) := Run(actions[..|actions| - 1], setup);
      var (s', more) := Step(s, actions[|actions| - 1], setup);
      (s', log + more)
  }

  /** The handlers between acquire and release, with the source they are counted under. */
  function Holders(handlers: map<nat, Phase>): map<nat, string>
  {
    map id | id in handlers && Holds(handlers[id]) :: handlers[id].source
  }

  ghost predicate LedgerInv(s: State, maxSessions: int)
  {
    && Agrees(s.counts, Holders(s.handlers))
    && (s.counts.total == 0 || s.counts.total <= maxSessions)
    && (forall src :: CountOf(s.counts, src) <= PER_SOURCE)
    && s.handlers.Keys <= s.used
  }

  lemma LedgerAcquire(s: State, id: nat, maxSessions: int)
    requires LedgerInv(s, maxSessions)
    ensures LedgerInv(DoAcquire(s, id, maxSessions).0, maxSessions)
  {
    hide Agrees;
    var s' := DoAcquire(s, id, maxSessions).0;
    var h, h' := Holders(s.handlers), Holders(s'.handlers);
    if s'.counts != s.counts {
      var source := s.handlers[id].source;
      TakeAgrees(s.counts, h, id, source);
      assert h' == h[id := source];
      assert forall src :: src != source ==> CountOf(s'.counts, src) == CountOf(s.counts, src);
    } else {
      assert h' == h;
    }
  }

  lemma GivenBackIsLess(c: Counts, source: string)
    requires source in c.bySource
    ensures forall s :: CountOf(GivenBack(c, source), s) <= CountOf(c, s)
  {
  }

  lemma LedgerLeave(s: State, id: nat, maxSessions: int)
    requires LedgerInv(s, maxSessions)
    ensures LedgerInv(DoLeave(s, id).0, maxSessions)
  {
    hide Agrees;
    var s' := DoLeave(s, id).0;
    var h, h' := Holders(s.handlers), Holders(s'.handlers);
    if id in s.handlers && Holds(s.handlers[id]) {
      HolderIsCounted(s.counts, h, id);
      GiveBackAgrees(s.counts, h, id);
      GivenBackIsLess(s.counts, h[id]);
      assert h' == h - {id};
    } else {
      assert h' == h;
    }
  }

  /** A request that holds nothing moves on holding nothing. */
  lemma SameHolders(handlers: map<nat, Phase>, handlers': map<nat, Phase>, id: nat)
    requires id in handlers && !Holds(handlers[id])
    requires handlers' == handlers - {id} || (id in handlers' && handlers' == handlers[id := handlers'[id]] && !Holds(handlers'[id]))
    ensures Holders(handlers') == Holders(handlers) && handlers'.Keys <= handlers.Keys
  {
  }

  lemma LedgerAuthorize(s: State, id: nat, r: Request, redeemed: Option<(string, int)>, setup: Setup)
    requires LedgerInv(s, setup.maxSessions)
    ensures LedgerInv(DoAuthorize(s, id, r, redeemed, setup.groups).0, setup.maxSessions)
  {
    hide Agrees, Decide, Renewed, Counted, CountOf, Holders;
    var s' := DoAuthorize(s, id, r, redeemed, setup.groups).0;
    assert s'.counts == s.counts && s'.used == s.used;
    if s' != s { SameHolders(s.handlers, s'.handlers, id); }
  }

  lemma LedgerStep(s: State, a: Action, setup: Setup)
    requires LedgerInv(s, setup.maxSessions)
    ensures LedgerInv(Step(s, a, setup).0, setup.maxSessions)
  {
    hide Agrees, DoAcquire, DoLeave, Decide, Renewed, Counted, DoAuthorize;
    if a.Acquire? {
      LedgerAcquire(s, a.id, setup.maxSessions);
    } else if a.Leave? {
      LedgerLeave(s, a.id, setup.maxSessions);
    } else if a.Authorize? {
      LedgerAuthorize(s, a.id, a.request, a.redeemed, setup);
    } else {
      assert Holders(Step(s, a, setup).0.handlers) == Holders(s.handlers);
    }
  }

  lemma {:induction false} LedgerRun(actions: seq<Action>, setup: Setup)
    ensures LedgerInv(Run(actions, setup).0, setup.maxSessions)
  {
    if actions != [] {
      hide Step, LedgerInv;
      var before := actions[..|actions| - 1];
      LedgerRun(before, setup);
      LedgerStep(Run(before, setup).0, actions[|actions| - 1], setup);
    } else {
      EmptyAgrees();
    }
  }

  lemma EmptyAgrees()
    ensures Agrees(NOTHING, map[]) && Holders(map[]) == map[]
  {
  }

  // --------------------------------------------------------- what dials rest on

  /** A tunnel is counted under the ticket that authorized it, or under the remote host if there was none. */
  ghost predicate CountedUnder(remote: string, account: string, source: string)
  {
    (account == "" ==> source == remote) && (account != "" ==> source == "account:" + account)
  }

  /** The connection was renewed with this ticket, up to this deadline. */
  ghost predicate RenewedTo(log: seq<Event>, conn: nat, account: string, until: int)
  {
    exists e :: e in log && e.WasAuthorized? && e.conn == conn && e.account == account && e.until == until && e.renewed
  }

  /** Why a request was let through: on a restricted relay it bore no proof, and a ticket it bore was redeemed,
      or the ticket last redeemed on its connection had not expired and it asked for no renewal. */
  ghost predicate LetThrough(groups: bool, log: seq<Event>, e: Event)
  {
    && e.WasAuthorized? && (!groups ==> e.account == "")
    && (groups ==> "ticket:" <= e.account && !e.request.proof && (e.renewed ==> e.request.ticket))
    && (groups ==> e.renewed || (e.at < e.until && !e.request.renew && RenewedTo(log, e.conn, e.account, e.until)))
  }

  ghost predicate AuthorizedAs(groups: bool, log: seq<Event>, id: nat, source: string)
  {
    exists e :: e in log && e.WasAuthorized? && e.id == id && CountedUnder(e.remote, e.account, source) && LetThrough(groups, log, e)
  }

  lemma RenewedGrows(log: seq<Event>, more: seq<Event>, conn: nat, account: string, until: int)
    requires RenewedTo(log, conn, account, until)
    ensures RenewedTo(log + more, conn, account, until)
  {
    var e :| e in log && e.WasAuthorized? && e.conn == conn && e.account == account && e.until == until && e.renewed;
    assert e in log + more;
  }

  lemma LetThroughGrows(groups: bool, log: seq<Event>, more: seq<Event>, e: Event)
    requires LetThrough(groups, log, e)
    ensures LetThrough(groups, log + more, e)
  {
    hide RenewedTo;
    if groups && !e.renewed { RenewedGrows(log, more, e.conn, e.account, e.until); }
  }

  lemma AuthorizedGrows(groups: bool, log: seq<Event>, more: seq<Event>, id: nat, source: string)
    requires AuthorizedAs(groups, log, id, source)
    ensures AuthorizedAs(groups, log + more, id, source)
  {
    hide LetThrough, CountedUnder;
    var e :| e in log && e.WasAuthorized? && e.id == id && CountedUnder(e.remote, e.account, source) && LetThrough(groups, log, e);
    LetThroughGrows(groups, log, more, e);
    assert e in log + more;
  }

  /** A grant says what its connection was last renewed with, if it ever was. */
  ghost predicate GrantTraced(log: seq<Event>, conn: nat, g: Grant)
  {
    g.until > 0 ==> "ticket:" <= g.address && RenewedTo(log, conn, g.address, g.until)
  }

  ghost predicate PhaseTraced(log: seq<Event>, id: nat, p: Phase, setup: Setup)
  {
    && (p.Authorized? ==> AuthorizedAs(setup.groups, log, id, SourceOf(p.remote, p.account)))
    && (p.Cleared? || Holds(p) ==> AuthorizedAs(setup.groups, log, id, p.source))
    && (p.Cleared? || Holds(p) ==> setup.allowed(p.target))
    && (Holds(p) ==> WasAcquired(id, p.source) in log && WasReleased(id) !in log)
  }

  ghost predicate DialTraced(log: seq<Event>, e: Event, setup: Setup)
  {
    e.WasDialed? ==>
      && setup.allowed(e.target) && WasReleased(e.id) !in log
      && exists source :: WasAcquired(e.id, source) in log && AuthorizedAs(setup.groups, log, e.id, source)
  }

  ghost predicate TraceInv(s: State, log: seq<Event>, setup: Setup)
  {
    && s.handlers.Keys <= s.used
    && (forall id :: id in s.handlers ==> PhaseTraced(log, id, s.handlers[id], setup) && WasReleased(id) !in log)
    && (forall id :: WasReleased(id) in log ==> id in s.used)
    && (forall i :: 0 <= i < |log| ==> DialTraced(log[..i], log[i], setup))
    && (forall conn :: conn in s.grants ==> GrantTraced(log, conn, s.grants[conn]))
  }

  lemma TraceDials(s: State, log: seq<Event>, a: Action, setup: Setup)
    requires TraceInv(s, log, setup)
    ensures
      var more := Step(s, a, setup).1;
      |more| <= 1 && forall i :: 0 <= i < |log + more| ==> DialTraced((log + more)[..i], (log + more)[i], setup)
  {
    hide TryTake, GivenBack, AuthorizedAs;
    var more := Step(s, a, setup).1;
    forall i | 0 <= i < |log + more|
      ensures DialTraced((log + more)[..i], (log + more)[i], setup)
    {
      if i < |log| {
        assert (log + more)[..i] == log[..i];
      } else {
        assert (log + more)[..i] == log;
        if more[0].WasDialed? { assert PhaseTraced(log, more[0].id, s.handlers[more[0].id], setup); }
      }
    }
  }

  /** A request that is let through is let through for a reason. */
  lemma AuthorizeTraced(s: State, log: seq<Event>, id: nat, r: Request, redeemed: Option<(string, int)>, groups: bool)
    requires forall conn :: conn in s.grants ==> GrantTraced(log, conn, s.grants[conn])
    ensures
      var (s', more) := DoAuthorize(s, id, r, redeemed, groups);
      && (more != [] ==>
            && id in s'.handlers && s'.handlers[id].Authorized?
            && AuthorizedAs(groups, log + more, id, SourceOf(s'.handlers[id].remote, s'.handlers[id].account)))
      && (forall conn :: conn in s'.grants ==> GrantTraced(log + more, conn, s'.grants[conn]))
  {
    var (s', more) := DoAuthorize(s, id, r, redeemed, groups);
    if more != [] { assert more[0] in log + more; }
    forall conn | conn in s'.grants
      ensures GrantTraced(log + more, conn, s'.grants[conn])
    {
      GrantStays(s, log, s', more, id, r, redeemed, groups, conn);
    }
    if more != [] {
      var e := more[0];
      if groups && !e.renewed { RenewedGrows(log, more, e.conn, e.account, e.until); }
      hide RenewedTo;
      assert LetThrough(groups, log + more, e) && CountedUnder(e.remote, e.account, SourceOf(e.remote, e.account));
    }
  }

  lemma GrantStays(s: State, log: seq<Event>, s': State, more: seq<Event>, id: nat, r: Request, redeemed: Option<(string, int)>, groups: bool, conn: nat)
    requires forall c :: c in s.grants ==> GrantTraced(log, c, s.grants[c])
    requires (s', more) == DoAuthorize(s, id, r, redeemed, groups) && conn in s'.grants
    ensures GrantTraced(log + more, conn, s'.grants[conn])
  {
    if conn in s.grants && s.grants[conn].until == s'.grants[conn].until && s.grants[conn].address == s'.grants[conn].address {
      hide RenewedTo;
      assert GrantTraced(log, conn, s.grants[conn]);
      if s.grants[conn].until > 0 { RenewedGrows(log, more, conn, s.grants[conn].address, s.grants[conn].until); }
    } else {
      assert more[0] in log + more;
    }
  }

  lemma GrantsTraced(s: State, log: seq<Event>, a: Action, setup: Setup)
    requires TraceInv(s, log, setup)
    ensures
      var (s', more) := Step(s, a, setup);
      forall conn :: conn in s'.grants ==> GrantTraced(log + more, conn, s'.grants[conn])
  {
    hide DoAuthorize, TryTake, GivenBack;
    var (s', more) := Step(s, a, setup);
    if a.Authorize? {
      AuthorizeTraced(s, log, a.id, a.request, a.redeemed, setup.groups);
    } else {
      forall conn | conn in s'.grants
        ensures GrantTraced(log + more, conn, s'.grants[conn])
      {
        if conn in s.grants {
          assert GrantTraced(log, conn, s.grants[conn]);
          if s.grants[conn].until > 0 { RenewedGrows(log, more, conn, s.grants[conn].address, s.grants[conn].until); }
        }
      }
    }
  }

  lemma PhaseAuthorize(s: State, log: seq<Event>, a: Action, setup: Setup, id: nat)
    requires TraceInv(s, log, setup) && a.Authorize? && id in Step(s, a, setup).0.handlers
    ensures
      var (s', more) := Step(s, a, setup);
      PhaseTraced(log + more, id, s'.handlers[id], setup) && WasReleased(id) !in log + more
  {
    hide DialTraced, AuthorizedAs, GrantTraced, Decide, Renewed, Counted;
    var (s', more) := Step(s, a, setup);
    AuthorizeTraced(s, log, a.id, a.request, a.redeemed, setup.groups);
    assert PhaseTraced(log, id, s.handlers[id], setup);
    PhaseGrows(log, more, id, s.handlers[id], setup);
  }

  lemma PhaseGrows(log: seq<Event>, more: seq<Event>, id: nat, p: Phase, setup: Setup)
    requires PhaseTraced(log, id, p, setup) && WasReleased(id) !in more
    ensures PhaseTraced(log + more, id, p, setup)
  {
    hide AuthorizedAs;
    if p.Authorized? { AuthorizedGrows(setup.groups, log, more, id, SourceOf(p.remote, p.account)); }
    if p.Cleared? || Holds(p) { AuthorizedGrows(setup.groups, log, more, id, p.source); }
  }

  lemma PhaseStep(s: State, log: seq<Event>, a: Action, setup: Setup, id: nat)
    requires TraceInv(s, log, setup) && !a.Authorize? && id in Step(s, a, setup).0.handlers
    ensures
      var (s', more) := Step(s, a, setup);
      PhaseTraced(log + more, id, s'.handlers[id], setup) && WasReleased(id) !in log + more
  {
    hide TryTake, GivenBack, DialTraced, AuthorizedAs, GrantTraced, DoAuthorize;
    var (s', more) := Step(s, a, setup);
    if id in s.handlers {
      assert PhaseTraced(log, id, s.handlers[id], setup);
      PhaseGrows(log, more, id, s.handlers[id], setup);
    }
  }

  /** Numbers of requests are not used again, and only those of requests are ever released. */
  lemma UsedStep(s: State, a: Action, setup: Setup)
    requires s.handlers.Keys <= s.used
    ensures
      var (s', more) := Step(s, a, setup);
      && s.used <= s'.used && s'.handlers.Keys <= s'.used
      && forall i :: 0 <= i < |more| && more[i].WasReleased? ==> more[i].id in s'.used
  {
    hide TryTake, GivenBack, Decide, Renewed, Counted;
  }

  lemma TraceStep(s: State, log: seq<Event>, a: Action, setup: Setup)
    requires TraceInv(s, log, setup)
    ensures
      var (s', more) := Step(s, a, setup);
      TraceInv(s', log + more, setup)
  {
    UsedStep(s, a, setup);
    hide Step, PhaseTraced, DialTraced, GrantTraced;
    var (s', more) := Step(s, a, setup);
    TraceDials(s, log, a, setup);
    GrantsTraced(s, log, a, setup);
    forall id | id in s'.handlers
      ensures PhaseTraced(log + more, id, s'.handlers[id], setup) && WasReleased(id) !in log + more
    {
      if a.Authorize? { PhaseAuthorize(s, log, a, setup, id); } else { PhaseStep(s, log, a, setup, id); }
    }
  }

  lemma {:induction false} TraceRun(actions: seq<Action>, setup: Setup)
    ensures
      var (s, log) := Run(actions, setup);
      TraceInv(s, log, setup)
  {
    if actions != [] {
      hide Step, TraceInv;
      var before := actions[..|actions| - 1];
      TraceRun(before, setup);
      var (s, log) := Run(before, setup);
      TraceStep(s, log, actions[|actions| - 1], setup);
    }
  }

  // ------------------------------------------------------------- main results

  /** In any state, a request is let through if and only if the relay is public, or it is on an admitted
      connection, bears no proof, and either falls within the grant and asks for no renewal or bears a ticket
      that is redeemed, on one of the first eight tries since the last success. Otherwise it goes away. A try
      is counted, a success starts the count again and renews the grant, and nothing else changes it. */
  lemma LetThroughIff(s: State, id: nat, r: Request, redeemed: Option<(string, int)>, setup: Setup)
    requires id in s.handlers && s.handlers[id].Arrived?
    ensures
      var (s', more) := Step(s, Action.Authorize(id, r, redeemed), setup);
      var conn := s.handlers[id].conn;
      && (more != [] <==>
            || !setup.groups
            || (conn in s.grants && !r.proof
                && ((s.clock < s.grants[conn].until && !r.renew) || (r.ticket && s.grants[conn].attempts < 8 && redeemed.Some?))))
      && (more != [] <==> id in s'.handlers) && (more != [] ==> s'.handlers[id].Authorized?)
      && (if setup.groups && conn in s.grants && !r.proof && !(s.clock < s.grants[conn].until && !r.renew) && r.ticket then
            var g := s.grants[conn];
            s'.grants == s.grants[conn := if g.attempts < 8 && redeemed.Some?
                                          then Grant(redeemed.value.1, "ticket:" + redeemed.value.0, 0, g.generation + 1)
                                          else g.(attempts := g.attempts + 1)]
          else s'.grants == s.grants)
  {
    if setup.groups && s.handlers[id].conn in s.grants {
      assert s.grants == s.grants[s.handlers[id].conn := s.grants[s.handlers[id].conn]];
    }
  }

  /** No request with an identity-bearing proof is ever let through by a restricted relay. */
  lemma {:induction false} NoProofIsLetThrough(actions: seq<Action>, setup: Setup, i: nat)
    requires setup.groups && i < |Run(actions, setup).1| && Run(actions, setup).1[i].WasAuthorized?
    ensures !Run(actions, setup).1[i].request.proof
  {
    var before, a := actions[..|actions| - 1], actions[|actions| - 1];
    var (s, log) := Run(before, setup);
    if i < |log| {
      NoProofIsLetThrough(before, setup, i);
    } else {
      hide Run;
      NoProofStep(s, a, setup);
    }
  }

  lemma NoProofStep(s: State, a: Action, setup: Setup)
    ensures
      var more := Step(s, a, setup).1;
      forall i :: 0 <= i < |more| && more[i].WasAuthorized? && setup.groups ==> !more[i].request.proof
  {
    hide TryTake, GivenBack;
  }

  /** In every reachable state the total equals both the sum of the per-source counts and the number of
      handlers between acquire and release, each count the number of them under that source; caps hold;
      and a handler that leaves finds both its counts above zero, so that the guards never bite. */
  lemma {:induction false} TunnelLedger(actions: seq<Action>, setup: Setup, id: nat)
    ensures
      var s := Run(actions, setup).0;
      var holders := Holders(s.handlers);
      && s.counts.total == MapSum(holders, One()) == MapSum(s.counts.bySource, Itself())
      && (forall src :: CountOf(s.counts, src) == MapSum(holders, Is(src)) && CountOf(s.counts, src) <= 8)
      && (s.counts.total == 0 || s.counts.total <= setup.maxSessions)
      && (id in holders ==> s.counts.total >= 1 && CountOf(s.counts, holders[id]) >= 1)
  {
    LedgerRun(actions, setup);
    var s := Run(actions, setup).0;
    if id in Holders(s.handlers) { HolderIsCounted(s.counts, Holders(s.handlers), id); }
  }

  /** In every reachable state, a request cleared for its target acquires a tunnel if and only if the server is
      open, fewer handlers hold one than the limit, and fewer than eight of them under the same source; then
      it is counted, and otherwise it goes away and nothing is counted. */
  lemma {:induction false} AcquiresIff(actions: seq<Action>, setup: Setup, id: nat)
    requires
      var s := Run(actions, setup).0;
      id in s.handlers && s.handlers[id].Cleared?
    ensures
      var s := Run(actions, setup).0;
      var (s', more) := Step(s, Acquire(id), setup);
      var source := s.handlers[id].source;
      var holders := Holders(s.handlers);
      && (more == [WasAcquired(id, source)] <==> !s.closed && MapSum(holders, One()) < setup.maxSessions && MapSum(holders, Is(source)) < 8)
      && (more == [WasAcquired(id, source)] || more == [])
      && Holders(s'.handlers) == (if more == [] then holders else holders[id := source])
      && (more == [] ==> s'.counts == s.counts && id !in s'.handlers)
  {
    LedgerRun(actions, setup);
    hide Run, MapSum, Is, One, Itself;
    var s := Run(actions, setup).0;
    var source := s.handlers[id].source;
    assert CountOf(s.counts, source) == MapSum(Holders(s.handlers), Is(source));
  }

  /** In every reachable state a request that leaves is gone, and if it held a tunnel gives back exactly that. */
  lemma {:induction false} LeaveGivesBack(actions: seq<Action>, setup: Setup, id: nat)
    requires id in Run(actions, setup).0.handlers
    ensures
      var s := Run(actions, setup).0;
      var (s', more) := Step(s, Leave(id), setup);
      && id !in s'.handlers && Holders(s'.handlers) == Holders(s.handlers) - {id}
      && more == (if id in Holders(s.handlers) then [WasReleased(id)] else [])
      && s'.counts.total == s.counts.total - if id in Holders(s.handlers) then 1 else 0
  {
    LedgerRun(actions, setup);
    hide Run;
    var s := Run(actions, setup).0;
    if id in Holders(s.handlers) { HolderIsCounted(s.counts, Holders(s.handlers), id); }
  }

  /** A connection is admitted without a grant, once; and no other step admits one. */
  lemma ConnectionsStart(s: State, a: Action, setup: Setup, conn: nat)
    ensures
      var s' := Step(s, a, setup).0;
      && (a == Connect(conn) && conn !in s.grants ==> s'.grants == s.grants[conn := Grant(0, "", 0, 1)])
      && (conn in s.grants ==> conn in s'.grants) && (a != Connect(conn) && conn !in s.grants ==> conn !in s'.grants)
  {
    hide TryTake, GivenBack;
  }

  /** The server is closed if and only if it was shut down. */
  lemma {:induction false} ClosedIffShutDown(actions: seq<Action>, setup: Setup)
    ensures Run(actions, setup).0.closed <==> Shutdown in actions
  {
    if actions != [] {
      var before, a := actions[..|actions| - 1], actions[|actions| - 1];
      ClosedIffShutDown(before, setup);
      assert actions == before + [a];
      var s := Run(before, setup).0;
      hide TryTake, GivenBack, Decide, Renewed, Counted;
      assert Step(s, a, setup).0.closed <==> s.closed || a == Shutdown;
    }
  }

  /** The account a request is let through under, if it is. */
  function AccountOf(s: State, conn: nat, r: Request, redeemed: Option<(string, int)>, groups: bool): Option<string>
  {
    if !groups then Some("")
    else if conn !in s.grants || r.proof then None
    else if s.clock < s.grants[conn].until && !r.renew then Some(s.grants[conn].address)
    else if r.ticket && s.grants[conn].attempts < 8 && redeemed.Some? then Some("ticket:" + redeemed.value.0)
    else None
  }

  lemma AuthorizedUnder(s: State, id: nat, conn: nat, remote: string, r: Request, redeemed: Option<(string, int)>, setup: Setup)
    requires id in s.handlers && s.handlers[id] == Arrived(conn, remote)
    ensures
      var s' := Step(s, Action.Authorize(id, r, redeemed), setup).0;
      var account := AccountOf(s, conn, r, redeemed, setup.groups);
      && s'.counts == s.counts && s'.closed == s.closed
      && (account.None? ==> id !in s'.handlers) && (account.Some? ==> id in s'.handlers && s'.handlers[id] == Authorized(remote, account.value))
  {
  }

  /** After any run, a new request that goes through all its steps has its target dialed if and only if it is let
      through, its target is allowed, the server is open, fewer handlers hold a tunnel than the limit, and fewer
      than eight of them under its ticket or, on a public relay, its host. */
  lemma {:induction false} DialedIff(actions: seq<Action>, setup: Setup, id: nat, conn: nat, remote: string, r: Request, redeemed: Option<(string, int)>, target: string)
    requires id !in Run(actions, setup).0.used
    ensures
      var s := Run(actions, setup).0;
      var s1 := Step(s, Arrive(id, conn, remote), setup).0;
      var s2 := Step(s1, Action.Authorize(id, r, redeemed), setup).0;
      var s3 := Step(s2, Resolve(id, target), setup).0;
      var s4 := Step(s3, Acquire(id), setup).0;
      var more := Step(s4, Dial(id), setup).1;
      var account := AccountOf(s, conn, r, redeemed, setup.groups);
      var holders := Holders(s.handlers);
      && (more == [WasDialed(id, target)] <==>
            && account.Some? && setup.allowed(target) && !s.closed && MapSum(holders, One()) < setup.maxSessions
            && MapSum(holders, Is(if account.value == "" then remote else "account:" + account.value)) < 8)
      && (more == [WasDialed(id, target)] || more == [])
  {
    LedgerRun(actions, setup);
    var s := Run(actions, setup).0;
    hide Run, MapSum, Is, One, Itself, DoAuthorize, AccountOf;
    var s1 := Step(s, Arrive(id, conn, remote), setup).0;
    assert AccountOf(s1, conn, r, redeemed, setup.groups) == AccountOf(s, conn, r, redeemed, setup.groups) by { SameAccount(s, s1, conn, r, redeemed, setup.groups); }
    AuthorizedUnder(s1, id, conn, remote, r, redeemed, setup);
    var account := AccountOf(s, conn, r, redeemed, setup.groups);
    if account.Some? {
      var source := if account.value == "" then remote else "account:" + account.value;
      assert CountOf(s.counts, source) == MapSum(Holders(s.handlers), Is(source));
    }
  }

  lemma SameAccount(s: State, s': State, conn: nat, r: Request, redeemed: Option<(string, int)>, groups: bool)
    requires s'.grants == s.grants && s'.clock == s.clock
    ensures AccountOf(s', conn, r, redeemed, groups) == AccountOf(s, conn, r, redeemed, groups)
  {
  }

  /** Every egress socket is dialed for a request whose target is allowed and that had acquired a tunnel,
      counted under its ticket or else its host, and not yet released it; and that authorize had let
      through: on a restricted relay by a ticket redeemed for it, or by one redeemed on the same connection
      before and not expired then. */
  lemma {:induction false} DialsAreCovered(actions: seq<Action>, setup: Setup, i: nat)
    requires i < |Run(actions, setup).1| && Run(actions, setup).1[i].WasDialed?
    ensures
      var log := Run(actions, setup).1;
      && setup.allowed(log[i].target) && WasReleased(log[i].id) !in log[..i]
      && exists source :: WasAcquired(log[i].id, source) in log[..i] && AuthorizedAs(setup.groups, log[..i], log[i].id, source)
  {
    TraceRun(actions, setup);
    var log := Run(actions, setup).1;
    assert DialTraced(log[..i], log[i], setup);
  }

  /** Once the server is closed, nothing that happens later acquires a tunnel or dials for a new one. */
  lemma {:induction false} NoTunnelAfterShutdown(before: seq<Action>, after: seq<Action>, setup: Setup)
    requires Run(before, setup).0.closed
    ensures
      var log := Run(before, setup).1;
      var (s, log') := Run(before + after, setup);
      && s.closed && log <= log' && s.counts.total <= Run(before, setup).0.counts.total
      && forall e :: e in log'[|log|..] ==> !e.WasAcquired?
  {
    if after == [] {
      assert before + after == before;
    } else {
      var rest, a := after[..|after| - 1], after[|after| - 1];
      NoTunnelAfterShutdown(before, rest, setup);
      assert (before + after)[..|before + after| - 1] == before + rest;
      assert (before + after)[|before + after| - 1] == a;
      hide Run;
      var (s, log1) := Run(before + rest, setup);
      var (s', more) := Step(s, a, setup);
      var log := Run(before, setup).1;
      assert (log1 + more)[|log|..] == log1[|log|..] + more;
    }
  }

  // --------------------------------------------------------------- the connections

  const CONNECTIONS := 512
  const PER_ADDRESS := 32

  datatype Link = Open(id: nat, source: string) | Close(id: nat)

  datatype Links = Links(counts: Counts, open: map<nat, string>)

  /** The hook that runs when a connection ends: no guards. */
  function Dropped(c: Counts, source: string): Counts
    requires c.total >= 1 && source in c.bySource && c.bySource[source] >= 1
  {
    var rest := c.bySource[source := c.bySource[source] - 1];
    Counts(c.total - 1, if rest[source] == 0 then rest - {source} else rest)
  }

  /** On a ledger that agrees with its holders, both ways of giving back are the same. */
  lemma DroppedIsGivenBack(c: Counts, source: string)
    requires c.total >= 1 && source in c.bySource && c.bySource[source] >= 1
    ensures Dropped(c, source) == GivenBack(c, source)
  {
    if c.bySource[source] == 1 {
      assert c.bySource[source := 0] - {source} == c.bySource - {source};
    }
  }

  /** connectionContext admits or refuses; an admitted connection is counted until it ends. The second
      result says whether the ledger could be trusted with the unguarded decrements. */
  function LinkStep(s: Links, a: Link): (Links, bool)
  {
    match a
    case Open(id, source) =>
      var (counts, ok) := TryTake(s.counts, source, CONNECTIONS, PER_ADDRESS);
      if id in s.open || !ok then (s, true) else (Links(counts, s.open[id := source]), true)
    case Close(id) =>
      if id !in s.open then (s, true)
      else
        var source := s.open[id];
        if s.counts.total >= 1 && source in s.counts.bySource && s.counts.bySource[source] >= 1
        then (Links(Dropped(s.counts, source), s.open - {id}), true)
        else (s, false)
  }

  function LinkRun(actions: seq<Link>): (Links, bool)
  {
    if actions == [] then (Links(NOTHING, map[]), true)
    else
      var (s, ok) := LinkRun(actions[..|actions| - 1]);
      var (s', ok') := LinkStep(s, actions[|actions| - 1]);
      (s', ok && ok')
  }

  /** Connections opening and closing in any order: the ledger agrees with the open connections, stays
      within 512 in all and 32 per source, and its decrements never reach below zero. */
  lemma {:induction false} ConnectionLedger(actions: seq<Link>)
    ensures
      var (s, ok) := LinkRun(actions);
      && ok && Agrees(s.counts, s.open) && s.counts.total <= 512
      && (forall source :: CountOf(s.counts, source) <= 32)
  {
    if actions != [] {
      hide Agrees;
      var a := actions[|actions| - 1];
      ConnectionLedger(actions[..|actions| - 1]);
      var s := LinkRun(actions[..|actions| - 1]).0;
      if a.Open? && a.id !in s.open {
        TakeAgrees(s.counts, s.open, a.id, a.source);
      } else if a.Close? && a.id in s.open {
        HolderIsCounted(s.counts, s.open, a.id);
        DroppedIsGivenBack(s.counts, s.open[a.id]);
        GiveBackAgrees(s.counts, s.open, a.id);
      }
    } else {
      EmptyAgrees();
    }
  }

  /** In every reachable state a new connection is admitted if and only if fewer than 512 are open, and fewer
      than 32 of them from the same source. */
  lemma {:induction false} AdmitsIff(actions: seq<Link>, id: nat, source: string)
    requires id !in LinkRun(actions).0.open
    ensures
      var s := LinkRun(actions).0;
      var s' := LinkStep(s, Open(id, source)).0;
      && (id in s'.open <==> MapSum(s.open, One()) < 512 && MapSum(s.open, Is(source)) < 32)
      && s'.open == (if id in s'.open then s.open[id := source] else s.open)
  {
    ConnectionLedger(actions);
    hide LinkRun, MapSum, Is, One, Itself;
    var s := LinkRun(actions).0;
    assert CountOf(s.counts, source) == MapSum(s.open, Is(source));
  }

  /** In every reachable state a connection that ends is gone, and the others stay. */
  lemma {:induction false} EndedIsGone(actions: seq<Link>, id: nat)
    ensures LinkStep(LinkRun(actions).0, Close(id)).0.open == LinkRun(actions).0.open - {id}
  {
    ConnectionLedger(actions);
    hide LinkRun;
    var s := LinkRun(actions).0;
    if id in s.open { HolderIsCounted(s.counts, s.open, id); } else { assert s.open - {id} == s.open; }
  }

  // ------------------------------------------------------------------- the objects

  /** The relay server's tunnel counters. */
  class Server {
    const maxSessions: int
    var activeSessions: nat
    var activeByAddress: map<string, nat>
    var closed: bool

    function Ledger(): Counts
      reads this
    {
      Counts(activeSessions, activeByAddress)
    }

    constructor (maxSessions: int)
      ensures Ledger() == NOTHING && !closed && this.maxSessions == if maxSessions <= 0 then 256 else maxSessions
    {
      this.maxSessions := if maxSessions <= 0 then 256 else maxSessions;
      activeSessions, activeByAddress, closed := 0, map[], false;
    }

    method Acquire(source: string) returns (ok: bool)
      modifies this`activeSessions, this`activeByAddress
      ensures closed ==> !ok && Ledger() == old(Ledger())
      ensures !closed ==> (Ledger(), ok) == TryTake(old(Ledger()), source, maxSessions, PER_SOURCE)
    {
      var count := if source in activeByAddress then activeByAddress[source] else 0;
      if closed || activeSessions >= maxSessions || count >= PER_SOURCE { return false; }
      activeSessions := activeSessions + 1;
      activeByAddress := activeByAddress[source := count + 1];
      return true;
    }

    method Release(source: string)
      modifies this`activeSessions, this`activeByAddress
      ensures Ledger() == GivenBack(old(Ledger()), source)
    {
      if activeSessions > 0 { activeSessions := activeSessions - 1; }
      var count := if source in activeByAddress then activeByAddress[source] else 0;
      if count <= 1 {
        activeByAddress := activeByAddress - {source};
      } else {
        activeByAddress := activeByAddress[source := count - 1];
      }
    }

    method Shutdown()
      modifies this`closed
      ensures closed
    {
      closed := true;
    }
  }
}
