/**
 The relay as a whole: the ticket authority and the tunnels, joined where authorize calls redeem. What
 redeem returns is a grant of the authority's own run, returned to one caller.
 */
module Relay {
  import opened Clock
  import opened Options
  import opened Sums
  import opened TicketStore
  import opened TicketProtocol
  import ChallengeCompleteness
  import ConnectionGrant
  import CoreLookups
  import Ledgers
  import Membership
  import MembershipCache
  import Sets
  import TicketForgery
  import TicketGrants
  import TicketIssuance
  import TicketKeys
  import TicketTrace

  // --------------------------------------------------------------------- the machine

  /** The authority; how long its log was when the process started; how the process was set up, the steps
      of its tunnels and connections since, and the grants that redeem has returned. */
  datatype Node = Node(authority: State, booted: nat, setup: Ledgers.Setup, steps: seq<Ledgers.Action>, returned: set<nat>)

  /** A step of the authority; one of the tunnels and connections; authorize with the grant that the
      log has at this place, returned by redeem; or a new start of the process. Both sides read one clock
      that only goes on: it is the authority's step that moves it. */
  datatype Move =
    | Inside(a: Action)
    | Outside(step: Ledgers.Action)
    | Renew(id: nat, request: ConnectionGrant.Request, grant: nat)
    | Boot(policy: Policy, setup: Ledgers.Setup)

  /** Authorize, with what redeem returned: the digest of the ticket's message, and a deadline. */
  function Renewal(env: Env, id: nat, request: ConnectionGrant.Request, e: Event): Ledgers.Action
    requires e.Granted?
  {
    Ledgers.Authorize(id, request, Some((env.digest(e.message), e.deadline)))
  }

  predicate Returns(n: Node, log: seq<Event>, grant: nat)
  {
    n.booted <= grant < |log| && log[grant].Granted? && grant !in n.returned
  }

  /** What the tunnels see of a step of the authority: that time has passed. */
  function Passed(a: Action): seq<Ledgers.Action>
  {
    if a.AccessStep? && a.a.Ask? && a.a.a.Tick? then [Ledgers.Tick(a.a.a.ns)] else []
  }

  function Next(env: Env, n: Node, log: seq<Event>, m: Move): (Node, seq<Event>)
  {
    match m
    case Inside(a) =>
      if a.Restart? then (n, [])
      else
        var (s, more) := Step(env, n.authority, a, |log|);
        (n.(authority := s, steps := n.steps + Passed(a)), more)
    case Outside(a) =>
      if a.Tick? || (a.Authorize? && a.redeemed.Some?) then (n, []) else (n.(steps := n.steps + [a]), [])
    case Renew(id, request, grant) =>
      if Returns(n, log, grant)
      then (n.(steps := n.steps + [Renewal(env, id, request, log[grant])], returned := n.returned + {grant}), [])
      else (n, [])
    case Boot(policy, setup) =>
      var (s, more) := Step(env, n.authority, Restart(policy), |log|);
      (Node(s, |log|, setup, [], {}), more)
  }

  function Life(env: Env, policy: Policy, setup: Ledgers.Setup, clock: nat, moves: seq<Move>): (Node, seq<Event>)
  {
    if moves == [] then (Node(Initial(policy, clock), 0, setup, [], {}), [])
    else
      var (n, log) := Life(env, policy, setup, clock, moves[..|moves| - 1]);
      var (n', more) := Next(env, n, log, moves[|moves| - 1]);
      (n', log + more)
  }

  /** What the process has done about tunnels since it started. */
  function Tunnels(n: Node): seq<Ledgers.Event> { Ledgers.Run(n.steps, n.setup).1 }

  // --------------------------------------------------- the authority within the relay

  ghost function Own(m: Move): seq<Action>
  {
    match m
    case Inside(a) => if a.Restart? then [] else [a]
    case Boot(policy, _) => [Restart(policy)]
    case _ => []
  }

  ghost function OwnAll(moves: seq<Move>): seq<Action>
  {
    if moves == [] then [] else OwnAll(moves[..|moves| - 1]) + Own(moves[|moves| - 1])
  }

  /** Whatever happens around it, the authority goes through a run of its own. */
  lemma {:induction false} AuthorityRuns(env: Env, policy: Policy, setup: Ledgers.Setup, clock: nat, moves: seq<Move>)
    ensures
      var (n, log) := Life(env, policy, setup, clock, moves);
      Run(env, Initial(policy, clock), OwnAll(moves)) == (n.authority, log)
  {
    if moves != [] {
      hide Step, Run;
      var before, m := moves[..|moves| - 1], moves[|moves| - 1];
      AuthorityRuns(env, policy, setup, clock, before);
      var (n, log) := Life(env, policy, setup, clock, before);
      if Own(m) == [] {
        assert OwnAll(before) + Own(m) == OwnAll(before);
        assert log + [] == log;
      } else {
        assert Own(m) == [Own(m)[0]];
        RunStep(env, Initial(policy, clock), OwnAll(before), Own(m)[0]);
      }
    } else {
      assert Run(env, Initial(policy, clock), []) == (Initial(policy, clock), []);
    }
  }

  // ------------------------------------------------------------------- one clock

  lemma TunnelClock(s: Ledgers.State, a: Ledgers.Action, setup: Ledgers.Setup)
    ensures Ledgers.Step(s, a, setup).0.clock == s.clock + if a.Tick? then a.ns else 0
  {
    hide Ledgers.TryTake, Ledgers.GivenBack, ConnectionGrant.Decide;
  }

  /** Over every life of the relay, the deadlines the authority sets and the time the connections compare
      them with are of the same clock. */
  lemma {:induction false} OneClock(env: Env, policy: Policy, setup: Ledgers.Setup, clock: nat, moves: seq<Move>)
    ensures
      var n := Life(env, policy, setup, clock, moves).0;
      Ledgers.Run(n.steps, n.setup).0.clock == n.authority.access.core.clock
  {
    if moves != [] {
      hide Step, Ledgers.Step;
      var m := moves[|moves| - 1];
      OneClock(env, policy, setup, clock, moves[..|moves| - 1]);
      var (n, log) := Life(env, policy, setup, clock, moves[..|moves| - 1]);
      var n' := Next(env, n, log, m).0;
      if m.Inside? && !m.a.Restart? { ChallengeCompleteness.AuthorityClock(env, n.authority, m.a, |log|); }
      if m.Boot? {
        BootClock(env, n.authority, m.policy, |log|);
      } else if |n'.steps| > |n.steps| {
        var a := n'.steps[|n.steps|];
        assert n'.steps[..|n'.steps| - 1] == n.steps;
        TunnelClock(Ledgers.Run(n.steps, n.setup).0, a, n.setup);
      } else {
        assert n'.steps == n.steps;
      }
    }
  }

  lemma BootClock(env: Env, s: State, policy: Policy, serial: nat)
    ensures Step(env, s, Restart(policy), serial).0.access.core.clock == 0
  {
  }

  // ----------------------------------------------------------- renewals and grants

  /** Authorizations of this account by a ticket redeemed for them. */
  function RenewedWeight(account: string): Ledgers.Event -> nat
  {
    (e: Ledgers.Event) => if e.WasAuthorized? && e.renewed && e.account == account then 1 else 0
  }

  /** Steps in which redeem returns this digest. */
  function ReturnWeight(digest: string): Ledgers.Action -> nat
  {
    (a: Ledgers.Action) => if a.Authorize? && a.redeemed.Some? && a.redeemed.value.0 == digest then 1 else 0
  }

  /** Grants for tickets with this digest. */
  function GrantedWeight(env: Env, digest: string): Event -> nat
  {
    (e: Event) => if e.Granted? && env.digest(e.message) == digest then 1 else 0
  }

  /** The grants returned for a digest. */
  ghost function ReturnedFor(env: Env, n: Node, log: seq<Event>, digest: string): set<nat>
  {
    set g | g in n.returned && g < |log| && log[g].Granted? && env.digest(log[g].message) == digest
  }

  /** A step that has redeem return something returns a grant of the log. */
  ghost predicate StepReturns(env: Env, n: Node, log: seq<Event>, a: Ledgers.Action)
  {
    a.Authorize? && a.redeemed.Some? ==>
      exists g :: g in n.returned && n.booted <= g < |log| && log[g].Granted? && a.redeemed.value == (env.digest(log[g].message), log[g].deadline)
  }

  ghost predicate NodeInv(env: Env, n: Node, log: seq<Event>)
  {
    && (forall k :: 0 <= k < |n.steps| ==> StepReturns(env, n, log, n.steps[k]))
    && (forall digest :: SeqSum(n.steps, ReturnWeight(digest)) <= |ReturnedFor(env, n, log, digest)|)
  }

  lemma StepReturnsStill(env: Env, n: Node, log: seq<Event>, n': Node, more: seq<Event>, a: Ledgers.Action)
    requires StepReturns(env, n, log, a) && n.returned <= n'.returned && n.booted == n'.booted
    ensures StepReturns(env, n', log + more, a)
  {
    if a.Authorize? && a.redeemed.Some? {
      var g :| g in n.returned && n.booted <= g < |log| && log[g].Granted? && a.redeemed.value == (env.digest(log[g].message), log[g].deadline);
      assert g in n'.returned && (log + more)[g] == log[g];
    }
  }

  lemma ReturnedStill(env: Env, n: Node, log: seq<Event>, n': Node, more: seq<Event>, digest: string)
    requires n.returned <= n'.returned
    ensures |ReturnedFor(env, n, log, digest)| <= |ReturnedFor(env, n', log + more, digest)|
  {
    var was, since := ReturnedFor(env, n, log, digest), ReturnedFor(env, n', log + more, digest);
    forall g | g in was
      ensures g in since
    {
      assert (log + more)[g] == log[g];
    }
    Sets.SubsetSize(was, since);
  }

  /** The authority goes on. */
  lemma NodeInside(env: Env, n: Node, log: seq<Event>, n': Node, more: seq<Event>)
    requires NodeInv(env, n, log) && n'.steps == n.steps && n'.returned == n.returned && n'.booted == n.booted
    ensures NodeInv(env, n', log + more)
  {
    hide StepReturns, ReturnedFor, SeqSum;
    forall k | 0 <= k < |n'.steps|
      ensures StepReturns(env, n', log + more, n'.steps[k])
    {
      StepReturnsStill(env, n, log, n', more, n.steps[k]);
    }
    forall digest
      ensures SeqSum(n'.steps, ReturnWeight(digest)) <= |ReturnedFor(env, n', log + more, digest)|
    {
      ReturnedStill(env, n, log, n', more, digest);
    }
  }

  /** One more step of the tunnels, which may have redeem return one more grant. */
  lemma NodeOutside(env: Env, n: Node, log: seq<Event>, n': Node, a: Ledgers.Action)
    requires NodeInv(env, n, log) && n'.steps == n.steps + [a] && StepReturns(env, n', log, a) && n.returned <= n'.returned && n'.booted == n.booted
    requires forall digest :: ReturnWeight(digest)(a) + |ReturnedFor(env, n, log, digest)| <= |ReturnedFor(env, n', log, digest)|
    ensures NodeInv(env, n', log)
  {
    hide StepReturns, ReturnedFor, SeqSum, ReturnWeight;
    forall k | 0 <= k < |n'.steps|
      ensures StepReturns(env, n', log, n'.steps[k])
    {
      if k < |n.steps| {
        StepReturnsStill(env, n, log, n', [], n.steps[k]);
        assert log + [] == log;
      }
    }
    forall digest
      ensures SeqSum(n'.steps, ReturnWeight(digest)) <= |ReturnedFor(env, n', log, digest)|
    {
      SeqSumAppend(n.steps, [a], ReturnWeight(digest));
      SeqSumOne(a, ReturnWeight(digest));
    }
  }

  lemma NodeRenews(env: Env, n: Node, log: seq<Event>, n': Node, id: nat, request: ConnectionGrant.Request, grant: nat)
    requires NodeInv(env, n, log) && Returns(n, log, grant)
    requires n' == n.(steps := n.steps + [Renewal(env, id, request, log[grant])], returned := n.returned + {grant})
    ensures NodeInv(env, n', log)
  {
    var a := Renewal(env, id, request, log[grant]);
    forall digest
      ensures ReturnWeight(digest)(a) + |ReturnedFor(env, n, log, digest)| <= |ReturnedFor(env, n', log, digest)|
    {
      var was, since := ReturnedFor(env, n, log, digest), ReturnedFor(env, n', log, digest);
      assert since == if env.digest(log[grant].message) == digest then was + {grant} else was;
    }
    assert StepReturns(env, n', log, a) by { assert grant in n'.returned; }
    NodeOutside(env, n, log, n', a);
  }

  lemma NodeStep(env: Env, n: Node, log: seq<Event>, m: Move)
    requires NodeInv(env, n, log)
    ensures
      var (n', more) := Next(env, n, log, m);
      NodeInv(env, n', log + more)
  {
    hide Step, NodeInv, ReturnedFor;
    var (n', more) := Next(env, n, log, m);
    assert log + [] == log;
    if m.Inside? && n' != n {
      var n1 := n.(authority := n'.authority);
      NodeInside(env, n, log, n1, more);
      if Passed(m.a) == [] {
        assert n' == n1;
      } else {
        SameReturned(env, n1, log + more, n');
        NodeOutside(env, n1, log + more, n', Passed(m.a)[0]);
      }
    } else if m.Inside? {
      NodeInside(env, n, log, n', more);
    } else if m.Renew? && Returns(n, log, m.grant) {
      NodeRenews(env, n, log, n', m.id, m.request, m.grant);
    } else if m.Outside? && n' != n {
      forall digest
        ensures ReturnedFor(env, n', log, digest) == ReturnedFor(env, n, log, digest)
      {
        SameReturned(env, n, log, n');
      }
      NodeOutside(env, n, log, n', m.step);
    } else if m.Boot? {
      NodeBoots(env, n', log + more);
    }
  }

  lemma SameReturned(env: Env, n: Node, log: seq<Event>, n': Node)
    requires n'.returned == n.returned
    ensures forall digest :: ReturnedFor(env, n', log, digest) == ReturnedFor(env, n, log, digest)
  {
  }

  lemma NodeBoots(env: Env, n: Node, log: seq<Event>)
    requires n.steps == []
    ensures NodeInv(env, n, log)
  {
  }

  lemma {:induction false} NodeRun(env: Env, policy: Policy, setup: Ledgers.Setup, clock: nat, moves: seq<Move>)
    ensures
      var (n, log) := Life(env, policy, setup, clock, moves);
      NodeInv(env, n, log)
  {
    hide Next, NodeInv;
    if moves != [] {
      NodeRun(env, policy, setup, clock, moves[..|moves| - 1]);
      var (n, log) := Life(env, policy, setup, clock, moves[..|moves| - 1]);
      NodeStep(env, n, log, moves[|moves| - 1]);
    } else {
      NodeBoots(env, Life(env, policy, setup, clock, moves).0, []);
    }
  }

  // ------------------------------------------------------ renewals seen in the tunnels

  /** Every renewal is a step in which redeem returned its digest and deadline. */
  lemma {:induction false} RenewedByStep(steps: seq<Ledgers.Action>, setup: Ledgers.Setup, e: Ledgers.Event)
    requires e in Ledgers.Run(steps, setup).1 && e.WasAuthorized? && e.renewed
    ensures exists k :: 0 <= k < |steps| && Renews(steps[k], e)
  {
    var before, a := steps[..|steps| - 1], steps[|steps| - 1];
    var (s, log) := Ledgers.Run(before, setup);
    if e in log {
      RenewedByStep(before, setup, e);
      var k :| 0 <= k < |before| && Renews(before[k], e);
      assert Renews(steps[k], e);
    } else {
      hide Ledgers.Run;
      StepRenews(s, a, setup, e);
      assert Renews(steps[|steps| - 1], e);
    }
  }

  ghost predicate Renews(a: Ledgers.Action, e: Ledgers.Event)
    requires e.WasAuthorized?
  {
    a.Authorize? && a.id == e.id && a.redeemed.Some? && e.account == "ticket:" + a.redeemed.value.0 && e.until == a.redeemed.value.1
  }

  lemma StepRenews(s: Ledgers.State, a: Ledgers.Action, setup: Ledgers.Setup, e: Ledgers.Event)
    requires e in Ledgers.Step(s, a, setup).1 && e.WasAuthorized? && e.renewed
    ensures Renews(a, e)
  {
    hide Ledgers.TryTake, Ledgers.GivenBack, ConnectionGrant.Decide;
  }

  lemma StepRenewsOnce(s: Ledgers.State, a: Ledgers.Action, setup: Ledgers.Setup, digest: string)
    ensures SeqSum(Ledgers.Step(s, a, setup).1, RenewedWeight("ticket:" + digest)) <= ReturnWeight(digest)(a)
  {
    var more, w := Ledgers.Step(s, a, setup).1, RenewedWeight("ticket:" + digest);
    assert |more| <= 1 by { hide Ledgers.TryTake, Ledgers.GivenBack, ConnectionGrant.Decide, SeqSum; }
    if more == [] {
      SeqSumZero(more, w);
    } else {
      hide SeqSum, Ledgers.Step;
      SeqSumOne(more[0], w);
      assert more == [more[0]];
      if w(more[0]) == 1 {
        StepRenews(s, a, setup, more[0]);
        assert ("ticket:" + a.redeemed.value.0)[7..] == ("ticket:" + digest)[7..];
        assert ("ticket:" + a.redeemed.value.0)[7..] == a.redeemed.value.0 && ("ticket:" + digest)[7..] == digest;
      }
    }
  }

  lemma {:induction false} RenewedWithinReturns(steps: seq<Ledgers.Action>, setup: Ledgers.Setup, digest: string)
    ensures SeqSum(Ledgers.Run(steps, setup).1, RenewedWeight("ticket:" + digest)) <= SeqSum(steps, ReturnWeight(digest))
  {
    if steps != [] {
      hide Ledgers.Step, RenewedWeight, ReturnWeight;
      var before, a := steps[..|steps| - 1], steps[|steps| - 1];
      RenewedWithinReturns(before, setup, digest);
      var (s, log) := Ledgers.Run(before, setup);
      var more := Ledgers.Step(s, a, setup).1;
      StepRenewsOnce(s, a, setup, digest);
      SeqSumAppend(log, more, RenewedWeight("ticket:" + digest));
      SeqSumAppend(before, [a], ReturnWeight(digest));
      SeqSumOne(a, ReturnWeight(digest));
      assert steps == before + [a];
    }
  }

  /** Distinct places of a log that weigh one each weigh no more than the log. */
  lemma {:induction false} PlacesWithinSum(log: seq<Event>, places: set<nat>, w: Event -> nat)
    requires forall g :: g in places ==> g < |log| && w(log[g]) == 1
    ensures |places| <= SeqSum(log, w)
  {
    if log == [] {
      assert places == {};
    } else {
      var last := |log| - 1;
      forall g | g in places - {last}
        ensures g < last && w(log[..last][g]) == 1
      {
        assert log[..last][g] == log[g];
      }
      PlacesWithinSum(log[..last], places - {last}, w);
      assert last !in places ==> places - {last} == places;
    }
  }

  // ----------------------------------------------------------------- main results

  /** Over every life of the relay, whatever the clock does: a ticket renews authorizations of the running
      process no more often than it was granted. */
  lemma {:induction false} RenewalsWithinGrants(env: Env, policy: Policy, setup: Ledgers.Setup, clock: nat, moves: seq<Move>, digest: string)
    ensures
      var (n, log) := Life(env, policy, setup, clock, moves);
      SeqSum(Tunnels(n), RenewedWeight("ticket:" + digest)) <= SeqSum(log, GrantedWeight(env, digest))
  {
    NodeRun(env, policy, setup, clock, moves);
    hide Life;
    var (n, log) := Life(env, policy, setup, clock, moves);
    RenewedWithinReturns(n.steps, n.setup, digest);
    PlacesWithinSum(log, ReturnedFor(env, n, log, digest), GrantedWeight(env, digest));
    assert SeqSum(n.steps, ReturnWeight(digest)) <= |ReturnedFor(env, n, log, digest)|;
  }

  /** The request of the dial at i was let through as e, counted under the ticket that redeem had granted to
      this process at g: with the grant just returned, or before the deadline it had set. */
  ghost predicate LetIn(env: Env, n: Node, log: seq<Event>, i: nat, e: Ledgers.Event, g: nat)
    requires i < |Tunnels(n)| && Tunnels(n)[i].WasDialed?
  {
    && e in Tunnels(n)[..i] && e.WasAuthorized? && e.id == Tunnels(n)[i].id
    && Ledgers.WasAcquired(e.id, "account:" + e.account) in Tunnels(n)[..i]
    && g in n.returned && n.booted <= g < |log| && log[g].Granted?
    && e.account == "ticket:" + env.digest(log[g].message) && e.until == log[g].deadline && (e.renewed || e.at < e.until)
  }

  /** The request of the dial at i was let through as e, and counted under its ticket. */
  ghost predicate Admitted(tunnels: seq<Ledgers.Event>, i: nat, e: Ledgers.Event)
    requires i < |tunnels| && tunnels[i].WasDialed?
  {
    && e in tunnels[..i] && e.WasAuthorized? && e.id == tunnels[i].id
    && Ledgers.WasAcquired(e.id, "account:" + e.account) in tunnels[..i] && Ledgers.LetThrough(true, tunnels[..i], e)
  }

  lemma {:induction false} DialsAreAdmitted(steps: seq<Ledgers.Action>, setup: Ledgers.Setup, i: nat)
    requires setup.groups && i < |Ledgers.Run(steps, setup).1| && Ledgers.Run(steps, setup).1[i].WasDialed?
    ensures exists e :: Admitted(Ledgers.Run(steps, setup).1, i, e)
  {
    hide Ledgers.Run, Ledgers.RenewedTo;
    Ledgers.DialsAreCovered(steps, setup, i);
    var tunnels := Ledgers.Run(steps, setup).1;
    var before, id := tunnels[..i], tunnels[i].id;
    var source :| Ledgers.WasAcquired(id, source) in before && Ledgers.AuthorizedAs(true, before, id, source);
    var e :| e in before && e.WasAuthorized? && e.id == id && Ledgers.CountedUnder(e.remote, e.account, source) && Ledgers.LetThrough(true, before, e);
    assert e.account != "";
    assert Admitted(tunnels, i, e);
  }

  /** A request let through was renewed itself, or its connection was before. */
  lemma TheRenewal(log: seq<Ledgers.Event>, e: Ledgers.Event)
    requires e in log && Ledgers.LetThrough(true, log, e)
    ensures exists r :: r in log && r.WasAuthorized? && r.renewed && r.account == e.account && r.until == e.until
  {
    if !e.renewed {
      var r :| r in log && r.WasAuthorized? && r.conn == e.conn && r.account == e.account && r.until == e.until && r.renewed;
    }
  }

  /** Behind a renewal there is a grant that was returned. */
  lemma {:induction false} RenewalHasGrant(env: Env, n: Node, log: seq<Event>, r: Ledgers.Event)
    requires NodeInv(env, n, log) && r in Tunnels(n) && r.WasAuthorized? && r.renewed
    ensures exists g :: g in n.returned && n.booted <= g < |log| && log[g].Granted? &&
              r.account == "ticket:" + env.digest(log[g].message) && r.until == log[g].deadline
  {
    hide Ledgers.Run, NodeInv;
    RenewedByStep(n.steps, n.setup, r);
    var k :| 0 <= k < |n.steps| && Renews(n.steps[k], r);
    StepOf(env, n, log, k);
    var g :| g in n.returned && n.booted <= g < |log| && log[g].Granted? &&
             n.steps[k].redeemed.value == (env.digest(log[g].message), log[g].deadline);
  }

  lemma StepOf(env: Env, n: Node, log: seq<Event>, k: nat)
    requires NodeInv(env, n, log) && k < |n.steps|
    ensures StepReturns(env, n, log, n.steps[k])
  {
  }

  /** Over every life of the relay, whatever the clock does: on a restricted relay every dial is for a
      request let in by a ticket granted to the running process. */
  lemma {:induction false} DialsAreLetIn(env: Env, policy: Policy, setup: Ledgers.Setup, clock: nat, moves: seq<Move>, i: nat)
    requires
      var (n, log) := Life(env, policy, setup, clock, moves);
      n.setup.groups && i < |Tunnels(n)| && Tunnels(n)[i].WasDialed?
    ensures
      var (n, log) := Life(env, policy, setup, clock, moves);
      exists e, g :: LetIn(env, n, log, i, e, g)
  {
    NodeRun(env, policy, setup, clock, moves);
    var (n, log) := Life(env, policy, setup, clock, moves);
    hide Life, Ledgers.Run, NodeInv, Ledgers.RenewedTo;
    DialsAreAdmitted(n.steps, n.setup, i);
    var e :| Admitted(Tunnels(n), i, e);
    TheRenewal(Tunnels(n)[..i], e);
    var r :| r in Tunnels(n)[..i] && r.WasAuthorized? && r.renewed && r.account == e.account && r.until == e.until;
    RenewalHasGrant(env, n, log, r);
    var g :| g in n.returned && n.booted <= g < |log| && log[g].Granted? &&
             r.account == "ticket:" + env.digest(log[g].message) && r.until == log[g].deadline;
    assert LetIn(env, n, log, i, e, g);
  }

  /** A batch signed at j, under the key and for the epoch of the ticket granted at g, after a Core had said
      that its account is a member of an allowed group, in the epoch's own time. */
  ghost predicate SignedFor(log: seq<Event>, g: nat, key: Key, j: nat)
    requires g < |log| && log[g].Granted?
  {
    && j < g && log[j].Issued? && log[j].key == key && log[j].epoch == log[g].epoch
    && TicketTrace.Confirmed(log[j].policy, log[..j], log[j].proof.address, log[j].checked) && log[j].checked >= log[j].epoch * HOUR
  }

  lemma SomeSignature(log: seq<Event>, key: Key, v: Event) returns (j: nat)
    requires TicketForgery.Unforgeable(log) && v in log && v.Verified? && v.key == key
    ensures j < |log| && log[j].Issued? && log[j].key == key
  {
    var w := TicketForgery.SignedWeight({key});
    var i :| 0 <= i < |log| && log[i] == v;
    assert v.ticket.message in TicketForgery.VerifiedUnder(log, key);
    assert |TicketForgery.VerifiedUnder(log, key)| <= SeqSum(log, w);
    if forall x :: x in log ==> w(x) == 0 {
      SeqSumZero(log, w);
      assert false;
    }
    var x :| x in log && w(x) != 0;
    j :| 0 <= j < |log| && log[j] == x;
  }

  /** Behind every grant, if no ticket was forged: a signature under the same key for the same epoch. */
  lemma {:induction false} GrantHasSignature(env: Env, policy: Policy, clock: nat, actions: seq<Action>, g: nat, key: Key, r: nat)
    requires
      var log := Run(env, Initial(policy, clock), actions).1;
      g < |log| && log[g].Granted? && TicketGrants.StemsFrom(env, log, g, key, r) && TicketForgery.Unforgeable(log[..r])
    ensures exists j: nat :: j < r && SignedFor(Run(env, Initial(policy, clock), actions).1, g, key, j)
  {
    hide Run, TicketForgery.Unforgeable, TicketTrace.Confirmed, TicketTrace.Authentic, TicketTrace.Made, TicketTrace.Attested, HourOf;
    var log := Run(env, Initial(policy, clock), actions).1;
    var v :| v in log[..r] && TicketTrace.VettedBy(env, v, log[g].epoch, key, log[g].message);
    var j := SomeSignature(log[..r], key, v);
    assert log[..r][j] == log[j];
    TicketIssuance.IssuanceIsConfirmed(env, policy, clock, actions, j);
    OneEpoch(env, policy, clock, actions, j, r, log[g].epoch, key);
    assert SignedFor(log, g, key, j);
  }

  /** A key that signs is the key of one epoch only. */
  lemma {:induction false} OneEpoch(env: Env, policy: Policy, clock: nat, actions: seq<Action>, j: nat, r: nat, epoch: int, key: Key)
    requires
      var log := Run(env, Initial(policy, clock), actions).1;
      j < r <= |log| && log[j].Issued? && log[j].key == key && TicketTrace.KeyOf(log[..r], epoch, key)
    ensures Run(env, Initial(policy, clock), actions).1[j].epoch == epoch
  {
    TicketTrace.TraceRun(env, policy, clock, actions);
    hide Run, TicketTrace.Confirmed, TicketTrace.Made, TicketTrace.Attested, TicketTrace.PhaseTraced, TicketTrace.ChallengeTraced, TicketTrace.AccessTraced;
    var log := Run(env, Initial(policy, clock), actions).1;
    assert TicketTrace.EventTraced(env, log[..j], log[j]);
    var a :| KeyReturned(a, log[j].epoch, key) in log[..j];
    var b :| KeyReturned(b, epoch, key) in log[..r];
    var x :| 0 <= x < j && log[..j][x] == KeyReturned(a, log[j].epoch, key);
    var y :| 0 <= y < r && log[..r][y] == KeyReturned(b, epoch, key);
    TicketKeys.OneKeyForEver(env, policy, clock, actions, x, y);
  }

  /** From a dial to a membership. Over every life of the relay, whatever the clock does, on a restricted relay
      and if no ticket was forged: every dial is for a request let in by a ticket that was granted to the
      running process, had been redeemed, and before that verified under a key of its epoch; and under that
      key a batch had been signed for that epoch, on the word of a configured Core that its account is a
      member of an allowed group. */
  lemma {:induction false} DialRestsOnMembership(env: Env, policy: Policy, setup: Ledgers.Setup, clock: nat, moves: seq<Move>, i: nat)
    requires
      var (n, log) := Life(env, policy, setup, clock, moves);
      && n.setup.groups && i < |Tunnels(n)| && Tunnels(n)[i].WasDialed?
      && forall k :: 0 <= k <= |log| ==> TicketForgery.Unforgeable(log[..k])
    ensures
      var (n, log) := Life(env, policy, setup, clock, moves);
      exists e, g: nat, key: Key, r: nat, j: nat ::
        LetIn(env, n, log, i, e, g) && TicketGrants.StemsFrom(env, log, g, key, r) && j < r && SignedFor(log, g, key, j)
  {
    hide Life, Run, LetIn, TicketGrants.StemsFrom, SignedFor, TicketForgery.Unforgeable;
    DialsAreLetIn(env, policy, setup, clock, moves, i);
    AuthorityRuns(env, policy, setup, clock, moves);
    var (n, log) := Life(env, policy, setup, clock, moves);
    var e, g: nat :| LetIn(env, n, log, i, e, g);
    assert g < |log| && log[g].Granted? by { LetInByGrant(env, n, log, i, e, g); }
    TicketGrants.GrantedIsRedeemed(env, policy, clock, OwnAll(moves), g);
    var key: Key, r: nat :| TicketGrants.StemsFrom(env, log, g, key, r);
    assert r < g by { StemsEarlier(env, log, g, key, r); }
    assert TicketForgery.Unforgeable(log[..r]);
    GrantHasSignature(env, policy, clock, OwnAll(moves), g, key, r);
    var j: nat :| j < r && SignedFor(log, g, key, j);
  }

  lemma LetInByGrant(env: Env, n: Node, log: seq<Event>, i: nat, e: Ledgers.Event, g: nat)
    requires i < |Tunnels(n)| && Tunnels(n)[i].WasDialed? && LetIn(env, n, log, i, e, g)
    ensures g < |log| && log[g].Granted?
  {
  }

  lemma StemsEarlier(env: Env, log: seq<Event>, g: nat, key: Key, r: nat)
    requires g < |log| && log[g].Granted? && TicketGrants.StemsFrom(env, log, g, key, r)
    ensures r < g
  {
  }

  /** A new start of the process, as it is set up then: no tunnels, connections or grants to return are left of the
      one before, and its database is. */
  lemma BootForgets(env: Env, n: Node, log: seq<Event>, policy: Policy, setup: Ledgers.Setup)
    ensures
      var (n', more) := Next(env, n, log, Boot(policy, setup));
      && n'.setup == setup && n'.authority.policy == policy && n'.authority.durable == n.authority.durable
      && Tunnels(n') == [] && Ledgers.Run(n'.steps, setup).0 == Ledgers.INITIAL && more == []
      && n'.authority.handlers == map[] && forall g :: !Returns(n', log, g)
  {
  }

  // -------------------------------------------------------------- what a ticket is good for

  lemma {:induction false} LifeStep(env: Env, policy: Policy, setup: Ledgers.Setup, clock: nat, moves: seq<Move>, m: Move)
    ensures
      var (n, log) := Life(env, policy, setup, clock, moves);
      var (n', more) := Next(env, n, log, m);
      Life(env, policy, setup, clock, moves + [m]) == (n', log + more)
  {
    assert (moves + [m])[..|moves + [m]| - 1] == moves;
  }

  lemma {:induction false} LedgerStep(steps: seq<Ledgers.Action>, a: Ledgers.Action, setup: Ledgers.Setup)
    ensures
      var (s, log) := Ledgers.Run(steps, setup);
      var (s', more) := Ledgers.Step(s, a, setup);
      Ledgers.Run(steps + [a], setup) == (s', log + more)
  {
    assert (steps + [a])[..|steps + [a]| - 1] == steps;
  }

  /** A request comes in on a connection with a ticket, redeem returns a grant for it, and it goes on to its target. */
  function Forwarded(id: nat, conn: nat, remote: string, request: ConnectionGrant.Request, grant: nat, target: string): seq<Move>
  {
    [Outside(Ledgers.Arrive(id, conn, remote))] + [Renew(id, request, grant)] + [Outside(Ledgers.Resolve(id, target))] +
    [Outside(Ledgers.Acquire(id))] + [Outside(Ledgers.Dial(id))]
  }

  /** The steps of the tunnels in this. */
  function ForwardedSteps(id: nat, conn: nat, remote: string, request: ConnectionGrant.Request, redeemed: (string, int), target: string): seq<Ledgers.Action>
  {
    [Ledgers.Arrive(id, conn, remote)] + [Ledgers.Authorize(id, request, Some(redeemed))] + [Ledgers.Resolve(id, target)] +
    [Ledgers.Acquire(id)] + [Ledgers.Dial(id)]
  }

  lemma {:induction false} ForwardedIsRun(env: Env, policy: Policy, setup: Ledgers.Setup, clock: nat, moves: seq<Move>,
                                          id: nat, conn: nat, remote: string, request: ConnectionGrant.Request, g: nat, target: string)
    requires
      var (n, log) := Life(env, policy, setup, clock, moves);
      n.booted <= g < |log| && log[g].Granted? && g !in n.returned
    ensures
      var (n, log) := Life(env, policy, setup, clock, moves);
      var (n', log') := Life(env, policy, setup, clock, moves + Forwarded(id, conn, remote, request, g, target));
      && n'.setup == n.setup && log' == log
      && n'.steps == n.steps + ForwardedSteps(id, conn, remote, request, (env.digest(log[g].message), log[g].deadline), target)
  {
    hide Life;
    var (n, log) := Life(env, policy, setup, clock, moves);
    var m1 := moves + [Outside(Ledgers.Arrive(id, conn, remote))];
    var m2 := m1 + [Renew(id, request, g)];
    var m3 := m2 + [Outside(Ledgers.Resolve(id, target))];
    var m4 := m3 + [Outside(Ledgers.Acquire(id))];
    LifeStep(env, policy, setup, clock, moves, Outside(Ledgers.Arrive(id, conn, remote)));
    LifeStep(env, policy, setup, clock, m1, Renew(id, request, g));
    LifeStep(env, policy, setup, clock, m2, Outside(Ledgers.Resolve(id, target)));
    LifeStep(env, policy, setup, clock, m3, Outside(Ledgers.Acquire(id)));
    LifeStep(env, policy, setup, clock, m4, Outside(Ledgers.Dial(id)));
    assert moves + Forwarded(id, conn, remote, request, g, target) == m4 + [Outside(Ledgers.Dial(id))];
    assert log + [] == log;
  }

  /** The events of these steps end with the dial, if there is one. */
  lemma {:induction false} ForwardedEvents(steps: seq<Ledgers.Action>, setup: Ledgers.Setup, id: nat, conn: nat, remote: string,
                                           request: ConnectionGrant.Request, redeemed: (string, int), target: string)
    ensures
      var (s, log) := Ledgers.Run(steps, setup);
      var s1 := Ledgers.Step(s, Ledgers.Arrive(id, conn, remote), setup).0;
      var s2 := Ledgers.Step(s1, Ledgers.Authorize(id, request, Some(redeemed)), setup).0;
      var s3 := Ledgers.Step(s2, Ledgers.Resolve(id, target), setup).0;
      var s4 := Ledgers.Step(s3, Ledgers.Acquire(id), setup).0;
      var dialed := Ledgers.Step(s4, Ledgers.Dial(id), setup).1;
      var log' := Ledgers.Run(steps + ForwardedSteps(id, conn, remote, request, redeemed, target), setup).1;
      log <= log' && (Ledgers.WasDialed(id, target) in log'[|log|..] <==> Ledgers.WasDialed(id, target) in dialed)
  {
    hide Ledgers.Run, Ledgers.Step;
    var (s, log) := Ledgers.Run(steps, setup);
    var x1 := steps + [Ledgers.Arrive(id, conn, remote)];
    var x2 := x1 + [Ledgers.Authorize(id, request, Some(redeemed))];
    var x3 := x2 + [Ledgers.Resolve(id, target)];
    var x4 := x3 + [Ledgers.Acquire(id)];
    LedgerStep(steps, Ledgers.Arrive(id, conn, remote), setup);
    LedgerStep(x1, Ledgers.Authorize(id, request, Some(redeemed)), setup);
    LedgerStep(x2, Ledgers.Resolve(id, target), setup);
    LedgerStep(x3, Ledgers.Acquire(id), setup);
    LedgerStep(x4, Ledgers.Dial(id), setup);
    assert steps + ForwardedSteps(id, conn, remote, request, redeemed, target) == x4 + [Ledgers.Dial(id)];
    var s1 := Ledgers.Step(s, Ledgers.Arrive(id, conn, remote), setup);
    var s2 := Ledgers.Step(s1.0, Ledgers.Authorize(id, request, Some(redeemed)), setup);
    var s3 := Ledgers.Step(s2.0, Ledgers.Resolve(id, target), setup);
    var s4 := Ledgers.Step(s3.0, Ledgers.Acquire(id), setup);
    var s5 := Ledgers.Step(s4.0, Ledgers.Dial(id), setup);
    NoDialBefore(s, id, conn, remote, setup);
    OnlyDialDials(s1.0, Ledgers.Authorize(id, request, Some(redeemed)), setup);
    OnlyDialDials(s2.0, Ledgers.Resolve(id, target), setup);
    OnlyDialDials(s3.0, Ledgers.Acquire(id), setup);
    var early := s1.1 + s2.1 + s3.1 + s4.1;
    assert Ledgers.Run(x4 + [Ledgers.Dial(id)], setup).1 == log + (early + s5.1);
    assert (log + (early + s5.1))[|log|..] == early + s5.1;
  }

  lemma NoDialBefore(s: Ledgers.State, id: nat, conn: nat, remote: string, setup: Ledgers.Setup)
    ensures Ledgers.Step(s, Ledgers.Arrive(id, conn, remote), setup).1 == []
  {
  }

  lemma OnlyDialDials(s: Ledgers.State, a: Ledgers.Action, setup: Ledgers.Setup)
    requires !a.Dial?
    ensures
      var more := Ledgers.Step(s, a, setup).1;
      forall i :: 0 <= i < |more| ==> !more[i].WasDialed?
  {
    hide Ledgers.TryTake, Ledgers.GivenBack, ConnectionGrant.Decide;
  }

  /** After any life of the relay, a grant that redeem has not returned yet lets a new request in: when it is returned
      for the request, the target is dialed if and only if the relay is public or the connection was admitted and
      the request has no proof and is within its grant or a try among the first eight; and the target is allowed,
      the server open, and neither the limit nor that of eight tunnels for the ticket is reached. */
  lemma {:induction false} GrantIsGoodForADial(env: Env, policy: Policy, setup: Ledgers.Setup, clock: nat, moves: seq<Move>,
                                               id: nat, conn: nat, remote: string, request: ConnectionGrant.Request, g: nat, target: string)
    requires
      var (n, log) := Life(env, policy, setup, clock, moves);
      n.booted <= g < |log| && log[g].Granted? && g !in n.returned && id !in Ledgers.Run(n.steps, n.setup).0.used
    ensures
      var (n, log) := Life(env, policy, setup, clock, moves);
      var n' := Life(env, policy, setup, clock, moves + Forwarded(id, conn, remote, request, g, target)).0;
      var s := Ledgers.Run(n.steps, n.setup).0;
      var account := Ledgers.AccountOf(s, conn, request, Some((env.digest(log[g].message), log[g].deadline)), n.setup.groups);
      var holders := Ledgers.Holders(s.handlers);
      && Tunnels(n) <= Tunnels(n')
      && (Ledgers.WasDialed(id, target) in Tunnels(n')[|Tunnels(n)|..] <==>
            && account.Some? && n.setup.allowed(target) && !s.closed && MapSum(holders, Ledgers.One()) < n.setup.maxSessions
            && MapSum(holders, Ledgers.Is(if account.value == "" then remote else "account:" + account.value)) < 8)
  {
    ForwardedIsRun(env, policy, setup, clock, moves, id, conn, remote, request, g, target);
    var (n, log) := Life(env, policy, setup, clock, moves);
    var redeemed := (env.digest(log[g].message), log[g].deadline);
    hide Life, Ledgers.Run, Ledgers.Step, Forwarded, ForwardedSteps, MapSum, Ledgers.AccountOf, Ledgers.Holders;
    ForwardedEvents(n.steps, n.setup, id, conn, remote, request, redeemed, target);
    Ledgers.DialedIff(n.steps, n.setup, id, conn, remote, request, Some(redeemed), target);
  }
}
