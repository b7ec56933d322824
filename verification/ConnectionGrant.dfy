/**
 The authorization of one connection: a grant with a deadline, renewed by tickets, enforced by timers
 that carry the generation they were armed for. Renewals and timers run concurrently.
 */
module ConnectionGrant {
  import opened Clock
  import opened Options

  const FIRST_GRANT := 15 * SECOND
  const MAX_ATTEMPTS := 8

  // --------------------------------------------------------------- authorize

  datatype Grant = Grant(until: int, address: string, attempts: nat, generation: nat)

  /** The headers authorize looks at. */
  datatype Request = Request(proof: bool, renew: bool, ticket: bool)

  datatype Entry = Public | Unavailable | ProofForbidden | StillGranted | TicketRequired | RateLimited | Redeem

  /** What authorize decides before redeeming, in the order it looks. */
  function Enter(g: Grant, now: nat, r: Request): Entry
  {
    if r.proof then ProofForbidden
    else if now < g.until && !r.renew then StillGranted
    else if !r.ticket then TicketRequired
    else if g.attempts + 1 > MAX_ATTEMPTS then RateLimited
    else Redeem
  }

  /** authorize as a whole: a public relay asks for nothing, a restricted one needs a connection it has
      admitted and a ticket authority. */
  function Decide(groups: bool, authority: bool, held: Option<Grant>, now: nat, r: Request): Entry
  {
    if !groups then Public
    else if held.None? || !authority then Unavailable
    else Enter(held.value, now, r)
  }

  /** A request that gets as far as its ticket is counted, even if it is one too many. */
  function Counted(g: Grant, e: Entry): Grant
  {
    if e.RateLimited? || e.Redeem? then g.(attempts := g.attempts + 1) else g
  }

  function Renewed(g: Grant, id: string, until: int): Grant
  {
    Grant(until, "ticket:" + id, 0, g.generation + 1)
  }

  // ------------------------------------------------------------ the state machine

  /** A timer: armed; its callback has started; its check has passed and the close is to follow; or it
      can do nothing any more. */
  datatype Timer = Armed(deadline: int) | Fired(deadline: int) | Closing(deadline: int) | Idle

  /** Where the holder of the connection's lock stands in authorize. */
  datatype Holder = Free | Redeeming | Won(id: string, until: int) | Rearming(until: int)

  datatype State = State(
    clock: nat,
    open: bool,
    grant: Grant,
    deadline: int,
    timers: map<nat, Timer>,
    holder: Holder,
    calls: nat)

  /** An accepted connection in groups mode. */
  function Accepted(clock: nat): State
  {
    State(clock, true, Grant(0, "", 0, 1), clock + FIRST_GRANT, map[1 := Armed(clock + FIRST_GRANT)], Free, 0)
  }

  datatype Action =
    | Tick(ns: nat)
    | Authorize(request: Request)
    | RedeemFails
    | RedeemWins(id: string, until: int)
    | Renew
    | Rearm
    | Fire(g: nat)
    | Check(g: nat)
    | CloseBy(g: nat)
    | PeerCloses
    | StopTimer

  function Set(s: State, g: nat, t: Timer): State { s.(timers := s.timers[g := t]) }

  function Step(s: State, a: Action): State
  {
    match a
    case Tick(ns) => s.(clock := s.clock + ns)
    case Authorize(r) =>
      if s.holder.Free? then
        var e := Enter(s.grant, s.clock, r);
        var s1 := s.(grant := Counted(s.grant, e));
        if e.Redeem? then s1.(holder := Redeeming, calls := s.calls + 1) else s1
      else s
    case RedeemFails => if s.holder.Redeeming? then s.(holder := Free) else s
    case RedeemWins(id, until) => if s.holder.Redeeming? then s.(holder := Won(id, until)) else s
    // The deadline and the generation change; from here on old timers fail their check.
    case Renew =>
      if s.holder.Won? then
        s.(grant := Renewed(s.grant, s.holder.id, s.holder.until), deadline := s.holder.until, calls := 0, holder := Rearming(s.holder.until))
      else s
    // The old timer is stopped if it has not fired yet, and a new one armed for what is left.
    case Rearm =>
      if s.holder.Rearming? then
        var prior := s.grant.generation - 1;
        var stopped := if prior in s.timers && s.timers[prior].Armed? then s.timers[prior := Idle] else s.timers;
        s.(timers := stopped[s.grant.generation := Armed(s.holder.until)], holder := Free)
      else s
    case Fire(g) =>
      if g in s.timers && s.timers[g].Armed? && s.timers[g].deadline <= s.clock then Set(s, g, Fired(s.timers[g].deadline)) else s
    case Check(g) =>
      if g in s.timers && s.timers[g].Fired? then
        Set(s, g, if s.grant.generation == g then Closing(s.timers[g].deadline) else Idle)
      else s
    case CloseBy(g) => if g in s.timers && s.timers[g].Closing? then Set(s.(open := false), g, Idle) else s
    case PeerCloses => s.(open := false)
    case StopTimer =>
      if !s.open && s.holder.Free? && s.grant.generation in s.timers && s.timers[s.grant.generation].Armed?
      then Set(s, s.grant.generation, Idle) else s
  }

  function Run(clock: nat, actions: seq<Action>): State
  {
    if actions == [] then Accepted(clock) else Step(Run(clock, actions[..|actions| - 1]), actions[|actions| - 1])
  }

  // ---------------------------------------------------------------- invariants

  /** Between renewals, an open connection is watched by a timer of the current generation that will
      close it, armed for exactly its deadline. */
  ghost predicate Watched(s: State)
  {
    var g := s.grant.generation;
    g in s.timers && !s.timers[g].Idle? && s.timers[g].deadline == s.deadline
  }

  ghost predicate GrantInv(s: State, accepted: nat)
  {
    && (s.open && !s.holder.Rearming? ==> Watched(s))
    && (s.holder.Rearming? ==> s.grant.generation !in s.timers && s.holder.until == s.deadline)
    && (forall g :: g in s.timers ==> 1 <= g <= s.grant.generation)
    && (forall g :: g in s.timers && (s.timers[g].Fired? || s.timers[g].Closing?) ==> s.timers[g].deadline <= s.clock)
    && s.calls == (if s.grant.attempts <= MAX_ATTEMPTS then s.grant.attempts else MAX_ATTEMPTS)
    && s.grant.generation >= 1
    && s.deadline == (if s.grant.generation == 1 then accepted + FIRST_GRANT else s.grant.until)
  }

  lemma StepKeeps(s: State, a: Action, accepted: nat)
    requires GrantInv(s, accepted)
    ensures GrantInv(Step(s, a), accepted)
  {
  }

  lemma {:induction false} RunKeeps(clock: nat, actions: seq<Action>)
    ensures GrantInv(Run(clock, actions), clock)
  {
    if actions != [] {
      hide Step;
      RunKeeps(clock, actions[..|actions| - 1]);
      StepKeeps(Run(clock, actions[..|actions| - 1]), actions[|actions| - 1], clock);
    }
  }

  // ------------------------------------------------------------- main results

  /** In every reachable state outside the middle of a renewal, an open connection has a timer of the
      current generation set for its exact deadline: 15 seconds after it was accepted before the first
      redemption, the last redeemed ticket's deadline after. And at most 8 tickets have been tried since
      the last that was redeemed. */
  lemma {:induction false} OpenConnectionsAreWatched(clock: nat, actions: seq<Action>)
    ensures
      var s := Run(clock, actions);
      && (s.open && !s.holder.Rearming? ==>
            && s.grant.generation in s.timers && !s.timers[s.grant.generation].Idle?
            && s.timers[s.grant.generation].deadline == if s.grant.generation == 1 then clock + 15_000_000_000 else s.grant.until)
      && s.calls <= 8
  {
    RunKeeps(clock, actions);
  }

  /** In every reachable state outside the middle of a renewal, an open connection whose deadline has come, 15
      seconds after it was accepted or the last redeemed ticket's, is closed when its timer runs. */
  lemma {:induction false} OverdueCloses(clock: nat, actions: seq<Action>)
    requires
      var s := Run(clock, actions);
      s.open && !s.holder.Rearming? && s.clock >= if s.grant.generation == 1 then clock + 15_000_000_000 else s.grant.until
    ensures
      var s := Run(clock, actions);
      var g := s.grant.generation;
      !Step(Step(Step(s, Fire(g)), Check(g)), CloseBy(g)).open
  {
    RunKeeps(clock, actions);
    hide Run;
  }

  /** The timer of a connection that has ended is stopped, unless it has fired. */
  lemma {:induction false} EndedIsQuiet(clock: nat, actions: seq<Action>)
    requires
      var s := Run(clock, actions);
      !s.open && s.holder.Free?
    ensures
      var (s, s') := (Run(clock, actions), Step(Run(clock, actions), StopTimer));
      var g := s.grant.generation;
      && (g in s.timers && s.timers[g].Armed? ==> s' == s.(timers := s.timers[g := Idle]))
      && (g in s.timers ==> g in s'.timers && !s'.timers[g].Armed?)
  {
    RunKeeps(clock, actions);
    hide Run;
  }

  /** A timer that has fired closes the connection exactly if its check runs before the next renewal; a
      timer whose check comes later never does. It never fires before its deadline. */
  lemma {:induction false} TimerClosesIffCurrent(clock: nat, actions: seq<Action>, g: nat)
    requires
      var s := Run(clock, actions);
      g in s.timers && s.timers[g].Fired?
    ensures
      var s := Run(clock, actions);
      var s' := Step(s, Check(g));
      && (s'.timers[g].Closing? <==> s.grant.generation == g)
      && (s.grant.generation != g ==> s'.timers[g] == Idle && s'.open == s.open)
      && s.timers[g].deadline <= s.clock
  {
    RunKeeps(clock, actions);
  }

  ghost predicate Harmless(s: State, g: nat)
  {
    g < s.grant.generation && g in s.timers && !s.timers[g].Closing?
  }

  lemma HarmlessStays(s: State, a: Action, g: nat)
    requires Harmless(s, g)
    ensures Harmless(Step(s, a), g)
  {
  }

  /** Once a renewal has passed a timer whose check has not let it through yet, nothing that happens
      later makes it close the connection; had the check let it through, it would. */
  lemma {:induction false} OvertakenTimerNeverCloses(clock: nat, before: seq<Action>, after: seq<Action>, g: nat)
    requires g < Run(clock, before).grant.generation && g in Run(clock, before).timers
    ensures Run(clock, before).timers[g].Closing? ==> !Step(Run(clock, before), CloseBy(g)).open
    ensures !Run(clock, before).timers[g].Closing? ==>
      var s := Run(clock, before + after);
      Harmless(s, g) && Step(s, CloseBy(g)).open == s.open
  {
    if !Run(clock, before).timers[g].Closing? {
      if after == [] {
        assert before + after == before;
      } else {
        var rest, a := after[..|after| - 1], after[|after| - 1];
        OvertakenTimerNeverCloses(clock, before, rest, g);
        assert before + after == before + rest + [a];
        RunStep(clock, before + rest, a);
        HarmlessStays(Run(clock, before + rest), a, g);
      }
    }
  }

  /** A client that renews before its deadline keeps its connection: the timer of the grant it renews,
      not having fired by then, never closes it, whatever happens later. */
  lemma {:induction false} RenewedInTime(clock: nat, before: seq<Action>, after: seq<Action>)
    requires
      var s := Run(clock, before);
      s.open && s.holder.Won? && s.clock < s.deadline
    ensures
      var g := Run(clock, before).grant.generation;
      var s := Run(clock, before + [Renew] + after);
      g < s.grant.generation && Step(s, CloseBy(g)).open == s.open
  {
    RunKeeps(clock, before);
    RunStep(clock, before, Renew);
    var g := Run(clock, before).grant.generation;
    assert Watched(Run(clock, before));
    OvertakenTimerNeverCloses(clock, before + [Renew], after, g);
  }

  /** Grant, deadline and timers as they were, but for the count of attempts and what timers do by
      themselves: none is added, and none gets another deadline. */
  ghost predicate Unrenewed(s: State, s': State)
  {
    && s'.grant.(attempts := 0) == s.grant.(attempts := 0) && s'.deadline == s.deadline
    && s'.timers.Keys == s.timers.Keys
    && (forall g :: g in s.timers && !s'.timers[g].Idle? ==> !s.timers[g].Idle? && s'.timers[g].deadline == s.timers[g].deadline)
  }

  predicate InTouch(h: Holder) { h.Free? || h.Redeeming? }

  lemma UnrenewedStep(s: State, s': State, a: Action)
    requires Unrenewed(s, s') && InTouch(s'.holder) && !a.RedeemWins?
    ensures Unrenewed(s, Step(s', a)) && InTouch(Step(s', a).holder)
  {
    assert Step(s', a).timers.Keys == s'.timers.Keys;
  }

  /** Only a redeemed ticket renews. Between any two points of a run without one, whatever requests fail
      and whatever timers do in between, the grant, its deadline and the timers stand as they were. */
  lemma {:induction false} FailedRenewalsChangeNothing(clock: nat, before: seq<Action>, after: seq<Action>)
    requires InTouch(Run(clock, before).holder)
    requires forall i :: 0 <= i < |after| ==> !after[i].RedeemWins?
    ensures Unrenewed(Run(clock, before), Run(clock, before + after)) && InTouch(Run(clock, before + after).holder)
  {
    if after == [] {
      assert before + after == before;
    } else {
      hide Step;
      var rest, a := after[..|after| - 1], after[|after| - 1];
      FailedRenewalsChangeNothing(clock, before, rest);
      assert before + after == before + rest + [a];
      RunStep(clock, before + rest, a);
      UnrenewedStep(Run(clock, before), Run(clock, before + rest), a);
    }
  }

  // ------------------------------------------- a renewal that comes too late

  function Late(until: int): seq<Action>
  {
    [] + [Tick(FIRST_GRANT)] + [Fire(1)] + [Check(1)] + [Authorize(Request(false, false, true))] + [RedeemWins("", until)]
    + [Renew] + [Rearm] + [CloseBy(1)]
  }

  lemma {:induction false} RunStep(clock: nat, before: seq<Action>, a: Action)
    ensures Run(clock, before + [a]) == Step(Run(clock, before), a)
  {
    assert (before + [a])[..|before + [a]| - 1] == before;
  }

  /** The old timer's check and the close it leads to are two steps: a renewal that falls between them
      is granted, and its connection is closed all the same. */
  lemma {:induction false} RenewalBetweenCheckAndClose(until: int)
    requires until > FIRST_GRANT
    ensures
      var s := Run(0, Late(until));
      !s.open && s.clock < s.grant.until && s.grant.generation == 2
  {
    hide Run, Enter;
    var now := FIRST_GRANT;
    assert Enter(Grant(0, "", 0, 1), now, Request(false, false, true)).Redeem? by { LateRequestRedeems(); }
    var a0: seq<Action> := [];
    var a1 := a0 + [Tick(FIRST_GRANT)];
    var a2 := a1 + [Fire(1)];
    var a3 := a2 + [Check(1)];
    var a4 := a3 + [Authorize(Request(false, false, true))];
    var a5 := a4 + [RedeemWins("", until)];
    var a6 := a5 + [Renew];
    var a7 := a6 + [Rearm];
    assert Run(0, a0) == Accepted(0) by { RunNothing(0); }
    RunStep(0, a0, Tick(FIRST_GRANT));
    RunStep(0, a1, Fire(1));
    RunStep(0, a2, Check(1));
    RunStep(0, a3, Authorize(Request(false, false, true)));
    RunStep(0, a4, RedeemWins("", until));
    RunStep(0, a5, Renew);
    RunStep(0, a6, Rearm);
    RunStep(0, a7, CloseBy(1));
  }

  lemma LateRequestRedeems()
    ensures Enter(Grant(0, "", 0, 1), FIRST_GRANT, Request(false, false, true)).Redeem?
  {
  }

  lemma {:induction false} RunNothing(clock: nat)
    ensures Run(clock, []) == Accepted(clock)
  {
  }

  // ------------------------------------------------------------------- the object

  datatype Response = Allowed(account: string, expires: int) | Denied(status: nat)

  function StatusOf(e: Entry): nat
  {
    match e
    case Unavailable => 503
    case TicketRequired => 401
    case RateLimited => 429
    case _ => 403
  }

  /** What an admitted connection of a restricted relay answers, and what becomes of it. A request with a proof is
      refused before anything else is looked at; one within the grant that asks for no renewal is let through;
      any other needs a ticket, is counted, is refused from the ninth try since the last success on, and else
      stands or falls with its redemption. Nothing but a redeemed ticket renews, and only a try is counted. */
  ghost predicate Answers(held: Grant, timer: Option<int>, now: nat, r: Request, redeemed: Option<(string, int)>,
                          held': Grant, timer': Option<int>, response: Response)
  {
    var within := now < held.until && !r.renew;
    && (r.proof ==> response == Denied(403) && held' == held && timer' == timer)
    && (!r.proof && within ==> response == Allowed(held.address, held.until) && held' == held && timer' == timer)
    && (!r.proof && !within && !r.ticket ==> response == Denied(401) && held' == held && timer' == timer)
    && (!r.proof && !within && r.ticket && held.attempts >= 8 ==>
          response == Denied(429) && held' == held.(attempts := held.attempts + 1) && timer' == timer)
    && (!r.proof && !within && r.ticket && held.attempts < 8 && redeemed.None? ==>
          response == Denied(403) && held' == held.(attempts := held.attempts + 1) && timer' == timer)
    && (!r.proof && !within && r.ticket && held.attempts < 8 && redeemed.Some? ==>
          && response == Allowed("ticket:" + redeemed.value.0, redeemed.value.1) && timer' == Some(redeemed.value.1)
          && held' == Grant(redeemed.value.1, "ticket:" + redeemed.value.0, 0, held.generation + 1))
  }

  /** Read by the answer: when each of them is given. */
  lemma AnsweredIff(held: Grant, timer: Option<int>, now: nat, r: Request, redeemed: Option<(string, int)>,
                    held': Grant, timer': Option<int>, response: Response)
    requires Answers(held, timer, now, r, redeemed, held', timer', response)
    ensures
      var tries := !r.proof && !(now < held.until && !r.renew) && r.ticket;
      && (response.Allowed? <==> !r.proof && ((now < held.until && !r.renew) || (tries && held.attempts < 8 && redeemed.Some?)))
      && (response == Denied(401) <==> !r.proof && !(now < held.until && !r.renew) && !r.ticket)
      && (response == Denied(429) <==> tries && held.attempts + 1 > 8)
      && (response == Denied(403) <==> r.proof || (tries && held.attempts < 8 && redeemed.None?))
      && (held'.until != held.until || held'.address != held.address || held'.generation != held.generation || timer' != timer ==>
            tries && redeemed.Some?)
  {
  }

  /** The same of the state machine's step: which requests get as far as redeeming, and that no other changes
      anything but the count of tries. */
  lemma {:induction false} RequestDecides(clock: nat, actions: seq<Action>, r: Request)
    requires Run(clock, actions).holder.Free?
    ensures
      var s := Run(clock, actions);
      var s' := Step(s, Authorize(r));
      var tries := !r.proof && !(s.clock < s.grant.until && !r.renew) && r.ticket;
      && (!tries ==> s' == s)
      && (tries && s.calls == 8 ==> s' == s.(grant := s.grant.(attempts := s.grant.attempts + 1)))
      && (tries && s.calls < 8 ==> s' == s.(grant := s.grant.(attempts := s.grant.attempts + 1), holder := Redeeming, calls := s.calls + 1))
  {
    RunKeeps(clock, actions);
    hide Run;
  }

  /** authorize, start to finish, for a request on a connection that may not have been admitted, with the
      outcome of the redemption it may make. */
  method AuthorizeRequest(groups: bool, authority: bool, a: ConnectionAuthorization?, now: nat, r: Request, redeemed: Option<(string, int)>)
    returns (response: Response)
    modifies a
    ensures
      var e := Decide(groups, authority, if a == null then None else Some(old(a.Held())), now, r);
      && (e.Public? ==> response == Allowed("", 0))
      && (e.Unavailable? ==> response == Denied(503))
      && (e.Public? || e.Unavailable? ==> a != null ==> a.Held() == old(a.Held()) && a.timer == old(a.timer))
      && (!e.Public? && !e.Unavailable? ==> Authorized(old(a.Held()), old(a.timer), e, redeemed, a.Held(), a.timer, response))
    ensures !groups ==> response == Allowed("", 0)
    ensures groups && (a == null || !authority) ==> response == Denied(503)
    ensures !(groups && a != null && authority) ==> a != null ==> a.Held() == old(a.Held()) && a.timer == old(a.timer)
    ensures groups && a != null && authority ==> Answers(old(a.Held()), old(a.timer), now, r, redeemed, a.Held(), a.timer, response)
  {
    if !groups { return Allowed("", 0); }
    if a == null || !authority { return Denied(503); }
    response := a.Authorize(now, r, redeemed);
  }

  /** What a request does to an admitted connection: a redeemed ticket renews it, nothing else does. */
  ghost predicate Authorized(held: Grant, timer: Option<int>, e: Entry, redeemed: Option<(string, int)>, held': Grant, timer': Option<int>, response: Response)
  {
    if e.Redeem? && redeemed.Some? then
      && held' == Renewed(held, redeemed.value.0, redeemed.value.1) && timer' == Some(redeemed.value.1)
      && response == Allowed("ticket:" + redeemed.value.0, redeemed.value.1)
    else
      && held' == Counted(held, e) && timer' == timer
      && response == if e.StillGranted? then Allowed(held.address, held.until) else Denied(StatusOf(e))
  }

  /** The authorization of an admitted connection of a restricted relay. */
  class ConnectionAuthorization {
    var authorizedUntil: int
    var address: string
    var attempts: nat
    var generation: nat
    var timer: Option<int>

    function Held(): Grant
      reads this
    {
      Grant(authorizedUntil, address, attempts, generation)
    }

    constructor (now: nat)
      ensures Held() == Accepted(now).grant && timer == Some(Accepted(now).deadline)
    {
      authorizedUntil, address, attempts, generation := 0, "", 0, 1;
      timer := Some(now + FIRST_GRANT);
    }

    method Authorize(now: nat, r: Request, redeemed: Option<(string, int)>) returns (response: Response)
      modifies this
      ensures Authorized(old(Held()), old(timer), Enter(old(Held()), now, r), redeemed, Held(), timer, response)
      ensures Answers(old(Held()), old(timer), now, r, redeemed, Held(), timer, response)
    {
      if r.proof { return Denied(403); }
      if now < authorizedUntil && !r.renew { return Allowed(address, authorizedUntil); }
      if !r.ticket { return Denied(401); }
      attempts := attempts + 1;
      if attempts > MAX_ATTEMPTS { return Denied(429); }
      if redeemed.None? { return Denied(403); }
      address := "ticket:" + redeemed.value.0;
      authorizedUntil := redeemed.value.1;
      generation := generation + 1;
      attempts := 0;
      timer := Some(redeemed.value.1);
      return Allowed(address, authorizedUntil);
    }
  }
}
