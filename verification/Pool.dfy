/** The connection pool under interleaving: one critical section of one request at a time. */
module Pools {
  import opened Common

  /** What a connection answers at some moment; one we know nothing about counts as closed. */
  datatype Status = Status(closed: bool, free: bool)

  type Statuses = map<nat, Status>

  function StatusOf(now: Statuses, conn: nat): (s: Status) {
    if conn in now then now[conn] else Status(true, false)
  }

  /** Where one request is. `Running` is between two awaits. */
  datatype Phase = Running | Waiting | Opening | Issued(conn: nat) | Failed

  datatype Pool = Pool(
    max: nat, conns: seq<nat>, opening: bool, openWaiters: seq<nat>,
    phases: map<nat, Phase>, nextConn: nat, started: nat, finished: nat)

  function NewPool(max: nat): (p: Pool) {
    Pool(max, [], false, [], map[], 0, 0, 0)
  }

  function Live(conns: seq<nat>, now: Statuses): (r: seq<nat>)
    ensures |r| <= |conns|
  {
    if conns == [] then []
    else (if StatusOf(now, conns[0]).closed then [] else [conns[0]]) + Live(conns[1..], now)
  }

  lemma LiveNone(now: Statuses)
    ensures Live([], now) == []
  {
  }

  lemma LiveStep(conns: seq<nat>, i: nat, now: Statuses)
    requires i < |conns|
    ensures Live(conns[i..], now) == (if StatusOf(now, conns[i]).closed then [] else [conns[i]]) + Live(conns[i + 1..], now)
  {
    assert conns[i..][1..] == conns[i + 1..];
  }

  function FirstFree(conns: seq<nat>, now: Statuses): (r: Option<nat>) {
    if conns == [] then None
    else if StatusOf(now, conns[0]).free then Some(conns[0])
    else FirstFree(conns[1..], now)
  }

  /** The connection to use, if any: one with a free slot, or the first one at the cap. */
  function Choose(p: Pool, now: Statuses): (r: Option<nat>) {
    var free := FirstFree(p.conns, now);
    if free.Some? then free
    else if p.conns != [] && |p.conns| >= p.max then Some(p.conns[0])
    else None
  }

  function SetPhase(p: Pool, t: nat, phase: Phase): (p': Pool) {
    p.(phases := p.phases[t := phase])
  }

  /** Open one connection, or wait for the one being opened. */
  function OpenOne(p: Pool, t: nat): (p': Pool) {
    if p.opening then SetPhase(p, t, Waiting).(openWaiters := p.openWaiters + [t])
    else SetPhase(p, t, Opening).(opening := true, started := p.started + 1)
  }

  /** The top of the request loop, up to the next await. */
  function Enter(p: Pool, t: nat, now: Statuses): (p': Pool) {
    var q := p.(conns := Live(p.conns, now));
    match Choose(q, now)
    case Some(conn) => SetPhase(q, t, Issued(conn))
    case None => OpenOne(q, t)
  }

  /** After an open: a newest connection that is already full takes the request all the same. */
  function Again(p: Pool, t: nat, now: Statuses): (p': Pool) {
    if p.conns != [] && !StatusOf(now, p.conns[|p.conns| - 1]).closed && !StatusOf(now, p.conns[|p.conns| - 1]).free
    then SetPhase(p, t, Issued(p.conns[|p.conns| - 1]))
    else Enter(p, t, now)
  }

  /** The factory call ends: everyone waiting wakes, whether it worked or not. */
  function Settle(p: Pool, opener: nat): (p': Pool) {
    p.(opening := false, finished := p.finished + 1, openWaiters := [],
       phases := map t | t in p.phases :: if t == opener || t in p.openWaiters then Running else p.phases[t])
  }

  function Landed(p: Pool, t: nat, ok: bool, now: Statuses): (p': Pool) {
    if ok then Again(Settle(p, t).(conns := p.conns + [p.nextConn], nextConn := p.nextConn + 1), t, now)
    else SetPhase(Settle(p, t), t, Failed)
  }

  datatype Step =
    | Arrive(request: nat, now: Statuses)
    | Land(request: nat, ok: bool, now: Statuses)
    | Wake(request: nat, now: Statuses)
    | CloseAll

  predicate Enabled(p: Pool, s: Step) {
    match s
    case Arrive(t, _) => t !in p.phases
    case Land(t, _, _) => t in p.phases && p.phases[t].Opening?
    case Wake(t, _) => t in p.phases && p.phases[t].Running?
    case CloseAll => true
  }

  function Perform(p: Pool, s: Step): (p': Pool)
    requires Enabled(p, s)
  {
    match s
    case Arrive(t, now) => Enter(p, t, now)
    case Land(t, ok, now) => Landed(p, t, ok, now)
    case Wake(t, now) => Again(p, t, now)
    case CloseAll => p.(conns := [])
  }

  function RunFrom(p: Pool, steps: seq<Step>): (p': Pool)
    decreases |steps|
  {
    if steps == [] then p
    else
      var q, s := RunFrom(p, steps[..|steps| - 1]), steps[|steps| - 1];
      if Enabled(q, s) then Perform(q, s) else q
  }

  // --- the invariant ---

  function Cap(p: Pool): (n: nat) {
    if p.max > 1 then p.max else 1
  }

  /** Connections are numbered in the order they were opened, and held in that order. */
  predicate InOrder(conns: seq<nat>) {
    forall i, j :: 0 <= i < j < |conns| ==> conns[i] < conns[j]
  }

  ghost predicate Inv(p: Pool) {
    && InOrder(p.conns)
    && |p.conns| <= Cap(p) && (p.opening ==> |p.conns| < Cap(p))
    && p.started == p.finished + (if p.opening then 1 else 0)
    && (forall t, u :: t in p.phases && u in p.phases && p.phases[t].Opening? && p.phases[u].Opening? ==> t == u)
    && (p.opening <==> exists t :: t in p.phases && p.phases[t].Opening?)
    && (forall t :: t in p.phases ==> (p.phases[t].Waiting? <==> t in p.openWaiters))
    && (forall t :: t in p.openWaiters ==> t in p.phases)
    && (p.openWaiters != [] ==> p.opening)
    && (forall i :: 0 <= i < |p.conns| ==> p.conns[i] < p.nextConn)
    && (forall t :: t in p.phases && p.phases[t].Issued? ==> p.phases[t].conn < p.nextConn)
  }

  lemma {:induction false} LiveOnes(conns: seq<nat>, now: Statuses)
    ensures forall c :: c in Live(conns, now) <==> c in conns && !StatusOf(now, c).closed
    ensures InOrder(conns) ==> InOrder(Live(conns, now))
  {
    if conns != [] {
      LiveOnes(conns[1..], now);
      var rest := Live(conns[1..], now);
      if InOrder(conns) {
        forall i | 0 <= i < |rest|
          ensures conns[0] < rest[i]
        {
          assert rest[i] in rest;
        }
      }
    }
  }

  lemma {:induction false} FreeOne(conns: seq<nat>, now: Statuses)
    ensures var r := FirstFree(conns, now);
            if r.Some?
            then r.value in conns && StatusOf(now, r.value).free
                 && (InOrder(conns) ==> forall c :: c in conns && StatusOf(now, c).free ==> r.value <= c)
            else forall c :: c in conns ==> !StatusOf(now, c).free
  {
    if conns != [] {
      FreeOne(conns[1..], now);
      Ascending(conns);
    }
  }

  lemma Ascending(conns: seq<nat>)
    requires conns != []
    ensures InOrder(conns) ==> forall c :: c in conns ==> conns[0] <= c
  {
  }

  /** A request that goes on: not known yet, or between two awaits. */
  ghost predicate Moving(p: Pool, t: nat) {
    t in p.phases ==> p.phases[t].Running?
  }

  lemma OpenOneKeeps(p: Pool, t: nat)
    requires Inv(p) && Moving(p, t) && |p.conns| < Cap(p)
    ensures Inv(OpenOne(p, t))
  {
    var p' := OpenOne(p, t);
    if p.opening {
      var u :| u in p.phases && p.phases[u].Opening?;
      assert u in p'.phases && p'.phases[u].Opening?;
    } else {
      assert t in p'.phases && p'.phases[t].Opening?;
    }
  }

  lemma IssueKeeps(p: Pool, t: nat, conn: nat)
    requires Inv(p) && Moving(p, t) && conn < p.nextConn
    ensures Inv(SetPhase(p, t, Issued(conn)))
  {
    SetPhaseKeeps(p, t, Issued(conn));
  }

  lemma SetPhaseKeeps(p: Pool, t: nat, phase: Phase)
    requires Inv(p) && Moving(p, t) && (phase.Failed? || (phase.Issued? && phase.conn < p.nextConn))
    ensures Inv(SetPhase(p, t, phase))
  {
    var p' := SetPhase(p, t, phase);
    if p.opening {
      var u :| u in p.phases && p.phases[u].Opening?;
      assert u in p'.phases && p'.phases[u].Opening?;
    }
  }

  lemma EnterKeeps(p: Pool, t: nat, now: Statuses)
    requires Inv(p) && Moving(p, t)
    ensures Inv(Enter(p, t, now))
  {
    var q := p.(conns := Live(p.conns, now));
    LiveOnes(p.conns, now);
    assert Inv(q) by {
      forall i | 0 <= i < |q.conns|
        ensures q.conns[i] < q.nextConn
      {
        assert q.conns[i] in q.conns;
      }
    }
    FreeOne(q.conns, now);
    match Choose(q, now)
    case Some(conn) =>
      assert conn in q.conns;
      IssueKeeps(q, t, conn);
    case None => OpenOneKeeps(q, t);
  }

  lemma AgainKeeps(p: Pool, t: nat, now: Statuses)
    requires Inv(p) && Moving(p, t)
    ensures Inv(Again(p, t, now))
  {
    hide Enter;
    EnterKeeps(p, t, now);
    if p.conns != [] {
      IssueKeeps(p, t, p.conns[|p.conns| - 1]);
    }
  }

  /** The opener is gone from the phases that count, so nobody opens any more. */
  lemma SettleKeeps(p: Pool, t: nat)
    requires Inv(p) && t in p.phases && p.phases[t].Opening?
    ensures var q := Settle(p, t);
            Inv(q) && Moving(q, t) && |q.conns| < Cap(q) && q.conns == p.conns
            && Inv(q.(conns := p.conns + [p.nextConn], nextConn := p.nextConn + 1))
  {
    var q := Settle(p, t);
    forall u | u in q.phases
      ensures !q.phases[u].Opening? && !q.phases[u].Waiting?
    {
      assert u == t || p.phases[u].Opening? ==> u == t;
    }
  }

  lemma LandKeeps(p: Pool, t: nat, ok: bool, now: Statuses)
    requires Inv(p) && t in p.phases && p.phases[t].Opening?
    ensures Inv(Landed(p, t, ok, now))
  {
    hide Inv, Again;
    SettleKeeps(p, t);
    var q := Settle(p, t);
    if ok {
      AgainKeeps(q.(conns := p.conns + [p.nextConn], nextConn := p.nextConn + 1), t, now);
    } else {
      SetPhaseKeeps(q, t, Failed);
    }
  }

  lemma StepKeeps(p: Pool, s: Step)
    requires Inv(p) && Enabled(p, s)
    ensures Inv(Perform(p, s))
  {
    hide Enter, Again, Landed;
    match s
    case Arrive(t, now) => EnterKeeps(p, t, now);
    case Land(t, ok, now) => LandKeeps(p, t, ok, now);
    case Wake(t, now) => AgainKeeps(p, t, now);
    case CloseAll =>
  }

  lemma {:induction false} RunKeeps(p: Pool, steps: seq<Step>)
    requires Inv(p)
    ensures Inv(RunFrom(p, steps)) && RunFrom(p, steps).max == p.max
    decreases |steps|
  {
    hide Inv, Perform, Enabled;
    if steps != [] {
      var q, s := RunFrom(p, steps[..|steps| - 1]), steps[|steps| - 1];
      RunKeeps(p, steps[..|steps| - 1]);
      if Enabled(q, s) {
        StepKeeps(q, s);
        SameMax(q, s);
      }
    }
  }

  lemma SameMax(p: Pool, s: Step)
    requires Enabled(p, s)
    ensures Perform(p, s).max == p.max
  {
  }

  /**
   * In every run, for any requests and whatever the connections answer: at most one factory call
   * is in flight, made by one request; the pool never holds more than max(1, max) connections,
   * the one being opened included; and a request waits only while a connection is being opened.
   */
  lemma PoolCap(max: nat, steps: seq<Step>)
    ensures var p := RunFrom(NewPool(max), steps);
            && p.started - p.finished == (if p.opening then 1 else 0)
            && |p.conns| + (if p.opening then 1 else 0) <= Cap(p) && p.max == max
            && (forall t, u :: t in p.phases && u in p.phases && p.phases[t].Opening? && p.phases[u].Opening? ==> t == u)
            && (forall t :: t in p.phases && p.phases[t].Waiting? ==> p.opening)
  {
    hide RunFrom;
    RunKeeps(NewPool(max), steps);
  }

  /**
   * Where the top of the loop sends a request, given the connections held there: to the oldest
   * live one with a free slot; if none has one, to the oldest live one at the cap, and below it
   * to a new connection, opened or waited for. The closed ones are let go.
   */
  ghost predicate Routed(held: seq<nat>, opening: bool, max: nat, now: Statuses, kept: seq<nat>, phase: Phase) {
    && InOrder(kept) && (forall c :: c in kept <==> c in held && !StatusOf(now, c).closed)
    && var full := forall c :: c in kept ==> !StatusOf(now, c).free;
    match phase
    case Issued(conn) =>
      && conn in kept
      && (if StatusOf(now, conn).free then forall c :: c in kept && StatusOf(now, c).free ==> conn <= c
          else full && |kept| >= max && forall c :: c in kept ==> conn <= c)
    case Opening => full && !opening && (kept == [] || |kept| < max)
    case Waiting => full && opening && (kept == [] || |kept| < max)
    case _ => false
  }

  lemma EnterRoutes(p: Pool, t: nat, now: Statuses)
    requires Inv(p)
    ensures var p' := Enter(p, t, now);
            && t in p'.phases && Routed(p.conns, p.opening, p.max, now, p'.conns, p'.phases[t])
            && forall u :: u in p.phases && u != t ==> u in p'.phases && p'.phases[u] == p.phases[u]
  {
    var kept := Live(p.conns, now);
    LiveOnes(p.conns, now);
    FreeOne(kept, now);
    if kept != [] {
      Ascending(kept);
    }
  }

  /**
   * Every step of every run in which a request looks for a connection: one that comes back from
   * an open takes the newest connection if that is live but full, whatever the others are;
   * otherwise, and on arrival always, it is routed as above. An open that failed fails its
   * opener, and every open wakes all who waited for it; nobody else is touched.
   */
  lemma RequestsRouted(max: nat, steps: seq<Step>, s: Step)
    requires Enabled(RunFrom(NewPool(max), steps), s) && !s.CloseAll?
    ensures var p := RunFrom(NewPool(max), steps); var p', landed := Perform(p, s), s.Land? && s.ok;
            var held, opening := if landed then p.conns + [p.nextConn] else p.conns, if s.Land? then false else p.opening;
            && s.request in p'.phases
            && (if s.Land? && !s.ok then p'.phases[s.request] == Failed && p'.conns == p.conns && !p'.opening
                else if !s.Arrive? && held != [] && !StatusOf(s.now, held[|held| - 1]).closed && !StatusOf(s.now, held[|held| - 1]).free
                then p'.phases[s.request] == Issued(held[|held| - 1]) && p'.conns == held
                else Routed(held, opening, max, s.now, p'.conns, p'.phases[s.request]))
            && forall u :: u in p.phases && u != s.request ==>
                 u in p'.phases && p'.phases[u] == if s.Land? && p.phases[u].Waiting? then Running else p.phases[u]
  {
    hide RunFrom, Enter, Routed;
    RunKeeps(NewPool(max), steps);
    var p := RunFrom(NewPool(max), steps);
    var t := s.request;
    if s.Land? {
      SettleKeeps(p, t);
      var q := Settle(p, t).(conns := p.conns + [p.nextConn], nextConn := p.nextConn + 1);
      EnterRoutes(q, t, s.now);
    } else {
      EnterRoutes(p, t, s.now);
    }
  }

  lemma StaysIssued(p: Pool, s: Step, t: nat)
    requires Inv(p) && Enabled(p, s) && t in p.phases && (p.phases[t].Issued? || p.phases[t].Failed?)
    ensures t in Perform(p, s).phases && Perform(p, s).phases[t] == p.phases[t]
  {
    hide Choose, Live;
  }

  /** A request that was given a connection, or failed, is never given another: it is issued at most once. */
  lemma {:induction false} IssuedOnce(p: Pool, steps: seq<Step>, t: nat)
    requires Inv(p) && t in p.phases && (p.phases[t].Issued? || p.phases[t].Failed?)
    ensures t in RunFrom(p, steps).phases && RunFrom(p, steps).phases[t] == p.phases[t]
    decreases |steps|
  {
    hide Inv, Perform, Enabled;
    if steps != [] {
      var q, s := RunFrom(p, steps[..|steps| - 1]), steps[|steps| - 1];
      IssuedOnce(p, steps[..|steps| - 1], t);
      RunKeeps(p, steps[..|steps| - 1]);
      if Enabled(q, s) {
        StaysIssued(q, s, t);
      }
    }
  }

  // --- the pool as the source keeps it ---

  method Retained(conns: seq<nat>, now: Statuses) returns (kept: seq<nat>)
    ensures kept == Live(conns, now)
  {
    hide Live, StatusOf;
    kept := [];
    assert conns[0..] == conns;
    for i := 0 to |conns|
      invariant kept + Live(conns[i..], now) == Live(conns, now)
    {
      LiveStep(conns, i, now);
      if !StatusOf(now, conns[i]).closed {
        kept := kept + [conns[i]];
      }
    }
    LiveNone(now);
    assert conns[|conns|..] == [] && kept + [] == kept;
  }

  class PoolState {
    const max: nat
    var conns: seq<nat>
    var opening: bool
    var openWaiters: seq<nat>
    var phases: map<nat, Phase>
    var nextConn: nat
    ghost var started: nat
    ghost var finished: nat

    ghost function View(): (p: Pool)
      reads this
    {
      Pool(max, conns, opening, openWaiters, phases, nextConn, started, finished)
    }

    constructor (max: nat)
      ensures View() == NewPool(max)
    {
      this.max := max;
      conns, opening, openWaiters, phases, nextConn, started, finished := [], false, [], map[], 0, 0, 0;
    }

    method RetainLive(now: Statuses)
      modifies this`conns
      ensures View() == old(View()).(conns := Live(old(conns), now))
    {
      conns := Retained(conns, now);
    }

    method FindFree(now: Statuses) returns (r: Option<nat>)
      ensures r == FirstFree(conns, now)
    {
      assert conns[0..] == conns;
      for i := 0 to |conns|
        invariant FirstFree(conns[i..], now) == FirstFree(conns, now)
      {
        assert conns[i..][1..] == conns[i + 1..];
        if StatusOf(now, conns[i]).free {
          return Some(conns[i]);
        }
      }
      return None;
    }

    method BeginOpen(t: nat)
      modifies this
      ensures View() == OpenOne(old(View()), t)
    {
      if opening {
        openWaiters := openWaiters + [t];
        phases := phases[t := Waiting];
      } else {
        opening := true;
        started := started + 1;
        phases := phases[t := Opening];
      }
    }

    method Request(t: nat, now: Statuses)
      modifies this
      ensures View() == Enter(old(View()), t, now)
    {
      RetainLive(now);
      var chosen := FindFree(now);
      if chosen.None? && conns != [] && |conns| >= max {
        chosen := Some(conns[0]); // at the cap: park on an existing connection
      }
      if chosen.Some? {
        phases := phases[t := Issued(chosen.value)];
      } else {
        BeginOpen(t);
      }
    }

    method AfterOpen(t: nat, now: Statuses)
      modifies this
      ensures View() == Again(old(View()), t, now)
    {
      if conns != [] {
        var last := conns[|conns| - 1];
        if !StatusOf(now, last).closed && !StatusOf(now, last).free {
          phases := phases[t := Issued(last)];
          return;
        }
      }
      Request(t, now);
    }

    method Land(t: nat, ok: bool, now: Statuses)
      requires t in phases && phases[t].Opening?
      modifies this
      ensures View() == Landed(old(View()), t, ok, now)
    {
      hide Again;
      opening := false;
      finished := finished + 1;
      phases := Woken(phases, t, openWaiters);
      openWaiters := [];
      assert View() == Settle(old(View()), t);
      if !ok {
        phases := phases[t := Failed];
        return;
      }
      conns, nextConn := conns + [nextConn], nextConn + 1;
      assert View() == Settle(old(View()), t).(conns := old(conns) + [old(nextConn)], nextConn := old(nextConn) + 1);
      AfterOpen(t, now);
    }
  }

  /** The opener goes on, and everyone who waited for it. */
  method Woken(phases: map<nat, Phase>, opener: nat, waiters: seq<nat>) returns (r: map<nat, Phase>)
    requires opener in phases
    ensures r == map t | t in phases :: if t == opener || t in waiters then Running else phases[t]
  {
    r := phases[opener := Running];
    for i := 0 to |waiters|
      invariant r.Keys == phases.Keys
      invariant forall t :: t in phases ==> r[t] == if t == opener || t in waiters[..i] then Running else phases[t]
    {
      assert waiters[..i + 1] == waiters[..i] + [waiters[i]];
      if waiters[i] in r {
        r := r[waiters[i] := Running];
      }
    }
    assert waiters[..|waiters|] == waiters;
  }
}
