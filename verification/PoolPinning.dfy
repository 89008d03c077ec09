/** Pinning each pooled connection's session to the request's organization (internal/db/db.go).
    A connection is acquired by one request at a time; the steps of different connections interleave freely. */
module PoolPinning {
  import opened Prelude
  import opened TenantCtx

  type Conn = int

  datatype Role = LoginRole | TenantRole

  /** The two session settings the net depends on. */
  datatype Session = Session(role: Role, orgId: string)

  /** Where a connection is: idle in the pool, inside BeforeAcquire (before the switch, or switched but not yet
      remembered), serving a request, or refused and about to be closed. */
  datatype Phase = Idle | Switching(ctx: Context) | Switched(ctx: Context) | Serving(ctx: Context) | Refused

  datatype Connection = Connection(session: Session, phase: Phase)

  datatype State = State(conns: map<Conn, Connection>, last: map<Conn, string>)

  // ---- what the source computes -------------------------------------------

  function Want(ctx: Context): string {
    match OrgFrom(ctx) case Some(org) => FormatInt(org) case None => ""
  }

  /** The effect of the session statement sent for a wanted setting. */
  function Target(want: string): Session {
    if want == "" then Session(LoginRole, "") else Session(TenantRole, want)
  }

  datatype Action =
    | Dial(conn: Conn)
    | Acquire(conn: Conn, ctx: Context)
    | SwitchOk(conn: Conn)
    | SwitchFailed(conn: Conn, left: Session)
    | Remember(conn: Conn)
    | Release(conn: Conn)
    | Close(conn: Conn)

  function SetPhase(s: State, c: Conn, session: Session, phase: Phase): State {
    s.(conns := s.conns[c := Connection(session, phase)])
  }

  function Step(s: State, a: Action): State {
    var c := a.conn;
    if a.Dial? then
      if c in s.conns then s else SetPhase(s, c, Session(LoginRole, ""), Idle)
    else if c !in s.conns then s
    else
      var conn := s.conns[c];
      match a
      case Acquire(_, ctx) =>
        if conn.phase != Idle then s
        else if c in s.last && s.last[c] == Want(ctx) then SetPhase(s, c, conn.session, Serving(ctx))
        else SetPhase(s, c, conn.session, Switching(ctx))
      case SwitchOk(_) =>
        if conn.phase.Switching? then SetPhase(s, c, Target(Want(conn.phase.ctx)), Switched(conn.phase.ctx)) else s
      case SwitchFailed(_, left) =>
        if conn.phase.Switching? then SetPhase(s, c, left, Refused) else s
      case Remember(_) =>
        if conn.phase.Switched? then
          SetPhase(s, c, conn.session, Serving(conn.phase.ctx)).(last := s.last[c := Want(conn.phase.ctx)])
        else s
      case Release(_) =>
        if conn.phase.Serving? then SetPhase(s, c, conn.session, Idle) else s
      case Close(_) =>
        if conn.phase.Idle? || conn.phase.Refused? then State(s.conns - {c}, s.last - {c}) else s
  }

  function Run(actions: seq<Action>): State {
    if actions == [] then State(map[], map[]) else Step(Run(actions[..|actions| - 1]), actions[|actions| - 1])
  }

  // ---- the pool hooks -----------------------------------------------------

  class TenantPinner {
    var conns: map<Conn, Connection>
    var last: map<Conn, string>

    function View(): State
      reads this
    {
      State(conns, last)
    }

    constructor ()
      ensures View() == State(map[], map[])
    {
      conns, last := map[], map[];
    }

    /** BeforeAcquire, run without interference on its own connection: lookup, at most one round trip, remember.
        `fails` says whether the round trip fails, and `left` what it then leaves of the session. */
    method BeforeAcquire(c: Conn, ctx: Context, fails: bool, left: Session) returns (ok: bool, roundTrip: bool)
      requires c in conns && conns[c].phase == Idle
      modifies this
      ensures roundTrip <==> !(c in old(last) && old(last)[c] == Want(ctx))
      ensures ok <==> !(roundTrip && fails)
      ensures View() ==
              if !roundTrip then Step(old(View()), Acquire(c, ctx))
              else if fails then Step(Step(old(View()), Acquire(c, ctx)), SwitchFailed(c, left))
              else Step(Step(Step(old(View()), Acquire(c, ctx)), SwitchOk(c)), Remember(c))
    {
      var want := "";
      var org := OrgFrom(ctx);
      if org.Some? { want := FormatInt(org.value); }
      if c in last && last[c] == want {
        conns := conns[c := conns[c].(phase := Serving(ctx))];
        return true, false;
      }
      if fails {
        conns := conns[c := Connection(left, Refused)];
        return false, true;
      }
      var session := if want != "" then Session(TenantRole, want) else Session(LoginRole, "");
      conns := conns[c := Connection(session, Serving(ctx))];
      last := last[c := want];
      return true, true;
    }

    method BeforeClose(c: Conn)
      requires c in conns && (conns[c].phase.Idle? || conns[c].phase.Refused?)
      modifies this
      ensures View() == Step(old(View()), Close(c))
    {
      last := last - {c};
      conns := conns - {c};
    }
  }

  // ---- the invariant ------------------------------------------------------

  /** What is remembered of a connection is the session it has, unless a switch just replaced it or it is refused. */
  ghost predicate Pinned(s: State, c: Conn)
    requires c in s.conns
  {
    var conn := s.conns[c];
    match conn.phase
    case Idle => c in s.last ==> conn.session == Target(s.last[c])
    case Switching(_) => c in s.last ==> conn.session == Target(s.last[c])
    case Switched(ctx) => conn.session == Target(Want(ctx))
    case Serving(ctx) => conn.session == Target(Want(ctx)) && c in s.last && s.last[c] == Want(ctx)
    case Refused => true
  }

  ghost predicate Inv(s: State) { s.last.Keys <= s.conns.Keys && forall c | c in s.conns :: Pinned(s, c) }

  lemma {:induction false} StepKeepsInv(s: State, a: Action)
    requires Inv(s)
    ensures Inv(Step(s, a))
  {
    var t := Step(s, a);
    forall c | c in t.conns ensures Pinned(t, c) {
      if c in s.conns { assert Pinned(s, c); }
    }
  }

  lemma {:induction false} RunKeepsInv(actions: seq<Action>)
    ensures Inv(Run(actions))
  {
    if actions != [] {
      RunKeepsInv(actions[..|actions| - 1]);
      StepKeepsInv(Run(actions[..|actions| - 1]), actions[|actions| - 1]);
    }
  }

  /** In every interleaving of dials, acquires, successful and failed switches, releases and closes, a connection
      serving a request runs with the tenant role and that request's organization, or with neither when the
      context carries none. */
  lemma {:induction false} ServedAsRequested(actions: seq<Action>, c: Conn)
    requires c in Run(actions).conns && Run(actions).conns[c].phase.Serving?
    ensures var conn := Run(actions).conns[c];
            match OrgFrom(conn.phase.ctx)
            case Some(org) => conn.session == Session(TenantRole, FormatInt(org))
            case None => conn.session == Session(LoginRole, "")
  {
    RunKeepsInv(actions);
    assert Pinned(Run(actions), c);
  }

  /** Skipping the round trip is sound: whenever the remembered setting is the wanted one, the idle session
      already is what the statement would make it. */
  lemma {:induction false} SkipIsSound(actions: seq<Action>, c: Conn, ctx: Context)
    requires c in Run(actions).conns && Run(actions).conns[c].phase == Idle
    requires c in Run(actions).last && Run(actions).last[c] == Want(ctx)
    ensures Run(actions).conns[c].session == Target(Want(ctx))
  {
    RunKeepsInv(actions);
    assert Pinned(Run(actions), c);
  }

  /** Two requests share a session setting only if they act for the same organization. */
  lemma {:induction false} SettingNamesOrg(a: Context, b: Context)
    ensures Want(a) == Want(b) <==> OrgFrom(a) == OrgFrom(b)
  {
    if Want(a) == Want(b) && OrgFrom(a).Some? && OrgFrom(b).Some? {
      FormatIntInjective(OrgFrom(a).value, OrgFrom(b).value);
    }
  }

  lemma {:induction false} RefusedStep(s: State, a: Action, c: Conn)
    ensures c in s.conns && s.conns[c].phase == Refused ==>
              if c in Step(s, a).conns then Step(s, a).conns[c] == s.conns[c] else a == Close(c)
    ensures c !in s.conns && c in Step(s, a).conns ==> a == Dial(c)
  {
  }

  /** A refused connection never serves again: in every continuation in which the pool does not dial the same number
      anew after closing it, the connection is as it was refused, or closed. */
  lemma {:induction false} RefusedStaysRefused(actions: seq<Action>, more: seq<Action>, c: Conn)
    requires c in Run(actions).conns && Run(actions).conns[c].phase == Refused
    requires forall i, j | 0 <= i < j < |more| && more[i] == Close(c) :: more[j] != Dial(c)
    ensures var t := Run(actions + more);
            if c in t.conns then t.conns[c] == Run(actions).conns[c] else Close(c) in more
  {
    if more == [] {
      assert actions + more == actions;
    } else {
      var n := |more| - 1;
      assert (actions + more)[..|actions| + n] == actions + more[..n];
      RefusedStaysRefused(actions, more[..n], c);
      RefusedStep(Run(actions + more[..n]), more[n], c);
      hide Step;
      assert more == more[..n] + [more[n]];
      if c !in Run(actions + more[..n]).conns {
        var i :| 0 <= i < n && more[..n][i] == Close(c);
        assert more[i] == Close(c);
      }
    }
  }
}
