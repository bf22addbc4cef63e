/** Refresh sessions (services/api/routers/auth.py, services/api/routers/auth_password.py):
    rotation, reuse detection and mass revocation, each handler call one step. */
module Sessions {
  /** A row of the session table, keyed by its jti hash. */
  datatype Session = Session(user: string, revoked: bool)

  datatype Table = Table(users: map<string, bool>, sessions: map<string, Session>)

  /** Handler calls; `drawn` is the jti the server draws, `locked` the lockout ladder's
      verdict on a sign-in. A refresh is one whose token already decoded as a refresh
      token. */
  datatype Event =
    | Signup(user: string, drawn: string)
    | Login(user: string, locked: bool, passwordOk: bool, drawn: string)
    | Refresh(jti: string, drawn: string)
    | Logout(jti: string)
    | ResetPassword(user: string)
    | SetActive(user: string, active: bool)

  datatype Outcome = Issued | Invalid | Disabled | Locked | Conflict | Ok

  function Revoke(sessions: map<string, Session>, jti: string): map<string, Session> {
    if jti in sessions then sessions[jti := sessions[jti].(revoked := true)] else sessions
  }

  function RevokeAll(sessions: map<string, Session>, user: string): map<string, Session> {
    map j | j in sessions :: if sessions[j].user == user then sessions[j].(revoked := true) else sessions[j]
  }

  /** One call. The jti column is unique, so drawing a known jti fails the insert
      and rolls the call back. */
  function After(t: Table, e: Event): (Table, Outcome) {
    match e
    case Signup(user, drawn) =>
      if user in t.users || drawn in t.sessions then (t, Conflict)
      else (Table(t.users[user := true], t.sessions[drawn := Session(user, false)]), Issued)
    case Login(user, locked, passwordOk, drawn) =>
      if user !in t.users then (t, Invalid)
      else if !t.users[user] then (t, Disabled)
      else if locked then (t, Locked)
      else if !passwordOk then (t, Invalid)
      else if drawn in t.sessions then (t, Conflict)
      else (t.(sessions := t.sessions[drawn := Session(user, false)]), Issued)
    case Refresh(jti, drawn) =>
      if jti !in t.sessions then (t, Invalid)
      else if t.sessions[jti].revoked then (t.(sessions := RevokeAll(t.sessions, t.sessions[jti].user)), Invalid)
      else if t.sessions[jti].user !in t.users || !t.users[t.sessions[jti].user] then (t, Disabled)
      else if drawn in t.sessions then (t, Conflict)
      else (t.(sessions := Revoke(t.sessions, jti)[drawn := Session(t.sessions[jti].user, false)]), Issued)
    case Logout(jti) => (t.(sessions := Revoke(t.sessions, jti)), Ok)
    case ResetPassword(user) => (t.(sessions := RevokeAll(t.sessions, user)), Ok)
    case SetActive(user, active) => if user in t.users then (t.(users := t.users[user := active]), Ok) else (t, Invalid)
  }

  class SessionStore {
    var users: map<string, bool>
    var sessions: map<string, Session>

    ghost function State(): Table
      reads this
    {
      Table(users, sessions)
    }

    constructor ()
      ensures State() == Table(map[], map[])
    {
      users, sessions := map[], map[];
    }

    method Signup(user: string, drawn: string) returns (o: Outcome)
      modifies this
      ensures (State(), o) == After(old(State()), Event.Signup(user, drawn))
    {
      if user in users || drawn in sessions {
        return Conflict;
      }
      users := users[user := true];
      sessions := sessions[drawn := Session(user, false)];
      o := Issued;
    }

    method Login(user: string, locked: bool, passwordOk: bool, drawn: string) returns (o: Outcome)
      modifies this
      ensures (State(), o) == After(old(State()), Event.Login(user, locked, passwordOk, drawn))
    {
      if user !in users {
        return Invalid;
      }
      if !users[user] {
        return Disabled;
      }
      if locked {
        return Locked;
      }
      if !passwordOk {
        return Invalid;
      }
      if drawn in sessions {
        return Conflict;
      }
      sessions := sessions[drawn := Session(user, false)];
      o := Issued;
    }

    /** `refresh`: a revoked jti is a sign of theft and ends every session of its user. */
    method Refresh(jti: string, drawn: string) returns (o: Outcome)
      modifies this
      ensures (State(), o) == After(old(State()), Event.Refresh(jti, drawn))
    {
      if jti !in sessions {
        return Invalid;
      }
      var session := sessions[jti];
      if session.revoked {
        sessions := RevokeAll(sessions, session.user);
        return Invalid;
      }
      if session.user !in users || !users[session.user] {
        return Disabled;
      }
      if drawn in sessions {
        return Conflict;
      }
      sessions := sessions[jti := session.(revoked := true)];
      sessions := sessions[drawn := Session(session.user, false)];
      o := Issued;
    }

    method Logout(jti: string)
      modifies this
      ensures State() == After(old(State()), Event.Logout(jti)).0
    {
      if jti in sessions {
        sessions := sessions[jti := sessions[jti].(revoked := true)];
      }
    }

    /** `reset_confirm`'s effect on sessions. */
    method ResetPassword(user: string)
      modifies this
      ensures State() == After(old(State()), Event.ResetPassword(user)).0
    {
      sessions := RevokeAll(sessions, user);
    }
  }

  // ---- over any run ---------------------------------------------------------------------------

  const EMPTY := Table(map[], map[])

  function Run(events: seq<Event>): Table {
    if events == [] then EMPTY else After(Run(events[..|events| - 1]), events[|events| - 1]).0
  }

  function LastOutcome(events: seq<Event>): Outcome
    requires events != []
  {
    After(Run(events[..|events| - 1]), events[|events| - 1]).1
  }

  /** Sessions are never deleted, never change owner and never come back to life. */
  ghost predicate Ages(s: map<string, Session>, s': map<string, Session>) {
    forall j :: j in s ==> j in s' && s'[j].user == s[j].user && (s[j].revoked ==> s'[j].revoked)
  }

  lemma StepAges(t: Table, e: Event)
    ensures Ages(t.sessions, After(t, e).0.sessions)
  {
  }

  lemma {:induction false} RunAges(events: seq<Event>, n: nat)
    requires n <= |events|
    ensures Ages(Run(events[..n]).sessions, Run(events).sessions)
    decreases |events|
  {
    if n == |events| {
      assert events[..n] == events;
    } else {
      var init := events[..|events| - 1];
      assert init[..n] == events[..n];
      RunAges(init, n);
      StepAges(Run(init), events[|events| - 1]);
    }
  }

  function SuccessfulRefreshes(events: seq<Event>, jti: string): nat {
    if events == [] then 0
    else
      var e := events[|events| - 1];
      SuccessfulRefreshes(events[..|events| - 1], jti)
      + if e.Refresh? && e.jti == jti && LastOutcome(events).Issued? then 1 else 0
  }

  lemma {:induction false} RefreshedIsRevoked(events: seq<Event>, jti: string)
    ensures SuccessfulRefreshes(events, jti) <= 1
    ensures SuccessfulRefreshes(events, jti) == 1 ==> jti in Run(events).sessions && Run(events).sessions[jti].revoked
  {
    if events != [] {
      RefreshedIsRevoked(events[..|events| - 1], jti);
      StepAges(Run(events[..|events| - 1]), events[|events| - 1]);
    }
  }

  /** Over any run a refresh token works at most once. */
  lemma EachJtiRefreshesOnce(events: seq<Event>, jti: string)
    ensures SuccessfulRefreshes(events, jti) <= 1
  {
    RefreshedIsRevoked(events, jti);
  }

  /** Presenting a revoked jti ends, for good, every session its user has then: each
      stays revoked and none of them refreshes again. */
  lemma ReplayKillsSessions(events: seq<Event>, n: nat, j: string)
    requires n < |events| && events[n].Refresh?
    requires var t := Run(events[..n]);
             && events[n].jti in t.sessions && t.sessions[events[n].jti].revoked
             && j in t.sessions && t.sessions[j].user == t.sessions[events[n].jti].user
    ensures j in Run(events).sessions && Run(events).sessions[j].revoked
    ensures forall drawn :: !After(Run(events), Refresh(j, drawn)).1.Issued?
  {
    assert events[..n + 1][..n] == events[..n];
    assert Run(events[..n + 1]) == After(Run(events[..n]), events[n]).0;
    RunAges(events, n + 1);
  }

  function Live(t: Table, user: string): set<string> {
    set j | j in t.sessions && t.sessions[j].user == user && !t.sessions[j].revoked
  }

  /** Does the last event revoke all of the user's sessions: a password reset, or
      the replay of one of its revoked tokens? */
  predicate MassRevokes(events: seq<Event>, user: string)
    requires events != []
  {
    var t, e := Run(events[..|events| - 1]), events[|events| - 1];
    match e
    case ResetPassword(u) => u == user
    case Refresh(jti, _) => jti in t.sessions && t.sessions[jti].revoked && t.sessions[jti].user == user
    case _ => false
  }

  /** Successful logins and signups of the user since the last mass revocation. */
  function SignInsSince(events: seq<Event>, user: string): nat {
    if events == [] then 0
    else if MassRevokes(events, user) then 0
    else
      var e := events[|events| - 1];
      SignInsSince(events[..|events| - 1], user)
      + if (e.Login? || e.Signup?) && e.user == user && LastOutcome(events).Issued? then 1 else 0
  }

  lemma OneMore(a: set<string>, b: set<string>, x: string)
    requires b <= a + {x}
    ensures |b| <= |a| + 1
  {
    Smaller(b - {x}, a);
    assert b <= (b - {x}) + {x};
  }

  lemma Smaller(a: set<string>, b: set<string>)
    requires a <= b
    ensures |a| <= |b|
  {
    assert b == a + (b - a);
  }

  /** How one call changes a user's live sessions. */
  lemma StepLives(t: Table, e: Event, user: string)
    ensures var (t', o) := After(t, e);
            if o.Issued? && (e.Login? || e.Signup?) && e.user == user then Live(t', user) <= Live(t, user) + {e.drawn}
            else if o.Issued? && e.Refresh? then Live(t', user) <= (Live(t, user) - {e.jti}) + {e.drawn}
            else Live(t', user) <= Live(t, user)
    ensures e.Refresh? && After(t, e).1.Issued? ==> e.jti in t.sessions && !t.sessions[e.jti].revoked
    ensures e.Refresh? && After(t, e).1.Issued? && t.sessions[e.jti].user != user
            ==> Live(After(t, e).0, user) <= Live(t, user)
    ensures (e.ResetPassword? && e.user == user)
            || (e.Refresh? && e.jti in t.sessions && t.sessions[e.jti].revoked && t.sessions[e.jti].user == user)
            ==> Live(After(t, e).0, user) == {}
  {
  }

  /** A wrong password or a locked account changes nothing, and while a user is disabled
      no call gives them a session they did not have. */
  lemma DisabledGainsNothing(t: Table, e: Event, user: string)
    ensures e.Login? && (e.locked || !e.passwordOk) ==> After(t, e).0 == t && !After(t, e).1.Issued?
    ensures user in t.users && !t.users[user] ==> Live(After(t, e).0, user) <= Live(t, user)
  {
  }

  /** Every session, however often rotated, goes back to a signup of its user or a
      login with the right password while not locked. */
  lemma {:induction false} LiveUsersSignedIn(events: seq<Event>, jti: string)
    requires jti in Run(events).sessions
    ensures exists n :: 0 < n <= |events| && SignsIn(events[..n], Run(events).sessions[jti].user)
  {
    var init, e := events[..|events| - 1], events[|events| - 1];
    var t, user := Run(init), Run(events).sessions[jti].user;
    assert events[..|events|] == events;
    if jti in t.sessions || (e.Refresh? && LastOutcome(events).Issued?) {
      var before := if jti in t.sessions then jti else e.jti;
      StepAges(t, e);
      LiveUsersSignedIn(init, before);
      var n :| 0 < n <= |init| && SignsIn(init[..n], t.sessions[before].user);
      assert init[..n] == events[..n];
    } else {
      assert SignsIn(events[..|events|], user);
    }
  }

  /** The last event is a successful signup of the user, or a login with the right
      password while not locked. */
  predicate SignsIn(events: seq<Event>, user: string)
    requires events != []
  {
    var e := events[|events| - 1];
    && LastOutcome(events).Issued? && (e.Signup? || e.Login?) && e.user == user
    && (e.Login? ==> e.passwordOk && !e.locked)
  }

  /** A user never has more live sessions than logins and signups since the last
      mass revocation: rotation replaces sessions and never multiplies them. */
  lemma {:induction false} LiveWithinSignIns(events: seq<Event>, user: string)
    ensures |Live(Run(events), user)| <= SignInsSince(events, user)
  {
    if events != [] {
      var init, e := events[..|events| - 1], events[|events| - 1];
      LiveWithinSignIns(init, user);
      var t := Run(init);
      var live, live' := Live(t, user), Live(Run(events), user);
      StepLives(t, e, user);
      if MassRevokes(events, user) {
        assert live' == {};
      } else if e.Refresh? && LastOutcome(events).Issued? && t.sessions[e.jti].user == user {
        assert e.jti in live;
        OneMore(live - {e.jti}, live', e.drawn);
      } else if (e.Login? || e.Signup?) && e.user == user && LastOutcome(events).Issued? {
        OneMore(live, live', e.drawn);
      } else {
        Smaller(live', live);
      }
    }
  }
}
