// jodd-mail's EMLProperties as an object: a property map that `set` merges
// into while no session is held, and a session field that the session
// operations replace without any guard. Each method states its new fields
// and the same step as a function of EmlState, so what EmlState proves about
// sequences of calls holds of the object too.
module EmlBuilder {
  import opened MailTypes
  import opened EmlState

  class EMLProperties {
    var props: Props
    var session: Option<Session>

    /** The object's fields as a value. */
    function State(): Builder
      reads this
    {
      Builder(props, session)
    }

    constructor ()
      ensures State() == Initial
    {
      props := map[];
      session := None;
    }

    /** `getSession()`: the current session field, null when none is held. */
    function GetSession(): (s: Option<Session>)
      reads this
      ensures s == State().session
    {
      session
    }

    /** `getProperties()`: the current property map, as a value. */
    function GetProperties(): (p: Props)
      reads this
      ensures p == State().props
    {
      props
    }

    /** `checkSessionNotSet()`: throws exactly when a session is held, and
        reads nothing else. */
    method CheckSessionNotSet() returns (r: Outcome)
      ensures r.Fail? <==> session.Some?
      ensures r.Fail? ==> r.error == SessionAlreadyAssigned
      ensures r == Guard(State())
    {
      if session.Some? {
        r := Fail(SessionAlreadyAssigned);
      } else {
        r := Pass;
      }
    }

    /** `set(Properties)`: throws when a session is held, before anything is
        copied; otherwise `p` is merged in, overriding keys it shares with
        the old map. The session is never touched. */
    method SetAll(p: Props) returns (r: Outcome)
      modifies this`props
      ensures r.Fail? <==> old(session).Some?
      ensures r.Fail? ==> r.error == SessionAlreadyAssigned && props == old(props)
      ensures r.Pass? ==> props == old(props) + p
      ensures State() == Settle(old(State()), SetProperties(old(State()), p))
    {
      r := CheckSessionNotSet();
      if r.Pass? {
        props := props + p;
      }
    }

    /** `set(name, value)`: throws when a session is held, before the map is
        touched; otherwise `name` is bound to `value`. */
    method Set(name: string, value: string) returns (r: Outcome)
      modifies this`props
      ensures r.Fail? <==> old(session).Some?
      ensures r.Fail? ==> r.error == SessionAlreadyAssigned && props == old(props)
      ensures r.Pass? ==> props == old(props)[name := value]
      ensures State() == Settle(old(State()), SetProperty(old(State()), name, value))
    {
      r := CheckSessionNotSet();
      if r.Pass? {
        props := props[name := value];
      }
    }

    /** `session(s)`: never throws; replaces the held session, `null`
        included, and leaves the properties alone. */
    method AssignSession(s: Option<Session>)
      modifies this`session
      ensures session == s
      ensures State() == WithSession(old(State()), s)
    {
      session := s;
    }

    /** `defaultSession()`: never throws; holds the mail library's default
        session for the system properties. */
    method DefaultSession(env: Env)
      modifies this`session
      ensures session == Some(env.getDefaultInstance(env.system))
      ensures State() == WithDefaultSession(old(State()), env)
    {
      session := Some(env.getDefaultInstance(env.system));
    }

    /** `createSession(p)`: never throws; builds a session from `p`, or from
        the system properties when `p` is null, holds it and returns it. */
    method CreateSession(p: Option<Props>, env: Env) returns (s: Session)
      modifies this`session
      ensures session == Some(s)
      ensures (State(), s) == WithCreatedSession(old(State()), p, env)
    {
      var source := if p.None? then env.system else p.value;
      AssignSession(Some(env.getInstance(source)));
      s := session.value;
    }
  }

  /** A client of the builder: two properties set, a session created from
      exactly those properties, and a later `set` refused with the map left
      as it was. */
  method HostPortScenario(env: Env) returns (b: EMLProperties, s: Session, late: Outcome)
    ensures s == env.getInstance(map["mail.smtp.host" := "example.org", "mail.smtp.port" := "587"])
    ensures b.GetSession() == Some(s)
    ensures late == Fail(SessionAlreadyAssigned)
    ensures b.GetProperties() == map["mail.smtp.host" := "example.org", "mail.smtp.port" := "587"]
  {
    b := new EMLProperties();
    var r1 := b.Set("mail.smtp.host", "example.org");
    var r2 := b.Set("mail.smtp.port", "587");
    assert r1 == Pass && r2 == Pass;
    s := b.CreateSession(Some(b.GetProperties()), env);
    late := b.Set("mail.smtp.port", "25");
  }
}
