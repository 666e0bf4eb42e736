// The builder's state as a value, one function per operation of
// jodd-mail's EMLProperties, and what holds of any sequence of calls.
//
// A builder is Open while it holds no session and Frozen while it holds one.
// Only the two `set` operations are guarded, and the guard reads nothing but
// the held session; the three session operations replace the session
// unguarded, and `session(null)` makes the builder Open again.
module EmlState {
  import opened MailTypes

  /** The two fields of an EMLProperties object. */
  datatype Builder = Builder(props: Props, session: Option<Session>)

  /** A freshly constructed builder: no properties and no session. */
  const Initial: Builder := Builder(map[], None)

  predicate Frozen(b: Builder) {
    b.session.Some?
  }

  /** `checkSessionNotSet`: rejects exactly when a session is held. */
  function Guard(b: Builder): (r: Outcome)
    ensures r.Pass? <==> !Frozen(b)
    ensures r.Fail? ==> r.error == SessionAlreadyAssigned
  {
    if b.session.Some? then Fail(SessionAlreadyAssigned) else Pass
  }

  /** `set(Properties)`: the guard first, then `putAll`. */
  function SetProperties(b: Builder, p: Props): (r: Result<Builder>)
    ensures r.Err? <==> Frozen(b)
    ensures r.Err? ==> r.error == SessionAlreadyAssigned
    ensures r.Ok? ==> r.value.session == b.session
    ensures r.Ok? ==> r.value.props.Keys == b.props.Keys + p.Keys
    ensures r.Ok? ==> forall k :: k in p ==> r.value.props[k] == p[k]
    ensures r.Ok? ==> forall k :: k in b.props && k !in p ==> r.value.props[k] == b.props[k]
  {
    match Guard(b)
    case Fail(e) => Err(e)
    case Pass => Ok(b.(props := b.props + p))
  }

  /** `set(name, value)`: the guard first, then `setProperty`. */
  function SetProperty(b: Builder, name: string, value: string): (r: Result<Builder>)
    ensures r.Err? <==> Frozen(b)
    ensures r.Err? ==> r.error == SessionAlreadyAssigned
    ensures r.Ok? ==> r.value.session == b.session
    ensures r.Ok? ==> r.value.props.Keys == b.props.Keys + {name}
    ensures r.Ok? ==> r.value.props[name] == value
    ensures r.Ok? ==> forall k :: k in b.props && k != name ==> r.value.props[k] == b.props[k]
  {
    match Guard(b)
    case Fail(e) => Err(e)
    case Pass => Ok(b.(props := b.props[name := value]))
  }

  /** `session(s)`: replaces the held session, whatever the state, and leaves
      the properties alone. `s == None` is `session(null)`. */
  function WithSession(b: Builder, s: Option<Session>): (r: Builder)
    ensures r.props == b.props
    ensures r.session == s
    ensures Frozen(r) <==> s.Some?
  {
    b.(session := s)
  }

  /** `defaultSession()`: the default session of the mail library, built from
      the system properties and not from the builder's own. */
  function WithDefaultSession(b: Builder, env: Env): (r: Builder)
    ensures r.props == b.props
    ensures Frozen(r)
    ensures r.session.value == env.getDefaultInstance(env.system)
  {
    WithSession(b, Some(env.getDefaultInstance(env.system)))
  }

  /** `createSession(p)`: a new session from `p`, or from the system properties
      when `p` is null; it is stored through `session(...)` and returned. */
  function WithCreatedSession(b: Builder, p: Option<Props>, env: Env): (r: (Builder, Session))
    ensures r.0.props == b.props
    ensures r.0.session == Some(r.1)
    ensures p.None? ==> r.1 == env.getInstance(env.system)
    ensures p.Some? ==> r.1 == env.getInstance(p.value)
  {
    var source := if p.None? then env.system else p.value;
    var s := env.getInstance(source);
    (WithSession(b, Some(s)), s)
  }

  /** The state after a call that may throw: a thrown exception leaves it as
      it was. */
  function Settle(b: Builder, r: Result<Builder>): (after: Builder) {
    if r.Ok? then r.value else b
  }

  /** One public call on a builder. `AssignSession(None)` is `session(null)`;
      `CreateSession(None)` is `createSession(null)`. */
  datatype Call =
    | SetAll(p: Props)
    | Set(name: string, value: string)
    | AssignSession(s: Option<Session>)
    | UseDefaultSession
    | CreateSession(arg: Option<Props>)

  predicate IsSet(c: Call) {
    c.SetAll? || c.Set?
  }

  /** The state after `c`, whether it returned or threw. */
  function Apply(b: Builder, c: Call, env: Env): (r: Builder)
    ensures IsSet(c) ==> r.session == b.session
    ensures IsSet(c) && Frozen(b) ==> r == b
    ensures !IsSet(c) ==> r.props == b.props
    ensures !IsSet(c) ==> (Frozen(r) <==> c != AssignSession(None))
  {
    match c
    case SetAll(p) => Settle(b, SetProperties(b, p))
    case Set(name, value) => Settle(b, SetProperty(b, name, value))
    case AssignSession(s) => WithSession(b, s)
    case UseDefaultSession => WithDefaultSession(b, env)
    case CreateSession(p) => WithCreatedSession(b, p, env).0
  }

  /** The state after the calls, in order, each exception caught by the caller. */
  function Run(b: Builder, calls: seq<Call>, env: Env): (r: Builder)
    decreases |calls|
  {
    if calls == [] then b else Run(Apply(b, calls[0], env), calls[1..], env)
  }

  lemma {:induction false} RunAppend(b: Builder, xs: seq<Call>, ys: seq<Call>, env: Env)
    ensures Run(b, xs + ys, env) == Run(Run(b, xs, env), ys, env)
    decreases |xs|
  {
    if xs != [] {
      assert (xs + ys)[0] == xs[0];
      assert (xs + ys)[1..] == xs[1..] + ys;
      RunAppend(Apply(b, xs[0], env), xs[1..], ys, env);
    } else {
      assert xs + ys == ys;
    }
  }

  lemma RunLast(b: Builder, calls: seq<Call>, env: Env)
    requires calls != []
    ensures Run(b, calls, env) == Apply(Run(b, calls[..|calls| - 1], env), calls[|calls| - 1], env)
  {
    var init, c := calls[..|calls| - 1], calls[|calls| - 1];
    assert calls == init + [c];
    RunAppend(b, init, [c], env);
    assert [c][1..] == [];
  }

  /** A Frozen builder stays Frozen, with its properties untouched, through
      any calls that do not include `session(null)`. */
  lemma {:induction false} FrozenStaysFrozen(b: Builder, calls: seq<Call>, env: Env)
    requires Frozen(b)
    requires AssignSession(None) !in calls
    ensures Frozen(Run(b, calls, env))
    ensures Run(b, calls, env).props == b.props
    decreases |calls|
  {
    if calls != [] {
      assert calls[0] in calls;
      assert forall c :: c in calls[1..] ==> c in calls;
      FrozenStaysFrozen(Apply(b, calls[0], env), calls[1..], env);
    }
  }

  /** `session(null)` re-opens a builder in any state: a following `set`
      succeeds. */
  lemma NullSessionReopens(b: Builder, name: string, value: string, env: Env)
    ensures SetProperty(WithSession(b, None), name, value).Ok?
    ensures Run(b, [AssignSession(None), Set(name, value)], env)
         == Builder(b.props[name := value], None)
  {
    var calls := [AssignSession(None), Set(name, value)];
    var reopened := WithSession(b, None);
    assert Apply(b, calls[0], env) == reopened;
    assert calls[1..] == [Set(name, value)];
    assert [Set(name, value)][1..] == [];
    assert Run(reopened, [Set(name, value)], env) == Apply(reopened, Set(name, value), env);
  }

  /** The value the last `set` call in `calls` gives `k`, if any of them
      writes `k`; a reference definition read from the end. */
  function LastWrite(calls: seq<Call>, k: string): (r: Option<string>)
    decreases |calls|
  {
    if calls == [] then None
    else
      var c := calls[|calls| - 1];
      if c.Set? && c.name == k then Some(c.value)
      else if c.SetAll? && k in c.p then Some(c.p[k])
      else LastWrite(calls[..|calls| - 1], k)
  }

  /** On an Open builder, a sequence of `set` calls all succeed: the session
      stays null and every key ends up with the value of the last call that
      wrote it, or keeps its old value when none did. */
  lemma {:induction false} SetsLastWriterWins(b: Builder, calls: seq<Call>, k: string, env: Env)
    requires !Frozen(b)
    requires forall c :: c in calls ==> IsSet(c)
    ensures Run(b, calls, env).session == None
    ensures Lookup(Run(b, calls, env).props, k)
         == if LastWrite(calls, k).Some? then LastWrite(calls, k) else Lookup(b.props, k)
    decreases |calls|
  {
    if calls != [] {
      var init, c := calls[..|calls| - 1], calls[|calls| - 1];
      assert c in calls;
      assert forall x :: x in init ==> x in calls;
      SetsLastWriterWins(b, init, k, env);
      RunLast(b, calls, env);
    }
  }

  /** The session a session call installs. */
  function Installed(c: Call, env: Env): (r: Option<Session>)
    requires !IsSet(c)
  {
    match c
    case AssignSession(s) => s
    case UseDefaultSession => Some(env.getDefaultInstance(env.system))
    case CreateSession(p) => Some(env.getInstance(if p.Some? then p.value else env.system))
  }

  /** The session held after `calls`, starting from `held`: the last session
      call decides, and `set` calls never matter; read from the end. */
  function HeldAfter(calls: seq<Call>, held: Option<Session>, env: Env): (r: Option<Session>)
    decreases |calls|
  {
    if calls == [] then held
    else if IsSet(calls[|calls| - 1]) then HeldAfter(calls[..|calls| - 1], held, env)
    else Installed(calls[|calls| - 1], env)
  }

  /** Session replacement is never guarded: whatever the calls and whatever
      state they start from, the held session is the one the last session
      call installed. */
  lemma {:induction false} LastSessionCallWins(b: Builder, calls: seq<Call>, env: Env)
    ensures Run(b, calls, env).session == HeldAfter(calls, b.session, env)
    decreases |calls|
  {
    if calls != [] {
      LastSessionCallWins(b, calls[..|calls| - 1], env);
      RunLast(b, calls, env);
    }
  }

  /** `createSession` calls the factory with its argument, or with the system
      properties when it is null, whatever properties the builder holds. */
  lemma CreatedSessionIgnoresProps(b1: Builder, b2: Builder, p: Option<Props>, env: Env)
    ensures WithCreatedSession(b1, p, env).1 == WithCreatedSession(b2, p, env).1
  {
  }
}
