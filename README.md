# EMLProperties: the mail session configuration builder of jodd-mail

`jodd.mail.EMLProperties` is the abstract base of jodd's mail session
configuration builders. It has two fields: a property map and a
`javax.mail.Session` that starts out null. The builder is Open while no
session is held and Frozen while one is held.

- `set(Properties)` and `set(name, value)` merge entries into the map. Both
  first call `checkSessionNotSet`, which throws `MailException` when a session
  is held. A rejected `set` therefore changes nothing.
- `session(s)`, `defaultSession()` and `createSession(p)` replace the session
  field with no guard. `session(null)` makes the builder Open again.
- `getSession()` and `getProperties()` return the current field values
  without changing anything.

The model has three modules:

- `MailTypes` (`mail_types.dfy`): property maps, the opaque `Session` type,
  the outcome and error types, and `Env`. `Env` holds the process's system
  properties and the two session factories of the mail library. It is passed
  as a parameter and is not global state.
- `EmlState` (`eml_state.dfy`): the two fields as a `Builder` value, one
  function per operation, and `Run`, which replays a sequence of calls. Its
  lemmas cover call sequences: Frozen is kept until `session(null)`, the last
  writer wins, and the last session call wins.
- `EmlBuilder` (`eml_properties.dfy`): the class `EMLProperties`. It has the
  two fields, and its `modifies` clauses say which field each operation may
  write. Each method states its new fields directly and as the matching
  `EmlState` function of the old state.

Session assignment is unguarded, so `session(null)` clears the field and
later `set` calls succeed again; `NullSessionReopens` states this.

## Model

| member | source | states |
|---|---|---|
| `EmlState.Guard` | jodd-mail/src/main/java/jodd/mail/EMLProperties.java:147-151 | The guard passes if and only if no session is held; when it fails, the error is "session already assigned". |
| `EmlState.SetProperties` | jodd-mail/src/main/java/jodd/mail/EMLProperties.java:95-98 | Fails exactly when a session is held. On success the session is unchanged, the keys are the old keys plus those of `p`, keys in `p` take `p`'s values, and every other key keeps its old value. |
| `EmlState.SetProperty` | jodd-mail/src/main/java/jodd/mail/EMLProperties.java:111-114 | Fails exactly when a session is held. On success the session is unchanged, `name` maps to `value`, and every other key keeps its old value. |
| `EmlState.WithSession` | jodd-mail/src/main/java/jodd/mail/EMLProperties.java:124-127 | Never fails. The held session becomes `s` and the properties are unchanged. The result is Frozen exactly when `s` is not null. |
| `EmlState.WithDefaultSession` | jodd-mail/src/main/java/jodd/mail/EMLProperties.java:136-139 | Never fails. The builder becomes Frozen and holds the default factory's session for the system properties. Its own properties are unchanged. |
| `EmlState.WithCreatedSession` | jodd-mail/src/main/java/jodd/mail/EMLProperties.java:78-85 | Never fails. The returned session is the one now held. It is built from the argument, or from the system properties when the argument is null. The properties are unchanged. |
| `EmlState.Apply` | jodd-mail/src/main/java/jodd/mail/EMLProperties.java:78-139 | The frame of each call. A `set` keeps the session, and on a Frozen builder it changes nothing. A session call keeps the properties and leaves the builder Frozen unless it is `session(null)`. |
| `EmlState.FrozenStaysFrozen` | jodd-mail/src/main/java/jodd/mail/EMLProperties.java:95-151 | From a Frozen builder, any sequence of calls without `session(null)` ends Frozen, with the properties exactly as before. |
| `EmlState.NullSessionReopens` | jodd-mail/src/main/java/jodd/mail/EMLProperties.java:111-127 | From any state, `session(null)` followed by `set(name, value)` succeeds. It leaves the old map with `name` bound to `value`, and no session. |
| `EmlState.SetsLastWriterWins` | jodd-mail/src/main/java/jodd/mail/EMLProperties.java:95-114 | From an Open builder, a sequence of `set` calls keeps the session null. Each key ends with the value from the last call that wrote it, or keeps its old value if no call did. |
| `EmlState.LastSessionCallWins` | jodd-mail/src/main/java/jodd/mail/EMLProperties.java:78-139 | From any state and for any calls, the held session is the one the last session call installed, or the starting one if there was no session call. Session replacement is never blocked. |
| `EmlState.CreatedSessionIgnoresProps` | jodd-mail/src/main/java/jodd/mail/EMLProperties.java:78-85 | The factory input of `createSession` does not depend on the builder's state: with a null argument the factory is called with the system properties, whatever properties were gathered with `set`. |
| `EmlBuilder.EMLProperties.constructor` | jodd-mail/src/main/java/jodd/mail/EMLProperties.java:42-59 | A new builder has an empty property map and no session. |
| `EmlBuilder.EMLProperties.GetSession` | jodd-mail/src/main/java/jodd/mail/EMLProperties.java:50-52 | Returns the current session field. It only reads. |
| `EmlBuilder.EMLProperties.GetProperties` | jodd-mail/src/main/java/jodd/mail/EMLProperties.java:67-69 | Returns the current property map. It only reads. |
| `EmlBuilder.EMLProperties.CheckSessionNotSet` | jodd-mail/src/main/java/jodd/mail/EMLProperties.java:147-151 | Fails if and only if the session field is non-null. It changes no state. |
| `EmlBuilder.EMLProperties.SetAll` | jodd-mail/src/main/java/jodd/mail/EMLProperties.java:95-98 | May write only the map. Fails exactly when a session was held, and then the map is unchanged. Otherwise the map is the old map overridden by `p`. |
| `EmlBuilder.EMLProperties.Set` | jodd-mail/src/main/java/jodd/mail/EMLProperties.java:111-114 | May write only the map. Fails exactly when a session was held, and then the map is unchanged. Otherwise `name` is bound to `value`. |
| `EmlBuilder.EMLProperties.AssignSession` | jodd-mail/src/main/java/jodd/mail/EMLProperties.java:124-127 | May write only the session field, and always succeeds. Afterwards the session is `s`, including null. |
| `EmlBuilder.EMLProperties.DefaultSession` | jodd-mail/src/main/java/jodd/mail/EMLProperties.java:136-139 | May write only the session field. It holds the default factory's session for the system properties. |
| `EmlBuilder.EMLProperties.CreateSession` | jodd-mail/src/main/java/jodd/mail/EMLProperties.java:78-85 | May write only the session field. Returns the session it now holds, built from the argument, or from the system properties when the argument is null. |
| `EmlBuilder.HostPortScenario` | jodd-mail/src/main/java/jodd/mail/EMLProperties.java:78-114 | A new builder sets a host and a port. `createSession` is called with its properties, and the session it holds is built from exactly those two entries. A later `set` fails and leaves the map unchanged. |

## Left out

- `getThis()` and the type parameter `T extends EMLProperties<T>` are left out. They only type fluent chaining, so the model's `set` methods return an `Outcome` instead of `this`.
- The deprecated `initProperties()` is left out because it does nothing.
- The internals of `Session.getInstance` and `Session.getDefaultInstance` belong to the mail library. They are the functions `Env.getInstance` and `Env.getDefaultInstance`. The real `getDefaultInstance` returns one shared session per process, and that caching is not modelled.
- `System.getProperties()` is the field `Env.system`. It is a snapshot passed in, not process-global state.
- `java.util.Properties` quirks are left out: the defaults chain, non-string entries, and the `NullPointerException` for a null key, a null value or a null map given to `set`. Keys and values are plain strings.
- `getProperties()` hands out the `Properties` object itself, and the model does not capture that aliasing. In the source, a caller holding that object sees later `set` calls, and package code can write through it after a session is held, past the guard. The session that `createSession(getProperties())` builds also shares that object. In the model, `GetProperties` returns a map value, so none of this holds.
- Session identity is not modelled. `Session.getInstance` builds a new object on every call, but `Env.getInstance` is a function, so the model treats sessions built from equal maps as the same session. `CreatedSessionIgnoresProps` therefore speaks of the factory's input, not of Java object identity.
- The factories are assumed never to return null. `WithDefaultSession`, `WithCreatedSession` and `Apply` wrap the factory result in `Some`, so a session call other than `session(null)` always leaves a session held.
- The text of the `MailException` message is not modelled. The one error kind is `SessionAlreadyAssigned`.
- Thread safety is left out. The check-then-act step in `set` is not atomic in the source, and the model is single-threaded.
