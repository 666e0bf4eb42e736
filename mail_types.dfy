// Values shared by the model of jodd's mail session configuration builder:
// property maps, the opaque mail session handle, the collaborators the
// builder calls out to, and the one error it can raise.
module MailTypes {

  /** A `java.util.Properties` restricted to what the builder uses: string keys
      mapped to string values. */
  type Props = map<string, string>

  /** The `javax.mail.Session` handle. Its construction belongs to the mail
      library; the builder only stores it, hands it back and compares it. */
  type Session(==)

  /** The world outside the builder: the process-wide system properties and the
      two factories of the mail library (`Session.getInstance` and
      `Session.getDefaultInstance`), each of which builds a session from a
      property map. */
  datatype Env = Env(
    system: Props,
    getInstance: Props -> Session,
    getDefaultInstance: Props -> Session)

  /** `MailException` as thrown by the builder: its only cause is an attempt to
      change the properties after a session is held. */
  datatype MailError = SessionAlreadyAssigned

  /** The outcome of a call that either returns normally or throws. */
  datatype Outcome = Pass | Fail(error: MailError)

  /** The outcome of a call that either yields a value or throws. */
  datatype Result<T> = Ok(value: T) | Err(error: MailError)

  datatype Option<T> = None | Some(value: T)

  /** The value `m` holds under `k`, if any. */
  function Lookup(m: Props, k: string): (r: Option<string>) {
    if k in m then Some(m[k]) else None
  }
}
