/** Values that travel between the services: domain events, delivery commands,
    mails, and the outcomes of calls across the network. */
module Domain {

  type Token = string
  type Email = string

  datatype Option<+T> = None | Some(value: T)

  /** A domain event's type together with its decoded payload. `Undecodable` is a known
      type whose payload does not decode; `UnknownType` is any other type. */
  datatype Payload =
    | ReleaseDetected(email: Email, repo: string, tag: string)
    | RepositoryMoved(email: Email, repo: string)
    | SubscriptionCreated(email: Email, token: Token)
    | VerificationDelivered(token: Token)
    | VerificationFailed(token: Token, reason: string)
    | Undecodable
    | UnknownType

  /** `id` stands for the uuid of the envelope. */
  datatype Envelope = Envelope(id: nat, payload: Payload)

  datatype EmailType = NewRelease | RepoMoved | EmailVerification | OtherEmail

  datatype DeliveryMessage = DeliveryMessage(event: EmailType, email: Email, repo: string,
                                             release: string, payload: map<string, string>)

  /** A message body as a consumer sees it after JSON decoding. */
  datatype Body = Event(env: Envelope) | Command(cmd: DeliveryMessage) | Malformed

  datatype Mail = Mail(to: Email, subject: string, text: string)

  /** How a handler settles a delivery. */
  datatype Settlement = Ack | Retry | DeadLetter

  /** What a remote call did: it succeeded, it reported an error although its effect landed,
      or it reported an error and had no effect. */
  datatype Call = Done | FailedLanded | FailedNotLanded {
    predicate Landed() { this != FailedNotLanded }
  }
}
