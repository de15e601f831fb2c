/** The notifier maps events to delivery commands, once per envelope as far as the
    dedup store remembers. */
module Notifier {
  import opened Domain
  import opened Broker

  datatype Mapped = Poison | Send(cmd: DeliveryMessage)

  function ToCommand(env: Envelope): Mapped {
    match env.payload
    case ReleaseDetected(email, repo, tag) => Send(DeliveryMessage(NewRelease, email, repo, tag, map[]))
    case RepositoryMoved(email, repo) => Send(DeliveryMessage(RepoMoved, email, repo, "", map[]))
    case SubscriptionCreated(email, token) =>
      Send(DeliveryMessage(EmailVerification, email, "", "", map["token" := token]))
    case _ => Poison
  }

  /** The steps of process on a body, as the global machine takes them. */
  function MarkedKeys(keys: set<nat>, id: nat, call: Call): set<nat> {
    if call.Landed() then keys + {id} else keys
  }

  function AfterMark(keys: set<nat>, id: nat, call: Call): Step {
    if call != Done then Settling(Retry)
    else if id in keys then Settling(Ack)
    else Marked
  }

  function UnmarkedKeys(keys: set<nat>, id: nat, call: Call): set<nat> {
    if call.Landed() then keys - {id} else keys
  }

  class Notifier {
    var keys: set<nat>
    ghost var published: seq<DeliveryMessage>

    constructor ()
      ensures keys == {} && published == []
    {
      keys, published := {}, [];
    }

    /** Redis SET NX: true if newly set. */
    method MarkProcessed(id: nat, call: Call) returns (ok: bool, isNew: bool)
      modifies this`keys
      ensures keys == MarkedKeys(old(keys), id, call)
      ensures ok <==> call == Done
      ensures ok ==> isNew == (id !in old(keys))
    {
      ok, isNew := call == Done, id !in keys;
      if call.Landed() { keys := keys + {id}; }
    }

    method Unmark(id: nat, call: Call)
      modifies this`keys
      ensures keys == UnmarkedKeys(old(keys), id, call)
    {
      if call.Landed() { keys := keys - {id}; }
    }

    method PublishCommand(cmd: DeliveryMessage, call: Call) returns (ok: bool)
      modifies this`published
      ensures ok <==> call == Done
      ensures published == if call.Landed() then old(published) + [cmd] else old(published)
    {
      if call.Landed() { published := published + [cmd]; }
      ok := call == Done;
    }

    /** process, undisturbed by other workers: a message is acked only if its command was
        confirmed now or its key was already present; a failed publish whose rollback lands
        leaves the dedup store as it was, so the retry is not skipped. */
    method Process(body: Body, mark: Call, publish: Call, unmark: Call) returns (how: Settlement)
      modifies this
      ensures (how == DeadLetter) <==> !(body.Event? && ToCommand(body.env).Send?)
      ensures how == DeadLetter ==> keys == old(keys) && published == old(published)
      ensures how == Ack ==> body.Event? && keys == old(keys) + {body.env.id}
      ensures how == Retry && mark == FailedLanded ==> keys == old(keys) + {body.env.id}
      ensures how == Retry && mark == Done && !unmark.Landed() ==> keys == old(keys) + {body.env.id}
      ensures how == Ack && body.env.id !in old(keys) ==> published == old(published) + [ToCommand(body.env).cmd]
      ensures how == Ack && body.env.id in old(keys) ==> published == old(published) && keys == old(keys)
      ensures how == Retry && mark == Done && unmark.Landed() ==> keys == old(keys)
      ensures how == Retry && mark == FailedNotLanded ==> keys == old(keys) && published == old(published)
      ensures how == Retry ==> published == if mark == Done && publish == FailedLanded
                                            then old(published) + [ToCommand(body.env).cmd] else old(published)
      ensures body.Event? && ToCommand(body.env).Send? ==>
                (how == Retry <==> mark != Done || (body.env.id !in old(keys) && publish != Done))
    {
      if !body.Event? { return DeadLetter; }
      var mapped := ToCommand(body.env);
      if mapped.Poison? { return DeadLetter; }
      var ok, isNew := MarkProcessed(body.env.id, mark);
      if !ok { return Retry; }
      if !isNew { return Ack; }
      var sent := PublishCommand(mapped.cmd, publish);
      if !sent {
        Unmark(body.env.id, unmark);
        return Retry;
      }
      return Ack;
    }
  }
}
