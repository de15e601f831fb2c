/** Settling the onboarding saga: from the mailer's result events, and by timeout. */
module Orchestrator {
  import opened Domain
  import opened SagaStore

  datatype Outcome = Deliver(token: Token) | Fail(token: Token) | Foreign

  function Decode(body: Body): Outcome {
    match body
    case Event(Envelope(_, VerificationDelivered(t))) => Deliver(t)
    case Event(Envelope(_, VerificationFailed(t, _))) => Fail(t)
    case _ => Foreign
  }

  /** The settling write of a result. */
  function SettlingWrite(db: Tables, outcome: Outcome): Tables {
    match outcome
    case Deliver(t) => MarkCompleted(db, t)
    case Fail(t) => SagaStore.Compensate(db, t)
    case Foreign => db
  }

  lemma SettlingWriteKeeps(db: Tables, outcome: Outcome)
    requires Sound(db)
    ensures Sound(SettlingWrite(db, outcome)) && Evolves(db, SettlingWrite(db, outcome))
    ensures outcome != Foreign ==> !Awaiting(SettlingWrite(db, outcome), outcome.token)
  {
    match outcome
    case Deliver(t) => CompletedKeeps(db, t);
    case Fail(t) => CompensateKeeps(db, t);
    case Foreign =>
  }

  class Orchestrator {
    const store: Store

    constructor (store: Store)
      ensures this.store == store
    {
      this.store := store;
    }

    /** process with claim and settle. `other` is what other sessions commit between the
        claim's read and the settling write. An acked result leaves its saga terminal or
        unknown; only a database error asks for a retry. */
    method Process(body: Body, reachable: bool, other: Tables -> Tables, fault: DbFault)
      returns (how: Settlement)
      requires Sound(store.db) && Rely(other)
      modifies store
      ensures Sound(store.db) && Evolves(old(store.db), store.db)
      ensures how == DeadLetter <==>
                !(body.Event? && (body.env.payload.VerificationDelivered? || body.env.payload.VerificationFailed?))
      ensures how == DeadLetter || (how == Retry && !reachable) ==> store.db == old(store.db)
      ensures how == Ack ==> !Awaiting(store.db, Decode(body).token)
      ensures Decode(body) != Foreign ==>
                (how == Retry <==> !reachable || (Awaiting(old(store.db), Decode(body).token) && fault != NoFault))
      ensures how != DeadLetter && reachable && Awaiting(old(store.db), Decode(body).token) ==>
                && store.db == (if fault.Commits() then SettlingWrite(other(old(store.db)), Decode(body))
                                else other(old(store.db)))
                && (fault.Commits() && Awaiting(other(old(store.db)), Decode(body).token) ==>
                      store.db.sagas[Decode(body).token].state ==
                        if body.env.payload.VerificationDelivered? then Completed else SagaState.Compensated)
    {
      var outcome := Decode(body);
      if outcome == Foreign { return DeadLetter; }
      var err, state := store.SagaStateOf(outcome.token, reachable);
      if err == NotFound { return Ack; }
      if err != NoError { return Retry; }
      if state != AwaitingDelivery { return Ack; }
      store.db := other(store.db);
      ghost var mid := store.db;
      SettlingWriteKeeps(mid, outcome);
      var failed := match outcome
        case Deliver(_) => false
        case _ => true;
      if failed { err := store.Cancel(outcome.token, fault); } else { err := store.Complete(outcome.token, fault); }
      EvolvesTransitive(old(store.db), mid, store.db);
      return if err == DbError then Retry else Ack;
    }
  }

  /** The tables after the first `n` writes of a sweep. */
  function Swept(db: Tables, tokens: seq<Token>, others: nat -> Tables -> Tables, faults: nat -> DbFault,
                 n: nat): Tables
    requires n <= |tokens|
  {
    if n == 0 then db
    else
      var mid := others(n - 1)(Swept(db, tokens, others, faults, n - 1));
      if faults(n - 1).Commits() then SagaStore.Compensate(mid, tokens[n - 1]) else mid
  }

  predicate Settled(db: Tables, t: Token) {
    t in db.sagas && !Awaiting(db, t)
  }

  lemma SettledStay(a: Tables, b: Tables)
    requires Evolves(a, b)
    ensures forall t :: Settled(a, t) ==> Settled(b, t)
  {
  }

  lemma SettledPending(db: Tables, t: Token)
    requires Sound(db) && Settled(db, t)
    ensures !Awaiting(db, t) && t in db.sagas
    ensures forall k :: PendingWith(db, k, t) ==> db.sagas[t].state == Completed
  {
  }

  lemma StaleStays(a: Tables, b: Tables, t: Token, now: int, olderThan: nat)
    requires Evolves(a, b) && IsStale(a, t, now, olderThan)
    ensures t in b.sagas
  {
  }

  lemma SweptNone(db: Tables, tokens: seq<Token>, others: nat -> Tables -> Tables, faults: nat -> DbFault)
    requires Sound(db)
    ensures Swept(db, tokens, others, faults, 0) == db && Evolves(db, db)
  {
  }

  /** One write of a sweep, after the other sessions' commits. */
  lemma SweepStep(start: Tables, db: Tables, tokens: seq<Token>, others: nat -> Tables -> Tables,
                  faults: nat -> DbFault, i: nat)
    requires i < |tokens| && Sound(db) && Evolves(start, db) && Rely(others(i)) && tokens[i] in db.sagas
    requires db == Swept(start, tokens, others, faults, i)
    ensures var mid := others(i)(db);
            var after := if faults(i).Commits() then SagaStore.Compensate(mid, tokens[i]) else mid;
            && Sound(after) && Evolves(db, after) && Evolves(start, after)
            && after == Swept(start, tokens, others, faults, i + 1)
            && (faults(i).Commits() ==> Settled(after, tokens[i]))
  {
    var mid := others(i)(db);
    var after := if faults(i).Commits() then SagaStore.Compensate(mid, tokens[i]) else mid;
    assert Evolves(db, mid) && Sound(mid);
    CompensateKeeps(mid, tokens[i]);
    hide Sound, Rely;
    assert Evolves(db, after) by { EvolvesTransitive(db, mid, after); }
    EvolvesTransitive(start, db, after);
  }

  class Reaper {
    const store: Store
    const staleAfter: nat

    constructor (store: Store, staleAfter: nat)
      ensures this.store == store && this.staleAfter == staleAfter
    {
      this.store, this.staleAfter := store, staleAfter;
    }

    /** sweep: `others(i)` is what other sessions commit before the i-th write. Every token
        stale at the query whose own write committed is terminal afterwards, whatever
        happened to the writes of the other tokens, and a live pending row still carries it
        only if its saga was completed in the meantime. */
    method Sweep(now: int, readable: bool, others: nat -> Tables -> Tables, faults: nat -> DbFault)
      returns (tokens: seq<Token>)
      requires Sound(store.db) && forall i :: Rely(others(i))
      modifies store
      ensures Sound(store.db) && Evolves(old(store.db), store.db)
      ensures forall t :: t in tokens <==> readable && IsStale(old(store.db), t, now, staleAfter)
      ensures store.db == Swept(old(store.db), tokens, others, faults, |tokens|)
      ensures forall i :: 0 <= i < |tokens| && faults(i).Commits() ==> !Awaiting(store.db, tokens[i])
      ensures forall i, k :: 0 <= i < |tokens| && faults(i).Commits() && PendingWith(store.db, k, tokens[i]) ==>
                tokens[i] in store.db.sagas && store.db.sagas[tokens[i]].state == Completed
    {
      hide *;
      var err;
      err, tokens := store.StaleAwaitingTokens(now, staleAfter, readable);
      SweptNone(store.db, tokens, others, faults);
      for i := 0 to |tokens|
        invariant Sound(store.db) && Evolves(old(store.db), store.db)
        invariant store.db == Swept(old(store.db), tokens, others, faults, i)
        invariant forall j :: 0 <= j < i && faults(j).Commits() ==> Settled(store.db, tokens[j])
      {
        assert tokens[i] in tokens && Rely(others(i));
        StaleStays(old(store.db), store.db, tokens[i], now, staleAfter);
        SweepStep(old(store.db), store.db, tokens, others, faults, i);
        ghost var before := store.db;
        store.db := others(i)(store.db);
        var _ := store.Cancel(tokens[i], faults(i));
        SettledStay(before, store.db);
      }
      forall i | 0 <= i < |tokens| && faults(i).Commits()
        ensures !Awaiting(store.db, tokens[i])
        ensures tokens[i] in store.db.sagas
        ensures forall k :: PendingWith(store.db, k, tokens[i]) ==> store.db.sagas[tokens[i]].state == Completed
      {
        SettledPending(store.db, tokens[i]);
      }
    }
  }
}
