/** The HTTP handlers that create, confirm and cancel subscriptions. Each reads a row, lets
    other sessions run, and saves what it read: nothing here holds a lock across the two. */
module Handlers {
  import opened Domain
  import opened Outbox
  import opened SagaStore

  predicate Matches(db: Tables, k: nat, email: Email, repo: nat) {
    k in db.subs && !db.subs[k].deleted && db.subs[k].email == email && db.subs[k].repo == repo
  }

  predicate HasToken(db: Tables, k: nat, token: Token) {
    k in db.subs && !db.subs[k].deleted && db.subs[k].confirmToken == token
  }

  predicate TokenTaken(db: Tables, token: Token) {
    exists k :: k in db.subs && HasToken(db, k, token)
  }

  /** The row Subscribe writes for a re-subscription or for a new one. */
  function PendingAgain(row: Subscription, token: Token): Subscription {
    row.(status := Pending, confirmToken := token, apiToken := "")
  }

  function Created(email: Email, repo: nat, token: Token): Subscription {
    Subscription(email, repo, Pending, token, "", false)
  }

  class SubscriptionHandler {
    const store: Store

    constructor (store: Store)
      ensures this.store == store
    {
      this.store := store;
    }

    /** generateToken until one is not taken; None when the generator fails (after the candidates)
        or a lookup does. */
    method FreshToken(candidates: seq<Token>, lookupOk: nat -> bool) returns (token: Option<Token>)
      ensures token.Some? <==> exists i: nat :: FirstFree(candidates, lookupOk, i)
      ensures forall i: nat :: FirstFree(candidates, lookupOk, i) ==> token == Some(candidates[i])
    {
      for i := 0 to |candidates|
        invariant forall j: nat :: j < i ==> lookupOk(j) && TokenTaken(store.db, candidates[j])
      {
        if !lookupOk(i) { return None; }
        if !TokenTaken(store.db, candidates[i]) {
          assert FirstFree(candidates, lookupOk, i);
          return Some(candidates[i]);
        }
      }
      return None;
    }

    /** The i-th candidate is the first that is not taken, and the lookups worked up to it. */
    ghost predicate FirstFree(candidates: seq<Token>, lookupOk: nat -> bool, i: nat) reads this, store {
      && i < |candidates| && !TokenTaken(store.db, candidates[i]) && lookupOk(i)
      && forall j: nat :: j < i ==> lookupOk(j) && TokenTaken(store.db, candidates[j])
    }

    /** SaveSubscription without events. */
    method SaveSubscription(k: nat, row: Subscription, fault: DbFault) returns (ok: bool)
      requires Sound(store.db) && row.status != Pending
      modifies store
      ensures Sound(store.db) && Evolves(old(store.db), store.db)
      ensures ok <==> fault == NoFault && Save(old(store.db), k, row).Some?
      ensures store.db == if fault.Commits() && Save(old(store.db), k, row).Some?
                          then Save(old(store.db), k, row).value else old(store.db)
    {
      var saved := Save(store.db, k, row);
      if saved.Some? { SaveKeeps(store.db, k, row); }
      if saved.Some? && fault.Commits() { store.db := saved.value; }
      ok := saved.Some? && fault == NoFault;
    }

    /** Subscribe from the lookup on; `readable` is whether its query succeeds. On 200 one
        transaction has left a pending row, an open saga and a queued event that all carry the
        same new token; on an error nothing was written, unless the commit went through and only
        its answer was lost. */
    method Subscribe(email: Email, repo: nat, readable: bool, candidates: seq<Token>, lookupOk: nat -> bool,
                     eventId: nat, newKey: nat,
                     now: int, other: Tables -> Tables, fault: DbFault)
      returns (status: nat, token: Token, ghost key: nat)
      requires Sound(store.db) && Rely(other) && newKey !in other(store.db).subs
      modifies store
      ensures Sound(store.db) && Evolves(old(store.db), store.db)
      ensures status in {200, 409, 500}
      ensures !readable ==> status == 500
      ensures readable ==>
                (status == 409 <==>
                   exists k :: k in old(store.db).subs &&
                     var row := old(store.db).subs[k];
                     !row.deleted && row.email == email && row.repo == repo && row.status == Active)
      ensures status == 409 || !readable ==> store.db == old(store.db)
      ensures status == 200 ==>
                && token in candidates
                && (forall k :: k in old(store.db).subs && old(store.db).subs[k].confirmToken == token ==>
                      old(store.db).subs[k].deleted)
                && token !in other(old(store.db)).sagas
                && token in store.db.sagas && store.db.sagas[token] == Saga(AwaitingDelivery, now)
                && store.db.outbox == other(old(store.db)).outbox +
                     [Row(other(old(store.db)).nextRow, Envelope(eventId, SubscriptionCreated(email, token)))]
                && key in store.db.subs
                && store.db.subs[key] == Subscription(email, repo, Pending, token, "", false)
                && store.db.subs - {key} == other(old(store.db)).subs - {key}
                && store.db.sagas - {token} == other(old(store.db)).sagas
      ensures status == 200 && (exists k :: Matches(old(store.db), k, email, repo)) ==>
                Matches(old(store.db), key, email, repo)
      ensures status == 500 && fault != CommittedWithError ==>
                store.db == old(store.db) || store.db == other(old(store.db))
    {
      token, key := "", newKey;
      if !readable { return 500, token, key; }
      var found: Option<nat> := None;
      if k :| k in store.db.subs && Matches(store.db, k, email, repo) { found := Some(k); }
      if found.Some? && store.db.subs[found.value].status == Active { return 409, token, key; }
      var candidate := FreshToken(candidates, lookupOk);
      if candidate.None? { return 500, token, key; }
      token := candidate.value;
      var env := Envelope(eventId, SubscriptionCreated(email, token));
      var k := if found.Some? then found.value else newKey;
      key := k;
      var row := if found.Some? then PendingAgain(store.db.subs[k], token) else Created(email, repo, token);
      store.db := other(store.db);
      ghost var mid := store.db;
      var tx := StartSaga(store.db, k, row, env, now);
      if tx.None? { return 500, token, key; }
      StartSagaKeeps(mid, k, row, env, now);
      EvolvesTransitive(old(store.db), mid, tx.value);
      if fault.Commits() { store.db := tx.value; }
      if fault != NoFault { return 500, token, key; }
      return 200, token, key;
    }

    /** Confirm of a well-formed token; `apiToken` is None when the generator fails. */
    method Confirm(token: Token, readable: bool, apiToken: Option<Token>, other: Tables -> Tables, fault: DbFault)
      returns (status: nat, ghost key: nat)
      requires Sound(store.db) && Rely(other)
      modifies store
      ensures Sound(store.db) && Evolves(old(store.db), store.db)
      ensures status in {200, 404, 500}
      ensures !readable ==> status == 500
      ensures readable ==>
                (status == 404 <==>
                   forall k :: k in old(store.db).subs && old(store.db).subs[k].confirmToken == token ==>
                     old(store.db).subs[k].deleted)
      ensures status == 404 || !readable || apiToken.None? ==> store.db == old(store.db)
      ensures status == 200 ==>
                && key in old(store.db).subs && !old(store.db).subs[key].deleted
                && old(store.db).subs[key].confirmToken == token
                && key in store.db.subs && !store.db.subs[key].deleted && store.db.subs[key].confirmToken == token
                && store.db.subs[key].status == Active
      ensures status == 200 ==>
                var row := old(store.db).subs[key];
                if row.status == Active then store.db == old(store.db)
                else apiToken.Some? && Some(store.db) ==
                       Save(other(old(store.db)), key, row.(status := Active, apiToken := apiToken.value))
      ensures status == 500 ==> store.db in {old(store.db), other(old(store.db))} || fault == CommittedWithError
    {
      key := 0;
      if !readable { return 500, key; }
      if k :| k in store.db.subs && HasToken(store.db, k, token) {
        var row := store.db.subs[k];
        key := k;
        if row.status != Active {
          if apiToken.None? { return 500, key; }
          store.db := other(store.db);
          ghost var mid := store.db;
          var ok := SaveSubscription(k, row.(status := Active, apiToken := apiToken.value), fault);
          EvolvesTransitive(old(store.db), mid, store.db);
          if !ok { return 500, key; }
        }
        return 200, key;
      }
      return 404, key;
    }

    /** Unsubscribe with two well-formed tokens. */
    method Unsubscribe(token: Token, apiToken: Token, readable: bool, other: Tables -> Tables, fault: DbFault)
      returns (status: nat, ghost key: nat)
      requires Sound(store.db) && Rely(other)
      modifies store
      ensures Sound(store.db) && Evolves(old(store.db), store.db)
      ensures status in {200, 404, 500}
      ensures !readable ==> status == 500
      ensures status == 404 || !readable ==> store.db == old(store.db)
      ensures readable ==>
                (status == 404 <==>
                   forall k :: k in old(store.db).subs && old(store.db).subs[k].confirmToken == token ==>
                     old(store.db).subs[k].deleted || old(store.db).subs[k].apiToken != apiToken)
      ensures status == 200 ==>
                && key in old(store.db).subs && !old(store.db).subs[key].deleted
                && old(store.db).subs[key].confirmToken == token && old(store.db).subs[key].apiToken == apiToken
                && key in store.db.subs && !store.db.subs[key].deleted && store.db.subs[key].confirmToken == token
                && store.db.subs[key].status == Unsubscribed
      ensures status == 200 ==>
                var row := old(store.db).subs[key];
                if row.status == Unsubscribed then store.db == old(store.db)
                else Save(other(old(store.db)), key, row.(status := Unsubscribed)) == Some(store.db)
      ensures status == 500 && readable ==> store.db == other(old(store.db)) || fault == CommittedWithError
    {
      key := 0;
      if !readable { return 500, key; }
      if k :| k in store.db.subs && HasToken(store.db, k, token) && store.db.subs[k].apiToken == apiToken {
        var row := store.db.subs[k];
        key := k;
        if row.status != Unsubscribed {
          store.db := other(store.db);
          ghost var mid := store.db;
          var ok := SaveSubscription(k, row.(status := Unsubscribed), fault);
          EvolvesTransitive(old(store.db), mid, store.db);
          if !ok { return 500, key; }
        }
        return 200, key;
      }
      return 404, key;
    }
  }
}
