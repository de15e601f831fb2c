/** The subscription, saga and outbox tables, and the transactions the services run on them. */
module SagaStore {
  import opened Domain
  import opened Outbox

  datatype Status = Pending | Active | Unsubscribed

  datatype Subscription = Subscription(email: Email, repo: nat, status: Status,
                                       confirmToken: Token, apiToken: Token, deleted: bool)

  datatype SagaState = AwaitingDelivery | Completed | Compensated

  datatype Saga = Saga(state: SagaState, created: int)

  /** Sagas are keyed by the column of their unique index. */
  datatype Tables = Tables(subs: map<nat, Subscription>, sagas: map<Token, Saga>,
                           outbox: seq<Row>, nextRow: nat)

  const NO_TABLES := Tables(map[], map[], [], 0)

  predicate Awaiting(db: Tables, token: Token) {
    token in db.sagas && db.sagas[token].state == AwaitingDelivery
  }

  predicate LivePending(db: Tables, k: nat) {
    k in db.subs && !db.subs[k].deleted && db.subs[k].status == Pending
  }

  /** The partial unique indexes over live rows: (email, repository) and confirm token. */
  predicate Conflicts(db: Tables, id: nat, row: Subscription) {
    exists k :: k in db.subs && k != id && !db.subs[k].deleted
      && ((db.subs[k].email == row.email && db.subs[k].repo == row.repo)
          || db.subs[k].confirmToken == row.confirmToken)
  }

  /** Save writes every column, and inserts the row again when it has been soft-deleted
      since it was read. It fails on a unique index. */
  function Save(db: Tables, id: nat, row: Subscription): Option<Tables> {
    if Conflicts(db, id, row) then None
    else Some(db.(subs := db.subs[id := row.(deleted := false)]))
  }

  function Append(db: Tables, envs: seq<Envelope>): Tables {
    db.(outbox := Insert(db.outbox, db.nextRow, envs), nextRow := db.nextRow + |envs|)
  }

  /** writeSubscriptionTx: the row, its saga and the outbox event, or nothing. */
  function StartSaga(db: Tables, id: nat, row: Subscription, env: Envelope, now: int): Option<Tables> {
    var saved := Save(db, id, row);
    if saved.None? || row.confirmToken in db.sagas then None
    else Some(Append(saved.value.(sagas := db.sagas[row.confirmToken := Saga(AwaitingDelivery, now)]), [env]))
  }

  function Transition(db: Tables, token: Token, state: SagaState): Tables
    requires token in db.sagas
  {
    db.(sagas := db.sagas[token := db.sagas[token].(state := state)])
  }

  function MarkCompleted(db: Tables, token: Token): Tables {
    if Awaiting(db, token) then Transition(db, token, Completed) else db
  }

  /** Soft-delete the live pending rows that carry the token. */
  function CancelPending(subs: map<nat, Subscription>, token: Token): map<nat, Subscription> {
    map k | k in subs ::
      if !subs[k].deleted && subs[k].confirmToken == token && subs[k].status == Pending
      then subs[k].(deleted := true) else subs[k]
  }

  function Compensate(db: Tables, token: Token): Tables {
    if Awaiting(db, token) then
      Transition(db, token, SagaState.Compensated).(subs := CancelPending(db.subs, token))
    else db
  }

  predicate IsStale(db: Tables, token: Token, now: int, olderThan: nat) {
    Awaiting(db, token) && db.sagas[token].created < now - olderThan
  }

  /** The scanner's unsubscribe of everyone on a moved repository. */
  function UnsubscribeAll(db: Tables, repo: nat): Tables {
    db.(subs := map k | k in db.subs ::
      if !db.subs[k].deleted && db.subs[k].repo == repo
      then db.subs[k].(status := Unsubscribed) else db.subs[k])
  }

  // ---- What every transaction keeps ----

  ghost predicate Unique(subs: map<nat, Subscription>) {
    forall i, j :: i in subs && j in subs && i != j && !subs[i].deleted && !subs[j].deleted ==>
      !(subs[i].email == subs[j].email && subs[i].repo == subs[j].repo)
      && subs[i].confirmToken != subs[j].confirmToken
  }

  /** No stranded pending row: every live pending subscription has a saga with its token,
      and that saga has not been compensated. Rows are queued in commit order, and the
      partial unique indexes hold. */
  ghost predicate Sound(db: Tables) {
    && Ordered(db.outbox, db.nextRow)
    && Unique(db.subs)
    && forall k :: LivePending(db, k) ==>
         var t := db.subs[k].confirmToken;
         t in db.sagas && db.sagas[t].state != SagaState.Compensated
  }

  /** Sagas are never removed, keep their start time, and leave awaiting_delivery once. */
  ghost predicate Evolves(a: Tables, b: Tables) {
    forall t :: t in a.sagas ==>
      && t in b.sagas && b.sagas[t].created == a.sagas[t].created
      && (a.sagas[t].state != AwaitingDelivery ==> b.sagas[t] == a.sagas[t])
  }

  lemma EvolvesTransitive(a: Tables, b: Tables, c: Tables)
    requires Evolves(a, b) && Evolves(b, c)
    ensures Evolves(a, c)
  {
    forall t | t in a.sagas
      ensures t in c.sagas && c.sagas[t].created == a.sagas[t].created
              && (a.sagas[t].state != AwaitingDelivery ==> c.sagas[t] == a.sagas[t])
    {
      assert t in b.sagas;
    }
  }

  /** A save of any row that is not pending is safe, however stale the row was. */
  lemma SaveKeeps(db: Tables, id: nat, row: Subscription)
    requires Sound(db) && Save(db, id, row).Some? && row.status != Pending
    ensures Sound(Save(db, id, row).value) && Evolves(db, Save(db, id, row).value)
  {
    var db' := Save(db, id, row).value;
    forall k | LivePending(db', k)
      ensures var t := db'.subs[k].confirmToken; t in db'.sagas && db'.sagas[t].state != SagaState.Compensated
    {
      assert LivePending(db, k);
    }
  }

  lemma StartSagaKeeps(db: Tables, id: nat, row: Subscription, env: Envelope, now: int)
    requires Sound(db) && StartSaga(db, id, row, env, now).Some?
    ensures var db' := StartSaga(db, id, row, env, now).value;
            && Sound(db') && Evolves(db, db') && Awaiting(db', row.confirmToken)
            && db'.outbox == db.outbox + [Row(db.nextRow, env)]
            && db'.subs == db.subs[id := row.(deleted := false)]
  {
    var db' := StartSaga(db, id, row, env, now).value;
    assert Ordered(db'.outbox, db'.nextRow);
    assert db'.outbox == db.outbox + [Row(db.nextRow, env)] by {
      assert db'.outbox == db'.outbox[..|db.outbox|] + [db'.outbox[|db.outbox|]];
    }
    forall k | LivePending(db', k)
      ensures var t := db'.subs[k].confirmToken; t in db'.sagas && db'.sagas[t].state != SagaState.Compensated
    {
      if k != id {
        assert LivePending(db, k);
      }
    }
  }

  lemma CompletedKeeps(db: Tables, token: Token)
    requires Sound(db)
    ensures Sound(MarkCompleted(db, token)) && Evolves(db, MarkCompleted(db, token))
  {
    forall k | LivePending(MarkCompleted(db, token), k) ensures LivePending(db, k) {}
  }

  lemma CompensateKeeps(db: Tables, token: Token)
    requires Sound(db)
    ensures Sound(Compensate(db, token)) && Evolves(db, Compensate(db, token))
    ensures Awaiting(db, token) ==> forall k :: LivePending(Compensate(db, token), k) ==>
              Compensate(db, token).subs[k].confirmToken != token
  {
    forall k | LivePending(Compensate(db, token), k) ensures LivePending(db, k) {}
  }

  /** Compensate deletes exactly the live pending rows with the token of an open saga, and
      changes no other row. */
  lemma CompensateCancelsExactly(db: Tables, token: Token, k: nat)
    requires k in db.subs
    ensures var row := Compensate(db, token).subs[k];
            if Awaiting(db, token) && LivePending(db, k) && db.subs[k].confirmToken == token
            then row == db.subs[k].(deleted := true) else row == db.subs[k]
    ensures Compensate(db, token).subs.Keys == db.subs.Keys
    ensures Compensate(db, token).outbox == db.outbox && Compensate(db, token).nextRow == db.nextRow
    ensures Compensate(db, token).sagas == if Awaiting(db, token)
                                           then db.sagas[token := Saga(SagaState.Compensated, db.sagas[token].created)]
                                           else db.sagas
  {
  }

  predicate PendingWith(db: Tables, k: nat, token: Token) {
    LivePending(db, k) && db.subs[k].confirmToken == token
  }

  /** So a live pending row carries the token after a Compensate exactly if it did before and
      the saga was no longer open: a settled saga's row is left alone. */
  lemma PendingAfterCompensateExactly(db: Tables, token: Token, k: nat)
    ensures PendingWith(Compensate(db, token), k, token) <==> PendingWith(db, k, token) && !Awaiting(db, token)
  {
  }

  /** A save is refused exactly when the unique indexes could not hold afterwards. */
  lemma SaveRefusedExactly(db: Tables, id: nat, row: Subscription)
    requires Unique(db.subs)
    ensures Save(db, id, row).None? <==> !Unique(db.subs[id := row.(deleted := false)])
  {
    var subs := db.subs[id := row.(deleted := false)];
    if Conflicts(db, id, row) {
      var k :| k in db.subs && k != id && !db.subs[k].deleted
        && ((db.subs[k].email == row.email && db.subs[k].repo == row.repo)
            || db.subs[k].confirmToken == row.confirmToken);
      assert subs[k] == db.subs[k] && subs[id] == row.(deleted := false);
    }
  }

  /** Completing an open saga changes its state and nothing else; any other saga's token changes
      nothing at all. */
  lemma CompletedExactly(db: Tables, token: Token)
    ensures var v := MarkCompleted(db, token);
            && v.subs == db.subs && v.outbox == db.outbox && v.nextRow == db.nextRow
            && v.sagas == if token in db.sagas && db.sagas[token].state == AwaitingDelivery
                          then db.sagas[token := Saga(Completed, db.sagas[token].created)] else db.sagas
  {
  }

  /** Moving everybody off a repository: each live row of it becomes unsubscribed and keeps its
      other columns, and nothing else changes. */
  lemma UnsubscribeAllExactly(db: Tables, repo: nat, k: nat)
    requires k in db.subs
    ensures var v, row := UnsubscribeAll(db, repo), db.subs[k];
            && v.subs.Keys == db.subs.Keys && v == db.(subs := v.subs)
            && v.subs[k] == if row.repo == repo && !row.deleted
                            then Subscription(row.email, row.repo, Unsubscribed, row.confirmToken, row.apiToken, false)
                            else row
  {
  }

  lemma UnsubscribeAllKeeps(db: Tables, repo: nat)
    requires Sound(db)
    ensures Sound(UnsubscribeAll(db, repo)) && Evolves(db, UnsubscribeAll(db, repo))
  {
    forall k | LivePending(UnsubscribeAll(db, repo), k) ensures LivePending(db, k) {}
  }

  // ---- The stores ----

  /** A transaction commits, rolls back with an error, or commits although the caller
      sees an error. */
  datatype DbFault = NoFault | RolledBack | CommittedWithError {
    predicate Commits() { this != RolledBack }
  }

  datatype StoreError = NoError | AlreadySettled | NotFound | DbError

  /** What other sessions may do to the tables between two statements of one handler. */
  ghost predicate Rely(other: Tables -> Tables) {
    forall db :: Evolves(db, other(db)) && (Sound(db) ==> Sound(other(db)))
  }

  class Store {
    var db: Tables

    constructor ()
      ensures db == NO_TABLES
    {
      db := NO_TABLES;
    }

    method SagaStateOf(token: Token, reachable: bool) returns (err: StoreError, state: SagaState)
      ensures err == if !reachable then DbError else if token !in db.sagas then NotFound else NoError
      ensures err == NoError ==> state == db.sagas[token].state
    {
      if !reachable { return DbError, AwaitingDelivery; }
      if token !in db.sagas { return NotFound, AwaitingDelivery; }
      return NoError, db.sagas[token].state;
    }

    method Complete(token: Token, fault: DbFault) returns (err: StoreError)
      modifies this
      ensures db == if fault.Commits() then MarkCompleted(old(db), token) else old(db)
      ensures err == if fault != NoFault then DbError
                     else if Awaiting(old(db), token) then NoError else AlreadySettled
    {
      var affected := 0;
      var sagas := db.sagas;
      if token in sagas && sagas[token].state == AwaitingDelivery {
        sagas := sagas[token := sagas[token].(state := Completed)];
        affected := 1;
      }
      if fault.Commits() { db := db.(sagas := sagas); }
      if fault != NoFault { return DbError; }
      err := if affected == 0 then AlreadySettled else NoError;
    }

    method Cancel(token: Token, fault: DbFault) returns (err: StoreError)
      modifies this
      ensures db == if fault.Commits() then Compensate(old(db), token) else old(db)
      ensures err == if fault != NoFault then DbError
                     else if Awaiting(old(db), token) then NoError else AlreadySettled
    {
      var tx := db;
      if token !in tx.sagas || tx.sagas[token].state != AwaitingDelivery {
        return if fault == NoFault then AlreadySettled else DbError;
      }
      tx := tx.(sagas := tx.sagas[token := tx.sagas[token].(state := SagaState.Compensated)]);
      tx := tx.(subs := CancelPending(tx.subs, token));
      if fault.Commits() { db := tx; }
      err := if fault == NoFault then NoError else DbError;
    }

    method StaleAwaitingTokens(now: int, olderThan: nat, reachable: bool)
      returns (err: StoreError, tokens: seq<Token>)
      ensures err == if reachable then NoError else DbError
      ensures forall t :: t in tokens <==> reachable && IsStale(db, t, now, olderThan)
      ensures forall t :: t in tokens <==>
                && reachable && t in db.sagas && db.sagas[t].state == AwaitingDelivery
                && db.sagas[t].created < now - olderThan
      ensures forall i, j :: 0 <= i < j < |tokens| ==> tokens[i] != tokens[j]
    {
      tokens := [];
      if !reachable { return DbError, tokens; }
      err := NoError;
      var left := db.sagas.Keys;
      while left != {}
        invariant left <= db.sagas.Keys
        invariant forall t :: t in tokens <==> IsStale(db, t, now, olderThan) && t !in left
        invariant forall i, j :: 0 <= i < j < |tokens| ==> tokens[i] != tokens[j]
        decreases left
      {
        var t :| t in left;
        if db.sagas[t].state == AwaitingDelivery && db.sagas[t].created < now - olderThan {
          tokens := tokens + [t];
        }
        left := left - {t};
      }
    }
  }
}
