/** What every step of the onboarding machine keeps. */
module OnboardingInvariant {
  import opened Domain
  import opened Outbox
  import opened Broker
  import opened SagaStore
  import opened Onboarding
  import Handlers
  import Notifier
  import Mailer
  import Orchestrator

  // ---- Local facts: rows and copies say only what really happened ----

  ghost predicate EventOk(w: World, env: Envelope) {
    && env.id in w.issued && w.issued[env.id] == env.payload
    && (env.payload.SubscriptionCreated? ==>
          env.payload.token in w.commits && w.commits[env.payload.token] == Commit(env.payload.email, env.id))
  }

  predicate Notifiable(p: Payload) {
    p.ReleaseDetected? || p.RepositoryMoved? || p.SubscriptionCreated?
  }

  ghost predicate Mailed(w: World, token: Token) {
    token in w.commits && Mailer.VerificationMail(w.commits[token].email, token) in w.mails
  }

  /** A command is what the notifier made of a committed event; a mailer about to report
      `delivered` has had the mail accepted. */
  ghost predicate CommandOk(w: World, cmd: DeliveryMessage, place: Place) {
    && cmd.event != OtherEmail
    && (Mailer.IsVerification(cmd) ==>
          var t := Mailer.VerificationToken(cmd);
          && t in w.commits && cmd == Verification(w.commits[t].email, t)
          && (place.Held? && place.step.Reporting? ==>
                if place.step.delivered then Mailed(w, t) else t in w.failed))
    && (place.Held? && place.step.Reporting? ==> Mailer.IsVerification(cmd))
  }

  function Verification(email: Email, token: Token): DeliveryMessage {
    DeliveryMessage(EmailVerification, email, "", "", map["token" := token])
  }

  ghost predicate ResultOk(w: World, p: Payload) {
    match p
    case VerificationDelivered(t) => Mailed(w, t)
    case VerificationFailed(t, _) => t in w.commits && t in w.failed
    case _ => false
  }

  /** Tier i holds messages on their attempt i + 1, only declared tiers are used, and a message
      is dead-lettered for nothing but exhausted retries. */
  ghost predicate TierOk(tiers: TierCount, c: Copy) {
    && 0 <= Attempts(c.headers) <= tiers
    && (c.place.Tier? ==> c.place.tier < tiers && Attempts(c.headers) == c.place.tier + 1)
    && (c.place == DeadLetters ==> Attempts(c.headers) == tiers)
    && c.place != Held(Settling(DeadLetter))
    && (c.recalled ==> c.place.Held?)
  }

  ghost predicate CopyOk(w: World, c: Copy) {
    && TierOk(w.tiers, c)
    && match c.queue
       case Notifications => c.body.Event? && EventOk(w, c.body.env) && Notifiable(c.body.env.payload)
       case EmailDelivery => c.body.Command? && CommandOk(w, c.body.cmd, c.place)
       case OnboardingSaga => c.body.Event? && ResultOk(w, c.body.env.payload)
  }

  ghost predicate CopiesOk(w: World) {
    forall id :: id in w.queues ==> CopyOk(w, w.queues[id])
  }

  ghost predicate RowsOk(w: World) {
    forall r :: r in w.db.outbox ==> EventOk(w, r.env) && Notifiable(r.env.payload)
  }

  ghost predicate RelayOk(w: World) {
    w.relaying.Some? ==>
      && EventOk(w, w.relaying.value.env) && Notifiable(w.relaying.value.env.payload)
      && w.relaying.value.id < w.db.nextRow
      && forall r :: r in w.db.outbox && r.id == w.relaying.value.id ==> r == w.relaying.value
  }

  ghost predicate CommitOk(w: World, t: Token)
    requires t in w.commits
  {
    w.commits[t].event in w.issued && w.issued[w.commits[t].event] == SubscriptionCreated(w.commits[t].email, t)
  }

  ghost predicate RegistryOk(w: World) {
    && w.db.sagas.Keys == w.commits.Keys
    && (forall t :: t in w.commits ==> CommitOk(w, t))
    && (forall e :: e in w.keys ==> e in w.issued)
  }

  /** A saga is completed only if its mail was accepted, and compensated only if every send
      failed or it had outlived StaleAfter. */
  ghost predicate SagasOk(w: World) {
    && (forall t :: t in w.db.sagas && w.db.sagas[t].state == Completed ==> Mailed(w, t))
    && (forall t :: t in w.db.sagas && w.db.sagas[t].state == SagaState.Compensated ==> t in w.failed || t in w.reaped)
    && (forall t :: t in w.sweep || t in w.reaped ==> t in w.db.sagas && w.db.sagas[t].created + w.staleAfter < w.clock)
  }

  // ---- Accounting: an open saga's token is on its way somewhere ----

  /** A message carries its token unless it is handed on, a recalled handler as long as it still
      owes the event's command or a retry. */
  predicate Carries(q: Copies, id: nat, t: Token) {
    && id in q && TokenOf(q[id].body) == Some(t)
    && (if q[id].recalled then OwesEvent(q[id]) else !HandedOn(q[id].place))
  }

  /** A carrier whose way on does not pass the notifier's duplicate check again. */
  predicate CarriesOn(q: Copies, id: nat, t: Token) {
    Carries(q, id, t) && (q[id].queue != Notifications || OwesCommand(q[id]))
  }

  ghost predicate InQueues(q: Copies, t: Token) {
    exists id :: Carries(q, id, t)
  }

  ghost predicate PastNotifier(q: Copies, t: Token) {
    exists id :: CarriesOn(q, id, t)
  }

  ghost predicate InOutbox(rows: seq<Row>, t: Token) {
    exists r :: r in rows && PayloadToken(r.env.payload) == Some(t)
  }

  ghost predicate Open(w: World, t: Token) {
    Awaiting(w.db, t) && t !in w.lost
  }

  ghost predicate Accounted(w: World, t: Token) {
    t in w.commits && Open(w, t) ==>
      && (InOutbox(w.db.outbox, t) || InQueues(w.queues, t))
      && (w.commits[t].event in w.keys ==> PastNotifier(w.queues, t))
      && (w.relaying.Some? && PayloadToken(w.relaying.value.env.payload) == Some(t) ==> InQueues(w.queues, t))
  }

  ghost predicate AllAccounted(w: World) {
    forall t :: t in w.commits ==> Accounted(w, t)
  }

  ghost predicate Inv(w: World) {
    Facts(w) && CopiesOk(w) && AllAccounted(w)
  }

  /** The part of the invariant that is not about the queues. */
  ghost predicate Facts(w: World) {
    Sound(w.db) && RowsOk(w) && RelayOk(w) && RegistryOk(w) && SagasOk(w)
  }

  // ---- Frames ----

  /** History only grows. */
  ghost predicate Grows(w: World, v: World) {
    && v.tiers == w.tiers && v.staleAfter == w.staleAfter && w.clock <= v.clock
    && (forall e :: e in w.issued ==> e in v.issued && v.issued[e] == w.issued[e])
    && (forall t :: t in w.commits ==> t in v.commits && v.commits[t] == w.commits[t])
    && w.mails <= v.mails && w.failed <= v.failed && w.reaped <= v.reaped
  }

  lemma CopyOkGrows(w: World, v: World, c: Copy)
    requires Grows(w, v) && CopyOk(w, c)
    ensures CopyOk(v, c)
  {
  }

  /** All copies but `id` and the new `nid` are as they were. */
  ghost predicate OnlyTouches(q: Copies, p: Copies, id: nat, nid: nat) {
    && (forall k :: k in q && k != id ==> k in p && p[k] == q[k])
    && (forall k :: k in p && k != id && k != nid ==> k in q)
  }

  lemma CopiesStayOk(w: World, v: World, id: nat, nid: nat)
    requires CopiesOk(w) && Grows(w, v) && OnlyTouches(w.queues, v.queues, id, nid)
    requires id in v.queues ==> CopyOk(v, v.queues[id])
    requires nid in v.queues ==> CopyOk(v, v.queues[nid])
    ensures CopiesOk(v)
  {
    hide CopyOk, Grows;
    forall k | k in v.queues ensures CopyOk(v, v.queues[k]) {
      if k != id && k != nid { CopyOkGrows(w, v, w.queues[k]); }
    }
  }

  lemma SameCopiesStayOk(w: World, v: World)
    requires CopiesOk(w) && Grows(w, v) && v.queues == w.queues
    ensures CopiesOk(v)
  {
    hide CopyOk, Grows;
    forall k | k in v.queues ensures CopyOk(v, v.queues[k]) { CopyOkGrows(w, v, w.queues[k]); }
  }

  /** A step that leaves the tables, the relay and the commits alone. */
  lemma FactsStay(w: World, v: World)
    requires Facts(w) && Grows(w, v)
    requires v.db == w.db && v.relaying == w.relaying && v.commits == w.commits
    requires v.sweep == w.sweep && v.reaped == w.reaped && forall e :: e in v.keys ==> e in v.issued
    ensures Facts(v)
  {
    hide Sound;
    RowsStayOk(w, v);
  }

  lemma KeysIssued(w: World)
    requires Facts(w)
    ensures forall e :: e in w.keys ==> e in w.issued
  {
  }

  /** A step that changes subscriptions and saga states only. */
  lemma RowFactsStay(w: World, v: World)
    requires RowsOk(w) && RelayOk(w) && RegistryOk(w) && Grows(w, v)
    requires v.db.outbox == w.db.outbox && v.db.nextRow == w.db.nextRow && v.db.sagas.Keys == w.db.sagas.Keys
    requires v.relaying == w.relaying && v.commits == w.commits && v.keys == w.keys
    ensures RowsOk(v) && RelayOk(v) && RegistryOk(v)
  {
    RowsStayOk(w, v);
  }

  lemma RowsStayOk(w: World, v: World)
    requires RowsOk(w) && Grows(w, v) && forall r :: r in v.db.outbox ==> r in w.db.outbox
    ensures RowsOk(v)
  {
  }

  /** A step that touches one delivery, removes no row and opens no saga. */
  lemma AccountedAcross(w: World, v: World, id: nat, nid: nat)
    requires AllAccounted(w) && v.commits == w.commits
    requires forall t :: Open(v, t) ==> Open(w, t)
    requires forall r :: r in w.db.outbox ==> r in v.db.outbox
    requires v.relaying == w.relaying || v.relaying == None
    requires OnlyTouches(w.queues, v.queues, id, nid)
    requires forall t :: t in w.commits && Open(v, t) && Carries(w.queues, id, t) ==> InQueues(v.queues, t)
    requires forall t ::
               (t in w.commits && Open(v, t) && w.commits[t].event in v.keys &&
                (CarriesOn(w.queues, id, t) || w.commits[t].event !in w.keys)) ==> PastNotifier(v.queues, t)
    ensures AllAccounted(v)
  {
    hide InQueues, PastNotifier, InOutbox, Carries, CarriesOn, OnlyTouches, Open;
    forall t | t in v.commits && Open(v, t) ensures Accounted(v, t) {
      assert Accounted(w, t) && Open(w, t);
      OthersCarry(w.queues, v.queues, id, nid, t);
      RowsCarry(w.db.outbox, v.db.outbox, t);
    }
  }

  lemma RowsCarry(rows: seq<Row>, more: seq<Row>, t: Token)
    requires forall r :: r in rows ==> r in more
    ensures InOutbox(rows, t) ==> InOutbox(more, t)
  {
  }

  lemma OthersCarry(q: Copies, p: Copies, id: nat, nid: nat, t: Token)
    requires OnlyTouches(q, p, id, nid)
    ensures InQueues(q, t) ==> InQueues(p, t) || Carries(q, id, t)
    ensures PastNotifier(q, t) ==> PastNotifier(p, t) || CarriesOn(q, id, t)
  {
    if InQueues(q, t) {
      var k :| Carries(q, k, t);
      assert k != id ==> Carries(p, k, t);
    }
    if PastNotifier(q, t) {
      var k :| CarriesOn(q, k, t);
      assert k != id ==> CarriesOn(p, k, t);
    }
  }

  // ---- The broker's steps ----

  lemma MovedCarries(q: Copies, id: nat, place: Place, t: Token)
    requires id in q && !q[id].recalled
    ensures Carries(q, id, t) && !HandedOn(place) ==> InQueues(MoveTo(q, id, place), t)
    ensures CarriesOn(q, id, t) && !HandedOn(place) && q[id].queue != Notifications
            ==> PastNotifier(MoveTo(q, id, place), t)
  {
    var p := MoveTo(q, id, place);
    assert Carries(q, id, t) && !HandedOn(place) ==> Carries(p, id, t);
    assert CarriesOn(q, id, t) && !HandedOn(place) && q[id].queue != Notifications ==> CarriesOn(p, id, t);
  }

  /** Moving one delivery to a place that is not "ack pending", when it does not stop
      holding a mark whose key is still there. */
  lemma MoveKeeps(w: World, v: World, id: nat, place: Place)
    requires Inv(w) && id in w.queues && !w.queues[id].recalled && place != Held(Settling(Ack))
    requires !place.Tier? && !(place.Held? && place.step.Reporting?)
    requires place != DeadLetters && place != Held(Settling(DeadLetter))
    requires v == w.(queues := MoveTo(w.queues, id, place), lost := v.lost)
    requires forall t :: t in w.lost ==> t in v.lost
    requires OwesCommand(w.queues[id]) && w.queues[id].body.env.id in w.keys && TokenOf(w.queues[id].body).Some? ==>
               TokenOf(w.queues[id].body).value in v.lost
    ensures Inv(v)
  {
    var c := w.queues[id];
    assert CopyOk(w, c);
    assert CopyOk(v, c.(place := place));
    CopiesStayOk(w, v, id, id);
    forall t | t in w.commits && Open(v, t) && Carries(w.queues, id, t) ensures InQueues(v.queues, t) {
      MovedCarries(w.queues, id, place, t);
    }
    forall t | t in w.commits && Open(v, t) && w.commits[t].event in v.keys && CarriesOn(w.queues, id, t)
      ensures PastNotifier(v.queues, t)
    {
      MovedCarries(w.queues, id, place, t);
    }
    AccountedAcross(w, v, id, id);
  }

  lemma RepublishedOk(w: World, c: Copy, how: Settlement, reason: string)
    requires how != Ack
    requires CopyOk(w, c) && c.place.Held? && Settles(c.place.step) == Some(how)
    ensures Republished(c, w.tiers, how, reason).Some? && CopyOk(w, Republished(c, w.tiers, how, reason).value)
  {
  }

  lemma RelocatedOk(w: World, c: Copy, place: Place)
    requires CopyOk(w, c) && (c.recalled ==> place.Held?) && !place.Tier? && !(place.Held? && place.step.Reporting?)
    requires place != DeadLetters && place != Held(Settling(DeadLetter))
    ensures CopyOk(w, c.(place := place))
  {
  }

  /** What settling leaves of the delivery, and what it adds. */
  ghost predicate SettledFrom(w: World, v: World, id: nat, nid: nat, how: Settlement, reason: string)
    requires id in w.queues
  {
    && v == w.(queues := v.queues, lost := v.lost) && OnlyTouches(w.queues, v.queues, id, nid)
    && (id in v.queues ==>
          && !w.queues[id].recalled && v.queues[id] == w.queues[id].(place := v.queues[id].place)
          && v.queues[id].place in {Main, Held(Stuck), Held(Settling(Ack))})
    && (nid in v.queues ==> how != Ack && Republished(w.queues[id], w.tiers, how, reason) == Some(v.queues[nid]))
  }

  lemma SettleShape(w: World, id: nat, nid: nat, reason: string, f: Faults)
    requires id in w.queues && nid !in w.queues && w.queues[id].place.Held? && Settles(w.queues[id].place.step).Some?
    ensures SettledFrom(w, NextQueue(w, SettleDelivery(id, nid, reason, f)), id, nid,
                        Settles(w.queues[id].place.step).value, reason)
  {
    hide Republished, Abandon;
  }

  lemma SettleCopies(w: World, id: nat, nid: nat, reason: string, f: Faults)
    requires CopiesOk(w)
    ensures CopiesOk(NextQueue(w, SettleDelivery(id, nid, reason, f)))
  {
    if id in w.queues && nid !in w.queues && w.queues[id].place.Held? && Settles(w.queues[id].place.step).Some? {
      hide NextQueue, CopyOk, Republished;
      var v := NextQueue(w, SettleDelivery(id, nid, reason, f));
      var c, how := w.queues[id], Settles(w.queues[id].place.step).value;
      SettleShape(w, id, nid, reason, f);
      SettledCopiesOk(w, v, id, nid, how, reason);
    }
  }

  lemma SettledCopiesOk(w: World, v: World, id: nat, nid: nat, how: Settlement, reason: string)
    requires CopiesOk(w) && id in w.queues && SettledFrom(w, v, id, nid, how, reason)
    requires w.queues[id].place.Held? && Settles(w.queues[id].place.step) == Some(how)
    ensures CopiesOk(v)
  {
    hide CopyOk, Republished;
    var c := w.queues[id];
    assert CopyOk(w, c) && Grows(w, v);
    if nid in v.queues {
      RepublishedOk(w, c, how, reason);
      CopyOkGrows(w, v, v.queues[nid]);
    }
    if id in v.queues {
      RelocatedOk(w, c, v.queues[id].place);
      CopyOkGrows(w, v, v.queues[id]);
    }
    CopiesStayOk(w, v, id, nid);
  }

  lemma SettleAccounts(w: World, id: nat, nid: nat, reason: string, f: Faults)
    requires AllAccounted(w)
    requires id in w.queues ==> TierOk(w.tiers, w.queues[id]) && !w.queues[id].recalled
    ensures AllAccounted(NextQueue(w, SettleDelivery(id, nid, reason, f)))
  {
    var v := NextQueue(w, SettleDelivery(id, nid, reason, f));
    if v == w { return; }
    if Settles(w.queues[id].place.step) != Some(Ack) {
      forall t | Carries(w.queues, id, t) ensures InQueues(v.queues, t) {
        assert Carries(v.queues, id, t) || Carries(v.queues, nid, t);
      }
      forall t | CarriesOn(w.queues, id, t) ensures PastNotifier(v.queues, t) {
        assert CarriesOn(v.queues, id, t) || CarriesOn(v.queues, nid, t);
      }
    }
    AccountedAcross(w, v, id, nid);
  }

  /** Whoever has the redelivery carries the token. */
  lemma RedeliveredCarries(q: Copies, p: Copies, id: nat, nid: nat, t: Token)
    requires id in q && q[id].recalled && Carries(q, id, t) && Redelivered(q, id) && OnlyTouches(q, p, id, nid)
    ensures InQueues(p, t)
  {
    var k :| k in q && !q[k].recalled && q[k].queue == q[id].queue && q[k].body == q[id].body && !HandedOn(q[k].place);
    assert k != id && Carries(p, k, t);
  }

  lemma RecalledSettleAccounts(w: World, id: nat, nid: nat, reason: string, f: Faults)
    requires AllAccounted(w)
    requires id in w.queues ==> TierOk(w.tiers, w.queues[id]) && w.queues[id].recalled
    ensures AllAccounted(NextQueue(w, SettleDelivery(id, nid, reason, f)))
  {
    hide Redelivered;
    var v := NextQueue(w, SettleDelivery(id, nid, reason, f));
    if v == w { return; }
    forall t | Open(v, t) && Carries(w.queues, id, t) ensures InQueues(v.queues, t) {
      if nid in v.queues {
        assert Carries(v.queues, nid, t);
      } else {
        RedeliveredCarries(w.queues, v.queues, id, nid, t);
      }
    }
    AccountedAcross(w, v, id, nid);
  }

  lemma SettleKeeps(w: World, id: nat, nid: nat, reason: string, f: Faults)
    requires Inv(w)
    ensures Inv(NextQueue(w, SettleDelivery(id, nid, reason, f)))
  {
    hide AllAccounted, CopyOk, Abandon;
    var v := NextQueue(w, SettleDelivery(id, nid, reason, f));
    if id in w.queues { TiersHold(w, id); }
    SettleCopies(w, id, nid, reason, f);
    if id in w.queues && w.queues[id].recalled {
      RecalledSettleAccounts(w, id, nid, reason, f);
    } else {
      SettleAccounts(w, id, nid, reason, f);
    }
    FactsStay(w, v);
  }

  lemma RecallCopies(w: World, id: nat, nid: nat)
    requires CopiesOk(w)
    ensures CopiesOk(NextQueue(w, Recall(id, nid)))
  {
    var v := NextQueue(w, Recall(id, nid));
    if v == w { return; }
    assert CopyOk(w, w.queues[id]);
    assert CopyOk(w, v.queues[id]) && CopyOk(w, v.queues[nid]);
    CopiesStayOk(w, v, id, nid);
  }

  lemma RecallAccounts(w: World, id: nat, nid: nat)
    requires AllAccounted(w)
    ensures AllAccounted(NextQueue(w, Recall(id, nid)))
  {
    var v := NextQueue(w, Recall(id, nid));
    if v == w { return; }
    forall t | Carries(w.queues, id, t) ensures InQueues(v.queues, t) {
      assert Carries(v.queues, nid, t);
    }
    forall t | CarriesOn(w.queues, id, t) ensures PastNotifier(v.queues, t) {
      assert CarriesOn(v.queues, id, t) || CarriesOn(v.queues, nid, t);
    }
    AccountedAcross(w, v, id, nid);
  }

  lemma RecallKeeps(w: World, id: nat, nid: nat)
    requires Inv(w)
    ensures Inv(NextQueue(w, Recall(id, nid)))
  {
    hide Facts, AllAccounted, CopiesOk;
    KeysIssued(w);
    RecallCopies(w, id, nid);
    RecallAccounts(w, id, nid);
    FactsStay(w, NextQueue(w, Recall(id, nid)));
  }

  /** A recalled handler crashes. */
  lemma HandleDropKeeps(w: World, id: nat)
    requires Inv(w) && id in w.queues && w.queues[id].recalled
    ensures Inv(NextQueue(w, Drop(id)))
  {
    hide Facts, AllAccounted, Redelivered;
    KeysIssued(w);
    var v := NextQueue(w, Drop(id));
    if v == w { return; }
    CopyAt(w, id);
    CopiesStayOk(w, v, id, id);
    DroppedAccounts(w, id);
    FactsStay(w, v);
  }

  lemma DroppedAccounts(w: World, id: nat)
    requires AllAccounted(w) && RegistryOk(w)
    requires id in w.queues && w.queues[id].recalled && CopyOk(w, w.queues[id])
    ensures AllAccounted(NextQueue(w, Drop(id)))
  {
    hide Redelivered;
    var v := NextQueue(w, Drop(id));
    if v == w { return; }
    forall t | t in w.commits && Open(v, t) && Carries(w.queues, id, t) ensures InQueues(v.queues, t) {
      RedeliveredCarries(w.queues, v.queues, id, id, t);
    }
    AccountedAcross(w, v, id, id);
  }

  lemma TiersHold(w: World, id: nat)
    requires CopiesOk(w) && id in w.queues
    ensures TierOk(w.tiers, w.queues[id])
  {
    assert CopyOk(w, w.queues[id]);
  }

  lemma QueueKeeps(w: World, q: QueueAction)
    requires Inv(w)
    ensures Inv(NextQueue(w, q))
  {
    var v := NextQueue(w, q);
    if v == w { return; }
    match q
    case Dispatch(id) => TiersHold(w, id); MoveKeeps(w, v, id, v.queues[id].place);
    case Expire(id) => TiersHold(w, id); MoveKeeps(w, v, id, Main);
    case Recall(id, nid) => RecallKeeps(w, id, nid);
    case Drop(id) => if w.queues[id].recalled { HandleDropKeeps(w, id); } else { MoveKeeps(w, v, id, Main); }
    case SettleDelivery(id, nid, reason, f) => SettleKeeps(w, id, nid, reason, f);
    case KeyExpires(_) =>
      forall t | Carries(w.queues, 0, t) ensures InQueues(v.queues, t) { assert Carries(v.queues, 0, t); }
      forall t | CarriesOn(w.queues, 0, t) ensures PastNotifier(v.queues, t) { assert CarriesOn(v.queues, 0, t); }
      SameCopiesStayOk(w, v);
      AccountedAcross(w, v, 0, 0);
  }

  // ---- The notifier's steps ----

  lemma MarkCopies(w: World, id: nat, call: Call)
    requires CopiesOk(w)
    ensures CopiesOk(NextNotify(w, Mark(id, call)))
  {
    var v := NextNotify(w, Mark(id, call));
    if v == w { return; }
    assert CopyOk(w, w.queues[id]);
    assert CopyOk(w, v.queues[id]);
    CopiesStayOk(w, v, id, id);
  }

  lemma MarkAccounts(w: World, id: nat, call: Call)
    requires AllAccounted(w) && RegistryOk(w)
    requires id in w.queues ==> CopyOk(w, w.queues[id])
    ensures AllAccounted(NextNotify(w, Mark(id, call)))
  {
    hide InOutbox, TierOk;
    var v := NextNotify(w, Mark(id, call));
    if v == w { return; }
    forall t | t in w.commits && Open(v, t) && Carries(w.queues, id, t) ensures InQueues(v.queues, t) {
      if v.queues[id].place == Held(Settling(Ack)) {
        SkippedIsCarriedOn(w, v, id, t);
      } else {
        assert Carries(v.queues, id, t);
      }
    }
    MarkedCarriesOn(w, id, call);
    AccountedAcross(w, v, id, id);
  }

  lemma MarkedCarriesOn(w: World, id: nat, call: Call)
    requires RegistryOk(w) && (id in w.queues ==> CopyOk(w, w.queues[id]))
    ensures var v := NextNotify(w, Mark(id, call));
            forall t :: t in w.commits && Open(v, t) && w.commits[t].event in v.keys && w.commits[t].event !in w.keys
                        ==> PastNotifier(v.queues, t)
  {
    var v := NextNotify(w, Mark(id, call));
    forall t | t in w.commits && Open(v, t) && w.commits[t].event in v.keys && w.commits[t].event !in w.keys
      ensures PastNotifier(v.queues, t)
    {
      assert CommitOk(w, t);
      assert CarriesOn(v.queues, id, t);
    }
  }

  /** A duplicate may be skipped because the copy that holds the mark, or what came of it,
      still carries the token. */
  lemma SkippedIsCarriedOn(w: World, v: World, id: nat, t: Token)
    requires t in w.commits && Open(w, t) && Accounted(w, t) && w.commits[t].event in w.keys
    requires OnlyTouches(w.queues, v.queues, id, id) && !CarriesOn(w.queues, id, t)
    ensures InQueues(v.queues, t)
  {
    OthersCarry(w.queues, v.queues, id, id, t);
    var k :| CarriesOn(v.queues, k, t);
    assert Carries(v.queues, k, t);
  }

  lemma MarkFacts(w: World, id: nat, call: Call)
    requires Facts(w) && (id in w.queues ==> CopyOk(w, w.queues[id]))
    ensures Facts(NextNotify(w, Mark(id, call)))
  {
    hide Facts, TierOk;
    KeysIssued(w);
    FactsStay(w, NextNotify(w, Mark(id, call)));
  }

  lemma CopyAt(w: World, id: nat)
    requires Inv(w)
    ensures RegistryOk(w) && (id in w.queues ==> CopyOk(w, w.queues[id]))
  {
    hide CopyOk, AllAccounted, RegistryOk, RelayOk, SagasOk, RowsOk, Sound;
  }

  lemma MarkKeeps(w: World, id: nat, call: Call)
    requires Inv(w)
    ensures Inv(NextNotify(w, Mark(id, call)))
  {
    hide Facts, AllAccounted, CopyOk, CopiesOk, RegistryOk, NextNotify;
    CopyAt(w, id);
    MarkCopies(w, id, call);
    MarkAccounts(w, id, call);
    MarkFacts(w, id, call);
  }

  lemma SendingCopiesOk(w: World, id: nat, nid: nat, call: Call)
    requires id in w.queues && CopyOk(w, w.queues[id])
    ensures var v := NextNotify(w, SendCommand(id, nid, call));
            v == w || (CopyOk(v, v.queues[id]) && (nid in v.queues ==> CopyOk(v, v.queues[nid])))
  {
    var v := NextNotify(w, SendCommand(id, nid, call));
    if v == w { return; }
    CommandOfEvent(w, w.queues[id].body.env);
    assert CopyOk(w, v.queues[id]);
  }

  lemma SendCommandCopies(w: World, id: nat, nid: nat, call: Call)
    requires CopiesOk(w)
    ensures CopiesOk(NextNotify(w, SendCommand(id, nid, call)))
  {
    hide CopyOk;
    var v := NextNotify(w, SendCommand(id, nid, call));
    if v == w { return; }
    SendingCopiesOk(w, id, nid, call);
    CopiesStayOk(w, v, id, nid);
  }

  lemma CommandOfEvent(w: World, env: Envelope)
    requires EventOk(w, env) && Notifier.ToCommand(env).Send?
    ensures CommandOk(w, Notifier.ToCommand(env).cmd, Main)
    ensures Notifiable(env.payload) ==> TokenOf(Command(Notifier.ToCommand(env).cmd)) == TokenOf(Event(env))
  {
  }

  lemma SendCommandAccounts(w: World, id: nat, nid: nat, call: Call)
    requires AllAccounted(w)
    requires id in w.queues ==> CopyOk(w, w.queues[id])
    ensures AllAccounted(NextNotify(w, SendCommand(id, nid, call)))
  {
    var v := NextNotify(w, SendCommand(id, nid, call));
    if v == w { return; }
    CommandOfEvent(w, w.queues[id].body.env);
    forall t | Carries(w.queues, id, t) ensures InQueues(v.queues, t) && PastNotifier(v.queues, t) {
      assert CarriesOn(v.queues, id, t) || CarriesOn(v.queues, nid, t);
      assert Carries(v.queues, id, t) || Carries(v.queues, nid, t);
    }
    AccountedAcross(w, v, id, nid);
  }

  lemma SendCommandKeeps(w: World, id: nat, nid: nat, call: Call)
    requires Inv(w)
    ensures Inv(NextNotify(w, SendCommand(id, nid, call)))
  {
    var v := NextNotify(w, SendCommand(id, nid, call));
    if v == w { return; }
    assert CopyOk(w, w.queues[id]);
    SendCommandCopies(w, id, nid, call);
    hide AllAccounted;
    SendCommandAccounts(w, id, nid, call);
    FactsStay(w, v);
  }

  lemma RollbackCopies(w: World, id: nat, call: Call)
    requires CopiesOk(w)
    ensures CopiesOk(NextNotify(w, Rollback(id, call)))
  {
    var v := NextNotify(w, Rollback(id, call));
    if v == w { return; }
    assert CopyOk(w, w.queues[id]);
    RelocatedOk(w, w.queues[id], v.queues[id].place);
    hide CopyOk;
    CopyOkGrows(w, v, v.queues[id]);
    CopiesStayOk(w, v, id, id);
  }

  lemma RollbackAccounts(w: World, id: nat, call: Call)
    requires AllAccounted(w)
    requires id in w.queues ==> CopyOk(w, w.queues[id])
    ensures AllAccounted(NextNotify(w, Rollback(id, call)))
  {
    var v := NextNotify(w, Rollback(id, call));
    if v == w { return; }
    forall t | Carries(w.queues, id, t) ensures InQueues(v.queues, t) {
      assert Carries(v.queues, id, t);
    }
    AccountedAcross(w, v, id, id);
  }

  lemma RollbackKeeps(w: World, id: nat, call: Call)
    requires Inv(w)
    ensures Inv(NextNotify(w, Rollback(id, call)))
  {
    hide Facts, AllAccounted, CopyOk, CopiesOk;
    KeysIssued(w);
    CopyAt(w, id);
    RollbackCopies(w, id, call);
    RollbackAccounts(w, id, call);
    FactsStay(w, NextNotify(w, Rollback(id, call)));
  }

  // ---- The mailer's steps ----

  lemma SentCopyOk(w: World, id: nat, call: Call, cancelled: bool)
    requires id in w.queues && CopyOk(w, w.queues[id])
    ensures var v := NextMail(w, Smtp(id, call, cancelled)); v == w || CopyOk(v, v.queues[id])
  {
    var v := NextMail(w, Smtp(id, call, cancelled));
    if v == w { return; }
    var c := w.queues[id];
    assert CommandOk(v, c.body.cmd, v.queues[id].place) by {
      if Mailer.IsVerification(c.body.cmd) {
        var t := Mailer.VerificationToken(c.body.cmd);
        assert Mailer.BuildEmail(c.body.cmd) == Some(Mailer.VerificationMail(w.commits[t].email, t));
      }
    }
  }

  lemma SmtpCopies(w: World, id: nat, call: Call, cancelled: bool)
    requires CopiesOk(w)
    ensures CopiesOk(NextMail(w, Smtp(id, call, cancelled)))
  {
    hide CopyOk;
    var v := NextMail(w, Smtp(id, call, cancelled));
    if v == w { return; }
    SentCopyOk(w, id, call, cancelled);
    assert Grows(w, v);
    CopiesStayOk(w, v, id, id);
  }

  lemma SmtpAccounts(w: World, id: nat, call: Call, cancelled: bool)
    requires AllAccounted(w)
    ensures AllAccounted(NextMail(w, Smtp(id, call, cancelled)))
  {
    hide AllAccounted, Accounted, InOutbox, TierOk;
    var v := NextMail(w, Smtp(id, call, cancelled));
    if v == w { return; }
    forall t | Carries(w.queues, id, t) ensures InQueues(v.queues, t) && PastNotifier(v.queues, t) {
      assert Carries(v.queues, id, t);
      assert CarriesOn(v.queues, id, t);
    }
    AccountedAcross(w, v, id, id);
  }

  lemma SmtpKeeps(w: World, id: nat, call: Call, cancelled: bool)
    requires Inv(w)
    ensures Inv(NextMail(w, Smtp(id, call, cancelled)))
  {
    hide Facts, AllAccounted, CopiesOk;
    KeysIssued(w);
    var v := NextMail(w, Smtp(id, call, cancelled));
    SmtpCopies(w, id, call, cancelled);
    SmtpAccounts(w, id, call, cancelled);
    FactsStay(w, v);
  }

  lemma ReportCopies(w: World, id: nat, nid: nat, event: nat, call: Call, cancelled: bool)
    requires CopiesOk(w)
    ensures CopiesOk(NextMail(w, Report(id, nid, event, call, cancelled)))
  {
    var v := NextMail(w, Report(id, nid, event, call, cancelled));
    if v == w { return; }
    var c := w.queues[id];
    assert CopyOk(w, c);
    assert Grows(w, v);
    assert CopyOk(v, v.queues[id]);
    assert nid in v.queues ==> CopyOk(v, v.queues[nid]);
    CopiesStayOk(w, v, id, nid);
  }

  lemma ReportAccounts(w: World, id: nat, nid: nat, event: nat, call: Call, cancelled: bool)
    requires AllAccounted(w)
    requires id in w.queues ==> CopyOk(w, w.queues[id])
    ensures AllAccounted(NextMail(w, Report(id, nid, event, call, cancelled)))
  {
    hide AllAccounted, Accounted, InOutbox, TierOk;
    var v := NextMail(w, Report(id, nid, event, call, cancelled));
    if v == w { return; }
    forall t | Open(v, t) && Carries(w.queues, id, t) ensures InQueues(v.queues, t) && PastNotifier(v.queues, t) {
      assert Carries(v.queues, id, t) || Carries(v.queues, nid, t);
      assert CarriesOn(v.queues, id, t) || CarriesOn(v.queues, nid, t);
    }
    AccountedAcross(w, v, id, nid);
  }

  lemma ReportFacts(w: World, id: nat, nid: nat, event: nat, call: Call, cancelled: bool)
    requires Facts(w)
    ensures Facts(NextMail(w, Report(id, nid, event, call, cancelled)))
  {
    hide Facts;
    KeysIssued(w);
    var v := NextMail(w, Report(id, nid, event, call, cancelled));
    FactsStay(w, v);
  }

  lemma ReportKeeps(w: World, id: nat, nid: nat, event: nat, call: Call, cancelled: bool)
    requires Inv(w)
    ensures Inv(NextMail(w, Report(id, nid, event, call, cancelled)))
  {
    hide Facts, AllAccounted;
    if id in w.queues { assert CopyOk(w, w.queues[id]); }
    hide CopyOk, CopiesOk;
    ReportCopies(w, id, nid, event, call, cancelled);
    ReportAccounts(w, id, nid, event, call, cancelled);
    ReportFacts(w, id, nid, event, call, cancelled);
  }

  // ---- The orchestrator's and the reaper's steps ----

  lemma ClaimedCopyOk(w: World, id: nat, reachable: bool)
    requires id in w.queues && CopyOk(w, w.queues[id])
    ensures var v := NextSaga(w, Claim(id, reachable)); v == w || CopyOk(v, v.queues[id])
  {
  }

  lemma ClaimAccounts(w: World, id: nat, reachable: bool)
    requires AllAccounted(w)
    requires id in w.queues ==> CopyOk(w, w.queues[id])
    ensures AllAccounted(NextSaga(w, Claim(id, reachable)))
  {
    var v := NextSaga(w, Claim(id, reachable));
    if v == w { return; }
    forall t | Open(v, t) && Carries(w.queues, id, t) ensures InQueues(v.queues, t) && PastNotifier(v.queues, t) {
      assert Carries(v.queues, id, t);
      assert CarriesOn(v.queues, id, t);
    }
    AccountedAcross(w, v, id, id);
  }

  lemma ClaimKeeps(w: World, id: nat, reachable: bool)
    requires Inv(w)
    ensures Inv(NextSaga(w, Claim(id, reachable)))
  {
    hide Facts, AllAccounted;
    var v := NextSaga(w, Claim(id, reachable));
    if v == w { return; }
    assert CopyOk(w, w.queues[id]);
    KeysIssued(w);
    hide CopyOk;
    FactsStay(w, v);
    ClaimedCopyOk(w, id, reachable);
    CopiesStayOk(w, v, id, id);
    ClaimAccounts(w, id, reachable);
  }

  lemma WriteSagas(w: World, id: nat, fault: DbFault)
    requires SagasOk(w) && (id in w.queues ==> CopyOk(w, w.queues[id]))
    ensures SagasOk(NextSaga(w, Write(id, fault)))
  {
  }

  lemma WriteRows(w: World, id: nat, fault: DbFault)
    ensures var v := NextSaga(w, Write(id, fault));
            && v == w.(db := v.db, queues := v.queues) && v.db.sagas.Keys == w.db.sagas.Keys
            && v.db.outbox == w.db.outbox && v.db.nextRow == w.db.nextRow
  {
  }

  lemma WriteSound(w: World, id: nat, fault: DbFault)
    requires Sound(w.db)
    ensures Sound(NextSaga(w, Write(id, fault)).db)
  {
    if id in w.queues { Orchestrator.SettlingWriteKeeps(w.db, Orchestrator.Decode(w.queues[id].body)); }
    hide Sound, Evolves;
  }

  lemma WriteFacts(w: World, id: nat, fault: DbFault)
    requires Facts(w) && (id in w.queues ==> CopyOk(w, w.queues[id]))
    ensures Facts(NextSaga(w, Write(id, fault)))
  {
    hide Sound, SagasOk, RowsOk, RelayOk, RegistryOk, CopyOk, NextSaga;
    WriteSound(w, id, fault);
    WriteSagas(w, id, fault);
    WriteRows(w, id, fault);
    RowFactsStay(w, NextSaga(w, Write(id, fault)));
  }

  lemma WriteAccounts(w: World, id: nat, fault: DbFault)
    requires AllAccounted(w)
    requires id in w.queues ==> CopyOk(w, w.queues[id])
    ensures AllAccounted(NextSaga(w, Write(id, fault)))
  {
    var v := NextSaga(w, Write(id, fault));
    if v == w { return; }
    forall t | Open(v, t) && Carries(w.queues, id, t) ensures InQueues(v.queues, t) && PastNotifier(v.queues, t) {
      assert Carries(v.queues, id, t);
      assert CarriesOn(v.queues, id, t);
    }
    AccountedAcross(w, v, id, id);
  }

  lemma WriteKeeps(w: World, id: nat, fault: DbFault)
    requires Inv(w)
    ensures Inv(NextSaga(w, Write(id, fault)))
  {
    hide Facts, AllAccounted;
    var v := NextSaga(w, Write(id, fault));
    if v == w { return; }
    assert CopyOk(w, w.queues[id]);
    assert CopyOk(w, v.queues[id]);
    CopiesStayOk(w, v, id, id);
    WriteFacts(w, id, fault);
    WriteAccounts(w, id, fault);
  }

  /** A step that leaves the queues alone, opens no saga and removes no row. */
  lemma QuietKeeps(w: World, v: World)
    requires Inv(w) && Grows(w, v) && v.queues == w.queues && v.keys == w.keys && v.relaying == w.relaying
    requires v.commits == w.commits && forall t :: Open(v, t) ==> Open(w, t)
    requires forall r :: r in w.db.outbox ==> r in v.db.outbox
    ensures CopiesOk(v) && AllAccounted(v)
  {
    SameCopiesStayOk(w, v);
    forall t | Carries(w.queues, 0, t) ensures InQueues(v.queues, t) { assert Carries(v.queues, 0, t); }
    forall t | CarriesOn(w.queues, 0, t) ensures PastNotifier(v.queues, t) { assert CarriesOn(v.queues, 0, t); }
    AccountedAcross(w, v, 0, 0);
  }

  lemma ReapSound(w: World, token: Token, fault: DbFault)
    requires Sound(w.db)
    ensures Sound(NextSaga(w, Reap(token, fault)).db)
  {
    CompensateKeeps(w.db, token);
    hide Sound, Evolves, Compensate;
  }

  lemma ReapSagas(w: World, token: Token, fault: DbFault)
    requires SagasOk(w)
    ensures SagasOk(NextSaga(w, Reap(token, fault)))
  {
  }

  lemma ReapRows(w: World, token: Token, fault: DbFault)
    ensures var v := NextSaga(w, Reap(token, fault));
            && v == w.(db := v.db, sweep := v.sweep, reaped := v.reaped) && w.reaped <= v.reaped
            && v.db.sagas.Keys == w.db.sagas.Keys && v.db.outbox == w.db.outbox && v.db.nextRow == w.db.nextRow
            && forall t :: Open(v, t) ==> Open(w, t)
  {
  }

  lemma ReapFacts(w: World, token: Token, fault: DbFault)
    requires Facts(w)
    ensures var v := NextSaga(w, Reap(token, fault)); Facts(v) && Grows(w, v)
  {
    hide Sound, SagasOk, RowsOk, RelayOk, RegistryOk, NextSaga, Open;
    ReapSound(w, token, fault);
    ReapSagas(w, token, fault);
    ReapRows(w, token, fault);
    RowFactsStay(w, NextSaga(w, Reap(token, fault)));
  }

  lemma ReapKeeps(w: World, token: Token, fault: DbFault)
    requires Inv(w)
    ensures Inv(NextSaga(w, Reap(token, fault)))
  {
    hide Facts, AllAccounted, CopiesOk, Grows, NextSaga, Open;
    ReapFacts(w, token, fault);
    ReapRows(w, token, fault);
    QuietKeeps(w, NextSaga(w, Reap(token, fault)));
  }

  lemma SagaKeeps(w: World, s: SagaAction)
    requires Inv(w)
    ensures Inv(NextSaga(w, s))
  {
    match s
    case Claim(id, reachable) => ClaimKeeps(w, id, reachable);
    case Write(id, fault) => WriteKeeps(w, id, fault);
    case QueryStale => QuietKeeps(w, NextSaga(w, s));
    case Reap(token, fault) => ReapKeeps(w, token, fault);
  }

  // ---- The relay's steps ----

  lemma PublishRowKeeps(w: World, i: nat, id: nat, call: Call)
    requires Inv(w)
    ensures Inv(NextRelay(w, PublishRow(i, id, call)))
  {
    var v := NextRelay(w, PublishRow(i, id, call));
    if v == w { return; }
    var row := w.db.outbox[i];
    assert row in w.db.outbox;
    var mid := v.(relaying := None);
    assert id in v.queues ==> CopyOk(v, v.queues[id]);
    CopiesStayOk(w, v, id, id);
    AccountedAcross(w, mid, id, id);
    forall t | t in v.commits ensures Accounted(v, t) {
      assert Accounted(mid, t);
      if call == Done && PayloadToken(row.env.payload) == Some(t) { assert Carries(v.queues, id, t); }
    }
  }

  lemma DeleteRowKeeps(w: World, fault: DbFault)
    requires Inv(w)
    ensures Inv(NextRelay(w, DeleteRow(fault)))
  {
    var v := NextRelay(w, DeleteRow(fault));
    if v == w { return; }
    var row := w.relaying.value;
    SameCopiesStayOk(w, v);
    RowsStayOk(w, v);
    OrderedAfterDelete(w.db.outbox, row.id, w.db.nextRow);
    forall t | t in v.commits && Open(v, t) ensures Accounted(v, t) {
      assert Accounted(w, t);
      if InOutbox(w.db.outbox, t) && !InOutbox(v.db.outbox, t) {
        var r :| r in w.db.outbox && PayloadToken(r.env.payload) == Some(t);
        assert r.id == row.id;
      }
    }
  }

  lemma {:induction false} OrderedAfterDelete(rows: seq<Row>, id: nat, next: nat)
    requires Ordered(rows, next)
    ensures Ordered(Without(rows, id), next)
  {
    if k :| 0 <= k < |rows| && rows[k].id == id {
      assert rows == rows[..k] + [rows[k]] + rows[k + 1..];
      OrderedWithout(rows[..k], rows[k], rows[k + 1..], next);
      WithoutMiddle(rows[..k], rows[k], rows[k + 1..]);
    } else {
      NoneWithout(rows, id);
    }
  }

  // ---- The handlers' and the scanner's steps ----

  lemma SavedKeeps(w: World, k: nat, row: Subscription, fault: DbFault)
    requires Inv(w) && row.status != Pending
    ensures Inv(Saved(w, k, row, fault))
  {
    var v := Saved(w, k, row, fault);
    if v == w { return; }
    SaveKeeps(w.db, k, row);
    QuietKeeps(w, v);
    RowsStayOk(w, v);
  }

  /** What a committed Subscribe does to the world. */
  ghost predicate Subscribed(w: World, v: World, email: Email, token: Token, event: nat) {
    && v == w.(db := v.db, issued := w.issued[event := SubscriptionCreated(email, token)],
               commits := w.commits[token := Commit(email, event)])
    && Sound(v.db) && event !in w.issued && token !in w.db.sagas
    && v.db.sagas == w.db.sagas[token := SagaStore.Saga.Saga(AwaitingDelivery, w.clock)]
    && v.db.outbox == w.db.outbox + [Row(w.db.nextRow, Envelope(event, SubscriptionCreated(email, token)))]
    && v.db.nextRow == w.db.nextRow + 1
  }

  lemma FinishSubscribeShape(w: World, r: Request, token: Token, event: nat, newKey: nat, fault: DbFault)
    requires Sound(w.db)
    ensures var v := FinishedSubscribe(w, r, token, event, newKey, fault);
            v == w || (r.ForSubscribe? && Subscribed(w, v, r.email, token, event))
  {
    var v := FinishedSubscribe(w, r, token, event, newKey, fault);
    if v == w { return; }
    var k := if r.found.Some? then r.found.value.0 else newKey;
    var row := if r.found.Some? then Handlers.PendingAgain(r.found.value.1, token)
               else Handlers.Created(r.email, r.repo, token);
    var env := Envelope(event, SubscriptionCreated(r.email, token));
    StartSagaKeeps(w.db, k, row, env, w.clock);
    hide Sound;
  }

  lemma SubscribedRows(w: World, v: World, email: Email, token: Token, event: nat)
    requires RowsOk(w) && RelayOk(w) && Sound(w.db) && Subscribed(w, v, email, token, event)
    requires w.db.sagas.Keys == w.commits.Keys
    ensures RowsOk(v) && RelayOk(v) && Grows(w, v)
  {
    var last := Row(w.db.nextRow, Envelope(event, SubscriptionCreated(email, token)));
    forall x | x in v.db.outbox
      ensures EventOk(v, x.env) && Notifiable(x.env.payload) && (x in w.db.outbox || x == last) {}
  }

  lemma SubscribedSagas(w: World, v: World, email: Email, token: Token, event: nat)
    requires RegistryOk(w) && SagasOk(w) && Subscribed(w, v, email, token, event)
    ensures RegistryOk(v) && SagasOk(v)
  {
    hide Sound;
    forall t | t in v.commits ensures CommitOk(v, t) {
      if t != token { assert CommitOk(w, t); }
    }
  }

  lemma SubscribedAccounts(w: World, v: World, email: Email, token: Token, event: nat)
    requires AllAccounted(w) && RelayOk(w) && RegistryOk(w) && Subscribed(w, v, email, token, event)
    ensures AllAccounted(v)
  {
    hide Sound, InQueues, PastNotifier;
    var last := Row(w.db.nextRow, Envelope(event, SubscriptionCreated(email, token)));
    assert last in v.db.outbox && forall x :: x in w.db.outbox ==> x in v.db.outbox;
    assert InOutbox(v.db.outbox, token);
    forall t | t in v.commits && Open(v, t) ensures Accounted(v, t) {
      if t != token { assert Accounted(w, t); RowsCarry(w.db.outbox, v.db.outbox, t); }
    }
  }

  lemma SubscribedKeeps(w: World, v: World, email: Email, token: Token, event: nat)
    requires Inv(w) && Subscribed(w, v, email, token, event)
    ensures Inv(v)
  {
    hide AllAccounted, CopyOk, SagasOk, RowsOk, RelayOk, Sound;
    SubscribedRows(w, v, email, token, event);
    SubscribedSagas(w, v, email, token, event);
    SubscribedAccounts(w, v, email, token, event);
    SameCopiesStayOk(w, v);
  }

  lemma FinishSubscribeKeeps(w: World, r: Request, token: Token, event: nat, newKey: nat, fault: DbFault)
    requires Inv(w)
    ensures Inv(FinishedSubscribe(w, r, token, event, newKey, fault))
  {
    FinishSubscribeShape(w, r, token, event, newKey, fault);
    hide Inv, Subscribed, FinishedSubscribe;
    var v := FinishedSubscribe(w, r, token, event, newKey, fault);
    if v != w { SubscribedKeeps(w, v, r.email, token, event); }
  }

  lemma ScannerEventSound(w: World, event: nat, payload: Payload)
    requires Sound(w.db)
    ensures var v, last := NextHttp(w, ScannerEvent(event, payload)), Row(w.db.nextRow, Envelope(event, payload));
            v == w || (Sound(v.db) && v.db.outbox == w.db.outbox + [last])
  {
    var v := NextHttp(w, ScannerEvent(event, payload));
    if v == w { return; }
    assert v.db.outbox == v.db.outbox[..|w.db.outbox|] + [v.db.outbox[|w.db.outbox|]];
    forall k | LivePending(v.db, k) ensures LivePending(w.db, k) {}
  }

  lemma ScannerEventRows(w: World, event: nat, payload: Payload)
    requires RowsOk(w) && RelayOk(w) && Sound(w.db)
    ensures var v := NextHttp(w, ScannerEvent(event, payload));
            RowsOk(v) && RelayOk(v) && forall r :: r in w.db.outbox ==> r in v.db.outbox
  {
    hide Sound, Insert;
    var v := NextHttp(w, ScannerEvent(event, payload));
    if v == w { return; }
    ScannerEventSound(w, event, payload);
    var last := Row(w.db.nextRow, Envelope(event, payload));
    forall x | x in v.db.outbox
      ensures EventOk(v, x.env) && Notifiable(x.env.payload) && (x in w.db.outbox || x == last) {}
  }

  lemma ScannerEventRegistry(w: World, event: nat, payload: Payload)
    requires RegistryOk(w) && SagasOk(w)
    ensures var v := NextHttp(w, ScannerEvent(event, payload)); RegistryOk(v) && SagasOk(v) && Grows(w, v)
  {
    hide Insert;
  }

  lemma ScannerEventFacts(w: World, event: nat, payload: Payload)
    requires Facts(w)
    ensures var v := NextHttp(w, ScannerEvent(event, payload));
            Facts(v) && Grows(w, v) && forall r :: r in w.db.outbox ==> r in v.db.outbox
  {
    hide Sound, RowsOk, RelayOk, RegistryOk, SagasOk, NextHttp;
    ScannerEventSound(w, event, payload);
    ScannerEventRows(w, event, payload);
    ScannerEventRegistry(w, event, payload);
  }

  lemma ScannerEventKeeps(w: World, event: nat, payload: Payload)
    requires Inv(w)
    ensures Inv(NextHttp(w, ScannerEvent(event, payload)))
  {
    hide Facts, AllAccounted, CopiesOk, Grows;
    ScannerEventFacts(w, event, payload);
    QuietKeeps(w, NextHttp(w, ScannerEvent(event, payload)));
  }

  lemma IdleKeeps(w: World, v: World)
    requires Inv(w) && v == w.(requests := v.requests, clock := v.clock) && w.clock <= v.clock
    ensures Inv(v)
  {
    KeysIssued(w);
    FactsStay(w, v);
    hide Facts, AllAccounted, CopiesOk;
    QuietKeeps(w, v);
  }

  lemma ReadKeeps(w: World, h: HttpAction)
    requires Inv(w) && (h.BeginSubscribe? || h.BeginConfirm? || h.BeginUnsubscribe? || h.Tick?)
    ensures Inv(NextHttp(w, h))
  {
    hide Inv;
    IdleKeeps(w, NextHttp(w, h));
  }

  lemma ScannerMovedKeeps(w: World, repo: nat)
    requires Inv(w)
    ensures Inv(NextHttp(w, ScannerMoved(repo)))
  {
    var v := NextHttp(w, ScannerMoved(repo));
    UnsubscribeAllKeeps(w.db, repo);
    QuietKeeps(w, v);
    RowsStayOk(w, v);
  }

  lemma HttpKeeps(w: World, h: HttpAction)
    requires Inv(w)
    ensures Inv(NextHttp(w, h))
  {
    hide Inv;
    match h
    case FinishSubscribe(r, token, event, newKey, fault) => FinishSubscribeKeeps(w, r, token, event, newKey, fault);
    case FinishConfirm(r, apiToken, fault) =>
      if r.ForConfirm? { SavedKeeps(w, r.key, r.row.(status := Active, apiToken := apiToken), fault); }
    case FinishUnsubscribe(r, fault) =>
      if r.ForUnsubscribe? { SavedKeeps(w, r.key, r.row.(status := Unsubscribed), fault); }
    case ScannerEvent(event, payload) => ScannerEventKeeps(w, event, payload);
    case ScannerMoved(repo) => ScannerMovedKeeps(w, repo);
    case _ => ReadKeeps(w, h);
  }

  // ---- Every step ----

  lemma NextKeeps(w: World, a: Action)
    requires Inv(w)
    ensures Inv(Next(w, a))
  {
    hide Inv;
    match a
    case Http(h) => HttpKeeps(w, h);
    case Relay(PublishRow(i, id, call)) => PublishRowKeeps(w, i, id, call);
    case Relay(DeleteRow(fault)) => DeleteRowKeeps(w, fault);
    case Queue(q) => QueueKeeps(w, q);
    case Notify(Mark(id, call)) => MarkKeeps(w, id, call);
    case Notify(SendCommand(id, nid, call)) => SendCommandKeeps(w, id, nid, call);
    case Notify(Rollback(id, call)) => RollbackKeeps(w, id, call);
    case Mailing(Smtp(id, call, cancelled)) => SmtpKeeps(w, id, call, cancelled);
    case Mailing(Report(id, nid, event, call, cancelled)) => ReportKeeps(w, id, nid, event, call, cancelled);
    case Saga(s) => SagaKeeps(w, s);
  }

  lemma {:induction false} RunKeeps(w: World, actions: seq<Action>)
    requires Inv(w)
    ensures Inv(Run(w, actions))
    decreases actions
  {
    if actions != [] {
      NextKeeps(w, actions[0]);
      RunKeeps(Next(w, actions[0]), actions[1..]);
    }
  }

  lemma StartHolds(tiers: TierCount, staleAfter: nat, clock: int)
    ensures Inv(Start(tiers, staleAfter, clock))
  {
  }
}
