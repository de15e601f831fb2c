/** What the onboarding invariant means for every run, and the runs that show which
    exceptions are real. */
module OnboardingTheorems {
  import opened Domain
  import opened Outbox
  import opened Broker
  import opened SagaStore
  import opened Onboarding
  import opened OnboardingInvariant
  import Handlers
  import Mailer
  import Orchestrator

  lemma Reached(tiers: TierCount, staleAfter: nat, clock: int, actions: seq<Action>)
    ensures Inv(Run(Start(tiers, staleAfter, clock), actions))
  {
    StartHolds(tiers, staleAfter, clock);
    RunKeeps(Start(tiers, staleAfter, clock), actions);
  }

  /** Accounting for every token: an open saga's token is in an outbox row, in a queue set (main,
      tier or dead letters), in a delivery that is not handed on, or with a recalled handler that
      still owes the event's command or a retry, unless it passed a named window. */
  lemma Accounting(tiers: TierCount, staleAfter: nat, clock: int, actions: seq<Action>, t: Token)
    ensures var w := Run(Start(tiers, staleAfter, clock), actions);
            Awaiting(w.db, t) ==>
              || t in w.lost
              || (exists r :: r in w.db.outbox && PayloadToken(r.env.payload) == Some(t))
              || (exists id :: Carries(w.queues, id, t))
  {
    Reached(tiers, staleAfter, clock, actions);
    var w := Run(Start(tiers, staleAfter, clock), actions);
    if Awaiting(w.db, t) && t !in w.lost {
      assert Accounted(w, t);
    }
  }

  /** End-to-end provenance: a completed saga's mail was accepted by SMTP, addressed to the
      email committed with exactly that token. */
  lemma Provenance(tiers: TierCount, staleAfter: nat, clock: int, actions: seq<Action>, t: Token)
    ensures var w := Run(Start(tiers, staleAfter, clock), actions);
            t in w.db.sagas && w.db.sagas[t].state == Completed ==>
              t in w.commits && Mailer.VerificationMail(w.commits[t].email, t) in w.mails
  {
    Reached(tiers, staleAfter, clock, actions);
  }

  /** A saga is compensated only after every send of its mail failed, or by the reaper once it
      was older than StaleAfter. */
  lemma CompensationHasACause(tiers: TierCount, staleAfter: nat, clock: int, actions: seq<Action>, t: Token)
    ensures var w := Run(Start(tiers, staleAfter, clock), actions);
            t in w.db.sagas && w.db.sagas[t].state == SagaState.Compensated ==>
              t in w.failed || (t in w.reaped && w.db.sagas[t].created + staleAfter < w.clock)
  {
    Reached(tiers, staleAfter, clock, actions);
    TiersFixed(Start(tiers, staleAfter, clock), actions);
  }

  /** Which parts of the world a group of actions cannot touch. */
  lemma QueueFrame(w: World, q: QueueAction)
    ensures var v := NextQueue(w, q); v.db == w.db && v.tiers == w.tiers && v.staleAfter == w.staleAfter
  {
  }

  lemma NotifyFrame(w: World, n: NotifyAction)
    ensures var v := NextNotify(w, n); v.db == w.db && v.tiers == w.tiers && v.staleAfter == w.staleAfter
  {
  }

  lemma MailFrame(w: World, m: MailAction)
    ensures var v := NextMail(w, m); v.db == w.db && v.tiers == w.tiers && v.staleAfter == w.staleAfter
  {
  }

  lemma RelayFrame(w: World, r: RelayAction)
    ensures var v := NextRelay(w, r);
            v.db == w.db.(outbox := v.db.outbox) && v.tiers == w.tiers && v.staleAfter == w.staleAfter
  {
  }

  lemma SagaFrame(w: World, s: SagaAction)
    ensures var v := NextSaga(w, s); v.tiers == w.tiers && v.staleAfter == w.staleAfter
  {
  }

  lemma HttpFrame(w: World, h: HttpAction)
    ensures var v := NextHttp(w, h); v.tiers == w.tiers && v.staleAfter == w.staleAfter
  {
  }

  lemma Frame(w: World, a: Action)
    ensures var v := Next(w, a);
            && v.tiers == w.tiers && v.staleAfter == w.staleAfter
            && (a.Queue? || a.Notify? || a.Mailing? ==> v.db == w.db)
            && (a.Relay? ==> v.db == w.db.(outbox := v.db.outbox))
  {
    hide NextHttp, NextRelay, NextQueue, NextNotify, NextMail, NextSaga;
    match a
    case Http(h) => HttpFrame(w, h);
    case Relay(r) => RelayFrame(w, r);
    case Queue(q) => QueueFrame(w, q);
    case Notify(n) => NotifyFrame(w, n);
    case Mailing(m) => MailFrame(w, m);
    case Saga(s) => SagaFrame(w, s);
  }

  lemma {:induction false} TiersFixed(w: World, actions: seq<Action>)
    ensures Run(w, actions).tiers == w.tiers && Run(w, actions).staleAfter == w.staleAfter
    decreases actions
  {
    hide Next;
    if actions != [] {
      Frame(w, actions[0]);
      TiersFixed(Next(w, actions[0]), actions[1..]);
    }
  }

  /** No stranded pending row, although Confirm, Unsubscribe and Subscribe save rows they read
      before a Compensate or a re-Subscribe. */
  lemma NoStrandedPending(tiers: TierCount, staleAfter: nat, clock: int, actions: seq<Action>, k: nat)
    ensures var w := Run(Start(tiers, staleAfter, clock), actions);
            LivePending(w.db, k) ==>
              var t := w.db.subs[k].confirmToken;
              t in w.db.sagas && (w.db.sagas[t].state == AwaitingDelivery || w.db.sagas[t].state == Completed)
  {
    Reached(tiers, staleAfter, clock, actions);
  }

  /** The "unknown saga" branch of the orchestrator is never taken, and nothing in its queue is
      dead-lettered as foreign: every result in the broker names an existing saga. */
  lemma EveryResultHasASaga(tiers: TierCount, staleAfter: nat, clock: int, actions: seq<Action>, id: nat)
    ensures var w := Run(Start(tiers, staleAfter, clock), actions);
            id in w.queues && w.queues[id].queue == OnboardingSaga ==>
              Orchestrator.Decode(w.queues[id].body) != Orchestrator.Foreign
              && Orchestrator.Decode(w.queues[id].body).token in w.db.sagas
  {
    Reached(tiers, staleAfter, clock, actions);
    var w := Run(Start(tiers, staleAfter, clock), actions);
    if id in w.queues { assert CopyOk(w, w.queues[id]); }
  }

  /** Tier discipline: a copy in tier i is on attempt i + 1 and i is a declared tier; every
      other copy carries 0 to Tiers attempts. */
  lemma TierDiscipline(tiers: TierCount, staleAfter: nat, clock: int, actions: seq<Action>, id: nat)
    ensures var w := Run(Start(tiers, staleAfter, clock), actions);
            id in w.queues ==>
              && 0 <= Attempts(w.queues[id].headers) <= tiers
              && (w.queues[id].place.Tier? ==> w.queues[id].place.tier < tiers
                                               && Attempts(w.queues[id].headers) == w.queues[id].place.tier + 1)
  {
    Reached(tiers, staleAfter, clock, actions);
    TiersFixed(Start(tiers, staleAfter, clock), actions);
    var w := Run(Start(tiers, staleAfter, clock), actions);
    if id in w.queues { TiersHold(w, id); }
  }

  /** No message the services produce is poison to its consumer: one that is dead-lettered has
      been through every retry tier. */
  lemma OnlyExhaustedRetriesAreDeadLettered(tiers: TierCount, staleAfter: nat, clock: int, actions: seq<Action>,
                                            id: nat)
    ensures var w := Run(Start(tiers, staleAfter, clock), actions);
            id in w.queues ==>
              && (w.queues[id].place == DeadLetters ==> Attempts(w.queues[id].headers) == tiers)
              && w.queues[id].place != Held(Settling(DeadLetter))
  {
    Reached(tiers, staleAfter, clock, actions);
    TiersFixed(Start(tiers, staleAfter, clock), actions);
    var w := Run(Start(tiers, staleAfter, clock), actions);
    if id in w.queues { TiersHold(w, id); }
  }

  /** The step acks this delivery away. */
  predicate AcksAway(w: World, a: Action, id: nat) {
    && a.Queue? && a.queue.SettleDelivery? && a.queue.id == id && a.queue.newId !in w.queues
    && id in w.queues && w.queues[id].place == Held(Settling(Ack)) && a.queue.faults.acked
  }

  /** The identity of a message after a step: taking its delivery back gives it a new one. */
  function IdAfter(w: World, a: Action, id: nat): nat {
    if a.Queue? && a.queue.Recall? && a.queue.id == id && id in w.queues && w.queues[id].place.Held?
       && a.queue.newId !in w.queues
    then a.queue.newId else id
  }

  predicate Message(w: World, id: nat) {
    id in w.queues && !w.queues[id].recalled
  }

  /** The message is in the broker or with a handler after the step, saying what it said. */
  predicate SameMessage(w: World, v: World, id: nat, id': nat) {
    && Message(w, id) && Message(v, id')
    && v.queues[id'].body == w.queues[id].body && v.queues[id'].queue == w.queues[id].queue
  }

  /** A message leaves the broker only by the ack of a delivery that was not taken back, and no step
      changes what it says: crashes, expiries, redeliveries, failed publishes and failed nacks
      only move it. */
  lemma MessagesLeaveOnlyByAck(w: World, a: Action, id: nat)
    requires Message(w, id)
    ensures AcksAway(w, a, id) ==> id !in Next(w, a).queues
    ensures !AcksAway(w, a, id) ==> SameMessage(w, Next(w, a), id, IdAfter(w, a, id))
  {
    hide NextHttp, NextRelay, NextQueue, NextNotify, NextMail, NextSaga;
    match a
    case Http(h) => HttpLeavesQueues(w, h);
    case Relay(r) => RelayKeepsMessage(w, r, id);
    case Queue(q) => QueueKeepsMessage(w, q, id);
    case Notify(n) => NotifyKeepsMessage(w, n, id);
    case Mailing(m) => MailKeepsMessage(w, m, id);
    case Saga(s) => SagaKeepsMessage(w, s, id);
  }

  lemma HttpLeavesQueues(w: World, h: HttpAction)
    ensures NextHttp(w, h).queues == w.queues
  {
  }

  lemma RelayKeepsMessage(w: World, r: RelayAction, id: nat)
    requires Message(w, id)
    ensures SameMessage(w, NextRelay(w, r), id, id)
  {
  }

  lemma QueueKeepsMessage(w: World, q: QueueAction, id: nat)
    requires Message(w, id)
    ensures if AcksAway(w, Queue(q), id) then id !in NextQueue(w, q).queues
            else SameMessage(w, NextQueue(w, q), id, IdAfter(w, Queue(q), id))
  {
    hide Abandon;
    if q.SettleDelivery? {
      SettleKeepsMessage(w, q.id, q.newId, q.reason, q.faults, id);
      hide NextQueue;
    }
  }

  lemma SettleKeepsMessage(w: World, settled: nat, nid: nat, reason: string, f: Faults, id: nat)
    requires Message(w, id)
    ensures var a := SettleDelivery(settled, nid, reason, f);
            if AcksAway(w, Queue(a), id) then id !in NextQueue(w, a).queues else SameMessage(w, NextQueue(w, a), id, id)
  {
    hide Abandon, Republished;
    if settled in w.queues && nid !in w.queues && w.queues[settled].place.Held? && settled != id {
      if Settles(w.queues[settled].place.step).Some? { SettleShape(w, settled, nid, reason, f); hide NextQueue; }
    }
  }

  lemma NotifyKeepsMessage(w: World, n: NotifyAction, id: nat)
    requires Message(w, id)
    ensures SameMessage(w, NextNotify(w, n), id, id)
  {
  }

  lemma MailKeepsMessage(w: World, m: MailAction, id: nat)
    requires Message(w, id)
    ensures SameMessage(w, NextMail(w, m), id, id)
  {
  }

  lemma SagaKeepsMessage(w: World, s: SagaAction, id: nat)
    requires Message(w, id)
    ensures SameMessage(w, NextSaga(w, s), id, id)
  {
  }

  // ---- A saga settles once ----

  /** A step's write took the saga of `t` out of awaiting_delivery. */
  predicate SettlesSaga(w: World, a: Action, t: Token) {
    Awaiting(w.db, t) && !Awaiting(Next(w, a).db, t)
  }

  function Settlements(w: World, actions: seq<Action>, t: Token): nat
    decreases actions
  {
    if actions == [] then 0
    else (if SettlesSaga(w, actions[0], t) then 1 else 0) + Settlements(Next(w, actions[0]), actions[1..], t)
  }

  /** Sagas evolve, and new ones are open. */
  ghost predicate SagaStep(a: Tables, b: Tables) {
    Evolves(a, b) && forall t :: t in b.sagas && t !in a.sagas ==> Awaiting(b, t)
  }

  lemma SagaEvolves(w: World, s: SagaAction)
    requires Sound(w.db)
    ensures SagaStep(w.db, NextSaga(w, s).db)
  {
    match s
    case Write(id, fault) =>
      if id in w.queues { Orchestrator.SettlingWriteKeeps(w.db, Orchestrator.Decode(w.queues[id].body)); }
    case Reap(t, fault) => CompensateKeeps(w.db, t);
    case _ =>
  }

  lemma HttpEvolves(w: World, h: HttpAction)
    requires Sound(w.db)
    ensures SagaStep(w.db, NextHttp(w, h).db)
  {
    if h.FinishSubscribe? {
      FinishSubscribeShape(w, h.request, h.token, h.event, h.newKey, h.fault);
      hide FinishedSubscribe, Sound;
    }
  }

  lemma StepEvolves(w: World, a: Action)
    requires Sound(w.db)
    ensures SagaStep(w.db, Next(w, a).db)
  {
    Frame(w, a);
    hide NextHttp, NextRelay, NextQueue, NextNotify, NextMail, NextSaga, Sound;
    match a
    case Saga(s) => SagaEvolves(w, s);
    case Http(h) => HttpEvolves(w, h);
    case _ =>
  }

  lemma SoundOf(w: World)
    requires Inv(w)
    ensures Sound(w.db)
  {
  }

  predicate Unsettled(db: Tables, t: Token) {
    t !in db.sagas || Awaiting(db, t)
  }

  lemma {:induction false} SettlementsCount(w: World, actions: seq<Action>, t: Token)
    requires Inv(w)
    ensures var v := Run(w, actions);
            && Evolves(w.db, v.db)
            && (t in v.db.sagas ==>
                  Settlements(w, actions, t) == if Unsettled(w.db, t) && !Awaiting(v.db, t) then 1 else 0)
    decreases actions
  {
    SoundOf(w);
    hide Next, Inv;
    if actions != [] {
      var m := Next(w, actions[0]);
      StepEvolves(w, actions[0]);
      NextKeeps(w, actions[0]);
      SettlementsCount(m, actions[1..], t);
      EvolvesTransitive(w.db, m.db, Run(w, actions).db);
    }
  }

  /** Over any interleaving of orchestrators, reapers and redeliveries exactly one settling
      write succeeds for a terminal saga and none for an open one. */
  lemma SettlesOnce(tiers: TierCount, staleAfter: nat, clock: int, actions: seq<Action>, t: Token)
    ensures var w := Run(Start(tiers, staleAfter, clock), actions);
            t in w.db.sagas ==>
              Settlements(Start(tiers, staleAfter, clock), actions, t) == if Awaiting(w.db, t) then 0 else 1
  {
    StartHolds(tiers, staleAfter, clock);
    SettlementsCount(Start(tiers, staleAfter, clock), actions, t);
  }

  /** No step deletes a subscription that is active when the step is taken. */
  lemma ActiveIsNeverDeleted(w: World, a: Action, k: nat)
    requires LiveRow(w.db, k) && w.db.subs[k].status == Active
    ensures LiveRow(Next(w, a).db, k)
  {
    Frame(w, a);
    hide NextHttp, NextRelay, NextQueue, NextNotify, NextMail, NextSaga;
    match a
    case Http(h) => ActiveSurvivesHttp(w, h, k);
    case Saga(s) => ActiveSurvivesSaga(w, s, k);
    case _ =>
  }

  lemma ActiveSurvivesSaga(w: World, s: SagaAction, k: nat)
    requires LiveRow(w.db, k) && w.db.subs[k].status == Active
    ensures LiveRow(NextSaga(w, s).db, k)
  {
  }

  lemma ActiveSurvivesHttp(w: World, h: HttpAction, k: nat)
    requires LiveRow(w.db, k)
    ensures LiveRow(NextHttp(w, h).db, k)
  {
    if h.FinishSubscribe? { SubscribeDeletesNothing(w, h, k); hide FinishedSubscribe; }
  }

  lemma SubscribeDeletesNothing(w: World, h: HttpAction, k: nat)
    requires LiveRow(w.db, k) && h.FinishSubscribe?
    ensures LiveRow(FinishedSubscribe(w, h.request, h.token, h.event, h.newKey, h.fault).db, k)
  {
  }

  // ---- The windows are real ----

  const T: Token := "t"
  const NO_FAULTS := Faults(true, Done, true, true)

  /** Subscribe, relay, dispatch and mark: what the witnesses share. */
  function Prefix(mark: Call): seq<Action> {
    [Http(BeginSubscribe("e", 0, 0)), Http(FinishSubscribe(ForSubscribe("e", 0, None), T, 7, 0, NoFault)),
     Relay(PublishRow(0, 1, Done)), Relay(DeleteRow(NoFault)), Queue(Dispatch(1)), Notify(Mark(1, mark))]
  }

  function Settled(id: nat, nid: nat): Action {
    Queue(SettleDelivery(id, nid, "", NO_FAULTS))
  }

  /** After its key is left behind, the message is redelivered, skipped and acked. */
  function RetriedAndSkipped(): seq<Action> {
    [Settled(1, 2), Settled(1, 3), Queue(Expire(2)), Queue(Dispatch(2)), Notify(Mark(2, Done)), Settled(2, 3)]
  }

  function Witness(window: Window): seq<Action> {
    match window
    case CrashAfterMark => Prefix(Done) + [Queue(Drop(1)), Queue(Dispatch(1)), Notify(Mark(1, Done)), Settled(1, 2)]
    case MarkErrorLanded => Prefix(FailedLanded) + RetriedAndSkipped()
    case UnmarkFailed =>
      Prefix(Done) + ([Notify(SendCommand(1, 2, FailedNotLanded)), Notify(Rollback(1, FailedNotLanded))]
                      + RetriedAndSkipped())
    case TakenBack =>
      Prefix(Done) + ([Queue(Recall(1, 2)), Queue(Dispatch(2)), Notify(Mark(2, Done)), Settled(2, 3)]
                      + [Notify(SendCommand(1, 3, FailedNotLanded)), Notify(Rollback(1, Done)),
                         Queue(SettleDelivery(1, 3, "", Faults(false, FailedNotLanded, false, false)))])
    case ReportGivenUp =>
      Prefix(Done) + [Notify(SendCommand(1, 2, Done)), Settled(1, 3), Queue(Dispatch(2)), Mailing(Smtp(2, Done, false)),
                      Mailing(Report(2, 3, 8, FailedNotLanded, true)), Settled(2, 3)]
  }

  lemma {:induction false} RunConcat(w: World, a: seq<Action>, b: seq<Action>)
    ensures Run(w, a + b) == Run(Run(w, a), b)
    decreases a
  {
    hide Next;
    if a == [] {
      assert a + b == b;
    } else {
      assert (a + b)[1..] == a[1..] + b;
      RunConcat(Next(w, a[0]), a[1..], b);
    }
  }

  lemma RunFour(w: World, p: seq<Action>)
    requires |p| == 4
    ensures Run(w, p) == Next(Next(Next(Next(w, p[0]), p[1]), p[2]), p[3])
  {
    hide Next;
    RunTwo(w, p);
    RunTwo(Next(Next(w, p[0]), p[1]), p[2..]);
    assert p[2..][2..] == [];
  }

  lemma RunTwo(w: World, p: seq<Action>)
    requires |p| >= 2
    ensures Run(w, p) == Run(Next(Next(w, p[0]), p[1]), p[2..])
  {
    hide Next;
    assert p[1..][1..] == p[2..];
  }

  const ENV := Envelope(7, SubscriptionCreated("e", T))

  /** The row and the saga Subscribe left at time 0. */
  ghost predicate Opened(w: World) {
    && w.db.sagas == map[T := SagaStore.Saga.Saga(AwaitingDelivery, 0)]
    && w.db.subs == map[0 := FIRST] && w.clock == 0 && w.staleAfter == 1800 && w.sweep == {}
  }

  /** The world after the prefix, as far as the witnesses need it. */
  ghost predicate AfterPrefix(w: World, mark: Call) {
    && w.tiers == 5 && Opened(w) && w.db.outbox == [] && w.relaying == None
    && w.keys == {7} && w.issued == map[7 := ENV.payload]
    && w.queues == map[1 := EVENT.(place := Held(if mark == Done then Marked else Settling(Retry)))]
    && w.lost == if mark == Done then map[] else map[T := MarkErrorLanded]
  }

  lemma PrefixReaches(mark: Call)
    requires mark == Done || mark == FailedLanded
    ensures AfterPrefix(Run(Start(5, 1800, 0), Prefix(mark)), mark)
  {
    var w0, p := Start(5, 1800, 0), Prefix(mark);
    var w1 := Next(w0, p[0]);
    assert Unknown(w0.db, "e", 0) && w1 == w0.(requests := {ForSubscribe("e", 0, None)});
    var w2 := Next(w1, p[1]);
    SubscribeFromEmpty(w1);
    assert w2.queues == map[] && w2.issued == map[7 := ENV.payload] && w2.lost == map[] && w2.keys == {};
    AfterSubscribe(w2, mark);
    hide Next;
    RunTwo(w0, p);
  }

  const FIRST := Handlers.Created("e", 0, T)

  lemma FirstSubscription()
    ensures var tx := StartSaga(NO_TABLES, 0, FIRST, ENV, 0);
            && tx.Some? && tx.value.outbox == [Row(0, ENV)]
            && tx.value.sagas == map[T := SagaStore.Saga.Saga(AwaitingDelivery, 0)] && tx.value.subs == map[0 := FIRST]
  {
    assert !Conflicts(NO_TABLES, 0, FIRST);
    StartSagaKeeps(NO_TABLES, 0, FIRST, ENV, 0);
    assert [] + [Row(0, ENV)] == [Row(0, ENV)];
  }

  lemma SubscribeFromEmpty(w: World)
    requires w == Start(5, 1800, 0).(requests := {ForSubscribe("e", 0, None)})
    ensures var v := Next(w, Http(FinishSubscribe(ForSubscribe("e", 0, None), T, 7, 0, NoFault)));
            && v == w.(db := v.db, issued := map[7 := ENV.payload], commits := v.commits)
            && Opened(v) && v.db.outbox == [Row(0, ENV)]
  {
    hide StartSaga;
    FirstSubscription();
  }

  const EVENT := Copy(Notifications, Event(ENV), map[], Main, false)

  lemma EventRelayed(w: World)
    requires Opened(w) && w.db.outbox == [Row(0, ENV)] && w.relaying == None && w.queues == map[]
    ensures var v := Next(Next(w, Relay(PublishRow(0, 1, Done))), Relay(DeleteRow(NoFault)));
            v == w.(db := v.db, queues := map[1 := EVENT]) && Opened(v) && v.db.outbox == []
  {
    var m := Next(w, Relay(PublishRow(0, 1, Done)));
    assert m == w.(queues := map[1 := EVENT], relaying := Some(Row(0, ENV)));
    assert Without([Row(0, ENV)], 0) == [];
  }

  lemma EventMarked(w: World, mark: Call)
    requires mark == Done || mark == FailedLanded
    requires w.tiers == 5 && Opened(w) && w.db.outbox == [] && w.relaying == None
    requires w.queues == map[1 := EVENT] && w.issued == map[7 := ENV.payload] && w.lost == map[] && w.keys == {}
    ensures AfterPrefix(Next(Next(w, Queue(Dispatch(1))), Notify(Mark(1, mark))), mark)
  {
    var m := Next(w, Queue(Dispatch(1)));
    assert m == w.(queues := map[1 := EVENT.(place := Held(Received))]);
  }

  lemma AfterSubscribe(w: World, mark: Call)
    requires mark == Done || mark == FailedLanded
    requires w.tiers == 5 && Opened(w) && w.db.outbox == [Row(0, ENV)] && w.relaying == None
    requires w.queues == map[] && w.issued == map[7 := ENV.payload] && w.lost == map[] && w.keys == {}
    ensures AfterPrefix(Run(w, Prefix(mark)[2..]), mark)
  {
    hide Next, AfterPrefix, Opened, Run;
    var p := Prefix(mark)[2..];
    assert p == [Relay(PublishRow(0, 1, Done)), Relay(DeleteRow(NoFault)), Queue(Dispatch(1)), Notify(Mark(1, mark))];
    EventRelayed(w);
    EventMarked(Next(Next(w, p[0]), p[1]), mark);
    RunFour(w, p);
  }

  /** Open, and nothing left that could settle it but the reaper. */
  ghost predicate Gone(w: World) {
    Awaiting(w.db, T) && w.db.outbox == [] && w.queues == map[]
  }

  const RETRIED := Copy(Notifications, Event(ENV), map[HEADER_ATTEMPTS := Int64(1)], Tier(0), false)

  lemma RetryPublishes(w: World, step: Step)
    requires w.tiers == 5 && Settles(step) == Some(Retry) && w.queues == map[1 := EVENT.(place := Held(step))]
    ensures Next(w, Settled(1, 2)) == w.(queues := map[1 := EVENT.(place := Held(Settling(Ack))), 2 := RETRIED])
  {
  }

  lemma OriginalAcked(w: World)
    requires w.queues == map[1 := EVENT.(place := Held(Settling(Ack))), 2 := RETRIED]
    ensures Next(w, Settled(1, 3)) == w.(queues := map[2 := RETRIED])
  {
    assert Next(w, Settled(1, 3)).queues == map[2 := RETRIED];
  }

  lemma RetryRepublishes(w: World, step: Step)
    requires w.tiers == 5 && Settles(step) == Some(Retry) && w.queues == map[1 := EVENT.(place := Held(step))]
    ensures Next(Next(w, Settled(1, 2)), Settled(1, 3)) == w.(queues := map[2 := RETRIED])
  {
    hide Next;
    RetryPublishes(w, step);
    OriginalAcked(w.(queues := map[1 := EVENT.(place := Held(Settling(Ack))), 2 := RETRIED]));
  }

  lemma RetryRedelivered(w: World)
    requires w.queues == map[2 := RETRIED]
    ensures Next(Next(w, Queue(Expire(2))), Queue(Dispatch(2)))
            == w.(queues := map[2 := RETRIED.(place := Held(Received))])
  {
    assert Next(w, Queue(Expire(2))) == w.(queues := map[2 := RETRIED.(place := Main)]);
  }

  lemma MarkSkips(w: World, id: nat, c: Copy)
    requires w.keys == {7} && w.queues == map[id := c]
    requires c.queue == Notifications && c.body == Event(ENV) && c.place == Held(Received)
    ensures Next(w, Notify(Mark(id, Done))) == w.(queues := map[id := c.(place := Held(Settling(Ack)))])
  {
  }

  lemma AckRemoves(w: World, id: nat, c: Copy)
    requires w.queues == map[id := c] && c.place == Held(Settling(Ack))
    ensures Next(w, Settled(id, id + 1)) == w.(queues := map[])
  {
  }

  lemma DuplicateSkipped(w: World, id: nat, c: Copy)
    requires w.keys == {7} && w.queues == map[id := c]
    requires c.queue == Notifications && c.body == Event(ENV) && c.place == Held(Received)
    ensures Next(Next(w, Notify(Mark(id, Done))), Settled(id, id + 1)) == w.(queues := map[])
  {
    hide Next;
    MarkSkips(w, id, c);
    AckRemoves(w.(queues := map[id := c.(place := Held(Settling(Ack)))]), id, c.(place := Held(Settling(Ack))));
  }

  lemma RetrySkips(w: World)
    requires w.keys == {7} && w.queues == map[2 := RETRIED]
    ensures Run(w, RetriedAndSkipped()[2..]) == w.(queues := map[])
  {
    var p := RetriedAndSkipped()[2..];
    RetryRedelivered(w);
    hide Next;
    DuplicateSkipped(w.(queues := map[2 := RETRIED.(place := Held(Received))]), 2, RETRIED.(place := Held(Received)));
    RunFour(w, p);
  }

  lemma SkippedIsGone(w: World, step: Step)
    requires w.tiers == 5 && Awaiting(w.db, T) && w.db.outbox == [] && w.keys == {7}
    requires Settles(step) == Some(Retry) && w.queues == map[1 := EVENT.(place := Held(step))]
    ensures Gone(Run(w, RetriedAndSkipped())) && Run(w, RetriedAndSkipped()).lost == w.lost
  {
    var p := RetriedAndSkipped();
    RetryRepublishes(w, step);
    hide Next;
    RetrySkips(w.(queues := map[2 := RETRIED]));
    RunTwo(w, p);
  }

  const MARKED := EVENT.(place := Held(Marked))

  lemma CrashRedelivers(w: World)
    requires w.keys == {7} && w.lost == map[] && w.queues == map[1 := MARKED]
    ensures Next(Next(w, Queue(Drop(1))), Queue(Dispatch(1)))
            == w.(queues := map[1 := MARKED.(place := Held(Received))], lost := map[T := CrashAfterMark])
  {
    assert Next(w, Queue(Drop(1))) == w.(queues := map[1 := MARKED.(place := Main)], lost := map[T := CrashAfterMark]);
  }

  lemma CrashIsGone(w: World)
    requires AfterPrefix(w, Done)
    ensures var v := Run(w, Witness(CrashAfterMark)[6..]); Gone(v) && v.lost == map[T := CrashAfterMark]
  {
    var p := [Queue(Drop(1)), Queue(Dispatch(1)), Notify(Mark(1, Done)), Settled(1, 2)];
    assert Witness(CrashAfterMark)[6..] == p;
    CrashRedelivers(w);
    hide Next;
    var v := w.(queues := map[1 := MARKED.(place := Held(Received))], lost := map[T := CrashAfterMark]);
    DuplicateSkipped(v, 1, MARKED.(place := Held(Received)));
    RunFour(w, p);
  }

  lemma RollbackFails(w: World)
    requires AfterPrefix(w, Done)
    ensures Next(Next(w, Notify(SendCommand(1, 2, FailedNotLanded))), Notify(Rollback(1, FailedNotLanded)))
            == w.(queues := map[1 := EVENT.(place := Held(Undone(false)))], lost := map[T := UnmarkFailed])
  {
    assert Next(w, Notify(SendCommand(1, 2, FailedNotLanded)))
           == w.(queues := map[1 := EVENT.(place := Held(Unmarking(false)))]);
  }

  lemma UnmarkIsGone(w: World)
    requires AfterPrefix(w, Done)
    ensures var v := Run(w, Witness(UnmarkFailed)[6..]); Gone(v) && v.lost == map[T := UnmarkFailed]
  {
    hide Next, Run, Gone;
    var p := [Notify(SendCommand(1, 2, FailedNotLanded)), Notify(Rollback(1, FailedNotLanded))];
    assert Witness(UnmarkFailed)[6..] == p + RetriedAndSkipped();
    RollbackFails(w);
    SkippedIsGone(Next(Next(w, p[0]), p[1]), Undone(false));
    RunConcat(w, p, RetriedAndSkipped());
    RunPair(w, p);
  }

  lemma RunPair(w: World, p: seq<Action>)
    requires |p| == 2
    ensures Run(w, p) == Next(Next(w, p[0]), p[1])
  {
    hide Next;
    RunTwo(w, p);
    assert p[2..] == [];
  }

  const TAKEN := MARKED.(recalled := true)

  /** The delivery is taken back, and the redelivery is skipped as a duplicate. */
  lemma RedeliverySkipped(w: World)
    requires w.keys == {7} && w.queues == map[1 := MARKED]
    ensures Next(Next(Next(Next(w, Queue(Recall(1, 2))), Queue(Dispatch(2))), Notify(Mark(2, Done))), Settled(2, 3))
            == w.(queues := map[1 := TAKEN])
  {
    var w1 := Next(w, Queue(Recall(1, 2)));
    assert w1 == w.(queues := map[1 := TAKEN, 2 := EVENT]);
    RedeliveryAcked(w1);
    hide Next;
    assert w1.(queues := map[1 := TAKEN]) == w.(queues := map[1 := TAKEN]);
  }

  lemma RedeliveryMarked(w: World)
    requires w.keys == {7} && w.queues == map[1 := TAKEN, 2 := EVENT]
    ensures Next(Next(w, Queue(Dispatch(2))), Notify(Mark(2, Done)))
            == w.(queues := map[1 := TAKEN, 2 := EVENT.(place := Held(Settling(Ack)))])
  {
    assert Next(w, Queue(Dispatch(2))) == w.(queues := map[1 := TAKEN, 2 := EVENT.(place := Held(Received))]);
  }

  lemma RedeliverySettled(w: World)
    requires w.queues == map[1 := TAKEN, 2 := EVENT.(place := Held(Settling(Ack)))]
    ensures Next(w, Settled(2, 3)) == w.(queues := map[1 := TAKEN])
  {
    assert Next(w, Settled(2, 3)).queues == map[1 := TAKEN];
  }

  lemma RedeliveryAcked(w: World)
    requires w.keys == {7} && w.queues == map[1 := TAKEN, 2 := EVENT]
    ensures Next(Next(Next(w, Queue(Dispatch(2))), Notify(Mark(2, Done))), Settled(2, 3))
            == w.(queues := map[1 := TAKEN])
  {
    hide Next;
    RedeliveryMarked(w);
    RedeliverySettled(w.(queues := map[1 := TAKEN, 2 := EVENT.(place := Held(Settling(Ack)))]));
  }

  lemma HandlerRollsBack(w: World)
    requires w.keys == {7} && w.queues == map[1 := TAKEN]
    ensures Next(Next(w, Notify(SendCommand(1, 3, FailedNotLanded))), Notify(Rollback(1, Done)))
            == w.(keys := {}, queues := map[1 := TAKEN.(place := Held(Undone(false)))])
  {
    assert Next(w, Notify(SendCommand(1, 3, FailedNotLanded)))
           == w.(queues := map[1 := TAKEN.(place := Held(Unmarking(false)))]);
  }

  lemma HandlerEnds(w: World)
    requires w.lost == map[] && w.queues == map[1 := TAKEN.(place := Held(Undone(false)))]
    ensures Next(w, Queue(SettleDelivery(1, 3, "", Faults(false, FailedNotLanded, false, false))))
            == w.(queues := map[], lost := map[T := TakenBack])
  {
    assert !Redelivered(w.queues, 1);
  }

  /** The handler that goes on publishes nothing, rolls back, and finds no channel for its Retry. */
  lemma HandlerGivesUp(w: World)
    requires w.keys == {7} && w.lost == map[] && w.queues == map[1 := TAKEN]
    ensures var u := Next(Next(w, Notify(SendCommand(1, 3, FailedNotLanded))), Notify(Rollback(1, Done)));
            Next(u, Queue(SettleDelivery(1, 3, "", Faults(false, FailedNotLanded, false, false))))
            == w.(keys := {}, queues := map[], lost := map[T := TakenBack])
  {
    hide Next;
    HandlerRollsBack(w);
    HandlerEnds(w.(keys := {}, queues := map[1 := TAKEN.(place := Held(Undone(false)))]));
  }

  lemma TakenBackIsGone(w: World)
    requires AfterPrefix(w, Done)
    ensures var v := Run(w, Witness(TakenBack)[6..]); Gone(v) && v.lost == map[T := TakenBack]
  {
    var p := [Queue(Recall(1, 2)), Queue(Dispatch(2)), Notify(Mark(2, Done)), Settled(2, 3)];
    var q := [Notify(SendCommand(1, 3, FailedNotLanded)), Notify(Rollback(1, Done)),
              Queue(SettleDelivery(1, 3, "", Faults(false, FailedNotLanded, false, false)))];
    assert Witness(TakenBack)[6..] == p + q;
    var m := w.(queues := map[1 := TAKEN]);
    RedeliverySkipped(w);
    HandlerGivesUp(m);
    hide Next;
    RunConcat(w, p, q);
    RunFour(w, p);
    RunTwo(m, q);
    assert q[2..] == [q[2]] && q[2..][1..] == [];
  }

  const COMMAND := Copy(EmailDelivery, Command(Verification("e", T)), map[], Main, false)

  lemma CommandPublished(w: World)
    requires AfterPrefix(w, Done)
    ensures Next(w, Notify(SendCommand(1, 2, Done)))
            == w.(queues := map[1 := EVENT.(place := Held(Settling(Ack))), 2 := COMMAND])
  {
  }

  lemma EventAcked(w: World)
    requires w.queues == map[1 := EVENT.(place := Held(Settling(Ack))), 2 := COMMAND]
    ensures Next(w, Settled(1, 3)) == w.(queues := map[2 := COMMAND])
  {
    assert Next(w, Settled(1, 3)).queues == map[2 := COMMAND];
  }

  lemma CommandSent(w: World)
    requires AfterPrefix(w, Done)
    ensures Next(Next(w, Notify(SendCommand(1, 2, Done))), Settled(1, 3)) == w.(queues := map[2 := COMMAND])
  {
    hide Next, AfterPrefix;
    CommandPublished(w);
    EventAcked(w.(queues := map[1 := EVENT.(place := Held(Settling(Ack))), 2 := COMMAND]));
  }

  lemma MailAccepted(w: World)
    requires w.queues == map[2 := COMMAND]
    ensures var v := Next(Next(w, Queue(Dispatch(2))), Mailing(Smtp(2, Done, false)));
            v == w.(queues := map[2 := COMMAND.(place := Held(Reporting(true, 0, false)))],
                    mails := w.mails + {Mailer.VerificationMail("e", T)})
  {
    assert Next(w, Queue(Dispatch(2))) == w.(queues := map[2 := COMMAND.(place := Held(Sending(0)))]);
  }

  lemma ReportLost(w: World)
    requires w.queues == map[2 := COMMAND.(place := Held(Reporting(true, 0, false)))]
    requires 8 !in w.issued && w.lost == map[]
    ensures var v := Next(Next(w, Mailing(Report(2, 3, 8, FailedNotLanded, true))), Settled(2, 3));
            v.db == w.db && v.queues == map[] && v.lost == map[T := ReportGivenUp]
  {
    var m := Next(w, Mailing(Report(2, 3, 8, FailedNotLanded, true)));
    assert m.queues == map[2 := COMMAND.(place := Held(Settling(Ack)))] && m.lost == map[T := ReportGivenUp];
  }

  lemma MailedButUnreported(w: World)
    requires w.queues == map[2 := COMMAND] && w.issued == map[7 := ENV.payload] && w.lost == map[]
    ensures var v := Run(w, Witness(ReportGivenUp)[8..]);
            v.db == w.db && v.queues == map[] && v.lost == map[T := ReportGivenUp]
  {
    var p := [Queue(Dispatch(2)), Mailing(Smtp(2, Done, false)),
              Mailing(Report(2, 3, 8, FailedNotLanded, true)), Settled(2, 3)];
    assert Witness(ReportGivenUp)[8..] == p;
    MailAccepted(w);
    hide Next;
    ReportLost(Next(Next(w, p[0]), p[1]));
    RunFour(w, p);
  }

  lemma UnreportedIsGone(w: World)
    requires AfterPrefix(w, Done)
    ensures var v := Run(w, Witness(ReportGivenUp)[6..]); Gone(v) && v.lost == map[T := ReportGivenUp]
  {
    var p := Witness(ReportGivenUp)[6..];
    assert p[0] == Notify(SendCommand(1, 2, Done)) && p[1] == Settled(1, 3);
    assert p[2..] == Witness(ReportGivenUp)[8..];
    CommandSent(w);
    hide Next, Witness;
    RunTwo(w, p);
    MailedButUnreported(w.(queues := map[2 := COMMAND]));
  }

  // ---- A sweep may leave a pending row behind ----

  /** After the prefix: the mail is accepted and its result claimed, the saga goes stale and is
      queried, the claimed result completes it, and the reaper comes too late. */
  function LateReaper(): seq<Action> {
    [Notify(SendCommand(1, 2, Done)), Settled(1, 3), Queue(Dispatch(2)), Mailing(Smtp(2, Done, false))]
    + [Mailing(Report(2, 3, 8, Done, false)), Queue(Dispatch(3)), Action.Saga(Claim(3, true)), Http(Tick(1801))]
    + [Action.Saga(QueryStale), Action.Saga(Write(3, NoFault)), Action.Saga(Reap(T, NoFault)), Settled(3, 4)]
  }

  const RESULT := Copy(OnboardingSaga, Event(Envelope(8, VerificationDelivered(T))), map[], Main, false)

  lemma ResultClaimed(w: World)
    requires w.queues == map[2 := COMMAND.(place := Held(Reporting(true, 0, false)))] && 8 !in w.issued && Opened(w)
    ensures var v := Run(w, LateReaper()[4..8]);
            && v.clock == 1801 && v.staleAfter == 1800 && v.sweep == {}
            && PendingWith(v.db, 0, T) && v.db.sagas == map[T := SagaStore.Saga.Saga(AwaitingDelivery, 0)]
            && 3 in v.queues && v.queues[3] == RESULT.(place := Held(Claimed))
  {
    var p := LateReaper()[4..8];
    var w1 := Next(w, p[0]);
    assert w1.queues == map[2 := COMMAND.(place := Held(Settling(Ack))), 3 := RESULT];
    assert w1.db == w.db && w1.clock == 0 && w1.staleAfter == 1800 && w1.sweep == {};
    ClaimAndTick(w1, p[1..]);
    hide Next;
  }

  lemma ClaimAndTick(w: World, p: seq<Action>)
    requires p == [Queue(Dispatch(3)), Action.Saga(Claim(3, true)), Http(Tick(1801))]
    requires 3 in w.queues && w.queues[3] == RESULT && Opened(w)
    ensures var v := Run(w, p);
            && v.clock == 1801 && v.staleAfter == 1800 && v.sweep == {}
            && PendingWith(v.db, 0, T) && v.db.sagas == map[T := SagaStore.Saga.Saga(AwaitingDelivery, 0)]
            && 3 in v.queues && v.queues[3] == RESULT.(place := Held(Claimed))
  {
    var w1 := Next(w, p[0]);
    assert w1 == w.(queues := w.queues[3 := RESULT.(place := Held(Received))]);
    var w2 := Next(w1, p[1]);
    assert w2 == w1.(queues := w1.queues[3 := RESULT.(place := Held(Claimed))]);
    var w3 := Next(w2, p[2]);
    assert w3 == w2.(clock := 1801);
    hide Next;
    RunTwo(w, p);
    assert p[2..] == [p[2]] && [p[2]][1..] == [];
  }

  lemma ReaperComesLate(w: World)
    requires 3 in w.queues && w.queues[3] == RESULT.(place := Held(Claimed))
    requires w.clock == 1801 && w.staleAfter == 1800 && w.sweep == {}
    requires PendingWith(w.db, 0, T) && w.db.sagas == map[T := SagaStore.Saga.Saga(AwaitingDelivery, 0)]
    ensures var q := Next(w, Action.Saga(QueryStale));
            var v := Next(Next(q, Action.Saga(Write(3, NoFault))), Action.Saga(Reap(T, NoFault)));
            && q.sweep == {T} && v.sweep == {}
            && PendingWith(v.db, 0, T) && T in v.db.sagas && v.db.sagas[T].state == Completed
  {
    var q := Next(w, Action.Saga(QueryStale));
    assert IsStale(w.db, T, w.clock, w.staleAfter);
    assert q.sweep == {T};
    var c := Next(q, Action.Saga(Write(3, NoFault)));
    assert c.db == MarkCompleted(w.db, T) && c.sweep == {T};
    assert Next(c, Action.Saga(Reap(T, NoFault))).db == c.db;
  }

  /** The reaper may visit a token it found stale, its Compensate may commit, and a live pending
      row still carries the token: the orchestrator completed the saga in between. */
  lemma SweepCanLeaveAPendingRow()
    ensures var start := Start(5, 1800, 0);
            var queried := Run(start, Prefix(Done) + LateReaper()[..9]);
            var swept := Run(start, Prefix(Done) + LateReaper()[..11]);
            && queried.sweep == {T} && swept.sweep == {}
            && PendingWith(swept.db, 0, T) && T in swept.db.sagas && swept.db.sagas[T].state == Completed
  {
    hide Run, Next, LateReaper, Opened, PendingWith, AfterPrefix;
    LateReaperSteps();
    var start, p := Start(5, 1800, 0), LateReaper();
    PrefixReaches(Done);
    var w0 := Run(start, Prefix(Done));
    LateReaperMails(w0);
    var w4 := Run(w0, p[..4]);
    ResultClaimed(w4);
    ReaperComesLate(Run(w4, p[4..8]));
    LateReaperRuns(w0);
    RunConcat(start, Prefix(Done), p[..9]);
    RunConcat(start, Prefix(Done), p[..11]);
  }

  lemma LateReaperSteps()
    ensures var p := LateReaper();
            |p| == 12 && p[8] == Action.Saga(QueryStale) && p[9] == Action.Saga(Write(3, NoFault))
            && p[10] == Action.Saga(Reap(T, NoFault))
  {
  }

  lemma LateReaperMails(w: World)
    requires AfterPrefix(w, Done)
    ensures var v := Run(w, LateReaper()[..4]);
            && Opened(v) && 8 !in v.issued && Mailer.VerificationMail("e", T) in v.mails
            && v.queues == map[2 := COMMAND.(place := Held(Reporting(true, 0, false)))]
  {
    var p := LateReaper()[..4];
    CommandSent(w);
    MailAccepted(w.(queues := map[2 := COMMAND]));
    hide Next;
    RunFour(w, p);
  }

  lemma LateReaperRuns(w: World)
    ensures var p := LateReaper();
            var w8 := Run(Run(w, p[..4]), p[4..8]);
            && Run(w, p[..9]) == Next(w8, p[8])
            && Run(w, p[..11]) == Next(Next(Next(w8, p[8]), p[9]), p[10])
  {
    hide Next;
    var p := LateReaper();
    assert p[..9] == p[..4] + (p[4..8] + [p[8]]);
    assert p[..11] == p[..9] + p[9..11];
    RunConcat(w, p[..4], p[4..8] + [p[8]]);
    RunConcat(Run(w, p[..4]), p[4..8], [p[8]]);
    RunConcat(w, p[..9], p[9..11]);
    RunTwo(Run(w, p[..9]), p[9..11]);
  }

  /** None of the five exceptions in Accounting can be dropped: for each window there is a run
      that passed only it and left an open saga with no message anywhere. */
  lemma EveryWindowIsReal(window: Window)
    ensures var w := Run(Start(5, 1800, 0), Witness(window));
            Gone(w) && w.lost == map[T := window]
  {
    hide Run, Next, Gone, AfterPrefix, Witness, Prefix;
    var mark := if window == MarkErrorLanded then FailedLanded else Done;
    var w := Run(Start(5, 1800, 0), Prefix(mark));
    PrefixReaches(mark);
    WitnessStarts(window);
    RunConcat(Start(5, 1800, 0), Prefix(mark), Witness(window)[6..]);
    match window
    case CrashAfterMark => CrashIsGone(w);
    case MarkErrorLanded => MarkErrorIsGone(w);
    case UnmarkFailed => UnmarkIsGone(w);
    case TakenBack => TakenBackIsGone(w);
    case ReportGivenUp => UnreportedIsGone(w);
  }

  lemma WitnessStarts(window: Window)
    ensures |Witness(window)| >= 6
    ensures Witness(window) == Prefix(if window == MarkErrorLanded then FailedLanded else Done) + Witness(window)[6..]
  {
  }

  lemma MarkErrorIsGone(w: World)
    requires AfterPrefix(w, FailedLanded)
    ensures var v := Run(w, Witness(MarkErrorLanded)[6..]); Gone(v) && v.lost == map[T := MarkErrorLanded]
  {
    assert Witness(MarkErrorLanded)[6..] == RetriedAndSkipped();
    SkippedIsGone(w, Settling(Retry));
  }
}
