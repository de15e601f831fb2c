/** The steps of the onboarding machine against the services: what each step does, column by column,
    and that the steps of one handling together do what the service's method does. */
module Conformance {
  import opened Domain
  import opened Outbox
  import opened Broker
  import opened SagaStore
  import opened Onboarding
  import opened OnboardingInvariant
  import opened OnboardingTheorems
  import opened Duplicates
  import Handlers
  import Notifier
  import Mailer
  import Orchestrator

  // ---- The handlers ----

  /** No other live row has the email and repository, or the confirm token. */
  ghost predicate IndexesAllow(db: Tables, k: nat, email: Email, repo: nat, token: Token) {
    forall j :: j in db.subs && j != k && !db.subs[j].deleted ==>
      !(db.subs[j].email == email && db.subs[j].repo == repo) && db.subs[j].confirmToken != token
  }

  lemma IndexesDecide(db: Tables, k: nat, row: Subscription)
    ensures Save(db, k, row).Some? <==> IndexesAllow(db, k, row.email, row.repo, row.confirmToken)
    ensures Save(db, k, row).Some? ==>
              Save(db, k, row).value == db.(subs := db.subs[k := Subscription(row.email, row.repo, row.status,
                                                                              row.confirmToken, row.apiToken, false)])
  {
  }

  /** The save of Confirm: the row read becomes active and live with the new API token, and
      nothing else changes; a refused or rolled-back save changes nothing. */
  lemma FinishConfirmExactly(w: World, r: Request, apiToken: Token, fault: DbFault)
    requires r in w.requests && r.ForConfirm?
    ensures var v := Next(w, Http(FinishConfirm(r, apiToken, fault)));
            if r.row.status != Active && fault != RolledBack
               && IndexesAllow(w.db, r.key, r.row.email, r.row.repo, r.row.confirmToken)
            then v == w.(db := w.db.(subs := w.db.subs[r.key := Subscription(r.row.email, r.row.repo, Active,
                                                                             r.row.confirmToken, apiToken, false)]))
            else v == w
  {
    IndexesDecide(w.db, r.key, r.row.(status := Active, apiToken := apiToken));
    hide Conflicts;
  }

  lemma FinishUnsubscribeExactly(w: World, r: Request, fault: DbFault)
    requires r in w.requests && r.ForUnsubscribe?
    ensures var v := Next(w, Http(FinishUnsubscribe(r, fault)));
            if r.row.status != Unsubscribed && fault != RolledBack
               && IndexesAllow(w.db, r.key, r.row.email, r.row.repo, r.row.confirmToken)
            then v == w.(db := w.db.(subs := w.db.subs[
                   r.key := Subscription(r.row.email, r.row.repo, Unsubscribed,
                                         r.row.confirmToken, r.row.apiToken, false)]))
            else v == w
  {
    IndexesDecide(w.db, r.key, r.row.(status := Unsubscribed));
    hide Conflicts;
  }

  /** The row Subscribe saves, and where. */
  function SubscribedRow(r: Request, token: Token): Subscription
    requires r.ForSubscribe?
  {
    if r.found.Some?
    then Subscription(r.found.value.1.email, r.found.value.1.repo, Pending, token, "", false)
    else Subscription(r.email, r.repo, Pending, token, "", false)
  }

  function SubscribedKey(r: Request, newKey: nat): nat
    requires r.ForSubscribe?
  {
    if r.found.Some? then r.found.value.0 else newKey
  }

  /** The transaction of Subscribe: a pending row, an open saga and a queued event with one token, and
      the history of them, all or nothing. */
  lemma FinishSubscribeExactly(w: World, r: Request, token: Token, event: nat, newKey: nat, fault: DbFault)
    requires r in w.requests && r.ForSubscribe?
    ensures var v := Next(w, Http(FinishSubscribe(r, token, event, newKey, fault)));
            var row, k := SubscribedRow(r, token), SubscribedKey(r, newKey);
            if && event !in w.issued && fault != RolledBack && token !in w.db.sagas
               && (if r.found.Some? then r.found.value.1.status != Active else newKey !in w.db.subs)
               && IndexesAllow(w.db, k, row.email, row.repo, token)
            then v == w.(db := Tables(w.db.subs[k := row],
                                      w.db.sagas[token := SagaStore.Saga.Saga(AwaitingDelivery, w.clock)],
                                      w.db.outbox + [Row(w.db.nextRow,
                                                         Envelope(event, SubscriptionCreated(r.email, token)))],
                                      w.db.nextRow + 1),
                         issued := w.issued[event := SubscriptionCreated(r.email, token)],
                         commits := w.commits[token := Commit(r.email, event)])
            else v == w
  {
    var k := SubscribedKey(r, newKey);
    var saved := if r.found.Some? then Handlers.PendingAgain(r.found.value.1, token)
                 else Handlers.Created(r.email, r.repo, token);
    IndexesDecide(w.db, k, saved);
    InsertOne(w.db.outbox, w.db.nextRow, Envelope(event, SubscriptionCreated(r.email, token)));
    hide Conflicts, Insert, IndexesAllow;
  }

  lemma InsertOne(rows: seq<Row>, next: nat, env: Envelope)
    ensures Insert(rows, next, [env]) == rows + [Row(next, env)]
  {
    var r := Insert(rows, next, [env]);
    assert r == r[..|rows|] + [r[|rows|]];
  }

  /** What the handlers' reads find. */
  lemma ReadsExactly(w: World, email: Email, repo: nat, k: nat)
    ensures var v := Next(w, Http(BeginSubscribe(email, repo, k)));
            var found := k in w.db.subs && !w.db.subs[k].deleted
                         && w.db.subs[k].email == email && w.db.subs[k].repo == repo;
            var unknown := forall j :: j in w.db.subs && !w.db.subs[j].deleted ==>
                             w.db.subs[j].email != email || w.db.subs[j].repo != repo;
            v == w.(requests := w.requests + if found then {ForSubscribe(email, repo, Some((k, w.db.subs[k])))}
                                             else if unknown then {ForSubscribe(email, repo, None)} else {})
    ensures Next(w, Http(BeginConfirm(k))) ==
              w.(requests := w.requests + if k in w.db.subs && !w.db.subs[k].deleted
                                          then {ForConfirm(k, w.db.subs[k])} else {})
    ensures Next(w, Http(BeginUnsubscribe(k))) ==
              w.(requests := w.requests + if k in w.db.subs && !w.db.subs[k].deleted
                                          then {ForUnsubscribe(k, w.db.subs[k])} else {})
  {
    assert w.requests + {} == w.requests;
  }

  /** Every request holds a live row that was read, under the email and repository asked for. */
  ghost predicate RequestOk(r: Request) {
    match r
    case ForSubscribe(email, repo, Some((_, row))) => !row.deleted && row.email == email && row.repo == repo
    case ForSubscribe(_, _, None) => true
    case ForConfirm(_, row) => !row.deleted
    case ForUnsubscribe(_, row) => !row.deleted
  }

  lemma RequestsStayOk(w: World, a: Action)
    requires forall r :: r in w.requests ==> RequestOk(r)
    ensures forall r :: r in Next(w, a).requests ==> RequestOk(r)
  {
    if a.Http? { HttpRequests(w, a.http); } else { OthersKeepRequests(w, a); }
  }

  lemma HttpRequests(w: World, h: HttpAction)
    requires forall r :: r in w.requests ==> RequestOk(r)
    ensures forall r :: r in NextHttp(w, h).requests ==> RequestOk(r)
  {
    hide FinishedSubscribe;
    if h.FinishSubscribe? { SubscribeKeepsRequests(w, h); }
  }

  lemma SubscribeKeepsRequests(w: World, h: HttpAction)
    requires h.FinishSubscribe?
    ensures FinishedSubscribe(w, h.request, h.token, h.event, h.newKey, h.fault).requests == w.requests
  {
  }

  lemma OthersKeepRequests(w: World, a: Action)
    requires !a.Http?
    ensures Next(w, a).requests == w.requests
  {
    match a
    case Relay(r) =>
    case Queue(q) =>
    case Notify(n) =>
    case Mailing(m) =>
    case Saga(s) =>
  }

  /** So in every run the event of a subscription goes to the address of the row it is saved with. */
  lemma {:induction false} RequestsAreReads(w: World, actions: seq<Action>)
    requires forall r :: r in w.requests ==> RequestOk(r)
    ensures forall r :: r in Run(w, actions).requests ==> RequestOk(r)
    decreases actions
  {
    hide Next, RequestOk;
    if actions != [] {
      RequestsStayOk(w, actions[0]);
      RequestsAreReads(Next(w, actions[0]), actions[1..]);
    }
  }

  /** After the mail: the subscriber follows the link. */
  function ConfirmRun(): seq<Action> {
    Prefix(Done)
    + (LateReaper()[..4] + [Http(BeginConfirm(0)), Http(FinishConfirm(ForConfirm(0, FIRST), "a", NoFault))])
  }

  lemma ConfirmReaches(w: World)
    requires Opened(w)
    ensures var v := Next(Next(w, Http(BeginConfirm(0))), Http(FinishConfirm(ForConfirm(0, FIRST), "a", NoFault)));
            v.db.subs == map[0 := Subscription("e", 0, Active, T, "a", false)] && v.mails == w.mails
  {
    ReadsExactly(w, "", 0, 0);
    var m := Next(w, Http(BeginConfirm(0)));
    FinishConfirmExactly(m, ForConfirm(0, FIRST), "a", NoFault);
    hide Next;
  }

  /** A run that does what the system is for: subscribe, be mailed the token, confirm, be active. */
  lemma SubscriptionCanBecomeActive()
    ensures var w := Run(Start(5, 1800, 0), ConfirmRun());
            && Mailer.VerificationMail("e", T) in w.mails
            && w.db.subs == map[0 := Subscription("e", 0, Active, T, "a", false)]
  {
    hide Next, Run, Opened, AfterPrefix;
    LateReaperSteps();
    PrefixReaches(Done);
    var w := Run(Start(5, 1800, 0), Prefix(Done));
    LateReaperMails(w);
    var m := Run(w, LateReaper()[..4]);
    ConfirmReaches(m);
    var p := [Http(BeginConfirm(0)), Http(FinishConfirm(ForConfirm(0, FIRST), "a", NoFault))];
    RunConcat(Start(5, 1800, 0), Prefix(Done), LateReaper()[..4] + p);
    RunConcat(w, LateReaper()[..4], p);
    RunPair(m, p);
  }

  // ---- The scanner's writes and the clock ----

  lemma ScannerStepsExactly(w: World, event: nat, payload: Payload, repo: nat, d: nat)
    ensures event !in w.issued && (payload.ReleaseDetected? || payload.RepositoryMoved?) ==>
              Next(w, Http(ScannerEvent(event, payload))) ==
                w.(db := w.db.(outbox := w.db.outbox + [Row(w.db.nextRow, Envelope(event, payload))],
                               nextRow := w.db.nextRow + 1),
                   issued := w.issued[event := payload])
    ensures Next(w, Http(ScannerMoved(repo))) == w.(db := UnsubscribeAll(w.db, repo))
    ensures Next(w, Http(Tick(d))) == w.(clock := w.clock + d)
  {
    InsertOne(w.db.outbox, w.db.nextRow, Envelope(event, payload));
    hide Insert;
  }

  // ---- The relay and the broker ----

  /** The queue an event is meant for. */
  function QueueOf(p: Payload): QueueSet
    requires !p.Undecodable? && !p.UnknownType?
  {
    if p.VerificationDelivered? || p.VerificationFailed? then OnboardingSaga else Notifications
  }

  /** A publish that lands puts the event in its queue; the row is deleted only after a confirm, and by
      its id. */
  lemma RelayStepsExactly(w: World, i: nat, id: nat, call: Call, fault: DbFault)
    requires i < |w.db.outbox| && id !in w.queues && w.relaying == None
    requires !w.db.outbox[i].env.payload.Undecodable? && !w.db.outbox[i].env.payload.UnknownType?
    ensures var row := w.db.outbox[i];
            var v := Next(w, Relay(PublishRow(i, id, call)));
            && v == w.(queues := if call == FailedNotLanded then w.queues
                                 else w.queues[id := Copy(QueueOf(row.env.payload), Event(row.env), map[], Main,
                                                          false)],
                       relaying := if call == Done then Some(row) else None)
            && (call == Done ==>
                  var u := Next(v, Relay(DeleteRow(fault)));
                  && u == v.(db := v.db.(outbox := u.db.outbox), relaying := None)
                  && (forall x :: x in u.db.outbox <==> x in w.db.outbox && (fault != RolledBack ==> x.id != row.id)))
  {
    hide Without;
  }

  /** How a handler starts. */
  function FirstStep(queue: QueueSet): Step {
    if queue == EmailDelivery then Sending(0) else Received
  }

  /** A message in main is handed to a handler, one in a tier comes back to main, a live delivery whose
      worker crashes goes back to main, one whose channel drops is delivered again under a new
      identity while its handler goes on, and a key can expire. */
  lemma QueueStepsExactly(w: World, id: nat, nid: nat, event: nat)
    requires id in w.queues && nid !in w.queues
    ensures Next(w, Queue(Dispatch(id))).queues ==
              if w.queues[id].place == Main
              then w.queues[id := w.queues[id].(place := Held(FirstStep(w.queues[id].queue)))] else w.queues
    ensures Next(w, Queue(Expire(id))).queues ==
              if w.queues[id].place.Tier? then w.queues[id := w.queues[id].(place := Main)] else w.queues
    ensures w.queues[id].place.Held? && !w.queues[id].recalled ==>
              Next(w, Queue(Drop(id))).queues == w.queues[id := w.queues[id].(place := Main)]
    ensures var c := w.queues[id];
            c.place.Held? && !c.recalled ==>
              Next(w, Queue(Recall(id, nid))) ==
                w.(queues := w.queues[id := Copy(c.queue, c.body, c.headers, c.place, true)]
                                     [nid := Copy(c.queue, c.body, c.headers, Main, false)])
    ensures w.queues[id].place.Held? && w.queues[id].recalled ==> Next(w, Queue(Drop(id))).queues == w.queues - {id}
    ensures Next(w, Queue(KeyExpires(event))) == w.(keys := w.keys - {event})
  {
  }

  /** A delivery whose Retry or DeadLetter could not be published is not stuck: if the nack works, the
      broker hands the unchanged message to a handler again. */
  lemma NackedIsHandledAgain(w: World, id: nat, nid: nat, reason: string, f: Faults)
    requires id in w.queues && nid !in w.queues && !w.queues[id].recalled && w.queues[id].place.Held?
    requires Settles(w.queues[id].place.step).Some? && Settles(w.queues[id].place.step) != Some(Ack)
    requires !PublishSeen(f) && f.nacked
    ensures var v := Next(Next(w, Queue(SettleDelivery(id, nid, reason, f))), Queue(Dispatch(id)));
            id in v.queues && v.queues[id] == w.queues[id].(place := Held(FirstStep(w.queues[id].queue)))
  {
    hide Republished;
  }

  // ---- One handling by the notifier ----

  function NotifierSteps(w: World, id: nat, nid: nat, mark: Call, publish: Call, unmark: Call): World {
    Next(Next(Next(w, Notify(Mark(id, mark))), Notify(SendCommand(id, nid, publish))), Notify(Rollback(id, unmark)))
  }

  /** Mark, publish and rollback together end as process does: what is settled how, which keys are
      left, and whether the command is in the mailer's queue. */
  lemma NotifierStepsAreProcess(w: World, id: nat, nid: nat, mark: Call, publish: Call, unmark: Call)
    requires At(w, id, Notifications, Received) && nid !in w.queues && w.queues[id].body.Event?
    requires Notifier.ToCommand(w.queues[id].body.env).Send?
    ensures var v, env := NotifierSteps(w, id, nid, mark, publish, unmark), w.queues[id].body.env;
            var first := mark == Done && env.id !in w.keys;
            && id in v.queues && v.queues[id] == w.queues[id].(place := v.queues[id].place) && v.queues[id].place.Held?
            && Settles(v.queues[id].place.step) ==
                 Some(if mark != Done || (first && publish != Done) then Retry else Ack)
            && v.keys == (if mark == FailedNotLanded then w.keys
                          else if first && publish != Done && unmark != FailedNotLanded then w.keys
                          else w.keys + {env.id})
            && (nid in v.queues <==> first && publish != FailedNotLanded)
            && (nid in v.queues ==>
                  v.queues[nid] == Copy(EmailDelivery, Command(Notifier.ToCommand(env).cmd), map[], Main, false))
  {
    hide Notifier.ToCommand, Lose;
    var m := Next(w, Notify(Mark(id, mark)));
    var env := w.queues[id].body.env;
    if mark == Done && env.id !in w.keys {
      assert m == w.(keys := w.keys + {env.id}, queues := w.queues[id := w.queues[id].(place := Held(Marked))]);
      SendingSteps(m, id, nid, publish, unmark);
      assert w.keys + {env.id} - {env.id} == w.keys;
    } else {
      assert m.queues == w.queues[id := w.queues[id].(place := Held(Settling(if mark == Done then Ack else Retry)))];
      assert Next(m, Notify(SendCommand(id, nid, publish))) == m;
    }
  }

  lemma SendingSteps(w: World, id: nat, nid: nat, publish: Call, unmark: Call)
    requires At(w, id, Notifications, Marked) && nid !in w.queues && w.queues[id].body.Event?
    requires Notifier.ToCommand(w.queues[id].body.env).Send?
    ensures var v := Next(Next(w, Notify(SendCommand(id, nid, publish))), Notify(Rollback(id, unmark)));
            var env := w.queues[id].body.env;
            && id in v.queues && v.queues[id] == w.queues[id].(place := v.queues[id].place) && v.queues[id].place.Held?
            && Settles(v.queues[id].place.step) == Some(if publish != Done then Retry else Ack)
            && v.keys == (if publish != Done && unmark != FailedNotLanded then w.keys - {env.id} else w.keys)
            && (nid in v.queues <==> publish != FailedNotLanded)
            && (nid in v.queues ==>
                  v.queues[nid] == Copy(EmailDelivery, Command(Notifier.ToCommand(env).cmd), map[], Main, false))
  {
    hide Notifier.ToCommand, Lose;
  }

  lemma PoisonIsDeadLettered(w: World, id: nat, nid: nat, mark: Call, publish: Call, unmark: Call)
    requires At(w, id, Notifications, Received)
    requires w.queues[id].body.Event? ==> Notifier.ToCommand(w.queues[id].body.env).Poison?
    ensures NotifierSteps(w, id, nid, mark, publish, unmark) ==
              w.(queues := w.queues[id := w.queues[id].(place := Held(Settling(DeadLetter)))])
  {
  }

  // ---- One handling by the mailer ----

  /** A send: SMTP has the mail exactly if the call landed. */
  lemma SmtpStepExactly(w: World, id: nat, tried: nat, call: Call, cancelled: bool)
    requires At(w, id, EmailDelivery, Sending(tried))
    ensures var v, c := Next(w, Mailing(Smtp(id, call, cancelled))), w.queues[id];
            if c.body.Command? && Mailer.BuildEmail(c.body.cmd).Some?
            then && v.queues == w.queues[id := c.(place := Held(Mailer.AfterSend(c.body.cmd, tried, call, cancelled)))]
                 && v.mails == (if call == FailedNotLanded then w.mails
                                else w.mails + {Mailer.BuildEmail(c.body.cmd).value})
                 && v.failed == w.failed +
                      (if Mailer.AfterSend(c.body.cmd, tried, call, cancelled) == Reporting(false, 0, false)
                       then {Mailer.VerificationToken(c.body.cmd)} else {})
                 && v.keys == w.keys && v.db == w.db && v.lost == w.lost
            else v == w.(queues := w.queues[id := c.(place := Held(Settling(DeadLetter)))])
  {
    hide Mailer.BuildEmail, Mailer.AfterSend;
    assert w.failed + {} == w.failed;
  }

  /** A report: the result that goes to the saga's queue is the outcome, with the command's token. */
  lemma ReportStepExactly(w: World, id: nat, nid: nat, event: nat, call: Call, cancelled: bool)
    requires id in w.queues && w.queues[id].queue == EmailDelivery && w.queues[id].place.Held?
    requires w.queues[id].place.step.Reporting? && w.queues[id].body.Command?
    requires nid !in w.queues && event !in w.issued
    ensures var v, c := Next(w, Mailing(Report(id, nid, event, call, cancelled))), w.queues[id];
            var token := if "token" in c.body.cmd.payload then c.body.cmd.payload["token"] else "";
            var step := c.place.step;
            && (nid in v.queues <==> call != FailedNotLanded)
            && (nid in v.queues ==>
                  v.queues[nid] == Copy(OnboardingSaga,
                                        Event(Envelope(event, if step.delivered then VerificationDelivered(token)
                                                              else VerificationFailed(token, "smtp"))),
                                        map[], Main, false))
            && v.queues - {nid} == w.queues[id := c.(place := Held(
                 Mailer.AfterReport(step.delivered, step.reported, step.landed, call, cancelled)))]
            && v.mails == w.mails && v.keys == w.keys && v.db == w.db
  {
    hide Mailer.AfterReport;
  }

  // ---- One handling by the orchestrator, and the reaper's write ----

  /** Claim and write together end as process does. */
  lemma OrchestratorStepsAreProcess(w: World, id: nat, reachable: bool, fault: DbFault)
    requires At(w, id, OnboardingSaga, Received)
    ensures var v := Next(Next(w, Action.Saga(Claim(id, reachable))), Action.Saga(Write(id, fault)));
            var body := w.queues[id].body;
            var delivered := body.Event? && body.env.payload.VerificationDelivered?;
            var failed := body.Event? && body.env.payload.VerificationFailed?;
            var t := if delivered || failed then body.env.payload.token else "";
            var writes := (delivered || failed) && reachable
                          && t in w.db.sagas && w.db.sagas[t].state == AwaitingDelivery;
            && v.queues == w.queues[id := w.queues[id].(place := Held(Settling(
                 if !delivered && !failed then DeadLetter
                 else if !reachable || (writes && fault != NoFault) then Retry else Ack)))]
            && v.db == (if !writes || fault == RolledBack then w.db
                        else if delivered then MarkCompleted(w.db, t) else Compensate(w.db, t))
  {
    hide MarkCompleted, Compensate;
    var m := Next(w, Action.Saga(Claim(id, reachable)));
    assert m.db == w.db && m.queues == w.queues[id := w.queues[id].(place := m.queues[id].place)];
  }

  /** The reaper's write settles the saga, unless somebody was faster. */
  lemma ReapExactly(w: World, token: Token, fault: DbFault)
    ensures var v := Next(w, Action.Saga(Reap(token, fault)));
            && v.queues == w.queues && v.keys == w.keys
            && v.db == (if token in w.sweep && fault != RolledBack then Compensate(w.db, token) else w.db)
            && v.sweep == w.sweep - {token}
            && v.reaped == w.reaped + (if token in w.sweep && fault != RolledBack && Awaiting(w.db, token)
                                       then {token} else {})
    ensures Next(w, Action.Saga(QueryStale)).sweep ==
              w.sweep + set t | t in w.db.sagas && w.db.sagas[t].state == AwaitingDelivery
                                && w.db.sagas[t].created < w.clock - w.staleAfter
  {
    hide Compensate;
    assert w.reaped + {} == w.reaped && w.sweep - {token} == if token in w.sweep then w.sweep - {token} else w.sweep;
  }

  // ---- What is recorded as lost ----

  /** The step passes the window with the token. */
  predicate Passes(w: World, a: Action, t: Token, window: Window) {
    match window
    case CrashAfterMark =>
      a.Queue? && a.queue.Drop? && a.queue.id in w.queues &&
      var c := w.queues[a.queue.id];
      c.queue == Notifications && c.body.Event? && c.place in {Held(Marked), Held(Unmarking(false))}
      && c.body.env.id in w.keys && TokenOf(c.body) == Some(t)
    case MarkErrorLanded =>
      a.Notify? && a.notify.Mark? && a.notify.call == FailedLanded && At(w, a.notify.id, Notifications, Received) &&
      var body := w.queues[a.notify.id].body;
      body.Event? && Notifier.ToCommand(body.env).Send? && body.env.id !in w.keys && TokenOf(body) == Some(t)
    case UnmarkFailed =>
      a.Notify? && a.notify.Rollback? && a.notify.call == FailedNotLanded
      && At(w, a.notify.id, Notifications, Unmarking(false)) &&
      var body := w.queues[a.notify.id].body;
      body.Event? && body.env.id in w.keys && TokenOf(body) == Some(t)
    case ReportGivenUp =>
      a.Mailing? && a.mailing.Report? && a.mailing.call == FailedNotLanded && a.mailing.id in w.queues
      && a.mailing.newId !in w.queues && a.mailing.event !in w.issued &&
      var c := w.queues[a.mailing.id];
      c.queue == EmailDelivery && c.body.Command? && !c.recalled && c.place.Held? && c.place.step.Reporting?
      && !c.place.step.landed && (a.mailing.cancelled || c.place.step.reported + 1 >= Mailer.MAX_RESULT_REPORT_RETRIES)
      && TokenOf(c.body) == Some(t)
    case TakenBack =>
      a.Queue? && (a.queue.Drop? || a.queue.SettleDelivery?) && a.queue.id in w.queues &&
      var c := w.queues[a.queue.id];
      c.recalled && OwesEvent(c) && !Redelivered(w.queues, a.queue.id) && TokenOf(c.body) == Some(t)
      && (if a.queue.Drop? then !(OwesCommand(c) && c.body.env.id in w.keys)
          else a.queue.newId !in w.queues && c.place == Held(Undone(false)) && a.queue.newId !in Next(w, a).queues)
  }

  /** A token is recorded as lost by exactly these steps. */
  ghost predicate LosesExactly(w: World, a: Action) {
    var v := Next(w, a);
    && w.lost.Keys <= v.lost.Keys
    && (forall t, window :: Passes(w, a, t, window) ==> t in v.lost && v.lost[t] == window)
    && (forall t :: t in v.lost && !(t in w.lost && v.lost[t] == w.lost[t]) ==> Passes(w, a, t, v.lost[t]))
  }

  lemma OnlyWindowsLose(w: World, a: Action)
    ensures LosesExactly(w, a)
  {
    match a
    case Http(h) => HttpLosesNothing(w, h);
    case Relay(r) => RelayLosesNothing(w, r);
    case Queue(q) => QueueLoses(w, q);
    case Notify(n) => NotifyLoses(w, n);
    case Mailing(m) => MailLoses(w, m);
    case Saga(s) => SagaLosesNothing(w, s);
  }

  lemma HttpLosesNothing(w: World, h: HttpAction)
    ensures NextHttp(w, h).lost == w.lost && LosesExactly(w, Http(h))
  {
    hide FinishedSubscribe;
    if h.FinishSubscribe? { SubscribeLosesNothing(w, h); }
  }

  lemma SubscribeLosesNothing(w: World, h: HttpAction)
    requires h.FinishSubscribe?
    ensures FinishedSubscribe(w, h.request, h.token, h.event, h.newKey, h.fault).lost == w.lost
  {
  }

  lemma RelayLosesNothing(w: World, r: RelayAction)
    ensures LosesExactly(w, Relay(r))
  {
  }

  lemma QueueLoses(w: World, q: QueueAction)
    ensures LosesExactly(w, Queue(q))
  {
    hide Redelivered, Republished;
    match q
    case SettleDelivery(id, nid, reason, f) => SettleLoses(w, id, nid, reason, f);
    case _ =>
  }

  lemma SettleLoses(w: World, id: nat, nid: nat, reason: string, f: Faults)
    ensures LosesExactly(w, Queue(SettleDelivery(id, nid, reason, f)))
  {
    hide Redelivered, Republished;
  }

  lemma NotifyLoses(w: World, n: NotifyAction)
    ensures LosesExactly(w, Notify(n))
  {
    hide Notifier.ToCommand;
  }

  lemma MailLoses(w: World, m: MailAction)
    ensures LosesExactly(w, Mailing(m))
  {
    hide Mailer.BuildEmail, Mailer.AfterSend, Mailer.AfterReport;
  }

  lemma SagaLosesNothing(w: World, s: SagaAction)
    ensures LosesExactly(w, Action.Saga(s))
  {
  }

  // ---- The duplicate bound is reached ----

  /** After the prefix: the command is confirmed, the worker crashes before its ack, the key expires, and
      the redelivery sends the command again. */
  function TwiceSent(): seq<Action> {
    [Notify(SendCommand(1, 2, Done)), Queue(Drop(1)), Queue(KeyExpires(7)), Queue(Dispatch(1))]
    + [Notify(Mark(1, Done)), Notify(SendCommand(1, 3, Done))]
  }

  lemma {:induction false} CountsConcat(w: World, a: seq<Action>, b: seq<Action>, e: nat)
    ensures Sent(w, a + b, e, Done) == Sent(w, a, e, Done) + Sent(Run(w, a), b, e, Done)
    ensures Expiries(w, a + b, e) == Expiries(w, a, e) + Expiries(Run(w, a), b, e)
    decreases a
  {
    hide Next, Sends, Expires;
    if a == [] {
      assert a + b == b;
    } else {
      assert (a + b)[1..] == a[1..] + b;
      CountsConcat(Next(w, a[0]), a[1..], b, e);
    }
  }

  lemma {:induction false} NothingCounted(w: World, a: seq<Action>, e: nat)
    requires forall x :: x in a ==> !(x.Notify? && x.notify.SendCommand?) && !(x.Queue? && x.queue.KeyExpires?)
    ensures Sent(w, a, e, Done) == 0 && Expiries(w, a, e) == 0
    decreases a
  {
    hide Next;
    if a != [] {
      assert a[0] in a && forall x :: x in a[1..] ==> x in a;
      NothingCounted(Next(w, a[0]), a[1..], e);
    }
  }

  const CRASHED := EVENT.(place := Held(Settling(Ack)))

  lemma FirstSend(w: World)
    requires AfterPrefix(w, Done)
    ensures Sends(w, Notify(SendCommand(1, 2, Done)), 7, Done)
    ensures var v := Next(Next(w, Notify(SendCommand(1, 2, Done))), Queue(Drop(1)));
            v == w.(queues := map[1 := EVENT, 2 := COMMAND])
  {
    CommandPublished(w);
  }

  lemma KeyGone(w: World)
    requires w.keys == {7} && w.queues == map[1 := EVENT, 2 := COMMAND]
    ensures var v := Next(Next(w, Queue(KeyExpires(7))), Queue(Dispatch(1)));
            v == w.(keys := {}, queues := map[1 := EVENT.(place := Held(Received)), 2 := COMMAND])
  {
  }

  lemma SecondSend(w: World)
    requires w.keys == {} && w.queues == map[1 := EVENT.(place := Held(Received)), 2 := COMMAND]
    ensures var v := Next(w, Notify(Mark(1, Done)));
            v.keys == {7} && Sends(v, Notify(SendCommand(1, 3, Done)), 7, Done)
  {
  }

  lemma CountSix(w: World, p: seq<Action>, e: nat)
    requires |p| == 6
    requires !p[1].Notify? && !p[2].Notify? && !p[3].Notify? && p[4].Notify? && p[4].notify.Mark?
    requires p[0].Notify? && p[1] != Queue(KeyExpires(e)) && p[2].Queue? && p[3] != Queue(KeyExpires(e)) && p[5].Notify?
    ensures var w1 := Next(w, p[0]);
            var w2 := Next(w1, p[1]);
            var w5 := Next(Next(Next(w2, p[2]), p[3]), p[4]);
            && Sent(w, p, e, Done) == Count(Sends(w, p[0], e, Done)) + Count(Sends(w5, p[5], e, Done))
            && Expiries(w, p, e) == Count(Expires(w2, p[2], e))
  {
    hide Next;
    assert p[1..][1..] == p[2..] && p[2..][1..] == p[3..] && p[3..][1..] == p[4..] && p[4..][1..] == p[5..];
    assert p[5..][1..] == [];
    var w1 := Next(w, p[0]);
    var w2 := Next(w1, p[1]);
    var w3 := Next(w2, p[2]);
    var w4 := Next(w3, p[3]);
    var w5 := Next(w4, p[4]);
    assert Sent(w5, p[5..], e, Done) == Count(Sends(w5, p[5], e, Done));
    assert Sent(w4, p[4..], e, Done) == Sent(w5, p[5..], e, Done);
    assert Sent(w2, p[2..], e, Done) == Sent(w4, p[4..], e, Done);
    assert Expiries(Next(w5, p[5]), p[5..][1..], e) == 0 && Expiries(w5, p[5..], e) == 0;
    assert Expiries(w4, p[4..], e) == 0;
    assert Expiries(w3, p[3..], e) == 0;
    assert Expiries(w2, p[2..], e) == Count(Expires(w2, p[2], e));
    assert Expiries(w1, p[1..], e) == Expiries(w2, p[2..], e);
  }

  /** With one expiry two commands can be confirmed for one event: the bound cannot be lowered. */
  lemma DuplicateBoundIsReached()
    ensures var s, p := Start(5, 1800, 0), Prefix(Done) + TwiceSent();
            Expiries(s, p, 7) == 1 && Sent(s, p, 7, Done) == 2
  {
    hide Next, Run, AfterPrefix, Sends;
    var s := Start(5, 1800, 0);
    var w := Run(s, Prefix(Done));
    PrefixReaches(Done);
    NothingCounted(s, Prefix(Done), 7);
    CountsConcat(s, Prefix(Done), TwiceSent(), 7);
    CountSix(w, TwiceSent(), 7);
    FirstSend(w);
    PrefixKeys(w);
    KeyGone(w.(queues := map[1 := EVENT, 2 := COMMAND]));
    SecondSend(w.(keys := {}, queues := map[1 := EVENT.(place := Held(Received)), 2 := COMMAND]));
  }

  lemma PrefixKeys(w: World)
    requires AfterPrefix(w, Done)
    ensures w.keys == {7}
  {
  }
}
