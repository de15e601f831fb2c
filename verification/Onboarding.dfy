/** The onboarding saga end to end: every service, the broker, the dedup store and the
    tables as one step machine. A step that is not enabled leaves the world unchanged, so
    every finite sequence of actions is a run. */
module Onboarding {
  import opened Domain
  import opened Outbox
  import opened Broker
  import opened SagaStore
  import Handlers
  import Notifier
  import Mailer
  import Orchestrator

  /** The ways in which an open saga can lose every message that would settle it. */
  datatype Window = CrashAfterMark | MarkErrorLanded | UnmarkFailed | ReportGivenUp | TakenBack

  /** What Subscribe committed with a token. */
  datatype Commit = Commit(email: Email, event: nat)

  /** A handler between its read and its save, with the row it read. */
  datatype Request =
    | ForSubscribe(email: Email, repo: nat, found: Option<(nat, Subscription)>)
    | ForConfirm(key: nat, row: Subscription)
    | ForUnsubscribe(key: nat, row: Subscription)

  datatype World = World(
    tiers: TierCount, staleAfter: nat, clock: int,
    db: Tables, queues: Copies, keys: set<nat>,
    relaying: Option<Row>,     // the row whose publish the relay saw confirmed
    sweep: set<Token>,         // the stale tokens the reapers still have to visit
    requests: set<Request>,
    // History: what was issued, committed, accepted, given up and lost so far.
    issued: map<nat, Payload>, commits: map<Token, Commit>, mails: set<Mail>,
    failed: set<Token>, reaped: set<Token>, lost: map<Token, Window>)

  datatype Action =
    | Http(http: HttpAction)
    | Relay(relay: RelayAction)
    | Queue(queue: QueueAction)
    | Notify(notify: NotifyAction)
    | Mailing(mailing: MailAction)
    | Saga(saga: SagaAction)

  function Start(tiers: TierCount, staleAfter: nat, clock: int): World {
    World(tiers, staleAfter, clock, NO_TABLES, map[], {}, None, {}, {}, map[], map[], {}, {}, {}, map[])
  }

  function Next(w: World, a: Action): World {
    match a
    case Http(h) => NextHttp(w, h)
    case Relay(r) => NextRelay(w, r)
    case Queue(q) => NextQueue(w, q)
    case Notify(n) => NextNotify(w, n)
    case Mailing(m) => NextMail(w, m)
    case Saga(s) => NextSaga(w, s)
  }

  function Run(w: World, actions: seq<Action>): World
    decreases actions
  {
    if actions == [] then w else Run(Next(w, actions[0]), actions[1..])
  }

  // ---- The handlers and the scanner's writes ----

  datatype HttpAction =
    | BeginSubscribe(email: Email, repo: nat, key: nat)
    | FinishSubscribe(request: Request, token: Token, event: nat, newKey: nat, fault: DbFault)
    | BeginConfirm(key: nat)
    | FinishConfirm(request: Request, apiToken: Token, fault: DbFault)
    | BeginUnsubscribe(key: nat)
    | FinishUnsubscribe(request: Request, fault: DbFault)
    | ScannerEvent(event: nat, payload: Payload)
    | ScannerMoved(repo: nat)
    | Tick(elapsed: nat)

  predicate Unknown(db: Tables, email: Email, repo: nat) {
    forall k :: k in db.subs ==> !Handlers.Matches(db, k, email, repo)
  }

  predicate LiveRow(db: Tables, k: nat) {
    k in db.subs && !db.subs[k].deleted
  }

  function NextHttp(w: World, h: HttpAction): World {
    match h
    case BeginSubscribe(email, repo, k) =>
      if Handlers.Matches(w.db, k, email, repo) then
        w.(requests := w.requests + {ForSubscribe(email, repo, Some((k, w.db.subs[k])))})
      else if Unknown(w.db, email, repo) then
        w.(requests := w.requests + {ForSubscribe(email, repo, None)})
      else w
    case FinishSubscribe(r, token, event, newKey, fault) => FinishedSubscribe(w, r, token, event, newKey, fault)
    case BeginConfirm(k) =>
      if LiveRow(w.db, k) then w.(requests := w.requests + {ForConfirm(k, w.db.subs[k])}) else w
    case FinishConfirm(r, apiToken, fault) =>
      if r in w.requests && r.ForConfirm? && r.row.status != Active
      then Saved(w, r.key, r.row.(status := Active, apiToken := apiToken), fault) else w
    case BeginUnsubscribe(k) =>
      if LiveRow(w.db, k) then w.(requests := w.requests + {ForUnsubscribe(k, w.db.subs[k])}) else w
    case FinishUnsubscribe(r, fault) =>
      if r in w.requests && r.ForUnsubscribe? && r.row.status != Unsubscribed
      then Saved(w, r.key, r.row.(status := Unsubscribed), fault) else w
    case ScannerEvent(event, payload) =>
      if event !in w.issued && (payload.ReleaseDetected? || payload.RepositoryMoved?) then
        w.(db := Append(w.db, [Envelope(event, payload)]), issued := w.issued[event := payload])
      else w
    case ScannerMoved(repo) => w.(db := UnsubscribeAll(w.db, repo))
    case Tick(d) => w.(clock := w.clock + d)
  }

  function Saved(w: World, k: nat, row: Subscription, fault: DbFault): World {
    var saved := Save(w.db, k, row);
    if saved.Some? && fault.Commits() then w.(db := saved.value) else w
  }

  function FinishedSubscribe(w: World, r: Request, token: Token, event: nat, newKey: nat, fault: DbFault): World {
    if r in w.requests && r.ForSubscribe? && event !in w.issued
       && (if r.found.Some? then r.found.value.1.status != Active else newKey !in w.db.subs) then
      var k := if r.found.Some? then r.found.value.0 else newKey;
      var row := if r.found.Some? then Handlers.PendingAgain(r.found.value.1, token)
                 else Handlers.Created(r.email, r.repo, token);
      var payload := SubscriptionCreated(r.email, token);
      var tx := StartSaga(w.db, k, row, Envelope(event, payload), w.clock);
      if tx.Some? && fault.Commits() then
        w.(db := tx.value, issued := w.issued[event := payload],
           commits := w.commits[token := Commit(r.email, event)])
      else w
    else w
  }

  // ---- The outbox relay ----

  datatype RelayAction = PublishRow(index: nat, id: nat, call: Call) | DeleteRow(fault: DbFault)

  function NextRelay(w: World, r: RelayAction): World {
    match r
    case PublishRow(i, id, call) =>
      if i < |w.db.outbox| && id !in w.queues && w.relaying.None? then
        var row := w.db.outbox[i];
        var bound := Binding(row.env.payload);
        w.(queues := if bound.Some? then Publish(w.queues, id, bound.value, Event(row.env), call) else w.queues,
           relaying := if call == Done then Some(row) else None)
      else w
    case DeleteRow(fault) =>
      if w.relaying.Some? then
        w.(db := if fault.Commits() then w.db.(outbox := Without(w.db.outbox, w.relaying.value.id)) else w.db,
           relaying := None)
      else w
  }

  // ---- The broker ----

  datatype QueueAction =
    | Dispatch(id: nat)
    | Expire(id: nat)
    | Recall(id: nat, newId: nat)
    | Drop(id: nat)
    | SettleDelivery(id: nat, newId: nat, reason: string, faults: Faults)
    | KeyExpires(event: nat)

  /** The token a body is about. */
  function TokenOf(body: Body): Option<Token> {
    match body
    case Event(env) => PayloadToken(env.payload)
    case Command(cmd) => if Mailer.IsVerification(cmd) then Some(Mailer.VerificationToken(cmd)) else None
    case Malformed => None
  }

  function PayloadToken(p: Payload): Option<Token> {
    match p
    case SubscriptionCreated(_, t) => Some(t)
    case VerificationDelivered(t) => Some(t)
    case VerificationFailed(t, _) => Some(t)
    case _ => None
  }

  function Lose(lost: map<Token, Window>, body: Body, window: Window): map<Token, Window> {
    if TokenOf(body).Some? then lost[TokenOf(body).value := window] else lost
  }

  predicate HoldsMark(c: Copy) {
    c.queue == Notifications && c.body.Event? && c.place.Held? && (c.place.step == Marked || c.place.step.Unmarking?)
  }

  /** A holder of the mark whose command has not reached the broker. */
  predicate OwesCommand(c: Copy) {
    HoldsMark(c) && c.place != Held(Unmarking(true))
  }

  /** A handler that held the mark and still has to get the command or a retry to the broker. */
  predicate OwesEvent(c: Copy) {
    OwesCommand(c) || (c.queue == Notifications && c.body.Event? && c.place == Held(Undone(false)))
  }

  /** A delivery waiting only for its ack no longer carries its message on, nor does one whose
      report has reached the broker. */
  predicate HandedOn(place: Place) {
    place.Held? && (place.step == Settling(Ack) || (place.step.Reporting? && place.step.landed))
  }

  /** The message of a recalled delivery is still with the broker or with another handler. */
  predicate Redelivered(q: Copies, id: nat)
    requires id in q
  {
    exists k :: k in q && !q[k].recalled && q[k].queue == q[id].queue && q[k].body == q[id].body
      && !HandedOn(q[k].place)
  }

  /** What is lost when a recalled handler ends without having sent anything on. */
  function Abandon(lost: map<Token, Window>, q: Copies, id: nat): map<Token, Window>
    requires id in q
  {
    if q[id].recalled && OwesEvent(q[id]) && !Redelivered(q, id) then Lose(lost, q[id].body, TakenBack) else lost
  }

  function NextQueue(w: World, q: QueueAction): World {
    match q
    case Dispatch(id) =>
      if id in w.queues && w.queues[id].place == Main then
        var step := if w.queues[id].queue == EmailDelivery then Sending(0) else Received;
        w.(queues := MoveTo(w.queues, id, Held(step)))
      else w
    case Expire(id) =>
      if id in w.queues && w.queues[id].place.Tier? then w.(queues := MoveTo(w.queues, id, Main)) else w
    case Recall(id, nid) =>
      if id in w.queues && w.queues[id].place.Held? && !w.queues[id].recalled && nid !in w.queues then
        w.(queues := Broker.Recall(w.queues, id, nid))
      else w
    case Drop(id) =>
      if id in w.queues && w.queues[id].place.Held? then
        var c := w.queues[id];
        w.(queues := if c.recalled then w.queues - {id} else MoveTo(w.queues, id, Main),
           lost := if OwesCommand(c) && c.body.env.id in w.keys then Lose(w.lost, c.body, CrashAfterMark)
                   else Abandon(w.lost, w.queues, id))
      else w
    case SettleDelivery(id, nid, reason, f) =>
      if id in w.queues && w.queues[id].place.Held? && Settles(w.queues[id].place.step).Some? && nid !in w.queues then
        SettledDelivery(w, id, nid, Settles(w.queues[id].place.step).value, reason, f)
      else w
    case KeyExpires(event) => w.(keys := w.keys - {event})
  }

  function SettledDelivery(w: World, id: nat, nid: nat, how: Settlement, reason: string, f: Faults): World
    requires id in w.queues
  {
    if w.queues[id].recalled then
      var q := SettleRecalled(w.queues, id, nid, w.tiers, how, reason, f);
      w.(queues := q, lost := if nid in q then w.lost else Abandon(w.lost, w.queues, id))
    else
      w.(queues := if how == Ack then AckStep(w.queues, id, f.acked)
                   else MoveOn(w.queues, id, nid, w.tiers, how, reason, f))
  }

  // ---- The notifier ----

  datatype NotifyAction =
    | Mark(id: nat, call: Call)
    | SendCommand(id: nat, newId: nat, call: Call)
    | Rollback(id: nat, call: Call)

  predicate At(w: World, id: nat, queue: QueueSet, step: Step) {
    id in w.queues && w.queues[id].queue == queue && w.queues[id].place == Held(step)
  }

  function NextNotify(w: World, n: NotifyAction): World {
    match n
    case Mark(id, call) =>
      if At(w, id, Notifications, Received) then
        var body := w.queues[id].body;
        if body.Event? && Notifier.ToCommand(body.env).Send? then
          var e := body.env.id;
          w.(keys := Notifier.MarkedKeys(w.keys, e, call),
             queues := MoveTo(w.queues, id, Held(Notifier.AfterMark(w.keys, e, call))),
             lost := if call == FailedLanded && e !in w.keys then Lose(w.lost, body, MarkErrorLanded) else w.lost)
        else w.(queues := MoveTo(w.queues, id, Held(Settling(DeadLetter))))
      else w
    case SendCommand(id, nid, call) =>
      if At(w, id, Notifications, Marked) && nid !in w.queues && w.queues[id].body.Event?
         && Notifier.ToCommand(w.queues[id].body.env).Send? then
        var cmd := Notifier.ToCommand(w.queues[id].body.env).cmd;
        var q := MoveTo(w.queues, id, Held(if call == Done then Settling(Ack) else Unmarking(call.Landed())));
        w.(queues := Publish(q, nid, EmailDelivery, Command(cmd), call))
      else w
    case Rollback(id, call) =>
      if id in w.queues && HoldsMark(w.queues[id]) && w.queues[id].place.step.Unmarking? then
        var e := w.queues[id].body.env.id;
        w.(keys := Notifier.UnmarkedKeys(w.keys, e, call),
           queues := MoveTo(w.queues, id, Held(Undone(w.queues[id].place.step.sent))),
           lost := if !call.Landed() && e in w.keys && OwesCommand(w.queues[id])
                   then Lose(w.lost, w.queues[id].body, UnmarkFailed) else w.lost)
      else w
  }

  // ---- The mailer ----

  datatype MailAction =
    | Smtp(id: nat, call: Call, cancelled: bool)
    | Report(id: nat, newId: nat, event: nat, call: Call, cancelled: bool)

  function NextMail(w: World, m: MailAction): World {
    match m
    case Smtp(id, call, cancelled) =>
      if id in w.queues && w.queues[id].queue == EmailDelivery && w.queues[id].place.Held?
         && w.queues[id].place.step.Sending? then
        var body := w.queues[id].body;
        if body.Command? && Mailer.BuildEmail(body.cmd).Some? then
          var after := Mailer.AfterSend(body.cmd, w.queues[id].place.step.tried, call, cancelled);
          w.(queues := MoveTo(w.queues, id, Held(after)),
             mails := if call.Landed() then w.mails + {Mailer.BuildEmail(body.cmd).value} else w.mails,
             failed := if after == Reporting(false, 0, false) then w.failed + {Mailer.VerificationToken(body.cmd)}
                       else w.failed)
        else w.(queues := MoveTo(w.queues, id, Held(Settling(DeadLetter))))
      else w
    case Report(id, nid, event, call, cancelled) =>
      if id in w.queues && w.queues[id].queue == EmailDelivery && w.queues[id].place.Held?
         && w.queues[id].place.step.Reporting? && w.queues[id].body.Command?
         && nid !in w.queues && event !in w.issued then
        var c := w.queues[id];
        var ok, n, landed := c.place.step.delivered, c.place.step.reported, c.place.step.landed;
        var payload := Mailer.ResultPayload(c.body.cmd, ok);
        var q := MoveTo(w.queues, id, Held(Mailer.AfterReport(ok, n, landed, call, cancelled)));
        w.(queues := Publish(q, nid, OnboardingSaga, Event(Envelope(event, payload)), call),
           issued := w.issued[event := payload],
           lost := if Mailer.GivesUp(n, call, cancelled) && !landed && !call.Landed() && !c.recalled
                   then Lose(w.lost, c.body, ReportGivenUp) else w.lost)
      else w
  }

  // ---- The orchestrator and the reaper ----

  datatype SagaAction =
    | Claim(id: nat, reachable: bool)
    | Write(id: nat, fault: DbFault)
    | QueryStale
    | Reap(token: Token, fault: DbFault)

  function NextSaga(w: World, s: SagaAction): World {
    match s
    case Claim(id, reachable) =>
      if At(w, id, OnboardingSaga, Received) then
        var outcome := Orchestrator.Decode(w.queues[id].body);
        var step := if outcome.Foreign? then Settling(DeadLetter)
                    else if !reachable then Settling(Retry)
                    else if !Awaiting(w.db, outcome.token) then Settling(Ack)
                    else Claimed;
        w.(queues := MoveTo(w.queues, id, Held(step)))
      else w
    case Write(id, fault) =>
      if At(w, id, OnboardingSaga, Claimed) then
        w.(db := if fault.Commits() then Orchestrator.SettlingWrite(w.db, Orchestrator.Decode(w.queues[id].body))
                 else w.db,
           queues := MoveTo(w.queues, id, Held(Settling(if fault == NoFault then Ack else Retry))))
      else w
    case QueryStale => w.(sweep := w.sweep + set t | t in w.db.sagas && IsStale(w.db, t, w.clock, w.staleAfter))
    case Reap(token, fault) =>
      if token in w.sweep then
        w.(sweep := w.sweep - {token},
           db := if fault.Commits() then Compensate(w.db, token) else w.db,
           reaped := if fault.Commits() && Awaiting(w.db, token) then w.reaped + {token} else w.reaped)
      else w
  }
}
