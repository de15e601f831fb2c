/** Where the mails come from: every mail the SMTP server accepted is the mail of an event that was
    queued in a transaction. */
module MailSources {
  import opened Domain
  import opened Broker
  import opened Onboarding
  import opened OnboardingInvariant
  import Notifier
  import Mailer

  /** The mail an event is meant to become. */
  function MailOf(p: Payload): Option<Mail> {
    match p
    case ReleaseDetected(email, repo, tag) =>
      Some(Mail(email, "New release for " + repo + ": " + tag,
                "A new release " + tag + " is available for " + repo + "."))
    case RepositoryMoved(email, repo) =>
      Some(Mail(email, "Repository moved: " + repo, "The repository " + repo + " has been moved or renamed."))
    case SubscriptionCreated(email, token) =>
      Some(Mail(email, "Verify your email", "Your verification token is " + token))
    case _ => None
  }

  /** The notifier's command and the mailer's template together make that mail, and nothing of
      any other event. */
  lemma MailOfEvent(env: Envelope)
    ensures match Notifier.ToCommand(env)
            case Send(cmd) => MailOf(env.payload).Some? && Mailer.BuildEmail(cmd) == MailOf(env.payload)
            case Poison => MailOf(env.payload).None?
  {
  }

  ghost predicate IssuedCommand(w: World, cmd: DeliveryMessage) {
    exists e :: e in w.issued && Notifier.ToCommand(Envelope(e, w.issued[e])) == Notifier.Send(cmd)
  }

  ghost predicate IssuedMail(w: World, m: Mail) {
    exists e :: e in w.issued && MailOf(w.issued[e]) == Some(m)
  }

  ghost predicate CommandIssued(w: World, c: Copy) {
    c.queue == EmailDelivery ==> c.body.Command? && IssuedCommand(w, c.body.cmd)
  }

  ghost predicate Sourced(w: World) {
    && (forall id :: id in w.queues ==> CommandIssued(w, w.queues[id]))
    && (forall m :: m in w.mails ==> IssuedMail(w, m))
  }

  ghost predicate IssuedGrows(w: World, v: World) {
    forall e :: e in w.issued ==> e in v.issued && v.issued[e] == w.issued[e]
  }

  lemma IssuedStays(w: World, v: World)
    requires IssuedGrows(w, v)
    ensures forall cmd :: IssuedCommand(w, cmd) ==> IssuedCommand(v, cmd)
    ensures forall m :: IssuedMail(w, m) ==> IssuedMail(v, m)
  {
  }

  /** Every message of the mailer's queues was one before. */
  ghost predicate NoNewCommands(w: World, v: World) {
    forall id :: id in v.queues && v.queues[id].queue == EmailDelivery ==>
      exists k :: k in w.queues && w.queues[k].queue == EmailDelivery && w.queues[k].body == v.queues[id].body
  }

  lemma NothingNew(w: World, v: World)
    requires Sourced(w) && IssuedGrows(w, v) && NoNewCommands(w, v) && v.mails == w.mails
    ensures Sourced(v)
  {
    hide IssuedCommand, IssuedMail;
    IssuedStays(w, v);
    forall id | id in v.queues ensures CommandIssued(v, v.queues[id]) {
      if v.queues[id].queue == EmailDelivery {
        var k :| k in w.queues && w.queues[k].queue == EmailDelivery && w.queues[k].body == v.queues[id].body;
        assert CommandIssued(w, w.queues[k]);
      }
    }
  }

  lemma HttpSourced(w: World, h: HttpAction)
    requires Sourced(w)
    ensures Sourced(NextHttp(w, h))
  {
    HttpIssues(w, h);
    hide NextHttp, Sourced, IssuedGrows;
    NothingNew(w, NextHttp(w, h));
  }

  lemma HttpIssues(w: World, h: HttpAction)
    ensures var v := NextHttp(w, h); IssuedGrows(w, v) && v.queues == w.queues && v.mails == w.mails
  {
  }

  lemma RelaySourced(w: World, r: RelayAction)
    requires Sourced(w)
    ensures Sourced(NextRelay(w, r))
  {
    hide Sourced;
    NothingNew(w, NextRelay(w, r));
  }

  lemma SettleSourced(w: World, id: nat, nid: nat, reason: string, f: Faults)
    requires Sourced(w)
    ensures Sourced(NextQueue(w, SettleDelivery(id, nid, reason, f)))
  {
    if id in w.queues && nid !in w.queues && w.queues[id].place.Held? && Settles(w.queues[id].place.step).Some? {
      hide Sourced, NextQueue, Republished;
      var v := NextQueue(w, SettleDelivery(id, nid, reason, f));
      var how := Settles(w.queues[id].place.step).value;
      SettleShape(w, id, nid, reason, f);
      if nid in v.queues { CopyWritten(w.queues[id], w.tiers, how, reason); }
      SettledNoNew(w, v, id, nid, how, reason);
      NothingNew(w, v);
    }
  }

  lemma SettledNoNew(w: World, v: World, id: nat, nid: nat, how: Settlement, reason: string)
    requires id in w.queues && SettledFrom(w, v, id, nid, how, reason)
    ensures NoNewCommands(w, v) && IssuedGrows(w, v)
  {
    if nid in v.queues { CopyWritten(w.queues[id], w.tiers, how, reason); }
    hide Republished;
    forall k | k in v.queues && v.queues[k].queue == EmailDelivery
      ensures exists j :: j in w.queues && w.queues[j].queue == EmailDelivery && w.queues[j].body == v.queues[k].body
    {
      var j := if k == nid then id else k;
      assert j in w.queues && w.queues[j].queue == EmailDelivery && w.queues[j].body == v.queues[k].body;
    }
  }

  lemma QueueSourced(w: World, q: QueueAction)
    requires Sourced(w)
    ensures Sourced(NextQueue(w, q))
  {
    hide Sourced, Abandon;
    match q
    case SettleDelivery(id, nid, reason, f) => SettleSourced(w, id, nid, reason, f); hide NextQueue;
    case _ => NothingNew(w, NextQueue(w, q));
  }

  lemma SendSourced(w: World, id: nat, nid: nat, call: Call)
    requires Sourced(w) && (id in w.queues ==> CopyOk(w, w.queues[id]))
    ensures Sourced(NextNotify(w, SendCommand(id, nid, call)))
  {
    var v := NextNotify(w, SendCommand(id, nid, call));
    if v == w { return; }
    var env := w.queues[id].body.env;
    assert env == Envelope(env.id, w.issued[env.id]);
    assert forall cmd :: IssuedCommand(w, cmd) ==> IssuedCommand(v, cmd);
    assert forall m :: IssuedMail(w, m) ==> IssuedMail(v, m);
    forall k | k in v.queues ensures CommandIssued(v, v.queues[k]) {
      if k != id && k != nid { assert CommandIssued(w, w.queues[k]); }
    }
  }

  lemma NotifySourced(w: World, n: NotifyAction)
    requires Sourced(w) && Inv(w)
    ensures Sourced(NextNotify(w, n))
  {
    hide Sourced, Inv;
    match n
    case SendCommand(id, nid, call) => CopyAt(w, id); SendSourced(w, id, nid, call); hide NextNotify;
    case _ => NothingNew(w, NextNotify(w, n));
  }

  lemma SmtpSourced(w: World, id: nat, call: Call, cancelled: bool)
    requires Sourced(w)
    ensures Sourced(NextMail(w, Smtp(id, call, cancelled)))
  {
    var v := NextMail(w, Smtp(id, call, cancelled));
    if v == w { return; }
    NothingNew(w, v.(mails := w.mails));
    assert CommandIssued(w, w.queues[id]);
    if v.mails != w.mails {
      var e :| e in w.issued && Notifier.ToCommand(Envelope(e, w.issued[e])) == Notifier.Send(w.queues[id].body.cmd);
      MailOfEvent(Envelope(e, w.issued[e]));
      assert IssuedMail(v, Mailer.BuildEmail(w.queues[id].body.cmd).value);
    }
    hide IssuedCommand, IssuedMail;
    assert forall m :: IssuedMail(v.(mails := w.mails), m) ==> IssuedMail(v, m);
  }

  lemma MailSourced(w: World, m: MailAction)
    requires Sourced(w)
    ensures Sourced(NextMail(w, m))
  {
    hide Sourced;
    match m
    case Smtp(id, call, cancelled) => SmtpSourced(w, id, call, cancelled); hide NextMail;
    case Report(_, _, _, _, _) => NothingNew(w, NextMail(w, m));
  }

  lemma SagaSourced(w: World, s: SagaAction)
    requires Sourced(w)
    ensures Sourced(NextSaga(w, s))
  {
    hide Sourced;
    NothingNew(w, NextSaga(w, s));
  }

  lemma StepSourced(w: World, a: Action)
    requires Sourced(w) && Inv(w)
    ensures Sourced(Next(w, a))
  {
    hide Sourced, Inv, NextHttp, NextRelay, NextQueue, NextNotify, NextMail, NextSaga;
    match a
    case Http(h) => HttpSourced(w, h);
    case Relay(r) => RelaySourced(w, r);
    case Queue(q) => QueueSourced(w, q);
    case Notify(n) => NotifySourced(w, n);
    case Mailing(m) => MailSourced(w, m);
    case Saga(s) => SagaSourced(w, s);
  }

  lemma {:induction false} RunSourced(w: World, actions: seq<Action>)
    requires Sourced(w) && Inv(w)
    ensures Sourced(Run(w, actions))
    decreases actions
  {
    hide Next, Sourced, Inv;
    if actions != [] {
      StepSourced(w, actions[0]);
      NextKeeps(w, actions[0]);
      RunSourced(Next(w, actions[0]), actions[1..]);
    }
  }

  /** In every run each accepted mail is the mail of an event that Subscribe or the scanner
      committed: to that event's address, with its repository and tag or its token. */
  lemma EveryMailHasAnEvent(tiers: TierCount, staleAfter: nat, clock: int, actions: seq<Action>, m: Mail)
    ensures var w := Run(Start(tiers, staleAfter, clock), actions);
            m in w.mails ==> exists e :: e in w.issued && MailOf(w.issued[e]) == Some(m)
  {
    StartHolds(tiers, staleAfter, clock);
    RunSourced(Start(tiers, staleAfter, clock), actions);
  }
}
