/** How many delivery commands one event can produce, over runs of the onboarding machine. */
module Duplicates {
  import opened Domain
  import opened Broker
  import opened Onboarding
  import Notifier

  /** The workers that hold the mark of event `e`: they have set its key and have neither
      published its command nor rolled back. */
  predicate Holds(c: Copy, e: nat) {
    HoldsMark(c) && c.body.env.id == e
  }

  function Holders(q: Copies, e: nat): set<nat> {
    set id | id in q && Holds(q[id], e)
  }

  /** The step is a publish of e's command that the broker confirmed (or that landed). */
  predicate Sends(w: World, a: Action, e: nat, call: Call) {
    && a.Notify? && a.notify.SendCommand? && a.notify.call == call
    && At(w, a.notify.id, Notifications, Marked) && a.notify.newId !in w.queues
    && Holds(w.queues[a.notify.id], e)
    && Notifier.ToCommand(w.queues[a.notify.id].body.env).Send?
  }

  predicate Expires(w: World, a: Action, e: nat) {
    a == Queue(KeyExpires(e)) && e in w.keys
  }

  function Count(b: bool): nat {
    if b then 1 else 0
  }

  function Sent(w: World, actions: seq<Action>, e: nat, call: Call): nat
    decreases actions
  {
    if actions == [] then 0
    else Count(Sends(w, actions[0], e, call)) + Sent(Next(w, actions[0]), actions[1..], e, call)
  }

  function Expiries(w: World, actions: seq<Action>, e: nat): nat
    decreases actions
  {
    if actions == [] then 0
    else Count(Expires(w, actions[0], e)) + Expiries(Next(w, actions[0]), actions[1..], e)
  }

  lemma OthersHold(q: Copies, p: Copies, id: nat, nid: nat, e: nat)
    requires forall k :: k != id && k != nid ==> (k in p <==> k in q) && (k in q ==> p[k] == q[k])
    requires nid != id ==> nid !in q && (nid in p ==> !Holds(p[nid], e))
    ensures Holders(p, e) - {id} == Holders(q, e) - {id}
  {
    hide Holds;
  }

  lemma Remove(s: set<nat>, id: nat)
    ensures |s| == |s - {id}| + Count(id in s)
  {
    if id in s { assert s == s - {id} + {id}; } else { assert s == s - {id}; }
  }

  /** A change of one delivery changes the holders by at most that delivery. */
  lemma HoldersChange(q: Copies, p: Copies, id: nat, nid: nat, e: nat)
    requires forall k :: k != id && k != nid ==> (k in p <==> k in q) && (k in q ==> p[k] == q[k])
    requires nid != id ==> nid !in q && (nid in p ==> !Holds(p[nid], e))
    ensures var was, now := id in q && Holds(q[id], e), id in p && Holds(p[id], e);
            |Holders(p, e)| == |Holders(q, e)| + Count(now) - Count(was)
  {
    OthersHold(q, p, id, nid, e);
    Remove(Holders(q, e), id);
    Remove(Holders(p, e), id);
    hide Holds;
  }

  /** The potential: confirmed publishes and held marks are paid for by the key or by an expiry. */
  ghost predicate Paid(w: World, a: Action, v: World, e: nat) {
    Count(Sends(w, a, e, Done)) + |Holders(v.queues, e)| + Count(e in w.keys)
      <= |Holders(w.queues, e)| + Count(e in v.keys) + Count(Expires(w, a, e))
  }

  lemma MarkPays(w: World, id: nat, call: Call, e: nat)
    ensures Paid(w, Notify(Mark(id, call)), NextNotify(w, Mark(id, call)), e)
  {
    var v := NextNotify(w, Mark(id, call));
    HoldersChange(w.queues, v.queues, id, id, e);
    hide Holders;
  }

  lemma SendPays(w: World, id: nat, nid: nat, call: Call, e: nat)
    ensures Paid(w, Notify(SendCommand(id, nid, call)), NextNotify(w, SendCommand(id, nid, call)), e)
  {
    var v := NextNotify(w, SendCommand(id, nid, call));
    if v != w { HoldersChange(w.queues, v.queues, id, nid, e); }
    hide Holders;
  }

  lemma RollbackPays(w: World, id: nat, call: Call, e: nat)
    ensures Paid(w, Notify(Rollback(id, call)), NextNotify(w, Rollback(id, call)), e)
  {
    var v := NextNotify(w, Rollback(id, call));
    HoldersChange(w.queues, v.queues, id, id, e);
    hide Holders;
  }

  lemma NotifyPays(w: World, n: NotifyAction, e: nat)
    ensures Paid(w, Notify(n), NextNotify(w, n), e)
  {
    hide Paid, NextNotify;
    match n
    case Mark(id, call) => MarkPays(w, id, call, e);
    case SendCommand(id, nid, call) => SendPays(w, id, nid, call, e);
    case Rollback(id, call) => RollbackPays(w, id, call, e);
  }

  lemma RecalledSettlePays(w: World, id: nat, nid: nat, reason: string, f: Faults, e: nat)
    requires id in w.queues && w.queues[id].recalled
    ensures var a := SettleDelivery(id, nid, reason, f); Paid(w, Queue(a), NextQueue(w, a), e)
  {
    hide Holders, Abandon;
    var v := NextQueue(w, SettleDelivery(id, nid, reason, f));
    if v != w { HoldersChange(w.queues, v.queues, id, nid, e); }
  }

  lemma SettlePays(w: World, id: nat, nid: nat, reason: string, f: Faults, e: nat)
    ensures var a := SettleDelivery(id, nid, reason, f); Paid(w, Queue(a), NextQueue(w, a), e)
  {
    hide Holders, Abandon;
    var v := NextQueue(w, SettleDelivery(id, nid, reason, f));
    if id in w.queues && w.queues[id].recalled {
      RecalledSettlePays(w, id, nid, reason, f, e);
    } else if v != w {
      HoldersChange(w.queues, v.queues, id, nid, e);
    }
  }

  lemma RecallPays(w: World, id: nat, nid: nat, e: nat)
    ensures Paid(w, Queue(Recall(id, nid)), NextQueue(w, Recall(id, nid)), e)
  {
    hide Holders;
    var v := NextQueue(w, Recall(id, nid));
    if v != w { HoldersChange(w.queues, v.queues, id, nid, e); }
  }

  lemma MovePays(w: World, q: QueueAction, e: nat)
    requires q.Dispatch? || q.Expire? || q.Drop?
    ensures Paid(w, Queue(q), NextQueue(w, q), e)
  {
    hide Holders, Abandon;
    HoldersChange(w.queues, NextQueue(w, q).queues, q.id, q.id, e);
  }

  lemma ExpiryPays(w: World, event: nat, e: nat)
    ensures Paid(w, Queue(KeyExpires(event)), NextQueue(w, KeyExpires(event)), e)
  {
    hide Holders;
  }

  lemma QueuePays(w: World, q: QueueAction, e: nat)
    ensures Paid(w, Queue(q), NextQueue(w, q), e)
  {
    hide Paid, NextQueue;
    match q
    case SettleDelivery(id, nid, reason, f) => SettlePays(w, id, nid, reason, f, e);
    case KeyExpires(event) => ExpiryPays(w, event, e);
    case Recall(id, nid) => RecallPays(w, id, nid, e);
    case _ => MovePays(w, q, e);
  }

  lemma SmtpPays(w: World, id: nat, call: Call, cancelled: bool, e: nat)
    ensures var a := Smtp(id, call, cancelled); Paid(w, Mailing(a), NextMail(w, a), e)
  {
    HoldersChange(w.queues, NextMail(w, Smtp(id, call, cancelled)).queues, id, id, e);
    hide Holders;
  }

  lemma ReportPays(w: World, id: nat, nid: nat, event: nat, call: Call, cancelled: bool, e: nat)
    ensures var a := Report(id, nid, event, call, cancelled); Paid(w, Mailing(a), NextMail(w, a), e)
  {
    var v := NextMail(w, Report(id, nid, event, call, cancelled));
    if v != w { HoldersChange(w.queues, v.queues, id, nid, e); }
    hide Holders;
  }

  lemma MailPays(w: World, m: MailAction, e: nat)
    ensures Paid(w, Mailing(m), NextMail(w, m), e)
  {
    hide Paid, NextMail;
    match m
    case Smtp(id, call, cancelled) => SmtpPays(w, id, call, cancelled, e);
    case Report(id, nid, event, call, cancelled) => ReportPays(w, id, nid, event, call, cancelled, e);
  }

  lemma SagaPays(w: World, s: SagaAction, e: nat)
    ensures Paid(w, Saga(s), NextSaga(w, s), e)
  {
    var v := NextSaga(w, s);
    match s
    case Claim(id, reachable) => HoldersChange(w.queues, v.queues, id, id, e);
    case Write(id, fault) => HoldersChange(w.queues, v.queues, id, id, e);
    case _ =>
  }

  lemma RelayPays(w: World, r: RelayAction, e: nat)
    ensures Paid(w, Relay(r), NextRelay(w, r), e)
  {
    var v := NextRelay(w, r);
    match r
    case PublishRow(i, id, call) => HoldersChange(w.queues, v.queues, id, id, e);
    case DeleteRow(_) =>
  }

  lemma HttpPays(w: World, h: HttpAction, e: nat)
    ensures Paid(w, Http(h), NextHttp(w, h), e)
  {
  }

  lemma StepPays(w: World, a: Action, e: nat)
    ensures Paid(w, a, Next(w, a), e)
  {
    hide Paid, NextHttp, NextRelay, NextQueue, NextNotify, NextMail, NextSaga;
    match a
    case Http(h) => HttpPays(w, h, e);
    case Relay(r) => RelayPays(w, r, e);
    case Queue(q) => QueuePays(w, q, e);
    case Notify(n) => NotifyPays(w, n, e);
    case Mailing(m) => MailPays(w, m, e);
    case Saga(s) => SagaPays(w, s, e);
  }

  lemma {:induction false} RunPays(w: World, actions: seq<Action>, e: nat)
    ensures Sent(w, actions, e, Done) + |Holders(Run(w, actions).queues, e)| + Count(e in w.keys)
            <= |Holders(w.queues, e)| + Count(e in Run(w, actions).keys) + Expiries(w, actions, e)
    decreases actions
  {
    hide Next, Holders, Sends, Expires;
    if actions != [] {
      StepPays(w, actions[0], e);
      RunPays(Next(w, actions[0]), actions[1..], e);
    }
  }

  /** The duplicate bound: for every event, over all workers, redeliveries, crashes and
      expiries, confirmed commands plus workers holding the mark are at most the key plus
      the expiries, so at most one command per key lifetime is confirmed. */
  lemma DuplicateBound(tiers: TierCount, staleAfter: nat, clock: int, actions: seq<Action>, e: nat)
    ensures var s := Start(tiers, staleAfter, clock);
            && Sent(s, actions, e, Done) + |Holders(Run(s, actions).queues, e)|
               <= Count(e in Run(s, actions).keys) + Expiries(s, actions, e)
            && Sent(s, actions, e, Done) <= 1 + Expiries(s, actions, e)
  {
    RunPays(Start(tiers, staleAfter, clock), actions, e);
  }
}
