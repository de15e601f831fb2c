/** The broker's queues as the copies they hold, and the consumer that settles deliveries. */
module Broker {
  import opened Domain
  import opened Backoff

  datatype QueueSet = Notifications | EmailDelivery | OnboardingSaga

  /** How far the handler of an unacked delivery has got. */
  datatype Step =
    | Received
    | Marked
    | Unmarking(sent: bool)   // `sent`: the failed publish landed nevertheless
    | Undone(sent: bool)      // the rollback was tried, Retry comes next
    | Sending(tried: nat)
    | Reporting(delivered: bool, reported: nat, landed: bool)  // some failed report landed
    | Claimed
    | Settling(how: Settlement)
    | Stuck // the nack failed: nothing happens until the channel drops

  /** Where a copy is: the main queue, a retry tier, the dead-letter queue, or unacked. */
  datatype Place = Main | Tier(tier: nat) | DeadLetters | Held(step: Step)

  type Int32Range = x: int | -0x8000_0000 <= x < 0x8000_0000
  type Int64Range = x: int | -TWO63 <= x < TWO63

  datatype Header = Int32(small: Int32Range) | Int64(value: Int64Range) | Text(text: string)

  /** A number of tiers that an int64 attempt count can be counted past. */
  type TierCount = n: nat | n < TWO63 - 1

  type Headers = map<string, Header>

  /** A message, or, if it was `recalled`, what is left of a delivery that the broker took back
      when its channel dropped and delivered again: a handler that goes on, whose ack and nack do
      nothing. */
  datatype Copy = Copy(queue: QueueSet, body: Body, headers: Headers, place: Place, recalled: bool)

  /** How a handler that has done its work settles. */
  function Settles(step: Step): Option<Settlement> {
    match step
    case Settling(how) => Some(how)
    case Undone(_) => Some(Retry)
    case _ => None
  }

  /** All copies in the broker by delivery identity. */
  type Copies = map<nat, Copy>

  const HEADER_ATTEMPTS := "x-attempts"
  const HEADER_DLQ_REASON := "x-dlq-reason"

  function Attempts(headers: Headers): Int64Range {
    if HEADER_ATTEMPTS !in headers then 0
    else match headers[HEADER_ATTEMPTS]
      case Int32(v) => v
      case Int64(v) => v
      case Text(_) => 0
  }

  /** The queue set bound to an event's routing key; unbound keys are dropped. */
  function Binding(p: Payload): Option<QueueSet> {
    match p
    case ReleaseDetected(_, _, _) => Some(Notifications)
    case RepositoryMoved(_, _) => Some(Notifications)
    case SubscriptionCreated(_, _) => Some(Notifications)
    case VerificationDelivered(_) => Some(OnboardingSaga)
    case VerificationFailed(_, _) => Some(OnboardingSaga)
    case _ => None
  }

  /** A publish to an exchange that reaches the main queue of `queue` if it lands. */
  function Publish(q: Copies, nid: nat, queue: QueueSet, body: Body, call: Call): Copies {
    if call.Landed() then q[nid := Copy(queue, body, map[], Main, false)] else q
  }

  function MoveTo(q: Copies, id: nat, place: Place): Copies
    requires id in q
  {
    q[id := q[id].(place := place)]
  }

  /** nackRequeue: the broker redelivers, or the delivery stays unacked. */
  function Requeue(q: Copies, id: nat, nacked: bool): Copies
    requires id in q
  {
    MoveTo(q, id, if nacked then Main else Held(Stuck))
  }

  function AckStep(q: Copies, id: nat, acked: bool): Copies {
    if acked then q - {id} else q
  }

  /** Failures met while settling one delivery. */
  datatype Faults = Faults(open: bool, publish: Call, nacked: bool, acked: bool)

  function Parked(c: Copy, reason: string): Copy {
    c.(headers := c.headers[HEADER_DLQ_REASON := Text(reason)], place := DeadLetters, recalled := false)
  }

  /** The attempt count of the next try, an int64 sum. */
  function NextAttempt(c: Copy): Int64Range {
    Wrap64(Attempts(c.headers) + 1)
  }

  /** The copy Retry writes to a tier. A count below one names a queue that is not declared:
      the broker confirms such a publish and drops the message. */
  function Delayed(c: Copy): Option<Copy> {
    var att := NextAttempt(c);
    if att < 1 then None
    else Some(c.(headers := c.headers[HEADER_ATTEMPTS := Int64(att)], place := Tier(att - 1), recalled := false))
  }

  function Republished(c: Copy, tiers: TierCount, how: Settlement, reason: string): Option<Copy> {
    if how == Retry && NextAttempt(c) <= tiers then Delayed(c) else Some(Parked(c, reason))
  }

  /** Retry or DeadLetter up to the ack: publish the copy and wait for the confirm. On
      success only the ack of the original is left; on failure the original is requeued. */
  function MoveOn(q: Copies, id: nat, nid: nat, tiers: TierCount, how: Settlement, reason: string, f: Faults): Copies
    requires id in q
  {
    if !f.open then Requeue(q, id, f.nacked)
    else
      var c := Republished(q[id], tiers, how, reason);
      var q1 := if f.publish.Landed() && c.Some? then q[nid := c.value] else q;
      if f.publish == Done then MoveTo(q1, id, Held(Settling(Ack))) else Requeue(q1, id, f.nacked)
  }

  function Settle(q: Copies, id: nat, nid: nat, tiers: TierCount, how: Settlement, reason: string, f: Faults): Copies
    requires id in q
  {
    if how == Ack then AckStep(q, id, f.acked)
    else
      var q1 := MoveOn(q, id, nid, tiers, how, reason, f);
      if f.open && f.publish == Done then AckStep(q1, id, f.acked) else q1
  }

  /** The channel of a delivery drops: the message goes back to main as a new delivery, and the
      handler of the old one goes on. */
  function Recall(q: Copies, id: nat, nid: nat): Copies
    requires id in q
  {
    q[nid := q[id].(place := Main)][id := q[id].(recalled := true)]
  }

  /** Settling through a channel that is gone: the ack and the nack fail, and the handler is done. */
  function SettleRecalled(q: Copies, id: nat, nid: nat, tiers: TierCount, how: Settlement,
                          reason: string, f: Faults): Copies
    requires id in q
  {
    Settle(q, id, nid, tiers, how, reason, f.(nacked := false, acked := false)) - {id}
  }

  class Consumer {
    var q: Copies
    const tiers: TierCount

    constructor (tiers: TierCount)
      ensures this.tiers == tiers && q == map[]
    {
      this.tiers := tiers;
      q := map[];
    }

    method AckDelivery(id: nat, acked: bool)
      modifies this
      ensures q == if acked then old(q) - {id} else old(q)
    {
      if acked { q := q - {id}; }
    }

    method NackRequeue(id: nat, nacked: bool)
      requires id in q
      modifies this
      ensures q == Requeue(old(q), id, nacked)
    {
      q := q[id := q[id].(place := if nacked then Main else Held(Stuck))];
    }

    /** publishConfirmed to a named queue; a queue that does not exist drops the message. */
    method PublishConfirmed(nid: nat, copy: Option<Copy>, call: Call) returns (ok: bool)
      modifies this
      ensures ok <==> call == Done
      ensures q == if call.Landed() && copy.Some? then old(q)[nid := copy.value] else old(q)
    {
      if call.Landed() && copy.Some? { q := q[nid := copy.value]; }
      ok := call == Done;
    }

    method RetryDelivery(id: nat, nid: nat, reason: string, f: Faults)
      requires id in q && nid !in q
      modifies this
      ensures q == Settle(old(q), id, nid, tiers, Retry, reason, f)
    {
      var d := q[id];
      var att := Wrap64(Attempts(d.headers) + 1);
      if att > tiers {
        DeadLetterDelivery(id, nid, reason, f);
        return;
      }
      if !f.open {
        NackRequeue(id, f.nacked);
        return;
      }
      var headers := d.headers[HEADER_ATTEMPTS := Int64(att)];
      var copy := if att < 1 then None else Some(Copy(d.queue, d.body, headers, Tier(att - 1), false));
      var ok := PublishConfirmed(nid, copy, f.publish);
      if !ok {
        NackRequeue(id, f.nacked);
        return;
      }
      q := MoveTo(q, id, Held(Settling(Ack)));
      AckDelivery(id, f.acked);
    }

    method DeadLetterDelivery(id: nat, nid: nat, reason: string, f: Faults)
      requires id in q && nid !in q
      modifies this
      ensures q == Settle(old(q), id, nid, tiers, DeadLetter, reason, f)
    {
      if !f.open {
        NackRequeue(id, f.nacked);
        return;
      }
      var d := q[id];
      var headers := d.headers[HEADER_DLQ_REASON := Text(reason)];
      var ok := PublishConfirmed(nid, Some(Copy(d.queue, d.body, headers, DeadLetters, false)), f.publish);
      if !ok {
        NackRequeue(id, f.nacked);
        return;
      }
      q := MoveTo(q, id, Held(Settling(Ack)));
      AckDelivery(id, f.acked);
    }
  }

  // ---- Conservation ----

  /** The copies of one message. */
  function Same(q: Copies, c: Copy): set<nat> {
    set k | k in q && !q[k].recalled && q[k].queue == c.queue && q[k].body == c.body
  }

  lemma SameMoved(q: Copies, id: nat, place: Place, c: Copy)
    requires id in q
    ensures Same(MoveTo(q, id, place), c) == Same(q, c)
  {
  }

  lemma SameAdded(q: Copies, nid: nat, c: Copy, added: Copy)
    requires nid !in q && !added.recalled && added.queue == c.queue && added.body == c.body
    ensures Same(q[nid := added], c) == Same(q, c) + {nid}
  {
  }

  lemma SameRemoved(q: Copies, id: nat, c: Copy)
    ensures Same(q - {id}, c) == Same(q, c) - {id}
  {
  }

  /** A settlement that writes its copy to no declared queue. */
  predicate NamesNoQueue(c: Copy, how: Settlement) {
    how == Retry && (Attempts(c.headers) < 0 || Attempts(c.headers) == TWO63 - 1)
  }

  lemma CopyWritten(c: Copy, tiers: TierCount, how: Settlement, reason: string)
    requires how != Ack
    ensures Republished(c, tiers, how, reason).None? <==> NamesNoQueue(c, how)
    ensures var r := Republished(c, tiers, how, reason);
            r.Some? ==> r.value.queue == c.queue && r.value.body == c.body && !r.value.recalled
  {
  }

  /** Whatever fails, settling by Retry or DeadLetter keeps the number of copies of the message
      or adds one, if and only if it is not a confirmed and acked Retry whose attempt count is
      negative or the largest int64: such a Retry removes the copy. No other delivery is
      touched in any case. */
  lemma SettleConservesExactly(q: Copies, id: nat, nid: nat, tiers: TierCount, how: Settlement, reason: string,
                               f: Faults)
    requires id in q && nid !in q && !q[id].recalled && how != Ack
    ensures var q' := Settle(q, id, nid, tiers, how, reason, f);
            var dropped := NamesNoQueue(q[id], how) && f.open && f.publish == Done && f.acked;
            && (|Same(q', q[id])| >= |Same(q, q[id])| <==> !dropped)
            && (dropped ==> Same(q', q[id]) == Same(q, q[id]) - {id})
            && (!dropped ==> Same(q', q[id]) != {} && |Same(q', q[id])| <= |Same(q, q[id])| + 1)
            && (forall k :: k != id && k != nid ==> (k in q' <==> k in q) && (k in q ==> q'[k] == q[k]))
  {
    hide Same, Republished, NamesNoQueue;
    var c := q[id];
    SameMembers(q, id, nid);
    CopyWritten(c, tiers, how, reason);
    var added := Republished(c, tiers, how, reason);
    var landed := f.open && f.publish.Landed() && added.Some?;
    var q1 := if landed then q[nid := added.value] else q;
    if landed { SameAdded(q, nid, c, added.value); }
    var place := if f.open && f.publish == Done then Held(Settling(Ack)) else if f.nacked then Main else Held(Stuck);
    SameMoved(q1, id, place, c);
    if f.open && f.publish == Done && f.acked { SameRemoved(MoveTo(q1, id, place), id, c); }
  }

  lemma SameMembers(q: Copies, id: nat, nid: nat)
    requires id in q && nid !in q && !q[id].recalled
    ensures id in Same(q, q[id]) && nid !in Same(q, q[id])
  {
  }

  /** Taking a delivery back neither adds nor removes a copy of the message. */
  lemma RecallConserves(q: Copies, id: nat, nid: nat, c: Copy)
    requires id in q && nid !in q && !q[id].recalled
    ensures |Same(Recall(q, id, nid), c)| == |Same(q, c)|
  {
    var q' := Recall(q, id, nid);
    if id in Same(q, c) {
      assert Same(q', c) == Same(q, c) - {id} + {nid};
    } else {
      assert Same(q', c) == Same(q, c);
    }
  }

  /** A recalled handler removes no copy, and adds one exactly by a Retry or DeadLetter whose
      publish lands in a declared queue. */
  lemma RecalledSettleKeepsCopies(q: Copies, id: nat, nid: nat, tiers: TierCount, how: Settlement,
                                  reason: string, f: Faults)
    requires id in q && nid !in q && q[id].recalled
    ensures var q' := SettleRecalled(q, id, nid, tiers, how, reason, f);
            var adds := how != Ack && f.open && f.publish.Landed() && !NamesNoQueue(q[id], how);
            && id !in q' && Same(q', q[id]) == Same(q, q[id]) + (if adds then {nid} else {})
            && (forall k :: k != id && k != nid ==> (k in q' <==> k in q) && (k in q ==> q'[k] == q[k]))
  {
    if how != Ack { CopyWritten(q[id], tiers, how, reason); }
    hide Republished, NamesNoQueue;
  }

  // ---- Where the delivery and the copy are ----

  predicate PublishSeen(f: Faults) {
    f.open && f.publish == Done
  }

  /** Where a Retry or DeadLetter leaves the delivery, for every pattern of failures: only a
      confirmed publish lets it go, and a nack that works gives it back to the main queue. */
  lemma OriginalAfterSettleExactly(q: Copies, id: nat, nid: nat, tiers: TierCount, how: Settlement,
                                   reason: string, f: Faults)
    requires id in q && nid !in q && how != Ack
    ensures var q' := Settle(q, id, nid, tiers, how, reason, f);
            && (id !in q' <==> PublishSeen(f) && f.acked)
            && (id in q' ==>
                  && q'[id] == q[id].(place := q'[id].place)
                  && (q'[id].place == Held(Settling(Ack)) <==> PublishSeen(f))
                  && (q'[id].place == Main <==> !PublishSeen(f) && f.nacked)
                  && (q'[id].place == Held(Stuck) <==> !PublishSeen(f) && !f.nacked))
  {
    hide Republished;
  }

  /** And where the copy goes: to the tier of its attempt count with the count raised, or, when
      the tiers are used up, to the dead letters with the reason. The other headers stay. */
  lemma CopyAfterSettleExactly(q: Copies, id: nat, nid: nat, tiers: TierCount, how: Settlement,
                               reason: string, f: Faults)
    requires id in q && nid !in q && how != Ack
    requires how == Retry ==> 0 <= Attempts(q[id].headers) < TWO63 - 1
    ensures var q', c := Settle(q, id, nid, tiers, how, reason, f), q[id];
            && (nid in q' <==> f.open && f.publish != FailedNotLanded)
            && (nid in q' ==>
                  var n := q'[nid];
                  && n.queue == c.queue && n.body == c.body && !n.recalled
                  && (if how == Retry && Attempts(c.headers) < tiers
                      then n.place == Tier(Attempts(c.headers))
                           && n.headers == c.headers[HEADER_ATTEMPTS := Int64(Attempts(c.headers) + 1)]
                      else n.place == DeadLetters && n.headers == c.headers[HEADER_DLQ_REASON := Text(reason)]))
  {
  }

  /** The attempt count a message says: an int32 or int64 header, and zero for any other. */
  lemma AttemptsAreRead(headers: Headers, small: Int32Range, value: Int64Range, text: string)
    ensures Attempts(headers[HEADER_ATTEMPTS := Int32(small)]) == small
    ensures Attempts(headers[HEADER_ATTEMPTS := Int64(value)]) == value
    ensures Attempts(headers[HEADER_ATTEMPTS := Text(text)]) == 0
    ensures Attempts(headers - {HEADER_ATTEMPTS}) == 0
  {
  }

  // ---- Bounded retries ----

  /** The copy after `n` handler calls that each asked for Retry and were republished. */
  function AfterRetries(c: Copy, tiers: TierCount, reason: string, n: nat): Copy
    requires 0 <= Attempts(c.headers) <= tiers
    ensures 0 <= Attempts(AfterRetries(c, tiers, reason, n).headers) <= tiers
  {
    if n == 0 then c
    else Republished(AfterRetries(c, tiers, reason, n - 1), tiers, Retry, reason).value
  }

  /** A message waits in the declared tiers a, a+1, ..., Tiers-1 and is dead-lettered by the
      call after that, Tiers + 1 calls in all for a fresh message, with its body intact. */
  lemma {:induction false} RetriesAreBounded(c: Copy, tiers: TierCount, reason: string, n: nat)
    requires 0 <= Attempts(c.headers) <= tiers && 1 <= n <= tiers - Attempts(c.headers) + 1
    ensures var a, r := Attempts(c.headers), AfterRetries(c, tiers, reason, n);
            && r.body == c.body && r.queue == c.queue
            && (n <= tiers - a ==> r.place == Tier(a + n - 1) && a + n - 1 < tiers && Attempts(r.headers) == a + n)
            && (n == tiers - a + 1 ==> r.place == DeadLetters && Attempts(r.headers) == tiers)
  {
    if n > 1 { RetriesAreBounded(c, tiers, reason, n - 1); }
  }
}
