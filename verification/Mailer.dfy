/** The mailer sends one email per command and reports verification outcomes. */
module Mailer {
  import opened Domain
  import opened Broker
  import opened Backoff

  const MAX_SMTP_RETRIES: nat := 5
  const MAX_RESULT_REPORT_RETRIES: nat := 3

  /** buildEmail; None for an unknown email type. */
  function BuildEmail(msg: DeliveryMessage): Option<Mail> {
    match msg.event
    case NewRelease => Some(Mail(msg.email, "New release for " + msg.repo + ": " + msg.release,
                                 "A new release " + msg.release + " is available for " + msg.repo + "."))
    case RepoMoved => Some(Mail(msg.email, "Repository moved: " + msg.repo,
                                "The repository " + msg.repo + " has been moved or renamed."))
    case EmailVerification => Some(VerificationMail(msg.email,
                                   if "token" in msg.payload then msg.payload["token"] else "<nil>"))
    case OtherEmail => None
  }

  const VERIFICATION_TEXT := "Your verification token is "

  function VerificationMail(email: Email, token: Token): Mail {
    Mail(email, "Verify your email", VERIFICATION_TEXT + token)
  }

  /** A verification mail determines whom it was sent to and the token it carries. */
  lemma VerificationMailInjective(e1: Email, t1: Token, e2: Email, t2: Token)
    requires VerificationMail(e1, t1) == VerificationMail(e2, t2)
    ensures e1 == e2 && t1 == t2
  {
    var n := |VERIFICATION_TEXT|;
    assert (VERIFICATION_TEXT + t1)[n..] == t1 && (VERIFICATION_TEXT + t2)[n..] == t2;
  }

  function VerificationToken(msg: DeliveryMessage): Token {
    if "token" in msg.payload then msg.payload["token"] else ""
  }

  predicate IsVerification(msg: DeliveryMessage) {
    msg.event == EmailVerification
  }

  function ResultPayload(msg: DeliveryMessage, delivered: bool): Payload {
    if delivered then VerificationDelivered(VerificationToken(msg))
    else VerificationFailed(VerificationToken(msg), "smtp")
  }

  // ---- The steps of process, as the global machine takes them ----

  function AfterSend(msg: DeliveryMessage, tried: nat, call: Call, cancelled: bool): Step {
    if call == Done then
      if IsVerification(msg) then Reporting(true, 0, false) else Settling(Ack)
    else if tried + 1 >= MAX_SMTP_RETRIES || cancelled then
      if IsVerification(msg) then Reporting(false, 0, false) else Settling(Retry)
    else Sending(tried + 1)
  }

  predicate GivesUp(reported: nat, call: Call, cancelled: bool) {
    call != Done && (reported + 1 >= MAX_RESULT_REPORT_RETRIES || cancelled)
  }

  function AfterReport(delivered: bool, reported: nat, landed: bool, call: Call, cancelled: bool): Step {
    if call == Done || GivesUp(reported, call, cancelled) then Settling(Ack)
    else Reporting(delivered, reported + 1, landed || call.Landed())
  }

  /** The tries a retry loop makes: it ends at the first success, at the bound, or when the
      context is cancelled in the wait after a failure. */
  ghost predicate Ends(calls: nat -> Call, cancelled: nat -> bool, max: nat, tries: nat) {
    && 1 <= tries <= max
    && (forall i: nat :: i + 1 < tries ==> calls(i) != Done && !cancelled(i))
    && (calls(tries - 1) == Done || tries == max || cancelled(tries - 1))
  }

  /** Where the step machine is after `n` sends that did not end the loop. */
  function SendSteps(msg: DeliveryMessage, calls: nat -> Call, cancelled: nat -> bool, n: nat): Step {
    if n == 0 then Sending(0)
    else match SendSteps(msg, calls, cancelled, n - 1)
      case Sending(tried) => AfterSend(msg, tried, calls(tried), cancelled(tried))
      case step => step
  }

  /** The loop of sendWithRetry and the machine's send steps are the same thing. */
  lemma {:induction false} SendLoopIsTheSteps(msg: DeliveryMessage, calls: nat -> Call, cancelled: nat -> bool,
                                              tries: nat, n: nat)
    requires Ends(calls, cancelled, MAX_SMTP_RETRIES, tries) && n <= tries
    ensures SendSteps(msg, calls, cancelled, n) ==
              if n < tries then Sending(n)
              else if IsVerification(msg) then Reporting(calls(tries - 1) == Done, 0, false)
              else Settling(if calls(tries - 1) == Done then Ack else Retry)
  {
    if n > 0 { SendLoopIsTheSteps(msg, calls, cancelled, tries, n - 1); }
  }

  function ReportSteps(delivered: bool, calls: nat -> Call, cancelled: nat -> bool, n: nat): Step {
    if n == 0 then Reporting(delivered, 0, false)
    else match ReportSteps(delivered, calls, cancelled, n - 1)
      case Reporting(d, reported, landed) => AfterReport(d, reported, landed, calls(reported), cancelled(reported))
      case step => step
  }

  /** And so are the loop of reportWithRetry and the report steps. */
  lemma {:induction false} ReportLoopIsTheSteps(delivered: bool, calls: nat -> Call, cancelled: nat -> bool,
                                                tries: nat, n: nat)
    requires Ends(calls, cancelled, MAX_RESULT_REPORT_RETRIES, tries) && n <= tries
    ensures ReportSteps(delivered, calls, cancelled, n) ==
              if n < tries then Reporting(delivered, n, exists i: nat :: i < n && calls(i).Landed()) else Settling(Ack)
    ensures n == tries ==> (GivesUp(tries - 1, calls(tries - 1), cancelled(tries - 1)) <==> calls(tries - 1) != Done)
  {
    if n > 0 { ReportLoopIsTheSteps(delivered, calls, cancelled, tries, n - 1); }
  }

  /** The shipped defaults do not meet the bound on StaleAfter: 1878 s of scheduled waiting
      against 1800 s. */
  lemma DefaultsExceedStaleAfter()
    ensures ScheduledWait(RetryPolicy(30_000, 2, 5), 1_000, MAX_SMTP_RETRIES, MAX_RESULT_REPORT_RETRIES) == 1_878_000
    ensures 1_878_000 > 1_800_000
  {
    ScheduledWaitBound(30_000, 5, 1_000, MAX_SMTP_RETRIES, MAX_RESULT_REPORT_RETRIES);
    assert Pow(2, 2) == 4 && Pow(2, 3) == 8;
    assert Pow(2, 4) == 16 && Pow(2, 5) == 32;
  }

  class Mailer {
    const baseBackoff: nat
    ghost var accepted: set<Mail>     // mails the SMTP server accepted
    ghost var results: seq<Payload>   // result events that reached the broker

    constructor (baseBackoff: nat)
      ensures this.baseBackoff == baseBackoff && accepted == {} && results == []
    {
      this.baseBackoff := baseBackoff;
      accepted, results := {}, [];
    }

    method SendWithRetry(mail: Mail, smtp: nat -> Call, cancelled: nat -> bool)
      returns (ok: bool, tries: nat, waited: nat)
      modifies this`accepted
      ensures Ends(smtp, cancelled, MAX_SMTP_RETRIES, tries)
      ensures ok <==> smtp(tries - 1) == Done
      ensures ok ==> accepted == old(accepted) + {mail}
      ensures old(accepted) <= accepted <= old(accepted) + {mail}
      ensures waited == TotalWait(baseBackoff, 2, tries - 1)
    {
      var backoff := baseBackoff;
      ok, tries, waited := false, 0, 0;
      while tries < MAX_SMTP_RETRIES
        invariant tries < MAX_SMTP_RETRIES && !ok
        invariant forall i: nat :: i < tries ==> smtp(i) != Done && !cancelled(i)
        invariant waited == TotalWait(baseBackoff, 2, tries)
        invariant backoff == baseBackoff * Pow(2, tries)
        invariant old(accepted) <= accepted <= old(accepted) + {mail}
        decreases MAX_SMTP_RETRIES - tries
      {
        var call := smtp(tries);
        if call.Landed() { accepted := accepted + {mail}; }
        tries := tries + 1;
        if call == Done { ok := true; return; }
        if tries == MAX_SMTP_RETRIES || cancelled(tries - 1) { return; }
        waited := waited + backoff;
        assert backoff * 2 == baseBackoff * Pow(2, tries);
        backoff := backoff * 2;
      }
    }

    method ReportWithRetry(payload: Payload, publish: nat -> Call, cancelled: nat -> bool)
      returns (ok: bool, tries: nat, waited: nat)
      modifies this`results
      ensures Ends(publish, cancelled, MAX_RESULT_REPORT_RETRIES, tries)
      ensures ok <==> publish(tries - 1) == Done
      ensures ok ==> old(results) < results
      ensures old(results) <= results
      ensures |results| <= |old(results)| + tries
      ensures forall i :: |old(results)| <= i < |results| ==> results[i] == payload
      ensures waited == TotalWait(baseBackoff, 2, tries - 1)
    {
      var backoff := baseBackoff;
      ok, tries, waited := false, 0, 0;
      while tries < MAX_RESULT_REPORT_RETRIES
        invariant tries < MAX_RESULT_REPORT_RETRIES && !ok
        invariant forall i: nat :: i < tries ==> publish(i) != Done && !cancelled(i)
        invariant waited == TotalWait(baseBackoff, 2, tries)
        invariant backoff == baseBackoff * Pow(2, tries)
        invariant old(results) <= results && |results| <= |old(results)| + tries
        invariant forall i :: |old(results)| <= i < |results| ==> results[i] == payload
        decreases MAX_RESULT_REPORT_RETRIES - tries
      {
        var call := publish(tries);
        if call.Landed() { results := results + [payload]; }
        tries := tries + 1;
        if call == Done { ok := true; return; }
        if tries == MAX_RESULT_REPORT_RETRIES || cancelled(tries - 1) { return; }
        waited := waited + backoff;
        assert backoff * 2 == baseBackoff * Pow(2, tries);
        backoff := backoff * 2;
      }
    }

    /** Deliver and the settlement of process. A result event is only ever the true outcome:
        `delivered` is reported after the mail was accepted, `failed` after every send try
        (or a cancellation) failed. A verification command is never retried by the broker. */
    method Process(body: Body, smtp: nat -> Call, smtpCancelled: nat -> bool,
                   publish: nat -> Call, reportCancelled: nat -> bool)
      returns (how: Settlement)
      modifies this
      ensures how == DeadLetter <==> !(body.Command? && BuildEmail(body.cmd).Some?)
      ensures how == DeadLetter ==> accepted == old(accepted) && results == old(results)
      ensures how != DeadLetter ==>
                exists tries: nat | Ends(smtp, smtpCancelled, MAX_SMTP_RETRIES, tries) ::
                  var sent := tries > 0 && smtp(tries - 1) == Done;
                  && old(accepted) <= accepted <= old(accepted) + {BuildEmail(body.cmd).value}
                  && (sent ==> accepted == old(accepted) + {BuildEmail(body.cmd).value})
                  && how == (if sent || IsVerification(body.cmd) then Ack else Retry)
                  && (forall i :: |old(results)| <= i < |results| ==> results[i] == ResultPayload(body.cmd, sent))
                  && (!IsVerification(body.cmd) ==> results == old(results))
      ensures how != DeadLetter && IsVerification(body.cmd) && publish(0) == Done ==> |results| > |old(results)|
      ensures old(results) <= results
    {
      if !body.Command? { return DeadLetter; }
      var mail := BuildEmail(body.cmd);
      if mail.None? { return DeadLetter; }
      var sent, tries, _ := SendWithRetry(mail.value, smtp, smtpCancelled);
      if IsVerification(body.cmd) {
        var _, reports, _ := ReportWithRetry(ResultPayload(body.cmd, sent), publish, reportCancelled);
        assert reports > 1 ==> publish(0) != Done;
      }
      return if sent || IsVerification(body.cmd) then Ack else Retry;
    }
  }
}
