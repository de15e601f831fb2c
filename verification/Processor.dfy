/** Scanning one repository: the decision tree, conditional requests against full fetches,
    and the notifications a run of scans inserts. */
module Processor {
  import opened Domain
  import opened SagaStore
  import opened Scanner
  import Quota

  /** What the client returns, by status code: 200, 304, 404, 403 or 429, anything else. */
  datatype Response<+T> = Ok(data: T, etag: string) | NotModified | NotFound | Limited | OtherStatus(status: int)

  datatype Release = Release(id: int, tag: string)

  /** The subscribers GetActiveSubscriptions returned; None if the query failed. */
  type Subscribers = Option<seq<Email>>

  function Map(emails: seq<Email>, path: string, tag: string): seq<Payload> {
    seq(|emails|, i requires 0 <= i < |emails| => ReleaseDetected(emails[i], path, tag))
  }

  function MovedEvents(emails: seq<Email>, path: string): seq<Payload> {
    seq(|emails|, i requires 0 <= i < |emails| => RepositoryMoved(emails[i], path))
  }

  datatype Scan = Scan(repo: Repo, events: seq<Payload>, moved: Option<seq<Payload>>, frozen: bool)

  /** handleNewRelease: no events when the subscribers cannot be read. */
  function ReleaseEvents(repo: Repo, tag: string, subs: Subscribers): seq<Payload> {
    if subs.None? then [] else Map(subs.value, repo.path, tag)
  }

  function ScanRelease(repo: Repo, response: Response<Release>, subs: Subscribers): Scan {
    match response
    case Ok(release, etag) =>
      if release.tag != repo.tag then
        Scan(repo.(tag := release.tag, releaseId := release.id, releaseEtag := etag),
             ReleaseEvents(repo, release.tag, subs), None, false)
      else Scan(repo.(releaseEtag := etag), [], None, false)
    case Limited => Scan(repo, [], None, true)
    case _ => Scan(repo, [], None, false)
  }

  function ScanRepo(repo: Repo, identity: Response<int>, latest: Response<Release>, subs: Subscribers): Scan {
    match identity
    case Ok(id, etag) =>
      if id != repo.githubId then
        Scan(repo, [], if subs.None? then None else Some(MovedEvents(subs.value, repo.path)), false)
      else ScanRelease(repo.(etag := etag), latest, subs)
    case NotModified => ScanRelease(repo, latest, subs)
    case Limited => Scan(repo, [], None, true)
    case _ => Scan(repo, [], None, false)
  }

  /** The repository table after a scan: a moved repository is removed first, and the final
      update then finds no row. */
  function AfterScan(repos: Repos, id: nat, scan: Scan, now: int, moveOk: bool, commitFault: DbFault): Repos {
    var moved := if scan.moved.Some? && moveOk then Remove(repos, id) else repos;
    if commitFault.Commits() then Finish(moved, id, scan.repo, now) else moved
  }

  function Inserted(scan: Scan, moveOk: bool, commitFault: DbFault): seq<Payload> {
    (if scan.moved.Some? && moveOk then scan.moved.value else [])
    + (if commitFault.Commits() then scan.events else [])
  }

  /** Whether the removal of a moved repository took place. */
  predicate Removes(events: seq<Payload>, fault: DbFault, removal: DbFault) {
    if events == [] then fault == NoFault && removal.Commits() else fault.Commits()
  }

  /** One notification per subscriber, in order, with the repository and the tag. */
  lemma NotificationsExactly(repo: Repo, tag: string, subs: Subscribers)
    ensures var events := ReleaseEvents(repo, tag, subs);
            && |events| == (if subs.Some? then |subs.value| else 0)
            && forall i :: 0 <= i < |events| ==> events[i] == ReleaseDetected(subs.value[i], repo.path, tag)
  {
  }

  /** What a scan decides: a move exactly for another id when the subscribers were read, a freeze
      exactly for a 403 or 429 from an endpoint that was asked, and no release events otherwise
      than for a new tag. */
  lemma ScanDecides(repo: Repo, identity: Response<int>, latest: Response<Release>, subs: Subscribers)
    ensures var scan := ScanRepo(repo, identity, latest, subs);
            var asked := identity.NotModified? || (identity.Ok? && identity.data == repo.githubId);
            && (scan.frozen <==> identity.Limited? || (asked && latest.Limited?))
            && (scan.moved.Some? <==> identity.Ok? && identity.data != repo.githubId && subs.Some?)
            && (scan.moved.Some? ==>
                  && |scan.moved.value| == |subs.value|
                  && forall i :: 0 <= i < |subs.value| ==>
                       scan.moved.value[i] == RepositoryMoved(subs.value[i], repo.path))
            && (scan.events != [] ==> asked && latest.Ok? && latest.data.tag != repo.tag)
            && (if asked && latest.Ok?
                then scan.repo.tag == latest.data.tag && scan.repo.releaseEtag == latest.etag
                     && scan.repo.releaseId == (if latest.data.tag == repo.tag then repo.releaseId else latest.data.id)
                else scan.repo.tag == repo.tag && scan.repo.releaseEtag == repo.releaseEtag
                     && scan.repo.releaseId == repo.releaseId)
            && scan.repo.etag == (if asked && identity.Ok? then identity.etag else repo.etag)
  {
  }

  class RepoProcessor {
    const store: RepositoryStore
    const tables: Store
    const quota: Quota.QuotaManager
    var outbox: seq<Payload>

    constructor (store: RepositoryStore, tables: Store, quota: Quota.QuotaManager)
      ensures this.store == store && this.tables == tables && this.quota == quota && outbox == []
    {
      this.store, this.tables, this.quota := store, tables, quota;
      outbox := [];
    }

    /** UpdateScanStatus: the row and the events commit together. */
    method UpdateScanStatus(id: nat, repo: Repo, events: seq<Payload>, now: int, fault: DbFault)
      modifies store, this`outbox
      ensures store.repos == if fault.Commits() then Finish(old(store.repos), id, repo, now) else old(store.repos)
      ensures outbox == if fault.Commits() then old(outbox) + events else old(outbox)
    {
      if fault.Commits() {
        store.repos := Finish(store.repos, id, repo, now);
        outbox := outbox + events;
      }
    }

    /** MarkMovedAndUnsubscribe. With notices one transaction unsubscribes everybody, removes the
        repository and queues them; without notices the update and the removal are two statements,
        and the second is only reached if the first reports no error. */
    method MarkMoved(id: nat, events: seq<Payload>, fault: DbFault, removal: DbFault)
      modifies store, tables, this`outbox
      ensures tables.db == if fault.Commits() then UnsubscribeAll(old(tables.db), id) else old(tables.db)
      ensures store.repos == if Removes(events, fault, removal) then Remove(old(store.repos), id) else old(store.repos)
      ensures outbox == if fault.Commits() then old(outbox) + events else old(outbox)
      ensures events == [] && fault != NoFault ==> store.repos == old(store.repos)
      ensures events == [] && fault == NoFault && removal != RolledBack ==> store.repos == Remove(old(store.repos), id)
      ensures events != [] && fault != RolledBack ==> store.repos == Remove(old(store.repos), id)
      ensures fault == RolledBack ==> store.repos == old(store.repos)
    {
      if events == [] {
        if fault.Commits() { tables.db := UnsubscribeAll(tables.db, id); }
        if fault == NoFault && removal.Commits() { store.repos := Remove(store.repos, id); }
        assert outbox + events == outbox;
        return;
      }
      if fault.Commits() {
        tables.db := UnsubscribeAll(tables.db, id);
        store.repos := Remove(store.repos, id);
        outbox := outbox + events;
      }
    }

    method HandleNewRelease(repo: Repo, tag: string, subs: Subscribers) returns (events: seq<Payload>)
      ensures events == ReleaseEvents(repo, tag, subs)
    {
      events := [];
      if subs.None? { return; }
      for i := 0 to |subs.value|
        invariant events == Map(subs.value[..i], repo.path, tag)
      {
        events := events + [ReleaseDetected(subs.value[i], repo.path, tag)];
      }
      assert subs.value[..|subs.value|] == subs.value;
    }

    /** ProcessRepo. The release endpoint is only asked when the identity check passed. */
    method ProcessRepo(id: nat, row: Repo, identity: Response<int>, latest: Response<Release>, subs: Subscribers,
                       now: int, moveFault: DbFault, removal: DbFault, commitFault: DbFault)
      modifies this, store, tables, quota
      ensures var scan := ScanRepo(row, identity, latest, subs);
              var moveOk := scan.moved.Some? && Removes(scan.moved.value, moveFault, removal);
              && quota.limiter == (if scan.frozen then 0.0 else old(quota.limiter))
              && tables.db == (if scan.moved.Some? && moveFault.Commits() then UnsubscribeAll(old(tables.db), id)
                               else old(tables.db))
              && store.repos == AfterScan(old(store.repos), id, scan, now, moveOk, commitFault)
              && outbox == old(outbox) + Inserted(scan, moveOk, commitFault)
      // Once a moved repository's update has committed no live row of it is active or pending, and
      // no row of another repository has changed; in every other case no row has.
      ensures var moved := identity.Ok? && identity.data != row.githubId && subs.Some? && moveFault.Commits();
              && tables.db.subs.Keys == old(tables.db).subs.Keys
              && (forall k :: k in tables.db.subs ==>
                    var was, row' := old(tables.db).subs[k], tables.db.subs[k];
                    if moved && was.repo == id && !was.deleted
                    then row'.status == Unsubscribed && row'.repo == id && !row'.deleted else row' == was)
    {
      hide Finish, Remove, Map, MovedEvents, UnsubscribeAll, ReleaseEvents, ScanRelease;
      MovesColumns(tables.db, id, row, identity, latest, subs);
      var repo, pending := row, [];
      var checked := false;
      ghost var before := outbox;
      assert before + [] == before;
      match identity {
        case Ok(got, etag) =>
          if got != repo.githubId {
            if subs.Some? { MarkMoved(id, MovedEvents(subs.value, repo.path), moveFault, removal); }
          } else {
            repo := repo.(etag := etag);
            checked := true;
          }
        case NotModified => checked := true;
        case Limited => quota.Freeze();
        case _ =>
      }
      if checked {
        ReleaseScans(repo, latest, subs);
        repo, pending := CheckRelease(repo, latest, subs);
      }
      ghost var mid := outbox;
      assert mid + [] == mid;
      UpdateScanStatus(id, repo, pending, now, commitFault);
    }

    /** The second half of ProcessRepo: the latest release. */
    method CheckRelease(row: Repo, latest: Response<Release>, subs: Subscribers)
      returns (repo: Repo, pending: seq<Payload>)
      modifies quota
      ensures var scan := ScanRelease(row, latest, subs);
              && repo == scan.repo && pending == scan.events
              && quota.limiter == if scan.frozen then 0.0 else old(quota.limiter)
    {
      repo, pending := row, [];
      match latest {
        case Ok(release, etag) =>
          if release.tag != repo.tag {
            pending := HandleNewRelease(repo, release.tag, subs);
            repo := repo.(tag := release.tag, releaseId := release.id);
          }
          repo := repo.(releaseEtag := etag);
        case Limited => quota.Freeze();
        case _ =>
      }
    }
  }

  lemma MovesColumns(db: Tables, id: nat, row: Repo, identity: Response<int>, latest: Response<Release>,
                     subs: Subscribers)
    ensures ScanRepo(row, identity, latest, subs).moved.Some? <==>
              identity.Ok? && identity.data != row.githubId && subs.Some?
    ensures UnsubscribeAll(db, id).subs.Keys == db.subs.Keys
    ensures forall k :: k in db.subs ==>
              var was, row' := db.subs[k], UnsubscribeAll(db, id).subs[k];
              if was.repo == id && !was.deleted then row'.status == Unsubscribed && row'.repo == id && !row'.deleted
              else row' == was
  {
    ScanDecides(row, identity, latest, subs);
  }

  lemma ReleaseScans(row: Repo, latest: Response<Release>, subs: Subscribers)
    ensures ScanRelease(row, latest, subs).moved.None?
  {
  }

  // ---- Conditional scanning against full scanning ----

  datatype Tagged<T> = Tagged(data: T, etag: string)

  /** The origin at one scan: None is a missing resource, and a request may fail instead. */
  datatype Site<T> = Site(resource: Option<Tagged<T>>, failure: Option<Response<T>>)

  /** A GET with If-None-Match, answered as RFC 9110 sections 13.1.2 and 15.4.5 require; the
      client sends the header only for a non-empty ETag. */
  function Answer<T>(site: Site<T>, ifNoneMatch: string): Response<T> {
    if site.failure.Some? then site.failure.value
    else match site.resource
      case None => Response.NotFound
      case Some(r) => if ifNoneMatch != "" && ifNoneMatch == r.etag then NotModified else Ok(r.data, r.etag)
  }

  /** Neither a 200 nor a 304. */
  predicate IsFailure<T>(r: Response<T>) {
    !r.Ok? && !r.NotModified?
  }

  predicate FailureOnly<T>(site: Site<T>) {
    site.failure.Some? ==> IsFailure(site.failure.value)
  }

  /** An answer is a 304 exactly if the header matches the current ETag, and a 200 is the resource. */
  lemma AnswerExactly<T>(site: Site<T>, ifNoneMatch: string)
    requires FailureOnly(site)
    ensures var r := Answer(site, ifNoneMatch);
            && (site.failure.Some? ==> r == site.failure.value)
            && (site.failure.None? ==>
                  && (r.NotModified? <==>
                        ifNoneMatch != "" && site.resource.Some? && site.resource.value.etag == ifNoneMatch)
                  && (r.Ok? ==> site.resource == Some(Tagged(r.data, r.etag)))
                  && (r.NotFound? <==> site.resource.None?) && !r.Limited? && !r.OtherStatus?)
  {
  }

  datatype Round = Round(identity: Site<int>, latest: Site<Release>, subs: Subscribers, moveOk: bool, commitOk: bool)

  /** The row, or None once it is deleted, and the events inserted so far. */
  datatype Progress = Progress(row: Option<Repo>, events: seq<Payload>)

  /** What a scan of the row leaves: the removal, the final update, or nothing. */
  function Committed(p: Progress, scan: Scan, moveOk: bool, commitOk: bool): Progress {
    if scan.moved.Some? && moveOk then Progress(None, p.events + scan.moved.value)
    else if commitOk then Progress(Some(scan.repo), p.events + scan.events)
    else p
  }

  function ScanRound(p: Progress, r: Round, conditional: bool): Progress {
    if p.row.None? then p
    else
      var row := p.row.value;
      var scan := ScanRepo(row, Answer(r.identity, if conditional then row.etag else ""),
                           Answer(r.latest, if conditional then row.releaseEtag else ""), r.subs);
      Committed(p, scan, r.moveOk, r.commitOk)
  }

  function ScanAll(p: Progress, rounds: seq<Round>, conditional: bool): Progress
    decreases rounds
  {
    if rounds == [] then p else ScanAll(ScanRound(p, rounds[0], conditional), rounds[1..], conditional)
  }

  /** The row as the table holds it, apart from its place in the claim protocol. */
  predicate Holds(repos: Repos, id: nat, row: Option<Repo>) {
    && id in repos
    && match row
       case None => repos[id].deleted
       case Some(r) =>
         repos[id] == r.(status := repos[id].status, lastScanned := repos[id].lastScanned, deleted := false)
  }

  /** A round is what ProcessRepo does to the table and the outbox when its two requests carry
      the ETags of the row. */
  lemma RoundIsProcessRepo(repos: Repos, id: nat, p: Progress, r: Round, now: int, commitFault: DbFault)
    requires p.row.Some? && Holds(repos, id, p.row)
    requires r.commitOk == commitFault.Commits()
    ensures var row := repos[id];
            var scan := ScanRepo(row, Answer(r.identity, row.etag), Answer(r.latest, row.releaseEtag), r.subs);
            && Holds(AfterScan(repos, id, scan, now, r.moveOk, commitFault), id, ScanRound(p, r, true).row)
            && ScanRound(p, r, true).events == p.events + Inserted(scan, r.moveOk, commitFault)
  {
    hide ScanRepo;
    var row, held := p.row.value, repos[id];
    var identity, latest := Answer(r.identity, row.etag), Answer(r.latest, row.releaseEtag);
    ScanIgnoresClaims(row, held, identity, latest, r.subs);
    ScanEither(row, identity, latest, r.subs);
    assert p.events + [] == p.events;
  }

  predicate SameScan(a: Repo, b: Repo) {
    a == b.(status := a.status, lastScanned := a.lastScanned, deleted := a.deleted)
  }

  /** What a scan finds does not depend on the row's place in the claim protocol. */
  lemma ScanIgnoresClaims(a: Repo, b: Repo, identity: Response<int>, latest: Response<Release>, subs: Subscribers)
    requires SameScan(a, b)
    ensures var s, t := ScanRepo(a, identity, latest, subs), ScanRepo(b, identity, latest, subs);
            && s.events == t.events && s.moved == t.moved && s.frozen == t.frozen
            && t.repo == s.repo.(status := b.status, lastScanned := b.lastScanned, deleted := b.deleted)
  {
  }

  /** A moved repository yields no release events, and a scan keeps what identifies the row. */
  lemma ScanEither(row: Repo, identity: Response<int>, latest: Response<Release>, subs: Subscribers)
    ensures var scan := ScanRepo(row, identity, latest, subs);
            && (scan.moved.Some? ==> scan.events == [] && scan.repo == row)
            && scan.repo == row.(etag := scan.repo.etag, tag := scan.repo.tag, releaseId := scan.repo.releaseId,
                                 releaseEtag := scan.repo.releaseEtag)
  {
  }

  /** Equal non-empty ETags mean equal content, over the whole history of the origin. */
  ghost predicate Faithful(rounds: seq<Round>) {
    forall i, j :: 0 <= i < |rounds| && 0 <= j < |rounds| ==>
      && SameIfSameEtag(rounds[i].identity, rounds[j].identity)
      && SameIfSameEtag(rounds[i].latest, rounds[j].latest)
  }

  ghost predicate SameIfSameEtag<T(!new)>(a: Site<T>, b: Site<T>) {
    (a.resource.Some? && b.resource.Some? && a.resource.value.etag == b.resource.value.etag
     && a.resource.value.etag != "")
    ==> a.resource.value.data == b.resource.value.data
  }

  ghost predicate Failing(rounds: seq<Round>) {
    forall i :: 0 <= i < |rounds| ==> FailureOnly(rounds[i].identity) && FailureOnly(rounds[i].latest)
  }

  /** The stored ETags belong to the stored identity and tag in every later round. */
  ghost predicate Knows(row: Repo, r: Round) {
    && (r.identity.resource.Some? && row.etag != "" && r.identity.resource.value.etag == row.etag
        ==> r.identity.resource.value.data == row.githubId)
    && (r.latest.resource.Some? && row.releaseEtag != "" && r.latest.resource.value.etag == row.releaseEtag
        ==> r.latest.resource.value.data.tag == row.tag)
  }

  ghost predicate KnowsAll(p: Progress, rounds: seq<Round>) {
    p.row.Some? ==> forall i :: 0 <= i < |rounds| ==> Knows(p.row.value, rounds[i])
  }

  /** One round: the stored ETag turns a fetch whose body would change nothing into a 304. */
  lemma RoundAgrees(p: Progress, r: Round)
    requires p.row.Some? ==> Knows(p.row.value, r)
    requires FailureOnly(r.identity) && FailureOnly(r.latest)
    ensures ScanRound(p, r, true) == ScanRound(p, r, false)
  {
  }

  lemma RoundTeaches(p: Progress, r: Round, later: Round)
    requires p.row.Some? ==> Knows(p.row.value, r) && Knows(p.row.value, later)
    requires FailureOnly(r.identity) && FailureOnly(r.latest)
    requires SameIfSameEtag(r.identity, later.identity) && SameIfSameEtag(r.latest, later.latest)
    ensures var q := ScanRound(p, r, false); q.row.Some? ==> Knows(q.row.value, later)
  {
  }

  /** Conditional scanning refines full scanning: with stored ETags the scanner commits the same
      rows and inserts the same events as one that always fetches the body, over every
      history of the origin, failures and failed commits included. */
  lemma {:induction false} ConditionalRefinesFull(p: Progress, rounds: seq<Round>)
    requires Faithful(rounds) && Failing(rounds) && KnowsAll(p, rounds)
    ensures ScanAll(p, rounds, true) == ScanAll(p, rounds, false)
    decreases rounds
  {
    if rounds != [] {
      var r, rest := rounds[0], rounds[1..];
      RoundAgrees(p, r);
      var q := ScanRound(p, r, false);
      assert forall i :: 0 <= i < |rest| ==> rest[i] == rounds[i + 1];
      forall i | 0 <= i < |rest| ensures q.row.Some? ==> Knows(q.row.value, rest[i]) {
        RoundTeaches(p, r, rounds[i + 1]);
      }
      hide ScanRound, Knows, SameIfSameEtag;
      ConditionalRefinesFull(q, rest);
    }
  }

  /** A row that was never scanned holds no ETag, so it satisfies the hypothesis. */
  lemma NewRowsRefine(path: string, githubId: int, rounds: seq<Round>)
    requires Faithful(rounds) && Failing(rounds)
    ensures var p := Progress(Some(Repo(path, githubId, "", "", 0, "", Idle, None, false)), []);
            ScanAll(p, rounds, true) == ScanAll(p, rounds, false)
  {
    ConditionalRefinesFull(Progress(Some(Repo(path, githubId, "", "", 0, "", Idle, None, false)), []), rounds);
  }

  /** A round that reaches both endpoints and commits leaves the row with the origin's tag and
      both of its ETags; the release id is the origin's whenever the tag changed. */
  lemma CommittedRowMatchesOrigin(p: Progress, r: Round, conditional: bool)
    requires p.row.Some? && Knows(p.row.value, r) && r.commitOk
    requires r.identity.failure.None? && r.identity.resource.Some?
             && r.identity.resource.value.data == p.row.value.githubId
    requires r.latest.failure.None? && r.latest.resource.Some?
    ensures var q := ScanRound(p, r, conditional);
            var origin := r.latest.resource.value;
            && q.row.Some?
            && q.row.value == p.row.value.(tag := origin.data.tag, releaseEtag := origin.etag,
                                           etag := r.identity.resource.value.etag,
                                           releaseId := if origin.data.tag == p.row.value.tag then p.row.value.releaseId
                                                        else origin.data.id)
  {
  }

  /** When a request of the round fails, neither tag nor release ETag moves and nothing is sent. */
  lemma FailedRequestKeepsTheTag(p: Progress, r: Round, conditional: bool)
    requires p.row.Some? && FailureOnly(r.identity) && FailureOnly(r.latest)
    requires r.identity.failure.Some? || (r.latest.failure.Some? && r.identity.resource.Some?
                                          && r.identity.resource.value.data == p.row.value.githubId)
    ensures var q := ScanRound(p, r, conditional);
            && q.row.Some? && q.events == p.events
            && q.row.value == p.row.value.(etag := q.row.value.etag)
  {
    assert p.events + [] == p.events;
  }

  // ---- Conservation of release notifications ----

  /** The release notifications among the events, in order. */
  function Releases(events: seq<Payload>): seq<Payload> {
    if events == [] then []
    else Releases(events[..|events| - 1])
         + (var e := events[|events| - 1]; if e.ReleaseDetected? then [e] else [])
  }

  /** What a round owes: one notification per subscriber read, with the committed tag, if it
      commits a change of the tag. A failed read counts as no subscriber. */
  function Owed(p: Progress, q: Progress, subs: Subscribers): seq<Payload> {
    if TagChanged(p, q) then Map(Readers(subs), q.row.value.path, q.row.value.tag) else []
  }

  predicate TagChanged(p: Progress, q: Progress) {
    p.row.Some? && q.row.Some? && q.row.value.tag != p.row.value.tag
  }

  function Readers(subs: Subscribers): seq<Email> {
    if subs.Some? then subs.value else []
  }

  function AllOwed(p: Progress, rounds: seq<Round>): seq<Payload>
    decreases rounds
  {
    if rounds == [] then []
    else
      var q := ScanRound(p, rounds[0], true);
      Owed(p, q, rounds[0].subs) + AllOwed(q, rounds[1..])
  }

  lemma {:induction false} ReleasesConcat(a: seq<Payload>, b: seq<Payload>)
    ensures Releases(a + b) == Releases(a) + Releases(b)
  {
    if b == [] {
      assert a + b == a;
    } else {
      var n := |b| - 1;
      assert (a + b)[..|a + b| - 1] == a + b[..n];
      ReleasesConcat(a, b[..n]);
    }
  }

  lemma {:induction false} ReleasesOfMap(emails: seq<Email>, path: string, tag: string)
    ensures Releases(Map(emails, path, tag)) == Map(emails, path, tag)
  {
    if emails != [] {
      var n := |emails| - 1;
      assert Map(emails, path, tag)[..n] == Map(emails[..n], path, tag);
      ReleasesOfMap(emails[..n], path, tag);
      assert Map(emails, path, tag) == Map(emails[..n], path, tag) + [ReleaseDetected(emails[n], path, tag)];
    }
  }

  lemma {:induction false} ReleasesOfMoved(emails: seq<Email>, path: string)
    ensures Releases(MovedEvents(emails, path)) == []
  {
    if emails != [] {
      var n := |emails| - 1;
      assert MovedEvents(emails, path)[..n] == MovedEvents(emails[..n], path);
      ReleasesOfMoved(emails[..n], path);
    }
  }

  lemma ScanOwes(row: Repo, identity: Response<int>, latest: Response<Release>, subs: Subscribers)
    ensures var scan := ScanRepo(row, identity, latest, subs);
            && Releases(scan.events) ==
               (if scan.repo.tag != row.tag then Map(Readers(subs), scan.repo.path, scan.repo.tag) else [])
            && (scan.moved.Some? ==> Releases(scan.moved.value) == [] && scan.repo.tag == row.tag)
  {
    hide Releases, Map, MovedEvents;
    var scan := ScanRepo(row, identity, latest, subs);
    if subs.Some? { ReleasesOfMoved(subs.value, row.path); }
    ReleasesOfMap(Readers(subs), scan.repo.path, scan.repo.tag);
    ReleasesOfNone(row.path, scan.repo.tag);
    assert scan.events == [] || scan.events == Map(Readers(subs), row.path, scan.repo.tag);
  }

  lemma ReleasesOfNone(path: string, tag: string)
    ensures Releases([]) == [] && Map([], path, tag) == []
  {
  }

  /** One scan, whatever its two requests were answered. */
  lemma CommitOwes(p: Progress, identity: Response<int>, latest: Response<Release>, subs: Subscribers, moveOk: bool,
                   commitOk: bool)
    requires p.row.Some?
    ensures var q := Committed(p, ScanRepo(p.row.value, identity, latest, subs), moveOk, commitOk);
            Releases(q.events) == Releases(p.events) + Owed(p, q, subs)
  {
    hide ScanRepo, Releases, Map;
    var scan := ScanRepo(p.row.value, identity, latest, subs);
    ScanOwes(p.row.value, identity, latest, subs);
    ReleasesConcat(p.events, scan.events);
    if scan.moved.Some? { ReleasesConcat(p.events, scan.moved.value); }
  }

  lemma RoundOwes(p: Progress, r: Round)
    ensures var q := ScanRound(p, r, true); Releases(q.events) == Releases(p.events) + Owed(p, q, r.subs)
  {
    hide ScanRepo, Releases, Map, Committed;
    if p.row.Some? {
      CommitOwes(p, Answer(r.identity, p.row.value.etag), Answer(r.latest, p.row.value.releaseEtag),
                 r.subs, r.moveOk, r.commitOk);
    }
  }

  /** Conservation: over any run the release notifications inserted are exactly, in order, one
      for each subscriber read for each committed change of the tag, with that tag. Failed
      commits, unchanged scans and moves insert none. */
  lemma {:induction false} ReleasesAreWhatIsOwed(p: Progress, rounds: seq<Round>)
    ensures Releases(ScanAll(p, rounds, true).events) == Releases(p.events) + AllOwed(p, rounds)
    decreases rounds
  {
    hide ScanRound, Releases, Owed;
    if rounds != [] {
      RoundOwes(p, rounds[0]);
      ReleasesAreWhatIsOwed(ScanRound(p, rounds[0], true), rounds[1..]);
    }
  }

  /** The tags the events announce to one address, in order. */
  function TagsFor(events: seq<Payload>, email: Email): seq<string> {
    if events == [] then []
    else TagsFor(events[..|events| - 1], email)
         + (var e := events[|events| - 1]; if e.ReleaseDetected? && e.email == email then [e.tag] else [])
  }

  function Repeat(tag: string, n: nat): seq<string> {
    seq(n, _ => tag)
  }

  /** Each committed change of the tag, as often as its read returned the address. */
  function TagsOwed(p: Progress, rounds: seq<Round>, email: Email): seq<string>
    decreases rounds
  {
    if rounds == [] then []
    else
      var q := ScanRound(p, rounds[0], true);
      (if TagChanged(p, q) then Repeat(q.row.value.tag, multiset(Readers(rounds[0].subs))[email]) else [])
      + TagsOwed(q, rounds[1..], email)
  }

  lemma {:induction false} TagsForConcat(a: seq<Payload>, b: seq<Payload>, email: Email)
    ensures TagsFor(a + b, email) == TagsFor(a, email) + TagsFor(b, email)
  {
    if b == [] {
      assert a + b == a;
    } else {
      var n := |b| - 1;
      assert (a + b)[..|a + b| - 1] == a + b[..n];
      TagsForConcat(a, b[..n], email);
    }
  }

  lemma {:induction false} TagsOfRelease(emails: seq<Email>, path: string, tag: string, email: Email)
    ensures TagsFor(Map(emails, path, tag), email) == Repeat(tag, multiset(emails)[email])
  {
    if emails != [] {
      var n := |emails| - 1;
      var front := emails[..n];
      assert emails == front + [emails[n]];
      assert multiset(emails) == multiset(front) + multiset{emails[n]};
      assert Map(emails, path, tag)[..n] == Map(front, path, tag);
      TagsOfRelease(front, path, tag, email);
    }
  }

  lemma {:induction false} TagsOfReleases(events: seq<Payload>, email: Email)
    ensures TagsFor(Releases(events), email) == TagsFor(events, email)
  {
    if events != [] {
      var n := |events| - 1;
      TagsOfReleases(events[..n], email);
      var last := [events[n]];
      assert last[..|last| - 1] == [] && events == events[..n] + last;
      assert Releases(events) == Releases(events[..n]) + if last[0].ReleaseDetected? then last else [];
      TagsForConcat(Releases(events[..n]), last, email);
      TagsForConcat(events[..n], last, email);
      assert TagsFor(last, email) == if last[0].ReleaseDetected? && last[0].email == email then [last[0].tag] else [];
      assert Releases(events[..n]) + [] == Releases(events[..n]);
    }
  }

  lemma {:induction false} TagsOfOwed(p: Progress, rounds: seq<Round>, email: Email)
    ensures TagsFor(AllOwed(p, rounds), email) == TagsOwed(p, rounds, email)
    decreases rounds
  {
    hide ScanRound, TagsFor, Map;
    if rounds != [] {
      var r, q := rounds[0], ScanRound(p, rounds[0], true);
      TagsForConcat(Owed(p, q, r.subs), AllOwed(q, rounds[1..]), email);
      TagsOfOwed(q, rounds[1..], email);
      if q.row.Some? { TagsOfRelease(Readers(r.subs), q.row.value.path, q.row.value.tag, email); }
      TagsOfNone(email);
    } else {
      TagsOfNone(email);
    }
  }

  lemma TagsOfNone(email: Email)
    ensures TagsFor([], email) == []
  {
  }

  /** For every address, whenever it subscribes or leaves: it is sent each committed change of
      the tag, in order, as often as the read for that change returned it. */
  lemma NotificationsFollowTheTag(p: Progress, rounds: seq<Round>, email: Email)
    ensures TagsFor(ScanAll(p, rounds, true).events, email) == TagsFor(p.events, email) + TagsOwed(p, rounds, email)
  {
    ReleasesAreWhatIsOwed(p, rounds);
    TagsOfReleases(ScanAll(p, rounds, true).events, email);
    TagsOfReleases(p.events, email);
    TagsForConcat(Releases(p.events), AllOwed(p, rounds), email);
    TagsOfOwed(p, rounds, email);
    hide TagsFor, Releases, ScanAll, AllOwed, TagsOwed;
  }

  /** Every committed change of the tag, with the number of subscribers read for it. */
  function Changes(p: Progress, rounds: seq<Round>): seq<nat>
    decreases rounds
  {
    if rounds == [] then []
    else
      var q := ScanRound(p, rounds[0], true);
      (if TagChanged(p, q) then [|Readers(rounds[0].subs)|] else [])
      + Changes(q, rounds[1..])
  }

  function Sum(s: seq<nat>): nat {
    if s == [] then 0 else s[0] + Sum(s[1..])
  }

  /** The number of notifications is the sum, over the committed changes, of the subscribers read. */
  lemma NotificationsAddUp(p: Progress, rounds: seq<Round>)
    ensures |Releases(ScanAll(p, rounds, true).events)| == |Releases(p.events)| + Sum(Changes(p, rounds))
  {
    ReleasesAreWhatIsOwed(p, rounds);
    OwedAddsUp(p, rounds);
    hide Releases, ScanAll, AllOwed, Changes, Sum;
  }

  lemma {:induction false} OwedAddsUp(p: Progress, rounds: seq<Round>)
    ensures |AllOwed(p, rounds)| == Sum(Changes(p, rounds))
    decreases rounds
  {
    hide ScanRound;
    if rounds != [] {
      var q := ScanRound(p, rounds[0], true);
      OwedAddsUp(q, rounds[1..]);
      if TagChanged(p, q) {
        assert Changes(p, rounds)[1..] == Changes(q, rounds[1..]);
      } else {
        assert Changes(p, rounds) == Changes(q, rounds[1..]);
      }
    }
  }

  /** Neither transaction of the round commits. */
  predicate CommitsNothing(r: Round) {
    !r.commitOk && !r.moveOk
  }

  lemma {:induction false} FailedRoundsLeaveNoTrace(p: Progress, failed: seq<Round>, rest: seq<Round>,
                                                    conditional: bool)
    requires forall r :: r in failed ==> CommitsNothing(r)
    ensures ScanAll(p, failed + rest, conditional) == ScanAll(p, rest, conditional)
    decreases failed
  {
    if failed == [] {
      assert failed + rest == rest;
    } else {
      assert failed[0] in failed && forall r :: r in failed[1..] ==> r in failed;
      assert (failed + rest)[1..] == failed[1..] + rest;
      NoTrace(p, failed[0], conditional);
      hide ScanRound;
      FailedRoundsLeaveNoTrace(p, failed[1..], rest, conditional);
    }
  }

  lemma NoTrace(p: Progress, r: Round, conditional: bool)
    requires CommitsNothing(r)
    ensures ScanRound(p, r, conditional) == p
  {
  }

  /** A failed commit changes neither tag nor ETag, so the release is detected again: after any
      number of failed rounds the first one that commits and finds a new tag stores it and
      announces it to everybody it reads. */
  lemma FailedCommitsAreRetried(p: Progress, failed: seq<Round>, r: Round, conditional: bool)
    requires forall x :: x in failed ==> CommitsNothing(x)
    requires p.row.Some? && Knows(p.row.value, r) && r.commitOk
    requires r.identity.failure.None? && r.identity.resource.Some?
             && r.identity.resource.value.data == p.row.value.githubId
    requires r.latest.failure.None? && r.latest.resource.Some? && r.latest.resource.value.data.tag != p.row.value.tag
    ensures var q := ScanAll(p, failed + [r], conditional);
            var tag := r.latest.resource.value.data.tag;
            && q.row.Some? && q.row.value.tag == tag
            && q.events == p.events + Map(Readers(r.subs), p.row.value.path, tag)
  {
    FailedRoundsLeaveNoTrace(p, failed, [r], conditional);
    assert ScanAll(p, [r], conditional) == ScanRound(p, r, conditional);
    CommittedRowMatchesOrigin(p, r, conditional);
    assert Answer(r.latest, if conditional then p.row.value.releaseEtag else "")
           == Ok(r.latest.resource.value.data, r.latest.resource.value.etag);
    if r.subs.None? { assert Map([], p.row.value.path, r.latest.resource.value.data.tag) == []; }
  }

  /** The origin of a round is that of an earlier one; its requests may fail. */
  ghost predicate SameOrigin(r: Round, s: Round) {
    && s.identity.resource == r.identity.resource && s.latest.resource == r.latest.resource
    && FailureOnly(s.identity) && FailureOnly(s.latest)
  }

  /** The subscriber read must succeed: when it fails the new tag is committed without events,
      and no later run of rounds with an unchanged origin announces it. */
  lemma FailedReadLosesTheRelease(p: Progress, r: Round, later: seq<Round>)
    requires p.row.Some? && r.commitOk && r.subs.None?
    requires r.identity.failure.None? && r.identity.resource.Some?
             && r.identity.resource.value.data == p.row.value.githubId
    requires r.latest.failure.None? && r.latest.resource.Some? && r.latest.resource.value.data.tag != p.row.value.tag
    requires r.latest.resource.value.etag != p.row.value.releaseEtag
    requires forall s :: s in later ==> SameOrigin(r, s)
    ensures var q := ScanRound(p, r, true);
            && q.row.Some? && q.row.value.tag == r.latest.resource.value.data.tag && q.events == p.events
            && ScanAll(q, later, true).events == p.events
  {
    assert p.events + [] == p.events;
    NothingNew(ScanRound(p, r, true), r, later);
  }

  /** While the row has the origin's identity and tag, scans insert nothing. */
  lemma {:induction false} NothingNew(p: Progress, r: Round, later: seq<Round>)
    requires r.identity.resource.Some? && r.latest.resource.Some?
    requires p.row.Some? && p.row.value.githubId == r.identity.resource.value.data
    requires p.row.value.tag == r.latest.resource.value.data.tag
    requires forall s :: s in later ==> SameOrigin(r, s)
    ensures ScanAll(p, later, true).events == p.events
    decreases later
  {
    if later != [] {
      var s := later[0];
      assert s in later && forall x :: x in later[1..] ==> x in later;
      QuietRound(p, r, s);
      hide ScanRound, SameOrigin;
      NothingNew(ScanRound(p, s, true), r, later[1..]);
    }
  }

  lemma QuietRound(p: Progress, r: Round, s: Round)
    requires r.identity.resource.Some? && r.latest.resource.Some? && SameOrigin(r, s)
    requires p.row.Some? && p.row.value.githubId == r.identity.resource.value.data
    requires p.row.value.tag == r.latest.resource.value.data.tag
    ensures var q := ScanRound(p, s, true);
            && q.events == p.events && q.row.Some?
            && q.row.value.githubId == p.row.value.githubId && q.row.value.tag == p.row.value.tag
  {
    assert p.events + [] == p.events;
  }
}
