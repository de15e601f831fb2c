/** The URL-keyed response cache in front of the API, and what it does to conditional scans. */
module Cache {
  import opened Domain
  import opened Scanner
  import opened Processor

  /** A response as the cache keeps it; the two TTL classes differ at status 400. */
  datatype Entry<T> = Entry(response: Response<T>, expires: int)

  datatype TTLs = TTLs(ttl: int, errorTTL: int)

  /** A status of 400 or more. */
  predicate IsError<T>(r: Response<T>) {
    r.NotFound? || r.Limited? || (r.OtherStatus? && r.status >= 400)
  }

  function TTLFor<T>(ttls: TTLs, r: Response<T>): int {
    if IsError(r) then ttls.errorTTL else ttls.ttl
  }

  predicate Fresh<T>(entry: Option<Entry<T>>, now: int) {
    entry.Some? && now < entry.value.expires
  }

  /** The cache of one URL after a request at `now`. `network` is the transport's answer,
      None if it fails; Get and Set may fail. */
  function Stored<T>(entry: Option<Entry<T>>, ttls: TTLs, now: int, getOk: bool, setOk: bool,
                     network: Option<Response<T>>): Option<Entry<T>> {
    if getOk && Fresh(entry, now) then entry
    else if network.None? || TTLFor(ttls, network.value) <= 0 || !setOk then entry
    else Some(Entry(network.value, now + TTLFor(ttls, network.value)))
  }

  function Served<T>(entry: Option<Entry<T>>, now: int, getOk: bool,
                     network: Option<Response<T>>): Option<Response<T>> {
    if getOk && Fresh(entry, now) then Some(entry.value.response) else network
  }

  predicate StatusBelow400<T>(r: Response<T>) {
    match r
    case Ok(_, _) => true
    case NotModified => true
    case NotFound => false
    case Limited => false
    case OtherStatus(status) => status < 400
  }

  class CacheTransport<T> {
    const ttls: TTLs
    var entries: map<string, Entry<T>>

    constructor (ttls: TTLs)
      ensures this.ttls == ttls && entries == map[]
    {
      this.ttls := ttls;
      entries := map[];
    }

    function At(url: string): Option<Entry<T>>
      reads this
    {
      if url in entries then Some(entries[url]) else None
    }

    /** RoundTrip of a GET: the key is the URL alone, whatever If-None-Match the request has. */
    method RoundTrip(url: string, now: int, getOk: bool, setOk: bool, network: Option<Response<T>>)
      returns (response: Option<Response<T>>)
      modifies this
      ensures response == Served(old(At(url)), now, getOk, network)
      ensures At(url) == Stored(old(At(url)), ttls, now, getOk, setOk, network)
      ensures forall u :: u != url ==> At(u) == old(At(u))
      // A live entry is served and kept if it can be read.
      ensures getOk && url in old(entries) && now < old(entries)[url].expires ==>
                response == Some(old(entries)[url].response) && At(url) == old(At(url))
      // Otherwise the network's answer is served, and kept for the time of its status class.
      ensures !(getOk && url in old(entries) && now < old(entries)[url].expires) ==>
                && response == network
                && (if network.Some? && setOk && (if StatusBelow400(network.value) then ttls.ttl else ttls.errorTTL) > 0
                    then At(url) == Some(Entry(network.value, now + if StatusBelow400(network.value) then ttls.ttl
                                                                    else ttls.errorTTL))
                    else At(url) == old(At(url)))
    {
      if getOk && url in entries && now < entries[url].expires {
        return Some(entries[url].response);
      }
      if network.None? { return None; }
      var ttl := ttls.ttl;
      if IsError(network.value) { ttl := ttls.errorTTL; }
      if ttl > 0 && setOk { entries := entries[url := Entry(network.value, now + ttl)]; }
      return network;
    }
  }

  // ---- One endpoint through the cache ----

  /** What the origin serves over time. */
  type History<T> = int -> Option<Tagged<T>>

  ghost predicate FaithfulHistory<T(!new)>(h: History<T>) {
    forall s, t :: h(s).Some? && h(t).Some? && h(s).value.etag == h(t).value.etag && h(s).value.etag != ""
      ==> h(s).value.data == h(t).value.data
  }

  /** The cache of one URL. `asked` and `at` record the If-None-Match and the time of the
      request that filled it. */
  datatype Slot<T> = Slot(entry: Option<Entry<T>>, asked: string, at: int)

  /** What happens to one request. */
  datatype Leg<T> = Leg(evicted: bool, getOk: bool, setOk: bool, failure: Option<Response<T>>, down: bool)

  ghost predicate LegOk<T>(leg: Leg<T>) {
    leg.failure.Some? ==> IsFailure(leg.failure.value)
  }

  function Network<T>(h: History<T>, now: int, etag: string, leg: Leg<T>): Option<Response<T>> {
    if leg.down then None else Some(Answer(Site(h(now), leg.failure), etag))
  }

  /** The entry as the request finds it: entries expire, and may be evicted at any time. */
  function Found<T>(slot: Slot<T>, now: int, leg: Leg<T>): Option<Entry<T>> {
    if leg.evicted || !Fresh(slot.entry, now) then None else slot.entry
  }

  function Fetched<T>(h: History<T>, slot: Slot<T>, now: int, etag: string, leg: Leg<T>): Option<Response<T>> {
    Served(Found(slot, now, leg), now, leg.getOk, Network(h, now, etag, leg))
  }

  function Refilled<T>(h: History<T>, ttls: TTLs, slot: Slot<T>, now: int, etag: string, leg: Leg<T>): Slot<T> {
    var found, network := Found(slot, now, leg), Network(h, now, etag, leg);
    var entry := Stored(found, ttls, now, leg.getOk, leg.setOk, network);
    if !(leg.getOk && found.Some?) && network.Some? && leg.setOk && TTLFor(ttls, network.value) > 0
    then Slot(entry, etag, now) else slot.(entry := entry)
  }

  /** The stored ETag belongs to the stored value, which is a part of the data. */
  ghost predicate Knows<T, V>(h: History<T>, part: T -> V, value: V, etag: string) {
    forall t :: h(t).Some? && etag != "" && h(t).value.etag == etag ==> part(h(t).value.data) == value
  }

  /** The origin had the value at some time in the interval. */
  ghost predicate Had<T, V>(h: History<T>, part: T -> V, value: V, from: int, to: int) {
    exists s :: from <= s <= to && h(s).Some? && part(h(s).value.data) == value
  }

  /** A cached entry is the origin's true answer, given at most one TTL ago. */
  ghost predicate TrueEntry<T>(h: History<T>, ttls: TTLs, slot: Slot<T>, now: int) {
    slot.entry.Some? ==>
      && slot.at <= now
      && (slot.entry.value.response.Ok? || slot.entry.value.response.NotModified? ==>
            && slot.entry.value.expires == slot.at + ttls.ttl
            && slot.entry.value.response == Answer(Site(h(slot.at), None), slot.asked))
  }

  /** While a 304 is served from the cache, the origin has had the stored value since the 304
      was given, even if the stored ETag is no longer the one it answered. */
  ghost predicate Backed<T, V>(h: History<T>, part: T -> V, value: V, slot: Slot<T>, now: int) {
    Fresh(slot.entry, now) && slot.entry.value.response.NotModified? ==> Had(h, part, value, slot.at, now)
  }

  ghost predicate SlotOk<T, V>(h: History<T>, ttls: TTLs, part: T -> V, value: V, etag: string, slot: Slot<T>,
                               now: int) {
    Knows(h, part, value, etag) && TrueEntry(h, ttls, slot, now) && Backed(h, part, value, slot, now)
  }

  lemma SlotAges<T, V>(h: History<T>, ttls: TTLs, part: T -> V, value: V, etag: string, slot: Slot<T>, was: int,
                       now: int)
    requires SlotOk(h, ttls, part, value, etag, slot, was) && was <= now
    ensures SlotOk(h, ttls, part, value, etag, slot, now)
  {
    if Fresh(slot.entry, now) && slot.entry.value.response.NotModified? {
      var s :| slot.at <= s <= was && h(s).Some? && part(h(s).value.data) == value;
      assert s <= now;
    }
  }

  /** A 200 tells, and a 304 confirms, a value the origin had at most one TTL ago. */
  lemma FetchIsRecent<T(!new), V>(h: History<T>, ttls: TTLs, part: T -> V, value: V, etag: string, slot: Slot<T>,
                                  now: int, leg: Leg<T>)
    requires FaithfulHistory(h) && LegOk(leg) && ttls.ttl >= 0
    requires SlotOk(h, ttls, part, value, etag, slot, now)
    ensures var r := Fetched(h, slot, now, etag, leg);
            && (r.Some? && r.value.Ok? ==> Had(h, part, part(r.value.data), now - ttls.ttl, now)
                                           && Knows(h, part, part(r.value.data), r.value.etag))
            && (r.Some? && r.value.NotModified? ==> Had(h, part, value, now - ttls.ttl, now))
  {
    var r := Fetched(h, slot, now, etag, leg);
    var cached := leg.getOk && Found(slot, now, leg).Some?;
    if r.Some? && r.value.Ok? {
      var s := if cached then slot.at else now;
      assert h(s).Some? && h(s).value.data == r.value.data && h(s).value.etag == r.value.etag;
      assert now - ttls.ttl <= s <= now;
    } else if r.Some? && r.value.NotModified? {
      if cached {
        var s :| slot.at <= s <= now && h(s).Some? && part(h(s).value.data) == value;
        assert now - ttls.ttl <= s <= now;
      } else {
        assert h(now).Some? && part(h(now).value.data) == value;
      }
    }
  }

  /** The slot stays sound for the value kept, and for the value told if that one is stored. */
  lemma SlotStays<T(!new), V>(h: History<T>, ttls: TTLs, part: T -> V, value: V, etag: string, slot: Slot<T>,
                              now: int, leg: Leg<T>)
    requires FaithfulHistory(h) && LegOk(leg) && ttls.ttl >= 0
    requires SlotOk(h, ttls, part, value, etag, slot, now)
    ensures var r, slot' := Fetched(h, slot, now, etag, leg), Refilled(h, ttls, slot, now, etag, leg);
            && SlotOk(h, ttls, part, value, etag, slot', now)
            && (r.Some? && r.value.Ok? ==> SlotOk(h, ttls, part, part(r.value.data), r.value.etag, slot', now))
  {
    FetchIsRecent(h, ttls, part, value, etag, slot, now, leg);
    EntryStaysTrue(h, ttls, slot, now, etag, leg);
    var r, slot' := Fetched(h, slot, now, etag, leg), Refilled(h, ttls, slot, now, etag, leg);
    if slot'.entry.Some? && slot'.entry.value.response.NotModified? {
      if slot' == slot {
        if r.Some? && r.value.Ok? { assert h(now).Some? && part(h(now).value.data) == part(r.value.data); }
      } else {
        assert h(now).Some? && part(h(now).value.data) == value;
      }
    }
  }

  lemma EntryStaysTrue<T>(h: History<T>, ttls: TTLs, slot: Slot<T>, now: int, etag: string, leg: Leg<T>)
    requires TrueEntry(h, ttls, slot, now) && LegOk(leg)
    ensures TrueEntry(h, ttls, Refilled(h, ttls, slot, now, etag, leg), now)
  {
  }

  // ---- Scanning a repository through the cache ----

  datatype Origin = Origin(identity: History<int>, release: History<Release>)

  const ID: int -> int := id => id
  const TAG: Release -> string := (r: Release) => r.tag

  datatype World = World(progress: Progress, identity: Slot<int>, release: Slot<Release>, now: int)

  datatype Trial = Trial(elapsed: nat, identity: Leg<int>, release: Leg<Release>, subs: Subscribers, moveOk: bool,
                         commitOk: bool)

  ghost predicate TrialOk(t: Trial) {
    LegOk(t.identity) && LegOk(t.release)
  }

  /** A transport error reaches the processor as a status it does not know. */
  function Heard<T>(r: Option<Response<T>>): Response<T> {
    if r.Some? then r.value else OtherStatus(0)
  }

  function IdentityOf(o: Origin, w: World, t: Trial): Response<int>
    requires w.progress.row.Some?
  {
    Heard(Fetched(o.identity, w.identity, w.now + t.elapsed, w.progress.row.value.etag, t.identity))
  }

  function LatestOf(o: Origin, w: World, t: Trial): Response<Release>
    requires w.progress.row.Some?
  {
    Heard(Fetched(o.release, w.release, w.now + t.elapsed, w.progress.row.value.releaseEtag, t.release))
  }

  /** The identity check passed, so the release endpoint is asked. */
  predicate Passed(row: Repo, identity: Response<int>) {
    identity.NotModified? || (identity.Ok? && identity.data == row.githubId)
  }

  function Next(o: Origin, ttls: TTLs, w: World, t: Trial): World {
    var now := w.now + t.elapsed;
    if w.progress.row.None? then w.(now := now)
    else
      var row := w.progress.row.value;
      var identity, latest := IdentityOf(o, w, t), LatestOf(o, w, t);
      World(Committed(w.progress, ScanRepo(row, identity, latest, t.subs), t.moveOk, t.commitOk),
            Refilled(o.identity, ttls, w.identity, now, row.etag, t.identity),
            if Passed(row, identity) then Refilled(o.release, ttls, w.release, now, row.releaseEtag, t.release)
            else w.release,
            now)
  }

  function Run(o: Origin, ttls: TTLs, w: World, trials: seq<Trial>): World
    decreases trials
  {
    if trials == [] then w else Run(o, ttls, Next(o, ttls, w, trials[0]), trials[1..])
  }

  /** A repository that was never scanned. Its URLs may be in the cache already: the handler has
      looked the repository up, and an older row of the same name may have been scanned. */
  function New(path: string, githubId: int, identity: Slot<int>, release: Slot<Release>, now: int): World {
    World(Progress(Some(Repo(path, githubId, "", "", 0, "", Idle, None, false)), []), identity, release, now)
  }

  ghost predicate FaithfulOrigin(o: Origin) {
    FaithfulHistory(o.identity) && FaithfulHistory(o.release)
  }

  ghost predicate Inv(o: Origin, ttls: TTLs, w: World) {
    w.progress.row.Some? ==>
      var row := w.progress.row.value;
      && SlotOk(o.identity, ttls, ID, row.githubId, row.etag, w.identity, w.now)
      && SlotOk(o.release, ttls, TAG, row.tag, row.releaseEtag, w.release, w.now)
  }

  /** What a scan makes of its answers. */
  lemma ScanTakes(row: Repo, identity: Response<int>, latest: Response<Release>, subs: Subscribers)
    ensures var s := ScanRepo(row, identity, latest, subs).repo;
            && s.githubId == row.githubId
            && s.etag == (if identity.Ok? && Passed(row, identity) then identity.etag else row.etag)
            && (if latest.Ok? && Passed(row, identity) then s.tag == latest.data.tag && s.releaseEtag == latest.etag
                else s.tag == row.tag && s.releaseEtag == row.releaseEtag)
  {
  }

  /** The release endpoint is only asked when the identity check passed. */
  lemma UnaskedStays(o: Origin, ttls: TTLs, w: World, t: Trial)
    requires w.progress.row.Some? && !Passed(w.progress.row.value, IdentityOf(o, w, t))
    ensures Next(o, ttls, w, t).release == w.release
  {
  }

  lemma IdentityStays(o: Origin, ttls: TTLs, w: World, t: Trial)
    requires FaithfulOrigin(o) && TrialOk(t) && ttls.ttl >= 0 && Inv(o, ttls, w) && w.progress.row.Some?
    ensures var row, now := w.progress.row.value, w.now + t.elapsed;
            var r, slot := IdentityOf(o, w, t), Refilled(o.identity, ttls, w.identity, now, row.etag, t.identity);
            && SlotOk(o.identity, ttls, ID, row.githubId, row.etag, slot, now)
            && (r.Ok? ==> SlotOk(o.identity, ttls, ID, r.data, r.etag, slot, now))
            && (r.Ok? ==> Had(o.identity, ID, r.data, now - ttls.ttl, now))
            && (r.NotModified? ==> Had(o.identity, ID, row.githubId, now - ttls.ttl, now))
  {
    hide SlotOk, Had, FaithfulHistory, LegOk, Fetched, Refilled;
    var row, now := w.progress.row.value, w.now + t.elapsed;
    SlotAges(o.identity, ttls, ID, row.githubId, row.etag, w.identity, w.now, now);
    FetchIsRecent(o.identity, ttls, ID, row.githubId, row.etag, w.identity, now, t.identity);
    SlotStays(o.identity, ttls, ID, row.githubId, row.etag, w.identity, now, t.identity);
  }

  lemma ReleaseStays(o: Origin, ttls: TTLs, w: World, t: Trial)
    requires FaithfulOrigin(o) && TrialOk(t) && ttls.ttl >= 0 && Inv(o, ttls, w) && w.progress.row.Some?
    ensures var row, now := w.progress.row.value, w.now + t.elapsed;
            var r, slot := LatestOf(o, w, t), Refilled(o.release, ttls, w.release, now, row.releaseEtag, t.release);
            && SlotOk(o.release, ttls, TAG, row.tag, row.releaseEtag, w.release, now)
            && SlotOk(o.release, ttls, TAG, row.tag, row.releaseEtag, slot, now)
            && (r.Ok? ==> SlotOk(o.release, ttls, TAG, r.data.tag, r.etag, slot, now))
            && (r.Ok? ==> Had(o.release, TAG, r.data.tag, now - ttls.ttl, now))
            && (r.NotModified? ==> Had(o.release, TAG, row.tag, now - ttls.ttl, now))
  {
    hide SlotOk, Had, FaithfulHistory, LegOk, Fetched, Refilled;
    var row, now := w.progress.row.value, w.now + t.elapsed;
    SlotAges(o.release, ttls, TAG, row.tag, row.releaseEtag, w.release, w.now, now);
    FetchIsRecent(o.release, ttls, TAG, row.tag, row.releaseEtag, w.release, now, t.release);
    SlotStays(o.release, ttls, TAG, row.tag, row.releaseEtag, w.release, now, t.release);
  }

  /** The invariant survives every scan, whatever the cache's operations do. */
  lemma NextKeeps(o: Origin, ttls: TTLs, w: World, t: Trial)
    requires FaithfulOrigin(o) && TrialOk(t) && ttls.ttl >= 0 && Inv(o, ttls, w)
    ensures Inv(o, ttls, Next(o, ttls, w, t))
  {
    hide SlotOk, FaithfulOrigin, TrialOk, ScanRepo, Had, IdentityOf, LatestOf, Refilled;
    if w.progress.row.Some? {
      var row := w.progress.row.value;
      ScanTakes(row, IdentityOf(o, w, t), LatestOf(o, w, t), t.subs);
      IdentityStays(o, ttls, w, t);
      ReleaseStays(o, ttls, w, t);
    }
  }

  lemma {:induction false} RunKeeps(o: Origin, ttls: TTLs, w: World, trials: seq<Trial>)
    requires FaithfulOrigin(o) && ttls.ttl >= 0 && Inv(o, ttls, w) && forall t :: t in trials ==> TrialOk(t)
    ensures Inv(o, ttls, Run(o, ttls, w, trials))
    decreases trials
  {
    hide Next, Inv, FaithfulOrigin, TrialOk;
    if trials != [] {
      assert trials[0] in trials && forall t :: t in trials[1..] ==> t in trials;
      NextKeeps(o, ttls, w, trials[0]);
      RunKeeps(o, ttls, Next(o, ttls, w, trials[0]), trials[1..]);
    }
  }

  ghost predicate TrueEntries(o: Origin, ttls: TTLs, w: World) {
    TrueEntry(o.identity, ttls, w.identity, w.now) && TrueEntry(o.release, ttls, w.release, w.now)
  }

  predicate HoldsFresh304<T>(slot: Slot<T>, now: int) {
    Fresh(slot.entry, now) && slot.entry.value.response.NotModified?
  }

  lemma NewHolds(o: Origin, ttls: TTLs, path: string, githubId: int, identity: Slot<int>, release: Slot<Release>,
                 now: int)
    requires TrueEntries(o, ttls, New(path, githubId, identity, release, now))
    requires Backed(o.identity, ID, githubId, identity, now) && Backed(o.release, TAG, "", release, now)
    ensures Inv(o, ttls, New(path, githubId, identity, release, now))
  {
  }

  /** One scan: if the identity check passed, the origin had the stored id at most one TTL before;
      if the release was answered too and the scan commits, it had the committed tag. */
  lemma CommittedTagIsRecent(o: Origin, ttls: TTLs, w: World, t: Trial)
    requires FaithfulOrigin(o) && TrialOk(t) && ttls.ttl >= 0 && Inv(o, ttls, w) && w.progress.row.Some?
    ensures var v, row := Next(o, ttls, w, t), w.progress.row.value;
            var latest := LatestOf(o, w, t);
            Passed(row, IdentityOf(o, w, t)) ==>
              && Had(o.identity, ID, row.githubId, v.now - ttls.ttl, v.now)
              && (t.commitOk && (latest.Ok? || latest.NotModified?) ==>
                    v.progress.row.Some? && Had(o.release, TAG, v.progress.row.value.tag, v.now - ttls.ttl, v.now))
  {
    IdentityStays(o, ttls, w, t);
    ReleaseStays(o, ttls, w, t);
    hide SlotOk, FaithfulOrigin, TrialOk, Had, IdentityOf, LatestOf, Refilled, Inv;
  }

  /** What the scan `t` of `w` says about the origin is at most one TTL old. */
  ghost predicate Recent(o: Origin, ttls: TTLs, w: World, t: Trial) {
    var v := Next(o, ttls, w, t);
    w.progress.row.Some? && Passed(w.progress.row.value, IdentityOf(o, w, t)) ==>
      && Had(o.identity, ID, w.progress.row.value.githubId, v.now - ttls.ttl, v.now)
      && (t.commitOk && (LatestOf(o, w, t).Ok? || LatestOf(o, w, t).NotModified?) ==>
            v.progress.row.Some? && Had(o.release, TAG, v.progress.row.value.tag, v.now - ttls.ttl, v.now))
  }

  ghost predicate AllOk(trials: seq<Trial>) {
    forall t :: t in trials ==> TrialOk(t)
  }

  /** The freshness bound over whole runs, from a repository that was never scanned: for every
      history of the origin and every fault of the network, the cache and the commits. Entries
      that are in the cache already must be the origin's answers, and neither may be a live 304. */
  lemma EveryCommittedTagIsRecent(o: Origin, ttls: TTLs, path: string, githubId: int,
                                  identity: Slot<int>, release: Slot<Release>, now: int,
                                  trials: seq<Trial>, last: Trial)
    requires FaithfulOrigin(o) && ttls.ttl >= 0 && TrialOk(last) && AllOk(trials)
    requires TrueEntries(o, ttls, New(path, githubId, identity, release, now))
    requires !HoldsFresh304(identity, now) && !HoldsFresh304(release, now)
    ensures Recent(o, ttls, Run(o, ttls, New(path, githubId, identity, release, now), trials), last)
  {
    NewHolds(o, ttls, path, githubId, identity, release, now);
    RunIsRecent(o, ttls, New(path, githubId, identity, release, now), trials, last);
  }

  lemma RunIsRecent(o: Origin, ttls: TTLs, w: World, trials: seq<Trial>, last: Trial)
    requires FaithfulOrigin(o) && ttls.ttl >= 0 && TrialOk(last) && AllOk(trials) && Inv(o, ttls, w)
    ensures Recent(o, ttls, Run(o, ttls, w, trials), last)
  {
    hide FaithfulOrigin, TrialOk, Inv, Next, IdentityOf, LatestOf, Passed, Had;
    RunKeeps(o, ttls, w, trials);
    var v := Run(o, ttls, w, trials);
    if v.progress.row.Some? { CommittedTagIsRecent(o, ttls, v, last); }
  }

  /** The same of the scan `last` that follows a run. */
  ghost predicate RecentAfter(o: Origin, ttls: TTLs, w: World, trials: seq<Trial>, last: Trial) {
    AllOk(trials) && TrialOk(last) ==> Recent(o, ttls, Run(o, ttls, w, trials), last)
  }

  /** The repository has the id now, as when its row is created, and never an empty tag. */
  ghost predicate Settled(o: Origin, githubId: int, now: int) {
    && o.identity(now).Some? && o.identity(now).value.data == githubId
    && forall s :: o.release(s).Some? ==> o.release(s).value.data.tag != ""
  }

  /** The condition on the release entry is exact: for such a repository every scan of every run
      is recent if and only if no live 304 for the release is in the cache when the row is new. */
  lemma RecentFromTheStartExactly(o: Origin, ttls: TTLs, path: string, githubId: int,
                                  identity: Slot<int>, release: Slot<Release>, now: int)
    requires FaithfulOrigin(o) && ttls.ttl >= 0 && Settled(o, githubId, now)
    requires TrueEntries(o, ttls, New(path, githubId, identity, release, now))
    ensures (forall trials, last :: RecentAfter(o, ttls, New(path, githubId, identity, release, now), trials, last))
            <==> !HoldsFresh304(release, now)
  {
    var w := New(path, githubId, identity, release, now);
    if HoldsFresh304(release, now) {
      var last := FIRST_SCAN;
      LeftoverIsTaken(o, ttls, path, githubId, identity, release, now);
      assert Run(o, ttls, w, []) == w && AllOk([]) && TrialOk(last);
      assert !RecentAfter(o, ttls, w, [], last);
    } else {
      if HoldsFresh304(identity, now) {
        assert identity.at <= now && ID(o.identity(now).value.data) == githubId;
      }
      NewHolds(o, ttls, path, githubId, identity, release, now);
      forall trials, last ensures RecentAfter(o, ttls, w, trials, last) {
        if AllOk(trials) && TrialOk(last) { RunIsRecent(o, ttls, w, trials, last); }
      }
    }
  }

  /** A first scan whose identity is fetched from the origin; every operation of the cache works
      for the release, and the scan commits. */
  const FIRST_SCAN :=
    Trial(0, Leg(true, true, true, None, false), Leg(false, true, true, None, false), None, true, true)

  /** That scan takes the 304 for its own row's and commits the empty tag. */
  lemma LeftoverIsTaken(o: Origin, ttls: TTLs, path: string, githubId: int,
                        identity: Slot<int>, release: Slot<Release>, now: int)
    requires Settled(o, githubId, now) && HoldsFresh304(release, now)
    ensures var w := New(path, githubId, identity, release, now);
            var v := Next(o, ttls, w, FIRST_SCAN);
            v.progress.row.Some? && v.progress.row.value.tag == "" && !Recent(o, ttls, w, FIRST_SCAN)
  {
    var w := New(path, githubId, identity, release, now);
    assert IdentityOf(o, w, FIRST_SCAN) == Ok(githubId, o.identity(now).value.etag);
    assert LatestOf(o, w, FIRST_SCAN) == NotModified;
    ScanTakes(w.progress.row.value, IdentityOf(o, w, FIRST_SCAN), NotModified, None);
  }

  // ---- A moved repository leaves such an answer behind ----

  /** The repository behind the name changes at time 1000; the latest release is always v1. */
  const MOVED := Origin(
    s => Some(if s < 1000 then Tagged(1, "i1") else Tagged(2, "i2")),
    s => Some(Tagged(Release(7, "v1"), "r")))

  const TEN_MINUTES := TTLs(600, 60)
  const NO_FAULT: Leg<int> := Leg(false, true, true, None, false)
  const NO_RELEASE_FAULT: Leg<Release> := Leg(false, true, true, None, false)

  /** A scan in which nothing fails and nobody subscribes. */
  function Plain(elapsed: nat): Trial {
    Trial(elapsed, NO_FAULT, NO_RELEASE_FAULT, Some([]), true, true)
  }

  /** The old row, created after the handler's lookup at -100. */
  const OLD := New("o/r", 1, Slot(Some(Entry(Ok(1, "i1"), 500)), "", -100), Slot(None, "", 0), 0)

  /** The old row is scanned at 0, 500 and 600, and removed by the scan at 1100, while the 304 for
      the release that was given at 600 lives until 1200. */
  const OLD_SCANS := [Plain(0), Plain(500), Plain(100), Plain(500)]

  lemma OldRowScanned()
    ensures var w := Next(MOVED, TEN_MINUTES, Next(MOVED, TEN_MINUTES, OLD, Plain(0)), Plain(500));
            && w.now == 500 && w.progress.row.Some?
            && w.progress.row.value.githubId == 1 && w.progress.row.value.tag == "v1"
            && w.progress.row.value.etag == "i1" && w.progress.row.value.releaseEtag == "r"
            && w.identity == Slot(Some(Entry(NotModified, 1100)), "i1", 500)
            && w.release == Slot(Some(Entry(Ok(Release(7, "v1"), "r"), 600)), "", 0)
  {
    var w1 := Next(MOVED, TEN_MINUTES, OLD, Plain(0));
    assert w1.now == 0 && w1.progress.row.Some?;
    assert w1.identity == OLD.identity;
    assert w1.release == Slot(Some(Entry(Ok(Release(7, "v1"), "r"), 600)), "", 0);
  }

  lemma OldRowRemoved(w: World)
    requires w.now == 500 && w.progress.row.Some?
    requires w.progress.row.value.githubId == 1 && w.progress.row.value.tag == "v1"
    requires w.progress.row.value.etag == "i1" && w.progress.row.value.releaseEtag == "r"
    requires w.identity == Slot(Some(Entry(NotModified, 1100)), "i1", 500)
    requires w.release == Slot(Some(Entry(Ok(Release(7, "v1"), "r"), 600)), "", 0)
    ensures var v := Next(MOVED, TEN_MINUTES, Next(MOVED, TEN_MINUTES, w, Plain(100)), Plain(500));
            && v.now == 1100 && v.progress.row.None?
            && v.identity == Slot(Some(Entry(Ok(2, "i2"), 1700)), "i1", 1100)
            && v.release == Slot(Some(Entry(NotModified, 1200)), "r", 600)
  {
    var w3 := Next(MOVED, TEN_MINUTES, w, Plain(100));
    assert w3.now == 600 && w3.progress.row.Some?;
    assert w3.identity == w.identity;
    assert w3.release == Slot(Some(Entry(NotModified, 1200)), "r", 600);
  }

  /** A repository moves, its row is removed, and it is subscribed to again before the old row's 304
      has expired: with nothing failing, the first scan of the new row commits the empty tag. */
  lemma MovedRepositoryLeavesA304()
    ensures FaithfulOrigin(MOVED) && TrueEntries(MOVED, TEN_MINUTES, OLD)
    ensures var w := Run(MOVED, TEN_MINUTES, OLD, OLD_SCANS);
            var again := New("o/r", 2, w.identity, w.release, w.now + 50);
            var v := Next(MOVED, TEN_MINUTES, again, Plain(0));
            && w.progress.row.None? && Settled(MOVED, 2, again.now) && HoldsFresh304(w.release, again.now)
            && v.progress.row.Some? && v.progress.row.value.tag == ""
            && !Recent(MOVED, TEN_MINUTES, again, Plain(0))
  {
    MovedIsFaithful();
    hide Next, Recent, FaithfulOrigin, TrueEntries;
    OldRowScanned();
    OldRowRemoved(Next(MOVED, TEN_MINUTES, Next(MOVED, TEN_MINUTES, OLD, Plain(0)), Plain(500)));
    RunFour(MOVED, TEN_MINUTES, OLD, OLD_SCANS);
    var w := Run(MOVED, TEN_MINUTES, OLD, OLD_SCANS);
    NewRowScanned(New("o/r", 2, w.identity, w.release, 1150));
  }

  lemma MovedIsFaithful()
    ensures FaithfulOrigin(MOVED) && TrueEntries(MOVED, TEN_MINUTES, OLD)
  {
  }

  lemma NewRowScanned(w: World)
    requires w == New("o/r", 2, Slot(Some(Entry(Ok(2, "i2"), 1700)), "i1", 1100),
                      Slot(Some(Entry(NotModified, 1200)), "r", 600), 1150)
    ensures var v := Next(MOVED, TEN_MINUTES, w, Plain(0));
            && v.progress.row.Some? && v.progress.row.value.tag == "" && !Recent(MOVED, TEN_MINUTES, w, Plain(0))
  {
    assert IdentityOf(MOVED, w, Plain(0)) == Ok(2, "i2");
    assert LatestOf(MOVED, w, Plain(0)) == NotModified;
  }

  lemma RunTwo(o: Origin, ttls: TTLs, w: World, p: seq<Trial>)
    requires |p| >= 2
    ensures Run(o, ttls, w, p) == Run(o, ttls, Next(o, ttls, Next(o, ttls, w, p[0]), p[1]), p[2..])
  {
    hide Next;
    assert p[1..][1..] == p[2..];
  }

  lemma RunFour(o: Origin, ttls: TTLs, w: World, p: seq<Trial>)
    requires |p| == 4
    ensures Run(o, ttls, w, p) == Next(o, ttls, Next(o, ttls, Next(o, ttls, Next(o, ttls, w, p[0]), p[1]), p[2]), p[3])
  {
    hide Next;
    RunTwo(o, ttls, w, p);
    RunTwo(o, ttls, Next(o, ttls, Next(o, ttls, w, p[0]), p[1]), p[2..]);
    assert p[2..][2..] == [];
  }

  function AllOwedCached(o: Origin, ttls: TTLs, w: World, trials: seq<Trial>): seq<Payload>
    decreases trials
  {
    if trials == [] then []
    else
      var v := Next(o, ttls, w, trials[0]);
      Owed(w.progress, v.progress, trials[0].subs) + AllOwedCached(o, ttls, v, trials[1..])
  }

  /** Conservation holds through the cache as well, for every pattern of faults. */
  lemma {:induction false} CachedReleasesAreWhatIsOwed(o: Origin, ttls: TTLs, w: World, trials: seq<Trial>)
    ensures Releases(Run(o, ttls, w, trials).progress.events)
            == Releases(w.progress.events) + AllOwedCached(o, ttls, w, trials)
    decreases trials
  {
    hide Releases, Owed, Committed, ScanRepo, IdentityOf, LatestOf, Refilled;
    if trials != [] {
      var t := trials[0];
      var v := Next(o, ttls, w, t);
      if w.progress.row.Some? {
        CommitOwes(w.progress, IdentityOf(o, w, t), LatestOf(o, w, t), t.subs, t.moveOk, t.commitOk);
      } else {
        NothingOwed(w.progress, t.subs);
      }
      CachedReleasesAreWhatIsOwed(o, ttls, v, trials[1..]);
    }
  }

  lemma NothingOwed(p: Progress, subs: Subscribers)
    ensures Owed(p, p, subs) == []
  {
  }

  // ---- The match between a cached 304 and the stored ETag ----

  /** A cached 304 answers the ETag that is stored now. */
  ghost predicate Matches<T>(slot: Slot<T>, now: int, etag: string) {
    Fresh(slot.entry, now) && slot.entry.value.response.NotModified? ==> slot.asked == etag
  }

  /** The one fault that breaks the match: Get fails on a live cached 304, the origin answers with
      a new ETag that is committed, and Set fails too, leaving the old 304 in place. */
  predicate LeavesStale304<T>(h: History<T>, ttls: TTLs, slot: Slot<T>, now: int, etag: string, leg: Leg<T>,
                              taken: bool) {
    var found, network := Found(slot, now, leg), Network(h, now, etag, leg);
    && found.Some? && found.value.response.NotModified? && !leg.getOk
    && network.Some? && network.value.Ok? && network.value.etag != etag && taken
    && (!leg.setOk || ttls.ttl <= 0)
  }

  /** The ETag stored after a request; `taken` is whether the answer was committed. */
  function EtagAfter<T>(h: History<T>, slot: Slot<T>, now: int, etag: string, leg: Leg<T>, taken: bool): string {
    var r := Fetched(h, slot, now, etag, leg);
    if taken && r.Some? && r.value.Ok? then r.value.etag else etag
  }

  /** The match survives a request exactly when that fault does not happen. */
  lemma MatchSurvivesExactly<T>(h: History<T>, ttls: TTLs, slot: Slot<T>, now: int, etag: string, leg: Leg<T>,
                                taken: bool)
    requires TrueEntry(h, ttls, slot, now) && Matches(slot, now, etag) && LegOk(leg)
    ensures Matches(Refilled(h, ttls, slot, now, etag, leg), now, EtagAfter(h, slot, now, etag, leg, taken))
            <==> !LeavesStale304(h, ttls, slot, now, etag, leg, taken)
  {
  }

  /** A request is benign whenever at most one of the cache's two operations fails and the cache
      is in use at all. */
  lemma OneCacheFaultIsBenign<T>(h: History<T>, ttls: TTLs, slot: Slot<T>, now: int, etag: string, leg: Leg<T>,
                                 taken: bool)
    requires ttls.ttl > 0 && (leg.getOk || leg.setOk)
    ensures !LeavesStale304(h, ttls, slot, now, etag, leg, taken)
  {
  }

  /** Both endpoints' cached 304s answer the ETags of the row. */
  ghost predicate RowMatches(w: World) {
    w.progress.row.Some? ==>
      && Matches(w.identity, w.now, w.progress.row.value.etag)
      && Matches(w.release, w.now, w.progress.row.value.releaseEtag)
  }

  /** Neither request of the scan meets the double fault. */
  ghost predicate Benign(o: Origin, ttls: TTLs, w: World, t: Trial) {
    w.progress.row.Some? ==>
      var row, now := w.progress.row.value, w.now + t.elapsed;
      var passed := Passed(row, IdentityOf(o, w, t));
      && !LeavesStale304(o.identity, ttls, w.identity, now, row.etag, t.identity, passed && t.commitOk)
      && (passed ==> !LeavesStale304(o.release, ttls, w.release, now, row.releaseEtag, t.release, t.commitOk))
  }

  ghost predicate AllBenign(o: Origin, ttls: TTLs, w: World, trials: seq<Trial>)
    decreases trials
  {
    trials != [] ==> TrialOk(trials[0]) && Benign(o, ttls, w, trials[0])
                     && AllBenign(o, ttls, Next(o, ttls, w, trials[0]), trials[1..])
  }

  lemma MatchNext(o: Origin, ttls: TTLs, w: World, t: Trial)
    requires TrialOk(t) && TrueEntries(o, ttls, w) && RowMatches(w) && Benign(o, ttls, w, t)
    ensures var v := Next(o, ttls, w, t); TrueEntries(o, ttls, v) && RowMatches(v)
  {
    hide LegOk, ScanRepo, Refilled, LeavesStale304, Fetched;
    if w.progress.row.Some? {
      var row, now := w.progress.row.value, w.now + t.elapsed;
      var identity, latest := IdentityOf(o, w, t), LatestOf(o, w, t);
      var passed := Passed(row, identity);
      ScanTakes(row, identity, latest, t.subs);
      EntryStaysTrue(o.identity, ttls, w.identity, now, row.etag, t.identity);
      EntryStaysTrue(o.release, ttls, w.release, now, row.releaseEtag, t.release);
      MatchSurvivesExactly(o.identity, ttls, w.identity, now, row.etag, t.identity, passed && t.commitOk);
      if passed {
        MatchSurvivesExactly(o.release, ttls, w.release, now, row.releaseEtag, t.release, t.commitOk);
      }
    }
  }

  ghost predicate MatchesAfter(o: Origin, ttls: TTLs, w: World, trials: seq<Trial>) {
    AllBenign(o, ttls, w, trials) ==> RowMatches(Run(o, ttls, w, trials))
  }

  /** From a new repository a cached 304 is only present while the stored ETag is the one it answered,
      over every run without that fault, if and only if neither URL has a live 304 at the start. */
  lemma CachedAnswersMatchExactly(o: Origin, ttls: TTLs, path: string, githubId: int,
                                  identity: Slot<int>, release: Slot<Release>, now: int)
    requires TrueEntries(o, ttls, New(path, githubId, identity, release, now))
    ensures var w := New(path, githubId, identity, release, now);
            (forall trials :: MatchesAfter(o, ttls, w, trials))
            <==> !HoldsFresh304(identity, now) && !HoldsFresh304(release, now)
  {
    var w := New(path, githubId, identity, release, now);
    assert RowMatches(w) <==> !HoldsFresh304(identity, now) && !HoldsFresh304(release, now);
    if RowMatches(w) {
      forall trials ensures MatchesAfter(o, ttls, w, trials) {
        if AllBenign(o, ttls, w, trials) { MatchRun(o, ttls, w, trials); }
      }
    } else {
      assert Run(o, ttls, w, []) == w && AllBenign(o, ttls, w, []);
      assert !MatchesAfter(o, ttls, w, []);
    }
  }

  lemma {:induction false} MatchRun(o: Origin, ttls: TTLs, w: World, trials: seq<Trial>)
    requires TrueEntries(o, ttls, w) && RowMatches(w) && AllBenign(o, ttls, w, trials)
    ensures RowMatches(Run(o, ttls, w, trials))
    decreases trials
  {
    hide Next, TrueEntries, RowMatches, Benign, TrialOk;
    if trials != [] {
      MatchNext(o, ttls, w, trials[0]);
      MatchRun(o, ttls, Next(o, ttls, w, trials[0]), trials[1..]);
    }
  }

  /** The fault is possible: the cache then holds a live 304 for an ETag that is stored no more. */
  lemma StaleAfterTwoFaults()
    ensures exists h: History<Release>, slot: Slot<Release>, leg: Leg<Release> ::
              && FaithfulHistory(h) && LegOk(leg)
              && SlotOk(h, TTLs(600, 60), TAG, "v1", "a", slot, 15) && Matches(slot, 15, "a")
              && !Matches(Refilled(h, TTLs(600, 60), slot, 15, "a", leg), 15, EtagAfter(h, slot, 15, "a", leg, true))
  {
    var h: History<Release> := s => Some(if s < 10 then Tagged(Release(1, "v1"), "a")
         else Tagged(Release(2, "v2"), "b"));
    var slot := Slot(Some(Entry(NotModified, 605)), "a", 5);
    var leg := Leg(false, false, false, None, false);
    var ttls := TTLs(600, 60);
    assert h(5) == Some(Tagged(Release(1, "v1"), "a")) && h(15) == Some(Tagged(Release(2, "v2"), "b"));
    assert Answer(Site(h(5), None), "a") == NotModified;
    assert Had(h, TAG, "v1", 5, 15);
    assert SlotOk(h, ttls, TAG, "v1", "a", slot, 15);
    assert LeavesStale304(h, ttls, slot, 15, "a", leg, true);
    MatchSurvivesExactly(h, ttls, slot, 15, "a", leg, true);
  }
}
