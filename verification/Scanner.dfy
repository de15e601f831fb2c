/** The scanner's repository table, its producer, and the claim protocol over crashes and
    restarts of the one scanner instance. */
module Scanner {
  import opened Domain
  import opened SagaStore

  datatype RepoStatus = Idle | Processing

  /** `lastScanned` is None until the first claim. */
  datatype Repo = Repo(path: string, githubId: int, etag: string,
                       tag: string, releaseId: int, releaseEtag: string,
                       status: RepoStatus, lastScanned: Option<int>, deleted: bool)

  type Repos = map<nat, Repo>

  predicate Claimable(r: Repo, cutoff: int) {
    !r.deleted && r.status == Idle && (r.lastScanned.None? || r.lastScanned.value <= cutoff)
  }

  predicate Distinct(ids: seq<nat>) {
    forall i, j :: 0 <= i < j < |ids| ==> ids[i] != ids[j]
  }

  predicate AllClaimable(repos: Repos, ids: seq<nat>, cutoff: int) {
    forall id :: id in ids ==> id in repos && Claimable(repos[id], cutoff)
  }

  function Claim(repos: Repos, ids: seq<nat>, now: int): Repos {
    map id | id in repos ::
      if id in ids then repos[id].(status := Processing, lastScanned := Some(now)) else repos[id]
  }

  function Recover(repos: Repos): Repos {
    map id | id in repos ::
      if !repos[id].deleted && repos[id].status == Processing then repos[id].(status := Idle) else repos[id]
  }

  /** UpdateScanStatus writes the scan's fields to a live row; a deleted row is not matched. */
  function Finish(repos: Repos, id: nat, scan: Repo, now: int): Repos {
    if id in repos && !repos[id].deleted then
      repos[id := repos[id].(status := Idle, lastScanned := Some(now), etag := scan.etag, tag := scan.tag,
                             releaseId := scan.releaseId, releaseEtag := scan.releaseEtag)]
    else repos
  }

  function Remove(repos: Repos, id: nat): Repos {
    if id in repos then repos[id := repos[id].(deleted := true)] else repos
  }

  /** What the transactions do to one row. */
  lemma ClaimExactly(repos: Repos, ids: seq<nat>, now: int, id: nat)
    requires id in repos
    ensures var v, r := Claim(repos, ids, now), repos[id];
            && v.Keys == repos.Keys
            && v[id] == if id in ids then Repo(r.path, r.githubId, r.etag, r.tag, r.releaseId, r.releaseEtag,
                                               Processing, Some(now), r.deleted) else r
  {
  }

  lemma RecoverExactly(repos: Repos, id: nat)
    requires id in repos
    ensures var v, r := Recover(repos), repos[id];
            && v.Keys == repos.Keys
            && v[id] == if r.deleted then r
                        else Repo(r.path, r.githubId, r.etag, r.tag, r.releaseId, r.releaseEtag, Idle, r.lastScanned,
                                  false)
  {
  }

  lemma FinishExactly(repos: Repos, scanned: nat, scan: Repo, now: int, id: nat)
    requires id in repos
    ensures var v, r := Finish(repos, scanned, scan, now), repos[id];
            && v.Keys == repos.Keys
            && v[id] == if id == scanned && !r.deleted
                        then Repo(r.path, r.githubId, scan.etag, scan.tag, scan.releaseId, scan.releaseEtag,
                                  Idle, Some(now), false) else r
  {
  }

  lemma RemoveExactly(repos: Repos, removed: nat, id: nat)
    requires id in repos
    ensures var v, r := Remove(repos, removed), repos[id];
            && v.Keys == repos.Keys
            && v[id] == Repo(r.path, r.githubId, r.etag, r.tag, r.releaseId, r.releaseEtag, r.status, r.lastScanned,
                             r.deleted || id == removed)
  {
  }

  class RepositoryStore {
    var repos: Repos

    constructor ()
      ensures repos == map[]
    {
      repos := map[];
    }

    method RecoverStuckRepos(fault: DbFault) returns (ok: bool)
      modifies this
      ensures repos == if fault.Commits() then Recover(old(repos)) else old(repos)
      ensures ok <==> fault == NoFault
    {
      if fault.Commits() {
        repos := map id | id in repos ::
          if !repos[id].deleted && repos[id].status == Processing then repos[id].(status := Idle) else repos[id];
      }
      ok := fault == NoFault;
    }

    /** ClaimIdle. `cutoffTime` and `stampTime` are its two readings of the clock, and the
        rows are read back after the commit by a query whose error is ignored (`reread`).
        Which claimable rows come first is left to the database. */
    method ClaimIdle(batchSize: nat, minInterval: nat, cutoffTime: int, stampTime: int, fault: DbFault, reread: bool)
      returns (ok: bool, found: seq<nat>, ghost ids: seq<nat>)
      requires cutoffTime <= stampTime
      modifies this
      ensures Distinct(ids) && |ids| <= batchSize && AllClaimable(old(repos), ids, cutoffTime - minInterval)
      ensures |ids| < batchSize ==>
                forall id :: id in old(repos) && id !in ids ==> !Claimable(old(repos)[id], cutoffTime - minInterval)
      // Over the columns: live, idle, and never scanned or scanned at or before the cutoff.
      ensures forall id :: id in ids ==>
                && id in old(repos) && !old(repos)[id].deleted && old(repos)[id].status == Idle
                && (old(repos)[id].lastScanned == None || old(repos)[id].lastScanned.value <= cutoffTime - minInterval)
      ensures |ids| < batchSize ==>
                forall id | id in old(repos) && !old(repos)[id].deleted && old(repos)[id].status == Idle ::
                  (id in ids <==> old(repos)[id].lastScanned == None
                                  || old(repos)[id].lastScanned.value <= cutoffTime - minInterval)
      ensures repos == if fault.Commits() then Claim(old(repos), ids, stampTime) else old(repos)
      ensures ok <==> fault == NoFault
      ensures found == if ok && reread then ids else []
    {
      var chosen: seq<nat> := [];
      var left := repos.Keys;
      while left != {} && |chosen| < batchSize
        invariant left <= repos.Keys && |chosen| <= batchSize
        invariant forall id :: id in chosen ==>
                    id in repos && id !in left && Claimable(repos[id], cutoffTime - minInterval)
        invariant forall id :: id in repos && id !in left && id !in chosen ==>
                    !Claimable(repos[id], cutoffTime - minInterval)
        invariant Distinct(chosen)
        decreases left
      {
        var id :| id in left;
        if Claimable(repos[id], cutoffTime - minInterval) { chosen := chosen + [id]; }
        left := left - {id};
      }
      ids := chosen;
      if fault.Commits() {
        repos := map id | id in repos ::
          if id in chosen then repos[id].(status := Processing, lastScanned := Some(stampTime)) else repos[id];
      }
      ok := fault == NoFault;
      found := if ok && reread then chosen else [];
    }
  }

  /** ceil(rps * interval), the batch the rate allows. */
  function Ceil(x: real): (n: int)
    ensures n as real - 1.0 < x <= n as real
  {
    if x.Floor as real == x then x.Floor else x.Floor + 1
  }

  class Producer {
    const store: RepositoryStore
    const capacity: nat
    const minInterval: nat
    const producerSeconds: real

    constructor (store: RepositoryStore, capacity: nat, minInterval: nat, producerSeconds: real)
      ensures this.store == store && this.capacity == capacity && this.minInterval == minInterval
    {
      this.store, this.capacity := store, capacity;
      this.minInterval, this.producerSeconds := minInterval, producerSeconds;
    }

    /** What Start does before its loop: recovery and the first Produce into the empty queue. If the
        recovery commits, exactly the rows just claimed are left processing, whatever an earlier
        instance left behind. */
    method Start(rps: real, taken: nat -> nat, cancelAt: nat, cutoffTime: int, stampTime: int,
                 recovery: DbFault, fault: DbFault, reread: bool)
      returns (out: seq<nat>, sent: seq<nat>, ghost ids: seq<nat>)
      requires cutoffTime <= stampTime
      modifies store
      ensures |out| <= capacity && sent <= ids
      ensures recovery.Commits() ==>
                forall id :: id in store.repos && !store.repos[id].deleted ==>
                  (store.repos[id].status == Processing <==> id in ids && fault.Commits())
      ensures !recovery.Commits() ==>
                forall id :: id in old(store.repos) && old(store.repos)[id].status == Processing ==>
                  id in store.repos && store.repos[id] == old(store.repos)[id]
    {
      var _ := store.RecoverStuckRepos(recovery);
      var blocked;
      out, sent, blocked, ids := Produce([], rps, taken, cancelAt, cutoffTime, stampTime, fault, reread);
    }

    /** Produce. `taken(i)` is how many items workers take off the queue before the i-th send
        and `cancelAt` the send at which the context may be found cancelled. Every send finds
        room (`blocked` stays false), and what is sent is the claimed batch in order. */
    method Produce(queue: seq<nat>, rps: real, taken: nat -> nat, cancelAt: nat,
                   cutoffTime: int, stampTime: int, fault: DbFault, reread: bool)
      returns (out: seq<nat>, sent: seq<nat>, blocked: bool, ghost ids: seq<nat>)
      requires |queue| <= capacity && cutoffTime <= stampTime
      modifies store
      ensures !blocked && |out| <= capacity
      ensures sent <= ids && |ids| <= capacity - |queue|
      ensures var batch := Ceil(rps * producerSeconds);
              && |ids| <= (if batch < 0 then 0 else batch)
              && (rps != 0.0 && |ids| < batch && |ids| < capacity - |queue| ==>
                    forall id :: id in old(store.repos) && id !in ids ==>
                      !Claimable(old(store.repos)[id], cutoffTime - minInterval))
      ensures exists k :: 0 <= k <= |queue + sent| && out == (queue + sent)[k..]
      ensures Distinct(ids) && AllClaimable(old(store.repos), ids, cutoffTime - minInterval)
      ensures store.repos == if ids != [] && fault.Commits() then Claim(old(store.repos), ids, stampTime)
                             else old(store.repos)
      ensures rps == 0.0 ==> ids == [] && out == queue
      ensures sent == ids || cancelAt < |ids| || !reread || fault != NoFault
    {
      out, sent, blocked, ids := queue, [], false, [];
      assert queue + [] == queue == queue[0..];
      if rps == 0.0 { return; }
      var batchSize := Ceil(rps * producerSeconds);
      if capacity - |queue| < batchSize { batchSize := capacity - |queue|; }
      if batchSize <= 0 { return; }
      var ok, found;
      assert Claim(store.repos, [], stampTime) == store.repos;
      ok, found, ids := store.ClaimIdle(batchSize, minInterval, cutoffTime, stampTime, fault, reread);
      ghost var k := 0;
      for i := 0 to |found|
        invariant !blocked && sent == found[..i] && |out| <= |queue| + i
        invariant 0 <= k <= |queue + sent| && out == (queue + sent)[k..]
      {
        var n := if taken(i) < |out| then taken(i) else |out|;
        k := k + n;
        assert out[n..] == (queue + sent)[k..];
        out := out[n..];
        if i == cancelAt { return; }
        blocked := blocked || |out| >= capacity;
        assert (queue + found[..i + 1])[k..] == (queue + found[..i])[k..] + [found[i]];
        out := out + [found[i]];
        sent := sent + [found[i]];
        assert sent == found[..i + 1];
      }
      assert sent == found;
    }
  }

  // ---- The claim protocol ----

  /** One scanner instance. `busy` maps a worker to the repository it holds, `log` records
      every claim with its time. */
  datatype Instance = Instance(repos: Repos, queue: seq<nat>, capacity: nat, busy: map<nat, nat>,
                               up: bool, now: int, minInterval: nat, log: seq<(nat, int)>)

  datatype Step =
    | Produce(ids: seq<nat>, sent: nat, age: nat)  // the query was `age` before the stamp
    | Take(worker: nat)
    | Done(worker: nat, scan: Repo, fault: DbFault)
    | Moved(worker: nat, fault: DbFault)
    | Crash
    | Restart(fault: DbFault)
    | Tick(elapsed: nat)
    | Register(id: nat, path: string, githubId: int)  // the handlers create a repository

  /** The queue is first in, first out, and a new repository starts idle and unscanned. */
  lemma StepsExactly(s: Instance, worker: nat, id: nat, path: string, githubId: int, d: nat)
    requires s.up
    ensures s.queue != [] && worker !in s.busy ==>
              Next(s, Take(worker)) == s.(queue := s.queue[1..], busy := s.busy[worker := s.queue[0]])
    ensures id !in s.repos ==>
              Next(s, Register(id, path, githubId)) ==
                s.(repos := s.repos[id := Repo(path, githubId, "", "", 0, "", Idle, None, false)])
    ensures Next(s, Tick(d)) == s.(now := s.now + d)
    ensures Next(s, Crash) == s.(queue := [], busy := map[], up := false)
  {
  }

  function ClaimLog(ids: seq<nat>, now: int): seq<(nat, int)> {
    seq(|ids|, i requires 0 <= i < |ids| => (ids[i], now))
  }

  function Next(s: Instance, a: Step): Instance {
    match a
    case Produce(ids, sent, age) =>
      if s.up && Distinct(ids) && sent <= |ids| <= s.capacity - |s.queue|
         && AllClaimable(s.repos, ids, s.now - age - s.minInterval) then
        s.(repos := Claim(s.repos, ids, s.now), queue := s.queue + ids[..sent], log := s.log + ClaimLog(ids, s.now))
      else s
    case Take(worker) =>
      if s.up && s.queue != [] && worker !in s.busy then
        s.(queue := s.queue[1..], busy := s.busy[worker := s.queue[0]])
      else s
    case Done(worker, scan, fault) =>
      if s.up && worker in s.busy then
        s.(repos := if fault.Commits() then Finish(s.repos, s.busy[worker], scan, s.now) else s.repos,
           busy := s.busy - {worker})
      else s
    case Moved(worker, fault) =>
      if s.up && worker in s.busy && fault.Commits() then s.(repos := Remove(s.repos, s.busy[worker])) else s
    case Crash => s.(queue := [], busy := map[], up := false)
    case Restart(fault) =>
      if !s.up then s.(repos := if fault.Commits() then Recover(s.repos) else s.repos, up := true) else s
    case Tick(d) => s.(now := s.now + d)
    case Register(id, path, githubId) =>
      if id !in s.repos then s.(repos := s.repos[id := Repo(path, githubId, "", "", 0, "", Idle, None, false)]) else s
  }

  function Run(s: Instance, steps: seq<Step>): Instance
    decreases steps
  {
    if steps == [] then s else Run(Next(s, steps[0]), steps[1..])
  }

  function Fresh(capacity: nat, minInterval: nat, now: int): Instance {
    Instance(map[], [], capacity, map[], false, now, minInterval, [])
  }

  /** A repository on its way through the scanner is marked as processing while it lives. */
  ghost predicate Tracked(repos: Repos, id: nat) {
    id in repos && (!repos[id].deleted ==> repos[id].status == Processing)
  }

  /** No repository id occurs twice across the queue and the workers. */
  ghost predicate Exclusive(queue: seq<nat>, busy: map<nat, nat>) {
    && Distinct(queue)
    && (forall u, v :: u in busy && v in busy && u != v ==> busy[u] != busy[v])
    && (forall u :: u in busy ==> busy[u] !in queue)
  }

  /** The last scan time of a repository is never before any of its claims. */
  ghost predicate Stamped(repos: Repos, now: int, entry: (nat, int)) {
    && entry.0 in repos && repos[entry.0].lastScanned.Some?
    && entry.1 <= repos[entry.0].lastScanned.value <= now
  }

  ghost predicate Spaced(log: seq<(nat, int)>, minInterval: nat) {
    forall i, j :: 0 <= i < j < |log| && log[i].0 == log[j].0 ==> log[j].1 - log[i].1 >= minInterval
  }

  ghost predicate Inv(s: Instance) {
    && |s.queue| <= s.capacity
    && Exclusive(s.queue, s.busy)
    && (forall id :: id in s.queue ==> Tracked(s.repos, id))
    && (forall u :: u in s.busy ==> Tracked(s.repos, s.busy[u]))
    && (forall i :: 0 <= i < |s.log| ==> Stamped(s.repos, s.now, s.log[i]))
    && Spaced(s.log, s.minInterval)
  }

  lemma SpacedAppend(log: seq<(nat, int)>, ids: seq<nat>, now: int, minInterval: nat)
    requires Spaced(log, minInterval) && Distinct(ids)
    requires forall i, id :: 0 <= i < |log| && id in ids && log[i].0 == id ==> now - log[i].1 >= minInterval
    ensures Spaced(log + ClaimLog(ids, now), minInterval)
  {
    var l := log + ClaimLog(ids, now);
    forall i, j | 0 <= i < j < |l| ensures l[i].0 == l[j].0 ==> l[j].1 - l[i].1 >= minInterval {
      if j < |log| {
        assert l[i] == log[i] && l[j] == log[j];
      } else {
        assert l[j] == (ids[j - |log|], now) && ids[j - |log|] in ids;
        assert l[i] == if i < |log| then log[i] else (ids[i - |log|], now);
      }
    }
  }

  /** Ids just claimed were idle, so none of them is queued or held. */
  lemma ClaimedAreNew(s: Instance, ids: seq<nat>, cutoff: int)
    requires Inv(s) && AllClaimable(s.repos, ids, cutoff)
    ensures forall id :: id in ids ==> id !in s.queue && forall u :: u in s.busy ==> s.busy[u] != id
  {
    hide Exclusive, Spaced, Stamped;
  }

  lemma ExclusiveAppend(queue: seq<nat>, busy: map<nat, nat>, ids: seq<nat>, sent: nat)
    requires Exclusive(queue, busy) && Distinct(ids) && sent <= |ids|
    requires forall id :: id in ids ==> id !in queue && forall u :: u in busy ==> busy[u] != id
    ensures Exclusive(queue + ids[..sent], busy)
  {
    var q := queue + ids[..sent];
    forall i, j | 0 <= i < j < |q| ensures q[i] != q[j] {
      if j >= |queue| {
        assert q[j] == ids[j - |queue|];
        if i >= |queue| { assert q[i] == ids[i - |queue|]; } else { assert ids[j - |queue|] in ids && q[i] in queue; }
      }
    }
    forall u | u in busy ensures busy[u] !in q {
      assert forall x :: x in ids[..sent] ==> x in ids;
      assert busy[u] !in queue && busy[u] !in ids;
    }
  }

  lemma ProduceKeeps(s: Instance, ids: seq<nat>, sent: nat, age: nat)
    requires Inv(s)
    ensures Inv(Next(s, Produce(ids, sent, age)))
  {
    var v := Next(s, Produce(ids, sent, age));
    if !(s.up && Distinct(ids) && sent <= |ids| <= s.capacity - |s.queue|
         && AllClaimable(s.repos, ids, s.now - age - s.minInterval)) { return; }
    ClaimedAreNew(s, ids, s.now - age - s.minInterval);
    ExclusiveAppend(s.queue, s.busy, ids, sent);
    forall i, id | 0 <= i < |s.log| && id in ids && s.log[i].0 == id ensures s.now - s.log[i].1 >= s.minInterval {
      assert Stamped(s.repos, s.now, s.log[i]) && Claimable(s.repos[id], s.now - age - s.minInterval);
    }
    SpacedAppend(s.log, ids, s.now, s.minInterval);
    ProduceTracks(s, v, ids, sent);
    ProduceStamps(s, v, ids);
    hide Exclusive, Tracked, Stamped, Spaced;
  }

  lemma ProduceTracks(s: Instance, v: Instance, ids: seq<nat>, sent: nat)
    requires Inv(s) && sent <= |ids|
    requires v.repos == Claim(s.repos, ids, s.now) && v.queue == s.queue + ids[..sent]
    requires forall id :: id in ids ==> id in s.repos
    ensures forall id :: id in v.queue ==> Tracked(v.repos, id)
    ensures forall u :: u in s.busy ==> Tracked(v.repos, s.busy[u])
  {
    hide Exclusive, Spaced, Stamped;
    forall id | id in v.queue ensures Tracked(v.repos, id) {
      if id in s.queue { assert Tracked(s.repos, id); } else { assert id in ids[..sent]; assert id in ids; }
    }
    forall u | u in s.busy ensures Tracked(v.repos, s.busy[u]) { assert Tracked(s.repos, s.busy[u]); }
  }

  lemma ProduceStamps(s: Instance, v: Instance, ids: seq<nat>)
    requires Inv(s)
    requires v.repos == Claim(s.repos, ids, s.now) && v.log == s.log + ClaimLog(ids, s.now) && v.now == s.now
    requires forall id :: id in ids ==> id in s.repos
    ensures forall i :: 0 <= i < |v.log| ==> Stamped(v.repos, v.now, v.log[i])
  {
    hide Exclusive, Spaced, Tracked;
    forall i | 0 <= i < |v.log| ensures Stamped(v.repos, v.now, v.log[i]) {
      if i < |s.log| {
        assert v.log[i] == s.log[i] && Stamped(s.repos, s.now, s.log[i]);
      } else {
        assert v.log[i] == (ids[i - |s.log|], s.now) && ids[i - |s.log|] in ids;
      }
    }
  }

  lemma TakeKeeps(s: Instance, worker: nat)
    requires Inv(s)
    ensures Inv(Next(s, Take(worker)))
  {
    var v := Next(s, Take(worker));
    if v == s { return; }
    assert forall id :: id in v.queue ==> id in s.queue;
    assert s.queue[0] in s.queue;
    assert forall i :: 0 <= i < |v.queue| ==> v.queue[i] == s.queue[i + 1];
    hide Stamped, Spaced, Tracked;
  }

  /** A write to one row by the worker that held it. */
  lemma ReleaseKeeps(s: Instance, v: Instance, worker: nat)
    requires Inv(s) && worker in s.busy
    requires v == s.(repos := v.repos, busy := s.busy - {worker})
    requires forall id :: id in s.repos ==> id in v.repos && (id != s.busy[worker] ==> v.repos[id] == s.repos[id])
    requires s.busy[worker] in s.repos ==>
               v.repos[s.busy[worker]].lastScanned in {s.repos[s.busy[worker]].lastScanned, Some(s.now)}
    ensures Inv(v)
  {
    hide Spaced;
    var id := s.busy[worker];
    forall k | k in v.queue ensures Tracked(v.repos, k) { assert Tracked(s.repos, k) && k != id; }
    forall u | u in v.busy ensures Tracked(v.repos, v.busy[u])
      { assert Tracked(s.repos, s.busy[u]) && s.busy[u] != id; }
    assert Exclusive(v.queue, v.busy);
    hide Exclusive, Tracked;
    forall i | 0 <= i < |v.log| ensures Stamped(v.repos, v.now, v.log[i]) { assert Stamped(s.repos, s.now, s.log[i]); }
  }

  lemma MovedKeeps(s: Instance, worker: nat, fault: DbFault)
    requires Inv(s)
    ensures Inv(Next(s, Moved(worker, fault)))
  {
    var v := Next(s, Moved(worker, fault));
    hide Spaced, Exclusive;
    forall k | k in v.queue ensures Tracked(v.repos, k) { assert Tracked(s.repos, k); }
    forall u | u in v.busy ensures Tracked(v.repos, v.busy[u]) { assert Tracked(s.repos, s.busy[u]); }
    hide Tracked;
    forall i | 0 <= i < |v.log| ensures Stamped(v.repos, v.now, v.log[i]) { assert Stamped(s.repos, s.now, s.log[i]); }
  }

  lemma QuietKeeps(s: Instance, v: Instance)
    requires Inv(s)
    requires v == s.(repos := v.repos, queue := v.queue, busy := v.busy, up := v.up, now := v.now) && s.now <= v.now
    requires (v.queue == [] && v.busy == map[]) || (v.queue == s.queue && v.busy == s.busy && v.up == s.up)
    requires forall id :: id in s.repos ==> id in v.repos && v.repos[id].lastScanned == s.repos[id].lastScanned
    requires v.queue != [] || v.busy != map[] ==> forall id :: id in s.repos ==> v.repos[id] == s.repos[id]
    ensures Inv(v)
  {
    hide Spaced;
    forall k | k in v.queue ensures Tracked(v.repos, k) { assert Tracked(s.repos, k); }
    forall u | u in v.busy ensures Tracked(v.repos, v.busy[u]) { assert Tracked(s.repos, s.busy[u]); }
    hide Tracked;
    forall i | 0 <= i < |v.log| ensures Stamped(v.repos, v.now, v.log[i]) { assert Stamped(s.repos, s.now, s.log[i]); }
  }

  /** While down, nothing is queued or held. */
  ghost predicate DownIsEmpty(s: Instance) {
    !s.up ==> s.queue == [] && s.busy == map[]
  }

  lemma StepKeeps(s: Instance, a: Step)
    requires Inv(s) && DownIsEmpty(s)
    ensures Inv(Next(s, a)) && DownIsEmpty(Next(s, a))
  {
    hide Inv;
    match a
    case Produce(ids, sent, age) => ProduceKeeps(s, ids, sent, age);
    case Take(worker) => TakeKeeps(s, worker);
    case Done(worker, scan, fault) => if s.up && worker in s.busy { ReleaseKeeps(s, Next(s, a), worker); }
    case Moved(worker, fault) => MovedKeeps(s, worker, fault);
    case _ => QuietKeeps(s, Next(s, a));
  }

  lemma {:induction false} RunKeeps(s: Instance, steps: seq<Step>)
    requires Inv(s) && DownIsEmpty(s)
    ensures Inv(Run(s, steps)) && Run(s, steps).capacity == s.capacity && Run(s, steps).minInterval == s.minInterval
    decreases steps
  {
    hide Inv, DownIsEmpty;
    if steps != [] {
      StepKeeps(s, steps[0]);
      Constants(s, steps[0]);
      hide Next;
      RunKeeps(Next(s, steps[0]), steps[1..]);
    }
  }

  // ---- Rows left in processing ----

  predicate Live(s: Instance, id: nat) {
    id in s.repos && !s.repos[id].deleted
  }

  /** Marked as processing although nobody is going to scan it. */
  predicate Stranded(s: Instance, id: nat) {
    Live(s, id) && s.repos[id].status == Processing && id !in s.queue && id !in s.busy.Values
  }

  /** Exactly which steps strand a repository and which free it: a claim that is not queued, a
      scan whose commit fails and a crash strand it, and a restart whose recovery commits is the
      only step that frees it. */
  lemma StrandedExactly(s: Instance, a: Step, id: nat)
    requires Inv(s) && DownIsEmpty(s)
    ensures Stranded(Next(s, a), id) <==>
              match a
              case Produce(ids, sent, age) => Stranded(s, id) || (Next(s, a) != s && id in ids && id !in ids[..sent])
              case Done(worker, scan, fault) =>
                Stranded(s, id) || (s.up && worker in s.busy && s.busy[worker] == id && Live(s, id) && !fault.Commits())
              case Crash => Stranded(s, id) || (Live(s, id) && (id in s.queue || id in s.busy.Values))
              case Restart(fault) => Stranded(s, id) && (s.up || !fault.Commits())
              case _ => Stranded(s, id)
  {
    match a
    case Produce(ids, sent, age) => ProduceStrands(s, ids, sent, age, id);
    case Take(worker) => TakeStrands(s, worker, id);
    case Done(worker, scan, fault) => DoneStrands(s, worker, scan, fault, id);
    case Moved(worker, fault) =>
    case Crash => assert Live(s, id) && (id in s.queue || id in s.busy.Values) ==> Tracked(s.repos, id);
    case _ =>
  }

  lemma ProduceStrands(s: Instance, ids: seq<nat>, sent: nat, age: nat, id: nat)
    requires Inv(s)
    ensures var v := Next(s, Produce(ids, sent, age));
            Stranded(v, id) <==> Stranded(s, id) || (v != s && id in ids && id !in ids[..sent])
  {
    var v := Next(s, Produce(ids, sent, age));
    if v != s {
      ClaimedAreNew(s, ids, s.now - age - s.minInterval);
      assert id in ids[..sent] ==> id in ids;
    }
    hide Exclusive, Spaced, Stamped, Tracked;
  }

  lemma TakeStrands(s: Instance, worker: nat, id: nat)
    requires Inv(s)
    ensures Stranded(Next(s, Take(worker)), id) <==> Stranded(s, id)
  {
    var v := Next(s, Take(worker));
    if v != s {
      assert s.queue == [s.queue[0]] + s.queue[1..];
      assert v.busy.Values == s.busy.Values + {s.queue[0]} by {
        assert v.busy[worker] == s.queue[0];
        forall x | x in s.busy.Values ensures x in v.busy.Values {
          var u :| u in s.busy && s.busy[u] == x;
          assert v.busy[u] == x;
        }
      }
    }
    hide Exclusive, Spaced, Stamped, Tracked;
  }

  lemma DoneStrands(s: Instance, worker: nat, scan: Repo, fault: DbFault, id: nat)
    requires Inv(s)
    ensures Stranded(Next(s, Step.Done(worker, scan, fault)), id) <==>
              Stranded(s, id) || (s.up && worker in s.busy && s.busy[worker] == id && Live(s, id) && !fault.Commits())
  {
    var v := Next(s, Step.Done(worker, scan, fault));
    if s.up && worker in s.busy {
      assert Tracked(s.repos, s.busy[worker]);
      forall x | x in s.busy.Values && x != s.busy[worker] ensures x in v.busy.Values {
        var u :| u in s.busy && s.busy[u] == x;
        assert v.busy[u] == x;
      }
    }
    hide Spaced, Stamped;
  }

  /** Over every run in which no recovery commits, a stranded repository stays stranded: it is
      processing, unqueued and unheld, so it is never claimable. */
  lemma {:induction false} StrandedUntilRecovery(s: Instance, steps: seq<Step>, id: nat)
    requires Inv(s) && DownIsEmpty(s) && Stranded(s, id)
    requires forall a :: a in steps ==> !(a.Restart? && a.fault.Commits())
    ensures Stranded(Run(s, steps), id)
    ensures forall cutoff :: !Claimable(Run(s, steps).repos[id], cutoff)
    decreases steps
  {
    hide Inv, DownIsEmpty, Next;
    if steps != [] {
      assert steps[0] in steps && forall a :: a in steps[1..] ==> a in steps;
      StrandedExactly(s, steps[0], id);
      StepKeeps(s, steps[0]);
      StrandedUntilRecovery(Next(s, steps[0]), steps[1..], id);
    }
  }

  predicate Harmless(a: Step) {
    match a
    case Produce(ids, sent, _) => sent == |ids|
    case Done(_, _, fault) => fault.Commits()
    case Crash => false
    case _ => true
  }

  /** And without those three faults no run strands anything. */
  lemma {:induction false} OnlyFaultsStrand(s: Instance, steps: seq<Step>, id: nat)
    requires Inv(s) && DownIsEmpty(s) && !Stranded(s, id)
    requires forall a :: a in steps ==> Harmless(a)
    ensures !Stranded(Run(s, steps), id)
    decreases steps
  {
    hide Inv, DownIsEmpty, Next, Stranded;
    if steps != [] {
      var a := steps[0];
      assert a in steps && Harmless(a) && forall x :: x in steps[1..] ==> x in steps;
      assert a.Produce? ==> a.ids[..a.sent] == a.ids;
      StrandedExactly(s, a, id);
      StepKeeps(s, a);
      OnlyFaultsStrand(Next(s, a), steps[1..], id);
    }
  }

  /** A restart whose recovery commits leaves each live repository idle with the scan time it
      had, so it is claimable again minInterval after that time. */
  lemma RestartFreesEverything(s: Instance, fault: DbFault, id: nat)
    requires Live(s, id) && fault.Commits()
    ensures var v := Next(Next(s, Crash), Restart(fault));
            v.up && id in v.repos && v.repos[id] == s.repos[id].(status := Idle)
    ensures var v := Next(Next(s, Crash), Restart(fault));
            s.repos[id].lastScanned.Some? ==>
              forall cutoff :: Claimable(v.repos[id], cutoff) <==> s.repos[id].lastScanned.value <= cutoff
  {
  }

  /** So whatever happened before, once a recovery has committed nothing is stranded until the next
      of those three faults. */
  lemma RecoveryEndsStranding(capacity: nat, minInterval: nat, now: int, before: seq<Step>,
                              fault: DbFault, after: seq<Step>, id: nat)
    requires fault.Commits() && forall a :: a in after ==> Harmless(a)
    ensures var v := Next(Next(Run(Fresh(capacity, minInterval, now), before), Crash), Restart(fault));
            !Stranded(Run(v, after), id)
  {
    RunIsSound(Fresh(capacity, minInterval, now), before);
    var s := Run(Fresh(capacity, minInterval, now), before);
    StepKeeps(s, Crash);
    var m := Next(s, Crash);
    StepKeeps(m, Restart(fault));
    if Live(s, id) { RestartFreesEverything(s, fault, id); }
    OnlyFaultsStrand(Next(m, Restart(fault)), after, id);
  }

  lemma {:induction false} RunIsSound(s: Instance, steps: seq<Step>)
    requires Inv(s) && DownIsEmpty(s)
    ensures Inv(Run(s, steps)) && DownIsEmpty(Run(s, steps))
    decreases steps
  {
    hide Inv, DownIsEmpty, Next;
    if steps != [] {
      StepKeeps(s, steps[0]);
      RunIsSound(Next(s, steps[0]), steps[1..]);
    }
  }

  /** After a scan of a live row it can be claimed again exactly if the commit took place, and then
      from minInterval after the end of the scan on. */
  lemma ClaimableAgainExactly(s: Instance, worker: nat, scan: Repo, fault: DbFault)
    requires Inv(s) && s.up && worker in s.busy && Live(s, s.busy[worker])
    ensures var id := s.busy[worker];
            var v := Next(s, Step.Done(worker, scan, fault));
            Live(v, id) && forall cutoff :: Claimable(v.repos[id], cutoff) <==> fault.Commits() && s.now <= cutoff
  {
    assert Tracked(s.repos, s.busy[worker]);
  }

  // ---- Every repository gets its turn ----

  /** The producer can take the repository now. */
  predicate Taken(s: Instance, id: nat) {
    var v := Next(s, Produce([id], 1, 0));
    id in v.queue && id in v.repos && v.repos[id].status == Processing
  }

  /** An idle repository that was last stamped at t is taken if and only if minInterval has passed,
      and one that never was is taken at once. */
  lemma TakenExactly(s: Instance, id: nat)
    requires Inv(s) && s.up && |s.queue| < s.capacity && Live(s, id) && s.repos[id].status == Idle
    ensures Taken(s, id) <==> s.repos[id].lastScanned == None || s.now - s.repos[id].lastScanned.value >= s.minInterval
  {
    assert [id][..1] == [id] && Distinct([id]);
    assert id in s.queue ==> Tracked(s.repos, id);
    var v := Next(s, Produce([id], 1, 0));
    if AllClaimable(s.repos, [id], s.now - s.minInterval) {
      assert v.queue == s.queue + [id] && v.queue[|s.queue|] == id;
    } else {
      assert v == s;
    }
  }

  predicate Logged(s: Instance, id: nat) {
    exists i :: 0 <= i < |s.log| && s.log[i].0 == id
  }

  /** A repository that was never claimed is as it was registered, and nowhere in the scanner. */
  ghost predicate Untouched(s: Instance) {
    && (forall id :: id in s.repos && !Logged(s, id) ==>
          !s.repos[id].deleted && s.repos[id].status == Idle && s.repos[id].lastScanned == None)
    && (forall id :: id in s.queue ==> Logged(s, id))
    && (forall u :: u in s.busy ==> Logged(s, s.busy[u]))
  }

  lemma ProduceTouches(s: Instance, ids: seq<nat>, sent: nat, age: nat)
    requires Untouched(s)
    ensures Untouched(Next(s, Produce(ids, sent, age)))
  {
    var v := Next(s, Produce(ids, sent, age));
    if v == s { return; }
    forall id ensures Logged(v, id) <==> Logged(s, id) || id in ids {
      if Logged(s, id) {
        var i :| 0 <= i < |s.log| && s.log[i].0 == id;
        assert v.log[i].0 == id;
      }
      if id in ids {
        var j :| 0 <= j < |ids| && ids[j] == id;
        assert v.log[|s.log| + j].0 == id;
      }
      if Logged(v, id) {
        var i :| 0 <= i < |v.log| && v.log[i].0 == id;
        assert if i < |s.log| then s.log[i].0 == id else ids[i - |s.log|] == id;
      }
    }
    hide Logged;
    assert forall id :: id in ids[..sent] ==> id in ids;
  }

  lemma StepTouches(s: Instance, a: Step)
    requires Untouched(s)
    ensures Untouched(Next(s, a))
  {
    match a
    case Produce(ids, sent, age) => ProduceTouches(s, ids, sent, age);
    case _ => OthersTouch(s, a);
  }

  lemma OthersTouch(s: Instance, a: Step)
    requires Untouched(s) && !a.Produce?
    ensures Untouched(Next(s, a))
  {
    assert forall id :: Logged(Next(s, a), id) <==> Logged(s, id);
    hide Logged;
  }

  lemma {:induction false} RunTouches(s: Instance, steps: seq<Step>)
    requires Untouched(s)
    ensures Untouched(Run(s, steps))
    decreases steps
  {
    hide Untouched, Next;
    if steps != [] {
      StepTouches(s, steps[0]);
      RunTouches(Next(s, steps[0]), steps[1..]);
    }
  }

  /** Over every run: a registered repository that was never claimed is taken whenever the producer
      gets to it, if the scanner is up and its queue has room. */
  lemma NewRepositoriesAreTaken(capacity: nat, minInterval: nat, now: int, steps: seq<Step>, id: nat)
    ensures var s := Run(Fresh(capacity, minInterval, now), steps);
            id in s.repos && !Logged(s, id) && s.up && |s.queue| < capacity ==> Taken(s, id)
  {
    var s := Run(Fresh(capacity, minInterval, now), steps);
    RunIsSound(Fresh(capacity, minInterval, now), steps);
    RunKeeps(Fresh(capacity, minInterval, now), steps);
    RunTouches(Fresh(capacity, minInterval, now), steps);
    if id in s.repos && !Logged(s, id) && s.up && |s.queue| < capacity { TakenExactly(s, id); }
  }

  lemma Constants(s: Instance, a: Step)
    ensures Next(s, a).capacity == s.capacity && Next(s, a).minInterval == s.minInterval
  {
  }

  /** Over every run of one scanner instance with crashes and restarts: no repository is in
      the scanner twice, every live one there is marked as processing, the queue never
      exceeds its capacity, and two claims of a repository are at least minInterval apart. */
  lemma ClaimsAreExclusiveAndSpaced(capacity: nat, minInterval: nat, now: int, steps: seq<Step>)
    ensures var s := Run(Fresh(capacity, minInterval, now), steps);
            && Exclusive(s.queue, s.busy) && |s.queue| <= capacity
            && (forall id :: id in s.queue || id in s.busy.Values ==> Tracked(s.repos, id))
            && Spaced(s.log, minInterval)
  {
    RunKeeps(Fresh(capacity, minInterval, now), steps);
    hide Exclusive, Spaced, Tracked;
  }
}
