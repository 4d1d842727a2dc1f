/** The bounded store of asynchronous query jobs and the goroutines that drive it. */
module QueryJobs {
  import opened Wrappers
  import opened Basics

  /** A job id. */
  datatype Id = Id(text: string)

  datatype Status = Queued | Running | Succeeded | Failed

  datatype Job = Job(id: Id, tenant: string, status: Status, startedAt: Option<int>, finishedAt: Option<int>,
                     outcome: Option<string>)

  datatype Store = Store(maxJobs: nat, order: seq<Id>, jobs: map<Id, Job>)

  function NewStore(maxJobs: int): Store {
    Store(if maxJobs <= 0 then 1000 else maxJobs, [], map[])
  }

  function Evicted(s: Store): Store
    decreases |s.order|
  {
    if |s.order| > s.maxJobs then Evicted(s.(order := s.order[1..], jobs := s.jobs - {s.order[0]})) else s
  }

  function AfterCreate(s: Store, id: Id, tenant: string): Store {
    Evicted(Grown(s, id, tenant))
  }

  predicate Visible(s: Store, tenant: string, id: Id) {
    id in s.jobs && s.jobs[id].tenant == tenant
  }

  function StartedJob(job: Job, now: int): Job {
    job.(status := Running, startedAt := Some(now))
  }

  function FinishedJob(job: Job, ok: bool, outcome: string, now: int): Job {
    job.(status := if ok then Succeeded else Failed, finishedAt := Some(now), outcome := Some(outcome))
  }

  function AfterStart(s: Store, tenant: string, id: Id, now: int): Store {
    if !Visible(s, tenant, id) then s
    else s.(jobs := s.jobs[id := StartedJob(s.jobs[id], now)])
  }

  function AfterFinish(s: Store, tenant: string, id: Id, ok: bool, outcome: string, now: int): Store {
    if !Visible(s, tenant, id) then s
    else s.(jobs := s.jobs[id := FinishedJob(s.jobs[id], ok, outcome, now)])
  }

  // ---------------------------------------------------------------- agreement with the history

  function Recent(created: seq<Id>, n: nat): seq<Id> {
    if |created| <= n then created else created[|created| - n..]
  }

  /** The store holds exactly the last `maxJobs` jobs ever created. */
  ghost predicate Agrees(s: Store, created: seq<Id>) {
    && Distinct(created)
    && s.order == Recent(created, s.maxJobs)
    && (forall id :: id in s.jobs <==> id in s.order)
    && forall id :: id in s.jobs ==> s.jobs[id].id == id
  }

  /** Eviction drops exactly the oldest entries beyond the bound. */
  lemma {:induction false} EvictedExactly(s: Store)
    requires Distinct(s.order) && forall id :: id in s.jobs <==> id in s.order
    ensures var e := Evicted(s);
            && e.maxJobs == s.maxJobs && e.order == Recent(s.order, s.maxJobs)
            && (forall id :: id in e.jobs <==> id in e.order)
            && forall id :: id in e.jobs ==> id in s.jobs && e.jobs[id] == s.jobs[id]
    decreases |s.order|
  {
    if |s.order| > s.maxJobs {
      var s' := s.(order := s.order[1..], jobs := s.jobs - {s.order[0]});
      forall id ensures id in s'.jobs <==> id in s'.order {
        if id in s'.order { var i :| 0 <= i < |s'.order| && s'.order[i] == id; assert s.order[i + 1] == id; }
        if id in s'.jobs { var i :| 0 <= i < |s.order| && s.order[i] == id; assert s'.order[i - 1] == id; }
      }
      EvictedExactly(s');
    }
  }

  lemma RecentGrows(created: seq<Id>, n: nat, id: Id)
    ensures Recent(Recent(created, n) + [id], n) == Recent(created + [id], n)
  {
  }

  lemma RecentMembers(created: seq<Id>, n: nat)
    requires Distinct(created)
    ensures Distinct(Recent(created, n)) && forall x :: x in Recent(created, n) ==> x in created
  {
    if |created| > n {
      var recent := created[|created| - n..];
      assert forall i :: 0 <= i < |recent| ==> recent[i] == created[|created| - n + i];
    }
  }

  function Grown(s: Store, id: Id, tenant: string): Store {
    s.(jobs := s.jobs[id := Job(id, tenant, Queued, None, None, None)], order := s.order + [id])
  }

  lemma CreateAgrees(s: Store, created: seq<Id>, id: Id, tenant: string)
    requires Agrees(s, created) && id !in created
    ensures Agrees(AfterCreate(s, id, tenant), created + [id])
    ensures forall x :: x in AfterCreate(s, id, tenant).jobs ==>
                          && x in Grown(s, id, tenant).jobs
                          && AfterCreate(s, id, tenant).jobs[x] == Grown(s, id, tenant).jobs[x]
  {
    GrownOk(s, created, id, tenant);
    EvictedExactly(Grown(s, id, tenant));
  }

  lemma GrownOk(s: Store, created: seq<Id>, id: Id, tenant: string)
    requires Agrees(s, created) && id !in created
    ensures var grown := Grown(s, id, tenant);
            && Distinct(created + [id]) && Distinct(grown.order)
            && (forall x :: x in grown.jobs <==> x in grown.order)
            && (forall x :: x in grown.jobs ==> grown.jobs[x].id == x)
            && Recent(grown.order, s.maxJobs) == Recent(created + [id], s.maxJobs)
  {
    RecentMembers(created, s.maxJobs);
    RecentGrows(created, s.maxJobs, id);
    assert forall x :: x in s.order + [id] <==> x in s.order || x == id;
  }

  // ---------------------------------------------------------------- repeated ids

  function CreateAll(maxJobs: int, ids: seq<Id>, tenant: string): Store {
    if ids == [] then NewStore(maxJobs) else
      AfterCreate(CreateAll(maxJobs, ids[..|ids| - 1], tenant), ids[|ids| - 1], tenant)
  }

  /** The stored jobs are the listed ones. */
  ghost predicate Coherent(s: Store) {
    forall id :: id in s.jobs <==> id in s.order
  }

  /** No id is used again while its older entry is listed, among the entries evicted so far. */
  ghost predicate Spaced(ids: seq<Id>, n: nat) {
    forall i, j :: 0 <= i < j <= i + n < |ids| ==> ids[i] != ids[j]
  }

  /** A creation lists one more id and evicts at most one. */
  lemma CreateEvictsOne(s: Store, id: Id, tenant: string)
    requires |s.order| <= s.maxJobs && s.maxJobs > 0
    ensures var s' := AfterCreate(s, id, tenant);
            && s'.maxJobs == s.maxJobs && s'.order == Recent(s.order + [id], s.maxJobs)
            && s'.jobs.Keys == s.jobs.Keys + {id} - (if |s.order| == s.maxJobs then {s.order[0]} else {})
  {
    var grown := Grown(s, id, tenant);
    if |s.order| == s.maxJobs {
      var cut := grown.(order := grown.order[1..], jobs := grown.jobs - {grown.order[0]});
      assert Evicted(grown) == Evicted(cut) == cut;
    } else {
      assert Evicted(grown) == grown;
    }
  }

  lemma {:induction false} OrderIsRecent(maxJobs: int, ids: seq<Id>, tenant: string)
    ensures var s := CreateAll(maxJobs, ids, tenant);
            s.maxJobs == NewStore(maxJobs).maxJobs > 0 && s.order == Recent(ids, s.maxJobs) && |s.order| <= s.maxJobs
  {
    if ids != [] {
      var k := |ids| - 1;
      OrderIsRecent(maxJobs, ids[..k], tenant);
      var s := CreateAll(maxJobs, ids[..k], tenant);
      CreateEvictsOne(s, ids[k], tenant);
      RecentGrows(ids[..k], s.maxJobs, ids[k]);
      assert ids == ids[..k] + [ids[k]];
    }
  }

  /** A creation breaks coherence exactly when the entry it evicts has a younger twin. */
  lemma CreationBreaksExactly(maxJobs: int, ids: seq<Id>, k: nat, tenant: string)
    requires k < |ids| && Coherent(CreateAll(maxJobs, ids[..k], tenant))
    ensures var n := NewStore(maxJobs).maxJobs;
            Coherent(CreateAll(maxJobs, ids[..k + 1], tenant)) <==> (k >= n ==> ids[k - n] !in ids[k - n + 1..k + 1])
  {
    var n := NewStore(maxJobs).maxJobs;
    var s, s' := CreateAll(maxJobs, ids[..k], tenant), CreateAll(maxJobs, ids[..k + 1], tenant);
    OrderIsRecent(maxJobs, ids[..k], tenant);
    OrderIsRecent(maxJobs, ids[..k + 1], tenant);
    assert ids[..k + 1][..k] == ids[..k] && ids[..k + 1][k] == ids[k];
    CreateEvictsOne(s, ids[k], tenant);
    if k >= n {
      Slides(ids, k, n, s.order, s'.order);
    } else {
      assert s.order == ids[..k] && s'.order == ids[..k] + [ids[k]];
    }
  }

  /** The window of the last n entries moves by one. */
  lemma Slides(ids: seq<Id>, k: nat, n: nat, listed: seq<Id>, young: seq<Id>)
    requires 0 < n <= k < |ids| && listed == Recent(ids[..k], n) && young == Recent(ids[..k + 1], n)
    ensures listed == ids[k - n..k] && young == ids[k - n + 1..k + 1]
    ensures forall id :: id in young || id == ids[k - n] <==> id in listed || id == ids[k]
  {
    assert ids[k - n + 1..k + 1] == ids[k - n + 1..k] + [ids[k]];
    assert ids[k - n..k] == [ids[k - n]] + ids[k - n + 1..k];
  }

  lemma {:induction false} SpacedIsCoherent(maxJobs: int, ids: seq<Id>, k: nat, tenant: string)
    requires k <= |ids| && Spaced(ids, NewStore(maxJobs).maxJobs)
    ensures Coherent(CreateAll(maxJobs, ids[..k], tenant))
  {
    if k > 0 {
      SpacedIsCoherent(maxJobs, ids, k - 1, tenant);
      CreationBreaksExactly(maxJobs, ids, k - 1, tenant);
      var n := NewStore(maxJobs).maxJobs;
      if k - 1 >= n {
        forall j | k - n <= j < k ensures ids[k - 1 - n] != ids[j] {}
      }
    }
  }

  /** Whatever ids are used: the stored jobs are the listed ones after every creation exactly when
      no id was used again while its older entry was listed, counting the entries evicted so far. */
  lemma CoherentExactly(maxJobs: int, ids: seq<Id>, tenant: string)
    ensures (forall k :: 0 <= k <= |ids| ==> Coherent(CreateAll(maxJobs, ids[..k], tenant)))
            <==> Spaced(ids, NewStore(maxJobs).maxJobs)
  {
    var n := NewStore(maxJobs).maxJobs;
    if Spaced(ids, n) {
      forall k | 0 <= k <= |ids| ensures Coherent(CreateAll(maxJobs, ids[..k], tenant)) {
        SpacedIsCoherent(maxJobs, ids, k, tenant);
      }
    }
    if forall k :: 0 <= k <= |ids| ==> Coherent(CreateAll(maxJobs, ids[..k], tenant)) {
      forall i, j | 0 <= i < j <= i + n < |ids| ensures ids[i] != ids[j] {
        var k := i + n;
        CreationBreaksExactly(maxJobs, ids, k, tenant);
        assert ids[k - n] !in ids[k - n + 1..k + 1];
        assert ids[k - n + 1..k + 1][j - i - 1] == ids[j];
      }
    }
  }

  /** For example: with room for one job, evicting the older entry of a repeated id deletes the job. */
  lemma RepeatedIdLosesTheJob(id: Id, tenant: string)
    ensures var s := CreateAll(1, [id, id], tenant); id in s.order && id !in s.jobs
  {
    OrderIsRecent(1, [id], tenant);
    CreateEvictsOne(CreateAll(1, [id], tenant), id, tenant);
    assert [id, id][..1] == [id] && Recent([id] + [id], 1) == [id];
  }

  // ---------------------------------------------------------------- all interleavings

  /** How far the goroutine of a job has got, and what it has reported. */
  datatype Phase = Spawned | Started(began: int) | Finished(began: int, ok: bool, outcome: string, ended: int)

  datatype World = World(store: Store, created: seq<Id>, tenants: map<Id, string>, phases: map<Id, Phase>)

  datatype Event =
    | Create(id: Id, tenant: string)
    | RunStart(id: Id, now: int)
    | RunFinish(id: Id, ok: bool, outcome: string, now: int)

  /** A goroutine starts its job once and finishes it once. */
  function Next(w: World, e: Event): World {
    match e
    case Create(id, tenant) =>
      World(AfterCreate(w.store, id, tenant), w.created + [id], w.tenants[id := tenant], w.phases[id := Spawned])
    case RunStart(id, now) =>
      if id !in w.phases || id !in w.tenants || w.phases[id] != Spawned then w else
        w.(store := AfterStart(w.store, w.tenants[id], id, now), phases := w.phases[id := Started(now)])
    case RunFinish(id, ok, outcome, now) =>
      if id !in w.phases || id !in w.tenants || !w.phases[id].Started? then w else
        w.(store := AfterFinish(w.store, w.tenants[id], id, ok, outcome, now),
           phases := w.phases[id := Finished(w.phases[id].began, ok, outcome, now)])
  }

  function Run(w: World, events: seq<Event>): World {
    if events == [] then w else Next(Run(w, events[..|events| - 1]), events[|events| - 1])
  }

  function Begin(maxJobs: int): World {
    World(NewStore(maxJobs), [], map[], map[])
  }

  /** No two creations use the same id. */
  ghost predicate FreshIds(events: seq<Event>) {
    forall i, j :: 0 <= i < j < |events| && events[i].Create? && events[j].Create? ==> events[i].id != events[j].id
  }

  lemma {:induction false} CreatedIds(maxJobs: int, events: seq<Event>, id: Id)
    ensures id in Run(Begin(maxJobs), events).created <==>
            exists i :: 0 <= i < |events| && events[i].Create? && events[i].id == id
  {
    if events != [] {
      var n := |events| - 1;
      CreatedIds(maxJobs, events[..n], id);
      if i :| 0 <= i < n && events[i].Create? && events[i].id == id { assert events[..n][i] == events[i]; }
      if i :| 0 <= i < n && events[..n][i].Create? && events[..n][i].id == id { assert events[i].id == id; }
      if events[n].Create? && events[n].id == id { assert events[n].id == id; }
    }
  }

  /** With fresh ids a creation never meets its own id. */
  lemma FreshCreation(maxJobs: int, events: seq<Event>, e: Event)
    requires FreshIds(events + [e]) && e.Create?
    ensures e.id !in Run(Begin(maxJobs), events).created
  {
    CreatedIds(maxJobs, events, e.id);
    var all := events + [e];
    forall i | 0 <= i < |events| && events[i].Create? ensures events[i].id != e.id {
      assert all[i] == events[i] && all[|events|] == e;
    }
  }

  lemma FreshPrefix(events: seq<Event>, n: nat)
    requires FreshIds(events) && n <= |events|
    ensures FreshIds(events[..n])
  {
  }

  /** The job as its goroutine has reported it. */
  ghost predicate ReportedAs(job: Job, p: Phase) {
    match p
    case Spawned => job.status == Queued && job.startedAt == None && job.finishedAt == None && job.outcome == None
    case Started(began) =>
      job.status == Running && job.startedAt == Some(began) && job.finishedAt == None && job.outcome == None
    case Finished(began, ok, outcome, ended) =>
      && (job.status == Succeeded <==> ok) && (job.status == Failed <==> !ok)
      && job.startedAt == Some(began) && job.finishedAt == Some(ended) && job.outcome == Some(outcome)
  }

  ghost predicate Inv(w: World) {
    && Agrees(w.store, w.created)
    && (forall id :: id in w.created <==> id in w.phases)
    && w.tenants.Keys == w.phases.Keys
    && Reported(w.store.jobs, w.tenants, w.phases)
  }

  /** Every stored job belongs to its tenant and shows what its goroutine last reported. */
  ghost predicate Reported(jobs: map<Id, Job>, tenants: map<Id, string>, phases: map<Id, Phase>) {
    forall id :: id in jobs ==>
                   && id in phases && id in tenants
                   && ReportedAs(jobs[id], phases[id]) && jobs[id].tenant == tenants[id]
  }

  lemma CreateReports(w: World, id: Id, tenant: string)
    requires Inv(w) && id !in w.created
    ensures Reported(AfterCreate(w.store, id, tenant).jobs, w.tenants[id := tenant], w.phases[id := Spawned])
  {
    CreateAgrees(w.store, w.created, id, tenant);
    var jobs := AfterCreate(w.store, id, tenant).jobs;
    forall x | x in jobs && x != id ensures x in w.store.jobs && jobs[x] == w.store.jobs[x] {}
  }

  lemma CreateKeeps(w: World, id: Id, tenant: string)
    requires Inv(w) && id !in w.created
    ensures Inv(Next(w, Create(id, tenant)))
  {
    CreateAgrees(w.store, w.created, id, tenant);
    CreateReports(w, id, tenant);
    assert forall x :: x in w.created + [id] <==> x in w.created || x == id;
    assert w.tenants[id := tenant].Keys == w.tenants.Keys + {id} == w.phases[id := Spawned].Keys;
  }

  function Replaced(w: World, id: Id, job: Job, phase: Phase): World {
    w.(store := w.store.(jobs := w.store.jobs[id := job]), phases := w.phases[id := phase])
  }

  /** Replacing a stored job by a later version of itself. */
  lemma ReplaceKeeps(w: World, id: Id, job: Job, phase: Phase)
    requires Inv(w) && id in w.store.jobs
    requires job.id == id && job.tenant == w.tenants[id] && ReportedAs(job, phase)
    ensures Inv(Replaced(w, id, job, phase))
  {
    ReplaceAgrees(w.store, w.created, id, job);
    assert w.phases[id := phase].Keys == w.phases.Keys;
  }

  lemma ReplaceAgrees(s: Store, created: seq<Id>, id: Id, job: Job)
    requires Agrees(s, created) && id in s.jobs && job.id == id
    ensures Agrees(s.(jobs := s.jobs[id := job]), created)
  {
  }

  /** A report about a job that is gone only moves its goroutine along. */
  lemma GoneKeeps(w: World, id: Id, phase: Phase)
    requires Inv(w) && id in w.phases && id !in w.store.jobs
    ensures Inv(w.(phases := w.phases[id := phase]))
  {
    assert w.phases[id := phase].Keys == w.phases.Keys;
  }

  /** A report about a stored job is a replacement of it, never of its id or tenant. */
  lemma ReportReplaces(w: World, id: Id, ok: bool, outcome: string, now: int)
    requires id in w.store.jobs && id in w.phases && id in w.tenants && w.store.jobs[id].tenant == w.tenants[id]
    ensures w.phases[id] == Spawned ==>
              Next(w, RunStart(id, now)) == Replaced(w, id, StartedJob(w.store.jobs[id], now), Started(now))
    ensures w.phases[id].Started? ==>
              Next(w, RunFinish(id, ok, outcome, now))
              == Replaced(w, id, FinishedJob(w.store.jobs[id], ok, outcome, now),
                          Finished(w.phases[id].began, ok, outcome, now))
  {
  }

  /** A report about a job that is gone leaves the store alone. */
  lemma ReportIgnored(w: World, id: Id, ok: bool, outcome: string, now: int)
    requires id !in w.store.jobs && id in w.phases && id in w.tenants
    ensures w.phases[id] == Spawned ==> Next(w, RunStart(id, now)) == w.(phases := w.phases[id := Started(now)])
    ensures w.phases[id].Started? ==>
              Next(w, RunFinish(id, ok, outcome, now))
              == w.(phases := w.phases[id := Finished(w.phases[id].began, ok, outcome, now)])
  {
  }

  lemma StartKeeps(w: World, id: Id, now: int)
    requires Inv(w)
    ensures Inv(Next(w, RunStart(id, now)))
  {
    if id in w.phases && w.phases[id] == Spawned {
      if id in w.store.jobs {
        ReportReplaces(w, id, true, "", now);
        ReplaceKeeps(w, id, StartedJob(w.store.jobs[id], now), Started(now));
      } else {
        ReportIgnored(w, id, true, "", now);
        GoneKeeps(w, id, Started(now));
      }
    }
  }

  lemma FinishKeeps(w: World, id: Id, ok: bool, outcome: string, now: int)
    requires Inv(w)
    ensures Inv(Next(w, RunFinish(id, ok, outcome, now)))
  {
    if id in w.phases && w.phases[id].Started? {
      var phase := Finished(w.phases[id].began, ok, outcome, now);
      if id in w.store.jobs {
        var job := FinishedJob(w.store.jobs[id], ok, outcome, now);
        FinishedReported(w.store.jobs[id], w.phases[id].began, ok, outcome, now);
        ReportReplaces(w, id, ok, outcome, now);
        ReplaceKeeps(w, id, job, phase);
      } else {
        ReportIgnored(w, id, ok, outcome, now);
        GoneKeeps(w, id, phase);
      }
    }
  }

  lemma FinishedReported(job: Job, began: int, ok: bool, outcome: string, now: int)
    requires ReportedAs(job, Started(began))
    ensures var done := FinishedJob(job, ok, outcome, now);
            done.id == job.id && done.tenant == job.tenant && ReportedAs(done, Finished(began, ok, outcome, now))
  {
  }

  lemma StepKeeps(w: World, e: Event)
    requires Inv(w) && (e.Create? ==> e.id !in w.created)
    ensures Inv(Next(w, e))
  {
    match e
    case Create(id, tenant) => CreateKeeps(w, id, tenant);
    case RunStart(id, now) => StartKeeps(w, id, now);
    case RunFinish(id, ok, outcome, now) => FinishKeeps(w, id, ok, outcome, now);
  }

  lemma {:induction false} EvictedKeepsBound(s: Store)
    ensures Evicted(s).maxJobs == s.maxJobs
    decreases |s.order|
  {
    if |s.order| > s.maxJobs { EvictedKeepsBound(s.(order := s.order[1..], jobs := s.jobs - {s.order[0]})); }
  }

  lemma StepKeepsBound(w: World, e: Event)
    ensures Next(w, e).store.maxJobs == w.store.maxJobs
  {
    if e.Create? { EvictedKeepsBound(Grown(w.store, e.id, e.tenant)); }
  }

  /** In every interleaving with fresh ids the store is the last `maxJobs` of the unbounded history,
      a thousand where no positive number is given, and a stored job shows the status, times and
      outcome its own goroutine last reported. */
  lemma {:induction false} StoreAgreesWithHistory(maxJobs: int, events: seq<Event>)
    requires FreshIds(events)
    ensures Inv(Run(Begin(maxJobs), events))
    ensures Run(Begin(maxJobs), events).store.maxJobs == if maxJobs > 0 then maxJobs else 1000
  {
    if events != [] {
      var n := |events| - 1;
      FreshPrefix(events, n);
      StoreAgreesWithHistory(maxJobs, events[..n]);
      assert events == events[..n] + [events[n]];
      if events[n].Create? { FreshCreation(maxJobs, events[..n], events[n]); }
      StepKeeps(Run(Begin(maxJobs), events[..n]), events[n]);
      StepKeepsBound(Run(Begin(maxJobs), events[..n]), events[n]);
    }
  }

  /** queued, running, then one of succeeded or failed. */
  predicate Moves(a: Status, b: Status) {
    a == b || (a == Queued && b == Running) || (a == Running && (b == Succeeded || b == Failed))
  }

  /** What one step may do to one job that was created before it. */
  ghost predicate Moved(w: World, w': World, id: Id) {
    && id in w'.created
    && (id in w'.store.jobs ==> id in w.store.jobs && Moves(w.store.jobs[id].status, w'.store.jobs[id].status))
  }

  lemma CreateMoves(w: World, made: Id, tenant: string, id: Id)
    requires Inv(w) && id in w.created && made !in w.created
    ensures Moved(w, Next(w, Create(made, tenant)), id)
  {
    CreateAgrees(w.store, w.created, made, tenant);
  }

  lemma StartMoves(w: World, started: Id, now: int, id: Id)
    requires Inv(w) && id in w.created
    ensures Moved(w, Next(w, RunStart(started, now)), id)
  {
    if started in w.store.jobs { ReportReplaces(w, started, true, "", now); }
  }

  lemma FinishMoves(w: World, finished: Id, ok: bool, outcome: string, now: int, id: Id)
    requires Inv(w) && id in w.created
    ensures Moved(w, Next(w, RunFinish(finished, ok, outcome, now)), id)
  {
    if finished in w.store.jobs { ReportReplaces(w, finished, ok, outcome, now); }
  }

  lemma StepMoves(w: World, e: Event, id: Id)
    requires Inv(w) && id in w.created && (e.Create? ==> e.id !in w.created)
    ensures Moved(w, Next(w, e), id)
  {
    match e
    case Create(made, tenant) => CreateMoves(w, made, tenant, id);
    case RunStart(started, now) => StartMoves(w, started, now, id);
    case RunFinish(finished, ok, outcome, now) => FinishMoves(w, finished, ok, outcome, now, id);
  }

  /** A job that was evicted stays evicted, whatever its goroutine still reports. */
  lemma {:induction false} EvictedStaysEvicted(maxJobs: int, events: seq<Event>, more: seq<Event>, id: Id)
    requires FreshIds(events + more)
    requires id in Run(Begin(maxJobs), events).created && id !in Run(Begin(maxJobs), events).store.jobs
    ensures var w := Run(Begin(maxJobs), events + more); id in w.created && id !in w.store.jobs
    decreases |more|
  {
    if more == [] {
      assert events + more == events;
    } else {
      var n := |more| - 1;
      var all := events + more[..n];
      assert events + more == all + [more[n]] && (all + [more[n]])[..|all|] == all;
      FreshPrefix(events + more, |all|);
      EvictedStaysEvicted(maxJobs, events, more[..n], id);
      StoreAgreesWithHistory(maxJobs, all);
      if more[n].Create? { FreshCreation(maxJobs, all, more[n]); }
      StepMoves(Run(Begin(maxJobs), all), more[n], id);
    }
  }

  /** Every step of every run moves every stored job along its life cycle. */
  lemma StatusMovesForward(maxJobs: int, events: seq<Event>, e: Event, id: Id)
    requires FreshIds(events + [e])
    ensures var w, w' := Run(Begin(maxJobs), events), Run(Begin(maxJobs), events + [e]);
            id in w.store.jobs && id in w'.store.jobs ==> Moves(w.store.jobs[id].status, w'.store.jobs[id].status)
  {
    assert (events + [e])[..|events|] == events;
    FreshPrefix(events + [e], |events|);
    StoreAgreesWithHistory(maxJobs, events);
    if e.Create? { FreshCreation(maxJobs, events, e); }
    var w := Run(Begin(maxJobs), events);
    if id in w.created {
      StepMoves(w, e, id);
    } else {
      assert id !in w.store.order;
    }
  }

  // ---------------------------------------------------------------- the object

  class JobStore {
    const maxJobs: nat
    var order: seq<Id>
    var jobs: map<Id, Job>

    function State(): Store
      reads this
    {
      Store(maxJobs, order, jobs)
    }

    constructor (maxJobs: int)
      ensures State() == Store(if maxJobs > 0 then maxJobs else 1000, [], map[])
    {
      this.maxJobs := if maxJobs <= 0 then 1000 else maxJobs;
      order, jobs := [], map[];
    }

    method Evict()
      modifies this
      ensures State() == old(Evicted(State()))
    {
      while |order| > maxJobs
        invariant Evicted(State()) == old(Evicted(State()))
        decreases |order|
      {
        var oldest := order[0];
        order := order[1..];
        jobs := jobs - {oldest};
      }
    }

    method Create(id: Id, tenant: string) returns (job: Job)
      modifies this
      ensures State() == old(AfterCreate(State(), id, tenant))
      ensures job == Job(id, tenant, Queued, None, None, None)
    {
      job := Job(id, tenant, Queued, None, None, None);
      jobs := jobs[id := job];
      order := order + [id];
      Evict();
    }

    method Start(tenant: string, id: Id, now: int) returns (ok: bool)
      modifies this
      ensures ok == old(id in jobs && jobs[id].tenant == tenant)
      ensures State() == old(AfterStart(State(), tenant, id, now))
    {
      if id !in jobs || jobs[id].tenant != tenant { return false; }
      jobs := jobs[id := jobs[id].(status := Running, startedAt := Some(now))];
      return true;
    }

    /** `succeed` and `fail`. */
    method Finish(tenant: string, id: Id, succeeded: bool, outcome: string, now: int) returns (ok: bool)
      modifies this
      ensures ok == old(id in jobs && jobs[id].tenant == tenant)
      ensures State() == old(AfterFinish(State(), tenant, id, succeeded, outcome, now))
    {
      if id !in jobs || jobs[id].tenant != tenant { return false; }
      jobs := jobs[id := jobs[id].(status := if succeeded then Succeeded else Failed, finishedAt := Some(now),
                                   outcome := Some(outcome))];
      return true;
    }

    method Get(tenant: string, id: Id) returns (job: Option<Job>)
      ensures job == if id in jobs && jobs[id].tenant == tenant then Some(jobs[id]) else None
    {
      if id !in jobs || jobs[id].tenant != tenant { return None; }
      return Some(jobs[id]);
    }
  }
}
