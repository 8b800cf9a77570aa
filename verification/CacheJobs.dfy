/** The image-cache CronJobs of a GlanceAPI (internal/controller/glanceapi_controller.go, ensureImageCacheJob,
    cleanupImageCacheJob, deleteJob): two per cache volume, named after the pod that mounts it. */
module CacheJobs {
  import opened Text

  datatype JobType = Cleaner | Pruner

  /** A volume claim labelled for this GlanceAPI. */
  datatype Pvc = Pvc(name: string, imageCache: bool)

  datatype CronJob = CronJob(pvc: string, command: string, schedule: string)

  /** What the API server does with the requests of a pass, by object name: refused writes return an error,
      deferred ones write nothing and ask for another pass, which the caller ignores; a read that fails for
      another reason than absence is taken to say that there is no such job, but that there is such a pod. */
  datatype Faults = Faults(
    refused: set<string>, deferred: set<string>, unreadableJobs: set<string>, unreadablePods: set<string>)

  const CACHE_PREFIX := "glance-cache-"

  function JobTypeName(t: JobType): string {
    match t
    case Cleaner => "cleaner"
    case Pruner => "pruner"
  }

  function Command(t: JobType): string {
    match t
    case Cleaner => "/usr/bin/glance-cache-cleaner"
    case Pruner => "/usr/bin/glance-cache-pruner"
  }

  function ScheduleOf(t: JobType, cleaner: string, pruner: string): string {
    match t
    case Cleaner => cleaner
    case Pruner => pruner
  }

  function PodName(pvc: string): string {
    TrimPrefix(pvc, CACHE_PREFIX)
  }

  function JobName(pod: string, t: JobType): string {
    pod + "-" + JobTypeName(t)
  }

  lemma JobNameInjective(a: string, t: JobType, b: string, u: JobType)
    requires JobName(a, t) == JobName(b, u)
    ensures a == b && t == u
  {
    HyphenInjective(a, JobTypeName(t), b, JobTypeName(u));
    assert JobTypeName(t)[0] == JobTypeName(u)[0];
  }

  /** The pods named by the annotated ones of the first n volumes. */
  ghost predicate Named(pvcs: seq<Pvc>, n: nat, pod: string) {
    exists k :: 0 <= k < n && k < |pvcs| && pvcs[k].imageCache && PodName(pvcs[k].name) == pod
  }

  /** The job of a pod runs its command on an annotated volume of that pod. */
  ghost predicate RunsFor(job: CronJob, pvcs: seq<Pvc>, pod: string, t: JobType, schedule: string) {
    && job.command == Command(t) && job.schedule == schedule
    && PodName(job.pvc) == pod && Pvc(job.pvc, true) in pvcs
  }

  ghost predicate IsJobOf(pvcs: seq<Pvc>, ts: set<JobType>, name: string) {
    exists pod, t :: t in ts && Named(pvcs, |pvcs|, pod) && name == JobName(pod, t)
  }

  /** Only jobs of the given types named after pods of annotated volumes differ. */
  ghost predicate SameElsewhere(
      jobs: map<string, CronJob>, jobs': map<string, CronJob>, pvcs: seq<Pvc>, ts: set<JobType>) {
    forall name :: !IsJobOf(pvcs, ts, name) ==> SameAt(jobs, jobs', name)
  }

  predicate SameAt(jobs: map<string, CronJob>, jobs': map<string, CronJob>, name: string) {
    (name in jobs <==> name in jobs') && (name in jobs ==> jobs'[name] == jobs[name])
  }

  /** The job of a pod runs as it should, or is as it was when the write was deferred. */
  ghost predicate Ensured(jobs: map<string, CronJob>, jobs': map<string, CronJob>, pvcs: seq<Pvc>, pod: string,
                          t: JobType, schedule: string, f: Faults) {
    var name := JobName(pod, t);
    if name in f.deferred then SameAt(jobs, jobs', name)
    else name in jobs' && RunsFor(jobs'[name], pvcs, pod, t, schedule)
  }

  lemma KeepsOtherType(jobs: map<string, CronJob>, jobs': map<string, CronJob>, pvcs: seq<Pvc>)
    requires SameElsewhere(jobs, jobs', pvcs, {Pruner})
    ensures forall pod :: SameAt(jobs, jobs', JobName(pod, Cleaner))
  {
    forall pod, other | JobName(pod, Cleaner) == JobName(other, Pruner) ensures false {
      JobNameInjective(pod, Cleaner, other, Pruner);
    }
  }

  lemma KeepsPruner(jobs: map<string, CronJob>, jobs': map<string, CronJob>, pvcs: seq<Pvc>)
    requires SameElsewhere(jobs, jobs', pvcs, {Cleaner})
    ensures forall pod :: SameAt(jobs, jobs', JobName(pod, Pruner))
  {
    forall pod, other | JobName(pod, Pruner) == JobName(other, Cleaner) ensures false {
      JobNameInjective(pod, Pruner, other, Cleaner);
    }
  }

  lemma SameElsewhereTwice(
      a: map<string, CronJob>, b: map<string, CronJob>, c: map<string, CronJob>, pvcs: seq<Pvc>)
    requires SameElsewhere(a, b, pvcs, {Cleaner}) && SameElsewhere(b, c, pvcs, {Pruner})
    ensures SameElsewhere(a, c, pvcs, {Cleaner, Pruner})
  {
    forall name
      ensures IsJobOf(pvcs, {Cleaner}, name) || IsJobOf(pvcs, {Pruner}, name) ==> IsJobOf(pvcs, {Cleaner, Pruner}, name)
    {
    }
  }

  /** Volumes claimed by a StatefulSet are named after their pod, so the job of a pod is on its own volume. */
  lemma ClaimOfPod(pod: string, pvc: string)
    ensures HasPrefix(pvc, CACHE_PREFIX) && PodName(pvc) == pod <==> pvc == CACHE_PREFIX + pod
  {
    if HasPrefix(pvc, CACHE_PREFIX) {
      assert pvc == CACHE_PREFIX + pvc[|CACHE_PREFIX|..];
    }
  }

  /** The cleanup wants the jobs of the pod gone. */
  predicate Unwanted(pod: string, size: string, pods: set<string>, f: Faults) {
    (pod !in pods && pod !in f.unreadablePods) || size == ""
  }

  /** A job is there after an error-free pass: it was there or has been ensured, and was not cleaned up. */
  predicate JobAfter(pod: string, t: JobType, before: set<string>, size: string, pods: set<string>, f: Faults) {
    var name := JobName(pod, t);
    && (name in before || (size != "" && name !in f.deferred))
    && (Unwanted(pod, size, pods, f) ==> name in f.unreadableJobs)
  }

  /** Without failing reads and deferred writes these are the jobs of existing pods, or none. */
  lemma JobAfterExactly(pod: string, t: JobType, before: set<string>, size: string, pods: set<string>, f: Faults)
    requires JobName(pod, t) !in f.deferred && JobName(pod, t) !in f.unreadableJobs && pod !in f.unreadablePods
    ensures JobAfter(pod, t, before, size, pods, f) <==> size != "" && pod in pods
  {
  }

  /** Writing the job of one volume keeps what has been ensured for the others. */
  lemma EnsureOne(a: map<string, CronJob>, b: map<string, CronJob>, c: map<string, CronJob>, pvcs: seq<Pvc>, n: nat,
                  t: JobType, schedule: string, f: Faults)
    requires n < |pvcs| && pvcs[n].imageCache
    requires
      var name := JobName(PodName(pvcs[n].name), t);
      name !in f.deferred && c == b[name := CronJob(pvcs[n].name, Command(t), schedule)]
    requires SameElsewhere(a, b, pvcs, {t})
    ensures SameElsewhere(a, c, pvcs, {t})
    ensures Ensured(a, c, pvcs, PodName(pvcs[n].name), t, schedule, f)
    ensures forall pod :: Ensured(a, b, pvcs, pod, t, schedule, f) ==> Ensured(a, c, pvcs, pod, t, schedule, f)
  {
    var mine := PodName(pvcs[n].name);
    assert Named(pvcs, |pvcs|, mine);
    forall pod | JobName(pod, t) == JobName(mine, t) ensures pod == mine {
      JobNameInjective(pod, t, mine, t);
    }
  }

  /** The name is that of a job the cleanup wants gone. */
  ghost predicate UnwantedJob(pvcs: seq<Pvc>, size: string, pods: set<string>, f: Faults, name: string) {
    exists pod, t :: Named(pvcs, |pvcs|, pod) && Unwanted(pod, size, pods, f) && name == JobName(pod, t)
  }

  /** What a pass without error makes of one job: it is there exactly as JobAfter says, and if it has been
      written it runs its command for its pod, on that pod's own volume when a StatefulSet named the volume. */
  ghost predicate Outcome(before: map<string, CronJob>, after: map<string, CronJob>, pvcs: seq<Pvc>, size: string,
                          schedule: string, pods: set<string>, f: Faults, pod: string, t: JobType) {
    var name := JobName(pod, t);
    && (name in after <==> JobAfter(pod, t, before.Keys, size, pods, f))
    && (size != "" && name in after.Keys - f.deferred ==>
          && RunsFor(after[name], pvcs, pod, t, schedule)
          && (HasPrefix(after[name].pvc, CACHE_PREFIX) ==> after[name].pvc == CACHE_PREFIX + pod))
  }

  lemma JobOutcome(before: map<string, CronJob>, ensured: map<string, CronJob>, after: map<string, CronJob>,
                   pvcs: seq<Pvc>, size: string, schedule: string, pods: set<string>, f: Faults, pod: string,
                   t: JobType)
    requires Named(pvcs, |pvcs|, pod)
    requires if size == "" then ensured == before else Ensured(before, ensured, pvcs, pod, t, schedule, f)
    requires CleanedUp(ensured, after, pvcs, size, pods, f)
    requires Unwanted(pod, size, pods, f) && JobName(pod, t) in after ==> JobName(pod, t) in f.unreadableJobs
    ensures Outcome(before, after, pvcs, size, schedule, pods, f, pod, t)
  {
    var name := JobName(pod, t);
    forall other, u | name == JobName(other, u) ensures pod == other {
      JobNameInjective(pod, t, other, u);
    }
    if size != "" && name in after.Keys - f.deferred {
      ClaimOfPod(pod, after[name].pvc);
    }
  }

  /** Only readable jobs that the cleanup wants gone are gone. */
  ghost predicate CleanedUp(jobs: map<string, CronJob>, jobs': map<string, CronJob>, pvcs: seq<Pvc>, size: string,
                            pods: set<string>, f: Faults) {
    && jobs'.Keys <= jobs.Keys && (forall name :: name in jobs' ==> jobs'[name] == jobs[name])
    && forall name :: name in jobs && name !in jobs' ==>
         name !in f.unreadableJobs && UnwantedJob(pvcs, size, pods, f, name)
  }

  lemma CleanedElsewhere(before: map<string, CronJob>, ensured: map<string, CronJob>, after: map<string, CronJob>,
                         pvcs: seq<Pvc>, size: string, pods: set<string>, f: Faults)
    requires SameElsewhere(before, ensured, pvcs, {Cleaner, Pruner}) && CleanedUp(ensured, after, pvcs, size, pods, f)
    ensures SameElsewhere(before, after, pvcs, {Cleaner, Pruner})
  {
    forall name | UnwantedJob(pvcs, size, pods, f, name) ensures IsJobOf(pvcs, {Cleaner, Pruner}, name) {
      var pod, t :| Named(pvcs, |pvcs|, pod) && Unwanted(pod, size, pods, f) && name == JobName(pod, t);
      assert t in {Cleaner, Pruner};
    }
  }

  /** In names and commands: the job a pass without error has written for a pod under "-cleaner" cleans the
      cache on the cleaner's schedule, the one under "-pruner" prunes it on the pruner's. */
  lemma JobsSpelled(before: map<string, CronJob>, after: map<string, CronJob>, pvcs: seq<Pvc>, size: string,
                    cleaner: string, pruner: string, pods: set<string>, f: Faults, pod: string)
    requires forall t :: Outcome(before, after, pvcs, size, ScheduleOf(t, cleaner, pruner), pods, f, pod, t)
    requires size != ""
    ensures pod + "-" + "cleaner" in after.Keys - f.deferred ==>
              && after[pod + "-" + "cleaner"].command == "/usr/bin/glance-cache-cleaner"
              && after[pod + "-" + "cleaner"].schedule == cleaner
    ensures pod + "-" + "pruner" in after.Keys - f.deferred ==>
              && after[pod + "-" + "pruner"].command == "/usr/bin/glance-cache-pruner"
              && after[pod + "-" + "pruner"].schedule == pruner
  {
    assert Outcome(before, after, pvcs, size, ScheduleOf(Cleaner, cleaner, pruner), pods, f, pod, Cleaner);
    assert Outcome(before, after, pvcs, size, ScheduleOf(Pruner, cleaner, pruner), pods, f, pod, Pruner);
  }

  class CacheJobController {
    var jobs: map<string, CronJob>

    constructor (jobs: map<string, CronJob>)
      ensures this.jobs == jobs
    {
      this.jobs := jobs;
    }

    /** Creates or updates the job of one type for every annotated volume. */
    method EnsureImageCacheJob(pvcs: seq<Pvc>, t: JobType, schedule: string, f: Faults) returns (ok: bool)
      modifies this
      ensures ok <==> forall pod :: Named(pvcs, |pvcs|, pod) ==> JobName(pod, t) !in f.refused
      ensures ok ==> forall pod :: Named(pvcs, |pvcs|, pod) ==> Ensured(old(jobs), jobs, pvcs, pod, t, schedule, f)
      ensures SameElsewhere(old(jobs), jobs, pvcs, {t})
    {
      for n := 0 to |pvcs|
        invariant forall pod :: Named(pvcs, n, pod) ==>
                    JobName(pod, t) !in f.refused && Ensured(old(jobs), jobs, pvcs, pod, t, schedule, f)
        invariant forall name :: name in f.deferred ==> SameAt(old(jobs), jobs, name)
        invariant SameElsewhere(old(jobs), jobs, pvcs, {t})
      {
        if pvcs[n].imageCache {
          var pod := PodName(pvcs[n].name);
          assert Named(pvcs, |pvcs|, pod);
          if JobName(pod, t) in f.refused {
            return false;
          }
          if JobName(pod, t) !in f.deferred {
            ghost var before := jobs;
            jobs := jobs[JobName(pod, t) := CronJob(pvcs[n].name, Command(t), schedule)];
            EnsureOne(old(jobs), before, jobs, pvcs, n, t, schedule, f);
          }
        }
      }
      return true;
    }

    /** Deletes both jobs of a volume, those that are read. */
    method DeleteJob(pvc: string, f: Faults) returns (ok: bool)
      modifies this
      ensures jobs.Keys <= old(jobs).Keys && forall name :: name in jobs ==> jobs[name] == old(jobs)[name]
      ensures forall name :: name in old(jobs) && name !in jobs ==> exists t :: name == JobName(PodName(pvc), t)
      ensures forall name :: name in old(jobs) && name in f.unreadableJobs ==> name in jobs
      ensures ok ==> forall t :: JobName(PodName(pvc), t) in jobs ==> JobName(PodName(pvc), t) in f.unreadableJobs
      ensures f.refused == {} ==> ok
    {
      var types := [Pruner, Cleaner];
      for n := 0 to 2
        invariant jobs.Keys <= old(jobs).Keys && forall name :: name in jobs ==> jobs[name] == old(jobs)[name]
        invariant forall name :: name in old(jobs) && name !in jobs ==> exists t :: name == JobName(PodName(pvc), t)
        invariant forall name :: name in old(jobs) && name in f.unreadableJobs ==> name in jobs
        invariant forall k :: 0 <= k < n ==>
                    var name := JobName(PodName(pvc), types[k]); name in jobs ==> name in f.unreadableJobs
      {
        var name := JobName(PodName(pvc), types[n]);
        if name in jobs && name !in f.unreadableJobs {
          if name in f.refused {
            return false;
          }
          jobs := jobs - {name};
        }
      }
      forall t ensures JobName(PodName(pvc), t) in jobs ==> JobName(PodName(pvc), t) in f.unreadableJobs {
        assert t == types[0] || t == types[1];
      }
      return true;
    }

    /** Deletes the jobs of annotated volumes whose pod is gone, or all of them when there is no cache. */
    method CleanupImageCacheJob(pvcs: seq<Pvc>, size: string, pods: set<string>, f: Faults) returns (ok: bool)
      modifies this
      ensures CleanedUp(old(jobs), jobs, pvcs, size, pods, f)
      ensures ok ==> forall pod, t :: Named(pvcs, |pvcs|, pod) && Unwanted(pod, size, pods, f) ==>
                (JobName(pod, t) in jobs ==> JobName(pod, t) in f.unreadableJobs)
      ensures f.refused == {} ==> ok
    {
      for n := 0 to |pvcs|
        invariant CleanedUp(old(jobs), jobs, pvcs, size, pods, f)
        invariant forall pod, t :: Named(pvcs, n, pod) && Unwanted(pod, size, pods, f) ==>
                    (JobName(pod, t) in jobs ==> JobName(pod, t) in f.unreadableJobs)
      {
        if pvcs[n].imageCache {
          var pod := PodName(pvcs[n].name);
          assert Named(pvcs, |pvcs|, pod);
          if (pod !in pods && pod !in f.unreadablePods) || size == "" {
            ok := DeleteJob(pvcs[n].name, f);
            if !ok {
              return false;
            }
          }
        }
      }
      return true;
    }

    method EnsureImageCacheJobs(pvcs: seq<Pvc>, cleaner: string, pruner: string, f: Faults) returns (ok: bool)
      modifies this
      ensures SameElsewhere(old(jobs), jobs, pvcs, {Cleaner, Pruner})
      ensures ok ==> forall pod, t :: Named(pvcs, |pvcs|, pod) ==>
                Ensured(old(jobs), jobs, pvcs, pod, t, ScheduleOf(t, cleaner, pruner), f)
      ensures f.refused == {} ==> ok
    {
      ok := EnsureImageCacheJob(pvcs, Cleaner, cleaner, f);
      if !ok {
        return;
      }
      label cleaned:
      KeepsPruner(old(jobs), jobs, pvcs);
      ok := EnsureImageCacheJob(pvcs, Pruner, pruner, f);
      KeepsOtherType(old@cleaned(jobs), jobs, pvcs);
      SameElsewhereTwice(old(jobs), old@cleaned(jobs), jobs, pvcs);
    }

    /** The image-cache part of a pass: it settles every job named after an annotated volume, and with or
        without errors no other job changes. */
    method ReconcileImageCache(pvcs: seq<Pvc>, size: string, cleaner: string, pruner: string,
                               pods: set<string>, f: Faults) returns (ok: bool)
      modifies this
      ensures SameElsewhere(old(jobs), jobs, pvcs, {Cleaner, Pruner})
      ensures ok ==> forall pod, t :: Named(pvcs, |pvcs|, pod) ==>
                Outcome(old(jobs), jobs, pvcs, size, ScheduleOf(t, cleaner, pruner), pods, f, pod, t)
      ensures f.refused == {} ==> ok
    {
      if |size| > 0 {
        ok := EnsureImageCacheJobs(pvcs, cleaner, pruner, f);
        if !ok {
          return;
        }
      }
      ghost var ensured := jobs;
      ok := CleanupImageCacheJob(pvcs, size, pods, f);
      CleanedElsewhere(old(jobs), ensured, jobs, pvcs, size, pods, f);
      if ok {
        forall pod, t | Named(pvcs, |pvcs|, pod)
          ensures Outcome(old(jobs), jobs, pvcs, size, ScheduleOf(t, cleaner, pruner), pods, f, pod, t)
        {
          JobOutcome(old(jobs), ensured, jobs, pvcs, size, ScheduleOf(t, cleaner, pruner), pods, f, pod, t);
        }
      }
    }
  }
}
