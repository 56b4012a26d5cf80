/** queues/index.ts: removing the jobs that an older release left in the notification queue. Each waiting list is
    read in pages while jobs are removed from it. Nobody adds jobs meanwhile. */
module QueuePurge {

  datatype Job = Job(id: nat, name: string)

  const PAGE := 100

  predicate Legacy(job: Job) {
    job.name == "subscription-lifecycle" || job.name == "organization-privacy" || job.name == "accounting-exports"
  }

  // ----- the schedules -----

  datatype Schedule = Schedule(jobName: string, queueName: string)

  const SCHEDULED: seq<Schedule> := [
    Schedule("subscription-renewal-reminders", "notifications"),
    Schedule("subscription-lifecycle", "lifecycle"),
    Schedule("organization-privacy", "exports"),
    Schedule("accounting-exports", "exports"),
    Schedule("payroll-recovery", "payroll-calculation"),
    Schedule("paystack-transfer-reconciliation", "lifecycle")
  ]

  /** The three names are of jobs that are scheduled on another queue today, so no live notification job is purged;
      the remaining jobs of other queues never ran on this one and are left alone as well. */
  lemma LegacyJobsLiveElsewhere(job: Job)
    ensures Legacy(job) <==> job.name in ["subscription-lifecycle", "organization-privacy", "accounting-exports"]
    ensures Legacy(job) ==> exists k :: 0 <= k < |SCHEDULED| && SCHEDULED[k].jobName == job.name && SCHEDULED[k].queueName in ["lifecycle", "exports"]
    ensures forall k :: 0 <= k < |SCHEDULED| && SCHEDULED[k].jobName == job.name && SCHEDULED[k].queueName == "notifications" ==> !Legacy(job)
  {
    assert SCHEDULED[1].jobName == "subscription-lifecycle" && SCHEDULED[2].jobName == "organization-privacy"
      && SCHEDULED[3].jobName == "accounting-exports";
    var reminders := "subscription-renewal-reminders";
    assert |reminders| == 30 && |"subscription-lifecycle"| == 22 && |"organization-privacy"| == 20 && |"accounting-exports"| == 18;
    assert "notifications"[0] == 'n' && "lifecycle"[0] == 'l' && "exports"[0] == 'e' && "payroll-calculation"[0] == 'p';
  }

  // ----- the jobs -----

  function LegacyJobs(jobs: seq<Job>): seq<Job> {
    if jobs == [] then []
    else LegacyJobs(jobs[..|jobs| - 1]) + if Legacy(jobs[|jobs| - 1]) then [jobs[|jobs| - 1]] else []
  }

  /** What should remain: the other jobs, in their order. */
  function Kept(jobs: seq<Job>): seq<Job> {
    if jobs == [] then []
    else Kept(jobs[..|jobs| - 1]) + if Legacy(jobs[|jobs| - 1]) then [] else [jobs[|jobs| - 1]]
  }

  predicate DistinctIds(jobs: seq<Job>) {
    forall i, j :: 0 <= i < j < |jobs| ==> jobs[i].id != jobs[j].id
  }

  /** Removing one job by its id, wherever it stands. */
  function Without(jobs: seq<Job>, id: nat): seq<Job> {
    if jobs == [] then []
    else Without(jobs[..|jobs| - 1], id) + if jobs[|jobs| - 1].id == id then [] else [jobs[|jobs| - 1]]
  }

  function WithoutAll(jobs: seq<Job>, gone: seq<Job>): seq<Job> {
    if gone == [] then jobs else Without(WithoutAll(jobs, gone[..|gone| - 1]), gone[|gone| - 1].id)
  }

  /** The page of the list that starts at `start`. */
  function Page(jobs: seq<Job>, start: nat): seq<Job> {
    if start >= |jobs| then [] else if start + PAGE <= |jobs| then jobs[start..start + PAGE] else jobs[start..]
  }

  // ----- removal -----

  lemma {:induction false} KeptAppend(a: seq<Job>, b: seq<Job>)
    ensures Kept(a + b) == Kept(a) + Kept(b) && LegacyJobs(a + b) == LegacyJobs(a) + LegacyJobs(b)
  {
    if b == [] {
      assert a + b == a;
    } else {
      assert (a + b)[..|a + b| - 1] == a + b[..|b| - 1];
      KeptAppend(a, b[..|b| - 1]);
    }
  }

  lemma {:induction false} WithoutAppend(a: seq<Job>, b: seq<Job>, id: nat)
    ensures Without(a + b, id) == Without(a, id) + Without(b, id)
  {
    if b == [] {
      assert a + b == a;
    } else {
      assert (a + b)[..|a + b| - 1] == a + b[..|b| - 1];
      WithoutAppend(a, b[..|b| - 1], id);
    }
  }

  lemma {:induction false} WithoutAbsent(jobs: seq<Job>, id: nat)
    requires forall k :: 0 <= k < |jobs| ==> jobs[k].id != id
    ensures Without(jobs, id) == jobs
  {
    if jobs != [] { WithoutAbsent(jobs[..|jobs| - 1], id); }
  }

  lemma {:induction false} WithoutAllAppend(a: seq<Job>, b: seq<Job>, gone: seq<Job>)
    ensures WithoutAll(a + b, gone) == WithoutAll(a, gone) + WithoutAll(b, gone)
  {
    if gone != [] {
      var init := gone[..|gone| - 1];
      WithoutAllAppend(a, b, init);
      WithoutAppend(WithoutAll(a, init), WithoutAll(b, init), gone[|gone| - 1].id);
    }
  }

  lemma {:induction false} WithoutAllAbsent(jobs: seq<Job>, gone: seq<Job>)
    requires forall k, g :: 0 <= k < |jobs| && 0 <= g < |gone| ==> jobs[k].id != gone[g].id
    ensures WithoutAll(jobs, gone) == jobs
  {
    if gone != [] {
      WithoutAllAbsent(jobs, gone[..|gone| - 1]);
      WithoutAbsent(jobs, gone[|gone| - 1].id);
    }
  }

  lemma {:induction false} LegacyMembers(jobs: seq<Job>)
    ensures forall g :: 0 <= g < |LegacyJobs(jobs)| ==> LegacyJobs(jobs)[g] in jobs
    ensures |LegacyJobs(jobs)| + |Kept(jobs)| == |jobs|
  {
    if jobs != [] { LegacyMembers(jobs[..|jobs| - 1]); }
  }

  /** Removing the legacy jobs of a list leaves the others. */
  lemma {:induction false} RemovingLegacyKeepsOthers(jobs: seq<Job>)
    requires DistinctIds(jobs)
    ensures WithoutAll(jobs, LegacyJobs(jobs)) == Kept(jobs)
  {
    if jobs != [] {
      var init, last := jobs[..|jobs| - 1], jobs[|jobs| - 1];
      var gone := LegacyJobs(init);
      RemovingLegacyKeepsOthers(init);
      LegacyMembers(init);
      assert jobs == init + [last];
      WithoutAllAppend(init, [last], gone);
      WithoutAllAbsent([last], gone);
      if Legacy(last) {
        assert LegacyJobs(jobs)[..|gone|] == gone;
        WithoutAppend(Kept(init), [last], last.id);
        KeptMembers(init);
        WithoutAbsent(Kept(init), last.id);
        assert Without([last], last.id) == [];
      } else {
        assert LegacyJobs(jobs) == gone;
      }
    }
  }

  /** Exactly the jobs that are not legacy remain. */
  lemma {:induction false} KeptMembers(jobs: seq<Job>)
    ensures forall k :: 0 <= k < |Kept(jobs)| ==> Kept(jobs)[k] in jobs && !Legacy(Kept(jobs)[k])
    ensures forall k :: 0 <= k < |jobs| && !Legacy(jobs[k]) ==> jobs[k] in Kept(jobs)
  {
    if jobs != [] { KeptMembers(jobs[..|jobs| - 1]); }
  }

  /** Removing a page's legacy jobs leaves what is before and after the page where it was. */
  lemma PageRemoved(front: seq<Job>, page: seq<Job>, back: seq<Job>)
    requires DistinctIds(front + page + back)
    ensures WithoutAll(front + page + back, LegacyJobs(page)) == front + Kept(page) + back
  {
    var all, gone := front + page + back, LegacyJobs(page);
    LegacyMembers(page);
    Apart(front, page, back);
    WithoutAllAppend(front + page, back, gone);
    WithoutAllAppend(front, page, gone);
    WithoutAllAbsent(front, gone);
    WithoutAllAbsent(back, gone);
    RemovingLegacyKeepsOthers(page);
  }

  lemma Apart(front: seq<Job>, page: seq<Job>, back: seq<Job>)
    requires DistinctIds(front + page + back)
    ensures DistinctIds(page)
    ensures forall k, g :: 0 <= k < |front| && 0 <= g < |page| ==> front[k].id != page[g].id
    ensures forall k, g :: 0 <= k < |back| && 0 <= g < |page| ==> back[k].id != page[g].id
  {
    var all := front + page + back;
    forall i, j | 0 <= i < j < |page| ensures page[i].id != page[j].id {
      assert all[|front| + i] == page[i] && all[|front| + j] == page[j];
    }
    forall k, g | 0 <= k < |front| && 0 <= g < |page| ensures front[k].id != page[g].id {
      assert all[k] == front[k] && all[|front| + g] == page[g];
    }
    forall k, g | 0 <= k < |back| && 0 <= g < |page| ensures back[k].id != page[g].id {
      assert all[|front| + |page| + k] == back[k] && all[|front| + g] == page[g];
    }
  }

  lemma {:induction false} NoLegacyKeepsAll(jobs: seq<Job>)
    ensures LegacyJobs(jobs) == [] <==> Kept(jobs) == jobs
  {
    LegacyMembers(jobs);
    if LegacyJobs(jobs) == [] && jobs != [] { NoLegacyKeepsAll(jobs[..|jobs| - 1]); }
  }

  lemma {:induction false} WithoutShrinks(jobs: seq<Job>, id: nat)
    requires DistinctIds(jobs)
    ensures DistinctIds(Without(jobs, id))
    ensures forall k :: 0 <= k < |Without(jobs, id)| ==> Without(jobs, id)[k] in jobs
  {
    if jobs != [] { WithoutShrinks(jobs[..|jobs| - 1], id); }
  }

  lemma {:induction false} WithoutAllShrinks(jobs: seq<Job>, gone: seq<Job>)
    requires DistinctIds(jobs)
    ensures DistinctIds(WithoutAll(jobs, gone))
    ensures forall k :: 0 <= k < |WithoutAll(jobs, gone)| ==> WithoutAll(jobs, gone)[k] in jobs
  {
    if gone != [] {
      WithoutAllShrinks(jobs, gone[..|gone| - 1]);
      WithoutShrinks(WithoutAll(jobs, gone[..|gone| - 1]), gone[|gone| - 1].id);
    }
  }

  // ----- the purge -----

  datatype ListName = Wait | Delayed | Prioritized

  type Lists = map<ListName, seq<Job>>

  predicate AllLists(jobs: Lists) {
    Wait in jobs && Delayed in jobs && Prioritized in jobs
  }

  /** A job has one id and is on one list. */
  predicate OneListEach(jobs: Lists) {
    && (forall s :: s in jobs ==> DistinctIds(jobs[s]))
    && forall s, t, i, j :: s in jobs && t in jobs && s != t && 0 <= i < |jobs[s]| && 0 <= j < |jobs[t]| ==> jobs[s][i].id != jobs[t][j].id
  }

  /** No legacy job stands before `start`, and `goal` is what should remain. */
  predicate CleanUpTo(list: seq<Job>, start: nat, goal: seq<Job>) {
    start <= |list| && Kept(list[..start]) == list[..start] && Kept(list) == goal
  }

  class Queue {
    var jobs: Lists

    constructor (jobs: Lists)
      ensures this.jobs == jobs
    {
      this.jobs := jobs;
    }

    method Remove(id: nat)
      modifies this
      ensures jobs == map s | s in old(jobs) :: Without(old(jobs)[s], id)
    {
      jobs := map s | s in jobs :: Without(jobs[s], id);
    }

    method RemoveAll(gone: seq<Job>)
      modifies this
      ensures jobs == map s | s in old(jobs) :: WithoutAll(old(jobs)[s], gone)
    {
      var n := 0;
      while n < |gone|
        invariant 0 <= n <= |gone|
        invariant jobs == map s | s in old(jobs) :: WithoutAll(old(jobs)[s], gone[..n])
      {
        assert gone[..n + 1][..n] == gone[..n];
        Remove(gone[n].id);
        n := n + 1;
      }
      assert gone[..n] == gone;
    }

    /** One page: its legacy jobs go, everything else on every list stays in place. */
    method PurgePage(state: ListName, start: nat) returns (size: nat, removed: nat)
      requires state in jobs && OneListEach(jobs) && start <= |jobs[state]|
      modifies this
      ensures size == |Page(old(jobs)[state], start)| && removed == |LegacyJobs(Page(old(jobs)[state], start))|
      ensures jobs == old(jobs)[state := AfterPage(old(jobs)[state], start)] && OneListEach(jobs)
    {
      var page := Page(jobs[state], start);
      var legacyJobs := LegacyJobs(page);
      PageSpec(jobs, state, start);
      RemoveAll(legacyJobs);
      return |page|, |legacyJobs|;
    }

    /** One round of the loop: whether it was the last, and where the next page starts. */
    method PurgeRound(state: ListName, start: nat, ghost goal: seq<Job>) returns (last: bool, next: nat)
      requires state in jobs && OneListEach(jobs) && CleanUpTo(jobs[state], start, goal)
      modifies this
      ensures state in jobs && jobs == old(jobs)[state := jobs[state]] && OneListEach(jobs)
      ensures if last then jobs[state] == goal else CleanUpTo(jobs[state], next, goal) && |jobs[state]| - next < |old(jobs)[state]| - start
    {
      ghost var list := jobs[state];
      var size, removed := PurgePage(state, start);
      PageShrinks(list, start);
      if size < PAGE {
        ShortPageIsLast(list, start);
        return true, start;
      }
      PageKeepsRest(list, start);
      if removed == 0 { CleanPageAdvances(list, start); }
      return false, if removed == 0 then start + size else start;
    }

    /** The paging loop on one list, although it deletes from the list it pages through: it ends, and exactly the
        jobs that are not legacy remain, in their order. */
    method PurgeList(state: ListName)
      requires state in jobs && OneListEach(jobs)
      modifies this
      ensures jobs == old(jobs)[state := Kept(old(jobs)[state])] && OneListEach(jobs)
    {
      ghost var was, goal := jobs, Kept(jobs[state]);
      var start: nat, last := 0, false;
      while !last
        invariant state in jobs && jobs == was[state := jobs[state]] && OneListEach(jobs)
        invariant if last then jobs[state] == goal else CleanUpTo(jobs[state], start, goal)
        decreases if last then -1 else |jobs[state]| - start
      {
        last, start := PurgeRound(state, start, goal);
      }
    }

    method RemovePendingLegacyJobs()
      requires AllLists(jobs) && OneListEach(jobs)
      modifies this
      ensures AllLists(jobs) && jobs.Keys == old(jobs).Keys
      ensures jobs[Wait] == Kept(old(jobs)[Wait]) && jobs[Delayed] == Kept(old(jobs)[Delayed]) && jobs[Prioritized] == Kept(old(jobs)[Prioritized])
    {
      PurgeList(Wait);
      PurgeList(Delayed);
      PurgeList(Prioritized);
    }
  }

  function AfterPage(list: seq<Job>, start: nat): seq<Job>
    requires start <= |list|
  {
    list[..start] + Kept(Page(list, start)) + list[start + |Page(list, start)|..]
  }

  lemma PageSpec(jobs: Lists, state: ListName, start: nat)
    requires OneListEach(jobs) && state in jobs && start <= |jobs[state]|
    ensures (map s | s in jobs :: WithoutAll(jobs[s], LegacyJobs(Page(jobs[state], start)))) == jobs[state := AfterPage(jobs[state], start)]
    ensures OneListEach(jobs[state := AfterPage(jobs[state], start)])
  {
    var list := AfterPage(jobs[state], start);
    var gone := LegacyJobs(Page(jobs[state], start));
    OwnList(jobs[state], start);
    forall s | s in jobs && s != state ensures WithoutAll(jobs[s], gone) == jobs[s] { OtherList(jobs, s, state, start); }
    RemovingKeepsOneListEach(jobs, gone);
    OnlyOneChanges(jobs, state, gone, list);
  }

  lemma OnlyOneChanges(jobs: Lists, state: ListName, gone: seq<Job>, list: seq<Job>)
    requires state in jobs && WithoutAll(jobs[state], gone) == list
    requires forall s :: s in jobs && s != state ==> WithoutAll(jobs[s], gone) == jobs[s]
    ensures (map s | s in jobs :: WithoutAll(jobs[s], gone)) == jobs[state := list]
  {
  }

  lemma PageParts(list: seq<Job>, start: nat)
    requires start <= |list|
    ensures start + |Page(list, start)| <= |list|
    ensures list == list[..start] + Page(list, start) + list[start + |Page(list, start)|..]
    ensures |Page(list, start)| < PAGE ==> start + |Page(list, start)| == |list|
  {
  }

  lemma OwnList(list: seq<Job>, start: nat)
    requires DistinctIds(list) && start <= |list|
    ensures WithoutAll(list, LegacyJobs(Page(list, start))) == AfterPage(list, start)
  {
    PageParts(list, start);
    PageRemoved(list[..start], Page(list, start), list[start + |Page(list, start)|..]);
  }

  /** What should remain never changes. */
  lemma PageKeepsRest(list: seq<Job>, start: nat)
    requires start <= |list|
    ensures Kept(AfterPage(list, start)) == Kept(list)
  {
    PageParts(list, start);
    PageKeepsGoal(list[..start], Page(list, start), list[start + |Page(list, start)|..]);
  }

  lemma PageShrinks(list: seq<Job>, start: nat)
    requires start <= |list|
    ensures start <= |AfterPage(list, start)| == |list| - |LegacyJobs(Page(list, start))| && AfterPage(list, start)[..start] == list[..start]
  {
    PageParts(list, start);
    LegacyMembers(Page(list, start));
  }

  lemma ShortPageIsLast(list: seq<Job>, start: nat)
    requires start <= |list| && Kept(list[..start]) == list[..start] && |Page(list, start)| < PAGE
    ensures AfterPage(list, start) == Kept(list)
  {
    PageParts(list, start);
    PartsStep(list[..start], Page(list, start), list[start + |Page(list, start)|..]);
  }

  lemma CleanPageAdvances(list: seq<Job>, start: nat)
    requires start <= |list| && Kept(list[..start]) == list[..start] && |LegacyJobs(Page(list, start))| == 0
    ensures var next := start + |Page(list, start)|;
      AfterPage(list, start) == list && next <= |list| && Kept(list[..next]) == list[..next]
  {
    var page := Page(list, start);
    PageParts(list, start);
    NoLegacyKeepsAll(page);
    assert list[..start + |page|] == list[..start] + page;
    PartsStep(list[..start], page, list[start + |page|..]);
  }

  lemma PartsStep(front: seq<Job>, page: seq<Job>, back: seq<Job>)
    requires Kept(front) == front
    ensures (front + Kept(page) + back)[..|front|] == front
    ensures back == [] ==> front + Kept(page) + back == Kept(front + page + back)
    ensures Kept(page) == page ==> Kept(front + page) == front + page
  {
    KeptAppend(front, page);
    assert front + page + [] == front + page && front + Kept(page) + [] == front + Kept(page);
  }

  lemma OtherList(jobs: Lists, s: ListName, state: ListName, start: nat)
    requires OneListEach(jobs) && s in jobs && state in jobs && s != state && start <= |jobs[state]|
    ensures WithoutAll(jobs[s], LegacyJobs(Page(jobs[state], start))) == jobs[s]
  {
    var page := Page(jobs[state], start);
    var gone := LegacyJobs(page);
    LegacyMembers(page);
    forall k, g | 0 <= k < |jobs[s]| && 0 <= g < |gone| ensures jobs[s][k].id != gone[g].id {
      assert gone[g] in page;
      assert gone[g] in jobs[state];
    }
    WithoutAllAbsent(jobs[s], gone);
  }

  lemma RemovingKeepsOneListEach(jobs: Lists, gone: seq<Job>)
    requires OneListEach(jobs)
    ensures OneListEach(map s | s in jobs :: WithoutAll(jobs[s], gone))
  {
    var after := map s | s in jobs :: WithoutAll(jobs[s], gone);
    forall s | s in after ensures DistinctIds(after[s]) && forall k :: 0 <= k < |after[s]| ==> after[s][k] in jobs[s] {
      WithoutAllShrinks(jobs[s], gone);
    }
    forall s, t, i, j | s in after && t in after && s != t && 0 <= i < |after[s]| && 0 <= j < |after[t]|
      ensures after[s][i].id != after[t][j].id
    {
      assert after[s][i] in jobs[s] && after[t][j] in jobs[t];
    }
  }

  lemma PageKeepsGoal(front: seq<Job>, page: seq<Job>, back: seq<Job>)
    ensures Kept(front + Kept(page) + back) == Kept(front + page + back)
  {
    KeptAppend(front + Kept(page), back);
    KeptAppend(front + page, back);
    KeptAppend(front, Kept(page));
    KeptAppend(front, page);
    KeptTwice(page);
  }

  lemma {:induction false} KeptTwice(jobs: seq<Job>)
    ensures Kept(Kept(jobs)) == Kept(jobs)
  {
    if jobs != [] {
      var init, last := jobs[..|jobs| - 1], jobs[|jobs| - 1];
      KeptTwice(init);
      KeptAppend(Kept(init), if Legacy(last) then [] else [last]);
    }
  }
}
