/**
 * The job list of `Schedule.tsx`: the jobs, the site-manager and crew-member
 * filters, the job dialog's open/selected state, the filtered view and its
 * per-day slices, and the de-duplicated names offered as filters. Calendar
 * days are their "yyyy-MM-dd" keys.
 */
module Scheduling {
  import opened Options
  import Seqs
  import opened Jobs

  /** `job.crewMembers.some(cm => filter.includes(cm))` */
  predicate SharesCrew(job: Job, crewFilter: seq<string>)
  {
    exists k :: 0 <= k < |job.crewMembers| && job.crewMembers[k] in crewFilter
  }

  /** An empty filter passes everything; a non-empty one needs a match. */
  predicate PassesFilters(job: Job, managerFilter: seq<string>, crewFilter: seq<string>)
  {
    && (|managerFilter| == 0 || job.siteManager in managerFilter)
    && (|crewFilter| == 0 || SharesCrew(job, crewFilter))
  }

  /** `filteredJobs` */
  function FilterJobs(jobs: seq<Job>, managerFilter: seq<string>, crewFilter: seq<string>): seq<Job>
  {
    Seqs.Filter(jobs, (j: Job) => PassesFilters(j, managerFilter, crewFilter))
  }

  /**
   * A job is shown iff it is listed and passes both filters, as many times
   * as it is listed; the shown jobs keep their order; with both filters
   * empty every job is shown.
   */
  lemma FilterJobsSpec(jobs: seq<Job>, managerFilter: seq<string>, crewFilter: seq<string>)
    ensures forall j :: j in FilterJobs(jobs, managerFilter, crewFilter) <==>
      j in jobs && PassesFilters(j, managerFilter, crewFilter)
    ensures forall j ::
      multiset(FilterJobs(jobs, managerFilter, crewFilter))[j] ==
      (if PassesFilters(j, managerFilter, crewFilter) then multiset(jobs)[j] else 0)
    ensures Seqs.IsSubseq(FilterJobs(jobs, managerFilter, crewFilter), jobs)
    ensures managerFilter == [] && crewFilter == [] ==> FilterJobs(jobs, managerFilter, crewFilter) == jobs
  {
    Seqs.FilterCount(jobs, j => PassesFilters(j, managerFilter, crewFilter));
    Seqs.FilterIsSubseq(jobs, j => PassesFilters(j, managerFilter, crewFilter));
    if managerFilter == [] && crewFilter == [] {
      Seqs.FilterKeepsAll(jobs, j => PassesFilters(j, managerFilter, crewFilter));
    }
  }

  /** `getJobsForDate`: the filtered jobs on the given day, in order. */
  function JobsOnDate(jobs: seq<Job>, managerFilter: seq<string>, crewFilter: seq<string>, day: string): seq<Job>
  {
    Seqs.Filter(FilterJobs(jobs, managerFilter, crewFilter), (j: Job) => j.date == day)
  }

  /** A day's jobs are the listed jobs that pass the filters and fall on that day, in list order. */
  lemma JobsOnDateSpec(jobs: seq<Job>, managerFilter: seq<string>, crewFilter: seq<string>, day: string)
    ensures JobsOnDate(jobs, managerFilter, crewFilter, day) ==
      Seqs.Filter(jobs, (j: Job) => PassesFilters(j, managerFilter, crewFilter) && j.date == day)
    ensures forall j :: j in JobsOnDate(jobs, managerFilter, crewFilter, day) ==>
      j.date == day && PassesFilters(j, managerFilter, crewFilter)
  {
    Seqs.FilterFilter(jobs, (j: Job) => PassesFilters(j, managerFilter, crewFilter), (j: Job) => j.date == day,
                      (j: Job) => PassesFilters(j, managerFilter, crewFilter) && j.date == day);
  }

  /** `jobs.map(j => j.id === job.id ? job : j)` */
  function ReplaceById(jobs: seq<Job>, job: Job): (r: seq<Job>)
    ensures |r| == |jobs|
    ensures forall i :: 0 <= i < |r| ==> r[i] == if jobs[i].id == job.id then job else jobs[i]
  {
    seq(|jobs|, i requires 0 <= i < |jobs| => if jobs[i].id == job.id then job else jobs[i])
  }

  /** Replacing is idempotent, keeps every id in place, and is the identity for an unknown id. */
  lemma ReplaceByIdProperties(jobs: seq<Job>, job: Job)
    ensures ReplaceById(ReplaceById(jobs, job), job) == ReplaceById(jobs, job)
    ensures forall i :: 0 <= i < |jobs| ==> ReplaceById(jobs, job)[i].id == jobs[i].id
    ensures (forall i :: 0 <= i < |jobs| ==> jobs[i].id != job.id) ==> ReplaceById(jobs, job) == jobs
  {
  }

  /** `jobs.flatMap(j => j.crewMembers)` */
  function AllCrew(jobs: seq<Job>): seq<string>
  {
    if jobs == [] then [] else jobs[0].crewMembers + AllCrew(jobs[1..])
  }

  function Managers(jobs: seq<Job>): seq<string>
  {
    if jobs == [] then [] else [jobs[0].siteManager] + Managers(jobs[1..])
  }

  lemma {:induction false} AllCrewMembership(jobs: seq<Job>, name: string)
    ensures name in AllCrew(jobs) <==> exists i :: 0 <= i < |jobs| && name in jobs[i].crewMembers
  {
    if jobs != [] {
      AllCrewMembership(jobs[1..], name);
      if name in jobs[0].crewMembers {
        assert name in AllCrew(jobs);
      } else if name in AllCrew(jobs[1..]) {
        var i :| 0 <= i < |jobs[1..]| && name in jobs[1..][i].crewMembers;
        assert name in jobs[i + 1].crewMembers;
      } else {
        forall i | 0 <= i < |jobs|
          ensures name !in jobs[i].crewMembers
        {
          if i > 0 {
            assert jobs[i] == jobs[1..][i - 1];
          }
        }
      }
    }
  }

  lemma {:induction false} ManagersMembership(jobs: seq<Job>, name: string)
    ensures name in Managers(jobs) <==> exists i :: 0 <= i < |jobs| && jobs[i].siteManager == name
  {
    if jobs != [] {
      ManagersMembership(jobs[1..], name);
      if jobs[0].siteManager != name && name in Managers(jobs[1..]) {
        var i :| 0 <= i < |jobs[1..]| && jobs[1..][i].siteManager == name;
        assert jobs[i + 1].siteManager == name;
      } else if jobs[0].siteManager != name {
        forall i | 0 <= i < |jobs|
          ensures jobs[i].siteManager != name
        {
          if i > 0 {
            assert jobs[i] == jobs[1..][i - 1];
          }
        }
      }
    }
  }

  /** `Array.from(new Set(jobs.map(j => j.siteManager)))` */
  function UniqueSiteManagers(jobs: seq<Job>): seq<string>
  {
    Seqs.Dedup(Managers(jobs))
  }

  /** `Array.from(new Set(jobs.flatMap(j => j.crewMembers)))` */
  function UniqueCrewMembers(jobs: seq<Job>): seq<string>
  {
    Seqs.Dedup(AllCrew(jobs))
  }

  /**
   * The filter lists offer each manager (crew member) of some job exactly
   * once, in order of first appearance.
   */
  lemma UniqueListsSpec(jobs: seq<Job>, name: string)
    ensures Seqs.NoDuplicates(UniqueSiteManagers(jobs)) && Seqs.NoDuplicates(UniqueCrewMembers(jobs))
    ensures name in UniqueSiteManagers(jobs) <==> exists i :: 0 <= i < |jobs| && jobs[i].siteManager == name
    ensures name in UniqueCrewMembers(jobs) <==> exists i :: 0 <= i < |jobs| && name in jobs[i].crewMembers
    ensures forall a, b :: 0 <= a < b < |UniqueCrewMembers(jobs)| ==>
      Seqs.FirstIndex(AllCrew(jobs), UniqueCrewMembers(jobs)[a]) < Seqs.FirstIndex(AllCrew(jobs), UniqueCrewMembers(jobs)[b])
    ensures forall a, b :: 0 <= a < b < |UniqueSiteManagers(jobs)| ==>
      Seqs.FirstIndex(Managers(jobs), UniqueSiteManagers(jobs)[a]) < Seqs.FirstIndex(Managers(jobs), UniqueSiteManagers(jobs)[b])
  {
    ManagersMembership(jobs, name);
    AllCrewMembership(jobs, name);
    Seqs.DedupFirstOccurrenceOrder(Managers(jobs));
    Seqs.DedupFirstOccurrenceOrder(AllCrew(jobs));
  }

  /** The two seed jobs the page starts with. */
  function MockJobs(): seq<Job>
  {
    [ Job("1", "12", "Tree Removal", "2025-05-02", "Remove large oak tree from front yard",
          "10:00", "17:00", "Client A", "123 Street Auburn,US,21311", "Person A",
          ["Crew A", "Crew B"], false, false, false, None),
      Job("2", "15", "Stump Grinding", "2025-05-04", "Grind stumps in backyard",
          "10:00", "17:00", "Client B", "123 Street Auburn,US,21311", "Person A",
          ["Crew A", "Crew B"], false, false, false, None) ]
  }

  /** The page's state, apart from the month on display. */
  class SchedulePage {
    var jobs: seq<Job>
    var selectedDate: Option<string>
    var isModalOpen: bool
    var selectedJob: Option<Job>
    var filterSiteManagers: seq<string>
    var filterCrewMembers: seq<string>

    constructor ()
      ensures jobs == MockJobs() && selectedDate == None && !isModalOpen && selectedJob == None
      ensures filterSiteManagers == [] && filterCrewMembers == []
    {
      jobs := MockJobs();
      selectedDate := None;
      isModalOpen := false;
      selectedJob := None;
      filterSiteManagers := [];
      filterCrewMembers := [];
    }

    /** `handleDateClick`: the dialog opens to create a job on that day. */
    method DateClick(day: string)
      modifies this
      ensures selectedDate == Some(day) && selectedJob == None && isModalOpen
      ensures jobs == old(jobs)
      ensures filterSiteManagers == old(filterSiteManagers) && filterCrewMembers == old(filterCrewMembers)
    {
      selectedDate := Some(day);
      selectedJob := None;
      isModalOpen := true;
    }

    /** `handleJobClick`: the dialog opens to edit that job, on its day. */
    method JobClick(job: Job)
      modifies this
      ensures selectedJob == Some(job) && selectedDate == Some(job.date) && isModalOpen
      ensures jobs == old(jobs)
      ensures filterSiteManagers == old(filterSiteManagers) && filterCrewMembers == old(filterCrewMembers)
    {
      selectedJob := Some(job);
      selectedDate := Some(job.date);
      isModalOpen := true;
    }

    /** `handleCloseModal` */
    method CloseModal()
      modifies this
      ensures !isModalOpen && selectedJob == None
      ensures jobs == old(jobs) && selectedDate == old(selectedDate)
      ensures filterSiteManagers == old(filterSiteManagers) && filterCrewMembers == old(filterCrewMembers)
    {
      isModalOpen := false;
      selectedJob := None;
    }

    /**
     * `handleSaveJob`: editing replaces the jobs with the saved job's id;
     * creating appends the job under the new id `freshId`. The dialog closes
     * either way; the selected job is left as it was.
     */
    method SaveJob(job: Job, freshId: string)
      modifies this
      ensures old(selectedJob).Some? ==> jobs == ReplaceById(old(jobs), job)
      ensures old(selectedJob).None? ==> jobs == old(jobs) + [job.(id := freshId)]
      ensures |jobs| == |old(jobs)| + (if old(selectedJob).Some? then 0 else 1)
      ensures !isModalOpen && selectedJob == old(selectedJob) && selectedDate == old(selectedDate)
      ensures filterSiteManagers == old(filterSiteManagers) && filterCrewMembers == old(filterCrewMembers)
    {
      if selectedJob.Some? {
        jobs := ReplaceById(jobs, job);
      } else {
        jobs := jobs + [job.(id := freshId)];
      }
      isModalOpen := false;
    }

    /** `handleToggleSiteManager` */
    method ToggleSiteManager(name: string)
      modifies this
      ensures filterSiteManagers == Seqs.Toggle(old(filterSiteManagers), name)
      ensures name in filterSiteManagers <==> name !in old(filterSiteManagers)
      ensures jobs == old(jobs) && filterCrewMembers == old(filterCrewMembers)
      ensures selectedJob == old(selectedJob) && isModalOpen == old(isModalOpen) && selectedDate == old(selectedDate)
    {
      Seqs.ToggleMembership(filterSiteManagers, name);
      filterSiteManagers := Seqs.Toggle(filterSiteManagers, name);
    }

    /** `handleToggleCrewMember` */
    method ToggleCrewMember(name: string)
      modifies this
      ensures filterCrewMembers == Seqs.Toggle(old(filterCrewMembers), name)
      ensures name in filterCrewMembers <==> name !in old(filterCrewMembers)
      ensures jobs == old(jobs) && filterSiteManagers == old(filterSiteManagers)
      ensures selectedJob == old(selectedJob) && isModalOpen == old(isModalOpen) && selectedDate == old(selectedDate)
    {
      Seqs.ToggleMembership(filterCrewMembers, name);
      filterCrewMembers := Seqs.Toggle(filterCrewMembers, name);
    }
  }
}
