/** The jobs page: a search box and a set of job-type checkboxes narrow the
    list of job postings. */
module Jobs {
  import opened Lists
  import opened Text

  datatype Job = Job(
    id: int,
    title: string,
    company: string,
    location: string,
    jobType: string,
    postedAt: string,
    skills: seq<string>)

  /** The search half of the filter: the query, ignoring case, occurs in the
      title, the company or some skill. */
  predicate TextMatches(job: Job, query: string)
  {
    || MatchesQuery(job.title, query)
    || MatchesQuery(job.company, query)
    || exists k :: 0 <= k < |job.skills| && MatchesQuery(job.skills[k], query)
  }

  /** The type half of the filter: nothing selected, or the job's type selected. */
  predicate TypeMatches(job: Job, selected: seq<string>)
  {
    |selected| == 0 || job.jobType in selected
  }

  /** `filteredJobs`: the postings that pass both halves, in their original order. */
  function FilterJobs(jobs: seq<Job>, query: string, selected: seq<string>): (r: seq<Job>)
    ensures IsSublist(r, jobs)
    ensures forall i :: 0 <= i < |r| ==> TextMatches(r[i], query) && TypeMatches(r[i], selected)
    ensures forall i ::
              0 <= i < |jobs| && TextMatches(jobs[i], query) && TypeMatches(jobs[i], selected) ==>
              jobs[i] in r
  {
    Filter(jobs, job => TextMatches(job, query) && TypeMatches(job, selected))
  }

  /** The search half stated with the reference meaning of substring. */
  ghost predicate TextMatchesSpec(job: Job, query: string)
  {
    || Occurs(Lower(query), Lower(job.title))
    || Occurs(Lower(query), Lower(job.company))
    || exists k :: 0 <= k < |job.skills| && Occurs(Lower(query), Lower(job.skills[k]))
  }

  lemma TextMatchesMeaning(job: Job, query: string)
    ensures TextMatches(job, query) <==> TextMatchesSpec(job, query)
  {
    ContainsMeansOccurs(Lower(job.title), Lower(query));
    ContainsMeansOccurs(Lower(job.company), Lower(query));
    forall k | 0 <= k < |job.skills|
      ensures MatchesQuery(job.skills[k], query) <==> Occurs(Lower(query), Lower(job.skills[k]))
    {
      ContainsMeansOccurs(Lower(job.skills[k]), Lower(query));
    }
  }

  /** A posting is shown exactly when the lower-cased query is a substring of
      its lower-cased title, company or one of its skills, and the selection
      is empty or holds its type. */
  lemma FilterJobsKeepsExactly(jobs: seq<Job>, query: string, selected: seq<string>, job: Job)
    ensures job in FilterJobs(jobs, query, selected) <==>
      job in jobs && TextMatchesSpec(job, query) && (selected == [] || job.jobType in selected)
  {
    TextMatchesMeaning(job, query);
  }

  /** With nothing selected the type filter restricts nothing. */
  lemma EmptySelectionKeepsAllTypes(jobs: seq<Job>, query: string)
    ensures FilterJobs(jobs, query, []) == Filter(jobs, job => TextMatches(job, query))
  {
    FilterCongruent(jobs,
      job => TextMatches(job, query) && TypeMatches(job, []),
      job => TextMatches(job, query));
  }

  /** An empty query with nothing selected shows every posting. */
  lemma EmptySearchShowsAll(jobs: seq<Job>)
    ensures FilterJobs(jobs, "", []) == jobs
  {
    forall job | job in jobs ensures TextMatches(job, "") {
      EmptyQueryMatches(job.title);
    }
    FilterKeepsAll(jobs, job => TextMatches(job, "") && TypeMatches(job, []));
  }

  /** Queries that differ only in letter case show the same postings. */
  lemma FilterJobsIgnoresCase(jobs: seq<Job>, q1: string, q2: string, selected: seq<string>)
    requires Lower(q1) == Lower(q2)
    ensures FilterJobs(jobs, q1, selected) == FilterJobs(jobs, q2, selected)
  {
    FilterCongruent(jobs,
      job => TextMatches(job, q1) && TypeMatches(job, selected),
      job => TextMatches(job, q2) && TypeMatches(job, selected));
  }

  /** The `JobsPage` component's state; `jobs` is its hard-coded posting list. */
  class JobsPage {
    const jobs: seq<Job>
    var searchQuery: string
    var selectedJobTypes: seq<string>

    constructor (postings: seq<Job>)
      ensures jobs == postings
      ensures searchQuery == "" && selectedJobTypes == []
    {
      jobs := postings;
      searchQuery := "";
      selectedJobTypes := [];
    }

    function FilteredJobs(): seq<Job>
      reads this
    {
      FilterJobs(jobs, searchQuery, selectedJobTypes)
    }

    /** The search box's change handler. */
    method SetSearchQuery(text: string)
      modifies this`searchQuery
      ensures searchQuery == text
    {
      searchQuery := text;
    }

    /** A type checkbox, or the remove button on a selected type's badge. */
    method ToggleJobType(jobType: string)
      modifies this`selectedJobTypes
      ensures selectedJobTypes == Toggle(old(selectedJobTypes), jobType)
      ensures jobType in selectedJobTypes <==> jobType !in old(selectedJobTypes)
      ensures old(NoDup(selectedJobTypes)) ==> NoDup(selectedJobTypes)
    {
      assert NoDup(selectedJobTypes) ==> NoDup(Toggle(selectedJobTypes, jobType)) by {
        if NoDup(selectedJobTypes) { ToggleNoDup(selectedJobTypes, jobType); }
      }
      if jobType in selectedJobTypes {
        selectedJobTypes := Without(selectedJobTypes, jobType);
      } else {
        selectedJobTypes := selectedJobTypes + [jobType];
      }
    }

    /** The "Clear all" button. */
    method ClearAll()
      modifies this`selectedJobTypes
      ensures selectedJobTypes == []
    {
      selectedJobTypes := [];
    }
  }
}
