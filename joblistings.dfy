/**
 * The job-listings browser: a case-insensitive search over the fetched jobs
 * and a "load more" window over the matches.
 */
module JobListings {
  import opened Wrappers
  import opened JsText

  /** One scraped job posting. */
  datatype Job = Job(id: int, title: string, company: string, source: string, date: string, url: string)

  /** Number of jobs shown before any search or "load more". */
  const InitialVisible: nat := 25
  /** Jobs added by each "load more", and the window a non-empty search resets to. */
  const PageSize: nat := 50

  /**
   * The filter a job passes for an already lower-cased query: the query occurs
   * in its lower-cased title, company or source, so it is no longer than that
   * field.
   */
  predicate Matches(job: Job, lowerQuery: string): (matched: bool)
    ensures matched ==> |lowerQuery| <= |job.title| || |lowerQuery| <= |job.company| || |lowerQuery| <= |job.source|
  {
    || Includes(ToLower(job.title), lowerQuery)
    || Includes(ToLower(job.company), lowerQuery)
    || Includes(ToLower(job.source), lowerQuery)
  }

  /** The filter ignores the case of the job's fields: lower-casing them first changes nothing. */
  lemma MatchesIgnoresFieldCase(job: Job, lowerQuery: string)
    ensures Matches(job, lowerQuery)
        == Matches(job.(title := ToLower(job.title), company := ToLower(job.company), source := ToLower(job.source)), lowerQuery)
  {
    ToLowerIdempotent(job.title);
    ToLowerIdempotent(job.company);
    ToLowerIdempotent(job.source);
  }

  /** `jobs.filter(job => Matches(job, lowerQuery))`. */
  function Search(jobs: seq<Job>, lowerQuery: string): (r: seq<Job>)
    ensures |r| <= |jobs|
  {
    if jobs == [] then []
    else (if Matches(jobs[0], lowerQuery) then [jobs[0]] else []) + Search(jobs[1..], lowerQuery)
  }

  /** `xs` can be obtained from `ys` by deleting elements, keeping the order of the rest. */
  ghost predicate IsSubsequence<T>(xs: seq<T>, ys: seq<T>)
    decreases |ys|
  {
    if xs == [] then true
    else if ys == [] then false
    else (xs[0] == ys[0] && IsSubsequence(xs[1..], ys[1..])) || IsSubsequence(xs, ys[1..])
  }

  lemma {:induction false} SubsequenceReflexive<T>(xs: seq<T>)
    ensures IsSubsequence(xs, xs)
  {
    if xs != [] {
      SubsequenceReflexive(xs[1..]);
    }
  }

  /** The search result lists some of the jobs, in their original order. */
  lemma {:induction false} SearchIsSubsequence(jobs: seq<Job>, lowerQuery: string)
    ensures IsSubsequence(Search(jobs, lowerQuery), jobs)
  {
    if jobs != [] {
      SearchIsSubsequence(jobs[1..], lowerQuery);
      var rest := Search(jobs[1..], lowerQuery);
      if Matches(jobs[0], lowerQuery) {
        assert Search(jobs, lowerQuery) == [jobs[0]] + rest;
        assert ([jobs[0]] + rest)[1..] == rest;
      } else {
        assert Search(jobs, lowerQuery) == rest;
      }
    }
  }

  /**
   * A job occurs in the search result exactly as often as in the job list when
   * it matches, and not at all otherwise; in particular it is kept iff it matches.
   */
  lemma {:induction false} SearchCount(jobs: seq<Job>, lowerQuery: string, job: Job)
    ensures multiset(Search(jobs, lowerQuery))[job]
         == if Matches(job, lowerQuery) then multiset(jobs)[job] else 0
  {
    if jobs != [] {
      SearchCount(jobs[1..], lowerQuery, job);
      assert jobs == [jobs[0]] + jobs[1..];
    }
  }

  /** The kept-iff-matching rule, in terms of membership. */
  lemma SearchKeepsExactlyMatches(jobs: seq<Job>, lowerQuery: string, job: Job)
    ensures job in Search(jobs, lowerQuery) <==> job in jobs && Matches(job, lowerQuery)
  {
    SearchCount(jobs, lowerQuery, job);
  }

  /** The listing component's state. */
  class JobListings {
    /** Every job fetched from the backend. */
    var jobs: seq<Job>
    /** The jobs that passed the last search. */
    var filteredJobs: seq<Job>
    /** The size of the display window. */
    var visibleJobs: nat
    var searchQuery: string

    /** The filtered jobs are drawn from the fetched jobs in order; the window grows in steps of 25. */
    ghost predicate Valid()
      reads this
    {
      && IsSubsequence(filteredJobs, jobs)
      && visibleJobs >= InitialVisible
      && visibleJobs % InitialVisible == 0
    }

    constructor ()
      ensures Valid()
      ensures jobs == [] && filteredJobs == [] && visibleJobs == InitialVisible && searchQuery == ""
    {
      jobs, filteredJobs, visibleJobs, searchQuery := [], [], InitialVisible, "";
    }

    /** The successful fetch: both lists become the fetched data. */
    method ReceiveJobs(data: seq<Job>)
      requires Valid()
      modifies this
      ensures Valid()
      ensures jobs == data && filteredJobs == data
      ensures visibleJobs == old(visibleJobs) && searchQuery == old(searchQuery)
    {
      jobs := data;
      filteredJobs := data;
      SubsequenceReflexive(data);
    }

    /**
     * `handleSearch`: a blank query restores every job and keeps the window;
     * any other query keeps the jobs matching its lower-cased form and resets
     * the window to 50.  The fetched jobs never change.
     */
    method HandleSearch(query: string)
      requires Valid()
      modifies this
      ensures Valid()
      ensures searchQuery == query && jobs == old(jobs)
      ensures IsBlank(query) ==> filteredJobs == jobs && visibleJobs == old(visibleJobs)
      ensures !IsBlank(query) ==> filteredJobs == Search(jobs, ToLower(query)) && visibleJobs == PageSize
    {
      searchQuery := query;
      if IsBlank(query) {
        filteredJobs := jobs;
        SubsequenceReflexive(jobs);
        return;
      }
      var lowercaseQuery := ToLower(query);
      filteredJobs := Search(jobs, lowercaseQuery);
      SearchIsSubsequence(jobs, lowercaseQuery);
      visibleJobs := PageSize;
    }

    /** `loadMoreJobs`: the window grows by exactly 50. */
    method LoadMoreJobs()
      requires Valid()
      modifies this
      ensures Valid()
      ensures visibleJobs == old(visibleJobs) + PageSize
      ensures jobs == old(jobs) && filteredJobs == old(filteredJobs) && searchQuery == old(searchQuery)
    {
      visibleJobs := visibleJobs + PageSize;
    }

    /** The cards rendered: the first `visibleJobs` filtered jobs, or all of them when fewer. */
    function Displayed(): (r: seq<Job>)
      reads this
      ensures |r| == Min(visibleJobs, |filteredJobs|)
      ensures forall i :: 0 <= i < |r| ==> r[i] == filteredJobs[i]
    {
      filteredJobs[..Min(visibleJobs, |filteredJobs|)]
    }

    /** The number in "Showing N of M jobs". */
    function ShowingCount(): (n: nat)
      reads this
      ensures n <= visibleJobs && n <= |filteredJobs|
      ensures n == visibleJobs || n == |filteredJobs|
    {
      Min(visibleJobs, |filteredJobs|)
    }

    /** The "no results" panel replaces the list when nothing passed the search, that is, exactly when no card is drawn. */
    predicate ShowsNoResults(): (empty: bool)
      requires Valid()
      reads this
      ensures empty <==> Displayed() == []
    {
      |filteredJobs| == 0
    }

    /** The "Load More" button: offered exactly when some filtered job is not displayed. */
    predicate ShowsLoadMore(): (offered: bool)
      reads this
      ensures offered <==> |Displayed()| < |filteredJobs|
    {
      |filteredJobs| != 0 && visibleJobs < |filteredJobs|
    }

    /** The "Showing" count is the number of cards rendered. */
    lemma ShowingCountIsDisplayed()
      ensures ShowingCount() == |Displayed()|
    {
    }
  }
}
