/**
 * The recommendations page: after a one-second loading skeleton it lists the
 * first five jobs (all of them once "View More" was pressed), marks the card
 * whose id is the selected job's, and selects a job when its card asks to.
 */
module Recommendations {
  import opened Wrappers
  import opened JobCard

  /** Cards listed before "View More" is pressed. */
  const PreviewCount: nat := 5

  /** The page's state; `jobs` is the (static) list it shows. */
  class RecommendationsPage {
    const jobs: seq<Job>
    var selectedJob: Option<Job>
    var loading: bool
    var showAll: bool

    constructor (jobs: seq<Job>)
      ensures this.jobs == jobs
      ensures selectedJob.None? && loading && !showAll
    {
      this.jobs := jobs;
      selectedJob, loading, showAll := None, true, false;
    }

    /** The loading timer firing. */
    method FinishLoading()
      modifies this
      ensures !loading
      ensures selectedJob == old(selectedJob) && showAll == old(showAll)
    {
      loading := false;
    }

    /** `jobs.slice(0, showAll ? jobs.length : 5)`: a prefix of the jobs, in order. */
    function ShownJobs(): (shown: seq<Job>)
      reads this
      ensures |shown| == (if showAll then |jobs| else Min(PreviewCount, |jobs|))
      ensures shown == jobs[..|shown|]
    {
      if showAll then jobs else jobs[..Min(PreviewCount, |jobs|)]
    }

    /** The "View More" button: hidden while loading, and once loaded shown exactly when some job is not listed. */
    predicate ViewMoreVisible(): (visible: bool)
      reads this
      ensures loading ==> !visible
      ensures !loading ==> (visible <==> |ShownJobs()| < |jobs|)
    {
      !loading && |jobs| > PreviewCount && !showAll
    }

    /** `selectedJob?.id === job.id`: the selected job's own card is marked, and no card is before a selection. */
    predicate IsSelected(job: Job): (marked: bool)
      reads this
      ensures selectedJob == Some(job) ==> marked
      ensures selectedJob.None? ==> !marked
    {
      selectedJob.Some? && selectedJob.value.id == job.id
    }

    /** Cards are marked by id: two marked cards carry the same id. */
    lemma SelectionById(a: Job, b: Job)
      ensures IsSelected(a) && IsSelected(b) ==> a.id == b.id
    {
    }

    /** "View More": from then on every job is listed. */
    method ViewMore()
      modifies this
      ensures showAll && ShownJobs() == jobs
      ensures selectedJob == old(selectedJob) && loading == old(loading)
    {
      showAll := true;
    }

    /** A card's `onSelect`. */
    method SelectJob(job: Job)
      modifies this
      ensures selectedJob == Some(job) && IsSelected(job)
      ensures loading == old(loading) && showAll == old(showAll)
    {
      selectedJob := Some(job);
    }

    /**
     * A click on a card: the card learns whether it is selected, and every
     * `onSelect` it calls selects its job.
     */
    method ClickCard(card: JobCardState, target: ClickTarget)
      modifies this, card
      ensures target == CardBody || target == ApplyButton ==> selectedJob == Some(card.job)
      ensures target == ExpandButton ==>
        selectedJob == (if old(IsSelected(card.job)) then old(selectedJob) else Some(card.job))
      ensures target == ShowMoreButton ==> selectedJob == old(selectedJob)
      ensures target == ExpandButton ==> card.expanded == !old(card.expanded)
      ensures target != ExpandButton ==> card.expanded == old(card.expanded)
      ensures loading == old(loading) && showAll == old(showAll)
    {
      var calls := card.Click(target, IsSelected(card.job));
      if |calls| == 1 {
        SelectJob(calls[0]);
      }
    }
  }

  /** The sample dataset has five jobs: they are all listed and "View More" never shows. */
  lemma FiveJobsFitThePreview(page: RecommendationsPage)
    requires |page.jobs| == 5 && !page.loading
    ensures page.ShownJobs() == page.jobs
    ensures !page.ViewMoreVisible()
  {
  }
}
