/**
 * One recommendation card: a coloured match-score badge, a logo or the
 * company's initial, and an expandable "why this job" section.  Clicking the
 * card selects the job; the expand button toggles the section (selecting the
 * job too when it is not selected yet) without the click reaching the card.
 * `onSelect` is recorded as the list of jobs it was called with.
 */
module JobCard {
  import opened Wrappers

  /** A recommended job as the card receives it; `logo` is `null` or a URL, `matchScore` any number. */
  datatype Job = Job(
    id: int,
    title: string,
    company: string,
    location: string,
    jobType: string,
    matchScore: real,
    shortDescription: string,
    matchReasons: seq<string>,
    logo: Option<string>)

  /** The badge colours. */
  datatype Tier = Green | Blue | Yellow

  const HighMatch: real := 85.0
  const GoodMatch: real := 70.0

  /** 85 and above is green, from 70 up to below 85 blue, below 70 yellow; scores may be fractional. */
  function MatchTier(score: real): (t: Tier)
    ensures t == Green <==> score >= HighMatch
    ensures t == Blue <==> GoodMatch <= score < HighMatch
    ensures t == Yellow <==> score < GoodMatch
  {
    if score >= HighMatch then Green else if score >= GoodMatch then Blue else Yellow
  }

  /** A higher score never gets a lower tier. */
  lemma TierMonotone(s1: real, s2: real)
    requires s1 <= s2
    ensures MatchTier(s1) == Green ==> MatchTier(s2) == Green
    ensures MatchTier(s1) == Blue ==> MatchTier(s2) != Yellow
  {
  }

  /** What the avatar square shows. */
  datatype Avatar = LogoImage(src: string) | Initial(text: string)

  /** A truthy logo is drawn as an image; otherwise `company.charAt(0)` is shown. */
  function CardAvatar(job: Job): (a: Avatar)
    ensures job.logo.Some? && job.logo.value != "" <==> a.LogoImage?
    ensures a.LogoImage? ==> a.src == job.logo.value
    ensures a.Initial? ==> |a.text| == (if job.company == "" then 0 else 1)
    ensures a.Initial? && job.company != "" ==> a.text[0] == job.company[0]
  {
    if job.logo.Some? && job.logo.value != "" then LogoImage(job.logo.value)
    else if job.company == "" then Initial("")
    else Initial(job.company[..1])
  }

  /** The expand button's caption: "Hide details" exactly while the section is open. */
  function ExpandCaption(expanded: bool): (caption: string)
    ensures caption == "Hide details" <==> expanded
    ensures !expanded ==> caption == "Why this job?"
  {
    if expanded then "Hide details" else "Why this job?"
  }

  /** Where on the card a click lands. */
  datatype ClickTarget =
    /** Anywhere on the card outside its buttons. */
    | CardBody
    /** "Why this job?" / "Hide details": stops propagation and toggles. */
    | ExpandButton
    /** "Show more like this": stops propagation and does nothing else. */
    | ShowMoreButton
    /** "Apply Now": has no handler, so the click bubbles to the card. */
    | ApplyButton

  /** The card's state; `job` is its prop. */
  class JobCardState {
    const job: Job
    var expanded: bool

    constructor (job: Job)
      ensures this.job == job && !expanded
    {
      this.job := job;
      expanded := false;
    }

    /** `toggleExpand`: flips the section, and selects the job unless it is already selected. */
    method ToggleExpand(selected: bool) returns (calls: seq<Job>)
      modifies this
      ensures expanded == !old(expanded)
      ensures calls == (if selected then [] else [job])
    {
      expanded := !expanded;
      calls := [];
      if !selected {
        calls := [job];
      }
    }

    /**
     * A click on the card, given whether the card is currently selected:
     * the jobs passed to `onSelect`, in order.  Only the expand button
     * changes `expanded`, and no click calls `onSelect` twice.
     */
    method Click(target: ClickTarget, selected: bool) returns (calls: seq<Job>)
      modifies this
      ensures target == ExpandButton ==> expanded == !old(expanded) && calls == (if selected then [] else [job])
      ensures target != ExpandButton ==> expanded == old(expanded)
      ensures target == CardBody || target == ApplyButton ==> calls == [job]
      ensures target == ShowMoreButton ==> calls == []
      ensures |calls| <= 1 && forall i :: 0 <= i < |calls| ==> calls[i] == job
    {
      match target {
        case CardBody => calls := [job];
        case ExpandButton => calls := ToggleExpand(selected);
        case ShowMoreButton => calls := [];
        case ApplyButton => calls := [job];
      }
    }
  }
}
