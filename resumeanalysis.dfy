/**
 * The resume summary's skills row: at most six skill chips, followed by a
 * "+N more" badge when the resume lists more.
 */
module ResumeAnalysis {
  import opened Wrappers
  import opened Json

  const MaxShownSkills: nat := 6

  /** `skills.slice(0, 6)`: the first six skills (or all of them), in order. */
  function ShownSkills(skills: seq<string>): (shown: seq<string>)
    ensures |shown| == Min(MaxShownSkills, |skills|)
    ensures shown == skills[..|shown|]
  {
    skills[..Min(MaxShownSkills, |skills|)]
  }

  /** The badge's count, when the badge is drawn. */
  function OverflowCount(skills: seq<string>): (more: Option<nat>)
    ensures more.Some? <==> |skills| > MaxShownSkills
    ensures more.Some? ==> more.value >= 1
  {
    if |skills| > MaxShownSkills then Some(|skills| - MaxShownSkills) else None
  }

  /**
   * The badge's text, `+{skills.length - 6} more`: a plus sign, the decimal
   * digits of the count without a leading zero, then ` more`.
   */
  function BadgeText(more: nat): (badge: string)
    ensures |badge| >= 7 && badge[0] == '+' && badge[|badge| - 5..] == " more"
    ensures IsDigits(badge[1..|badge| - 5]) && DecimalValue(badge[1..|badge| - 5]) == more
    ensures more == 0 ==> badge == "+0 more"
    ensures more > 0 || |badge| > 7 ==> badge[1] != '0'
  {
    var digits := NatToDecimal(more);
    var badge := "+" + digits + " more";
    assert badge[1..|badge| - 5] == digits;
    badge
  }

  /** The badge, when drawn, reads the number of skills left out of the chips. */
  lemma BadgeCountsHiddenSkills(skills: seq<string>)
    requires OverflowCount(skills).Some?
    ensures var badge := BadgeText(OverflowCount(skills).value);
      DecimalValue(badge[1..|badge| - 5]) == |skills| - |ShownSkills(skills)|
  {
  }

  /** The chips and the badge account for every skill exactly once. */
  lemma ShownPlusBadgeIsTotal(skills: seq<string>)
    ensures |ShownSkills(skills)| + (match OverflowCount(skills) case Some(n) => n case None => 0) == |skills|
    ensures OverflowCount(skills).None? ==> ShownSkills(skills) == skills
  {
  }

  /** Adding skills never removes a chip that was shown. */
  lemma ShownSkillsStable(skills: seq<string>, more: seq<string>)
    ensures ShownSkills(skills) == ShownSkills(skills + more)[..|ShownSkills(skills)|]
  {
    var k := |ShownSkills(skills)|;
    assert (skills + more)[..k] == skills[..k];
  }
}
