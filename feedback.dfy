/**
 * The AI feedback dialog's monthly usage cap: a counter that starts at 3, goes
 * up by one per finished review, and stops reviews from starting once it
 * reaches the maximum of 10.
 */
module FeedbackModal {

  const MaxUsage := 10
  const InitialUsage := 3

  /** The limit is reached: the limit notice shows and no review can start. */
  predicate AtLimit(usage: int) {
    usage >= MaxUsage
  }

  /** The "reviews used" badge turns red and the limit notice shows. */
  predicate ShowsLimitNotice(usage: int) {
    AtLimit(usage)
  }

  /** The "Generate" panel shows: below the limit and not already generating. */
  predicate ShowsGenerateButton(usage: int, generating: bool) {
    !generating && usage < MaxUsage
  }

  /** The notice and the button are never on screen together, and one of them is whenever the dialog is idle. */
  lemma NoticeOrButton(usage: int)
    ensures !(ShowsLimitNotice(usage) && ShowsGenerateButton(usage, false))
    ensures ShowsLimitNotice(usage) || ShowsGenerateButton(usage, false)
    ensures ShowsLimitNotice(usage) <==> AtLimit(usage)
  {
  }

  /** The count after one click on "Generate" that runs to completion. */
  function AfterGenerate(usage: int): (r: int)
    ensures usage <= r <= usage + 1
    ensures usage <= MaxUsage ==> r <= MaxUsage
    ensures r == usage <==> AtLimit(usage)
  {
    if AtLimit(usage) then usage else usage + 1
  }

  /** The count after `clicks` completed clicks, one after another. */
  function AfterClicks(usage: int, clicks: nat): int
    decreases clicks
  {
    if clicks == 0 then usage else AfterClicks(AfterGenerate(usage), clicks - 1)
  }

  /** From any count within the limit, each click adds one until the limit, then nothing. */
  lemma {:induction false} AfterClicksSaturates(usage: int, clicks: nat)
    requires usage <= MaxUsage
    ensures AfterClicks(usage, clicks) == if usage + clicks <= MaxUsage then usage + clicks else MaxUsage
    decreases clicks
  {
    if clicks > 0 {
      AfterClicksSaturates(AfterGenerate(usage), clicks - 1);
    }
  }

  /** Starting from 3, the count never passes 10, so at most 7 reviews ever succeed. */
  lemma AtMostSevenReviews(clicks: nat)
    ensures InitialUsage <= AfterClicks(InitialUsage, clicks) <= MaxUsage
    ensures AfterClicks(InitialUsage, clicks) - InitialUsage <= 7
    ensures clicks >= 7 ==> AtLimit(AfterClicks(InitialUsage, clicks))
  {
    AfterClicksSaturates(InitialUsage, clicks);
  }

  class FeedbackDialog {
    var usageCount: int
    var isGenerating: bool

    constructor()
      ensures usageCount == InitialUsage && !isGenerating
      ensures Valid()
    {
      usageCount := InitialUsage;
      isGenerating := false;
    }

    /** The count stays between its start and the maximum, and a running review was started below the limit. */
    predicate Valid()
      reads this
    {
      InitialUsage <= usageCount <= MaxUsage && (isGenerating ==> !AtLimit(usageCount))
    }

    /**
     * The first half of `handleGenerateFeedback`: at the limit nothing happens;
     * otherwise the dialog starts generating. The button that calls it is only
     * on screen while the dialog is idle.
     */
    method BeginGeneration() returns (started: bool)
      requires Valid() && !isGenerating
      modifies this
      ensures Valid()
      ensures started <==> !AtLimit(usageCount)
      ensures isGenerating == started
      ensures usageCount == old(usageCount)
    {
      if usageCount >= MaxUsage {
        return false;
      }
      isGenerating := true;
      started := true;
    }

    /** The second half, once the simulated review is over: generating stops and the count goes up by one. */
    method FinishGeneration()
      requires Valid() && isGenerating
      modifies this
      ensures Valid() && !isGenerating
      ensures usageCount == old(usageCount) + 1
      ensures usageCount == AfterGenerate(old(usageCount))
    {
      isGenerating := false;
      usageCount := usageCount + 1;
    }
  }
}
