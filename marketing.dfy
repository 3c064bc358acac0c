/**
 * The marketing view: two independent generation handlers (campaign strategy and hashtags), the
 * conditions that disable their buttons, and the constant sample data, which ignores the branch.
 */
module MarketingView {
  import opened Options
  import opened Seqs
  import opened Text
  import opened Types
  import opened GeminiService

  function ScheduledPosts(): seq<ContentPost> {
    [ ContentPost("1", Instagram, "Teaser Mariage Amélie", "2024-05-20", Scheduled, VideoReel, "Un moment magique au château..."),
      ContentPost("2", TikTok, "BTS Shooting Mode", "2024-05-21", Draft, VideoReel, "Les coulisses de notre dernière session..."),
      ContentPost("3", Facebook, "Témoignage Client", "2024-05-18", Published, PhotoPost, "Merci à la famille Belmont pour leur confiance.") ]
  }

  function Templates(): seq<MarketingTemplate> {
    [ MarketingTemplate("1", "Offre Early Bird", Promotion, "Réservez votre séance 6 mois à l'avance et bénéficiez de -15% sur votre album prestige."),
      MarketingTemplate("2", "Conseil Lumière", Tips, "La \"Golden Hour\" est le secret d'un portrait réussi. Voici comment en profiter..."),
      MarketingTemplate("3", "Behind The Lens", BehindTheScenes, "Saviez-vous que nous utilisons 3 types d'éclairage pour un simple portrait studio ?") ]
  }

  function RoiData(): seq<CampaignRoi> {
    [ CampaignRoi("Jan", 450, 2800, 12),
      CampaignRoi("Feb", 600, 4200, 18),
      CampaignRoi("Mar", 800, 6500, 25),
      CampaignRoi("Apr", 550, 5100, 15),
      CampaignRoi("May", 900, 8400, 32) ]
  }

  /** The totals the ROI tab prints as fixed text. */
  const DisplayedAdSpend := 3300
  const DisplayedRevenue := 27000

  function AdSpend(c: CampaignRoi): int { c.adSpend }
  function Revenue(c: CampaignRoi): int { c.revenue }

  /** The printed totals are the sums of the monthly figures they summarise. */
  lemma RoiTotalsMatchDisplay()
    ensures SumOf(RoiData(), AdSpend) == DisplayedAdSpend
    ensures SumOf(RoiData(), Revenue) == DisplayedRevenue
  {
    var r := RoiData();
    assert r[1..][1..][1..][1..][1..] == [];
  }

  /** What the calendar, template and ROI tabs list. */
  datatype MarketingData = MarketingData(posts: seq<ContentPost>, templates: seq<MarketingTemplate>, roi: seq<CampaignRoi>)

  /** The view's lists for a branch: the branch prop is not consulted. */
  function Shown(branch: Branch): MarketingData {
    MarketingData(ScheduledPosts(), Templates(), RoiData())
  }

  /** Every branch sees the same posts, templates and figures. */
  lemma DataIgnoresBranch(a: Branch, b: Branch)
    ensures Shown(a) == Shown(b)
  {
  }

  /** `disabled={busy || !text}`: busy, or the text is the empty string. */
  predicate SubmitDisabled(busy: bool, text: string) {
    busy || text == ""
  }

  /** `!text.trim()`: the handler returns at once. */
  predicate HandlerIgnores(text: string) {
    Trim(text) == ""
  }

  /**
   * The button and the handler do not test the same thing: a prompt of whitespace only leaves
   * the button enabled, and the handler then does nothing; a disabled idle button always has a
   * prompt the handler would ignore.
   */
  lemma GuardsDisagreeOnWhitespace(text: string)
    ensures text != "" && IsBlank(text) ==> !SubmitDisabled(false, text) && HandlerIgnores(text)
    ensures SubmitDisabled(false, text) ==> HandlerIgnores(text)
    ensures HandlerIgnores(text) <==> IsBlank(text)
  {
    TrimEmptyIffBlank(text);
  }

  /** The state of the marketing view that the handlers touch. */
  class MarketingPanel {
    var prompt: string
    var aiResult: string
    var hashtagPrompt: string
    var hashtagResult: string
    var isGenerating: bool
    var isGeneratingHashtags: bool

    constructor()
      ensures prompt == "" && aiResult == "" && hashtagPrompt == "" && hashtagResult == ""
      ensures !isGenerating && !isGeneratingHashtags
    {
      prompt := "";
      aiResult := "";
      hashtagPrompt := "";
      hashtagResult := "";
      isGenerating := false;
      isGeneratingHashtags := false;
    }

    method EditPrompt(text: string)
      modifies this`prompt
      ensures prompt == text
    {
      prompt := text;
    }

    method EditHashtagPrompt(text: string)
      modifies this`hashtagPrompt
      ensures hashtagPrompt == text
    {
      hashtagPrompt := text;
    }

    /**
     * `handleGenerateStrategy` up to the await: nothing happens for a blank prompt; otherwise
     * the busy flag is raised and the request for the prompt, as typed, is returned.
     */
    method StartStrategy() returns (req: Option<GenerateRequest>)
      modifies this`isGenerating
      ensures req == (if HandlerIgnores(prompt) then None else Some(MarketingIdeasRequest(prompt)))
      ensures isGenerating == (old(isGenerating) || !HandlerIgnores(prompt))
      ensures unchanged(this`hashtagPrompt, this`hashtagResult, this`isGeneratingHashtags)
    {
      var request := MarketingIdeasRequest(prompt);
      if HandlerIgnores(prompt) {
        req := None;
      } else {
        isGenerating := true;
        req := Some(request);
      }
    }

    /** `handleGenerateStrategy` after the await: the service's string is stored, busy cleared. */
    method FinishStrategy(o: SdkOutcome)
      modifies this`aiResult, this`isGenerating
      ensures aiResult == MarketingIdeas(o) && aiResult != ""
      ensures !isGenerating
      ensures unchanged(this`hashtagPrompt, this`hashtagResult, this`isGeneratingHashtags)
    {
      var ideas := MarketingIdeas(o);
      aiResult := ideas;
      isGenerating := false;
    }

    /** `handleGenerateHashtags` up to the await. */
    method StartHashtags() returns (req: Option<GenerateRequest>)
      modifies this`isGeneratingHashtags
      ensures req == (if HandlerIgnores(hashtagPrompt) then None else Some(HashtagsRequest(hashtagPrompt)))
      ensures isGeneratingHashtags == (old(isGeneratingHashtags) || !HandlerIgnores(hashtagPrompt))
      ensures unchanged(this`prompt, this`aiResult, this`isGenerating)
    {
      var request := HashtagsRequest(hashtagPrompt);
      if HandlerIgnores(hashtagPrompt) {
        req := None;
      } else {
        isGeneratingHashtags := true;
        req := Some(request);
      }
    }

    /** `handleGenerateHashtags` after the await. */
    method FinishHashtags(o: SdkOutcome)
      modifies this`hashtagResult, this`isGeneratingHashtags
      ensures hashtagResult == Hashtags(o) && hashtagResult != ""
      ensures !isGeneratingHashtags
      ensures unchanged(this`prompt, this`aiResult, this`isGenerating)
    {
      var tags := Hashtags(o);
      hashtagResult := tags;
      isGeneratingHashtags := false;
    }

    predicate StrategyButtonDisabled()
      reads this
    {
      SubmitDisabled(isGenerating, prompt)
    }

    predicate HashtagButtonDisabled()
      reads this
    {
      SubmitDisabled(isGeneratingHashtags, hashtagPrompt)
    }
  }
}
