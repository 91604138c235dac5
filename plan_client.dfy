/**
 * The plan client's work after the remote text-generation call returns
 * (generateCommandPlan and createFallbackPlan in services/geminiService.ts).
 *
 * The call itself is an input: either a reply (its text and the grounding
 * metadata of its first candidate) or a failure carrying an optional message.
 * `JSON.parse` is the parameter `parse`, a partial function from text to the
 * plan fields it found; `None` stands for a thrown SyntaxError.
 */
module PlanClient {
  import opened Wrappers
  import opened Types
  import opened JsStrings

  /** One citation of the grounding metadata: a web page or a place on the map. */
  datatype GroundingChunk = WebChunk(title: string, uri: string) | MapsChunk(title: string, uri: string)

  datatype GroundingMetadata = GroundingMetadata(groundingChunks: seq<GroundingChunk>)

  /** What the model returned: `response.text` and `candidates[0].groundingMetadata`. */
  datatype ModelReply = ModelReply(text: Option<string>, grounding: Option<GroundingMetadata>)

  /** How the remote call ended: with a reply, or by throwing an error with an optional message. */
  datatype CallOutcome = Replied(reply: ModelReply) | Failed(message: Option<string>)

  /**
   * The keys of the object `JSON.parse` produced that the client reads. A key
   * that is absent, `null` or otherwise falsy is `None`. `error` is here
   * because the client spreads every parsed key into its result.
   */
  datatype ParsedPlan = ParsedPlan(
    summary: Option<string>,
    nextSteps: Option<seq<string>>,
    allocations: Option<seq<Allocation>>,
    risks: Option<seq<string>>,
    error: Option<string>)

  /** `CommandPlan & { error?: string, grounding?: any }`, what the client hands to the UI. */
  datatype PlanResult = PlanResult(plan: CommandPlan, error: Option<string>, grounding: Option<GroundingMetadata>)

  const SummaryLimit: nat := 500
  const AwaitingAssessment := "Awaiting tactical assessment..."
  const FallbackSteps: seq<string> := ["Verify manual protocols", "Check secondary communications"]
  const FallbackRisks: seq<string> := ["Automatic synthesis degraded"]
  const PlanSynthesized := "Plan synthesized."
  const QuotaSummary := "TACTICAL NODE OFFLINE: Public quota exhausted."
  const LinkDisrupted := "Communication link disrupted. Manual override active."
  const QuotaLimit := "QUOTA_LIMIT"

  /**
   * createFallbackPlan: the fixed-shape plan built when no usable JSON came
   * back. Its summary is the longest prefix of `rawText` of at most 500
   * characters, or a placeholder when `rawText` is empty; it is never empty.
   */
  function FallbackPlan(rawText: string): (p: CommandPlan)
    ensures rawText == [] ==> p.summary == AwaitingAssessment
    ensures rawText != [] ==> p.summary <= rawText
    ensures rawText != [] ==> |p.summary| == if |rawText| < SummaryLimit then |rawText| else SummaryLimit
    ensures p.summary != []
    ensures p.nextSteps == FallbackSteps && p.allocations == [] && p.risks == FallbackRisks
  {
    var head := SlicePrefix(rawText, SummaryLimit);
    CommandPlan(if head != [] then head else AwaitingAssessment, FallbackSteps, [], FallbackRisks)
  }

  /** A `{` at `i` and a `}` at `j` further on. */
  predicate BracePair(text: string, i: int, j: int) {
    0 <= i < j < |text| && text[i] == '{' && text[j] == '}'
  }

  /** The pair of the first `{` and the last `}`, the second after the first. */
  predicate OutermostPair(text: string, i: int, j: int) {
    && BracePair(text, i, j)
    && (forall k :: 0 <= k < i ==> text[k] != '{')
    && (forall k :: j < k < |text| ==> text[k] != '}')
  }

  /**
   * `text.match(/\{[\s\S]*\}/)`: the run from the first `{` through the last
   * `}`. There is one exactly when some `}` follows some `{`.
   */
  function JsonMatch(text: string): (m: Option<string>)
    ensures m.Some? <==> exists i, j :: BracePair(text, i, j)
    ensures m.Some? ==> exists i, j :: OutermostPair(text, i, j) && m.value == text[i..j + 1]
  {
    match FirstIndexOf(text, '{')
    case None =>
      assert forall k :: 0 <= k < |text| ==> text[k] != '{';
      None
    case Some(i) =>
      match LastIndexOf(text, '}')
      case None =>
        assert forall k :: 0 <= k < |text| ==> text[k] != '}';
        None
      case Some(j) =>
        if i < j then
          assert OutermostPair(text, i, j);
          Some(text[i..j + 1])
        else
          None
  }

  /** The strings the pattern `\{[\s\S]*\}` matches: a `{`, any characters, a `}`. */
  predicate MatchesPattern(m: string) {
    2 <= |m| && m[0] == '{' && m[|m| - 1] == '}'
  }

  /**
   * `text[i..j]` is the match a backtracking regular-expression engine
   * returns: the earliest start at which the pattern matches, and from that
   * start the longest match, since `[\s\S]*` is greedy.
   */
  ghost predicate LeftmostGreedyAt(text: string, i: int, j: int) {
    && 0 <= i <= j <= |text| && MatchesPattern(text[i..j])
    && (forall i', j' :: 0 <= i' < i && i' <= j' <= |text| ==> !MatchesPattern(text[i'..j']))
    && (forall j' :: j < j' <= |text| ==> !MatchesPattern(text[i..j']))
  }

  /** JsonMatch is what `String.prototype.match` returns for `/\{[\s\S]*\}/`. */
  lemma JsonMatchIsLeftmostGreedy(text: string)
    ensures JsonMatch(text).None? <==> forall i, j :: 0 <= i <= j <= |text| ==> !MatchesPattern(text[i..j])
    ensures JsonMatch(text).Some? ==> exists i, j :: LeftmostGreedyAt(text, i, j) && JsonMatch(text).value == text[i..j]
  {
    forall i, j | 0 <= i <= j <= |text| && MatchesPattern(text[i..j]) ensures BracePair(text, i, j - 1) {
      assert text[i..j][0] == text[i] && text[i..j][j - i - 1] == text[j - 1];
    }
    forall i, j | BracePair(text, i, j) ensures MatchesPattern(text[i..j + 1]) { }
    if JsonMatch(text).Some? {
      var i, j :| OutermostPair(text, i, j) && JsonMatch(text).value == text[i..j + 1];
      assert LeftmostGreedyAt(text, i, j + 1);
    }
  }

  /**
   * A reply that wraps one object in prose before it and a trailer after it
   * (a markdown fence, say) yields exactly that object, and the text before
   * its first `{` is the prose.
   */
  lemma JsonMatchOfWrappedObject(prose: string, obj: string, trailer: string)
    requires '{' !in prose && '}' !in trailer && MatchesPattern(obj)
    ensures JsonMatch(prose + obj + trailer) == Some(obj)
    ensures SplitHead(prose + obj + trailer, '{') == prose
  {
    var text := prose + obj + trailer;
    var a, b := |prose|, |prose| + |obj| - 1;
    WrappedLayout(prose, obj, trailer);
    assert BracePair(text, a, b);
    assert JsonMatch(text).Some?;
    var i, j :| OutermostPair(text, i, j) && JsonMatch(text).value == text[i..j + 1];
    assert i == a && j == b;
    var head := SplitHead(text, '{');
    assert |head| == a;
  }

  /** Where the pieces of `prose + obj + trailer` sit, character by character. */
  lemma WrappedLayout(prose: string, obj: string, trailer: string)
    requires '{' !in prose && '}' !in trailer && MatchesPattern(obj)
    ensures var text := prose + obj + trailer;
            && |text| == |prose| + |obj| + |trailer|
            && text[..|prose|] == prose && text[|prose|..|prose| + |obj|] == obj
            && text[|prose|] == '{' && text[|prose| + |obj| - 1] == '}'
            && (forall k :: 0 <= k < |prose| ==> text[k] != '{')
            && (forall k :: |prose| + |obj| <= k < |text| ==> text[k] != '}')
  {
    var text := prose + obj + trailer;
    assert text == prose + (obj + trailer);
    assert text[..|prose|] == prose;
    assert text[|prose|..] == obj + trailer;
    assert (obj + trailer)[..|obj|] == obj;
    forall k | 0 <= k < |prose| ensures text[k] != '{' { assert text[k] == prose[k]; }
    forall k | |prose| + |obj| <= k < |text| ensures text[k] != '}' {
      assert text[k] == trailer[k - |prose| - |obj|];
    }
  }

  /** The failure signature of an exhausted quota: the message mentions 429 or RESOURCE_EXHAUSTED. */
  predicate IsQuotaMessage(message: string) {
    Includes(message, "429") || Includes(message, "RESOURCE_EXHAUSTED")
  }

  /** `response.text || ""`. */
  function ReplyText(reply: ModelReply): string {
    reply.text.GetOr("")
  }

  /**
   * The plan fields of a reply text: `JSON.parse` of its JSON region, or
   * `None` when there is no region or the region does not parse.
   */
  function ParsedRegion(text: string, parse: string -> Option<ParsedPlan>): (p: Option<ParsedPlan>)
    ensures p.None? <==> JsonMatch(text).None? || parse(JsonMatch(text).value).None?
    ensures p.Some? ==> p == parse(JsonMatch(text).value)
  {
    match JsonMatch(text)
    case None => None
    case Some(region) => parse(region)
  }

  /**
   * generateCommandPlan from the moment the remote call settles: normalise a
   * reply into a plan, or classify a failure. It never fails, and every plan
   * it returns has a non-empty summary and all three lists.
   */
  method GenerateCommandPlan(outcome: CallOutcome, parse: string -> Option<ParsedPlan>) returns (r: PlanResult)
    ensures r.plan.summary != []
    // a failed call: no grounding, and only the quota signature is tagged
    ensures outcome.Failed? ==> r.grounding.None?
    ensures outcome.Failed? && IsQuotaMessage(outcome.message.GetOr("")) ==>
              r.plan == FallbackPlan(QuotaSummary) && r.error == Some(QuotaLimit)
    ensures outcome.Failed? && !IsQuotaMessage(outcome.message.GetOr("")) ==>
              r.plan == FallbackPlan(LinkDisrupted) && r.error.None?
    // (shortcut, follows from the two above) a missing message counts as "" and is not a quota failure
    ensures outcome == Failed(None) ==> r.plan == FallbackPlan(LinkDisrupted) && r.error.None?
    // a reply: its grounding is always attached
    ensures outcome.Replied? ==> r.grounding == outcome.reply.grounding
    // no JSON region, or one that does not parse: the whole text as a fallback
    ensures outcome.Replied? && ParsedRegion(ReplyText(outcome.reply), parse).None? ==>
              r.plan == FallbackPlan(ReplyText(outcome.reply)) && r.error.None?
    // (shortcut, follows from the one above and JsonMatch) a reply without `{` falls back
    ensures outcome.Replied? && '{' !in ReplyText(outcome.reply) ==>
              r.plan == FallbackPlan(ReplyText(outcome.reply)) && r.error.None?
    // a region that parses: missing lists become empty, present values are kept
    ensures outcome.Replied? && ParsedRegion(ReplyText(outcome.reply), parse).Some? ==>
              var p := ParsedRegion(ReplyText(outcome.reply), parse).value;
              && r.plan.nextSteps == p.nextSteps.GetOr([])
              && r.plan.allocations == p.allocations.GetOr([])
              && r.plan.risks == p.risks.GetOr([])
              && r.error == p.error
              && (p.summary.GetOr("") != [] ==> r.plan.summary == p.summary.value)
    // a missing or empty summary: the trimmed prose before the first `{`, else a placeholder
    ensures outcome.Replied? && ParsedRegion(ReplyText(outcome.reply), parse).Some?
            && ParsedRegion(ReplyText(outcome.reply), parse).value.summary.GetOr("") == [] ==>
              var prose := SplitHead(ReplyText(outcome.reply), '{');
              && (Trim(prose) != [] ==> r.plan.summary == Trim(prose))
              && ((forall k :: 0 <= k < |prose| ==> IsWhiteSpace(prose[k])) ==> r.plan.summary == PlanSynthesized)
  {
    match outcome
    case Failed(message) =>
      var errorMsg := message.GetOr("");
      if IsQuotaMessage(errorMsg) {
        r := PlanResult(FallbackPlan(QuotaSummary), Some(QuotaLimit), None);
      } else {
        r := PlanResult(FallbackPlan(LinkDisrupted), None, None);
      }
    case Replied(reply) =>
      var text := reply.text.GetOr("");
      var grounding := reply.grounding;
      var jsonMatch := JsonMatch(text);
      var data: CommandPlan;
      var error: Option<string> := None;
      if jsonMatch.Some? {
        var parsed := parse(jsonMatch.value);
        if parsed.Some? {
          var fields := parsed.value;
          var nextSteps := fields.nextSteps.GetOr([]);
          var allocations := fields.allocations.GetOr([]);
          var risks := fields.risks.GetOr([]);
          var summary := fields.summary.GetOr("");
          if summary == "" {
            summary := Trim(SplitHead(text, '{'));
            if summary == "" {
              summary := PlanSynthesized;
            }
          }
          data := CommandPlan(summary, nextSteps, allocations, risks);
          error := fields.error;
        } else {
          data := FallbackPlan(text);
        }
      } else {
        data := FallbackPlan(text);
      }
      r := PlanResult(data, error, grounding);
  }

  /**
   * The quota scenario end to end: a call that fails with
   * "429 RESOURCE_EXHAUSTED" gives the offline plan tagged QUOTA_LIMIT.
   */
  method QuotaScenario(parse: string -> Option<ParsedPlan>) returns (r: PlanResult)
    ensures r.plan == CommandPlan(QuotaSummary, FallbackSteps, [], FallbackRisks)
    ensures r.error == Some(QuotaLimit) && r.grounding.None?
  {
    var message := "429 RESOURCE_EXHAUSTED";
    assert OccursAt(message, "429", 0);
    r := GenerateCommandPlan(Failed(Some(message)), parse);
  }
}
