/** The two pipeline endpoints: `/analyze-emotion` and `/get-ritual`. The
    generation stages are parameters, so the endpoints are modelled for
    whatever those stages do, and the stages as the code has them are one
    instance. */
module Api {
  import opened Wrappers
  import opened Helpers

  /** Whether the OpenAI and the Qloo API keys are configured. */
  datatype Keys = Keys(openAi: bool, qloo: bool)

  /** An endpoint's answer: a body, or an `HTTPException`. */
  datatype Response<T> = Ok(body: T) | HttpError(status: int, detail: string)

  type Preferences = map<string, string>

  // ---------------------------------------------------------------------
  // analyze_emotion

  /** The body of a successful `/analyze-emotion` call (its timestamp left out). */
  datatype EmotionReply = EmotionReply(success: bool, emotionalNeed: string,
                                       detailedAnalysis: Context, userId: string)

  const OpenAiKeyMissing: string := "OpenAI API key not configured"

  /** `/analyze-emotion`, with `analyze` as the emotion-analysis stage. A
      missing `primary_need` is a `KeyError` reported as an analysis failure. */
  function AnalyzeEmotion(openAiKey: bool, text: string, userId: string,
                          analyze: (string, string) -> Outcome<Context>): (r: Response<EmotionReply>)
    ensures !openAiKey ==> r == HttpError(500, OpenAiKeyMissing)
    ensures r.Ok? <==> openAiKey && analyze(text, userId).Returned? && "primary_need" in analyze(text, userId).value
    ensures r.Ok? ==> && r.body.success
                      && r.body.emotionalNeed == analyze(text, userId).value["primary_need"]
                      && r.body.detailedAnalysis == analyze(text, userId).value
                      && r.body.userId == userId
    ensures openAiKey && r.HttpError? ==> r.status == 500 && |r.detail| >= |"Analysis failed: "| && r.detail[..|"Analysis failed: "|] == "Analysis failed: "
  {
    if !openAiKey then HttpError(500, OpenAiKeyMissing)
    else
      match analyze(text, userId)
      case Raised(e) => HttpError(500, "Analysis failed: " + e)
      case Returned(analysis) =>
        if "primary_need" in analysis then Ok(EmotionReply(true, analysis["primary_need"], analysis, userId))
        else HttpError(500, "Analysis failed: 'primary_need'")
  }

  // ---------------------------------------------------------------------
  // create_ritual

  datatype RitualRequest = RitualRequest(text: string, comfortMedia: seq<string>, preferences: Preferences)

  /** A row of the rituals table. */
  datatype RitualRecord = RitualRecord(
    userId: string,
    emotionalNeed: string,
    comfortMedia: seq<string>,
    ritualContent: string,
    recommendations: map<string, string>,
    estimatedDuration: string,
    rating: Option<int>,
    createdAt: string)

  datatype RitualResponse = RitualResponse(ritual: RitualRecord, success: bool)

  /** The generation stages and the recommendation service. */
  datatype Stages = Stages(
    emotion: (string, string) -> Outcome<Context>,
    media: seq<string> -> Outcome<seq<MediaItem>>,
    qloo: QlooRequest -> QlooReply,
    narrative: (Context, map<string, string>, Preferences) -> Outcome<string>)

  /** The stages as the code has them, over a given recommendation service. */
  function AsWrittenStages(qloo: QlooRequest -> QlooReply): Stages
  {
    Stages((text, userId) => Returned(EnhancedEmotionAnalysis(text, userId)),
           media => Returned(IntelligentMediaParsing(media)),
           qloo,
           (analysis, recs, prefs) => Returned(CreatePersonalizedRitual(analysis, recs, prefs)))
  }

  /** One stage invocation or one request to the recommendation service,
      with the inputs it was given. */
  datatype Call =
    | EmotionCall(text: string, userId: string)
    | MediaCall(media: seq<string>)
    | RecommendCall(seed: seq<MediaItem>, analysis: Context)
    | QlooCall(request: QlooRequest)
    | NarrativeCall(analysis: Context, recommendations: map<string, string>, preferences: Preferences)

  /** The position of a call in the pipeline. */
  function Rank(c: Call): nat
  {
    match c
    case EmotionCall(_, _) => 0
    case MediaCall(_) => 1
    case RecommendCall(_, _) => 2
    case QlooCall(_) => 3
    case NarrativeCall(_, _, _) => 4
  }

  /** Call `i` is step `i` of the pipeline, with none skipped: the calls
      are a prefix of emotion, media, recommendation, service request,
      narrative. */
  predicate InPipelineOrder(calls: seq<Call>)
  {
    && |calls| <= 5
    && forall i :: 0 <= i < |calls| ==> Rank(calls[i]) == i
  }

  /** The answer of one `/get-ritual` request, the calls it makes in order,
      and the row it inserts, if any. */
  datatype Run = Run(response: Response<RitualResponse>, calls: seq<Call>, row: Option<RitualRecord>)

  /** The rows a run inserts. */
  function RowsOf(row: Option<RitualRecord>): seq<RitualRecord>
  {
    if row.Some? then [row.value] else []
  }

  const KeysMissing: string := "Required API keys not configured"
  const NoMediaIdentified: string := "Could not identify any media from your input. Please be more specific."
  const RitualFailed: string := "Failed to create ritual"

  /** The calls made by the recommendation stage for a seed: one request
      unless the seed is empty. */
  function QlooCalls(seed: seq<MediaItem>, analysis: Context): seq<Call>
  {
    if seed == [] then [] else [QlooCall(BuildRequest(seed, analysis))]
  }

  /** `/get-ritual`: the key check, then the four stages in order; an empty
      media list stops with 400, any exception a stage raises becomes 500,
      and a completed run inserts one row and returns it. */
  function CreateRitualRun(keys: Keys, stages: Stages, request: RitualRequest, userId: string,
                           createdAt: string): Run
  {
    if !keys.openAi || !keys.qloo then Run(HttpError(500, KeysMissing), [], None)
    else StagesRun(stages, request, userId, createdAt)
  }

  /** A run once both keys are known to be configured: the analysis, the
      media parsing, and then the rest of the stages for a non-empty list. */
  function StagesRun(stages: Stages, request: RitualRequest, userId: string, createdAt: string): Run
  {
    var afterEmotion := [EmotionCall(request.text, userId)];
    match stages.emotion(request.text, userId)
    case Raised(_) => Run(HttpError(500, RitualFailed), afterEmotion, None)
    case Returned(analysis) =>
      var afterMedia := afterEmotion + [MediaCall(request.comfortMedia)];
      match stages.media(request.comfortMedia)
      case Raised(_) => Run(HttpError(500, RitualFailed), afterMedia, None)
      case Returned(media) =>
        if media == [] then Run(HttpError(400, NoMediaIdentified), afterMedia, None)
        else
          var rest := RecommendAndNarrate(stages, request, userId, createdAt, analysis, media);
          rest.(calls := afterMedia + rest.calls)
  }

  /** The rest of a run once the analysis and a non-empty media list are
      known: the recommendation stage, the narrative stage and the row. */
  function RecommendAndNarrate(stages: Stages, request: RitualRequest, userId: string, createdAt: string,
                               analysis: Context, media: seq<MediaItem>): Run
  {
    var afterRecs := [RecommendCall(media, analysis)] + QlooCalls(media, analysis);
    match QlooRecommendations(media, analysis, stages.qloo)
    case Raised(_) => Run(HttpError(500, RitualFailed), afterRecs, None)
    case Returned(recs) =>
      var afterNarrative := afterRecs + [NarrativeCall(analysis, recs, request.preferences)];
      match stages.narrative(analysis, recs, request.preferences)
      case Raised(_) => Run(HttpError(500, RitualFailed), afterNarrative, None)
      case Returned(content) =>
        var row := RitualRecord(userId,
                                LookupOr(analysis, "primary_need", "general"),
                                request.comfortMedia,
                                content,
                                recs,
                                LookupOr(analysis, "recommended_duration", "30min"),
                                None,
                                createdAt);
        Run(Ok(RitualResponse(row, true)), afterNarrative, Some(row))
  }

  /** The outcomes a run can have: the key check comes first and makes no
      call; a row is inserted exactly when the request succeeds, and the
      response then carries that row; an empty media list stops with 400
      after the first two stages; the only errors are the three below. */
  lemma RunOutcomes(keys: Keys, stages: Stages, request: RitualRequest, userId: string, createdAt: string)
    ensures var run := CreateRitualRun(keys, stages, request, userId, createdAt);
      && (!keys.openAi || !keys.qloo ==> run == Run(HttpError(500, KeysMissing), [], None))
      && (run.row.Some? <==> run.response.Ok?)
      && (run.response.Ok? ==> run.response.body == RitualResponse(run.row.value, true))
      && (run.response.HttpError? ==>
            (run.response.status, run.response.detail) in
            {(500, KeysMissing), (400, NoMediaIdentified), (500, RitualFailed)})
      && (run.row.Some? ==>
            stages.media(request.comfortMedia).Returned? && stages.media(request.comfortMedia).value != [])
      && (keys.openAi && keys.qloo && stages.emotion(request.text, userId).Returned?
          && stages.media(request.comfortMedia) == Returned([]) ==>
            run == Run(HttpError(400, NoMediaIdentified),
                       [EmotionCall(request.text, userId), MediaCall(request.comfortMedia)], None))
  {
  }

  /** How each failure is answered: with both keys configured, an exception
      raised by any stage becomes 500 "Failed to create ritual", and the 400
      answer arises only from an empty media list. */
  lemma RunErrors(keys: Keys, stages: Stages, request: RitualRequest, userId: string, createdAt: string)
    ensures var run := CreateRitualRun(keys, stages, request, userId, createdAt);
      var analysis := stages.emotion(request.text, userId);
      var media := stages.media(request.comfortMedia);
      && (keys.openAi && keys.qloo && analysis.Raised? ==> run.response == HttpError(500, RitualFailed))
      && (keys.openAi && keys.qloo && analysis.Returned? && media.Raised? ==>
            run.response == HttpError(500, RitualFailed))
      && (keys.openAi && keys.qloo && analysis.Returned? && media.Returned? && media.value != [] ==>
            var recs := QlooRecommendations(media.value, analysis.value, stages.qloo);
            && (recs.Raised? ==> run.response == HttpError(500, RitualFailed))
            && (recs.Returned? && stages.narrative(analysis.value, recs.value, request.preferences).Raised? ==>
                  run.response == HttpError(500, RitualFailed)))
      && (run.response == HttpError(400, NoMediaIdentified) <==>
            keys.openAi && keys.qloo && analysis.Returned? && media == Returned([]))
  {
  }

  /** The calls of the recommendation stage and the narrative stage, after
      the first two, are in pipeline order. */
  lemma TailInOrder(e: Call, m: Call, r: Call, qs: seq<Call>, tail: seq<Call>)
    requires e.EmotionCall? && m.MediaCall? && r.RecommendCall?
    requires |qs| == 1 && qs[0].QlooCall?
    requires |tail| <= 1 && forall n :: n in tail ==> n.NarrativeCall?
    ensures InPipelineOrder([e, m, r] + qs + tail)
  {
    var calls := [e, m, r] + qs + tail;
    forall i | 0 <= i < |calls|
      ensures Rank(calls[i]) == i
    {
      if i == 3 {
        assert calls[i] == qs[0];
      } else if i == 4 {
        assert calls[i] in tail;
      }
    }
  }

  /** The calls of the last two stages: the recommendation stage and its
      request, then the narrative stage unless recommendation raised. */
  lemma RestCalls(stages: Stages, request: RitualRequest, userId: string, createdAt: string,
                  analysis: Context, media: seq<MediaItem>)
    ensures var recs := QlooRecommendations(media, analysis, stages.qloo);
      RecommendAndNarrate(stages, request, userId, createdAt, analysis, media).calls ==
        [RecommendCall(media, analysis)] + QlooCalls(media, analysis)
        + (if recs.Returned? then [NarrativeCall(analysis, recs.value, request.preferences)] else [])
  {
    var recs := QlooRecommendations(media, analysis, stages.qloo);
    if recs.Raised? {
      var head := [RecommendCall(media, analysis)] + QlooCalls(media, analysis);
      assert head + [] == head;
    }
  }

  /** Every run makes its calls in pipeline order. */
  lemma RunFollowsPipelineOrder(keys: Keys, stages: Stages, request: RitualRequest, userId: string,
                                createdAt: string)
    ensures InPipelineOrder(CreateRitualRun(keys, stages, request, userId, createdAt).calls)
  {
    var analysis := stages.emotion(request.text, userId);
    var media := stages.media(request.comfortMedia);
    if keys.openAi && keys.qloo && analysis.Returned? && media.Returned? && media.value != [] {
      var e, m := EmotionCall(request.text, userId), MediaCall(request.comfortMedia);
      var r := RecommendCall(media.value, analysis.value);
      var qs := QlooCalls(media.value, analysis.value);
      var recs := QlooRecommendations(media.value, analysis.value, stages.qloo);
      var tail := if recs.Returned? then [NarrativeCall(analysis.value, recs.value, request.preferences)] else [];
      RestCalls(stages, request, userId, createdAt, analysis.value, media.value);
      assert CreateRitualRun(keys, stages, request, userId, createdAt).calls == [e, m] + ([r] + qs + tail);
      assert [e, m] + ([r] + qs + tail) == [e, m, r] + qs + tail;
      TailInOrder(e, m, r, qs, tail);
    }
  }

  /** A completed run made every call, in order, each stage receiving the
      outputs of the stages before it, and its row records those outputs,
      with `general` and `30min` as the defaults for a missing need and
      duration. */
  lemma CompletedRun(keys: Keys, stages: Stages, request: RitualRequest, userId: string, createdAt: string)
    ensures var run := CreateRitualRun(keys, stages, request, userId, createdAt);
      run.response.Ok? ==>
              var analysis := stages.emotion(request.text, userId);
              var media := stages.media(request.comfortMedia);
              && analysis.Returned? && media.Returned?
              && var recs := QlooRecommendations(media.value, analysis.value, stages.qloo);
              && recs.Returned?
              && var content := stages.narrative(analysis.value, recs.value, request.preferences);
              && content.Returned?
              && run.calls == [EmotionCall(request.text, userId), MediaCall(request.comfortMedia),
                               RecommendCall(media.value, analysis.value)]
                              + QlooCalls(media.value, analysis.value)
                              + [NarrativeCall(analysis.value, recs.value, request.preferences)]
              && var row := run.row.value;
              && row.userId == userId
              && row.comfortMedia == request.comfortMedia
              && row.recommendations == recs.value
              && row.ritualContent == content.value
              && row.emotionalNeed == LookupOr(analysis.value, "primary_need", "general")
              && row.estimatedDuration == LookupOr(analysis.value, "recommended_duration", "30min")
              && row.rating == None
              && row.createdAt == createdAt
  {
  }

  /** With the stages as the code has them and both keys configured, a request
      fails only when the service's reply has an unexpected shape; otherwise
      it records the constant analysis and narrative, and the burnout entry of
      the fallback table whenever the service call fails. */
  lemma AsWrittenRun(qloo: QlooRequest -> QlooReply, request: RitualRequest, userId: string, createdAt: string)
    ensures var run := CreateRitualRun(Keys(true, true), AsWrittenStages(qloo), request, userId, createdAt);
      var reply := qloo(BuildRequest(IntelligentMediaParsing(request.comfortMedia),
                                     EnhancedEmotionAnalysis(request.text, userId)));
      && (run.response.Ok? <==> !reply.UnexpectedBody?)
      && (!run.response.Ok? ==> run.response == HttpError(500, RitualFailed))
      && (run.response.Ok? ==>
            var row := run.response.body.ritual;
            && row.emotionalNeed == "Peace and quiet"
            && row.estimatedDuration == "30min"
            && row.ritualContent == CannedRitual
            && (reply.RequestFailed? ==> row.recommendations == BurnoutFallback)
            && (reply.Body? ==> row.recommendations == Collected(BaseDomains, reply.data)))
  {
    var stages := AsWrittenStages(qloo);
    var analysis := EnhancedEmotionAnalysis(request.text, userId);
    var media := IntelligentMediaParsing(request.comfortMedia);
    assert stages.emotion(request.text, userId) == Returned(analysis);
    assert stages.media(request.comfortMedia) == Returned(media);
    forall recs: map<string, string>
      ensures stages.narrative(analysis, recs, request.preferences) == Returned(CannedRitual)
    {
    }
    SteadyRun(stages, request, userId, createdAt, analysis, media, CannedRitual);
    AsWrittenAnalysis(request.text, userId);
  }

  /** A configured run whose first two stages return `analysis` and a
      non-empty `media`, and whose narrative stage always returns `text`. */
  lemma SteadyRun(stages: Stages, request: RitualRequest, userId: string, createdAt: string,
                  analysis: Context, media: seq<MediaItem>, text: string)
    requires stages.emotion(request.text, userId) == Returned(analysis)
    requires stages.media(request.comfortMedia) == Returned(media) && media != []
    requires forall recs :: stages.narrative(analysis, recs, request.preferences) == Returned(text)
    ensures var run := CreateRitualRun(Keys(true, true), stages, request, userId, createdAt);
      var reply := stages.qloo(BuildRequest(media, analysis));
      && (run.response.Ok? <==> !reply.UnexpectedBody?)
      && (!run.response.Ok? ==> run.response == HttpError(500, RitualFailed))
      && (run.response.Ok? ==>
            var row := run.response.body.ritual;
            && row.emotionalNeed == LookupOr(analysis, "primary_need", "general")
            && row.estimatedDuration == LookupOr(analysis, "recommended_duration", "30min")
            && row.ritualContent == text
            && (reply.RequestFailed? ==> row.recommendations == GetFallbackRecommendations(analysis))
            && (reply.Body? ==> row.recommendations == Collected(SelectDomains(analysis), reply.data)))
  {
    var rest := RecommendAndNarrate(stages, request, userId, createdAt, analysis, media);
    assert CreateRitualRun(Keys(true, true), stages, request, userId, createdAt).response == rest.response;
    SteadyNarrativeRest(stages, request, userId, createdAt, analysis, media, text);
  }

  /** The last two stages with a narrative stage that always returns `text`:
      the run fails only on a reply of unexpected shape, and the row holds
      `text` and the recommendations the reply or the fallback gives. */
  lemma SteadyNarrativeRest(stages: Stages, request: RitualRequest, userId: string, createdAt: string,
                            analysis: Context, media: seq<MediaItem>, text: string)
    requires media != []
    requires forall recs :: stages.narrative(analysis, recs, request.preferences) == Returned(text)
    ensures var rest := RecommendAndNarrate(stages, request, userId, createdAt, analysis, media);
      var reply := stages.qloo(BuildRequest(media, analysis));
      && (rest.response.Ok? <==> !reply.UnexpectedBody?)
      && (!rest.response.Ok? ==> rest.response == HttpError(500, RitualFailed))
      && (rest.response.Ok? ==>
            var row := rest.response.body.ritual;
            && row.emotionalNeed == LookupOr(analysis, "primary_need", "general")
            && row.estimatedDuration == LookupOr(analysis, "recommended_duration", "30min")
            && row.ritualContent == text
            && (reply.RequestFailed? ==> row.recommendations == GetFallbackRecommendations(analysis))
            && (reply.Body? ==> row.recommendations == Collected(SelectDomains(analysis), reply.data)))
  {
  }

  /** The constant analysis selects the base domains, falls back to the
      burnout entry and records "Peace and quiet" for thirty minutes. */
  lemma AsWrittenAnalysis(text: string, userId: string)
    ensures var analysis := EnhancedEmotionAnalysis(text, userId);
      && SelectDomains(analysis) == BaseDomains
      && GetFallbackRecommendations(analysis) == BurnoutFallback
      && LookupOr(analysis, "primary_need", "general") == "Peace and quiet"
      && LookupOr(analysis, "recommended_duration", "30min") == "30min"
  {
  }

  /** The `/get-ritual` service: the rituals table, and the log of every
      stage invocation and service request made so far. */
  class RitualService {
    const keys: Keys
    const stages: Stages
    var rituals: seq<RitualRecord>
    ghost var calls: seq<Call>

    constructor (keys: Keys, stages: Stages, rituals: seq<RitualRecord>)
      ensures this.keys == keys && this.stages == stages
      ensures this.rituals == rituals && calls == []
    {
      this.keys := keys;
      this.stages := stages;
      this.rituals := rituals;
      calls := [];
    }

    /** `create_ritual`, step by step: the table gains the run's row, if any,
        and the log gains the run's calls. */
    method CreateRitual(request: RitualRequest, userId: string, createdAt: string)
      returns (response: Response<RitualResponse>)
      modifies this
      ensures var run := CreateRitualRun(keys, stages, request, userId, createdAt);
        && response == run.response
        && rituals == old(rituals) + RowsOf(run.row)
        && calls == old(calls) + run.calls
    {
      if !keys.openAi || !keys.qloo {
        return HttpError(500, KeysMissing);
      }
      response := StagesStep(request, userId, createdAt);
    }

    /** The stages of `create_ritual` once both keys are configured. */
    method StagesStep(request: RitualRequest, userId: string, createdAt: string)
      returns (response: Response<RitualResponse>)
      modifies this
      ensures var run := StagesRun(stages, request, userId, createdAt);
        && response == run.response
        && rituals == old(rituals) + RowsOf(run.row)
        && calls == old(calls) + run.calls
    {
      ghost var before := calls;
      calls := before + [EmotionCall(request.text, userId)];
      var analysis := stages.emotion(request.text, userId);
      if analysis.Raised? {
        return HttpError(500, RitualFailed);
      }
      calls := before + [EmotionCall(request.text, userId), MediaCall(request.comfortMedia)];
      var media := stages.media(request.comfortMedia);
      if media.Raised? {
        return HttpError(500, RitualFailed);
      }
      if media.value == [] {
        return HttpError(400, NoMediaIdentified);
      }
      response := RecommendAndNarrateStep(request, userId, createdAt, analysis.value, media.value);
    }

    /** Stages 3 and 4 of `create_ritual` and the insert of the row. */
    method RecommendAndNarrateStep(request: RitualRequest, userId: string, createdAt: string,
                                   analysis: Context, media: seq<MediaItem>)
      returns (response: Response<RitualResponse>)
      requires media != []
      modifies this
      ensures var rest := RecommendAndNarrate(stages, request, userId, createdAt, analysis, media);
        && response == rest.response
        && rituals == old(rituals) + RowsOf(rest.row)
        && calls == old(calls) + rest.calls
    {
      ghost var before := calls;
      var recommendations, sent := EnhancedQlooRecommendations(media, analysis, stages.qloo);
      assert sent[0] in sent;
      assert sent == [BuildRequest(media, analysis)];
      calls := before + [RecommendCall(media, analysis), QlooCall(sent[0])];
      if recommendations.Raised? {
        return HttpError(500, RitualFailed);
      }
      calls := calls + [NarrativeCall(analysis, recommendations.value, request.preferences)];
      var content := stages.narrative(analysis, recommendations.value, request.preferences);
      if content.Raised? {
        return HttpError(500, RitualFailed);
      }
      var row := RitualRecord(userId,
                              LookupOr(analysis, "primary_need", "general"),
                              request.comfortMedia,
                              content.value,
                              recommendations.value,
                              LookupOr(analysis, "recommended_duration", "30min"),
                              None,
                              createdAt);
      rituals := rituals + [row];
      response := Ok(RitualResponse(row, true));
    }
  }
}
