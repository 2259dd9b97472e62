# Sanctuary ritual pipeline in Dafny

Sanctuary is a wellness-ritual generator. A user sends free text about how
they feel plus a list of "comfort media". The `/get-ritual` endpoint then
runs four stages in order:

1. emotion analysis;
2. media parsing;
3. a recommendation lookup against the Qloo taste service, with a static
   fallback table;
4. narrative generation.

It stores the resulting ritual row and returns it. This project models:

- that endpoint and the `/analyze-emotion` endpoint (`backend/main.py`);
- the helpers they rely on (`backend/utils/helpers.py`): the
  recommendation lookup and its domain selection, the request it sends,
  the loop that reads the reply, the fallback table, cache keys, and the
  fence stripping that cleans generated JSON.

Files:

- `wrappers.dfy`: `Option`, and `Outcome` (a value returned, or an
  exception raised).
- `pystr.dfy`: the Python string operations the helpers use, with
  Python's semantics. These are `str.replace` (leftmost, non-overlapping),
  `sep.join` and one-character `str.split`. It also proves that replacing
  with `""` is the identity exactly when the pattern is absent, and that
  `split` undoes `join`.
- `helpers.dfy`: the helpers.
  - `EnhancedQlooRecommendations` is a method, because the source fills
    its result dict in place in a nested loop. Its loop is `ReadReply`,
    proved equal to the function `Collected`. `Collected` is then
    characterised by lemmas: which keys appear, and which item each holds.
  - Domain selection, the fallback table, cache keys and fence stripping
    are pure expressions in the source, and are functions here.
- `api.dfy`: the two endpoints.
  - `/get-ritual` is the function `CreateRitualRun`. It returns the
    response, the sequence of stage invocations and service requests made,
    and the row inserted, if any. Lemmas state its outcomes, its call
    order and the contents of a completed row.
  - `RitualService` holds the rituals table, updated in place.
    `RitualService.CreateRitual` is the step-by-step method. It is proved
    to append exactly that row and those calls.

The stages 1, 2 and 4 and the Qloo service are parameters (`Stages`), so
the endpoint is proved for whatever they do. In the code, stages 1, 2
and 4 return constants before they reach their model calls. That code has
them as `EnhancedEmotionAnalysis`, `IntelligentMediaParsing` and
`CreatePersonalizedRitual` (the code after those `return`s never runs).
`AsWrittenStages` wires them in, and `AsWrittenRun` states what
`/get-ritual` then does.

Three behaviours of the code shape the model:

- Stages 1, 2 and 4 return constants. Even so, any exception other than
  an `HTTPException` raised by a stage during `create_ritual` becomes 500
  "Failed to create ritual" (`backend/main.py:234-236`). An
  `HTTPException` passes through unchanged (`backend/main.py:232-233`).
  The stage parameters may raise; no stage raises an `HTTPException`.
- The recommendation lookup falls back to the static table for an empty
  seed (`backend/utils/helpers.py:211-212`). Of the exceptions, only a
  `requests` `RequestException` falls back
  (`backend/utils/helpers.py:275-277`). A
  decoded reply whose shape makes the reading code raise anything else
  propagates (`QlooReply.UnexpectedBody`), and `/get-ritual` then answers
  500.
- A selected domain whose reply list is missing or empty adds no entries
  (`backend/utils/helpers.py:260`).

## Model

| member | source | states |
|---|---|---|
| PyStr.RemoveIdentity | backend/utils/helpers.py:10 | `s.replace(pat, "")` leaves `s` unchanged if and only if `pat` does not occur in `s` |
| PyStr.SplitJoin | backend/utils/helpers.py:19 | splitting `":".join(parts)` on `:` gives back `parts` when no part holds a colon |
| Helpers.StripFencesIdentity | backend/utils/helpers.py:10 | the fence stripping changes the text if and only if it contains an opening ```` ```json\n ```` or a closing ```` \n``` ```` fence |
| Helpers.StripFencesUnwraps | backend/utils/helpers.py:10 | a backquote-free reply wrapped in a JSON code fence is unwrapped to exactly the reply |
| Helpers.CleanGeminiResponse | backend/utils/helpers.py:8-15 | the parser sees the raw text itself when it holds no fence, in particular when it holds no backquote; a parse error is raised again |
| Helpers.CacheKeyRoundTrip | backend/utils/helpers.py:17-19 | a cache key splits on `:` into its prefix followed by its arguments; with no arguments, into the prefix and one empty field (`prefix:`) |
| Helpers.SelectDomains | backend/utils/helpers.py:228-235 | `creative_block` selects music, book, film, whatever the urgency; otherwise urgency `high` selects music, podcast; otherwise all four base domains; each in both directions |
| Helpers.SelectedDomainsWellFormed | backend/utils/helpers.py:229-235 | every selected list is non-empty, starts with music, uses only base domains, repeats none, and no domain equals another's `_alt` key |
| Helpers.GetFallbackRecommendations | backend/utils/helpers.py:279-306 | every fallback entry has exactly three keys, always music and book, all among the base domains |
| Helpers.FallbackDefaultsToGeneral | backend/utils/helpers.py:281-306 | a missing or unknown wellness category gets the `general` entry |
| Helpers.FallbackDependsOnlyOnCategory | backend/utils/helpers.py:279-306 | the fallback depends on the wellness category alone |
| Helpers.FormatItem | backend/utils/helpers.py:263-267 | the text starts with the quoted name (`'None'` when absent), followed by ` by ` and the author when it is truthy, else by the artist when that is truthy, else by nothing |
| Helpers.AuthorWins | backend/utils/helpers.py:264-267 | a truthy author makes the artist irrelevant |
| Helpers.EntriesOfTopTwo | backend/utils/helpers.py:261-270 | one domain's items write the first under the domain and the second under `domain_alt`, and nothing else |
| Helpers.CollectedKeys | backend/utils/helpers.py:258-271 | every key the loop writes is a handled domain or its `_alt` key |
| Helpers.CollectedAt | backend/utils/helpers.py:258-271 | for each domain the loop handles, its key holds the first item if and only if the reply list is non-empty, and its `_alt` key the second if and only if the list has two or more |
| Helpers.ReadReply | backend/utils/helpers.py:258-271 | the nested loop builds exactly `Collected(domains, data)` |
| Helpers.QlooRecommendations | backend/utils/helpers.py:209-277 | an empty seed or a `RequestException` gives the fallback; the call raises if and only if a sent request gets a reply of unexpected shape; a live result has only selected-domain keys |
| Helpers.LiveReplyContents | backend/utils/helpers.py:258-273 | a live reply yields, for each selected domain, its first two items under the domain and its `_alt` key exactly when the reply has them |
| Helpers.EnhancedQlooRecommendations | backend/utils/helpers.py:209-277 | the method computes `QlooRecommendations`; it sends no request if and only if the seed is empty, and otherwise one, carrying the seed, the selected domains, limit 2 per domain, similar items included, and a 10-second timeout |
| Api.AnalyzeEmotion | backend/main.py:153-172 | no OpenAI key gives 500 "OpenAI API key not configured"; success if and only if the key is set, the analysis returns, and it has `primary_need`; success echoes the need, the analysis and the user; any failure is 500 "Analysis failed: ..." |
| Api.RunOutcomes | backend/main.py:174-236 | a missing key gives 500 before any stage runs; a row is stored if and only if the answer is success, and the answer carries that row; an empty media list gives 400 after two stages; the only errors are those 500/400/500 answers |
| Api.RunErrors | backend/main.py:174-236 | with both keys configured, an exception from the emotion, media, recommendation or narrative stage is answered with exactly 500 "Failed to create ritual"; the 400 answer arises if and only if the keys are configured, the analysis returned and the media stage returned an empty list |
| Api.RestCalls | backend/main.py:201-209 | stage 3 and its service request are followed by the narrative call unless stage 3 raised |
| Api.RunFollowsPipelineOrder | backend/main.py:180-209 | every run's calls are a prefix of: emotion stage, media stage, recommendation stage, service request, narrative stage |
| Api.CompletedRun | backend/main.py:180-230 | a successful run made all calls in order, each stage getting the previous stages' outputs; the row holds the user, the media, the recommendations and the narrative, with need and duration defaulting to `general` and `30min` |
| Api.SteadyNarrativeRest | backend/main.py:201-230 | with a narrative stage that always returns, stages 3 and 4 fail if and only if the reply has an unexpected shape, and then with 500 "Failed to create ritual"; otherwise the row holds the analysis's need and duration (defaulted), the narrative, and the recommendations from the reply or the fallback |
| Api.SteadyRun | backend/main.py:180-236 | the same for a whole configured run whose first two stages return an analysis and a non-empty media list |
| Api.AsWrittenAnalysis | backend/utils/helpers.py:48-55 | the constant analysis selects all four domains, falls back to the burnout entry, and records "Peace and quiet" for `30min` |
| Api.AsWrittenRun | backend/main.py:180-236 | with the stages as written, a run fails if and only if the reply has an unexpected shape, and then with 500 "Failed to create ritual"; otherwise the row holds the constant need, duration and narrative, the burnout fallback when the request fails, and the collected reply otherwise |
| Api.RitualService.CreateRitual | backend/main.py:174-236 | the endpoint answers as `CreateRitualRun`; the rituals table gains exactly that run's row, if any, and the call log exactly its calls |
| Api.RitualService.StagesStep | backend/main.py:180-236 | past the key check, the same for stages 1 to 4 |
| Api.RitualService.RecommendAndNarrateStep | backend/main.py:201-230 | the same for stages 3 and 4 and the insert |

The modelled source functions themselves, whose properties the rows above
state:

- `Api.CreateRitualRun` models `create_ritual` (`backend/main.py:174-236`).
  `Api.StagesRun` and `Api.RecommendAndNarrate` model its stages after the
  key check.
- `Helpers.EnhancedEmotionAnalysis` models `enhanced_emotion_analysis`
  (`backend/utils/helpers.py:48-55`).
- `Helpers.IntelligentMediaParsing` models `intelligent_media_parsing`
  (`backend/utils/helpers.py:132`).
- `Helpers.CreatePersonalizedRitual` models `create_personalized_ritual`
  (`backend/utils/helpers.py:315-328`).
- `Helpers.GetCacheKey` models `get_cache_key`
  (`backend/utils/helpers.py:17-19`).
- `Helpers.StripFences` models the fence stripping
  (`backend/utils/helpers.py:10`).

## Left out

- The HTTP transports are oracles: the Qloo POST (`requests.post`,
  `raise_for_status`, `response.json()`) and the generative-text calls.
  The service's behaviour is the parameter `QlooRequest -> QlooReply`.
  `RequestFailed` stands for every `RequestException`: timeout, error
  status, transport error, undecodable body.
- `json.loads` in `clean_gemini_response` is a parameter, `parse`.
- The `X-Api-Key` header and the service URL (`settings.QLOO_API_URL`) are
  not part of the modelled request.
- The API keys are boolean inputs. The `Settings` class in
  `backend/utils/config.py` declares no `OPENAI_API_KEY` or
  `QLOO_API_KEY`, so reading them there would raise. The model takes each
  key as configured or not.
- Only the string-valued fields of an emotional analysis are modelled.
  `stress_level` and `secondary_emotions` are left out.
- The debug writes are left out: `structured_seed.json`,
  `emotional_context.json`, `domains.json` and `ritual.json`. The model
  does not capture an `OSError` from them.
- The logger calls are left out.
- The timestamps are left out. `datetime.utcnow()` in `/analyze-emotion`
  is dropped from the reply. `datetime.now(...)` in `/get-ritual` is the
  parameter `createdAt`.
- Api.RitualService.CreateRitual: the database insert (`_insert`) is
  taken to succeed. A failing insert, which the source reports as 500, is
  not modelled.
- `cache_get`, `cache_set` and every commented-out caching path are left
  out.
- The code after the constant `return` in `enhanced_emotion_analysis`,
  `intelligent_media_parsing` and `create_personalized_ritual` is left
  out, because it cannot run.
- Authentication is left out: sign-up, sign-in, tokens, `/me`,
  `/refresh`, `/change-password` and `get_current_user`. The caller's id
  is the parameter `userId`.
- `/feedback`, `/health`, the CORS set-up and the app wiring are outside
  the modelled core.
- Async execution and concurrency are left out. Each request runs as one
  sequential computation.
- Helpers.GetCacheKey: the arguments are already strings. Python's
  `str(arg)` conversion of other values is not modelled.
- PyStr.Split is modelled only for a one-character separator, the only
  kind the cache keys use.
- Helpers.QlooRecommendations: a reply's values are not modelled as
  arbitrary JSON. A falsy value under a domain (`null`, `""`, `0`, `{}`,
  `false`) is skipped like a missing key (`backend/utils/helpers.py:260`),
  so it is a `Body` without that key. A truthy value that is not a list,
  or an item that is not a dict (`backend/utils/helpers.py:261-263`),
  raises, and so it is `UnexpectedBody`.
