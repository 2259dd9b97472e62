/** The helpers behind the ritual pipeline: cleaning a generated JSON reply,
    cache keys, the three generation stages as the code currently has them,
    and the recommendation lookup with its fallback table. */
module Helpers {
  import opened Wrappers
  import opened PyStr

  /** The string-valued fields of an emotional analysis, by key
      (`primary_need`, `urgency`, `wellness_category`, ...). */
  type Context = map<string, string>

  /** Python's `d.get(key)`. */
  function Lookup(ctx: Context, key: string): Option<string>
  {
    if key in ctx then Some(ctx[key]) else None
  }

  /** Python's `d.get(key, default)`. */
  function LookupOr(ctx: Context, key: string, default: string): string
  {
    if key in ctx then ctx[key] else default
  }

  // ---------------------------------------------------------------------
  // clean_gemini_response

  const JsonFenceOpen: string := "```json\n"
  const JsonFenceClose: string := "\n```"

  /** The text handed to the JSON parser: every opening fence removed, then
      every closing fence. */
  function StripFences(raw: string): string
  {
    Replace(Replace(raw, JsonFenceOpen, ""), JsonFenceClose, "")
  }

  /** Stripping changes nothing exactly when neither fence occurs. */
  lemma StripFencesIdentity(raw: string)
    ensures StripFences(raw) == raw <==> !Contains(raw, JsonFenceOpen) && !Contains(raw, JsonFenceClose)
  {
    var mid := Replace(raw, JsonFenceOpen, "");
    RemoveIdentity(raw, JsonFenceOpen);
    RemoveShortens(raw, JsonFenceOpen);
    RemoveIdentity(mid, JsonFenceClose);
    RemoveShortens(mid, JsonFenceClose);
  }

  /** Removing the closing fence from `body + "\n```"` gives back `body`
      when `body` holds no backquote. */
  lemma {:induction false} StripClosingFence(body: string)
    requires '`' !in body
    ensures Replace(body + JsonFenceClose, JsonFenceClose, "") == body
    decreases |body|
  {
    var t := body + JsonFenceClose;
    if |body| == 0 {
      assert t == JsonFenceClose;
      assert t[..|JsonFenceClose|] == JsonFenceClose;
      assert t[|JsonFenceClose|..] == "";
    } else {
      assert t[1] != '`' by {
        if |body| > 1 { assert t[1] == body[1]; } else { assert t[1] == '\n'; }
      }
      assert t[..|JsonFenceClose|] != JsonFenceClose by {
        assert JsonFenceClose[1] == '`';
      }
      assert t[1..] == body[1..] + JsonFenceClose;
      StripClosingFence(body[1..]);
      assert body == [body[0]] + body[1..];
    }
  }

  /** A reply wrapped in a JSON code fence is unwrapped exactly, provided the
      reply itself holds no backquote. */
  lemma StripFencesUnwraps(body: string)
    requires '`' !in body
    ensures StripFences(JsonFenceOpen + body + JsonFenceClose) == body
  {
    var raw := JsonFenceOpen + body + JsonFenceClose;
    var t := body + JsonFenceClose;
    assert raw[..|JsonFenceOpen|] == JsonFenceOpen;
    assert raw[|JsonFenceOpen|..] == t;
    assert !Contains(t, JsonFenceOpen) by {
      forall i: nat | i <= |t| && i + |JsonFenceOpen| <= |t|
        ensures !MatchesAt(t, JsonFenceOpen, i)
      {
        assert t[i] == body[i];
        assert t[i..i + |JsonFenceOpen|][0] == t[i];
      }
    }
    ReplaceAbsent(t, JsonFenceOpen, "");
    assert Replace(raw, JsonFenceOpen, "") == t;
    StripClosingFence(body);
  }

  /** Text without a backquote holds neither fence. */
  lemma NoBackquoteNoFence(raw: string)
    requires '`' !in raw
    ensures !Contains(raw, JsonFenceOpen) && !Contains(raw, JsonFenceClose)
  {
    forall i: nat | i <= |raw|
      ensures !MatchesAt(raw, JsonFenceOpen, i) && !MatchesAt(raw, JsonFenceClose, i)
    {
      if i + |JsonFenceOpen| <= |raw| {
        assert raw[i..i + |JsonFenceOpen|][0] == raw[i];
      }
      if i + |JsonFenceClose| <= |raw| {
        assert raw[i..i + |JsonFenceClose|][1] == raw[i + 1];
      }
    }
  }

  /** `clean_gemini_response`: strips the fences and hands the text to the
      JSON parser `parse`; a parse error is raised again unchanged. */
  function CleanGeminiResponse<T>(raw: string, parse: string -> Outcome<T>): (r: Outcome<T>)
    ensures !Contains(raw, JsonFenceOpen) && !Contains(raw, JsonFenceClose) ==> r == parse(raw)
    ensures '`' !in raw ==> r == parse(raw)
  {
    StripFencesIdentity(raw);
    if '`' !in raw then NoBackquoteNoFence(raw); parse(StripFences(raw))
    else parse(StripFences(raw))
  }

  // ---------------------------------------------------------------------
  // get_cache_key

  /** `prefix:arg1:arg2:...`; with no arguments, `prefix:`. */
  function GetCacheKey(prefix: string, args: seq<string>): string
  {
    prefix + ":" + Join(":", args)
  }

  /** A cache key splits back into its prefix and arguments when none of them
      holds a colon; with no arguments the key ends in an empty field. */
  lemma CacheKeyRoundTrip(prefix: string, args: seq<string>)
    requires ':' !in prefix
    requires forall i :: 0 <= i < |args| ==> ':' !in args[i]
    ensures Split(GetCacheKey(prefix, args), ':') == [prefix] + (if args == [] then [""] else args)
  {
    SplitAtSeparator(prefix, Join(":", args), ':');
    if args != [] {
      SplitJoin(args, ':');
    }
  }

  // ---------------------------------------------------------------------
  // The generation stages as the code has them: each returns a constant
  // before reaching its remote call.

  /** `enhanced_emotion_analysis` (its string-valued fields). */
  function EnhancedEmotionAnalysis(text: string, userId: string): Context
  {
    map["primary_need" := "Peace and quiet",
        "recommended_duration" := "30min",
        "urgency" := "medium",
        "wellness_category" := "burnout"]
  }

  /** One structured media reference: its catalogue type and its name. */
  datatype MediaItem = MediaItem(kind: string, name: string)

  /** `intelligent_media_parsing`. */
  function IntelligentMediaParsing(mediaList: seq<string>): seq<MediaItem>
  {
    [MediaItem("book/book", "The Ocean at the End of the Lane"),
     MediaItem("music/album", "Music for Airports"),
     MediaItem("music/artist", "Brian Eno")]
  }

  /** `create_personalized_ritual`. */
  function CreatePersonalizedRitual(analysis: Context, recommendations: map<string, string>,
                                    preferences: map<string, string>): string
  {
    CannedRitual
  }

  const CannedRitual: string :=
    "\n" +
    "    **Tonight's Ritual: A Sanctuary of Stillness**\n" +
    "\n" +
    "My dear friend, I sense you're carrying a weight, a gentle hum of stress.  Let's create a space for that to melt away. This ritual is designed to ease your mind and soothe your soul.\n" +
    "\n" +
    "Begin by settling into a comfortable position. Dim the lights if you like.  Let the immersive soundscapes of Jon Hopkins' *Immunity* wash over you. Allow the music's ebb and flow to mirror the rhythm of your breath, easing tension from your shoulders and jaw. (10 mins)\n" +
    "\n" +
    "As the music gently fades,  we'll shift to a different kind of listening. Put on an episode of 'Nothing Much Happens'.  This podcast's gentle pace and ordinary stories offer a grounding counterpoint to the rich sounds of the music, inviting you to simply be present, without striving. (10 mins)\n" +
    "\n" +
    "Finally, to deepen your sense of peace, open 'The Power of Now' by Eckhart Tolle. Read just a page or two\U{2014}focus on a passage that resonates, allowing its wisdom to settle in your heart. This gentle practice connects your inner calm with insightful guidance. (10 mins)\n" +
    "\n" +
    "\n" +
    "Close your eyes, and breathe deeply.  Repeat to yourself, \U{201C}I am calm. I am peaceful. I am present.\U{201D}  May this quietude linger with you long after our ritual ends.\n" +
    "    "

  // ---------------------------------------------------------------------
  // Domain selection

  const Music: string := "music"
  const Book: string := "book"
  const Film: string := "film"
  const Podcast: string := "podcast"
  const BaseDomains: seq<string> := [Music, Book, Film, Podcast]

  /** The recommendation domains asked for, chosen from the category and the
      urgency of the analysis. */
  function SelectDomains(ctx: Context): (domains: seq<string>)
    ensures Lookup(ctx, "wellness_category") == Some("creative_block") <==> domains == [Music, Book, Film]
    ensures Lookup(ctx, "wellness_category") != Some("creative_block") && Lookup(ctx, "urgency") == Some("high")
            <==> domains == [Music, Podcast]
    ensures domains in {[Music, Book, Film], [Music, Podcast], BaseDomains}
  {
    if Lookup(ctx, "wellness_category") == Some("creative_block") then [Music, Book, Film]
    else if Lookup(ctx, "urgency") == Some("high") then [Music, Podcast]
    else BaseDomains
  }

  /** No domain is repeated, and no domain is another's `_alt` key, so the
      keys written for different domains never collide. */
  predicate Unambiguous(domains: seq<string>)
  {
    && (forall i, j :: 0 <= i < j < |domains| ==> domains[i] != domains[j])
    && (forall i, j :: 0 <= i < |domains| && 0 <= j < |domains| ==> domains[i] != domains[j] + "_alt")
  }

  /** Every selected list is a non-empty, unambiguous list of base domains
      that starts with music. */
  lemma SelectedDomainsWellFormed(ctx: Context)
    ensures var domains := SelectDomains(ctx);
      && Unambiguous(domains)
      && 0 < |domains| && domains[0] == Music
      && forall d :: d in domains ==> d in BaseDomains
  {
    var domains := SelectDomains(ctx);
    forall i, j | 0 <= i < |domains| && 0 <= j < |domains|
      ensures domains[i] != domains[j] + "_alt"
    {
      assert |domains[i]| < |domains[j] + "_alt"| || domains[i][|domains[j]|] != '_';
    }
  }

  // ---------------------------------------------------------------------
  // get_fallback_recommendations

  const FallbackCategories: set<string> := {"burnout", "creative_block", "anxiety", "general"}

  /** The entries of the static fallback table, one per wellness category. */
  const BurnoutFallback: map<string, string> := map[
      "music" := "the album 'Immunity' by Jon Hopkins",
      "podcast" := "the podcast 'Nothing Much Happens'",
      "book" := "the book 'The Power of Now' by Eckhart Tolle"]
  const CreativeBlockFallback: map<string, string> := map[
      "music" := "the album 'Music for Airports' by Brian Eno",
      "film" := "the documentary 'Abstract: The Art of Design'",
      "book" := "the book 'Big Magic' by Elizabeth Gilbert"]
  const AnxietyFallback: map<string, string> := map[
      "music" := "the album 'Weightless' by Marconi Union",
      "podcast" := "the podcast 'Calm'",
      "book" := "the book 'Anxious Thoughts' by Katie Krimer"]
  const GeneralFallback: map<string, string> := map[
      "music" := "the album 'Vespertine' by Bj\U{00F6}rk",
      "film" := "the movie 'My Neighbor Totoro'",
      "book" := "the book 'The Midnight Library' by Matt Haig"]

  /** The static fallback table, keyed by wellness category. */
  const FallbackDb: map<string, map<string, string>> := map[
    "burnout" := BurnoutFallback, "creative_block" := CreativeBlockFallback,
    "anxiety" := AnxietyFallback, "general" := GeneralFallback]

  /** The table entry for the analysis's category; a missing category reads
      as `general`, and an unknown one gets the `general` entry. */
  function GetFallbackRecommendations(ctx: Context): (recs: map<string, string>)
    ensures |recs.Keys| == 3 && Music in recs && Book in recs
    ensures recs.Keys <= {Music, Book, Film, Podcast}
  {
    var category := LookupOr(ctx, "wellness_category", "general");
    if category in FallbackDb then FallbackDb[category] else FallbackDb["general"]
  }

  /** A category outside the table, or none at all, gets the `general` entry. */
  lemma FallbackDefaultsToGeneral(ctx: Context)
    requires "wellness_category" in ctx ==> ctx["wellness_category"] !in FallbackCategories
    ensures GetFallbackRecommendations(ctx) == GeneralFallback
    ensures GetFallbackRecommendations(ctx) ==
            GetFallbackRecommendations(map["wellness_category" := "general"])
  {
  }

  /** The fallback depends on the category alone. */
  lemma FallbackDependsOnlyOnCategory(ctx1: Context, ctx2: Context)
    requires LookupOr(ctx1, "wellness_category", "general") == LookupOr(ctx2, "wellness_category", "general")
    ensures GetFallbackRecommendations(ctx1) == GetFallbackRecommendations(ctx2)
  {
  }

  // ---------------------------------------------------------------------
  // enhanced_qloo_recommendations

  /** One item of the recommendation service's reply; each field may be
      absent. */
  datatype QlooItem = QlooItem(name: Option<string>, author: Option<string>, artist: Option<string>)

  /** The request sent to the recommendation service. */
  datatype QlooRequest = QlooRequest(seed: seq<MediaItem>, domains: seq<string>,
                                     limitPerDomain: nat, includeSimilar: bool, timeoutSeconds: nat)

  /** What the service call yields: a `RequestException` (connection error,
      timeout, error status, undecodable body), a decoded body whose shape
      makes the reading code raise some other exception, or the items of the
      body's `data` object by domain (an absent `data` reads as empty). */
  datatype QlooReply =
    | RequestFailed
    | UnexpectedBody
    | Body(data: map<string, seq<QlooItem>>)

  const LimitPerDomain: nat := 2
  const TimeoutSeconds: nat := 10

  /** Python truthiness of an optional string field. */
  predicate Truthy(v: Option<string>)
  {
    v.Some? && v.value != ""
  }

  /** How an f-string shows an optional field: `None` when absent. */
  function Shown(v: Option<string>): string
  {
    if v.Some? then v.value else "None"
  }

  /** The quoted name, credited to the author if there is one, else to the
      artist if there is one. */
  function FormatItem(item: QlooItem): (text: string)
    ensures |text| >= |Shown(item.name)| + 2
    ensures text[..|Shown(item.name)| + 2] == "'" + Shown(item.name) + "'"
    ensures Truthy(item.author) ==> text[|Shown(item.name)| + 2..] == " by " + item.author.value
    ensures !Truthy(item.author) && Truthy(item.artist) ==> text[|Shown(item.name)| + 2..] == " by " + item.artist.value
    ensures !Truthy(item.author) && !Truthy(item.artist) ==> |text| == |Shown(item.name)| + 2
  {
    var credit := if Truthy(item.author) then " by " + item.author.value
                  else if Truthy(item.artist) then " by " + item.artist.value
                  else "";
    var quoted := "'" + Shown(item.name) + "'";
    assert (quoted + credit)[..|quoted|] == quoted;
    assert (quoted + credit)[|quoted|..] == credit;
    quoted + credit
  }

  /** When an author is given, the artist plays no part. */
  lemma AuthorWins(item: QlooItem, artist: Option<string>)
    requires Truthy(item.author)
    ensures FormatItem(item) == FormatItem(item.(artist := artist))
  {
  }

  /** The key under which item `i` of a domain is stored. */
  function ItemKey(domain: string, i: nat): string
  {
    if i == 0 then domain else domain + "_alt"
  }

  /** The first two items (Python's `items[:2]`). */
  function TopTwo(items: seq<QlooItem>): seq<QlooItem>
  {
    if |items| <= 2 then items else items[..2]
  }

  /** The entries the inner loop writes for the given items of one domain. */
  function Entries(domain: string, items: seq<QlooItem>): map<string, string>
    decreases |items|
  {
    if items == [] then map[]
    else Entries(domain, items[..|items| - 1])[ItemKey(domain, |items| - 1) := FormatItem(items[|items| - 1])]
  }

  /** The map the outer loop has built once it has handled `domains`: a domain
      with a non-empty list contributes the entries of its first two items,
      later writes replacing earlier ones. */
  function Collected(domains: seq<string>, data: map<string, seq<QlooItem>>): map<string, string>
    decreases |domains|
  {
    if domains == [] then map[]
    else
      var d := domains[|domains| - 1];
      var prev := Collected(domains[..|domains| - 1], data);
      if d in data && |data[d]| > 0 then prev + Entries(d, TopTwo(data[d])) else prev
  }

  /** Some domain of the list is `k` itself or `k` without its `_alt`. */
  predicate KeyFor(domains: seq<string>, k: string)
  {
    exists d :: d in domains && (k == d || k == d + "_alt")
  }

  /** The entries of one or two items: the first under the domain, the
      second under its `_alt` key, and nothing else. */
  lemma EntriesOfTopTwo(domain: string, items: seq<QlooItem>)
    requires 0 < |items| <= 2
    ensures var e := Entries(domain, items);
      && e.Keys == (if |items| == 2 then {domain, domain + "_alt"} else {domain})
      && e[domain] == FormatItem(items[0])
      && (|items| == 2 ==> e[domain + "_alt"] == FormatItem(items[1]))
  {
    assert |domain + "_alt"| != |domain|;
    assert items[..1][..0] == [];
    if |items| == 2 {
      assert items[..1] == [items[0]];
    }
  }

  /** `a + "_alt" == b + "_alt"` only when `a == b`. */
  lemma AltInjective(a: string, b: string)
    requires a + "_alt" == b + "_alt"
    ensures a == b
  {
    assert |a| == |b|;
    assert (a + "_alt")[..|a|] == a;
    assert (b + "_alt")[..|b|] == b;
  }

  /** Every key of the collected map belongs to one of the handled domains. */
  lemma {:induction false} CollectedKeys(domains: seq<string>, data: map<string, seq<QlooItem>>)
    ensures forall k :: k in Collected(domains, data) ==> KeyFor(domains, k)
    decreases |domains|
  {
    if domains != [] {
      var init := domains[..|domains| - 1];
      var d := domains[|domains| - 1];
      CollectedKeys(init, data);
      assert d in domains;
      forall k | k in Collected(domains, data)
        ensures KeyFor(domains, k)
      {
        if k in Collected(init, data) {
          var e :| e in init && (k == e || k == e + "_alt");
          assert e in domains;
        } else {
          EntriesOfTopTwo(d, TopTwo(data[d]));
        }
      }
    }
  }

  /** Neither key of domain `d` is a key of a domain other than `d`. */
  lemma KeysApart(domains: seq<string>, i: nat, j: nat)
    requires Unambiguous(domains) && i < |domains| && j < |domains| && i != j
    ensures domains[i] != domains[j] && domains[i] != domains[j] + "_alt"
    ensures domains[i] + "_alt" != domains[j] && domains[i] + "_alt" != domains[j] + "_alt"
  {
    if domains[i] + "_alt" == domains[j] + "_alt" {
      AltInjective(domains[i], domains[j]);
    }
  }

  /** The map holds the first two reply items of `d`, the first under `d`
      and the second under its `_alt` key, exactly when the reply has them. */
  predicate HoldsReplyOf(r: map<string, string>, data: map<string, seq<QlooItem>>, d: string)
  {
    && (d in r <==> d in data && |data[d]| >= 1)
    && (d + "_alt" in r <==> d in data && |data[d]| >= 2)
    && (d in r ==> r[d] == FormatItem(data[d][0]))
    && (d + "_alt" in r ==> r[d + "_alt"] == FormatItem(data[d][1]))
  }

  /** The last domain of a list whose keys cannot collide: none of its keys
      was written before, so the map holds exactly its own reply items. */
  lemma CollectedAtLast(domains: seq<string>, data: map<string, seq<QlooItem>>)
    requires Unambiguous(domains) && |domains| > 0
    ensures HoldsReplyOf(Collected(domains, data), data, domains[|domains| - 1])
  {
    var n := |domains|;
    var init := domains[..n - 1];
    var d := domains[n - 1];
    var prev := Collected(init, data);
    CollectedKeys(init, data);
    assert d !in prev && d + "_alt" !in prev by {
      forall e | e in init
        ensures d != e && d != e + "_alt" && d + "_alt" != e && d + "_alt" != e + "_alt"
      {
        var j :| 0 <= j < n - 1 && init[j] == e;
        KeysApart(domains, n - 1, j);
      }
    }
    if d in data && |data[d]| > 0 {
      EntriesOfTopTwo(d, TopTwo(data[d]));
    }
  }

  /** Handling a later domain whose keys differ from those of `d` leaves the
      entries of `d` as they were. */
  lemma CollectedKeepsEarlier(domains: seq<string>, data: map<string, seq<QlooItem>>, i: nat)
    requires Unambiguous(domains) && i < |domains| - 1
    requires HoldsReplyOf(Collected(domains[..|domains| - 1], data), data, domains[i])
    ensures HoldsReplyOf(Collected(domains, data), data, domains[i])
  {
    var n := |domains|;
    var last := domains[n - 1];
    if last in data && |data[last]| > 0 {
      KeysApart(domains, i, n - 1);
      EntriesOfTopTwo(last, TopTwo(data[last]));
    }
  }

  /** For a list whose keys cannot collide, a domain's entry holds its first
      item exactly when its reply list is non-empty, and its `_alt` entry its
      second item exactly when the list has at least two. */
  lemma {:induction false} CollectedAt(domains: seq<string>, data: map<string, seq<QlooItem>>, i: nat)
    requires Unambiguous(domains) && i < |domains|
    ensures HoldsReplyOf(Collected(domains, data), data, domains[i])
    decreases |domains|
  {
    var n := |domains|;
    if i == n - 1 {
      CollectedAtLast(domains, data);
    } else {
      var init := domains[..n - 1];
      assert Unambiguous(init);
      assert init[i] == domains[i];
      CollectedAt(init, data, i);
      CollectedKeepsEarlier(domains, data, i);
    }
  }

  /** The request built from the seed and the analysis. */
  function BuildRequest(seed: seq<MediaItem>, ctx: Context): QlooRequest
  {
    QlooRequest(seed, SelectDomains(ctx), LimitPerDomain, true, TimeoutSeconds)
  }

  /** What `enhanced_qloo_recommendations` returns, given the service's
      behaviour `post`. */
  function QlooRecommendations(seed: seq<MediaItem>, ctx: Context, post: QlooRequest -> QlooReply)
    : (result: Outcome<map<string, string>>)
    ensures seed == [] ==> result == Returned(GetFallbackRecommendations(ctx))
    ensures seed != [] && post(BuildRequest(seed, ctx)).RequestFailed? ==>
              result == Returned(GetFallbackRecommendations(ctx))
    ensures result.Raised? <==> seed != [] && post(BuildRequest(seed, ctx)).UnexpectedBody?
    ensures seed != [] && post(BuildRequest(seed, ctx)).Body? ==>
              result.Returned? && forall k :: k in result.value ==> KeyFor(SelectDomains(ctx), k)
  {
    if seed == [] then Returned(GetFallbackRecommendations(ctx))
    else
      match post(BuildRequest(seed, ctx))
      case RequestFailed => Returned(GetFallbackRecommendations(ctx))
      case UnexpectedBody => Raised("unexpected recommendation response")
      case Body(data) =>
        CollectedKeys(SelectDomains(ctx), data);
        Returned(Collected(SelectDomains(ctx), data))
  }

  /** The contents of a live reply: for every selected domain, its first item
      under the domain and its second under the `_alt` key, exactly when the
      reply has them. */
  lemma LiveReplyContents(seed: seq<MediaItem>, ctx: Context, post: QlooRequest -> QlooReply, d: string)
    requires seed != [] && post(BuildRequest(seed, ctx)).Body?
    requires d in SelectDomains(ctx)
    ensures var r, data := QlooRecommendations(seed, ctx, post).value, post(BuildRequest(seed, ctx)).data;
      && (d in r <==> d in data && |data[d]| >= 1)
      && (d + "_alt" in r <==> d in data && |data[d]| >= 2)
      && (d in r ==> r[d] == FormatItem(data[d][0]))
      && (d + "_alt" in r ==> r[d + "_alt"] == FormatItem(data[d][1]))
  {
    var domains := SelectDomains(ctx);
    SelectedDomainsWellFormed(ctx);
    var i :| 0 <= i < |domains| && domains[i] == d;
    CollectedAt(domains, post(BuildRequest(seed, ctx)).data, i);
  }

  /** `enhanced_qloo_recommendations`: an empty seed goes straight to the
      fallback; otherwise one request is sent, a `RequestException` falls back
      too, and a reply is read domain by domain into the result map. `sent`
      lists the requests sent to the service. */
  method EnhancedQlooRecommendations(seed: seq<MediaItem>, ctx: Context, post: QlooRequest -> QlooReply)
    returns (result: Outcome<map<string, string>>, sent: seq<QlooRequest>)
    ensures result == QlooRecommendations(seed, ctx, post)
    ensures sent == [] <==> seed == []
    ensures |sent| <= 1
    ensures forall r :: r in sent ==>
              && r.seed == seed && r.domains == SelectDomains(ctx)
              && r.limitPerDomain == 2 && r.includeSimilar && r.timeoutSeconds == 10
  {
    if seed == [] {
      return Returned(GetFallbackRecommendations(ctx)), [];
    }
    var domains := SelectDomains(ctx);
    var request := QlooRequest(seed, domains, LimitPerDomain, true, TimeoutSeconds);
    sent := [request];
    match post(request)
    case RequestFailed =>
      result := Returned(GetFallbackRecommendations(ctx));
    case UnexpectedBody =>
      result := Raised("unexpected recommendation response");
    case Body(data) =>
      var recommendations := ReadReply(domains, data);
      result := Returned(recommendations);
  }

  /** The loop of `enhanced_qloo_recommendations` that fills the result map
      from a decoded reply, domain by domain and item by item. */
  method ReadReply(domains: seq<string>, data: map<string, seq<QlooItem>>)
    returns (recommendations: map<string, string>)
    ensures recommendations == Collected(domains, data)
  {
    recommendations := map[];
    var k := 0;
    while k < |domains|
      invariant 0 <= k <= |domains|
      invariant recommendations == Collected(domains[..k], data)
    {
      var domain := domains[k];
      assert domains[..k + 1][..k] == domains[..k];
      ghost var before := recommendations;
      if domain in data && |data[domain]| > 0 {
        var items := TopTwo(data[domain]);
        var i := 0;
        while i < |items|
          invariant 0 <= i <= |items|
          invariant recommendations == before + Entries(domain, items[..i])
        {
          assert items[..i + 1][..i] == items[..i];
          var key := if i == 0 then domain else domain + "_alt";
          recommendations := recommendations[key := FormatItem(items[i])];
          i := i + 1;
        }
        assert items[..|items|] == items;
      }
      k := k + 1;
    }
    assert domains[..|domains|] == domains;
  }
}
