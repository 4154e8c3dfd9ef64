/**
 * The server side of the plugin: the AJAX endpoint that answers a request
 * for an article in a given format, the per-article cache of AP conversions
 * in front of the text-generation service, the administrator's cache clear,
 * the settings update, and the content filter that adds the toggle widget.
 */
module Server {
  import opened Wrappers
  import opened PhpStrings
  import opened Transients
  import opened Prompt
  import opened Upstream

  /** An article: its ID, title and stored (unrendered) content. */
  datatype Post = Post(id: nat, title: string, content: string)

  /**
   * What the platform supplies: the `the_content` filter chain, `wpautop`,
   * and the service's reply to the n-th request sent to it.
   */
  datatype Platform = Platform(
    render: string -> string,
    autop: string -> string,
    oracle: (nat, ChatRequest) -> ApiReply)

  const CachePrefix: string := "ap_conversion_"
  const CacheTtl: nat := 24 * HourInSeconds
  const DefaultModel: string := "gpt-4o-mini"
  const KeyNotConfigured: string := "API key not configured"
  const ArticleNotFound: string := "Article not found"
  const InvalidFormatRequested: string := "Invalid format requested"
  const NonceRejected: string := "-1"
  const Unauthorized: string := "Unauthorized"
  const CacheCleared: string := "Cache cleared"

  /** The transient name of an article's cached conversion: the prefix and the decimal ID. */
  function CacheName(postId: nat): (name: string)
    ensures HasPrefix(name, CachePrefix)
    ensures name[|CachePrefix|..] == DecimalString(postId)
  {
    CachePrefix + DecimalString(postId)
  }

  /** Different articles are cached under different names. */
  lemma CacheNameInjective(m: nat, n: nat)
    requires CacheName(m) == CacheName(n)
    ensures m == n
  {
    DecimalStringInjective(m, n);
  }

  // ---------------------------------------------------------------------
  // Cache-or-fetch

  datatype ConversionResult = Converted(content: string) | NotConverted(message: string)

  /** The result of one conversion and the cache and request log it leaves behind. */
  datatype ApStep = ApStep(result: ConversionResult, transients: Store, sent: seq<ChatRequest>)

  /** A usable cached conversion: present, unexpired and truthy. */
  predicate CacheHit(transients: Store, post: Post, now: int) {
    var cached := GetTransient(transients, CacheName(post.id), now);
    cached.Some? && IsTruthy(cached.value)
  }

  /** The request a conversion of `post` sends. */
  function RequestFor(apiKey: string, model: string, post: Post): ChatRequest {
    ChatRequestFor(apiKey, model, BuildApConversionPrompt(post.title, post.content))
  }

  /**
   * Converting `post` to AP style at time `now`: the credential check comes
   * first, then the cache, then one request to the service; only a generated
   * text is cached, for a day. `sent` is the log of requests sent so far.
   */
  function ConvertToAp(platform: Platform, apiKey: string, model: string, now: int,
                       transients: Store, sent: seq<ChatRequest>, post: Post): (r: ApStep)
    ensures sent <= r.sent && |r.sent| <= |sent| + 1
    ensures r.sent != sent ==> r.sent == sent + [RequestFor(apiKey, model, post)]
    ensures forall name :: name != CacheName(post.id) ==>
      (name in r.transients <==> name in transients)
      && (name in transients ==> r.transients[name] == transients[name])
    ensures r.transients != transients ==>
      r.result.Converted? && r.sent != sent && CacheName(post.id) in r.transients
      && r.transients[CacheName(post.id)] == Transient(r.result.content, now + CacheTtl)
  {
    if IsEmpty(apiKey) then ApStep(NotConverted(KeyNotConfigured), transients, sent)
    else if CacheHit(transients, post, now) then
      ApStep(Converted(GetTransient(transients, CacheName(post.id), now).value), transients, sent)
    else
      var request := RequestFor(apiKey, model, post);
      match ClassifyReply(platform.oracle(|sent|, request), platform.autop)
      case Generated(content) =>
        ApStep(Converted(content), SetTransient(transients, CacheName(post.id), content, CacheTtl, now), sent + [request])
      case Failed(error) =>
        ApStep(NotConverted(error), transients, sent + [request])
  }

  /** Without a credential nothing else happens, even when a conversion is cached. */
  lemma MissingKeyShortCircuits(platform: Platform, apiKey: string, model: string, now: int,
                                transients: Store, sent: seq<ChatRequest>, post: Post)
    requires IsEmpty(apiKey)
    ensures ConvertToAp(platform, apiKey, model, now, transients, sent, post)
         == ApStep(NotConverted("API key not configured"), transients, sent)
  {
  }

  /** A usable cached conversion is returned as it is, with no request sent and no cache change. */
  lemma CacheHitMakesNoCall(platform: Platform, apiKey: string, model: string, now: int,
                            transients: Store, sent: seq<ChatRequest>, post: Post, value: string)
    requires !IsEmpty(apiKey)
    requires GetTransient(transients, CacheName(post.id), now) == Some(value) && IsTruthy(value)
    ensures ConvertToAp(platform, apiKey, model, now, transients, sent, post)
         == ApStep(Converted(value), transients, sent)
  {
  }

  /** A cached "" or "0" is falsy in PHP: it does not count as a hit, and the service is asked again. */
  lemma FalsyCachedValueIsMiss(platform: Platform, apiKey: string, model: string, now: int,
                               transients: Store, sent: seq<ChatRequest>, post: Post)
    requires !IsEmpty(apiKey)
    requires GetTransient(transients, CacheName(post.id), now) in {Some(""), Some("0")}
    ensures ConvertToAp(platform, apiKey, model, now, transients, sent, post).sent
         == sent + [RequestFor(apiKey, model, post)]
  {
  }

  /**
   * On a miss exactly one request is sent, carrying the prompt built from the
   * article; a generated text is returned and cached under the article's name
   * for 86400 seconds, and nothing else in the cache changes.
   */
  lemma MissSuccessIsCached(platform: Platform, apiKey: string, model: string, now: int,
                            transients: Store, sent: seq<ChatRequest>, post: Post, content: string)
    requires !IsEmpty(apiKey) && !CacheHit(transients, post, now)
    requires ClassifyReply(platform.oracle(|sent|, RequestFor(apiKey, model, post)), platform.autop) == Generated(content)
    ensures var step := ConvertToAp(platform, apiKey, model, now, transients, sent, post);
      && step.result == Converted(content)
      && step.sent == sent + [RequestFor(apiKey, model, post)]
      && step.sent[|sent|].messages == [ChatMessage("user", BuildApConversionPrompt(post.title, post.content))]
      && step.transients == transients[CacheName(post.id) := Transient(content, now + 86400)]
  {
  }

  /** On a miss whose request fails, the service's message is returned and the cache is unchanged. */
  lemma FailureIsNotCached(platform: Platform, apiKey: string, model: string, now: int,
                           transients: Store, sent: seq<ChatRequest>, post: Post, error: string)
    requires !IsEmpty(apiKey) && !CacheHit(transients, post, now)
    requires ClassifyReply(platform.oracle(|sent|, RequestFor(apiKey, model, post)), platform.autop) == Failed(error)
    ensures var step := ConvertToAp(platform, apiKey, model, now, transients, sent, post);
      && step.result == NotConverted(error)
      && step.transients == transients
      && step.sent == sent + [RequestFor(apiKey, model, post)]
  {
  }

  /** Converting an article never changes what another article's cache entry reads. */
  lemma OtherArticlesUnaffected(platform: Platform, apiKey: string, model: string, now: int,
                                transients: Store, sent: seq<ChatRequest>, post: Post, other: nat, readAt: int)
    requires other != post.id
    ensures GetTransient(ConvertToAp(platform, apiKey, model, now, transients, sent, post).transients, CacheName(other), readAt)
         == GetTransient(transients, CacheName(other), readAt)
  {
    if CacheName(other) == CacheName(post.id) {
      CacheNameInjective(other, post.id);
    }
  }

  /**
   * Asking again at the same moment after a truthy conversion is served from
   * the cache: the same content, no new request, no cache change.
   */
  lemma ImmediateRepeatIsServedFromCache(platform: Platform, apiKey: string, model: string, now: int,
                                         transients: Store, sent: seq<ChatRequest>, post: Post)
    requires var first := ConvertToAp(platform, apiKey, model, now, transients, sent, post);
      first.result.Converted? && IsTruthy(first.result.content)
    ensures var first := ConvertToAp(platform, apiKey, model, now, transients, sent, post);
      ConvertToAp(platform, apiKey, model, now, first.transients, first.sent, post)
        == ApStep(first.result, first.transients, first.sent)
  {
    var first := ConvertToAp(platform, apiKey, model, now, transients, sent, post);
    if !CacheHit(transients, post, now) {
      GetAfterSet(transients, CacheName(post.id), first.result.content, CacheTtl, now, now);
    }
  }

  /** A conversion fetched at `now` is served from the cache until `now + 86400`. */
  lemma FreshConversionServedForADay(platform: Platform, apiKey: string, model: string, now: int,
                                     transients: Store, sent: seq<ChatRequest>, post: Post, later: int)
    requires !CacheHit(transients, post, now)
    requires var first := ConvertToAp(platform, apiKey, model, now, transients, sent, post);
      first.result.Converted? && IsTruthy(first.result.content)
    requires now <= later <= now + 86400
    ensures var first := ConvertToAp(platform, apiKey, model, now, transients, sent, post);
      ConvertToAp(platform, apiKey, model, later, first.transients, first.sent, post)
        == ApStep(first.result, first.transients, first.sent)
  {
    var first := ConvertToAp(platform, apiKey, model, now, transients, sent, post);
    GetAfterSet(transients, CacheName(post.id), first.result.content, CacheTtl, now, later);
  }

  /** After the day has passed the entry reads as a miss and the service is asked again. */
  lemma ExpiredConversionIsRegenerated(platform: Platform, apiKey: string, model: string, now: int,
                                       transients: Store, sent: seq<ChatRequest>, post: Post, later: int)
    requires !CacheHit(transients, post, now)
    requires ConvertToAp(platform, apiKey, model, now, transients, sent, post).result.Converted?
    requires later > now + 86400
    ensures var first := ConvertToAp(platform, apiKey, model, now, transients, sent, post);
      ConvertToAp(platform, apiKey, model, later, first.transients, first.sent, post).sent
        == first.sent + [RequestFor(apiKey, model, post)]
  {
    var first := ConvertToAp(platform, apiKey, model, now, transients, sent, post);
    ExpiredIsMiss(transients, CacheName(post.id), first.result.content, CacheTtl, now, later);
  }

  /** After the cache clear as the plugin runs it, no article has a cached conversion. */
  lemma ClearRemovesEveryConversion(transients: Store, id: nat)
    ensures CacheName(id) !in DeleteAsWritten(transients)
  {
    PrefixNameMatchesPattern(CacheName(id));
  }

  /** After the cache clear, converting any article asks the service. */
  lemma ClearForcesRegeneration(platform: Platform, apiKey: string, model: string, now: int,
                                transients: Store, sent: seq<ChatRequest>, post: Post)
    requires !IsEmpty(apiKey)
    ensures var cleared := DeleteAsWritten(transients);
      ConvertToAp(platform, apiKey, model, now, cleared, sent, post).sent == sent + [RequestFor(apiKey, model, post)]
  {
    ClearRemovesEveryConversion(transients, post.id);
  }

  // ---------------------------------------------------------------------
  // Request dispatch

  /** Which branch of the endpoint answers a request. */
  datatype Route = RejectedNonce | NotFound | ShowOriginal | ConvertAp | InvalidFormat

  /**
   * The endpoint's branches in order; the first that applies ends the
   * request: the nonce check, a missing article, "original", "ap", and any
   * other format.
   */
  function RouteRequest(nonceOk: bool, found: bool, format: string): (r: Route)
    ensures r == RejectedNonce <==> !nonceOk
    ensures r == NotFound <==> nonceOk && !found
    ensures r == ShowOriginal <==> nonceOk && found && format == "original"
    ensures r == ConvertAp <==> nonceOk && found && format == "ap"
    ensures r == InvalidFormat <==> nonceOk && found && format != "original" && format != "ap"
  {
    if !nonceOk then RejectedNonce
    else if !found then NotFound
    else if format == "original" then ShowOriginal
    else if format == "ap" then ConvertAp
    else InvalidFormat
  }

  datatype Payload = ArticlePayload(content: string, format: string) | MessagePayload(text: string)

  /** `wp_send_json_success(data)`, `wp_send_json_error(message)`, or `wp_die(message)`. */
  datatype Response = JsonSuccess(data: Payload) | JsonError(message: string) | Die(message: string)

  /**
   * The endpoint's answer to an "ap" request: a success carrying the converted
   * text itself (not passed through the content filters) exactly when the
   * conversion succeeded, otherwise an error carrying the conversion's message;
   * never a `wp_die`.
   */
  function ApResponse(result: ConversionResult): (r: Response)
    ensures r.JsonSuccess? <==> result.Converted?
    ensures r.JsonSuccess? ==> r.data == ArticlePayload(result.content, "ap")
    ensures r.JsonError? ==> r.message == result.message
    ensures !r.Die?
  {
    match result
    case Converted(content) => JsonSuccess(ArticlePayload(content, "ap"))
    case NotConverted(message) => JsonError(message)
  }

  // ---------------------------------------------------------------------
  // The toggle widget the content filter appends

  /** The widget's data: the article ID on the button and the content embedded for the client. */
  datatype Widget = Widget(postId: nat, originalContent: string)

  datatype FilteredContent = FilteredContent(content: string, widget: Option<Widget>)

  /**
   * The `the_content` filter: on a single post the content is followed by the
   * toggle widget, which embeds that same content; elsewhere it is unchanged.
   */
  function AddFormatSelector(content: string, onSinglePost: bool, postId: nat): (r: FilteredContent)
    ensures r.content == content
    ensures r.widget.Some? <==> onSinglePost
    ensures r.widget.Some? ==> r.widget.value.postId == postId && r.widget.value.originalContent == content
  {
    if onSinglePost then FilteredContent(content, Some(Widget(postId, content)))
    else FilteredContent(content, None)
  }

  // ---------------------------------------------------------------------
  // The plugin object

  class FormatConverter {
    /** The content store, by ID. */
    const posts: map<int, Post>
    const platform: Platform
    /** The credential, read from the options at construction and on saving the settings. */
    var apiKey: string
    /** The `format_converter_model` option. */
    var model: string
    /** The current time in seconds. */
    var now: int
    var transients: Store
    /** Every request sent to the service, in order. */
    var sent: seq<ChatRequest>

    predicate Valid() {
      forall id :: id in posts ==> posts[id].id == id
    }

    constructor (posts: map<int, Post>, platform: Platform, storedKey: Option<string>,
                 storedModel: Option<string>, now: int, transients: Store)
      requires forall id :: id in posts ==> posts[id].id == id
      ensures Valid()
      ensures this.posts == posts && this.platform == platform
      ensures apiKey == storedKey.GetOr("") && model == storedModel.GetOr(DefaultModel)
      ensures this.now == now && this.transients == transients && sent == []
    {
      this.posts := posts;
      this.platform := platform;
      apiKey := storedKey.GetOr("");
      model := storedModel.GetOr(DefaultModel);
      this.now := now;
      this.transients := transients;
      sent := [];
    }

    /** The AJAX endpoint for `post_id` and `format`. */
    method ConvertArticleFormat(nonceOk: bool, postId: int, format: string) returns (resp: Response)
      requires Valid()
      modifies this`transients, this`sent
      ensures var route := RouteRequest(nonceOk, postId in posts, format);
        && (route != ConvertAp ==> transients == old(transients) && sent == old(sent))
        && (route == RejectedNonce ==> resp == Die("-1"))
        && (route == NotFound ==> resp == JsonError("Article not found"))
        && (route == ShowOriginal ==> resp == JsonSuccess(ArticlePayload(platform.render(posts[postId].content), "original")))
        && (route == InvalidFormat ==> resp == JsonError("Invalid format requested"))
      ensures RouteRequest(nonceOk, postId in posts, format) == ConvertAp ==>
        var step := ConvertToAp(platform, apiKey, model, now, old(transients), old(sent), posts[postId]);
        && resp == ApResponse(step.result)
        && transients == step.transients && sent == step.sent
        && step.transients.Keys <= old(transients).Keys + {CacheName(postId)}
    {
      if !nonceOk {
        return Die(NonceRejected);
      }
      if postId !in posts {
        return JsonError(ArticleNotFound);
      }
      var post := posts[postId];
      if format == "original" {
        return JsonSuccess(ArticlePayload(platform.render(post.content), "original"));
      }
      if format == "ap" {
        var result := ConvertToApFormat(post);
        return ApResponse(result);
      }
      return JsonError(InvalidFormatRequested);
    }

    /** Cache-or-fetch for one article. */
    method ConvertToApFormat(post: Post) returns (r: ConversionResult)
      modifies this`transients, this`sent
      ensures ApStep(r, transients, sent) == ConvertToAp(platform, apiKey, model, now, old(transients), old(sent), post)
    {
      if IsEmpty(apiKey) {
        return NotConverted(KeyNotConfigured);
      }
      var cached := GetTransient(transients, CacheName(post.id), now);
      if cached.Some? && IsTruthy(cached.value) {
        return Converted(cached.value);
      }
      var prompt := BuildApConversionPrompt(post.title, post.content);
      var response := CallApi(prompt, model);
      match response
      case Generated(content) =>
        transients := SetTransient(transients, CacheName(post.id), content, CacheTtl, now);
        r := Converted(content);
      case Failed(error) =>
        r := NotConverted(error);
    }

    /** Sends one request to the service and classifies its reply. */
    method CallApi(prompt: string, model: string) returns (outcome: Outcome)
      modifies this`sent
      ensures sent == old(sent) + [ChatRequestFor(apiKey, model, prompt)]
      ensures outcome == ClassifyReply(platform.oracle(|old(sent)|, ChatRequestFor(apiKey, model, prompt)), platform.autop)
    {
      var request := ChatRequestFor(apiKey, model, prompt);
      var reply := platform.oracle(|sent|, request);
      sent := sent + [request];
      outcome := ClassifyReply(reply, platform.autop);
    }

    /**
     * The administrator's cache clear: after the nonce and the `manage_options`
     * check, every transient whose option row matches the query's `LIKE`
     * pattern is deleted: every article's cached conversion, and any other
     * name the pattern's `_` wildcards let through.
     */
    method ClearFormatCache(nonceOk: bool, canManageOptions: bool) returns (resp: Response)
      modifies this`transients
      ensures !nonceOk ==> resp == Die("-1") && transients == old(transients)
      ensures nonceOk && !canManageOptions ==> resp == Die("Unauthorized") && transients == old(transients)
      ensures nonceOk && canManageOptions ==>
        && resp == JsonSuccess(MessagePayload("Cache cleared"))
        && transients == DeleteAsWritten(old(transients))
        && (forall id: nat :: CacheName(id) !in transients)
        && (forall name :: name in transients ==> name in old(transients) && transients[name] == old(transients)[name])
    {
      if !nonceOk {
        return Die(NonceRejected);
      }
      if !canManageOptions {
        return Die(Unauthorized);
      }
      transients := DeleteAsWritten(transients);
      forall id: nat
        ensures CacheName(id) !in transients
      {
        ClearRemovesEveryConversion(old(transients), id);
      }
      resp := JsonSuccess(MessagePayload(CacheCleared));
    }

    /** Saving the settings page: both options are stored and the credential field is reloaded. */
    method SaveSettings(newKey: string, newModel: string)
      modifies this`apiKey, this`model
      ensures apiKey == newKey && model == newModel
    {
      apiKey := newKey;
      model := newModel;
    }

    /** Time passes. */
    method AdvanceClock(seconds: nat)
      modifies this`now
      ensures now == old(now) + seconds
    {
      now := now + seconds;
    }
  }
}
