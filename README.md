# Dynamic Format Converter, modelled in Dafny

The Dynamic Format Converter is a WordPress plugin. On a single blog post it
adds a toggle button that lets a visitor swap the article for an Associated
Press style rewrite, produced by a chat-completion service. This project
models the two pieces of logic that decide what happens, and proves
properties of them.

**The server side** (`ap-format-converter.php`) is covered by these modules:

- `Server`: the AJAX endpoint that routes a request by nonce, article and
  format. It also holds the cache-or-fetch conversion, the administrator's
  cache clear, the settings update and the content filter that appends the
  widget. The state lives in the class `Server.FormatConverter`: credential,
  model, clock, transient store and the log of requests sent to the service.
  Its method `ConvertToApFormat` is proved equal to the specification function
  `Server.ConvertToAp`, and the cache properties are lemmas about that
  function.
- `Transients`: WordPress transients as a map from name to value and expiry
  time. A read past the expiry is a miss. The module also has the SQL `LIKE`
  match used by the cache clear.
- `Prompt`: the fixed prompt template with the title and content inserted.
- `Upstream`: the request sent to the service and the classification of its
  reply.
- `PhpStrings`: the PHP semantics the decisions rest on:
  - `empty()` and string truthiness, where "" and "0" are both falsy;
  - `trim()` with its default character list;
  - the decimal text of an integer ID.

**The browser side** (`frontend-converter.js`) is the class
`Client.FormatToggle`:

- The script's closure variables are its fields.
- Every handler and asynchronous callback is one event method: the click, the
  AJAX success and error callbacks, the revert timer, the end of a fade-out,
  the end of a fade-in, a tick of the loading-text timer and the retry link.
- Each method's postcondition gives the new state as a function of the old
  one. `Valid()` is the invariant every event keeps.

The service, `wpautop` and the `the_content` filter chain are parameters of
type `Server.Platform`. The service is a function from (call index, request)
to reply, so the number of calls made is the length of the request log.

## Model

| member | source | states |
|---|---|---|
| PhpStrings.Trim | ap-format-converter.php:208 | the result is a contiguous slice of the input; everything removed before and after it is space, tab, LF, CR, NUL or vertical tab; the result neither starts nor ends with one of those |
| PhpStrings.TrimIdempotent | ap-format-converter.php:208 | trimming an already trimmed text changes nothing |
| PhpStrings.TrimOfClean | ap-format-converter.php:208 | a text with no whitespace at either end is returned as it is |
| PhpStrings.DecimalString | ap-format-converter.php:124 | the ID's text is non-empty, all digits, and has no leading zero |
| PhpStrings.DecimalRoundTrip | ap-format-converter.php:124 | reading the decimal text of an ID back gives the ID |
| PhpStrings.DecimalStringInjective | ap-format-converter.php:124 | different IDs have different decimal texts |
| Transients.GetTransient | ap-format-converter.php:124-125 | a read returns a value iff the name is stored and the time has not passed its expiry, and the value returned is the stored one |
| Transients.GetAfterSet | ap-format-converter.php:136 | a value stored with a time to live reads back unchanged at any time up to the expiry |
| Transients.ExpiredIsMiss | ap-format-converter.php:136 | after the expiry the entry is still stored but reads as absent |
| Transients.SetLeavesOthers | ap-format-converter.php:136 | storing under one name never changes what another name reads |
| Transients.DeleteByPrefix | ap-format-converter.php:446-457 | no remaining name has the prefix; every name without it is kept with its value; nothing is added |
| Transients.SetTransient | ap-format-converter.php:136 | the name holds the given value with expiry now + ttl, replacing any earlier entry; every other name is kept with its entry and nothing else is added (what this means for reads: `Transients.GetAfterSet`, `Transients.ExpiredIsMiss`, `Transients.SetLeavesOthers`) |
| Transients.DeleteAsWritten | ap-format-converter.php:454-455 | a transient survives the two deletes as written iff its value row matches neither `LIKE '_transient_ap_conversion_%'` nor `LIKE '_transient_timeout_ap_conversion_%'`, and each survivor keeps its value |
| Transients.TimeoutRowFollowsValueRow | ap-format-converter.php:454-455 | a transient's timeout row matches the second pattern exactly when its value row matches the first, and never matches the first, so no transient loses only its timeout row |
| Transients.TimeoutNamedTransientIsCleared | ap-format-converter.php:455 | the transient `timeout_ap_conversion_1` does not start with `ap_conversion_` and its value row escapes the first pattern, yet the second query deletes that value row |
| Transients.PercentMatchesAll | ap-format-converter.php:454 | the pattern `%` matches every string |
| Transients.LikeWildcardPrefix | ap-format-converter.php:454 | a pattern of literals and `_` followed by `%` matches every string that begins with characters the pattern accepts |
| Transients.PrefixNameMatchesPattern | ap-format-converter.php:454-455 | every transient whose name starts with `ap_conversion_` is deleted by the query as written |
| Transients.LikeOvermatches | ap-format-converter.php:454-455 | the transient `ap-conversion-7` does not start with `ap_conversion_`, yet the first query as written deletes it |
| Transients.AsWrittenDeletesAtLeastPrefix | ap-format-converter.php:454-455 | every transient the intended literal-prefix delete removes, the query as written removes too |
| Prompt.BuildApConversionPrompt | ap-format-converter.php:144-172 | the prompt template; its layout is stated by `Prompt.PromptLayout`, its round trip by `Prompt.ParseBuild` and `Prompt.BuildParse`, and its injectivity by `Prompt.BuildInjective` |
| Prompt.PromptLayout | ap-format-converter.php:144-172 | the prompt is the rules, then "Title: ", the title verbatim, "\nContent: ", the content verbatim, then the closing instruction, at the stated positions |
| Prompt.ParseBuild | ap-format-converter.php:168-169 | the title and content are recovered exactly from the prompt built from them |
| Prompt.BuildParse | ap-format-converter.php:144-172 | every text that parses as a prompt is the prompt built from what it parses to |
| Prompt.BuildInjective | ap-format-converter.php:144-172 | for titles of equal length, equal prompts mean equal title and content |
| Upstream.ChatRequestFor | ap-format-converter.php:174-194 | the request carries the credential as bearer, the model, one user message holding the prompt, 4000 max tokens and a 60 s timeout |
| Upstream.ClassifyReply | ap-format-converter.php:196-211 | precedence: a transport error gives its message; then an `error` key gives its message; success iff a first choice has content and there is no error key, and the text is then the trimmed content passed through the paragraph formatter; otherwise "Unexpected API response" |
| Upstream.ErrorWinsOverChoices | ap-format-converter.php:203-209 | an `error` key decides the outcome even when choices with content are present |
| Upstream.GeneratedIsTrimmed | ap-format-converter.php:207-208 | generated text is the formatter applied to a text that is its own trim |
| Server.CacheName | ap-format-converter.php:124 | the cache name is `ap_conversion_` followed by the decimal text of the ID |
| Server.CacheHit | ap-format-converter.php:124-125 | a usable cached conversion is one that is stored, unexpired and truthy; `Server.CacheHitMakesNoCall` and `Server.FalsyCachedValueIsMiss` state both sides |
| Server.ConvertToAp | ap-format-converter.php:118-142 | at most one request is appended to the log, and it is the article's request; no cache entry other than the article's changes; the article's entry changes only on a sent request that generated text, and then holds that text with expiry now + 86400. The branches are stated by the lemmas below |
| Server.CacheNameInjective | ap-format-converter.php:124 | different articles are cached under different names |
| Server.MissingKeyShortCircuits | ap-format-converter.php:119-121 | with an empty or "0" credential the result is "API key not configured", with no request sent and the cache untouched, even when a conversion is cached |
| Server.CacheHitMakesNoCall | ap-format-converter.php:124-127 | an unexpired truthy cached value is returned as it is, with no request and no cache change |
| Server.FalsyCachedValueIsMiss | ap-format-converter.php:125 | a cached "" or "0" is a miss: exactly one request for the article's prompt is sent |
| Server.MissSuccessIsCached | ap-format-converter.php:129-138 | on a miss, one request carrying the article's prompt is sent; a generated text is returned and stored under the article's name with expiry now + 86400; nothing else changes |
| Server.FailureIsNotCached | ap-format-converter.php:139-141 | on a miss whose request fails, the service's message is returned, one request is logged and the cache is unchanged |
| Server.OtherArticlesUnaffected | ap-format-converter.php:124-136 | converting one article never changes what another article's cache entry reads, at any time |
| Server.ImmediateRepeatIsServedFromCache | ap-format-converter.php:124-138 | after a truthy conversion, asking again at the same moment gives the same content with no new request and no cache change |
| Server.FreshConversionServedForADay | ap-format-converter.php:136 | a freshly fetched conversion is served from the cache, with no new request, at any time up to 86400 s later |
| Server.ExpiredConversionIsRegenerated | ap-format-converter.php:124-136 | more than 86400 s after a fetched conversion, the next conversion sends a new request |
| Server.ClearRemovesEveryConversion | ap-format-converter.php:454-455 | after the cache clear as written, no article's cache name is left |
| Server.ClearForcesRegeneration | ap-format-converter.php:454-455 | after the cache clear as written, converting any article sends a request |
| Server.RouteRequest | ap-format-converter.php:82-116 | the first branch that applies answers, in this order: a bad nonce; a missing article whatever the format; "original"; "ap"; any other format. Each branch is stated as an if-and-only-if |
| Server.ApResponse | ap-format-converter.php:105-112 | an "ap" request is answered with success iff the conversion succeeded, carrying the converted text unfiltered and tagged "ap"; otherwise with an error carrying the conversion's message; never with `wp_die` |
| Server.AddFormatSelector | ap-format-converter.php:49-80 | the content is returned unchanged; a widget is added iff on a single post; the widget carries the article ID and embeds that same content |
| Server.FormatConverter.constructor | ap-format-converter.php:129 | the model is the stored option or the default "gpt-4o-mini" (the plugin reads this option on each conversion; keeping it in a field that `SaveSettings` updates is equivalent while only the settings page changes the option); the credential is the stored option or "", as read once at line 32; no request has been sent |
| Server.FormatConverter.ConvertArticleFormat | ap-format-converter.php:82-116 | a bad nonce dies with "-1"; a missing article gives "Article not found"; "original" gives the rendered content tagged "original"; an unknown format gives "Invalid format requested". None of these touches the cache or the service. "ap" answers with the conversion's result tagged "ap", and the cache gains no name other than the article's |
| Server.FormatConverter.ConvertToApFormat | ap-format-converter.php:118-142 | the result, new cache and request log are exactly those of the specification function `Server.ConvertToAp` |
| Server.FormatConverter.CallApi | ap-format-converter.php:174-211 | exactly one request, built from the credential, model and prompt, is appended to the log; the outcome is the classification of the service's reply to it |
| Server.FormatConverter.ClearFormatCache | ap-format-converter.php:446-458 | a bad nonce dies with "-1"; without `manage_options` it dies with "Unauthorized"; both leave the cache alone. Otherwise the store becomes the two `LIKE` deletes as written: no article's cache name remains, every surviving entry keeps its value, nothing is added, and the answer is "Cache cleared" |
| Server.FormatConverter.SaveSettings | ap-format-converter.php:350-356 | the credential and model become the submitted values |
| Client.ApRequest | frontend-converter.js:73-88 | every request is `convert_article_format` for the button's article, with format "ap" and a 60000 ms timeout |
| Client.TransportErrorMessage | frontend-converter.js:102-112 | the message is "timed out" iff the status is timeout; otherwise "Server error" iff HTTP 500, "Connection failed" iff status 0, and "Network error occurred" for everything else |
| Client.FailureMessage | frontend-converter.js:97 | the message is the server's text, or "Conversion failed" exactly when that text is empty; it is never empty |
| Client.FormatToggle.constructor | frontend-converter.js:27-39 | the captured original content is the embedded JSON string when it parses, the content area when it does not, and "" when there is no script tag; the format starts as "original" with the guard clear |
| Client.FormatToggle.ClickToggle | frontend-converter.js:42-63 | while converting, nothing changes. Otherwise, in "original" one AP request is sent and the guard is set; in any other format a revert is scheduled with no request. The format itself never changes on a click |
| Client.FormatToggle.ConvertToApFormat | frontend-converter.js:68-88 | sets the guard, shows loading, starts a loading timer and appends one AP request for the article |
| Client.FormatToggle.RevertToOriginal | frontend-converter.js:118-122 | sets the guard, shows loading and schedules the revert timer; no request is sent |
| Client.FormatToggle.AjaxSucceeded | frontend-converter.js:89-99 | on success, only a fade to the converted content in "ap" is queued, so the format does not change yet. On a refusal, the error shows the server's message or "Conversion failed", the guard clears and the format is kept |
| Client.FormatToggle.AjaxFailed | frontend-converter.js:100-113 | shows the transport error message chosen by status; clears the guard; keeps the format |
| Client.FormatToggle.RevertTimerFired | frontend-converter.js:123-128 | queues a fade to the originally captured content in "original", hides loading and error, and leaves the guard and the format as they were |
| Client.FormatToggle.UpdateContent | frontend-converter.js:132-138 | queues one fade and changes nothing else |
| Client.FormatToggle.FadeOutCompleted | frontend-converter.js:138-142 | the oldest fade-out ends: its content is shown and its fade-in starts; the format and the guard are unchanged; a swap to "original" shows the captured content |
| Client.FormatToggle.FadeInCompleted | frontend-converter.js:143-147 | the oldest fade-in ends: only here do the format change and the guard clear; loading and error are hidden; the content is untouched |
| Client.FormatToggle.SwitchFormat | frontend-converter.js:144-145 | the oldest fade-in is consumed, its format becomes current and the guard clears |
| Client.FormatToggle.RetryClicked | frontend-converter.js:260-266 | whatever the guard says, the error is hidden and one AP request for the article is sent |
| Client.FormatToggle.LoadingTick | frontend-converter.js:245-256 | while converting, the ticking timer's own index advances modulo 6; otherwise the timer held in the handle variable is cleared |
| Client.FormatToggle.ShowLoading | frontend-converter.js:187-194 | loading shown, error hidden, button disabled, animation restarted at the first text |
| Client.FormatToggle.HideLoading | frontend-converter.js:197-206 | loading hidden, button enabled, the handle's timer cleared; content and format kept |
| Client.FormatToggle.ShowError | frontend-converter.js:209-221 | error shown with the message, loading hidden, button enabled, guard cleared, timer cleared; format kept |
| Client.FormatToggle.HideError | frontend-converter.js:224-226 | only the error is hidden |
| Client.FormatToggle.AnimateLoadingText | frontend-converter.js:229-245 | the first text is shown and a new timer with index 0 becomes the handle; an earlier timer keeps running |
| Client.FormatToggle.StopAnimation | frontend-converter.js:202-205 | the timer named by the handle, if any, is removed and the handle cleared |
| Client.DoubleClickSendsOneRequest | frontend-converter.js:46-49 | two quick clicks from the original view send exactly one request and leave the format "original" |
| Client.RetryAfterFailure | frontend-converter.js:260-266 | a failed request followed by a retry, a successful reply and both halves of the fade ends with two requests sent, the converted content in "ap", and the guard, loading and error all cleared |
| Client.ContentShownBeforeFormatSwitches | frontend-converter.js:138-145 | after the fade-out of a conversion, the converted content is on display while the format is still "original" and the guard still set, so a click then is ignored |
| Client.ShowConverted | frontend-converter.js:42-153 | from the original view with nothing pending, a click, a successful reply and both fade ends leave the converted content in "ap" with the guard clear and one request sent |
| Client.RevertRestoresEmbeddedContent | frontend-converter.js:118-129 | converting then reverting a served page shows exactly the content the server embedded, in "original", with no request beyond the first |

## Left out

- The HTTP POST and the JSON encoding and decoding are not modelled. A reply reaches the model already decoded as `Upstream.ApiReply`. JSON-encoding the embedded content and decoding it in the browser is taken to give the same string back.
- `wpautop`, `apply_filters('the_content')` and the service are parameters (`Server.Platform`).
- `check_ajax_referer`, `current_user_can`, `is_single`/`get_post_type` and `get_post` are booleans or the `posts` map.
- `intval` and `sanitize_text_field` are not modelled; the arguments arrive already converted.
- A missing `error.message` in a reply is read as "".
- The clock is the field `now`, moved by `AdvanceClock`.
- Server.ConvertToAp: the call to the service takes no time on the model clock, so the cached entry expires at request time + 86400. The plugin reads the clock again when it stores the reply, after the call has returned, which can be up to the 60 s request timeout later (and more if the connection is slow). In the plugin the entry therefore expires up to that much later than in the model.
- Server.MissSuccessIsCached states the expiry as request time + 86400. The plugin stamps it from the time the reply arrives, up to the 60 s timeout later.
- Server.ExpiredConversionIsRegenerated claims a new request at any time after request time + 86400. In the plugin, a conversion requested after that but no later than reply time + 86400 is still served from the cache. The lemma holds as stated only in the model, where the call takes no time.
- WordPress's physical purge of expired transients is not modelled. Expiry is read-time only, so a purge would be invisible to every read in the model.
- An expiry of 0 ("never expires") is not modelled; the plugin always passes 86400.
- A persistent object cache, which would keep transients out of the options table, is not modelled. The cache clear works on the options table only.
- Case-insensitive collation of the options table is not modelled: `Transients.Like` compares characters exactly.
- Server.FormatConverter.ClearFormatCache: one store entry stands for both rows of a transient. The entry goes when either query deletes its value row, since a transient without its value row reads as absent. A timeout row is deleted only together with its value row (`Transients.TimeoutRowFollowsValueRow`). This holds for reads, not for a later write. For a name starting with `timeout_ap_conversion_`, the second query deletes the value row but not the timeout row `_transient_timeout_timeout_ap_conversion_…`. A later `set_transient` of that name by other code cannot add the timeout row again, so the new value keeps the stale expiry and may read as expired at once. The model never writes such a name, because a cache name never starts with `timeout_`. The store holds transients only; an option that is not a transient but matches a pattern (the leading `_` is a wildcard too) would also be deleted.
- Races between concurrent misses for the same article are not modelled; the model is sequential.
- Server.ImmediateRepeatIsServedFromCache is stated only for truthy content. A generated text that is "" or "0" is stored but reads as a miss, so each such request asks the service again.
- Client.FormatToggle.AjaxSucceeded requires a success payload to be an article. The endpoint only sends those on success, and the script reads `response.data.content` without a check.
- The JS `body` fallback of `updateContent`, for a page with no content area, is not modelled. The toggle's content field stands for the content area.
- The model assumes the toggle widget survives a content swap. The filter appends the widget to the article content, and in a typical theme the swapped content area (`article`, `.entry-content` or `.post-content`) contains that output. The first swap then replaces the widget with the converted HTML, and the revert click could no longer happen. Which element the theme wraps is not part of the source, so the model keeps the button.
- Client.FormatToggle.FadeOutCompleted and Client.FormatToggle.FadeInCompleted: each half of a swap consumes its own FIFO queue, and the caller may interleave the two queues freely. jQuery's single animation queue on the content area permits only some of these orders.
- Client.FormatToggle.RetryClicked is accepted in any state. In the page the retry link is visible only while the error is shown, so a retry outside the error state cannot happen there; the model does not restrict it.
- CSS, the admin menu and settings markup, script enqueueing, and the widget's HTML are not modelled.
- Button text and icons, scrolling, fade timing, `gtag` analytics and console logging are not modelled.
- Timer durations (300 ms, 2500 ms, 200 ms fades) are not modelled. Each timer firing is an event, in whatever order the caller chooses.
- The initialisation early returns for a missing button or missing `format_ajax` are not modelled; the toggle exists only when both are present.
- `window.testFormatConverter` is not modelled; it calls an action that has no server handler.

## Findings

| source | as written | input that shows it | evidently intended | confidence | as-written member | corrected member |
|---|---|---|---|---|---|---|
| ap-format-converter.php:454-455 | `LIKE '_transient_ap_conversion_%'` treats each `_` as a one-character wildcard, so the clear deletes any transient whose name matches with other characters in those places; `LIKE '_transient_timeout_ap_conversion_%'` also matches the value row of a transient whose own name starts with `timeout_ap_conversion_` | a transient named `ap-conversion-7`, stored by other code: its name does not start with `ap_conversion_`, yet the first query deletes it. A transient named `timeout_ap_conversion_1`: the second query deletes its value row | delete only transients whose name starts with the literal `ap_conversion_` (escaped `_`) | medium, not executed | Transients.DeleteAsWritten, Transients.LikeOvermatches, Transients.TimeoutNamedTransientIsCleared | Transients.DeleteByPrefix |
