/**
 * The browser side: the toggle button's state machine. The closure variables
 * of the page script become fields of `FormatToggle`; each handler and each
 * asynchronous callback (AJAX reply, the revert timer, the end of a fade, a
 * tick of the loading-text timer) is a separate event method.
 */
module Client {
  import opened Wrappers
  import Server

  /** The six messages the loading indicator cycles through. */
  const LoadingTexts: seq<string> := [
    "Analyzing article structure...",
    "Applying AP style rules...",
    "Restructuring paragraphs...",
    "Adding proper attribution...",
    "Formatting quotes and sources...",
    "Finalizing AP conversion..."
  ]

  /** How many loading texts there are; the indices cycle modulo this. */
  const LoadingTextCount: nat := 6

  /** The count the indices cycle through is the length of the list of texts. */
  lemma LoadingTextCountIsLength()
    ensures |LoadingTexts| == LoadingTextCount
  {
  }

  const AjaxTimeoutMs: nat := 60000
  const ConversionFailed: string := "Conversion failed"
  const TimedOut: string := "Conversion timed out. Please try again."
  const ServerError: string := "Server error. Please try again later."
  const ConnectionFailed: string := "Connection failed. Check your internet connection."
  const NetworkError: string := "Network error occurred"

  /** One AJAX POST: the action, the article, the requested format and the timeout (the nonce is left out). */
  datatype AjaxRequest = AjaxRequest(action: string, postId: int, format: string, timeoutMs: nat)

  /** The only request the script sends: convert article `postId` to "ap", waiting up to 60 s. */
  function ApRequest(postId: int): (q: AjaxRequest)
    ensures q.format == "ap" && q.timeoutMs == 60000 && q.postId == postId
    ensures q.action == "convert_article_format"
  {
    AjaxRequest("convert_article_format", postId, "ap", AjaxTimeoutMs)
  }

  /**
   * The message for a failed AJAX call, in the source's order: a timeout,
   * then HTTP 500, then status 0, else a generic network error.
   */
  function TransportErrorMessage(textStatus: string, httpStatus: int): (m: string)
    ensures m == TimedOut <==> textStatus == "timeout"
    ensures m == ServerError <==> textStatus != "timeout" && httpStatus == 500
    ensures m == ConnectionFailed <==> textStatus != "timeout" && httpStatus == 0
    ensures m == NetworkError <==> textStatus != "timeout" && httpStatus != 500 && httpStatus != 0
  {
    if textStatus == "timeout" then TimedOut
    else if httpStatus == 500 then ServerError
    else if httpStatus == 0 then ConnectionFailed
    else NetworkError
  }

  /** `response.data || 'Conversion failed'`: the server's message, or the fallback when it is empty. */
  function FailureMessage(data: string): (m: string)
    ensures m != ""
    ensures m == data || (data == "" && m == ConversionFailed)
  {
    if data != "" then data else ConversionFailed
  }

  /** The `#original-content` script tag: absent, valid JSON for a string, or not parseable. */
  datatype EmbeddedContent = NoScriptTag | Parsed(value: string) | Unparseable

  /**
   * A content swap under way: the end of its fade-out shows `content`, the
   * end of the fade-in that follows switches to `format`.
   */
  datatype Fade = Fade(content: string, format: string)

  /** A snapshot of every variable of the toggle. */
  datatype UiState = UiState(
    currentFormat: string,
    isConverting: bool,
    buttonDisabled: bool,
    loadingShown: bool,
    errorShown: bool,
    errorMessage: string,
    content: string,
    fades: seq<Fade>,
    fadeIns: seq<Fade>,
    loadingInterval: Option<nat>,
    intervals: map<nat, nat>,
    nextHandle: nat,
    loadingText: nat,
    sent: seq<AjaxRequest>,
    inFlight: nat,
    revertTimers: nat)

  /** `animateLoadingText()`: shows the first text and starts a new interval with its own index 0. */
  function WithAnimationStarted(s: UiState): UiState {
    s.(loadingText := 0,
       loadingInterval := Some(s.nextHandle),
       intervals := s.intervals[s.nextHandle := 0],
       nextHandle := s.nextHandle + 1)
  }

  /** `clearInterval(loadingInterval); loadingInterval = null` when it is set. */
  function WithAnimationStopped(s: UiState): UiState {
    match s.loadingInterval
    case Some(h) => s.(intervals := s.intervals - {h}, loadingInterval := None)
    case None => s
  }

  /** `showLoading()`. */
  function WithLoadingShown(s: UiState): UiState {
    WithAnimationStarted(s.(loadingShown := true, errorShown := false, buttonDisabled := true))
  }

  /** `hideLoading()`. */
  function WithLoadingHidden(s: UiState): UiState {
    WithAnimationStopped(s.(loadingShown := false, buttonDisabled := false))
  }

  /** `showError(message)`: clears the guard, re-enables the button, keeps the format. */
  function WithErrorShown(s: UiState, message: string): UiState {
    WithAnimationStopped(s.(loadingShown := false, errorShown := true, errorMessage := message,
                            buttonDisabled := false, isConverting := false))
  }

  /** `hideError()`. */
  function WithErrorHidden(s: UiState): UiState {
    s.(errorShown := false)
  }

  /** The state right after `convertToAPFormat(postId)`: guard set, loading shown, one more request in flight. */
  function Requested(s: UiState, postId: int): UiState {
    WithLoadingShown(s.(isConverting := true)).(sent := s.sent + [ApRequest(postId)], inFlight := s.inFlight + 1)
  }

  /** The state right after `revertToOriginal()`: guard set, loading shown, the 300 ms timer pending. */
  function RevertScheduled(s: UiState): UiState {
    WithLoadingShown(s.(isConverting := true)).(revertTimers := s.revertTimers + 1)
  }

  class FormatToggle {
    /** The button's `data-post-id`. */
    const postId: nat
    /** The article as first served, captured once when the page loads. */
    const originalContent: string

    var currentFormat: string
    var isConverting: bool
    var buttonDisabled: bool
    var loadingShown: bool
    var errorShown: bool
    var errorMessage: string
    /** The HTML of the content area. */
    var content: string
    /** Swaps whose fade-out is under way, in the order they will complete. */
    var fades: seq<Fade>
    /** Swaps whose new content is shown and whose fade-in is under way. */
    var fadeIns: seq<Fade>
    /** The handle of the loading-text timer, null when cleared. */
    var loadingInterval: Option<nat>
    /** Every running loading-text timer, with the text index of its own closure. */
    var intervals: map<nat, nat>
    var nextHandle: nat
    /** The index of the loading text on display. */
    var loadingText: nat
    /** Every request the script has sent, in order. */
    var sent: seq<AjaxRequest>
    /** Requests whose reply has not arrived. */
    var inFlight: nat
    /** Revert timers that have not fired. */
    var revertTimers: nat

    function State(): UiState
      reads this
    {
      UiState(currentFormat, isConverting, buttonDisabled, loadingShown, errorShown, errorMessage,
              content, fades, fadeIns, loadingInterval, intervals, nextHandle, loadingText, sent, inFlight, revertTimers)
    }

    /**
     * The invariant every event keeps: the format is "original" or "ap"; every
     * loading-text index is in [0, 6); the handle variable, when set, names a
     * running timer; every request is an "ap" request for this article with a
     * 60 s timeout; a pending swap to "original" shows the captured content.
     */
    ghost predicate Valid()
      reads this
    {
      && (currentFormat == "original" || currentFormat == "ap")
      && loadingText < LoadingTextCount
      && (forall h :: h in intervals ==> h < nextHandle && intervals[h] < LoadingTextCount)
      && (loadingInterval.Some? ==> loadingInterval.value in intervals)
      && (forall i :: 0 <= i < |sent| ==> sent[i] == ApRequest(postId))
      && (forall i :: 0 <= i < |fades| ==> fades[i].format == "ap" || fades[i] == Fade(originalContent, "original"))
      && (forall i :: 0 <= i < |fadeIns| ==> fadeIns[i].format == "ap" || fadeIns[i].format == "original")
    }

    /** Page load: the original content comes from the embedded JSON, else from the content area. */
    constructor (postId: nat, embedded: EmbeddedContent, pageHtml: string)
      ensures Valid()
      ensures this.postId == postId && content == pageHtml
      ensures originalContent == match embedded
        case Parsed(v) => v
        case Unparseable => pageHtml
        case NoScriptTag => ""
      ensures currentFormat == "original" && !isConverting && sent == [] && inFlight == 0
      ensures !buttonDisabled && !loadingShown && !errorShown && fades == [] && fadeIns == [] && revertTimers == 0
    {
      this.postId := postId;
      originalContent := match embedded
        case Parsed(v) => v
        case Unparseable => pageHtml
        case NoScriptTag => "";
      currentFormat := "original";
      isConverting := false;
      buttonDisabled := false;
      loadingShown := false;
      errorShown := false;
      errorMessage := "";
      content := pageHtml;
      fades := [];
      fadeIns := [];
      loadingInterval := None;
      intervals := map[];
      nextHandle := 1;
      loadingText := 0;
      sent := [];
      inFlight := 0;
      revertTimers := 0;
    }

    /** The toggle's click handler: ignored while converting; else convert or revert by the current format. */
    method ClickToggle()
      requires Valid()
      modifies this
      ensures Valid()
      ensures old(isConverting) ==> State() == old(State())
      ensures !old(isConverting) && old(currentFormat) == "original" ==> State() == Requested(old(State()), postId)
      ensures !old(isConverting) && old(currentFormat) != "original" ==> State() == RevertScheduled(old(State()))
      ensures currentFormat == old(currentFormat)
    {
      if isConverting {
        return;
      }
      if currentFormat == "original" {
        ConvertToApFormat();
      } else {
        RevertToOriginal();
      }
    }

    /** `convertToAPFormat(postId)`: sets the guard, shows loading and sends the request. */
    method ConvertToApFormat()
      requires Valid()
      modifies this
      ensures Valid()
      ensures State() == Requested(old(State()), postId)
    {
      isConverting := true;
      ShowLoading();
      ghost var shown := State();
      sent := sent + [ApRequest(postId)];
      inFlight := inFlight + 1;
      assert State() == shown.(sent := shown.sent + [ApRequest(postId)], inFlight := shown.inFlight + 1);
    }

    /** `revertToOriginal()`: sets the guard, shows loading and starts the 300 ms timer; no request. */
    method RevertToOriginal()
      requires Valid()
      modifies this
      ensures Valid()
      ensures State() == RevertScheduled(old(State()))
    {
      isConverting := true;
      ShowLoading();
      revertTimers := revertTimers + 1;
    }

    /** The AJAX success callback: a converted article starts the swap; a refusal shows the server's message. */
    method AjaxSucceeded(resp: Server.Response)
      requires Valid() && inFlight > 0
      requires resp.JsonError? || (resp.JsonSuccess? && resp.data.ArticlePayload?)
      modifies this
      ensures Valid()
      ensures resp.JsonSuccess? ==>
        State() == old(State()).(inFlight := old(inFlight) - 1, fades := old(fades) + [Fade(resp.data.content, "ap")])
      ensures resp.JsonError? ==>
        State() == WithErrorShown(old(State()).(inFlight := old(inFlight) - 1), FailureMessage(resp.message))
      ensures currentFormat == old(currentFormat)
    {
      inFlight := inFlight - 1;
      match resp
      case JsonSuccess(data) =>
        UpdateContent(data.content, "ap");
      case JsonError(message) =>
        ShowError(FailureMessage(message));
    }

    /** The AJAX error callback (timeout, HTTP error or no connection). */
    method AjaxFailed(textStatus: string, httpStatus: int)
      requires Valid() && inFlight > 0
      modifies this
      ensures Valid()
      ensures State() == WithErrorShown(old(State()).(inFlight := old(inFlight) - 1), TransportErrorMessage(textStatus, httpStatus))
    {
      inFlight := inFlight - 1;
      ShowError(TransportErrorMessage(textStatus, httpStatus));
    }

    /** The revert timer fires: the swap back to the captured content starts; loading and error are hidden. */
    method RevertTimerFired()
      requires Valid() && revertTimers > 0
      modifies this
      ensures Valid()
      ensures State() == WithErrorHidden(WithLoadingHidden(
        old(State()).(revertTimers := old(revertTimers) - 1, fades := old(fades) + [Fade(originalContent, "original")])))
      ensures isConverting == old(isConverting) && currentFormat == old(currentFormat)
    {
      revertTimers := revertTimers - 1;
      UpdateContent(originalContent, "original");
      HideLoading();
      HideError();
    }

    /** `updateContent(content, format)`: starts the fade-out whose end does the swap. */
    method UpdateContent(newContent: string, format: string)
      requires Valid()
      requires format == "ap" || (format == "original" && newContent == originalContent)
      modifies this
      ensures Valid()
      ensures State() == old(State()).(fades := old(fades) + [Fade(newContent, format)])
    {
      fades := fades + [Fade(newContent, format)];
    }

    /**
     * The end of the oldest fade-out: the content area shows the new content
     * and starts fading in. The format and the guard do not change yet.
     */
    method FadeOutCompleted()
      requires Valid() && fades != []
      modifies this
      ensures Valid()
      ensures State() == old(State()).(fades := old(fades)[1..], content := old(fades)[0].content,
                                       fadeIns := old(fadeIns) + [old(fades)[0]])
      ensures old(fades)[0].format == "original" ==> content == originalContent
    {
      var fade := fades[0];
      assert fade.format == "ap" || fade == Fade(originalContent, "original");
      var rest := fades[1..];
      assert forall i :: 0 <= i < |rest| ==> rest[i] == fades[i + 1];
      fades := rest;
      content := fade.content;
      fadeIns := fadeIns + [fade];
    }

    /**
     * The end of the oldest fade-in: only now do the format change and the
     * guard clear; loading and error are hidden. The content is not touched.
     */
    method FadeInCompleted()
      requires Valid() && fadeIns != []
      modifies this
      ensures Valid()
      ensures State() == WithErrorHidden(WithLoadingHidden(old(State()).(
        fadeIns := old(fadeIns)[1..], currentFormat := old(fadeIns)[0].format, isConverting := false)))
      ensures content == old(content) && currentFormat == old(fadeIns)[0].format
    {
      SwitchFormat();
      HideLoading();
      HideError();
    }

    /** The first part of the fade-in's end: the new format, and the guard cleared. */
    method SwitchFormat()
      requires Valid() && fadeIns != []
      modifies this
      ensures Valid()
      ensures State() == old(State()).(fadeIns := old(fadeIns)[1..], currentFormat := old(fadeIns)[0].format,
                                       isConverting := false)
    {
      var fade := fadeIns[0];
      var rest := fadeIns[1..];
      assert forall i :: 0 <= i < |rest| ==> rest[i] == fadeIns[i + 1];
      fadeIns := rest;
      currentFormat := fade.format;
      isConverting := false;
    }

    /** The "Try again" link: hides the error and sends a new request, whatever the guard says. */
    method RetryClicked()
      requires Valid()
      modifies this
      ensures Valid()
      ensures State() == Requested(WithErrorHidden(old(State())), postId)
      ensures sent == old(sent) + [ApRequest(postId)]
    {
      HideError();
      ConvertToApFormat();
    }

    /**
     * A tick of loading-text timer `h`: while converting, that timer's own
     * index advances modulo 6; otherwise the timer stored in the handle
     * variable (not necessarily `h`) is cleared.
     */
    method LoadingTick(h: nat)
      requires Valid() && h in intervals
      modifies this
      ensures Valid()
      ensures !old(isConverting) ==> State() == WithAnimationStopped(old(State()))
      ensures old(isConverting) ==>
        var next := (old(intervals)[h] + 1) % LoadingTextCount;
        State() == old(State()).(intervals := old(intervals)[h := next], loadingText := next)
    {
      if !isConverting {
        StopAnimation();
        return;
      }
      var next := (intervals[h] + 1) % LoadingTextCount;
      intervals := intervals[h := next];
      loadingText := next;
    }

    method ShowLoading()
      requires Valid()
      modifies this
      ensures Valid()
      ensures State() == WithLoadingShown(old(State()))
    {
      loadingShown := true;
      errorShown := false;
      buttonDisabled := true;
      AnimateLoadingText();
    }

    method HideLoading()
      requires Valid()
      modifies this
      ensures Valid()
      ensures State() == WithLoadingHidden(old(State()))
      ensures content == old(content) && currentFormat == old(currentFormat)
    {
      loadingShown := false;
      buttonDisabled := false;
      StopAnimation();
    }

    method ShowError(message: string)
      requires Valid()
      modifies this
      ensures Valid()
      ensures State() == WithErrorShown(old(State()), message)
      ensures !isConverting && !buttonDisabled && currentFormat == old(currentFormat)
    {
      ghost var before := State();
      loadingShown := false;
      errorShown := true;
      errorMessage := message;
      buttonDisabled := false;
      isConverting := false;
      assert State() == before.(loadingShown := false, errorShown := true, errorMessage := message,
                                buttonDisabled := false, isConverting := false);
      StopAnimation();
    }

    method HideError()
      requires Valid()
      modifies this
      ensures Valid()
      ensures State() == WithErrorHidden(old(State()))
      ensures content == old(content) && currentFormat == old(currentFormat)
    {
      errorShown := false;
    }

    /** `animateLoadingText()`: overwrites the handle variable without clearing an earlier timer. */
    method AnimateLoadingText()
      requires Valid()
      modifies this
      ensures Valid()
      ensures State() == WithAnimationStarted(old(State()))
    {
      loadingText := 0;
      intervals := intervals[nextHandle := 0];
      loadingInterval := Some(nextHandle);
      nextHandle := nextHandle + 1;
    }

    method StopAnimation()
      requires Valid()
      modifies this
      ensures Valid()
      ensures State() == WithAnimationStopped(old(State()))
    {
      if loadingInterval.Some? {
        intervals := intervals - {loadingInterval.value};
        loadingInterval := None;
      }
    }
  }

  // ---------------------------------------------------------------------
  // Event sequences

  /** Two quick clicks from the original view send one request. */
  method DoubleClickSendsOneRequest(postId: nat, html: string) returns (t: FormatToggle)
    ensures t.sent == [ApRequest(postId)] && t.isConverting && t.currentFormat == "original"
  {
    t := new FormatToggle(postId, Parsed(html), html);
    t.ClickToggle();
    t.ClickToggle();
  }

  /** A failed conversion, then "Try again" and a successful reply: one new request, and the AP view once the fade-in ends. */
  method RetryAfterFailure(postId: nat, html: string, converted: string) returns (t: FormatToggle)
    ensures |t.sent| == 2 && t.currentFormat == "ap" && t.content == converted
    ensures !t.isConverting && !t.errorShown && !t.loadingShown
  {
    t := new FormatToggle(postId, Parsed(html), html);
    t.ClickToggle();
    t.AjaxFailed("error", 500);
    assert t.errorMessage == ServerError && t.currentFormat == "original" && !t.isConverting;
    t.RetryClicked();
    t.AjaxSucceeded(Server.JsonSuccess(Server.ArticlePayload(converted, "ap")));
    assert t.currentFormat == "original" && t.isConverting && t.fades == [Fade(converted, "ap")];
    t.FadeOutCompleted();
    assert t.fadeIns == [Fade(converted, "ap")];
    t.FadeInCompleted();
  }

  /**
   * Between the two halves of the swap the converted content is already on
   * display while the format is still "original" and the guard still set, so
   * a click then is ignored.
   */
  method ContentShownBeforeFormatSwitches(postId: nat, html: string, converted: string) returns (t: FormatToggle)
    ensures t.content == converted && t.currentFormat == "original" && t.isConverting
    ensures t.sent == [ApRequest(postId)]
  {
    t := new FormatToggle(postId, Parsed(html), html);
    t.ClickToggle();
    t.AjaxSucceeded(Server.JsonSuccess(Server.ArticlePayload(converted, "ap")));
    assert t.fades == [Fade(converted, "ap")] && t.isConverting;
    t.FadeOutCompleted();
    t.ClickToggle();
  }

  /**
   * From the page the server filter produced: convert, then revert. The
   * reverted view is the content the server embedded, and reverting sends
   * no request.
   */
  method RevertRestoresEmbeddedContent(article: string, postId: nat, converted: string) returns (t: FormatToggle)
    ensures t.content == article && t.currentFormat == "original"
    ensures t.sent == [ApRequest(postId)]
  {
    var page := Server.AddFormatSelector(article, true, postId);
    var widget := page.widget.value;
    t := new FormatToggle(widget.postId, Parsed(widget.originalContent), page.content);
    assert t.originalContent == article;
    ShowConverted(t, converted);
    t.ClickToggle();
    assert t.revertTimers == 1 && t.fades == [] && t.fadeIns == [] && t.sent == [ApRequest(postId)];
    t.RevertTimerFired();
    assert t.fades == [Fade(article, "original")] && t.fadeIns == [];
    t.FadeOutCompleted();
    assert t.fadeIns == [Fade(article, "original")] && t.content == article;
    t.FadeInCompleted();
  }

  /** From the original view with nothing pending: a successful conversion with both halves of the swap. */
  method ShowConverted(t: FormatToggle, converted: string)
    requires t.Valid() && t.currentFormat == "original" && !t.isConverting
    requires t.sent == [] && t.inFlight == 0 && t.fades == [] && t.fadeIns == [] && t.revertTimers == 0
    modifies t
    ensures t.Valid()
    ensures t.currentFormat == "ap" && !t.isConverting && t.content == converted
    ensures t.sent == [ApRequest(t.postId)] && t.fades == [] && t.fadeIns == [] && t.revertTimers == 0
  {
    t.ClickToggle();
    assert t.sent == [ApRequest(t.postId)] && t.inFlight == 1 && t.fades == [];
    t.AjaxSucceeded(Server.JsonSuccess(Server.ArticlePayload(converted, "ap")));
    assert t.fades == [Fade(converted, "ap")] && t.revertTimers == 0 && t.fadeIns == [];
    t.FadeOutCompleted();
    assert t.fadeIns == [Fade(converted, "ap")] && t.fades == [];
    t.FadeInCompleted();
  }
}
