/**
  Which call a plan makes, from the answers of the world alone: a completion exactly for an accepted
  extraction whose Document IR was stored, and for every refused answer its own failure class.
 */
module PlanOutcome {
  import opened Wrappers
  import opened Tables
  import opened Transactions
  import opened Pipeline

  // ----- what a plan does up to its first terminal call

  /** The effects before the first terminal call. */
  function Lead(p: Plan): seq<Effect> {
    if p.Return? || IsTerminal(p.effect) then [] else [p.effect] + Lead(p.rest)
  }

  /** The first terminal call, which is the one that settles the run. */
  function Call(p: Plan): Option<Effect> {
    if p.Return? then None else if IsTerminal(p.effect) then Some(p.effect) else Call(p.rest)
  }

  /** Everything after the first terminal call. */
  function Trail(p: Plan): seq<Effect> {
    if p.Return? then [] else if IsTerminal(p.effect) then EffectsOf(p.rest) else Trail(p.rest)
  }

  function EffectsOf(p: Plan): seq<Effect> {
    if p.Return? then [] else [p.effect] + EffectsOf(p.rest)
  }

  // ----- the route of a run and its continuations

  predicate AsksProvider(w: World, run: QueuedRun) {
    && run.blob.None? && run.classification in {"hacker_news", "reddit"}
    && w.providerAddress.Ok? && w.providerAddress.value.Some?
  }

  predicate AsksWatchPage(w: World, run: QueuedRun) {
    run.blob.None? && run.classification == "youtube" && w.watchAddress.Some?
  }

  predicate AsksPage(w: World, run: QueuedRun) {
    && run.blob.None? && run.classification != "youtube"
    && (run.classification in {"hacker_news", "reddit"} ==> w.providerAddress == Ok(None))
  }

  /** Fetch `n` answered a page of this media type. */
  predicate Media(w: World, n: nat, mediaType: string) {
    w.fetch(n).Fetched? && w.fetch(n).page.fetch.mediaType == mediaType
  }

  /** Fetch `n` answered, its bytes verified, and they could be read back. */
  predicate Readable(w: World, n: nat) { w.fetch(n).Fetched? && w.fetch(n).page.verified && w.fetch(n).page.usable }

  predicate Unverified(w: World, n: nat) { w.fetch(n).Fetched? && !w.fetch(n).page.verified }

  /** Why the run falls back to generic extraction, if it does. */
  function FallbackReason(w: World, run: QueuedRun): Option<string> {
    if run.blob.None? && run.classification == "youtube" && w.watchAddress.None? then Some("youtube_no_video_id")
    else if AsksProvider(w, run) && w.fetch(0).Fetched? && !Media(w, 0, "application/json") then Some("provider_response")
    else if AsksProvider(w, run) && Media(w, 0, "application/json") && Readable(w, 0) && w.provider.ProviderFailed?
    then Some("provider_schema")
    else if AsksWatchPage(w, run) && w.fetch(0).Fetched? && (Media(w, 0, "text/html") ==> Readable(w, 0) && w.player.PlayerUnusable?)
    then Some("youtube_player_schema")
    else None
  }

  /** The generic attempt is the run's first fetch when there was no provider to ask. */
  function FallbackFetch(reason: string): nat { if reason == "youtube_no_video_id" then 0 else 1 }

  /** The article a provider's answer names, when it names one that is not the discussion itself. */
  function ArticleTarget(w: World, run: QueuedRun): Option<string> {
    if AsksProvider(w, run) && Media(w, 0, "application/json") && Readable(w, 0) && w.provider.ProviderParsed?
       && w.provider.external.Some? && !w.pointsBack(w.provider.external.value)
    then w.provider.external
    else None
  }

  /** The transcript track a watch page names. */
  function TrackTarget(w: World, run: QueuedRun): Option<string> {
    if AsksWatchPage(w, run) && Media(w, 0, "text/html") && Readable(w, 0) && w.player.Player? && w.player.track.Track?
    then Some(w.player.track.url)
    else None
  }

  /** An empty list permits every host; otherwise the page's own host must be on it. */
  predicate HostPermitted(w: World)
    requires w.fetch(0).Fetched?
  {
    var host := w.fetch(0).page.host;
    w.render.allowedHosts == [] || (host.Some? && w.lower(host.value) in w.render.allowedHosts)
  }

  /** A rejected page that the escalation policy lets the budget decide on. */
  predicate MayEscalate(w: World) {
    && Media(w, 0, "text/html") && Readable(w, 0) && w.html(0).LowQuality? && w.html(0).shell
    && w.render.enabled && HostPermitted(w)
  }

  predicate Renders(w: World) { MayEscalate(w) && w.budget.Consumed? }

  // ----- what is accepted

  /** Everything a completion is given except the stored Document IR. */
  datatype Extraction = Extraction(document: Document, raw: BlobRef, fetch: Option<CompletedFetch>,
                                   candidates: seq<Candidate>, steps: seq<Step>)

  /** The extraction is of the bytes fetch `n` stored. */
  predicate OfFetch(w: World, n: nat, x: Extraction) {
    w.fetch(n).Fetched? && x.fetch == Some(w.fetch(n).page.fetch) && x.raw == w.fetch(n).page.fetch.rawBlob
  }

  predicate PageAccepted(w: World, run: QueuedRun, x: Extraction) {
    && AsksPage(w, run) && Readable(w, 0) && OfFetch(w, 0, x) && x.steps == []
    && (|| (Media(w, 0, "text/html") && w.html(0) == Html(x.document, x.candidates))
        || (Renders(w) && w.rendered == Rendered(Html(x.document, x.candidates), true))
        || (Media(w, 0, "application/pdf") && w.pdf == Pdf(x.document, x.candidates)))
  }

  /** The peer's copy is of the claimed type, length and digest. */
  predicate PeerBytes(w: World, blob: BlobRef, raw: BlobRef) {
    && blob.mediaType == "application/pdf" && blob.length <= w.maxPdfBytes && w.peer == PeerCopied(raw)
    && raw.digest == blob.digest && raw.algorithm == blob.algorithm && raw.length == blob.length
  }

  predicate BlobAccepted(w: World, run: QueuedRun, x: Extraction) {
    && run.blob.Some? && PeerBytes(w, run.blob.value, x.raw) && w.runDocument
    && x.fetch.None? && x.steps == [] && w.pdf == Pdf(x.document, x.candidates)
  }

  predicate ProviderAccepted(w: World, run: QueuedRun, x: Extraction) {
    && AsksProvider(w, run) && Media(w, 0, "application/json") && Readable(w, 0) && OfFetch(w, 0, x) && x.steps == []
    && w.provider.ProviderParsed? && ArticleTarget(w, run).None?
    && x.document == w.provider.document && x.candidates == w.provider.candidates
  }

  /** The provider's candidates with the article's document. */
  predicate ArticleAccepted(w: World, run: QueuedRun, x: Extraction) {
    && ArticleTarget(w, run).Some? && Media(w, 1, "text/html") && Readable(w, 1) && OfFetch(w, 1, x)
    && x.candidates == w.provider.candidates && w.html(1).Html? && x.document == w.html(1).document
    && x.steps == [Step(0, "provider_attempt", Some("ok"), None, None),
                   Step(1, "resolved_target", Some("ok"), None, Some(w.fetch(1).page.fetch.finalUrl))]
  }

  predicate FallbackAccepted(w: World, run: QueuedRun, x: Extraction) {
    && FallbackReason(w, run).Some?
    && var reason := FallbackReason(w, run).value;
       var n := FallbackFetch(reason);
       && Media(w, n, "text/html") && Readable(w, n) && OfFetch(w, n, x) && w.html(n) == Html(x.document, x.candidates)
       && x.steps == [Step(0, "provider_attempt", Some("failed"), Some(reason), None),
                      Step(1, "html_fallback", Some("ok"), None, None)]
  }

  /** A transcript is text of any kind, or JSON. */
  predicate TextOrJson(mediaType: string) { "text/" <= mediaType || mediaType == "application/json" }

  predicate TrackText(w: World) { Readable(w, 1) && TextOrJson(w.fetch(1).page.fetch.mediaType) }

  predicate TranscriptAccepted(w: World, run: QueuedRun, x: Extraction) {
    && TrackTarget(w, run).Some? && TrackText(w) && OfFetch(w, 1, x) && x.steps == []
    && w.timedText && w.watchDocument && w.transcript.Transcript? && x.document == w.transcript.document
    && x.candidates == [w.transcript.candidate.(selected := true)]
  }

  predicate Accepted(w: World, run: QueuedRun, x: Extraction) {
    || PageAccepted(w, run, x) || BlobAccepted(w, run, x) || ProviderAccepted(w, run, x)
    || ArticleAccepted(w, run, x) || FallbackAccepted(w, run, x) || TranscriptAccepted(w, run, x)
  }

  // ----- what is refused, and as what

  datatype Evidence = Evidence(raw: BlobRef, fetch: Option<CompletedFetch>, candidates: seq<Candidate>)

  datatype Refusal = Refusal(failureClass: string, retryable: bool, evidence: Option<Evidence>, steps: seq<Step>)

  /** Only a fetch that may answer another time is worth another run. */
  predicate Passing(e: FetchFailure) {
    e in {Transport, Dns, TimeoutTotal, TimeoutFirstByte, TimeoutReadIdle, Overloaded}
  }

  function Plain(failureClass: string): Refusal { Refusal(failureClass, false, None, []) }

  /** A rejection keeps what was fetched and every candidate that was found. */
  function WithEvidence(w: World, n: nat, failureClass: string, candidates: seq<Candidate>, steps: seq<Step>): Refusal
    requires w.fetch(n).Fetched?
  {
    var f := w.fetch(n).page.fetch;
    Refusal(failureClass, false, Some(Evidence(f.rawBlob, Some(f), candidates)), steps)
  }

  /** The first closed gate of the escalation policy for a page of low quality. */
  predicate ClosedGate(w: World, gate: string)
    requires w.fetch(0).Fetched? && w.html(0).LowQuality?
  {
    || (gate == "rendering_disabled" && !w.render.enabled)
    || (gate == "not_an_empty_shell" && w.render.enabled && !w.html(0).shell)
    || (gate == "host_not_allowed" && w.render.enabled && w.html(0).shell && !HostPermitted(w))
    || (gate == "daily_budget_exhausted" && w.render.enabled && w.html(0).shell && HostPermitted(w) && w.budget.Exhausted?)
  }

  /** The one step of a rejection the policy decided. */
  predicate DeniedStep(w: World, steps: seq<Step>)
    requires w.fetch(0).Fetched? && w.html(0).LowQuality?
  {
    && |steps| == 1 && steps[0].outcome.Some? && ClosedGate(w, steps[0].outcome.value)
    && steps[0] == Step(0, "render_policy", steps[0].outcome, None, None)
  }

  predicate RenderRefused(w: World, r: Refusal)
    requires w.fetch(0).Fetched?
  {
    match w.rendered
    case Rendered(LowQuality(found, _), true) => r == WithEvidence(w, 0, "quality", found, [])
    case Rendered(HtmlFailed, true) => r == Plain("parse")
    case Rendered(_, _) => false
    case RenderFailed(PolicyBlockedPage) => r == Plain("policy_blocked")
    case RenderFailed(NavigationTimeout) => r == Plain("navigation_timeout")
    case RenderFailed(TotalTimeout) => r == Plain("total_timeout")
    case RenderFailed(SizeLimit) => r == Plain("size_limit")
    case RenderFailed(NavigationFailed) => r == Plain("navigation_failed")
    case RenderFailed(BrowserUnavailable) => r == Plain("browser_unavailable")
    case RenderTimeout => r == Plain("navigation_timeout")
    case RenderTransport => r == Refusal("fetch", true, None, [])
  }

  predicate HtmlRefused(w: World, r: Refusal) {
    && Media(w, 0, "text/html") && Readable(w, 0)
    && (|| (w.html(0).HtmlFailed? && r == Plain("parse"))
        || (w.html(0).LowQuality? && DeniedStep(w, r.steps) && r == WithEvidence(w, 0, "quality", w.html(0).candidates, r.steps))
        || (Renders(w) && RenderRefused(w, r)))
  }

  predicate PdfRefused(w: World, r: Refusal, raw: BlobRef, fetch: Option<CompletedFetch>) {
    || (w.pdf.NoTextLayer? && r == Refusal("pdf_no_text_layer", false, Some(Evidence(raw, fetch, w.pdf.candidates)), []))
    || (w.pdf.Encrypted? && r == Plain("pdf_encrypted"))
    || (w.pdf.PdfFailed? && r == Plain("parse"))
  }

  predicate PageRefused(w: World, run: QueuedRun, r: Refusal) {
    && AsksPage(w, run)
    && (|| (w.fetch(0).NotFetched? && r == Refusal("fetch", Passing(w.fetch(0).error), None, []))
        || (w.fetch(0).Fetched? && !Media(w, 0, "text/html") && !Media(w, 0, "application/pdf") && r == Plain("unsupported_media"))
        || ((Media(w, 0, "text/html") || Media(w, 0, "application/pdf")) && Unverified(w, 0) && r == Plain("artifact"))
        || HtmlRefused(w, r)
        || (Media(w, 0, "application/pdf") && Readable(w, 0)
            && PdfRefused(w, r, w.fetch(0).page.fetch.rawBlob, Some(w.fetch(0).page.fetch))))
  }

  /** A claim of another type, a peer's refusal, a claim too long, unread bytes, and bytes that are not the claim's. */
  predicate PeerRefusedAs(w: World, blob: BlobRef, r: Refusal) {
    if blob.mediaType != "application/pdf" then r == Plain("unsupported_media")
    else
      match w.peer
      case PeerRefused(WrongOwner) => r == Plain("blob_owner")
      case PeerRefused(Missing) => r == Plain("blob_missing")
      case PeerRefused(Unreadable) => r == Plain("blob_unreadable")
      case PeerRefused(OtherRefusal) => r == Plain("blob_mismatch")
      case PeerUnread => r == Plain(if blob.length <= w.maxPdfBytes then "blob_unreadable" else "parse")
      case PeerUncopied => blob.length > w.maxPdfBytes && r == Plain("parse")
      case PeerCopied(raw) =>
        || (blob.length > w.maxPdfBytes && r == Plain("parse"))
        || (blob.length <= w.maxPdfBytes && !PeerBytes(w, blob, raw) && r == Plain("blob_mismatch"))
        || (PeerBytes(w, blob, raw) && w.runDocument && PdfRefused(w, r, raw, None))
  }

  predicate ProviderRefused(w: World, run: QueuedRun, r: Refusal) {
    && AsksProvider(w, run)
    && (|| (w.fetch(0).NotFetched? && r == Refusal("fetch", Passing(w.fetch(0).error), None, []))
        || (Media(w, 0, "application/json") && Unverified(w, 0) && r == Plain("artifact"))
        || (Media(w, 0, "application/json") && Readable(w, 0) && w.provider.ProviderLimit? && r == Plain("parse"))
        || (Media(w, 0, "application/json") && Readable(w, 0) && w.provider.ProviderLowQuality?
            && r == WithEvidence(w, 0, "provider_low_quality", w.provider.candidates, [])))
  }

  /** The article's refusal names the address asked for, or the one that answered. */
  predicate ArticleRefused(w: World, run: QueuedRun, r: Refusal) {
    && ArticleTarget(w, run).Some?
    && var url := if w.fetch(1).Fetched? then w.fetch(1).page.fetch.finalUrl else ArticleTarget(w, run).value;
       var policy := w.fetch(1).NotFetched? && w.fetch(1).error in {AddressPolicy, UrlPolicy};
       var failureClass := r.failureClass;
       && r == Refusal(failureClass, w.fetch(1).NotFetched? && Passing(w.fetch(1).error), None,
                       [Step(0, "provider_attempt", Some("ok"), None, None),
                        Step(1, "resolved_target", Some("failed"), Some(failureClass), Some(url))])
       && (|| (w.fetch(1).NotFetched? && failureClass == (if policy then "policy" else "fetch"))
           || (w.fetch(1).Fetched? && !Media(w, 1, "text/html") && failureClass == "unsupported_media")
           || (Media(w, 1, "text/html") && Unverified(w, 1) && failureClass == "artifact")
           || (Media(w, 1, "text/html") && Readable(w, 1) && !w.html(1).Html? && failureClass == "parse"))
  }

  predicate FallbackRefused(w: World, run: QueuedRun, r: Refusal) {
    && FallbackReason(w, run).Some?
    && var reason := FallbackReason(w, run).value;
       var n := FallbackFetch(reason);
       && r.steps == [Step(0, "provider_attempt", Some("failed"), Some(reason), None),
                      Step(1, "html_fallback", Some("failed"), Some(r.failureClass), None)]
       && (|| (w.fetch(n).NotFetched? && r == Refusal("fetch", Passing(w.fetch(n).error), None, r.steps))
           || (w.fetch(n).Fetched? && !Media(w, n, "text/html") && r == Refusal("unsupported_media", false, None, r.steps))
           || (Media(w, n, "text/html") && Unverified(w, n) && r == Refusal("artifact", false, None, r.steps))
           || (Media(w, n, "text/html") && Readable(w, n) && w.html(n).HtmlFailed? && r == Refusal("parse", false, None, r.steps))
           || (Media(w, n, "text/html") && Readable(w, n) && w.html(n).LowQuality?
               && r == WithEvidence(w, n, "quality", w.html(n).candidates, r.steps)))
  }

  predicate WatchRefused(w: World, run: QueuedRun, r: Refusal) {
    && AsksWatchPage(w, run)
    && (|| (w.fetch(0).NotFetched? && r == Refusal("fetch", Passing(w.fetch(0).error), None, []))
        || (Media(w, 0, "text/html") && Unverified(w, 0) && r == Plain("artifact"))
        || (Media(w, 0, "text/html") && Readable(w, 0) && w.player.PlayerLimit? && r == Plain("parse"))
        || (Media(w, 0, "text/html") && Readable(w, 0) && w.player == Player(NoLanguageMatch)
            && r == WithEvidence(w, 0, "youtube_no_language_match", [w.evidence.(selected := false)], []))
        || (Media(w, 0, "text/html") && Readable(w, 0) && w.player == Player(NoTrack)
            && r == WithEvidence(w, 0, "youtube_no_transcript", [w.evidence.(selected := false)], [])))
  }

  predicate TrackRefused(w: World, run: QueuedRun, r: Refusal) {
    && TrackTarget(w, run).Some?
    && (|| (w.fetch(1).NotFetched? && r == Refusal("fetch", Passing(w.fetch(1).error), None, []))
        || (w.fetch(1).Fetched? && !TextOrJson(w.fetch(1).page.fetch.mediaType) && r == Plain("parse"))
        || (w.fetch(1).Fetched? && TextOrJson(w.fetch(1).page.fetch.mediaType) && Unverified(w, 1) && r == Plain("artifact"))
        || (TrackText(w) && !w.timedText && r == Plain("parse"))
        || (TrackText(w) && w.timedText && w.watchDocument && w.transcript.TranscriptFailed? && r == Plain("parse")))
  }

  predicate Refused(w: World, run: QueuedRun, r: Refusal) {
    || PageRefused(w, run, r) || (run.blob.Some? && PeerRefusedAs(w, run.blob.value, r)) || ProviderRefused(w, run, r)
    || ArticleRefused(w, run, r) || FallbackRefused(w, run, r) || WatchRefused(w, run, r) || TrackRefused(w, run, r)
  }

  /** What a failing or rejecting call says. */
  function RefusalOf(e: Effect): Option<Refusal> {
    match e
    case Fail(failureClass, retryable, steps) => Some(Refusal(failureClass, retryable, None, steps))
    case Reject(x) => Some(Refusal(x.failureClass, false, Some(Evidence(x.rawBlob, x.fetch, x.candidates)), x.steps))
    case _ => None
  }

  function ExtractionOf(x: Success): Extraction { Extraction(x.document, x.rawBlob, x.fetch, x.candidates, x.steps) }

  /** The plan completes with `x` exactly for the accepted extraction `x` and the stored Document IR. */
  predicate CompletesFor(w: World, p: Plan, x: Success, accepted: bool) {
    Call(p) == Some(Complete(x)) <==> accepted && w.irBlob == Some(x.irBlob)
  }

  predicate RefusesFor(p: Plan, r: Refusal, refused: bool) {
    (Call(p).Some? && RefusalOf(Call(p).value) == Some(r)) <==> refused
  }

  // ----- each part decides as stated

  lemma AfterRenderDecides(w: World, run: QueuedRun, x: Success, r: Refusal)
    requires AsksPage(w, run) && Renders(w)
    ensures var p := AfterRender(w, w.fetch(0).page.fetch, w.html(0).candidates);
            && CompletesFor(w, p, x, PageAccepted(w, run, ExtractionOf(x)))
            && RefusesFor(p, r, RenderRefused(w, r))
  {
  }

  lemma DenialDecides(w: World, run: QueuedRun, x: Success, r: Refusal)
    requires Media(w, 0, "text/html") && Readable(w, 0) && w.html(0).LowQuality? && !Renders(w)
    ensures var p := CompleteHtml(w, w.fetch(0).page); CompletesFor(w, p, x, false) && RefusesFor(p, r, HtmlRefused(w, r))
  {
    assert |r.steps| == 1 ==> r.steps == [r.steps[0]];
    var p := EscalateOrDeny(w, w.fetch(0).page.fetch, w.fetch(0).page.host, w.html(0).candidates, w.html(0).shell);
    if MayEscalate(w) && w.budget.BudgetUnknown? {
      assert Call(p).None?;
    } else {
      assert Call(p).Some? && RefusalOf(Call(p).value).Some?;
      assert DeniedStep(w, RefusalOf(Call(p).value).value.steps);
    }
  }

  lemma HtmlDecides(w: World, run: QueuedRun, x: Success, r: Refusal)
    requires AsksPage(w, run) && Media(w, 0, "text/html") && Readable(w, 0)
    ensures var p := CompleteHtml(w, w.fetch(0).page);
            CompletesFor(w, p, x, PageAccepted(w, run, ExtractionOf(x))) && RefusesFor(p, r, HtmlRefused(w, r))
  {
    if Renders(w) {
      AfterRenderDecides(w, run, x, r);
    } else if w.html(0).LowQuality? {
      DenialDecides(w, run, x, r);
    }
  }

  lemma PdfDecides(w: World, raw: BlobRef, fetch: Option<CompletedFetch>, x: Success, r: Refusal)
    ensures var p := FinishPdf(w, raw, fetch);
            && CompletesFor(w, p, x, x.rawBlob == raw && x.fetch == fetch && x.steps == [] && w.pdf == Pdf(x.document, x.candidates))
            && RefusesFor(p, r, PdfRefused(w, r, raw, fetch))
  {
  }

  lemma PageDecides(w: World, run: QueuedRun, x: Success, r: Refusal)
    requires AsksPage(w, run)
    ensures var p := FetchPage(w);
            && CompletesFor(w, p, x, PageAccepted(w, run, ExtractionOf(x))) && RefusesFor(p, r, PageRefused(w, run, r))
  {
    if w.fetch(0).Fetched? {
      assert Call(FetchPage(w)) == Call(PageFetched(w, w.fetch(0).page));
    }
    if Media(w, 0, "text/html") && Readable(w, 0) {
      HtmlDecides(w, run, x, r);
    } else if Media(w, 0, "application/pdf") && Readable(w, 0) {
      PdfDecides(w, w.fetch(0).page.fetch.rawBlob, Some(w.fetch(0).page.fetch), x, r);
    }
  }

  lemma BlobDecides(w: World, run: QueuedRun, x: Success, r: Refusal)
    requires run.blob.Some?
    ensures var p := CompleteBlobPdf(w, run.blob.value);
            && CompletesFor(w, p, x, BlobAccepted(w, run, ExtractionOf(x)))
            && RefusesFor(p, r, PeerRefusedAs(w, run.blob.value, r))
  {
    if w.peer.PeerCopied? {
      PdfDecides(w, w.peer.raw, None, x, r);
    }
  }

  lemma FallbackDecides(w: World, run: QueuedRun, x: Success, r: Refusal)
    requires FallbackReason(w, run).Some?
    ensures var reason := FallbackReason(w, run).value;
            var p := Fallback(w, FallbackFetch(reason), reason);
            && CompletesFor(w, p, x, FallbackAccepted(w, run, ExtractionOf(x)))
            && RefusesFor(p, r, FallbackRefused(w, run, r))
  {
    var reason := FallbackReason(w, run).value;
    var n := FallbackFetch(reason);
    if w.fetch(n).Fetched? {
      assert Call(Fallback(w, n, reason)) == Call(FallbackFetched(w, n, reason, w.fetch(n).page));
    }
  }

  lemma ArticleDecides(w: World, run: QueuedRun, x: Success, r: Refusal)
    requires ArticleTarget(w, run).Some?
    ensures var p := ResolveArticle(w, w.provider.candidates, ArticleTarget(w, run).value);
            && CompletesFor(w, p, x, ArticleAccepted(w, run, ExtractionOf(x)))
            && RefusesFor(p, r, ArticleRefused(w, run, r))
  {
    if w.fetch(1).Fetched? {
      assert Call(ResolveArticle(w, w.provider.candidates, ArticleTarget(w, run).value))
          == Call(ArticleFetched(w, w.provider.candidates, w.fetch(1).page));
    }
  }

  lemma TrackDecides(w: World, run: QueuedRun, x: Success, r: Refusal)
    requires TrackTarget(w, run).Some?
    ensures var p := FetchTrack(w, TrackTarget(w, run).value);
            && CompletesFor(w, p, x, TranscriptAccepted(w, run, ExtractionOf(x)))
            && RefusesFor(p, r, TrackRefused(w, run, r))
  {
    if w.fetch(1).Fetched? {
      assert Call(FetchTrack(w, TrackTarget(w, run).value)) == Call(TrackFetched(w, w.fetch(1).page));
    }
  }

  lemma ProviderDecides(w: World, run: QueuedRun, x: Success, r: Refusal)
    requires AsksProvider(w, run) && FallbackReason(w, run).None? && ArticleTarget(w, run).None?
    ensures var p := FetchProvider(w, w.providerAddress.value.value);
            && CompletesFor(w, p, x, ProviderAccepted(w, run, ExtractionOf(x)))
            && RefusesFor(p, r, ProviderRefused(w, run, r))
  {
    if w.fetch(0).Fetched? {
      assert Call(FetchProvider(w, w.providerAddress.value.value)) == Call(ProviderFetched(w, w.fetch(0).page));
    }
  }

  lemma WatchDecides(w: World, run: QueuedRun, x: Success, r: Refusal)
    requires AsksWatchPage(w, run) && FallbackReason(w, run).None? && TrackTarget(w, run).None?
    ensures var p := FetchWatch(w, w.watchAddress.value);
            CompletesFor(w, p, x, false) && RefusesFor(p, r, WatchRefused(w, run, r))
  {
    if w.fetch(0).Fetched? {
      assert Call(FetchWatch(w, w.watchAddress.value)) == Call(WatchFetched(w, w.fetch(0).page));
    }
  }

  // ----- continuations

  /** Where a provider's or a watch page's answer leads on to a second fetch. */
  lemma ContinuesAs(w: World, run: QueuedRun)
    ensures FallbackReason(w, run).Some? ==>
              var reason := FallbackReason(w, run).value;
              Call(ProcessRun(w, run)) == Call(Fallback(w, FallbackFetch(reason), reason))
    ensures ArticleTarget(w, run).Some? ==>
              Call(ProcessRun(w, run)) == Call(ResolveArticle(w, w.provider.candidates, ArticleTarget(w, run).value))
    ensures TrackTarget(w, run).Some? ==> Call(ProcessRun(w, run)) == Call(FetchTrack(w, TrackTarget(w, run).value))
  {
    if AsksProvider(w, run) && w.fetch(0).Fetched? {
      assert Call(ProcessRun(w, run)) == Call(ProviderFetched(w, w.fetch(0).page));
    } else if AsksWatchPage(w, run) && w.fetch(0).Fetched? {
      assert Call(ProcessRun(w, run)) == Call(WatchFetched(w, w.fetch(0).page));
    }
  }

  /**
    For every answer of the world, a plan's settling call is a completion with `x` exactly when the
    answers on the run's path are an accepted extraction and the Document IR was stored: its
    document, candidates, raw bytes and fetch are that answer's and its IR the stored one. It is the
    refusal `r` exactly when the answers are refused as `r`.
   */
  lemma PlanOutcome(w: World, run: QueuedRun, x: Success, r: Refusal)
    ensures CompletesFor(w, ProcessRun(w, run), x, Accepted(w, run, ExtractionOf(x)))
    ensures RefusesFor(ProcessRun(w, run), r, Refused(w, run, r))
  {
    ContinuesAs(w, run);
    if run.blob.Some? {
      BlobDecides(w, run, x, r);
    } else if FallbackReason(w, run).Some? {
      FallbackDecides(w, run, x, r);
    } else if ArticleTarget(w, run).Some? {
      ArticleDecides(w, run, x, r);
    } else if TrackTarget(w, run).Some? {
      TrackDecides(w, run, x, r);
    } else if AsksProvider(w, run) {
      ProviderDecides(w, run, x, r);
    } else if AsksWatchPage(w, run) {
      WatchDecides(w, run, x, r);
    } else if AsksPage(w, run) {
      PageDecides(w, run, x, r);
    }
  }

  // ----- what comes before and after the settling call

  /** The second fetch of a run, which records the first. */
  function SecondTarget(w: World, run: QueuedRun): Option<Target> {
    if ArticleTarget(w, run).Some? then Some(Article(ArticleTarget(w, run).value))
    else if TrackTarget(w, run).Some? then Some(TrackUrl(TrackTarget(w, run).value))
    else if FallbackReason(w, run).Some? && FallbackReason(w, run) != Some("youtube_no_video_id") then Some(RunUrl)
    else None
  }

  /** Where a run's first fetch goes: a provider's address, a watch page, or the run's own address. */
  function FirstTarget(w: World, run: QueuedRun): Option<Target> {
    if AsksProvider(w, run) then Some(ProviderAddress(w.providerAddress.value.value))
    else if AsksWatchPage(w, run) then Some(WatchAddress(w.watchAddress.value))
    else if AsksPage(w, run) || FallbackReason(w, run) == Some("youtube_no_video_id") then Some(RunUrl)
    else None
  }

  function Opening(w: World, run: QueuedRun): seq<Effect> {
    (if FirstTarget(w, run).Some? then [Get(FirstTarget(w, run).value)] else [])
    + (if SecondTarget(w, run).Some? && w.fetch(0).Fetched?
       then [Record(w.fetch(0).page.fetch), Get(SecondTarget(w, run).value)] else [])
    + (if AsksPage(w, run) && MayEscalate(w) then [SpendBudget] else [])
    + (if AsksPage(w, run) && Renders(w) then [RequestRender] else [])
  }

  /** A refused rendering is followed by the page's own rejection, a transcript by its sidecar. */
  function Closing(w: World, run: QueuedRun): seq<Effect> {
    if AsksPage(w, run) && Renders(w) && Call(ProcessRun(w, run)).Some? && !Call(ProcessRun(w, run)).value.Complete? then
      var f := w.fetch(0).page.fetch;
      [Reject(Rejection(f.rawBlob, Some(f), w.html(0).candidates, "quality", []))]
    else if TrackTarget(w, run).Some? && Call(ProcessRun(w, run)).Some? && Call(ProcessRun(w, run)).value.Complete? && w.sidecar.Some?
    then [Diagnose(w.sidecar.value)]
    else []
  }

  lemma LeadOfPage(w: World, run: QueuedRun)
    requires AsksPage(w, run)
    ensures Lead(FetchPage(w)) == Opening(w, run)
  {
    if w.fetch(0).Fetched? {
      var a := w.fetch(0).page;
      assert Lead(FetchPage(w)) == [Get(RunUrl)] + Lead(PageFetched(w, a));
      if MayEscalate(w) {
        var after := AfterRender(w, a.fetch, w.html(0).candidates);
        assert Lead(after) == [];
        assert Lead(Do(RequestRender, after)) == [RequestRender];
        assert Lead(PageFetched(w, a)) == [SpendBudget] + if Renders(w) then [RequestRender] else [];
      } else {
        assert Lead(PageFetched(w, a)) == [];
      }
    }
  }

  lemma LeadOfContinuation(w: World, run: QueuedRun)
    ensures forall n, reason :: Lead(Fallback(w, n, reason)) == [Get(RunUrl)]
    ensures forall candidates, target :: Lead(ResolveArticle(w, candidates, target)) == [Get(Article(target))]
    ensures forall url :: Lead(FetchTrack(w, url)) == [Get(TrackUrl(url))]
  {
    forall n, reason ensures Lead(Fallback(w, n, reason)) == [Get(RunUrl)] {
      if w.fetch(n).Fetched? { assert Lead(FallbackFetched(w, n, reason, w.fetch(n).page)) == []; }
    }
    forall candidates, target ensures Lead(ResolveArticle(w, candidates, target)) == [Get(Article(target))] {
      if w.fetch(1).Fetched? { assert Lead(ArticleFetched(w, candidates, w.fetch(1).page)) == []; }
    }
    forall url ensures Lead(FetchTrack(w, url)) == [Get(TrackUrl(url))] {
      if w.fetch(1).Fetched? { assert Lead(TrackFetched(w, w.fetch(1).page)) == []; }
    }
  }

  lemma LeadOfProvider(w: World, run: QueuedRun)
    requires AsksProvider(w, run)
    ensures Lead(FetchProvider(w, w.providerAddress.value.value)) == Opening(w, run)
  {
    LeadOfContinuation(w, run);
    if w.fetch(0).Fetched? {
      var rest := ProviderFetched(w, w.fetch(0).page);
      if SecondTarget(w, run).Some? {
        assert rest.Do? && rest.effect == Record(w.fetch(0).page.fetch) && Lead(rest.rest) == [Get(SecondTarget(w, run).value)];
      } else {
        assert Lead(rest) == [];
      }
    }
  }

  lemma LeadOfWatch(w: World, run: QueuedRun)
    requires AsksWatchPage(w, run)
    ensures Lead(FetchWatch(w, w.watchAddress.value)) == Opening(w, run)
  {
    LeadOfContinuation(w, run);
    if w.fetch(0).Fetched? {
      var rest := WatchFetched(w, w.fetch(0).page);
      if SecondTarget(w, run).Some? {
        assert rest.Do? && rest.effect == Record(w.fetch(0).page.fetch) && Lead(rest.rest) == [Get(SecondTarget(w, run).value)];
      } else {
        assert Lead(rest) == [];
      }
    }
  }

  /** The fetches of every plan and their addresses, the first fetch's record, the budget and the render command, in order. */
  lemma PlanOpening(w: World, run: QueuedRun)
    ensures Lead(ProcessRun(w, run)) == Opening(w, run)
  {
    LeadOfContinuation(w, run);
    if AsksProvider(w, run) {
      LeadOfProvider(w, run);
    } else if AsksWatchPage(w, run) {
      LeadOfWatch(w, run);
    } else if AsksPage(w, run) {
      LeadOfPage(w, run);
    }
  }

  lemma TrailOfPage(w: World, run: QueuedRun)
    requires AsksPage(w, run)
    ensures Trail(FetchPage(w)) == Closing(w, run)
  {
    if w.fetch(0).Fetched? {
      var a := w.fetch(0).page;
      assert Trail(FetchPage(w)) == Trail(PageFetched(w, a)) && Call(FetchPage(w)) == Call(PageFetched(w, a));
      if Renders(w) {
        var after := AfterRender(w, a.fetch, w.html(0).candidates);
        assert Trail(PageFetched(w, a)) == Trail(after) && Call(PageFetched(w, a)) == Call(after);
        var second := RejectWith(a.fetch, w.html(0).candidates, "quality", []);
        assert EffectsOf(second) == [Reject(Rejection(a.fetch.rawBlob, Some(a.fetch), w.html(0).candidates, "quality", []))];
      } else {
        assert Trail(PageFetched(w, a)) == [];
      }
    }
  }

  predicate TrackCloses(w: World, p: Plan) {
    Trail(p) == if Call(p).Some? && Call(p).value.Complete? && w.sidecar.Some? then [Diagnose(w.sidecar.value)] else []
  }

  lemma TrailOfTrack(w: World, url: string)
    ensures TrackCloses(w, FetchTrack(w, url))
  {
    if w.fetch(1).Fetched? {
      var p := TrackFetched(w, w.fetch(1).page);
      assert Trail(FetchTrack(w, url)) == Trail(p) && Call(FetchTrack(w, url)) == Call(p);
      if w.sidecar.Some? {
        var last := Do(Diagnose(w.sidecar.value), Return(true));
        assert EffectsOf(last.rest) == [];
        assert EffectsOf(last) == [Diagnose(w.sidecar.value)];
      }
    }
  }

  lemma TrailOfContinuation(w: World)
    ensures forall n, reason :: Trail(Fallback(w, n, reason)) == []
    ensures forall candidates, target :: Trail(ResolveArticle(w, candidates, target)) == []
    ensures forall url :: TrackCloses(w, FetchTrack(w, url))
  {
    forall n, reason ensures Trail(Fallback(w, n, reason)) == [] {
      if w.fetch(n).Fetched? { assert Trail(FallbackFetched(w, n, reason, w.fetch(n).page)) == []; }
    }
    forall candidates, target ensures Trail(ResolveArticle(w, candidates, target)) == [] {
      if w.fetch(1).Fetched? { assert Trail(ArticleFetched(w, candidates, w.fetch(1).page)) == []; }
    }
    forall url ensures TrackCloses(w, FetchTrack(w, url)) {
      TrailOfTrack(w, url);
    }
  }

  lemma TrailOfProvider(w: World, run: QueuedRun)
    requires AsksProvider(w, run)
    ensures Trail(FetchProvider(w, w.providerAddress.value.value)) == []
  {
    TrailOfContinuation(w);
    if w.fetch(0).Fetched? {
      var rest := ProviderFetched(w, w.fetch(0).page);
      assert Trail(rest) == [];
    }
  }

  lemma TrailOfWatch(w: World, run: QueuedRun)
    requires AsksWatchPage(w, run)
    ensures Trail(FetchWatch(w, w.watchAddress.value)) == Closing(w, run)
  {
    TrailOfContinuation(w);
    ContinuesAs(w, run);
    if w.fetch(0).Fetched? {
      var rest := WatchFetched(w, w.fetch(0).page);
      assert Trail(FetchWatch(w, w.watchAddress.value)) == Trail(rest);
      if TrackTarget(w, run).Some? {
        assert Trail(rest) == Trail(FetchTrack(w, TrackTarget(w, run).value));
      } else {
        assert Trail(rest) == [];
      }
    }
  }

  /** After its settling call a plan makes no other, except the page's own rejection after a refused rendering. */
  lemma PlanClosing(w: World, run: QueuedRun)
    ensures Trail(ProcessRun(w, run)) == Closing(w, run)
  {
    TrailOfContinuation(w);
    if run.blob.Some? {
      assert Trail(CompleteBlobPdf(w, run.blob.value)) == [];
    } else if AsksProvider(w, run) {
      TrailOfProvider(w, run);
    } else if AsksWatchPage(w, run) {
      TrailOfWatch(w, run);
    } else if AsksPage(w, run) {
      TrailOfPage(w, run);
    }
  }

  lemma {:induction false} SplitAtCall(p: Plan)
    ensures EffectsOf(p) == Lead(p) + (if Call(p).Some? then [Call(p).value] else []) + Trail(p)
    ensures Call(p).None? ==> Trail(p) == []
  {
    if p.Do? && !IsTerminal(p.effect) { SplitAtCall(p.rest); }
  }

  lemma NoCompletionAround(w: World, run: QueuedRun, x: Success)
    ensures Complete(x) !in Opening(w, run) && Complete(x) !in Closing(w, run)
  {
  }

  /**
    Anywhere in a plan, a completion stands exactly for the accepted extraction of the run's path with
    the stored Document IR.
   */
  lemma CompletesExactly(w: World, run: QueuedRun, x: Success)
    ensures Complete(x) in EffectsOf(ProcessRun(w, run)) <==> Accepted(w, run, ExtractionOf(x)) && w.irBlob == Some(x.irBlob)
  {
    var p := ProcessRun(w, run);
    SplitAtCall(p);
    PlanOpening(w, run);
    PlanClosing(w, run);
    PlanOutcome(w, run, x, Plain(""));
    NoCompletionAround(w, run, x);
    assert Complete(x) in EffectsOf(p) <==> Call(p) == Some(Complete(x));
  }

  // ----- when a plan returns

  /** Every plan that makes its call returns, but for a transcript whose sidecar could not be stored. */
  predicate Ends(p: Plan) { Finishes(p) <==> Call(p).Some? }

  predicate TrackEnds(w: World, p: Plan) {
    Finishes(p) <==> Call(p).Some? && (Call(p).value.Complete? ==> w.sidecar.Some?)
  }

  lemma RenderEnds(w: World, f: CompletedFetch, candidates: seq<Candidate>)
    ensures Ends(AfterRender(w, f, candidates))
  {
    assert Finishes(RejectWith(f, candidates, "quality", []));
  }

  lemma EscalationEnds(w: World, f: CompletedFetch, host: Option<string>, candidates: seq<Candidate>, shell: bool)
    ensures Ends(EscalateOrDeny(w, f, host, candidates, shell))
  {
    RenderEnds(w, f, candidates);
    assert Ends(Do(RequestRender, AfterRender(w, f, candidates)));
    forall denial ensures Ends(Deny(f, candidates, denial)) {
      assert Finishes(Return(true)) && Finishes(Deny(f, candidates, denial));
    }
  }

  lemma PageEnds(w: World)
    ensures Ends(FetchPage(w))
  {
    if w.fetch(0).Fetched? {
      var a := w.fetch(0).page;
      if w.html(0).LowQuality? {
        EscalationEnds(w, a.fetch, a.host, w.html(0).candidates, w.html(0).shell);
      }
      assert Ends(FinishPdf(w, a.fetch.rawBlob, Some(a.fetch)));
      assert Ends(PageFetched(w, a));
    }
  }

  lemma TranscriptEnds(w: World, a: Page)
    ensures TrackEnds(w, TrackFetched(w, a))
  {
    var rest := if w.sidecar.None? then Return(false) else Do(Diagnose(w.sidecar.value), Return(true));
    assert Finishes(rest) <==> w.sidecar.Some?;
    var p := TrackFetched(w, a);
    if p.Do? && p.effect.Complete? {
      assert p.rest == rest && Call(p) == Some(p.effect) && (Finishes(p) <==> Finishes(rest));
    } else if p.Do? {
      assert p.rest == Return(true) && Call(p) == Some(p.effect) && Finishes(p);
    } else {
      assert p == Return(false);
    }
  }

  lemma ContinuationEnds(w: World)
    ensures forall n, reason :: Ends(Fallback(w, n, reason))
    ensures forall candidates, target :: Ends(ResolveArticle(w, candidates, target))
    ensures forall url :: TrackEnds(w, FetchTrack(w, url))
  {
    forall n, reason ensures Ends(Fallback(w, n, reason)) {
      if w.fetch(n).Fetched? { assert Ends(FallbackFetched(w, n, reason, w.fetch(n).page)); }
    }
    forall candidates, target ensures Ends(ResolveArticle(w, candidates, target)) {
      if w.fetch(1).Fetched? {
        assert Ends(ArticleFetched(w, candidates, w.fetch(1).page));
      } else {
        assert Ends(ArticleFailed(target, w.fetch(1).error));
      }
    }
    forall url ensures TrackEnds(w, FetchTrack(w, url)) {
      if w.fetch(1).Fetched? { TranscriptEnds(w, w.fetch(1).page); }
    }
  }

  lemma ProviderEnds(w: World, address: string)
    ensures Ends(FetchProvider(w, address))
  {
    ContinuationEnds(w);
    if w.fetch(0).Fetched? { assert Ends(ProviderFetched(w, w.fetch(0).page)); }
  }

  lemma WatchEnds(w: World, run: QueuedRun)
    requires AsksWatchPage(w, run)
    ensures var p := FetchWatch(w, w.watchAddress.value); if TrackTarget(w, run).Some? then TrackEnds(w, p) else Ends(p)
  {
    ContinuationEnds(w);
    if w.fetch(0).Fetched? {
      var p := WatchFetched(w, w.fetch(0).page);
      assert if TrackTarget(w, run).Some? then TrackEnds(w, p) else Ends(p);
    }
  }

  lemma BlobEnds(w: World, blob: BlobRef)
    ensures Ends(CompleteBlobPdf(w, blob))
  {
    if w.peer.PeerCopied? { assert Ends(FinishPdf(w, w.peer.raw, None)); }
  }

  /**
    A plan returns exactly when it made its settling call, and after a transcript when the sidecar was
    stored too; otherwise it is a process error, and then no call was made or it completed the run.
   */
  lemma PlanReturns(w: World, run: QueuedRun)
    ensures var p := ProcessRun(w, run);
            Finishes(p) <==> Call(p).Some? && (TrackTarget(w, run).Some? && Call(p).value.Complete? ==> w.sidecar.Some?)
  {
    ContinuationEnds(w);
    if run.blob.Some? {
      BlobEnds(w, run.blob.value);
    } else if AsksProvider(w, run) {
      ProviderEnds(w, w.providerAddress.value.value);
    } else if AsksWatchPage(w, run) {
      WatchEnds(w, run);
    } else if AsksPage(w, run) {
      PageEnds(w);
    }
  }
}
