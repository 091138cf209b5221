/**
  The per-run pipeline: everything one claimed run may do, for every answer the network, the
  parsers, the stores and the browser worker may give.

  An answer of a table call never changes what the pipeline does next, except that an error ends
  it. So the pipeline is a function from the answers of the world to a plan: the effects in order,
  and whether the plan's own end is a return or a process error.
 */
module Pipeline {
  import opened Wrappers
  import opened Tables
  import opened Transactions

  // ----- what the world answers

  datatype FetchFailure =
    | Transport | Dns | TimeoutTotal | TimeoutFirstByte | TimeoutReadIdle | Overloaded
    | AddressPolicy | UrlPolicy | OtherFailure

  predicate Retryable(e: FetchFailure) {
    e.Transport? || e.Dns? || e.TimeoutTotal? || e.TimeoutFirstByte? || e.TimeoutReadIdle? || e.Overloaded?
  }

  predicate PolicyBlocked(e: FetchFailure) { e.AddressPolicy? || e.UrlPolicy? }

  /** `usable`: the verified bytes could be read back and the final address names a document. */
  datatype Page = Page(fetch: CompletedFetch, host: Option<string>, verified: bool, usable: bool)

  datatype FetchAnswer = NotFetched(error: FetchFailure) | Fetched(page: Page)

  /** `shell`: hydration markers in the raw bytes and no candidate of 120 characters. */
  datatype HtmlAnswer =
    | Html(document: Document, candidates: seq<Candidate>)
    | LowQuality(candidates: seq<Candidate>, shell: bool)
    | HtmlFailed

  datatype ProviderAnswer =
    | ProviderParsed(document: Document, candidates: seq<Candidate>, external: Option<string>)
    | ProviderLowQuality(candidates: seq<Candidate>)
    | ProviderLimit
    | ProviderFailed

  datatype PlayerAnswer = Player(track: TrackAnswer) | PlayerLimit | PlayerUnusable

  datatype TrackAnswer = Track(url: string) | NoLanguageMatch | NoTrack

  datatype TranscriptAnswer =
    | Transcript(document: Document, candidate: Candidate)
    | TranscriptFailed
    | SerializationFailed

  datatype PdfAnswer =
    | Pdf(document: Document, candidates: seq<Candidate>)
    | NoTextLayer(candidates: seq<Candidate>)
    | Encrypted
    | PdfFailed

  datatype PeerRefusal = WrongOwner | Missing | Unreadable | OtherRefusal

  /** The peer store's answer, then the read, then the copy into the extractor's own store. */
  datatype PeerAnswer = PeerRefused(refusal: PeerRefusal) | PeerUnread | PeerUncopied | PeerCopied(raw: BlobRef)

  datatype BudgetAnswer = Consumed | Exhausted | BudgetUnknown

  datatype RenderFailure = PolicyBlockedPage | NavigationTimeout | TotalTimeout | SizeLimit | NavigationFailed | BrowserUnavailable

  datatype RenderAnswer =
    | Rendered(html: HtmlAnswer, domUsable: bool)
    | RenderFailed(failure: RenderFailure)
    | RenderTimeout
    | RenderTransport

  datatype RenderConfig = RenderConfig(enabled: bool, allowedHosts: seq<string>)

  datatype World = World(
    fetch: nat -> FetchAnswer, html: nat -> HtmlAnswer,
    providerAddress: Result<Option<string>, ()>, provider: ProviderAnswer, pointsBack: string -> bool,
    watchAddress: Option<string>, player: PlayerAnswer, timedText: bool, watchDocument: bool,
    transcript: TranscriptAnswer, evidence: Candidate, sidecar: Option<BlobRef>,
    pdf: PdfAnswer, maxPdfBytes: nat, peer: PeerAnswer, runDocument: bool,
    irBlob: Option<BlobRef>, render: RenderConfig, budget: BudgetAnswer, rendered: RenderAnswer,
    lower: string -> string)

  // ----- plans

  datatype Target = RunUrl | ProviderAddress(address: string) | WatchAddress(address: string)
                  | Article(url: string) | TrackUrl(url: string)

  datatype Effect =
    | Get(target: Target)
    | SpendBudget
    | RequestRender
    | Fail(failureClass: string, retryable: bool, steps: seq<Step>)
    | Reject(rejection: Rejection)
    | Complete(success: Success)
    | Record(fetch: CompletedFetch)
    | Diagnose(blob: BlobRef)

  /** `Return(false)` is a process error raised by the plan itself. */
  datatype Plan = Return(finished: bool) | Do(effect: Effect, rest: Plan)

  predicate IsTerminal(e: Effect) { e.Fail? || e.Reject? || e.Complete? }

  /** The effects that are transactions on the run's tables. */
  predicate IsTableCall(e: Effect) { IsTerminal(e) || e.Record? || e.Diagnose? }

  predicate Finishes(p: Plan) {
    match p
    case Return(finished) => finished
    case Do(_, rest) => Finishes(rest)
  }

  // ----- the escalation policy

  datatype Denial = QualityNotRejected | RenderingDisabled | NotAnEmptyShell | HostNotAllowed | DailyBudgetExhausted

  datatype Decision = Escalate | Denied(denial: Denial)

  function DenialName(d: Denial): string {
    match d
    case QualityNotRejected => "quality_not_rejected"
    case RenderingDisabled => "rendering_disabled"
    case NotAnEmptyShell => "not_an_empty_shell"
    case HostNotAllowed => "host_not_allowed"
    case DailyBudgetExhausted => "daily_budget_exhausted"
  }

  predicate HostAllowed(lower: string -> string, host: Option<string>, allowed: seq<string>) {
    allowed == [] || (host.Some? && lower(host.value) in allowed)
  }

  function Decide(w: World, rejected: bool, shell: bool, host: Option<string>, budgetLeft: bool): Decision {
    if !rejected then Denied(QualityNotRejected)
    else if !w.render.enabled then Denied(RenderingDisabled)
    else if !shell then Denied(NotAnEmptyShell)
    else if !HostAllowed(w.lower, host, w.render.allowedHosts) then Denied(HostNotAllowed)
    else if !budgetLeft then Denied(DailyBudgetExhausted)
    else Escalate
  }

  // ----- endings

  function FailWith(failureClass: string, retryable: bool, steps: seq<Step>): Plan {
    Do(Fail(failureClass, retryable, steps), Return(true))
  }

  function RejectWith(fetch: CompletedFetch, candidates: seq<Candidate>, failureClass: string, steps: seq<Step>): Plan {
    Do(Reject(Rejection(fetch.rawBlob, Some(fetch), candidates, failureClass, steps)), Return(true))
  }

  /** Storing the Document IR comes first and its failure is a process error. */
  function CompleteWith(w: World, document: Document, raw: BlobRef, fetch: Option<CompletedFetch>,
                        candidates: seq<Candidate>, steps: seq<Step>, rest: Plan := Return(true)): Plan
  {
    if w.irBlob.None? then Return(false)
    else Do(Complete(Success(document, w.irBlob.value, raw, fetch, candidates, steps)), rest)
  }

  function FetchFailed(e: FetchFailure, steps: seq<Step>): Plan { FailWith("fetch", Retryable(e), steps) }

  // ----- HTML and rendering

  function Deny(f: CompletedFetch, candidates: seq<Candidate>, denial: Denial): Plan {
    RejectWith(f, candidates, "quality", [Step(0, "render_policy", Some(DenialName(denial)), None, None)])
  }

  function RenderClass(f: RenderFailure): string {
    match f
    case PolicyBlockedPage => "policy_blocked"
    case NavigationTimeout => "navigation_timeout"
    case TotalTimeout => "total_timeout"
    case SizeLimit => "size_limit"
    case NavigationFailed => "navigation_failed"
    case BrowserUnavailable => "browser_unavailable"
  }

  /** A worker's terminal answer is recorded, and then the caller's own rejection still follows. */
  function AfterRender(w: World, f: CompletedFetch, candidates: seq<Candidate>): Plan {
    var second := RejectWith(f, candidates, "quality", []);
    match w.rendered
    case Rendered(html, domUsable) =>
      if !domUsable then Return(false)
      else
        (match html
         case Html(document, chosen) => CompleteWith(w, document, f.rawBlob, Some(f), chosen, [])
         case LowQuality(found, _) => Do(Reject(Rejection(f.rawBlob, Some(f), found, "quality", [])), second)
         case HtmlFailed => Do(Fail("parse", false, []), second))
    case RenderFailed(failure) => Do(Fail(RenderClass(failure), false, []), second)
    case RenderTimeout => Do(Fail("navigation_timeout", false, []), second)
    case RenderTransport => Do(Fail("fetch", true, []), second)
  }

  function EscalateOrDeny(w: World, f: CompletedFetch, host: Option<string>, candidates: seq<Candidate>, shell: bool): Plan {
    match Decide(w, true, shell, host, true)
    case Denied(denial) => Deny(f, candidates, denial)
    case Escalate =>
      Do(SpendBudget,
         match w.budget
         case BudgetUnknown => Return(false)
         case Exhausted => Deny(f, candidates, DailyBudgetExhausted)
         case Consumed => Do(RequestRender, AfterRender(w, f, candidates)))
  }

  function CompleteHtml(w: World, a: Page): Plan {
    if !a.verified then FailWith("artifact", false, [])
    else if !a.usable then Return(false)
    else
      match w.html(0)
      case Html(document, candidates) => CompleteWith(w, document, a.fetch.rawBlob, Some(a.fetch), candidates, [])
      case LowQuality(candidates, shell) => EscalateOrDeny(w, a.fetch, a.host, candidates, shell)
      case HtmlFailed => FailWith("parse", false, [])
  }

  // ----- PDF, from a fetch or from a peer's blob

  function FinishPdf(w: World, raw: BlobRef, fetch: Option<CompletedFetch>): Plan {
    match w.pdf
    case Pdf(document, candidates) => CompleteWith(w, document, raw, fetch, candidates, [])
    case NoTextLayer(candidates) =>
      Do(Reject(Rejection(raw, fetch, candidates, "pdf_no_text_layer", [])), Return(true))
    case Encrypted => FailWith("pdf_encrypted", false, [])
    case PdfFailed => FailWith("parse", false, [])
  }

  function CompletePdf(w: World, a: Page): Plan {
    if !a.verified then FailWith("artifact", false, [])
    else if !a.usable then Return(false)
    else FinishPdf(w, a.fetch.rawBlob, Some(a.fetch))
  }

  function PeerClass(r: PeerRefusal): string {
    match r
    case WrongOwner => "blob_owner"
    case Missing => "blob_missing"
    case Unreadable => "blob_unreadable"
    case OtherRefusal => "blob_mismatch"
  }

  function CompleteBlobPdf(w: World, blob: BlobRef): Plan {
    if blob.mediaType != "application/pdf" then FailWith("unsupported_media", false, [])
    else if w.peer.PeerRefused? then FailWith(PeerClass(w.peer.refusal), false, [])
    else if blob.length > w.maxPdfBytes then FailWith("parse", false, [])
    else if w.peer.PeerUnread? then FailWith("blob_unreadable", false, [])
    else if w.peer.PeerUncopied? then Return(false)
    else if w.peer.raw.digest != blob.digest || w.peer.raw.algorithm != blob.algorithm || w.peer.raw.length != blob.length
    then FailWith("blob_mismatch", false, [])
    else if !w.runDocument then Return(false)
    else FinishPdf(w, w.peer.raw, None)
  }

  // ----- continuations after a provider answer

  function Attempted(failureClass: Option<string>): Step {
    Step(0, "provider_attempt", Some(if failureClass.None? then "ok" else "failed"), failureClass, None)
  }

  function Second(kind: string, failureClass: Option<string>, url: Option<string>): Step {
    Step(1, kind, Some(if failureClass.None? then "ok" else "failed"), failureClass, url)
  }

  function FallbackSteps(provider: string, html: Option<string>): seq<Step> {
    [Attempted(Some(provider)), Second("html_fallback", html, None)]
  }

  function FallbackFetched(w: World, n: nat, provider: string, a: Page): Plan {
    if a.fetch.mediaType != "text/html"
    then FailWith("unsupported_media", false, FallbackSteps(provider, Some("unsupported_media")))
    else if !a.verified then FailWith("artifact", false, FallbackSteps(provider, Some("artifact")))
    else if !a.usable then Return(false)
    else
      match w.html(n)
      case Html(document, candidates) =>
        CompleteWith(w, document, a.fetch.rawBlob, Some(a.fetch), candidates, FallbackSteps(provider, None))
      case LowQuality(candidates, _) =>
        RejectWith(a.fetch, candidates, "quality", FallbackSteps(provider, Some("quality")))
      case HtmlFailed => FailWith("parse", false, FallbackSteps(provider, Some("parse")))
  }

  function Fallback(w: World, n: nat, provider: string): Plan {
    Do(Get(RunUrl),
       match w.fetch(n)
       case NotFetched(e) => FetchFailed(e, FallbackSteps(provider, Some("fetch")))
       case Fetched(page) => FallbackFetched(w, n, provider, page))
  }

  function ArticleSteps(failureClass: Option<string>, url: string): seq<Step> {
    [Attempted(None), Second("resolved_target", failureClass, Some(url))]
  }

  function ArticleFetched(w: World, candidates: seq<Candidate>, a: Page): Plan {
    var url := a.fetch.finalUrl;
    if a.fetch.mediaType != "text/html"
    then FailWith("unsupported_media", false, ArticleSteps(Some("unsupported_media"), url))
    else if !a.verified then FailWith("artifact", false, ArticleSteps(Some("artifact"), url))
    else if !a.usable then Return(false)
    else if !w.html(1).Html? then FailWith("parse", false, ArticleSteps(Some("parse"), url))
    else CompleteWith(w, w.html(1).document, a.fetch.rawBlob, Some(a.fetch), candidates, ArticleSteps(None, url))
  }

  function ArticleFailed(target: string, e: FetchFailure): Plan {
    var failureClass := if PolicyBlocked(e) then "policy" else "fetch";
    FailWith(failureClass, !PolicyBlocked(e) && Retryable(e), ArticleSteps(Some(failureClass), target))
  }

  function ResolveArticle(w: World, candidates: seq<Candidate>, target: string): Plan {
    Do(Get(Article(target)),
       match w.fetch(1)
       case NotFetched(e) => ArticleFailed(target, e)
       case Fetched(page) => ArticleFetched(w, candidates, page))
  }

  function ProviderFetched(w: World, a: Page): Plan {
    if a.fetch.mediaType != "application/json" then Do(Record(a.fetch), Fallback(w, 1, "provider_response"))
    else if !a.verified then FailWith("artifact", false, [])
    else if !a.usable then Return(false)
    else
      match w.provider
      case ProviderLowQuality(candidates) => RejectWith(a.fetch, candidates, "provider_low_quality", [])
      case ProviderLimit => FailWith("parse", false, [])
      case ProviderFailed => Do(Record(a.fetch), Fallback(w, 1, "provider_schema"))
      case ProviderParsed(document, candidates, external) =>
        if external.Some? && !w.pointsBack(external.value)
        then Do(Record(a.fetch), ResolveArticle(w, candidates, external.value))
        else CompleteWith(w, document, a.fetch.rawBlob, Some(a.fetch), candidates, [])
  }

  // ----- YouTube

  predicate TrackMedia(mediaType: string) {
    (|mediaType| >= 5 && mediaType[..5] == "text/") || mediaType == "application/json"
  }

  function TrackFetched(w: World, a: Page): Plan {
    if !TrackMedia(a.fetch.mediaType) then FailWith("parse", false, [])
    else if !a.verified then FailWith("artifact", false, [])
    else if !a.usable then Return(false)
    else if !w.timedText then FailWith("parse", false, [])
    else if !w.watchDocument then Return(false)
    else
      match w.transcript
      case SerializationFailed => Return(false)
      case TranscriptFailed => FailWith("parse", false, [])
      case Transcript(document, candidate) =>
        CompleteWith(w, document, a.fetch.rawBlob, Some(a.fetch), [candidate.(selected := true)], [],
                     if w.sidecar.None? then Return(false) else Do(Diagnose(w.sidecar.value), Return(true)))
  }

  function FetchTrack(w: World, url: string): Plan {
    Do(Get(TrackUrl(url)),
       match w.fetch(1)
       case NotFetched(e) => FetchFailed(e, [])
       case Fetched(page) => TrackFetched(w, page))
  }

  function WatchFetched(w: World, a: Page): Plan {
    if a.fetch.mediaType != "text/html" then Do(Record(a.fetch), Fallback(w, 1, "youtube_player_schema"))
    else if !a.verified then FailWith("artifact", false, [])
    else if !a.usable then Return(false)
    else
      var evidence := [w.evidence.(selected := false)];
      match w.player
      case PlayerLimit => FailWith("parse", false, [])
      case PlayerUnusable => Do(Record(a.fetch), Fallback(w, 1, "youtube_player_schema"))
      case Player(NoLanguageMatch) => RejectWith(a.fetch, evidence, "youtube_no_language_match", [])
      case Player(NoTrack) => RejectWith(a.fetch, evidence, "youtube_no_transcript", [])
      case Player(Track(url)) =>
        Do(Record(a.fetch), FetchTrack(w, url))
  }

  // ----- the whole run

  function PageFetched(w: World, a: Page): Plan {
    if a.fetch.mediaType == "text/html" then CompleteHtml(w, a)
    else if a.fetch.mediaType == "application/pdf" then CompletePdf(w, a)
    else FailWith("unsupported_media", false, [])
  }

  function FetchPage(w: World): Plan {
    Do(Get(RunUrl),
       match w.fetch(0)
       case NotFetched(e) => FetchFailed(e, [])
       case Fetched(page) => PageFetched(w, page))
  }

  function FetchProvider(w: World, address: string): Plan {
    Do(Get(ProviderAddress(address)),
       match w.fetch(0)
       case NotFetched(e) => FetchFailed(e, [])
       case Fetched(page) => ProviderFetched(w, page))
  }

  function FetchWatch(w: World, address: string): Plan {
    Do(Get(WatchAddress(address)),
       match w.fetch(0)
       case NotFetched(e) => FetchFailed(e, [])
       case Fetched(page) => WatchFetched(w, page))
  }

  predicate ProviderRoute(classification: string) { classification == "hacker_news" || classification == "reddit" }

  function ProcessRun(w: World, run: QueuedRun): Plan {
    if run.blob.Some? then CompleteBlobPdf(w, run.blob.value)
    else if ProviderRoute(run.classification) && w.providerAddress.Err? then Return(false)
    else if ProviderRoute(run.classification) && w.providerAddress.value.Some?
    then FetchProvider(w, w.providerAddress.value.value)
    else if run.classification == "youtube" then
      (match w.watchAddress
       case Some(address) => FetchWatch(w, address)
       case None => Fallback(w, 0, "youtube_no_video_id"))
    else FetchPage(w)
  }
}
