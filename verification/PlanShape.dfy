/** What every plan of the pipeline does, for all answers of the world. */
module PlanShape {
  import opened Wrappers
  import opened Numbers
  import opened Tables
  import opened Transactions
  import opened Pipeline

  // ----- counting effects

  function Gets(p: Plan): nat {
    if p.Return? then 0 else (if p.effect.Get? then 1 else 0) + Gets(p.rest)
  }

  function Renders(p: Plan): nat {
    if p.Return? then 0 else (if p.effect.RequestRender? then 1 else 0) + Renders(p.rest)
  }

  function Terminals(p: Plan): nat {
    if p.Return? then 0 else (if IsTerminal(p.effect) then 1 else 0) + Terminals(p.rest)
  }

  function RowsOf(fetch: Option<CompletedFetch>): nat { if fetch.Some? then 1 else 0 }

  /** Fetch rows the plan writes when its first terminal call wins; a later one writes nothing. */
  function RowsWritten(p: Plan): nat {
    if p.Return? then 0
    else
      match p.effect
      case Record(_) => 1 + RowsWritten(p.rest)
      case Fail(_, _, _) => 0
      case Reject(x) => RowsOf(x.fetch)
      case Complete(x) => RowsOf(x.fetch)
      case _ => RowsWritten(p.rest)
  }

  // ----- what a terminal call carries

  function ClassOf(e: Effect): Option<string> {
    match e
    case Fail(failureClass, _, _) => Some(failureClass)
    case Reject(x) => Some(x.failureClass)
    case _ => None
  }

  function StepsOf(e: Effect): seq<Step> {
    match e
    case Fail(_, _, steps) => steps
    case Reject(x) => x.steps
    case Complete(x) => x.steps
    case _ => []
  }

  /** The raw artifact recorded with a fetch is the one that fetch stored. */
  predicate OwnArtifact(e: Effect) {
    && (e.Reject? && e.rejection.fetch.Some? ==> e.rejection.rawBlob == e.rejection.fetch.value.rawBlob)
    && (e.Complete? && e.success.fetch.Some? ==> e.success.rawBlob == e.success.fetch.value.rawBlob)
  }

  /**
    Steps are of known kinds and numbered in order, and a second step tells the outcome of the run itself; only a
    failed fetch is reported as retryable; and a fetch is recorded with its own artifact.
   */
  predicate Told(e: Effect) {
    var steps := StepsOf(e);
    && OwnArtifact(e)
    && StepsChecked(steps)
    && (e.Fail? && e.retryable ==> e.failureClass == "fetch")
    && |steps| <= 2
    && (|steps| > 0 ==> steps[0].ordinal == 0)
    && (|steps| > 1 ==> steps[1].ordinal == 1 && steps[1].failureClass == ClassOf(e)
                        && steps[1].outcome == Some(if ClassOf(e).Some? then "failed" else "ok"))
  }

  predicate Storable(b: BlobRef) { OwnedSha256(b) && b.length <= I64_MAX }

  predicate FetchRecordable(fetch: Option<CompletedFetch>) {
    fetch.Some? ==> FetchFits(fetch.value) && Storable(fetch.value.rawBlob)
  }

  predicate Distinct(candidates: seq<Candidate>) {
    forall i, j :: 0 <= i < j < |candidates| ==> candidates[i].strategy != candidates[j].strategy
  }

  predicate Decided(candidates: seq<Candidate>, selected: nat) {
    ValidCandidates(candidates, selected) && Distinct(candidates) && CandidatesChecked(candidates)
  }

  /** No validation of the called transaction refuses the call. */
  predicate Acceptable(e: Effect) {
    match e
    case Fail(failureClass, _, _) => ValidClass(failureClass)
    case Reject(x) =>
      ValidClass(x.failureClass) && Storable(x.rawBlob) && FetchRecordable(x.fetch) && Decided(x.candidates, 0)
    case Complete(x) =>
      Storable(x.irBlob) && Storable(x.rawBlob) && FetchRecordable(x.fetch) && Decided(x.candidates, 1)
    case Record(fetch) => FetchRecordable(Some(fetch))
    case Diagnose(blob) => Storable(blob)
    case _ => true
  }

  predicate AllTold(p: Plan) { p.Do? ==> Told(p.effect) && AllTold(p.rest) }

  predicate AllAcceptable(p: Plan) { p.Do? ==> Acceptable(p.effect) && AllAcceptable(p.rest) }

  // ----- what the parsers and stores promise

  predicate HtmlKept(a: HtmlAnswer) {
    match a
    case Html(_, candidates) => Decided(candidates, 1)
    case LowQuality(candidates, _) => Decided(candidates, 0)
    case HtmlFailed => true
  }

  predicate PageKept(a: FetchAnswer) { a.Fetched? ==> FetchRecordable(Some(a.page.fetch)) }

  predicate BlobKept(b: Option<BlobRef>) { b.Some? ==> Storable(b.value) }

  /** Parsers decide as their contracts say, and the extractor's own store names what it stored. */
  ghost predicate PromisesKept(w: World) {
    && (forall n :: PageKept(w.fetch(n)) && HtmlKept(w.html(n)))
    && (w.rendered.Rendered? ==> HtmlKept(w.rendered.html))
    && (w.provider.ProviderParsed? ==> Decided(w.provider.candidates, 1))
    && (w.provider.ProviderLowQuality? ==> Decided(w.provider.candidates, 0))
    && (w.pdf.Pdf? ==> Decided(w.pdf.candidates, 1))
    && (w.pdf.NoTextLayer? ==> Decided(w.pdf.candidates, 0))
    && (w.peer.PeerCopied? ==> Storable(w.peer.raw))
    && BlobKept(w.irBlob) && BlobKept(w.sidecar)
    && CandidateChecked(w.evidence) && (w.transcript.Transcript? ==> CandidateChecked(w.transcript.candidate))
  }

  // ----- the shape of each part

  /** `made` fetches were made by the caller and not yet recorded. */
  ghost predicate Shape(w: World, p: Plan, gets: nat, renders: nat, made: nat) {
    && Gets(p) <= gets
    && Renders(p) <= renders
    && (Finishes(p) ==> Terminals(p) >= 1)
    && Terminals(p) <= 1 + Renders(p)
    && RowsWritten(p) <= Gets(p) + made
    && AllTold(p)
    && (PromisesKept(w) ==> AllAcceptable(p))
  }

  lemma FailShape(w: World, failureClass: string, retryable: bool, steps: seq<Step>, made: nat)
    requires ValidClass(failureClass) && Told(Fail(failureClass, retryable, steps))
    ensures Shape(w, FailWith(failureClass, retryable, steps), 0, 0, made)
  {
    assert Gets(Return(true)) == 0;
  }

  lemma RejectShape(w: World, x: Rejection, made: nat)
    requires ValidClass(x.failureClass) && Told(Reject(x)) && (PromisesKept(w) ==> Acceptable(Reject(x)))
    requires x.fetch.Some? ==> made == 1
    ensures Shape(w, Do(Reject(x), Return(true)), 0, 0, made)
  {
    assert Gets(Return(true)) == 0;
  }

  lemma ReturnShape(w: World, made: nat)
    ensures Shape(w, Return(false), 0, 0, made)
  {
  }

  lemma ReturnIsEmpty(finished: bool)
    ensures Gets(Return(finished)) == 0 && Renders(Return(finished)) == 0 && Terminals(Return(finished)) == 0
    ensures AllTold(Return(finished)) && AllAcceptable(Return(finished))
  {
  }

  lemma SelectedOne(candidate: Candidate)
    requires CandidateChecked(candidate)
    ensures Decided([candidate], if candidate.selected then 1 else 0)
  {
    assert [candidate][..0] == [];
  }

  lemma CompleteShape(w: World, document: Document, raw: BlobRef, fetch: Option<CompletedFetch>,
                      candidates: seq<Candidate>, steps: seq<Step>, made: nat)
    requires forall ir :: Told(Complete(Success(document, ir, raw, fetch, candidates, steps)))
    requires PromisesKept(w) ==> Storable(raw) && FetchRecordable(fetch) && Decided(candidates, 1)
    requires fetch.Some? ==> made == 1
    ensures Shape(w, CompleteWith(w, document, raw, fetch, candidates, steps), 0, 0, made)
  {
    assert Gets(Return(true)) == 0;
  }

  /** A fetch in front of a part whose caller has that fetch to record. */
  lemma GetShape(w: World, target: Target, p: Plan, gets: nat, renders: nat)
    requires Shape(w, p, gets, renders, 1)
    ensures Shape(w, Do(Get(target), p), gets + 1, renders, 0)
  {
  }

  lemma RecordShape(w: World, fetch: CompletedFetch, p: Plan, gets: nat, renders: nat)
    requires Shape(w, p, gets, renders, 0) && (PromisesKept(w) ==> FetchRecordable(Some(fetch)))
    ensures Shape(w, Do(Record(fetch), p), gets, renders, 1)
  {
  }

  lemma FallbackFetchedShape(w: World, n: nat, provider: string, a: Page)
    requires w.fetch(n) == Fetched(a)
    ensures Shape(w, FallbackFetched(w, n, provider, a), 0, 0, 1)
  {
    assert PromisesKept(w) ==> PageKept(w.fetch(n)) && HtmlKept(w.html(n));
    if a.fetch.mediaType != "text/html" {
      FailShape(w, "unsupported_media", false, FallbackSteps(provider, Some("unsupported_media")), 1);
    } else if !a.verified {
      FailShape(w, "artifact", false, FallbackSteps(provider, Some("artifact")), 1);
    } else if !a.usable {
      ReturnShape(w, 1);
    } else {
      match w.html(n)
      case Html(document, candidates) =>
        CompleteShape(w, document, a.fetch.rawBlob, Some(a.fetch), candidates, FallbackSteps(provider, None), 1);
      case LowQuality(candidates, _) =>
        RejectShape(w, Rejection(a.fetch.rawBlob, Some(a.fetch), candidates, "quality",
                                 FallbackSteps(provider, Some("quality"))), 1);
      case HtmlFailed =>
        FailShape(w, "parse", false, FallbackSteps(provider, Some("parse")), 1);
    }
  }

  lemma FallbackShape(w: World, n: nat, provider: string)
    ensures Shape(w, Fallback(w, n, provider), 1, 0, 0)
  {
    match w.fetch(n)
    case NotFetched(e) =>
      FailShape(w, "fetch", Retryable(e), FallbackSteps(provider, Some("fetch")), 1);
      GetShape(w, RunUrl, FetchFailed(e, FallbackSteps(provider, Some("fetch"))), 0, 0);
    case Fetched(page) =>
      FallbackFetchedShape(w, n, provider, page);
      GetShape(w, RunUrl, FallbackFetched(w, n, provider, page), 0, 0);
  }

  lemma ArticleFetchedShape(w: World, candidates: seq<Candidate>, a: Page)
    requires w.fetch(1) == Fetched(a) && (PromisesKept(w) ==> Decided(candidates, 1))
    ensures Shape(w, ArticleFetched(w, candidates, a), 0, 0, 1)
  {
    var url := a.fetch.finalUrl;
    assert PromisesKept(w) ==> PageKept(w.fetch(1));
    if a.fetch.mediaType != "text/html" {
      FailShape(w, "unsupported_media", false, ArticleSteps(Some("unsupported_media"), url), 1);
    } else if !a.verified {
      FailShape(w, "artifact", false, ArticleSteps(Some("artifact"), url), 1);
    } else if !a.usable {
      ReturnShape(w, 1);
    } else if !w.html(1).Html? {
      FailShape(w, "parse", false, ArticleSteps(Some("parse"), url), 1);
    } else {
      CompleteShape(w, w.html(1).document, a.fetch.rawBlob, Some(a.fetch), candidates, ArticleSteps(None, url), 1);
    }
  }

  lemma ArticleShape(w: World, candidates: seq<Candidate>, target: string)
    requires PromisesKept(w) ==> Decided(candidates, 1)
    ensures Shape(w, ResolveArticle(w, candidates, target), 1, 0, 0)
  {
    match w.fetch(1)
    case NotFetched(e) =>
      var failureClass := if PolicyBlocked(e) then "policy" else "fetch";
      FailShape(w, failureClass, !PolicyBlocked(e) && Retryable(e), ArticleSteps(Some(failureClass), target), 1);
      GetShape(w, Article(target), ArticleFailed(target, e), 0, 0);
    case Fetched(page) =>
      ArticleFetchedShape(w, candidates, page);
      GetShape(w, Article(target), ArticleFetched(w, candidates, page), 0, 0);
  }

  lemma ProviderParsedShape(w: World, a: Page)
    requires w.fetch(0) == Fetched(a)
    ensures Shape(w, ProviderFetched(w, a), 1, 0, 1)
  {
    assert PromisesKept(w) ==> PageKept(w.fetch(0));
    if a.fetch.mediaType != "application/json" {
      FallbackShape(w, 1, "provider_response");
      RecordShape(w, a.fetch, Fallback(w, 1, "provider_response"), 1, 0);
    } else if !a.verified {
      FailShape(w, "artifact", false, [], 1);
    } else if !a.usable {
      ReturnShape(w, 1);
    } else {
      match w.provider
      case ProviderLowQuality(candidates) =>
        RejectShape(w, Rejection(a.fetch.rawBlob, Some(a.fetch), candidates, "provider_low_quality", []), 1);
      case ProviderLimit => FailShape(w, "parse", false, [], 1);
      case ProviderFailed =>
        FallbackShape(w, 1, "provider_schema");
        RecordShape(w, a.fetch, Fallback(w, 1, "provider_schema"), 1, 0);
      case ProviderParsed(document, candidates, external) =>
        if external.Some? && !w.pointsBack(external.value) {
          ArticleShape(w, candidates, external.value);
          RecordShape(w, a.fetch, ResolveArticle(w, candidates, external.value), 1, 0);
        } else {
          CompleteShape(w, document, a.fetch.rawBlob, Some(a.fetch), candidates, [], 1);
        }
    }
  }

  lemma TranscriptShape(w: World, a: Page, document: Document, candidate: Candidate)
    requires w.fetch(1) == Fetched(a) && w.transcript == Transcript(document, candidate)
    requires TrackMedia(a.fetch.mediaType) && a.verified && a.usable && w.timedText && w.watchDocument
    ensures Shape(w, TrackFetched(w, a), 0, 0, 1)
  {
    assert PromisesKept(w) ==> PageKept(w.fetch(1));
    if CandidateChecked(candidate) { SelectedOne(candidate.(selected := true)); }
    ReturnIsEmpty(true);
    ReturnIsEmpty(false);
    var rest := if w.sidecar.None? then Return(false) else Do(Diagnose(w.sidecar.value), Return(true));
    if w.sidecar.Some? {
      assert Told(rest.effect) && rest.rest == Return(true);
    }
    assert Gets(rest) == 0 && Renders(rest) == 0 && Terminals(rest) == 0;
    assert AllTold(rest) && (PromisesKept(w) ==> AllAcceptable(rest));
  }

  lemma TrackShape(w: World, url: string)
    ensures Shape(w, FetchTrack(w, url), 1, 0, 0)
  {
    match w.fetch(1)
    case NotFetched(e) =>
      FailShape(w, "fetch", Retryable(e), [], 1);
      GetShape(w, TrackUrl(url), FetchFailed(e, []), 0, 0);
    case Fetched(a) =>
      FailShape(w, "parse", false, [], 1);
      FailShape(w, "artifact", false, [], 1);
      ReturnShape(w, 1);
      if TrackMedia(a.fetch.mediaType) && a.verified && a.usable && w.timedText && w.watchDocument && w.transcript.Transcript? {
        TranscriptShape(w, a, w.transcript.document, w.transcript.candidate);
      }
      GetShape(w, TrackUrl(url), TrackFetched(w, a), 0, 0);
  }

  lemma WatchShape(w: World, a: Page)
    requires w.fetch(0) == Fetched(a)
    ensures Shape(w, WatchFetched(w, a), 1, 0, 1)
  {
    assert PromisesKept(w) ==> PageKept(w.fetch(0));
    FallbackShape(w, 1, "youtube_player_schema");
    RecordShape(w, a.fetch, Fallback(w, 1, "youtube_player_schema"), 1, 0);
    var evidence := w.evidence.(selected := false);
    if CandidateChecked(evidence) { SelectedOne(evidence); }
    if !a.verified {
      FailShape(w, "artifact", false, [], 1);
    } else if !a.usable {
      ReturnShape(w, 1);
    } else {
      match w.player
      case PlayerLimit => FailShape(w, "parse", false, [], 1);
      case PlayerUnusable =>
      case Player(NoLanguageMatch) =>
        RejectShape(w, Rejection(a.fetch.rawBlob, Some(a.fetch), [evidence], "youtube_no_language_match", []), 1);
      case Player(NoTrack) =>
        RejectShape(w, Rejection(a.fetch.rawBlob, Some(a.fetch), [evidence], "youtube_no_transcript", []), 1);
      case Player(Track(url)) =>
        TrackShape(w, url);
        RecordShape(w, a.fetch, FetchTrack(w, url), 1, 0);
    }
  }

  /** Two terminal calls in a row: the plan of a render the worker settled. */
  lemma SecondCallShape(w: World, first: Effect, x: Rejection)
    requires IsTerminal(first) && Told(first) && (PromisesKept(w) ==> Acceptable(first))
    requires (first.Reject? ==> first.rejection.fetch.Some?) && !first.Complete?
    requires ValidClass(x.failureClass) && x.fetch.Some? && Told(Reject(x)) && (PromisesKept(w) ==> Acceptable(Reject(x)))
    ensures Shape(w, Do(RequestRender, Do(first, Do(Reject(x), Return(true)))), 0, 1, 1)
  {
    RejectShape(w, x, 1);
    var p := Do(Reject(x), Return(true));
    assert Terminals(p) == 1 && Gets(p) == 0 && Renders(p) == 0 && Finishes(p);
    assert Terminals(Do(first, p)) == 2 && Renders(Do(first, p)) == 0;
  }

  lemma RenderedHtmlShape(w: World, f: CompletedFetch, candidates: seq<Candidate>, html: HtmlAnswer)
    requires w.rendered == Rendered(html, true)
    requires PromisesKept(w) ==> FetchRecordable(Some(f)) && Decided(candidates, 0)
    ensures Shape(w, Do(RequestRender, AfterRender(w, f, candidates)), 0, 1, 1)
  {
    var second := Rejection(f.rawBlob, Some(f), candidates, "quality", []);
    match html
    case Html(document, chosen) => CompleteShape(w, document, f.rawBlob, Some(f), chosen, [], 1);
    case LowQuality(found, _) =>
      SecondCallShape(w, Reject(Rejection(f.rawBlob, Some(f), found, "quality", [])), second);
    case HtmlFailed => SecondCallShape(w, Fail("parse", false, []), second);
  }

  lemma RenderShape(w: World, a: Page, candidates: seq<Candidate>)
    requires w.fetch(0) == Fetched(a) && (PromisesKept(w) ==> Decided(candidates, 0))
    ensures Shape(w, Do(RequestRender, AfterRender(w, a.fetch, candidates)), 0, 1, 1)
  {
    assert PromisesKept(w) ==> PageKept(w.fetch(0));
    var second := Rejection(a.fetch.rawBlob, Some(a.fetch), candidates, "quality", []);
    match w.rendered
    case Rendered(html, domUsable) =>
      if domUsable {
        RenderedHtmlShape(w, a.fetch, candidates, html);
      } else {
        ReturnIsEmpty(false);
      }
    case RenderFailed(failure) => SecondCallShape(w, Fail(RenderClass(failure), false, []), second);
    case RenderTimeout => SecondCallShape(w, Fail("navigation_timeout", false, []), second);
    case RenderTransport => SecondCallShape(w, Fail("fetch", true, []), second);
  }

  lemma SpendShape(w: World, p: Plan)
    requires Shape(w, p, 0, 1, 1)
    ensures Shape(w, Do(SpendBudget, p), 0, 1, 1)
  {
  }

  lemma EscalateShape(w: World, a: Page, candidates: seq<Candidate>, shell: bool)
    requires w.fetch(0) == Fetched(a) && (PromisesKept(w) ==> Decided(candidates, 0))
    ensures Shape(w, EscalateOrDeny(w, a.fetch, a.host, candidates, shell), 0, 1, 1)
  {
    assert PromisesKept(w) ==> PageKept(w.fetch(0));
    match Decide(w, true, shell, a.host, true)
    case Denied(denial) => DenyShape(w, a.fetch, candidates, denial);
    case Escalate =>
      match w.budget {
        case BudgetUnknown =>
          ReturnShape(w, 1);
          SpendShape(w, Return(false));
        case Exhausted =>
          DenyShape(w, a.fetch, candidates, DailyBudgetExhausted);
          SpendShape(w, Deny(a.fetch, candidates, DailyBudgetExhausted));
        case Consumed =>
          RenderShape(w, a, candidates);
          SpendShape(w, Do(RequestRender, AfterRender(w, a.fetch, candidates)));
      }
  }

  lemma DenyShape(w: World, f: CompletedFetch, candidates: seq<Candidate>, denial: Denial)
    requires PromisesKept(w) ==> FetchRecordable(Some(f)) && Decided(candidates, 0)
    ensures Shape(w, Deny(f, candidates, denial), 0, 0, 1)
  {
    RejectShape(w, Rejection(f.rawBlob, Some(f), candidates, "quality",
                             [Step(0, "render_policy", Some(DenialName(denial)), None, None)]), 1);
  }

  lemma PdfShape(w: World, raw: BlobRef, fetch: Option<CompletedFetch>, made: nat)
    requires PromisesKept(w) ==> Storable(raw) && FetchRecordable(fetch)
    requires fetch.Some? ==> made == 1 && raw == fetch.value.rawBlob
    ensures Shape(w, FinishPdf(w, raw, fetch), 0, 0, made)
  {
    match w.pdf
    case Pdf(document, candidates) => CompleteShape(w, document, raw, fetch, candidates, [], made);
    case NoTextLayer(candidates) => RejectShape(w, Rejection(raw, fetch, candidates, "pdf_no_text_layer", []), made);
    case Encrypted => FailShape(w, "pdf_encrypted", false, [], made);
    case PdfFailed => FailShape(w, "parse", false, [], made);
  }

  lemma HtmlShape(w: World, a: Page)
    requires w.fetch(0) == Fetched(a)
    ensures Shape(w, CompleteHtml(w, a), 0, 1, 1)
  {
    assert PromisesKept(w) ==> PageKept(w.fetch(0)) && HtmlKept(w.html(0));
    if !a.verified {
      FailShape(w, "artifact", false, [], 1);
    } else if !a.usable {
      ReturnShape(w, 1);
    } else {
      match w.html(0)
      case Html(document, candidates) => CompleteShape(w, document, a.fetch.rawBlob, Some(a.fetch), candidates, [], 1);
      case LowQuality(candidates, shell) => EscalateShape(w, a, candidates, shell);
      case HtmlFailed => FailShape(w, "parse", false, [], 1);
    }
  }

  lemma PageShape(w: World, a: Page)
    requires w.fetch(0) == Fetched(a)
    ensures Shape(w, PageFetched(w, a), 0, 1, 1)
  {
    if a.fetch.mediaType == "text/html" {
      HtmlShape(w, a);
    } else if a.fetch.mediaType == "application/pdf" {
      assert PromisesKept(w) ==> PageKept(w.fetch(0));
      FailShape(w, "artifact", false, [], 1);
      ReturnShape(w, 1);
      PdfShape(w, a.fetch.rawBlob, Some(a.fetch), 1);
    } else {
      FailShape(w, "unsupported_media", false, [], 1);
    }
  }

  lemma BlobShape(w: World, blob: BlobRef)
    ensures Shape(w, CompleteBlobPdf(w, blob), 0, 0, 0)
  {
    FailShape(w, "unsupported_media", false, [], 0);
    FailShape(w, "parse", false, [], 0);
    FailShape(w, "blob_unreadable", false, [], 0);
    FailShape(w, "blob_mismatch", false, [], 0);
    ReturnShape(w, 0);
    if w.peer.PeerRefused? { FailShape(w, PeerClass(w.peer.refusal), false, [], 0); }
    if w.peer.PeerCopied? { PdfShape(w, w.peer.raw, None, 0); }
  }

  lemma FirstFetchShape(w: World)
    ensures Shape(w, FetchPage(w), 1, 1, 0)
    ensures forall address :: Shape(w, FetchProvider(w, address), 2, 0, 0)
    ensures forall address :: Shape(w, FetchWatch(w, address), 2, 0, 0)
  {
    match w.fetch(0)
    case NotFetched(e) =>
      var p := FetchFailed(e, []);
      FailShape(w, "fetch", Retryable(e), [], 1);
      GetShape(w, RunUrl, p, 0, 1);
      forall address { GetShape(w, ProviderAddress(address), p, 1, 0); }
      forall address { GetShape(w, WatchAddress(address), p, 1, 0); }
    case Fetched(a) =>
      PageShape(w, a);
      ProviderParsedShape(w, a);
      WatchShape(w, a);
      GetShape(w, RunUrl, PageFetched(w, a), 0, 1);
      forall address { GetShape(w, ProviderAddress(address), ProviderFetched(w, a), 1, 0); }
      forall address { GetShape(w, WatchAddress(address), WatchFetched(w, a), 1, 0); }
  }

  /**
    For every answer of the world: no fetch for peer bytes and at most two otherwise, at most one
    render command, a terminal call on every path that returns, a second one only after a render,
    never more fetch rows than fetches, calls that tell the run's own outcome, and, when parsers and
    stores keep their promises, no call that its transaction would refuse.
   */
  lemma PlanShape(w: World, run: QueuedRun)
    ensures Shape(w, ProcessRun(w, run), if run.blob.Some? then 0 else 2, 1, 0)
  {
    if run.blob.Some? {
      BlobShape(w, run.blob.value);
    } else {
      FirstFetchShape(w);
      FallbackShape(w, 0, "youtube_no_video_id");
      ReturnShape(w, 0);
    }
  }

  // ----- what the continuations tell

  /** Every terminal call of the plan carries two steps, the first of them this one. */
  predicate TellsFirst(p: Plan, first: Step) {
    p.Do? ==>
      (IsTerminal(p.effect) ==> |StepsOf(p.effect)| == 2 && StepsOf(p.effect)[0] == first) && TellsFirst(p.rest, first)
  }

  /** Whatever the generic attempt does, its terminal call names the provider's failure and its own outcome. */
  lemma FallbackTellsBoth(w: World, n: nat, provider: string)
    ensures var p := Fallback(w, n, provider);
            && TellsFirst(p, Step(0, "provider_attempt", Some("failed"), Some(provider), None)) && AllTold(p)
            && Gets(p) == 1 && (Finishes(p) ==> Terminals(p) == 1)
  {
    FallbackShape(w, n, provider);
    var first := Attempted(Some(provider));
    assert TellsFirst(Return(true), first) && TellsFirst(Return(false), first);
  }

  /** Whatever the article does, one fetch is made and its terminal call names the provider's success and its own outcome. */
  lemma ArticleTellsBoth(w: World, candidates: seq<Candidate>, target: string)
    requires PromisesKept(w) ==> Decided(candidates, 1)
    ensures var p := ResolveArticle(w, candidates, target);
            && TellsFirst(p, Step(0, "provider_attempt", Some("ok"), None, None)) && AllTold(p)
            && Gets(p) == 1 && (Finishes(p) ==> Terminals(p) == 1)
  {
    ArticleShape(w, candidates, target);
    var first := Attempted(None);
    assert TellsFirst(Return(true), first) && TellsFirst(Return(false), first);
  }

  /** What a render ends in: one completion, or the worker's outcome and then the caller's own rejection. */
  predicate RenderEnding(p: Plan, f: CompletedFetch, candidates: seq<Candidate>) {
    || p == Return(false)
    || (p.Do? && p.effect.Complete? && p.effect.success.fetch == Some(f) && p.rest == Return(true))
    || (p.Do? && (p.effect.Fail? || p.effect.Reject?)
        && p.rest == Do(Reject(Rejection(f.rawBlob, Some(f), candidates, "quality", [])), Return(true)))
  }

  /** Every answer of the browser worker ends in one of these, and in a completion exactly for an accepted rendering. */
  lemma RenderEndsInOne(w: World, f: CompletedFetch, candidates: seq<Candidate>)
    ensures var p := AfterRender(w, f, candidates);
            && RenderEnding(p, f, candidates)
            && ((p.Do? && p.effect.Complete?)
                <==> w.rendered.Rendered? && w.rendered.domUsable && w.rendered.html.Html? && w.irBlob.Some?)
            && (p == Return(false)
                <==> w.rendered.Rendered? && (!w.rendered.domUsable || (w.rendered.html.Html? && w.irBlob.None?)))
  {
  }

  // ----- no fetch is recorded twice

  /**
    Along the plan, after `n` fetches of which the last is still unrecorded when `open`: what is
    recorded is the answer of the last fetch, once. A plan's later terminal call writes nothing.
   */
  predicate RecordsOnce(w: World, p: Plan, n: nat, open: bool) {
    if p.Return? then true
    else
      match p.effect
      case Get(_) => RecordsOnce(w, p.rest, n + 1, true)
      case Record(f) => IsLast(w, f, n, open) && RecordsOnce(w, p.rest, n, false)
      case Fail(_, _, _) => true
      case Reject(x) => x.fetch.Some? ==> IsLast(w, x.fetch.value, n, open)
      case Complete(x) => x.fetch.Some? ==> IsLast(w, x.fetch.value, n, open)
      case _ => RecordsOnce(w, p.rest, n, open)
  }

  predicate IsLast(w: World, f: CompletedFetch, n: nat, open: bool) {
    open && n >= 1 && w.fetch(n - 1).Fetched? && w.fetch(n - 1).page.fetch == f
  }

  lemma FallbackRecords(w: World, n: nat, provider: string, open: bool)
    ensures RecordsOnce(w, Fallback(w, n, provider), n, open)
  {
  }

  lemma ArticleRecords(w: World, candidates: seq<Candidate>, target: string, open: bool)
    ensures RecordsOnce(w, ResolveArticle(w, candidates, target), 1, open)
  {
  }

  lemma TrackRecords(w: World, url: string, open: bool)
    ensures RecordsOnce(w, FetchTrack(w, url), 1, open)
  {
  }

  lemma ProviderRecords(w: World, a: Page)
    requires w.fetch(0) == Fetched(a)
    ensures RecordsOnce(w, ProviderFetched(w, a), 1, true)
  {
    FallbackRecords(w, 1, "provider_response", false);
    FallbackRecords(w, 1, "provider_schema", false);
    if w.provider.ProviderParsed? && w.provider.external.Some? {
      ArticleRecords(w, w.provider.candidates, w.provider.external.value, false);
    }
  }

  lemma WatchRecords(w: World, a: Page)
    requires w.fetch(0) == Fetched(a)
    ensures RecordsOnce(w, WatchFetched(w, a), 1, true)
  {
    FallbackRecords(w, 1, "youtube_player_schema", false);
    if w.player.Player? && w.player.track.Track? { TrackRecords(w, w.player.track.url, false); }
  }

  lemma PageRecords(w: World, a: Page)
    requires w.fetch(0) == Fetched(a)
    ensures RecordsOnce(w, PageFetched(w, a), 1, true)
  {
    if w.html(0).LowQuality? { RenderRecords(w, a, w.html(0).candidates); }
  }

  lemma RenderRecords(w: World, a: Page, candidates: seq<Candidate>)
    requires w.fetch(0) == Fetched(a)
    ensures RecordsOnce(w, AfterRender(w, a.fetch, candidates), 1, true)
  {
  }

  lemma FirstFetchRecords(w: World)
    ensures RecordsOnce(w, FetchPage(w), 0, false)
    ensures forall address :: RecordsOnce(w, FetchProvider(w, address), 0, false) && RecordsOnce(w, FetchWatch(w, address), 0, false)
  {
    if w.fetch(0).Fetched? {
      ProviderRecords(w, w.fetch(0).page);
      WatchRecords(w, w.fetch(0).page);
      PageRecords(w, w.fetch(0).page);
    }
  }

  lemma BlobRecords(w: World, blob: BlobRef)
    ensures RecordsOnce(w, CompleteBlobPdf(w, blob), 0, false)
  {
  }

  /** Every fetch of every plan is recorded at most once, with its own answer, before or by its terminal call. */
  lemma FetchesRecordedOnce(w: World, run: QueuedRun)
    ensures RecordsOnce(w, ProcessRun(w, run), 0, false)
  {
    if run.blob.Some? {
      BlobRecords(w, run.blob.value);
    } else {
      FallbackRecords(w, 0, "youtube_no_video_id", false);
      FirstFetchRecords(w);
    }
  }

  // ----- when a render is requested

  /** Position of a gate in the fixed evaluation order. */
  function GateOrder(d: Denial): nat {
    match d
    case QualityNotRejected => 0
    case RenderingDisabled => 1
    case NotAnEmptyShell => 2
    case HostNotAllowed => 3
    case DailyBudgetExhausted => 4
  }

  predicate GateOpen(w: World, rejected: bool, shell: bool, host: Option<string>, budgetLeft: bool, gate: Denial) {
    match gate
    case QualityNotRejected => rejected
    case RenderingDisabled => w.render.enabled
    case NotAnEmptyShell => shell
    case HostNotAllowed =>
      w.render.allowedHosts == []
      || (host.Some? && exists i :: 0 <= i < |w.render.allowedHosts| && w.render.allowedHosts[i] == w.lower(host.value))
    case DailyBudgetExhausted => budgetLeft
  }

  /** The policy names the first closed gate, and permits exactly when every gate is open. */
  lemma FirstClosedGateDenies(w: World, rejected: bool, shell: bool, host: Option<string>, budgetLeft: bool)
    ensures var d := Decide(w, rejected, shell, host, budgetLeft);
            && (d.Escalate? <==> forall gate :: GateOpen(w, rejected, shell, host, budgetLeft, gate))
            && (d.Denied? ==>
                  && !GateOpen(w, rejected, shell, host, budgetLeft, d.denial)
                  && forall gate :: GateOrder(gate) < GateOrder(d.denial) ==> GateOpen(w, rejected, shell, host, budgetLeft, gate))
  {
    var gates := [QualityNotRejected, RenderingDisabled, NotAnEmptyShell, HostNotAllowed, DailyBudgetExhausted];
    assert forall gate :: gate == gates[GateOrder(gate)];
    assert host.Some? ==> (HostAllowed(w.lower, host, w.render.allowedHosts)
                           <==> GateOpen(w, rejected, shell, host, budgetLeft, HostNotAllowed));
    var d := Decide(w, rejected, shell, host, budgetLeft);
    assert d.Denied? ==> !GateOpen(w, rejected, shell, host, budgetLeft, d.denial);
  }

  /** A page whose own extraction was rejected, with every gate open and a slot of the day's budget. */
  predicate MayRender(w: World, run: QueuedRun) {
    && run.blob.None? && run.classification != "youtube"
    && (ProviderRoute(run.classification) ==> w.providerAddress == Ok(None))
    && w.fetch(0).Fetched?
    && w.fetch(0).page.fetch.mediaType == "text/html" && w.fetch(0).page.verified && w.fetch(0).page.usable
    && w.html(0).LowQuality? && w.html(0).shell
    && w.render.enabled && HostAllowed(w.lower, w.fetch(0).page.host, w.render.allowedHosts)
    && w.budget.Consumed?
  }

  lemma PageRenders(w: World, a: Page)
    requires w.fetch(0) == Fetched(a)
    ensures Renders(PageFetched(w, a)) == 0 || Renders(PageFetched(w, a)) == 1
    ensures Renders(PageFetched(w, a)) == 1 <==>
            && a.fetch.mediaType == "text/html" && a.verified && a.usable && w.html(0).LowQuality? && w.html(0).shell
            && w.render.enabled && HostAllowed(w.lower, a.host, w.render.allowedHosts) && w.budget.Consumed?
  {
    assert Renders(Return(true)) == 0;
    assert Renders(Return(false)) == 0;
    if w.html(0).LowQuality? {
      var second := RejectWith(a.fetch, w.html(0).candidates, "quality", []);
      assert Renders(second) == 0;
      assert Renders(AfterRender(w, a.fetch, w.html(0).candidates)) == 0;
    }
  }

  lemma OthersNeverRender(w: World)
    ensures forall address :: Renders(FetchProvider(w, address)) == 0 && Renders(FetchWatch(w, address)) == 0
    ensures forall n, provider :: Renders(Fallback(w, n, provider)) == 0
  {
    FirstFetchShape(w);
    forall n, provider ensures Renders(Fallback(w, n, provider)) == 0 {
      FallbackShape(w, n, provider);
    }
    forall address ensures Renders(FetchProvider(w, address)) == 0 && Renders(FetchWatch(w, address)) == 0 {
      assert Shape(w, FetchProvider(w, address), 2, 0, 0) && Shape(w, FetchWatch(w, address), 2, 0, 0);
    }
  }

  /** A render command is sent exactly when the policy and the day's budget permit it. */
  lemma RenderedExactlyWhenPermitted(w: World, run: QueuedRun)
    ensures Renders(ProcessRun(w, run)) == if MayRender(w, run) then 1 else 0
  {
    if run.blob.Some? {
      BlobShape(w, run.blob.value);
    } else {
      OthersNeverRender(w);
      match w.fetch(0)
      case NotFetched(e) => assert Renders(Return(true)) == 0; assert Renders(FetchFailed(e, [])) == 0;
      case Fetched(a) => PageRenders(w, a);
    }
  }
}
