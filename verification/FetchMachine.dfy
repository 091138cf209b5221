/**
  The redirect and retry machine of the safe fetcher, for every sequence of server replies.

  What the network, the resolver, the clock and the admission answer is given by `World`; the
  machine records what it did in a trace, and the contracts are about that trace.
 */
module FetchMachine {
  import opened Wrappers

  type Url = string
  type Host = string

  datatype Reply =
    | ResolutionRefused           // the resolver returned a prohibited address
    | ResolutionFailed
    | ResolutionTimedOut
    | TransportFailed
    | TotalTimeout
    | FirstByteTimeout
    | Response(status: nat, location: Option<string>)

  datatype World = World(
    normalize: string -> Option<Url>, literalAllowed: Url -> bool, hostOf: Url -> Option<Host>,
    join: (Url, string) -> Option<string>, admits: nat -> bool, startsInTime: bool,
    reply: nat -> Reply, wakesInTime: nat -> bool, bodyStored: bool)

  datatype Limits = Limits(maxRedirects: nat, maxRetries: nat)

  datatype FetchError =
    | UrlRefused | AddressPolicy | Dns | Transport | TimeoutTotal | TimeoutFirstByte | RedirectLimit
    | RedirectLocation | RedirectLoop | RemoteStatus(status: nat) | CacheIntegrity | Overloaded | Body

  datatype Evidence = Evidence(first: Url, redirects: seq<Url>, attempts: nat, retries: nat, status: nat)

  datatype Event =
    | Normalized(url: Url) | Validated(url: Url) | Entered(host: Host) | Left(host: Host) | Resolved(url: Url) | Sent(url: Url)
    | BodyReceived(url: Url)

  predicate TransientStatus(status: nat) { status in {408, 429, 500, 502, 503, 504} }

  predicate IsRedirect(status: nat) { status in {301, 302, 303, 307, 308} }

  // ----- what a trace has to satisfy

  /** The guard held after a trace; `Broken` if one was ever taken on top of another or given back twice. */
  datatype Hold = Free | Holding(host: Host) | Broken

  function Held(trace: seq<Event>): Hold {
    if trace == [] then Free
    else
      var before := Held(trace[..|trace| - 1]);
      match trace[|trace| - 1]
      case Entered(h) => if before.Free? then Holding(h) else Broken
      case Left(h) => if before == Holding(h) then Free else Broken
      case _ => before
  }

  /** Some step normalized `u`, and a later one validated it. */
  ghost predicate Vetted(trace: seq<Event>, u: Url) {
    exists j, k :: 0 <= j < k < |trace| && trace[j] == Normalized(u) && trace[k] == Validated(u)
  }

  /** A request to `u` may follow this trace. */
  ghost predicate MaySend(w: World, before: seq<Event>, u: Url) {
    && Vetted(before, u)
    && before != [] && before[|before| - 1] == Resolved(u)
    && w.hostOf(u).Some? && Held(before) == Holding(w.hostOf(u).value)
  }

  /** The body of the response to the last request is streamed while its guard is still held. */
  ghost predicate MayReceive(w: World, before: seq<Event>, u: Url) {
    && before != [] && before[|before| - 1] == Sent(u)
    && w.hostOf(u).Some? && Held(before) == Holding(w.hostOf(u).value)
  }

  ghost predicate MayFollow(w: World, before: seq<Event>, e: Event) {
    (e.Sent? ==> MaySend(w, before, e.url)) && (e.BodyReceived? ==> MayReceive(w, before, e.url))
  }

  /**
    Every request went to a vetted, freshly resolved address under a guard for its own host, and
    every body was received under that guard.
   */
  ghost predicate SafeRequests(w: World, trace: seq<Event>) {
    trace == [] ||
    (SafeRequests(w, trace[..|trace| - 1]) && MayFollow(w, trace[..|trace| - 1], trace[|trace| - 1]))
  }

  /** Read at any point of a trace: what a request or a body needed came before it. */
  lemma {:induction false} SafeRequestAt(w: World, trace: seq<Event>, i: nat)
    requires SafeRequests(w, trace) && i < |trace|
    ensures trace[i].Sent? ==> MaySend(w, trace[..i], trace[i].url)
    ensures trace[i].BodyReceived? ==> MayReceive(w, trace[..i], trace[i].url)
    decreases |trace|
  {
    var n := |trace| - 1;
    if i < n {
      SafeRequestAt(w, trace[..n], i);
      assert trace[..n][..i] == trace[..i];
    }
  }

  function Requests(trace: seq<Event>): nat {
    if trace == [] then 0 else Requests(trace[..|trace| - 1]) + if trace[|trace| - 1].Sent? then 1 else 0
  }

  predicate Distinct(urls: seq<Url>) { forall i, j :: 0 <= i < j < |urls| ==> urls[i] != urls[j] }

  /** A trace that ends with no guard or one guard never held two at once. */
  lemma {:induction false} NeverTwoGuards(trace: seq<Event>, i: nat)
    requires !Held(trace).Broken? && i <= |trace|
    ensures !Held(trace[..i]).Broken?
    decreases |trace|
  {
    if i == |trace| {
      assert trace[..i] == trace;
    } else {
      NeverTwoGuards(trace[..|trace| - 1], i);
      assert trace[..|trace| - 1][..i] == trace[..i];
    }
  }

  // ----- extending a trace

  lemma Extended(w: World, trace: seq<Event>, e: Event)
    requires SafeRequests(w, trace) && MayFollow(w, trace, e)
    ensures SafeRequests(w, trace + [e])
    ensures Held(trace + [e]) == match e
                                 case Entered(h) => if Held(trace).Free? then Holding(h) else Broken
                                 case Left(h) => if Held(trace) == Holding(h) then Free else Broken
                                 case _ => Held(trace)
    ensures Requests(trace + [e]) == Requests(trace) + if e.Sent? then 1 else 0
  {
    assert (trace + [e])[..|trace|] == trace;
  }

  lemma VettedKept(trace: seq<Event>, e: Event, u: Url)
    requires Vetted(trace, u)
    ensures Vetted(trace + [e], u)
  {
    var j, k :| 0 <= j < k < |trace| && trace[j] == Normalized(u) && trace[k] == Validated(u);
    assert (trace + [e])[j] == Normalized(u) && (trace + [e])[k] == Validated(u);
  }

  lemma VettedNow(trace: seq<Event>, u: Url)
    ensures Vetted(trace + [Normalized(u)] + [Validated(u)], u)
  {
    var t := trace + [Normalized(u)] + [Validated(u)];
    assert t[|trace|] == Normalized(u) && t[|trace| + 1] == Validated(u);
  }

  /** What holds of the machine whenever it is about to send to `u`. */
  ghost predicate Ready(w: World, trace: seq<Event>, u: Url) {
    SafeRequests(w, trace) && Vetted(trace, u) && w.hostOf(u).Some? && Held(trace) == Holding(w.hostOf(u).value)
  }

  lemma ResolveKeeps(w: World, trace: seq<Event>, u: Url)
    requires Ready(w, trace, u)
    ensures Ready(w, trace + [Resolved(u)], u) && Requests(trace + [Resolved(u)]) == Requests(trace)
  {
    Extended(w, trace, Resolved(u));
    VettedKept(trace, Resolved(u), u);
  }

  lemma SendKeeps(w: World, trace: seq<Event>, u: Url)
    requires Ready(w, trace, u) && trace != [] && trace[|trace| - 1] == Resolved(u)
    ensures Ready(w, trace + [Sent(u)], u) && Requests(trace + [Sent(u)]) == Requests(trace) + 1
  {
    Extended(w, trace, Sent(u));
    VettedKept(trace, Sent(u), u);
  }

  /** Giving the guard back leaves none held, and the addresses vetted so far vetted. */
  lemma LeaveKeeps(w: World, trace: seq<Event>, u: Url)
    requires SafeRequests(w, trace) && w.hostOf(u).Some? && Held(trace) == Holding(w.hostOf(u).value)
    ensures SafeRequests(w, trace + [Left(w.hostOf(u).value)]) && Held(trace + [Left(w.hostOf(u).value)]).Free?
    ensures Requests(trace + [Left(w.hostOf(u).value)]) == Requests(trace)
  {
    Extended(w, trace, Left(w.hostOf(u).value));
  }

  /** The body is received before the guard is given back. */
  lemma ReceiveKeeps(w: World, trace: seq<Event>, u: Url)
    requires Ready(w, trace, u) && trace != [] && trace[|trace| - 1] == Sent(u)
    ensures Ready(w, trace + [BodyReceived(u)], u) && Requests(trace + [BodyReceived(u)]) == Requests(trace)
  {
    Extended(w, trace, BodyReceived(u));
    VettedKept(trace, BodyReceived(u), u);
  }

  /** Normalizing and validating a URL, then entering its host, makes the machine ready for it. */
  lemma EnterMakesReady(w: World, trace: seq<Event>, u: Url)
    requires SafeRequests(w, trace) && Held(trace).Free? && Vetted(trace, u) && w.hostOf(u).Some?
    ensures Ready(w, trace + [Entered(w.hostOf(u).value)], u)
    ensures Requests(trace + [Entered(w.hostOf(u).value)]) == Requests(trace)
  {
    Extended(w, trace, Entered(w.hostOf(u).value));
    VettedKept(trace, Entered(w.hostOf(u).value), u);
  }

  // ----- which reply settles a fetch, and as what

  /** The addresses reached so far, the first one first, and the retries spent on the way. */
  datatype Walk = Walk(reached: seq<Url>, retries: nat)

  /** An address is used only normalized, allowed and with a host. */
  function Vetting(w: World, raw: string): Result<Url, FetchError> {
    match w.normalize(raw)
    case None => Err(UrlRefused)
    case Some(u) => if !w.literalAllowed(u) then Err(AddressPolicy) else if w.hostOf(u).None? then Err(UrlRefused) else Ok(u)
  }

  /** Where the fetch starts: the normalized address, vetted, admitted and in time. */
  function Start(w: World, url: string): Result<Url, FetchError> {
    if Vetting(w, url).Err? then Vetting(w, url)
    else if !w.admits(0) then Err(Overloaded)
    else if !w.startsInTime then Err(TimeoutTotal)
    else Vetting(w, url)
  }

  /** Where a redirect leads: the joined and normalized location, vetted, admitted and not yet reached. */
  function Landing(w: World, reached: seq<Url>, location: Option<string>): Result<Url, FetchError>
    requires reached != []
  {
    if location.None? || w.join(reached[|reached| - 1], location.value).None? then Err(RedirectLocation)
    else
      var next := Vetting(w, w.join(reached[|reached| - 1], location.value).value);
      if next.Err? then next
      else if !w.admits(|reached|) then Err(Overloaded)
      else if next.value in reached then Err(RedirectLoop)
      else next
  }

  /** A reply worth another attempt at the same address. */
  predicate Transient(reply: Reply) {
    reply.TransportFailed? || (reply.Response? && reply.status in {408, 429, 500, 502, 503, 504})
  }

  predicate Redirects(reply: Reply) { reply.Response? && reply.status in {301, 302, 303, 307, 308} }

  predicate Succeeds(w: World, reply: Reply, hasPrior: bool) {
    && reply.Response? && w.bodyStored
    && (200 <= reply.status <= 299 || (reply.status == 304 && hasPrior))
  }

  /** Attempt `k` is passed over: retried within the shared budget, or followed within the limit. */
  function PassedOver(w: World, limits: Limits, before: Walk, k: nat): Option<Walk>
    requires before.reached != []
  {
    var reply := w.reply(k);
    if Transient(reply) && before.retries < limits.maxRetries && w.wakesInTime(k)
    then Some(Walk(before.reached, before.retries + 1))
    else if Redirects(reply) && |before.reached| <= limits.maxRedirects && Landing(w, before.reached, reply.location).Ok?
    then Some(Walk(before.reached + [Landing(w, before.reached, reply.location).value], before.retries))
    else None
  }

  /** Where the fetch stands when its first `k` attempts were all passed over. */
  function WalkTo(w: World, limits: Limits, url: string, k: nat): (walk: Option<Walk>)
    ensures walk.Some? ==> walk.value.reached != []
  {
    if k == 0 then (match Start(w, url)
                    case Err(_) => None
                    case Ok(u) => Some(Walk([u], 0)))
    else
      match WalkTo(w, limits, url, k - 1)
      case None => None
      case Some(before) => PassedOver(w, limits, before, k)
  }

  /** What the fetch answers to the reply of attempt `k` that it does not pass over. */
  function Answer(w: World, limits: Limits, before: Walk, k: nat, hasPrior: bool): Result<Evidence, FetchError>
    requires before.reached != []
  {
    var reply := w.reply(k);
    if Transient(reply) && before.retries < limits.maxRetries then Err(TimeoutTotal)
    else
      match reply
      case ResolutionRefused => Err(AddressPolicy)
      case ResolutionFailed => Err(Dns)
      case ResolutionTimedOut => Err(TimeoutTotal)
      case TotalTimeout => Err(TimeoutTotal)
      case FirstByteTimeout => Err(TimeoutFirstByte)
      case TransportFailed => Err(Transport)
      case Response(status, location) =>
        if Redirects(reply) then
          if |before.reached| <= limits.maxRedirects && Landing(w, before.reached, location).Err?
          then Err(Landing(w, before.reached, location).error)
          else Err(RedirectLimit)
        else if Succeeds(w, reply, hasPrior)
        then Ok(Evidence(before.reached[0], before.reached[1..], k, before.retries, status))
        else if status == 304 && !hasPrior then Err(CacheIntegrity)
        else if status == 304 || 200 <= status <= 299 then Err(Body)
        else Err(RemoteStatus(status))
  }

  /** Attempt `k` is the first that is not passed over, and the fetch answers `r` to it. */
  predicate SettledAt(w: World, limits: Limits, url: string, hasPrior: bool, k: nat, r: Result<Evidence, FetchError>) {
    && k >= 1 && WalkTo(w, limits, url, k - 1).Some? && WalkTo(w, limits, url, k).None?
    && r == Answer(w, limits, WalkTo(w, limits, url, k - 1).value, k, hasPrior)
  }

  lemma {:induction false} WalkGoesOn(w: World, limits: Limits, url: string, j: nat, k: nat)
    requires j <= k && WalkTo(w, limits, url, k).Some?
    ensures WalkTo(w, limits, url, j).Some?
    decreases k
  {
    if j < k { WalkGoesOn(w, limits, url, j, k - 1); }
  }

  /** The settling attempt and its answer are the world's and the limits' alone. */
  lemma SettledOnce(w: World, limits: Limits, url: string, hasPrior: bool, j: nat, k: nat,
                    r: Result<Evidence, FetchError>, r': Result<Evidence, FetchError>)
    requires SettledAt(w, limits, url, hasPrior, j, r) && SettledAt(w, limits, url, hasPrior, k, r')
    ensures j == k && r == r'
  {
    if j < k {
      WalkGoesOn(w, limits, url, j, k - 1);
    } else if k < j {
      WalkGoesOn(w, limits, url, k, j - 1);
    }
  }

  /** Attempt `j` answered the redirect from address `i` to address `i + 1`. */
  predicate Led(w: World, reached: seq<Url>, i: nat, j: nat) {
    && i + 1 < |reached| && Redirects(w.reply(j)) && w.reply(j).location.Some?
    && var joined := w.join(reached[i], w.reply(j).location.value);
       joined.Some? && w.normalize(joined.value) == Some(reached[i + 1])
  }

  /** The attempts `at` led from one address to the next, and the others up to `k` were retried. */
  ghost predicate LedBy(w: World, walk: Walk, k: nat, at: seq<nat>) {
    && k == |at| + walk.retries && |walk.reached| == |at| + 1
    && (forall i :: 0 <= i < |at| ==> 1 <= at[i] <= k && Led(w, walk.reached, i, at[i]))
    && (forall i, j :: 0 <= i < j < |at| ==> at[i] < at[j])
    && (forall j :: 1 <= j <= k && j !in at ==> Transient(w.reply(j)))
  }

  lemma LedOn(w: World, walk: Walk, u: Url, k: nat, at: seq<nat>)
    requires LedBy(w, walk, k, at) && Led(w, walk.reached + [u], |at|, k + 1)
    ensures LedBy(w, Walk(walk.reached + [u], walk.retries), k + 1, at + [k + 1])
  {
    var on := at + [k + 1];
    forall i | 0 <= i < |on| ensures 1 <= on[i] <= k + 1 && Led(w, walk.reached + [u], i, on[i]) {
      assert i < |at| ==> Led(w, walk.reached, i, at[i]);
    }
    forall j | 1 <= j <= k + 1 && j !in on ensures Transient(w.reply(j)) {
      assert on[|at|] == k + 1;
      assert forall i :: 0 <= i < |at| ==> on[i] == at[i];
      assert j !in at;
    }
  }

  lemma RetryOrRedirect(w: World, limits: Limits, before: Walk, k: nat)
    requires before.reached != [] && PassedOver(w, limits, before, k).Some?
    ensures var walk := PassedOver(w, limits, before, k).value;
            || (Transient(w.reply(k)) && walk == Walk(before.reached, before.retries + 1) && walk.retries <= limits.maxRetries)
            || (&& walk == Walk(before.reached + [walk.reached[|before.reached|]], before.retries)
                && |before.reached| <= limits.maxRedirects && walk.reached[|before.reached|] !in before.reached
                && Led(w, walk.reached, |before.reached| - 1, k))
  {
  }

  /**
    The addresses reached are the normalized start and then, in order, the joined and normalized
    locations of the redirects: one attempt for each, later ones later, and no address twice. The
    other attempts are the retries, within the budget.
   */
  ghost predicate LedWalk(w: World, limits: Limits, url: string, walk: Walk, k: nat, at: seq<nat>) {
    && walk.reached != [] && w.normalize(url) == Some(walk.reached[0]) && Distinct(walk.reached) && LedBy(w, walk, k, at)
    && walk.retries <= limits.maxRetries && |at| <= limits.maxRedirects
  }

  lemma LedStep(w: World, limits: Limits, url: string, before: Walk, k: nat, at: seq<nat>) returns (at': seq<nat>)
    requires LedWalk(w, limits, url, before, k, at) && PassedOver(w, limits, before, k + 1).Some?
    ensures LedWalk(w, limits, url, PassedOver(w, limits, before, k + 1).value, k + 1, at')
  {
    var walk := PassedOver(w, limits, before, k + 1).value;
    RetryOrRedirect(w, limits, before, k + 1);
    at' := at;
    if |walk.reached| > |before.reached| {
      LedOn(w, before, walk.reached[|before.reached|], k, at);
      at' := at + [k + 1];
    }
  }

  lemma {:induction false} WalkIsLed(w: World, limits: Limits, url: string, k: nat) returns (at: seq<nat>)
    requires WalkTo(w, limits, url, k).Some?
    ensures LedWalk(w, limits, url, WalkTo(w, limits, url, k).value, k, at)
  {
    at := [];
    if k > 0 {
      at := WalkIsLed(w, limits, url, k - 1);
      at := LedStep(w, limits, url, WalkTo(w, limits, url, k - 1).value, k - 1, at);
    }
  }

  /** Each attempt after `first` up to `last` was transient and waited for in time. */
  ghost predicate Retried(w: World, first: nat, last: nat) {
    forall j :: first < j <= last ==> Transient(w.reply(j)) && w.wakesInTime(j)
  }

  lemma {:induction false} RetriesWalk(w: World, limits: Limits, url: string, walk: Walk, k: nat, last: nat)
    requires k <= last && walk.retries + last - k <= limits.maxRetries && Retried(w, k, last)
    requires WalkTo(w, limits, url, k) == Some(walk)
    ensures WalkTo(w, limits, url, last) == Some(Walk(walk.reached, walk.retries + last - k))
    decreases last
  {
    if k < last {
      RetriesWalk(w, limits, url, walk, k, last - 1);
    }
  }

  /** The last attempt of a hop: a response to look at, or what the fetch fails as. */
  predicate HopEnds(w: World, limits: Limits, k: nat, retriesBefore: nat, r: Result<Reply, FetchError>) {
    match r
    case Ok(response) => response.Response? && response == w.reply(k) && (Transient(response) ==> retriesBefore == limits.maxRetries)
    case Err(e) =>
      || SettlesSend(w.reply(k), e)
      || (w.reply(k).TransportFailed? && retriesBefore == limits.maxRetries && e == Transport)
      || (Transient(w.reply(k)) && retriesBefore < limits.maxRetries && !w.wakesInTime(k) && e == TimeoutTotal)
  }

  /** The replies that end a fetch at once. */
  predicate SettlesSend(reply: Reply, e: FetchError) {
    || (reply.ResolutionRefused? && e == AddressPolicy)
    || (reply.ResolutionFailed? && e == Dns)
    || ((reply.ResolutionTimedOut? || reply.TotalTimeout?) && e == TimeoutTotal)
    || (reply.FirstByteTimeout? && e == TimeoutFirstByte)
  }

  /** The reply of attempt `k` is not passed over, and `r` answers it. */
  predicate Ends(w: World, limits: Limits, walk: Walk, k: nat, hasPrior: bool, r: Result<Evidence, FetchError>)
    requires walk.reached != []
  {
    PassedOver(w, limits, walk, k).None? && r == Answer(w, limits, walk, k, hasPrior)
  }

  lemma HopSettles(w: World, limits: Limits, hasPrior: bool, walk: Walk, k: nat, e: FetchError)
    requires walk.reached != [] && walk.retries <= limits.maxRetries && HopEnds(w, limits, k, walk.retries, Err(e))
    ensures Ends(w, limits, walk, k, hasPrior, Err(e))
  {
    assert !Redirects(w.reply(k));
  }

  lemma RedirectLands(w: World, limits: Limits, hasPrior: bool, walk: Walk, k: nat)
    requires walk.reached != [] && Redirects(w.reply(k)) && |walk.reached| <= limits.maxRedirects
    ensures match Landing(w, walk.reached, w.reply(k).location)
            case Ok(u) => PassedOver(w, limits, walk, k) == Some(Walk(walk.reached + [u], walk.retries))
            case Err(e) => Ends(w, limits, walk, k, hasPrior, Err(e))
  {
    assert !Transient(w.reply(k));
  }

  /** A hop's last reply, read as a step of the walk from the start. */
  lemma HopWalks(w: World, limits: Limits, url: string, hasPrior: bool, reached: seq<Url>, retries: nat, k: nat, last: nat)
    requires WalkTo(w, limits, url, k) == Some(Walk(reached, retries)) && reached != []
    requires k < last && Retried(w, k, last - 1) && retries + last - 1 - k <= limits.maxRetries
    ensures var walk := Walk(reached, retries + last - 1 - k);
            && WalkTo(w, limits, url, last) == PassedOver(w, limits, walk, last)
            && forall r :: Ends(w, limits, walk, last, hasPrior, r) ==> SettledAt(w, limits, url, hasPrior, last, r)
  {
    RetriesWalk(w, limits, url, Walk(reached, retries), k, last - 1);
    WalkStep(w, limits, url, hasPrior, Walk(reached, retries + last - 1 - k), last);
  }

  lemma WalkStep(w: World, limits: Limits, url: string, hasPrior: bool, walk: Walk, k: nat)
    requires k > 0 && WalkTo(w, limits, url, k - 1) == Some(walk)
    ensures WalkTo(w, limits, url, k) == PassedOver(w, limits, walk, k)
    ensures forall r :: Ends(w, limits, walk, k, hasPrior, r) ==> SettledAt(w, limits, url, hasPrior, k, r)
  {
  }

  lemma SucceedsExactly(w: World, limits: Limits, url: string, hasPrior: bool, k: nat, r: Result<Evidence, FetchError>)
    requires SettledAt(w, limits, url, hasPrior, k, r)
    ensures r.Ok? <==> Succeeds(w, w.reply(k), hasPrior)
    ensures r.Ok? ==> r.value.attempts == k && r.value.status == w.reply(k).status
  {
  }

  /** What a finished fetch promises about its evidence. */
  predicate EvidenceHolds(limits: Limits, e: Evidence) {
    && e.attempts == |e.redirects| + e.retries + 1
    && e.retries <= limits.maxRetries && |e.redirects| <= limits.maxRedirects
    && Distinct([e.first] + e.redirects)
  }

  /** A success names the normalized address first, and then every redirect it was led along. */
  lemma EvidenceIsLed(w: World, limits: Limits, url: string, hasPrior: bool, k: nat, r: Result<Evidence, FetchError>) returns (at: seq<nat>)
    requires SettledAt(w, limits, url, hasPrior, k, r) && r.Ok?
    ensures EvidenceHolds(limits, r.value) && w.normalize(url) == Some(r.value.first)
    ensures LedBy(w, Walk([r.value.first] + r.value.redirects, r.value.retries), k - 1, at)
  {
    at := WalkIsLed(w, limits, url, k - 1);
    var walk := WalkTo(w, limits, url, k - 1).value;
    assert [walk.reached[0]] + walk.reached[1..] == walk.reached;
    assert r.value == Evidence(walk.reached[0], walk.reached[1..], k, walk.retries, w.reply(k).status);
  }

  // ----- the machine

  /** `normalize` and `validate_literal`, in that order, before the address is used for anything. */
  method Vet(w: World, trace: seq<Event>, raw: string) returns (r: Result<Url, FetchError>, trace': seq<Event>)
    requires SafeRequests(w, trace)
    ensures SafeRequests(w, trace') && Held(trace') == Held(trace) && Requests(trace') == Requests(trace)
    ensures r.Ok? ==> Vetted(trace', r.value) && w.hostOf(r.value).Some?
    ensures r == Vetting(w, raw)
  {
    trace' := trace;
    var normalized := w.normalize(raw);
    if normalized.None? {
      return Err(UrlRefused), trace';
    }
    var u := normalized.value;
    Extended(w, trace', Normalized(u));
    trace' := trace' + [Normalized(u)];
    if !w.literalAllowed(u) {
      return Err(AddressPolicy), trace';
    }
    Extended(w, trace', Validated(u));
    VettedNow(trace, u);
    trace' := trace' + [Validated(u)];
    if w.hostOf(u).None? {
      return Err(UrlRefused), trace';
    }
    r := Ok(u);
  }

  /** One attempt: resolve, and send unless the resolver refused. */
  method SendOnce(w: World, u: Url, trace: seq<Event>, attempt: nat) returns (r: Result<Reply, FetchError>, trace': seq<Event>)
    requires Ready(w, trace, u)
    ensures Ready(w, trace', u) && Requests(trace') <= Requests(trace) + 1
    ensures r.Ok? ==> Requests(trace') == Requests(trace) + 1 && trace' != [] && trace'[|trace'| - 1] == Sent(u)
    ensures r.Ok? ==> r.value == w.reply(attempt) && (r.value.TransportFailed? || r.value.Response?)
    ensures r.Err? ==> SettlesSend(w.reply(attempt), r.error)
  {
    trace' := trace;
    var reply := w.reply(attempt);
    match reply {
      case ResolutionRefused => return Err(AddressPolicy), trace';
      case ResolutionFailed => return Err(Dns), trace';
      case ResolutionTimedOut => return Err(TimeoutTotal), trace';
      case _ =>
    }
    ResolveKeeps(w, trace', u);
    trace' := trace' + [Resolved(u)];
    SendKeeps(w, trace', u);
    trace' := trace' + [Sent(u)];
    match reply {
      case TotalTimeout => r := Err(TimeoutTotal);
      case FirstByteTimeout => r := Err(TimeoutFirstByte);
      case _ => r := Ok(reply);
    }
  }

  /** The inner loop: attempts one hop until a reply settles it or the shared retries are spent. */
  method AttemptHop(w: World, limits: Limits, u: Url, trace: seq<Event>, attempts: nat, retries: nat)
    returns (r: Result<Reply, FetchError>, trace': seq<Event>, attempts': nat, retries': nat)
    requires Ready(w, trace, u) && retries <= limits.maxRetries && Requests(trace) == attempts
    ensures Ready(w, trace', u) && Requests(trace') <= attempts' && (r.Ok? ==> Requests(trace') == attempts')
    ensures r.Ok? ==> trace' != [] && trace'[|trace'| - 1] == Sent(u)
    ensures attempts < attempts' && Retried(w, attempts, attempts' - 1) && retries + attempts' - 1 - attempts <= limits.maxRetries
    ensures HopEnds(w, limits, attempts', retries + attempts' - 1 - attempts, r)
    ensures retries <= retries' <= limits.maxRetries && (r.Ok? ==> retries' == retries + attempts' - 1 - attempts)
  {
    trace', attempts', retries' := trace, attempts, retries;
    while true
      invariant Ready(w, trace', u) && Requests(trace') == attempts' && attempts <= attempts'
      invariant retries' == retries + attempts' - attempts && retries' <= limits.maxRetries
      invariant Retried(w, attempts, attempts')
      decreases limits.maxRetries - retries'
    {
      attempts' := attempts' + 1;
      var sent;
      sent, trace' := SendOnce(w, u, trace', attempts');
      if sent.Err? {
        return sent, trace', attempts', retries';
      }
      var reply := sent.value;
      var retryable := reply.TransportFailed? || TransientStatus(reply.status);
      if !retryable || retries' == limits.maxRetries {
        return if reply.TransportFailed? then Err(Transport) else sent, trace', attempts', retries';
      }
      retries' := retries' + 1;
      if !w.wakesInTime(attempts') {
        return Err(TimeoutTotal), trace', attempts', retries';
      }
    }
  }

  /** Follows one redirect: the old guard is given back before the next host is entered. */
  method Follow(w: World, u: Url, location: Option<string>, visited: seq<Url>, trace: seq<Event>, entered: nat)
    returns (r: Result<Url, FetchError>, trace': seq<Event>)
    requires Ready(w, trace, u) && Distinct(visited) && visited != [] && visited[|visited| - 1] == u && entered == |visited|
    ensures Requests(trace') == Requests(trace) && r == Landing(w, visited, location)
    ensures r.Ok? ==> Ready(w, trace', r.value) && Distinct(visited + [r.value])
    ensures r.Err? ==> SafeRequests(w, trace') && Held(trace').Free?
  {
    trace' := trace;
    var joined := if location.Some? then w.join(u, location.value) else None;
    if joined.None? {
      LeaveKeeps(w, trace', u);
      return Err(RedirectLocation), trace' + [Left(w.hostOf(u).value)];
    }
    var vetted;
    vetted, trace' := Vet(w, trace', joined.value);
    ghost var before := trace';
    LeaveKeeps(w, trace', u);
    trace' := trace' + [Left(w.hostOf(u).value)];
    if vetted.Err? {
      return Err(vetted.error), trace';
    }
    var next := vetted.value;
    VettedKept(before, Left(w.hostOf(u).value), next);
    if !w.admits(entered) {
      return Err(Overloaded), trace';
    }
    EnterMakesReady(w, trace', next);
    trace' := trace' + [Entered(w.hostOf(next).value)];
    if next in visited {
      LeaveKeeps(w, trace', next);
      return Err(RedirectLoop), trace' + [Left(w.hostOf(next).value)];
    }
    r := Ok(next);
  }

  /** No guard is left, and after a success every attempt sent a request and a body came under the last guard. */
  ghost predicate Closed(w: World, trace: seq<Event>, attempts: nat, r: Result<Evidence, FetchError>) {
    && SafeRequests(w, trace) && Held(trace).Free?
    && (r.Ok? ==> Requests(trace) == attempts)
    && (r.Ok? && r.value.status != 304 ==> |trace| >= 2 && trace[|trace| - 2].BodyReceived? && trace[|trace| - 1].Left?)
  }

  /** The reply that ends the fetch: the body is received under the guard, then the guard is given back. */
  method Conclude(w: World, limits: Limits, u: Url, reply: Reply, visited: seq<Url>, trace: seq<Event>,
                  attempts: nat, retries: nat, hasPrior: bool)
    returns (r: Result<Evidence, FetchError>, trace': seq<Event>)
    requires Ready(w, trace, u) && trace != [] && trace[|trace| - 1] == Sent(u)
    requires reply.Response? && reply == w.reply(attempts) && visited != [] && (Transient(reply) ==> retries >= limits.maxRetries)
    requires Redirects(reply) ==> |visited| > limits.maxRedirects
    ensures Closed(w, trace', Requests(trace), r) && Requests(trace') == Requests(trace)
    ensures Ends(w, limits, Walk(visited, retries), attempts, hasPrior, r)
  {
    trace' := trace;
    var status := reply.status;
    if status / 100 == 2 {
      ReceiveKeeps(w, trace', u);
      trace' := trace' + [BodyReceived(u)];
    }
    LeaveKeeps(w, trace', u);
    trace' := trace' + [Left(w.hostOf(u).value)];
    if IsRedirect(status) {
      return Err(RedirectLimit), trace';
    }
    if status == 304 && !hasPrior {
      return Err(CacheIntegrity), trace';
    }
    if status != 304 && status / 100 != 2 {
      return Err(RemoteStatus(status)), trace';
    }
    if !w.bodyStored {
      return Err(Body), trace';
    }
    r := Ok(Evidence(visited[0], visited[1..], attempts, retries, status));
  }

  /** What one hop leaves: an answer, or the next address under its own guard. */
  datatype Hopped = Finished(answer: Result<Evidence, FetchError>) | Moved(next: Url)

  /** One turn of the outer loop: the attempts at one address and what their last reply leads to. */
  method Hop(w: World, limits: Limits, u: Url, visited: seq<Url>, hasPrior: bool, trace: seq<Event>, attempts: nat, retries: nat)
    returns (hopped: Hopped, trace': seq<Event>, attempts': nat, retries': nat)
    requires Ready(w, trace, u) && Requests(trace) == attempts && retries <= limits.maxRetries
    requires Distinct(visited) && visited != [] && visited[|visited| - 1] == u && |visited| <= limits.maxRedirects + 1
    ensures attempts < attempts' && Retried(w, attempts, attempts' - 1) && retries + attempts' - 1 - attempts <= limits.maxRetries
    ensures Requests(trace') <= attempts'
    ensures hopped.Finished? ==>
              && Ends(w, limits, Walk(visited, retries + attempts' - 1 - attempts), attempts', hasPrior, hopped.answer)
              && Closed(w, trace', attempts', hopped.answer)
    ensures hopped.Moved? ==>
              && PassedOver(w, limits, Walk(visited, retries + attempts' - 1 - attempts), attempts')
                 == Some(Walk(visited + [hopped.next], retries'))
              && retries' == retries + attempts' - 1 - attempts && Ready(w, trace', hopped.next) && Requests(trace') == attempts'
              && Distinct(visited + [hopped.next]) && |visited| <= limits.maxRedirects
  {
    var reply;
    reply, trace', attempts', retries' := AttemptHop(w, limits, u, trace, attempts, retries);
    ghost var walk := Walk(visited, retries + attempts' - 1 - attempts);
    if reply.Err? {
      HopSettles(w, limits, hasPrior, walk, attempts', reply.error);
      LeaveKeeps(w, trace', u);
      return Finished(Err(reply.error)), trace' + [Left(w.hostOf(u).value)], attempts', retries';
    }
    if !IsRedirect(reply.value.status) || |visited| > limits.maxRedirects {
      var answer;
      answer, trace' := Conclude(w, limits, u, reply.value, visited, trace', attempts', retries', hasPrior);
      return Finished(answer), trace', attempts', retries';
    }
    RedirectLands(w, limits, hasPrior, walk, attempts');
    var next;
    next, trace' := Follow(w, u, reply.value.location, visited, trace', |visited|);
    hopped := if next.Ok? then Moved(next.value) else Finished(Err(next.error));
  }

  /** The same turn, as a step of the walk from the start of the fetch. */
  method HopOn(w: World, limits: Limits, u: Url, visited: seq<Url>, hasPrior: bool, trace: seq<Event>, attempts: nat, retries: nat,
               ghost url: string)
    returns (hopped: Hopped, trace': seq<Event>, attempts': nat, retries': nat)
    requires Ready(w, trace, u) && Requests(trace) == attempts && retries <= limits.maxRetries
    requires Distinct(visited) && visited != [] && visited[|visited| - 1] == u && |visited| <= limits.maxRedirects + 1
    requires WalkTo(w, limits, url, attempts) == Some(Walk(visited, retries))
    ensures attempts < attempts' <= attempts + 1 + limits.maxRetries - retries && Requests(trace') <= attempts'
    ensures hopped.Finished? ==>
              SettledAt(w, limits, url, hasPrior, attempts', hopped.answer) && Closed(w, trace', attempts', hopped.answer)
    ensures hopped.Moved? ==>
              && WalkTo(w, limits, url, attempts') == Some(Walk(visited + [hopped.next], retries'))
              && retries' <= limits.maxRetries && attempts' - retries' == attempts - retries + 1
              && Ready(w, trace', hopped.next) && Requests(trace') == attempts' && Distinct(visited + [hopped.next])
              && |visited| <= limits.maxRedirects
  {
    hopped, trace', attempts', retries' := Hop(w, limits, u, visited, hasPrior, trace, attempts, retries);
    HopWalks(w, limits, url, hasPrior, visited, retries, attempts, attempts');
  }

  /** The hops of a fetch that has entered its first host. */
  method FetchHops(w: World, limits: Limits, first: Url, hasPrior: bool, entered: seq<Event>, ghost url: string)
    returns (r: Result<Evidence, FetchError>, trace: seq<Event>, ghost n: nat)
    requires Ready(w, entered, first) && Requests(entered) == 0 && Start(w, url) == Ok(first)
    ensures Requests(trace) <= n <= limits.maxRedirects + limits.maxRetries + 1
    ensures SettledAt(w, limits, url, hasPrior, n, r) && Closed(w, trace, n, r)
  {
    trace, n := entered, 0;
    var u, visited := first, [first];
    var attempts: nat, retries: nat := 0, 0;
    for hop := 0 to limits.maxRedirects + 1
      invariant hop <= limits.maxRedirects && |visited| == hop + 1 && visited[hop] == u && Distinct(visited)
      invariant Ready(w, trace, u) && Requests(trace) == attempts && attempts == hop + retries && retries <= limits.maxRetries
      invariant WalkTo(w, limits, url, attempts) == Some(Walk(visited, retries))
    {
      var hopped;
      hopped, trace, attempts, retries := HopOn(w, limits, u, visited, hasPrior, trace, attempts, retries, url);
      if hopped.Finished? {
        return hopped.answer, trace, attempts;
      }
      u := hopped.next;
      visited := visited + [u];
    }
    assert false;
  }

  /**
    `fetch_inner`: it ends for every sequence of replies, sends no more than
    `maxRedirects + maxRetries + 1` requests, and holds no guard when it returns. It answers what
    attempt `n`, the first whose reply it neither retries nor follows, settles it as.
   */
  method Fetch(w: World, limits: Limits, url: string, hasPrior: bool)
    returns (r: Result<Evidence, FetchError>, trace: seq<Event>, ghost n: nat)
    ensures Requests(trace) <= limits.maxRedirects + limits.maxRetries + 1 && Closed(w, trace, n, r)
    ensures if Start(w, url).Err? then r == Err(Start(w, url).error) else SettledAt(w, limits, url, hasPrior, n, r)
    ensures r.Ok? <==> Start(w, url).Ok? && Succeeds(w, w.reply(n), hasPrior)
    ensures r.Ok? ==> EvidenceHolds(limits, r.value) && r.value.attempts == n && r.value.status == w.reply(n).status
  {
    trace, n := [], 0;
    var vetted;
    vetted, trace := Vet(w, trace, url);
    if vetted.Err? {
      return Err(vetted.error), trace, n;
    }
    var u := vetted.value;
    if !w.admits(0) {
      return Err(Overloaded), trace, n;
    }
    EnterMakesReady(w, trace, u);
    trace := trace + [Entered(w.hostOf(u).value)];
    if !w.startsInTime {
      LeaveKeeps(w, trace, u);
      return Err(TimeoutTotal), trace + [Left(w.hostOf(u).value)], n;
    }
    r, trace, n := FetchHops(w, limits, u, hasPrior, trace, url);
    SucceedsExactly(w, limits, url, hasPrior, n, r);
    if r.Ok? {
      ghost var _ := EvidenceIsLed(w, limits, url, hasPrior, n, r);
    }
  }
}
