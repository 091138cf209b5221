/**
  The two durable budgets under concurrency: the day's render slots, and the bytes of archived
  media that have not expired.
 */
module Budgets {
  import opened Wrappers
  import opened Numbers

  // ----- render slots

  type Day = nat

  datatype SlotAnswer = Consumed(count: nat) | Exhausted | InvalidRunState | Unknown

  /** What the guarded update does to the day's counter when the transaction commits. */
  function SlotTaken(counters: map<Day, nat>, day: Day, max: nat): map<Day, nat> {
    var seeded := if day in counters then counters else counters[day := 0];
    if seeded[day] <= max - 1 then seeded[day := seeded[day] + 1] else seeded
  }

  function Counter(counters: map<Day, nat>, day: Day): nat { if day in counters then counters[day] else 0 }

  class RenderBudgets {
    var counters: map<Day, nat>

    constructor ()
      ensures counters == map[]
    {
      counters := map[];
    }

    /** `consume_render_budget`: one slot when the day's counter is below the maximum, else none. */
    method ConsumeRenderBudget(day: Day, max: nat, io: Io) returns (answer: SlotAnswer)
      modifies this
      ensures max > I32_MAX ==> answer == InvalidRunState && counters == old(counters)
      ensures max <= I32_MAX ==>
                counters == if io.RollsBack? then old(counters) else SlotTaken(old(counters), day, max)
      ensures max <= I32_MAX && !io.Commits? ==> answer == Unknown
      ensures max <= I32_MAX && io.Commits? ==>
                answer == if Counter(old(counters), day) < max then Consumed(Counter(old(counters), day) + 1) else Exhausted
    {
      if max > I32_MAX {
        return InvalidRunState;
      }
      var cap := max - 1;
      var before := counters;
      if day !in counters {
        counters := counters[day := 0];
      }
      if counters[day] <= cap {
        counters := counters[day := counters[day] + 1];
        answer := Consumed(counters[day]);
      } else {
        answer := Exhausted;
      }
      if io.RollsBack? {
        counters := before;
      }
      if !io.Commits? {
        answer := Unknown;
      }
    }
  }

  /** One attempt of any run to take a slot, and how the database answered it. */
  datatype Attempt = Attempt(day: Day, io: Io)

  function CountersAfter(attempts: seq<Attempt>, max: nat): map<Day, nat>
    decreases |attempts|
  {
    if attempts == [] then map[]
    else
      var before := CountersAfter(attempts[..|attempts| - 1], max);
      var last := attempts[|attempts| - 1];
      if last.io.RollsBack? then before else SlotTaken(before, last.day, max)
  }

  predicate TakesSlot(before: map<Day, nat>, a: Attempt, day: Day, max: nat) {
    a.day == day && !a.io.RollsBack? && Counter(before, day) < max
  }

  /** The slots of a day that were taken, whether or not the taker saw the answer. */
  function SlotsTaken(attempts: seq<Attempt>, day: Day, max: nat): nat
    decreases |attempts|
  {
    if attempts == [] then 0
    else
      var before := attempts[..|attempts| - 1];
      SlotsTaken(before, day, max)
      + if TakesSlot(CountersAfter(before, max), attempts[|attempts| - 1], day, max) then 1 else 0
  }

  /** Over every history the stored counter is the number of slots taken, and never above the maximum. */
  lemma {:induction false} SlotsWithinMaximum(attempts: seq<Attempt>, day: Day, max: nat)
    ensures Counter(CountersAfter(attempts, max), day) == SlotsTaken(attempts, day, max) <= max
    decreases |attempts|
  {
    if attempts != [] {
      SlotsWithinMaximum(attempts[..|attempts| - 1], day, max);
    }
  }

  // ----- archived media

  datatype Archive = Archive(run: nat, digest: string, length: nat, expiresAt: int)

  datatype ArtifactRow = ArtifactRow(run: nat, digest: string)

  /** A reservation in progress; every one keeps the timestamp its transaction began with. */
  datatype Reservation =
    | Begun(at: nat)
    | Locked(at: nat)
    | Summed(at: nat, used: nat, length: nat)

  /**
    `files` are the digests whose bytes are in the store, and `selected` the digests each sweep read
    and has yet to remove.
   */
  datatype Media = Media(now: nat, archives: seq<Archive>, artifacts: seq<ArtifactRow>, open: map<nat, Reservation>,
                         files: set<string>, selected: map<nat, set<string>>)

  const NO_MEDIA := Media(0, [], [], map[], {}, map[])

  datatype Step =
    | Tick(seconds: nat)
    | Begin(tx: nat)
    | Lock(tx: nat)
    | Sum(tx: nat, length: nat)
    | Commit(tx: nat, run: nat, digest: string, hours: nat)
    | Abort(tx: nat)
    | StoreFile(digest: string)
    | SelectExpired(sweep: nat, at: nat)
    | PurgeArtifacts(at: nat)
    | PurgeArchives(at: nat)
    | RemoveSelected(sweep: nat)

  /** Bytes of the rows that expire after an instant. */
  function UnexpiredBytes(rows: seq<Archive>, at: int): nat {
    if rows == [] then 0
    else
      var last := rows[|rows| - 1];
      UnexpiredBytes(rows[..|rows| - 1], at) + if last.expiresAt > at then last.length else 0
  }

  predicate HoldsLock(r: Reservation) { r.Locked? || r.Summed? }

  predicate LockFree(open: map<nat, Reservation>) { forall tx :: tx in open ==> !HoldsLock(open[tx]) }

  function Unexpired(rows: seq<Archive>, at: int): seq<Archive> {
    if rows == [] then []
    else
      var last := rows[|rows| - 1];
      Unexpired(rows[..|rows| - 1], at) + if last.expiresAt > at then [last] else []
  }

  predicate ExpiredDigest(rows: seq<Archive>, at: int, digest: string) {
    exists i :: 0 <= i < |rows| && rows[i].digest == digest && rows[i].expiresAt <= at
  }

  /** The purge's first delete: it joins artifacts to expired archives by digest alone. */
  function PurgedArtifacts(artifacts: seq<ArtifactRow>, rows: seq<Archive>, at: int): seq<ArtifactRow> {
    if artifacts == [] then []
    else
      var last := artifacts[|artifacts| - 1];
      PurgedArtifacts(artifacts[..|artifacts| - 1], rows, at) + if ExpiredDigest(rows, at, last.digest) then [] else [last]
  }

  function ExpiredSet(rows: seq<Archive>, at: int): set<string> {
    set i | 0 <= i < |rows| && rows[i].expiresAt <= at :: rows[i].digest
  }

  const SECONDS_PER_HOUR: nat := 3600

  function Apply(s: Media, step: Step, budget: nat): Media {
    match step
    case Tick(seconds) => s.(now := s.now + seconds)
    case Begin(tx) => if tx in s.open then s else s.(open := s.open[tx := Begun(s.now)])
    case Lock(tx) =>
      if tx in s.open && s.open[tx].Begun? && LockFree(s.open) then s.(open := s.open[tx := Locked(s.open[tx].at)]) else s
    case Sum(tx, length) =>
      if tx !in s.open || !s.open[tx].Locked? || length == 0 || length > I64_MAX then s
      else
        var used := UnexpiredBytes(s.archives, s.open[tx].at);
        if used > I64_MAX || SaturatingAdd(used, length, I64_MAX) > budget then s.(open := s.open - {tx})
        else s.(open := s.open[tx := Summed(s.open[tx].at, used, length)])
    case Commit(tx, run, digest, hours) =>
      if tx !in s.open || !s.open[tx].Summed? || hours == 0 then s
      else
        var r := s.open[tx];
        s.(archives := s.archives + [Archive(run, digest, r.length, r.at + hours * SECONDS_PER_HOUR)],
           artifacts := s.artifacts + [ArtifactRow(run, digest)], open := s.open - {tx})
    case Abort(tx) => s.(open := s.open - {tx})
    case StoreFile(digest) => s.(files := s.files + {digest})
    case SelectExpired(w, at) =>
      if at > s.now then s
      else s.(selected := s.selected[w := ExpiredSet(s.archives, at)])
    case RemoveSelected(w) =>
      if w !in s.selected then s else s.(files := s.files - s.selected[w], selected := s.selected - {w})
    case PurgeArtifacts(at) => if at > s.now then s else s.(artifacts := PurgedArtifacts(s.artifacts, s.archives, at))
    case PurgeArchives(at) => if at > s.now then s else s.(archives := Unexpired(s.archives, at))
  }

  function RunFrom(s: Media, steps: seq<Step>, budget: nat): Media
    decreases |steps|
  {
    if steps == [] then s else Apply(RunFrom(s, steps[..|steps| - 1], budget), steps[|steps| - 1], budget)
  }

  function Run(steps: seq<Step>, budget: nat): Media { RunFrom(NO_MEDIA, steps, budget) }

  lemma {:induction false} LaterIsLess(rows: seq<Archive>, at: int, later: int)
    requires at <= later
    ensures UnexpiredBytes(rows, later) <= UnexpiredBytes(rows, at)
  {
    if rows != [] { LaterIsLess(rows[..|rows| - 1], at, later); }
  }

  lemma UnexpiredBytesAppend(rows: seq<Archive>, row: Archive, at: int)
    ensures UnexpiredBytes(rows + [row], at) == UnexpiredBytes(rows, at) + if row.expiresAt > at then row.length else 0
  {
    assert (rows + [row])[..|rows|] == rows;
  }

  /** A purge takes nothing away from a sum at or after its own instant, and adds to none. */
  lemma {:induction false} PurgeBytes(rows: seq<Archive>, purgedAt: int, at: int)
    ensures UnexpiredBytes(Unexpired(rows, purgedAt), at) <= UnexpiredBytes(rows, at)
    ensures purgedAt <= at ==> UnexpiredBytes(Unexpired(rows, purgedAt), at) == UnexpiredBytes(rows, at)
  {
    if rows != [] {
      var init, last := rows[..|rows| - 1], rows[|rows| - 1];
      PurgeBytes(init, purgedAt, at);
      if last.expiresAt > purgedAt {
        UnexpiredBytesAppend(Unexpired(init, purgedAt), last, at);
      } else {
        assert Unexpired(init, purgedAt) + [] == Unexpired(init, purgedAt);
      }
    }
  }

  /** A summed reservation still has room for its own bytes, whatever happened since it summed. */
  predicate ReservationInv(s: Media, r: Reservation, budget: nat) {
    && r.at <= s.now
    && (r.Summed? ==> UnexpiredBytes(s.archives, r.at) <= r.used && r.used + r.length <= budget)
  }

  predicate OneHolder(open: map<nat, Reservation>) {
    forall a, b :: a in open && b in open && HoldsLock(open[a]) && HoldsLock(open[b]) ==> a == b
  }

  predicate Inv(s: Media, budget: nat) {
    && UnexpiredBytes(s.archives, s.now) <= budget
    && OneHolder(s.open)
    && forall tx :: tx in s.open ==> ReservationInv(s, s.open[tx], budget)
  }

  lemma CommitKeeps(s: Media, step: Step, budget: nat)
    requires Inv(s, budget) && step.Commit?
    ensures Inv(Apply(s, step, budget), budget)
  {
    var s' := Apply(s, step, budget);
    if s' != s {
      var r := s.open[step.tx];
      var row := Archive(step.run, step.digest, r.length, r.at + step.hours * SECONDS_PER_HOUR);
      UnexpiredBytesAppend(s.archives, row, s.now);
      LaterIsLess(s.archives, r.at, s.now);
      forall tx | tx in s'.open ensures ReservationInv(s', s'.open[tx], budget) {
        assert !HoldsLock(s.open[tx]);
      }
    }
  }

  lemma PurgeKeeps(s: Media, at: nat, budget: nat)
    requires Inv(s, budget) && at <= s.now
    ensures Inv(Apply(s, PurgeArchives(at), budget), budget)
  {
    PurgeBytes(s.archives, at, s.now);
    var s' := Apply(s, PurgeArchives(at), budget);
    forall tx | tx in s'.open ensures ReservationInv(s', s'.open[tx], budget) {
      PurgeBytes(s.archives, at, s.open[tx].at);
    }
  }

  lemma StepKeeps(s: Media, step: Step, budget: nat)
    requires Inv(s, budget) && budget < I64_MAX
    ensures Inv(Apply(s, step, budget), budget)
  {
    match step
    case Tick(seconds) => LaterIsLess(s.archives, s.now, s.now + seconds);
    case Commit(_, _, _, _) => CommitKeeps(s, step, budget);
    case PurgeArchives(at) => if at <= s.now { PurgeKeeps(s, at, budget); }
    case _ =>
  }

  lemma {:induction false} MediaWithinBudget(steps: seq<Step>, budget: nat)
    requires budget < I64_MAX
    ensures Inv(Run(steps, budget), budget)
    decreases |steps|
  {
    if steps != [] {
      MediaWithinBudget(steps[..|steps| - 1], budget);
      StepKeeps(Run(steps[..|steps| - 1], budget), steps[|steps| - 1], budget);
    }
  }

  ghost predicate NeverOverspent(budget: nat) {
    forall steps :: var s := Run(steps, budget); UnexpiredBytes(s.archives, s.now) <= budget
  }

  lemma RunAppend(steps: seq<Step>, step: Step, budget: nat)
    ensures Run(steps + [step], budget) == Apply(Run(steps, budget), step, budget)
  {
    assert (steps + [step])[..|steps|] == steps;
  }

  /** A reservation that nothing interrupts appends its two rows. */
  lemma RowsReserved(steps: seq<Step>, tx: nat, digest: string, length: nat, budget: nat) returns (after: seq<Step>)
    requires var s := Run(steps, budget);
             && s.open == map[] && 1 <= length <= I64_MAX
             && UnexpiredBytes(s.archives, s.now) <= I64_MAX
             && SaturatingAdd(UnexpiredBytes(s.archives, s.now), length, I64_MAX) <= budget
    ensures var s := Run(steps, budget);
            Run(after, budget) == s.(archives := s.archives + [Archive(tx, digest, length, s.now + 3600)],
                                     artifacts := s.artifacts + [ArtifactRow(tx, digest)])
  {
    var s := Run(steps, budget);
    LockTaken(s, tx, budget);
    RunAppend(steps, Begin(tx), budget);
    RunAppend(steps + [Begin(tx)], Lock(tx), budget);
    var locked := steps + [Begin(tx)] + [Lock(tx)];
    SumCommitted(Run(locked, budget), tx, digest, length, budget);
    RunAppend(locked, Sum(tx, length), budget);
    RunAppend(locked + [Sum(tx, length)], Commit(tx, tx, digest, 1), budget);
    after := locked + [Sum(tx, length)] + [Commit(tx, tx, digest, 1)];
  }

  lemma LockTaken(s: Media, tx: nat, budget: nat)
    requires s.open == map[]
    ensures Apply(Apply(s, Begin(tx), budget), Lock(tx), budget) == s.(open := map[tx := Locked(s.now)])
  {
    assert Apply(s, Begin(tx), budget) == s.(open := map[tx := Begun(s.now)]);
  }

  lemma SumCommitted(s: Media, tx: nat, digest: string, length: nat, budget: nat)
    requires s.open == map[tx := Locked(s.now)] && 1 <= length <= I64_MAX
    requires UnexpiredBytes(s.archives, s.now) <= I64_MAX
    requires SaturatingAdd(UnexpiredBytes(s.archives, s.now), length, I64_MAX) <= budget
    ensures Apply(Apply(s, Sum(tx, length), budget), Commit(tx, tx, digest, 1), budget)
            == s.(archives := s.archives + [Archive(tx, digest, length, s.now + 3600)],
                  artifacts := s.artifacts + [ArtifactRow(tx, digest)], open := map[])
  {
    var summed := Summed(s.now, UnexpiredBytes(s.archives, s.now), length);
    assert Apply(s, Sum(tx, length), budget) == s.(open := map[tx := summed]);
    assert map[tx := summed] - {tx} == map[];
  }

  /** The bytes are stored first. */
  lemma ReservationRuns(steps: seq<Step>, tx: nat, digest: string, length: nat, budget: nat) returns (after: seq<Step>)
    requires var s := Run(steps, budget);
             && s.open == map[] && 1 <= length <= I64_MAX
             && UnexpiredBytes(s.archives, s.now) <= I64_MAX
             && SaturatingAdd(UnexpiredBytes(s.archives, s.now), length, I64_MAX) <= budget
    ensures var s := Run(steps, budget);
            Run(after, budget) == s.(archives := s.archives + [Archive(tx, digest, length, s.now + 3600)],
                                     artifacts := s.artifacts + [ArtifactRow(tx, digest)], files := s.files + {digest})
  {
    RunAppend(steps, StoreFile(digest), budget);
    after := RowsReserved(steps + [StoreFile(digest)], tx, digest, length, budget);
  }

  /** At the largest budget the saturated sum no longer compares above it, and a second row is let in. */
  lemma LargestBudgetOverspends() returns (steps: seq<Step>)
    ensures var s := Run(steps, I64_MAX); UnexpiredBytes(s.archives, s.now) == 2 * I64_MAX
  {
    steps := ReservationRuns([], 0, "digest", I64_MAX, I64_MAX);
    var row := Archive(0, "digest", I64_MAX, SECONDS_PER_HOUR);
    assert Run(steps, I64_MAX).archives == [] + [row];
    UnexpiredBytesAppend([], row, 0);
    var first := Run(steps, I64_MAX).archives;
    steps := ReservationRuns(steps, 1, "digest", I64_MAX, I64_MAX);
    UnexpiredBytesAppend(first, Archive(1, "digest", I64_MAX, SECONDS_PER_HOUR), 0);
  }

  /**
    Unexpired bytes never exceed the budget, on any schedule and at any time, exactly for the
    budgets below the largest 64-bit value; a larger configured budget is clamped to that value.
   */
  lemma NeverOverspentExactly(budget: nat)
    requires budget <= I64_MAX
    ensures NeverOverspent(budget) <==> budget < I64_MAX
  {
    if budget < I64_MAX {
      forall steps ensures var s := Run(steps, budget); UnexpiredBytes(s.archives, s.now) <= budget {
        MediaWithinBudget(steps, budget);
      }
    } else {
      var steps := LargestBudgetOverspends();
      assert UnexpiredBytes(Run(steps, budget).archives, Run(steps, budget).now) > budget;
    }
  }

  // ----- the purge

  lemma {:induction false} PurgedKeepsExactly(artifacts: seq<ArtifactRow>, rows: seq<Archive>, at: int, a: ArtifactRow)
    ensures a in PurgedArtifacts(artifacts, rows, at) <==> a in artifacts && !ExpiredDigest(rows, at, a.digest)
  {
    if artifacts != [] {
      PurgedKeepsExactly(artifacts[..|artifacts| - 1], rows, at, a);
    }
  }

  lemma {:induction false} UnexpiredKeepsExactly(rows: seq<Archive>, at: int, m: Archive)
    ensures m in Unexpired(rows, at) <==> m in rows && m.expiresAt > at
  {
    if rows != [] {
      UnexpiredKeepsExactly(rows[..|rows| - 1], at, m);
    }
  }

  /**
    An archive that has not expired keeps its artifact row through the purge's delete exactly when
    no expired archive has the same digest.
   */
  lemma UnexpiredKeepsArtifactExactly(s: Media, at: nat, m: Archive, budget: nat)
    requires at <= s.now && m in s.archives && m.expiresAt > at && ArtifactRow(m.run, m.digest) in s.artifacts
    ensures ArtifactRow(m.run, m.digest) in Apply(s, PurgeArtifacts(at), budget).artifacts
            <==> !ExpiredDigest(s.archives, at, m.digest)
  {
    PurgedKeepsExactly(s.artifacts, s.archives, at, ArtifactRow(m.run, m.digest));
  }

  /** `delete_expired_media`: a select and two deletes, each a transaction with its own timestamp. */
  datatype Sweep = Sweep(selectedAt: nat, artifactsAt: nat, archivesAt: nat)

  predicate SweepAllowed(s: Media, w: Sweep) { w.selectedAt <= w.artifactsAt <= s.now && w.artifactsAt <= w.archivesAt }

  /** The two deletes, with the clock moving on in between. */
  function Swept(s: Media, w: Sweep, budget: nat): Media
    requires SweepAllowed(s, w)
  {
    var deleted := Apply(s, PurgeArtifacts(w.artifactsAt), budget);
    Apply(Apply(deleted, Tick(w.archivesAt - w.artifactsAt), budget), PurgeArchives(w.archivesAt), budget)
  }

  /** The digests whose bytes the caller removes. */
  function ReturnedDigests(s: Media, w: Sweep): set<string> { ExpiredSet(s.archives, w.selectedAt) }

  /**
    A sweep forgets an archive and leaves its artifact row behind exactly when the archive expired
    between the two deletes with no earlier archive of its digest expired; and it returns the
    digest of an archive it forgets exactly when some archive of that digest had expired when the
    digests were selected.
   */
  lemma SweepOrphansExactly(s: Media, w: Sweep, m: Archive, budget: nat)
    requires SweepAllowed(s, w) && m in s.archives && ArtifactRow(m.run, m.digest) in s.artifacts
    ensures var s' := Swept(s, w, budget);
            (m !in s'.archives && ArtifactRow(m.run, m.digest) in s'.artifacts)
            <==> w.artifactsAt < m.expiresAt <= w.archivesAt && !ExpiredDigest(s.archives, w.artifactsAt, m.digest)
    ensures m !in Swept(s, w, budget).archives <==> m.expiresAt <= w.archivesAt
    ensures m.digest in ReturnedDigests(s, w) <==> ExpiredDigest(s.archives, w.selectedAt, m.digest)
  {
    PurgedKeepsExactly(s.artifacts, s.archives, w.artifactsAt, ArtifactRow(m.run, m.digest));
    UnexpiredKeepsExactly(s.archives, w.archivesAt, m);
    if m.expiresAt <= w.artifactsAt {
      var i :| 0 <= i < |s.archives| && s.archives[i] == m;
      assert s.archives[i].digest == m.digest;
    }
  }

  lemma TickRuns(steps: seq<Step>, seconds: nat, budget: nat) returns (after: seq<Step>)
    ensures Run(after, budget) == Run(steps, budget).(now := Run(steps, budget).now + seconds)
  {
    after := steps + [Tick(seconds)];
    RunAppend(steps, Tick(seconds), budget);
  }

  /** The state after two runs archived the same bytes half an hour apart. */
  lemma SharedDigestHistory(budget: nat) returns (steps: seq<Step>)
    requires budget >= 2
    ensures Run(steps, budget)
            == Media(1800, [Archive(1, "digest", 1, 3600), Archive(2, "digest", 1, 5400)],
                     [ArtifactRow(1, "digest"), ArtifactRow(2, "digest")], map[], {"digest"}, map[])
  {
    steps := ReservationRuns([], 1, "digest", 1, budget);
    var early := Archive(1, "digest", 1, 3600);
    assert {} + {"digest"} == {"digest"} && [] + [early] == [early] && [] + [ArtifactRow(1, "digest")] == [ArtifactRow(1, "digest")];
    steps := TickRuns(steps, 1800, budget);
    assert Run(steps, budget) == Media(1800, [early], [ArtifactRow(1, "digest")], map[], {"digest"}, map[]);
    UnexpiredBytesAppend([], early, 1800);
    steps := ReservationRuns(steps, 2, "digest", 1, budget);
  }

  lemma SharedDigestSweep(s: Media, budget: nat)
    requires s.now == 3601 && s.archives == [Archive(1, "digest", 1, 3600), Archive(2, "digest", 1, 5400)]
    ensures var s' := Apply(Apply(s, PurgeArtifacts(3601), budget), PurgeArchives(3601), budget);
            s'.now == 3601 && Archive(2, "digest", 1, 5400) in s'.archives && ArtifactRow(2, "digest") !in s'.artifacts
  {
    assert s.archives[1] == Archive(2, "digest", 1, 5400);
    assert s.archives[0].digest == "digest" && s.archives[0].expiresAt <= 3601;
    PurgedKeepsExactly(s.artifacts, s.archives, 3601, ArtifactRow(2, "digest"));
    UnexpiredKeepsExactly(s.archives, 3601, Archive(2, "digest", 1, 5400));
  }

  /**
    A history: two runs archive the same bytes half an hour apart, and the sweep after the first
    hour takes the artifact row of the second, whose archive stays.
   */
  lemma SharedDigestLosesArtifact(budget: nat) returns (steps: seq<Step>, late: Archive)
    requires budget >= 2
    ensures var s := Run(steps, budget);
            && late in s.archives && late.expiresAt > s.now
            && ArtifactRow(late.run, late.digest) !in s.artifacts
  {
    var history := SharedDigestHistory(budget);
    late := Archive(2, "digest", 1, 5400);
    steps := TickRuns(history, 1801, budget);
    SharedDigestSweep(Run(steps, budget), budget);
    RunAppend(steps, PurgeArtifacts(3601), budget);
    RunAppend(steps + [PurgeArtifacts(3601)], PurgeArchives(3601), budget);
    steps := steps + [PurgeArtifacts(3601)] + [PurgeArchives(3601)];
  }

  /** A history: an archive expires between the two deletes, and only its artifact row is left. */
  lemma ExpiryBetweenDeletesOrphans(budget: nat) returns (steps: seq<Step>)
    requires budget >= 1
    ensures Run(steps, budget).archives == [] && Run(steps, budget).artifacts == [ArtifactRow(1, "digest")]
  {
    steps := ReservationRuns([], 1, "digest", 1, budget);
    var row, artifact := Archive(1, "digest", 1, 3600), ArtifactRow(1, "digest");
    assert {} + {"digest"} == {"digest"} && [] + [row] == [row] && [] + [artifact] == [artifact];
    steps := TickRuns(steps, 3599, budget);
    assert Run(steps, budget) == Media(3599, [row], [artifact], map[], {"digest"}, map[]);
    RunAppend(steps, PurgeArtifacts(3599), budget);
    SingleRow(row, artifact);
    steps := steps + [PurgeArtifacts(3599)];
    assert Run(steps, budget) == Media(3599, [row], [artifact], map[], {"digest"}, map[]);
    steps := TickRuns(steps, 1, budget);
    RunAppend(steps, PurgeArchives(3600), budget);
    steps := steps + [PurgeArchives(3600)];
  }

  lemma SingleRow(row: Archive, artifact: ArtifactRow)
    requires row.expiresAt == 3600
    ensures PurgedArtifacts([artifact], [row], 3599) == [artifact] && Unexpired([row], 3600) == []
  {
    assert [artifact][..0] == [] && [row][..0] == [];
    assert PurgedArtifacts([], [row], 3599) == [] && Unexpired([], 3600) == [];
    assert !ExpiredDigest([row], 3599, artifact.digest);
  }

  // ----- the stored bytes of a sweep

  /** Between a sweep's select and its removal: anything else, other sweeps' removals excepted. */
  predicate Between(steps: seq<Step>, w: nat) {
    forall i :: 0 <= i < |steps| ==> !steps[i].RemoveSelected? && !(steps[i].SelectExpired? && steps[i].sweep == w)
  }

  predicate StoredIn(steps: seq<Step>, digest: string) { exists i :: 0 <= i < |steps| && steps[i] == StoreFile(digest) }

  lemma {:induction false} BetweenFiles(s: Media, steps: seq<Step>, w: nat, digest: string, budget: nat)
    requires Between(steps, w) && w in s.selected
    ensures var s' := RunFrom(s, steps, budget);
            && w in s'.selected && s'.selected[w] == s.selected[w]
            && (digest in s'.files <==> digest in s.files || StoredIn(steps, digest))
    decreases |steps|
  {
    if steps != [] {
      var init, last := steps[..|steps| - 1], steps[|steps| - 1];
      BetweenFiles(s, init, w, digest, budget);
      if StoredIn(init, digest) {
        var i :| 0 <= i < |init| && init[i] == StoreFile(digest);
        assert steps[i] == StoreFile(digest);
      }
      if StoredIn(steps, digest) && last != StoreFile(digest) {
        var i :| 0 <= i < |steps| && steps[i] == StoreFile(digest);
        assert init[i] == StoreFile(digest);
      }
      assert last == StoreFile(digest) ==> StoredIn(steps, digest);
    }
  }

  /** A whole sweep with any reservations, stores, ticks and deletes between its select and its removal. */
  function SweepSteps(w: nat, at: nat, between: seq<Step>): seq<Step> {
    [SelectExpired(w, at)] + between + [RemoveSelected(w)]
  }

  lemma {:induction false} RunFromConcat(s: Media, a: seq<Step>, b: seq<Step>, budget: nat)
    ensures RunFrom(s, a + b, budget) == RunFrom(RunFrom(s, a, budget), b, budget)
    decreases |b|
  {
    if b == [] {
      assert a + b == a;
    } else {
      assert (a + b)[..|a + b| - 1] == a + b[..|b| - 1];
      RunFromConcat(s, a, b[..|b| - 1], budget);
    }
  }

  lemma SelectedDigests(s: Media, w: nat, at: nat, digest: string, budget: nat)
    requires at <= s.now
    ensures var s' := Apply(s, SelectExpired(w, at), budget);
            w in s'.selected && s'.files == s.files && (digest in s'.selected[w] <==> ExpiredDigest(s.archives, at, digest))
  {
  }

  /** The bytes of a digest are in the store after a sweep exactly when they were stored and it was not selected. */
  lemma SweptBytesExactly(s: Media, w: nat, at: nat, between: seq<Step>, digest: string, budget: nat)
    requires at <= s.now && Between(between, w)
    ensures digest in RunFrom(s, SweepSteps(w, at, between), budget).files
            <==> (digest in s.files || StoredIn(between, digest)) && !ExpiredDigest(s.archives, at, digest)
  {
    var selected := Apply(s, SelectExpired(w, at), budget);
    SelectedDigests(s, w, at, digest, budget);
    BetweenFiles(selected, between, w, digest, budget);
    RunFromConcat(s, [SelectExpired(w, at)], between, budget);
    assert [SelectExpired(w, at)][..0] == [];
    assert SweepSteps(w, at, between)[..|between| + 1] == [SelectExpired(w, at)] + between;
  }

  /**
    For every sweep and everything interleaved with it, reservations of the same digest included:
    an archive that is unexpired at its end, and whose bytes had been stored, has lost them exactly
    when an archive of its digest had expired at the select; and bytes that no archive names stay
    exactly when none had.
   */
  lemma SweepLosesBytesExactly(s: Media, w: nat, at: nat, between: seq<Step>, digest: string, budget: nat)
    requires at <= s.now && Between(between, w) && (digest in s.files || StoredIn(between, digest))
    ensures var s' := RunFrom(s, SweepSteps(w, at, between), budget);
            && (forall m :: m in s'.archives && m.digest == digest && m.expiresAt > s'.now ==>
                  (digest !in s'.files <==> ExpiredDigest(s.archives, at, digest)))
            && ((forall m :: m in s'.archives ==> m.digest != digest) ==>
                  (digest in s'.files <==> !ExpiredDigest(s.archives, at, digest)))
  {
    SweptBytesExactly(s, w, at, between, digest, budget);
  }

  /** A history: the same bytes are archived again between a sweep's select and its removal, and are removed. */
  lemma ReservedDuringSweepLosesBytes(budget: nat) returns (steps: seq<Step>, m: Archive)
    requires budget >= 2
    ensures var s := Run(steps, budget); m in s.archives && m.expiresAt > s.now && m.digest !in s.files
  {
    steps := SelectedHistory(budget);
    var early := Archive(1, "digest", 1, 3600);
    UnexpiredBytesAppend([], early, 3600);
    assert [] + [early] == [early];
    steps := ReservationRuns(steps, 2, "digest", 1, budget);
    m := Archive(2, "digest", 1, 7200);
    var s := Run(steps, budget);
    assert s.archives[1] == m && s.selected == map[0 := {"digest"}];
    RunAppend(steps, RemoveSelected(0), budget);
    steps := steps + [RemoveSelected(0)];
  }

  /** One archive has expired, and a sweep has read its digest. */
  lemma SelectedHistory(budget: nat) returns (steps: seq<Step>)
    requires budget >= 1
    ensures Run(steps, budget) == Media(3600, [Archive(1, "digest", 1, 3600)], [ArtifactRow(1, "digest")], map[], {"digest"},
                                        map[0 := {"digest"}])
  {
    steps := ReservationRuns([], 1, "digest", 1, budget);
    var early, artifact := Archive(1, "digest", 1, 3600), ArtifactRow(1, "digest");
    assert {} + {"digest"} == {"digest"} && [] + [early] == [early] && [] + [artifact] == [artifact];
    steps := TickRuns(steps, 3600, budget);
    assert Run(steps, budget) == Media(3600, [early], [artifact], map[], {"digest"}, map[]);
    RunAppend(steps, SelectExpired(0, 3600), budget);
    assert [early][0].digest == "digest";
    assert ExpiredSet([early], 3600) == {"digest"};
    steps := steps + [SelectExpired(0, 3600)];
  }

  /** A history: an archive expires between a sweep's select and its delete, and its bytes are left with no archive. */
  lemma ExpiryDuringSweepLeavesBytes(budget: nat) returns (steps: seq<Step>)
    requires budget >= 1
    ensures Run(steps, budget).archives == [] && "digest" in Run(steps, budget).files && Run(steps, budget).selected == map[]
  {
    steps := ReservationRuns([], 1, "digest", 1, budget);
    var row, artifact := Archive(1, "digest", 1, 3600), ArtifactRow(1, "digest");
    assert {} + {"digest"} == {"digest"} && [] + [row] == [row] && [] + [artifact] == [artifact];
    steps := TickRuns(steps, 3599, budget);
    assert Run(steps, budget) == Media(3599, [row], [artifact], map[], {"digest"}, map[]);
    RunAppend(steps, SelectExpired(0, 3599), budget);
    assert ExpiredSet([row], 3599) == {};
    steps := steps + [SelectExpired(0, 3599)];
    assert Run(steps, budget) == Media(3599, [row], [artifact], map[], {"digest"}, map[0 := {}]);
    steps := TickRuns(steps, 1, budget);
    RunAppend(steps, PurgeArchives(3600), budget);
    RunAppend(steps + [PurgeArchives(3600)], RemoveSelected(0), budget);
    DeleteAndRemove(Run(steps, budget), row, budget);
    steps := steps + [PurgeArchives(3600)] + [RemoveSelected(0)];
  }

  lemma DeleteAndRemove(s: Media, row: Archive, budget: nat)
    requires s.now == 3600 && s.archives == [row] && row.expiresAt == 3600 && s.selected == map[0 := {}]
    ensures var s' := Apply(Apply(s, PurgeArchives(3600), budget), RemoveSelected(0), budget);
            s'.archives == [] && s'.files == s.files && s'.selected == map[]
  {
    SingleRow(row, ArtifactRow(1, "digest"));
    assert s.selected - {0} == map[];
  }
}
