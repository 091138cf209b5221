/**
  The safe fetcher's admission: global and per-host permits with paced start reservations.
 */
module FetchAdmission {
  import opened Wrappers

  type Host = string

  function HostCount(perHost: map<Host, nat>, h: Host): nat { if h in perHost then perHost[h] else 0 }

  ghost function SumOf(perHost: map<Host, nat>): nat
    decreases |perHost|
  {
    if perHost == map[] then 0
    else
      var h :| h in perHost;
      perHost[h] + SumOf(perHost - {h})
  }

  /** The counters agree with the guards that are alive, one multiset element for each guard. */
  ghost predicate Counts(perHost: map<Host, nat>, guards: multiset<Host>) {
    && (forall h :: HostCount(perHost, h) == guards[h])
    && (forall h :: h in perHost ==> perHost[h] > 0)
  }

  lemma {:induction false} CountsSum(perHost: map<Host, nat>, guards: multiset<Host>)
    requires Counts(perHost, guards)
    ensures SumOf(perHost) == |guards|
    decreases |perHost|
  {
    if perHost == map[] {
      assert guards == multiset{} by {
        forall h ensures guards[h] == 0 { assert HostCount(perHost, h) == guards[h]; }
      }
    } else {
      var h :| h in perHost && SumOf(perHost) == perHost[h] + SumOf(perHost - {h});
      var rest := guards[h := 0];
      forall h' ensures HostCount(perHost - {h}, h') == rest[h'] {
        assert HostCount(perHost, h') == guards[h'];
      }
      CountsSum(perHost - {h}, rest);
      assert HostCount(perHost, h) == guards[h];
    }
  }

  /** Successive reserved starts are at least `interval` apart. */
  predicate Paced(starts: seq<nat>, interval: nat) {
    forall i :: 0 < i < |starts| ==> starts[i - 1] + interval <= starts[i]
  }

  /** Any window between two reservations is long enough for every reservation inside it. */
  lemma {:induction false} PacedWindow(starts: seq<nat>, interval: nat, i: nat, j: nat)
    requires Paced(starts, interval) && i <= j < |starts|
    ensures starts[i] + (j - i) * interval <= starts[j]
    decreases j - i
  {
    if i < j {
      PacedWindow(starts, interval, i, j - 1);
      assert (j - i) * interval == (j - 1 - i) * interval + interval;
    }
  }

  /** `saturating_sub(1)` */
  function Less(n: nat): nat { if n > 0 then n - 1 else 0 }

  function Starts(reserved: map<Host, seq<nat>>, h: Host): seq<nat> { if h in reserved then reserved[h] else [] }

  /** The last start one host was given, and the slot remembered for its next one. */
  predicate HostPaced(starts: seq<nat>, next: Option<nat>, interval: nat, clock: nat) {
    && starts != [] && Paced(starts, interval)
    && (if interval > 0 then next == Some(starts[|starts| - 1] + interval) else starts[|starts| - 1] <= clock)
  }

  /** The earliest start that keeps a host's distance: now, or one interval after its last start. */
  function Earliest(starts: seq<nat>, interval: nat, now: nat): nat {
    if starts == [] || starts[|starts| - 1] + interval < now then now else starts[|starts| - 1] + interval
  }

  function Next(nextAllowed: map<Host, nat>, h: Host): Option<nat> {
    if h in nextAllowed then Some(nextAllowed[h]) else None
  }

  ghost predicate Pacing(reserved: map<Host, seq<nat>>, nextAllowed: map<Host, nat>, interval: nat, clock: nat) {
    && (forall h :: h in reserved ==> HostPaced(reserved[h], Next(nextAllowed, h), interval, clock))
    && (forall h :: h in nextAllowed ==> h in reserved)
  }

  /** The start a host is given at `now`: its remembered slot, or now if that has passed. */
  function StartAt(next: Option<nat>, interval: nat, now: nat): nat {
    if interval == 0 || next.None? || next.value < now then now else next.value
  }

  lemma HostReserved(starts: seq<nat>, next: Option<nat>, interval: nat, clock: nat, now: nat)
    requires clock <= now && (starts != [] ==> HostPaced(starts, next, interval, clock))
    requires starts == [] ==> next.None?
    ensures var at := StartAt(next, interval, now);
            HostPaced(starts + [at], if interval > 0 then Some(at + interval) else next, interval, now)
  {
  }

  lemma HostKept(starts: seq<nat>, next: Option<nat>, interval: nat, clock: nat, now: nat)
    requires clock <= now && HostPaced(starts, next, interval, clock)
    ensures HostPaced(starts, next, interval, now)
  {
  }

  /** The hosts' starts and slots after `host` reserved one. */
  function ReservedAfter(reserved: map<Host, seq<nat>>, host: Host, at: nat): map<Host, seq<nat>> {
    reserved[host := Starts(reserved, host) + [at]]
  }

  function SlotsAfter(nextAllowed: map<Host, nat>, interval: nat, host: Host, at: nat): map<Host, nat> {
    if interval > 0 then nextAllowed[host := at + interval] else nextAllowed
  }

  lemma HostPacedAfter(reserved: map<Host, seq<nat>>, nextAllowed: map<Host, nat>, interval: nat, clock: nat, host: Host, now: nat, h: Host)
    requires Pacing(reserved, nextAllowed, interval, clock) && clock <= now && (h == host || h in reserved)
    ensures var at := StartAt(Next(nextAllowed, host), interval, now);
            HostPaced(ReservedAfter(reserved, host, at)[h], Next(SlotsAfter(nextAllowed, interval, host, at), h), interval, now)
  {
    if h == host {
      HostReserved(Starts(reserved, host), Next(nextAllowed, host), interval, clock, now);
    } else {
      HostKept(reserved[h], Next(nextAllowed, h), interval, clock, now);
    }
  }

  lemma PacingReserved(reserved: map<Host, seq<nat>>, nextAllowed: map<Host, nat>, interval: nat, clock: nat,
                       host: Host, now: nat)
    requires Pacing(reserved, nextAllowed, interval, clock) && clock <= now
    ensures var at := StartAt(Next(nextAllowed, host), interval, now);
            Pacing(ReservedAfter(reserved, host, at), SlotsAfter(nextAllowed, interval, host, at), interval, now)
  {
    var at := StartAt(Next(nextAllowed, host), interval, now);
    var reserved', nextAllowed' := ReservedAfter(reserved, host, at), SlotsAfter(nextAllowed, interval, host, at);
    forall h | h in reserved' ensures HostPaced(reserved'[h], Next(nextAllowed', h), interval, now) {
      HostPacedAfter(reserved, nextAllowed, interval, clock, host, now, h);
    }
  }

  lemma GuardAdded(perHost: map<Host, nat>, guards: multiset<Host>, host: Host)
    requires Counts(perHost, guards)
    ensures Counts(perHost[host := HostCount(perHost, host) + 1], guards + multiset{host})
  {
    forall h ensures HostCount(perHost[host := HostCount(perHost, host) + 1], h) == (guards + multiset{host})[h] {
      assert HostCount(perHost, h) == guards[h];
    }
  }

  function WithoutGuard(perHost: map<Host, nat>, host: Host): map<Host, nat> {
    if host !in perHost then perHost
    else if Less(perHost[host]) == 0 then perHost - {host}
    else perHost[host := Less(perHost[host])]
  }

  lemma GuardRemoved(perHost: map<Host, nat>, guards: multiset<Host>, host: Host)
    requires Counts(perHost, guards) && host in guards
    ensures Counts(WithoutGuard(perHost, host), guards - multiset{host})
  {
    assert HostCount(perHost, host) == guards[host];
    forall h ensures HostCount(WithoutGuard(perHost, host), h) == (guards - multiset{host})[h] {
      assert HostCount(perHost, h) == guards[h];
    }
  }

  datatype Refusal = Overloaded

  class Admission {
    const globalLimit: nat
    const perHostLimit: nat
    const minInterval: nat
    var global: nat
    var perHost: map<Host, nat>
    var nextAllowed: map<Host, nat>
    ghost var guards: multiset<Host>
    ghost var reserved: map<Host, seq<nat>>
    ghost var clock: nat

    ghost predicate Valid()
      reads this
    {
      && global == |guards| <= globalLimit
      && Counts(perHost, guards)
      && (forall h :: h in perHost ==> perHost[h] <= perHostLimit)
      && Pacing(reserved, nextAllowed, minInterval, clock)
    }

    constructor (globalLimit: nat, perHostLimit: nat, minInterval: nat)
      ensures Valid() && guards == multiset{} && reserved == map[] && clock == 0
      ensures this.globalLimit == globalLimit && this.perHostLimit == perHostLimit && this.minInterval == minInterval
    {
      this.globalLimit, this.perHostLimit, this.minInterval := globalLimit, perHostLimit, minInterval;
      global, perHost, nextAllowed := 0, map[], map[];
      guards, reserved, clock := multiset{}, map[], 0;
    }

    /** Takes the host's next paced slot, before any permit is counted. */
    method Reserve(host: Host, now: nat) returns (start: nat)
      requires Pacing(reserved, nextAllowed, minInterval, clock) && clock <= now
      modifies this`nextAllowed, this`reserved, this`clock
      ensures Pacing(reserved, nextAllowed, minInterval, clock) && clock == now
      ensures start == Earliest(Starts(old(reserved), host), minInterval, now)
      ensures reserved == old(reserved)[host := Starts(old(reserved), host) + [start]]
    {
      PacingReserved(reserved, nextAllowed, minInterval, clock, host, now);
      start := now;
      if minInterval > 0 {
        var slot := if host in nextAllowed then nextAllowed[host] else now;
        start := if slot < now then now else slot;
        nextAllowed := nextAllowed[host := start + minInterval];
      }
      reserved, clock := reserved[host := Starts(reserved, host) + [start]], now;
    }

    /** `try_enter`: admitted exactly when both limits have room; the reservation advances either way. */
    method TryEnter(host: Host, now: nat) returns (r: Result<nat, Refusal>, ghost startAt: nat)
      requires Valid() && clock <= now
      modifies this
      ensures Valid() && clock == now && startAt == Earliest(Starts(old(reserved), host), minInterval, now)
      ensures r.Ok? <==> old(|guards|) < globalLimit && old(guards[host]) < perHostLimit
      ensures r.Ok? ==> r.value == startAt
      ensures guards == if r.Ok? then old(guards) + multiset{host} else old(guards)
      ensures reserved == old(reserved)[host := Starts(old(reserved), host) + [startAt]]
    {
      GuardAdded(perHost, guards, host);
      assert HostCount(perHost, host) == guards[host];
      var start := Reserve(host, now);
      startAt := start;
      var hostCount := HostCount(perHost, host);
      if global >= globalLimit || hostCount >= perHostLimit {
        return Err(Overloaded), startAt;
      }
      global := global + 1;
      perHost := perHost[host := hostCount + 1];
      guards := guards + multiset{host};
      r := Ok(start);
    }

    /** Dropping a guard gives its permits back and leaves no zero entry behind. */
    method DropGuard(host: Host)
      requires Valid() && host in guards
      modifies this`global, this`perHost, this`guards
      ensures Valid() && guards == old(guards) - multiset{host}
    {
      GuardRemoved(perHost, guards, host);
      global := Less(global);
      perHost := WithoutGuard(perHost, host);
      guards := guards - multiset{host};
    }

    /** After any history, refused calls included: reservations of one host are spaced over every window. */
    lemma ReservationsApart(host: Host, i: nat, j: nat)
      requires Valid() && host in reserved && i <= j < |reserved[host]|
      ensures reserved[host][i] + (j - i) * minInterval <= reserved[host][j]
    {
      PacedWindow(reserved[host], minInterval, i, j);
    }

    /** After any history: the global counter is the sum of the host counters and the number of live guards. */
    lemma CountersAgree()
      requires Valid()
      ensures global == SumOf(perHost) == |guards|
    {
      CountsSum(perHost, guards);
    }
  }
}
