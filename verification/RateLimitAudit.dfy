/** The throttle in front of the `rate_limit_exceeded` audit lines: a dictionary from client address
    to the time of its last audited denial, capped by evicting in place. */
module RateLimitAudit {
  import opened Options

  const CAP: nat := 1024

  datatype Entry = Entry(ip: string, at: real)

  /** A dictionary in insertion order. */
  type Table = seq<Entry>

  datatype Call = Call(ip: string, now: real)

  ghost predicate Distinct(t: Table) {
    forall i, j :: 0 <= i < j < |t| ==> t[i].ip != t[j].ip
  }

  function Find(t: Table, ip: string): Option<real> {
    if t == [] then None
    else if t[0].ip == ip then Some(t[0].at)
    else Find(t[1..], ip)
  }

  /** Assigning to a key keeps its place when it is present and appends it otherwise. */
  function Put(t: Table, ip: string, now: real): Table {
    if t == [] then [Entry(ip, now)]
    else if t[0].ip == ip then [Entry(ip, now)] + t[1..]
    else [t[0]] + Put(t[1..], ip, now)
  }

  function DropBefore(t: Table, cutoff: real): Table {
    if t == [] then []
    else
      var n := |t| - 1;
      DropBefore(t[..n], cutoff) + if t[n].at < cutoff then [] else [t[n]]
  }

  function Without(t: Table, k: nat): Table
    requires k < |t|
  {
    t[..k] + t[k + 1..]
  }

  /** The first of the entries with the smallest time. */
  function Oldest(t: Table): (k: nat)
    requires t != []
    ensures k < |t|
    ensures forall i :: 0 <= i < |t| ==> t[k].at <= t[i].at
    ensures forall i :: 0 <= i < k ==> t[k].at < t[i].at
  {
    if |t| == 1 then 0
    else
      var n := |t| - 1;
      var k := Oldest(t[..n]);
      if t[n].at < t[k].at then n else k
  }

  /** Deleting the first `count` keys of the stable sort by time. */
  function DropOldest(t: Table, count: nat): Table
    requires count <= |t|
    decreases count
  {
    if count == 0 then t else DropOldest(Without(t, Oldest(t)), count - 1)
  }

  function Trimmed(t: Table): Table {
    if |t| > CAP then DropOldest(t, |t| - CAP) else t
  }

  function Capped(t: Table, now: real, window: real): Table {
    if |t| > CAP then Trimmed(DropBefore(t, now - window)) else t
  }

  predicate Muted(t: Table, c: Call, window: real) {
    var last := Find(t, c.ip);
    last.Some? && c.now - last.value < window
  }

  function After(t: Table, c: Call, window: real): Table {
    if Muted(t, c, window) then t else Capped(Put(t, c.ip, c.now), c.now, window)
  }

  method KeepFrom(t: Table, cutoff: real) returns (kept: Table)
    ensures kept == DropBefore(t, cutoff)
  {
    kept := [];
    for i := 0 to |t|
      invariant kept == DropBefore(t[..i], cutoff)
    {
      assert t[..i + 1][..i] == t[..i];
      if t[i].at >= cutoff {
        kept := kept + [t[i]];
      }
    }
    assert t[..|t|] == t;
  }

  method FindOldest(t: Table) returns (k: nat)
    requires t != []
    ensures k == Oldest(t)
  {
    k := 0;
    for i := 1 to |t|
      invariant k < i && k == Oldest(t[..i])
    {
      assert t[..i + 1][..i] == t[..i];
      if t[i].at < t[k].at {
        k := i;
      }
    }
    assert t[..|t|] == t;
  }

  method EvictOldest(t: Table, count: nat) returns (kept: Table)
    requires count <= |t|
    ensures kept == DropOldest(t, count)
  {
    kept := t;
    for done := 0 to count
      invariant |kept| == |t| - done
      invariant DropOldest(kept, count - done) == DropOldest(t, count)
    {
      var k := FindOldest(kept);
      kept := Without(kept, k);
    }
  }

  method Trim(t: Table) returns (kept: Table)
    ensures kept == Trimmed(t)
  {
    kept := t;
    if |kept| > CAP {
      kept := EvictOldest(kept, |kept| - CAP);
    }
  }

  method Cap(t: Table, now: real, window: real) returns (kept: Table)
    ensures kept == Capped(t, now, window)
  {
    kept := t;
    if |kept| > CAP {
      kept := KeepFrom(kept, now - window);
      kept := Trim(kept);
    }
  }

  /** The module-level dictionary and the function that consults and updates it. */
  class Throttle {
    var last: Table
    const window: real

    constructor (window: real)
      ensures last == [] && this.window == window
    {
      last := [];
      this.window := window;
    }

    method ShouldAudit(ip: string, now: real) returns (audit: bool)
      modifies this
      ensures audit == !Muted(old(last), Call(ip, now), window)
      ensures last == After(old(last), Call(ip, now), window)
    {
      var seen := Find(last, ip);
      if seen.Some? && now - seen.value < window {
        return false;
      }
      last := Put(last, ip, now);
      last := Cap(last, now, window);
      audit := true;
    }
  }

  // ---------------------------------------------------------------------------------------------
  // Runs: a sequence of denied requests on a clock that does not go back
  // ---------------------------------------------------------------------------------------------

  ghost predicate Monotone(calls: seq<Call>) {
    forall i, j :: 0 <= i <= j < |calls| ==> calls[i].now <= calls[j].now
  }

  ghost function TableAfter(calls: seq<Call>, window: real): Table {
    if calls == [] then []
    else
      var n := |calls| - 1;
      After(TableAfter(calls[..n], window), calls[n], window)
  }

  /** The answer to the i-th call of the run. */
  ghost predicate Audited(calls: seq<Call>, window: real, i: nat)
    requires i < |calls|
  {
    !Muted(TableAfter(calls[..i], window), calls[i], window)
  }

  // ---------------------------------------------------------------------------------------------
  // The dictionary operations
  // ---------------------------------------------------------------------------------------------

  lemma {:induction false} FindMember(t: Table, ip: string)
    requires Distinct(t)
    ensures Find(t, ip).None? <==> forall e :: e in t ==> e.ip != ip
    ensures forall e :: e in t && e.ip == ip ==> Find(t, ip) == Some(e.at)
    ensures Find(t, ip).Some? ==> Entry(ip, Find(t, ip).value) in t
  {
    if t != [] {
      FindMember(t[1..], ip);
      assert forall e :: e in t <==> e == t[0] || e in t[1..];
      assert forall j :: 1 <= j < |t| ==> t[j] == t[1..][j - 1];
    }
  }

  lemma {:induction false} PutFront(first: Entry, rest: Table, v: Table, ip: string, now: real)
    requires Distinct([first] + rest) && first.ip != ip
    requires Distinct(v) && forall e :: e in v ==> e == Entry(ip, now) || (e in rest && e.ip != ip)
    ensures Distinct([first] + v)
  {
    var t, u := [first] + rest, [first] + v;
    forall i, j | 0 <= i < j < |u|
      ensures u[i].ip != u[j].ip
    {
      assert u[j] == v[j - 1] && v[j - 1] in v;
      if i > 0 {
        assert u[i] == v[i - 1];
      } else if u[j] in rest {
        var k :| 0 <= k < |rest| && rest[k] == u[j];
        assert t[k + 1] == u[j] && t[0] == first;
      }
    }
  }

  lemma {:induction false} PutMember(t: Table, ip: string, now: real)
    requires Distinct(t)
    ensures var u := Put(t, ip, now);
            && Distinct(u)
            && Entry(ip, now) in u
            && (forall e :: e in t && e.ip != ip ==> e in u)
            && (forall e :: e in u ==> e == Entry(ip, now) || (e in t && e.ip != ip))
            && |u| == if Find(t, ip).Some? then |t| else |t| + 1
  {
    if t != [] {
      assert forall e :: e in t <==> e == t[0] || e in t[1..];
      assert forall j :: 1 <= j < |t| ==> t[j] == t[1..][j - 1];
      if t[0].ip != ip {
        PutMember(t[1..], ip, now);
        assert [t[0]] + t[1..] == t;
        PutFront(t[0], t[1..], Put(t[1..], ip, now), ip, now);
      }
    }
  }

  lemma {:induction false} DropBeforeMember(t: Table, cutoff: real)
    requires Distinct(t)
    ensures var u := DropBefore(t, cutoff);
            && |u| <= |t|
            && Distinct(u)
            && (forall e :: e in u <==> e in t && e.at >= cutoff)
  {
    if t != [] {
      var n := |t| - 1;
      DropBeforeMember(t[..n], cutoff);
      var v := DropBefore(t[..n], cutoff);
      assert forall i :: 0 <= i < |v| ==> v[i] in v;
      assert forall e :: e in t <==> e == t[n] || e in t[..n];
    }
  }

  /** What a call that overflows the dictionary evicts, and what is then left of it. */
  ghost predicate EvictedOldest(t: Table, u: Table, e: Entry) {
    && e in t
    && |u| == CAP
    && Distinct(u)
    && (forall x :: x in u <==> x in t && x != e)
    && (forall x :: x in u ==> x.at >= e.at && x.ip != e.ip)
  }

  lemma {:induction false} WithoutMember(t: Table, k: nat)
    requires Distinct(t) && k < |t|
    ensures var u := Without(t, k); Distinct(u) && forall x :: x in u <==> x in t && x != t[k]
  {
    var u := Without(t, k);
    forall x
      ensures x in u <==> x in t && x != t[k]
    {
      if x in t && x != t[k] {
        var i :| 0 <= i < |t| && t[i] == x;
        assert x == if i < k then u[i] else u[i - 1];
      }
      if x in u {
        var i :| 0 <= i < |u| && u[i] == x;
        assert x == t[if i < k then i else i + 1];
      }
    }
  }

  lemma {:induction false} DropOne(t: Table)
    requires Distinct(t) && |t| == CAP + 1
    ensures EvictedOldest(t, DropOldest(t, 1), t[Oldest(t)])
  {
    var k := Oldest(t);
    var u := Without(t, k);
    WithoutMember(t, k);
    assert DropOldest(t, 1) == DropOldest(u, 0) == u;
    forall x | x in u
      ensures x.at >= t[k].at && x.ip != t[k].ip
    {
      var i :| 0 <= i < |t| && t[i] == x;
      assert i != k;
    }
  }

  /** What capping makes of the dictionary: either nothing that is still in its window is lost, or
      exactly one entry is, the oldest, and then `CAP` younger ones are left. */
  ghost predicate LosesLittle(put: Table, u: Table, now: real, window: real) {
    && Distinct(u) && |u| <= CAP
    && (forall e :: e in u ==> e in put)
    && (forall e :: e in put && e.at >= now - window && e !in u ==> EvictedOldest(DropBefore(put, now - window), u, e))
  }

  lemma {:induction false} TrimmedEffect(put: Table, young: Table, now: real, window: real)
    requires Distinct(put) && |young| <= CAP + 1 && young == DropBefore(put, now - window)
    ensures LosesLittle(put, Trimmed(young), now, window)
  {
    DropBeforeMember(put, now - window);
    if |young| > CAP {
      DropOne(young);
    }
  }

  lemma {:induction false} CappedEffect(put: Table, now: real, window: real)
    requires Distinct(put) && |put| <= CAP + 1
    ensures LosesLittle(put, Capped(put, now, window), now, window)
  {
    if |put| > CAP {
      DropBeforeMember(put, now - window);
      TrimmedEffect(put, DropBefore(put, now - window), now, window);
    }
  }

  lemma {:induction false} CallEffect(t: Table, c: Call, window: real)
    requires Distinct(t) && |t| <= CAP && !Muted(t, c, window)
    ensures LosesLittle(Put(t, c.ip, c.now), After(t, c, window), c.now, window)
  {
    PutMember(t, c.ip, c.now);
    CappedEffect(Put(t, c.ip, c.now), c.now, window);
  }

  // ---------------------------------------------------------------------------------------------
  // The invariant of the dictionary over a run
  // ---------------------------------------------------------------------------------------------

  ghost predicate CameFrom(calls: seq<Call>, window: real, e: Entry, m: nat)
    requires m < |calls|
  {
    calls[m] == Call(e.ip, e.at) && Audited(calls, window, m)
  }

  ghost predicate Provenance(calls: seq<Call>, window: real, t: Table) {
    forall e :: e in t ==> exists m: nat :: m < |calls| && CameFrom(calls, window, e, m)
  }

  lemma {:induction false} ExtendRun(calls: seq<Call>, window: real, n: nat, m: nat)
    requires m < n <= |calls|
    ensures Audited(calls[..n], window, m) == Audited(calls, window, m)
  {
    assert calls[..n][..m] == calls[..m];
  }

  /** The dictionary never exceeds its cap after a call, and every entry stems from an audited call. */
  lemma {:induction false} TableInvariant(calls: seq<Call>, window: real)
    ensures Distinct(TableAfter(calls, window)) && |TableAfter(calls, window)| <= 1024
    ensures Provenance(calls, window, TableAfter(calls, window))
  {
    if calls != [] {
      var n := |calls| - 1;
      var t := TableAfter(calls[..n], window);
      TableInvariant(calls[..n], window);
      forall e | e in t
        ensures exists m: nat :: m < |calls| && CameFrom(calls, window, e, m)
      {
        var m: nat :| m < n && CameFrom(calls[..n], window, e, m);
        ExtendRun(calls, window, n, m);
        assert CameFrom(calls, window, e, m);
      }
      if !Muted(t, calls[n], window) {
        assert CameFrom(calls, window, Entry(calls[n].ip, calls[n].now), n);
        CallEffect(t, calls[n], window);
        PutMember(t, calls[n].ip, calls[n].now);
      }
    }
  }

  // ---------------------------------------------------------------------------------------------
  // Pigeonhole
  // ---------------------------------------------------------------------------------------------

  /** The addresses other than `ip` audited by the first `n` calls at a time not before `since`. */
  ghost function OthersAudited(calls: seq<Call>, window: real, ip: string, since: real, n: nat): set<string>
    requires n <= |calls|
  {
    set m: nat | m < n && Audited(calls, window, m) && calls[m].ip != ip && calls[m].now >= since :: calls[m].ip
  }

  lemma {:induction false} AddressCount(t: Table)
    requires Distinct(t)
    ensures |set e | e in t :: e.ip| == |t|
  {
    var ips := set e | e in t :: e.ip;
    if t == [] {
      assert ips == {};
    } else {
      var n := |t| - 1;
      AddressCount(t[..n]);
      var before := set e | e in t[..n] :: e.ip;
      assert ips == before + {t[n].ip} by {
        assert t == t[..n] + [t[n]];
      }
      assert t[n].ip !in before;
    }
  }

  /** Losing an entry that is still in its window takes `CAP` other audited addresses. */
  lemma {:induction false} EvictionCounts(calls: seq<Call>, window: real, k: nat, e: Entry)
    requires k < |calls| && Audited(calls, window, k)
    requires e in Put(TableAfter(calls[..k], window), calls[k].ip, calls[k].now)
    requires calls[k].now - e.at <= window
    requires e !in TableAfter(calls[..k + 1], window)
    ensures |OthersAudited(calls, window, e.ip, e.at, k + 1)| >= CAP
  {
    assert calls[..k + 1][..k] == calls[..k];
    TableInvariant(calls[..k], window);
    TableInvariant(calls[..k + 1], window);
    var t, u := TableAfter(calls[..k], window), TableAfter(calls[..k + 1], window);
    CallEffect(t, calls[k], window);
    var left := set x | x in u :: x.ip;
    AddressCount(u);
    var others := OthersAudited(calls, window, e.ip, e.at, k + 1);
    forall ip | ip in left
      ensures ip in others
    {
      var x :| x in u && x.ip == ip;
      var m: nat :| m < k + 1 && CameFrom(calls[..k + 1], window, x, m);
      ExtendRun(calls, window, k + 1, m);
    }
    assert left <= others;
    Subset(left, others);
  }

  lemma {:induction false} Subset<T>(a: set<T>, b: set<T>)
    requires a <= b
    ensures |a| <= |b|
    decreases |a|
  {
    if a != {} {
      var x :| x in a;
      Subset(a - {x}, b - {x});
    }
  }

  /** One call keeps an entry still in its window unless `CAP` others have been audited since. */
  lemma {:induction false} StaysOrCrowded(calls: seq<Call>, window: real, j: nat, e: Entry)
    requires j < |calls| && calls[j].now - e.at <= window
    requires if Audited(calls, window, j) && calls[j].ip == e.ip then e.at == calls[j].now
             else e in TableAfter(calls[..j], window)
    ensures e in TableAfter(calls[..j + 1], window) || |OthersAudited(calls, window, e.ip, e.at, j + 1)| >= CAP
  {
    assert calls[..j + 1][..j] == calls[..j];
    if Audited(calls, window, j) {
      TableInvariant(calls[..j], window);
      PutMember(TableAfter(calls[..j], window), calls[j].ip, calls[j].now);
      if e !in TableAfter(calls[..j + 1], window) {
        EvictionCounts(calls, window, j, e);
      }
    }
  }

  lemma {:induction false} OthersGrow(calls: seq<Call>, window: real, ip: string, since: real, j: nat, k: nat)
    requires j <= k <= |calls|
    ensures |OthersAudited(calls, window, ip, since, j)| <= |OthersAudited(calls, window, ip, since, k)|
  {
    Subset(OthersAudited(calls, window, ip, since, j), OthersAudited(calls, window, ip, since, k));
  }

  /** Until `CAP` others have been audited since, the entry of an audited call stays. */
  lemma {:induction false} EntryStays(calls: seq<Call>, window: real, i: nat, k: nat)
    requires Monotone(calls) && i < k < |calls|
    requires Audited(calls, window, i) && calls[k].now - calls[i].now < window
    ensures Entry(calls[i].ip, calls[i].now) in TableAfter(calls[..k], window)
         || |OthersAudited(calls, window, calls[i].ip, calls[i].now, k)| >= CAP
    decreases k
  {
    var e := Entry(calls[i].ip, calls[i].now);
    var j := k - 1;
    assert calls[j].now <= calls[k].now;
    if j > i {
      EntryStays(calls, window, i, j);
      OthersGrow(calls, window, e.ip, e.at, j, k);
      if |OthersAudited(calls, window, e.ip, e.at, j)| >= CAP {
        return;
      }
      TableInvariant(calls[..j], window);
      FindMember(TableAfter(calls[..j], window), e.ip);
    }
    StaysOrCrowded(calls, window, j, e);
  }

  /** An address is audited twice within one window only if at least 1024 distinct other addresses
      were audited between the two times. */
  lemma {:induction false} Pigeonhole(calls: seq<Call>, window: real, i: nat, j: nat)
    requires Monotone(calls) && i < j < |calls|
    requires calls[i].ip == calls[j].ip && Audited(calls, window, i) && Audited(calls, window, j)
    requires calls[j].now - calls[i].now < window
    ensures |OthersAudited(calls, window, calls[i].ip, calls[i].now, j)| >= 1024
    ensures forall ip :: ip in OthersAudited(calls, window, calls[i].ip, calls[i].now, j) ==>
              exists m: nat :: m < j && calls[m].ip == ip && Audited(calls, window, m)
                            && calls[i].now <= calls[m].now <= calls[j].now
  {
    EntryStays(calls, window, i, j);
    TableInvariant(calls[..j], window);
    FindMember(TableAfter(calls[..j], window), calls[j].ip);
  }

  // ---------------------------------------------------------------------------------------------
  // Refinement of an unbounded once-per-window table
  // ---------------------------------------------------------------------------------------------

  /** The intended answer: no call of the same address was answered yes less than a window ago. */
  ghost predicate Due(calls: seq<Call>, window: real, i: nat)
    requires i < |calls|
    decreases i
  {
    forall m: nat :: m < i && calls[m].ip == calls[i].ip && Due(calls, window, m) ==>
                     calls[i].now - calls[m].now >= window
  }

  /** The addresses that were due less than a window before call `i`. */
  ghost function DueAddresses(calls: seq<Call>, window: real, i: nat): set<string>
    requires i < |calls|
  {
    set m: nat | m <= i && Due(calls, window, m) && calls[m].now > calls[i].now - window :: calls[m].ip
  }

  /** None of the first `n` calls finds more than 1024 due addresses. */
  ghost predicate RoomyUpTo(calls: seq<Call>, window: real, n: nat)
    requires n <= |calls|
  {
    forall i: nat :: i < n ==> |DueAddresses(calls, window, i)| <= 1024
  }

  ghost predicate Roomy(calls: seq<Call>, window: real) {
    RoomyUpTo(calls, window, |calls|)
  }

  ghost predicate Latest(calls: seq<Call>, window: real, m: nat, n: nat)
    requires m < n <= |calls|
  {
    && Audited(calls, window, m)
    && forall k: nat :: m < k < n && calls[k].ip == calls[m].ip ==> !Audited(calls, window, k)
  }

  /** The latest audited call of every address is still on record unless its window has passed. */
  ghost predicate OnRecord(calls: seq<Call>, window: real, n: nat)
    requires n <= |calls|
  {
    forall m: nat :: m < n && Latest(calls, window, m, n) && calls[n - 1].now - calls[m].now < window ==>
                     Entry(calls[m].ip, calls[m].now) in TableAfter(calls[..n], window)
  }

  lemma {:induction false} FindLatest(calls: seq<Call>, window: real, m: nat, n: nat) returns (k: nat)
    requires m < n <= |calls| && Audited(calls, window, m)
    ensures m <= k < n && calls[k].ip == calls[m].ip && Latest(calls, window, k, n)
    decreases n - m
  {
    if j: nat :| m < j < n && calls[j].ip == calls[m].ip && Audited(calls, window, j) {
      k := FindLatest(calls, window, j, n);
    } else {
      k := m;
    }
  }

  ghost predicate Agrees(calls: seq<Call>, window: real, n: nat)
    requires n <= |calls|
  {
    forall m: nat :: m < n ==> (Audited(calls, window, m) <==> Due(calls, window, m))
  }

  lemma {:induction false} AuditedIsDue(calls: seq<Call>, window: real, n: nat)
    requires Monotone(calls) && n < |calls| && OnRecord(calls, window, n) && Agrees(calls, window, n)
    requires Audited(calls, window, n)
    ensures Due(calls, window, n)
  {
    TableInvariant(calls[..n], window);
    FindMember(TableAfter(calls[..n], window), calls[n].ip);
    forall m: nat | m < n && calls[m].ip == calls[n].ip && Due(calls, window, m)
      ensures calls[n].now - calls[m].now >= window
    {
      var k := FindLatest(calls, window, m, n);
      assert calls[n - 1].now <= calls[n].now && calls[m].now <= calls[k].now;
    }
  }

  lemma {:induction false} MutedIsNotDue(calls: seq<Call>, window: real, n: nat)
    requires n < |calls| && Agrees(calls, window, n) && !Audited(calls, window, n)
    ensures !Due(calls, window, n)
  {
    var t := TableAfter(calls[..n], window);
    TableInvariant(calls[..n], window);
    FindMember(t, calls[n].ip);
    var e := Entry(calls[n].ip, Find(t, calls[n].ip).value);
    var m: nat :| m < n && CameFrom(calls[..n], window, e, m);
    ExtendRun(calls, window, n, m);
  }

  lemma {:induction false} SameAnswer(calls: seq<Call>, window: real, n: nat)
    requires Monotone(calls) && n < |calls| && OnRecord(calls, window, n) && Agrees(calls, window, n)
    ensures Audited(calls, window, n) <==> Due(calls, window, n)
  {
    if Audited(calls, window, n) {
      AuditedIsDue(calls, window, n);
    } else {
      MutedIsNotDue(calls, window, n);
    }
  }

  lemma {:induction false} AgreesNext(calls: seq<Call>, window: real, n: nat)
    requires n < |calls| && Agrees(calls, window, n) && (Audited(calls, window, n) <==> Due(calls, window, n))
    ensures Agrees(calls, window, n + 1)
  {
  }

  lemma {:induction false} AnswerIsDue(calls: seq<Call>, window: real, n: nat)
    requires Monotone(calls) && n < |calls| && OnRecord(calls, window, n) && Agrees(calls, window, n)
    ensures Agrees(calls, window, n + 1)
  {
    SameAnswer(calls, window, n);
    AgreesNext(calls, window, n);
  }

  lemma {:induction false} FewOthers(calls: seq<Call>, window: real, n: nat, m: nat)
    requires m <= n < |calls| && RoomyUpTo(calls, window, n + 1) && Agrees(calls, window, n + 1)
    requires Audited(calls, window, m) && calls[n].now - calls[m].now < window
    ensures |OthersAudited(calls, window, calls[m].ip, calls[m].now, n + 1)| < CAP
  {
    var others := OthersAudited(calls, window, calls[m].ip, calls[m].now, n + 1);
    assert others + {calls[m].ip} <= DueAddresses(calls, window, n);
    Subset(others + {calls[m].ip}, DueAddresses(calls, window, n));
  }

  lemma {:induction false} LatestBefore(calls: seq<Call>, window: real, m: nat, n: nat)
    requires m < n < |calls| && Latest(calls, window, m, n + 1)
    ensures Latest(calls, window, m, n) && !(Audited(calls, window, n) && calls[n].ip == calls[m].ip)
  {
  }

  lemma {:induction false} RecordBefore(calls: seq<Call>, window: real, n: nat, m: nat)
    requires Monotone(calls) && m < n < |calls| && OnRecord(calls, window, n)
    requires Latest(calls, window, m, n) && calls[n].now - calls[m].now < window
    ensures Entry(calls[m].ip, calls[m].now) in TableAfter(calls[..n], window)
  {
    assert calls[n - 1].now <= calls[n].now;
  }

  lemma {:induction false} RecordKept(calls: seq<Call>, window: real, n: nat, m: nat)
    requires Monotone(calls) && m <= n < |calls| && RoomyUpTo(calls, window, n + 1)
    requires OnRecord(calls, window, n) && Agrees(calls, window, n + 1)
    requires Latest(calls, window, m, n + 1) && calls[n].now - calls[m].now < window
    ensures Entry(calls[m].ip, calls[m].now) in TableAfter(calls[..n + 1], window)
  {
    if m < n {
      LatestBefore(calls, window, m, n);
      RecordBefore(calls, window, n, m);
    }
    FewOthers(calls, window, n, m);
    StaysOrCrowded(calls, window, n, Entry(calls[m].ip, calls[m].now));
  }

  lemma {:induction false} RecordStep(calls: seq<Call>, window: real, n: nat)
    requires Monotone(calls) && n < |calls| && RoomyUpTo(calls, window, n + 1)
    requires OnRecord(calls, window, n) && Agrees(calls, window, n + 1)
    ensures OnRecord(calls, window, n + 1)
  {
    forall m: nat | m < n + 1 && Latest(calls, window, m, n + 1) && calls[n].now - calls[m].now < window
      ensures Entry(calls[m].ip, calls[m].now) in TableAfter(calls[..n + 1], window)
    {
      RecordKept(calls, window, n, m);
    }
  }

  /** The capped dictionary has answered like the unbounded table so far, and is set to go on. */
  ghost predicate Refined(calls: seq<Call>, window: real, n: nat) {
    n <= |calls| && Agrees(calls, window, n) && OnRecord(calls, window, n)
  }

  lemma {:induction false} RoomyLess(calls: seq<Call>, window: real, n: nat, k: nat)
    requires k <= n <= |calls| && RoomyUpTo(calls, window, n)
    ensures RoomyUpTo(calls, window, k)
  {
  }

  lemma {:induction false} RefineNext(calls: seq<Call>, window: real, n: nat)
    requires Monotone(calls) && n < |calls| && RoomyUpTo(calls, window, n + 1) && Refined(calls, window, n)
    ensures Refined(calls, window, n + 1)
  {
    AnswerIsDue(calls, window, n);
    RecordStep(calls, window, n);
  }

  lemma {:induction false} RefinedAtStart(calls: seq<Call>, window: real)
    ensures Refined(calls, window, 0)
  {
  }

  lemma {:induction false} RefinesUpTo(calls: seq<Call>, window: real, n: nat)
    requires Monotone(calls) && n <= |calls| && RoomyUpTo(calls, window, n)
    ensures Refined(calls, window, n)
  {
    RefinedAtStart(calls, window);
    var k := 0;
    while k < n
      invariant k <= n && Refined(calls, window, k)
    {
      RoomyLess(calls, window, n, k + 1);
      RefineNext(calls, window, k);
      k := k + 1;
    }
  }

  /** As long as no call finds more than 1024 addresses due less than a window before, the capped dictionary gives exactly the
      answers of a table that never forgets: once per address per window. */
  lemma {:induction false} OncePerWindow(calls: seq<Call>, window: real, i: nat)
    requires Monotone(calls) && Roomy(calls, window) && i < |calls|
    ensures Audited(calls, window, i) <==> Due(calls, window, i)
  {
    RefinesUpTo(calls, window, |calls|);
  }

  // ---------------------------------------------------------------------------------------------
  // ... and only that long
  // ---------------------------------------------------------------------------------------------

  lemma {:induction false} SamePast(a: seq<Call>, b: seq<Call>, window: real, i: nat)
    requires i < |a| && i < |b| && a[..i + 1] == b[..i + 1]
    ensures Due(a, window, i) == Due(b, window, i) && Audited(a, window, i) == Audited(b, window, i)
    decreases i
  {
    assert a[i] == a[..i + 1][i] && b[i] == b[..i + 1][i];
    assert a[..i] == a[..i + 1][..i] && b[..i] == b[..i + 1][..i];
    forall m: nat | m < i
      ensures a[m] == b[m] && Due(a, window, m) == Due(b, window, m)
    {
      assert a[m] == a[..i + 1][m] && b[m] == b[..i + 1][m];
      assert a[..m + 1] == a[..i + 1][..m + 1] && b[..m + 1] == b[..i + 1][..m + 1];
      SamePast(a, b, window, m);
    }
  }

  /** The first `k` calls, and then at once a call of some address. */
  function Asked(calls: seq<Call>, k: nat, ip: string): seq<Call>
    requires 0 < k <= |calls|
  {
    calls[..k] + [Call(ip, calls[k - 1].now)]
  }

  lemma {:induction false} AskedPast(calls: seq<Call>, window: real, k: nat, ip: string)
    requires 0 < k <= |calls|
    ensures var c := Asked(calls, k, ip);
            && c[..k] == calls[..k] && (Monotone(calls) ==> Monotone(c))
            && forall i: nat :: i < k ==> c[i] == calls[i] && Due(c, window, i) == Due(calls, window, i) &&
                                          Audited(c, window, i) == Audited(calls, window, i)
  {
    var c := Asked(calls, k, ip);
    forall i: nat | i < k
      ensures c[i] == calls[i] && Due(c, window, i) == Due(calls, window, i)
      ensures Audited(c, window, i) == Audited(calls, window, i)
    {
      assert c[..i + 1] == calls[..i + 1];
      SamePast(c, calls, window, i);
    }
  }

  /** Whenever any address asks at once after any of the calls, all answers are those of the unbounded table. */
  ghost predicate Steady(calls: seq<Call>, window: real) {
    forall k: nat, ip :: 0 < k <= |calls| ==> Agrees(Asked(calls, k, ip), window, k + 1)
  }

  lemma {:induction false} RoomyIsSteady(calls: seq<Call>, window: real, k: nat, ip: string)
    requires Monotone(calls) && Roomy(calls, window) && 0 < k <= |calls|
    ensures Agrees(Asked(calls, k, ip), window, k + 1)
  {
    var c := Asked(calls, k, ip);
    AskedPast(calls, window, k, ip);
    forall i: nat | i < k
      ensures |DueAddresses(c, window, i)| <= CAP
    {
      assert DueAddresses(c, window, i) == DueAddresses(calls, window, i);
    }
    RefinesUpTo(c, window, k);
    AnswerIsDue(c, window, k);
  }

  /** The first call that finds too many due addresses is due itself, and brings the last of them. */
  lemma {:induction false} FirstCrowdedIsDue(calls: seq<Call>, window: real, i: nat)
    requires Monotone(calls) && i < |calls| && RoomyUpTo(calls, window, i)
    requires |DueAddresses(calls, window, i)| > CAP
    ensures Due(calls, window, i) && window > 0.0
  {
    var crowd := DueAddresses(calls, window, i);
    if !Due(calls, window, i) || window <= 0.0 {
      var before := if i == 0 then {} else DueAddresses(calls, window, i - 1);
      assert crowd <= before;
      Subset(crowd, before);
    }
  }

  /** An entry for this address, less than a window old. */
  ghost predicate HasYoung(t: Table, ip: string, since: real) {
    exists e :: e in t && e.ip == ip && e.at > since
  }

  lemma {:induction false} PutKeepsYoung(t: Table, ip: string, now: real, other: string, since: real)
    requires Distinct(t) && now > since && (other == ip || HasYoung(t, other, since))
    ensures HasYoung(Put(t, ip, now), other, since)
  {
    PutMember(t, ip, now);
    if other == ip {
      assert Entry(ip, now) in Put(t, ip, now);
    }
  }

  lemma {:induction false} YoungOnRecord(calls: seq<Call>, window: real, i: nat, m: nat)
    requires Monotone(calls) && m < i < |calls| && OnRecord(calls, window, i) && Audited(calls, window, m)
    requires calls[m].now > calls[i].now - window
    ensures HasYoung(TableAfter(calls[..i], window), calls[m].ip, calls[i].now - window)
  {
    var k := FindLatest(calls, window, m, i);
    assert calls[m].now <= calls[k].now && calls[i - 1].now <= calls[i].now;
    assert Entry(calls[k].ip, calls[k].now) in TableAfter(calls[..i], window);
  }

  lemma {:induction false} DueMember(calls: seq<Call>, window: real, i: nat, ip: string) returns (m: nat)
    requires i < |calls| && ip in DueAddresses(calls, window, i)
    ensures m <= i && Due(calls, window, m) && calls[m].now > calls[i].now - window && calls[m].ip == ip
  {
    m :| m <= i && Due(calls, window, m) && calls[m].now > calls[i].now - window && calls[m].ip == ip;
  }

  lemma {:induction false} OtherOnRecord(calls: seq<Call>, window: real, i: nat, ip: string)
    requires Monotone(calls) && i < |calls| && OnRecord(calls, window, i) && Agrees(calls, window, i)
    requires ip in DueAddresses(calls, window, i) && ip != calls[i].ip
    ensures HasYoung(TableAfter(calls[..i], window), ip, calls[i].now - window)
  {
    var m := DueMember(calls, window, i, ip);
    YoungOnRecord(calls, window, i, m);
  }

  lemma {:induction false} CrowdOnRecord(calls: seq<Call>, window: real, i: nat, ip: string)
    requires Monotone(calls) && i < |calls| && OnRecord(calls, window, i) && Agrees(calls, window, i)
    requires window > 0.0 && ip in DueAddresses(calls, window, i)
    ensures HasYoung(PutAt(calls, window, i), ip, calls[i].now - window)
  {
    TableInvariant(calls[..i], window);
    if ip != calls[i].ip {
      OtherOnRecord(calls, window, i, ip);
    }
    PutKeepsYoung(TableAfter(calls[..i], window), calls[i].ip, calls[i].now, ip, calls[i].now - window);
  }

  lemma {:induction false} SubsetFull<T>(a: set<T>, b: set<T>)
    requires a <= b && |a| >= |b|
    ensures a == b
  {
    if x :| x in b && x !in a {
      Subset(a, b - {x});
    }
  }

  lemma {:induction false} AllYoung(t: Table, crowd: set<string>, since: real)
    requires Distinct(t) && |t| <= CAP + 1 && |crowd| > CAP
    requires forall ip :: ip in crowd ==> HasYoung(t, ip, since)
    ensures |t| == CAP + 1 && forall e :: e in t ==> e.at > since
  {
    var ips := set e | e in t :: e.ip;
    AddressCount(t);
    Subset(crowd, ips);
    SubsetFull(crowd, ips);
    forall e | e in t
      ensures e.at > since
    {
      assert e.ip in crowd;
      var y :| y in t && y.ip == e.ip && y.at > since;
      var i :| 0 <= i < |t| && t[i] == e;
      var j :| 0 <= j < |t| && t[j] == y;
    }
  }

  lemma {:induction false} NothingOld(t: Table, cutoff: real)
    requires forall e :: e in t ==> e.at >= cutoff
    ensures DropBefore(t, cutoff) == t
  {
    if t != [] {
      NothingOld(t[..|t| - 1], cutoff);
      assert t[|t| - 1] in t;
    }
  }

  /** The dictionary with the entry of call `i`, before it is capped. */
  ghost function PutAt(calls: seq<Call>, window: real, i: nat): Table
    requires i < |calls|
  {
    Put(TableAfter(calls[..i], window), calls[i].ip, calls[i].now)
  }

  lemma {:induction false} CrowdFills(calls: seq<Call>, window: real, i: nat)
    requires Monotone(calls) && i < |calls| && Refined(calls, window, i)
    requires Due(calls, window, i) && window > 0.0 && |DueAddresses(calls, window, i)| > CAP
    ensures Distinct(PutAt(calls, window, i)) && |PutAt(calls, window, i)| == CAP + 1
    ensures forall e :: e in PutAt(calls, window, i) ==> e.at > calls[i].now - window
  {
    TableInvariant(calls[..i], window);
    PutMember(TableAfter(calls[..i], window), calls[i].ip, calls[i].now);
    forall ip | ip in DueAddresses(calls, window, i)
      ensures HasYoung(PutAt(calls, window, i), ip, calls[i].now - window)
    {
      CrowdOnRecord(calls, window, i, ip);
    }
    AllYoung(PutAt(calls, window, i), DueAddresses(calls, window, i), calls[i].now - window);
  }

  lemma {:induction false} FullIsTrimmed(put: Table, now: real, window: real)
    requires |put| == CAP + 1 && forall e :: e in put ==> e.at > now - window
    ensures Capped(put, now, window) == DropOldest(put, 1)
  {
    NothingOld(put, now - window);
  }

  lemma {:induction false} TableNext(calls: seq<Call>, window: real, i: nat)
    requires i < |calls| && Audited(calls, window, i)
    ensures TableAfter(calls[..i + 1], window) == Capped(PutAt(calls, window, i), calls[i].now, window)
  {
    assert calls[..i + 1][..i] == calls[..i];
  }

  /** What such a call evicts is an entry that is less than a window old. */
  lemma {:induction false} CrowdEvicts(calls: seq<Call>, window: real, i: nat) returns (e: Entry)
    requires Monotone(calls) && i < |calls| && Refined(calls, window, i) && Audited(calls, window, i)
    requires Due(calls, window, i) && window > 0.0 && |DueAddresses(calls, window, i)| > CAP
    ensures e in PutAt(calls, window, i) && e.at > calls[i].now - window
    ensures Find(TableAfter(calls[..i + 1], window), e.ip).None?
  {
    var put := PutAt(calls, window, i);
    CrowdFills(calls, window, i);
    FullIsTrimmed(put, calls[i].now, window);
    TableNext(calls, window, i);
    DropOne(put);
    e := put[Oldest(put)];
    FindMember(DropOldest(put, 1), e.ip);
  }

  lemma {:induction false} AskedIsAudited(calls: seq<Call>, window: real, i: nat, ip: string)
    requires i < |calls| && Find(TableAfter(calls[..i + 1], window), ip).None?
    ensures Audited(Asked(calls, i + 1, ip), window, i + 1)
  {
    assert Asked(calls, i + 1, ip)[..i + 1] == calls[..i + 1];
  }

  lemma {:induction false} AskedIsNotDue(calls: seq<Call>, window: real, i: nat, m: nat)
    requires m <= i < |calls| && Due(calls, window, m) && calls[i].now - calls[m].now < window
    ensures !Due(Asked(calls, i + 1, calls[m].ip), window, i + 1)
  {
    AskedPast(calls, window, i + 1, calls[m].ip);
    assert Due(Asked(calls, i + 1, calls[m].ip), window, m);
  }

  /** The evicted address asks again at once: it is audited, and not due. */
  lemma {:induction false} EvictedAsksAgain(calls: seq<Call>, window: real, i: nat) returns (ip: string)
    requires Monotone(calls) && i < |calls| && RoomyUpTo(calls, window, i)
    requires |DueAddresses(calls, window, i)| > CAP
    ensures Audited(Asked(calls, i + 1, ip), window, i + 1) && !Due(Asked(calls, i + 1, ip), window, i + 1)
  {
    RefinesUpTo(calls, window, i);
    FirstCrowdedIsDue(calls, window, i);
    SameAnswer(calls, window, i);
    var e := CrowdEvicts(calls, window, i);
    var m := EntrySource(calls, window, i, e);
    ip := e.ip;
    AskedIsAudited(calls, window, i, ip);
    AskedIsNotDue(calls, window, i, m);
  }

  lemma {:induction false} EntrySource(calls: seq<Call>, window: real, i: nat, e: Entry) returns (m: nat)
    requires i < |calls| && Audited(calls, window, i) && Due(calls, window, i) && Agrees(calls, window, i)
    requires e in PutAt(calls, window, i)
    ensures m <= i && calls[m] == Call(e.ip, e.at) && Due(calls, window, m)
  {
    TableInvariant(calls[..i], window);
    PutMember(TableAfter(calls[..i], window), calls[i].ip, calls[i].now);
    if e == Entry(calls[i].ip, calls[i].now) {
      m := i;
    } else {
      m :| m < i && CameFrom(calls[..i], window, e, m);
      ExtendRun(calls, window, i, m);
    }
  }

  lemma {:induction false} FirstCrowded(calls: seq<Call>, window: real, n: nat) returns (i: nat)
    requires n <= |calls| && !RoomyUpTo(calls, window, n)
    ensures i < n && RoomyUpTo(calls, window, i) && |DueAddresses(calls, window, i)| > CAP
  {
    if RoomyUpTo(calls, window, n - 1) {
      i := n - 1;
    } else {
      i := FirstCrowded(calls, window, n - 1);
    }
  }

  /** The exact condition.  On any sequence of calls the capped dictionary answers like the table that never
      forgets, whoever asks at once after any of them, if and only if no call finds more than 1024 addresses
      that were due less than a window before. */
  lemma {:induction false} OncePerWindowIffRoomy(calls: seq<Call>, window: real)
    requires Monotone(calls)
    ensures Steady(calls, window) <==> Roomy(calls, window)
  {
    if Roomy(calls, window) {
      forall k: nat, ip | 0 < k <= |calls|
        ensures Agrees(Asked(calls, k, ip), window, k + 1)
      {
        RoomyIsSteady(calls, window, k, ip);
      }
    } else {
      var i := FirstCrowded(calls, window, |calls|);
      var ip := EvictedAsksAgain(calls, window, i);
      assert !Agrees(Asked(calls, i + 1, ip), window, i + 1 + 1);
    }
  }
}
