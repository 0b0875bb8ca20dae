/** The in-memory brake on failed logins (login-attempts.service.ts). Times are in milliseconds. */
module LoginAttempts {

  const MAX_FAILED_LOGINS := 5
  const LOGIN_WINDOW_MS := 900000
  const LOGIN_LOCK_MS := 900000
  const PRUNE_ABOVE := 10000

  datatype Attempts = Attempts(failures: seq<int>, lockedUntil: int)

  datatype Answer = Refused(until: int) | Admitted(justLocked: bool)

  type Table = map<string, Attempts>

  function Entry(m: Table, k: string): Attempts {
    if k in m then m[k] else Attempts([], 0)
  }

  /** The failures still inside the window at time now. */
  function Live(failures: seq<int>, now: int): seq<int> {
    if failures == [] then [] else
      var t := failures[|failures| - 1];
      Live(failures[..|failures| - 1], now) + if now - t < LOGIN_WINDOW_MS then [t] else []
  }

  /** One reservation seen from the entry of its account. */
  function ReserveEntry(e: Attempts, now: int): (Attempts, Answer) {
    if e.lockedUntil > now then (e, Refused(e.lockedUntil)) else
      var failures := Live(e.failures, now) + [now];
      if |failures| >= MAX_FAILED_LOGINS then (Attempts([], now + LOGIN_LOCK_MS), Admitted(true))
      else (Attempts(failures, e.lockedUntil), Admitted(false))
  }

  /** prune drops an entry that neither locks nor remembers anything at time now. */
  predicate Idle(e: Attempts, now: int) {
    e.lockedUntil <= now && forall i :: 0 <= i < |e.failures| ==> now - e.failures[i] >= LOGIN_WINDOW_MS
  }

  function Pruned(m: Table, now: int): Table {
    map k | k in m && !Idle(m[k], now) :: m[k]
  }

  /** The table after a reservation; pruning happens only above PRUNE_ABOVE accounts, and on demand. */
  function AfterReserve(m: Table, k: string, now: int, pruning: bool): Table {
    var (e, a) := ReserveEntry(Entry(m, k), now);
    if a.Refused? then m
    else if pruning && |m[k := e]| > PRUNE_ABOVE then Pruned(m[k := e], now)
    else m[k := e]
  }

  function AfterRelease(m: Table, k: string): Table {
    var e := Entry(m, k);
    if e.failures == [] then m else m[k := e.(failures := e.failures[..|e.failures| - 1])]
  }

  class LoginAttemptsService {
    var byKey: Table

    constructor ()
      ensures byKey == map[]
    {
      byKey := map[];
    }

    /** Counts an attempt before it is verified; refuses it while the account is locked. */
    method Reserve(k: string, now: int) returns (a: Answer)
      modifies this
      ensures a == ReserveEntry(Entry(old(byKey), k), now).1
      ensures byKey == AfterReserve(old(byKey), k, now, true)
    {
      var entry := Entry(byKey, k);
      if entry.lockedUntil > now {
        return Refused(entry.lockedUntil);
      }
      var failures := LiveFailures(entry.failures, now);
      failures := failures + [now];
      var locked := false;
      var lockedUntil := entry.lockedUntil;
      if |failures| >= MAX_FAILED_LOGINS {
        lockedUntil := now + LOGIN_LOCK_MS;
        failures := [];
        locked := true;
      }
      byKey := byKey[k := Attempts(failures, lockedUntil)];
      if |byKey| > PRUNE_ABOVE {
        Prune(now);
      }
      return Admitted(locked);
    }

    static method LiveFailures(failures: seq<int>, now: int) returns (r: seq<int>)
      ensures r == Live(failures, now)
    {
      r := [];
      for i := 0 to |failures|
        invariant r == Live(failures[..i], now)
      {
        assert failures[..i + 1][..i] == failures[..i];
        if now - failures[i] < LOGIN_WINDOW_MS {
          r := r + [failures[i]];
        }
      }
      assert failures[..|failures|] == failures;
    }

    /** Gives a reserved attempt back. */
    method Release(k: string)
      modifies this
      ensures byKey == AfterRelease(old(byKey), k)
    {
      var e := Entry(byKey, k);
      if k in byKey && |e.failures| > 0 {
        byKey := byKey[k := e.(failures := e.failures[..|e.failures| - 1])];
      }
    }

    method RecordSuccess(k: string)
      modifies this
      ensures byKey == old(byKey) - {k}
    {
      byKey := byKey - {k};
    }

    method Prune(now: int)
      modifies this
      ensures byKey == Pruned(old(byKey), now)
    {
      var rest := byKey.Keys;
      while rest != {}
        invariant rest <= old(byKey).Keys
        invariant byKey == map k | k in old(byKey) && (k in rest || !Idle(old(byKey)[k], now)) :: old(byKey)[k]
        decreases |rest|
      {
        var k :| k in rest;
        if Idle(byKey[k], now) {
          byKey := byKey - {k};
        }
        rest := rest - {k};
      }
    }
  }

  // ------------------------------------------------------------------ runs

  datatype Op = OpReserve(k: string, now: int) | OpRelease(k: string) | OpSuccess(k: string)

  function Step(m: Table, op: Op, pruning: bool): Table {
    match op
    case OpReserve(k, now) => AfterReserve(m, k, now, pruning)
    case OpRelease(k) => AfterRelease(m, k)
    case OpSuccess(k) => m - {k}
  }

  function Exec(ops: seq<Op>, pruning: bool): Table {
    if ops == [] then map[] else Step(Exec(ops[..|ops| - 1], pruning), ops[|ops| - 1], pruning)
  }

  /** Latest time seen by the run; the clock starts at 0 and never goes back. */
  function Clock(ops: seq<Op>): int {
    if ops == [] then 0 else if ops[|ops| - 1].OpReserve? then ops[|ops| - 1].now else Clock(ops[..|ops| - 1])
  }

  ghost predicate NonDecreasing(ops: seq<Op>) {
    ops == [] ||
    (NonDecreasing(ops[..|ops| - 1]) && (ops[|ops| - 1].OpReserve? ==> Clock(ops[..|ops| - 1]) <= ops[|ops| - 1].now))
  }

  predicate Admits(m: Table, op: Op) {
    op.OpReserve? && ReserveEntry(Entry(m, op.k), op.now).1.Admitted?
  }

  /** Times of the attempts of account k admitted since its last success. */
  function AdmittedTimes(ops: seq<Op>, k: string): seq<int> {
    if ops == [] then [] else
      var debut, op := ops[..|ops| - 1], ops[|ops| - 1];
      if op == OpSuccess(k) then []
      else if op.OpReserve? && op.k == k && Admits(Exec(debut, true), op) then AdmittedTimes(debut, k) + [op.now]
      else AdmittedTimes(debut, k)
  }

  predicate Sorted(h: seq<int>) {
    forall i, j :: 0 <= i < j < |h| ==> h[i] <= h[j]
  }

  /** Any six consecutive admitted attempts span at least the window. */
  predicate Spaced(h: seq<int>) {
    forall i :: 0 <= i && i + MAX_FAILED_LOGINS < |h| ==> h[i + MAX_FAILED_LOGINS] - h[i] >= LOGIN_WINDOW_MS
  }

  function InWindow(h: seq<int>, x: int): nat {
    if h == [] then 0 else
      InWindow(h[..|h| - 1], x) + if x <= h[|h| - 1] < x + LOGIN_WINDOW_MS then 1 else 0
  }

  lemma {:induction false} AllDead(f: seq<int>, now: int)
    requires Sorted(f) && (f != [] ==> now - f[|f| - 1] >= LOGIN_WINDOW_MS)
    ensures Live(f, now) == []
  {
    if f != [] {
      AllDead(f[..|f| - 1], now);
    }
  }

  /** In order of time, the live failures are the last ones. */
  lemma {:induction false} LiveSuffix(f: seq<int>, now: int)
    requires Sorted(f)
    ensures var l := Live(f, now); |l| <= |f| && l == f[|f| - |l|..]
  {
    if f != [] {
      var n := |f| - 1;
      assert f == f[..n] + [f[n]];
      if now - f[n] >= LOGIN_WINDOW_MS {
        AllDead(f, now);
      } else {
        LiveSuffix(f[..n], now);
      }
    }
  }

  lemma {:induction false} LiveCut(f: seq<int>, now: int, i: nat)
    requires Sorted(f) && i < |f|
    ensures i < |f| - |Live(f, now)| <==> now - f[i] >= LOGIN_WINDOW_MS
  {
    var n := |f| - 1;
    LiveSuffix(f[..n], now);
    if now - f[n] >= LOGIN_WINDOW_MS {
      AllDead(f, now);
    } else if i < n {
      LiveCut(f[..n], now, i);
    }
  }

  /**
   What the entry e of an account remembers of its admitted attempts h at time now: the last ones, at most
   four; the forgotten ones are out of the window, or will be when the lock ends.
   */
  ghost predicate Remembers(e: Attempts, h: seq<int>, now: int) {
    && |e.failures| <= |h| && |e.failures| < MAX_FAILED_LOGINS && e.failures == h[|h| - |e.failures|..]
    && Past(h, |h| - |e.failures|, if e.lockedUntil > now then e.lockedUntil else now)
    && (forall i :: 0 <= i < |h| ==> h[i] <= now)
    && Sorted(h) && Spaced(h)
  }

  /** The first n times are out of the window at time until. */
  predicate Past(h: seq<int>, n: int, until: int) {
    forall i :: 0 <= i < n && i < |h| ==> h[i] + LOGIN_WINDOW_MS <= until
  }

  lemma SpacedAppend(h: seq<int>, now: int)
    requires Spaced(h) && (|h| >= MAX_FAILED_LOGINS ==> now - h[|h| - MAX_FAILED_LOGINS] >= LOGIN_WINDOW_MS)
    ensures Spaced(h + [now])
  {
    var h' := h + [now];
    forall i | 0 <= i && i + MAX_FAILED_LOGINS < |h'|
      ensures h'[i + MAX_FAILED_LOGINS] - h'[i] >= LOGIN_WINDOW_MS
    {
      if i + MAX_FAILED_LOGINS < |h| {
        assert h[i + MAX_FAILED_LOGINS] - h[i] >= LOGIN_WINDOW_MS;
      }
    }
  }

  /** Once the lock has ended, the attempts that filtering forgets are out of the window. */
  lemma FilterForgets(e: Attempts, h: seq<int>, before: int, now: int, i: nat)
    requires Remembers(e, h, before) && before <= now && e.lockedUntil <= now
    requires i < |h| - |Live(e.failures, now)|
    ensures h[i] + LOGIN_WINDOW_MS <= now
  {
    var f := e.failures;
    SuffixSorted(h, f);
    if i >= |h| - |f| {
      assert h[i] == f[i - (|h| - |f|)];
      LiveCut(f, now, i - (|h| - |f|));
    }
  }

  lemma FilterPast(e: Attempts, h: seq<int>, before: int, now: int)
    requires Remembers(e, h, before) && before <= now && e.lockedUntil <= now
    ensures Past(h, |h| - |Live(e.failures, now)|, now)
  {
    forall i | 0 <= i < |h| - |Live(e.failures, now)| && i < |h|
      ensures h[i] + LOGIN_WINDOW_MS <= now
    {
      FilterForgets(e, h, before, now, i);
    }
  }

  lemma ShorterRemembers(e: Attempts, h: seq<int>, before: int, now: int, live: seq<int>)
    requires Remembers(e, h, before) && before <= now && e.lockedUntil <= now
    requires |live| <= |e.failures| && live == h[|h| - |live|..] && Past(h, |h| - |live|, now)
    ensures Remembers(Attempts(live, e.lockedUntil), h, now)
  {
  }

  lemma FilterRemembers(e: Attempts, h: seq<int>, before: int, now: int)
    requires Remembers(e, h, before) && before <= now && e.lockedUntil <= now
    ensures Remembers(Attempts(Live(e.failures, now), e.lockedUntil), h, now)
  {
    var live := Live(e.failures, now);
    SuffixSorted(h, e.failures);
    LiveSuffix(e.failures, now);
    SuffixOfSuffix(h, e.failures, live);
    FilterPast(e, h, before, now);
    ShorterRemembers(e, h, before, now, live);
  }

  lemma SuffixSorted(h: seq<int>, f: seq<int>)
    requires Sorted(h) && |f| <= |h| && f == h[|h| - |f|..]
    ensures Sorted(f)
  {
  }

  lemma SuffixOfSuffix(h: seq<int>, f: seq<int>, l: seq<int>)
    requires |f| <= |h| && f == h[|h| - |f|..] && |l| <= |f| && l == f[|f| - |l|..]
    ensures l == h[|h| - |l|..]
  {
  }

  lemma PushRemembers(e: Attempts, h: seq<int>, now: int)
    requires Remembers(e, h, now) && |e.failures| + 1 < MAX_FAILED_LOGINS && e.lockedUntil <= now
    ensures Remembers(Attempts(e.failures + [now], e.lockedUntil), h + [now], now)
  {
    SpacedAppend(h, now);
    var h' := h + [now];
    assert e.failures + [now] == h'[|h'| - |e.failures| - 1..];
  }

  lemma LockRemembers(e: Attempts, h: seq<int>, now: int)
    requires Remembers(e, h, now) && e.lockedUntil <= now
    ensures Remembers(Attempts([], now + LOGIN_LOCK_MS), h + [now], now)
  {
    SpacedAppend(h, now);
    var h' := h + [now];
    assert h'[|h'|..] == [];
  }

  lemma ReserveRemembers(e: Attempts, h: seq<int>, before: int, now: int)
    requires Remembers(e, h, before) && before <= now
    ensures var r := ReserveEntry(e, now);
            Remembers(r.0, if r.1.Admitted? then h + [now] else h, now)
  {
    if e.lockedUntil <= now {
      FilterRemembers(e, h, before, now);
      var live := Attempts(Live(e.failures, now), e.lockedUntil);
      if |live.failures| + 1 < MAX_FAILED_LOGINS {
        PushRemembers(live, h, now);
      } else {
        LockRemembers(live, h, now);
      }
    }
  }

  lemma PruneRemembers(e: Attempts, h: seq<int>, now: int)
    requires Remembers(e, h, now) && Idle(e, now)
    ensures Remembers(Attempts([], 0), h, now)
  {
    forall i | 0 <= i < |h|
      ensures h[i] + LOGIN_WINDOW_MS <= now
    {
      if i >= |h| - |e.failures| {
        assert h[i] == e.failures[i - (|h| - |e.failures|)];
      }
    }
  }

  /** The entry of k after a reservation on j: possibly replaced, then possibly pruned. */
  lemma EntryAfterReserve(m: Table, j: string, now: int, pruning: bool, k: string)
    ensures var e := if j == k then ReserveEntry(Entry(m, k), now).0 else Entry(m, k);
            var e' := Entry(AfterReserve(m, j, now, pruning), k);
            e' == e || (pruning && Idle(e, now) && e' == Attempts([], 0))
  {
  }

  ghost predicate WithoutRelease(ops: seq<Op>) {
    forall i :: 0 <= i < |ops| ==> !ops[i].OpRelease?
  }

  lemma {:induction false} RunRemembers(ops: seq<Op>, k: string)
    requires NonDecreasing(ops) && WithoutRelease(ops)
    ensures Remembers(Entry(Exec(ops, true), k), AdmittedTimes(ops, k), Clock(ops))
  {
    if ops != [] {
      var debut, op := ops[..|ops| - 1], ops[|ops| - 1];
      RunRemembers(debut, k);
      match op
      case OpReserve(j, now) => ReserveInTable(Exec(debut, true), j, Clock(debut), now, k, AdmittedTimes(debut, k));
      case OpSuccess(_) =>
    }
  }

  lemma RemembersLater(e: Attempts, h: seq<int>, before: int, now: int)
    requires Remembers(e, h, before) && before <= now
    ensures Remembers(e, h, now)
  {
  }

  lemma ReserveInTable(m: Table, j: string, before: int, now: int, k: string, h: seq<int>)
    requires Remembers(Entry(m, k), h, before) && before <= now
    ensures var admitted := j == k && ReserveEntry(Entry(m, k), now).1.Admitted?;
            Remembers(Entry(AfterReserve(m, j, now, true), k), if admitted then h + [now] else h, now)
  {
    hide Remembers, ReserveEntry, AfterReserve;
    var e := Entry(m, k);
    var e' := if j == k then ReserveEntry(e, now).0 else e;
    var h' := if j == k && ReserveEntry(e, now).1.Admitted? then h + [now] else h;
    if j == k {
      ReserveRemembers(e, h, before, now);
    } else {
      RemembersLater(e, h, before, now);
    }
    EntryAfterReserve(m, j, now, true, k);
    if Entry(AfterReserve(m, j, now, true), k) != e' {
      PruneRemembers(e', h', now);
    }
  }

  lemma {:induction false} SpacedWindows(h: seq<int>, x: int)
    requires Sorted(h) && Spaced(h)
    ensures InWindow(h, x) <= MAX_FAILED_LOGINS
  {
    if |h| > MAX_FAILED_LOGINS {
      SpacedWindows(h[..|h| - 1], x);
      var last := h[|h| - 1];
      if x <= last < x + LOGIN_WINDOW_MS {
        BeforeWindow(h[..|h| - 1], x, |h| - 1 - MAX_FAILED_LOGINS);
      }
    } else {
      WindowAtMostLength(h, x);
    }
  }

  lemma {:induction false} WindowAtMostLength(h: seq<int>, x: int)
    ensures InWindow(h, x) <= |h|
  {
    if h != [] {
      WindowAtMostLength(h[..|h| - 1], x);
    }
  }

  /** When the n-th time and all before it precede the window, only the later ones can be inside. */
  lemma {:induction false} BeforeWindow(h: seq<int>, x: int, n: nat)
    requires Sorted(h) && n < |h| && h[n] < x
    ensures InWindow(h, x) <= |h| - n - 1
    decreases |h|
  {
    if n == |h| - 1 {
      if n > 0 {
        BeforeWindow(h[..n], x, n - 1);
      }
    } else {
      BeforeWindow(h[..|h| - 1], x, n);
    }
  }

  /**
   For any run of reservations and successes with a clock that never goes back, every half-open window of
   LOGIN_WINDOW_MS holds at most MAX_FAILED_LOGINS admitted attempts of an account since its last success.
   */
  lemma AtMostFivePerWindow(ops: seq<Op>, k: string, x: int)
    requires NonDecreasing(ops) && WithoutRelease(ops)
    ensures InWindow(AdmittedTimes(ops, k), x) <= MAX_FAILED_LOGINS
  {
    RunRemembers(ops, k);
    SpacedWindows(AdmittedTimes(ops, k), x);
  }

  // ------------------------------------------------------------------ exactly when an attempt is refused

  /** The last five admitted attempts fit in one window: the last of them locked the account. */
  predicate LockedByLast(h: seq<int>) {
    |h| >= 5 && h[|h| - 1] - h[|h| - 5] < LOGIN_WINDOW_MS
  }

  /** The lock of the entry e at time now, told from the admitted attempts alone. */
  ghost predicate LockKnown(e: Attempts, h: seq<int>, now: int) {
    && (e.lockedUntil > now ==> LockedByLast(h) && e.lockedUntil == h[|h| - 1] + LOGIN_LOCK_MS)
    && (LockedByLast(h) && now < h[|h| - 1] + LOGIN_LOCK_MS ==> e.lockedUntil == h[|h| - 1] + LOGIN_LOCK_MS)
  }

  lemma FourLive(e: Attempts, h: seq<int>, before: int, now: int)
    requires Remembers(e, h, before) && before <= now && e.lockedUntil <= now
    ensures |Live(e.failures, now)| >= 4 <==> |h| >= 4 && now - h[|h| - 4] < LOGIN_WINDOW_MS
  {
    hide Live, Spaced, Past;
    var f := e.failures;
    SuffixSorted(h, f);
    LiveSuffix(f, now);
    if |h| >= 4 && |Live(f, now)| < 4 {
      FilterForgets(e, h, before, now, |h| - 4);
    } else if |Live(f, now)| >= 4 {
      LiveCut(f, now, |f| - 4);
      FourthOfSuffix(h, f);
    }
  }

  lemma FourthOfSuffix(h: seq<int>, f: seq<int>)
    requires 4 <= |f| <= |h| && f == h[|h| - |f|..]
    ensures h[|h| - 4] == f[|f| - 4]
  {
  }

  lemma ReserveKnown(e: Attempts, h: seq<int>, before: int, now: int)
    requires Remembers(e, h, before) && LockKnown(e, h, before) && before <= now
    ensures var (e', a) := ReserveEntry(e, now);
            && LockKnown(e', if a.Admitted? then h + [now] else h, now)
            && (a.Refused? <==> LockedByLast(h) && now < h[|h| - 1] + LOGIN_LOCK_MS)
            && (a.Refused? ==> a.until == h[|h| - 1] + LOGIN_LOCK_MS)
            && (a.Admitted? ==> (a.justLocked <==> LockedByLast(h + [now])))
  {
    hide Live, Remembers;
    if e.lockedUntil <= now {
      FourLive(e, h, before, now);
      var h' := h + [now];
      assert |h| >= 4 ==> h'[|h'| - 5] == h[|h| - 4];
    }
  }

  lemma TableKnown(m: Table, j: string, before: int, now: int, k: string, h: seq<int>)
    requires Remembers(Entry(m, k), h, before) && LockKnown(Entry(m, k), h, before) && 0 <= before <= now
    ensures var admitted := j == k && ReserveEntry(Entry(m, k), now).1.Admitted?;
            LockKnown(Entry(AfterReserve(m, j, now, true), k), if admitted then h + [now] else h, now)
  {
    hide Remembers, ReserveEntry, AfterReserve;
    EntryAfterReserve(m, j, now, true, k);
    if j == k {
      ReserveKnown(Entry(m, k), h, before, now);
    }
  }

  lemma {:induction false} RunKnown(ops: seq<Op>, k: string)
    requires NonDecreasing(ops) && WithoutRelease(ops)
    ensures LockKnown(Entry(Exec(ops, true), k), AdmittedTimes(ops, k), Clock(ops))
  {
    if ops != [] {
      var debut, op := ops[..|ops| - 1], ops[|ops| - 1];
      RunKnown(debut, k);
      RunRemembers(debut, k);
      ClockPositive(debut);
      match op
      case OpReserve(j, now) => TableKnown(Exec(debut, true), j, Clock(debut), now, k, AdmittedTimes(debut, k));
      case OpSuccess(_) =>
    }
  }

  /**
   After any run of reservations and successes with a clock that never goes back, an attempt is refused exactly when
   the last five admitted attempts of the account since its last success fit in one window and less than the duration
   of the lock has passed since the last of them; an admitted attempt announces the lock exactly when it is the fifth
   of one window.
   */
  lemma RefusedExactlyAfterFive(ops: seq<Op>, k: string, now: int)
    requires NonDecreasing(ops) && WithoutRelease(ops) && Clock(ops) <= now
    ensures var h, a := AdmittedTimes(ops, k), ReserveEntry(Entry(Exec(ops, true), k), now).1;
            && (a.Refused? <==> |h| >= 5 && h[|h| - 1] - h[|h| - 5] < 900_000 && now < h[|h| - 1] + 900_000)
            && (a.Refused? ==> a.until == h[|h| - 1] + 900_000)
            && (a.Admitted? ==> (a.justLocked <==> |h| >= 4 && now - h[|h| - 4] < 900_000))
  {
    hide Remembers, ReserveEntry, AdmittedTimes, Exec, LockKnown, NonDecreasing, Clock;
    RunRemembers(ops, k);
    RunKnown(ops, k);
    var h := AdmittedTimes(ops, k);
    ReserveKnown(Entry(Exec(ops, true), k), h, Clock(ops), now);
    assert |h| >= 4 ==> (h + [now])[|h + [now]| - 5] == h[|h| - 4];
  }

  // ------------------------------------------------------------------ pruning is invisible

  /** Two entries that no later operation can tell apart. */
  ghost predicate SameFuture(e: Attempts, f: Attempts, now: int) {
    && Sorted(e.failures) && Sorted(f.failures)
    && (forall i :: 0 <= i < |e.failures| ==> e.failures[i] <= now)
    && (forall i :: 0 <= i < |f.failures| ==> f.failures[i] <= now)
    && (e.lockedUntil == f.lockedUntil || (e.lockedUntil <= now && f.lockedUntil <= now))
    && Live(e.failures, now) == Live(f.failures, now)
  }

  /** Filtering at two successive times is filtering at the later one. */
  lemma {:induction false} LiveTwice(f: seq<int>, now: int, later: int)
    requires now <= later
    ensures Live(Live(f, now), later) == Live(f, later)
  {
    if f != [] {
      var debut, t := f[..|f| - 1], f[|f| - 1];
      LiveTwice(debut, now, later);
      if now - t < LOGIN_WINDOW_MS {
        assert (Live(debut, now) + [t])[..|Live(debut, now)|] == Live(debut, now);
      } else {
        assert Live(debut, now) + [] == Live(debut, now);
        assert Live(debut, later) + [] == Live(debut, later);
      }
    }
  }

  lemma SameFutureLater(e: Attempts, f: Attempts, now: int, later: int)
    requires SameFuture(e, f, now) && now <= later
    ensures SameFuture(e, f, later)
  {
    LiveTwice(e.failures, now, later);
    LiveTwice(f.failures, now, later);
  }

  lemma ReserveSameFuture(e: Attempts, f: Attempts, now: int)
    requires SameFuture(e, f, now)
    ensures ReserveEntry(e, now).1 == ReserveEntry(f, now).1
    ensures SameFuture(ReserveEntry(e, now).0, ReserveEntry(f, now).0, now)
  {
    LiveSuffix(e.failures, now);
    LiveSuffix(f.failures, now);
  }

  function Popped(e: Attempts): Attempts {
    if e.failures == [] then e else e.(failures := e.failures[..|e.failures| - 1])
  }

  /** Giving back the last failure gives back the last live one, if any. */
  lemma PopLive(f: seq<int>, now: int)
    requires Sorted(f) && f != []
    ensures Live(f[..|f| - 1], now) == if Live(f, now) == [] then [] else Live(f, now)[..|Live(f, now)| - 1]
  {
    if now - f[|f| - 1] >= LOGIN_WINDOW_MS {
      AllDead(f, now);
      AllDead(f[..|f| - 1], now);
    }
  }

  lemma ReleaseSameFuture(e: Attempts, f: Attempts, now: int)
    requires SameFuture(e, f, now)
    ensures SameFuture(Popped(e), Popped(f), now)
  {
    hide Live, Sorted;
    PoppedLive(e, now);
    PoppedLive(f, now);
  }

  lemma PoppedLive(e: Attempts, now: int)
    requires Sorted(e.failures)
    ensures Sorted(Popped(e).failures)
    ensures var l := Live(e.failures, now); Live(Popped(e).failures, now) == if l == [] then [] else l[..|l| - 1]
  {
    if e.failures != [] {
      PopLive(e.failures, now);
    }
  }

  lemma IdleSameFuture(e: Attempts, f: Attempts, now: int)
    requires SameFuture(e, f, now) && Idle(e, now) && now >= 0
    ensures SameFuture(Attempts([], 0), f, now)
  {
    AllDead(e.failures, now);
  }

  lemma {:induction false} ClockPositive(ops: seq<Op>)
    requires NonDecreasing(ops)
    ensures Clock(ops) >= 0
  {
    if ops != [] {
      ClockPositive(ops[..|ops| - 1]);
    }
  }

  lemma FutureAfterReserve(m: Table, n: Table, j: string, before: int, now: int, k: string)
    requires SameFuture(Entry(m, k), Entry(n, k), before) && before <= now && now >= 0
    ensures SameFuture(Entry(AfterReserve(m, j, now, true), k), Entry(AfterReserve(n, j, now, false), k), now)
  {
    var e, f := Entry(m, k), Entry(n, k);
    SameFutureLater(e, f, before, now);
    ReserveSameFuture(e, f, now);
    EntryAfterReserve(m, j, now, true, k);
    EntryAfterReserve(n, j, now, false, k);
    var e', f' := if j == k then ReserveEntry(e, now).0 else e, if j == k then ReserveEntry(f, now).0 else f;
    if Entry(AfterReserve(m, j, now, true), k) != e' {
      IdleSameFuture(e', f', now);
    }
  }

  lemma EntryAfterRelease(m: Table, j: string, k: string)
    ensures Entry(AfterRelease(m, j), k) == if j == k then Popped(Entry(m, k)) else Entry(m, k)
  {
  }

  /** With or without pruning, every account keeps the same future. */
  lemma {:induction false} PruneKeepsFutures(ops: seq<Op>, k: string)
    requires NonDecreasing(ops)
    ensures SameFuture(Entry(Exec(ops, true), k), Entry(Exec(ops, false), k), Clock(ops))
  {
    if ops != [] {
      var debut, op := ops[..|ops| - 1], ops[|ops| - 1];
      var m, n := Exec(debut, true), Exec(debut, false);
      PruneKeepsFutures(debut, k);
      ClockPositive(ops);
      match op
      case OpReserve(j, t) => FutureAfterReserve(m, n, j, Clock(debut), t, k);
      case OpRelease(j) =>
        EntryAfterRelease(m, j, k);
        EntryAfterRelease(n, j, k);
        ReleaseSameFuture(Entry(m, k), Entry(n, k), Clock(debut));
      case OpSuccess(_) =>
    }
  }

  /** prune changes no later answer, for any account and any continuation. */
  lemma PruneInvisible(ops: seq<Op>, k: string, now: int)
    requires NonDecreasing(ops) && Clock(ops) <= now
    ensures ReserveEntry(Entry(Exec(ops, true), k), now).1 == ReserveEntry(Entry(Exec(ops, false), k), now).1
  {
    PruneKeepsFutures(ops, k);
    SameFutureLater(Entry(Exec(ops, true), k), Entry(Exec(ops, false), k), Clock(ops), now);
    ReserveSameFuture(Entry(Exec(ops, true), k), Entry(Exec(ops, false), k), now);
  }

  // ------------------------------------------------------------------ giving an attempt back

  lemma PoppedAfterReserve(e: Attempts, now: int)
    requires SameFuture(e, e, now) && ReserveEntry(e, now).1 == Admitted(false)
    ensures !Idle(ReserveEntry(e, now).0, now) && SameFuture(e, Popped(ReserveEntry(e, now).0), now)
  {
    hide Live, Sorted;
    var l, e' := Live(e.failures, now), ReserveEntry(e, now).0;
    assert e'.failures == l + [now] && e'.failures[|l|] == now && e'.failures[..|l|] == l;
    LiveTwice(e.failures, now, now);
    LiveSuffix(e.failures, now);
    SuffixSorted(e.failures, l);
  }

  /** An admitted attempt that did not lock, once given back, changes no later answer to any account. */
  lemma ReleaseUndoesReserve(ops: seq<Op>, k: string, now: int, j: string, later: int)
    requires NonDecreasing(ops) && Clock(ops) <= now <= later
    requires ReserveEntry(Entry(Exec(ops, true), k), now).1 == Admitted(false)
    ensures var after := Exec(ops + [OpReserve(k, now)] + [OpRelease(k)], true);
            ReserveEntry(Entry(after, j), later).1 == ReserveEntry(Entry(Exec(ops, true), j), later).1
  {
    hide ReserveEntry, Idle, SameFuture, Popped, AfterReserve, AfterRelease;
    var m := Exec(ops, true);
    var n := AfterReserve(m, k, now, true);
    assert (ops + [OpReserve(k, now)])[..|ops|] == ops;
    assert (ops + [OpReserve(k, now)] + [OpRelease(k)])[..|ops| + 1] == ops + [OpReserve(k, now)];
    GivenBack(ops, k, now, j);
    SameFutureLater(Entry(m, j), Entry(AfterRelease(n, k), j), now, later);
    ReserveSameFuture(Entry(m, j), Entry(AfterRelease(n, k), j), later);
  }

  lemma GivenBack(ops: seq<Op>, k: string, now: int, j: string)
    requires NonDecreasing(ops) && Clock(ops) <= now
    requires ReserveEntry(Entry(Exec(ops, true), k), now).1 == Admitted(false)
    ensures var m := Exec(ops, true);
            SameFuture(Entry(m, j), Entry(AfterRelease(AfterReserve(m, k, now, true), k), j), now)
  {
    hide ReserveEntry, Idle, SameFuture, Popped, AfterReserve, AfterRelease, Exec, NonDecreasing, Clock, Entry;
    var m := Exec(ops, true);
    ClockPositive(ops);
    SortedNow(ops, j, now);
    EntryAfterReserve(m, k, now, true, j);
    EntryAfterRelease(AfterReserve(m, k, now, true), k, j);
    if j == k {
      PoppedAfterReserve(Entry(m, k), now);
    } else if Idle(Entry(m, j), now) {
      IdleOnTheRight(Entry(m, j), now);
    }
  }

  lemma SortedNow(ops: seq<Op>, k: string, now: int)
    requires NonDecreasing(ops) && Clock(ops) <= now
    ensures var e := Entry(Exec(ops, true), k); SameFuture(e, e, now)
  {
    PruneKeepsFutures(ops, k);
    SameFutureLater(Entry(Exec(ops, true), k), Entry(Exec(ops, false), k), Clock(ops), now);
  }

  lemma IdleOnTheRight(e: Attempts, now: int)
    requires SameFuture(e, e, now) && Idle(e, now) && now >= 0
    ensures SameFuture(e, Attempts([], 0), now)
  {
    IdleSameFuture(e, e, now);
  }
}
