/** The failed-login limiter, internal/loginlimit/loginlimit.go. */
module LoginLimit {
  import opened Text

  const MAX_FAILED_ATTEMPTS: nat := 5
  const BLOCK_DURATION: nat := 300_000_000_000

  /** What the tracker knows about one address. */
  datatype Record = Record(failed: nat, blockedUntil: Option<Time>)

  const CLEAN := Record(0, None)

  predicate Blocks(r: Record, now: Time) {
    r.blockedUntil.Some? && now < r.blockedUntil.value
  }

  function Checked(r: Record, now: Time): Record {
    if r.blockedUntil.Some? && !Blocks(r, now) then CLEAN else r
  }

  function Failed(r: Record, now: Time): Record {
    if r.failed + 1 >= MAX_FAILED_ATTEMPTS then Record(0, Some(now + BLOCK_DURATION))
    else Record(r.failed + 1, r.blockedUntil)
  }

  class Tracker {
    var failed: map<string, nat>
    var blockedUntil: map<string, Time>

    ghost function At(ip: string): Record
      reads this
    {
      Record(if ip in failed then failed[ip] else 0,
             if ip in blockedUntil then Some(blockedUntil[ip]) else None)
    }

    constructor ()
      ensures forall ip :: At(ip) == CLEAN
    {
      failed, blockedUntil := map[], map[];
    }

    /** `now` was read before the lock was taken. */
    method Allowed(ip: string, now: Time) returns (ok: bool)
      modifies this
      ensures ip == "" ==> ok && At(ip) == old(At(ip))
      ensures ip != "" ==> ok == !Blocks(old(At(ip)), now) && At(ip) == Checked(old(At(ip)), now)
      ensures forall other :: other != ip ==> At(other) == old(At(other))
    {
      if ip == "" {
        return true;
      }
      if ip in blockedUntil {
        if now < blockedUntil[ip] {
          return false;
        }
        blockedUntil := blockedUntil - {ip};
        failed := failed - {ip};
      }
      return true;
    }

    method RecordFailure(ip: string, now: Time)
      modifies this
      ensures At(ip) == if ip == "" then old(At(ip)) else Failed(old(At(ip)), now)
      ensures forall other :: other != ip ==> At(other) == old(At(other))
    {
      if ip == "" {
        return;
      }
      failed := failed[ip := (if ip in failed then failed[ip] else 0) + 1];
      if failed[ip] >= MAX_FAILED_ATTEMPTS {
        blockedUntil := blockedUntil[ip := now + BLOCK_DURATION];
        failed := failed - {ip};
      }
    }

    method RecordSuccess(ip: string)
      modifies this
      ensures At(ip) == if ip == "" then old(At(ip)) else CLEAN
      ensures forall other :: other != ip ==> At(other) == old(At(other))
    {
      if ip == "" {
        return;
      }
      failed := failed - {ip};
      blockedUntil := blockedUntil - {ip};
    }
  }
}

/** Logins run concurrently: each takes the lock once to be admitted and once more
    to record its outcome, and anything may happen in between. */
module LoginProtocol {
  import opened LoginLimit
  import opened Seqs
  import opened Text

  /** A critical section of one login from `ip`, entered at time `at`. The clock
      that Check compares with was read earlier, at time `read`. */
  datatype Step =
    | Check(ip: string, at: Time, read: Time)
    | Fail(ip: string, at: Time)
    | Succeed(ip: string, at: Time)

  /** The tracker's records, the logins admitted and not yet finished, the clock. */
  datatype World = World(records: map<string, Record>, inFlight: map<string, nat>, clock: Time)

  function Rec(w: World, ip: string): Record {
    if ip in w.records then w.records[ip] else CLEAN
  }

  function Flying(w: World, ip: string): nat {
    if ip in w.inFlight then w.inFlight[ip] else 0
  }

  /** Time never goes back, clocks are read before they are used, and only an
      admitted login can finish. */
  predicate Enabled(w: World, s: Step) {
    && s.ip != ""
    && w.clock <= s.at
    && match s
       case Check(_, at, read) => read <= at
       case Fail(ip, _) => Flying(w, ip) > 0
       case Succeed(ip, _) => Flying(w, ip) > 0
  }

  function Put(w: World, s: Step, r: Record, flying: nat): World {
    World(w.records[s.ip := r], w.inFlight[s.ip := flying], s.at)
  }

  function Do(w: World, s: Step): World
    requires Enabled(w, s)
  {
    var r, n := Rec(w, s.ip), Flying(w, s.ip);
    match s
    case Check(ip, _, read) => Put(w, s, Checked(r, read), if Blocks(r, read) then n else n + 1)
    case Fail(ip, at) => Put(w, s, Failed(r, at), n - 1)
    case Succeed(ip, _) => Put(w, s, CLEAN, n - 1)
  }

  ghost predicate CanRun(w: World, run: seq<Step>)
    decreases |run|
  {
    run == [] || (Enabled(w, run[0]) && CanRun(Do(w, run[0]), run[1..]))
  }

  ghost function After(w: World, run: seq<Step>): World
    requires CanRun(w, run)
    decreases |run|
  {
    if run == [] then w else After(Do(w, run[0]), run[1..])
  }

  function Failures(run: seq<Step>, ip: string): nat {
    if run == [] then 0
    else (if run[0].Fail? && run[0].ip == ip then 1 else 0) + Failures(run[1..], ip)
  }

  /** Until the block on `ip` expires: at most `k` logins from `ip` are in flight at
      a time, none succeeds, and none finds an expired block. */
  ghost predicate UntilExpiry(w: World, run: seq<Step>, ip: string, k: nat)
    requires CanRun(w, run)
    decreases |run|
  {
    && Flying(w, ip) <= k
    && (run != [] ==>
          && !(run[0].Succeed? && run[0].ip == ip)
          && !(run[0].Check? && run[0].ip == ip && Rec(w, ip).blockedUntil.Some? && !Blocks(Rec(w, ip), run[0].read))
          && UntilExpiry(Do(w, run[0]), run[1..], ip, k))
  }

  // ---- How many failures get recorded ----

  /** `count` failures were recorded since `ip` was clean. Once blocked, only the
      logins already in flight can still fail. */
  predicate Budget(w: World, ip: string, k: nat, count: nat) {
    if Rec(w, ip).blockedUntil.Some? then count + Flying(w, ip) <= MAX_FAILED_ATTEMPTS - 1 + k
    else count == Rec(w, ip).failed < MAX_FAILED_ATTEMPTS && Flying(w, ip) <= k
  }

  lemma {:induction false} BudgetKept(w: World, run: seq<Step>, ip: string, k: nat, count: nat)
    requires CanRun(w, run) && UntilExpiry(w, run, ip, k) && Budget(w, ip, k, count)
    ensures count + Failures(run, ip) <= MAX_FAILED_ATTEMPTS - 1 + k
    decreases |run|
  {
    if run != [] {
      var next := Do(w, run[0]);
      var more := if run[0].Fail? && run[0].ip == ip then 1 else 0;
      assert Flying(next, ip) <= k;
      assert Budget(next, ip, k, count + more);
      BudgetKept(next, run[1..], ip, k, count + more);
    }
  }

  /** From a clean record, whatever the interleaving, at most 4 + k failures are
      recorded for an address with at most k concurrent logins before its block
      expires; with one login at a time that is the advertised 5. */
  lemma FailureBound(w: World, run: seq<Step>, ip: string, k: nat)
    requires CanRun(w, run) && UntilExpiry(w, run, ip, k)
    requires Rec(w, ip) == CLEAN
    ensures Failures(run, ip) <= MAX_FAILED_ATTEMPTS - 1 + k
  {
    BudgetKept(w, run, ip, k, 0);
  }

  // ---- The bound is reached ----

  function Repeat(s: Step, n: nat): (run: seq<Step>)
    ensures |run| == n && forall i :: 0 <= i < n ==> run[i] == s
  {
    seq(n, i => s)
  }

  /** `n` logins tried and failed one after the other. */
  function OneByOne(ip: string, n: nat): seq<Step> {
    if n == 0 then [] else [Check(ip, 0, 0), Fail(ip, 0)] + OneByOne(ip, n - 1)
  }

  /** Four failures in turn, then k logins admitted together, all failing. */
  function WorstRun(ip: string, k: nat): seq<Step> {
    OneByOne(ip, MAX_FAILED_ATTEMPTS - 1) + (Repeat(Check(ip, 0, 0), k) + Repeat(Fail(ip, 0), k))
  }

  const IDLE := World(map[], map[], 0)

  lemma {:induction false} Join(w: World, a: seq<Step>, b: seq<Step>, ip: string, k: nat)
    requires CanRun(w, a) && UntilExpiry(w, a, ip, k)
    requires CanRun(After(w, a), b) && UntilExpiry(After(w, a), b, ip, k)
    ensures CanRun(w, a + b) && UntilExpiry(w, a + b, ip, k)
    ensures After(w, a + b) == After(After(w, a), b)
    ensures Failures(a + b, ip) == Failures(a, ip) + Failures(b, ip)
    decreases |a|
  {
    if a == [] {
      assert a + b == b;
    } else {
      ConcatTail(a, b);
      Join(Do(w, a[0]), a[1..], b, ip, k);
    }
  }

  lemma {:induction false} AdmitAll(w: World, ip: string, n: nat, k: nat)
    requires ip != "" && w.clock == 0 && Rec(w, ip).blockedUntil.None? && Flying(w, ip) + n <= k
    ensures var run := Repeat(Check(ip, 0, 0), n);
            && CanRun(w, run) && UntilExpiry(w, run, ip, k) && Failures(run, ip) == 0
            && After(w, run).clock == 0 && Flying(After(w, run), ip) == Flying(w, ip) + n
    decreases n
  {
    var run := Repeat(Check(ip, 0, 0), n);
    if n > 0 {
      assert run[1..] == Repeat(Check(ip, 0, 0), n - 1);
      AdmitAll(Do(w, run[0]), ip, n - 1, k);
    }
  }

  lemma {:induction false} FailAll(w: World, ip: string, n: nat, k: nat)
    requires ip != "" && w.clock == 0 && Flying(w, ip) == n <= k
    ensures var run := Repeat(Fail(ip, 0), n);
            CanRun(w, run) && UntilExpiry(w, run, ip, k) && Failures(run, ip) == n
    decreases n
  {
    var run := Repeat(Fail(ip, 0), n);
    if n > 0 {
      assert run[1..] == Repeat(Fail(ip, 0), n - 1);
      FailAll(Do(w, run[0]), ip, n - 1, k);
    }
  }

  lemma FailOnce(w: World, ip: string, k: nat)
    requires ip != "" && w.clock == 0 && k >= 1 && Flying(w, ip) == 0
    requires Rec(w, ip).blockedUntil.None? && Rec(w, ip).failed + 1 < MAX_FAILED_ATTEMPTS
    ensures var run := [Check(ip, 0, 0), Fail(ip, 0)];
            && CanRun(w, run) && UntilExpiry(w, run, ip, k) && Failures(run, ip) == 1
            && var v := After(w, run);
               v.clock == 0 && Flying(v, ip) == 0 && Rec(v, ip) == Record(Rec(w, ip).failed + 1, None)
  {
    var check, fail := [Check(ip, 0, 0)], [Fail(ip, 0)];
    var admitted := Do(w, check[0]);
    assert check[1..] == [] && fail[1..] == [];
    assert After(w, check) == admitted;
    assert After(admitted, fail) == Do(admitted, fail[0]);
    Join(w, check, fail, ip, k);
    assert check + fail == [Check(ip, 0, 0), Fail(ip, 0)];
  }

  lemma {:induction false} FailInTurn(w: World, ip: string, n: nat, k: nat)
    requires ip != "" && w.clock == 0 && k >= 1 && Flying(w, ip) == 0
    requires Rec(w, ip).blockedUntil.None? && Rec(w, ip).failed + n < MAX_FAILED_ATTEMPTS
    ensures var run := OneByOne(ip, n);
            && CanRun(w, run) && UntilExpiry(w, run, ip, k) && Failures(run, ip) == n
            && var v := After(w, run);
               v.clock == 0 && Flying(v, ip) == 0 && Rec(v, ip) == Record(Rec(w, ip).failed + n, None)
    decreases n
  {
    if n > 0 {
      var once := [Check(ip, 0, 0), Fail(ip, 0)];
      FailOnce(w, ip, k);
      FailInTurn(After(w, once), ip, n - 1, k);
      Join(w, once, OneByOne(ip, n - 1), ip, k);
    }
  }

  /** For every k there is a run that records 4 + k failures: the bound is exact. */
  lemma FailureBoundReached(ip: string, k: nat)
    requires ip != "" && k >= 1
    ensures var run := WorstRun(ip, k);
            && CanRun(IDLE, run) && UntilExpiry(IDLE, run, ip, k)
            && Failures(run, ip) == MAX_FAILED_ATTEMPTS - 1 + k
  {
    var turns, admits, fails := OneByOne(ip, MAX_FAILED_ATTEMPTS - 1), Repeat(Check(ip, 0, 0), k), Repeat(Fail(ip, 0), k);
    FailInTurn(IDLE, ip, MAX_FAILED_ATTEMPTS - 1, k);
    var v := After(IDLE, turns);
    AdmitAll(v, ip, k, k);
    FailAll(After(v, admits), ip, k, k);
    Join(v, admits, fails, ip, k);
    Join(IDLE, turns, admits + fails, ip, k);
  }

  // ---- The fifth failure ----

  ghost predicate NoSuccess(run: seq<Step>, ip: string) {
    forall i :: 0 <= i < |run| ==> !(run[i].Succeed? && run[i].ip == ip)
  }

  lemma {:induction false} FailuresCounted(w: World, run: seq<Step>, ip: string)
    requires CanRun(w, run) && NoSuccess(run, ip)
    requires Rec(w, ip).blockedUntil.None? && Rec(w, ip).failed + Failures(run, ip) < 5
    ensures Rec(After(w, run), ip) == Record(Rec(w, ip).failed + Failures(run, ip), None)
    decreases |run|
  {
    if run != [] {
      FailuresCounted(Do(w, run[0]), run[1..], ip);
    }
  }

  /** Up to four failures without a success block nothing; the fifth, whatever came between
      them, blocks the address for five minutes: the next login is admitted if and only if
      its clock reading is that much later. */
  lemma FifthFailureBlocks(w: World, run: seq<Step>, fail: Step, check: Step)
    requires CanRun(w, run) && NoSuccess(run, fail.ip) && Rec(w, fail.ip) == CLEAN && Failures(run, fail.ip) < 5
    requires fail.Fail? && Enabled(After(w, run), fail)
    requires check.Check? && check.ip == fail.ip && Enabled(Do(After(w, run), fail), check)
    ensures var v := Do(After(w, run), fail);
            Flying(Do(v, check), fail.ip) == Flying(v, fail.ip) + 1
            <==> Failures(run, fail.ip) < 4 || check.read >= fail.at + 5 * 60 * 1_000_000_000
  {
    FailuresCounted(w, run, fail.ip);
  }

  // ---- A block holds until it expires, then ends ----

  /** A block never outlasts the clock by more than its duration. */
  predicate Sane(w: World, ip: string) {
    Rec(w, ip).blockedUntil.Some? ==> Rec(w, ip).blockedUntil.value <= w.clock + BLOCK_DURATION
  }

  lemma {:induction false} StaysSane(w: World, run: seq<Step>, ip: string)
    requires CanRun(w, run) && Sane(w, ip)
    ensures Sane(After(w, run), ip)
    decreases |run|
  {
    if run != [] {
      StaysSane(Do(w, run[0]), run[1..], ip);
    }
  }

  /** So it is in every world there can be. */
  lemma AlwaysSane(run: seq<Step>, ip: string)
    requires CanRun(IDLE, run)
    ensures Sane(After(IDLE, run), ip)
  {
    StaysSane(IDLE, run, ip);
  }

  function Admissions(w: World, run: seq<Step>, ip: string): nat
    requires CanRun(w, run)
    decreases |run|
  {
    if run == [] then 0
    else
      var next := Do(w, run[0]);
      (if run[0].Check? && run[0].ip == ip && Flying(next, ip) > Flying(w, ip) then 1 else 0)
      + Admissions(next, run[1..], ip)
  }

  ghost predicate Before(run: seq<Step>, t: Time) {
    forall i :: 0 <= i < |run| ==> run[i].at < t
  }

  /** While an address is blocked nothing from it is admitted, however many logins
      of it and of others are still finishing. */
  lemma {:induction false} BlockHolds(w: World, run: seq<Step>, ip: string, until: Time)
    requires CanRun(w, run) && Sane(w, ip)
    requires Rec(w, ip).blockedUntil.Some? && until <= Rec(w, ip).blockedUntil.value
    requires Before(run, until) && NoSuccess(run, ip)
    ensures Admissions(w, run, ip) == 0
    ensures var r := Rec(After(w, run), ip); r.blockedUntil.Some? && until <= r.blockedUntil.value
    ensures Sane(After(w, run), ip)
    decreases |run|
  {
    if run != [] {
      var next := Do(w, run[0]);
      assert run[0].at < until;
      if run[0].Fail? && run[0].ip == ip && Failed(Rec(w, ip), run[0].at).blockedUntil != Rec(w, ip).blockedUntil {
        assert Rec(next, ip).blockedUntil == Some(run[0].at + BLOCK_DURATION);
      }
      BlockHolds(next, run[1..], ip, until);
    }
  }

  /** As long as nothing from a blocked address was admitted, and nothing succeeded, it
      stays blocked, and the expiry only moves on: logins still in flight may extend it. The
      first login admitted is the first whose clock reading is at or past the expiry of
      that time, and it starts from a clean record; any other is refused and changes
      nothing. */
  lemma {:induction false} ExpiryAdmits(w: World, run: seq<Step>, s: Step)
    requires CanRun(w, run) && Enabled(After(w, run), s) && s.Check?
    requires Sane(w, s.ip) && Rec(w, s.ip).blockedUntil.Some?
    requires NoSuccess(run, s.ip) && Admissions(w, run, s.ip) == 0
    ensures var v := After(w, run); var next := Do(v, s);
            && Rec(v, s.ip).blockedUntil.Some?
            && Rec(w, s.ip).blockedUntil.value <= Rec(v, s.ip).blockedUntil.value
            && if s.read >= Rec(v, s.ip).blockedUntil.value
               then Rec(next, s.ip) == CLEAN && Flying(next, s.ip) == Flying(v, s.ip) + 1
               else Rec(next, s.ip) == Rec(v, s.ip) && Flying(next, s.ip) == Flying(v, s.ip)
    decreases |run|
  {
    if run != [] {
      StaysBlocked(w, run[0], s.ip);
      ExpiryAdmits(Do(w, run[0]), run[1..], s);
    }
  }

  lemma StaysBlocked(w: World, s: Step, ip: string)
    requires Enabled(w, s) && Sane(w, ip) && Rec(w, ip).blockedUntil.Some?
    requires !(s.Succeed? && s.ip == ip) && !(s.Check? && s.ip == ip && Flying(Do(w, s), ip) > Flying(w, ip))
    ensures var next := Do(w, s);
            && Sane(next, ip) && Rec(next, ip).blockedUntil.Some?
            && Rec(w, ip).blockedUntil.value <= Rec(next, ip).blockedUntil.value
  {
  }

  // ---- Addresses do not affect each other ----

  function Only(run: seq<Step>, ip: string): seq<Step> {
    if run == [] then []
    else if run[0].ip == ip then [run[0]] + Only(run[1..], ip)
    else Only(run[1..], ip)
  }

  /** An address ends up as if the logins from all others had never happened. */
  lemma {:induction false} Isolated(w: World, v: World, run: seq<Step>, ip: string)
    requires CanRun(w, run) && v.clock <= w.clock
    requires Rec(v, ip) == Rec(w, ip) && Flying(v, ip) == Flying(w, ip)
    ensures var own := Only(run, ip);
            && CanRun(v, own)
            && Rec(After(v, own), ip) == Rec(After(w, run), ip)
            && Flying(After(v, own), ip) == Flying(After(w, run), ip)
    decreases |run|
  {
    if run != [] {
      var s := run[0];
      if s.ip == ip {
        Isolated(Do(w, s), Do(v, s), run[1..], ip);
        ConsTail(s, Only(run[1..], ip));
      } else {
        Isolated(Do(w, s), v, run[1..], ip);
      }
    }
  }
}
