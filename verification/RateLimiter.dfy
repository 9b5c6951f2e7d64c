/**
 The per-address fixed-window rate limiter (backend/src/middleware.rs): each address has a counter and
 the start of its current window, and a call that arrives a full window later starts a new one.
 */
module RateLimiter {
  import opened MachineInts

  type Ip = nat

  datatype Config = Config(maxRequests: u64, window: nat)

  datatype Window = Window(count: u64, start: nat)

  datatype Call = Call(ip: Ip, at: nat)

  datatype Checked = Checked(allowed: bool, windows: map<Ip, Window>)

  // ---------- one call ----------

  /** The window that a call falls into, before it is counted. Elapsed time never goes below zero. */
  function CurrentWindow(cfg: Config, windows: map<Ip, Window>, call: Call): Window {
    var w := if call.ip in windows then windows[call.ip] else Window(0, call.at);
    if SaturatingSub(call.at, w.start) >= cfg.window then Window(0, call.at) else w
  }

  /** Counting a call wraps around at the width of the counter. */
  function Counted(w: Window): Window {
    Window((w.count + 1) % (U64_MAX + 1), w.start)
  }

  function Check(cfg: Config, windows: map<Ip, Window>, call: Call): Checked {
    var w := Counted(CurrentWindow(cfg, windows, call));
    Checked(w.count <= cfg.maxRequests, windows[call.ip := w])
  }

  class RateLimitStore {
    var windows: map<Ip, Window>

    constructor ()
      ensures windows == map[]
    {
      windows := map[];
    }

    /** True when the request is within the allowed rate. */
    method CheckAndIncrement(ip: Ip, now: nat, cfg: Config) returns (allowed: bool)
      modifies this
      ensures Checked(allowed, windows) == Check(cfg, old(windows), Call(ip, now))
    {
      if ip !in windows {
        windows := windows[ip := Window(0, now)];
      }
      if SaturatingSub(now, windows[ip].start) >= cfg.window {
        windows := windows[ip := Window(0, now)];
      }
      windows := windows[ip := Counted(windows[ip])];
      allowed := windows[ip].count <= cfg.maxRequests;
    }
  }

  /**
   A call is refused exactly when its address has used up the running window, up to the call that wraps the counter
   around: that one passes.
   */
  lemma RefusedIff(cfg: Config, windows: map<Ip, Window>, call: Call)
    ensures !Check(cfg, windows, call).allowed <==>
            if call.ip in windows && SaturatingSub(call.at, windows[call.ip].start) < cfg.window
            then cfg.maxRequests <= windows[call.ip].count < U64_MAX
            else cfg.maxRequests == 0
  {
  }

  // ---------- runs ----------

  /** The calls of one address that succeed within [lo, hi) over a whole run. */
  function Admitted(cfg: Config, windows: map<Ip, Window>, calls: seq<Call>, ip: Ip, lo: int, hi: int): nat
    decreases calls
  {
    if calls == [] then 0
    else
      var r := Check(cfg, windows, calls[0]);
      (if calls[0].ip == ip && lo <= calls[0].at < hi && r.allowed then 1 else 0)
      + Admitted(cfg, r.windows, calls[1..], ip, lo, hi)
  }

  ghost predicate InOrder(calls: seq<Call>) {
    forall i, j :: 0 <= i < j < |calls| ==> calls[i].at <= calls[j].at
  }

  /** No counter of the run wraps around: no window sees 2^64 calls of one address. */
  predicate NeverWraps(cfg: Config, windows: map<Ip, Window>, calls: seq<Call>)
    decreases calls
  {
    calls == [] ||
    (&& CurrentWindow(cfg, windows, calls[0]).count < U64_MAX
     && NeverWraps(cfg, Check(cfg, windows, calls[0]).windows, calls[1..]))
  }

  /** Every stored window has counted the call that opened it. */
  ghost predicate Used(windows: map<Ip, Window>) {
    forall ip <- windows :: 1 <= windows[ip].count
  }

  /** Short runs never wrap. */
  lemma {:induction false} ShortRunsNeverWrap(cfg: Config, windows: map<Ip, Window>, calls: seq<Call>)
    requires forall ip <- windows :: windows[ip].count + |calls| <= U64_MAX
    requires |calls| <= U64_MAX
    ensures NeverWraps(cfg, windows, calls)
    decreases calls
  {
    if calls != [] {
      ShortRunsNeverWrap(cfg, Check(cfg, windows, calls[0]).windows, calls[1..]);
    }
  }

  /** How many calls a used window still admits. */
  function Budget(cfg: Config, w: Window): nat {
    SaturatingSub(cfg.maxRequests, w.count)
  }

  /** What one interval can admit at most: the rest of a running window, and after it a full one. */
  function Bound(cfg: Config, windows: map<Ip, Window>, ip: Ip, lo: int, hi: int): nat {
    if ip in windows && hi <= windows[ip].start + cfg.window then Budget(cfg, windows[ip])
    else if ip in windows && lo < windows[ip].start + cfg.window then Budget(cfg, windows[ip]) + cfg.maxRequests
    else SaturatingSub(2 * cfg.maxRequests, 1)
  }

  lemma {:induction false} NoneAdmittedOutside(
      cfg: Config, windows: map<Ip, Window>, calls: seq<Call>, ip: Ip, lo: int, hi: int)
    requires forall c <- calls :: !(lo <= c.at < hi)
    ensures Admitted(cfg, windows, calls, ip, lo, hi) == 0
    decreases calls
  {
    if calls != [] {
      NoneAdmittedOutside(cfg, Check(cfg, windows, calls[0]).windows, calls[1..], ip, lo, hi);
    }
  }

  /** One call spends from the bound what it admits. */
  lemma CallSpendsBound(cfg: Config, windows: map<Ip, Window>, call: Call, ip: Ip, lo: int, hi: int)
    requires cfg.window > 0 && hi <= lo + cfg.window && call.at < hi
    requires Used(windows) && CurrentWindow(cfg, windows, call).count < U64_MAX
    ensures var r := Check(cfg, windows, call);
            && Used(r.windows)
            && (if call.ip == ip && lo <= call.at && r.allowed then 1 else 0) + Bound(cfg, r.windows, ip, lo, hi)
               <= Bound(cfg, windows, ip, lo, hi)
  {
  }

  lemma {:induction false} AdmittedWithinBound(
      cfg: Config, windows: map<Ip, Window>, calls: seq<Call>, ip: Ip, lo: int, hi: int)
    requires cfg.window > 0 && hi <= lo + cfg.window
    requires InOrder(calls) && NeverWraps(cfg, windows, calls) && Used(windows)
    ensures Admitted(cfg, windows, calls, ip, lo, hi) <= Bound(cfg, windows, ip, lo, hi)
    decreases calls
  {
    if calls == [] {
    } else if calls[0].at >= hi {
      NoneAdmittedOutside(cfg, windows, calls, ip, lo, hi);
    } else {
      CallSpendsBound(cfg, windows, calls[0], ip, lo, hi);
      AdmittedWithinBound(cfg, Check(cfg, windows, calls[0]).windows, calls[1..], ip, lo, hi);
    }
  }

  /**
   From a new store, whatever the other addresses do: no half-open interval as long as a window admits
   more than `2 * maxRequests - 1` calls of one address (and none when nothing is allowed).
   */
  lemma IntervalAdmitsUnderTwoWindows(cfg: Config, calls: seq<Call>, ip: Ip, lo: int, hi: int)
    requires InOrder(calls) && NeverWraps(cfg, map[], calls) && hi <= lo + cfg.window
    ensures Admitted(cfg, map[], calls, ip, lo, hi) <= SaturatingSub(2 * cfg.maxRequests, 1)
  {
    if cfg.window == 0 {
      NoneAdmittedOutside(cfg, map[], calls, ip, lo, hi);
    } else {
      AdmittedWithinBound(cfg, map[], calls, ip, lo, hi);
    }
  }

  // ---------- one window ----------

  /** The answers of a run, call by call. */
  function Verdicts(cfg: Config, windows: map<Ip, Window>, calls: seq<Call>): (r: seq<bool>)
    ensures |r| == |calls|
    decreases calls
  {
    if calls == [] then []
    else
      var r := Check(cfg, windows, calls[0]);
      [r.allowed] + Verdicts(cfg, r.windows, calls[1..])
  }

  function CallsOf(calls: seq<Call>, ip: Ip): nat {
    if calls == [] then 0 else (if calls[0].ip == ip then 1 else 0) + CallsOf(calls[1..], ip)
  }

  /** While an address stays in one window, exactly its first `maxRequests` calls of that window succeed. */
  lemma {:induction false} WindowAdmitsTheFirst(cfg: Config, windows: map<Ip, Window>, calls: seq<Call>, ip: Ip, i: nat)
    requires ip in windows && NeverWraps(cfg, windows, calls)
    requires forall c <- calls :: c.ip == ip ==> SaturatingSub(c.at, windows[ip].start) < cfg.window
    requires i < |calls| && calls[i].ip == ip
    ensures Verdicts(cfg, windows, calls)[i] <==> windows[ip].count + CallsOf(calls[..i + 1], ip) <= cfg.maxRequests
    decreases i
  {
    var rest := Check(cfg, windows, calls[0]).windows;
    assert calls[..i + 1][1..] == calls[1..][..i];
    if i == 0 {
      assert CallsOf(calls[..1][1..], ip) == 0;
    } else {
      WindowAdmitsTheFirst(cfg, rest, calls[1..], ip, i - 1);
      assert calls[1..][..i - 1 + 1] == calls[1..][..i];
    }
  }

  lemma OpensWindow(cfg: Config, windows: map<Ip, Window>, call: Call)
    requires call.ip in windows ==> SaturatingSub(call.at, windows[call.ip].start) >= cfg.window
    ensures Check(cfg, windows, call) == Checked(1 <= cfg.maxRequests, windows[call.ip := Window(1, call.at)])
  {
  }

  /** From the call that opens a window, exactly the first `maxRequests` calls of the address succeed. */
  lemma OpenedWindowAdmitsTheFirst(cfg: Config, windows: map<Ip, Window>, calls: seq<Call>, i: nat)
    requires i < |calls| && calls[i].ip == calls[0].ip && NeverWraps(cfg, windows, calls)
    requires calls[0].ip in windows ==> SaturatingSub(calls[0].at, windows[calls[0].ip].start) >= cfg.window
    requires forall c <- calls :: c.ip == calls[0].ip ==> SaturatingSub(c.at, calls[0].at) < cfg.window
    ensures Verdicts(cfg, windows, calls)[i] <==> CallsOf(calls[..i + 1], calls[0].ip) <= cfg.maxRequests
  {
    var ip, started := calls[0].ip, windows[calls[0].ip := Window(1, calls[0].at)];
    OpensWindow(cfg, windows, calls[0]);
    assert calls[..i + 1][1..] == calls[1..][..i];
    if i == 0 {
      assert CallsOf(calls[..1][1..], ip) == 0;
    } else {
      WindowAdmitsTheFirst(cfg, started, calls[1..], ip, i - 1);
      assert calls[1..][..i - 1 + 1] == calls[1..][..i];
    }
  }

  // ---------- the bound is met ----------

  function Burst(ip: Ip, at: nat, n: nat): (r: seq<Call>)
    ensures |r| == n && forall i :: 0 <= i < n ==> r[i] == Call(ip, at)
  {
    if n == 0 then [] else [Call(ip, at)] + Burst(ip, at, n - 1)
  }

  lemma BurstUnrolls(ip: Ip, at: nat, n: nat, rest: seq<Call>)
    requires n > 0
    ensures Burst(ip, at, n) + rest == [Call(ip, at)] + (Burst(ip, at, n - 1) + rest)
  {
  }

  /** One address alone, at a call that keeps or opens its window with room to spare. */
  lemma OneAdmitted(
      cfg: Config, windows: map<Ip, Window>, w: Window, call: Call, rest: seq<Call>, lo: int, hi: int)
    requires Check(cfg, windows, call) == Checked(true, map[call.ip := w])
    ensures Admitted(cfg, windows, [call] + rest, call.ip, lo, hi) ==
            (if lo <= call.at < hi then 1 else 0) + Admitted(cfg, map[call.ip := w], rest, call.ip, lo, hi)
  {
    assert ([call] + rest)[1..] == rest;
  }

  lemma TakesOne(cfg: Config, w: Window, call: Call)
    requires w.start <= call.at < w.start + cfg.window && w.count < cfg.maxRequests
    ensures CurrentWindow(cfg, map[call.ip := w], call) == w
    ensures Check(cfg, map[call.ip := w], call) == Checked(true, map[call.ip := Window(w.count + 1, w.start)])
  {
    assert map[call.ip := w][call.ip := Window(w.count + 1, w.start)] == map[call.ip := Window(w.count + 1, w.start)];
  }

  /** A burst inside a running window is admitted as far as the budget goes, and leaves the window behind. */
  lemma {:induction false} BurstSpendsBudget(
      cfg: Config, w: Window, ip: Ip, at: nat, n: nat, rest: seq<Call>, lo: int, hi: int)
    requires w.start <= at < w.start + cfg.window && lo <= at < hi && w.count + n <= cfg.maxRequests
    ensures Admitted(cfg, map[ip := w], Burst(ip, at, n) + rest, ip, lo, hi) ==
            n + Admitted(cfg, map[ip := Window(w.count + n, w.start)], rest, ip, lo, hi)
    decreases n
  {
    if n == 0 {
      assert Burst(ip, at, n) + rest == rest;
    } else {
      var call, next, others := Call(ip, at), Window(w.count + 1, w.start), Burst(ip, at, n - 1) + rest;
      BurstUnrolls(ip, at, n, rest);
      TakesOne(cfg, w, call);
      OneAdmitted(cfg, map[ip := w], next, call, others, lo, hi);
      BurstSpendsBudget(cfg, next, ip, at, n - 1, rest, lo, hi);
    }
  }

  /** A burst at the end of a window, and what follows it at the start of the next one. */
  function Straddle(cfg: Config, ip: Ip): seq<Call>
    requires cfg.window > 1 && cfg.maxRequests > 0
  {
    [Call(ip, 0)] + (Burst(ip, cfg.window - 1, cfg.maxRequests - 1) + SecondHalf(cfg, ip))
  }

  function SecondHalf(cfg: Config, ip: Ip): seq<Call>
    requires cfg.maxRequests > 0
  {
    [Call(ip, cfg.window)] + (Burst(ip, cfg.window, cfg.maxRequests - 1) + [])
  }

  lemma JoinInOrder(x: seq<Call>, y: seq<Call>, t: int)
    requires InOrder(x) && InOrder(y)
    requires (forall i :: 0 <= i < |x| ==> x[i].at <= t) && forall i :: 0 <= i < |y| ==> t <= y[i].at
    ensures InOrder(x + y)
  {
  }

  lemma StraddleInOrder(cfg: Config, ip: Ip)
    requires cfg.window > 1 && cfg.maxRequests > 0
    ensures InOrder(Straddle(cfg, ip))
  {
    var w, n := cfg.window, cfg.maxRequests - 1;
    JoinInOrder([Call(ip, w)], Burst(ip, w, n) + [], w);
    JoinInOrder(Burst(ip, w - 1, n), SecondHalf(cfg, ip), w);
    JoinInOrder([Call(ip, 0)], Burst(ip, w - 1, n) + SecondHalf(cfg, ip), 0);
  }

  lemma SecondHalfAdmitted(cfg: Config, ip: Ip, lo: int, hi: int)
    requires cfg.window > 1 && cfg.maxRequests > 0 && lo <= cfg.window < hi
    ensures Admitted(cfg, map[ip := Window(cfg.maxRequests, 0)], SecondHalf(cfg, ip), ip, lo, hi) == cfg.maxRequests
  {
    var max, w := cfg.maxRequests, cfg.window;
    assert map[ip := Window(max, 0)][ip := Window(1, w)] == map[ip := Window(1, w)];
    OneAdmitted(cfg, map[ip := Window(max, 0)], Window(1, w), Call(ip, w), Burst(ip, w, max - 1) + [], lo, hi);
    BurstSpendsBudget(cfg, Window(1, w), ip, w, max - 1, [], lo, hi);
  }

  lemma OneMoreNeverWraps(cfg: Config, windows: map<Ip, Window>, w: Window, call: Call, rest: seq<Call>)
    requires CurrentWindow(cfg, windows, call).count < U64_MAX
    requires Check(cfg, windows, call).windows == map[call.ip := w] && NeverWraps(cfg, map[call.ip := w], rest)
    ensures NeverWraps(cfg, windows, [call] + rest)
  {
    assert ([call] + rest)[1..] == rest;
  }

  lemma CountedCallNeverWraps(cfg: Config, w: Window, call: Call, rest: seq<Call>)
    requires w.start <= call.at < w.start + cfg.window && w.count < cfg.maxRequests
    requires NeverWraps(cfg, map[call.ip := Window(w.count + 1, w.start)], rest)
    ensures NeverWraps(cfg, map[call.ip := w], [call] + rest)
  {
    TakesOne(cfg, w, call);
    OneMoreNeverWraps(cfg, map[call.ip := w], Window(w.count + 1, w.start), call, rest);
  }

  /** Bursts that stay within the limit never wrap. */
  lemma {:induction false} BurstNeverWraps(cfg: Config, w: Window, ip: Ip, at: nat, n: nat, rest: seq<Call>)
    requires w.start <= at < w.start + cfg.window && w.count + n <= cfg.maxRequests
    requires NeverWraps(cfg, map[ip := Window(w.count + n, w.start)], rest)
    ensures NeverWraps(cfg, map[ip := w], Burst(ip, at, n) + rest)
    decreases n
  {
    if n == 0 {
      assert Burst(ip, at, n) + rest == rest;
    } else {
      BurstUnrolls(ip, at, n, rest);
      BurstNeverWraps(cfg, Window(w.count + 1, w.start), ip, at, n - 1, rest);
      CountedCallNeverWraps(cfg, w, Call(ip, at), Burst(ip, at, n - 1) + rest);
    }
  }

  lemma FirstHalfNeverWraps(cfg: Config, ip: Ip, rest: seq<Call>)
    requires cfg.window > 1 && cfg.maxRequests > 0
    requires NeverWraps(cfg, map[ip := Window(cfg.maxRequests, 0)], rest)
    ensures NeverWraps(cfg, map[], [Call(ip, 0)] + (Burst(ip, cfg.window - 1, cfg.maxRequests - 1) + rest))
  {
    BurstNeverWraps(cfg, Window(1, 0), ip, cfg.window - 1, cfg.maxRequests - 1, rest);
    OneMoreNeverWraps(cfg, map[], Window(1, 0), Call(ip, 0), Burst(ip, cfg.window - 1, cfg.maxRequests - 1) + rest);
  }

  lemma StraddleNeverWraps(cfg: Config, ip: Ip)
    requires cfg.window > 1 && cfg.maxRequests > 0
    ensures NeverWraps(cfg, map[], Straddle(cfg, ip))
  {
    SecondHalfNeverWraps(cfg, ip);
    FirstHalfNeverWraps(cfg, ip, SecondHalf(cfg, ip));
  }

  lemma SecondHalfNeverWraps(cfg: Config, ip: Ip)
    requires cfg.window > 1 && cfg.maxRequests > 0
    ensures NeverWraps(cfg, map[ip := Window(cfg.maxRequests, 0)], SecondHalf(cfg, ip))
  {
    var max, w := cfg.maxRequests, cfg.window;
    BurstNeverWraps(cfg, Window(1, w), ip, w, max - 1, []);
    assert map[ip := Window(max, 0)][ip := Window(1, w)] == map[ip := Window(1, w)];
    OneMoreNeverWraps(cfg, map[ip := Window(max, 0)], Window(1, w), Call(ip, w), Burst(ip, w, max - 1) + []);
  }

  /** For every configuration whose window is longer than one tick, some run reaches the bound. */
  lemma BoundIsMet(cfg: Config, ip: Ip)
    requires cfg.window > 1 && cfg.maxRequests > 0
    ensures InOrder(Straddle(cfg, ip)) && NeverWraps(cfg, map[], Straddle(cfg, ip))
    ensures Admitted(cfg, map[], Straddle(cfg, ip), ip, cfg.window - 1, 2 * cfg.window - 1) == 2 * cfg.maxRequests - 1
  {
    var lo, hi, max := cfg.window - 1, 2 * cfg.window - 1, cfg.maxRequests;
    var second := SecondHalf(cfg, ip);
    StraddleInOrder(cfg, ip);
    StraddleNeverWraps(cfg, ip);
    OneAdmitted(cfg, map[], Window(1, 0), Call(ip, 0), Burst(ip, lo, max - 1) + second, lo, hi);
    BurstSpendsBudget(cfg, Window(1, 0), ip, lo, max - 1, second, lo, hi);
    SecondHalfAdmitted(cfg, ip, lo, hi);
  }

  // ---------- when the limit itself is a bound ----------

  /** What a one-tick interval can admit: the rest of a window opened in it, or a whole one. */
  function TickBound(cfg: Config, windows: map<Ip, Window>, ip: Ip, lo: int): nat {
    if ip in windows && windows[ip].start >= lo then Budget(cfg, windows[ip]) else cfg.maxRequests
  }

  ghost predicate StartedBy(windows: map<Ip, Window>, t: int) {
    forall ip <- windows :: windows[ip].start <= t
  }

  lemma CallSpendsTickBound(cfg: Config, windows: map<Ip, Window>, call: Call, ip: Ip, lo: int)
    requires cfg.window == 1 && call.at <= lo && StartedBy(windows, call.at)
    requires CurrentWindow(cfg, windows, call).count < U64_MAX
    ensures var r := Check(cfg, windows, call);
            && StartedBy(r.windows, call.at)
            && (if call.ip == ip && lo <= call.at && r.allowed then 1 else 0) + TickBound(cfg, r.windows, ip, lo)
               <= TickBound(cfg, windows, ip, lo)
  {
  }

  lemma {:induction false} AdmittedWithinTick(cfg: Config, windows: map<Ip, Window>, calls: seq<Call>, ip: Ip,
                                              lo: int, hi: int)
    requires cfg.window == 1 && hi <= lo + 1
    requires InOrder(calls) && NeverWraps(cfg, windows, calls) && (calls != [] ==> StartedBy(windows, calls[0].at))
    ensures Admitted(cfg, windows, calls, ip, lo, hi) <= TickBound(cfg, windows, ip, lo)
    decreases calls
  {
    if calls == [] {
    } else if calls[0].at >= hi {
      NoneAdmittedOutside(cfg, windows, calls, ip, lo, hi);
    } else {
      var r := Check(cfg, windows, calls[0]);
      CallSpendsTickBound(cfg, windows, calls[0], ip, lo);
      AdmittedWithinTick(cfg, r.windows, calls[1..], ip, lo, hi);
    }
  }

  /** No interval as long as a window admits more than the limit, in any run from a new store. */
  ghost predicate LimitHolds(cfg: Config) {
    forall calls: seq<Call>, ip: Ip, lo: int, hi: int ::
      InOrder(calls) && NeverWraps(cfg, map[], calls) && hi <= lo + cfg.window ==>
        Admitted(cfg, map[], calls, ip, lo, hi) <= cfg.maxRequests
  }

  /** That is so exactly when at most one call is allowed, or the window has at most one tick. */
  lemma LimitHoldsIff(cfg: Config)
    ensures LimitHolds(cfg) <==> cfg.maxRequests <= 1 || cfg.window <= 1
  {
    if cfg.maxRequests <= 1 || cfg.window <= 1 {
      forall calls: seq<Call>, ip: Ip, lo: int, hi: int
        | InOrder(calls) && NeverWraps(cfg, map[], calls) && hi <= lo + cfg.window
        ensures Admitted(cfg, map[], calls, ip, lo, hi) <= cfg.maxRequests
      {
        if cfg.window == 1 {
          AdmittedWithinTick(cfg, map[], calls, ip, lo, hi);
        } else if cfg.window == 0 {
          NoneAdmittedOutside(cfg, map[], calls, ip, lo, hi);
        } else {
          IntervalAdmitsUnderTwoWindows(cfg, calls, ip, lo, hi);
        }
      }
    } else {
      BoundIsMet(cfg, 0);
    }
  }

  /** Runs of fewer than 2^64 calls need no condition on counters: both bounds hold in all of them. */
  lemma ShortRunsAreLimited(cfg: Config, calls: seq<Call>, ip: Ip, lo: int, hi: int)
    requires InOrder(calls) && |calls| <= U64_MAX && hi <= lo + cfg.window
    ensures Admitted(cfg, map[], calls, ip, lo, hi) <= SaturatingSub(2 * cfg.maxRequests, 1)
    ensures cfg.maxRequests <= 1 || cfg.window <= 1 ==> Admitted(cfg, map[], calls, ip, lo, hi) <= cfg.maxRequests
  {
    ShortRunsNeverWrap(cfg, map[], calls);
    IntervalAdmitsUnderTwoWindows(cfg, calls, ip, lo, hi);
    LimitHoldsIff(cfg);
  }
}
