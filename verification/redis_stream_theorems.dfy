/** Properties of every run of the stream consumers. */
module RedisStreamTheorems {
  import opened RedisStreamModel
  import opened RedisStreamInvariants

  function Reached(cfg: Config, processes: nat, schedule: seq<Event>): Sys {
    Exec(Init(cfg, processes), schedule)
  }

  lemma {:induction false} ReachedInv(cfg: Config, processes: nat, schedule: seq<Event>)
    ensures Inv(Reached(cfg, processes, schedule)) && Reached(cfg, processes, schedule).cfg == cfg
    ensures |Reached(cfg, processes, schedule).procs| == processes
  {
    InitInv(cfg, processes);
    ExecKeeps(Init(cfg, processes), schedule);
  }

  // ---------------------------------------------------------------- conservation

  /** Every entry is unread, pending or acknowledged, split by the group's cursor, and it was
      acknowledged only after a handler call on it succeeded or the poison rule fired. */
  predicate Conserved(s: Sys) {
    forall i :: 0 <= i < |s.entries| ==>
      && (s.entries[i].state.Unread? <==> s.next <= i)
      && (s.entries[i].state == Acked(Handled) ==> s.entries[i].handled && s.entries[i].calls > 0)
      && (s.entries[i].state == Acked(Poison) ==> 0 < s.cfg.maxDeliveries < s.entries[i].deliveries)
  }

  /** This holds in every reachable state, whatever was shut down, crashed or lost on the way; and
      from any state to any later one no entry disappears or goes back. */
  lemma {:induction false} EntriesAreConserved(cfg: Config, processes: nat, before: seq<Event>, later: seq<Event>)
    ensures var s := Reached(cfg, processes, before); var s' := Exec(s, later);
            && Conserved(s) && Conserved(s') && |s.entries| <= |s'.entries|
            && forall i :: 0 <= i < |s.entries| ==>
                 && (s.entries[i].state.Acked? ==> s'.entries[i].state == s.entries[i].state)
                 && (s.entries[i].state.Pending? ==> !s'.entries[i].state.Unread?)
  {
    ReachedInv(cfg, processes, before);
    ExecKeeps(Reached(cfg, processes, before), later);
  }

  /** Step k of this run is the return of a handler call on entry i, with success. */
  predicate SucceedsAt(s: Sys, schedule: seq<Event>, k: nat, i: nat) {
    && k < |schedule|
    && var sk, e := Exec(s, schedule[..k]), schedule[k];
       Enabled(sk, e) && e.Return? && e.ok && sk.procs[e.p].jobs[e.j] == Calling(i)
  }

  predicate IsHandled(s: Sys, i: nat) {
    i < |s.entries| && s.entries[i].handled
  }

  lemma HandledStep(s: Sys, e: Event, i: nat)
    requires Enabled(s, e) && IsHandled(Fire(s, e), i) && !IsHandled(s, i)
    ensures e.Return? && e.ok && s.procs[e.p].jobs[e.j] == Calling(i)
  {
  }

  lemma {:induction false} HandledRun(s: Sys, schedule: seq<Event>, i: nat) returns (k: nat)
    requires IsHandled(Exec(s, schedule), i) && !IsHandled(s, i)
    ensures SucceedsAt(s, schedule, k, i)
    decreases |schedule|
  {
    hide Enabled, Fire, IsHandled;
    var s1 := Apply(s, schedule[0]);
    if IsHandled(s1, i) {
      HandledStep(s, schedule[0], i);
      k := 0;
    } else {
      var k1 := HandledRun(s1, schedule[1..], i);
      k := k1 + 1;
      assert schedule[..k][1..] == schedule[1..][..k1];
    }
  }

  /** In every run an entry that was acknowledged as handled had a handler call that returned nil. */
  lemma {:induction false} AckedWereHandled(cfg: Config, processes: nat, schedule: seq<Event>, i: nat)
    requires var s := Reached(cfg, processes, schedule); i < |s.entries| && s.entries[i].state == Acked(Handled)
    ensures exists k: nat :: SucceedsAt(Init(cfg, processes), schedule, k, i)
  {
    ReachedInv(cfg, processes, schedule);
    var k := HandledRun(Init(cfg, processes), schedule, i);
  }

  // ---------------------------------------------------------------- shutdown

  /** Messages on their way to the workers of a process. */
  function OnTheWay(pr: Proc): nat {
    |pr.hand| + |pr.queue| + if pr.reclaimer.Delivering? then |pr.reclaimer.left| else 0
  }

  /** A process that was shut down only winds up: nothing new reaches it, it begins no handler call and
      no reclaim pass. */
  predicate WindsUp(pr: Proc, pr': Proc) {
    && pr'.cancelled && OnTheWay(pr') <= OnTheWay(pr) && |pr'.jobs| <= |pr.jobs|
    && (pr.reclaimer.Waiting? ==> pr'.reclaimer.Waiting?)
    && (pr'.reclaimer.Delivering? ==> pr.reclaimer.Delivering?)
  }

  lemma WindsUpStep(s: Sys, e: Event, p: nat)
    requires Enabled(s, e) && p < |s.procs| && s.procs[p].cancelled && e != Boot(p)
    ensures p < |Fire(s, e).procs| && WindsUp(s.procs[p], Fire(s, e).procs[p])
  {
  }

  lemma {:induction false} WindsUpRun(s: Sys, later: seq<Event>, p: nat)
    requires p < |s.procs| && s.procs[p].cancelled && Boot(p) !in later
    ensures p < |Exec(s, later).procs| && WindsUp(s.procs[p], Exec(s, later).procs[p])
    decreases |later|
  {
    hide Enabled, Fire;
    if later != [] {
      if Enabled(s, later[0]) {
        WindsUpStep(s, later[0], p);
      }
      WindsUpRun(Apply(s, later[0]), later[1..], p);
    }
  }

  /** From a shutdown on, in every run, until it is started afresh, the process only winds up. */
  lemma {:induction false} ShutdownWindsUp(cfg: Config, processes: nat, before: seq<Event>, later: seq<Event>, p: nat)
    requires Boot(p) !in later
    requires var s := Reached(cfg, processes, before); p < |s.procs| && s.procs[p].running
    ensures var s := Reached(cfg, processes, before); var s' := Exec(s, [Shutdown(p)] + later);
            p < |s'.procs| && WindsUp(s.procs[p], s'.procs[p])
  {
    var s := Reached(cfg, processes, before);
    assert ([Shutdown(p)] + later)[1..] == later;
    WindsUpRun(Apply(s, Shutdown(p)), later, p);
  }

  // ---------------------------------------------------------------- limits

  predicate WithinLimits(cfg: Config, pr: Proc) {
    |pr.jobs| <= cfg.concurrency && |pr.queue| <= cfg.bufferSize && |pr.hand| <= cfg.bufferSize
  }

  lemma LimitsStep(s: Sys, e: Event, p: nat)
    requires Enabled(s, e) && p < |s.procs| && WithinLimits(s.cfg, s.procs[p])
    ensures var s' := Fire(s, e); s'.cfg == s.cfg && |s'.procs| == |s.procs| && WithinLimits(s.cfg, s'.procs[p])
  {
  }

  lemma {:induction false} LimitsRun(s: Sys, schedule: seq<Event>, p: nat)
    requires p < |s.procs| && WithinLimits(s.cfg, s.procs[p])
    ensures var s' := Exec(s, schedule); p < |s'.procs| && WithinLimits(s.cfg, s'.procs[p])
    decreases |schedule|
  {
    hide Enabled, Fire, WithinLimits;
    if schedule != [] {
      if Enabled(s, schedule[0]) {
        LimitsStep(s, schedule[0], p);
      }
      LimitsRun(Apply(s, schedule[0]), schedule[1..], p);
    }
  }

  /** In every run a process runs at most as many handler calls at a time as it has workers, and holds no
      more messages than its channel and one read are for. */
  lemma {:induction false} ProcessesKeepLimits(cfg: Config, processes: nat, schedule: seq<Event>, p: nat)
    requires p < processes
    ensures var s := Reached(cfg, processes, schedule); p < |s.procs| && WithinLimits(cfg, s.procs[p])
  {
    LimitsRun(Init(cfg, processes), schedule, p);
  }

  // ---------------------------------------------------------------- the delivery bound

  /** How many deliveries past the cutoff are possible. Each needs a reclaimer of its own that surveyed
      before the first of them; consecutive ones are a visibility timeout apart; and the contexts of
      all these reclaimers end five seconds after the first at the latest. */
  function Extra(cfg: Config, processes: nat): nat
    requires cfg.visibility > 0
  {
    if processes <= 1 + 5000 / cfg.visibility then processes else 1 + 5000 / cfg.visibility
  }

  lemma DivBound(n: nat, v: nat, d: nat)
    requires v > 0
    ensures n * v <= d <==> n <= d / v
  {
    assert d == (d / v) * v + d % v;
    if n <= d / v {
      assert n * v <= (d / v) * v;
    } else {
      assert n * v >= (d / v + 1) * v == (d / v) * v + v;
    }
  }

  lemma BoundOfOne(cfg: Config, s: Sys, i: nat)
    requires Inv(s) && s.cfg == cfg && cfg.maxDeliveries > 0 && cfg.visibility > 0 && i < |s.entries|
    ensures s.entries[i].calls <= s.entries[i].deliveries <= cfg.maxDeliveries + Extra(cfg, |s.procs|)
  {
    var e := s.entries[i];
    assert e.calls + Sum(s.procs, Copies(i)) <= e.deliveries;
    if e.deliveries > cfg.maxDeliveries {
      assert e.deliveries - cfg.maxDeliveries + Sum(s.procs, Claimants(cfg, i)) <= |s.procs|;
      assert LagOk(cfg, e, s.now);
      DivBound(e.deliveries - cfg.maxDeliveries - 1, cfg.visibility, DEADLINE);
    }
  }

  function TotalDeliveries(entries: seq<Entry>): nat {
    if entries == [] then 0 else entries[0].deliveries + TotalDeliveries(entries[1..])
  }

  lemma {:induction false} TotalAtMost(entries: seq<Entry>, bound: nat)
    requires forall i :: 0 <= i < |entries| ==> entries[i].deliveries <= bound
    ensures TotalDeliveries(entries) <= |entries| * bound
  {
    if entries != [] {
      TotalAtMost(entries[1..], bound);
      assert |entries| * bound == bound + |entries[1..]| * bound;
    }
  }

  /** With a cutoff M > 0, R processes that reclaim for the group and a visibility timeout of V ms, no
      entry is delivered more than M + min(R, 1 + 5000 / V) times and no handler sees it more often
      than that, even if every call fails. */
  lemma {:induction false} DeliveriesAreBounded(cfg: Config, processes: nat, schedule: seq<Event>)
    requires cfg.maxDeliveries > 0 && cfg.visibility > 0
    ensures var s := Reached(cfg, processes, schedule); var bound := cfg.maxDeliveries + Extra(cfg, processes);
            && (forall i :: 0 <= i < |s.entries| ==> s.entries[i].calls <= s.entries[i].deliveries <= bound)
            && TotalDeliveries(s.entries) <= |s.entries| * bound
  {
    var s := Reached(cfg, processes, schedule);
    ReachedInv(cfg, processes, schedule);
    forall i: nat | i < |s.entries|
      ensures s.entries[i].calls <= s.entries[i].deliveries <= cfg.maxDeliveries + Extra(cfg, processes)
    {
      BoundOfOne(cfg, s, i);
    }
    TotalAtMost(s.entries, cfg.maxDeliveries + Extra(cfg, processes));
  }

  /** One reclaimer for the group: at most M + 1 deliveries each. */
  lemma {:induction false} OneReclaimer(cfg: Config, schedule: seq<Event>)
    requires cfg.maxDeliveries > 0 && cfg.visibility > 0
    ensures var s := Reached(cfg, 1, schedule);
            && (forall i :: 0 <= i < |s.entries| ==> s.entries[i].deliveries <= cfg.maxDeliveries + 1)
            && TotalDeliveries(s.entries) <= |s.entries| * (cfg.maxDeliveries + 1)
  {
    DeliveriesAreBounded(cfg, 1, schedule);
  }

  // ---------------------------------------------------------------- the bound is exact

  lemma {:induction false} ExecConcat(s: Sys, a: seq<Event>, b: seq<Event>)
    ensures Exec(s, a + b) == Exec(Exec(s, a), b)
    decreases |a|
  {
    if a == [] {
      assert a + b == b;
    } else {
      assert (a + b)[0] == a[0] && (a + b)[1..] == a[1..] + b;
      ExecConcat(Apply(s, a[0]), a[1..], b);
    }
  }

  lemma {:induction false} ExecOne(s: Sys, e: Event, rest: seq<Event>)
    ensures Exec(s, [e] + rest) == Exec(Apply(s, e), rest)
  {
    assert ([e] + rest)[1..] == rest;
  }

  /** One entry, pending after d deliveries that all went wrong, the last one at time `last`. */
  function Lone(cfg: Config, d: nat, last: nat, now: nat, procs: seq<Proc>): Sys {
    Sys(cfg, now, [Entry(Pending, d, last, 0, false)], 1, procs)
  }

  function Surveyor(now: nat): Proc {
    IDLE_PROC.(reclaimer := Scanning([], [0], now + DEADLINE))
  }

  /** The reports on this one entry. */
  lemma LoneReport(cfg: Config, d: nat, last: nat, now: nat, procs: seq<Proc>)
    requires cfg.bufferSize > 0 && last + cfg.visibility <= now
    ensures PendingList(cfg, Lone(cfg, d, last, now, procs).entries, 0, cfg.bufferSize, now) == [Info(0, true, d)]
  {
    assert PendingList(cfg, Lone(cfg, d, last, now, procs).entries, 1, cfg.bufferSize - 1, now) == [];
  }

  /** A reclaimer that finds the entry idle and not past the cutoff decides to claim it. */
  lemma LoneSurvey(cfg: Config, d: nat, last: nat, now: nat, procs: seq<Proc>, p: nat)
    requires cfg.bufferSize > 0 && p < |procs| && procs[p] == IDLE_PROC && last + cfg.visibility <= now
    requires cfg.maxDeliveries <= 0 || d <= cfg.maxDeliveries
    ensures Exec(Lone(cfg, d, last, now, procs), [Survey(p), Scan(p, true)]) == Lone(cfg, d, last, now, procs[p := Surveyor(now)])
  {
    var s := Lone(cfg, d, last, now, procs);
    var infos := [Info(0, true, d)];
    LoneReport(cfg, d, last, now, procs);
    var s1 := With(s, p, IDLE_PROC.(reclaimer := Scanning(infos, [], now + DEADLINE)));
    assert Apply(s, Survey(p)) == s1;
    assert infos[1..] == [] && [] + [infos[0].id] == [0];
    assert Apply(s1, Scan(p, true)) == With(s1, p, Surveyor(now)) == Lone(cfg, d, last, now, procs[p := Surveyor(now)]);
    ExecOne(s, Survey(p), [Scan(p, true)]);
    ExecOne(s1, Scan(p, true), []);
    assert [Survey(p)] + [Scan(p, true)] == [Survey(p), Scan(p, true)];
    assert [Scan(p, true)] + [] == [Scan(p, true)];
  }

  /** Its claim, within its five seconds, of an entry that is idle. */
  lemma LoneClaim(cfg: Config, d: nat, last: nat, now: nat, procs: seq<Proc>, p: nat, surveyed: nat)
    requires p < |procs| && procs[p] == Surveyor(surveyed) && now <= surveyed + DEADLINE && last + cfg.visibility <= now
    ensures Apply(Lone(cfg, d, last, now, procs), Claim(p, true)) == Lone(cfg, d + 1, now, now, procs[p := IDLE_PROC])
  {
    var s := Lone(cfg, d, last, now, procs);
    assert Claimed(cfg, s.entries, now, [0]) == [0] + Claimed(cfg, s.entries, now, []) == [0];
    assert Deliver(s.entries, [0], now) == [Entry(Pending, d + 1, now, 0, false)];
  }

  lemma LoneWait(cfg: Config, d: nat, last: nat, now: nat, procs: seq<Proc>, w: nat)
    ensures Apply(Lone(cfg, d, last, now, procs), Wait(w)) == Lone(cfg, d, last, now + w, procs)
  {
  }

  function Pass(cfg: Config): seq<Event> {
    [Wait(cfg.visibility)] + ([Survey(0), Scan(0, true)] + [Claim(0, true)])
  }

  /** A whole reclaim pass whose reply is lost. */
  lemma LonePass(cfg: Config, d: nat, now: nat, procs: seq<Proc>)
    requires cfg.bufferSize > 0 && |procs| > 0 && procs[0] == IDLE_PROC
    requires cfg.maxDeliveries <= 0 || d <= cfg.maxDeliveries
    ensures Exec(Lone(cfg, d, now, now, procs), Pass(cfg)) == Lone(cfg, d + 1, now + cfg.visibility, now + cfg.visibility, procs)
  {
    var t := now + cfg.visibility;
    LoneWait(cfg, d, now, now, procs, cfg.visibility);
    LoneSurvey(cfg, d, now, t, procs, 0);
    LoneClaim(cfg, d, now, t, procs[0 := Surveyor(t)], 0, t);
    assert procs[0 := Surveyor(t)][0 := IDLE_PROC] == procs;
    ExecOne(Lone(cfg, d, now, now, procs), Wait(cfg.visibility), [Survey(0), Scan(0, true)] + [Claim(0, true)]);
    ExecConcat(Lone(cfg, d, now, t, procs), [Survey(0), Scan(0, true)], [Claim(0, true)]);
    ExecOne(Lone(cfg, d, now, t, procs[0 := Surveyor(t)]), Claim(0, true), []);
    assert [Claim(0, true)] + [] == [Claim(0, true)];
  }

  /** One reclaimer alone raises the count by n, until it is past the cutoff, if there is one. */
  lemma {:induction false} LoneReclaims(cfg: Config, d: nat, now: nat, procs: seq<Proc>, n: nat) returns (schedule: seq<Event>, t: nat)
    requires cfg.bufferSize > 0 && |procs| > 0 && procs[0] == IDLE_PROC
    requires cfg.maxDeliveries <= 0 || d + n <= cfg.maxDeliveries + 1
    ensures Exec(Lone(cfg, d, now, now, procs), schedule) == Lone(cfg, d + n, t, t, procs)
    decreases n
  {
    if n == 0 {
      schedule, t := [], now;
    } else {
      LonePass(cfg, d, now, procs);
      var rest;
      rest, t := LoneReclaims(cfg, d + 1, now + cfg.visibility, procs, n - 1);
      ExecConcat(Lone(cfg, d, now, now, procs), Pass(cfg), rest);
      schedule := Pass(cfg) + rest;
    }
  }

  /** Processes from `first` on up to `last` are b, the others are a. */
  function Mixed(first: nat, last: nat, total: nat, a: Proc, b: Proc): seq<Proc> {
    seq(total, p => if first <= p < last then b else a)
  }

  /** The first x reclaimers survey at the same time, before any of them claims. */
  lemma {:induction false} AllSurvey(cfg: Config, d: nat, last: nat, now: nat, total: nat, x: nat, p: nat) returns (schedule: seq<Event>)
    requires cfg.bufferSize > 0 && p <= x <= total && d <= cfg.maxDeliveries && last + cfg.visibility <= now
    ensures Exec(Lone(cfg, d, last, now, Mixed(0, p, total, IDLE_PROC, Surveyor(now))), schedule)
         == Lone(cfg, d, last, now, Mixed(0, x, total, IDLE_PROC, Surveyor(now)))
    decreases x - p
  {
    if p == x {
      schedule := [];
    } else {
      var procs := Mixed(0, p, total, IDLE_PROC, Surveyor(now));
      LoneSurvey(cfg, d, last, now, procs, p);
      assert procs[p := Surveyor(now)] == Mixed(0, p + 1, total, IDLE_PROC, Surveyor(now));
      var rest := AllSurvey(cfg, d, last, now, total, x, p + 1);
      ExecConcat(Lone(cfg, d, last, now, procs), [Survey(p), Scan(p, true)], rest);
      schedule := [Survey(p), Scan(p, true)] + rest;
    }
  }

  lemma OneTimeout(n: nat, v: nat)
    ensures (n + 1) * v == n * v + v && n * v >= 0
  {
  }

  /** They claim one after the other, a visibility timeout apart, as long as their contexts last:
      reclaimer p now, and n more after it. */
  lemma {:induction false} AllClaim(cfg: Config, d: nat, last: nat, now: nat, procs: seq<Proc>, p: nat, n: nat, surveyed: nat)
    returns (schedule: seq<Event>)
    requires p + n < |procs| && forall q :: p <= q <= p + n ==> procs[q] == Surveyor(surveyed)
    requires last + cfg.visibility <= now && now + n * cfg.visibility <= surveyed + DEADLINE
    ensures var s := Exec(Lone(cfg, d, last, now, procs), schedule); |s.entries| == 1 && s.entries[0].deliveries == d + 1 + n
    decreases n
  {
    OneTimeout(n, cfg.visibility);
    var procs' := procs[p := IDLE_PROC];
    var rest := [];
    if n > 0 {
      OneTimeout(n - 1, cfg.visibility);
      var more := AllClaim(cfg, d + 1, now, now + cfg.visibility, procs', p + 1, n - 1, surveyed);
      WaitThen(cfg, d + 1, now, procs', more);
      rest := [Wait(cfg.visibility)] + more;
    }
    ClaimThen(cfg, d, last, now, procs, procs', p, surveyed, rest);
    schedule := [Claim(p, true)] + rest;
  }

  lemma {:induction false} WaitThen(cfg: Config, d: nat, now: nat, procs: seq<Proc>, rest: seq<Event>)
    ensures Exec(Lone(cfg, d, now, now, procs), [Wait(cfg.visibility)] + rest)
         == Exec(Lone(cfg, d, now, now + cfg.visibility, procs), rest)
  {
    LoneWait(cfg, d, now, now, procs, cfg.visibility);
    ExecOne(Lone(cfg, d, now, now, procs), Wait(cfg.visibility), rest);
  }

  lemma {:induction false} ClaimThen(cfg: Config, d: nat, last: nat, now: nat, procs: seq<Proc>, procs': seq<Proc>, p: nat, surveyed: nat,
                                     rest: seq<Event>)
    requires p < |procs| && procs[p] == Surveyor(surveyed) && now <= surveyed + DEADLINE && last + cfg.visibility <= now
    requires procs' == procs[p := IDLE_PROC]
    ensures Exec(Lone(cfg, d, last, now, procs), [Claim(p, true)] + rest) == Exec(Lone(cfg, d + 1, now, now, procs'), rest)
  {
    LoneClaim(cfg, d, last, now, procs, p, surveyed);
    ExecOne(Lone(cfg, d, last, now, procs), Claim(p, true), rest);
  }

  lemma {:induction false} AllBoot(cfg: Config, total: nat, p: nat) returns (schedule: seq<Event>)
    requires p <= total
    ensures Exec(Sys(cfg, 0, [], 0, Mixed(0, p, total, DEAD_PROC, IDLE_PROC)), schedule)
         == Sys(cfg, 0, [], 0, Mixed(0, total, total, DEAD_PROC, IDLE_PROC))
    decreases total - p
  {
    if p == total {
      schedule := [];
    } else {
      var s := Sys(cfg, 0, [], 0, Mixed(0, p, total, DEAD_PROC, IDLE_PROC));
      assert Apply(s, Boot(p)) == Sys(cfg, 0, [], 0, Mixed(0, p + 1, total, DEAD_PROC, IDLE_PROC)) by {
        assert s.procs[p := IDLE_PROC] == Mixed(0, p + 1, total, DEAD_PROC, IDLE_PROC);
      }
      var rest := AllBoot(cfg, total, p + 1);
      ExecOne(s, Boot(p), rest);
      schedule := [Boot(p)] + rest;
    }
  }

  function AllIdle(total: nat): seq<Proc> {
    seq(total, _ => IDLE_PROC)
  }

  /** A run to one entry that was read once, by a reader whose reply was lost. */
  lemma {:induction false} Opening(cfg: Config, total: nat) returns (schedule: seq<Event>)
    requires cfg.bufferSize > 0 && total > 0
    ensures Reached(cfg, total, schedule) == Lone(cfg, 1, 0, 0, AllIdle(total))
  {
    var boot := AllBoot(cfg, total, 0);
    assert Init(cfg, total).procs == Mixed(0, 0, total, DEAD_PROC, IDLE_PROC);
    var procs := AllIdle(total);
    assert Mixed(0, total, total, DEAD_PROC, IDLE_PROC) == procs;
    var s0 := Sys(cfg, 0, [], 0, procs);
    var s1 := Sys(cfg, 0, [NEW_ENTRY], 0, procs);
    assert Apply(s0, Add) == s1;
    assert Range(0, 1) == [0];
    assert Deliver(s1.entries, [0], 0) == [Entry(Pending, 1, 0, 0, false)];
    assert Apply(s1, Read(0, 1, true)) == Lone(cfg, 1, 0, 0, procs);
    ExecOne(s0, Add, [Read(0, 1, true)]);
    ExecOne(s1, Read(0, 1, true), []);
    assert [Read(0, 1, true)] + [] == [Read(0, 1, true)];
    ExecConcat(Init(cfg, total), boot, [Add] + [Read(0, 1, true)]);
    schedule := boot + ([Add] + [Read(0, 1, true)]);
  }

  /** Some run raises the count of one entry to d, if d is at most one past the cutoff. */
  lemma {:induction false} Raised(cfg: Config, processes: nat, d: nat) returns (schedule: seq<Event>, t: nat)
    requires cfg.bufferSize > 0 && processes > 0 && d > 0
    requires cfg.maxDeliveries <= 0 || d <= cfg.maxDeliveries + 1
    ensures Reached(cfg, processes, schedule) == Lone(cfg, d, t, t, AllIdle(processes))
  {
    var opening := Opening(cfg, processes);
    var raise;
    raise, t := LoneReclaims(cfg, 1, 0, AllIdle(processes), d - 1);
    ExecConcat(Init(cfg, processes), opening, raise);
    schedule := opening + raise;
  }

  /** The bound is reached for every cutoff, every number of reclaimers and every visibility timeout:
      as many reclaimers as can be served survey the entry at its M-th delivery and then claim it one
      after the other, a timeout apart. */
  lemma {:induction false} BoundIsExact(cfg: Config, processes: nat) returns (schedule: seq<Event>)
    requires cfg.maxDeliveries > 0 && cfg.bufferSize > 0 && processes > 0 && cfg.visibility > 0
    ensures var s := Reached(cfg, processes, schedule);
            |s.entries| == 1 && s.entries[0].deliveries == cfg.maxDeliveries + Extra(cfg, processes)
  {
    var m, x := cfg.maxDeliveries, Extra(cfg, processes);
    var raise, t := Raised(cfg, processes, m);
    var now := t + cfg.visibility;
    var idle := AllIdle(processes);
    assert idle == Mixed(0, 0, processes, IDLE_PROC, Surveyor(now));
    var survey := AllSurvey(cfg, m, t, now, processes, x, 0);
    DivBound(x - 1, cfg.visibility, DEADLINE);
    var claim := AllClaim(cfg, m, t, now, Mixed(0, x, processes, IDLE_PROC, Surveyor(now)), 0, x - 1, now);
    LoneWait(cfg, m, t, t, idle, cfg.visibility);
    ExecConcat(Init(cfg, processes), raise, [Wait(cfg.visibility)] + (survey + claim));
    ExecOne(Lone(cfg, m, t, t, idle), Wait(cfg.visibility), survey + claim);
    ExecConcat(Lone(cfg, m, t, now, idle), survey, claim);
    schedule := raise + ([Wait(cfg.visibility)] + (survey + claim));
  }

  /** No run delivers any entry more often than `bound`. */
  ghost predicate NeverMoreThan(cfg: Config, processes: nat, bound: int) {
    forall schedule: seq<Event>, i: nat :: i < |Reached(cfg, processes, schedule).entries| ==>
      Reached(cfg, processes, schedule).entries[i].deliveries <= bound
  }

  /** So M + min(R, 1 + 5000 / V) is the least bound there is. */
  lemma {:induction false} LeastBound(cfg: Config, processes: nat, bound: int)
    requires cfg.maxDeliveries > 0 && cfg.bufferSize > 0 && processes > 0 && cfg.visibility > 0
    ensures NeverMoreThan(cfg, processes, bound) <==> cfg.maxDeliveries + Extra(cfg, processes) <= bound
  {
    var schedule := BoundIsExact(cfg, processes);
    assert Reached(cfg, processes, schedule).entries[0].deliveries == cfg.maxDeliveries + Extra(cfg, processes);
    forall schedule: seq<Event>, i: nat | i < |Reached(cfg, processes, schedule).entries|
      ensures Reached(cfg, processes, schedule).entries[i].deliveries <= cfg.maxDeliveries + Extra(cfg, processes)
    {
      DeliveriesAreBounded(cfg, processes, schedule);
    }
  }

  /** One more than the cutoff is a bound exactly if there is a single reclaimer, or the visibility
      timeout is longer than a reclaim pass may take. */
  lemma {:induction false} OneExtraIff(cfg: Config, processes: nat)
    requires cfg.maxDeliveries > 0 && cfg.bufferSize > 0 && processes > 0 && cfg.visibility > 0
    ensures NeverMoreThan(cfg, processes, cfg.maxDeliveries + 1) <==> processes == 1 || cfg.visibility > 5000
  {
    LeastBound(cfg, processes, cfg.maxDeliveries + 1);
    DivBound(1, cfg.visibility, DEADLINE);
  }

  /** Without a cutoff there is no bound at all: one reclaimer delivers an entry any number of times. */
  lemma {:induction false} NoCutoffNoBound(cfg: Config, n: nat) returns (schedule: seq<Event>)
    requires cfg.maxDeliveries <= 0 && cfg.bufferSize > 0
    ensures var s := Reached(cfg, 1, schedule); |s.entries| == 1 && s.entries[0].deliveries == n + 1
  {
    var t;
    schedule, t := Raised(cfg, 1, n + 1);
  }

  // ---------------------------------------------------------------- discarded without a call

  predicate SeenIfAcked(s: Sys) {
    forall i :: 0 <= i < |s.entries| && s.entries[i].state.Acked? ==> s.entries[i].calls > 0
  }

  /** In no run is an entry acknowledged that no handler has been called for. */
  ghost predicate AckedWereCalled(cfg: Config, processes: nat) {
    forall schedule: seq<Event> :: SeenIfAcked(Reached(cfg, processes, schedule))
  }

  /** An entry whose M + 1 deliveries all got lost is discarded although no handler has seen it. */
  lemma {:induction false} DiscardedUnseen(cfg: Config, processes: nat) returns (schedule: seq<Event>)
    requires cfg.maxDeliveries > 0 && cfg.bufferSize > 0 && processes > 0
    ensures var s := Reached(cfg, processes, schedule);
            |s.entries| == 1 && s.entries[0].state == Acked(Poison) && s.entries[0].calls == 0
  {
    var m, v := cfg.maxDeliveries, cfg.visibility;
    var raise, t := Raised(cfg, processes, m + 1);
    var procs := AllIdle(processes);
    var infos := [Info(0, true, m + 1)];
    LoneReport(cfg, m + 1, t, t + v, procs);
    LoneWait(cfg, m + 1, t, t, procs, v);
    var s1 := Lone(cfg, m + 1, t, t + v, procs);
    var s2 := With(s1, 0, IDLE_PROC.(reclaimer := Scanning(infos, [], t + v + DEADLINE)));
    assert Apply(s1, Survey(0)) == s2;
    ExecConcat(Init(cfg, processes), raise, [Wait(v)] + ([Survey(0)] + ([Scan(0, true)] + [])));
    ExecOne(Lone(cfg, m + 1, t, t, procs), Wait(v), [Survey(0)] + ([Scan(0, true)] + []));
    ExecOne(s1, Survey(0), [Scan(0, true)] + []);
    ExecOne(s2, Scan(0, true), []);
    schedule := raise + ([Wait(v)] + ([Survey(0)] + ([Scan(0, true)] + [])));
  }

  lemma WithoutCutoffSeen(s: Sys)
    requires Conserved(s) && s.cfg.maxDeliveries <= 0
    ensures SeenIfAcked(s)
  {
    forall i | 0 <= i < |s.entries| && s.entries[i].state.Acked? ensures s.entries[i].calls > 0 {
      assert s.entries[i].state.cause == Handled || s.entries[i].state.cause == Poison;
      assert s.entries[i].state == Acked(s.entries[i].state.cause);
    }
  }

  /** Every acknowledged entry has been handed to a handler, in all runs, if and only if there is no
      cutoff. */
  lemma {:induction false} AckedWereCalledIff(cfg: Config, processes: nat)
    requires cfg.bufferSize > 0 && processes > 0
    ensures AckedWereCalled(cfg, processes) <==> cfg.maxDeliveries <= 0
  {
    if cfg.maxDeliveries > 0 {
      var schedule := DiscardedUnseen(cfg, processes);
      assert !SeenIfAcked(Reached(cfg, processes, schedule));
    } else {
      forall schedule: seq<Event> ensures SeenIfAcked(Reached(cfg, processes, schedule)) {
        ReachedInv(cfg, processes, schedule);
        EntriesAreConserved(cfg, processes, schedule, []);
        WithoutCutoffSeen(Reached(cfg, processes, schedule));
      }
    }
  }
}
