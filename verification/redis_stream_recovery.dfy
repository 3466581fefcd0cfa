/** No entry is lost for good: after any run, whatever crashed in it, every entry that is neither
    acknowledged nor past the cutoff can still reach a handler. */
module RedisStreamRecovery {
  import opened RedisStreamModel
  import opened RedisStreamInvariants
  import opened RedisStreamPass
  import opened RedisStreamTheorems

  predicate NonePendingBelow(entries: seq<Entry>, j: nat) {
    forall i :: 0 <= i < j && i < |entries| ==> !entries[i].state.Pending?
  }

  predicate Working(cfg: Config) {
    cfg.bufferSize > 0 && cfg.concurrency > 0
  }

  /** Whatever state process 0 is in, it can be started afresh. */
  lemma Restart(s: Sys)
    requires |s.procs| > 0
    ensures Exec(s, [Crash(0), Boot(0)]) == With(s, 0, IDLE_PROC)
  {
    var s1 := Apply(s, Crash(0));
    CrashBoot(s);
    ExecOne(s, Crash(0), [Boot(0)]);
    ExecOne(s1, Boot(0), []);
    assert [Crash(0)] + [Boot(0)] == [Crash(0), Boot(0)];
    assert [Boot(0)] + [] == [Boot(0)];
  }

  lemma CrashBoot(s: Sys)
    requires |s.procs| > 0
    ensures Apply(Apply(s, Crash(0)), Boot(0)) == With(s, 0, IDLE_PROC)
  {
    var s1 := Apply(s, Crash(0));
    assert !s1.procs[0].running;
    assert s1.procs[0 := IDLE_PROC] == s.procs[0 := IDLE_PROC];
  }

  // ---------------------------------------------------------------- scanning

  function Scanner(infos: seq<Info>, ids: seq<nat>, deadline: nat): Proc {
    IDLE_PROC.(reclaimer := Scanning(infos, ids, deadline))
  }

  lemma {:induction false} RunScans(s: Sys, infos: seq<Info>, ids: seq<nat>, deadline: nat) returns (schedule: seq<Event>)
    requires |s.procs| > 0 && s.procs[0] == Scanner(infos, ids, deadline)
    ensures Exec(s, schedule)
         == With(s.(entries := ScanAll(s.cfg, s.entries, infos, {})), 0, Scanner([], ids + ChosenIds(s.cfg, infos), deadline))
    decreases |infos|
  {
    if infos == [] {
      schedule := [];
      assert ids + [] == ids && s.procs == s.procs[0 := s.procs[0]];
    } else {
      var s1 := Apply(s, Scan(0, true));
      var ids1 := if infos[0].idle && !IsPoison(s.cfg, infos[0]) then ids + [infos[0].id] else ids;
      OneScan(s, infos, ids, ids1, deadline);
      var rest := RunScans(s1, infos[1..], ids1, deadline);
      ExecOne(s, Scan(0, true), rest);
      schedule := [Scan(0, true)] + rest;
      assert ids1 + ChosenIds(s.cfg, infos[1..]) == ids + ChosenIds(s.cfg, infos);
      var last := Scanner([], ids + ChosenIds(s.cfg, infos), deadline);
      assert s1.procs[0 := last] == s.procs[0 := last];
    }
  }

  lemma OneScan(s: Sys, infos: seq<Info>, ids: seq<nat>, ids1: seq<nat>, deadline: nat)
    requires |s.procs| > 0 && s.procs[0] == Scanner(infos, ids, deadline) && infos != []
    requires ids1 == if infos[0].idle && !IsPoison(s.cfg, infos[0]) then ids + [infos[0].id] else ids
    ensures var s1 := Apply(s, Scan(0, true));
            && s1 == With(s.(entries := s1.entries), 0, Scanner(infos[1..], ids1, deadline))
            && ScanAll(s.cfg, s1.entries, infos[1..], {}) == ScanAll(s.cfg, s.entries, infos, {})
  {
    assert Enabled(s, Scan(0, true));
    var entries' := if infos[0].idle && IsPoison(s.cfg, infos[0]) then Acknowledge(s.entries, infos[0].id, Poison) else s.entries;
    assert Apply(s, Scan(0, true)) == With(s.(entries := entries'), 0, Scanner(infos[1..], ids1, deadline));
  }

  // ---------------------------------------------------------------- serving what was claimed

  function Done(e: Entry): Entry {
    Entry(Acked(Handled), e.deliveries, e.last, e.calls + 1, true)
  }

  function Server(left: seq<nat>): Proc {
    IDLE_PROC.(reclaimer := AfterDelivery(left))
  }

  /** Entry j and process 0 as given, all else as in s. */
  function At(s: Sys, j: nat, e: Entry, pr: Proc): Sys
    requires j < |s.entries| && |s.procs| > 0
  {
    s.(entries := s.entries[j := e], procs := s.procs[0 := pr])
  }

  lemma ServeOffer(s: Sys, left: seq<nat>)
    requires |s.procs| > 0 && s.procs[0] == Server(left) && left != [] && s.cfg.bufferSize > 0
    ensures Apply(s, Offer(0)) == With(s, 0, Server(left[1..]).(queue := [left[0]]))
  {
    assert [] + [left[0]] == [left[0]];
  }

  lemma ServeTake(s: Sys, j: nat, pr: Proc)
    requires |s.procs| > 0 && s.procs[0] == pr.(queue := [j]) && j < |s.entries| && s.cfg.concurrency > 0
    requires pr.running && !pr.cancelled && pr.queue == [] && pr.jobs == []
    ensures Apply(s, Take(0)) == At(s, j, s.entries[j].(calls := s.entries[j].calls + 1), pr.(jobs := [Calling(j)]))
  {
    assert [j][1..] == [] && [] + [Calling(j)] == [Calling(j)];
  }

  lemma ServeReturn(s: Sys, j: nat, pr: Proc)
    requires |s.procs| > 0 && s.procs[0] == pr.(jobs := [Calling(j)]) && j < |s.entries| && pr.running && pr.jobs == []
    ensures Apply(s, Return(0, 0, true)) == At(s, j, s.entries[j].(handled := true), pr.(jobs := [Acking(j)]))
  {
    assert [Calling(j)][0 := Acking(j)] == [Acking(j)];
  }

  lemma ServeAck(s: Sys, j: nat, pr: Proc)
    requires |s.procs| > 0 && s.procs[0] == pr.(jobs := [Acking(j)]) && j < |s.entries| && pr.running && pr.jobs == []
    requires s.entries[j].state.Pending?
    ensures Apply(s, Ack(0, 0, true)) == At(s, j, s.entries[j].(state := Acked(Handled)), pr)
  {
    assert [Acking(j)][..0] + [Acking(j)][1..] == [];
  }

  const SERVE := [Offer(0)] + ([Take(0)] + ([Return(0, 0, true)] + ([Ack(0, 0, true)] + [])))

  lemma TwiceAt(s: Sys, j: nat, e: Entry, pr: Proc, e': Entry, pr': Proc)
    requires j < |s.entries| && |s.procs| > 0
    ensures At(At(s, j, e, pr), j, e', pr') == At(s, j, e', pr')
  {
    assert s.procs[0 := pr][0 := pr'] == s.procs[0 := pr'];
    assert s.entries[j := e][j := e'] == s.entries[j := e'];
  }

  /** The next claimed message goes through the channel to a handler, which succeeds. */
  lemma ServeSteps(s: Sys, left: seq<nat>, j: nat)
    requires |s.procs| > 0 && s.procs[0] == Server(left) && Working(s.cfg)
    requires left != [] && left[0] == j < |s.entries| && s.entries[j].state.Pending?
    ensures Apply(Apply(Apply(Apply(s, Offer(0)), Take(0)), Return(0, 0, true)), Ack(0, 0, true))
         == At(s, j, Done(s.entries[j]), Server(left[1..]))
  {
    var pr, e := Server(left[1..]), s.entries[j];
    var s1 := With(s, 0, pr.(queue := [j]));
    ServeOffer(s, left);
    ServeTake(s1, j, pr);
    var e2 := e.(calls := e.calls + 1);
    assert s.entries[j := e] == s.entries;
    assert s1 == At(s, j, e, pr.(queue := [j]));
    TwiceAt(s, j, e, pr.(queue := [j]), e2, pr.(jobs := [Calling(j)]));
    FinishServing(s, j, e2, pr);
  }

  lemma FinishServing(s: Sys, j: nat, e: Entry, pr: Proc)
    requires |s.procs| > 0 && j < |s.entries| && e.state.Pending? && pr.running && pr.jobs == []
    ensures Apply(Apply(At(s, j, e, pr.(jobs := [Calling(j)])), Return(0, 0, true)), Ack(0, 0, true))
         == At(s, j, Entry(Acked(Handled), e.deliveries, e.last, e.calls, true), pr)
  {
    var e3 := e.(handled := true);
    ServeReturn(At(s, j, e, pr.(jobs := [Calling(j)])), j, pr);
    TwiceAt(s, j, e, pr.(jobs := [Calling(j)]), e3, pr.(jobs := [Acking(j)]));
    ServeAck(At(s, j, e3, pr.(jobs := [Acking(j)])), j, pr);
    TwiceAt(s, j, e3, pr.(jobs := [Acking(j)]), e3.(state := Acked(Handled)), pr);
  }

  lemma ExecServe(s: Sys)
    ensures Exec(s, SERVE) == Apply(Apply(Apply(Apply(s, Offer(0)), Take(0)), Return(0, 0, true)), Ack(0, 0, true))
  {
    var s1 := Apply(s, Offer(0));
    var s2 := Apply(s1, Take(0));
    var s3 := Apply(s2, Return(0, 0, true));
    ExecOne(s, Offer(0), [Take(0)] + ([Return(0, 0, true)] + ([Ack(0, 0, true)] + [])));
    ExecOne(s1, Take(0), [Return(0, 0, true)] + ([Ack(0, 0, true)] + []));
    ExecOne(s2, Return(0, 0, true), [Ack(0, 0, true)] + []);
    ExecOne(s3, Ack(0, 0, true), []);
  }

  /** The stream after all of these were served. */
  function Served(entries: seq<Entry>, left: seq<nat>): (r: seq<Entry>)
    ensures |r| == |entries|
    ensures forall i: nat :: i < |entries| ==> r[i] == if i in left then Done(entries[i]) else entries[i]
  {
    seq(|entries|, i requires 0 <= i < |entries| => if i in left then Done(entries[i]) else entries[i])
  }

  lemma {:induction false} ServeAll(s: Sys, left: seq<nat>) returns (schedule: seq<Event>)
    requires |s.procs| > 0 && s.procs[0] == Server(left) && Working(s.cfg) && Increasing(left)
    requires forall k :: 0 <= k < |left| ==> left[k] < |s.entries| && s.entries[left[k]].state.Pending?
    ensures Exec(s, schedule) == With(s.(entries := Served(s.entries, left)), 0, IDLE_PROC)
    decreases |left|
  {
    if left == [] {
      schedule := [];
      assert Served(s.entries, left) == s.entries && s.procs[0 := s.procs[0]] == s.procs;
    } else {
      var j := left[0];
      var s1 := At(s, j, Done(s.entries[j]), Server(left[1..]));
      ExecServe(s);
      ServeSteps(s, left, j);
      assert left == [j] + left[1..];
      var rest := ServeAll(s1, left[1..]);
      ServedTail(s.entries, left);
      assert s1.procs[0 := IDLE_PROC] == s.procs[0 := IDLE_PROC];
      ExecConcat(s, SERVE, rest);
      schedule := SERVE + rest;
    }
  }

  lemma ServedTail(entries: seq<Entry>, left: seq<nat>)
    requires Increasing(left) && left != [] && forall k :: 0 <= k < |left| ==> left[k] < |entries|
    ensures Served(entries[left[0] := Done(entries[left[0]])], left[1..]) == Served(entries, left)
  {
    var j := left[0];
    assert left == [j] + left[1..] && j !in left[1..];
  }

  // ---------------------------------------------------------------- a whole pass

  /** Process 0 as given, and the stream; all else as in s. */
  function Stage(s: Sys, entries: seq<Entry>, pr: Proc): Sys
    requires |s.procs| > 0
  {
    With(s.(entries := entries), 0, pr)
  }

  lemma Restage(s: Sys, entries: seq<Entry>, pr: Proc, entries': seq<Entry>, pr': Proc)
    requires |s.procs| > 0
    ensures Stage(Stage(s, entries, pr), entries', pr') == Stage(s, entries', pr')
  {
    assert s.procs[0 := pr][0 := pr'] == s.procs[0 := pr'];
  }

  /** A fresh process surveys, and looks at every report. */
  lemma {:induction false} ScanPart(s0: Sys, infos: seq<Info>, scanned: seq<Entry>, ids: seq<nat>) returns (scan: seq<Event>)
    requires |s0.procs| > 0 && s0.procs[0] == IDLE_PROC
    requires scanned == ScanAll(s0.cfg, s0.entries, infos, {}) && ids == ChosenIds(s0.cfg, infos)
    ensures Exec(Stage(s0, s0.entries, Scanner(infos, [], s0.now + DEADLINE)), scan)
         == Stage(s0, scanned, Scanner([], ids, s0.now + DEADLINE))
  {
    scan := RunScans(Stage(s0, s0.entries, Scanner(infos, [], s0.now + DEADLINE)), infos, [], s0.now + DEADLINE);
    assert [] + ids == ids;
    Restage(s0, s0.entries, Scanner(infos, [], s0.now + DEADLINE), scanned, Scanner([], ids, s0.now + DEADLINE));
  }

  lemma ClaimReaches(s0: Sys, scanned: seq<Entry>, ids: seq<nat>, claimed: seq<nat>)
    requires |s0.procs| > 0 && claimed == Claimed(s0.cfg, scanned, s0.now, ids)
    ensures Apply(Stage(s0, scanned, Scanner([], ids, s0.now + DEADLINE)), Claim(0, false))
         == Stage(s0, Deliver(scanned, claimed, s0.now), Server(claimed))
  {
    var scanner := Scanner([], ids, s0.now + DEADLINE);
    var s2 := Stage(s0, scanned, scanner);
    assert Enabled(s2, Claim(0, false));
    assert Apply(s2, Claim(0, false)) == Stage(s2, Deliver(scanned, claimed, s0.now), Server(claimed));
    Restage(s0, scanned, scanner, Deliver(scanned, claimed, s0.now), Server(claimed));
  }

  lemma {:induction false} ServeClaimed(s0: Sys, entries: seq<Entry>, claimed: seq<nat>) returns (serve: seq<Event>)
    requires |s0.procs| > 0 && Working(s0.cfg) && Increasing(claimed)
    requires forall k :: 0 <= k < |claimed| ==> claimed[k] < |entries| && entries[claimed[k]].state.Pending?
    ensures Exec(Stage(s0, entries, Server(claimed)), serve) == Stage(s0, Served(entries, claimed), IDLE_PROC)
  {
    serve := ServeAll(Stage(s0, entries, Server(claimed)), claimed);
    Restage(s0, entries, Server(claimed), Served(entries, claimed), IDLE_PROC);
  }

  function Fresh(s: Sys): Sys
    requires |s.procs| > 0
  {
    With(s, 0, IDLE_PROC).(now := s.now + s.cfg.visibility)
  }

  /** What a fresh process claims in its first pass, and what the stream looks like when it has served
      all of that. */
  function FirstClaims(cfg: Config, entries: seq<Entry>, now: nat): seq<nat> {
    var infos := PendingList(cfg, entries, 0, cfg.bufferSize, now);
    Claimed(cfg, ScanAll(cfg, entries, infos, {}), now, ChosenIds(cfg, infos))
  }

  function AfterPass(cfg: Config, entries: seq<Entry>, now: nat): seq<Entry> {
    var claimed := FirstClaims(cfg, entries, now);
    Served(Deliver(ScanAll(cfg, entries, PendingList(cfg, entries, 0, cfg.bufferSize, now), {}), claimed, now), claimed)
  }

  lemma FirstClaimsOk(cfg: Config, entries: seq<Entry>, next: nat, now: nat, scanned: seq<Entry>, claimed: seq<nat>)
    requires EntriesOk(cfg, entries, next) && claimed == FirstClaims(cfg, entries, now)
    requires scanned == ScanAll(cfg, entries, PendingList(cfg, entries, 0, cfg.bufferSize, now), {})
    ensures Increasing(claimed)
    ensures forall k :: 0 <= k < |claimed| ==> claimed[k] < |entries| && Deliver(scanned, claimed, now)[claimed[k]].state.Pending?
  {
    PassActs(cfg, entries, next, now, {}, now);
    forall k | 0 <= k < |claimed| ensures claimed[k] < |entries| {
      assert claimed[k] in claimed;
    }
  }

  lemma {:induction false} FreshPass(s: Sys, now: nat, infos: seq<Info>, scanned: seq<Entry>, ids: seq<nat>, claimed: seq<nat>)
    returns (schedule: seq<Event>)
    requires |s.procs| > 0 && Working(s.cfg) && now == s.now + s.cfg.visibility
    requires infos == PendingList(s.cfg, s.entries, 0, s.cfg.bufferSize, now)
    requires scanned == ScanAll(s.cfg, s.entries, infos, {}) && ids == ChosenIds(s.cfg, infos)
    requires claimed == Claimed(s.cfg, scanned, now, ids) && Increasing(claimed)
    requires forall k :: 0 <= k < |claimed| ==> claimed[k] < |s.entries| && Deliver(scanned, claimed, now)[claimed[k]].state.Pending?
    ensures Exec(s, schedule) == Stage(Fresh(s), Served(Deliver(scanned, claimed, now), claimed), IDLE_PROC)
  {
    var s0 := Fresh(s);
    Restart(s);
    var scan := ScanPart(s0, infos, scanned, ids);
    ClaimReaches(s0, scanned, ids, claimed);
    var serve := ServeClaimed(s0, Deliver(scanned, claimed, now), claimed);
    schedule := Glue(s, s0, Stage(s0, s0.entries, Scanner(infos, [], now + DEADLINE)),
                     Stage(s0, scanned, Scanner([], ids, now + DEADLINE)),
                     Stage(s0, Deliver(scanned, claimed, now), Server(claimed)), scan, serve);
  }

  lemma {:induction false} Glue(s: Sys, s0: Sys, s1: Sys, s2: Sys, s3: Sys, scan: seq<Event>, serve: seq<Event>)
    returns (schedule: seq<Event>)
    requires |s.procs| > 0 && Exec(s, [Crash(0), Boot(0)]) == With(s, 0, IDLE_PROC)
    requires s0 == With(s, 0, IDLE_PROC).(now := s.now + s.cfg.visibility)
    requires s1 == SurveyStep(s0, 0) && Exec(s1, scan) == s2 && Apply(s2, Claim(0, false)) == s3
    ensures Exec(s, schedule) == Exec(s3, serve)
  {
    var idle := With(s, 0, IDLE_PROC);
    var wait := Wait(s.cfg.visibility);
    assert Apply(idle, wait) == s0;
    assert Apply(s0, Survey(0)) == s1;
    var tail := scan + ([Claim(0, false)] + serve);
    ExecOne(s2, Claim(0, false), serve);
    ExecConcat(s1, scan, [Claim(0, false)] + serve);
    ExecOne(s0, Survey(0), tail);
    ExecOne(idle, wait, [Survey(0)] + tail);
    ExecConcat(s, [Crash(0), Boot(0)], [wait] + ([Survey(0)] + tail));
    schedule := [Crash(0), Boot(0)] + ([wait] + ([Survey(0)] + tail));
  }

  predicate SettledAs(cfg: Config, entries: seq<Entry>, entries': seq<Entry>, i: nat)
    requires i < |entries| == |entries'|
  {
    if Surveyed(entries, cfg.bufferSize, i) then entries'[i].state == Acked(if PastCutoff(cfg, entries[i]) then Poison else Handled)
    else entries'[i] == entries[i]
  }

  predicate AllSettled(cfg: Config, entries: seq<Entry>, entries': seq<Entry>) {
    |entries'| == |entries| && forall i: nat :: i < |entries| ==> SettledAs(cfg, entries, entries', i)
  }

  lemma PassSettles(cfg: Config, entries: seq<Entry>, next: nat, now: nat)
    requires EntriesOk(cfg, entries, next) && forall i :: 0 <= i < |entries| ==> Idle(cfg, entries[i], now)
    ensures AllSettled(cfg, entries, AfterPass(cfg, entries, now))
  {
    PassActs(cfg, entries, next, now, {}, now);
    var claimed := FirstClaims(cfg, entries, now);
    forall i: nat | i < |entries| ensures SettledAs(cfg, entries, AfterPass(cfg, entries, now), i) {
      var e := Reclaimed(cfg, entries, now, {}, ClaimedAt(now), i);
      assert i in claimed <==> e.deliveries > entries[i].deliveries;
    }
  }

  /** The oldest pending entries, as many as fit one survey, are disposed of by one fresh process:
      handled, or as poison if they are past the cutoff. No other entry changes. */
  lemma {:induction false} Settle(s: Sys) returns (schedule: seq<Event>, entries': seq<Entry>)
    requires Inv(s) && |s.procs| > 0 && Working(s.cfg)
    ensures Exec(s, schedule) == Stage(Fresh(s), entries', IDLE_PROC)
    ensures AllSettled(s.cfg, s.entries, entries')
  {
    var now := s.now + s.cfg.visibility;
    var infos := PendingList(s.cfg, s.entries, 0, s.cfg.bufferSize, now);
    var scanned := ScanAll(s.cfg, s.entries, infos, {});
    var claimed := FirstClaims(s.cfg, s.entries, now);
    entries' := Served(Deliver(scanned, claimed, now), claimed);
    FirstClaimsOk(s.cfg, s.entries, s.next, now, scanned, claimed);
    LastBefore(s);
    PassSettles(s.cfg, s.entries, s.next, now);
    schedule := FreshPass(s, now, infos, scanned, ChosenIds(s.cfg, infos), claimed);
  }

  /** The same after any run. */
  lemma {:induction false} AnyRunCanSettle(cfg: Config, processes: nat, schedule: seq<Event>)
    requires processes > 0 && Working(cfg)
    ensures var s := Reached(cfg, processes, schedule);
            exists later :: AllSettled(cfg, s.entries, Exec(s, later).entries)
  {
    ReachedInv(cfg, processes, schedule);
    var later, entries' := Settle(Reached(cfg, processes, schedule));
  }

  lemma NoneBefore(entries: seq<Entry>, from: nat, i: nat)
    requires from <= i <= |entries| && NonePendingBelow(entries, i)
    ensures PendingBefore(entries, from, i) == 0
    decreases i - from
  {
    if from < i {
      NoneBefore(entries, from + 1, i);
    }
  }

  lemma {:induction false} SettleUpTo(s: Sys, i: nat, from: nat) returns (schedule: seq<Event>)
    requires Inv(s) && |s.procs| > 0 && Working(s.cfg) && from <= i < |s.entries|
    requires s.entries[i].state.Pending? && !PastCutoff(s.cfg, s.entries[i]) && NonePendingBelow(s.entries, from)
    ensures var s' := Exec(s, schedule); |s'.entries| == |s.entries| && s'.entries[i].state == Acked(Handled)
    decreases i - from
  {
    if s.entries[from].state.Pending? {
      var first, settled := Settle(s);
      var s1 := Stage(Fresh(s), settled, IDLE_PROC);
      NoneBefore(s.entries, 0, from);
      assert Surveyed(s.entries, s.cfg.bufferSize, from);
      assert SettledAs(s.cfg, s.entries, s1.entries, i);
      forall k: nat | k <= from ensures !s1.entries[k].state.Pending? {
        assert SettledAs(s.cfg, s.entries, s1.entries, k);
      }
      if Surveyed(s.entries, s.cfg.bufferSize, i) {
        schedule := first;
      } else {
        ExecKeeps(s, first);
        var rest := SettleUpTo(s1, i, from + 1);
        ExecConcat(s, first, rest);
        schedule := first + rest;
      }
    } else {
      schedule := SettleUpTo(s, i, from + 1);
    }
  }

  /** A fresh process reads on until entry i is pending. */
  lemma {:induction false} ReadUpTo(s: Sys, i: nat) returns (schedule: seq<Event>)
    requires |s.procs| > 0 && s.procs[0] == IDLE_PROC && s.cfg.bufferSize > 0
    requires s.next <= i < |s.entries| && s.entries[i] == NEW_ENTRY
    ensures var s' := Exec(s, schedule);
            && s'.cfg == s.cfg && |s'.procs| == |s.procs| && |s'.entries| == |s.entries|
            && s'.entries[i].state.Pending? && s'.entries[i].deliveries == 1
    decreases i - s.next
  {
    ReadNext(s, i);
    var e := Read(0, 1, true);
    var rest := [];
    if s.next < i {
      rest := ReadUpTo(Apply(s, e), i);
    }
    ExecOne(s, e, rest);
    schedule := [e] + rest;
  }

  lemma ReadNext(s: Sys, i: nat)
    requires |s.procs| > 0 && s.procs[0] == IDLE_PROC && s.cfg.bufferSize > 0
    requires s.next <= i < |s.entries| && s.entries[i] == NEW_ENTRY
    ensures var s' := Apply(s, Read(0, 1, true));
            && s'.cfg == s.cfg && s'.procs == s.procs && |s'.entries| == |s.entries| && s'.next == s.next + 1
            && s'.entries[i] == if i == s.next then Redelivered(NEW_ENTRY, s.now) else s.entries[i]
  {
    assert Range(s.next, 1) == [s.next];
    assert i in [s.next] <==> i == s.next;
  }

  /** At-least-once delivery: after any run, with crashes, shutdowns and lost replies anywhere in it,
      every entry that is not acknowledged and not past the cutoff can still be handled and
      acknowledged, as long as one consumer process can be started. */
  lemma {:induction false} NothingIsLost(cfg: Config, processes: nat, before: seq<Event>, i: nat) returns (later: seq<Event>)
    requires processes > 0 && Working(cfg)
    requires var s := Reached(cfg, processes, before);
             i < |s.entries| && !s.entries[i].state.Acked? && !PastCutoff(cfg, s.entries[i])
    ensures var s' := Exec(Reached(cfg, processes, before), later);
            i < |s'.entries| && s'.entries[i].state == Acked(Handled) && s'.entries[i].handled
  {
    var s := Reached(cfg, processes, before);
    ReachedInv(cfg, processes, before);
    if s.entries[i].state.Pending? {
      later := SettleUpTo(s, i, 0);
    } else {
      later := ReadAndSettle(s, i);
    }
    ExecKeeps(s, later);
  }

  lemma {:induction false} ReadAndSettle(s: Sys, i: nat) returns (later: seq<Event>)
    requires Inv(s) && |s.procs| > 0 && Working(s.cfg) && i < |s.entries| && s.entries[i].state.Unread?
    ensures var s' := Exec(s, later); |s'.entries| == |s.entries| && s'.entries[i].state == Acked(Handled)
  {
    Restart(s);
    var s0 := With(s, 0, IDLE_PROC);
    var read := ReadUpTo(s0, i);
    var start := [Crash(0), Boot(0)] + read;
    ExecConcat(s, [Crash(0), Boot(0)], read);
    ExecKeeps(s, start);
    var settle := SettleUpTo(Exec(s, start), i, 0);
    ExecConcat(s, start, settle);
    later := start + settle;
  }
}
