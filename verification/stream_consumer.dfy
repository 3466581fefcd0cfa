/** One consumer process as an object: a round of poll, a reclaim pass and a worker's turn, as they run
    when only time and a shutdown interfere. Each is tied to the machine of RedisStreamModel (the
    object's state moves as the returned schedule says) and to a direct description of what becomes of
    every entry. */
module StreamConsumers {
  import opened RedisStreamModel
  import opened RedisStreamInvariants
  import opened RedisStreamPass
  import opened RedisStreamTheorems

  lemma {:induction false} Extend(before: Sys, schedule: seq<Event>, s: Sys, e: Event)
    requires s == Exec(before, schedule)
    ensures Exec(before, schedule + [e]) == Apply(s, e)
  {
    ExecConcat(before, schedule, [e]);
    ExecOne(s, e, []);
    assert [e] + [] == [e];
  }

  /** The entries in this range get their first delivery, and no other entry changes. */
  predicate FirstDelivered(entries: seq<Entry>, entries': seq<Entry>, from: nat, to: nat, now: nat) {
    && |entries'| == |entries|
    && forall i: nat :: i < |entries| ==> entries'[i] == if from <= i < to then Redelivered(NEW_ENTRY, now) else entries[i]
  }

  lemma ReadsFirst(cfg: Config, entries: seq<Entry>, next: nat, k: nat, now: nat)
    requires EntriesOk(cfg, entries, next)
    ensures FirstDelivered(entries, Deliver(entries, Range(next, k), now), next, next + k, now)
  {
    RangeHolds(next, k);
    assert forall i :: next <= i < |entries| ==> EntryOk(cfg, entries[i], false);
  }

  function Reach(stops: bool, later: nat): Extent {
    if stops then NoClaim else ClaimedAt(later)
  }

  lemma NothingPassed(cfg: Config, entries: seq<Entry>, now: nat, failing: set<nat>)
    ensures Passed(cfg, entries, entries, now, failing, NoSurvey, [])
  {
  }

  /** Whether XCLAIM does not take effect. */
  predicate Stops(shutdown: bool, claimFails: bool, delay: nat) {
    shutdown || claimFails || delay > DEADLINE
  }

  function ClaimsOf(cfg: Config, scanned: seq<Entry>, ids: seq<nat>, later: nat, stops: bool): seq<nat> {
    if stops then [] else Claimed(cfg, scanned, later, ids)
  }

  function LeftBy(scanned: seq<Entry>, claimed: seq<nat>, later: nat, stops: bool): seq<Entry> {
    if stops then scanned else Deliver(scanned, claimed, later)
  }

  lemma PassMatches(cfg: Config, entries: seq<Entry>, next: nat, now: nat, failing: set<nat>, later: nat, extent: Extent,
                    infos: seq<Info>, scanned: seq<Entry>, ids: seq<nat>, claimed: seq<nat>, entries': seq<Entry>)
    requires EntriesOk(cfg, entries, next) && now <= later
    requires infos == PendingList(cfg, entries, 0, cfg.bufferSize, now) && ids == ChosenIds(cfg, infos)
    requires scanned == ScanAll(cfg, entries, infos, failing)
    requires extent == NoClaim || extent == ClaimedAt(later)
    requires claimed == ClaimsOf(cfg, scanned, ids, later, extent.NoClaim?) && entries' == LeftBy(scanned, claimed, later, extent.NoClaim?)
    ensures Passed(cfg, entries, entries', now, failing, extent, claimed)
  {
    PassActs(cfg, entries, next, now, failing, later);
  }

  lemma QueueHead(s: Sys, p: nat)
    requires Inv(s) && p < |s.procs| && s.procs[p].queue != []
    ensures s.procs[p].queue[0] < |s.entries|
  {
    assert ProcOk(s.entries, s.next, s.procs[p]);
  }

  class StreamConsumer {
    const cfg: Config
    const self: nat
    var now: nat                   // the clock, the stream, its pending list and the cursor: on the server
    var entries: seq<Entry>
    var next: nat
    var cancelled: bool
    var msgCh: seq<nat>
    var jobs: seq<Job>
    ghost var hand: seq<nat>
    ghost var reclaimer: Reclaimer
    ghost var others: seq<Proc>    // all processes of the group; number `self` is this one

    ghost function Model(): Sys
      requires self < |others|
      reads this
    {
      Sys(cfg, now, entries, next, others[self := Proc(true, cancelled, hand, reclaimer, msgCh, jobs)])
    }

    ghost predicate Valid()
      reads this
    {
      self < |others| && Inv(Model()) && |msgCh| <= cfg.bufferSize
    }

    /** One event of this process, as the machine takes it. */
    ghost predicate Took(before: Sys, schedule: seq<Event>)
      requires self < |others|
      reads this
    {
      Model() == Exec(before, schedule)
    }

    lemma StaysValid(before: Sys, schedule: seq<Event>)
      requires Inv(before) && self < |others| && Took(before, schedule) && |msgCh| <= cfg.bufferSize
      ensures Valid()
    {
      ExecKeeps(before, schedule);
    }

    /** The next report: poison is acknowledged (which may fail), other idle entries are collected. */
    method ScanOne(ghost before: Sys, infos: seq<Info>, ids: seq<nat>, ghost deadline: nat, failing: set<nat>, ghost done: seq<Event>)
      returns (ids': seq<nat>, ghost schedule: seq<Event>)
      requires self < |others| && infos != [] && reclaimer == Scanning(infos, ids, deadline) && Took(before, done)
      modifies this`entries, this`reclaimer
      ensures reclaimer == Scanning(infos[1..], ids', deadline) && Took(before, schedule)
      ensures ids' + ChosenIds(cfg, infos[1..]) == ids + ChosenIds(cfg, infos)
      ensures ScanAll(cfg, entries, infos[1..], failing) == ScanAll(cfg, old(entries), infos, failing)
    {
      var info := infos[0];
      ghost var s := Model();
      ids' := ids;
      if info.idle && IsPoison(cfg, info) {
        if info.id !in failing {
          entries := Acknowledge(entries, info.id, Poison);
        }
      } else if info.idle {
        ids' := ids + [info.id];
      }
      reclaimer := Scanning(infos[1..], ids', deadline);
      assert s.procs[self := Model().procs[self]] == Model().procs;
      Extend(before, done, s, Scan(self, info.id !in failing));
      schedule := done + [Scan(self, info.id !in failing)];
    }

    method ScanReports(ghost before: Sys, infos: seq<Info>, ghost deadline: nat, failing: set<nat>, ghost done: seq<Event>)
      returns (ids: seq<nat>, ghost schedule: seq<Event>)
      requires self < |others| && reclaimer == Scanning(infos, [], deadline) && Took(before, done)
      modifies this`entries, this`reclaimer
      ensures reclaimer == Scanning([], ids, deadline) && Took(before, schedule)
      ensures ids == ChosenIds(cfg, infos) && entries == ScanAll(cfg, old(entries), infos, failing)
    {
      ids := [];
      schedule := done;
      assert infos[0..] == infos;
      for k := 0 to |infos|
        invariant reclaimer == Scanning(infos[k..], ids, deadline) && Took(before, schedule)
        invariant ids + ChosenIds(cfg, infos[k..]) == ChosenIds(cfg, infos)
        invariant ScanAll(cfg, entries, infos[k..], failing) == ScanAll(cfg, old(entries), infos, failing)
      {
        ids, schedule := ScanOne(before, infos[k..], ids, deadline, failing, schedule);
        assert infos[k..][1..] == infos[k + 1..];
      }
    }

    /** How many of the claimed messages reached the channel, and why not all. */
    ghost predicate Offered(before: seq<nat>, after: seq<nat>, claimed: seq<nat>, lost: bool, limit: nat) {
      exists n: nat :: n <= |claimed| && after == before + claimed[..n]
                       && (n < |claimed| ==> lost || n == limit || |after| == cfg.bufferSize)
    }

    /** The claimed messages go into the channel one by one until it is full, or until a shutdown after
        `limit` of them. */
    method OfferClaimed(ghost before: Sys, claimed: seq<nat>, limit: nat, ghost done: seq<Event>) returns (ghost schedule: seq<Event>)
      requires self < |others| && reclaimer == AfterDelivery(claimed) && Took(before, done) && |msgCh| <= cfg.bufferSize
      modifies this`msgCh, this`reclaimer
      ensures Took(before, schedule) && |msgCh| <= cfg.bufferSize
      ensures exists n: nat :: n <= |claimed| && msgCh == old(msgCh) + claimed[..n] && reclaimer == AfterDelivery(claimed[n..])
                               && (n < |claimed| ==> n == limit || |msgCh| == cfg.bufferSize)
    {
      schedule := done;
      var n := 0;
      while n < |claimed| && n != limit && |msgCh| < cfg.bufferSize
        invariant n <= |claimed| && |msgCh| <= cfg.bufferSize && Took(before, schedule)
        invariant msgCh == old(msgCh) + claimed[..n] && reclaimer == AfterDelivery(claimed[n..])
        decreases |claimed| - n
      {
        ghost var s := Model();
        assert claimed[n..][0] == claimed[n] && claimed[n..][1..] == claimed[n + 1..];
        msgCh := msgCh + [claimed[n]];
        reclaimer := AfterDelivery(claimed[n + 1..]);
        assert s.procs[self := Model().procs[self]] == Model().procs;
        Extend(before, schedule, s, Offer(self));
        schedule := schedule + [Offer(self)];
        n := n + 1;
      }
    }

    /** XPENDING. */
    method SurveyPending() returns (infos: seq<Info>, ghost schedule: seq<Event>)
      requires self < |others| && reclaimer.Waiting? && !cancelled
      modifies this`reclaimer
      ensures infos == PendingList(cfg, entries, 0, cfg.bufferSize, now)
      ensures reclaimer == Scanning(infos, [], now + DEADLINE) && Took(old(Model()), schedule)
    {
      ghost var before := Model();
      infos := PendingList(cfg, entries, 0, cfg.bufferSize, now);
      reclaimer := Scanning(infos, [], now + DEADLINE);
      schedule := [Survey(self)] + [];
      assert before.procs[self := Model().procs[self]] == Model().procs;
      ExecOne(before, Survey(self), []);
    }

    method PassTime(ghost before: Sys, d: nat, ghost done: seq<Event>) returns (ghost schedule: seq<Event>)
      requires self < |others| && Took(before, done)
      modifies this`now
      ensures now == old(now) + d && Took(before, schedule)
    {
      ghost var s := Model();
      now := now + d;
      Extend(before, done, s, Wait(d));
      schedule := done + [Wait(d)];
    }

    /** A shutdown takes effect. */
    method Cancel(ghost before: Sys, ghost done: seq<Event>) returns (ghost schedule: seq<Event>)
      requires self < |others| && Took(before, done)
      modifies this`cancelled
      ensures cancelled && Took(before, schedule)
    {
      ghost var s := Model();
      cancelled := true;
      assert s.procs[self := Model().procs[self]] == Model().procs;
      Extend(before, done, s, Shutdown(self));
      schedule := done + [Shutdown(self)];
    }

    /** XCLAIM, if it still takes effect: the context has not ended, for time or by a shutdown. */
    method ClaimIds(ghost before: Sys, ids: seq<nat>, ghost deadline: nat, lost: bool, ghost done: seq<Event>)
      returns (claimed: seq<nat>, ghost schedule: seq<Event>)
      requires self < |others| && reclaimer == Scanning([], ids, deadline) && now <= deadline && !cancelled && Took(before, done)
      modifies this`entries, this`reclaimer
      ensures claimed == Claimed(cfg, old(entries), now, ids) && entries == Deliver(old(entries), claimed, now)
      ensures reclaimer == (if lost then Waiting else AfterDelivery(claimed)) && Took(before, schedule)
    {
      ghost var s := Model();
      claimed := Claimed(cfg, entries, now, ids);
      entries := Deliver(entries, claimed, now);
      reclaimer := if lost then Waiting else AfterDelivery(claimed);
      assert s.procs[self := Model().procs[self]] == Model().procs;
      Extend(before, done, s, Claim(self, lost));
      schedule := done + [Claim(self, lost)];
    }

    method AbandonClaim(ghost before: Sys, ghost done: seq<Event>) returns (ghost schedule: seq<Event>)
      requires self < |others| && reclaimer.Scanning? && reclaimer.rest == [] && Took(before, done)
      modifies this`reclaimer
      ensures reclaimer == Waiting && Took(before, schedule)
    {
      ghost var s := Model();
      reclaimer := Waiting;
      assert s.procs[self := Model().procs[self]] == Model().procs;
      Extend(before, done, s, GiveUp(self));
      schedule := done + [GiveUp(self)];
    }

    /** One reclaim pass under all its circumstances: XPENDING may fail; a poison XACK on an entry in
        `failing` fails; `delay` ms pass before XCLAIM, which may fail or lose its reply; a shutdown may
        come before XCLAIM or after `limit` offers. */
    method DoReclaim(surveyFails: bool, failing: set<nat>, delay: nat, shutdown: bool, claimFails: bool, lost: bool, limit: nat)
      returns (claimed: seq<nat>, ghost extent: Extent, ghost schedule: seq<Event>)
      requires Valid() && reclaimer.Waiting? && !cancelled
      modifies this`now, this`entries, this`msgCh, this`reclaimer, this`cancelled
      ensures Valid() && Took(old(Model()), schedule)
      ensures extent == if surveyFails then NoSurvey
                        else if shutdown || claimFails || delay > 5000 then NoClaim else ClaimedAt(old(now) + delay)
      ensures Passed(cfg, old(entries), entries, old(now), failing, extent, claimed)
      ensures Offered(old(msgCh), msgCh, claimed, lost, limit)
    {
      if surveyFails {
        extent := NoSurvey;
        claimed, schedule := [], [];
        NothingPassed(cfg, entries, now, failing);
        assert msgCh == msgCh + claimed[..0];
      } else {
        extent := Reach(Stops(shutdown, claimFails, delay), now + delay);
        claimed, schedule := DoPass(failing, delay, shutdown, claimFails, lost, limit, extent);
      }
    }

    method DoPass(failing: set<nat>, delay: nat, shutdown: bool, claimFails: bool, lost: bool, limit: nat, ghost extent: Extent)
      returns (claimed: seq<nat>, ghost schedule: seq<Event>)
      requires Valid() && reclaimer.Waiting? && !cancelled
      requires extent == Reach(Stops(shutdown, claimFails, delay), now + delay)
      modifies this`now, this`entries, this`msgCh, this`reclaimer, this`cancelled
      ensures Valid() && Took(old(Model()), schedule)
      ensures Passed(cfg, old(entries), entries, old(now), failing, extent, claimed)
      ensures Offered(old(msgCh), msgCh, claimed, lost, limit)
    {
      hide Passed, Exec, PendingList, Claimed, Deliver, ClockOk, CopiesOk, CutoffOk, ProcOk, EntriesOk;
      ghost var before := Model();
      ghost var was := entries;
      ghost var start := now;
      var infos, surveyed := SurveyPending();
      var ids, scanned := ScanReports(before, infos, now + DEADLINE, failing, surveyed);
      ghost var middle := entries;
      claimed, schedule := FinishPass(before, ids, delay, shutdown, claimFails, lost, limit, scanned);
      StaysValid(before, schedule);
      PassMatches(cfg, was, next, start, failing, now, extent, infos, middle, ids, claimed, entries);
    }

    /** The pass after its survey and scan. */
    method FinishPass(ghost before: Sys, ids: seq<nat>, delay: nat, shutdown: bool, claimFails: bool, lost: bool, limit: nat,
                      ghost done: seq<Event>)
      returns (claimed: seq<nat>, ghost schedule: seq<Event>)
      requires self < |others| && reclaimer == Scanning([], ids, now + DEADLINE) && Took(before, done)
      requires !cancelled && |msgCh| <= cfg.bufferSize
      modifies this`now, this`entries, this`msgCh, this`reclaimer, this`cancelled
      ensures Took(before, schedule) && |msgCh| <= cfg.bufferSize && now == old(now) + delay
      ensures claimed == ClaimsOf(cfg, old(entries), ids, now, Stops(shutdown, claimFails, delay))
      ensures entries == LeftBy(old(entries), claimed, now, Stops(shutdown, claimFails, delay))
      ensures Offered(old(msgCh), msgCh, claimed, lost, limit)
    {
      ghost var deadline := now + DEADLINE;
      schedule := PassTime(before, delay, done);
      if shutdown {
        schedule := Cancel(before, schedule);
      }
      if Stops(shutdown, claimFails, delay) {
        claimed := [];
        schedule := AbandonClaim(before, schedule);
        assert msgCh == msgCh + claimed[..0];
      } else {
        claimed, schedule := ClaimIds(before, ids, deadline, lost, schedule);
        schedule := OfferUnlessLost(before, claimed, lost, limit, schedule);
      }
    }

    method OfferUnlessLost(ghost before: Sys, claimed: seq<nat>, lost: bool, limit: nat, ghost done: seq<Event>)
      returns (ghost schedule: seq<Event>)
      requires self < |others| && Took(before, done) && |msgCh| <= cfg.bufferSize
      requires reclaimer == if lost then Waiting else AfterDelivery(claimed)
      modifies this`msgCh, this`reclaimer
      ensures Took(before, schedule) && |msgCh| <= cfg.bufferSize
      ensures Offered(old(msgCh), msgCh, claimed, lost, limit)
    {
      if lost {
        schedule := done;
        assert msgCh == msgCh + claimed[..0];
      } else {
        schedule := OfferClaimed(before, claimed, limit, done);
      }
    }

    /** XREADGROUP: the next k entries that nobody in the group has read. */
    method ReadGroup(k: nat, lost: bool) returns (batch: seq<nat>, ghost schedule: seq<Event>)
      requires self < |others| && !cancelled && hand == [] && 1 <= k <= cfg.bufferSize && next + k <= |entries|
      modifies this`entries, this`next, this`hand
      ensures batch == Range(old(next), k) && next == old(next) + k && entries == Deliver(old(entries), batch, now)
      ensures hand == (if lost then [] else batch) && Took(old(Model()), schedule)
    {
      ghost var before := Model();
      batch := Range(next, k);
      entries := Deliver(entries, batch, now);
      next := next + k;
      hand := if lost then [] else batch;
      schedule := [Read(self, k, lost)] + [];
      assert before.procs[self := Model().procs[self]] == Model().procs;
      ExecOne(before, Read(self, k, lost), []);
    }

    /** The messages read go into the channel one by one until it is full. */
    method HandOver(ghost before: Sys, batch: seq<nat>, ghost done: seq<Event>) returns (ghost schedule: seq<Event>)
      requires self < |others| && hand == batch && Took(before, done) && |msgCh| <= cfg.bufferSize
      modifies this`msgCh, this`hand
      ensures Took(before, schedule) && |msgCh| <= cfg.bufferSize
      ensures msgCh + hand == old(msgCh) + batch && old(msgCh) <= msgCh && (hand != [] ==> |msgCh| == cfg.bufferSize)
    {
      schedule := done;
      var n := 0;
      while n < |batch| && |msgCh| < cfg.bufferSize
        invariant n <= |batch| && |msgCh| <= cfg.bufferSize && Took(before, schedule)
        invariant msgCh == old(msgCh) + batch[..n] && hand == batch[n..]
        decreases |batch| - n
      {
        ghost var s := Model();
        assert batch[n..][0] == batch[n] && batch[n..][1..] == batch[n + 1..];
        msgCh := msgCh + [batch[n]];
        hand := batch[n + 1..];
        assert s.procs[self := Model().procs[self]] == Model().procs;
        Extend(before, schedule, s, Hand(self));
        schedule := schedule + [Hand(self)];
        n := n + 1;
      }
      assert batch[..n] + batch[n..] == batch;
    }

    /** One round of poll: the next k entries get their first delivery, and no other entry changes;
        they reach the channel in stream order, unless the reply is lost. */
    method Poll(k: nat, lost: bool) returns (ghost schedule: seq<Event>)
      requires Valid() && !cancelled && hand == [] && 1 <= k <= cfg.bufferSize && next + k <= |entries|
      modifies this`entries, this`next, this`msgCh, this`hand
      ensures Valid() && Took(old(Model()), schedule) && next == old(next) + k && |entries| == |old(entries)|
      ensures FirstDelivered(old(entries), entries, old(next), next, now)
      ensures msgCh + hand == old(msgCh) + if lost then [] else Range(old(next), k)
      ensures hand != [] ==> |msgCh| == cfg.bufferSize
    {
      hide FirstDelivered, Exec, EntryOk, ClockOk, CopiesOk, CutoffOk, ProcOk, Deliver;
      ghost var before := Model();
      ReadsFirst(cfg, entries, next, k, now);
      var batch, read := ReadGroup(k, lost);
      schedule := HandOver(before, if lost then [] else batch, read);
      StaysValid(before, schedule);
    }

    /** A worker's turn: take the oldest message, call the handler, and acknowledge the entry only if
        the call succeeded. The acknowledgement itself may fail. After a shutdown the message is
        dropped and its entry stays pending. */
    method Work(ok: bool, acked: bool) returns (id: nat, ghost schedule: seq<Event>)
      requires Valid() && msgCh != [] && |jobs| < cfg.concurrency
      modifies this`entries, this`msgCh, this`jobs
      ensures Valid() && Took(old(Model()), schedule)
      ensures id == old(msgCh)[0] && msgCh == old(msgCh)[1..] && jobs == old(jobs)
      ensures id < |entries| && |entries| == |old(entries)|
      ensures forall i :: 0 <= i < |entries| && i != id ==> entries[i] == old(entries)[i]
      ensures cancelled ==> entries[id] == old(entries)[id]
      ensures !cancelled ==>
                var e, e' := old(entries)[id], entries[id];
                && e'.calls == e.calls + 1 && e'.handled == (e.handled || ok)
                && e'.deliveries == e.deliveries && e'.last == e.last
                && e'.state == if ok && acked && e.state.Pending? then Acked(Handled) else e.state
    {
      ghost var before := Model();
      id := msgCh[0];
      QueueHead(before, self);
      schedule := TakeMessage(id);
      if !cancelled {
        schedule := EndCall(before, id, ok, acked, schedule);
        assert jobs == old(jobs);
      }
      StaysValid(before, schedule);
    }

    /** The end of a handler call, with the acknowledgement if it succeeded. */
    method EndCall(ghost before: Sys, id: nat, ok: bool, acked: bool, ghost done: seq<Event>) returns (ghost schedule: seq<Event>)
      requires self < |others| && jobs != [] && jobs[|jobs| - 1] == Calling(id) && id < |entries| && Took(before, done)
      modifies this`entries, this`jobs
      ensures Took(before, schedule) && jobs == old(jobs)[..|old(jobs)| - 1]
      ensures |entries| == |old(entries)| && forall i :: 0 <= i < |entries| && i != id ==> entries[i] == old(entries)[i]
      ensures var e := old(entries)[id];
              entries[id] == e.(handled := e.handled || ok, state := if ok && acked && e.state.Pending? then Acked(Handled) else e.state)
    {
      schedule := HandlerReturns(before, id, ok, done);
      if ok {
        schedule := AckMessage(before, id, acked, schedule);
      }
      assert jobs == old(jobs)[..|old(jobs)| - 1];
    }

    method TakeMessage(id: nat) returns (ghost schedule: seq<Event>)
      requires self < |others| && msgCh != [] && msgCh[0] == id < |entries| && |jobs| < cfg.concurrency
      modifies this`entries, this`msgCh, this`jobs
      ensures Took(old(Model()), schedule)
      ensures msgCh == old(msgCh)[1..] && jobs == if cancelled then old(jobs) else old(jobs) + [Calling(id)]
      ensures entries == if cancelled then old(entries) else old(entries)[id := old(entries)[id].(calls := old(entries)[id].calls + 1)]
    {
      ghost var before := Model();
      msgCh := msgCh[1..];
      if !cancelled {
        jobs := jobs + [Calling(id)];
        entries := entries[id := entries[id].(calls := entries[id].calls + 1)];
      }
      schedule := [Take(self)] + [];
      assert before.procs[self := Model().procs[self]] == Model().procs;
      ExecOne(before, Take(self), []);
    }

    method HandlerReturns(ghost before: Sys, id: nat, ok: bool, ghost done: seq<Event>) returns (ghost schedule: seq<Event>)
      requires self < |others| && jobs != [] && jobs[|jobs| - 1] == Calling(id) && id < |entries| && Took(before, done)
      modifies this`entries, this`jobs
      ensures Took(before, schedule)
      ensures jobs == old(jobs)[..|old(jobs)| - 1] + if ok then [Acking(id)] else []
      ensures entries == if ok then old(entries)[id := old(entries)[id].(handled := true)] else old(entries)
    {
      ghost var s := Model();
      ghost var j := |jobs| - 1;
      assert jobs[..j] + jobs[j + 1..] == jobs[..j];
      assert jobs[j := Acking(id)] == jobs[..j] + [Acking(id)];
      jobs := jobs[..|jobs| - 1] + if ok then [Acking(id)] else [];
      if ok {
        entries := entries[id := entries[id].(handled := true)];
      }
      assert s.procs[self := Model().procs[self]] == Model().procs;
      Extend(before, done, s, Return(self, j, ok));
      schedule := done + [Return(self, j, ok)];
    }

    method AckMessage(ghost before: Sys, id: nat, acked: bool, ghost done: seq<Event>) returns (ghost schedule: seq<Event>)
      requires self < |others| && jobs != [] && jobs[|jobs| - 1] == Acking(id) && id < |entries| && Took(before, done)
      modifies this`entries, this`jobs
      ensures Took(before, schedule)
      ensures jobs == old(jobs)[..|old(jobs)| - 1]
      ensures entries == if acked then Acknowledge(old(entries), id, Handled) else old(entries)
    {
      ghost var s := Model();
      ghost var j := |jobs| - 1;
      assert jobs[..j] + jobs[j + 1..] == jobs[..j];
      jobs := jobs[..|jobs| - 1];
      if acked {
        entries := Acknowledge(entries, id, Handled);
      }
      assert s.procs[self := Model().procs[self]] == Model().procs;
      Extend(before, done, s, Ack(self, j, acked));
      schedule := done + [Ack(self, j, acked)];
    }
  }
}
