/** What every step of the stream consumers keeps. */
module RedisStreamInvariants {
  import opened RedisStreamModel

  // ---------------------------------------------------------------- the invariant

  predicate EntryOk(cfg: Config, e: Entry, read: bool) {
    && (read <==> !e.state.Unread?)
    && (if read then e.deliveries > 0 else e == NEW_ENTRY)
    && (e.state == Acked(Handled) ==> e.handled) && (e.handled ==> e.calls > 0)
    && (e.state == Acked(Poison) ==> 0 < cfg.maxDeliveries < e.deliveries)
  }

  /** The group's cursor splits the stream: what is before it is pending or acknowledged. */
  predicate EntriesOk(cfg: Config, entries: seq<Entry>, next: nat) {
    next <= |entries| && forall i :: 0 <= i < |entries| ==> EntryOk(cfg, entries[i], i < next)
  }

  function Ids(infos: seq<Info>): (ids: seq<nat>)
    ensures |ids| == |infos| && forall k :: 0 <= k < |infos| ==> ids[k] == infos[k].id
  {
    seq(|infos|, k requires 0 <= k < |infos| => infos[k].id)
  }

  predicate Increasing(ids: seq<nat>) {
    forall j, k :: 0 <= j < k < |ids| ==> ids[j] < ids[k]
  }

  predicate Below(ids: seq<nat>, bound: nat) {
    forall k :: 0 <= k < |ids| ==> ids[k] < bound
  }

  /** A report may be stale, but only because deliveries have been added since. */
  predicate InfosOk(entries: seq<Entry>, next: nat, infos: seq<Info>) {
    next <= |entries|
    && forall k :: 0 <= k < |infos| ==> infos[k].id < next && 0 < infos[k].retries <= entries[infos[k].id].deliveries
  }

  predicate ReclaimerOk(entries: seq<Entry>, next: nat, r: Reclaimer) {
    match r
    case Waiting => true
    case Scanning(rest, ids, _) => InfosOk(entries, next, rest) && Below(ids, next) && Increasing(ids + Ids(rest))
    case Delivering(left) => Below(left, next)
  }

  predicate JobsOk(entries: seq<Entry>, next: nat, jobs: seq<Job>) {
    next <= |entries| && forall j :: 0 <= j < |jobs| ==> jobs[j].id < next && JobOk(entries[jobs[j].id], jobs[j])
  }

  predicate JobOk(e: Entry, job: Job) {
    e.calls > 0 && (job.Acking? ==> e.handled)
  }

  predicate ProcOk(entries: seq<Entry>, next: nat, pr: Proc) {
    && Below(pr.hand, next) && Below(pr.queue, next)
    && ReclaimerOk(entries, next, pr.reclaimer) && JobsOk(entries, next, pr.jobs)
  }

  ghost function Sum(procs: seq<Proc>, w: Proc -> nat): nat {
    if procs == [] then 0 else w(procs[0]) + Sum(procs[1..], w)
  }

  /** The copies of an entry on their way to the workers of a process. */
  function CopiesIn(pr: Proc, i: nat): nat {
    multiset(pr.hand)[i] + multiset(pr.queue)[i] + if pr.reclaimer.Delivering? then multiset(pr.reclaimer.left)[i] else 0
  }

  ghost function Copies(i: nat): Proc -> nat {
    (pr: Proc) => CopiesIn(pr, i)
  }

  /** The reclaimer of this process may still claim the entry: it saw a harmless delivery count. */
  predicate MayClaim(cfg: Config, r: Reclaimer, i: nat) {
    r.Scanning? && (i in r.ids || exists k :: 0 <= k < |r.rest| && r.rest[k].id == i && r.rest[k].retries <= cfg.maxDeliveries)
  }

  function Claimant(cfg: Config, r: Reclaimer, i: nat): nat {
    if MayClaim(cfg, r, i) then 1 else 0
  }

  ghost function Claimants(cfg: Config, i: nat): Proc -> nat {
    (pr: Proc) => Claimant(cfg, pr.reclaimer, i)
  }

  /** Every handler call and every copy on its way to one was paid for by a delivery. */
  ghost predicate CopiesOk(entries: seq<Entry>, procs: seq<Proc>) {
    forall i: nat :: i < |entries| ==> entries[i].calls + Sum(procs, Copies(i)) <= entries[i].deliveries
  }

  /** From the cutoff on, each further delivery uses up one reclaimer that surveyed before it. */
  ghost predicate CutoffOk(cfg: Config, entries: seq<Entry>, procs: seq<Proc>) {
    cfg.maxDeliveries > 0 ==>
      forall i: nat :: i < |entries| && entries[i].deliveries >= cfg.maxDeliveries ==>
        entries[i].deliveries - cfg.maxDeliveries + Sum(procs, Claimants(cfg, i)) <= |procs|
  }

  /** The time between two deliveries of an entry past the cutoff is at least the visibility timeout;
      so the k-th of them is at least k - 1 timeouts after the first. */
  function Lag(cfg: Config, e: Entry): (t: int)
    requires e.deliveries > cfg.maxDeliveries
  {
    (e.deliveries - cfg.maxDeliveries - 1) * cfg.visibility
  }

  /** Who may still claim an entry past the cutoff surveyed it before the first delivery past the
      cutoff; its context has ended when five seconds have passed since. */
  predicate TimelyOk(cfg: Config, e: Entry, i: nat, r: Reclaimer) {
    cfg.maxDeliveries > 0 && e.deliveries > cfg.maxDeliveries && MayClaim(cfg, r, i) ==>
      r.deadline + Lag(cfg, e) <= e.last + DEADLINE
  }

  predicate LagOk(cfg: Config, e: Entry, now: nat) {
    e.last <= now && (cfg.maxDeliveries > 0 && e.deliveries > cfg.maxDeliveries ==> Lag(cfg, e) <= DEADLINE)
  }

  ghost predicate ClockOk(cfg: Config, now: nat, entries: seq<Entry>, procs: seq<Proc>) {
    && (forall i :: 0 <= i < |entries| ==> LagOk(cfg, entries[i], now))
    && (forall p :: 0 <= p < |procs| ==> DeadlineOk(procs[p].reclaimer, now))
    && (forall p :: 0 <= p < |procs| ==> AllTimely(cfg, entries, procs[p].reclaimer))
  }

  predicate AllTimely(cfg: Config, entries: seq<Entry>, r: Reclaimer) {
    forall i: nat :: i < |entries| ==> TimelyOk(cfg, entries[i], i, r)
  }

  predicate DeadlineOk(r: Reclaimer, now: nat) {
    r.Scanning? ==> r.deadline <= now + DEADLINE
  }

  ghost predicate Inv(s: Sys) {
    && ClockOk(s.cfg, s.now, s.entries, s.procs)
    && EntriesOk(s.cfg, s.entries, s.next)
    && (forall p :: 0 <= p < |s.procs| ==> ProcOk(s.entries, s.next, s.procs[p]))
    && CopiesOk(s.entries, s.procs)
    && CutoffOk(s.cfg, s.entries, s.procs)
  }

  /** What a step may do to an entry: nothing is un-acknowledged, unread again or forgotten. */
  predicate EntryLater(e: Entry, e': Entry) {
    && e.deliveries <= e'.deliveries && e.last <= e'.last && e.calls <= e'.calls && (e.handled ==> e'.handled)
    && (e.state.Acked? ==> e'.state == e.state)
    && (e'.state.Unread? ==> e.state.Unread?)
  }

  predicate Grew(entries: seq<Entry>, entries': seq<Entry>) {
    |entries| <= |entries'| && forall i :: 0 <= i < |entries| ==> EntryLater(entries[i], entries'[i])
  }

  ghost predicate Steps(s: Sys, s': Sys) {
    Inv(s') && Grew(s.entries, s'.entries) && s'.cfg == s.cfg && |s'.procs| == |s.procs| && s.now <= s'.now
  }

  // ---------------------------------------------------------------- sums over the processes

  lemma {:induction false} SumUpdate(procs: seq<Proc>, w: Proc -> nat, p: nat, pr: Proc)
    requires p < |procs|
    ensures Sum(procs[p := pr], w) == Sum(procs, w) - w(procs[p]) + w(pr)
  {
    if p == 0 {
      assert procs[p := pr][1..] == procs[1..];
    } else {
      assert procs[p := pr][1..] == procs[1..][p - 1 := pr];
      SumUpdate(procs[1..], w, p - 1, pr);
    }
  }

  lemma {:induction false} ClaimantsAtMostAll(cfg: Config, procs: seq<Proc>, i: nat)
    ensures Sum(procs, Claimants(cfg, i)) <= |procs|
  {
    if procs != [] {
      ClaimantsAtMostAll(cfg, procs[1..], i);
    }
  }

  lemma {:induction false} SumZero(procs: seq<Proc>, w: Proc -> nat)
    requires forall p :: 0 <= p < |procs| ==> w(procs[p]) == 0
    ensures Sum(procs, w) == 0
  {
    if procs != [] {
      SumZero(procs[1..], w);
    }
  }

  // ---------------------------------------------------------------- one step of one process

  lemma ProcKeeps(entries: seq<Entry>, next: nat, entries': seq<Entry>, next': nat, pr: Proc)
    requires ProcOk(entries, next, pr) && Grew(entries, entries') && next <= next' <= |entries'| && next <= |entries|
    ensures ProcOk(entries', next', pr)
  {
  }

  /** The copies and calls of each entry grow by no more than its deliveries. */
  predicate Paid(entries: seq<Entry>, entries': seq<Entry>, pr: Proc, pr': Proc) {
    |entries'| == |entries|
    && forall i: nat :: i < |entries| ==>
         entries'[i].calls + CopiesIn(pr', i) + entries[i].deliveries
         <= entries[i].calls + CopiesIn(pr, i) + entries'[i].deliveries
  }

  /** A delivery at or past the cutoff is a claim by somebody who surveyed earlier, and nobody
      becomes a claimant of an entry past the cutoff. */
  predicate Spent(cfg: Config, entries: seq<Entry>, entries': seq<Entry>, pr: Proc, pr': Proc) {
    |entries'| == |entries|
    && forall i: nat :: i < |entries| && entries'[i].deliveries > cfg.maxDeliveries > 0 ==>
         entries'[i].deliveries + Claimant(cfg, pr'.reclaimer, i) <= entries[i].deliveries + Claimant(cfg, pr.reclaimer, i)
  }

  /** A delivery past the cutoff keeps the distance to the one before and its own deadline; nobody
      becomes a claimant past the cutoff. */
  predicate OnTime(cfg: Config, now: nat, e: Entry, e': Entry, i: nat, r: Reclaimer, r': Reclaimer) {
    if cfg.maxDeliveries <= 0 then e'.last == e.last || e'.last == now
    else if e'.deliveries == e.deliveries then
      && e'.last == e.last
      && (MayClaim(cfg, r', i) && e.deliveries > cfg.maxDeliveries ==> MayClaim(cfg, r, i) && r'.deadline == r.deadline)
    else
      && e'.deliveries == e.deliveries + 1 && e'.last == now && !MayClaim(cfg, r', i)
      && (e.deliveries > cfg.maxDeliveries ==> MayClaim(cfg, r, i) && now <= r.deadline && Idle(cfg, e, now))
  }

  predicate AllOnTime(cfg: Config, now: nat, entries: seq<Entry>, entries': seq<Entry>, r: Reclaimer, r': Reclaimer) {
    && |entries'| == |entries| && DeadlineOk(r', now)
    && forall i: nat :: i < |entries| ==> OnTime(cfg, now, entries[i], entries'[i], i, r, r')
  }

  lemma LagGrows(cfg: Config, e: Entry, now: nat)
    requires e.deliveries > cfg.maxDeliveries
    ensures Lag(cfg, Redelivered(e, now)) == Lag(cfg, e) + cfg.visibility
  {
    var n := e.deliveries - cfg.maxDeliveries - 1;
    assert (n + 1) * cfg.visibility == n * cfg.visibility + cfg.visibility;
  }

  lemma LagStarts(cfg: Config, e: Entry)
    requires e.deliveries == cfg.maxDeliveries + 1
    ensures Lag(cfg, e) == 0
  {
  }

  /** What one step means for one entry and the reclaimer of the same or of another process. */
  lemma OnTimeKeeps(cfg: Config, now: nat, e: Entry, e': Entry, i: nat, r: Reclaimer, r': Reclaimer, q: Reclaimer)
    requires LagOk(cfg, e, now) && TimelyOk(cfg, e, i, r) && TimelyOk(cfg, e, i, q)
    requires OnTime(cfg, now, e, e', i, r, r') && DeadlineOk(q, now)
    ensures LagOk(cfg, e', now) && TimelyOk(cfg, e', i, r') && TimelyOk(cfg, e', i, q)
  {
    if cfg.maxDeliveries > 0 && e'.deliveries == e.deliveries + 1 {
      if e.deliveries > cfg.maxDeliveries {
        LagGrows(cfg, e, now);
        assert Lag(cfg, e') == Lag(cfg, Redelivered(e, now));
      } else if e'.deliveries > cfg.maxDeliveries {
        LagStarts(cfg, e');
      }
    }
  }

  lemma ClockKeepsOne(cfg: Config, now: nat, entries: seq<Entry>, entries': seq<Entry>, procs: seq<Proc>, p: nat, pr: Proc, q: nat, i: nat)
    requires p < |procs| && ClockOk(cfg, now, entries, procs)
    requires AllOnTime(cfg, now, entries, entries', procs[p].reclaimer, pr.reclaimer)
    requires q < |procs| && i < |entries|
    ensures LagOk(cfg, entries'[i], now) && TimelyOk(cfg, entries'[i], i, procs[p := pr][q].reclaimer)
  {
    assert AllTimely(cfg, entries, procs[p].reclaimer) && AllTimely(cfg, entries, procs[q].reclaimer);
    OnTimeKeeps(cfg, now, entries[i], entries'[i], i, procs[p].reclaimer, pr.reclaimer, procs[q].reclaimer);
  }

  lemma ClockKeeps(cfg: Config, now: nat, entries: seq<Entry>, entries': seq<Entry>, procs: seq<Proc>, p: nat, pr: Proc)
    requires p < |procs| && ClockOk(cfg, now, entries, procs)
    requires AllOnTime(cfg, now, entries, entries', procs[p].reclaimer, pr.reclaimer)
    ensures ClockOk(cfg, now, entries', procs[p := pr])
  {
    var procs' := procs[p := pr];
    forall q: nat | q < |procs'| ensures AllTimely(cfg, entries', procs'[q].reclaimer) {
      forall i: nat | i < |entries'| ensures TimelyOk(cfg, entries'[i], i, procs'[q].reclaimer) {
        ClockKeepsOne(cfg, now, entries, entries', procs, p, pr, q, i);
      }
    }
    forall i: nat | i < |entries'| ensures LagOk(cfg, entries'[i], now) {
      ClockKeepsOne(cfg, now, entries, entries', procs, p, pr, p, i);
    }
  }

  lemma PaidKeeps(entries: seq<Entry>, entries': seq<Entry>, procs: seq<Proc>, p: nat, pr: Proc)
    requires p < |procs| && CopiesOk(entries, procs) && Paid(entries, entries', procs[p], pr)
    ensures CopiesOk(entries', procs[p := pr])
  {
    forall i: nat | i < |entries'|
      ensures entries'[i].calls + Sum(procs[p := pr], Copies(i)) <= entries'[i].deliveries
    {
      SumUpdate(procs, Copies(i), p, pr);
    }
  }

  lemma SpentKeepsOne(cfg: Config, entries: seq<Entry>, entries': seq<Entry>, procs: seq<Proc>, p: nat, pr: Proc, i: nat)
    requires p < |procs| && CutoffOk(cfg, entries, procs) && Grew(entries, entries')
    requires Spent(cfg, entries, entries', procs[p], pr)
    requires i < |entries'| && cfg.maxDeliveries > 0 && entries'[i].deliveries >= cfg.maxDeliveries
    ensures entries'[i].deliveries - cfg.maxDeliveries + Sum(procs[p := pr], Claimants(cfg, i)) <= |procs|
  {
    SumUpdate(procs, Claimants(cfg, i), p, pr);
    ClaimantsAtMostAll(cfg, procs[p := pr], i);
    ClaimantsAtMostAll(cfg, procs, i);
    assert Claimants(cfg, i)(pr) == Claimant(cfg, pr.reclaimer, i);
    assert Claimants(cfg, i)(procs[p]) == Claimant(cfg, procs[p].reclaimer, i);
  }

  lemma SpentKeeps(cfg: Config, entries: seq<Entry>, entries': seq<Entry>, procs: seq<Proc>, p: nat, pr: Proc)
    requires p < |procs| && CutoffOk(cfg, entries, procs) && Grew(entries, entries')
    requires Spent(cfg, entries, entries', procs[p], pr)
    ensures CutoffOk(cfg, entries', procs[p := pr])
  {
    if cfg.maxDeliveries > 0 {
      forall i: nat | i < |entries'| && entries'[i].deliveries >= cfg.maxDeliveries
        ensures entries'[i].deliveries - cfg.maxDeliveries + Sum(procs[p := pr], Claimants(cfg, i)) <= |procs|
      {
        SpentKeepsOne(cfg, entries, entries', procs, p, pr, i);
      }
    }
  }

  lemma StepKeeps(s: Sys, s': Sys, p: nat, pr: Proc)
    requires Inv(s) && p < |s.procs|
    requires s'.cfg == s.cfg && s'.now == s.now && s'.procs == s.procs[p := pr] && s.next <= s'.next
    requires EntriesOk(s.cfg, s'.entries, s'.next) && Grew(s.entries, s'.entries) && ProcOk(s'.entries, s'.next, pr)
    requires Paid(s.entries, s'.entries, s.procs[p], pr) && Spent(s.cfg, s.entries, s'.entries, s.procs[p], pr)
    requires AllOnTime(s.cfg, s.now, s.entries, s'.entries, s.procs[p].reclaimer, pr.reclaimer)
    ensures Steps(s, s')
  {
    ClockKeeps(s.cfg, s.now, s.entries, s'.entries, s.procs, p, pr);
    PaidKeeps(s.entries, s'.entries, s.procs, p, pr);
    SpentKeeps(s.cfg, s.entries, s'.entries, s.procs, p, pr);
    forall q | 0 <= q < |s.procs| && q != p ensures ProcOk(s'.entries, s'.next, s.procs[q]) {
      ProcKeeps(s.entries, s.next, s'.entries, s'.next, s.procs[q]);
    }
  }

  /** A step that leaves the stream alone. */
  lemma LocalKeeps(s: Sys, p: nat, pr: Proc)
    requires Inv(s) && p < |s.procs|
    requires ProcOk(s.entries, s.next, pr)
    requires Paid(s.entries, s.entries, s.procs[p], pr) && Spent(s.cfg, s.entries, s.entries, s.procs[p], pr)
    requires AllOnTime(s.cfg, s.now, s.entries, s.entries, s.procs[p].reclaimer, pr.reclaimer)
    ensures Steps(s, With(s, p, pr))
  {
    Same(s.entries);
    StepKeeps(s, With(s, p, pr), p, pr);
  }

  lemma Same(entries: seq<Entry>)
    ensures Grew(entries, entries)
  {
  }

  // ---------------------------------------------------------------- poll

  lemma {:induction false} IncreasingCounts(ids: seq<nat>, i: nat)
    requires Increasing(ids)
    ensures multiset(ids)[i] == if i in ids then 1 else 0
  {
    if ids != [] {
      assert ids == [ids[0]] + ids[1..];
      IncreasingCounts(ids[1..], i);
    }
  }

  lemma DeliverGrows(cfg: Config, now: nat, entries: seq<Entry>, next: nat, ids: seq<nat>, next': nat)
    requires EntriesOk(cfg, entries, next) && next <= next' <= |entries|
    requires forall i :: 0 <= i < |entries| ==> entries[i].last <= now
    requires forall i: nat :: i in ids ==> i < |entries| && !entries[i].state.Acked?
    requires forall i: nat :: i < next' <==> i < next || i in ids
    ensures EntriesOk(cfg, Deliver(entries, ids, now), next') && Grew(entries, Deliver(entries, ids, now))
  {
  }

  /** The first delivery of an entry, if its reply arrives, is one copy. */
  lemma FirstDelivery(cfg: Config, now: nat, entries: seq<Entry>, next: nat, batch: seq<nat>, pr: Proc, lost: bool)
    requires EntriesOk(cfg, entries, next) && Increasing(batch) && DeadlineOk(pr.reclaimer, now)
    requires InfosSeen(next, pr.reclaimer)
    requires forall i: nat :: i in batch ==> next <= i < |entries|
    requires pr.hand == []
    ensures var pr' := if lost then pr else pr.(hand := batch); var entries' := Deliver(entries, batch, now);
            && Paid(entries, entries', pr, pr') && Spent(cfg, entries, entries', pr, pr')
            && AllOnTime(cfg, now, entries, entries', pr.reclaimer, pr'.reclaimer)
  {
    forall i: nat ensures multiset(batch)[i] == if i in batch then 1 else 0 {
      IncreasingCounts(batch, i);
    }
  }

  /** A reclaimer knows only entries that have been read. */
  predicate InfosSeen(next: nat, r: Reclaimer) {
    r.Scanning? ==> Below(r.ids, next) && Below(Ids(r.rest), next)
  }

  lemma ReadParts(cfg: Config, now: nat, entries: seq<Entry>, next: nat, pr: Proc, k: nat, lost: bool)
    requires EntriesOk(cfg, entries, next) && ProcOk(entries, next, pr) && DeadlineOk(pr.reclaimer, now)
    requires forall i :: 0 <= i < |entries| ==> entries[i].last <= now
    requires next + k <= |entries| && pr.hand == []
    ensures var batch := Range(next, k); var entries' := Deliver(entries, batch, now);
            var pr' := if lost then pr else pr.(hand := batch);
            && EntriesOk(cfg, entries', next + k) && Grew(entries, entries') && ProcOk(entries', next + k, pr')
            && Paid(entries, entries', pr, pr') && Spent(cfg, entries, entries', pr, pr')
            && AllOnTime(cfg, now, entries, entries', pr.reclaimer, pr'.reclaimer)
  {
    var batch := Range(next, k);
    RangeHolds(next, k);
    KnowsRead(entries, next, pr);
    DeliverGrows(cfg, now, entries, next, batch, next + k);
    ProcKeeps(entries, next, Deliver(entries, batch, now), next + k, pr);
    FirstDelivery(cfg, now, entries, next, batch, pr, lost);
  }

  lemma KnowsRead(entries: seq<Entry>, next: nat, pr: Proc)
    requires ProcOk(entries, next, pr)
    ensures InfosSeen(next, pr.reclaimer)
  {
  }

  lemma LastBefore(s: Sys)
    requires ClockOk(s.cfg, s.now, s.entries, s.procs)
    ensures forall i :: 0 <= i < |s.entries| ==> s.entries[i].last <= s.now
    ensures forall p :: 0 <= p < |s.procs| ==> DeadlineOk(s.procs[p].reclaimer, s.now)
  {
    forall i | 0 <= i < |s.entries| ensures s.entries[i].last <= s.now {
      assert LagOk(s.cfg, s.entries[i], s.now);
    }
  }

  lemma ReadKeeps(s: Sys, p: nat, k: nat, lost: bool)
    requires Inv(s) && Enabled(s, Read(p, k, lost))
    ensures Steps(s, ReadStep(s, p, k, lost))
  {
    hide CopiesOk, CutoffOk, Grew;
    var batch := Range(s.next, k);
    var pr := if lost then s.procs[p] else s.procs[p].(hand := batch);
    LastBefore(s);
    ReadParts(s.cfg, s.now, s.entries, s.next, s.procs[p], k, lost);
    assert s.procs[p := s.procs[p]] == s.procs;
    StepKeeps(s, ReadStep(s, p, k, lost), p, pr);
  }

  lemma RangeHolds(from: nat, k: nat)
    ensures forall i: nat :: i in Range(from, k) <==> from <= i < from + k
  {
    forall i: nat | from <= i < from + k ensures i in Range(from, k) {
      assert Range(from, k)[i - from] == i;
    }
  }

  lemma {:induction false} Shift(ids: seq<nat>, i: nat)
    requires ids != []
    ensures multiset(ids)[i] == multiset(ids[1..])[i] + if ids[0] == i then 1 else 0
  {
    assert ids == [ids[0]] + ids[1..];
  }

  lemma HandKeeps(s: Sys, p: nat)
    requires Inv(s) && Enabled(s, Hand(p))
    ensures Steps(s, Fire(s, Hand(p)))
  {
    var pr := s.procs[p];
    var pr' := pr.(hand := pr.hand[1..], queue := pr.queue + [pr.hand[0]]);
    forall i: nat ensures CopiesIn(pr', i) == CopiesIn(pr, i) {
      Shift(pr.hand, i);
    }
    LocalKeeps(s, p, pr');
  }

  // ---------------------------------------------------------------- reclaim

  /** XPENDING reports pending entries only, in stream order, with their delivery counts. */
  lemma {:induction false} PendingListOk(cfg: Config, entries: seq<Entry>, next: nat, from: nat, count: nat, now: nat)
    requires EntriesOk(cfg, entries, next) && from <= |entries|
    ensures var infos := PendingList(cfg, entries, from, count, now);
            && |infos| <= count
            && InfosOk(entries, next, infos) && Increasing(Ids(infos))
            && forall k :: 0 <= k < |infos| ==> from <= infos[k].id < |entries| && infos[k].retries == entries[infos[k].id].deliveries
    decreases |entries| - from
  {
    if from < |entries| && count > 0 {
      PendingListOk(cfg, entries, next, from + 1, if entries[from].state.Pending? then count - 1 else count, now);
    }
  }

  lemma SurveyKeeps(s: Sys, p: nat)
    requires Inv(s) && Enabled(s, Survey(p))
    ensures Steps(s, SurveyStep(s, p))
  {
    SurveyParts(s.cfg, s.now, s.entries, s.next, s.procs[p]);
    LocalKeeps(s, p, SurveyStep(s, p).procs[p]);
  }

  /** A survey makes nobody a claimant of an entry past the cutoff. */
  lemma SurveyParts(cfg: Config, now: nat, entries: seq<Entry>, next: nat, pr: Proc)
    requires EntriesOk(cfg, entries, next) && ProcOk(entries, next, pr) && pr.reclaimer.Waiting?
    ensures var pr' := pr.(reclaimer := Scanning(PendingList(cfg, entries, 0, cfg.bufferSize, now), [], now + DEADLINE));
            && ProcOk(entries, next, pr') && Paid(entries, entries, pr, pr') && Spent(cfg, entries, entries, pr, pr')
            && AllOnTime(cfg, now, entries, entries, pr.reclaimer, pr'.reclaimer)
  {
    var infos := PendingList(cfg, entries, 0, cfg.bufferSize, now);
    PendingListOk(cfg, entries, next, 0, cfg.bufferSize, now);
    assert [] + Ids(infos) == Ids(infos);
  }

  lemma AcknowledgeOk(cfg: Config, entries: seq<Entry>, next: nat, id: nat, cause: Cause)
    requires EntriesOk(cfg, entries, next)
    requires id < |entries| ==> if cause.Handled? then entries[id].handled else 0 < cfg.maxDeliveries < entries[id].deliveries
    ensures var entries' := Acknowledge(entries, id, cause);
            && EntriesOk(cfg, entries', next) && Grew(entries, entries')
            && forall i :: 0 <= i < |entries| ==> entries'[i] == entries[i].(state := entries'[i].state)
  {
  }

  /** Looking at the next report moves its entry to the ones to claim, unless it is poison. */
  lemma ScanMoves(cfg: Config, entries: seq<Entry>, next: nat, r: Reclaimer, r': Reclaimer)
    requires ReclaimerOk(entries, next, r) && r.Scanning? && r.rest != []
    requires var info := r.rest[0];
             r' == Scanning(r.rest[1..], if info.idle && !IsPoison(cfg, info) then r.ids + [info.id] else r.ids, r.deadline)
    ensures ReclaimerOk(entries, next, r')
    ensures cfg.maxDeliveries > 0 ==> forall i: nat :: MayClaim(cfg, r', i) ==> MayClaim(cfg, r, i)
  {
    var all := r.ids + Ids(r.rest);
    var all' := r'.ids + Ids(r'.rest);
    forall j, k | 0 <= j < k < |all'| ensures all'[j] < all'[k] {
      if r'.ids == r.ids {
        assert all'[j] == all[if j < |r.ids| then j else j + 1] && all'[k] == all[if k < |r.ids| then k else k + 1];
      } else {
        assert all' == all;
      }
    }
    forall i: nat | cfg.maxDeliveries > 0 && MayClaim(cfg, r', i) ensures MayClaim(cfg, r, i) {
      if k :| 0 <= k < |r'.rest| && r'.rest[k].id == i && r'.rest[k].retries <= cfg.maxDeliveries {
        assert r'.rest[k] == r.rest[k + 1];
      } else if i !in r.ids {
        assert r.rest[0].id == i && !IsPoison(cfg, r.rest[0]);
      }
    }
  }

  lemma ScanKeeps(s: Sys, p: nat, ok: bool)
    requires Inv(s) && Enabled(s, Scan(p, ok))
    ensures Steps(s, ScanStep(s, p, ok))
  {
    var r := s.procs[p].reclaimer;
    var info := r.rest[0];
    var s' := ScanStep(s, p, ok);
    Same(s.entries);
    if info.idle && IsPoison(s.cfg, info) {
      AcknowledgeOk(s.cfg, s.entries, s.next, info.id, Poison);
    }
    ScanMoves(s.cfg, s.entries, s.next, r, s'.procs[p].reclaimer);
    ProcKeeps(s.entries, s.next, s'.entries, s.next, s'.procs[p]);
    StepKeeps(s, s', p, s'.procs[p]);
  }

  lemma {:induction false} ClaimedOk(cfg: Config, entries: seq<Entry>, now: nat, ids: seq<nat>)
    requires Increasing(ids)
    ensures var claimed := Claimed(cfg, entries, now, ids);
            && Increasing(claimed)
            && forall i: nat :: i in claimed <==> i in ids && Claimable(cfg, entries, now, i)
  {
    if ids != [] {
      ClaimedOk(cfg, entries, now, ids[1..]);
      var rest := Claimed(cfg, entries, now, ids[1..]);
      forall k | 0 <= k < |rest| ensures ids[0] < rest[k] {
        assert rest[k] in ids[1..];
      }
    }
  }

  /** A claim that arrives is one copy, and it uses up what the reclaimer had seen. */
  lemma Redelivery(cfg: Config, now: nat, entries: seq<Entry>, ids: seq<nat>, claimed: seq<nat>, pr: Proc, lost: bool)
    requires pr.reclaimer.Scanning? && pr.reclaimer.ids == ids && now <= pr.reclaimer.deadline
    requires Increasing(claimed) && forall i: nat :: i in claimed <==> i in ids && Claimable(cfg, entries, now, i)
    ensures var pr' := pr.(reclaimer := if lost then Waiting else AfterDelivery(claimed)); var entries' := Deliver(entries, claimed, now);
            && Paid(entries, entries', pr, pr') && Spent(cfg, entries, entries', pr, pr')
            && AllOnTime(cfg, now, entries, entries', pr.reclaimer, pr'.reclaimer)
  {
    forall i: nat ensures multiset(claimed)[i] == if i in claimed then 1 else 0 {
      IncreasingCounts(claimed, i);
    }
  }

  lemma IncreasingPrefix(ids: seq<nat>, rest: seq<nat>)
    requires Increasing(ids + rest)
    ensures Increasing(ids)
  {
    var all := ids + rest;
    assert forall k :: 0 <= k < |ids| ==> all[k] == ids[k];
  }

  lemma ClaimParts(cfg: Config, now: nat, entries: seq<Entry>, next: nat, pr: Proc, lost: bool)
    requires EntriesOk(cfg, entries, next) && ProcOk(entries, next, pr) && pr.reclaimer.Scanning? && now <= pr.reclaimer.deadline
    requires forall i :: 0 <= i < |entries| ==> entries[i].last <= now
    ensures var claimed := Claimed(cfg, entries, now, pr.reclaimer.ids);
            var entries' := Deliver(entries, claimed, now);
            var pr' := pr.(reclaimer := if lost then Waiting else AfterDelivery(claimed));
            && EntriesOk(cfg, entries', next) && Grew(entries, entries') && ProcOk(entries', next, pr')
            && Paid(entries, entries', pr, pr') && Spent(cfg, entries, entries', pr, pr')
            && AllOnTime(cfg, now, entries, entries', pr.reclaimer, pr'.reclaimer)
  {
    var claimed := Claimed(cfg, entries, now, pr.reclaimer.ids);
    IncreasingPrefix(pr.reclaimer.ids, Ids(pr.reclaimer.rest));
    ClaimedOk(cfg, entries, now, pr.reclaimer.ids);
    DeliverGrows(cfg, now, entries, next, claimed, next);
    ProcKeeps(entries, next, Deliver(entries, claimed, now), next, pr);
    Redelivery(cfg, now, entries, pr.reclaimer.ids, claimed, pr, lost);
  }

  lemma ClaimKeeps(s: Sys, p: nat, lost: bool)
    requires Inv(s) && Enabled(s, Claim(p, lost))
    ensures Steps(s, ClaimStep(s, p, lost))
  {
    var s' := ClaimStep(s, p, lost);
    LastBefore(s);
    ClaimParts(s.cfg, s.now, s.entries, s.next, s.procs[p], lost);
    StepKeeps(s, s', p, s'.procs[p]);
  }

  lemma OfferKeeps(s: Sys, p: nat)
    requires Inv(s) && Enabled(s, Offer(p))
    ensures Steps(s, Fire(s, Offer(p)))
  {
    var pr := s.procs[p];
    var left := pr.reclaimer.left;
    var pr' := pr.(reclaimer := AfterDelivery(left[1..]), queue := pr.queue + [left[0]]);
    forall i: nat ensures CopiesIn(pr', i) == CopiesIn(pr, i) {
      Shift(left, i);
    }
    LocalKeeps(s, p, pr');
  }

  // ---------------------------------------------------------------- work

  lemma TakePays(entries: seq<Entry>, entries': seq<Entry>, pr: Proc, pr': Proc)
    requires pr.queue != [] && pr'.queue == pr.queue[1..] && pr'.hand == pr.hand && pr'.reclaimer == pr.reclaimer
    requires |entries'| == |entries|
    requires forall i: nat :: i < |entries| ==> entries'[i].deliveries == entries[i].deliveries
    requires forall i: nat :: i < |entries| ==> entries'[i].calls <= entries[i].calls + if i == pr.queue[0] then 1 else 0
    ensures Paid(entries, entries', pr, pr')
  {
    forall i: nat ensures multiset(pr.queue)[i] == multiset(pr.queue[1..])[i] + if pr.queue[0] == i then 1 else 0 {
      Shift(pr.queue, i);
    }
  }

  /** A worker takes a message: it drops it after a shutdown, and calls the handler otherwise. */
  lemma TakeParts(cfg: Config, now: nat, entries: seq<Entry>, entries': seq<Entry>, next: nat, pr: Proc, pr': Proc)
    requires EntriesOk(cfg, entries, next) && ProcOk(entries, next, pr) && DeadlineOk(pr.reclaimer, now) && pr.queue != []
    requires || (entries' == entries && pr' == pr.(queue := pr.queue[1..]))
             || (var id := pr.queue[0];
                 && id < |entries| && entries' == entries[id := entries[id].(calls := entries[id].calls + 1)]
                 && pr' == pr.(queue := pr.queue[1..], jobs := pr.jobs + [Calling(id)]))
    ensures EntriesOk(cfg, entries', next) && Grew(entries, entries') && ProcOk(entries', next, pr')
    ensures Paid(entries, entries', pr, pr') && Spent(cfg, entries, entries', pr, pr')
    ensures AllOnTime(cfg, now, entries, entries', pr.reclaimer, pr'.reclaimer)
  {
    hide Paid;
    TakePays(entries, entries', pr, pr');
    ProcKeeps(entries, next, entries', next, pr);
  }

  lemma TakeKeeps(s: Sys, p: nat)
    requires Inv(s) && Enabled(s, Take(p))
    ensures Steps(s, TakeStep(s, p))
  {
    hide EntriesOk, ProcOk, Grew, Paid, Spent, AllOnTime, CopiesOk, CutoffOk, ClockOk, Steps;
    var s' := TakeStep(s, p);
    LastBefore(s);
    TakeParts(s.cfg, s.now, s.entries, s'.entries, s.next, s.procs[p], s'.procs[p]);
    StepKeeps(s, s', p, s'.procs[p]);
  }

  lemma ReturnKeeps(s: Sys, p: nat, j: nat, ok: bool)
    requires Inv(s) && Enabled(s, Return(p, j, ok))
    ensures Steps(s, ReturnStep(s, p, j, ok))
  {
    var s' := ReturnStep(s, p, j, ok);
    ProcKeeps(s.entries, s.next, s'.entries, s.next, s.procs[p]);
    StepKeeps(s, s', p, s'.procs[p]);
  }

  lemma AckKeeps(s: Sys, p: nat, j: nat, ok: bool)
    requires Inv(s) && Enabled(s, Ack(p, j, ok))
    ensures Steps(s, AckStep(s, p, j, ok))
  {
    var s' := AckStep(s, p, j, ok);
    Same(s.entries);
    AcknowledgeOk(s.cfg, s.entries, s.next, s.procs[p].jobs[j].id, Handled);
    ProcKeeps(s.entries, s.next, s'.entries, s.next, s.procs[p]);
    StepKeeps(s, s', p, s'.procs[p]);
  }

  // ---------------------------------------------------------------- every step

  lemma AddKeeps(s: Sys)
    requires Inv(s)
    ensures Steps(s, Fire(s, Add))
  {
    var entries' := s.entries + [NEW_ENTRY];
    forall p | 0 <= p < |s.procs| ensures ProcOk(entries', s.next, s.procs[p]) {
      ProcKeeps(s.entries, s.next, entries', s.next, s.procs[p]);
    }
    NobodyHasIt(s, |s.entries|);
  }

  lemma WaitKeeps(s: Sys, d: nat)
    requires Inv(s)
    ensures Steps(s, s.(now := s.now + d))
  {
    Same(s.entries);
    var s' := s.(now := s.now + d);
    forall i | 0 <= i < |s.entries| ensures LagOk(s.cfg, s.entries[i], s'.now) {
      assert LagOk(s.cfg, s.entries[i], s.now);
    }
    forall p | 0 <= p < |s.procs| ensures DeadlineOk(s.procs[p].reclaimer, s'.now) {
      assert DeadlineOk(s.procs[p].reclaimer, s.now);
    }
    assert ClockOk(s'.cfg, s'.now, s'.entries, s'.procs);
  }

  /** No process holds or will claim an entry that has not been read. */
  lemma NobodyHasIt(s: Sys, i: nat)
    requires Inv(s) && s.next <= i
    ensures Sum(s.procs, Copies(i)) == 0 && Sum(s.procs, Claimants(s.cfg, i)) == 0
  {
    SumZero(s.procs, Copies(i));
    SumZero(s.procs, Claimants(s.cfg, i));
  }

  lemma FireKeeps(s: Sys, e: Event)
    requires Inv(s) && Enabled(s, e)
    ensures Steps(s, Fire(s, e))
  {
    match e
    case Add => AddKeeps(s);
    case Read(p, k, lost) => ReadKeeps(s, p, k, lost);
    case Hand(p) => HandKeeps(s, p);
    case Wait(d) => WaitKeeps(s, d);
    case Survey(p) => SurveyKeeps(s, p);
    case Scan(p, ok) => ScanKeeps(s, p, ok);
    case Claim(p, lost) => ClaimKeeps(s, p, lost);
    case GiveUp(p) => LocalKeeps(s, p, s.procs[p].(reclaimer := Waiting));
    case Offer(p) => OfferKeeps(s, p);
    case Take(p) => TakeKeeps(s, p);
    case Return(p, j, ok) => ReturnKeeps(s, p, j, ok);
    case Ack(p, j, ok) => AckKeeps(s, p, j, ok);
    case Shutdown(p) => LocalKeeps(s, p, s.procs[p].(cancelled := true));
    case Crash(p) => LocalKeeps(s, p, DEAD_PROC);
    case Boot(p) => LocalKeeps(s, p, IDLE_PROC);
  }

  lemma {:induction false} ExecKeeps(s: Sys, schedule: seq<Event>)
    requires Inv(s)
    ensures Steps(s, Exec(s, schedule))
    decreases |schedule|
  {
    if schedule == [] {
      Same(s.entries);
    } else {
      var s1 := Apply(s, schedule[0]);
      if Enabled(s, schedule[0]) {
        FireKeeps(s, schedule[0]);
      } else {
        Same(s.entries);
      }
      ExecKeeps(s1, schedule[1..]);
      GrewTransitive(s.entries, s1.entries, Exec(s, schedule).entries);
    }
  }

  lemma GrewTransitive(a: seq<Entry>, b: seq<Entry>, c: seq<Entry>)
    requires Grew(a, b) && Grew(b, c)
    ensures Grew(a, c)
  {
  }

  lemma InitInv(cfg: Config, processes: nat)
    ensures Inv(Init(cfg, processes))
  {
  }
}
