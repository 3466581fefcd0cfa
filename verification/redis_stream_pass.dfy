/** One reclaim pass as a function of the stream: what it reports, discards, claims and leaves. */
module RedisStreamPass {
  import opened RedisStreamModel
  import opened RedisStreamInvariants

  predicate PastCutoff(cfg: Config, e: Entry) {
    cfg.maxDeliveries > 0 && e.deliveries > cfg.maxDeliveries
  }

  // ---------------------------------------------------------------- what a survey reports

  /** How many entries are pending from `from` up to entry i. */
  function PendingBefore(entries: seq<Entry>, from: nat, i: nat): (n: nat)
    requires from <= i <= |entries|
    decreases i - from
  {
    if from == i then 0 else (if entries[from].state.Pending? then 1 else 0) + PendingBefore(entries, from + 1, i)
  }

  /** A survey sees an entry that is pending and has fewer than `count` pending ones before it. */
  predicate Surveyed(entries: seq<Entry>, count: nat, i: nat) {
    i < |entries| && entries[i].state.Pending? && PendingBefore(entries, 0, i) < count
  }

  predicate Reports(infos: seq<Info>, i: nat) {
    exists k :: 0 <= k < |infos| && infos[k].id == i
  }

  lemma {:induction false} ReportsExactly(cfg: Config, entries: seq<Entry>, from: nat, count: nat, now: nat, i: nat)
    requires from <= |entries|
    ensures Reports(PendingList(cfg, entries, from, count, now), i)
            <==> from <= i < |entries| && entries[i].state.Pending? && PendingBefore(entries, from, i) < count
    decreases |entries| - from
  {
    var infos := PendingList(cfg, entries, from, count, now);
    if from < |entries| && count > 0 {
      if entries[from].state.Pending? {
        var rest := PendingList(cfg, entries, from + 1, count - 1, now);
        ReportsExactly(cfg, entries, from + 1, count - 1, now, i);
        assert infos[0].id == from && infos[1..] == rest;
        if Reports(rest, i) {
          var k :| 0 <= k < |rest| && rest[k].id == i;
          assert infos[k + 1].id == i;
        }
        if Reports(infos, i) && i != from {
          var k :| 0 <= k < |infos| && infos[k].id == i;
          assert rest[k - 1].id == i;
        }
      } else {
        ReportsExactly(cfg, entries, from + 1, count, now, i);
        assert infos == PendingList(cfg, entries, from + 1, count, now);
      }
    }
  }

  lemma {:induction false} ReportsTruly(cfg: Config, entries: seq<Entry>, from: nat, count: nat, now: nat)
    requires from <= |entries|
    ensures forall info :: info in PendingList(cfg, entries, from, count, now) ==>
              from <= info.id < |entries| && entries[info.id].state.Pending?
              && info == Info(info.id, Idle(cfg, entries[info.id], now), entries[info.id].deliveries)
    decreases |entries| - from
  {
    if from < |entries| && count > 0 {
      ReportsTruly(cfg, entries, from + 1, if entries[from].state.Pending? then count - 1 else count, now);
    }
  }

  // ---------------------------------------------------------------- the loop over the reports

  function ScanAll(cfg: Config, entries: seq<Entry>, infos: seq<Info>, failing: set<nat>): (r: seq<Entry>)
    ensures |r| == |entries|
    decreases |infos|
  {
    if infos == [] then entries
    else ScanAll(cfg, if infos[0].idle && IsPoison(cfg, infos[0]) && infos[0].id !in failing
                      then Acknowledge(entries, infos[0].id, Poison) else entries, infos[1..], failing)
  }

  function ChosenIds(cfg: Config, infos: seq<Info>): seq<nat> {
    if infos == [] then []
    else (if infos[0].idle && !IsPoison(cfg, infos[0]) then [infos[0].id] else []) + ChosenIds(cfg, infos[1..])
  }

  predicate Discarded(cfg: Config, infos: seq<Info>, i: nat) {
    exists k :: 0 <= k < |infos| && infos[k].id == i && infos[k].idle && IsPoison(cfg, infos[k])
  }

  predicate Chosen(cfg: Config, infos: seq<Info>, i: nat) {
    exists k :: 0 <= k < |infos| && infos[k].id == i && infos[k].idle && !IsPoison(cfg, infos[k])
  }

  lemma {:induction false} DiscardedTail(cfg: Config, infos: seq<Info>, i: nat)
    requires infos != []
    ensures Discarded(cfg, infos, i) <==> (infos[0].id == i && infos[0].idle && IsPoison(cfg, infos[0])) || Discarded(cfg, infos[1..], i)
    ensures Chosen(cfg, infos, i) <==> (infos[0].id == i && infos[0].idle && !IsPoison(cfg, infos[0])) || Chosen(cfg, infos[1..], i)
  {
    var rest := infos[1..];
    assert forall k :: 1 <= k < |infos| ==> infos[k] == rest[k - 1];
    assert forall k :: 0 <= k < |rest| ==> rest[k] == infos[k + 1];
  }

  lemma {:induction false} ScanAllActs(cfg: Config, entries: seq<Entry>, infos: seq<Info>, failing: set<nat>, i: nat)
    requires i < |entries|
    ensures ScanAll(cfg, entries, infos, failing)[i]
         == if Discarded(cfg, infos, i) && i !in failing then Acknowledge(entries, i, Poison)[i] else entries[i]
    decreases |infos|
  {
    if infos != [] {
      DiscardedTail(cfg, infos, i);
      var poison := infos[0].idle && IsPoison(cfg, infos[0]) && infos[0].id !in failing;
      ScanAllActs(cfg, if poison then Acknowledge(entries, infos[0].id, Poison) else entries, infos[1..], failing, i);
    }
  }

  lemma {:induction false} ChosenIdsOk(cfg: Config, infos: seq<Info>)
    requires Increasing(Ids(infos))
    ensures Increasing(ChosenIds(cfg, infos))
    ensures forall i: nat :: i in ChosenIds(cfg, infos) <==> Chosen(cfg, infos, i)
  {
    if infos != [] {
      assert Ids(infos)[1..] == Ids(infos[1..]);
      ChosenIdsOk(cfg, infos[1..]);
      var rest := ChosenIds(cfg, infos[1..]);
      forall i: nat ensures i in ChosenIds(cfg, infos) <==> Chosen(cfg, infos, i) {
        DiscardedTail(cfg, infos, i);
      }
      forall k | 0 <= k < |rest| ensures infos[0].id < rest[k] {
        assert Chosen(cfg, infos[1..], rest[k]);
        var q :| 0 <= q < |infos[1..]| && infos[1..][q].id == rest[k];
        assert Ids(infos)[0] < Ids(infos)[q + 1];
      }
    }
  }

  /** What the reports of one survey say of entry i. */
  lemma {:induction false} SurveySays(cfg: Config, entries: seq<Entry>, next: nat, now: nat, i: nat)
    requires EntriesOk(cfg, entries, next) && i < |entries|
    ensures var infos := PendingList(cfg, entries, 0, cfg.bufferSize, now);
            var due := Surveyed(entries, cfg.bufferSize, i) && Idle(cfg, entries[i], now);
            && (Discarded(cfg, infos, i) <==> due && PastCutoff(cfg, entries[i]))
            && (Chosen(cfg, infos, i) <==> due && !PastCutoff(cfg, entries[i]))
  {
    var infos := PendingList(cfg, entries, 0, cfg.bufferSize, now);
    ReportsTruly(cfg, entries, 0, cfg.bufferSize, now);
    ReportsExactly(cfg, entries, 0, cfg.bufferSize, now, i);
    forall k | 0 <= k < |infos| && infos[k].id == i
      ensures infos[k].idle == Idle(cfg, entries[i], now) && IsPoison(cfg, infos[k]) == PastCutoff(cfg, entries[i])
    {
      assert infos[k] in infos;
    }
  }

  // ---------------------------------------------------------------- the whole pass

  /** How far a pass gets: XPENDING may fail; XCLAIM may fail, or come after the context has ended;
      otherwise it takes effect at some time. */
  datatype Extent = NoSurvey | NoClaim | ClaimedAt(time: nat)

  /** What one pass that surveys at `now` does to entry i. */
  function Reclaimed(cfg: Config, entries: seq<Entry>, now: nat, failing: set<nat>, extent: Extent, i: nat): Entry
    requires i < |entries|
  {
    if extent.NoSurvey? || !Surveyed(entries, cfg.bufferSize, i) || !Idle(cfg, entries[i], now) then entries[i]
    else if PastCutoff(cfg, entries[i]) then
      if i in failing then entries[i] else entries[i].(state := Acked(Poison))
    else if extent.NoClaim? then entries[i]
    else Redelivered(entries[i], extent.time)
  }

  /** What a pass leaves behind, entry by entry, and which entries it delivered once more. */
  ghost predicate Passed(cfg: Config, entries: seq<Entry>, entries': seq<Entry>, now: nat, failing: set<nat>, extent: Extent,
                         claimed: seq<nat>) {
    && |entries'| == |entries|
    && (forall i: nat :: i < |entries| ==> entries'[i] == Reclaimed(cfg, entries, now, failing, extent, i))
    && Increasing(claimed)
    && (forall i: nat :: i in claimed <==> i < |entries| && entries'[i].deliveries > entries[i].deliveries)
  }

  /** The same for one entry: `chosen` by the scan, `taken` by XCLAIM. */
  lemma PassActsOn(cfg: Config, entries: seq<Entry>, scanned: seq<Entry>, now: nat, failing: set<nat>, later: nat,
                   i: nat, chosen: bool, taken: bool)
    requires i < |entries| == |scanned| && now <= later
    requires var due := Surveyed(entries, cfg.bufferSize, i) && Idle(cfg, entries[i], now);
             && scanned[i] == (if due && PastCutoff(cfg, entries[i]) && i !in failing
                               then Acknowledge(entries, i, Poison)[i] else entries[i])
             && (chosen <==> due && !PastCutoff(cfg, entries[i]))
             && (taken <==> chosen && Claimable(cfg, scanned, later, i))
    ensures scanned[i] == Reclaimed(cfg, entries, now, failing, NoClaim, i)
    ensures (if taken then Redelivered(scanned[i], later) else scanned[i])
            == Reclaimed(cfg, entries, now, failing, ClaimedAt(later), i)
    ensures taken <==> Reclaimed(cfg, entries, now, failing, ClaimedAt(later), i).deliveries > entries[i].deliveries
    ensures taken ==> scanned[i].state.Pending?
  {
  }

  lemma {:induction false} PassActs(cfg: Config, entries: seq<Entry>, next: nat, now: nat, failing: set<nat>, later: nat)
    requires EntriesOk(cfg, entries, next) && now <= later
    ensures var infos := PendingList(cfg, entries, 0, cfg.bufferSize, now);
            var scanned := ScanAll(cfg, entries, infos, failing);
            var claimed := Claimed(cfg, scanned, later, ChosenIds(cfg, infos));
            && Passed(cfg, entries, Deliver(scanned, claimed, later), now, failing, ClaimedAt(later), claimed)
            && Passed(cfg, entries, scanned, now, failing, NoClaim, [])
            && forall i: nat :: i in claimed ==> i < |entries| && scanned[i].state.Pending?
  {
    hide PendingList, ScanAll, ChosenIds, Claimed, Discarded, Chosen, EntriesOk, PendingBefore, Redelivered, Acknowledge, Reclaimed;
    var infos := PendingList(cfg, entries, 0, cfg.bufferSize, now);
    var scanned := ScanAll(cfg, entries, infos, failing);
    var claimed := Claimed(cfg, scanned, later, ChosenIds(cfg, infos));
    PendingListOk(cfg, entries, next, 0, cfg.bufferSize, now);
    ChosenIdsOk(cfg, infos);
    ClaimedOk(cfg, scanned, later, ChosenIds(cfg, infos));
    forall i: nat | i < |entries|
      ensures scanned[i] == Reclaimed(cfg, entries, now, failing, NoClaim, i)
      ensures Deliver(scanned, claimed, later)[i] == Reclaimed(cfg, entries, now, failing, ClaimedAt(later), i)
      ensures i in claimed <==> Deliver(scanned, claimed, later)[i].deliveries > entries[i].deliveries
      ensures scanned[i].deliveries == entries[i].deliveries
      ensures i in claimed ==> scanned[i].state.Pending?
    {
      ScanAllActs(cfg, entries, infos, failing, i);
      SurveySays(cfg, entries, next, now, i);
      PassActsOn(cfg, entries, scanned, now, failing, later, i, Chosen(cfg, infos, i), i in claimed);
      SameDeliveries(cfg, entries, now, failing, i);
    }
  }

  lemma SameDeliveries(cfg: Config, entries: seq<Entry>, now: nat, failing: set<nat>, i: nat)
    requires i < |entries|
    ensures Reclaimed(cfg, entries, now, failing, NoClaim, i).deliveries == entries[i].deliveries
  {
  }
}
