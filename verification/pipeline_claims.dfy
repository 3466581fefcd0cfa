/** Safety across claims. A partition is consumed by one claim after another; each starts at the
    committed offset, runs under its own schedule and may be cut off at any step. */
module PipelineClaims {
  import opened PipelineModel
  import opened PipelineInvariants
  import opened PipelineTheorems

  /** What has happened to the messages of the partition, over all claims so far: offsets with a
      handler call that returned nil, with one that returned an error, and with a DLQ send that
      returned nil. */
  datatype Partition = Partition(committed: int, succeeded: set<int>, failed: set<int>, deadLettered: set<int>)

  /** One claim: its configuration, its interleaving, and the highest mark that took effect (none
      if there is no such mark; a broker may drop marks made during flush, or never get to commit
      the last ones). */
  datatype ClaimRun = ClaimRun(window: nat, hasDlq: bool, schedule: seq<Event>, kept: nat)

  /** The index of the first message at or above the committed offset. */
  ghost function FirstAt(topic: seq<Message>, committed: int, i: nat): (n: nat)
    requires i <= |topic|
    ensures i <= n <= |topic|
    ensures forall k :: i <= k < n ==> topic[k].offset < committed
    ensures n < |topic| ==> topic[n].offset >= committed
    decreases |topic| - i
  {
    if i < |topic| && topic[i].offset < committed then FirstAt(topic, committed, i + 1) else i
  }

  /** The messages the broker delivers from the committed offset on. */
  ghost function Suffix(topic: seq<Message>, committed: int): seq<Message> {
    topic[FirstAt(topic, committed, 0)..]
  }

  ghost function Final(topic: seq<Message>, p: Partition, run: ClaimRun): Claim {
    Exec(Init(run.window, run.hasDlq, Suffix(topic, p.committed)), run.schedule)
  }

  function Committed(before: int, marks: seq<int>, kept: nat): int {
    if kept < |marks| && before < marks[kept] + 1 then marks[kept] + 1 else before
  }

  ghost function AfterClaim(topic: seq<Message>, p: Partition, run: ClaimRun): Partition {
    Record(p, Final(topic, p, run), run.kept)
  }

  ghost function Record(p: Partition, c: Claim, kept: nat): Partition {
    Partition(Committed(p.committed, c.marks, kept),
              p.succeeded + (set o | o in c.done && c.done[o] == Succeeded),
              p.failed + (set o | o in c.done && c.done[o] == Failed),
              p.deadLettered + (set o | o in c.dlqDone && c.dlqDone[o]))
  }

  ghost function AfterClaims(topic: seq<Message>, p: Partition, runs: seq<ClaimRun>): Partition
    decreases |runs|
  {
    if runs == [] then p else AfterClaims(topic, AfterClaim(topic, p, runs[0]), runs[1..])
  }

  /** A message that needs no further delivery. */
  ghost predicate Accounted(m: Message, p: Partition) {
    || m.offset in p.succeeded
    || (!m.isEnvelope && m.offset in p.failed)
    || (m.isEnvelope && m.offset in p.deadLettered)
  }

  ghost predicate AllAccounted(topic: seq<Message>, first: int, p: Partition) {
    forall i :: 0 <= i < |topic| && first <= topic[i].offset < p.committed ==> Accounted(topic[i], p)
  }

  lemma {:induction false} SuffixIncreasing(topic: seq<Message>, committed: int)
    requires Increasing(topic)
    ensures Increasing(Suffix(topic, committed))
  {
  }

  /** Everything of the claim's log below a mark was justified. */
  lemma MarkedIsJustified(c: Claim, i: nat, k: nat)
    requires Inv(c) && i < |c.log| && k < |c.marks| && c.log[i].offset <= c.marks[k]
    ensures Justified(c.log[i], c.done, c.dlqDone)
  {
    var o := c.log[i].offset;
    var x := c.marks[k];
    assert c.read > 0;
    assert c.start <= o <= x < Frontier(c);
    assert x in c.ledger && o in c.ledger && c.ledger[o].Ready();
    assert i < c.read;
  }

  /** A DLQ send that has returned after flush began was started before. */
  lemma {:induction false} FlushStartsNoDlq(c: Claim, schedule: seq<Event>)
    requires Inv(c) && c.phase != Running
    ensures Exec(c, schedule).dlqDone.Keys <= c.dlqDone.Keys + c.dlqRunning
    decreases |schedule|
  {
    if schedule != [] {
      var c1 := Apply(c, schedule[0]);
      if Enabled(c, schedule[0]) {
        FireKeeps(c, schedule[0]);
        FlushStep(c, schedule[0]);
        FlushHistory(c, schedule[0]);
      }
      FlushStartsNoDlq(c1, schedule[1..]);
    }
  }

  lemma FlushHistory(c: Claim, e: Event)
    requires Enabled(c, e)
    ensures Fire(c, e).dlqDone.Keys <= c.dlqDone.Keys + c.dlqRunning
  {
    match e
    case TakeCompletion => CompletionConstants(c);
    case TakeDlqResult => DlqResultConstants(c);
    case _ =>
  }

  /** Whatever flush does, an envelope whose handler failed lies at or below a mark only if its DLQ
      send was started before flush began and has returned nil. */
  lemma {:induction false} FlushCommitsNoFailedEnvelope(c: Claim, schedule: seq<Event>, i: nat, k: nat)
    requires Inv(c) && c.phase != Running
    requires var c' := Exec(c, schedule);
             && i < |c'.log| && k < |c'.marks| && c'.log[i].offset <= c'.marks[k]
             && c'.log[i].isEnvelope && c'.log[i].offset in c'.done && c'.done[c'.log[i].offset] == Failed
    ensures var o := Exec(c, schedule).log[i].offset;
            && (o in c.dlqRunning || o in c.dlqDone)
            && o in Exec(c, schedule).dlqDone && Exec(c, schedule).dlqDone[o]
  {
    ExecKeeps(c, schedule);
    MarkedIsJustified(Exec(c, schedule), i, k);
    FlushStartsNoDlq(c, schedule);
  }

  /** The same in every run of a claim, from the moment flush begins. */
  lemma {:induction false} RunFlushCommitsNoFailedEnvelope(window: nat, hasDlq: bool, log: seq<Message>, before: seq<Event>,
                                                           later: seq<Event>, i: nat, k: nat)
    requires window > 0 && Increasing(log) && Reached(window, hasDlq, log, before).phase != Running
    requires var c' := Exec(Reached(window, hasDlq, log, before), later);
             && i < |log| && k < |c'.marks| && log[i].offset <= c'.marks[k]
             && log[i].isEnvelope && log[i].offset in c'.done && c'.done[log[i].offset] == Failed
    ensures var c := Reached(window, hasDlq, log, before); var c' := Exec(c, later); var o := log[i].offset;
            && (o in c.dlqRunning || o in c.dlqDone)
            && o in c'.dlqDone && c'.dlqDone[o]
  {
    var c := Reached(window, hasDlq, log, before);
    ReachedInv(window, hasDlq, log, before);
    ExecConstants(c, later);
    FlushCommitsNoFailedEnvelope(c, later, i, k);
  }

  lemma JustifiedIsAccounted(m: Message, p: Partition, c: Claim, kept: nat)
    requires Accounted(m, p) || Justified(m, c.done, c.dlqDone)
    ensures Accounted(m, Record(p, c, kept))
  {
  }

  /** Whatever a claim adds to the committed prefix is justified by what it saw. */
  lemma NewlyCommitted(topic: seq<Message>, committed: int, c: Claim, kept: nat, i: nat)
    requires Inv(c) && Increasing(topic) && c.log == Suffix(topic, committed)
    requires i < |topic| && committed <= topic[i].offset < Committed(committed, c.marks, kept)
    ensures Justified(topic[i], c.done, c.dlqDone)
  {
    var j := i - FirstAt(topic, committed, 0);
    assert c.log[j] == topic[i];
    MarkedIsJustified(c, j, kept);
  }

  lemma {:induction false} ClaimInv(topic: seq<Message>, p: Partition, run: ClaimRun)
    requires Increasing(topic) && run.window > 0
    ensures Inv(Final(topic, p, run)) && Final(topic, p, run).log == Suffix(topic, p.committed)
  {
    var log := Suffix(topic, p.committed);
    SuffixIncreasing(topic, p.committed);
    InitInv(run.window, run.hasDlq, log);
    ExecKeeps(Init(run.window, run.hasDlq, log), run.schedule);
    ExecConstants(Init(run.window, run.hasDlq, log), run.schedule);
  }

  lemma {:induction false} OneClaim(topic: seq<Message>, first: int, p: Partition, run: ClaimRun)
    requires Increasing(topic) && run.window > 0 && AllAccounted(topic, first, p)
    ensures AllAccounted(topic, first, AfterClaim(topic, p, run))
    ensures p.committed <= AfterClaim(topic, p, run).committed
  {
    ClaimInv(topic, p, run);
    var c := Final(topic, p, run);
    forall i | 0 <= i < |topic| && first <= topic[i].offset < Record(p, c, run.kept).committed
      ensures Accounted(topic[i], Record(p, c, run.kept))
    {
      if p.committed <= topic[i].offset {
        NewlyCommitted(topic, p.committed, c, run.kept, i);
      }
      JustifiedIsAccounted(topic[i], p, c, run.kept);
    }
  }

  /** Over any sequence of claims, each restarting at the committed offset and cut off at any step,
      every message between the first committed offset and the last one had a handler success, or
      is a regular message whose handler failed, or is an envelope that reached the DLQ. The
      committed offset never moves back. */
  lemma {:induction false} NothingIsLost(topic: seq<Message>, p: Partition, runs: seq<ClaimRun>)
    requires Increasing(topic) && (forall i :: 0 <= i < |runs| ==> runs[i].window > 0)
    ensures p.committed <= AfterClaims(topic, p, runs).committed
    ensures AllAccounted(topic, p.committed, AfterClaims(topic, p, runs))
  {
    ClaimsAccount(topic, p.committed, p, runs);
  }

  lemma {:induction false} ClaimsAccount(topic: seq<Message>, first: int, p: Partition, runs: seq<ClaimRun>)
    requires Increasing(topic) && (forall i :: 0 <= i < |runs| ==> runs[i].window > 0)
    requires AllAccounted(topic, first, p)
    ensures p.committed <= AfterClaims(topic, p, runs).committed
    ensures AllAccounted(topic, first, AfterClaims(topic, p, runs))
    decreases |runs|
  {
    if runs != [] {
      OneClaim(topic, first, p, runs[0]);
      ClaimsAccount(topic, first, AfterClaim(topic, p, runs[0]), runs[1..]);
    }
  }
}
