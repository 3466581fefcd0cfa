/** What every step of a claim keeps. Each part of the invariant names the fields it speaks of,
    so a step that leaves those fields alone keeps it by congruence. */
module PipelineInvariants {
  import opened PipelineModel

  type Ledger = map<int, Entry>

  // ---------------------------------------------------------------- the invariant

  ghost predicate Increasing(log: seq<Message>) {
    forall i, j :: 0 <= i < j < |log| ==> log[i].offset < log[j].offset
  }

  ghost function Offsets(cs: seq<Completion>): set<int> {
    set c | c in cs :: c.offset
  }

  ghost function ResultOffsets(rs: seq<DlqResult>): set<int> {
    set r | r in rs :: r.offset
  }

  /** Why a message may be committed: its handler succeeded, or it is a regular message whose
      handler failed (at most once), or it is an envelope that reached the dead-letter queue. */
  ghost predicate Justified(m: Message, done: map<int, Outcome>, dlqDone: map<int, bool>) {
    || (m.offset in done && done[m.offset] == Succeeded)
    || (m.offset in done && done[m.offset] == Failed && !m.isEnvelope)
    || (m.isEnvelope && m.offset in dlqDone && dlqDone[m.offset])
  }

  /** The ledger holds exactly the received messages, and the log is in offset order. */
  ghost predicate LedgerOk(log: seq<Message>, read: nat, start: int, ledger: Ledger) {
    && Increasing(log)
    && read <= |log|
    && start == (if read == 0 then -1 else log[0].offset)
    && (forall i :: 0 <= i < read ==> log[i].offset in ledger && ledger[log[i].offset].msg == log[i])
    && (forall o :: o in ledger ==> ledger[o].msg.offset == o)
    && (forall o :: o in ledger ==> read > 0 && log[0].offset <= o <= log[read - 1].offset)
    && |ledger| == read
  }

  /** What an entry's flags say about its handler and its DLQ send. */
  ghost predicate EntryOk(ledger: Ledger, done: map<int, Outcome>, dlqDone: map<int, bool>) {
    && (forall o :: o in done ==> o in ledger)
    && (forall o :: o in dlqDone ==> o in ledger && ledger[o].settled && ledger[o].msg.isEnvelope
                                     && o in done && done[o] == Failed)
    && (forall o :: o in ledger && !ledger[o].settled ==> !ledger[o].dlqPending && !ledger[o].commitable)
    && (forall o :: o in ledger && ledger[o].settled ==> o in done)
    && (forall o :: o in ledger && ledger[o].dlqPending ==>
          ledger[o].msg.isEnvelope && done[o] == Failed && !ledger[o].commitable)
    && (forall o :: o in ledger && ledger[o].commitable ==> Justified(ledger[o].msg, done, dlqDone))
  }

  ghost predicate Carries(ledger: Ledger, done: map<int, Outcome>, canceled: bool, x: Completion) {
    && x.offset in ledger && !ledger[x.offset].settled
    && x.offset in done && done[x.offset] == x.outcome
    && (x.canceled ==> canceled)
  }

  ghost predicate DistinctOffsets(cs: seq<Completion>) {
    forall i, j :: 0 <= i < j < |cs| ==> cs[i].offset != cs[j].offset
  }

  ghost predicate DistinctResults(rs: seq<DlqResult>) {
    forall i, j :: 0 <= i < j < |rs| ==> rs[i].offset != rs[j].offset
  }

  /** Every completion under way belongs to one unsettled entry, and no entry has two. */
  ghost predicate BridgeOk(ledger: Ledger, done: map<int, Outcome>, canceled: bool,
                           waiting: set<int>, holding: map<int, Completion>, compCh: seq<Completion>)
  {
    && (forall o :: o in waiting ==> o in ledger && !ledger[o].settled)
    && (forall o :: o in holding ==>
          holding[o].offset == o && o !in waiting && Carries(ledger, done, canceled, holding[o]))
    && (forall i :: 0 <= i < |compCh| ==>
          && Carries(ledger, done, canceled, compCh[i])
          && compCh[i].offset !in waiting && compCh[i].offset !in holding)
    && DistinctOffsets(compCh)
  }

  /** While the session lives no completion is lost: every unsettled entry has its bridge. */
  ghost predicate CarriedOk(ledger: Ledger, waiting: set<int>, holding: map<int, Completion>, compCh: seq<Completion>) {
    forall o :: o in ledger && !ledger[o].settled ==> o in waiting || o in holding || o in Offsets(compCh)
  }

  /** Every DLQ send or result under way belongs to one DLQ-pending entry, and vice versa. */
  ghost predicate DlqOk(ledger: Ledger, hasDlq: bool, running: set<int>, dlqCh: seq<DlqResult>, dlqDone: map<int, bool>) {
    && (forall o :: o in running ==> o in ledger && ledger[o].dlqPending && o !in dlqDone)
    && (forall i :: 0 <= i < |dlqCh| ==>
          && dlqCh[i].offset in ledger && ledger[dlqCh[i].offset].dlqPending
          && dlqCh[i].offset !in running
          && dlqCh[i].offset in dlqDone && dlqDone[dlqCh[i].offset] == dlqCh[i].ok)
    && DistinctResults(dlqCh)
    && (forall o :: o in ledger && ledger[o].dlqPending ==> o in running || o in ResultOffsets(dlqCh))
    && (forall o :: o in dlqDone && dlqDone[o] ==> hasDlq)
  }

  /** Marks climb strictly, and the last one is just below the frontier. */
  ghost predicate MarkOk(frontier: int, start: int, marks: seq<int>) {
    && (forall i, j :: 0 <= i < j < |marks| ==> marks[i] < marks[j])
    && (forall i :: 0 <= i < |marks| ==> start <= marks[i] < frontier)
    && (if frontier == start then marks == [] else marks != [] && marks[|marks| - 1] == frontier - 1)
  }

  ghost predicate PhaseOk(phase: Phase, closed: bool, canceled: bool, tracked: set<int>, unresolved: set<int>) {
    && (phase == Flushing ==> canceled && unresolved != {})
    && (phase == Returned && !canceled ==> closed && tracked == {})
    && (phase == Running && closed ==> tracked != {})
  }

  ghost function Expected(m: Message, outcome: Outcome, pending: bool, dlqDone: map<int, bool>): Entry {
    if outcome == Succeeded || !m.isEnvelope then Entry(m, true, false, true)
    else if !pending && m.offset in dlqDone then Entry(m, true, false, dlqDone[m.offset])
    else Entry(m, true, true, false)
  }

  /** While the session lives, the flags of a settled entry are a function of what its handler
      and its DLQ send returned. */
  ghost predicate DeterminedOk(ledger: Ledger, done: map<int, Outcome>, dlqDone: map<int, bool>) {
    forall o :: o in ledger && ledger[o].settled ==>
      o in done && ledger[o] == Expected(ledger[o].msg, done[o], ledger[o].dlqPending, dlqDone)
  }

  /** Exactly the failed DLQ sends whose result was taken have been alerted, once each. */
  ghost predicate AlertOk(ledger: Ledger, dlqDone: map<int, bool>, alerts: seq<int>) {
    && (forall o :: o in alerts ==> o in ledger && o in dlqDone && !dlqDone[o] && !ledger[o].dlqPending)
    && (forall o :: o in ledger && o in dlqDone && !dlqDone[o] && !ledger[o].dlqPending ==> o in alerts)
    && (forall i, j :: 0 <= i < j < |alerts| ==> alerts[i] != alerts[j])
  }

  /** The invariant without the tests at the loop heads. */
  ghost predicate Core(c: Claim) {
    && c.window > 0
    && LedgerOk(c.log, c.read, c.start, c.ledger)
    && EntryOk(c.ledger, c.done, c.dlqDone)
    && BridgeOk(c.ledger, c.done, c.canceled, c.waiting, c.holding, c.compCh)
    && (!c.canceled ==> CarriedOk(c.ledger, c.waiting, c.holding, c.compCh))
    && DlqOk(c.ledger, c.hasDlq, c.dlqRunning, c.dlqCh, c.dlqDone)
    && MarkOk(Frontier(c), c.start, c.marks)
    && |Tracked(c)| <= c.window
    && (!c.canceled ==> DeterminedOk(c.ledger, c.done, c.dlqDone))
    && AlertOk(c.ledger, c.dlqDone, c.alerts)
  }

  ghost predicate Inv(c: Claim) {
    Core(c) && PhaseOk(c.phase, c.closed, c.canceled, Tracked(c), UnresolvedOffsets(c))
  }

  // ---------------------------------------------------------------- the frontier

  /** Reach is determined by its own description. */
  lemma ReachIs(ledger: Ledger, o: int, f: int)
    requires o <= f && forall k :: o <= k < f ==> k in ledger && ledger[k].Ready()
    requires !(f in ledger && ledger[f].Ready())
    ensures Reach(ledger, o) == f
  {
    var r := Reach(ledger, o);
    assert !(r in ledger && ledger[r].Ready());
  }

  /** Readiness gained elsewhere never moves the frontier back. */
  lemma ReachGrows(ledger: Ledger, ledger': Ledger, o: int)
    requires forall k :: k in ledger && ledger[k].Ready() ==> k in ledger' && ledger'[k].Ready()
    ensures Reach(ledger, o) <= Reach(ledger', o)
  {
    var r := Reach(ledger', o);
    assert !(r in ledger' && ledger'[r].Ready());
    assert !(r in ledger && ledger[r].Ready());
  }

  /** The frontier never passes an offset above the whole ledger. */
  lemma FrontierBelow(ledger: Ledger, start: int, o: int)
    requires -1 <= start <= o && forall k :: k in ledger ==> k < o
    ensures start <= FrontierOf(ledger, start) <= o
  {
    assert o !in ledger;
  }

  /** An entry that is not ready is still tracked. */
  lemma NotReadyIsTracked(ledger: Ledger, start: int, o: int)
    requires o in ledger && -1 <= start <= o && !ledger[o].Ready()
    ensures o in TrackedOf(ledger, start)
  {
  }

  lemma UntrackedIsReady(ledger: Ledger, start: int, o: int)
    requires o in ledger && -1 <= start <= o
    ensures o in TrackedOf(ledger, start) || (ledger[o].Ready() && o < FrontierOf(ledger, start))
  {
  }

  lemma SubsetSize(a: set<int>, b: set<int>)
    requires a <= b
    ensures |a| <= |b|
  {
    assert b == a + (b - a);
  }

  // ---------------------------------------------------------------- receiving

  /** A message read next is new, and lies above everything in the ledger. */
  lemma NextIsNew(log: seq<Message>, read: nat, start: int, ledger: Ledger)
    requires LedgerOk(log, read, start, ledger) && read < |log|
    ensures forall o :: o in ledger ==> o < log[read].offset
  {
  }

  lemma ReceiveLedger(c: Claim)
    requires LedgerOk(c.log, c.read, c.start, c.ledger) && c.read < |c.log|
    ensures var c' := OnReceive(c); LedgerOk(c'.log, c'.read, c'.start, c'.ledger)
  {
    NextIsNew(c.log, c.read, c.start, c.ledger);
  }

  lemma ReceiveFrontier(c: Claim)
    requires LedgerOk(c.log, c.read, c.start, c.ledger) && c.read < |c.log|
    ensures Frontier(OnReceive(c)) == if c.read == 0 then c.log[0].offset else Frontier(c)
    ensures Tracked(OnReceive(c)) == Tracked(c) + {c.log[c.read].offset}
  {
    NextIsNew(c.log, c.read, c.start, c.ledger);
    var c' := OnReceive(c);
    var o := c.log[c.read].offset;
    if c.read == 0 {
      ReachIs(c'.ledger, o, o);
    } else {
      FrontierBelow(c.ledger, c.start, o);
      forall k | c.start <= k < Frontier(c) ensures k in c'.ledger && c'.ledger[k].Ready() {
        assert k in c.ledger;
      }
      ReachIs(c'.ledger, c.start, Frontier(c));
    }
  }

  ghost function Fresh(ledger: Ledger, m: Message): Ledger {
    ledger[m.offset := Entry(m, false, false, false)]
  }

  lemma FreshEntry(ledger: Ledger, done: map<int, Outcome>, dlqDone: map<int, bool>, m: Message)
    requires EntryOk(ledger, done, dlqDone) && m.offset !in ledger
    ensures EntryOk(Fresh(ledger, m), done, dlqDone)
  {
  }

  lemma FreshBridge(c: Claim, m: Message)
    requires BridgeOk(c.ledger, c.done, c.canceled, c.waiting, c.holding, c.compCh) && m.offset !in c.ledger
    ensures BridgeOk(Fresh(c.ledger, m), c.done, c.canceled, c.waiting + {m.offset}, c.holding, c.compCh)
  {
  }

  lemma FreshDlq(c: Claim, m: Message)
    requires EntryOk(c.ledger, c.done, c.dlqDone) && m.offset !in c.ledger
    requires DlqOk(c.ledger, c.hasDlq, c.dlqRunning, c.dlqCh, c.dlqDone)
    ensures DlqOk(Fresh(c.ledger, m), c.hasDlq, c.dlqRunning, c.dlqCh, c.dlqDone)
  {
  }

  lemma FreshAlert(c: Claim, m: Message)
    requires EntryOk(c.ledger, c.done, c.dlqDone) && m.offset !in c.ledger
    requires AlertOk(c.ledger, c.dlqDone, c.alerts)
    ensures AlertOk(Fresh(c.ledger, m), c.dlqDone, c.alerts)
  {
  }

  lemma ReceiveCore(c: Claim)
    requires Core(c) && c.read < |c.log| && |Tracked(c)| < c.window
    ensures Core(OnReceive(c))
  {
    var m := c.log[c.read];
    NextIsNew(c.log, c.read, c.start, c.ledger);
    ReceiveLedger(c);
    FreshEntry(c.ledger, c.done, c.dlqDone, m);
    FreshBridge(c, m);
    FreshDlq(c, m);
    FreshAlert(c, m);
    ReceiveFrontier(c);
  }

  lemma ReceiveKeeps(c: Claim)
    requires Inv(c) && Enabled(c, Receive)
    ensures Inv(OnReceive(c))
  {
    ReceiveCore(c);
  }

  // ---------------------------------------------------------------- bridges and DLQ senders

  lemma HandlerDoneKeeps(c: Claim, o: nat, outcome: Outcome)
    requires Inv(c) && Enabled(c, HandlerDone(o, outcome))
    ensures Inv(Fire(c, HandlerDone(o, outcome)))
  {
    MoreDone(c, o, outcome);
  }

  lemma MoreDone(c: Claim, o: nat, outcome: Outcome)
    requires o in c.ledger && o !in c.done
    requires EntryOk(c.ledger, c.done, c.dlqDone)
    requires BridgeOk(c.ledger, c.done, c.canceled, c.waiting, c.holding, c.compCh)
    requires !c.canceled ==> DeterminedOk(c.ledger, c.done, c.dlqDone)
    ensures var done := c.done[o := outcome];
            && EntryOk(c.ledger, done, c.dlqDone)
            && BridgeOk(c.ledger, done, c.canceled, c.waiting, c.holding, c.compCh)
            && (!c.canceled ==> DeterminedOk(c.ledger, done, c.dlqDone))
  {
  }

  lemma BridgeTakeParts(c: Claim, o: nat)
    requires o in c.waiting && o in c.done
    requires BridgeOk(c.ledger, c.done, c.canceled, c.waiting, c.holding, c.compCh)
    requires !c.canceled ==> CarriedOk(c.ledger, c.waiting, c.holding, c.compCh)
    ensures var c' := Fire(c, BridgeTake(o));
            && BridgeOk(c.ledger, c.done, c.canceled, c'.waiting, c'.holding, c.compCh)
            && (!c.canceled ==> CarriedOk(c.ledger, c'.waiting, c'.holding, c.compCh))
  {
  }

  lemma BridgeSendParts(c: Claim, o: nat)
    requires o in c.holding && |c.compCh| < c.window
    requires BridgeOk(c.ledger, c.done, c.canceled, c.waiting, c.holding, c.compCh)
    requires !c.canceled ==> CarriedOk(c.ledger, c.waiting, c.holding, c.compCh)
    ensures var c' := Fire(c, BridgeSend(o));
            && BridgeOk(c.ledger, c.done, c.canceled, c.waiting, c'.holding, c'.compCh)
            && (!c.canceled ==> CarriedOk(c.ledger, c.waiting, c'.holding, c'.compCh))
  {
    var c' := Fire(c, BridgeSend(o));
    assert c'.compCh[|c.compCh|] == c.holding[o];
    assert forall i :: 0 <= i < |c.compCh| ==> c'.compCh[i] == c.compCh[i];
    assert Offsets(c.compCh) + {o} == Offsets(c'.compCh);
  }

  lemma DlqFinishParts(c: Claim, o: nat, ok: bool)
    requires o in c.dlqRunning && |c.dlqCh| < c.window && (ok ==> c.hasDlq)
    requires EntryOk(c.ledger, c.done, c.dlqDone)
    requires DlqOk(c.ledger, c.hasDlq, c.dlqRunning, c.dlqCh, c.dlqDone)
    ensures var c' := Fire(c, DlqFinish(o, ok));
            DlqOk(c.ledger, c.hasDlq, c'.dlqRunning, c'.dlqCh, c'.dlqDone)
  {
    var c' := Fire(c, DlqFinish(o, ok));
    assert c'.dlqCh[|c.dlqCh|] == DlqResult(o, ok);
    assert forall i :: 0 <= i < |c.dlqCh| ==> c'.dlqCh[i] == c.dlqCh[i];
    assert ResultOffsets(c.dlqCh) + {o} == ResultOffsets(c'.dlqCh);
  }

  lemma MoreDlqDone(c: Claim, o: nat, ok: bool)
    requires o in c.dlqRunning
    requires EntryOk(c.ledger, c.done, c.dlqDone) && AlertOk(c.ledger, c.dlqDone, c.alerts)
    requires DlqOk(c.ledger, c.hasDlq, c.dlqRunning, c.dlqCh, c.dlqDone)
    requires !c.canceled ==> DeterminedOk(c.ledger, c.done, c.dlqDone)
    ensures var dlqDone := c.dlqDone[o := ok];
            && EntryOk(c.ledger, c.done, dlqDone)
            && AlertOk(c.ledger, dlqDone, c.alerts)
            && (!c.canceled ==> DeterminedOk(c.ledger, c.done, dlqDone))
  {
    assert c.ledger[o].dlqPending;
  }

  lemma BridgeGiveUpParts(c: Claim, o: nat)
    requires BridgeOk(c.ledger, c.done, c.canceled, c.waiting, c.holding, c.compCh)
    ensures BridgeOk(c.ledger, c.done, c.canceled, c.waiting - {o}, c.holding, c.compCh)
  {
  }

  // ---------------------------------------------------------------- completions and DLQ results

  /** The completion at the head of compCh always finds its entry, tracked and unsettled: neither
      the nil guard of the event loop nor the two guards of flush ever fires. */
  lemma HeadCompletion(c: Claim)
    requires Core(c) && c.compCh != []
    ensures c.compCh[0].offset in Tracked(c) && !c.ledger[c.compCh[0].offset].settled
  {
    var x := c.compCh[0];
    assert Carries(c.ledger, c.done, c.canceled, x);
    NotReadyIsTracked(c.ledger, c.start, x.offset);
  }

  lemma HeadDlqResult(c: Claim)
    requires Core(c) && c.dlqCh != []
    ensures c.dlqCh[0].offset in Tracked(c) && c.ledger[c.dlqCh[0].offset].dlqPending
    ensures c.dlqCh[0].offset in c.dlqDone && c.dlqDone[c.dlqCh[0].offset] == c.dlqCh[0].ok
  {
    NotReadyIsTracked(c.ledger, c.start, c.dlqCh[0].offset);
  }

  /** Changing one entry that is not ready yet moves the frontier forward only. */
  lemma CommitFrontier(c: Claim, o: int, e: Entry)
    requires o in c.ledger && !c.ledger[o].Ready()
    ensures Frontier(c) <= FrontierOf(c.ledger[o := e], c.start)
    ensures TrackedOf(c.ledger[o := e], c.start) <= Tracked(c)
  {
    ReachGrows(c.ledger, c.ledger[o := e], c.start);
  }

  lemma CommitMarks(before: int, after: int, start: int, marks: seq<int>)
    requires MarkOk(before, start, marks) && start <= before <= after
    ensures MarkOk(after, start, MarkOnce(marks, before, after))
  {
  }

  lemma CommitLedger(c: Claim, o: int, e: Entry)
    requires LedgerOk(c.log, c.read, c.start, c.ledger)
    requires o in c.ledger && e.msg == c.ledger[o].msg
    ensures LedgerOk(c.log, c.read, c.start, c.ledger[o := e])
  {
  }

  /** Changing one entry that is not ready yet, then marking once. */
  lemma CommitKeeps(c: Claim, o: int, e: Entry)
    requires LedgerOk(c.log, c.read, c.start, c.ledger) && MarkOk(Frontier(c), c.start, c.marks)
    requires o in c.ledger && !c.ledger[o].Ready() && e.msg == c.ledger[o].msg
    requires |Tracked(c)| <= c.window
    ensures var ledger := c.ledger[o := e];
            && LedgerOk(c.log, c.read, c.start, ledger)
            && MarkOk(FrontierOf(ledger, c.start), c.start, Commit(c, ledger).marks)
            && |TrackedOf(ledger, c.start)| <= c.window
  {
    CommitLedger(c, o, e);
    CommitFrontier(c, o, e);
    CommitMarks(Frontier(c), FrontierOf(c.ledger[o := e], c.start), c.start, c.marks);
    SubsetSize(TrackedOf(c.ledger[o := e], c.start), Tracked(c));
  }

  lemma SettleBridges(c: Claim, e: Entry)
    requires BridgeOk(c.ledger, c.done, c.canceled, c.waiting, c.holding, c.compCh) && c.compCh != []
    ensures BridgeOk(c.ledger[c.compCh[0].offset := e], c.done, c.canceled, c.waiting, c.holding, c.compCh[1..])
  {
    assert forall i :: 0 <= i < |c.compCh| - 1 ==> c.compCh[1..][i] == c.compCh[i + 1];
    assert Carries(c.ledger, c.done, c.canceled, c.compCh[0]);
    forall i | 0 <= i < |c.compCh| - 1
      ensures Carries(c.ledger[c.compCh[0].offset := e], c.done, c.canceled, c.compCh[1..][i])
    {
      assert Carries(c.ledger, c.done, c.canceled, c.compCh[i + 1]);
    }
  }

  lemma SettleCarried(ledger: Ledger, waiting: set<int>, holding: map<int, Completion>, compCh: seq<Completion>, e: Entry)
    requires CarriedOk(ledger, waiting, holding, compCh) && compCh != [] && e.settled
    ensures CarriedOk(ledger[compCh[0].offset := e], waiting, holding, compCh[1..])
  {
    assert compCh == [compCh[0]] + compCh[1..];
    assert Offsets(compCh) == Offsets(compCh[1..]) + {compCh[0].offset};
  }

  /** What a step does to the entry it settles. */
  ghost predicate Settles(e: Entry, e': Entry, outcome: Outcome) {
    && !e.settled && e'.settled && e'.msg == e.msg
    && (e'.dlqPending ==> e.msg.isEnvelope && outcome == Failed && !e'.commitable)
    && (e'.commitable ==> outcome == Succeeded || !e.msg.isEnvelope)
  }

  lemma SettleEntry(ledger: Ledger, done: map<int, Outcome>, dlqDone: map<int, bool>, o: int, e: Entry)
    requires EntryOk(ledger, done, dlqDone)
    requires o in ledger && o in done && ledger[o].msg.offset == o && Settles(ledger[o], e, done[o])
    ensures EntryOk(ledger[o := e], done, dlqDone)
  {
  }

  lemma SettleDlq(c: Claim, o: int, e: Entry)
    requires EntryOk(c.ledger, c.done, c.dlqDone)
    requires DlqOk(c.ledger, c.hasDlq, c.dlqRunning, c.dlqCh, c.dlqDone)
    requires o in c.ledger && !c.ledger[o].settled
    ensures DlqOk(c.ledger[o := e], c.hasDlq, if e.dlqPending then c.dlqRunning + {o} else c.dlqRunning, c.dlqCh, c.dlqDone)
  {
  }

  lemma SettleAlert(c: Claim, o: int, e: Entry)
    requires EntryOk(c.ledger, c.done, c.dlqDone) && AlertOk(c.ledger, c.dlqDone, c.alerts)
    requires o in c.ledger && !c.ledger[o].settled
    ensures AlertOk(c.ledger[o := e], c.dlqDone, c.alerts)
  {
  }

  lemma SettleDetermined(ledger: Ledger, done: map<int, Outcome>, dlqDone: map<int, bool>, o: int, e: Entry)
    requires DeterminedOk(ledger, done, dlqDone)
    requires o in done && e == Expected(e.msg, done[o], e.dlqPending, dlqDone)
    ensures DeterminedOk(ledger[o := e], done, dlqDone)
  {
  }

  lemma LoopHeadInv(c: Claim)
    requires Core(c)
    requires c.phase != Returned
    requires c.phase == Flushing ==> c.canceled
    ensures Inv(LoopHead(c))
  {
    var c' := LoopHead(c);
    assert c'.(phase := c.phase) == c;
    assert Core(c');
  }

  /** The entry a completion turns into. */
  ghost function Settled(phase: Phase, e: Entry, x: Completion): Entry {
    if phase == Running then SettleRunning(e, x) else SettleFlushing(e, x)
  }

  lemma CompletionShape(c: Claim)
    requires c.phase != Returned && c.compCh != []
    requires c.compCh[0].offset in Tracked(c) && !c.ledger[c.compCh[0].offset].settled
    requires !c.ledger[c.compCh[0].offset].dlqPending
    ensures var x := c.compCh[0]; var e := Settled(c.phase, c.ledger[x.offset], x);
            OnCompletion(c) == Commit(c.(compCh := c.compCh[1..],
                                         dlqRunning := if e.dlqPending then c.dlqRunning + {x.offset} else c.dlqRunning),
                                      c.ledger[x.offset := e])
  {
  }

  /** Settling one unsettled entry with the completion at the head of compCh. */
  lemma CommitSettled(c: Claim, e: Entry)
    requires Core(c) && c.compCh != []
    requires var o := c.compCh[0].offset;
             && o in c.ledger && o in c.done && Settles(c.ledger[o], e, c.done[o])
             && (!c.canceled ==> e == Expected(e.msg, c.done[o], e.dlqPending, c.dlqDone))
    ensures var o := c.compCh[0].offset;
            var running := if e.dlqPending then c.dlqRunning + {o} else c.dlqRunning;
            Core(Commit(c.(compCh := c.compCh[1..], dlqRunning := running), c.ledger[o := e]))
  {
    var o := c.compCh[0].offset;
    CommitKeeps(c, o, e);
    SettleBridges(c, e);
    SettleEntry(c.ledger, c.done, c.dlqDone, o, e);
    SettleDlq(c, o, e);
    SettleAlert(c, o, e);
    if !c.canceled {
      SettleCarried(c.ledger, c.waiting, c.holding, c.compCh, e);
      SettleDetermined(c.ledger, c.done, c.dlqDone, o, e);
    }
  }

  lemma CompletionCore(c: Claim)
    requires Core(c) && c.phase != Returned && c.compCh != []
    requires c.phase == Flushing ==> c.canceled
    ensures Core(OnCompletion(c))
  {
    HeadCompletion(c);
    CompletionShape(c);
    var x := c.compCh[0];
    CommitSettled(c, Settled(c.phase, c.ledger[x.offset], x));
  }

  lemma CompletionKeeps(c: Claim)
    requires Inv(c) && Enabled(c, TakeCompletion)
    ensures Inv(Fire(c, TakeCompletion))
  {
    CompletionCore(c);
    LoopHeadInv(OnCompletion(c));
  }

  lemma ResolveEntry(ledger: Ledger, done: map<int, Outcome>, dlqDone: map<int, bool>, o: int, e: Entry)
    requires EntryOk(ledger, done, dlqDone)
    requires o in ledger && ledger[o].dlqPending && ledger[o].msg.offset == o && o in dlqDone
    requires e == Entry(ledger[o].msg, true, false, dlqDone[o])
    ensures EntryOk(ledger[o := e], done, dlqDone)
  {
  }

  lemma ResolveBridges(c: Claim, o: int, e: Entry)
    requires BridgeOk(c.ledger, c.done, c.canceled, c.waiting, c.holding, c.compCh)
    requires o in c.ledger && c.ledger[o].settled
    ensures BridgeOk(c.ledger[o := e], c.done, c.canceled, c.waiting, c.holding, c.compCh)
  {
    forall i | 0 <= i < |c.compCh| ensures Carries(c.ledger[o := e], c.done, c.canceled, c.compCh[i]) {
      assert Carries(c.ledger, c.done, c.canceled, c.compCh[i]);
    }
    forall k | k in c.holding ensures Carries(c.ledger[o := e], c.done, c.canceled, c.holding[k]) {
      assert Carries(c.ledger, c.done, c.canceled, c.holding[k]);
    }
  }

  lemma ResolveDlq(c: Claim, e: Entry)
    requires DlqOk(c.ledger, c.hasDlq, c.dlqRunning, c.dlqCh, c.dlqDone)
    requires c.dlqCh != [] && !e.dlqPending
    ensures DlqOk(c.ledger[c.dlqCh[0].offset := e], c.hasDlq, c.dlqRunning, c.dlqCh[1..], c.dlqDone)
  {
    assert c.dlqCh == [c.dlqCh[0]] + c.dlqCh[1..];
    assert ResultOffsets(c.dlqCh) == ResultOffsets(c.dlqCh[1..]) + {c.dlqCh[0].offset};
    assert forall i :: 0 <= i < |c.dlqCh| - 1 ==> c.dlqCh[1..][i] == c.dlqCh[i + 1];
  }

  lemma ResolveAlert(ledger: Ledger, dlqDone: map<int, bool>, alerts: seq<int>, o: int, e: Entry)
    requires AlertOk(ledger, dlqDone, alerts)
    requires o in ledger && ledger[o].dlqPending && o in dlqDone && !e.dlqPending
    ensures AlertOk(ledger[o := e], dlqDone, if dlqDone[o] then alerts else alerts + [o])
  {
    assert o !in alerts;
  }

  /** The parts of the invariant about entries, bridges and DLQ sends, for a resolved entry. */
  lemma ResolveParts(c: Claim, e: Entry)
    requires EntryOk(c.ledger, c.done, c.dlqDone)
    requires BridgeOk(c.ledger, c.done, c.canceled, c.waiting, c.holding, c.compCh)
    requires DlqOk(c.ledger, c.hasDlq, c.dlqRunning, c.dlqCh, c.dlqDone)
    requires AlertOk(c.ledger, c.dlqDone, c.alerts)
    requires c.dlqCh != []
    requires var o := c.dlqCh[0].offset;
             && o in c.ledger && c.ledger[o].dlqPending && o in c.dlqDone && c.ledger[o].msg.offset == o
             && e == Entry(c.ledger[o].msg, true, false, c.dlqDone[o])
    ensures var o := c.dlqCh[0].offset; var ledger := c.ledger[o := e];
            && EntryOk(ledger, c.done, c.dlqDone)
            && BridgeOk(ledger, c.done, c.canceled, c.waiting, c.holding, c.compCh)
            && DlqOk(ledger, c.hasDlq, c.dlqRunning, c.dlqCh[1..], c.dlqDone)
            && AlertOk(ledger, c.dlqDone, if c.dlqDone[o] then c.alerts else c.alerts + [o])
  {
    var o := c.dlqCh[0].offset;
    ResolveBridges(c, o, e);
    ResolveEntry(c.ledger, c.done, c.dlqDone, o, e);
    ResolveDlq(c, e);
    ResolveAlert(c.ledger, c.dlqDone, c.alerts, o, e);
  }

  /** Storing the DLQ result at the head of dlqDoneCh. */
  lemma CommitResolved(c: Claim, e: Entry)
    requires Core(c) && c.dlqCh != []
    requires var o := c.dlqCh[0].offset;
             && o in c.ledger && c.ledger[o].dlqPending && o in c.dlqDone
             && e == Entry(c.ledger[o].msg, true, false, c.dlqDone[o])
    ensures var o := c.dlqCh[0].offset;
            var alerts := if c.dlqDone[o] then c.alerts else c.alerts + [o];
            Core(Commit(c.(dlqCh := c.dlqCh[1..], alerts := alerts), c.ledger[o := e]))
  {
    hide EntryOk, BridgeOk, DlqOk, MarkOk, DeterminedOk, AlertOk, TrackedOf, FrontierOf;
    var o := c.dlqCh[0].offset;
    CommitKeeps(c, o, e);
    ResolveParts(c, e);
    if !c.canceled {
      SettleDetermined(c.ledger, c.done, c.dlqDone, o, e);
    }
  }

  lemma DlqResultShape(c: Claim)
    requires c.dlqCh != [] && c.dlqCh[0].offset in Tracked(c)
    ensures var r := c.dlqCh[0];
            OnDlqResult(c) == Commit(c.(dlqCh := c.dlqCh[1..], alerts := if r.ok then c.alerts else c.alerts + [r.offset]),
                                     c.ledger[r.offset := Resolve(c.ledger[r.offset], r)])
  {
  }

  lemma DlqResultKeeps(c: Claim)
    requires Inv(c) && Enabled(c, TakeDlqResult)
    ensures Inv(Fire(c, TakeDlqResult))
  {
    HeadDlqResult(c);
    var r := c.dlqCh[0];
    CommitResolved(c, Resolve(c.ledger[r.offset], r));
    LoopHeadInv(OnDlqResult(c));
  }

  // ---------------------------------------------------------------- every step, every run

  lemma BridgeTakeKeeps(c: Claim, o: nat)
    requires Inv(c) && Enabled(c, BridgeTake(o))
    ensures Inv(Fire(c, BridgeTake(o)))
  {
    BridgeTakeParts(c, o);
  }

  lemma BridgeSendKeeps(c: Claim, o: nat)
    requires Inv(c) && Enabled(c, BridgeSend(o))
    ensures Inv(Fire(c, BridgeSend(o)))
  {
    BridgeSendParts(c, o);
  }

  lemma BridgeGiveUpKeeps(c: Claim, o: nat)
    requires Inv(c) && Enabled(c, BridgeGiveUp(o))
    ensures Inv(Fire(c, BridgeGiveUp(o)))
  {
    BridgeGiveUpParts(c, o);
  }

  lemma DlqFinishKeeps(c: Claim, o: nat, ok: bool)
    requires Inv(c) && Enabled(c, DlqFinish(o, ok))
    ensures Inv(Fire(c, DlqFinish(o, ok)))
  {
    DlqFinishParts(c, o, ok);
    MoreDlqDone(c, o, ok);
  }

  lemma CancelParts(c: Claim)
    requires BridgeOk(c.ledger, c.done, c.canceled, c.waiting, c.holding, c.compCh)
    ensures BridgeOk(c.ledger, c.done, true, c.waiting, c.holding, c.compCh)
  {
    forall i | 0 <= i < |c.compCh| ensures Carries(c.ledger, c.done, true, c.compCh[i]) {
      assert Carries(c.ledger, c.done, c.canceled, c.compCh[i]);
    }
    forall k | k in c.holding ensures Carries(c.ledger, c.done, true, c.holding[k]) {
      assert Carries(c.ledger, c.done, c.canceled, c.holding[k]);
    }
  }

  lemma PhaseStepKeeps(c: Claim, e: Event)
    requires Inv(c) && Enabled(c, e)
    requires e in {ReceiveNil, Cancel, EnterFlush, FlushTimeout}
    ensures Inv(Fire(c, e))
  {
    match e
    case ReceiveNil => LoopHeadInv(c.(closed := true));
    case Cancel => CancelParts(c);
    case EnterFlush => LoopHeadInv(c.(phase := Flushing));
    case FlushTimeout =>
  }

  lemma FireKeeps(c: Claim, e: Event)
    requires Inv(c) && Enabled(c, e)
    ensures Inv(Fire(c, e))
  {
    match e
    case Receive => ReceiveKeeps(c);
    case HandlerDone(o, outcome) => HandlerDoneKeeps(c, o, outcome);
    case BridgeTake(o) => BridgeTakeKeeps(c, o);
    case BridgeSend(o) => BridgeSendKeeps(c, o);
    case BridgeGiveUp(o) => BridgeGiveUpKeeps(c, o);
    case TakeCompletion => CompletionKeeps(c);
    case DlqFinish(o, ok) => DlqFinishKeeps(c, o, ok);
    case TakeDlqResult => DlqResultKeeps(c);
    case _ => PhaseStepKeeps(c, e);
  }

  /** The only steps that write the ledger. */
  ghost function LedgerAfter(c: Claim, e: Event): Ledger
    requires Inv(c) && Enabled(c, e)
  {
    match e
    case Receive => Fresh(c.ledger, c.log[c.read])
    case TakeCompletion =>
      HeadCompletion(c);
      c.ledger[c.compCh[0].offset := Settled(c.phase, c.ledger[c.compCh[0].offset], c.compCh[0])]
    case TakeDlqResult =>
      HeadDlqResult(c);
      c.ledger[c.dlqCh[0].offset := Resolve(c.ledger[c.dlqCh[0].offset], c.dlqCh[0])]
    case _ => c.ledger
  }

  lemma CompletionLedger(c: Claim)
    requires Inv(c) && Enabled(c, TakeCompletion)
    ensures Fire(c, TakeCompletion).ledger == LedgerAfter(c, TakeCompletion)
  {
    HeadCompletion(c);
    CompletionShape(c);
  }

  lemma DlqResultLedger(c: Claim)
    requires Inv(c) && Enabled(c, TakeDlqResult)
    ensures Fire(c, TakeDlqResult).ledger == LedgerAfter(c, TakeDlqResult)
  {
    HeadDlqResult(c);
    DlqResultShape(c);
  }

  lemma OtherLedger(c: Claim, e: Event)
    requires Enabled(c, e) && e !in {TakeCompletion, TakeDlqResult}
    ensures Fire(c, e).ledger == if e == Receive then Fresh(c.ledger, c.log[c.read]) else c.ledger
  {
  }

  lemma FireLedger(c: Claim, e: Event)
    requires Inv(c) && Enabled(c, e)
    ensures Fire(c, e).ledger == LedgerAfter(c, e)
  {
    if e == TakeCompletion {
      CompletionLedger(c);
    } else if e == TakeDlqResult {
      DlqResultLedger(c);
    } else {
      OtherLedger(c, e);
    }
  }

  ghost predicate SameClaim(c: Claim, c': Claim) {
    c'.window == c.window && c'.hasDlq == c.hasDlq && c'.log == c.log
  }

  lemma CompletionConstants(c: Claim)
    requires c.compCh != []
    ensures SameClaim(c, OnCompletion(c)) && OnCompletion(c).canceled == c.canceled && OnCompletion(c).start == c.start
  {
  }

  lemma DlqResultConstants(c: Claim)
    requires c.dlqCh != []
    ensures SameClaim(c, OnDlqResult(c)) && OnDlqResult(c).canceled == c.canceled && OnDlqResult(c).start == c.start
  {
  }

  lemma FireConstants(c: Claim, e: Event)
    requires Enabled(c, e)
    ensures SameClaim(c, Fire(c, e))
    ensures Fire(c, e).canceled == (c.canceled || e == Cancel)
  {
    match e
    case TakeCompletion => CompletionConstants(c);
    case TakeDlqResult => DlqResultConstants(c);
    case _ =>
  }

  /** Every reachable state of a claim satisfies the invariant, whatever the interleaving. */
  lemma {:induction false} ExecKeeps(c: Claim, schedule: seq<Event>)
    requires Inv(c)
    ensures Inv(Exec(c, schedule))
    decreases |schedule|
  {
    if schedule != [] {
      if Enabled(c, schedule[0]) {
        FireKeeps(c, schedule[0]);
      }
      ExecKeeps(Apply(c, schedule[0]), schedule[1..]);
    }
  }

  lemma {:induction false} ExecConstants(c: Claim, schedule: seq<Event>)
    ensures var c' := Exec(c, schedule); c'.window == c.window && c'.hasDlq == c.hasDlq && c'.log == c.log
    decreases |schedule|
  {
    if schedule != [] {
      if Enabled(c, schedule[0]) {
        FireConstants(c, schedule[0]);
      }
      ExecConstants(Apply(c, schedule[0]), schedule[1..]);
    }
  }

  lemma InitInv(window: nat, hasDlq: bool, log: seq<Message>)
    requires window > 0 && Increasing(log)
    ensures Inv(Init(window, hasDlq, log))
  {
    assert Tracked(Init(window, hasDlq, log)) == {};
  }
}
