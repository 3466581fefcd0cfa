/** Properties of every run of one claim. */
module PipelineTheorems {
  import opened PipelineModel
  import opened PipelineInvariants

  ghost function UnsettledOffsets(c: Claim): set<int> {
    set o | o in Tracked(c) && !c.ledger[o].settled
  }

  ghost function PendingOffsets(c: Claim): set<int> {
    set o | o in Tracked(c) && c.ledger[o].dlqPending
  }

  // ---------------------------------------------------------------- no send ever blocks

  lemma {:induction false} OffsetsCount(cs: seq<Completion>)
    requires DistinctOffsets(cs)
    ensures |Offsets(cs)| == |cs|
  {
    if cs != [] {
      var n := |cs| - 1;
      OffsetsCount(cs[..n]);
      assert cs == cs[..n] + [cs[n]];
      assert Offsets(cs) == Offsets(cs[..n]) + {cs[n].offset};
    }
  }

  lemma {:induction false} ResultsCount(rs: seq<DlqResult>)
    requires DistinctResults(rs)
    ensures |ResultOffsets(rs)| == |rs|
  {
    if rs != [] {
      var n := |rs| - 1;
      ResultsCount(rs[..n]);
      assert rs == rs[..n] + [rs[n]];
      assert ResultOffsets(rs) == ResultOffsets(rs[..n]) + {rs[n].offset};
    }
  }

  lemma DisjointUnionFits(a: set<int>, b: set<int>, c: set<int>, whole: set<int>)
    requires a !! b && a !! c && b !! c && a + b + c <= whole
    ensures |a| + |b| + |c| <= |whole|
  {
    SubsetSize(a + b + c, whole);
    assert |a + b + c| == |a + b| + |c|;
  }

  lemma BridgesAreUnsettled(c: Claim)
    requires LedgerOk(c.log, c.read, c.start, c.ledger)
    requires BridgeOk(c.ledger, c.done, c.canceled, c.waiting, c.holding, c.compCh)
    ensures c.waiting + c.holding.Keys + Offsets(c.compCh) <= UnsettledOffsets(c)
  {
    forall x | x in c.compCh ensures x.offset in UnsettledOffsets(c) {
      var i :| 0 <= i < |c.compCh| && c.compCh[i] == x;
      NotReadyIsTracked(c.ledger, c.start, x.offset);
    }
    forall o | o in c.waiting + c.holding.Keys ensures o in UnsettledOffsets(c) {
      NotReadyIsTracked(c.ledger, c.start, o);
    }
  }

  lemma BridgesAreApart(c: Claim)
    requires BridgeOk(c.ledger, c.done, c.canceled, c.waiting, c.holding, c.compCh)
    ensures c.waiting !! c.holding.Keys && c.waiting !! Offsets(c.compCh) && c.holding.Keys !! Offsets(c.compCh)
    ensures |Offsets(c.compCh)| == |c.compCh|
  {
    OffsetsCount(c.compCh);
    forall o | o in c.holding ensures o !in c.waiting {
      assert c.holding[o].offset == o;
    }
    forall o | o in Offsets(c.compCh) ensures o !in c.waiting && o !in c.holding {
      var x :| x in c.compCh && x.offset == o;
      var i :| 0 <= i < |c.compCh| && c.compCh[i] == x;
    }
  }

  /** Live bridges and buffered completions belong to distinct unsettled entries. */
  lemma BridgesFit(c: Claim)
    requires LedgerOk(c.log, c.read, c.start, c.ledger)
    requires BridgeOk(c.ledger, c.done, c.canceled, c.waiting, c.holding, c.compCh)
    ensures |c.waiting| + |c.holding| + |c.compCh| <= |UnsettledOffsets(c)|
  {
    BridgesAreUnsettled(c);
    BridgesAreApart(c);
    DisjointUnionFits(c.waiting, c.holding.Keys, Offsets(c.compCh), UnsettledOffsets(c));
  }

  /** Running DLQ sends and buffered DLQ results belong to distinct DLQ-pending entries. */
  lemma DlqFits(c: Claim)
    requires LedgerOk(c.log, c.read, c.start, c.ledger)
    requires DlqOk(c.ledger, c.hasDlq, c.dlqRunning, c.dlqCh, c.dlqDone)
    ensures |c.dlqRunning| + |c.dlqCh| == |PendingOffsets(c)|
  {
    forall o | o in c.ledger && c.ledger[o].dlqPending ensures o in PendingOffsets(c) {
      NotReadyIsTracked(c.ledger, c.start, o);
    }
    ResultsCount(c.dlqCh);
    assert PendingOffsets(c) == c.dlqRunning + ResultOffsets(c.dlqCh);
  }

  /** Everything under way fits the window, so whoever has something to send can send it. */
  ghost predicate ChannelsHaveRoom(c: Claim) {
    && |c.waiting| + |c.holding| + |c.compCh| + |c.dlqRunning| + |c.dlqCh| <= |Tracked(c)| <= c.window
    && (forall o: nat :: o in c.holding ==> Enabled(c, BridgeSend(o)))
    && (forall o: nat, ok: bool :: o in c.dlqRunning && (ok ==> c.hasDlq) ==> Enabled(c, DlqFinish(o, ok)))
  }

  lemma RoomInChannels(c: Claim)
    requires Inv(c)
    ensures |c.waiting| + |c.holding| + |c.compCh| + |c.dlqRunning| + |c.dlqCh| <= |Tracked(c)| <= c.window
  {
    BridgesFit(c);
    DlqFits(c);
    UnresolvedFit(c);
  }

  lemma UnresolvedFit(c: Claim)
    requires EntryOk(c.ledger, c.done, c.dlqDone)
    ensures |UnsettledOffsets(c)| + |PendingOffsets(c)| <= |Tracked(c)|
  {
    DisjointUnionFits(UnsettledOffsets(c), PendingOffsets(c), {}, Tracked(c));
  }

  lemma WithRoomNobodyBlocks(c: Claim)
    requires |c.waiting| + |c.holding| + |c.compCh| + |c.dlqRunning| + |c.dlqCh| <= |Tracked(c)| <= c.window
    ensures ChannelsHaveRoom(c)
  {
    assert c.holding.Keys != {} ==> |c.compCh| < c.window;
    assert c.dlqRunning != {} ==> |c.dlqCh| < c.window;
  }

  /** In every reachable state, also after the loop has returned, no bridge and no DLQ sender can
      ever block on its channel. */
  lemma {:induction false} NoSendEverBlocks(window: nat, hasDlq: bool, log: seq<Message>, schedule: seq<Event>)
    requires window > 0 && Increasing(log)
    ensures ChannelsHaveRoom(Exec(Init(window, hasDlq, log), schedule))
  {
    InitInv(window, hasDlq, log);
    ExecKeeps(Init(window, hasDlq, log), schedule);
    var c := Exec(Init(window, hasDlq, log), schedule);
    RoomInChannels(c);
    WithRoomNobodyBlocks(c);
  }

  // ---------------------------------------------------------------- the committed prefix

  ghost predicate Contiguous(log: seq<Message>) {
    forall i :: 0 <= i < |log| ==> log[i].offset == log[0].offset + i
  }

  /** Length of the longest run of received messages, from the first on, that are all ready. */
  ghost function ReadyPrefix(msgs: seq<Message>, ledger: Ledger, i: nat): (n: nat)
    requires i <= |msgs|
    ensures i <= n <= |msgs|
    ensures forall k :: i <= k < n ==> msgs[k].offset in ledger && ledger[msgs[k].offset].Ready()
    ensures n < |msgs| ==> !(msgs[n].offset in ledger && ledger[msgs[n].offset].Ready())
    decreases |msgs| - i
  {
    if i < |msgs| && msgs[i].offset in ledger && ledger[msgs[i].offset].Ready()
    then ReadyPrefix(msgs, ledger, i + 1) else i
  }

  ghost function Interval(a: int, b: int): (s: set<int>)
    ensures forall o :: o in s <==> a <= o < b
    ensures |s| == if a <= b then b - a else 0
    decreases b - a
  {
    if a < b then {a} + Interval(a + 1, b) else {}
  }

  lemma {:induction false} FrontierAfterPrefix(c: Claim)
    requires LedgerOk(c.log, c.read, c.start, c.ledger) && c.read > 0 && Contiguous(c.log)
    ensures Frontier(c) == c.log[0].offset + ReadyPrefix(c.log[..c.read], c.ledger, 0)
  {
    var first := c.log[0].offset;
    var n := ReadyPrefix(c.log[..c.read], c.ledger, 0);
    forall k | first <= k < first + n ensures k in c.ledger && c.ledger[k].Ready() {
      assert c.log[..c.read][k - first].offset == c.log[k - first].offset == k;
    }
    if n < c.read {
      assert c.log[..c.read][n].offset == c.log[n].offset == first + n;
    } else {
      assert first + n !in c.ledger;
    }
    ReachIs(c.ledger, first, first + n);
  }

  /** With contiguous offsets the frontier is the first offset plus the length of the longest
      ready prefix; the tracked offsets are exactly those from the frontier to the next offset;
      the last mark is just below the frontier. So a restart at the last mark replays at most a
      window of the messages already received. */
  lemma {:induction false} FrontierIsReadyPrefix(c: Claim)
    requires Inv(c) && c.read > 0 && Contiguous(c.log)
    ensures var n := ReadyPrefix(c.log[..c.read], c.ledger, 0);
            && Frontier(c) == c.log[0].offset + n
            && Tracked(c) == Interval(c.log[0].offset + n, c.log[0].offset + c.read)
            && c.read - n <= c.window
            && (if n == 0 then c.marks == [] else c.marks != [] && c.marks[|c.marks| - 1] == c.log[n - 1].offset)
  {
    hide EntryOk, BridgeOk, CarriedOk, DlqOk, DeterminedOk, AlertOk, PhaseOk;
    var first := c.log[0].offset;
    var n := ReadyPrefix(c.log[..c.read], c.ledger, 0);
    FrontierAfterPrefix(c);
    forall o | first + n <= o < first + c.read ensures o in Tracked(c) {
      assert c.log[o - first].offset == o;
    }
  }

  /** When nothing is tracked any more, as when the loop returns without a cancellation, every
      received message was justified, and the last mark is the last message received. */
  lemma CleanExitCommitsAll(c: Claim)
    requires Inv(c) && (Tracked(c) == {} || (c.phase == Returned && !c.canceled))
    ensures forall i :: 0 <= i < c.read ==> Justified(c.log[i], c.done, c.dlqDone)
    ensures c.read > 0 ==> c.marks != [] && c.marks[|c.marks| - 1] == c.log[c.read - 1].offset
  {
    forall i | 0 <= i < c.read ensures c.ledger[c.log[i].offset].Ready() && c.log[i].offset < Frontier(c) {
      UntrackedIsReady(c.ledger, c.start, c.log[i].offset);
    }
    if c.read > 0 {
      FrontierBelow(c.ledger, c.start, c.log[c.read - 1].offset + 1);
    }
  }

  // ---------------------------------------------------------------- poison stall

  /** A settled entry that waits for no DLQ send never changes again. */
  lemma ResolvedIsFrozen(c: Claim, e: Event, o: int)
    requires Inv(c) && Enabled(c, e)
    requires o in c.ledger && !c.ledger[o].Unresolved()
    ensures o in Fire(c, e).ledger && Fire(c, e).ledger[o] == c.ledger[o]
  {
    FireLedger(c, e);
    match e
    case Receive => NextIsNew(c.log, c.read, c.start, c.ledger);
    case TakeCompletion => HeadCompletion(c);
    case TakeDlqResult => HeadDlqResult(c);
    case _ =>
  }

  /** Once an entry is settled, not DLQ-pending and not committable, it stays tracked for the rest
      of the claim, flush included, and nothing at or above it is ever marked. */
  lemma {:induction false} PoisonStallsTheClaim(c: Claim, schedule: seq<Event>, o: int)
    requires Inv(c) && o in c.ledger && c.ledger[o].Poisoned()
    ensures var c' := Exec(c, schedule);
            && o in c'.ledger && c'.ledger[o] == c.ledger[o] && o in Tracked(c')
            && Frontier(c') <= o
            && (forall m :: m in c'.marks ==> m < o)
    decreases |schedule|
  {
    if schedule == [] {
      NotReadyIsTracked(c.ledger, c.start, o);
    } else {
      if Enabled(c, schedule[0]) {
        FireKeeps(c, schedule[0]);
        ResolvedIsFrozen(c, schedule[0], o);
      }
      PoisonStallsTheClaim(Apply(c, schedule[0]), schedule[1..], o);
    }
  }

  // ---------------------------------------------------------------- flush

  /** How many channel receives the loop or flush performs in a schedule. */
  ghost function Receives(c: Claim, schedule: seq<Event>): nat
    decreases |schedule|
  {
    if schedule == [] then 0
    else (if Enabled(c, schedule[0]) && schedule[0] in {TakeCompletion, TakeDlqResult} then 1 else 0)
         + Receives(Apply(c, schedule[0]), schedule[1..])
  }

  /** One receive of flush resolves exactly the entry it is about; no other step changes what is
      unresolved, and none starts a DLQ send. */
  lemma FlushStep(c: Claim, e: Event)
    requires Inv(c) && c.phase != Running && Enabled(c, e)
    ensures var c' := Fire(c, e);
            && c'.phase != Running
            && c'.dlqRunning <= c.dlqRunning
            && |UnresolvedOffsets(c')| + (if e in {TakeCompletion, TakeDlqResult} then 1 else 0) == |UnresolvedOffsets(c)|
  {
    if e == TakeCompletion {
      FlushCompletion(c);
    } else if e == TakeDlqResult {
      FlushDlqResult(c);
    } else {
      FlushOther(c, e);
    }
  }

  lemma FlushOther(c: Claim, e: Event)
    requires c.phase != Running && Enabled(c, e) && e !in {TakeCompletion, TakeDlqResult}
    ensures var c' := Fire(c, e);
            c'.phase != Running && c'.dlqRunning <= c.dlqRunning && UnresolvedOffsets(c') == UnresolvedOffsets(c)
  {
  }

  lemma FlushCompletion(c: Claim)
    requires Inv(c) && c.phase != Running && Enabled(c, TakeCompletion)
    ensures var c' := Fire(c, TakeCompletion);
            && c'.phase != Running
            && c'.dlqRunning <= c.dlqRunning
            && |UnresolvedOffsets(c')| + 1 == |UnresolvedOffsets(c)|
  {
    hide LedgerOk, EntryOk, BridgeOk, CarriedOk, DlqOk, MarkOk, DeterminedOk, AlertOk, PhaseOk, TrackedOf, FrontierOf;
    HeadCompletion(c);
    HeadIsNotPending(c);
    CompletionShape(c);
    var x := c.compCh[0];
    Resolving(c, x.offset, SettleFlushing(c.ledger[x.offset], x));
  }

  lemma HeadIsNotPending(c: Claim)
    requires Inv(c) && c.compCh != []
    ensures var o := c.compCh[0].offset; o in c.ledger && !c.ledger[o].dlqPending
  {
    hide LedgerOk, CarriedOk, DlqOk, MarkOk, DeterminedOk, AlertOk, PhaseOk;
    assert Carries(c.ledger, c.done, c.canceled, c.compCh[0]);
  }

  lemma {:induction false} FlushDlqResult(c: Claim)
    requires Inv(c) && c.phase != Running && Enabled(c, TakeDlqResult)
    ensures var c' := Fire(c, TakeDlqResult);
            && c'.phase != Running
            && c'.dlqRunning <= c.dlqRunning
            && |UnresolvedOffsets(c')| + 1 == |UnresolvedOffsets(c)|
  {
    hide LedgerOk, BridgeOk, CarriedOk, MarkOk, DeterminedOk, AlertOk, PhaseOk, TrackedOf, FrontierOf;
    HeadDlqResult(c);
    DlqResultShape(c);
    var r := c.dlqCh[0];
    Resolving(c, r.offset, Resolve(c.ledger[r.offset], r));
  }

  lemma Resolving(c: Claim, o: int, e: Entry)
    requires LedgerOk(c.log, c.read, c.start, c.ledger)
    requires o in c.ledger && c.ledger[o].Unresolved() && !e.Unresolved() && o in Tracked(c)
    ensures UnresolvedOf(c.ledger[o := e], c.start) == UnresolvedOffsets(c) - {o}
    ensures o in UnresolvedOffsets(c)
  {
    var ledger := c.ledger[o := e];
    ReachGrows(c.ledger, ledger, c.start);
    forall k | k in UnresolvedOffsets(c) - {o} ensures k in TrackedOf(ledger, c.start) {
      NotReadyIsTracked(ledger, c.start, k);
    }
  }

  /** Flush ends by measure: its receives plus what stays unresolved always add up to what was
      unresolved when it started, whatever the bridges and DLQ senders do meanwhile; and it starts
      no DLQ send. */
  lemma {:induction false} FlushIsBounded(c: Claim, schedule: seq<Event>)
    requires Inv(c) && c.phase != Running
    ensures Receives(c, schedule) + |UnresolvedOffsets(Exec(c, schedule))| == |UnresolvedOffsets(c)|
    ensures Exec(c, schedule).dlqRunning <= c.dlqRunning
    decreases |schedule|
  {
    if schedule != [] {
      if Enabled(c, schedule[0]) {
        FireKeeps(c, schedule[0]);
        FlushStep(c, schedule[0]);
      }
      FlushIsBounded(Apply(c, schedule[0]), schedule[1..]);
    }
  }

  // ---------------------------------------------------------------- the same over whole runs

  /** The state of a claim after any schedule. */
  ghost function Reached(window: nat, hasDlq: bool, log: seq<Message>, schedule: seq<Event>): Claim {
    Exec(Init(window, hasDlq, log), schedule)
  }

  lemma {:induction false} ReachedInv(window: nat, hasDlq: bool, log: seq<Message>, schedule: seq<Event>)
    requires window > 0 && Increasing(log)
    ensures Inv(Reached(window, hasDlq, log, schedule))
    ensures Reached(window, hasDlq, log, schedule).log == log && Reached(window, hasDlq, log, schedule).window == window
  {
    InitInv(window, hasDlq, log);
    ExecKeeps(Init(window, hasDlq, log), schedule);
    ExecConstants(Init(window, hasDlq, log), schedule);
  }

  /** Bridges and buffered completions never outnumber the unsettled entries; DLQ sends and buffered
      results are as many as the DLQ-pending ones. */
  lemma {:induction false} RunUnderWayFits(window: nat, hasDlq: bool, log: seq<Message>, schedule: seq<Event>)
    requires window > 0 && Increasing(log)
    ensures var c := Reached(window, hasDlq, log, schedule);
            && |c.waiting| + |c.holding| + |c.compCh| <= |UnsettledOffsets(c)|
            && |c.dlqRunning| + |c.dlqCh| == |PendingOffsets(c)|
  {
    ReachedInv(window, hasDlq, log, schedule);
    BridgesFit(Reached(window, hasDlq, log, schedule));
    DlqFits(Reached(window, hasDlq, log, schedule));
  }

  /** The refinement, for every run over contiguous offsets. */
  lemma {:induction false} RunFrontierIsReadyPrefix(window: nat, hasDlq: bool, log: seq<Message>, schedule: seq<Event>)
    requires window > 0 && Increasing(log) && Contiguous(log)
    requires Reached(window, hasDlq, log, schedule).read > 0
    ensures var c := Reached(window, hasDlq, log, schedule);
            && c.read <= |log|
            && var n := ReadyPrefix(log[..c.read], c.ledger, 0);
               && Frontier(c) == log[0].offset + n
               && Tracked(c) == Interval(log[0].offset + n, log[0].offset + c.read)
               && c.read - n <= window
               && (if n == 0 then c.marks == [] else c.marks != [] && c.marks[|c.marks| - 1] == log[n - 1].offset)
  {
    hide Inv, Contiguous, ReadyPrefix, Tracked, Frontier, Interval;
    ReachedInv(window, hasDlq, log, schedule);
    ReadFits(Reached(window, hasDlq, log, schedule));
    FrontierIsReadyPrefix(Reached(window, hasDlq, log, schedule));
  }

  lemma ReadFits(c: Claim)
    requires Inv(c)
    ensures c.read <= |c.log|
  {
    hide EntryOk, BridgeOk, CarriedOk, DlqOk, MarkOk, DeterminedOk, AlertOk, PhaseOk;
  }

  /** A run that ends with nothing tracked has committed everything it received. */
  lemma {:induction false} RunCleanExit(window: nat, hasDlq: bool, log: seq<Message>, schedule: seq<Event>)
    requires window > 0 && Increasing(log)
    requires var c := Reached(window, hasDlq, log, schedule); Tracked(c) == {} || (c.phase == Returned && !c.canceled)
    ensures var c := Reached(window, hasDlq, log, schedule);
            && c.read <= |log|
            && (forall i :: 0 <= i < c.read ==> Justified(log[i], c.done, c.dlqDone))
            && (c.read > 0 ==> c.marks != [] && c.marks[|c.marks| - 1] == log[c.read - 1].offset)
  {
    ReachedInv(window, hasDlq, log, schedule);
    CleanExitCommitsAll(Reached(window, hasDlq, log, schedule));
  }

  /** What one run has poisoned, no later step of the claim passes. */
  lemma {:induction false} RunPoisonStalls(window: nat, hasDlq: bool, log: seq<Message>, before: seq<Event>, later: seq<Event>, o: int)
    requires window > 0 && Increasing(log)
    requires var c := Reached(window, hasDlq, log, before); o in c.ledger && c.ledger[o].Poisoned()
    ensures var c' := Exec(Reached(window, hasDlq, log, before), later);
            && o in Tracked(c') && Frontier(c') <= o && (forall m :: m in c'.marks ==> m < o)
  {
    ReachedInv(window, hasDlq, log, before);
    PoisonStallsTheClaim(Reached(window, hasDlq, log, before), later, o);
  }

  /** In every run each receive of flush resolves exactly one entry; no other step of its changes how
      many are unresolved, and none starts a DLQ send. */
  lemma {:induction false} RunFlushStep(window: nat, hasDlq: bool, log: seq<Message>, before: seq<Event>, e: Event)
    requires window > 0 && Increasing(log) && Reached(window, hasDlq, log, before).phase != Running
    requires Enabled(Reached(window, hasDlq, log, before), e)
    ensures var c := Reached(window, hasDlq, log, before); var c' := Exec(c, [e]);
            && c'.phase != Running && c'.dlqRunning <= c.dlqRunning
            && |UnresolvedOffsets(c')| + (if e in {TakeCompletion, TakeDlqResult} then 1 else 0) == |UnresolvedOffsets(c)|
  {
    hide Inv, Enabled, Fire;
    var c := Reached(window, hasDlq, log, before);
    ReachedInv(window, hasDlq, log, before);
    FlushStep(c, e);
    assert [e][1..] == [];
    assert Exec(c, [e]) == Exec(Apply(c, e), []);
  }

  /** From the moment flush begins its receives are bounded by what is unresolved then. */
  lemma {:induction false} RunFlushIsBounded(window: nat, hasDlq: bool, log: seq<Message>, before: seq<Event>, later: seq<Event>)
    requires window > 0 && Increasing(log) && Reached(window, hasDlq, log, before).phase != Running
    ensures var c := Reached(window, hasDlq, log, before);
            && Receives(c, later) + |UnresolvedOffsets(Exec(c, later))| == |UnresolvedOffsets(c)|
            && Exec(c, later).dlqRunning <= c.dlqRunning
  {
    ReachedInv(window, hasDlq, log, before);
    FlushIsBounded(Reached(window, hasDlq, log, before), later);
  }
}
