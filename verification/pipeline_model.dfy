/** The consumption pipeline of one Kafka partition claim, as a step machine.

    The model keeps a ledger of every message the claim has received and never forgets an entry.
    The commit frontier is not stored: it is recomputed from the ledger, starting at the first
    received offset. `PartitionPipeline` (partition_pipeline.dfy) is the code's own form, with an
    `inflight` map that is pruned and a frontier that is advanced in place; it is proved to behave
    exactly like this machine.

    One goroutine runs the event loop; bridges and DLQ senders run beside it and feed two bounded
    channels. Every interleaving of their atomic steps is a sequence of `Event`s. */
module PipelineModel {

  datatype Message = Message(offset: nat, isEnvelope: bool)

  /** What a handler call returned: a nil error or a non-nil one. */
  datatype Outcome = Succeeded | Failed

  datatype Decision = CommitSuccess | CommitRegularFail | CommitEnvelopeFail

  datatype Entry = Entry(msg: Message, settled: bool, dlqPending: bool, commitable: bool) {
    predicate Ready() { settled && !dlqPending && commitable }
    predicate Unresolved() { !settled || dlqPending }
    predicate Poisoned() { settled && !dlqPending && !commitable }
  }

  datatype Completion = Completion(offset: nat, outcome: Outcome, canceled: bool)

  datatype DlqResult = DlqResult(offset: nat, ok: bool)

  datatype Phase = Running | Flushing | Returned

  datatype Claim = Claim(
    window: nat,                    // WindowSize, also the capacity of both channels
    hasDlq: bool,                   // whether a DLQ sender is configured
    log: seq<Message>,              // the messages the broker can deliver in this claim
    read: nat,                      // how many of them were received
    start: int,                     // offset of the first received message, -1 before it
    closed: bool,                   // the message channel was found closed
    canceled: bool,                 // the session context is canceled
    phase: Phase,
    ledger: map<int, Entry>,        // every entry ever registered, by offset
    marks: seq<int>,                // offsets handed to MarkMessage, in order
    alerts: seq<int>,               // offsets handed to AlertPoisonMessage, in order
    done: map<int, Outcome>,        // handler results, as written to the Done channels
    waiting: set<int>,              // bridges that still wait on Done
    holding: map<int, Completion>,  // bridges about to send their completion
    compCh: seq<Completion>,
    dlqRunning: set<int>,           // DLQ sends under way
    dlqCh: seq<DlqResult>,
    dlqDone: map<int, bool>)        // DLQ sends that returned, and whether with nil

  datatype Event =
    | Receive                            // the loop takes the next message
    | ReceiveNil                         // the loop finds the message channel closed
    | HandlerDone(o: nat, outcome: Outcome)
    | BridgeTake(o: nat)                 // a bridge takes the result out of Done
    | BridgeSend(o: nat)                 // ... and sends it to compCh
    | BridgeGiveUp(o: nat)               // a bridge gives up: canceled and Done empty
    | TakeCompletion                     // the loop, or flush, takes from compCh
    | DlqFinish(o: nat, ok: bool)        // a DLQ send returns and reports
    | TakeDlqResult                      // the loop, or flush, takes from dlqDoneCh
    | Cancel                             // the session context is canceled
    | EnterFlush                         // the loop takes its ctx.Done branch
    | FlushTimeout

  // ---------------------------------------------------------------- entries

  function Decide(e: Entry, outcome: Outcome): Decision {
    if outcome == Succeeded then CommitSuccess
    else if e.msg.isEnvelope then CommitEnvelopeFail
    else CommitRegularFail
  }

  /** The event loop's reaction to a completion. */
  function SettleRunning(e: Entry, c: Completion): Entry {
    if c.canceled then e.(settled := true, commitable := false)
    else match Decide(e, c.outcome)
      case CommitSuccess => e.(settled := true, commitable := true)
      case CommitRegularFail => e.(settled := true, commitable := true)
      case CommitEnvelopeFail => e.(settled := true, dlqPending := true)
  }

  /** Flush's reaction to a completion: a failed envelope starts no DLQ send. */
  function SettleFlushing(e: Entry, c: Completion): Entry {
    if c.canceled then e.(settled := true, commitable := false)
    else match Decide(e, c.outcome)
      case CommitSuccess => e.(settled := true, commitable := true)
      case CommitRegularFail => e.(settled := true, commitable := true)
      case CommitEnvelopeFail => e.(settled := true, commitable := false)
  }

  function Resolve(e: Entry, r: DlqResult): Entry {
    e.(dlqPending := false, commitable := r.ok)
  }

  // ---------------------------------------------------------------- frontier

  ghost function Above(ledger: map<int, Entry>, o: int): set<int> {
    set k | k in ledger && o <= k
  }

  /** The first offset, counting up one by one from `o`, that is not ready to be committed. */
  ghost function Reach(ledger: map<int, Entry>, o: int): (f: int)
    ensures o <= f
    ensures forall k :: o <= k < f ==> k in ledger && ledger[k].Ready()
    ensures !(f in ledger && ledger[f].Ready())
    decreases Above(ledger, o)
  {
    if o in ledger && ledger[o].Ready() then
      assert Above(ledger, o) == Above(ledger, o + 1) + {o};
      Reach(ledger, o + 1)
    else o
  }

  ghost function FrontierOf(ledger: map<int, Entry>, start: int): int {
    if start < 0 then -1 else Reach(ledger, start)
  }

  ghost function Frontier(c: Claim): int {
    FrontierOf(c.ledger, c.start)
  }

  /** The offsets the loop still tracks: those the frontier has not passed. */
  ghost function TrackedOf(ledger: map<int, Entry>, start: int): set<int> {
    Above(ledger, FrontierOf(ledger, start))
  }

  ghost function Tracked(c: Claim): set<int> {
    TrackedOf(c.ledger, c.start)
  }

  ghost function UnresolvedOf(ledger: map<int, Entry>, start: int): set<int> {
    set o | o in TrackedOf(ledger, start) && ledger[o].Unresolved()
  }

  ghost function UnresolvedOffsets(c: Claim): set<int> {
    UnresolvedOf(c.ledger, c.start)
  }

  // ---------------------------------------------------------------- steps

  ghost function Init(window: nat, hasDlq: bool, log: seq<Message>): Claim {
    Claim(window, hasDlq, log, 0, -1, false, false, Running, map[], [], [],
          map[], {}, map[], [], {}, [], map[])
  }

  function MarkOnce(marks: seq<int>, before: int, after: int): seq<int> {
    if before < after then marks + [after - 1] else marks
  }

  /** Store a changed ledger, advance, and mark once if the frontier moved. */
  ghost function Commit(c: Claim, ledger: map<int, Entry>): Claim {
    c.(ledger := ledger, marks := MarkOnce(c.marks, Frontier(c), FrontierOf(ledger, c.start)))
  }

  /** The tests at the head of the event loop and of the flush loop. */
  ghost function LoopHead(c: Claim): Claim {
    if c.phase == Running && c.closed && Tracked(c) == {} then c.(phase := Returned)
    else if c.phase == Flushing && UnresolvedOffsets(c) == {} then c.(phase := Returned)
    else c
  }

  ghost predicate CanReceive(c: Claim) {
    c.phase == Running && !c.closed && |Tracked(c)| < c.window
  }

  ghost predicate Enabled(c: Claim, e: Event) {
    match e
    case Receive => CanReceive(c) && c.read < |c.log|
    case ReceiveNil => CanReceive(c)
    case HandlerDone(o, _) => o in c.ledger && o !in c.done
    case BridgeTake(o) => o in c.waiting && o in c.done
    case BridgeSend(o) => o in c.holding && |c.compCh| < c.window
    case BridgeGiveUp(o) => o in c.waiting && c.canceled && o !in c.done
    case TakeCompletion => c.phase != Returned && c.compCh != []
    case DlqFinish(o, ok) => o in c.dlqRunning && |c.dlqCh| < c.window && (ok ==> c.hasDlq)
    case TakeDlqResult => c.phase != Returned && c.dlqCh != []
    case Cancel => !c.canceled
    case EnterFlush => c.phase == Running && c.canceled
    case FlushTimeout => c.phase == Flushing
  }

  ghost function OnReceive(c: Claim): Claim
    requires c.read < |c.log|
  {
    var m := c.log[c.read];
    c.(read := c.read + 1,
       start := if c.start < 0 then m.offset else c.start,
       ledger := c.ledger[m.offset := Entry(m, false, false, false)],
       waiting := c.waiting + {m.offset})
  }

  ghost function LedgerAfterCompletion(c: Claim, x: Completion): map<int, Entry> {
    if x.offset !in Tracked(c) then c.ledger
    else if c.phase == Running then c.ledger[x.offset := SettleRunning(c.ledger[x.offset], x)]
    else if c.ledger[x.offset].settled then c.ledger
    else c.ledger[x.offset := SettleFlushing(c.ledger[x.offset], x)]
  }

  ghost predicate StartsDlq(c: Claim, x: Completion) {
    && x.offset in Tracked(c) && c.phase == Running && !x.canceled
    && Decide(c.ledger[x.offset], x.outcome) == CommitEnvelopeFail
  }

  ghost function OnCompletion(c: Claim): Claim
    requires c.compCh != []
  {
    var x := c.compCh[0];
    Commit(c.(compCh := c.compCh[1..],
              dlqRunning := if StartsDlq(c, x) then c.dlqRunning + {x.offset} else c.dlqRunning),
           LedgerAfterCompletion(c, x))
  }

  ghost function OnDlqResult(c: Claim): Claim
    requires c.dlqCh != []
  {
    var r := c.dlqCh[0];
    var known := r.offset in Tracked(c);
    Commit(c.(dlqCh := c.dlqCh[1..],
              alerts := if known && !r.ok then c.alerts + [r.offset] else c.alerts),
           if known then c.ledger[r.offset := Resolve(c.ledger[r.offset], r)] else c.ledger)
  }

  ghost function Fire(c: Claim, e: Event): Claim
    requires Enabled(c, e)
  {
    match e
    case Receive => OnReceive(c)
    case ReceiveNil => LoopHead(c.(closed := true))
    case HandlerDone(o, outcome) => c.(done := c.done[o := outcome])
    case BridgeTake(o) =>
      c.(waiting := c.waiting - {o},
         holding := c.holding[o := Completion(o, c.done[o], c.canceled)])
    case BridgeSend(o) => c.(holding := c.holding - {o}, compCh := c.compCh + [c.holding[o]])
    case BridgeGiveUp(o) => c.(waiting := c.waiting - {o})
    case TakeCompletion => LoopHead(OnCompletion(c))
    case DlqFinish(o, ok) =>
      c.(dlqRunning := c.dlqRunning - {o}, dlqCh := c.dlqCh + [DlqResult(o, ok)],
         dlqDone := c.dlqDone[o := ok])
    case TakeDlqResult => LoopHead(OnDlqResult(c))
    case Cancel => c.(canceled := true)
    case EnterFlush => LoopHead(c.(phase := Flushing))
    case FlushTimeout => c.(phase := Returned)
  }

  /** A scheduled event that is not enabled does nothing, so every schedule is a run. */
  ghost function Apply(c: Claim, e: Event): Claim {
    if Enabled(c, e) then Fire(c, e) else c
  }

  ghost function Exec(c: Claim, schedule: seq<Event>): Claim
    decreases |schedule|
  {
    if schedule == [] then c else Exec(Apply(c, schedule[0]), schedule[1..])
  }
}
