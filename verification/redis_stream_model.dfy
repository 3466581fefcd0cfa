/** A Redis stream read by one consumer group: the stream and its pending list on the server, and any
    number of consumer processes with their poll, reclaim and worker goroutines. Every request to the
    server is one step; its reply may be lost, and processes may be shut down or crash at any step.

    Time is the server's clock in milliseconds. It decides how long an entry has been idle, and it
    bounds a reclaim pass: XPENDING and XCLAIM share one context of five seconds, and no request
    takes effect after its context has ended. The clock truncates, so a request sent within the five
    seconds may be stamped exactly 5000 ms after the survey. */
module RedisStreamModel {

  datatype Cause = Handled | Poison

  /** Pending means: in the group's pending list. */
  datatype State = Unread | Pending | Acked(cause: Cause)

  /** `deliveries` is the server's delivery counter and `last` the time of the last delivery; the
      other two fields are history. */
  datatype Entry = Entry(state: State, deliveries: nat, last: nat, calls: nat, handled: bool)

  /** What XPENDING reports of an entry. */
  datatype Info = Info(id: nat, idle: bool, retries: nat)

  datatype Reclaimer =
    | Waiting
    | Scanning(rest: seq<Info>, ids: seq<nat>, deadline: nat)
    | Delivering(left: seq<nat>)

  datatype Job = Calling(id: nat) | Acking(id: nat)

  /** `hand` is what poll read and has not put into the channel yet. */
  datatype Proc = Proc(running: bool, cancelled: bool, hand: seq<nat>, reclaimer: Reclaimer,
                       queue: seq<nat>, jobs: seq<Job>)

  /** `visibility` is the visibility timeout in milliseconds; it is positive, as the constructor of
      the consumer makes sure. */
  datatype Config = Config(bufferSize: nat, concurrency: nat, maxDeliveries: int, visibility: nat)

  datatype Sys = Sys(cfg: Config, now: nat, entries: seq<Entry>, next: nat, procs: seq<Proc>)

  datatype Event =
    | Add                               // a producer appends an entry
    | Wait(d: nat)                      // time passes
    | Read(p: nat, k: nat, lost: bool)  // poll: XREADGROUP returns the next k entries
    | Hand(p: nat)                      // poll: one message into the channel
    | Survey(p: nat)                    // reclaim: XPENDING
    | Scan(p: nat, ok: bool)            // reclaim: the next reported entry, poison is acknowledged
    | Claim(p: nat, lost: bool)         // reclaim: XCLAIM
    | GiveUp(p: nat)                    // reclaim: XCLAIM fails, for one because the context has ended
    | Offer(p: nat)                     // reclaim: one claimed message into the channel
    | Take(p: nat)                      // a worker takes a message and calls the handler
    | Return(p: nat, j: nat, ok: bool)  // the handler returns
    | Ack(p: nat, j: nat, ok: bool)     // XACK after a handler success
    | Shutdown(p: nat) | Crash(p: nat) | Boot(p: nat)

  const NEW_ENTRY := Entry(Unread, 0, 0, 0, false)

  const DEADLINE: nat := 5000

  const IDLE_PROC := Proc(true, false, [], Waiting, [], [])
  const DEAD_PROC := Proc(false, true, [], Waiting, [], [])

  function Range(from: nat, k: nat): (ids: seq<nat>)
    ensures |ids| == k && forall j :: 0 <= j < k ==> ids[j] == from + j
  {
    seq(k, j requires 0 <= j => from + j)
  }

  /** Not delivered for the visibility timeout. */
  predicate Idle(cfg: Config, e: Entry, now: nat) {
    e.last + cfg.visibility <= now
  }

  /** XPENDING - + count: the first `count` pending entries from `from` on, in stream order. */
  function PendingList(cfg: Config, entries: seq<Entry>, from: nat, count: nat, now: nat): (infos: seq<Info>)
    requires from <= |entries|
    decreases |entries| - from
  {
    if from == |entries| || count == 0 then []
    else if entries[from].state.Pending? then
      [Info(from, Idle(cfg, entries[from], now), entries[from].deliveries)] + PendingList(cfg, entries, from + 1, count - 1, now)
    else PendingList(cfg, entries, from + 1, count, now)
  }

  predicate IsPoison(cfg: Config, info: Info) {
    cfg.maxDeliveries > 0 && info.retries > cfg.maxDeliveries
  }

  /** XCLAIM with a minimum idle time takes what is still pending and idle. */
  predicate Claimable(cfg: Config, entries: seq<Entry>, now: nat, id: nat) {
    id < |entries| && entries[id].state.Pending? && Idle(cfg, entries[id], now)
  }

  function Claimed(cfg: Config, entries: seq<Entry>, now: nat, ids: seq<nat>): seq<nat> {
    if ids == [] then []
    else (if Claimable(cfg, entries, now, ids[0]) then [ids[0]] else []) + Claimed(cfg, entries, now, ids[1..])
  }

  function Redelivered(e: Entry, now: nat): Entry {
    e.(state := Pending, deliveries := e.deliveries + 1, last := now)
  }

  /** One more delivery of each of these entries. */
  function Deliver(entries: seq<Entry>, ids: seq<nat>, now: nat): (r: seq<Entry>)
    ensures |r| == |entries|
    ensures forall i :: 0 <= i < |entries| ==> r[i] == if i in ids then Redelivered(entries[i], now) else entries[i]
  {
    seq(|entries|, i requires 0 <= i < |entries| => if i in ids then Redelivered(entries[i], now) else entries[i])
  }

  /** XACK removes an entry from the pending list and is without effect on any other entry. */
  function Acknowledge(entries: seq<Entry>, id: nat, cause: Cause): (r: seq<Entry>)
    ensures |r| == |entries|
  {
    if id < |entries| && entries[id].state.Pending? then entries[id := entries[id].(state := Acked(cause))]
    else entries
  }

  function AfterDelivery(left: seq<nat>): Reclaimer {
    if left == [] then Waiting else Delivering(left)
  }

  predicate Enabled(s: Sys, e: Event) {
    if e.Add? || e.Wait? then true
    else
      && e.p < |s.procs|
      && var pr := s.procs[e.p];
         match e
         case Boot(_) => !pr.running
         case Read(_, k, lost) => pr.running && pr.hand == [] && 1 <= k <= s.cfg.bufferSize && s.next + k <= |s.entries| && (pr.cancelled ==> lost)
         case Hand(_) => pr.running && pr.hand != [] && |pr.queue| < s.cfg.bufferSize
         case Survey(_) => pr.running && !pr.cancelled && pr.reclaimer.Waiting?
         case Scan(_, _) => pr.running && pr.reclaimer.Scanning? && pr.reclaimer.rest != []
         case Claim(_, lost) => pr.running && pr.reclaimer.Scanning? && pr.reclaimer.rest == []
                                && s.now <= pr.reclaimer.deadline && (pr.cancelled ==> lost)
         case GiveUp(_) => pr.running && pr.reclaimer.Scanning? && pr.reclaimer.rest == []
         case Offer(_) => pr.running && pr.reclaimer.Delivering? && pr.reclaimer.left != [] && |pr.queue| < s.cfg.bufferSize
         case Take(_) => pr.running && pr.queue != [] && |pr.jobs| < s.cfg.concurrency
         case Return(_, j, _) => pr.running && j < |pr.jobs| && pr.jobs[j].Calling?
         case Ack(_, j, _) => pr.running && j < |pr.jobs| && pr.jobs[j].Acking?
         case _ => pr.running
  }

  function With(s: Sys, p: nat, pr: Proc): Sys
    requires p < |s.procs|
  {
    s.(procs := s.procs[p := pr])
  }

  function ReadStep(s: Sys, p: nat, k: nat, lost: bool): Sys
    requires p < |s.procs|
  {
    var batch := Range(s.next, k);
    var s' := s.(entries := Deliver(s.entries, batch, s.now), next := s.next + k);
    if lost then s' else With(s', p, s.procs[p].(hand := batch))
  }

  function ScanStep(s: Sys, p: nat, ok: bool): Sys
    requires p < |s.procs| && s.procs[p].reclaimer.Scanning? && s.procs[p].reclaimer.rest != []
  {
    var r := s.procs[p].reclaimer;
    var info := r.rest[0];
    var poison := info.idle && IsPoison(s.cfg, info);
    var ids := if info.idle && !poison then r.ids + [info.id] else r.ids;
    With(s.(entries := if poison && ok then Acknowledge(s.entries, info.id, Poison) else s.entries),
         p, s.procs[p].(reclaimer := Scanning(r.rest[1..], ids, r.deadline)))
  }

  function SurveyStep(s: Sys, p: nat): Sys
    requires p < |s.procs|
  {
    With(s, p, s.procs[p].(reclaimer := Scanning(PendingList(s.cfg, s.entries, 0, s.cfg.bufferSize, s.now), [], s.now + DEADLINE)))
  }

  function ClaimStep(s: Sys, p: nat, lost: bool): Sys
    requires p < |s.procs| && s.procs[p].reclaimer.Scanning?
  {
    var claimed := Claimed(s.cfg, s.entries, s.now, s.procs[p].reclaimer.ids);
    With(s.(entries := Deliver(s.entries, claimed, s.now)), p,
         s.procs[p].(reclaimer := if lost then Waiting else AfterDelivery(claimed)))
  }

  /** After a shutdown a worker that still receives a message drops it. */
  function TakeStep(s: Sys, p: nat): Sys
    requires p < |s.procs| && s.procs[p].queue != []
  {
    var pr := s.procs[p];
    var id := pr.queue[0];
    if pr.cancelled || id >= |s.entries| then With(s, p, pr.(queue := pr.queue[1..]))
    else With(s.(entries := s.entries[id := s.entries[id].(calls := s.entries[id].calls + 1)]), p,
              pr.(queue := pr.queue[1..], jobs := pr.jobs + [Calling(id)]))
  }

  function ReturnStep(s: Sys, p: nat, j: nat, ok: bool): Sys
    requires p < |s.procs| && j < |s.procs[p].jobs|
  {
    var pr := s.procs[p];
    var id := pr.jobs[j].id;
    if ok && id < |s.entries| then
      With(s.(entries := s.entries[id := s.entries[id].(handled := true)]), p, pr.(jobs := pr.jobs[j := Acking(id)]))
    else With(s, p, pr.(jobs := pr.jobs[..j] + pr.jobs[j + 1..]))
  }

  function AckStep(s: Sys, p: nat, j: nat, ok: bool): Sys
    requires p < |s.procs| && j < |s.procs[p].jobs|
  {
    var pr := s.procs[p];
    With(s.(entries := if ok then Acknowledge(s.entries, pr.jobs[j].id, Handled) else s.entries),
         p, pr.(jobs := pr.jobs[..j] + pr.jobs[j + 1..]))
  }

  function Fire(s: Sys, e: Event): Sys
    requires Enabled(s, e)
  {
    match e
    case Add => s.(entries := s.entries + [NEW_ENTRY])
    case Wait(d) => s.(now := s.now + d)
    case Read(p, k, lost) => ReadStep(s, p, k, lost)
    case Hand(p) => With(s, p, s.procs[p].(hand := s.procs[p].hand[1..], queue := s.procs[p].queue + [s.procs[p].hand[0]]))
    case Survey(p) => SurveyStep(s, p)
    case Scan(p, ok) => ScanStep(s, p, ok)
    case Claim(p, lost) => ClaimStep(s, p, lost)
    case GiveUp(p) => With(s, p, s.procs[p].(reclaimer := Waiting))
    case Offer(p) =>
      var left := s.procs[p].reclaimer.left;
      With(s, p, s.procs[p].(reclaimer := AfterDelivery(left[1..]), queue := s.procs[p].queue + [left[0]]))
    case Take(p) => TakeStep(s, p)
    case Return(p, j, ok) => ReturnStep(s, p, j, ok)
    case Ack(p, j, ok) => AckStep(s, p, j, ok)
    case Shutdown(p) => With(s, p, s.procs[p].(cancelled := true))
    case Crash(p) => With(s, p, DEAD_PROC)
    case Boot(p) => With(s, p, IDLE_PROC)
  }

  function Apply(s: Sys, e: Event): Sys {
    if Enabled(s, e) then Fire(s, e) else s
  }

  function Exec(s: Sys, schedule: seq<Event>): Sys
    decreases |schedule|
  {
    if schedule == [] then s else Exec(Apply(s, schedule[0]), schedule[1..])
  }

  /** An empty stream, and `processes` consumer processes not started yet. */
  function Init(cfg: Config, processes: nat): Sys {
    Sys(cfg, 0, [], 0, seq(processes, _ => DEAD_PROC))
  }
}
