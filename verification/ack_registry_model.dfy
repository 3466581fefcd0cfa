/** The multi-tenant ACK registry as a machine of threads over two locks and a heap of channels.
    `tenantChannelsMu` is a read-write lock; `mu` is one in the memory bus and a mutex in the Kafka
    and NATS bus. A thread is one call of the bus (send a result, register or unregister a tenant,
    close, start or stop the health loop of the Kafka and NATS bus, or any other operation, which waits
    for no thread of the model while it holds `mu`) or a background loop. Close joins some loops: the health check of
    the memory bus, which takes `mu` itself, or the ACK senders of the other two, which send results.
    The health loop of the Kafka and NATS bus, which takes `mu` to reconnect, is joined by the call
    that stops or restarts it, under `mu`. A program counter names the next atomic step. Which locks a
    thread holds follows from it, so the locks need no state of their own. An unlock is folded into the
    last step made under the lock. */
module AckRegistryModel {
  import opened Wrappers

  datatype Backend = Kafka | Nats | Memory

  /** `Accepted` names the channel and the position the result took in it. */
  datatype Outcome = Accepted(ch: nat, pos: nat) | RejectedFull | RejectedFrozen | RejectedUnregistered

  /** A channel of results; a result is named by the call that offered it. The buffer is what was
      accepted and not taken yet. */
  datatype Chan = Chan(tenant: int, capacity: nat, accepted: seq<nat>, taken: nat, closes: nat) {
    predicate HasRoom() { |accepted| - taken < capacity }
  }

  /** The health loop of the Kafka and NATS bus (M), and StartHealthCheck and StopHealthCheck (J), both
      of which first stop the loop that runs: they take `mu`, cancel it and join it under `mu`. */
  datatype WatchPc =
    | MIdle                       // waits for a tick or its cancellation
    | MCheck                      // a health check is under way
    | MWant                       // the failures reached the threshold: wants mu to reconnect; Kafka:
                                  // or to restore a subscription
    | MHold                       // does so under mu
    | MAgain                      // NATS: wants mu to subscribe again, while it holds it
    | MPause                      // Kafka: between an attempt to reconnect and what follows it
    | MDone
    | JWant(restart: bool) | JJoin(loop: nat, restart: bool) | JStart | JDone

  datatype Pc =
    // sendResultToChannel
    | SEnter(tenant: int) | SGate(tenant: int) | SRoute(tenant: int) | SLookup(tenant: int)
    | SSend(tenant: int, ch: nat) | SDone(tenant: int, outcome: Outcome)
    // RegisterTenant
    | REnter(tenant: int, size: int) | RGate(tenant: int, size: int) | RLock(tenant: int, size: int)
    | RInstall(tenant: int, size: int) | RDone(ok: bool)
    // UnregisterTenant
    | UEnter(tenant: int) | UGate(tenant: int) | ULock(tenant: int) | UDetach(tenant: int)
    | UClose(ch: nat) | UDone(ok: bool)
    // Close
    | CEnter | CStart | CFreeze | CMu | CLock | CDetach | CSweep | COne(ch: nat)
    | CStop(rem: set<nat>) | CJoin(rem: set<nat>) | CDrain(rem: set<nat>)
    | CStore | CSignal | CWait | CDone(err: int)
    // a background loop: health check (HWant, HPublish) or ACK sender (HCall: it runs a send)
    | HIdle | HWant | HPublish | HCall(call: nat) | HDone
    // the health loop of the Kafka and NATS bus and the calls that start and stop it
    | Watch(step: WatchPc)
    // any other operation under mu; in the memory bus it takes mu for writing or for reading
    | OWant(write: bool) | OHold(write: bool) | ODone

  datatype Sys = Sys(
    backend: Backend,
    hasGlobal: bool,              // the global channel exists
    health: set<nat>,             // the background loops that Close joins
    closed: bool,                 // admission is frozen
    table: map<int, nat>,         // tenantPublishResultChans
    heap: seq<Chan>,              // all channels; number 0 is the global one
    threads: map<nat, Pc>,
    monitor: Option<nat>,         // the health loop that StopHealthCheck would stop
    canceled: set<nat>,           // the health loops whose context is canceled
    subscribed: bool,             // NATS: some subscription is to be restored by a reconnect
    closer: Option<nat>,          // the call that won closeOnce
    stop: bool,                   // the background loops are told to stop
    terminal: Option<int>,        // terminalErr
    closeDone: bool,              // the closeDone channel is closed
    panicked: bool,               // a send on a closed channel, or a second close of one
    // history
    pending: map<nat, nat>,       // channels detached but not closed yet, and by which call
    swept: bool,                  // Close has emptied the table
    late: set<nat>)               // calls that started after the freeze

  datatype Event =
    | Start(t: nat, pc: Pc)       // a call begins
    | Move(t: nat, k: int)        // its next step; k resolves what the step leaves open
    | Spawn(t: nat, u: nat, tenant: int)  // an ACK sender begins to send a result, as call u
    | Recv(ch: nat)               // a listener takes a result
    | Cancel(t: nat)              // the context that a health loop was started with is canceled

  predicate ValidTenant(b: Backend, tenant: int) {
    if b.Nats? then tenant != 0 else tenant > 0
  }

  function Capacity(b: Backend, size: int): nat {
    if size > 0 then size else if b.Memory? then 10000 else 100000
  }

  // ---------------------------------------------------------------- locks

  predicate HoldsMuR(b: Backend, pc: Pc) {
    b.Memory? && (pc.SGate? || pc.UGate? || pc.RGate? || pc.RLock? || pc.RInstall? || pc.HPublish?
                   || (pc.OHold? && !pc.write))
  }

  predicate HoldsMuW(b: Backend, pc: Pc) {
    if b.Memory? then pc.CFreeze? || pc.CLock? || pc.CDetach? || (pc.OHold? && pc.write)
    else
      pc.CStop? || pc.CJoin? || pc.CLock? || pc.CSweep? || pc.COne? || pc.CStore? || pc.OHold?
      || (pc.Watch? && WatchHoldsMu(pc.step))
  }

  predicate WatchHoldsMu(step: WatchPc) {
    step.MHold? || step.MAgain? || step.JJoin? || step.JStart?
  }

  predicate HoldsTcR(pc: Pc) {
    pc.SLookup? || pc.SSend?
  }

  predicate HoldsTcW(pc: Pc) {
    pc.RInstall? || pc.UDetach? || pc.UClose? || pc.CDetach? || pc.CSweep? || pc.COne?
  }

  ghost predicate MuReadFree(s: Sys) {
    forall u :: u in s.threads ==> !HoldsMuW(s.backend, s.threads[u])
  }

  ghost predicate MuWriteFree(s: Sys) {
    forall u :: u in s.threads ==> !HoldsMuW(s.backend, s.threads[u]) && !HoldsMuR(s.backend, s.threads[u])
  }

  ghost predicate TcReadFree(s: Sys) {
    forall u :: u in s.threads ==> !HoldsTcW(s.threads[u])
  }

  ghost predicate TcWriteFree(s: Sys) {
    forall u :: u in s.threads ==> !HoldsTcW(s.threads[u]) && !HoldsTcR(s.threads[u])
  }

  // ---------------------------------------------------------------- steps

  predicate Entry(pc: Pc) {
    pc.SEnter? || pc.REnter? || pc.UEnter? || pc.CEnter? || pc.OWant? || (pc.Watch? && pc.step.JWant?)
  }

  predicate Finished(pc: Pc) {
    pc.SDone? || pc.RDone? || pc.UDone? || pc.CDone? || pc.HDone? || pc.ODone?
    || (pc.Watch? && (pc.step.MDone? || pc.step.JDone?))
  }

  ghost predicate HealthJoined(s: Sys) {
    forall h :: h in s.health && h in s.threads ==> s.threads[h].HDone?
  }

  /** Whether the next step of a call can be taken: the locks it acquires are free, what it waits
      for has happened, and the choice k makes sense. */
  ghost predicate CanMove(s: Sys, t: nat, k: int) {
    && t in s.threads && !s.panicked && !Finished(s.threads[t])
    && var pc := s.threads[t];
       && (pc.SEnter? || pc.REnter? || pc.UEnter? || pc.HWant? ==> s.backend.Memory? ==> MuReadFree(s))
       && (pc.OWant? && s.backend.Memory? ==> if pc.write then MuWriteFree(s) else MuReadFree(s))
       && (pc.CStart? ==> s.backend.Memory? ==> MuWriteFree(s))
       && ((pc.CMu? || pc.OWant?) && !s.backend.Memory? ==> MuWriteFree(s))
       && (pc.SRoute? && pc.tenant != 0 ==> TcReadFree(s))
       && (pc.RLock? || pc.ULock? || pc.CLock? ==> TcWriteFree(s))
       && (pc.CSweep? && s.table != map[] ==> k in s.table)
       && (pc.CDrain? && pc.rem != {} ==> k in pc.rem)
       && (pc.CJoin? ==> HealthJoined(s))
       && (pc.CWait? ==> s.closeDone)
       && (pc.HIdle? ==> if k == 0 then s.stop else s.backend.Memory?)
       && (pc.HCall? ==> pc.call in s.threads && s.threads[pc.call].SDone?)
       && (pc.Watch? ==> WatchCanMove(s, t, pc.step, k))
  }

  /** A health loop ends only when it is canceled; StopHealthCheck waits for its end; a new loop gets a
      number of its own; nobody gets a mutex that it holds already. */
  ghost predicate WatchCanMove(s: Sys, t: nat, step: WatchPc, k: int) {
    && (step.MIdle? && k == 0 ==> t in s.canceled)
    && (step.MWant? || step.JWant? ==> MuWriteFree(s))
    && (step.JJoin? ==> step.loop in s.threads && s.threads[step.loop] == Watch(MDone))
    && (step.JStart? ==> 0 <= k && k !in s.threads && k !in s.health)
    && !step.MAgain?
  }

  ghost function At(s: Sys, t: nat, pc: Pc): Sys {
    s.(threads := s.threads[t := pc])
  }

  /** The admission checks of RegisterTenant and UnregisterTenant after `closed` was read. */
  ghost function Gate(s: Sys, tenant: int, refused: Pc, admitted: Pc): Pc {
    if s.closed || !ValidTenant(s.backend, tenant) then refused else admitted
  }

  /** The non-blocking send of call t into channel ch; sending on a closed channel panics. */
  ghost function TrySend(s: Sys, t: nat, tenant: int, ch: nat): (s': Sys)
    requires ch < |s.heap|
  {
    var c := s.heap[ch];
    if c.closes > 0 then s.(panicked := true)
    else if c.HasRoom() then
      At(s.(heap := s.heap[ch := c.(accepted := c.accepted + [t])]), t, SDone(tenant, Accepted(ch, |c.accepted|)))
    else At(s, t, SDone(tenant, RejectedFull))
  }

  /** Close a detached channel; closing it a second time panics. */
  ghost function CloseChan(s: Sys, ch: nat): (s': Sys)
  {
    if ch >= |s.heap| || s.heap[ch].closes > 0 then s.(panicked := true)
    else s.(heap := s.heap[ch := s.heap[ch].(closes := 1)], pending := s.pending - {ch})
  }

  ghost function Install(s: Sys, tenant: int, size: int): Sys {
    s.(table := s.table[tenant := |s.heap|],
       heap := s.heap + [Chan(tenant, Capacity(s.backend, size), [], 0, 0)])
  }

  ghost function Detach(s: Sys, t: nat, tenant: int): Sys
    requires tenant in s.table
  {
    s.(table := s.table - {tenant}, pending := s.pending[s.table[tenant] := t])
  }

  ghost function Chans(table: map<int, nat>): set<nat> {
    set i | i in table :: table[i]
  }

  ghost function DetachAll(s: Sys, t: nat): Sys {
    s.(table := map[], pending := s.pending + (map ch | ch in Chans(s.table) :: t), swept := true)
  }

  ghost function SendMove(s: Sys, t: nat): Sys
    requires t in s.threads && HeapShaped(s)
  {
    var pc := s.threads[t];
    if pc.SEnter? then
      if s.backend.Memory? then At(s, t, SGate(pc.tenant))
      else if s.closed then At(s, t, SDone(pc.tenant, RejectedFrozen))
      else At(s, t, SRoute(pc.tenant))
    else if pc.SGate? then
      if s.closed then At(s, t, SDone(pc.tenant, RejectedFrozen)) else At(s, t, SRoute(pc.tenant))
    else if pc.SRoute? then
      if pc.tenant != 0 then At(s, t, SLookup(pc.tenant))
      else if s.hasGlobal then TrySend(s, t, 0, 0)
      else At(s, t, SDone(0, if s.backend.Memory? then RejectedUnregistered else RejectedFull))
    else if pc.SLookup? then
      if pc.tenant in s.table then At(s, t, SSend(pc.tenant, s.table[pc.tenant]))
      else At(s, t, SDone(pc.tenant, RejectedUnregistered))
    else if pc.SSend? then
      if pc.ch < |s.heap| then TrySend(s, t, pc.tenant, pc.ch) else s.(panicked := true)
    else s
  }

  ghost function RegisterMove(s: Sys, t: nat): Sys
    requires t in s.threads
  {
    var pc := s.threads[t];
    if pc.REnter? then
      if s.backend.Memory? then At(s, t, RGate(pc.tenant, pc.size))
      else At(s, t, Gate(s, pc.tenant, RDone(false), RLock(pc.tenant, pc.size)))
    else if pc.RGate? then At(s, t, Gate(s, pc.tenant, RDone(false), RLock(pc.tenant, pc.size)))
    else if pc.RLock? then At(s, t, RInstall(pc.tenant, pc.size))
    else if pc.RInstall? then
      if (!s.backend.Memory? && s.closed) || pc.tenant in s.table then At(s, t, RDone(false))
      else At(Install(s, pc.tenant, pc.size), t, RDone(true))
    else s
  }

  ghost function UnregisterMove(s: Sys, t: nat): Sys
    requires t in s.threads
  {
    var pc := s.threads[t];
    if pc.UEnter? then
      if s.backend.Memory? then At(s, t, UGate(pc.tenant))
      else At(s, t, Gate(s, pc.tenant, UDone(false), ULock(pc.tenant)))
    else if pc.UGate? then At(s, t, Gate(s, pc.tenant, UDone(false), ULock(pc.tenant)))
    else if pc.ULock? then At(s, t, UDetach(pc.tenant))
    else if pc.UDetach? then
      if pc.tenant in s.table then At(Detach(s, t, pc.tenant), t, UClose(s.table[pc.tenant]))
      else At(s, t, UDone(false))
    else if pc.UClose? then At(CloseChan(s, pc.ch), t, UDone(true))
    else s
  }

  ghost function CloseMove(s: Sys, t: nat, k: int): Sys
    requires CanMove(s, t, k)
  {
    var pc := s.threads[t];
    if pc.CEnter? then
      if s.closer.None? then At(s.(closer := Some(t)), t, CStart) else At(s, t, CWait)
    else if pc.CStart? then At(s, t, CFreeze)
    else if pc.CFreeze? then At(s.(closed := true), t, if s.backend.Memory? then CLock else CMu)
    else if pc.CMu? then At(s, t, CStop({}))
    else if pc.CLock? then At(s, t, if s.backend.Memory? then CDetach else CSweep)
    else if pc.CDetach? then At(DetachAll(s, t), t, CStop(Chans(s.table)))
    else if pc.CSweep? then
      if s.table == map[] then At(s.(swept := true), t, CStore)
      else At(Detach(s, t, k), t, COne(s.table[k]))
    else if pc.COne? then At(CloseChan(s, pc.ch), t, CSweep)
    else if pc.CStop? then At(s.(stop := true), t, CJoin(pc.rem))
    else if pc.CJoin? then At(s, t, if s.backend.Memory? then CDrain(pc.rem) else CLock)
    else if pc.CDrain? then
      if pc.rem == {} then At(s, t, CStore) else At(CloseChan(s, k), t, CDrain(pc.rem - {k}))
    else if pc.CStore? then At(s.(terminal := Some(k)), t, CSignal)
    else if pc.CSignal? then At(s.(closeDone := true), t, CWait)
    else if pc.CWait? then At(s, t, CDone(if s.terminal.Some? then s.terminal.value else 0))
    else s
  }

  ghost function HealthMove(s: Sys, t: nat, k: int): Sys
    requires t in s.threads
  {
    var pc := s.threads[t];
    if pc.HIdle? then At(s, t, if k == 0 then HDone else HWant)
    else if pc.HWant? then At(s, t, HPublish)
    else if pc.HPublish? then At(s, t, HIdle)
    else if pc.HCall? then At(s, t, AfterCall(s, pc.call))
    else s
  }

  /** A Kafka ACK sender ends when its result is rejected as frozen; a NATS one goes on. */
  ghost function AfterCall(s: Sys, u: nat): Pc {
    if s.backend.Kafka? && u in s.threads && s.threads[u].SDone? && s.threads[u].outcome.RejectedFrozen? then HDone
    else HIdle
  }

  /** Among the other operations is Subscribe, which refuses on a closed bus and otherwise (k = 1) leaves
      a subscription that a reconnect restores. */
  ghost function OtherMove(s: Sys, t: nat, k: int): Sys
    requires t in s.threads
  {
    if s.threads[t].OWant? then At(s, t, OHold(s.threads[t].write))
    else if s.threads[t].OHold? then At(s.(subscribed := s.subscribed || (k == 1 && !s.closed)), t, ODone)
    else s
  }

  /** The health loop. Kafka takes `mu` for each attempt to reconnect, and for each subscription it
      restores; NATS keeps it for the whole of reconnect, which calls Subscribe once it is connected
      (k = 1) if there is a subscription. */
  function AfterLoop(b: Backend, closed: bool, subscribed: bool, step: WatchPc, k: int): WatchPc {
    if step.MIdle? then if k == 0 then MDone else MCheck
    else if step.MCheck? then if k == 0 then MIdle else MWant
    else if step.MWant? then MHold
    else if step.MHold? then
      if b.Kafka? then MPause else if !closed && k == 1 && subscribed then MAgain else MIdle
    else if step.MPause? then if k == 0 then MIdle else MWant
    else step
  }

  ghost function LoopMove(s: Sys, t: nat, step: WatchPc, k: int): Sys {
    At(s, t, Watch(AfterLoop(s.backend, s.closed, s.subscribed, step, k)))
  }

  /** StopHealthCheck and StartHealthCheck: without a loop there is nothing to stop. */
  ghost function StopMove(s: Sys, t: nat, step: WatchPc, k: int): Sys
    requires step.JStart? ==> 0 <= k
  {
    if step.JWant? && s.monitor.Some? then
      At(s.(canceled := s.canceled + {s.monitor.value}), t, Watch(JJoin(s.monitor.value, step.restart)))
    else if step.JWant? || (step.JJoin? && step.restart) then At(s, t, Watch(if step.restart then JStart else JDone))
    else if step.JJoin? then At(s.(monitor := None), t, Watch(JDone))
    else if step.JStart? then At(At(s.(monitor := Some(k)), k, Watch(MIdle)), t, Watch(JDone))
    else s
  }

  ghost function WatchMove(s: Sys, t: nat, k: int): Sys
    requires CanMove(s, t, k) && s.threads[t].Watch?
  {
    var step := s.threads[t].step;
    if OfLoop(step) then LoopMove(s, t, step, k) else StopMove(s, t, step, k)
  }

  predicate OfSend(pc: Pc) { pc.SEnter? || pc.SGate? || pc.SRoute? || pc.SLookup? || pc.SSend? || pc.SDone? }
  predicate OfRegister(pc: Pc) { pc.REnter? || pc.RGate? || pc.RLock? || pc.RInstall? || pc.RDone? }
  predicate OfUnregister(pc: Pc) { pc.UEnter? || pc.UGate? || pc.ULock? || pc.UDetach? || pc.UClose? || pc.UDone? }
  predicate OfHealth(pc: Pc) { pc.HIdle? || pc.HWant? || pc.HPublish? || pc.HCall? || pc.HDone? }
  predicate OfOther(pc: Pc) { pc.OWant? || pc.OHold? || pc.ODone? }
  predicate OfClose(pc: Pc) {
    !OfSend(pc) && !OfRegister(pc) && !OfUnregister(pc) && !OfHealth(pc) && !OfOther(pc) && !pc.Watch?
  }
  predicate OfLoop(step: WatchPc) {
    step.MIdle? || step.MCheck? || step.MWant? || step.MHold? || step.MAgain? || step.MPause? || step.MDone?
  }

  ghost predicate HeapShaped(s: Sys) {
    |s.heap| > 0 && forall i :: i in s.table ==> s.table[i] < |s.heap|
  }

  ghost predicate Enabled(s: Sys, e: Event) {
    match e
    case Start(t, pc) => t !in s.threads && t !in s.health && Entry(pc) && !(pc.Watch? && s.backend.Memory?)
    case Move(t, k) => CanMove(s, t, k) && HeapShaped(s)
    case Spawn(t, u, _) => t in s.threads && s.threads[t].HIdle? && !s.backend.Memory? && u !in s.threads && u !in s.health
    case Recv(ch) => ch < |s.heap| && s.heap[ch].taken < |s.heap[ch].accepted|
    case Cancel(_) => true
  }

  ghost function Begin(s: Sys, t: nat, pc: Pc): Sys {
    At(s.(late := if s.closed then s.late + {t} else s.late), t, pc)
  }

  ghost function Fire(s: Sys, e: Event): Sys
    requires Enabled(s, e)
  {
    match e
    case Start(t, pc) => Begin(s, t, pc)
    case Spawn(t, u, tenant) => At(Begin(s, u, SEnter(tenant)), t, HCall(u))
    case Move(t, k) =>
      var pc := s.threads[t];
      if OfSend(pc) then SendMove(s, t)
      else if OfRegister(pc) then RegisterMove(s, t)
      else if OfUnregister(pc) then UnregisterMove(s, t)
      else if OfHealth(pc) then HealthMove(s, t, k)
      else if OfOther(pc) then OtherMove(s, t, k)
      else if pc.Watch? then WatchMove(s, t, k)
      else CloseMove(s, t, k)
    case Recv(ch) => s.(heap := s.heap[ch := s.heap[ch].(taken := s.heap[ch].taken + 1)])
    case Cancel(t) => s.(canceled := s.canceled + {t})
  }

  ghost function Apply(s: Sys, e: Event): Sys {
    if Enabled(s, e) then Fire(s, e) else s
  }

  ghost function Exec(s: Sys, schedule: seq<Event>): Sys
    decreases |schedule|
  {
    if schedule == [] then s else Exec(Apply(s, schedule[0]), schedule[1..])
  }

  ghost function Init(backend: Backend, hasGlobal: bool, globalCapacity: nat, health: set<nat>): Sys {
    Sys(backend, hasGlobal, health, false, map[], [Chan(0, globalCapacity, [], 0, 0)],
        map t | t in health :: HIdle, None, {}, false, None, false, None, false, false, map[], false, {})
  }
}
