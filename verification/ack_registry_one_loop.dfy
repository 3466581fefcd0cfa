/** What StartHealthCheck and StopHealthCheck of the Kafka and NATS bus achieve when they return: there is
    never more than one health loop, and after a stop there is none. */
module AckRegistryOneLoop {
  import opened Wrappers
  import opened AckRegistryModel
  import opened AckRegistryInvariants
  import opened AckRegistryTheorems
  import opened AckRegistryHealthLoop

  predicate Running(pc: Pc) {
    IsLoop(pc) && !pc.step.MDone?
  }

  /** No health loop is under way. */
  ghost predicate NoneRuns(threads: Threads) {
    forall l :: l in threads ==> !Running(threads[l])
  }

  /** The loop that runs is the one a stop would stop; who joins a loop joins that one; who is about to start
      a loop has none running; and loops end only when they are canceled. */
  ghost predicate OneLoop(threads: Threads, monitor: Option<nat>, canceled: set<nat>) {
    && (forall l :: l in threads && Running(threads[l]) ==> monitor == Some(l))
    && (forall t :: t in threads && Joins(threads[t]) ==> monitor == Some(threads[t].step.loop))
    && (forall t, l :: t in threads && threads[t] == Watch(JStart) && l in threads ==> !Running(threads[l]))
    && (forall l :: l in threads && threads[l] == Watch(MDone) ==> l in canceled)
  }

  ghost predicate Single(s: Sys) {
    OneLoop(s.threads, s.monitor, s.canceled)
  }

  lemma BesideSingle(s: Sys, s': Sys, t: nat)
    requires Single(s) && Beside(s, s', t)
    ensures Single(s')
  {
  }

  lemma EntrySingle(threads: Threads, monitor: Option<nat>, canceled: set<nat>, t: nat, pc: Pc)
    requires OneLoop(threads, monitor, canceled) && !(t in threads && threads[t].Watch?)
    requires !pc.Watch? || pc.step.JWant?
    ensures OneLoop(threads[t := pc], monitor, canceled)
  {
  }

  lemma LoopSingle(threads: Threads, monitor: Option<nat>, canceled: set<nat>, l: nat, step: WatchPc)
    requires OneLoop(threads, monitor, canceled) && l in threads && Running(threads[l])
    requires OfLoop(step) && (step.MDone? ==> l in canceled)
    ensures OneLoop(threads[l := Watch(step)], monitor, canceled)
  {
  }

  /** Only the caller that holds `mu` is between its first and its last step. */
  ghost predicate Alone(threads: Threads, t: nat) {
    forall u :: u in threads && u != t ==> !Joins(threads[u]) && threads[u] != Watch(JStart)
  }

  lemma HolderIsAlone(s: Sys, t: nat)
    requires LocksOk(s.backend, s.threads) && !s.backend.Memory? && t in s.threads
    requires HoldsMuW(s.backend, s.threads[t]) || MuWriteFree(s)
    ensures Alone(s.threads, t)
  {
  }

  lemma CancelSingle(threads: Threads, monitor: Option<nat>, canceled: set<nat>, t: nat, restart: bool)
    requires OneLoop(threads, monitor, canceled) && t in threads && threads[t] == Watch(JWant(restart)) && monitor.Some?
    ensures OneLoop(threads[t := Watch(JJoin(monitor.value, restart))], monitor, canceled + {monitor.value})
  {
  }

  lemma NoneSingle(threads: Threads, monitor: Option<nat>, canceled: set<nat>, t: nat, step: WatchPc)
    requires OneLoop(threads, monitor, canceled) && t in threads && threads[t].Watch? && !OfLoop(threads[t].step)
    requires (step.JStart? && NoneRuns(threads)) || step.JDone?
    ensures OneLoop(threads[t := Watch(step)], monitor, canceled)
  {
  }

  lemma JoinedSingle(threads: Threads, monitor: Option<nat>, canceled: set<nat>, t: nat)
    requires OneLoop(threads, monitor, canceled) && Alone(threads, t) && t in threads && Joins(threads[t])
    requires NoneRuns(threads)
    ensures OneLoop(threads[t := Watch(JDone)], None, canceled)
  {
  }

  lemma StartSingle(threads: Threads, monitor: Option<nat>, canceled: set<nat>, t: nat, k: nat)
    requires OneLoop(threads, monitor, canceled) && Alone(threads, t) && t in threads && threads[t] == Watch(JStart) && k !in threads
    ensures OneLoop(threads[k := Watch(MIdle)][t := Watch(JDone)], Some(k), canceled)
  {
  }

  /** A loop that was joined has ended, and it was the only one. */
  lemma JoinedMeansNone(s: Sys, t: nat)
    requires Single(s) && t in s.threads && Joins(s.threads[t])
    requires var l := s.threads[t].step.loop; l in s.threads && s.threads[l] == Watch(MDone)
    ensures NoneRuns(s.threads)
  {
  }

  lemma StopSomeSingle(s: Sys, t: nat)
    requires Single(s) && t in s.threads && s.threads[t].Watch? && s.threads[t].step.JWant? && s.monitor.Some?
    ensures Single(StopMove(s, t, s.threads[t].step, 0))
  {
    hide OneLoop, NoneRuns, Running;
    CancelSingle(s.threads, s.monitor, s.canceled, t, s.threads[t].step.restart);
  }

  lemma StopNoneSingle(s: Sys, t: nat)
    requires Single(s) && t in s.threads && s.threads[t].Watch? && s.threads[t].step.JWant? && s.monitor.None?
    ensures Single(StopMove(s, t, s.threads[t].step, 0))
  {
    hide OneLoop, NoneRuns, Running;
    NoMonitorNoLoop(s);
    NoneSingle(s.threads, s.monitor, s.canceled, t, if s.threads[t].step.restart then JStart else JDone);
  }

  lemma JoinRestartSingle(s: Sys, t: nat)
    requires Single(s) && t in s.threads && Joins(s.threads[t]) && s.threads[t].step.restart && NoneRuns(s.threads)
    ensures Single(StopMove(s, t, s.threads[t].step, 0))
  {
    hide OneLoop, NoneRuns;
    NoneSingle(s.threads, s.monitor, s.canceled, t, JStart);
  }

  lemma JoinStopSingle(s: Sys, t: nat)
    requires Single(s) && t in s.threads && Joins(s.threads[t]) && !s.threads[t].step.restart && NoneRuns(s.threads)
    requires Alone(s.threads, t)
    ensures Single(StopMove(s, t, s.threads[t].step, 0))
  {
    hide OneLoop, NoneRuns, Alone;
    JoinedSingle(s.threads, s.monitor, s.canceled, t);
  }

  lemma StopSingle(s: Sys, t: nat, k: int)
    requires Single(s) && Watched(s) && LocksOk(s.backend, s.threads)
    requires CanMove(s, t, k) && s.threads[t].Watch? && !OfLoop(s.threads[t].step)
    ensures Single(StopMove(s, t, s.threads[t].step, k))
  {
    hide OneLoop, LocksOk, WatchOk, MuWriteFree, Alone;
    var step := s.threads[t].step;
    MemoryHasNoLoop(s, t);
    if step.JWant? {
      if s.monitor.Some? {
        StopSomeSingle(s, t);
      } else {
        StopNoneSingle(s, t);
      }
    } else if step.JJoin? {
      HolderIsAlone(s, t);
      JoinedMeansNone(s, t);
      if step.restart {
        JoinRestartSingle(s, t);
      } else {
        JoinStopSingle(s, t);
      }
    } else if step.JStart? {
      HolderIsAlone(s, t);
      StartSingle(s.threads, s.monitor, s.canceled, t, k);
    }
  }

  lemma NoMonitorNoLoop(s: Sys)
    requires Single(s) && s.monitor.None?
    ensures NoneRuns(s.threads)
  {
  }

  lemma MoreCanceledSingle(threads: Threads, monitor: Option<nat>, canceled: set<nat>, l: nat)
    requires OneLoop(threads, monitor, canceled)
    ensures OneLoop(threads, monitor, canceled + {l})
  {
  }

  lemma FireSingle(s: Sys, e: Event)
    requires Single(s) && Watched(s) && LocksOk(s.backend, s.threads) && Enabled(s, e)
    ensures Single(Fire(s, e))
  {
    hide OneLoop, LocksOk, WatchOk, MuWriteFree, SendMove, RegisterMove, UnregisterMove, CloseMove, HealthMove, OtherMove, StopMove;
    match e
    case Start(t, pc) => EntrySingle(s.threads, s.monitor, s.canceled, t, pc);
    case Spawn(t, u, tenant) =>
      EntrySingle(s.threads, s.monitor, s.canceled, u, SEnter(tenant));
      EntrySingle(s.threads[u := SEnter(tenant)], s.monitor, s.canceled, t, HCall(u));
    case Recv(ch) =>
    case Cancel(l) => MoreCanceledSingle(s.threads, s.monitor, s.canceled, l);
    case Move(t, k) =>
      if !s.threads[t].Watch? {
        MoveBeside(s, t, k);
        BesideSingle(s, Fire(s, e), t);
      } else if OfLoop(s.threads[t].step) {
        LoopSingle(s.threads, s.monitor, s.canceled, t, AfterLoop(s.backend, s.closed, s.subscribed, s.threads[t].step, k));
      } else {
        StopSingle(s, t, k);
      }
  }

  lemma InvLocks(s: Sys)
    requires Inv(s)
    ensures LocksOk(s.backend, s.threads)
  {
    hide LocksOk, TableOk, ChansOk, OwnersOk, RoutesOk, GatesOk, CloserOk, SweptOk, HealthOk, StopOk, AcceptedOk, LateOk;
  }

  lemma {:induction false} ExecSingle(s: Sys, schedule: seq<Event>)
    requires Inv(s) && Watched(s) && Single(s)
    ensures Single(Exec(s, schedule))
    decreases |schedule|
  {
    hide Inv, Watched, Single, Enabled, Fire;
    if schedule != [] {
      if Enabled(s, schedule[0]) {
        InvLocks(s);
        FireSingle(s, schedule[0]);
        FireKeeps(s, schedule[0]);
        WatchFireKeeps(s, schedule[0]);
      }
      ExecSingle(Apply(s, schedule[0]), schedule[1..]);
    }
  }

  lemma {:induction false} ReachedSingle(b: Backend, hasGlobal: bool, capacity: nat, health: set<nat>, schedule: seq<Event>)
    ensures Single(Reached(b, hasGlobal, capacity, health, schedule))
  {
    InitInv(b, hasGlobal, capacity, health);
    ExecSingle(Init(b, hasGlobal, capacity, health), schedule);
  }

  /** In every run at most one health loop has not ended, and it is the one that StopHealthCheck would stop;
      a loop that was not canceled has not ended. */
  lemma {:induction false} OneLoopRuns(b: Backend, hasGlobal: bool, capacity: nat, health: set<nat>, schedule: seq<Event>, l: nat, s: Sys)
    requires s == Reached(b, hasGlobal, capacity, health, schedule) && l in s.threads && IsLoop(s.threads[l])
    ensures s.threads[l] != Watch(MDone) ==> s.monitor == Some(l) && forall m :: m in s.threads && Running(s.threads[m]) ==> m == l
    ensures l !in s.canceled ==> s.threads[l] != Watch(MDone)
  {
    ReachedSingle(b, hasGlobal, capacity, health, schedule);
  }

  lemma StopApplied(s: Sys, j: nat, k: int)
    requires Inv(s) && CanMove(s, j, k) && s.threads[j].Watch? && !OfLoop(s.threads[j].step)
    ensures Apply(s, Move(j, k)) == StopMove(s, j, s.threads[j].step, k)
  {
    hide LocksOk, ChansOk, OwnersOk, RoutesOk, GatesOk, CloserOk, SweptOk, HealthOk, StopOk, AcceptedOk, LateOk, CanMove, StopMove;
  }

  lemma NoneWith(threads: Threads, j: nat, step: WatchPc)
    requires NoneRuns(threads) && !OfLoop(step)
    ensures NoneRuns(threads[j := Watch(step)])
  {
  }

  lemma StoppedAt(s: Sys, j: nat, k: int)
    requires j in s.threads && s.threads[j].Watch?
    requires s.threads[j].step.JJoin? || (s.threads[j].step.JWant? && s.monitor.None?)
    ensures StopMove(s, j, s.threads[j].step, k).threads
         == s.threads[j := Watch(if s.threads[j].step.restart then JStart else JDone)]
    ensures !s.threads[j].step.restart ==> StopMove(s, j, s.threads[j].step, k).monitor.None?
  {
  }

  lemma StartedAt(s: Sys, j: nat, k: nat)
    requires Single(s) && j in s.threads && s.threads[j] == Watch(JStart) && k !in s.threads
    ensures var s' := StopMove(s, j, JStart, k);
            && s'.threads == s.threads[k := Watch(MIdle)][j := Watch(JDone)] && s'.monitor == Some(k)
            && forall l :: l in s'.threads && Running(s'.threads[l]) <==> l == k
  {
  }

  lemma StarterFacts(s: Sys, j: nat, k: int)
    requires CanMove(s, j, k) && s.threads[j] == Watch(JStart)
    ensures j in s.threads && 0 <= k && k !in s.threads
  {
    hide MuReadFree, MuWriteFree, TcReadFree, TcWriteFree, HealthJoined;
  }

  /** StopHealthCheck that finds no loop, or has joined it, returns with no loop running, and so does
      StartHealthCheck go on to its last step. */
  lemma {:induction false} StopLeavesNone(b: Backend, hasGlobal: bool, capacity: nat, health: set<nat>, schedule: seq<Event>,
                                          j: nat, k: int, s: Sys)
    requires s == Reached(b, hasGlobal, capacity, health, schedule)
    requires CanMove(s, j, k) && s.threads[j].Watch?
    requires s.threads[j].step.JJoin? || (s.threads[j].step.JWant? && s.monitor.None?)
    ensures var s' := Apply(s, Move(j, k));
            && j in s'.threads && s'.threads[j] == Watch(if s.threads[j].step.restart then JStart else JDone)
            && NoneRuns(s'.threads)
            && (!s.threads[j].step.restart ==> s'.monitor.None?)
  {
    hide Inv, LocksOk, MuWriteFree, Reached, Apply, StopMove, Running, OneLoop;
    ReachedSingle(b, hasGlobal, capacity, health, schedule);
    ReachedInv(b, hasGlobal, capacity, health, schedule);
    StopApplied(s, j, k);
    StoppedAt(s, j, k);
    if s.threads[j].step.JJoin? {
      JoinedMeansNone(s, j);
    } else {
      NoMonitorNoLoop(s);
    }
    NoneWith(s.threads, j, if s.threads[j].step.restart then JStart else JDone);
  }

  /** When StartHealthCheck returns, the loop it started is the one that runs and the only one. */
  lemma {:induction false} StartLeavesOne(b: Backend, hasGlobal: bool, capacity: nat, health: set<nat>, schedule: seq<Event>,
                                          j: nat, k: int, s: Sys)
    requires s == Reached(b, hasGlobal, capacity, health, schedule)
    requires CanMove(s, j, k) && s.threads[j] == Watch(JStart)
    ensures var s' := Apply(s, Move(j, k));
            && j in s'.threads && s'.threads[j] == Watch(JDone) && s'.monitor == Some(k)
            && forall l :: l in s'.threads && Running(s'.threads[l]) <==> l == k
  {
    hide Inv, CanMove, Reached, Apply, StopMove, OneLoop, Running;
    ReachedSingle(b, hasGlobal, capacity, health, schedule);
    ReachedInv(b, hasGlobal, capacity, health, schedule);
    StarterFacts(s, j, k);
    StopApplied(s, j, k);
    StartedAt(s, j, k);
  }

  lemma HolderLeaves(s: Sys, l: nat, step: WatchPc)
    requires LocksOk(s.backend, s.threads) && !s.backend.Memory? && l in s.threads && HoldsMuW(s.backend, s.threads[l])
    requires !WatchHoldsMu(step)
    ensures MuWriteFree(At(s, l, Watch(step)))
  {
  }

  lemma LoopApplied(s: Sys, l: nat, k: int)
    requires Inv(s) && CanMove(s, l, k) && IsLoop(s.threads[l])
    ensures Apply(s, Move(l, k)) == LoopMove(s, l, s.threads[l].step, k)
  {
    hide LocksOk, ChansOk, OwnersOk, RoutesOk, GatesOk, CloserOk, SweptOk, HealthOk, StopOk, AcceptedOk, LateOk, CanMove, LoopMove;
  }

  lemma PausedMoves(s: Sys, l: nat, k: int)
    requires Inv(s) && l in s.threads && s.threads[l] == Watch(MPause) && MuWriteFree(s)
    ensures CanMove(s, l, k)
  {
    hide LocksOk, TableOk, ChansOk, OwnersOk, RoutesOk, GatesOk, CloserOk, SweptOk, HealthOk, StopOk, AcceptedOk, LateOk;
  }

  /** An attempt of the Kafka loop to reconnect releases `mu` when it is over, and the loop can want it again
      for the next attempt without another health check in between; a NATS reconnect that has nothing to
      restore releases it too and the loop waits for its next tick. */
  lemma {:induction false} AttemptsReleaseMu(b: Backend, hasGlobal: bool, capacity: nat, health: set<nat>, schedule: seq<Event>,
                                             l: nat, k: int, s: Sys)
    requires s == Reached(b, hasGlobal, capacity, health, schedule)
    requires CanMove(s, l, k) && s.threads[l] == Watch(MHold)
    requires b.Kafka? || !s.subscribed || s.closed || k != 1
    ensures var s' := Apply(s, Move(l, k));
            && MuWriteFree(s') && l in s'.threads
            && (b.Nats? ==> s'.threads[l] == Watch(MIdle))
            && (b.Kafka? ==>
                  && Apply(s', Move(l, 1)).threads == s'.threads[l := Watch(MWant)]
                  && Apply(s', Move(l, 0)).threads == s'.threads[l := Watch(MIdle)])
  {
    hide Inv, LocksOk, WatchOk, MuWriteFree, Reached, Apply;
    ReachedInv(b, hasGlobal, capacity, health, schedule);
    ReachedWatch(b, hasGlobal, capacity, health, schedule);
    MemoryHasNoLoop(s, l);
    InvLocks(s);
    LoopApplied(s, l, k);
    var s' := Apply(s, Move(l, k));
    HolderLeaves(s, l, if b.Kafka? then MPause else MIdle);
    if b.Kafka? {
      ExecOne(s, Move(l, k));
      PausedMoves(s', l, 1);
      PausedMoves(s', l, 0);
      LoopApplied(s', l, 1);
      LoopApplied(s', l, 0);
    }
  }

  lemma ExecOne(s: Sys, e: Event)
    requires Inv(s)
    ensures Inv(Apply(s, e))
  {
    hide Inv, Enabled, Fire;
    if Enabled(s, e) {
      FireKeeps(s, e);
    }
  }
}
