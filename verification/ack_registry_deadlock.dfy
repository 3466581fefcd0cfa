/** Circular waits of the bus: when there is one, that it lasts for good, and progress otherwise. */
module AckRegistryDeadlock {
  import opened Wrappers
  import opened AckRegistryModel
  import opened AckRegistryInvariants
  import opened AckRegistryTheorems
  import opened AckRegistryHealthLoop

  // ---------------------------------------------------------------- who waits for whom

  /** An ACK sender that waits for the broker's next answer, and a health loop that waits for its next
      tick, wait for nobody here. */
  predicate Resting(s: Sys, t: nat)
    requires t in s.threads
  {
    || (!s.backend.Memory? && s.threads[t].HIdle? && !s.stop)
    || (s.threads[t] == Watch(MIdle) && t !in s.canceled)
  }

  /** The calls that read `mu` in the memory bus, and those that write it or want the mutex. */
  predicate Reads(pc: Pc) {
    pc.SEnter? || pc.REnter? || pc.UEnter? || pc.HWant? || (pc.OWant? && !pc.write)
  }

  predicate Writes(pc: Pc) {
    pc.CStart? || (pc.OWant? && pc.write)
  }

  predicate WantsMutex(pc: Pc) {
    pc.CMu? || pc.OWant? || (pc.Watch? && (pc.step.MWant? || pc.step.MAgain? || pc.step.JWant?))
  }

  /** A call at `other` holds a lock that one at `pc` wants, or it is a writer already waiting for a
      read-write lock that the one at `pc` wants to read: readers queue behind waiting writers. */
  predicate LocksBlock(b: Backend, pc: Pc, other: Pc) {
    MuBlocks(b, pc, other) || TcBlocks(pc, other)
  }

  predicate MuBlocks(b: Backend, pc: Pc, other: Pc) {
    || (b.Memory? && Reads(pc) && (HoldsMuW(b, other) || Writes(other)))
    || (b.Memory? && Writes(pc) && (HoldsMuW(b, other) || HoldsMuR(b, other)))
    || (!b.Memory? && WantsMutex(pc) && HoldsMuW(b, other))
  }

  predicate TcBlocks(pc: Pc, other: Pc) {
    || (pc.SRoute? && pc.tenant != 0 && (HoldsTcW(other) || other.RLock? || other.ULock? || other.CLock?))
    || ((pc.RLock? || pc.ULock? || pc.CLock?) && (HoldsTcW(other) || HoldsTcR(other)))
  }

  /** Call u keeps call t from moving: by a lock, or because t waits for its end. A call that wants a
      mutex it holds blocks itself. */
  ghost predicate Blocks(s: Sys, u: nat, t: nat) {
    && u in s.threads && t in s.threads
    && var pc, other := s.threads[t], s.threads[u];
       (|| LocksBlock(s.backend, pc, other)
        || (pc.HCall? && u == pc.call && !other.SDone?)
        || (pc.CJoin? && u in s.health && !other.HDone?)
        || (Joins(pc) && u == pc.step.loop && other != Watch(MDone))
        || (pc.CWait? && !s.closeDone && s.closer == Some(u)))
  }

  /** Calls of which each waits for one of them. */
  ghost predicate Circle(s: Sys, c: set<nat>) {
    (exists t :: t in c) && forall t :: t in c ==> exists u :: u in c && Blocks(s, u, t)
  }

  /** StopHealthCheck or StartHealthCheck holds `mu` and waits for the end of a health loop that wants
      `mu` to reconnect; or a NATS reconnect wants `mu` while it holds it. */
  ghost predicate Jam(s: Sys, j: nat, l: nat) {
    && j in s.threads && l in s.threads
    && ((Joins(s.threads[j]) && s.threads[j].step.loop == l && s.threads[l] == Watch(MWant))
        || (j == l && s.threads[l] == Watch(MAgain)))
  }

  ghost predicate Jammed(s: Sys) {
    exists j, l :: Jam(s, j, l)
  }

  /** How far a waiting call can be from one that moves. */
  function Rank(b: Backend, pc: Pc): nat {
    if pc.CWait? then 7
    else if b.Memory? && Writes(pc) then 2
    else if WantsMutex(pc) then 6
    else if pc.CJoin? then 5
    else if pc.HCall? then 4
    else if pc.SEnter? || pc.REnter? || pc.UEnter? || pc.HWant? then 3
    else if pc.SRoute? || pc.CStart? then 2
    else if pc.RLock? || pc.ULock? || pc.CLock? || Joins(pc) then 1
    else 0
  }

  // ---------------------------------------------------------------- without a jam somebody moves

  /** Whoever blocks a call is unfinished and ranks below it. In the memory bus this hinges on Close
      joining the health-check loops (rank 5) after it has released `mu`, which those loops want
      (rank 3). The Kafka and NATS bus keep `mu` while they join the ACK senders; there it hinges on a
      sender and the send it runs (ranks 4 to 2) never wanting `mu`. They also keep it while they join
      their health loop (rank 1), and that one may want it (rank 6): hence the condition. */
  lemma BlockersRankLower(s: Sys, u: nat, t: nat)
    requires CloserOk(s.backend, s.threads, s.closer, s.closed, s.swept, s.terminal, s.closeDone)
    requires HealthOk(s.threads, s.health) && StopOk(s.threads, s.stop) && Watched(s)
    requires Blocks(s, u, t) && !Jammed(s)
    ensures Rank(s.backend, s.threads[u]) < Rank(s.backend, s.threads[t]) && !Finished(s.threads[u]) && !Resting(s, u)
  {
    hide MuBlocks, TcBlocks, Rank, CloserOk, HealthOk, StopOk, WatchOk;
    assert !Jam(s, t, u) && !Jam(s, u, u);
    if MuBlocks(s.backend, s.threads[t], s.threads[u]) {
      MuHoldersRankLower(s.backend, s.threads[t], s.threads[u]);
    } else if TcBlocks(s.threads[t], s.threads[u]) {
      TcHoldersRankLower(s.backend, s.threads[t], s.threads[u]);
    } else if s.threads[t].HCall? {
      CallRanksLower(s, t);
    } else if s.threads[t].CJoin? {
      JoinedRanksLower(s, u, t);
    } else if Joins(s.threads[t]) {
      LoopRanksLower(s, t);
    } else {
      CloserRanksLower(s, u, t);
    }
  }

  lemma MuHoldersRankLower(b: Backend, pc: Pc, other: Pc)
    requires MuBlocks(b, pc, other) && other != Watch(MAgain)
    ensures Rank(b, other) < Rank(b, pc) && !Finished(other) && !other.HIdle? && other != Watch(MIdle)
  {
    hide Rank;
    if b.Memory? {
      RWHoldersRankLower(b, pc, other);
    } else {
      MutexHolderRanksLower(b, pc, other);
    }
  }

  lemma RWHoldersRankLower(b: Backend, pc: Pc, other: Pc)
    requires MuBlocks(b, pc, other) && b.Memory?
    ensures Rank(b, other) < Rank(b, pc) && !Finished(other) && !other.HIdle? && other != Watch(MIdle)
  {
  }

  lemma MutexHolderRanksLower(b: Backend, pc: Pc, other: Pc)
    requires WantsMutex(pc) && HoldsMuW(b, other) && !b.Memory? && other != Watch(MAgain)
    ensures Rank(b, other) <= 5 && Rank(b, pc) == 6 && !Finished(other) && !other.HIdle? && other != Watch(MIdle)
  {
  }

  lemma TcHoldersRankLower(b: Backend, pc: Pc, other: Pc)
    requires TcBlocks(pc, other)
    ensures Rank(b, other) < Rank(b, pc) && !Finished(other) && !other.HIdle? && other != Watch(MIdle)
  {
  }

  lemma CallRanksLower(s: Sys, t: nat)
    requires HealthOk(s.threads, s.health) && t in s.threads && s.threads[t].HCall?
    ensures var u := s.threads[t].call;
            u in s.threads && OfSend(s.threads[u]) && Rank(s.backend, s.threads[u]) < Rank(s.backend, s.threads[t])
  {
    assert RunsSend(s.threads, s.threads[t].call);
  }

  lemma JoinedRanksLower(s: Sys, u: nat, t: nat)
    requires HealthOk(s.threads, s.health) && StopOk(s.threads, s.stop)
    requires t in s.threads && s.threads[t].CJoin? && u in s.health
    ensures u in s.threads && OfHealth(s.threads[u]) && s.stop && Rank(s.backend, s.threads[u]) < Rank(s.backend, s.threads[t])
  {
  }

  lemma LoopRanksLower(s: Sys, t: nat)
    requires Watched(s) && t in s.threads && Joins(s.threads[t])
    requires !Jam(s, t, s.threads[t].step.loop) && !Jam(s, s.threads[t].step.loop, s.threads[t].step.loop)
    ensures var l := s.threads[t].step.loop;
            l in s.threads && IsLoop(s.threads[l]) && l in s.canceled && Rank(s.backend, s.threads[l]) < Rank(s.backend, s.threads[t])
  {
    assert Loops(s.threads, s.threads[t].step.loop);
  }

  /** Whoever waits for the one teardown is behind every step of it. */
  lemma CloserRanksLower(s: Sys, u: nat, t: nat)
    requires CloserOk(s.backend, s.threads, s.closer, s.closed, s.swept, s.terminal, s.closeDone)
    requires t in s.threads && s.threads[t].CWait? && !s.closeDone && s.closer == Some(u)
    ensures u in s.threads && InClose(s.threads[u]) && Rank(s.backend, s.threads[u]) < Rank(s.backend, s.threads[t])
  {
  }

  lemma AnyKey(table: map<int, nat>) returns (k: int)
    ensures k in table || table == map[]
  {
    k := 0;
    if exists i: int :: i in table {
      k :| k in table;
    }
  }

  lemma {:induction false} FreshNumber(used: set<nat>) returns (k: nat)
    ensures forall x :: x in used ==> x < k
  {
    k := 0;
    if exists x: nat :: x in used {
      var x: nat :| x in used;
      var above := FreshNumber(used - {x});
      k := if above <= x then x + 1 else above;
      forall y | y in used ensures y < k {
        assert y == x || y in used - {x};
      }
    }
  }

  /** A call that nobody blocks can take its next step. */
  lemma UnblockedMoves(s: Sys, t: nat) returns (k: int)
    requires Inv(s) && t in s.threads && !Finished(s.threads[t]) && !Resting(s, t) && !Jammed(s) && Watched(s)
    requires forall u :: u in s.threads ==> !Blocks(s, u, t)
    ensures CanMove(s, t, k)
  {
    hide Inv, Blocks, Jammed, Watched, MuReadFree, MuWriteFree, TcReadFree, TcWriteFree, HealthJoined;
    var pc := s.threads[t];
    k := Choice(s, t);
    LocksAreFree(s, t);
    EndsAreReached(s, t);
  }

  /** The step that an unblocked call takes: a loop that is told to stop does so. */
  lemma Choice(s: Sys, t: nat) returns (k: int)
    requires t in s.threads
    ensures s.threads[t].CSweep? && s.table != map[] ==> k in s.table
    ensures s.threads[t].CDrain? && s.threads[t].rem != {} ==> k in s.threads[t].rem
    ensures s.threads[t].HIdle? ==> k == if s.backend.Memory? then 1 else 0
    ensures s.threads[t] == Watch(MIdle) ==> k == 0
    ensures s.threads[t] == Watch(JStart) ==> 0 <= k && k !in s.threads && k !in s.health
  {
    var pc := s.threads[t];
    k := if pc.HIdle? && s.backend.Memory? then 1 else 0;
    if pc.CSweep? && s.table != map[] {
      k := AnyKey(s.table);
    } else if pc.CDrain? && pc.rem != {} {
      var c: nat :| c in pc.rem;
      k := c;
    } else if pc == Watch(JStart) {
      k := FreshNumber(s.threads.Keys + s.health);
      assert k !in s.threads.Keys + s.health;
    }
  }

  lemma LocksAreFree(s: Sys, t: nat)
    requires t in s.threads && forall u :: u in s.threads ==> !Blocks(s, u, t)
    ensures var pc := s.threads[t];
            && (s.backend.Memory? && Reads(pc) ==> MuReadFree(s))
            && (s.backend.Memory? && Writes(pc) ==> MuWriteFree(s))
            && (!s.backend.Memory? && WantsMutex(pc) ==> MuWriteFree(s))
            && (pc.SRoute? && pc.tenant != 0 ==> TcReadFree(s))
            && (pc.RLock? || pc.ULock? || pc.CLock? ==> TcWriteFree(s))
  {
  }

  /** What an unblocked call waits for has happened. */
  lemma EndsAreReached(s: Sys, t: nat)
    requires Inv(s) && Watched(s) && !Jammed(s) && t in s.threads && forall u :: u in s.threads ==> !Blocks(s, u, t)
    ensures var pc := s.threads[t];
            && (pc.CJoin? ==> HealthJoined(s))
            && (pc.CWait? ==> s.closeDone)
            && (pc.HCall? ==> pc.call in s.threads && s.threads[pc.call].SDone?)
            && (Joins(pc) ==> pc.step.loop in s.threads && s.threads[pc.step.loop] == Watch(MDone))
            && pc != Watch(MAgain)
            && (pc.Watch? ==> !s.backend.Memory?)
            && !s.panicked
  {
    hide LocksOk, TableOk, ChansOk, OwnersOk, RoutesOk, GatesOk, SweptOk, AcceptedOk, LateOk;
    var pc := s.threads[t];
    assert !Jam(s, t, t);
    if pc.HCall? {
      assert RunsSend(s.threads, pc.call);
      assert !Blocks(s, pc.call, t);
    } else if Joins(pc) {
      assert Loops(s.threads, pc.step.loop);
      assert !Blocks(s, pc.step.loop, t);
    } else if pc.CWait? && s.closer != Some(t) {
      assert !Blocks(s, s.closer.value, t);
    }
  }

  /** Behind every unfinished call, however deep the waiting, there is a call that nobody blocks and
      that can take its next step. */
  lemma {:induction false} SomebodyMoves(s: Sys, t: nat) returns (u: nat, k: int)
    requires Inv(s) && Watched(s) && !Jammed(s) && t in s.threads && !Finished(s.threads[t]) && !Resting(s, t)
    ensures CanMove(s, u, k) && (forall v :: v in s.threads ==> !Blocks(s, v, u))
    ensures u == t || Rank(s.backend, s.threads[u]) < Rank(s.backend, s.threads[t])
    decreases Rank(s.backend, s.threads[t])
  {
    if exists v: nat :: Blocks(s, v, t) {
      var v: nat :| Blocks(s, v, t);
      BlockersRankLower(s, v, t);
      u, k := SomebodyMoves(s, v);
    } else {
      u := t;
      k := UnblockedMoves(s, t);
    }
  }

  /** No deadlock: in every reachable state that is not jammed, behind every unfinished call there is one
      that nobody blocks and that can take its next step. The memory bus is never jammed. */
  lemma {:induction false} NoDeadlock(b: Backend, hasGlobal: bool, capacity: nat, health: set<nat>, schedule: seq<Event>, t: nat)
    requires var s := Reached(b, hasGlobal, capacity, health, schedule);
             t in s.threads && !Finished(s.threads[t]) && !Resting(s, t) && (!b.Memory? ==> !Jammed(s))
    ensures var s := Reached(b, hasGlobal, capacity, health, schedule);
            exists u, k :: CanMove(s, u, k) && (forall v :: v in s.threads ==> !Blocks(s, v, u))
                           && (u == t || Rank(b, s.threads[u]) < Rank(b, s.threads[t]))
  {
    hide Inv, Watched, Blocks, CanMove;
    var s := Reached(b, hasGlobal, capacity, health, schedule);
    ReachedWatch(b, hasGlobal, capacity, health, schedule);
    MemoryIsNeverJammed(s);
    var u, k := SomebodyMoves(s, t);
  }

  lemma MemoryIsNeverJammed(s: Sys)
    requires Watched(s)
    ensures s.backend.Memory? ==> !Jammed(s)
  {
  }

  // ---------------------------------------------------------------- circular waits are jams

  lemma {:induction false} NoCircle(s: Sys, c: set<nat>, t: nat)
    requires Inv(s) && Watched(s) && !Jammed(s) && t in c && t in s.threads
    ensures !Circle(s, c)
    decreases Rank(s.backend, s.threads[t])
  {
    hide LocksOk, TableOk, ChansOk, OwnersOk, RoutesOk, GatesOk, SweptOk, AcceptedOk, LateOk, Jammed, Watched;
    if Circle(s, c) {
      var u: nat :| u in c && Blocks(s, u, t);
      BlockersRankLower(s, u, t);
      NoCircle(s, c, u);
    }
  }

  lemma JamIsCircle(s: Sys, j: nat, l: nat)
    requires Jam(s, j, l) && Watched(s)
    ensures Circle(s, {j, l})
  {
    assert Blocks(s, l, j) && Blocks(s, j, l);
  }

  /** Some calls wait for each other in a circle exactly if StopHealthCheck or StartHealthCheck holds `mu`
      and joins a health loop that wants `mu` to reconnect, or a NATS reconnect wants it twice. */
  lemma {:induction false} CircularWaitIff(b: Backend, hasGlobal: bool, capacity: nat, health: set<nat>, schedule: seq<Event>, s: Sys)
    requires s == Reached(b, hasGlobal, capacity, health, schedule)
    ensures (exists c: set<nat> :: Circle(s, c)) <==> Jammed(s)
  {
    hide Inv, Watched, Circle, Jam;
    ReachedWatch(b, hasGlobal, capacity, health, schedule);
    if Jammed(s) {
      var j, l :| Jam(s, j, l);
      JamIsCircle(s, j, l);
    } else if exists c: set<nat> :: Circle(s, c) {
      var c: set<nat> :| Circle(s, c);
      var t := MemberOfCircle(s, c);
      NoCircle(s, c, t);
    }
  }

  /** The memory bus has no circular wait at all. */
  lemma {:induction false} NoCircleInMemory(hasGlobal: bool, capacity: nat, health: set<nat>, schedule: seq<Event>, s: Sys)
    requires s == Reached(Memory, hasGlobal, capacity, health, schedule)
    ensures forall c: set<nat> :: !Circle(s, c)
  {
    hide Inv, Watched, Circle, Jammed;
    ReachedWatch(Memory, hasGlobal, capacity, health, schedule);
    MemoryIsNeverJammed(s);
    CircularWaitIff(Memory, hasGlobal, capacity, health, schedule, s);
  }

  lemma MemberOfCircle(s: Sys, c: set<nat>) returns (t: nat)
    requires Circle(s, c)
    ensures t in c && t in s.threads
  {
    hide Blocks;
    t :| t in c;
    var u: nat :| u in c && Blocks(s, u, t);
    BlockedIsThere(s, u, t);
  }

  lemma BlockedIsThere(s: Sys, u: nat, t: nat)
    requires Blocks(s, u, t)
    ensures t in s.threads
  {
  }

  // ---------------------------------------------------------------- a jam lasts for good

  /** The calls that a jam stops: the one that holds `mu`, and all that want it. */
  ghost predicate Stopped(s: Sys, j: nat, u: nat) {
    u in s.threads && (u == j || WantsMutex(s.threads[u]))
  }

  lemma JamHoldsMu(s: Sys, j: nat, l: nat)
    requires Jam(s, j, l) && Watched(s)
    ensures !s.backend.Memory? && HoldsMuW(s.backend, s.threads[j]) && !MuWriteFree(s)
  {
    MemoryHasNoLoop(s, j);
  }

  lemma StoppedCannotMove(s: Sys, j: nat, l: nat, u: nat, k: int)
    requires Jam(s, j, l) && Watched(s) && Stopped(s, j, u)
    ensures !CanMove(s, u, k)
  {
    hide MuReadFree, MuWriteFree, TcReadFree, TcWriteFree, HealthJoined, WatchOk;
    JamHoldsMu(s, j, l);
  }

  /** Close stores its error while it holds `mu`. */
  lemma NobodyStores(s: Sys, j: nat, l: nat, e: Event)
    requires Jam(s, j, l) && Watched(s) && LocksOk(s.backend, s.threads) && Enabled(s, e)
    ensures !(e.Move? && s.threads[e.t].CStore?)
  {
    hide MuReadFree, MuWriteFree, TcReadFree, TcWriteFree, HealthJoined, WatchOk, WatchCanMove;
    JamHoldsMu(s, j, l);
  }

  lemma StoppedStays(s: Sys, j: nat, l: nat, e: Event, u: nat)
    requires Jam(s, j, l) && Watched(s) && Enabled(s, e) && Stopped(s, j, u)
    ensures u in Fire(s, e).threads && Fire(s, e).threads[u] == s.threads[u]
  {
    hide Watched, Fire, CanMove;
    if e.Move? && e.t == u {
      StoppedCannotMove(s, j, l, u, e.k);
    } else {
      OthersStay(s, e, u);
    }
  }

  /** What a jam does to a later state. */
  ghost predicate Lasts(s: Sys, s': Sys, j: nat, l: nat) {
    && Jam(s', j, l)
    && (forall u :: Stopped(s, j, u) ==> u in s'.threads && s'.threads[u] == s.threads[u])
    && s'.terminal == s.terminal
  }

  lemma JamStep(s: Sys, j: nat, l: nat, e: Event)
    requires Jam(s, j, l) && Watched(s) && Inv(s) && Enabled(s, e)
    ensures Lasts(s, Fire(s, e), j, l)
  {
    hide Inv, Watched, Fire, Enabled;
    JamIsStopped(s, j, l);
    NoLocksTwice(s);
    NobodyStores(s, j, l, e);
    SomeoneElse(s, e);
    forall u | Stopped(s, j, u) ensures u in Fire(s, e).threads && Fire(s, e).threads[u] == s.threads[u] {
      StoppedStays(s, j, l, e, u);
    }
  }

  lemma SomeoneElse(s: Sys, e: Event)
    requires Enabled(s, e) && !(e.Move? && s.threads[e.t].CStore?)
    ensures Fire(s, e).terminal == s.terminal
  {
    hide Enabled, Fire;
    OthersStay(s, e, if Moves(e, 0) then 1 else 0);
  }

  lemma NoLocksTwice(s: Sys)
    requires Inv(s)
    ensures LocksOk(s.backend, s.threads)
  {
    hide LocksOk, TableOk, ChansOk, OwnersOk, RoutesOk, GatesOk, CloserOk, SweptOk, HealthOk, StopOk, AcceptedOk, LateOk;
  }

  lemma JamIsStopped(s: Sys, j: nat, l: nat)
    requires Jam(s, j, l)
    ensures Stopped(s, j, j) && Stopped(s, j, l)
  {
  }

  lemma {:induction false} JamRun(s: Sys, j: nat, l: nat, later: seq<Event>)
    requires Jam(s, j, l) && Watched(s) && Inv(s)
    ensures Lasts(s, Exec(s, later), j, l)
    decreases |later|
  {
    hide Inv, Watched, Enabled, Fire, Jam;
    if later != [] {
      var s1 := Apply(s, later[0]);
      if Enabled(s, later[0]) {
        JamStep(s, j, l, later[0]);
        FireKeeps(s, later[0]);
        WatchFireKeeps(s, later[0]);
      }
      JamRun(s1, j, l, later[1..]);
    }
  }

  /** A jam is for good: whatever runs later, neither of the two ever moves again, nor does any call that
      wants `mu` in the jammed state; and if the teardown has not stored its error by then, no call of
      Close ever returns. */
  lemma {:induction false} JamsAreForGood(b: Backend, hasGlobal: bool, capacity: nat, health: set<nat>,
                                          before: seq<Event>, later: seq<Event>, j: nat, l: nat)
    requires Jam(Reached(b, hasGlobal, capacity, health, before), j, l)
    ensures var s := Reached(b, hasGlobal, capacity, health, before); var s' := Exec(s, later);
            && Jam(s', j, l)
            && (forall u :: u == l || Stopped(s, j, u) ==>
                  u in s'.threads && s'.threads[u] == s.threads[u] && forall k :: !CanMove(s', u, k))
            && (s.terminal.None? ==> forall u :: u in s'.threads ==> !s'.threads[u].CDone?)
  {
    hide Inv, Watched, Jam, CanMove;
    var s := Reached(b, hasGlobal, capacity, health, before);
    var s' := Exec(s, later);
    ReachedWatch(b, hasGlobal, capacity, health, before);
    JamRun(s, j, l, later);
    ExecKeeps(s, later);
    WatchExecKeeps(s, later);
    JamIsStopped(s, j, l);
    forall u, k | u == l || Stopped(s, j, u) ensures !CanMove(s', u, k) {
      StoppedCannotMove(s', j, l, u, k);
    }
    forall u | u in s'.threads && s'.threads[u].CDone? ensures s.terminal.Some? {
      ReturnedError(s', u);
    }
  }

  // ---------------------------------------------------------------- which calls can jam

  lemma {:induction false} DoneStays(s: Sys, l: nat, later: seq<Event>)
    requires l in s.threads && s.threads[l] == Watch(MDone)
    ensures l in Exec(s, later).threads && Exec(s, later).threads[l] == Watch(MDone)
    decreases |later|
  {
    hide Fire, MuReadFree, MuWriteFree, TcReadFree, TcWriteFree, HealthJoined;
    if later != [] {
      if Enabled(s, later[0]) {
        OthersStay(s, later[0], l);
      }
      DoneStays(Apply(s, later[0]), l, later[1..]);
    }
  }

  /** A loop that has not ended can still come to want `mu`, canceled or not: its tick may be ready too,
      and a check or an attempt to reconnect under way may fail. */
  lemma LoopStep(s: Sys, l: nat)
    requires HeapShaped(s) && !s.panicked && l in s.threads && s.threads[l].Watch?
    requires s.threads[l].step.MIdle? || s.threads[l].step.MCheck? || s.threads[l].step.MPause?
    ensures Apply(s, Move(l, 1)) == At(s, l, Watch(if s.threads[l].step.MIdle? then MCheck else MWant))
  {
  }

  lemma OneStep(s: Sys, e: Event)
    ensures Exec(s, [e]) == Apply(s, e)
  {
    assert [e][1..] == [];
  }

  lemma TwoSteps(s: Sys, e: Event, e': Event)
    ensures Exec(s, [e, e']) == Apply(Apply(s, e), e')
  {
    hide Enabled, Fire;
    assert [e, e'][1..] == [e'];
    OneStep(Apply(s, e), e');
  }

  ghost predicate CanJam(s: Sys, j: nat, l: nat) {
    exists later :: Jam(Exec(s, later), j, l)
  }

  lemma RunningLoopCanJam(s: Sys, j: nat, l: nat)
    requires HeapShaped(s) && !s.panicked && j in s.threads && l in s.threads && j != l
    requires Joins(s.threads[j]) && s.threads[j].step.loop == l
    requires IsLoop(s.threads[l]) && !s.threads[l].step.MDone? && !s.threads[l].step.MHold? && !s.threads[l].step.MAgain?
    ensures CanJam(s, j, l)
  {
    hide Apply;
    if s.threads[l].step.MWant? {
      assert Exec(s, []) == s;
    } else {
      LoopStep(s, l);
      var s1 := Apply(s, Move(l, 1));
      if s.threads[l].step.MIdle? {
        LoopStep(s1, l);
        TwoSteps(s, Move(l, 1), Move(l, 1));
        assert Jam(Exec(s, [Move(l, 1), Move(l, 1)]), j, l);
      } else {
        OneStep(s, Move(l, 1));
        assert Jam(Exec(s, [Move(l, 1)]), j, l);
      }
    }
  }

  lemma EndedLoopCannotJam(s: Sys, j: nat, l: nat)
    requires j != l && l in s.threads && s.threads[l] == Watch(MDone)
    ensures !CanJam(s, j, l)
  {
    forall later ensures !Jam(Exec(s, later), j, l) {
      DoneStays(s, l, later);
    }
  }

  /** What taking `mu` does to the call and the loop it stops. */
  lemma CancelTaken(s: Sys, j: nat, k: int, l: nat)
    requires Watched(s) && CanMove(s, j, k) && HeapShaped(s) && s.threads[j].Watch? && s.threads[j].step.JWant? && s.monitor == Some(l)
    ensures var s1 := Apply(s, Move(j, k));
            && l in s.threads && IsLoop(s.threads[l]) && !s.threads[l].step.MHold? && !s.threads[l].step.MAgain? && j != l
            && HeapShaped(s1) && !s1.panicked && l in s1.threads && s1.threads[l] == s.threads[l]
            && j in s1.threads && Joins(s1.threads[j]) && s1.threads[j].step.loop == l
  {
    MemoryHasNoLoop(s, j);
    assert Loops(s.threads, l);
  }

  /** When a StopHealthCheck or StartHealthCheck gets `mu`, some continuation jams it with the loop that
      it stops exactly if that loop has not ended by itself. */
  lemma {:induction false} StopCanJamIff(b: Backend, hasGlobal: bool, capacity: nat, health: set<nat>, schedule: seq<Event>,
                                         j: nat, k: int, l: nat)
    requires var s := Reached(b, hasGlobal, capacity, health, schedule);
             CanMove(s, j, k) && s.threads[j].Watch? && s.threads[j].step.JWant? && s.monitor == Some(l)
    ensures var s := Reached(b, hasGlobal, capacity, health, schedule);
            l in s.threads && (CanJam(Apply(s, Move(j, k)), j, l) <==> s.threads[l] != Watch(MDone))
  {
    hide Watched, CanMove, CanJam, Apply;
    var s := Reached(b, hasGlobal, capacity, health, schedule);
    ReachedWatch(b, hasGlobal, capacity, health, schedule);
    ShapedInv(s);
    CancelTaken(s, j, k, l);
    if s.threads[l] == Watch(MDone) {
      EndedLoopCannotJam(Apply(s, Move(j, k)), j, l);
    } else {
      RunningLoopCanJam(Apply(s, Move(j, k)), j, l);
    }
  }

  lemma ShapedInv(s: Sys)
    requires Inv(s)
    ensures HeapShaped(s) && !s.panicked
  {
    hide LocksOk, ChansOk, OwnersOk, RoutesOk, GatesOk, CloserOk, SweptOk, HealthOk, StopOk, AcceptedOk, LateOk;
  }

  /** When a health loop reconnects under `mu`, it can jam itself exactly if it is the NATS bus, it is not
      closed, and some subscription is to be restored. */
  lemma {:induction false} ReconnectCanJamIff(b: Backend, hasGlobal: bool, capacity: nat, health: set<nat>, schedule: seq<Event>, l: nat)
    requires var s := Reached(b, hasGlobal, capacity, health, schedule); l in s.threads && s.threads[l] == Watch(MHold)
    ensures var s := Reached(b, hasGlobal, capacity, health, schedule);
            (exists k :: Jam(Apply(s, Move(l, k)), l, l)) <==> b.Nats? && !s.closed && s.subscribed
  {
    hide Inv, WatchOk;
    var s := Reached(b, hasGlobal, capacity, health, schedule);
    ReachedWatch(b, hasGlobal, capacity, health, schedule);
    MemoryHasNoLoop(s, l);
    ShapedInv(s);
    forall k: int ensures Apply(s, Move(l, k)) == At(s, l, Watch(AfterLoop(b, s.closed, s.subscribed, MHold, k))) {
    }
    if b.Nats? && !s.closed && s.subscribed {
      assert Jam(Apply(s, Move(l, 1)), l, l);
    }
  }

  // ---------------------------------------------------------------- the smallest jams

  lemma {:induction false} ExecAppend(s: Sys, a: seq<Event>, b: seq<Event>)
    ensures Exec(s, a + b) == Exec(Exec(s, a), b)
    decreases |a|
  {
    hide Apply;
    if a == [] {
      assert a + b == b;
    } else {
      assert (a + b)[1..] == a[1..] + b;
      ExecAppend(Apply(s, a[0]), a[1..], b);
    }
  }

  lemma FirstStep(s: Sys, e: Event, rest: seq<Event>)
    ensures Exec(s, [e] + rest) == Exec(Apply(s, e), rest)
  {
    hide Apply;
    assert ([e] + rest)[1..] == rest;
  }

  /** A Kafka or NATS bus that is running. */
  ghost predicate Open(s: Sys) {
    !s.backend.Memory? && HeapShaped(s) && !s.panicked && !s.closed && s.health == {}
  }

  lemma BeginStep(s: Sys, t: nat, pc: Pc)
    requires Open(s) && t !in s.threads && Entry(pc)
    ensures Apply(s, Start(t, pc)) == At(s, t, pc)
  {
  }

  lemma StopTurn(s: Sys, t: nat, k: int)
    requires Open(s) && t in s.threads && s.threads[t].Watch? && !OfLoop(s.threads[t].step) && WatchCanMove(s, t, s.threads[t].step, k)
    requires !s.threads[t].step.JDone?
    ensures Apply(s, Move(t, k)) == StopMove(s, t, s.threads[t].step, k)
  {
    hide StopMove, MuWriteFree;
  }

  lemma LoopTakesMu(s: Sys, l: nat, k: int)
    requires Open(s) && l in s.threads && s.threads[l].Watch? && (s.threads[l].step.MWant? || s.threads[l].step.MHold?)
    requires s.threads[l].step.MWant? ==> MuWriteFree(s)
    ensures Apply(s, Move(l, k)) == LoopMove(s, l, s.threads[l].step, k)
  {
    hide LoopMove;
  }

  lemma SubscribeStep(s: Sys, t: nat, k: int)
    requires Open(s) && t in s.threads && (s.threads[t].OWant? || s.threads[t].OHold?)
    requires s.threads[t].OWant? ==> MuWriteFree(s)
    ensures Apply(s, Move(t, k)) == OtherMove(s, t, k)
  {
    hide OtherMove;
  }

  lemma CloseStep(s: Sys, t: nat)
    requires !s.backend.Memory? && HeapShaped(s) && !s.panicked && t in s.threads
    requires s.threads[t].CEnter? || s.threads[t].CStart? || s.threads[t].CFreeze?
    ensures Apply(s, Move(t, 0)) == CloseMove(s, t, 0)
  {
    hide CloseMove;
  }

  /** Call 0 starts the health loop, as thread 1; its check fails, and the failures reach the threshold. */
  function LoopFails(): seq<Event> {
    [Start(0, Watch(JWant(true)))] + ([Move(0, 0)] + ([Move(0, 1)] + [Move(1, 1), Move(1, 1)]))
  }

  /** Call 2 stops the health loop: it takes `mu`, cancels the loop and joins it. */
  function StopsLoop(): seq<Event> {
    [Start(2, Watch(JWant(false))), Move(2, 0)]
  }

  /** Call 3 closes the bus: it freezes admission and asks for `mu`. */
  function Closes(): seq<Event> {
    [Start(3, CEnter)] + ([Move(3, 0)] + [Move(3, 0), Move(3, 0)])
  }

  /** A bus on which call 0 has started health loop 1, which wants `mu`. */
  ghost predicate Failing(s: Sys) {
    && Open(s) && s.threads == map[0 := Watch(JDone), 1 := Watch(MWant)]
    && s.monitor == Some(1) && s.closer == None && s.terminal == None
  }

  lemma LoopFailing(b: Backend)
    requires !b.Memory?
    ensures Failing(Exec(Init(b, true, 1, {}), LoopFails()))
  {
    hide Apply;
    var s0 := Init(b, true, 1, {});
    BeginStep(s0, 0, Watch(JWant(true)));
    var s1 := At(s0, 0, Watch(JWant(true)));
    StopTurn(s1, 0, 0);
    var s2 := At(s1, 0, Watch(JStart));
    StopTurn(s2, 0, 1);
    var s3 := At(At(s2.(monitor := Some(1)), 1, Watch(MIdle)), 0, Watch(JDone));
    LoopStep(s3, 1);
    var s4 := At(s3, 1, Watch(MCheck));
    LoopStep(s4, 1);
    TwoSteps(s3, Move(1, 1), Move(1, 1));
    FirstStep(s2, Move(0, 1), [Move(1, 1), Move(1, 1)]);
    FirstStep(s1, Move(0, 0), [Move(0, 1)] + [Move(1, 1), Move(1, 1)]);
    FirstStep(s0, Start(0, Watch(JWant(true))), [Move(0, 0)] + ([Move(0, 1)] + [Move(1, 1), Move(1, 1)]));
  }

  /** The jam of Kafka and NATS: StopHealthCheck holds `mu` and waits for a loop that wants `mu`. */
  lemma StopJams(s: Sys)
    requires Failing(s)
    ensures var s' := Exec(s, StopsLoop());
            && s'.threads == map[0 := Watch(JDone), 1 := Watch(MWant), 2 := Watch(JJoin(1, false))] && Jam(s', 2, 1)
            && Open(s') && s'.closer == None && s'.terminal == None
  {
    hide Apply;
    BeginStep(s, 2, Watch(JWant(false)));
    var s1 := At(s, 2, Watch(JWant(false)));
    StopTurn(s1, 2, 0);
    TwoSteps(s, Start(2, Watch(JWant(false))), Move(2, 0));
  }

  lemma CloseAsks(s: Sys)
    requires Open(s) && 3 !in s.threads && s.closer == None && s.terminal == None
    ensures var s' := Exec(s, Closes()); s'.threads == s.threads[3 := CMu] && s'.terminal == None
  {
    hide Apply;
    BeginStep(s, 3, CEnter);
    var s1 := At(s, 3, CEnter);
    CloseStep(s1, 3);
    var s2 := At(s1.(closer := Some(3)), 3, CStart);
    CloseStep(s2, 3);
    var s3 := At(s2, 3, CFreeze);
    CloseStep(s3, 3);
    TwoSteps(s2, Move(3, 0), Move(3, 0));
    FirstStep(s1, Move(3, 0), [Move(3, 0), Move(3, 0)]);
    FirstStep(s, Start(3, CEnter), [Move(3, 0)] + [Move(3, 0), Move(3, 0)]);
  }

  /** The smallest instance, for the Kafka and the NATS bus: a health loop is started, a check fails and
      reaches the threshold, then StopHealthCheck is called and then Close. None of the three threads
      ever moves again, and Close never returns. */
  lemma {:induction false} StopHealthCheckHangs(b: Backend, later: seq<Event>)
    requires !b.Memory?
    ensures var s := Exec(Reached(b, true, 1, {}, LoopFails() + (StopsLoop() + Closes())), later);
            && 1 in s.threads && s.threads[1] == Watch(MWant)
            && 2 in s.threads && s.threads[2] == Watch(JJoin(1, false))
            && 3 in s.threads && s.threads[3] == CMu
            && forall t :: t in s.threads ==> !s.threads[t].CDone?
  {
    hide Apply, Inv, Watched;
    var s0 := Init(b, true, 1, {});
    LoopFailing(b);
    var s1 := Exec(s0, LoopFails());
    StopJams(s1);
    var s2 := Exec(s1, StopsLoop());
    CloseAsks(s2);
    ExecAppend(s0, LoopFails(), StopsLoop() + Closes());
    ExecAppend(s1, StopsLoop(), Closes());
    JamsAreForGood(b, true, 1, {}, LoopFails() + (StopsLoop() + Closes()), later, 2, 1);
  }

  /** Call 2 subscribes. */
  function Subscribes(): seq<Event> {
    [Start(2, OWant(true))] + [Move(2, 0), Move(2, 1)]
  }

  /** The loop takes `mu`, connects, and wants `mu` to restore the subscription. */
  function Reconnects(): seq<Event> {
    [Move(1, 0), Move(1, 1)]
  }

  lemma SubscriptionIsKept(s: Sys)
    requires Failing(s)
    ensures var s' := Exec(s, Subscribes());
            && Open(s') && s'.threads == map[0 := Watch(JDone), 1 := Watch(MWant), 2 := ODone]
            && s'.subscribed && s'.backend == s.backend && s'.terminal == None
  {
    hide Apply;
    BeginStep(s, 2, OWant(true));
    var s1 := At(s, 2, OWant(true));
    SubscribeStep(s1, 2, 0);
    var s2 := At(s1, 2, OHold(true));
    SubscribeStep(s2, 2, 1);
    TwoSteps(s1, Move(2, 0), Move(2, 1));
    FirstStep(s, Start(2, OWant(true)), [Move(2, 0), Move(2, 1)]);
  }

  lemma ReconnectJams(s: Sys)
    requires Open(s) && s.backend.Nats? && s.subscribed && s.terminal == None
    requires s.threads == map[0 := Watch(JDone), 1 := Watch(MWant), 2 := ODone]
    ensures var s' := Exec(s, Reconnects()); Jam(s', 1, 1) && s'.terminal == None
  {
    hide Apply;
    LoopTakesMu(s, 1, 0);
    LoopTakesMu(At(s, 1, Watch(MHold)), 1, 1);
    TwoSteps(s, Move(1, 0), Move(1, 1));
  }

  /** The NATS bus with one subscription hangs when its health loop reconnects. */
  lemma {:induction false} ReconnectHangs(later: seq<Event>)
    ensures var s := Exec(Reached(Nats, true, 1, {}, LoopFails() + (Subscribes() + Reconnects())), later);
            && 1 in s.threads && s.threads[1] == Watch(MAgain)
            && forall t :: t in s.threads ==> !s.threads[t].CDone?
  {
    hide Apply, Inv, Watched;
    var s0 := Init(Nats, true, 1, {});
    LoopFailing(Nats);
    ReachedWatch(Nats, true, 1, {}, LoopFails());
    var s1 := Exec(s0, LoopFails());
    SubscriptionIsKept(s1);
    ReconnectJams(Exec(s1, Subscribes()));
    ExecAppend(s0, LoopFails(), Subscribes() + Reconnects());
    ExecAppend(s1, Subscribes(), Reconnects());
    JamsAreForGood(Nats, true, 1, {}, LoopFails() + (Subscribes() + Reconnects()), later, 1, 1);
  }
}
