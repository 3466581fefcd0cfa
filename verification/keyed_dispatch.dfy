/** Items routed by key to one of several first-in first-out inboxes, each served by a single
    sequential worker: the scheme of the actor pool and of the policy dispatch mux. */
module KeyedDispatch {
  import opened Wrappers

  /** `begun` is what the worker has started on so far, in order; `current` is the last of it while
      its handler runs. */
  datatype Worker<T> = Worker(inbox: seq<T>, current: Option<T>, begun: seq<T>)

  /** `submitted` is everything offered, `accepted` what reached an inbox, `calls` the handler calls
      of all workers in the order in which they began. */
  datatype Sys<T> = Sys(workers: seq<Worker<T>>, submitted: seq<T>, accepted: seq<T>, calls: seq<T>)

  datatype Event<T> =
    | Submit(item: T, fits: bool)   // an inbox without room drops the item
    | Begin(w: nat)
    | End(w: nat)

  predicate Enabled<T>(s: Sys<T>, route: T -> nat, e: Event<T>) {
    match e
    case Submit(item, _) => route(item) < |s.workers|
    case Begin(w) => w < |s.workers| && s.workers[w].current.None? && s.workers[w].inbox != []
    case End(w) => w < |s.workers| && s.workers[w].current.Some?
  }

  function Fire<T>(s: Sys<T>, route: T -> nat, e: Event<T>): Sys<T>
    requires Enabled(s, route, e)
  {
    match e
    case Submit(item, fits) =>
      var w := s.workers[route(item)];
      if !fits then s.(submitted := s.submitted + [item])
      else s.(submitted := s.submitted + [item], accepted := s.accepted + [item],
              workers := s.workers[route(item) := w.(inbox := w.inbox + [item])])
    case Begin(k) =>
      var w := s.workers[k];
      s.(calls := s.calls + [w.inbox[0]],
         workers := s.workers[k := Worker(w.inbox[1..], Some(w.inbox[0]), w.begun + [w.inbox[0]])])
    case End(k) => s.(workers := s.workers[k := s.workers[k].(current := None)])
  }

  function Apply<T>(s: Sys<T>, route: T -> nat, e: Event<T>): Sys<T> {
    if Enabled(s, route, e) then Fire(s, route, e) else s
  }

  function Exec<T>(s: Sys<T>, route: T -> nat, schedule: seq<Event<T>>): Sys<T>
    decreases |schedule|
  {
    if schedule == [] then s else Exec(Apply(s, route, schedule[0]), route, schedule[1..])
  }

  function Init<T>(workers: nat): Sys<T> {
    Sys(seq(workers, _ => Worker([], None, [])), [], [], [])
  }

  // ---------------------------------------------------------------- selections

  function Select<T>(p: T -> bool, s: seq<T>): seq<T> {
    if s == [] then [] else Select(p, s[..|s| - 1]) + if p(s[|s| - 1]) then [s[|s| - 1]] else []
  }

  /** One sequence is what remains of another after dropping some items. */
  predicate Subsequence<T(==)>(a: seq<T>, b: seq<T>) {
    if a == [] then true
    else if b == [] then false
    else if a[|a| - 1] == b[|b| - 1] && Subsequence(a[..|a| - 1], b[..|b| - 1]) then true
    else Subsequence(a, b[..|b| - 1])
  }

  lemma SelectAppend<T>(p: T -> bool, s: seq<T>, x: T)
    ensures Select(p, s + [x]) == Select(p, s) + if p(x) then [x] else []
  {
    assert (s + [x])[..|s|] == s;
  }

  lemma {:induction false} SelectConcat<T>(p: T -> bool, a: seq<T>, b: seq<T>)
    ensures Select(p, a + b) == Select(p, a) + Select(p, b)
    decreases |b|
  {
    if b == [] {
      assert a + b == a;
    } else {
      var init := b[..|b| - 1];
      assert a + b == (a + init) + [b[|b| - 1]] && b == init + [b[|b| - 1]];
      SelectAppend(p, a + init, b[|b| - 1]);
      SelectConcat(p, a, init);
    }
  }

  lemma {:induction false} SelectMembers<T(!new)>(p: T -> bool, s: seq<T>)
    ensures forall x :: x in Select(p, s) <==> x in s && p(x)
  {
    if s != [] {
      var init, last := s[..|s| - 1], s[|s| - 1];
      SelectMembers(p, init);
      assert s == init + [last];
    }
  }

  /** Selecting within a selection that keeps all of it changes nothing. */
  lemma {:induction false} SelectWithin<T(!new)>(p: T -> bool, q: T -> bool, s: seq<T>)
    requires forall x :: p(x) ==> q(x)
    ensures Select(p, Select(q, s)) == Select(p, s)
  {
    if s != [] {
      var init, last := s[..|s| - 1], s[|s| - 1];
      SelectWithin(p, q, init);
      if q(last) {
        SelectAppend(p, Select(q, init), last);
      } else {
        assert Select(q, s) == Select(q, init) && Select(p, s) == Select(p, init);
      }
    }
  }

  lemma {:induction false} SubsequenceGrows<T>(a: seq<T>, b: seq<T>, x: T)
    requires Subsequence(a, b)
    ensures Subsequence(a + [x], b + [x]) && Subsequence(a, b + [x])
  {
    assert (a + [x])[..|a|] == a && (b + [x])[..|b|] == b;
  }

  lemma {:induction false} SubsequenceSelected<T>(p: T -> bool, a: seq<T>, b: seq<T>)
    requires Subsequence(a, b)
    ensures Subsequence(Select(p, a), Select(p, b))
    decreases |b|
  {
    if a != [] {
      var x := b[|b| - 1];
      var init := b[..|b| - 1];
      if a[|a| - 1] == x && Subsequence(a[..|a| - 1], init) {
        SubsequenceSelected(p, a[..|a| - 1], init);
        SubsequenceGrows(Select(p, a[..|a| - 1]), Select(p, init), x);
        assert Select(p, a) == Select(p, a[..|a| - 1]) + if p(x) then [x] else [];
        assert Select(p, a[..|a| - 1]) + [] == Select(p, a[..|a| - 1]) && Select(p, init) + [] == Select(p, init);
      } else {
        SubsequenceSelected(p, a, init);
        SubsequenceGrows(Select(p, a), Select(p, init), x);
        assert Select(p, init) + [] == Select(p, init);
      }
    }
  }

  lemma {:induction false} SubsequenceRefl<T>(a: seq<T>)
    ensures Subsequence(a, a)
  {
    if a != [] {
      SubsequenceRefl(a[..|a| - 1]);
    }
  }

  lemma {:induction false} SubsequenceTransitive<T>(a: seq<T>, b: seq<T>, c: seq<T>)
    requires Subsequence(a, b) && Subsequence(b, c)
    ensures Subsequence(a, c)
    decreases |c|
  {
    if a != [] {
      var c' := c[..|c| - 1];
      if b[|b| - 1] == c[|c| - 1] && Subsequence(b[..|b| - 1], c') {
        if a[|a| - 1] == b[|b| - 1] && Subsequence(a[..|a| - 1], b[..|b| - 1]) {
          SubsequenceTransitive(a[..|a| - 1], b[..|b| - 1], c');
        } else {
          SubsequenceTransitive(a, b[..|b| - 1], c');
        }
      } else {
        SubsequenceTransitive(a, b, c');
      }
    }
  }

  lemma {:induction false} SubsequencePrefix<T>(a: seq<T>, b: seq<T>)
    ensures Subsequence(a, a + b)
    decreases |b|
  {
    if b == [] {
      assert a + b == a;
      SubsequenceRefl(a);
    } else {
      var init := b[..|b| - 1];
      SubsequencePrefix(a, init);
      SubsequenceGrows(a, a + init, b[|b| - 1]);
      assert a + b == (a + init) + [b[|b| - 1]];
    }
  }

  // ---------------------------------------------------------------- the invariant

  function To<T>(route: T -> nat, w: nat): T -> bool {
    x => route(x) == w
  }

  /** What was accepted for a worker is what it has begun followed by its inbox; what it has begun is
      what the log shows of its share; and it runs at most the last of it. */
  predicate WorkerOk<T(==)>(s: Sys<T>, route: T -> nat, w: nat)
    requires w < |s.workers|
  {
    var worker := s.workers[w];
    && Select(To(route, w), s.accepted) == worker.begun + worker.inbox
    && Select(To(route, w), s.calls) == worker.begun
    && (worker.current.Some? ==> worker.begun != [] && worker.begun[|worker.begun| - 1] == worker.current.value
                                 && route(worker.current.value) == w)
  }

  predicate Inv<T(==)>(s: Sys<T>, route: T -> nat) {
    && (forall w :: 0 <= w < |s.workers| ==> WorkerOk(s, route, w))
    && Subsequence(s.accepted, s.submitted)
  }

  lemma {:induction false} SelectIsSelected<T>(p: T -> bool, s: seq<T>)
    ensures forall k :: 0 <= k < |Select(p, s)| ==> p(Select(p, s)[k])
  {
    if s != [] {
      SelectIsSelected(p, s[..|s| - 1]);
    }
  }

  lemma SubmitKeeps<T>(s: Sys<T>, route: T -> nat, item: T, fits: bool)
    requires Inv(s, route) && route(item) < |s.workers|
    ensures Inv(Fire(s, route, Submit(item, fits)), route)
  {
    var s' := Fire(s, route, Submit(item, fits));
    SubsequenceGrows(s.accepted, s.submitted, item);
    forall w | 0 <= w < |s.workers| ensures WorkerOk(s', route, w) {
      assert WorkerOk(s, route, w);
      SelectAppend(To(route, w), s.accepted, item);
    }
  }

  lemma BeginKeeps<T>(s: Sys<T>, route: T -> nat, k: nat)
    requires Inv(s, route) && Enabled(s, route, Begin(k))
    ensures Inv(Fire(s, route, Begin(k)), route)
  {
    var s' := Fire(s, route, Begin(k));
    var item := s.workers[k].inbox[0];
    assert WorkerOk(s, route, k);
    SelectIsSelected(To(route, k), s.accepted);
    assert (s.workers[k].begun + s.workers[k].inbox)[|s.workers[k].begun|] == item;
    assert s.workers[k].begun + s.workers[k].inbox == s'.workers[k].begun + s'.workers[k].inbox;
    forall w | 0 <= w < |s.workers| ensures WorkerOk(s', route, w) {
      assert WorkerOk(s, route, w);
      SelectAppend(To(route, w), s.calls, item);
    }
  }

  lemma EndKeeps<T>(s: Sys<T>, route: T -> nat, k: nat)
    requires Inv(s, route) && Enabled(s, route, End(k))
    ensures Inv(Fire(s, route, End(k)), route)
  {
    var s' := Fire(s, route, End(k));
    forall w | 0 <= w < |s.workers| ensures WorkerOk(s', route, w) {
      assert WorkerOk(s, route, w);
    }
  }

  lemma ApplyKeeps<T>(s: Sys<T>, route: T -> nat, e: Event<T>)
    requires Inv(s, route)
    ensures Inv(Apply(s, route, e), route) && |Apply(s, route, e).workers| == |s.workers|
  {
    if Enabled(s, route, e) {
      match e
      case Submit(item, fits) => SubmitKeeps(s, route, item, fits);
      case Begin(w) => BeginKeeps(s, route, w);
      case End(w) => EndKeeps(s, route, w);
    }
  }

  lemma {:induction false} ExecKeeps<T>(s: Sys<T>, route: T -> nat, schedule: seq<Event<T>>)
    requires Inv(s, route)
    ensures Inv(Exec(s, route, schedule), route) && |Exec(s, route, schedule).workers| == |s.workers|
    decreases |schedule|
  {
    if schedule != [] {
      ApplyKeeps(s, route, schedule[0]);
      ExecKeeps(Apply(s, route, schedule[0]), route, schedule[1..]);
    }
  }

  lemma {:induction false} ReachedInv<T>(workers: nat, route: T -> nat, schedule: seq<Event<T>>)
    ensures Inv(Exec(Init(workers), route, schedule), route) && |Exec(Init<T>(workers), route, schedule).workers| == workers
  {
    ExecKeeps(Init(workers), route, schedule);
  }

  // ---------------------------------------------------------------- order per key

  /** For any set of items that all go to one worker, such as the items of one key: the calls on
      them are, in order, an initial part of the accepted ones, and what is missing waits in that
      worker's inbox. The accepted ones are a subsequence of the submitted ones. */
  lemma {:induction false} OrderPerKey<T(!new)>(workers: nat, route: T -> nat, schedule: seq<Event<T>>, p: T -> bool, w: nat)
    requires w < workers && forall x :: p(x) ==> route(x) == w
    ensures var s := Exec(Init(workers), route, schedule);
            && |s.workers| == workers
            && Select(p, s.accepted) == Select(p, s.calls) + Select(p, s.workers[w].inbox)
            && Subsequence(Select(p, s.accepted), Select(p, s.submitted))
            && Subsequence(Select(p, s.calls), Select(p, s.submitted))
  {
    ReachedInv(workers, route, schedule);
    OrderOf(Exec(Init(workers), route, schedule), route, p, w);
  }

  lemma {:induction false} OrderOf<T(!new)>(s: Sys<T>, route: T -> nat, p: T -> bool, w: nat)
    requires Inv(s, route) && w < |s.workers| && forall x :: p(x) ==> route(x) == w
    ensures Select(p, s.accepted) == Select(p, s.calls) + Select(p, s.workers[w].inbox)
    ensures Subsequence(Select(p, s.accepted), Select(p, s.submitted))
    ensures Subsequence(Select(p, s.calls), Select(p, s.submitted))
  {
    assert WorkerOk(s, route, w);
    SelectWithin(p, To(route, w), s.accepted);
    SelectWithin(p, To(route, w), s.calls);
    SelectConcat(p, s.workers[w].begun, s.workers[w].inbox);
    SubsequenceSelected(p, s.accepted, s.submitted);
    SubsequencePrefix(Select(p, s.calls), Select(p, s.workers[w].inbox));
    SubsequenceTransitive(Select(p, s.calls), Select(p, s.accepted), Select(p, s.submitted));
  }

  /** Calls on items of one key never overlap, and each finishes before the next begins: the call in
      progress is the last one begun. */
  lemma {:induction false} OneAtATime<T(!new)>(workers: nat, route: T -> nat, schedule: seq<Event<T>>, p: T -> bool, w: nat, v: nat)
    requires w < workers && forall x :: p(x) ==> route(x) == w
    requires var s := Exec(Init(workers), route, schedule);
             v < |s.workers| && s.workers[v].current.Some? && p(s.workers[v].current.value)
    ensures var s := Exec(Init(workers), route, schedule);
            v == w && var calls := Select(p, s.calls); calls != [] && calls[|calls| - 1] == s.workers[v].current.value
  {
    var s := Exec(Init(workers), route, schedule);
    ReachedInv(workers, route, schedule);
    assert WorkerOk(s, route, v);
    SelectWithin(p, To(route, w), s.calls);
    var begun := s.workers[w].begun;
    assert begun == begun[..|begun| - 1] + [s.workers[w].current.value];
  }

  predicate NoDrop<T>(schedule: seq<Event<T>>) {
    forall k :: 0 <= k < |schedule| && schedule[k].Submit? ==> schedule[k].fits
  }

  lemma {:induction false} NoDropNoLoss<T>(s: Sys<T>, route: T -> nat, schedule: seq<Event<T>>)
    requires s.accepted == s.submitted && NoDrop(schedule)
    ensures Exec(s, route, schedule).accepted == Exec(s, route, schedule).submitted
    decreases |schedule|
  {
    if schedule != [] {
      assert forall k :: 0 <= k < |schedule[1..]| ==> schedule[1..][k] == schedule[k + 1];
      NoDropNoLoss(Apply(s, route, schedule[0]), route, schedule[1..]);
    }
  }

  /** A drop is the end of all submissions. */
  predicate DropIsLast<T>(schedule: seq<Event<T>>) {
    forall j, k :: 0 <= j < k < |schedule| && schedule[j].Submit? && !schedule[j].fits ==> !schedule[k].Submit?
  }

  lemma {:induction false} NoSubmitNoChange<T>(s: Sys<T>, route: T -> nat, schedule: seq<Event<T>>)
    requires forall k :: 0 <= k < |schedule| ==> !schedule[k].Submit?
    ensures Exec(s, route, schedule).accepted == s.accepted && Exec(s, route, schedule).submitted == s.submitted
    decreases |schedule|
  {
    if schedule != [] {
      assert forall k :: 0 <= k < |schedule[1..]| ==> schedule[1..][k] == schedule[k + 1];
      NoSubmitNoChange(Apply(s, route, schedule[0]), route, schedule[1..]);
    }
  }

  /** Then at most the last submitted item is lost. */
  lemma {:induction false} DropIsLastLoss<T>(s: Sys<T>, route: T -> nat, schedule: seq<Event<T>>)
    requires s.accepted == s.submitted && DropIsLast(schedule)
    ensures var s' := Exec(s, route, schedule); s'.accepted <= s'.submitted && |s'.submitted| <= |s'.accepted| + 1
    decreases |schedule|
  {
    if schedule != [] {
      var s1 := Apply(s, route, schedule[0]);
      assert forall k :: 0 <= k < |schedule[1..]| ==> schedule[1..][k] == schedule[k + 1];
      if schedule[0].Submit? && !schedule[0].fits {
        NoSubmitNoChange(s1, route, schedule[1..]);
      } else {
        DropIsLastLoss(s1, route, schedule[1..]);
      }
    }
  }
}
