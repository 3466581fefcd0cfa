/** The actor pool: messages are routed by the FNV-1a hash of their aggregate to one of a fixed number
    of actors, which handle their inboxes sequentially and answer each message once. */
module ActorPool {
  import opened Wrappers
  import opened KeyedDispatch
  import opened Decimals

  type Byte = b: int | 0 <= b < 256

  type Bytes = seq<Byte>

  /** `claim` is the claim of a partition that submitted the message. */
  datatype Message = Message(key: Bytes, claim: nat, offset: nat)

  // ---------------------------------------------------------------- routing

  const WORD := 0x1_0000_0000

  const FNV_OFFSET := 0x811c_9dc5

  const FNV_PRIME := 16777619

  function Pow2(n: nat): nat {
    if n == 0 then 1 else 2 * Pow2(n - 1)
  }

  /** The exclusive or of the lowest `bits` bits. */
  function Xor(a: nat, b: nat, bits: nat): (r: nat)
    ensures r < Pow2(bits)
  {
    if bits == 0 then 0 else 2 * Xor(a / 2, b / 2, bits - 1) + (a + b) % 2
  }

  /** Xor with a byte, which changes only the low byte, then a product that wraps around at 32 bits. */
  function FnvStep(h: nat, b: Byte): (r: nat)
    ensures r < WORD
  {
    (h / 256 * 256 + Xor(h % 256, b, 8)) * FNV_PRIME % WORD
  }

  /** 32-bit FNV-1a. */
  function Fnv1a(s: Bytes): (h: nat)
    ensures h < WORD
  {
    if s == [] then FNV_OFFSET else FnvStep(Fnv1a(s[..|s| - 1]), s[|s| - 1])
  }

  function HashToIndex(key: Bytes, poolSize: nat): (index: nat)
    requires poolSize > 0
    ensures index < poolSize
  {
    Fnv1a(key) % poolSize
  }

  lemma XorParity(a: nat, b: nat, r: nat)
    ensures (a + (2 * r + (a + b) % 2)) % 2 == b % 2
  {
  }

  lemma {:induction false} XorTwice(a: nat, b: nat, bits: nat)
    requires b < Pow2(bits)
    ensures Xor(a, Xor(a, b, bits), bits) == b
  {
    if bits > 0 {
      var r := Xor(a / 2, b / 2, bits - 1);
      XorTwice(a / 2, b / 2, bits - 1);
      XorParity(a, b, r);
      assert Xor(a, b, bits) == 2 * r + (a + b) % 2;
    }
  }

  lemma {:induction false} XorCommutes(a: nat, b: nat, bits: nat)
    ensures Xor(a, b, bits) == Xor(b, a, bits)
  {
    if bits > 0 {
      XorCommutes(a / 2, b / 2, bits - 1);
    }
  }

  /** Of two differences exactly one is left by xor. */
  lemma XorApart(a: Byte, b: Byte, x: Byte, y: Byte)
    requires (a == b) != (x == y)
    ensures Xor(a, x, 8) != Xor(b, y, 8) && Xor(a, x, 8) < 256 && Xor(b, y, 8) < 256
  {
    assert Pow2(8) == 256;
    XorTwice(a, x, 8);
    XorTwice(b, y, 8);
    XorCommutes(a, x, 8);
    XorCommutes(b, y, 8);
    XorTwice(x, a, 8);
    XorTwice(y, b, 8);
  }

  lemma LowOfWord(p: nat, q: int, lo: nat)
    requires p == 256 * q + lo
    ensures p % WORD % 256 == lo % 256
  {
    var k := p / WORD;
    assert p % WORD == 256 * (q - 16777216 * k) + lo;
  }

  /** The prime is 147 modulo 256, an odd number, with 155 as its inverse. */
  lemma OddMultiplier(u: nat, v: nat)
    requires u < 256 && v < 256 && (147 * u) % 256 == (147 * v) % 256
    ensures u == v
  {
    var q := (147 * u) / 256 - (147 * v) / 256;
    assert 147 * (u - v) == 256 * q;
    assert u - v == 256 * (155 * q - 89 * (u - v));
  }

  lemma StepKeepsApart(g: nat, h: nat, x: Byte, y: Byte)
    requires (g % 256 == h % 256) != (x == y)
    ensures FnvStep(g, x) % 256 != FnvStep(h, y) % 256
  {
    hide Xor;
    var u, v := Xor(g % 256, x, 8), Xor(h % 256, y, 8);
    XorApart(g % 256, h % 256, x, y);
    LowOfWord((g / 256 * 256 + u) * FNV_PRIME, g / 256 * FNV_PRIME + 65537 * u, 147 * u);
    LowOfWord((h / 256 * 256 + v) * FNV_PRIME, h / 256 * FNV_PRIME + 65537 * v, 147 * v);
    if FnvStep(g, x) % 256 == FnvStep(h, y) % 256 {
      OddMultiplier(u, v);
    }
  }

  lemma {:induction false} HashKeepsApart(s: Bytes, t: Bytes, rest: Bytes)
    requires Fnv1a(s) % 256 != Fnv1a(t) % 256
    ensures Fnv1a(s + rest) % 256 != Fnv1a(t + rest) % 256
    decreases |rest|
  {
    hide FnvStep;
    if rest == [] {
      assert s + rest == s && t + rest == t;
    } else {
      var init, last := rest[..|rest| - 1], rest[|rest| - 1];
      HashKeepsApart(s, t, init);
      assert (s + rest)[..|s + rest| - 1] == s + init && (t + rest)[..|t + rest| - 1] == t + init;
      StepKeepsApart(Fnv1a(s + init), Fnv1a(t + init), last, last);
    }
  }

  /** In a pool of 256 actors, the default, keys that differ in one byte go to different actors. */
  lemma {:induction false} OneByteMatters(before: Bytes, x: Byte, y: Byte, rest: Bytes)
    requires x != y
    ensures HashToIndex(before + [x] + rest, 256) != HashToIndex(before + [y] + rest, 256)
  {
    hide FnvStep;
    assert (before + [x])[..|before|] == before && (before + [y])[..|before|] == before;
    StepKeepsApart(Fnv1a(before), Fnv1a(before), x, y);
    HashKeepsApart(before + [x], before + [y], rest);
  }

  lemma KnownXor0()
    ensures Xor(0xc5, 0x61, 8) == 0xa4
  {
    assert Xor(0x3, 0x1, 2) == 0x2 && Xor(0x6, 0x3, 3) == 0x5 && Xor(0xc, 0x6, 4) == 0xa;
    assert Xor(0x18, 0xc, 5) == 0x14 && Xor(0x31, 0x18, 6) == 0x29 && Xor(0x62, 0x30, 7) == 0x52;
  }

  lemma KnownXor1()
    ensures Xor(0xc5, 0x66, 8) == 0xa3
  {
    assert Xor(0x3, 0x1, 2) == 0x2 && Xor(0x6, 0x3, 3) == 0x5 && Xor(0xc, 0x6, 4) == 0xa;
    assert Xor(0x18, 0xc, 5) == 0x14 && Xor(0x31, 0x19, 6) == 0x28 && Xor(0x62, 0x33, 7) == 0x51;
  }

  lemma KnownXor2()
    ensures Xor(0x99, 0x6f, 8) == 0xf6
  {
    assert Xor(0x2, 0x1, 2) == 0x3 && Xor(0x4, 0x3, 3) == 0x7 && Xor(0x9, 0x6, 4) == 0xf;
    assert Xor(0x13, 0xd, 5) == 0x1e && Xor(0x26, 0x1b, 6) == 0x3d && Xor(0x4c, 0x37, 7) == 0x7b;
  }

  lemma KnownXor3()
    ensures Xor(0x42, 0x6f, 8) == 0x2d
  {
    assert Xor(0x1, 0x1, 2) == 0x0 && Xor(0x2, 0x3, 3) == 0x1 && Xor(0x4, 0x6, 4) == 0x2;
    assert Xor(0x8, 0xd, 5) == 0x5 && Xor(0x10, 0x1b, 6) == 0xb && Xor(0x21, 0x37, 7) == 0x16;
  }

  /** The published hashes of the keys "", "a" and "foo", and so their actors in a pool of any size. */
  lemma {:induction false} KnownHashes(poolSize: nat)
    requires poolSize > 0
    ensures HashToIndex([], poolSize) == 0x811c_9dc5 % poolSize
    ensures HashToIndex([0x61], poolSize) == 0xe40c_292c % poolSize
    ensures HashToIndex([0x66, 0x6f, 0x6f], poolSize) == 0xa9f3_7ed7 % poolSize
  {
    hide Xor;
    KnownXor0();
    KnownXor1();
    KnownXor2();
    KnownXor3();
    var a, f, fo, foo: Bytes := [0x61], [0x66], [0x66, 0x6f], [0x66, 0x6f, 0x6f];
    assert a[..0] == [] && f[..0] == [] && fo[..1] == f && foo[..2] == fo;
    assert Fnv1a(a) == 0xe40c_292c;
    assert Fnv1a(f) == 0xe30c_2799;
    assert Fnv1a(fo) == 0x6222_e842;
    assert Fnv1a(foo) == 0xa9f3_7ed7;
  }

  function Ascii(s: string): Bytes {
    seq(|s|, i requires 0 <= i < |s| => s[i] as int % 256)
  }

  /** A message without an aggregate gets a key of its own from the round-robin counter. */
  function RoutingKey(aggregate: Bytes, counter: nat): Bytes {
    if aggregate != [] then aggregate else Ascii("rr-" + Format(counter))
  }

  predicate Plain(s: string) {
    forall i :: 0 <= i < |s| ==> s[i] < 128 as char
  }

  lemma AsciiApart(s: string, t: string)
    requires Plain(s) && Plain(t) && Ascii(s) == Ascii(t)
    ensures s == t
  {
    assert |s| == |Ascii(s)| == |t|;
    forall i | 0 <= i < |s| ensures s[i] == t[i] {
      assert Ascii(s)[i] == s[i] as int && Ascii(t)[i] == t[i] as int;
    }
  }

  lemma {:induction false} DigitsArePlain(n: nat)
    ensures Plain(Digits(n))
  {
    if n >= 10 {
      DigitsArePlain(n / 10);
    }
  }

  lemma KeyIsPlain(n: nat)
    ensures Plain("rr-" + Digits(n)) && ("rr-" + Digits(n))[3..] == Digits(n)
  {
    hide Digits;
    DigitsArePlain(n);
  }

  /** Messages without an aggregate have keys of their own: one for each value of the counter. */
  lemma {:induction false} RoundRobinKeys(i: nat, j: nat)
    ensures RoutingKey([], i) == RoutingKey([], j) <==> i == j
    ensures |RoutingKey([], i)| > 3 && RoutingKey([], i)[..3] == [0x72, 0x72, 0x2d]
  {
    hide Digits, Plain, Ascii, ParseDigits;
    KeyIsPlain(i);
    KeyIsPlain(j);
    DigitsParse(i);
    DigitsParse(j);
    if RoutingKey([], i) == RoutingKey([], j) {
      AsciiApart("rr-" + Digits(i), "rr-" + Digits(j));
    }
    KeyStarts(Digits(i));
  }

  lemma KeyStarts(s: string)
    requires s != []
    ensures |Ascii("rr-" + s)| > 3 && Ascii("rr-" + s)[..3] == [0x72, 0x72, 0x2d]
  {
  }

  function Route(poolSize: nat): Message -> nat
    requires poolSize > 0
  {
    (m: Message) => HashToIndex(m.key, poolSize)
  }

  function OfKey(key: Bytes): Message -> bool {
    (m: Message) => m.key == key
  }

  function OfClaim(claim: nat): Message -> bool {
    (m: Message) => m.claim == claim
  }

  function OfBoth(key: Bytes, claim: nat): Message -> bool {
    (m: Message) => m.key == key && m.claim == claim
  }

  function Reached(poolSize: nat, schedule: seq<Event<Message>>): Sys<Message>
    requires poolSize > 0
  {
    Exec(Init(poolSize), Route(poolSize), schedule)
  }

  // ---------------------------------------------------------------- order per aggregate

  /** In every run the handler calls for one aggregate are a subsequence of that aggregate's
      submissions, and if no inbox drops anything they are an initial part of them, whatever all the
      other aggregates do meanwhile. */
  lemma {:induction false} AggregateOrder(poolSize: nat, schedule: seq<Event<Message>>, key: Bytes)
    requires poolSize > 0
    ensures var s := Reached(poolSize, schedule);
            && Subsequence(Select(OfKey(key), s.calls), Select(OfKey(key), s.submitted))
            && |s.workers| == poolSize
            && (NoDrop(schedule) ==>
                  Select(OfKey(key), s.submitted)
                  == Select(OfKey(key), s.calls) + Select(OfKey(key), s.workers[HashToIndex(key, poolSize)].inbox))
  {
    OrderPerKey(poolSize, Route(poolSize), schedule, OfKey(key), HashToIndex(key, poolSize));
    if NoDrop(schedule) {
      NoDropNoLoss(Init(poolSize), Route(poolSize), schedule);
    }
  }

  predicate OffsetsIncrease(s: seq<Message>) {
    forall j, k :: 0 <= j < k < |s| ==> s[j].offset < s[k].offset
  }

  lemma {:induction false} SubsequenceMembers(a: seq<Message>, b: seq<Message>)
    requires Subsequence(a, b)
    ensures forall x :: x in a ==> x in b
    decreases |b|
  {
    if a != [] {
      var a', b' := a[..|a| - 1], b[..|b| - 1];
      assert a == a' + [a[|a| - 1]] && b == b' + [b[|b| - 1]];
      if a[|a| - 1] == b[|b| - 1] && Subsequence(a', b') {
        SubsequenceMembers(a', b');
      } else {
        SubsequenceMembers(a, b');
      }
    }
  }

  lemma {:induction false} SubsequenceIncreases(a: seq<Message>, b: seq<Message>)
    requires Subsequence(a, b) && OffsetsIncrease(b)
    ensures OffsetsIncrease(a)
    decreases |b|
  {
    if a != [] {
      var a', b' := a[..|a| - 1], b[..|b| - 1];
      if a[|a| - 1] == b[|b| - 1] && Subsequence(a', b') {
        SubsequenceIncreases(a', b');
        SubsequenceMembers(a', b');
        forall j | 0 <= j < |a'| ensures a[j].offset < a[|a| - 1].offset {
          assert a'[j] in b';
        }
      } else {
        SubsequenceIncreases(a, b');
      }
    }
  }

  /** If a claim submits in offset order, the calls for each of its aggregates are made in offset
      order, although other aggregates of the claim overtake. */
  lemma {:induction false} OrderWithinClaim(s: Sys<Message>, poolSize: nat, key: Bytes, claim: nat)
    requires poolSize > 0 && |s.workers| == poolSize && Inv(s, Route(poolSize))
    requires OffsetsIncrease(Select(OfClaim(claim), s.submitted))
    ensures OffsetsIncrease(Select(OfBoth(key, claim), s.calls))
    ensures Subsequence(Select(OfBoth(key, claim), s.calls), Select(OfClaim(claim), s.submitted))
  {
    var both, whole := OfBoth(key, claim), OfClaim(claim);
    OrderOf(s, Route(poolSize), both, HashToIndex(key, poolSize));
    SelectWithin(both, whole, s.submitted);
    SelectIsSubsequence(both, Select(whole, s.submitted));
    SubsequenceTransitive(Select(both, s.calls), Select(both, s.submitted), Select(whole, s.submitted));
    SubsequenceIncreases(Select(both, s.calls), Select(whole, s.submitted));
  }

  lemma {:induction false} SelectIsSubsequence(p: Message -> bool, s: seq<Message>)
    ensures Subsequence(Select(p, s), s)
  {
    if s != [] {
      var init, last := s[..|s| - 1], s[|s| - 1];
      SelectIsSubsequence(p, init);
      SelectStep(p, init, last);
      assert init + [last] == s;
    }
  }

  lemma SelectStep(p: Message -> bool, init: seq<Message>, last: Message)
    requires Subsequence(Select(p, init), init)
    ensures Subsequence(Select(p, init + [last]), init + [last])
  {
    SelectAppend(p, init, last);
    SubsequenceGrows(Select(p, init), init, last);
    assert Select(p, init) + [] == Select(p, init);
  }

  /** Two handler calls for the same aggregate never run at the same time. */
  lemma {:induction false} NoOverlap(poolSize: nat, schedule: seq<Event<Message>>, v: nat, w: nat)
    requires poolSize > 0
    requires var s := Reached(poolSize, schedule);
             && v < |s.workers| && s.workers[v].current.Some? && w < |s.workers| && s.workers[w].current.Some?
             && s.workers[v].current.value.key == s.workers[w].current.value.key
    ensures v == w
  {
    var key := Reached(poolSize, schedule).workers[v].current.value.key;
    OneAtATime(poolSize, Route(poolSize), schedule, OfKey(key), HashToIndex(key, poolSize), v);
    OneAtATime(poolSize, Route(poolSize), schedule, OfKey(key), HashToIndex(key, poolSize), w);
  }

  // ---------------------------------------------------------------- the pool as an object

  /** What running a handler can lead to; an error is a number. */
  datatype Outcome = Returned(err: Option<int>) | Panicked(reason: int)

  /** A message's reply channel, which has room for one reply. */
  class Done {
    var replies: seq<Option<int>>

    constructor ()
      ensures replies == []
    {
      replies := [];
    }

    /** The non-blocking send of a reply. */
    method TrySend(reply: Option<int>)
      modifies this
      ensures replies == if old(replies) == [] then [reply] else old(replies)
    {
      if |replies| < 1 {
        replies := replies + [reply];
      }
    }
  }

  datatype Job = Job(message: Message, done: Done)

  /** No two waiting messages share a reply channel. */
  ghost predicate OwnReplies(inboxes: seq<seq<Job>>) {
    forall i, j, k, l :: 0 <= i < |inboxes| && 0 <= j < |inboxes[i]| && 0 <= k < |inboxes| && 0 <= l < |inboxes[k]| ==>
      inboxes[i][j].done == inboxes[k][l].done ==> i == k && j == l
  }

  lemma OwnReplyAdded(inboxes: seq<seq<Job>>, i: nat, job: Job)
    requires OwnReplies(inboxes) && i < |inboxes|
    requires forall k, l :: 0 <= k < |inboxes| && 0 <= l < |inboxes[k]| ==> inboxes[k][l].done != job.done
    ensures OwnReplies(inboxes[i := inboxes[i] + [job]])
  {
    var after := inboxes[i := inboxes[i] + [job]];
    assert forall k, l :: 0 <= k < |after| && 0 <= l < |after[k]| ==>
      if k == i && l == |inboxes[i]| then after[k][l] == job else l < |inboxes[k]| && after[k][l] == inboxes[k][l];
  }

  lemma OwnReplyTaken(inboxes: seq<seq<Job>>, i: nat)
    requires OwnReplies(inboxes) && i < |inboxes| && inboxes[i] != []
    ensures OwnReplies(inboxes[i := inboxes[i][1..]])
    ensures forall k, l :: 0 <= k < |inboxes| && (if k == i then 0 < l else 0 <= l) && l < |inboxes[k]| ==>
              inboxes[k][l].done != inboxes[i][0].done
  {
    var after := inboxes[i := inboxes[i][1..]];
    assert forall k, l :: 0 <= k < |after| && 0 <= l < |after[k]| ==>
      after[k][l] == if k == i then inboxes[k][l + 1] else inboxes[k][l];
  }

  class Pool {
    var inboxes: seq<seq<Job>>
    var depth: seq<int>            // the counters of Pool and PoolActor
    ghost var dropped: seq<nat>    // how many messages each inbox has dropped

    ghost function Waiting(): set<Done>
      reads this
    {
      set i, j | 0 <= i < |inboxes| && 0 <= j < |inboxes[i]| :: inboxes[i][j].done
    }

    /** A waiting message has no reply yet; the depth counter of an actor is the length of its inbox
        plus what the inbox has dropped. */
    ghost predicate Valid()
      reads this, Waiting()
    {
      && |inboxes| > 0 && |depth| == |dropped| == |inboxes|
      && (forall i :: 0 <= i < |inboxes| ==> depth[i] == |inboxes[i]| + dropped[i])
      && (forall i, j :: 0 <= i < |inboxes| && 0 <= j < |inboxes[i]| ==>
            HashToIndex(inboxes[i][j].message.key, |inboxes|) == i && inboxes[i][j].done.replies == [])
      && OwnReplies(inboxes)
    }

    constructor (poolSize: int)
      ensures Valid() && |inboxes| == if poolSize > 0 then poolSize else 256
      ensures forall i :: 0 <= i < |inboxes| ==> inboxes[i] == []
    {
      var n := if poolSize > 0 then poolSize else 256;
      inboxes := seq(n, _ => []);
      depth := seq(n, _ => 0);
      dropped := seq(n, _ => 0);
    }

    /** A message without a key is refused; any other one goes to the end of its aggregate's inbox,
        unless that is full. The depth counter moves in both cases. */
    method ProcessMessage(m: Message, done: Done, fits: bool) returns (ok: bool)
      requires Valid() && done.replies == [] && done !in Waiting()
      modifies this
      ensures Valid() && |inboxes| == |old(inboxes)|
      ensures ok <==> m.key != []
      ensures !ok ==> inboxes == old(inboxes) && depth == old(depth)
      ensures ok ==> var i := HashToIndex(m.key, |inboxes|);
                     && inboxes == old(inboxes)[i := old(inboxes)[i] + if fits then [Job(m, done)] else []]
                     && depth == old(depth)[i := old(depth)[i] + 1]
    {
      hide HashToIndex, OwnReplies;
      if m.key == [] {
        return false;
      }
      var i := HashToIndex(m.key, |inboxes|);
      depth := depth[i := depth[i] + 1];
      ok := true;
      if !fits {
        dropped := dropped[i := dropped[i] + 1];
        assert inboxes[i] + [] == inboxes[i] && inboxes[i := inboxes[i]] == inboxes;
        return;
      }
      assert forall k, l :: 0 <= k < |inboxes| && 0 <= l < |inboxes[k]| ==> inboxes[k][l].done in Waiting();
      OwnReplyAdded(inboxes, i, Job(m, done));
      inboxes := inboxes[i := inboxes[i] + [Job(m, done)]];
    }

    /** An actor handles its oldest message. The message gets exactly one reply, also when the handler
        panics, and it is nil exactly when the handler returned nil; nobody else gets one. */
    method Receive(i: nat, outcome: Outcome) returns (job: Job)
      requires Valid() && i < |inboxes| && inboxes[i] != []
      modifies this, inboxes[i][0].done
      ensures Valid() && |inboxes| == |old(inboxes)|
      ensures old(inboxes)[i] == [job] + inboxes[i] && depth == old(depth)[i := old(depth)[i] - 1]
      ensures forall k :: 0 <= k < |inboxes| && k != i ==> inboxes[k] == old(inboxes)[k]
      ensures |job.done.replies| == 1
      ensures job.done.replies[0] == None <==> outcome == Returned(None)
      ensures outcome.Returned? ==> job.done.replies[0] == outcome.err
    {
      hide HashToIndex, OwnReplies;
      job := inboxes[i][0];
      OwnReplyTaken(inboxes, i);
      inboxes := inboxes[i := inboxes[i][1..]];
      depth := depth[i := depth[i] - 1];
      match outcome
      case Returned(err) => job.done.TrySend(err);
      case Panicked(reason) => job.done.TrySend(Some(reason));
    }
  }
}
