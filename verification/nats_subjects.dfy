/** NATS subjects with wildcards, and the subject lists of the JetStream streams that are kept up to
    date with them. */
module NatsSubjects {

  type Token = string

  // ---------------------------------------------------------------- tokens

  /** strings.Split(s, "."): one token more than there are dots. */
  function Split(s: string): (tokens: seq<Token>)
    ensures tokens != []
  {
    if s == [] then [[]]
    else
      var rest := Split(s[1..]);
      if s[0] == '.' then [[]] + rest else [[s[0]] + rest[0]] + rest[1..]
  }

  function Join(tokens: seq<Token>): string {
    if tokens == [] then [] else if |tokens| == 1 then tokens[0] else tokens[0] + "." + Join(tokens[1..])
  }

  lemma {:induction false} JoinSplit(s: string)
    ensures Join(Split(s)) == s
  {
    if s != [] {
      var rest := Split(s[1..]);
      JoinSplit(s[1..]);
      if s[0] == '.' {
        assert Split(s)[1..] == rest;
        assert [] + "." + s[1..] == s;
      } else {
        assert Split(s)[1..] == rest[1..] && Split(s)[0] == [s[0]] + rest[0];
        assert Join(Split(s)) == [s[0]] + Join(rest);
      }
    }
  }

  /** A word without dots is one token, and a dot after it ends that token. */
  lemma {:induction false} SplitWord(word: Token)
    requires '.' !in word
    ensures Split(word) == [word]
  {
    if word != [] {
      SplitWord(word[1..]);
      assert [word[0]] + word[1..] == word;
    }
  }

  lemma {:induction false} SplitAfterWord(word: Token, s: string)
    requires '.' !in word
    ensures Split(word + "." + s) == [word] + Split(s)
  {
    var whole := word + "." + s;
    if word == [] {
      assert whole[1..] == s;
    } else {
      SplitAfterWord(word[1..], s);
      assert whole[1..] == word[1..] + "." + s;
      assert [word[0]] + word[1..] == word;
    }
  }

  // ---------------------------------------------------------------- matching

  /** What matching means: `*` stands for one token, `>` for everything that is left, which must be
      at least one token. */
  predicate Matches(pattern: seq<Token>, topic: seq<Token>) {
    if pattern == [] then topic == []
    else topic != [] && (pattern[0] == ">" || ((pattern[0] == "*" || pattern[0] == topic[0]) && Matches(pattern[1..], topic[1..])))
  }

  function Tail(pattern: seq<Token>): (g: nat)
    ensures g <= |pattern| && (forall i :: 0 <= i < g ==> pattern[i] != ">") && (g < |pattern| ==> pattern[g] == ">")
  {
    if pattern == [] || pattern[0] == ">" then 0 else 1 + Tail(pattern[1..])
  }

  predicate Agree(pattern: seq<Token>, topic: seq<Token>, n: nat)
    requires n <= |pattern|
  {
    n <= |topic| && forall i :: 0 <= i < n ==> pattern[i] == "*" || pattern[i] == topic[i]
  }

  /** The same without recursion: token by token up to the first `>`, which needs something to stand
      for, or to the end of both. */
  lemma {:induction false} MatchesPointwise(pattern: seq<Token>, topic: seq<Token>)
    ensures var g := Tail(pattern);
            Matches(pattern, topic) <==> Agree(pattern, topic, g) && if g < |pattern| then |topic| > g else |topic| == g
  {
    if pattern != [] && topic != [] && pattern[0] != ">" {
      MatchesPointwise(pattern[1..], topic[1..]);
      var g := Tail(pattern[1..]);
      if Agree(pattern[1..], topic[1..], g) && (pattern[0] == "*" || pattern[0] == topic[0]) {
        forall i | 0 <= i < g + 1 ensures pattern[i] == "*" || pattern[i] == topic[i] {
          assert i > 0 ==> pattern[i] == pattern[1..][i - 1] && topic[i] == topic[1..][i - 1];
        }
      }
      if Agree(pattern, topic, g + 1) {
        forall i | 0 <= i < g ensures pattern[1..][i] == "*" || pattern[1..][i] == topic[1..][i] {
          assert pattern[i + 1] == "*" || pattern[i + 1] == topic[i + 1];
        }
      }
    }
  }

  lemma {:induction false} MatchesItself(tokens: seq<Token>)
    ensures Matches(tokens, tokens)
  {
    if tokens != [] {
      MatchesItself(tokens[1..]);
    }
  }

  predicate Covers(pattern: string, topic: string) {
    Matches(Split(pattern), Split(topic))
  }

  /** The matching loop decides exactly this; its shortcut for equal strings changes nothing. */
  method SubjectMatches(pattern: string, topic: string) returns (matches: bool)
    ensures matches <==> Covers(pattern, topic)
  {
    if pattern == topic {
      MatchesItself(Split(pattern));
      return true;
    }
    var patternTokens, topicTokens := Split(pattern), Split(topic);
    var pi, ti := 0, 0;
    assert patternTokens[0..] == patternTokens && topicTokens[0..] == topicTokens;
    while pi < |patternTokens| && ti < |topicTokens|
      invariant pi == ti && pi <= |patternTokens| && ti <= |topicTokens|
      invariant Matches(patternTokens[pi..], topicTokens[ti..]) <==> Covers(pattern, topic)
    {
      assert patternTokens[pi..][1..] == patternTokens[pi + 1..] && topicTokens[ti..][1..] == topicTokens[ti + 1..];
      var pToken, tToken := patternTokens[pi], topicTokens[ti];
      if pToken == ">" {
        return true;
      } else if pToken == "*" {
        pi, ti := pi + 1, ti + 1;
      } else if pToken == tToken {
        pi, ti := pi + 1, ti + 1;
      } else {
        return false;
      }
    }
    matches := pi == |patternTokens| && ti == |topicTokens|;
  }

  // ---------------------------------------------------------------- overlap

  /** No wildcards: a topic that messages can be published on. */
  predicate Literal(topic: string) {
    forall i :: 0 <= i < |Split(topic)| ==> Split(topic)[i] != "*" && Split(topic)[i] != ">"
  }

  /** Two subjects overlap if some message belongs to both; JetStream refuses such streams. */
  ghost predicate Overlap(a: string, b: string) {
    exists topic: string :: Literal(topic) && Covers(a, topic) && Covers(b, topic)
  }

  lemma {:induction false} LiteralTokens(tokens: seq<Token>, topic: seq<Token>)
    requires forall i :: 0 <= i < |tokens| ==> tokens[i] != "*" && tokens[i] != ">"
    ensures Matches(tokens, topic) <==> tokens == topic
  {
    if tokens != [] && topic != [] {
      LiteralTokens(tokens[1..], topic[1..]);
      assert tokens == [tokens[0]] + tokens[1..] && topic == [topic[0]] + topic[1..];
    }
  }

  /** A literal topic covers itself alone. */
  lemma {:induction false} LiteralCovers(topic: string, other: string)
    requires Literal(topic)
    ensures Covers(topic, other) <==> topic == other
  {
    LiteralTokens(Split(topic), Split(other));
    JoinSplit(topic);
    JoinSplit(other);
  }

  /** So for literal topics the code's check, whether a subject matches the topic, is the overlap
      check that JetStream makes. */
  lemma {:induction false} LiteralOverlap(subject: string, topic: string)
    requires Literal(topic)
    ensures Overlap(subject, topic) <==> Covers(subject, topic)
  {
    LiteralCovers(topic, topic);
    if Overlap(subject, topic) {
      var other :| Literal(other) && Covers(subject, other) && Covers(topic, other);
      LiteralCovers(topic, other);
    }
  }

  predicate DotFree(tokens: seq<Token>) {
    forall i :: 0 <= i < |tokens| ==> '.' !in tokens[i]
  }

  lemma {:induction false} SplitIsDotFree(s: string)
    ensures DotFree(Split(s))
  {
    if s != [] {
      SplitIsDotFree(s[1..]);
    }
  }

  lemma {:induction false} SplitJoin(tokens: seq<Token>)
    requires tokens != [] && DotFree(tokens)
    ensures Split(Join(tokens)) == tokens
  {
    if |tokens| == 1 {
      SplitWord(tokens[0]);
    } else {
      SplitJoin(tokens[1..]);
      SplitAfterWord(tokens[0], Join(tokens[1..]));
      assert tokens == [tokens[0]] + tokens[1..];
    }
  }

  /** One way to read a pattern: "a" for each wildcard. */
  function Fill(tokens: seq<Token>): seq<Token> {
    if tokens == [] then []
    else if tokens[0] == ">" then ["a"]
    else [if tokens[0] == "*" then "a" else tokens[0]] + Fill(tokens[1..])
  }

  lemma {:induction false} FillOk(tokens: seq<Token>)
    requires DotFree(tokens)
    ensures Matches(tokens, Fill(tokens)) && DotFree(Fill(tokens)) && (tokens != [] ==> Fill(tokens) != [])
    ensures forall i :: 0 <= i < |Fill(tokens)| ==> Fill(tokens)[i] != "*" && Fill(tokens)[i] != ">"
  {
    if tokens != [] && tokens[0] != ">" {
      FillOk(tokens[1..]);
      assert Fill(tokens)[1..] == Fill(tokens[1..]);
    }
  }

  /** A topic with wildcards overlaps with a subject that does not match it. */
  lemma {:induction false} WildcardOverlaps(topic: string) returns (subject: string)
    requires !Literal(topic)
    ensures Overlap(subject, topic) && !Covers(subject, topic)
  {
    var tokens := Fill(Split(topic));
    SplitIsDotFree(topic);
    FillOk(Split(topic));
    subject := Join(tokens);
    SplitJoin(tokens);
    LiteralCovers(subject, subject);
    LiteralCovers(subject, topic);
    assert Literal(subject) && Covers(subject, subject) && Covers(topic, subject);
  }

  ghost predicate CheckIsExact(topic: string) {
    forall subject: string :: Overlap(subject, topic) <==> Covers(subject, topic)
  }

  /** The code's check finds exactly the overlaps if and only if the topic is literal. */
  lemma {:induction false} CheckIsExactIff(topic: string)
    ensures CheckIsExact(topic) <==> Literal(topic)
  {
    if Literal(topic) {
      forall subject: string ensures Overlap(subject, topic) <==> Covers(subject, topic) {
        LiteralOverlap(subject, topic);
      }
    } else {
      var subject := WildcardOverlaps(topic);
      assert Overlap(subject, topic) && !Covers(subject, topic);
    }
  }

  /** The smallest instance: with foo.bar in the list, the check lets foo.* through. */
  lemma {:induction false} WildcardTopicOverlaps()
    ensures !Covers("foo.bar", "foo.*") && Overlap("foo.bar", "foo.*")
  {
    FooTokens();
    assert Matches(["bar"], ["bar"]) && Matches(["*"], ["bar"]) && !Matches(["bar"], ["*"]);
    assert ["foo", "bar"][1..] == ["bar"] && ["foo", "*"][1..] == ["*"];
    assert Literal("foo.bar");
    assert Covers("foo.bar", "foo.bar") && Covers("foo.*", "foo.bar");
  }

  lemma {:induction false} FooTokens()
    ensures Split("foo.bar") == ["foo", "bar"] && Split("foo.*") == ["foo", "*"]
  {
    TwoWords("foo", "bar");
    TwoWords("foo", "*");
    assert "foo" + "." + "bar" == "foo.bar" && "foo" + "." + "*" == "foo.*";
  }

  lemma TwoWords(first: Token, second: Token)
    requires '.' !in first && '.' !in second
    ensures Split(first + "." + second) == [first, second]
  {
    SplitWord(second);
    SplitAfterWord(first, second);
  }

  // ---------------------------------------------------------------- the subject lists

  type Streams = map<string, seq<string>>

  predicate CoveredBy(subjects: seq<string>, topic: string) {
    exists i :: 0 <= i < |subjects| && Covers(subjects[i], topic)
  }

  ghost predicate Disjoint(subjects: seq<string>) {
    forall i, j :: 0 <= i < j < |subjects| ==> !Overlap(subjects[i], subjects[j])
  }

  function Underscored(topic: string): string {
    if topic == [] then [] else [if topic[0] == '.' then '_' else topic[0]] + Underscored(topic[1..])
  }

  function StreamName(configured: string, topic: string): string {
    if configured != "" then configured else "STREAM_" + Underscored(topic)
  }

  lemma {:induction false} UnderscoredAt(topic: string, i: nat)
    requires i < |topic|
    ensures |Underscored(topic)| == |topic|
    ensures Underscored(topic)[i] == if topic[i] == '.' then '_' else topic[i]
  {
    if |topic| > 1 {
      UnderscoredAt(topic[1..], if i > 0 then i - 1 else 0);
    }
  }

  /** A configured name wins. Otherwise the name is made of the topic, its dots replaced by underscores. */
  lemma {:induction false} StreamNames(configured: string, topic: string)
    ensures configured != "" ==> StreamName(configured, topic) == configured
    ensures configured == "" ==> var name := StreamName(configured, topic);
              && |name| == 7 + |topic| && name[..7] == "STREAM_"
              && forall i :: 0 <= i < |topic| ==> name[7 + i] == if topic[i] == '.' then '_' else topic[i]
  {
    if topic != "" {
      UnderscoredAt(topic, 0);
    }
    forall i | 0 <= i < |topic| ensures Underscored(topic)[i] == if topic[i] == '.' then '_' else topic[i] {
      UnderscoredAt(topic, i);
    }
  }

  /** The streams after a topic was ensured: its stream is created for it, or it is added unless a
      subject of the stream covers it already. */
  function Ensured(streams: Streams, configured: string, topic: string): Streams {
    var name := StreamName(configured, topic);
    if name !in streams then streams[name := [topic]]
    else if CoveredBy(streams[name], topic) then streams
    else streams[name := streams[name] + [topic]]
  }

  /** An ensure call: its topic, whether the request for the stream's description fails although the
      stream may exist, and whether the server would accept a new or changed stream. */
  datatype Call = Call(topic: string, infoFails: bool, accepted: bool)

  /** After any error of that request the code takes the stream for missing and asks for a new one. The
      server does not create a stream under a name in use, unless it is asked for what is there. */
  predicate Succeeds(streams: Streams, configured: string, call: Call) {
    var name := StreamName(configured, call.topic);
    if call.infoFails then call.accepted && (name in streams ==> streams[name] == [call.topic])
    else Served(streams, configured, call.topic) || call.accepted
  }

  function AfterCall(streams: Streams, configured: string, call: Call): Streams {
    if !Succeeds(streams, configured, call) || (call.infoFails && StreamName(configured, call.topic) in streams) then streams
    else Ensured(streams, configured, call.topic)
  }

  function AfterCalls(streams: Streams, configured: string, calls: seq<Call>): Streams
    decreases |calls|
  {
    if calls == [] then streams else AfterCalls(AfterCall(streams, configured, calls[0]), configured, calls[1..])
  }

  ghost predicate AllDisjoint(streams: Streams) {
    forall name :: name in streams ==> Disjoint(streams[name])
  }

  predicate Served(streams: Streams, configured: string, topic: string) {
    StreamName(configured, topic) in streams && CoveredBy(streams[StreamName(configured, topic)], topic)
  }

  predicate Extends(streams: Streams, streams': Streams) {
    forall name :: name in streams ==> name in streams' && streams[name] <= streams'[name]
  }

  lemma {:induction false} EnsureOne(streams: Streams, configured: string, topic: string)
    requires AllDisjoint(streams) && Literal(topic)
    ensures var streams' := Ensured(streams, configured, topic);
            AllDisjoint(streams') && Served(streams', configured, topic) && Extends(streams, streams')
  {
    var name := StreamName(configured, topic);
    var streams' := Ensured(streams, configured, topic);
    LiteralCovers(topic, topic);
    var subjects := if name in streams then streams[name] else [];
    if !CoveredBy(subjects, topic) {
      assert streams'[name] == subjects + [topic];
      assert streams'[name][|subjects|] == topic;
      forall i | 0 <= i < |subjects| ensures !Overlap(subjects[i], topic) {
        LiteralOverlap(subjects[i], topic);
      }
    }
  }

  lemma {:induction false} ServedStays(streams: Streams, streams': Streams, configured: string, topic: string)
    requires Served(streams, configured, topic) && Extends(streams, streams')
    ensures Served(streams', configured, topic)
  {
    var name := StreamName(configured, topic);
    var i :| 0 <= i < |streams[name]| && Covers(streams[name][i], topic);
    assert streams'[name][i] == streams[name][i];
  }

  lemma {:induction false} CallKeeps(streams: Streams, configured: string, call: Call)
    requires AllDisjoint(streams) && Literal(call.topic)
    ensures var streams' := AfterCall(streams, configured, call);
            && AllDisjoint(streams') && Extends(streams, streams')
            && (Succeeds(streams, configured, call) ==> Served(streams', configured, call.topic))
  {
    EnsureOne(streams, configured, call.topic);
    LiteralCovers(call.topic, call.topic);
    var name := StreamName(configured, call.topic);
    if name in streams && streams[name] == [call.topic] {
      assert Covers(streams[name][0], call.topic);
    }
  }

  /** Any sequence of ensure calls on literal topics, whatever the server answers, keeps subject lists
      without overlap free of it and removes no subject; every topic whose call succeeded is served by
      its stream in the end. */
  lemma {:induction false} EnsureCalls(streams: Streams, configured: string, calls: seq<Call>)
    requires AllDisjoint(streams) && forall k :: 0 <= k < |calls| ==> Literal(calls[k].topic)
    ensures var streams' := AfterCalls(streams, configured, calls);
            && AllDisjoint(streams') && Extends(streams, streams')
            && forall k :: 0 <= k < |calls| && Succeeds(AfterCalls(streams, configured, calls[..k]), configured, calls[k]) ==>
                 Served(streams', configured, calls[k].topic)
    decreases |calls|
  {
    if calls != [] {
      var middle := AfterCall(streams, configured, calls[0]);
      var streams' := AfterCalls(streams, configured, calls);
      CallKeeps(streams, configured, calls[0]);
      EnsureCalls(middle, configured, calls[1..]);
      forall k | 0 <= k < |calls| && Succeeds(AfterCalls(streams, configured, calls[..k]), configured, calls[k])
        ensures Served(streams', configured, calls[k].topic)
      {
        if k == 0 {
          assert calls[..0] == [];
          ServedStays(middle, streams', configured, calls[0].topic);
        } else {
          assert calls[..k][1..] == calls[1..][..k - 1] && calls[k] == calls[1..][k - 1];
        }
      }
    }
  }

  lemma ServedByItself(streams: Streams, configured: string, topic: string)
    requires Literal(topic) && StreamName(configured, topic) in streams && topic in streams[StreamName(configured, topic)]
    ensures Served(streams, configured, topic)
  {
    LiteralCovers(topic, topic);
  }

  class NatsEventBus {
    const configured: string    // the configured stream name, possibly empty
    var streams: Streams        // on the server

    constructor (configured: string, streams: Streams)
      ensures this.configured == configured && this.streams == streams
    {
      this.configured, this.streams := configured, streams;
    }

    /** `infoFails`: the request for the stream's description fails, whether it exists or not.
        `accepted` is the server's answer to creating or updating a stream. */
    method EnsureTopicInJetStream(topic: string, infoFails: bool, accepted: bool) returns (ok: bool)
      modifies this`streams
      ensures ok <==> Succeeds(old(streams), configured, Call(topic, infoFails, accepted))
      ensures streams == AfterCall(old(streams), configured, Call(topic, infoFails, accepted))
      ensures !infoFails && accepted ==> ok
      ensures !infoFails && !accepted ==> (ok <==> Served(old(streams), configured, topic))
      ensures !ok ==> streams == old(streams)
      ensures ok && Literal(topic) ==> Served(streams, configured, topic)
      ensures forall name :: name != StreamName(configured, topic) ==>
                (name in streams <==> name in old(streams)) && (name in streams ==> streams[name] == old(streams)[name])
      ensures var name := StreamName(configured, topic);
              && (ok ==> name in streams)
              && (ok && name !in old(streams) ==> streams[name] == [topic])
              && (ok && !infoFails && name in old(streams) && !Served(old(streams), configured, topic) ==>
                    streams[name] == old(streams)[name] + [topic])
    {
      var name := StreamName(configured, topic);
      if infoFails || name !in streams {
        ok := CreateStreamForTopic(name, topic, accepted);
        if ok && Literal(topic) {
          ServedByItself(streams, configured, topic);
        }
        return;
      }
      var subjects := streams[name];
      for i := 0 to |subjects|
        invariant streams == old(streams) && forall j :: 0 <= j < i ==> !Covers(subjects[j], topic)
      {
        var matches := SubjectMatches(subjects[i], topic);
        if matches {
          assert CoveredBy(subjects, topic);
          return true;
        }
      }
      ok := AddTopicToStream(name, topic, accepted);
      if ok && Literal(topic) {
        assert streams[name][|subjects|] == topic;
        ServedByItself(streams, configured, topic);
      }
    }

    /** A name in use is refused, unless the stream has exactly these subjects. */
    method CreateStreamForTopic(name: string, topic: string, accepted: bool) returns (ok: bool)
      modifies this`streams
      ensures ok <==> accepted && (name in old(streams) ==> old(streams)[name] == [topic])
      ensures streams == if ok then old(streams)[name := [topic]] else old(streams)
    {
      ok := accepted && (name in streams ==> streams[name] == [topic]);
      if ok {
        streams := streams[name := [topic]];
      }
    }

    method AddTopicToStream(name: string, topic: string, accepted: bool) returns (ok: bool)
      requires name in streams
      modifies this`streams
      ensures ok <==> accepted
      ensures streams == if ok then old(streams)[name := old(streams)[name] + [topic]] else old(streams)
    {
      ok := accepted;
      if ok {
        streams := streams[name := streams[name] + [topic]];
      }
    }
  }
}
