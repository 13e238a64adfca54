/** The per-request support object: leveled notifications that carry the
    request's context, a queue that holds the low-level messages of a request
    so that an error can replay them, statsd calls that happen only when
    statistics are enabled, and the two redis sorted sets of URI statistics.

    The logger, statsd and redis are not called: the state records what was
    logged (with the context it was logged with), what was sent to statsd,
    and the sorted sets themselves. */
module Support {
  import opened Wrappers
  import opened Errors

  const SetUrisCount := "uris:count"
  const SetSlowRequests := "uris:slow_requests"

  datatype Level = Critical | Error | Warning | Info | Debug

  /** Critical and error replay the queue; the other levels feed it. */
  predicate Flushes(l: Level) {
    l == Critical || l == Error
  }

  /** The `extra` dict handed to every log call. A `details` of "" stands for
      no details. */
  datatype Extra = Extra(env: Option<string>, service: Option<string>, handler: Option<string>,
                         requestId: string, details: string)

  /** One call of the logger: its level, message, and the context it carried. */
  datatype Record = Record(level: Level, message: string, extra: Extra)

  datatype StatOp = Increment | Decrement | Gauge(delta: bool) | SetMember | Timing
  datatype StatsCall = StatsCall(op: StatOp, stat: string, value: int, rate: int)

  /** `statsPrefix` is the statsd client's prefix, present exactly when
      statistics are enabled. */
  datatype State = State(extra: Extra, queue: seq<string>, logEntire: bool, statsPrefix: Option<string>,
                         log: seq<Record>, stats: seq<StatsCall>)

  predicate StatsEnabled(s: State) {
    s.statsPrefix.Some?
  }

  /** Messages are queued only while the whole request is to be logged. */
  predicate Quiet(s: State) {
    !s.logEntire ==> s.queue == []
  }

  function Get(m: map<string, string>, k: string): Option<string> {
    if k in m then Some(m[k]) else None
  }

  /** `Support(logger, extra_info)`: an empty context with the request id
      defaulting to `noRequestId`; the whole request is logged exactly for the
      levels CRITICAL and ERROR; with statistics on, the statsd prefix is
      'pubtrans.' + environment, which raises TypeError when the environment
      is missing. */
  function Init(extraInfo: map<string, string>, noRequestId: string, logLevel: string, statsEnabled: bool): (r: Outcome<State>)
    ensures r.Failure? <==> statsEnabled && "environment" !in extraInfo
    ensures r.Failure? ==> r.error.kind == TypeError
    ensures r.Success? ==> r.value.extra.details == "" && r.value.queue == [] && r.value.log == [] && r.value.stats == []
    ensures r.Success? ==> r.value.extra.env == Get(extraInfo, "environment")
    ensures r.Success? ==> r.value.extra.requestId == (if "requestId" in extraInfo then extraInfo["requestId"] else noRequestId)
    ensures r.Success? ==> (r.value.logEntire <==> logLevel == "CRITICAL" || logLevel == "ERROR")
    ensures r.Success? ==> (StatsEnabled(r.value) <==> statsEnabled)
    ensures r.Success? && statsEnabled ==> r.value.statsPrefix == Some("pubtrans." + extraInfo["environment"])
  {
    var env := Get(extraInfo, "environment");
    var extra := Extra(env, Get(extraInfo, "service"), Get(extraInfo, "handler"),
                       Get(extraInfo, "requestId").GetOr(noRequestId), "");
    if statsEnabled && env.None? then Raise(TypeError, "cannot concatenate 'str' and 'NoneType' objects")
    else
      var prefix := if statsEnabled then Some("pubtrans." + env.value) else None;
      Success(State(extra, [], logLevel in {"CRITICAL", "ERROR"}, prefix, [], []))
  }

  /** The queued messages logged one by one at `level` with `extra`. */
  function Replay(queue: seq<string>, level: Level, extra: Extra): (rs: seq<Record>)
    ensures |rs| == |queue|
    ensures forall i :: 0 <= i < |queue| ==> rs[i] == Record(level, queue[i], extra)
  {
    seq(|queue|, i requires 0 <= i < |queue| => Record(level, queue[i], extra))
  }

  /** `notify_<level>(message, details)`. */
  function Notify(s: State, level: Level, message: string, details: string): (r: State)
    // the details are the given ones when truthy, else the message; nothing else of the context changes
    ensures r.extra.details == (if details != "" then details else message)
    ensures r.extra.(details := s.extra.details) == s.extra
    // the notification's own message is the last thing logged, with the new context
    ensures |r.log| > |s.log| && r.log[..|s.log|] == s.log
    ensures r.log[|r.log| - 1] == Record(level, message, r.extra)
    // only a buffered flush logs anything besides the message itself
    ensures !(Flushes(level) && s.logEntire) ==> r.log == s.log + [Record(level, message, r.extra)]
    ensures Flushes(level) && s.logEntire ==>
      r.log == s.log + Replay(s.queue, level, r.extra) + [Record(level, message, r.extra)] && r.queue == []
    ensures !Flushes(level) && s.logEntire ==> r.queue == s.queue + [message]
    ensures !s.logEntire ==> r.queue == s.queue
    ensures r.logEntire == s.logEntire && r.statsPrefix == s.statsPrefix && r.stats == s.stats
    ensures Quiet(s) ==> Quiet(r)
  {
    var extra := s.extra.(details := if details != "" then details else message);
    var own := Record(level, message, extra);
    if Flushes(level) && s.logEntire then
      s.(extra := extra, queue := [], log := s.log + Replay(s.queue, level, extra) + [own])
    else if Flushes(level) then
      s.(extra := extra, log := s.log + [own])
    else
      s.(extra := extra, log := s.log + [own], queue := if s.logEntire then s.queue + [message] else s.queue)
  }

  /** A notification that does not flush, or that flushes an empty queue,
      logs just its own record. */
  lemma NotifyAppendsOwn(s: State, level: Level, message: string, details: string)
    requires !(Flushes(level) && s.logEntire) || s.queue == []
    ensures var r := Notify(s, level, message, details); r.log == s.log + [Record(level, message, r.extra)]
  {
  }

  datatype Call = Call(level: Level, message: string, details: string)

  /** Notifications made one after the other. */
  function Run(s: State, calls: seq<Call>): State
    decreases |calls|
  {
    if |calls| == 0 then s
    else
      var last := calls[|calls| - 1];
      Notify(Run(s, calls[..|calls| - 1]), last.level, last.message, last.details)
  }

  function Messages(calls: seq<Call>): (ms: seq<string>)
    ensures |ms| == |calls| && forall i :: 0 <= i < |calls| ==> ms[i] == calls[i].message
  {
    seq(|calls|, i requires 0 <= i < |calls| => calls[i].message)
  }

  /** While the whole request is logged, warning, info and debug
      notifications queue their messages in the order they were made. */
  lemma {:induction false} QueueKeepsOrder(s: State, calls: seq<Call>)
    requires s.logEntire && s.queue == []
    requires forall i :: 0 <= i < |calls| ==> !Flushes(calls[i].level)
    ensures Run(s, calls).queue == Messages(calls)
    ensures Run(s, calls).logEntire
    decreases |calls|
  {
    if |calls| > 0 {
      var init := calls[..|calls| - 1];
      QueueKeepsOrder(s, init);
      assert Messages(calls) == Messages(init) + [calls[|calls| - 1].message];
    }
  }

  /** An error after such notifications logs every queued message, oldest
      first, at error level, then its own message, and empties the queue. */
  lemma ErrorReplaysRequest(s: State, calls: seq<Call>, message: string, details: string)
    requires s.logEntire && s.queue == []
    requires forall i :: 0 <= i < |calls| ==> !Flushes(calls[i].level)
    ensures var before := Run(s, calls);
      var after := Notify(before, Error, message, details);
      && after.queue == []
      && after.log == before.log + Replay(Messages(calls), Error, after.extra) + [Record(Error, message, after.extra)]
  {
    QueueKeepsOrder(s, calls);
  }

  /** Without whole-request logging nothing is ever queued and every
      notification logs exactly its own message. */
  lemma {:induction false} UnbufferedLogsEachOnce(s: State, calls: seq<Call>)
    requires !s.logEntire && s.queue == []
    ensures Run(s, calls).queue == [] && !Run(s, calls).logEntire
    ensures |Run(s, calls).log| == |s.log| + |calls|
    ensures forall i :: 0 <= i < |calls| ==>
      Run(s, calls).log[|s.log| + i].level == calls[i].level && Run(s, calls).log[|s.log| + i].message == calls[i].message
    decreases |calls|
  {
    if |calls| > 0 {
      var init := calls[..|calls| - 1];
      UnbufferedLogsEachOnce(s, init);
      var before := Run(s, init);
      var after := Run(s, calls);
      assert after.log == before.log + [Record(calls[|calls| - 1].level, calls[|calls| - 1].message, after.extra)];
      forall i | 0 <= i < |calls|
        ensures after.log[|s.log| + i].level == calls[i].level && after.log[|s.log| + i].message == calls[i].message
      {
        if i < |calls| - 1 {
          assert after.log[|s.log| + i] == before.log[|s.log| + i];
          assert init[i] == calls[i];
        }
      }
    }
  }

  /** The session of the notify tests: the default message becomes the
      details, and explicit details replace it; the rest of the context stays
      as the session gave it. */
  lemma NotifyScenario(s: State)
    requires s.extra == Extra(Some("unit_tests"), Some("testService"), Some("Test"), "testRequestId", "")
    ensures var r := Notify(s, Critical, "A message", "");
      r.log[|r.log| - 1] == Record(Critical, "A message",
        Extra(Some("unit_tests"), Some("testService"), Some("Test"), "testRequestId", "A message"))
    ensures var r := Notify(Notify(s, Critical, "A message", ""), Critical, "A message", "a, b, c");
      r.log[|r.log| - 1] == Record(Critical, "A message",
        Extra(Some("unit_tests"), Some("testService"), Some("Test"), "testRequestId", "a, b, c"))
  {
  }

  // ---------------------------------------------------------------------------
  // statsd

  /** `stat_increment`, `stat_decrement`, `stat_gauge`, `stat_set`,
      `stat_timing`: the call reaches statsd only when statistics are on. */
  function Stat(s: State, c: StatsCall): (r: State)
    ensures StatsEnabled(s) ==> r.stats == s.stats + [c]
    ensures !StatsEnabled(s) ==> r == s
    ensures r.(stats := s.stats) == s
  {
    if StatsEnabled(s) then s.(stats := s.stats + [c]) else s
  }

  function StatRun(s: State, cs: seq<StatsCall>): State
    decreases |cs|
  {
    if |cs| == 0 then s else Stat(StatRun(s, cs[..|cs| - 1]), cs[|cs| - 1])
  }

  /** With statistics on, statsd receives exactly the calls made, in order;
      with them off, it receives nothing. */
  lemma {:induction false} StatsGated(s: State, cs: seq<StatsCall>)
    ensures StatsEnabled(s) ==> StatRun(s, cs).stats == s.stats + cs
    ensures !StatsEnabled(s) ==> StatRun(s, cs) == s
    ensures StatRun(s, cs).statsPrefix == s.statsPrefix
    decreases |cs|
  {
    if |cs| > 0 {
      StatsGated(s, cs[..|cs| - 1]);
      assert cs[..|cs| - 1] + [cs[|cs| - 1]] == cs;
    }
  }

  // ---------------------------------------------------------------------------
  // URI statistics in redis

  /** The master redis as far as the statistics see it: the sorted sets by
      name, each a member-to-score map; an unreachable server raises
      ConnectionError on every command. */
  datatype Redis = Redis(reachable: bool, sets: map<string, map<string, real>>)

  function Score(r: Redis, name: string, member: string): Option<real> {
    if name in r.sets && member in r.sets[name] then Some(r.sets[name][member]) else None
  }

  function Members(r: Redis, name: string): map<string, real> {
    if name in r.sets then r.sets[name] else map[]
  }

  datatype Effect = Effect(support: State, redis: Redis)

  function CacheUnavailable(e: string): string {
    "[Support] Not using cache. Cache not available: " + e
  }

  /** `update_uri_stats`: the URI's request count goes up by one and its
      slow-request score becomes this request's timing (the latest, not the
      largest); with redis down an info message is logged instead. */
  function UpdateUriStats(s: State, r: Redis, uri: string, timing: int): (e: Effect)
    ensures r.reachable ==> Score(e.redis, SetUrisCount, uri) == Some(Score(r, SetUrisCount, uri).GetOr(0.0) + 1.0)
    ensures r.reachable ==> Score(e.redis, SetSlowRequests, uri) == Some(timing as real)
    ensures forall name, m :: (name, m) != (SetUrisCount, uri) && (name, m) != (SetSlowRequests, uri) ==>
      Score(e.redis, name, m) == Score(r, name, m)
    ensures r.reachable ==> e.support == s
    ensures !r.reachable ==> e.redis == r && e.support.log == s.log + [Record(Info, CacheUnavailable("Error connecting"), e.support.extra)]
  {
    if !r.reachable then
      Effect(Notify(s, Info, CacheUnavailable("Error connecting"), ""), r)
    else
      var counts := Members(r, SetUrisCount);
      var counted := counts[uri := (if uri in counts then counts[uri] else 0.0) + 1.0];
      var r1 := r.(sets := r.sets[SetUrisCount := counted]);
      var slow := Members(r1, SetSlowRequests)[uri := timing as real];
      Effect(s, r1.(sets := r1.sets[SetSlowRequests := slow]))
  }

  /** `int(score)`: truncation toward zero. */
  function Trunc(x: real): (n: int)
    ensures x >= 0.0 ==> 0.0 <= n as real <= x < n as real + 1.0
    ensures x < 0.0 ==> n as real - 1.0 < x <= n as real <= 0.0
  {
    if x >= 0.0 then x.Floor else -((-x).Floor)
  }

  datatype Scored = Scored(member: string, score: real)
  datatype Count = Count(member: string, value: int)

  function CountMembers(cs: seq<Count>): set<string> {
    set i | 0 <= i < |cs| :: cs[i].member
  }

  /** `response[member] = value` on an OrderedDict: an existing member keeps
      its place and takes the new value; a new one goes last. */
  lemma CountMembersCons(c: Count, cs: seq<Count>)
    ensures CountMembers([c] + cs) == {c.member} + CountMembers(cs)
  {
    var l := [c] + cs;
    forall m | m in CountMembers(l) ensures m in {c.member} + CountMembers(cs) {
      var i :| 0 <= i < |l| && l[i].member == m;
      if i > 0 { assert l[i] == cs[i - 1]; }
    }
    forall m | m in CountMembers(cs) ensures m in CountMembers(l) {
      var i :| 0 <= i < |cs| && cs[i].member == m;
      assert l[i + 1] == cs[i];
    }
    assert l[0] == c;
  }

  function PutCount(cs: seq<Count>, m: string, v: int): (r: seq<Count>)
    ensures m !in CountMembers(cs) ==> r == cs + [Count(m, v)]
    ensures CountMembers(r) == CountMembers(cs) + {m}
  {
    if |cs| == 0 then
      assert CountMembers([Count(m, v)]) == {m} by { assert [Count(m, v)][0].member == m; }
      [Count(m, v)]
    else
      CountMembersCons(cs[0], cs[1..]);
      assert [cs[0]] + cs[1..] == cs;
      if cs[0].member == m then
        CountMembersCons(Count(m, v), cs[1..]);
        [Count(m, v)] + cs[1..]
      else
        var rest := PutCount(cs[1..], m, v);
        CountMembersCons(cs[0], rest);
        [cs[0]] + rest
  }

  /** The `for uri in redis_response: response[uri[0]] = int(uri[1])` loop. */
  function ShapeScores(reply: seq<Scored>): seq<Count>
    decreases |reply|
  {
    if |reply| == 0 then []
    else
      var last := reply[|reply| - 1];
      PutCount(ShapeScores(reply[..|reply| - 1]), last.member, Trunc(last.score))
  }

  /** The members of a reply. */
  function ScoredMembers(reply: seq<Scored>): set<string>
    decreases |reply|
  {
    if |reply| == 0 then {} else ScoredMembers(reply[..|reply| - 1]) + {reply[|reply| - 1].member}
  }

  /** Each member appears once: every entry's member is new to the entries
      before it. */
  predicate DistinctMembers(reply: seq<Scored>)
    decreases |reply|
  {
    |reply| == 0 ||
    (DistinctMembers(reply[..|reply| - 1]) && reply[|reply| - 1].member !in ScoredMembers(reply[..|reply| - 1]))
  }

  /** The shaped response has exactly the reply's members. */
  lemma {:induction false} ShapedMembers(reply: seq<Scored>)
    ensures CountMembers(ShapeScores(reply)) == ScoredMembers(reply)
    decreases |reply|
  {
    if |reply| > 0 {
      ShapedMembers(reply[..|reply| - 1]);
    }
  }

  /** The last entry of a reply without repeats is appended to the shaped
      prefix. */
  lemma ShapeAppendsLast(reply: seq<Scored>)
    requires |reply| > 0 && DistinctMembers(reply)
    ensures ShapeScores(reply) ==
      ShapeScores(reply[..|reply| - 1]) + [Count(reply[|reply| - 1].member, Trunc(reply[|reply| - 1].score))]
  {
    ShapedMembers(reply[..|reply| - 1]);
  }

  /** Each entry of a reply as a count with its truncated score, in the
      reply's order. */
  function Counted(reply: seq<Scored>): (cs: seq<Count>)
    ensures |cs| == |reply|
    ensures forall i :: 0 <= i < |reply| ==> cs[i] == Count(reply[i].member, Trunc(reply[i].score))
  {
    seq(|reply|, i requires 0 <= i < |reply| => Count(reply[i].member, Trunc(reply[i].score)))
  }

  lemma CountedAppend(reply: seq<Scored>)
    requires |reply| > 0
    ensures Counted(reply) ==
      Counted(reply[..|reply| - 1]) + [Count(reply[|reply| - 1].member, Trunc(reply[|reply| - 1].score))]
  {
    var n := |reply| - 1;
    var a := Counted(reply);
    var b := Counted(reply[..n]) + [Count(reply[n].member, Trunc(reply[n].score))];
    forall i | 0 <= i < |a| ensures a[i] == b[i] {
      if i < n { assert reply[..n][i] == reply[i]; }
    }
  }

  /** Without repeated members, shaping counts every entry in order. */
  lemma {:induction false} ShapeIsCounted(reply: seq<Scored>)
    requires DistinctMembers(reply)
    ensures ShapeScores(reply) == Counted(reply)
    decreases |reply|
  {
    if |reply| > 0 {
      ShapeIsCounted(reply[..|reply| - 1]);
      ShapeAppendsLast(reply);
      CountedAppend(reply);
    }
  }

  /** redis answers a range with each member once, so the shaped response
      lists the members in the store's order, each with its truncated score. */
  lemma ShapeKeepsOrder(reply: seq<Scored>)
    requires DistinctMembers(reply)
    ensures |ShapeScores(reply)| == |reply|
    ensures forall i :: 0 <= i < |reply| ==> ShapeScores(reply)[i] == Count(reply[i].member, Trunc(reply[i].score))
  {
    ShapeIsCounted(reply);
  }

  /** `zrevrangebyscore(name, '+inf', min, withscores=True)`. */
  datatype RangeQuery = RangeQuery(key: string, max: string, min: string)

  const UriCountQuery := RangeQuery(SetUrisCount, "+inf", "-inf")

  /** A falsy slow limit asks for every score. */
  function SlowRequestsQuery(slowLimit: string): (q: RangeQuery)
    ensures q.key == SetSlowRequests && q.max == "+inf"
    ensures slowLimit == "" ==> q.min == "-inf"
    ensures slowLimit != "" ==> q.min == slowLimit
  {
    RangeQuery(SetSlowRequests, "+inf", if slowLimit != "" then slowLimit else "-inf")
  }

  datatype Ranking = Ranking(support: State, counts: seq<Count>)

  /** What both URI reports do with the store's answer: a ConnectionError is
      logged at info and read as no entries; any other failure propagates. */
  function Report(s: State, reply: Outcome<seq<Scored>>): (r: Outcome<Ranking>)
    ensures RaisedKind(reply, RedisConnectionError) ==>
      r.Success? && r.value.counts == [] &&
      r.value.support.log == s.log + [Record(Info, CacheUnavailable(reply.error.message), r.value.support.extra)]
    ensures reply.Failure? && reply.error.kind != RedisConnectionError ==> r == Failure(reply.error)
    ensures reply.Success? ==> r == Success(Ranking(s, ShapeScores(reply.value)))
  {
    match reply
    case Failure(e) =>
      if e.kind == RedisConnectionError then Success(Ranking(Notify(s, Info, CacheUnavailable(e.message), ""), []))
      else Failure(e)
    case Success(scored) => Success(Ranking(s, ShapeScores(scored)))
  }

  /** `get_uri_count`, the store answering range queries with `zrange`: the
      whole URI-count set, highest score first as the store returns it, each
      member with its truncated score; an unreachable store gives no entries. */
  function GetUriCount(s: State, zrange: RangeQuery -> Outcome<seq<Scored>>): (r: Outcome<Ranking>)
    ensures zrange(UriCountQuery).Success? && DistinctMembers(zrange(UriCountQuery).value) ==>
      r == Success(Ranking(s, Counted(zrange(UriCountQuery).value)))
    ensures RaisedKind(zrange(UriCountQuery), RedisConnectionError) ==> r.Success? && r.value.counts == []
    ensures zrange(UriCountQuery).Failure? && zrange(UriCountQuery).error.kind != RedisConnectionError ==>
      r == Failure(zrange(UriCountQuery).error)
  {
    var reply := zrange(UriCountQuery);
    if reply.Success? && DistinctMembers(reply.value) then
      ShapeIsCounted(reply.value);
      Report(s, reply)
    else
      Report(s, reply)
  }

  /** `get_slow_requests`: the slow-request set from the limit upwards, in
      the store's order with truncated scores; an unreachable store gives no
      entries. */
  function GetSlowRequests(s: State, slowLimit: string, zrange: RangeQuery -> Outcome<seq<Scored>>): (r: Outcome<Ranking>)
    ensures var reply := zrange(SlowRequestsQuery(slowLimit));
      reply.Success? && DistinctMembers(reply.value) ==> r == Success(Ranking(s, Counted(reply.value)))
    ensures RaisedKind(zrange(SlowRequestsQuery(slowLimit)), RedisConnectionError) ==> r.Success? && r.value.counts == []
    ensures var reply := zrange(SlowRequestsQuery(slowLimit));
      reply.Failure? && reply.error.kind != RedisConnectionError ==> r == Failure(reply.error)
  {
    var reply := zrange(SlowRequestsQuery(slowLimit));
    if reply.Success? && DistinctMembers(reply.value) then
      ShapeIsCounted(reply.value);
      Report(s, reply)
    else
      Report(s, reply)
  }
}
