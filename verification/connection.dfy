/**
 `Database_PDO_Connection::query`: connect lazily, optionally open a profiler
 benchmark over a filtered stack trace, submit the SQL up to four times
 (reconnecting after each "MySQL server has gone away" while attempts remain),
 turn any other failure into a `Database_Exception`, and shape the result by
 query type.

 The driver is a script: `script[i]` is the answer to the `i`-th submission.
 The side effects come back as an event log.
 */
module Connection {
  import opened Php
  import opened Trace
  import opened Errors
  import opened Shaping
  import opened Events

  /** The countdown the retry loop starts from. */
  const Attempts: nat := 3

  /** The most submissions one call makes: the first try plus one per attempt. */
  const MaxSubmissions: nat := Attempts + 1

  /** The connection's configuration: whether profiling is on, the
      `profiling_paths` setting, and the instance name given to the profiler. */
  datatype Config = Config(profiling: bool, profilingPaths: seq<string>, instance: string)

  /** The connection object's state: whether a PDO handle exists, and `last_query`. */
  datatype Handle = Handle(connected: bool, lastQuery: Option<string>)

  /** The driver's answer to one submission. */
  datatype Answer = Answered(statement: Statement) | Failed(error: DriverError)

  /** How a call ends: with a value, or by throwing a `Database_Exception`. */
  datatype Outcome = Returned(value: QueryValue) | Thrown(exception: DatabaseException)

  /** A failed submission that the routine would answer with a reconnect. */
  predicate IsDisconnect(a: Answer) {
    a.Failed? && Classify(a.error.message) == Reconnect
  }

  /** The index of the submission that ends the loop, searching from `i`. */
  function StopFrom(script: seq<Answer>, i: nat): (k: nat)
    requires i < MaxSubmissions <= |script|
    ensures i <= k < MaxSubmissions
    ensures forall j :: i <= j < k ==> IsDisconnect(script[j])
    ensures k < Attempts ==> !IsDisconnect(script[k])
    decreases MaxSubmissions - i
  {
    if i == Attempts || !IsDisconnect(script[i]) then i else StopFrom(script, i + 1)
  }

  /** The index of the last submission a call makes: the first answer that is
      not a disconnect, or the fourth one, whichever comes first. */
  function StopIndex(script: seq<Answer>): (k: nat)
    requires MaxSubmissions <= |script|
    ensures k < MaxSubmissions
    ensures forall j :: 0 <= j < k ==> IsDisconnect(script[j])
    ensures k < Attempts ==> !IsDisconnect(script[k])
  {
    StopFrom(script, 0)
  }

  /** The last submission is at index `k` exactly when every earlier answer
      is a disconnect and the one at `k` is not, or `k` is the fourth. */
  lemma StopIndexIff(script: seq<Answer>, k: nat)
    requires MaxSubmissions <= |script| && k < MaxSubmissions
    ensures StopIndex(script) == k <==>
              (forall j :: 0 <= j < k ==> IsDisconnect(script[j])) && (k == Attempts || !IsDisconnect(script[k]))
  {
  }

  /** The trace handed to the profiler. */
  function TraceOf(config: Config, frames: seq<Frame>, clean: string -> string): (trace: seq<TraceEntry>) {
    KeptEntries(frames, config.profilingPaths, clean, |frames|)
  }

  /** The events before the retry loop: the lazy connect, then the benchmark
      start. What they mean is proved in `PreludeCounts` and `LogHead`. */
  function Prelude(conn: Handle, config: Config, sql: string, trace: seq<TraceEntry>): (events: seq<Event>) {
    (if conn.connected then [] else [Connect])
    + (if config.profiling then [ProfilerStart(config.instance, sql, trace)] else [])
  }

  /** The event log of a call whose last submission is the one at index `k`
      and is answered with `last`. */
  function LogFor(conn: Handle, config: Config, trace: seq<TraceEntry>, qtype: QueryType, sql: string,
                  k: nat, last: Answer): (log: seq<Event>)
  {
    Prelude(conn, config, sql, trace)
    + Reconnects(sql, k)
    + [Submit(sql)]
    + Tail(last, k, qtype, config.profiling)
  }

  /** The complete event log of a call, in closed form. */
  function ExpectedLog(conn: Handle, config: Config, frames: seq<Frame>, clean: string -> string,
                       qtype: QueryType, sql: string, script: seq<Answer>): (log: seq<Event>)
    requires MaxSubmissions <= |script|
  {
    var k := StopIndex(script);
    LogFor(conn, config, TraceOf(config, frames, clean), qtype, sql, k, script[k])
  }

  /** How a call ends, in closed form: the last answer decides. A connection
      handle always exists by then, so the code falls back to the error info. */
  function ExpectedOutcome(qtype: QueryType, sql: string, asObject: AsObject, script: seq<Answer>): (outcome: Outcome)
    requires MaxSubmissions <= |script|
  {
    var a := script[StopIndex(script)];
    if a.Answered? then Returned(Shape(qtype, sql, asObject, a.statement))
    else Thrown(Normalize(a.error, sql, true))
  }

  /** What follows the last submission. What it means is proved in
      `TailCounts`. */
  function Tail(a: Answer, k: nat, qtype: QueryType, profiling: bool): (events: seq<Event>) {
    if a.Answered? then
      (if profiling then [ProfilerStop] else [])
      + (if qtype == Insert then [LogInfo(InsertLogMessage)] else [])
    else if k < Attempts && profiling then [ProfilerDelete]
    else []
  }

  /** The events before the loop: the lazy connect when there is no handle,
      then the benchmark start, and nothing else. */
  lemma PreludeCounts(conn: Handle, config: Config, sql: string, trace: seq<TraceEntry>)
    ensures var pre := Prelude(conn, config, sql, trace);
            && multiset(pre)[Connect] == (if conn.connected then 0 else 1)
            && multiset(pre)[ProfilerStart(config.instance, sql, trace)] == (if config.profiling then 1 else 0)
            && multiset(pre)[Submit(sql)] == 0
            && multiset(pre)[Disconnect] == 0
            && multiset(pre)[ProfilerStop] == 0
            && multiset(pre)[ProfilerDelete] == 0
            && multiset(pre)[LogInfo(InsertLogMessage)] == 0
  {
  }

  /** The events after the last submission: a stop and, for an INSERT, the
      log call on success; a delete on a failure before the fourth
      submission; nothing else. */
  lemma TailCounts(last: Answer, k: nat, qtype: QueryType, profiling: bool, sql: string, start: Event)
    requires start.ProfilerStart?
    ensures var t := Tail(last, k, qtype, profiling);
            && multiset(t)[ProfilerStop] == (if profiling && last.Answered? then 1 else 0)
            && multiset(t)[ProfilerDelete] == (if profiling && last.Failed? && k < Attempts then 1 else 0)
            && multiset(t)[LogInfo(InsertLogMessage)] == (if last.Answered? && qtype == Insert then 1 else 0)
            && multiset(t)[Connect] == 0
            && multiset(t)[Disconnect] == 0
            && multiset(t)[Submit(sql)] == 0
            && multiset(t)[start] == 0
  {
  }

  /** The reconnecting rounds hold nothing but submissions, disconnects and
      connects. */
  lemma ReconnectsOnly(sql: string, k: nat, start: Event)
    requires start.ProfilerStart?
    ensures var mid := Reconnects(sql, k);
            && multiset(mid)[ProfilerStop] == 0
            && multiset(mid)[ProfilerDelete] == 0
            && multiset(mid)[LogInfo(InsertLogMessage)] == 0
            && multiset(mid)[start] == 0
  {
    var mid := Reconnects(sql, k);
    assert ProfilerStop !in mid && ProfilerDelete !in mid;
    assert LogInfo(InsertLogMessage) !in mid && start !in mid;
  }

  /** The multiset of a log is the sum over its parts. */
  lemma LogMultiset(conn: Handle, config: Config, trace: seq<TraceEntry>, qtype: QueryType, sql: string,
                    k: nat, last: Answer)
    ensures multiset(LogFor(conn, config, trace, qtype, sql, k, last))
            == multiset(Prelude(conn, config, sql, trace)) + multiset(Reconnects(sql, k))
               + multiset{Submit(sql)} + multiset(Tail(last, k, qtype, config.profiling))
  {
  }

  /** One submission per round plus the last one; one disconnect per
      reconnecting round; one connect per round plus the lazy one. */
  lemma SubmissionCounts(conn: Handle, config: Config, trace: seq<TraceEntry>, qtype: QueryType, sql: string,
                         k: nat, last: Answer)
    ensures var log := LogFor(conn, config, trace, qtype, sql, k, last);
            && multiset(log)[Submit(sql)] == k + 1
            && multiset(log)[Disconnect] == k
            && multiset(log)[Connect] == k + if conn.connected then 0 else 1
  {
    var start := ProfilerStart(config.instance, sql, trace);
    LogMultiset(conn, config, trace, qtype, sql, k, last);
    PreludeCounts(conn, config, sql, trace);
    ReconnectCounts(sql, k);
    TailCounts(last, k, qtype, config.profiling, sql, start);
  }

  /** The benchmark is started once when profiling is on, and never otherwise. */
  lemma ProfilerStartCount(conn: Handle, config: Config, trace: seq<TraceEntry>, qtype: QueryType, sql: string,
                           k: nat, last: Answer)
    ensures multiset(LogFor(conn, config, trace, qtype, sql, k, last))[ProfilerStart(config.instance, sql, trace)]
            == if config.profiling then 1 else 0
  {
    var start := ProfilerStart(config.instance, sql, trace);
    LogMultiset(conn, config, trace, qtype, sql, k, last);
    PreludeCounts(conn, config, sql, trace);
    ReconnectsOnly(sql, k, start);
    TailCounts(last, k, qtype, config.profiling, sql, start);
  }

  /** The benchmark is stopped once on success; it is deleted once, and only
      when a failure ends the call before the fourth submission. A successful
      INSERT logs once. */
  lemma ProfilerEndCounts(conn: Handle, config: Config, trace: seq<TraceEntry>, qtype: QueryType, sql: string,
                          k: nat, last: Answer)
    ensures var log := LogFor(conn, config, trace, qtype, sql, k, last);
            && multiset(log)[ProfilerStop] == (if config.profiling && last.Answered? then 1 else 0)
            && multiset(log)[ProfilerDelete] == (if config.profiling && last.Failed? && k < Attempts then 1 else 0)
            && multiset(log)[LogInfo(InsertLogMessage)] == (if last.Answered? && qtype == Insert then 1 else 0)
  {
    var start := ProfilerStart(config.instance, sql, trace);
    LogMultiset(conn, config, trace, qtype, sql, k, last);
    PreludeCounts(conn, config, sql, trace);
    ReconnectsOnly(sql, k, start);
    TailCounts(last, k, qtype, config.profiling, sql, start);
  }

  /** The lazy connect comes first when there is no handle; the benchmark
      start comes next, right before the first submission. */
  lemma LogHead(conn: Handle, config: Config, trace: seq<TraceEntry>, qtype: QueryType, sql: string,
                k: nat, last: Answer)
    ensures var log := LogFor(conn, config, trace, qtype, sql, k, last);
            var lead := if conn.connected then 0 else 1;
            && (log[0] == Connect <==> !conn.connected)
            && (config.profiling ==>
                  log[lead] == ProfilerStart(config.instance, sql, trace) && log[lead + 1] == Submit(sql))
            && (!config.profiling ==> log[lead] == Submit(sql))
  {
    var pre := Prelude(conn, config, sql, trace);
    var mid := Reconnects(sql, k);
    var log := LogFor(conn, config, trace, qtype, sql, k, last);
    var lead := if conn.connected then 0 else 1;
    var first := lead + if config.profiling then 1 else 0;
    assert |pre| == first;
    assert log[first] == Submit(sql) by {
      if k > 0 {
        assert log[first] == mid[0];
      } else {
        assert log[first] == [Submit(sql)][0];
      }
    }
    if !conn.connected {
      assert log[0] == pre[0];
    }
    if config.profiling {
      assert log[lead] == pre[lead];
    }
  }

  /** The `do ... while ($attempts-- > 0)` retry loop: submit, and after a
      "gone away" failure disconnect and connect again while the countdown
      allows. It returns the index of the last submission, that submission's
      answer, and the events of the loop up to and including it. */
  method Submissions(sql: string, script: seq<Answer>) returns (k: nat, last: Answer, events: seq<Event>)
    requires MaxSubmissions <= |script|
    ensures k == StopIndex(script) && last == script[k]
    ensures events == Reconnects(sql, k) + [Submit(sql)]
  {
    events := [];
    var attempts := Attempts;
    k := 0;
    while true
      invariant 0 <= attempts <= Attempts && k == Attempts - attempts
      invariant events == Reconnects(sql, k)
      invariant forall j :: 0 <= j < k ==> IsDisconnect(script[j])
      decreases attempts
    {
      events := events + [Submit(sql)];
      last := script[k];
      if last.Answered? || attempts == 0 || Classify(last.error.message) == Terminal {
        break;
      }
      events := events + [Disconnect, Connect];
      attempts := attempts - 1;
      k := k + 1;
    }
    StopIndexIff(script, k);
  }

  /** The start of the routine: `$this->_connection or $this->connect()`, then,
      when profiling, the benchmark start with the filtered stack trace. A
      handle exists afterwards. */
  method Open(conn: Handle, config: Config, frames: seq<Frame>, clean: string -> string, sql: string)
    returns (connected: bool, events: seq<Event>)
    ensures connected
    ensures events == Prelude(conn, config, sql, TraceOf(config, frames, clean))
  {
    events := [];
    connected := conn.connected;
    if !connected {
      connected := true;
      events := events + [Connect];
    }
    if config.profiling {
      var stack := StackTrace(frames, config.profilingPaths, clean);
      events := events + [ProfilerStart(config.instance, sql, stack)];
    }
  }

  /** The end of the routine once the last submission is answered: on a
      failure the benchmark is deleted (only while the countdown is still
      positive, that is before the fourth submission) and the failure is
      rethrown; on success the benchmark is stopped, `last_query` is set, an
      INSERT is logged and the statement is shaped. */
  method Close(conn: Handle, connected: bool, profiling: bool, qtype: QueryType, sql: string, asObject: AsObject,
               k: nat, last: Answer)
    returns (outcome: Outcome, conn': Handle, events: seq<Event>)
    ensures events == Tail(last, k, qtype, profiling)
    ensures outcome.Returned? <==> last.Answered?
    ensures last.Answered? ==> outcome.value == Shape(qtype, sql, asObject, last.statement)
    ensures last.Failed? ==> outcome.exception == Normalize(last.error, sql, connected)
    ensures conn'.connected == connected
    ensures conn'.lastQuery == if last.Answered? then Some(sql) else conn.lastQuery
  {
    events := [];
    if last.Failed? {
      if k < Attempts && profiling {
        events := [ProfilerDelete];
      }
      outcome := Thrown(Normalize(last.error, sql, connected));
      conn' := Handle(connected, conn.lastQuery);
    } else {
      if profiling {
        events := [ProfilerStop];
      }
      conn' := Handle(connected, Some(sql));
      if qtype == Insert {
        events := events + [LogInfo(InsertLogMessage)];
      }
      outcome := Returned(Shape(qtype, sql, asObject, last.statement));
    }
  }

  /** The query routine. */
  method Query(conn: Handle, config: Config, frames: seq<Frame>, clean: string -> string,
               qtype: QueryType, sql: string, asObject: AsObject, script: seq<Answer>)
    returns (outcome: Outcome, conn': Handle, log: seq<Event>)
    requires MaxSubmissions <= |script|
    ensures outcome == ExpectedOutcome(qtype, sql, asObject, script)
    ensures log == ExpectedLog(conn, config, frames, clean, qtype, sql, script)
    ensures conn'.connected
    ensures conn'.lastQuery == if outcome.Returned? then Some(sql) else conn.lastQuery
  {
    var connected, opening := Open(conn, config, frames, clean, sql);
    var k, last, submissions := Submissions(sql, script);
    var closing;
    outcome, conn', closing := Close(conn, connected, config.profiling, qtype, sql, asObject, k, last);
    log := opening + submissions + closing;
    assert log == LogFor(conn, config, TraceOf(config, frames, clean), qtype, sql, k, last);
  }

  /** What the log of every call holds: the lazy connect first when there is
      no handle; the benchmark start right before the first submission; one
      submission per attempt made; one disconnect and one reconnect per
      "gone away" failure that is retried; a stop only on success, a delete
      only on a failure before the fourth submission, and the INSERT log call
      only for a successful INSERT. */
  lemma QueryEvents(conn: Handle, config: Config, frames: seq<Frame>, clean: string -> string,
                    qtype: QueryType, sql: string, script: seq<Answer>)
    requires MaxSubmissions <= |script|
    ensures var log := ExpectedLog(conn, config, frames, clean, qtype, sql, script);
            var k := StopIndex(script);
            var ok := script[k].Answered?;
            var lead := if conn.connected then 0 else 1;
            && (log[0] == Connect <==> !conn.connected)
            && (config.profiling ==>
                  log[lead] == ProfilerStart(config.instance, sql, TraceOf(config, frames, clean))
                  && log[lead + 1] == Submit(sql))
            && (!config.profiling ==> log[lead] == Submit(sql))
            && multiset(log)[Submit(sql)] == k + 1
            && multiset(log)[Disconnect] == k
            && multiset(log)[Connect] == k + lead
            && multiset(log)[ProfilerStart(config.instance, sql, TraceOf(config, frames, clean))]
               == (if config.profiling then 1 else 0)
            && multiset(log)[ProfilerStop] == (if config.profiling && ok then 1 else 0)
            && multiset(log)[ProfilerDelete] == (if config.profiling && !ok && k < Attempts then 1 else 0)
            && multiset(log)[LogInfo(InsertLogMessage)] == (if ok && qtype == Insert then 1 else 0)
  {
    var k := StopIndex(script);
    var trace := TraceOf(config, frames, clean);
    LogHead(conn, config, trace, qtype, sql, k, script[k]);
    SubmissionCounts(conn, config, trace, qtype, sql, k, script[k]);
    ProfilerStartCount(conn, config, trace, qtype, sql, k, script[k]);
    ProfilerEndCounts(conn, config, trace, qtype, sql, k, script[k]);
  }
}
