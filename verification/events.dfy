/**
 The side effects of one query call, in the order they happen: connection
 management, submissions, profiler calls and log calls. How often an event
 occurs in a log `log` is `multiset(log)[e]`.
 */
module Events {
  import opened Trace

  datatype Event =
    | Connect                   // `$this->connect()`
    | Disconnect                // `$this->disconnect()`
    | Submit(sql: string)       // `$this->_connection->query($sql)`
    | ProfilerStart(instance: string, sql: string, trace: seq<TraceEntry>)
    | ProfilerStop
    | ProfilerDelete
    | LogInfo(message: string)

  /** `n` failed rounds that each end in a reconnect: the submission, then
      `disconnect()` and `connect()`. */
  function Reconnects(sql: string, n: nat): (r: seq<Event>)
    ensures |r| == 3 * n
    ensures n > 0 ==> r[0] == Submit(sql)
    ensures forall e :: e in r ==> e == Submit(sql) || e == Disconnect || e == Connect
  {
    if n == 0 then [] else Reconnects(sql, n - 1) + [Submit(sql), Disconnect, Connect]
  }

  /** Each reconnecting round submits once, disconnects once and connects once. */
  lemma {:induction false} ReconnectCounts(sql: string, n: nat)
    ensures multiset(Reconnects(sql, n))[Submit(sql)] == n
    ensures multiset(Reconnects(sql, n))[Disconnect] == n
    ensures multiset(Reconnects(sql, n))[Connect] == n
  {
    if n > 0 {
      ReconnectCounts(sql, n - 1);
      assert multiset([Submit(sql), Disconnect, Connect]) == multiset{Submit(sql), Disconnect, Connect};
    }
  }
}
