/**
 The behaviours of the query routine, one scenario at a time, stated over the
 closed forms `ExpectedOutcome` and `ExpectedLog` that `Connection.Query` is
 proved to produce.
 */
module Scenarios {
  import opened Php
  import opened Trace
  import opened Errors
  import opened Shaping
  import opened Events
  import opened Connection

  /** An existing handle is used as it is: when the first answer is not a
      disconnect, the call connects nowhere. Without a handle, it connects
      exactly once before submitting. */
  lemma LazyConnect(conn: Handle, config: Config, frames: seq<Frame>, clean: string -> string,
                    qtype: QueryType, sql: string, script: seq<Answer>)
    requires MaxSubmissions <= |script| && !IsDisconnect(script[0])
    ensures var log := ExpectedLog(conn, config, frames, clean, qtype, sql, script);
            && multiset(log)[Connect] == (if conn.connected then 0 else 1)
            && (log[0] == Connect <==> !conn.connected)
            && multiset(log)[Submit(sql)] == 1
  {
    StopIndexIff(script, 0);
    QueryEvents(conn, config, frames, clean, qtype, sql, script);
  }

  /** Four "gone away" failures in a row: four submissions, three
      disconnect and connect pairs, then the fourth failure is rethrown. The
      benchmark is neither stopped nor deleted. */
  lemma PersistentDisconnect(conn: Handle, config: Config, frames: seq<Frame>, clean: string -> string,
                             qtype: QueryType, sql: string, asObject: AsObject, script: seq<Answer>)
    requires MaxSubmissions <= |script|
    requires forall j :: 0 <= j < Attempts ==> IsDisconnect(script[j])
    requires IsDisconnect(script[Attempts])
    ensures ExpectedOutcome(qtype, sql, asObject, script) == Thrown(Normalize(script[Attempts].error, sql, true))
    ensures var log := ExpectedLog(conn, config, frames, clean, qtype, sql, script);
            && multiset(log)[Submit(sql)] == 4
            && multiset(log)[Disconnect] == 3
            && multiset(log)[Connect] == 3 + (if conn.connected then 0 else 1)
            && multiset(log)[ProfilerDelete] == 0
            && multiset(log)[ProfilerStop] == 0
  {
    StopIndexIff(script, Attempts);
    QueryEvents(conn, config, frames, clean, qtype, sql, script);
  }

  /** Once the countdown is spent, any failure of the fourth submission is
      rethrown without deleting the benchmark, whether or not it is a
      disconnect. */
  lemma ExhaustedKeepsBenchmark(conn: Handle, config: Config, frames: seq<Frame>, clean: string -> string,
                                qtype: QueryType, sql: string, asObject: AsObject, script: seq<Answer>)
    requires MaxSubmissions <= |script|
    requires forall j :: 0 <= j < Attempts ==> IsDisconnect(script[j])
    requires script[Attempts].Failed?
    ensures ExpectedOutcome(qtype, sql, asObject, script) == Thrown(Normalize(script[Attempts].error, sql, true))
    ensures var log := ExpectedLog(conn, config, frames, clean, qtype, sql, script);
            && multiset(log)[Submit(sql)] == 4
            && multiset(log)[ProfilerDelete] == 0
  {
    StopIndexIff(script, Attempts);
    QueryEvents(conn, config, frames, clean, qtype, sql, script);
  }

  /** A failure that is not a disconnect, after `k` disconnects and while
      attempts remain, ends the call: no further submission or reconnect, the
      benchmark is deleted when profiling, nothing is stopped or logged, and
      the failure is rethrown. */
  lemma TerminalError(conn: Handle, config: Config, frames: seq<Frame>, clean: string -> string,
                      qtype: QueryType, sql: string, asObject: AsObject, script: seq<Answer>, k: nat)
    requires MaxSubmissions <= |script| && k < Attempts
    requires forall j :: 0 <= j < k ==> IsDisconnect(script[j])
    requires script[k].Failed? && Classify(script[k].error.message) == Terminal
    ensures ExpectedOutcome(qtype, sql, asObject, script) == Thrown(Normalize(script[k].error, sql, true))
    ensures var log := ExpectedLog(conn, config, frames, clean, qtype, sql, script);
            && multiset(log)[Submit(sql)] == k + 1
            && multiset(log)[Disconnect] == k
            && multiset(log)[ProfilerDelete] == (if config.profiling then 1 else 0)
            && multiset(log)[ProfilerStop] == 0
            && multiset(log)[LogInfo(InsertLogMessage)] == 0
  {
    StopIndexIff(script, k);
    QueryEvents(conn, config, frames, clean, qtype, sql, script);
  }

  /** A statement for submission `k` after `k` disconnects: the call returns
      that statement's shape after exactly `k` reconnects, stops the
      benchmark once when profiling, and deletes nothing. */
  lemma SuccessAfterReconnects(conn: Handle, config: Config, frames: seq<Frame>, clean: string -> string,
                               qtype: QueryType, sql: string, asObject: AsObject, script: seq<Answer>, k: nat)
    requires MaxSubmissions <= |script| && k < MaxSubmissions
    requires forall j :: 0 <= j < k ==> IsDisconnect(script[j])
    requires script[k].Answered?
    ensures ExpectedOutcome(qtype, sql, asObject, script) == Returned(Shape(qtype, sql, asObject, script[k].statement))
    ensures var log := ExpectedLog(conn, config, frames, clean, qtype, sql, script);
            && multiset(log)[Submit(sql)] == k + 1
            && multiset(log)[Disconnect] == k
            && multiset(log)[ProfilerStop] == (if config.profiling then 1 else 0)
            && multiset(log)[ProfilerDelete] == 0
            && multiset(log)[LogInfo(InsertLogMessage)] == (if qtype == Insert then 1 else 0)
  {
    StopIndexIff(script, k);
    QueryEvents(conn, config, frames, clean, qtype, sql, script);
  }

  /** A thrown exception carries the SQL and the driver's code when that is
      numeric, else the connection's error info: a handle always exists by
      then, so the code is never the fallback 0 unless the error info is. */
  lemma ThrownCode(qtype: QueryType, sql: string, asObject: AsObject, script: seq<Answer>)
    requires MaxSubmissions <= |script|
    requires ExpectedOutcome(qtype, sql, asObject, script).Thrown?
    ensures var e := script[StopIndex(script)].error;
            var x := ExpectedOutcome(qtype, sql, asObject, script).exception;
            && x.previous == e
            && x.code == (if IsNumeric(e.code) then e.code else e.errorInfoCode)
            && x.message == e.message + QueryIntro + sql + QueryClose
  {
  }

  // ---------------------------------------------------------------------
  // The trace filter on a concrete stack

  /** The configured application directory. */
  const AppDir: string := "/app/src"

  /** The routine's own frame, a frame of the application, and a vendor frame. */
  const OwnFrame: Frame := Frame(Some("/fw/" + "Connection.php"), 30)
  const AppFrame: Frame := Frame(Some(AppDir + "/x.php"), 10)
  const VendorFrame: Frame := Frame(Some("/lib/" + "vendor/y.php"), 20)

  /** The application frame's file lies under the application directory. */
  lemma AppFileMatches()
    ensures AnyPathIn(AppFrame.file.value, [AppDir])
  {
    InfixContained("", AppDir, "/x.php");
    assert "" + AppDir + "/x.php" == AppFrame.file.value;
  }

  /** The vendor frame's file does not: it has no letter `a`. */
  lemma VendorFileDoesNotMatch()
    ensures !AnyPathIn(VendorFrame.file.value, [AppDir])
  {
    assert 'a' !in "/lib/" && 'a' !in "vendor/y.php";
    assert AppDir[1] == 'a';
    MissingCharNotContained(VendorFrame.file.value, AppDir, 'a');
  }

  /** A vendor frame further out than the application frame (vendor code
      that called into the application) is traced as well, because the flag
      set by the application frame is never cleared. Frame 0 is the call to
      the query routine; higher indices are outer callers. */
  lemma VendorAfterAppIsKept(clean: string -> string)
    ensures KeptEntries([OwnFrame, AppFrame, VendorFrame], [AppDir], clean, 3)
            == [Entry(AppFrame, clean), Entry(VendorFrame, clean)]
  {
    var frames := [OwnFrame, AppFrame, VendorFrame];
    AppFileMatches();
    assert Switches(frames, [AppDir], 1);
    assert !Kept(frames, [AppDir], 0);
    assert Kept(frames, [AppDir], 1);
    assert Kept(frames, [AppDir], 2);
  }

  /** A vendor frame between the query and the first application frame
      (library code the application called) is not traced. */
  lemma VendorBeforeAppIsDropped(clean: string -> string)
    ensures KeptEntries([OwnFrame, VendorFrame, AppFrame], [AppDir], clean, 3)
            == [Entry(AppFrame, clean)]
  {
    var frames := [OwnFrame, VendorFrame, AppFrame];
    AppFileMatches();
    VendorFileDoesNotMatch();
    assert !Switches(frames, [AppDir], 0) && !Switches(frames, [AppDir], 1);
    assert !Kept(frames, [AppDir], 1);
    assert Switches(frames, [AppDir], 2);
    assert Kept(frames, [AppDir], 2);
  }
}
