/**
 How the query routine treats a failed submission: the classification into
 "MySQL server has gone away" (worth a reconnect) and everything else, and the
 `Database_Exception` that a failure is turned into.
 */
module Errors {
  import opened Php

  /** What the driver's exception exposes: `getMessage()`, `getCode()`, and
      the `errorinfo()[1]` the connection reports at that moment. */
  datatype DriverError = DriverError(message: string, code: Code, errorInfoCode: Code)

  /** `Database_Exception($message, $code, $previous)`. */
  datatype DatabaseException = DatabaseException(message: string, code: Code, previous: DriverError)

  /** Verdict on a failed submission while attempts remain. */
  datatype Verdict = Reconnect | Terminal

  /** The text that marks a MySQL "server has gone away" error. */
  const DisconnectMarker: string := "2006 MySQL"

  /** The text put between the driver's message and the SQL. */
  const QueryIntro: string := " with query: \""

  /** The text closing the quoted SQL. */
  const QueryClose: string := "\""

  /** A failure is a disconnect exactly when its message contains the marker. */
  function Classify(message: string): (v: Verdict)
    ensures v == Reconnect <==> exists i: nat :: OccursAt(message, DisconnectMarker, i)
  {
    if Contains(message, DisconnectMarker) then Reconnect else Terminal
  }

  /** The code of the thrown exception: `getCode()` when it is numeric,
      otherwise `errorinfo()[1]` when a connection handle exists, otherwise 0. */
  function ErrorCode(e: DriverError, connected: bool): (c: Code)
    ensures IsNumeric(e.code) ==> c == e.code
    ensures !IsNumeric(e.code) && connected ==> c == e.errorInfoCode
    ensures !IsNumeric(e.code) && !connected ==> c == IntCode(0)
  {
    if IsNumeric(e.code) then e.code
    else if connected then e.errorInfoCode
    else IntCode(0)
  }

  /** The `Database_Exception` a failure is converted into: the driver's
      message, then the SQL in quotes, the fallback code, and the original
      failure as the previous exception. */
  function Normalize(e: DriverError, sql: string, connected: bool): (x: DatabaseException)
    ensures x.previous == e && x.code == ErrorCode(e, connected)
    ensures |x.message| == |e.message| + |QueryIntro| + |sql| + |QueryClose|
    ensures x.message[..|e.message|] == e.message
    ensures x.message[|e.message|..|e.message| + |QueryIntro|] == QueryIntro
    ensures x.message[|e.message| + |QueryIntro|..|x.message| - |QueryClose|] == sql
    ensures x.message[|x.message| - |QueryClose|..] == QueryClose
  {
    DatabaseException(e.message + QueryIntro + sql + QueryClose, ErrorCode(e, connected), e)
  }

  /** The SQL can be read back from the exception message: two queries that
      fail with the same driver error yield the same message only when they
      are the same query. */
  lemma NormalizeKeepsQuery(e: DriverError, sql1: string, sql2: string, connected: bool)
    requires Normalize(e, sql1, connected).message == Normalize(e, sql2, connected).message
    ensures sql1 == sql2
  {
    var m := Normalize(e, sql1, connected).message;
    assert sql1 == m[|e.message| + |QueryIntro|..|m| - |QueryClose|];
  }

  /** PDO's message for MySQL error 2006, written in pieces. */
  const GoneAway: string := "SQLSTATE[HY000]: " + "General error: " + DisconnectMarker + " server has gone away"

  /** PDO's "server has gone away" message is a disconnect. */
  lemma GoneAwayIsReconnect()
    ensures Classify(GoneAway) == Reconnect
  {
    InfixContained("SQLSTATE[HY000]: " + "General error: ", DisconnectMarker, " server has gone away");
  }

  /** MySQL's message for a connection lost during a query (error 2013),
      written in pieces. */
  const LostConnection: string := "2013 Lost " + "connection " + "to MySQL server " + "during query"

  /** The 2013 "lost connection" message does not contain the marker, so it
      is terminal: the digit 6 of the marker does not occur in it. The message
      text decides what is retried, not the error number. */
  lemma LostConnectionIsTerminal()
    ensures Classify(LostConnection) == Terminal
  {
    assert '6' !in "2013 Lost " && '6' !in "connection ";
    assert '6' !in "to MySQL server " && '6' !in "during query";
    assert DisconnectMarker[3] == '6';
    MissingCharNotContained(LostConnection, DisconnectMarker, '6');
  }

  /** A syntax error (1064) whose message quotes SQL holding the marker text
      is retried as if it were a disconnect: the classifier reads the text of
      the message, not the error number. */
  lemma QuotedMarkerIsRetried()
    ensures Classify("SQLSTATE[42000]: 1064 near '" + DisconnectMarker + " x'") == Reconnect
  {
    InfixContained("SQLSTATE[42000]: 1064 near '", DisconnectMarker, " x'");
  }

  /** The fallback is taken only for a code that is not numeric: whenever the
      exception's code differs from `getCode()`, `getCode()` was not numeric. */
  lemma FallbackOnlyWhenNotNumeric(e: DriverError, connected: bool)
    ensures ErrorCode(e, connected) != e.code ==> !IsNumeric(e.code)
    ensures !IsNumeric(e.code) && connected ==> ErrorCode(e, connected) == e.errorInfoCode
  {
  }

  /** An SQLSTATE made of digits, such as "23000", is kept as the code. */
  lemma NumericSqlStateKept(e: DriverError, connected: bool)
    requires e.code == StrCode("23000")
    ensures ErrorCode(e, connected) == StrCode("23000")
  {
    DigitsAreNumeric("23000");
  }

  /** An SQLSTATE with a leading letter, such as "HY000", is replaced by the
      connection's error info. */
  lemma LetterSqlStateFallsBack(e: DriverError)
    requires e.code == StrCode("HY000")
    ensures ErrorCode(e, true) == e.errorInfoCode
    ensures ErrorCode(e, false) == IntCode(0)
  {
    LetterFirstNotNumeric("HY000");
  }
}
