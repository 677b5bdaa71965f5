/**
 The call-stack trace handed to the profiler when profiling is on: the frames
 of `debug_backtrace()`, minus the query routine's own frame and frames
 without a file, kept either all (no configured paths) or from the first
 frame whose file contains a configured path onward. The `$include` flag that
 decides this is set once and never cleared.
 */
module Trace {
  import opened Php

  /** One `debug_backtrace()` entry: its `'file'` (possibly missing) and `'line'`. */
  datatype Frame = Frame(file: Option<string>, line: int)

  /** One entry of the profiler's stack trace: the cleaned file path and the line. */
  datatype TraceEntry = TraceEntry(file: string, line: int)

  /** `empty($page['file']) === false`: the key is present and its value is
      neither the empty string nor "0". */
  function HasFile(f: Frame): (r: bool)
    ensures r <==> f.file.Some? && |f.file.value| > 0 && f.file.value != "0"
  {
    f.file.Some? && !IsEmptyString(f.file.value)
  }

  /** The entry recorded for a frame; `clean` stands for `Fuel::clean_path`. */
  function Entry(f: Frame, clean: string -> string): (e: TraceEntry)
    requires HasFile(f)
  {
    TraceEntry(clean(f.file.value), f.line)
  }

  /** The inner `foreach ($paths ...)` loop: whether `file` contains one of
      the configured paths (it stops at the first one that does). */
  function AnyPathIn(file: string, paths: seq<string>): (r: bool)
    ensures r <==> exists p :: p in paths && Contains(file, p)
  {
    if |paths| == 0 then false
    else Contains(file, paths[0]) || AnyPathIn(file, paths[1..])
  }

  /** The frame at index `j` sets `$include` to true. */
  predicate Switches(frames: seq<Frame>, paths: seq<string>, j: int)
    requires 0 <= j < |frames|
  {
    j > 0 && HasFile(frames[j]) && AnyPathIn(frames[j].file.value, paths)
  }

  /** The value of `$include` once the frames before index `n` are visited. */
  predicate IncludeAfter(frames: seq<Frame>, paths: seq<string>, n: int)
    requires 0 <= n <= |frames|
  {
    exists j :: 0 <= j < n && Switches(frames, paths, j)
  }

  /** The frame at index `i` ends up in the trace. */
  predicate Kept(frames: seq<Frame>, paths: seq<string>, i: int)
    requires 0 <= i < |frames|
  {
    i > 0 && HasFile(frames[i]) && (IncludeAfter(frames, paths, i + 1) || |paths| == 0)
  }

  /** The entries of the kept frames among the first `n`, in stack order. */
  function KeptEntries(frames: seq<Frame>, paths: seq<string>, clean: string -> string, n: nat): (r: seq<TraceEntry>)
    requires n <= |frames|
    ensures n > 0 ==> |r| < n
    ensures forall e :: e in r ==>
              exists i :: 0 < i < n && HasFile(frames[i]) && e == Entry(frames[i], clean)
  {
    if n == 0 then []
    else
      KeptEntries(frames, paths, clean, n - 1)
      + (if Kept(frames, paths, n - 1) then [Entry(frames[n - 1], clean)] else [])
  }

  /** Every frame but the first that has a file, in stack order. */
  function FiledEntries(frames: seq<Frame>, clean: string -> string, n: nat): (r: seq<TraceEntry>)
    requires n <= |frames|
  {
    if n == 0 then []
    else
      FiledEntries(frames, clean, n - 1)
      + (if n - 1 > 0 && HasFile(frames[n - 1]) then [Entry(frames[n - 1], clean)] else [])
  }

  /** The trace-building loop of the query routine. */
  method StackTrace(frames: seq<Frame>, paths: seq<string>, clean: string -> string)
    returns (trace: seq<TraceEntry>)
    ensures trace == KeptEntries(frames, paths, clean, |frames|)
    ensures |frames| > 0 ==> |trace| < |frames|
    ensures forall e :: e in trace ==>
              exists i :: 0 < i < |frames| && HasFile(frames[i]) && e == Entry(frames[i], clean)
  {
    trace := [];
    var including := false;
    for index := 0 to |frames|
      invariant trace == KeptEntries(frames, paths, clean, index)
      invariant including <==> IncludeAfter(frames, paths, index)
    {
      var page := frames[index];
      if index > 0 && HasFile(page) {
        if AnyPathIn(page.file.value, paths) {
          including := true;
        }
        if including || |paths| == 0 {
          trace := trace + [Entry(page, clean)];
        }
      }
      assert Switches(frames, paths, index) ==> IncludeAfter(frames, paths, index + 1);
    }
  }

  /** With no configured paths, every frame but the first that has a file is
      traced, in stack order. */
  lemma {:induction false} NoPathsKeepsEveryFiledFrame(frames: seq<Frame>, clean: string -> string, n: nat)
    requires n <= |frames|
    ensures KeptEntries(frames, [], clean, n) == FiledEntries(frames, clean, n)
  {
    if n > 0 {
      NoPathsKeepsEveryFiledFrame(frames, clean, n - 1);
    }
  }

  /** With paths configured, a frame is traced exactly when it has a file and
      does not come before the first frame whose file contains a configured
      path: the flag is sticky. */
  lemma KeptFromFirstSwitch(frames: seq<Frame>, paths: seq<string>, first: int, i: int)
    requires |paths| > 0
    requires 0 <= first < |frames| && Switches(frames, paths, first)
    requires forall j :: 0 <= j < first ==> !Switches(frames, paths, j)
    requires 0 <= i < |frames|
    ensures Kept(frames, paths, i) <==> first <= i && HasFile(frames[i])
  {
    if first <= i {
      assert IncludeAfter(frames, paths, i + 1);
    }
  }

  /** With paths configured and no frame matching, the trace is empty. */
  lemma {:induction false} NoSwitchKeepsNothing(frames: seq<Frame>, paths: seq<string>, clean: string -> string, n: nat)
    requires |paths| > 0 && n <= |frames|
    requires forall j :: 0 <= j < |frames| ==> !Switches(frames, paths, j)
    ensures KeptEntries(frames, paths, clean, n) == []
  {
    if n > 0 {
      NoSwitchKeepsNothing(frames, paths, clean, n - 1);
    }
  }

  /** Once a frame is traced, every later frame with a file is traced too. */
  lemma KeptIsSticky(frames: seq<Frame>, paths: seq<string>, j: int, i: int)
    requires 0 <= j <= i < |frames|
    requires Kept(frames, paths, j) && HasFile(frames[i])
    ensures Kept(frames, paths, i)
  {
    if |paths| > 0 {
      var w :| 0 <= w < j + 1 && Switches(frames, paths, w);
      assert w < i + 1;
    }
  }
}
