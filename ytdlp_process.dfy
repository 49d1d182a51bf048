/**
 * The outcome logic of `executeYtDlp` in lib/ytdlp.ts. The child process is
 * observed as the sequence of events its handlers receive; the class keeps the
 * handlers' state (`stdout`, `stderr`, `isResolved`) and the value the promise
 * settled with, and `Valid` ties each of them to a function of that sequence.
 */
module YtDlpProcess {
  import opened Wrappers
  import opened JsString

  /** The argument timeout defaults to 30 seconds. */
  const DefaultTimeout: nat := 30000

  /** Why the promise rejected. */
  datatype ProcessError =
    | NonZeroExit(message: string)  // `close` with a code other than 0
    | SpawnFailure(cause: string)   // the `error` event's error, passed through
    | Timeout(message: string)      // the timer fired first

  type ProcessOutcome = Result<string, ProcessError>

  /** What a handler can be called with. A close code is `null` when a signal ended the process. */
  datatype Event =
    | StdoutData(chunk: string)
    | StderrData(chunk: string)
    | Close(code: Option<int>)
    | SpawnError(cause: string)
    | TimerFired

  /** `${code}` for a close code. */
  function CodeText(code: Option<int>): string {
    match code
    case None => "null"
    case Some(c) => IntToString(c)
  }

  /** The `close` handler's decision: stdout on exit code 0, otherwise an error
      whose message is stderr, or `Process exited with code N` when stderr is empty. */
  function CloseOutcome(code: Option<int>, stdout: string, stderr: string): (r: ProcessOutcome)
    ensures r.Ok? <==> code == Some(0)
    ensures r.Ok? ==> r.value == stdout
    ensures r.Err? ==> r.error.NonZeroExit? && r.error.message != ""
    ensures r.Err? && stderr != "" ==> r.error.message == stderr
    ensures r.Err? && stderr == "" ==> r.error.message == "Process exited with code " + CodeText(code)
  {
    if code == Some(0) then Ok(stdout)
    else Err(NonZeroExit(if stderr != "" then stderr else "Process exited with code " + CodeText(code)))
  }

  /** The timer's rejection message. */
  function TimeoutMessage(timeout: nat): string {
    "Process timeout after " + NatToString(timeout) + "ms"
  }

  /** `stdout` after the events `t`: every stdout chunk, in arrival order. */
  function StdoutOf(t: seq<Event>): string {
    if t == [] then ""
    else StdoutOf(t[..|t| - 1]) + (if t[|t| - 1].StdoutData? then t[|t| - 1].chunk else "")
  }

  /** `stderr` after the events `t`. */
  function StderrOf(t: seq<Event>): string {
    if t == [] then ""
    else StderrOf(t[..|t| - 1]) + (if t[|t| - 1].StderrData? then t[|t| - 1].chunk else "")
  }

  /** `isResolved` after the events `t`: set by `close` and `error`, never by the timer. */
  predicate ResolvedOf(t: seq<Event>) {
    t != [] && (ResolvedOf(t[..|t| - 1]) || t[|t| - 1].Close? || t[|t| - 1].SpawnError?)
  }

  /** The `resolve` / `reject` call, if any, that handling `e` makes after the events `t`. */
  function Handle(e: Event, t: seq<Event>, timeout: nat): Option<ProcessOutcome> {
    if ResolvedOf(t) then None
    else
      match e
      case Close(code) => Some(CloseOutcome(code, StdoutOf(t), StderrOf(t)))
      case SpawnError(cause) => Some(Err(SpawnFailure(cause)))
      case TimerFired => Some(Err(Timeout(TimeoutMessage(timeout))))
      case _ => None
  }

  /** What the promise settled with after the events `t`: the first call wins. */
  function SettledOf(t: seq<Event>, timeout: nat): Option<ProcessOutcome> {
    if t == [] then None
    else
      var before := SettledOf(t[..|t| - 1], timeout);
      if before.Some? then before else Handle(t[|t| - 1], t[..|t| - 1], timeout)
  }

  /** How one more event changes each function of the event sequence. */
  lemma Step(t: seq<Event>, e: Event, timeout: nat)
    ensures StdoutOf(t + [e]) == StdoutOf(t) + (if e.StdoutData? then e.chunk else "")
    ensures StderrOf(t + [e]) == StderrOf(t) + (if e.StderrData? then e.chunk else "")
    ensures ResolvedOf(t + [e]) == (ResolvedOf(t) || e.Close? || e.SpawnError?)
    ensures SettledOf(t + [e], timeout) ==
      if SettledOf(t, timeout).Some? then SettledOf(t, timeout) else Handle(e, t, timeout)
  {
    assert (t + [e])[..|t|] == t;
  }

  class ProcessRun {
    const timeout: nat
    var stdout: string
    var stderr: string
    var isResolved: bool
    /** The value the returned promise settled with, if it has settled. */
    var settled: Option<ProcessOutcome>
    /** The events handled so far. */
    ghost var Trace: seq<Event>

    ghost predicate Valid()
      reads this
    {
      && stdout == StdoutOf(Trace)
      && stderr == StderrOf(Trace)
      && isResolved == ResolvedOf(Trace)
      && settled == SettledOf(Trace, timeout)
    }

    constructor (timeout: nat := DefaultTimeout)
      ensures Valid() && this.timeout == timeout && Trace == []
    {
      this.timeout := timeout;
      stdout, stderr, isResolved, settled := "", "", false, None;
      Trace := [];
    }

    /** Settles the promise unless it already has. */
    method Settle(outcome: ProcessOutcome)
      modifies this`settled
      ensures settled == if old(settled).Some? then old(settled) else Some(outcome)
    {
      if settled.None? {
        settled := Some(outcome);
      }
    }

    method OnStdoutData(chunk: string)
      requires Valid()
      modifies this
      ensures Valid() && Trace == old(Trace) + [StdoutData(chunk)]
    {
      Step(Trace, StdoutData(chunk), timeout);
      stdout := stdout + chunk;
      Trace := Trace + [StdoutData(chunk)];
    }

    method OnStderrData(chunk: string)
      requires Valid()
      modifies this
      ensures Valid() && Trace == old(Trace) + [StderrData(chunk)]
    {
      Step(Trace, StderrData(chunk), timeout);
      stderr := stderr + chunk;
      Trace := Trace + [StderrData(chunk)];
    }

    method OnClose(code: Option<int>)
      requires Valid()
      modifies this
      ensures Valid() && Trace == old(Trace) + [Close(code)]
    {
      Step(Trace, Close(code), timeout);
      Trace := Trace + [Close(code)];
      if isResolved {
        return;
      }
      isResolved := true;
      if code == Some(0) {
        Settle(Ok(stdout));
      } else {
        Settle(Err(NonZeroExit(if stderr != "" then stderr else "Process exited with code " + CodeText(code))));
      }
    }

    method OnSpawnError(cause: string)
      requires Valid()
      modifies this
      ensures Valid() && Trace == old(Trace) + [SpawnError(cause)]
    {
      Step(Trace, SpawnError(cause), timeout);
      Trace := Trace + [SpawnError(cause)];
      if isResolved {
        return;
      }
      isResolved := true;
      Settle(Err(SpawnFailure(cause)));
    }

    /** The timer rejects without setting `isResolved`. */
    method OnTimerFired()
      requires Valid()
      modifies this
      ensures Valid() && Trace == old(Trace) + [TimerFired]
    {
      Step(Trace, TimerFired, timeout);
      Trace := Trace + [TimerFired];
      if !isResolved {
        Settle(Err(Timeout(TimeoutMessage(timeout))));
      }
    }
  }

  /** Output accumulates in order: the stdout of two consecutive stretches of
      events is the first stretch's stdout followed by the second's. */
  lemma {:induction false} StdoutOfAppend(a: seq<Event>, b: seq<Event>)
    ensures StdoutOf(a + b) == StdoutOf(a) + StdoutOf(b)
  {
    if b != [] {
      var b' := b[..|b| - 1];
      assert (a + b)[..|a + b| - 1] == a + b';
      assert (a + b)[|a + b| - 1] == b[|b| - 1];
      StdoutOfAppend(a, b');
    } else {
      assert a + b == a;
    }
  }

  /** Before anything settled, no `close` or `error` has been handled. */
  lemma {:induction false} UnsettledIsUnresolved(t: seq<Event>, timeout: nat)
    requires SettledOf(t, timeout) == None
    ensures !ResolvedOf(t)
  {
    if t != [] {
      UnsettledIsUnresolved(t[..|t| - 1], timeout);
    }
  }

  /** Once settled, the promise keeps its value whatever happens next. */
  lemma {:induction false} SettledIsFinal(t: seq<Event>, post: seq<Event>, timeout: nat)
    requires SettledOf(t, timeout).Some?
    ensures SettledOf(t + post, timeout) == SettledOf(t, timeout)
  {
    if post != [] {
      var post' := post[..|post| - 1];
      assert (t + post)[..|t + post| - 1] == t + post';
      SettledIsFinal(t, post', timeout);
      assert SettledOf(t + post', timeout).Some?;
    } else {
      assert t + post == t;
    }
  }

  /** The first `close`, `error` or timer event decides the outcome; every
      later event is ignored. */
  lemma FirstTerminalEventWins(pre: seq<Event>, e: Event, post: seq<Event>, timeout: nat)
    requires SettledOf(pre, timeout) == None
    requires e.Close? || e.SpawnError? || e.TimerFired?
    ensures Handle(e, pre, timeout).Some?
    ensures SettledOf(pre + [e] + post, timeout) == Handle(e, pre, timeout)
  {
    UnsettledIsUnresolved(pre, timeout);
    assert (pre + [e])[..|pre|] == pre;
    SettledIsFinal(pre + [e], post, timeout);
  }

  /** A clean exit resolves with everything written to stdout, in order. */
  lemma CleanExitYieldsAllStdout(pre: seq<Event>, post: seq<Event>, timeout: nat)
    requires SettledOf(pre, timeout) == None
    ensures SettledOf(pre + [Close(Some(0))] + post, timeout) == Some(Ok(StdoutOf(pre)))
  {
    FirstTerminalEventWins(pre, Close(Some(0)), post, timeout);
  }

  /** After `close` or `error` has set `isResolved`, a later `close` or `error`
      makes no call at all. */
  lemma LaterEventsIgnored(t: seq<Event>, e: Event, timeout: nat)
    requires ResolvedOf(t)
    ensures Handle(e, t, timeout) == None
  {
  }

  /** The timer rejects without setting the flag, so a `close` that follows it
      still calls `resolve` / `reject`; only the promise's settle-once rule keeps
      the timeout as the outcome. */
  lemma TimeoutThenClose(pre: seq<Event>, code: Option<int>, timeout: nat)
    requires SettledOf(pre, timeout) == None
    ensures !ResolvedOf(pre + [TimerFired])
    ensures Handle(Close(code), pre + [TimerFired], timeout).Some?
    ensures SettledOf(pre + [TimerFired, Close(code)], timeout) == Some(Err(Timeout(TimeoutMessage(timeout))))
  {
    UnsettledIsUnresolved(pre, timeout);
    var t := pre + [TimerFired];
    assert t[..|pre|] == pre;
    assert (pre + [TimerFired, Close(code)])[..|t|] == t;
  }

  /** Whatever the promise settles with came from one of the handlers: a
      timeout carries the timer's message and a failed exit a non-empty one. */
  lemma {:induction false} SettledOutcomeShape(t: seq<Event>, timeout: nat)
    requires SettledOf(t, timeout).Some?
    ensures var o := SettledOf(t, timeout).value;
      && (o.Err? && o.error.Timeout? ==> o.error.message == TimeoutMessage(timeout))
      && (o.Err? && o.error.NonZeroExit? ==> o.error.message != "")
  {
    var before := t[..|t| - 1];
    if SettledOf(before, timeout).Some? {
      SettledOutcomeShape(before, timeout);
    }
  }
}
