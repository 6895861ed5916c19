/**
 * The runner exported by util/run.js: the precondition checks, the argument
 * vector handed to the 7-Zip process, and the handlers that react to what the
 * process emits. One invocation is an event-driven state machine whose state
 * is the `errors` list, the `canceled` flag, the global pattern's `lastIndex`,
 * the number of kill requests and the settlement of the returned promise.
 */
module Runner {
  import opened JsValues
  import opened ErrorRegex

  /** `feedStderr`: a non-empty chunk is passed on as it is, an empty one is dropped. */
  function FeedStderr(output: string): (r: Option<string>)
    ensures r.Some? <==> output != ""
    ensures r.Some? ==> r.value == output
  {
    if output != "" then Some(output) else None
  }

  /** What `feedStdout` returns, and the pattern's `lastIndex` after its `exec`. */
  datatype Scan = Scan(errout: Option<string>, lastIndex: nat)

  /**
   * `feedStdout` after the progress callback returned: one `exec` of the
   * global pattern on the chunk, and its capture group if it matched.
   */
  function FeedStdout(chunk: string, lastIndex: nat, eol: Eol): (r: Scan)
    ensures r.errout.None? <==> NoMarkerFrom(chunk, lastIndex, eol)
    ensures forall p :: FirstMarker(chunk, lastIndex, p, eol) ==>
      var m := MatchAt(chunk, p, eol).value;
      r.errout == Some(chunk[m.start..m.end]) && r.lastIndex == m.end
    ensures r.errout.Some? ==> forall k :: 0 <= k < |r.errout.value| ==> !IsLineTerminator(r.errout.value[k])
    ensures r.errout.None? ==> r.lastIndex == 0
    ensures r.errout.Some? ==> r.lastIndex > lastIndex
  {
    var res := Exec(chunk, lastIndex, eol);
    match res.found
    case Some(m) => Scan(Some(chunk[m.start..m.end]), res.lastIndex)
    case None => Scan(None, res.lastIndex)
  }

  /** The message of the Error that `assert` throws. */
  function AssertionMessage(message: string): string
  {
    "Assertion failed: " + message
  }

  /** `assert(condition, message)`: the Error it throws when the condition is false. */
  function Assert(condition: bool, message: string): (thrown: Option<Value>)
    ensures thrown.None? <==> condition
    ensures thrown.Some? ==> thrown.value == ErrorObj(AssertionMessage(message))
  {
    if condition then None else Some(ErrorObj(AssertionMessage(message)))
  }

  /** How an invocation starts: refused before any process exists, or a spawn of `command` with `argv`. */
  datatype Launch = Refused(error: Value) | Spawned(command: string, argv: seq<Value>)

  function Strings(tokens: seq<string>): (vs: seq<Value>)
    ensures |vs| == |tokens|
    ensures forall k :: 0 <= k < |tokens| ==> vs[k] == Str(tokens[k])
  {
    seq(|tokens|, k requires 0 <= k < |tokens| => Str(tokens[k]))
  }

  /**
   * The synchronous part of the exported function: the two assertions, then
   * `args.concat(utilSwitches(switches))`. The switch serializer is not part
   * of this model and comes in as `serialize`.
   */
  function Start<O>(cmd: Value, args: Value, switches: O, serialize: O -> seq<string>): (r: Launch)
    ensures r.Refused? <==> !cmd.Str? || !args.Arr?
    ensures !cmd.Str? ==> r == Refused(ErrorObj(AssertionMessage("Command must be a string")))
    ensures cmd.Str? && !args.Arr? ==> r == Refused(ErrorObj(AssertionMessage("args should be an array")))
    ensures r.Spawned? ==>
      r.command == cmd.s &&
      |r.argv| == |args.items| + |serialize(switches)| &&
      r.argv[..|args.items|] == args.items &&
      forall k :: 0 <= k < |serialize(switches)| ==> r.argv[|args.items| + k] == Str(serialize(switches)[k])
  {
    var cmdCheck := Assert(cmd.Str?, "Command must be a string");
    var argsCheck := Assert(args.Arr?, "args should be an array");
    if cmdCheck.Some? then
      Refused(cmdCheck.value)
    else if argsCheck.Some? then
      Refused(argsCheck.value)
    else
      var tokens := serialize(switches);
      var argv := args.items + Strings(tokens);
      assert argv[..|args.items|] == args.items;
      Spawned(cmd.s, argv)
  }

  /** How the promise settled: resolved with `{code, errors}` (`code` is null after a signal) or rejected. */
  datatype Settlement = Resolved(code: Option<int>, errors: seq<string>) | Rejected(reason: Value)

  /** What is fixed for one invocation: the platform line ending, and whether `progress` was supplied. */
  datatype Setup = Setup(eol: Eol, hasProgress: bool)

  /**
   * Everything the handlers of one invocation read or change, and the chunks
   * the progress callback has been called with, in order.
   */
  datatype State = State(
    errors: seq<string>,
    canceled: bool,
    lastIndex: nat,
    kills: nat,
    outcome: Option<Settlement>,
    progressCalls: seq<string>)

  /**
   * What the process delivers to one invocation. A stdout chunk carries what
   * the progress callback did with it: returned, or threw a value (ignored
   * when no callback was supplied). `Cancel` is one call of the cancel thunk
   * handed to the progress callback; `ProcessError` and `Close` are the
   * process's `error` and `close` events.
   */
  datatype Event =
    | StdoutChunk(chunk: string, progressThrew: Option<Value>)
    | StderrChunk(chunk: string)
    | Cancel
    | ProcessError(err: Value)
    | Close(code: Option<int>)

  /** The first value passed to `resolve` or `reject` wins; later calls do nothing. */
  function Settle(outcome: Option<Settlement>, s: Settlement): (settled: Option<Settlement>)
  {
    if outcome.None? then Some(s) else outcome
  }

  /** `if (errout) errors.push(errout)`: `undefined` and the empty string are falsy. */
  function Pushed(errout: Option<string>): (pushed: seq<string>)
  {
    if errout.Some? && errout.value != "" then [errout.value] else []
  }

  /** The progress callback was called with this event's chunk and threw. */
  predicate ProgressThrows(setup: Setup, e: Event)
  {
    e.StdoutChunk? && setup.hasProgress && e.progressThrew.Some?
  }

  /**
   * The handler an event runs, as a change of state. A stdout chunk first
   * goes to the progress callback, when one was supplied; only if that call
   * returns is the chunk scanned.
   */
  function Step(setup: Setup, st: State, e: Event): (next: State)
  {
    match e
    case StdoutChunk(chunk, threw) =>
      var called := if setup.hasProgress then st.progressCalls + [chunk] else st.progressCalls;
      if ProgressThrows(setup, e) then
        st.(progressCalls := called, kills := st.kills + 1,
            outcome := Settle(st.outcome, Rejected(threw.value)))
      else
        var scan := FeedStdout(chunk, st.lastIndex, setup.eol);
        st.(progressCalls := called, errors := st.errors + Pushed(scan.errout),
            lastIndex := scan.lastIndex)
    case StderrChunk(chunk) =>
      st.(errors := st.errors + Pushed(FeedStderr(chunk)))
    case Cancel =>
      st.(canceled := true, kills := st.kills + 1)
    case ProcessError(err) =>
      st.(kills := st.kills + 1, outcome := Settle(st.outcome, Rejected(err)))
    case Close(code) =>
      st.(outcome := Settle(st.outcome, Resolved(code, st.errors)))
  }

  /** The state after the events of `trace`, delivered one after another. */
  function Replay(setup: Setup, st: State, trace: seq<Event>): (final: State)
    decreases |trace|
  {
    if trace == [] then st else Replay(setup, Step(setup, st, trace[0]), trace[1..])
  }

  /**
   * What every reachable state satisfies: only non-empty strings were pushed,
   * a cancel always came with a kill, and a resolved value lists errors that
   * are still, in order, at the front of the list.
   */
  predicate Consistent(st: State)
  {
    (forall k :: 0 <= k < |st.errors| ==> st.errors[k] != "") &&
    (st.canceled ==> st.kills > 0) &&
    (st.outcome.Some? && st.outcome.value.Resolved? ==> st.outcome.value.errors <= st.errors)
  }

  /** The state of a freshly spawned process, with the pattern's `lastIndex` as it was left. */
  function Initial(lastIndex: nat): (st: State)
    ensures Consistent(st)
  {
    State([], false, lastIndex, 0, None, [])
  }

  lemma StepKeepsConsistent(setup: Setup, st: State, e: Event)
    requires Consistent(st)
    ensures Consistent(Step(setup, st, e))
  {
  }

  /**
   * One call of the exported function. The constructor performs the checks
   * and builds the argument vector; each method is one of the handlers the
   * spawned process's events run.
   */
  class Invocation {
    const setup: Setup
    const launch: Launch
    var errors: seq<string>
    var canceled: bool
    var lastIndex: nat
    var kills: nat
    var outcome: Option<Settlement>
    var progressCalls: seq<string>

    function Snapshot(): State
      reads this
    {
      State(errors, canceled, lastIndex, kills, outcome, progressCalls)
    }

    ghost predicate Valid()
      reads this
    {
      Consistent(Snapshot())
    }

    /**
     * `cmd`, `args`, `switches` and `progress` as passed by the caller
     * (`hasProgress` says whether `progress` was supplied); `lastIndex` is the
     * value the module-global pattern holds when the call is made. A refused
     * call rejects at once and spawns nothing.
     */
    constructor <O>(cmd: Value, args: Value, switches: O, serialize: O -> seq<string>,
                    hasProgress: bool, eol: Eol, lastIndex: nat)
      ensures Valid()
      ensures launch == Start(cmd, args, switches, serialize)
      ensures setup == Setup(eol, hasProgress)
      ensures errors == [] && !canceled && kills == 0 && this.lastIndex == lastIndex
      ensures progressCalls == []
      ensures outcome == if launch.Refused? then Some(Rejected(launch.error)) else None
    {
      var l := Start(cmd, args, switches, serialize);
      setup := Setup(eol, hasProgress);
      launch := l;
      errors := [];
      canceled := false;
      this.lastIndex := lastIndex;
      kills := 0;
      progressCalls := [];
      outcome := if l.Refused? then Some(Rejected(l.error)) else None;
    }

    /** `resolve` or `reject`: only the first call settles the promise. */
    method SettleWith(s: Settlement)
      modifies this`outcome
      ensures outcome == if old(outcome).None? then Some(s) else old(outcome)
    {
      if outcome.None? {
        outcome := Some(s);
      }
    }

    /** The `data` handler of stdout. */
    method OnStdoutData(chunk: string, progressThrew: Option<Value>)
      requires launch.Spawned? && Valid()
      modifies this
      ensures Valid()
      ensures Snapshot() == Step(setup, old(Snapshot()), StdoutChunk(chunk, progressThrew))
      ensures canceled == old(canceled)
      ensures progressCalls == old(progressCalls) + if setup.hasProgress then [chunk] else []
      ensures setup.hasProgress && progressThrew.Some? ==>
        errors == old(errors) && lastIndex == old(lastIndex) && kills == old(kills) + 1 &&
        outcome == Settle(old(outcome), Rejected(progressThrew.value))
      ensures !(setup.hasProgress && progressThrew.Some?) ==>
        var scan := FeedStdout(chunk, old(lastIndex), setup.eol);
        errors == old(errors) + Pushed(scan.errout) && lastIndex == scan.lastIndex &&
        kills == old(kills) && outcome == old(outcome)
    {
      ghost var before := Snapshot();
      StepKeepsConsistent(setup, before, StdoutChunk(chunk, progressThrew));
      if setup.hasProgress {
        progressCalls := progressCalls + [chunk];
      }
      if setup.hasProgress && progressThrew.Some? {
        kills := kills + 1;
        SettleWith(Rejected(progressThrew.value));
      } else {
        var scan := FeedStdout(chunk, lastIndex, setup.eol);
        lastIndex := scan.lastIndex;
        if scan.errout.Some? && scan.errout.value != "" {
          errors := errors + [scan.errout.value];
        }
        assert errors == before.errors + Pushed(scan.errout);
      }
    }

    /** The `data` handler of stderr. */
    method OnStderrData(chunk: string)
      requires launch.Spawned? && Valid()
      modifies this
      ensures Valid()
      ensures Snapshot() == Step(setup, old(Snapshot()), StderrChunk(chunk))
      ensures errors == if chunk != "" then old(errors) + [chunk] else old(errors)
      ensures canceled == old(canceled) && lastIndex == old(lastIndex)
      ensures kills == old(kills) && outcome == old(outcome) && progressCalls == old(progressCalls)
    {
      var errout := FeedStderr(chunk);
      if errout.Some? {
        errors := errors + [errout.value];
      }
    }

    /** The cancel thunk handed to the progress callback. */
    method CancelThunk()
      requires launch.Spawned? && Valid()
      modifies this
      ensures Valid()
      ensures Snapshot() == Step(setup, old(Snapshot()), Cancel)
      ensures canceled && kills == old(kills) + 1
      ensures errors == old(errors) && lastIndex == old(lastIndex) && outcome == old(outcome)
      ensures progressCalls == old(progressCalls)
    {
      canceled := true;
      kills := kills + 1;
    }

    /** The process's `error` handler. */
    method OnError(err: Value)
      requires launch.Spawned? && Valid()
      modifies this
      ensures Valid()
      ensures Snapshot() == Step(setup, old(Snapshot()), ProcessError(err))
      ensures kills == old(kills) + 1 && outcome == Settle(old(outcome), Rejected(err))
      ensures errors == old(errors) && canceled == old(canceled) && lastIndex == old(lastIndex)
      ensures progressCalls == old(progressCalls)
    {
      kills := kills + 1;
      SettleWith(Rejected(err));
    }

    /** The process's `close` handler. */
    method OnClose(code: Option<int>)
      requires launch.Spawned? && Valid()
      modifies this
      ensures Valid()
      ensures Snapshot() == Step(setup, old(Snapshot()), Close(code))
      ensures outcome == Settle(old(outcome), Resolved(code, errors))
      ensures errors == old(errors) && canceled == old(canceled)
      ensures lastIndex == old(lastIndex) && kills == old(kills) && progressCalls == old(progressCalls)
    {
      SettleWith(Resolved(code, errors));
    }
  }
}
