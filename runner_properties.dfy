/**
 * Properties of one invocation of the runner, stated over the sequence of
 * events its process delivers: settlement happens at most once and the first
 * settling event decides it, `errors` only grows, `canceled` records whether
 * the cancel thunk was ever called, every cancel, process error and
 * throwing progress callback issues one kill request, and a supplied progress
 * callback sees every stdout chunk.
 */
module RunnerProperties {
  import opened JsValues
  import opened ErrorRegex
  import opened Runner

  /** The events whose handler calls `resolve` or `reject`. */
  predicate Settles(setup: Setup, e: Event)
  {
    ProgressThrows(setup, e) || e.ProcessError? || e.Close?
  }

  /** The value a settling event hands to `resolve` or `reject`, given the errors collected before it. */
  function SettlementBy(setup: Setup, e: Event, errors: seq<string>): Settlement
    requires Settles(setup, e)
  {
    match e
    case StdoutChunk(_, threw) => Rejected(threw.value)
    case ProcessError(err) => Rejected(err)
    case Close(code) => Resolved(code, errors)
  }

  /** The events whose handler calls `run.kill()`. */
  predicate IssuesKill(setup: Setup, e: Event)
  {
    ProgressThrows(setup, e) || e.ProcessError? || e.Cancel?
  }

  function KillRequests(setup: Setup, trace: seq<Event>): nat
    decreases |trace|
  {
    if trace == [] then 0
    else (if IssuesKill(setup, trace[0]) then 1 else 0) + KillRequests(setup, trace[1..])
  }

  lemma {:induction false} ReplayAppend(setup: Setup, st: State, t1: seq<Event>, t2: seq<Event>)
    ensures Replay(setup, st, t1 + t2) == Replay(setup, Replay(setup, st, t1), t2)
    decreases |t1|
  {
    if t1 != [] {
      assert (t1 + t2)[0] == t1[0];
      assert (t1 + t2)[1..] == t1[1..] + t2;
      ReplayAppend(setup, Step(setup, st, t1[0]), t1[1..], t2);
    } else {
      assert t1 + t2 == t2;
    }
  }

  lemma {:induction false} ReplayKeepsConsistent(setup: Setup, st: State, trace: seq<Event>)
    requires Consistent(st)
    ensures Consistent(Replay(setup, st, trace))
    decreases |trace|
  {
    if trace != [] {
      StepKeepsConsistent(setup, st, trace[0]);
      ReplayKeepsConsistent(setup, Step(setup, st, trace[0]), trace[1..]);
    }
  }

  /** Once the promise has settled, no later event changes how it settled. */
  lemma {:induction false} SettledOutcomeIsFinal(setup: Setup, st: State, trace: seq<Event>)
    requires st.outcome.Some?
    ensures Replay(setup, st, trace).outcome == st.outcome
    decreases |trace|
  {
    if trace != [] {
      SettledOutcomeIsFinal(setup, Step(setup, st, trace[0]), trace[1..]);
    }
  }

  /** Events that do not settle leave an unsettled promise unsettled. */
  lemma {:induction false} UnsettledWithoutSettlingEvent(setup: Setup, st: State, trace: seq<Event>)
    requires st.outcome.None?
    requires forall j :: 0 <= j < |trace| ==> !Settles(setup, trace[j])
    ensures Replay(setup, st, trace).outcome.None?
    decreases |trace|
  {
    if trace != [] {
      assert !Settles(setup, trace[0]);
      UnsettledWithoutSettlingEvent(setup, Step(setup, st, trace[0]), trace[1..]);
    }
  }

  /**
   * The first settling event decides the outcome: a `close` resolves with
   * the errors collected by the events before it, a process error or a
   * throwing progress callback rejects with what it carries.
   */
  lemma {:induction false} FirstSettlingEventWins(setup: Setup, st: State, trace: seq<Event>, i: nat)
    requires st.outcome.None?
    requires i < |trace| && Settles(setup, trace[i])
    requires forall j :: 0 <= j < i ==> !Settles(setup, trace[j])
    ensures Replay(setup, st, trace).outcome ==
            Some(SettlementBy(setup, trace[i], Replay(setup, st, trace[..i]).errors))
    decreases i
  {
    var before := Replay(setup, st, trace[..i]);
    forall j | 0 <= j < |trace[..i]| ensures !Settles(setup, trace[..i][j]) {
      assert trace[..i][j] == trace[j];
    }
    UnsettledWithoutSettlingEvent(setup, st, trace[..i]);
    assert trace == trace[..i] + trace[i..];
    ReplayAppend(setup, st, trace[..i], trace[i..]);
    var settled := Step(setup, before, trace[i]);
    assert settled.outcome == Some(SettlementBy(setup, trace[i], before.errors));
    assert trace[i..][0] == trace[i];
    SettledOutcomeIsFinal(setup, settled, trace[i..][1..]);
  }

  /** `errors` is append-only, and each event adds at most one entry. */
  lemma {:induction false} ErrorsOnlyGrow(setup: Setup, st: State, trace: seq<Event>)
    ensures st.errors <= Replay(setup, st, trace).errors
    ensures |Replay(setup, st, trace).errors| <= |st.errors| + |trace|
    decreases |trace|
  {
    if trace != [] {
      var next := Step(setup, st, trace[0]);
      assert st.errors <= next.errors && |next.errors| <= |st.errors| + 1;
      ErrorsOnlyGrow(setup, next, trace[1..]);
    }
  }

  /** `canceled` ends up true exactly when it already was or the cancel thunk was called. */
  lemma {:induction false} CanceledIffCancelCalled(setup: Setup, st: State, trace: seq<Event>)
    ensures Replay(setup, st, trace).canceled <==> st.canceled || Cancel in trace
    decreases |trace|
  {
    if trace != [] {
      CanceledIffCancelCalled(setup, Step(setup, st, trace[0]), trace[1..]);
      assert Cancel in trace <==> trace[0] == Cancel || Cancel in trace[1..] by {
        assert trace == [trace[0]] + trace[1..];
      }
    }
  }

  /** One kill request per cancel call, process error and throwing progress callback; none for anything else. */
  lemma {:induction false} KillsCountKillingEvents(setup: Setup, st: State, trace: seq<Event>)
    ensures Replay(setup, st, trace).kills == st.kills + KillRequests(setup, trace)
    decreases |trace|
  {
    if trace != [] {
      KillsCountKillingEvents(setup, Step(setup, st, trace[0]), trace[1..]);
    }
  }

  /**
   * A stdout chunk whose progress callback returned appends at most one
   * entry: the capture after the first marker at or after `lastIndex`, unless
   * it is empty; without such a marker nothing is appended and `lastIndex`
   * drops to 0. `canceled`, the kills and the settlement do not change.
   */
  lemma StdoutChunkEffect(setup: Setup, st: State, chunk: string, threw: Option<Value>)
    requires !ProgressThrows(setup, StdoutChunk(chunk, threw))
    ensures var st' := Step(setup, st, StdoutChunk(chunk, threw));
      st'.canceled == st.canceled && st'.kills == st.kills && st'.outcome == st.outcome
    ensures var st' := Step(setup, st, StdoutChunk(chunk, threw));
      NoMarkerFrom(chunk, st.lastIndex, setup.eol) ==> st'.errors == st.errors && st'.lastIndex == 0
    ensures var st' := Step(setup, st, StdoutChunk(chunk, threw));
      forall p :: FirstMarker(chunk, st.lastIndex, p, setup.eol) ==>
        var m := MatchAt(chunk, p, setup.eol).value;
        st'.lastIndex == m.end &&
        st'.errors == st.errors + (if m.start == m.end then [] else [chunk[m.start..m.end]])
  {
  }

  /** The chunks of the trace's stdout events, in delivery order. */
  function StdoutChunks(trace: seq<Event>): (chunks: seq<string>)
    decreases |trace|
  {
    if trace == [] then []
    else (if trace[0].StdoutChunk? then [trace[0].chunk] else []) + StdoutChunks(trace[1..])
  }

  /**
   * A supplied progress callback is called once with every stdout chunk,
   * verbatim and in delivery order, whether or not it throws and whether or
   * not the promise has settled; without a callback nothing is called.
   */
  lemma {:induction false} ProgressSeesEveryStdoutChunk(setup: Setup, st: State, trace: seq<Event>)
    ensures Replay(setup, st, trace).progressCalls ==
            st.progressCalls + if setup.hasProgress then StdoutChunks(trace) else []
    decreases |trace|
  {
    if trace != [] {
      var next := Step(setup, st, trace[0]);
      ProgressSeesEveryStdoutChunk(setup, next, trace[1..]);
      if setup.hasProgress && trace[0].StdoutChunk? {
        assert next.progressCalls == st.progressCalls + [trace[0].chunk];
      } else {
        assert next.progressCalls == st.progressCalls;
      }
    }
  }

  /** The scan of "Error: disk full", with or without a trailing newline, from index 0 on POSIX. */
  lemma DiskFullScan(s: string)
    requires s == "Error: disk full\n" || s == "Error: disk full"
    ensures FeedStdout(s, 0, Lf) == Scan(Some(" disk full"), 16)
  {
    assert Literal(Lf) == "Error:";
    assert s[0..6] == "Error:";
    assert MarkerAt(s, 0, Lf);
    assert LineEnd(s, 16) == 16;
    assert LineEnd(s, 15) == 16;
    assert LineEnd(s, 14) == 16;
    assert LineEnd(s, 13) == 16;
    assert LineEnd(s, 12) == 16;
    assert LineEnd(s, 11) == 16;
    assert LineEnd(s, 10) == 16;
    assert LineEnd(s, 9) == 16;
    assert LineEnd(s, 8) == 16;
    assert LineEnd(s, 7) == 16;
    assert LineEnd(s, 6) == 16;
    assert MatchAt(s, 0, Lf) == Some(Match(0, 6, 16));
    assert Search(s, 0, Lf) == Some(Match(0, 6, 16));
    assert s[6..16] == " disk full";
  }

  /**
   * The global pattern's state carries over: after the chunk "Error: disk full"
   * is recorded, the same chunk is scanned from index 16, finds nothing and
   * resets `lastIndex`, so only the third delivery is recorded again.
   */
  lemma RepeatedChunkIsMissedOnce()
    ensures var c := StdoutChunk("Error: disk full", None);
      Replay(Setup(Lf, false), Initial(0), [c, c, c]).errors == [" disk full", " disk full"]
  {
    var s := "Error: disk full";
    var setup := Setup(Lf, false);
    var c := StdoutChunk(s, None);
    DiskFullScan(s);
    assert Search(s, 16, Lf) == None;
    assert FeedStdout(s, 16, Lf) == Scan(None, 0);
    var st1 := Step(setup, Initial(0), c);
    assert st1.errors == [" disk full"] && st1.lastIndex == 16;
    var st2 := Step(setup, st1, c);
    assert st2.errors == st1.errors && st2.lastIndex == 0;
    var st3 := Step(setup, st2, c);
    assert st3.errors == [" disk full", " disk full"];
    assert [c, c, c][1..] == [c, c] && [c, c][1..] == [c];
    assert Replay(setup, st3, []) == st3;
    assert Replay(setup, st2, [c]) == st3;
    assert Replay(setup, st1, [c, c]) == st3;
  }

  /**
   * On POSIX the newline after the marker is optional and the capture keeps
   * the text after `Error:` as it is, leading space included.
   */
  lemma PosixDiskFullResolves()
    ensures Replay(Setup(Lf, false), Initial(0),
                   [StdoutChunk("Error: disk full\n", None), Close(Some(2))]).outcome
            == Some(Resolved(Some(2), [" disk full"]))
  {
    var s := "Error: disk full\n";
    var setup := Setup(Lf, false);
    var t := [StdoutChunk(s, None), Close(Some(2))];
    DiskFullScan(s);
    var st1 := Step(setup, Initial(0), t[0]);
    assert st1.errors == [" disk full"];
    var st2 := Step(setup, st1, t[1]);
    assert st2.outcome == Some(Resolved(Some(2), [" disk full"]));
    assert t[1..] == [Close(Some(2))] && t[1..][1..] == [];
    assert Replay(setup, st2, []) == st2;
    assert Replay(setup, st1, t[1..]) == st2;
  }

  /**
   * On Windows the carriage return after `Error:` is required, so "Error: x"
   * followed by a line ending records nothing, while "Error:" followed by a
   * line ending and "x" records "x".
   */
  lemma WindowsNeedsCarriageReturn()
    ensures Step(Setup(CrLf, false), Initial(0), StdoutChunk("Error: x\r\n", None)).errors == []
    ensures Step(Setup(CrLf, false), Initial(0), StdoutChunk("Error:\r\nx\r\n", None)).errors == ["x"]
  {
    assert Literal(CrLf) == "Error:\r";
    var miss := "Error: x\r\n";
    forall p | 0 <= p <= |miss| ensures !MarkerAt(miss, p, CrLf) {
      if p == 0 {
        assert miss[6] == ' ';
        assert miss[0..7][6] == ' ';
      } else if p <= 3 {
        assert miss[p] != 'E';
        assert p + 7 <= |miss| ==> miss[p..p + 7][0] == miss[p];
      }
    }
    assert FeedStdout(miss, 0, CrLf).errout == None;
    var hit := "Error:\r\nx\r\n";
    assert hit[0..7] == "Error:\r";
    assert MarkerAt(hit, 0, CrLf);
    assert hit[7] == '\n';
    assert LineEnd(hit, 9) == 9;
    assert LineEnd(hit, 8) == 9;
    assert MatchAt(hit, 0, CrLf) == Some(Match(0, 8, 9));
    assert Search(hit, 0, CrLf) == Some(Match(0, 8, 9));
    assert hit[8..9] == "x";
    assert FeedStdout(hit, 0, CrLf) == Scan(Some("x"), 9);
  }
}
