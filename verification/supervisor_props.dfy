/**
 What the status webhook promises about the shared tables: non-terminal
 statuses only log, a terminal status removes every trace of the call and
 hands its transcript off once, and repeating a terminal status is harmless.
 */
module SupervisorProps {
  import opened Common
  import opened Wire
  import opened Transcript
  import opened Registry
  import opened Notes
  import opened ProviderEvents
  import opened Relay
  import opened Supervisor
  import StatusLog
  import RelayProps
  import RelayEvents

  /**
   A non-terminal status only appends to the call's log and announces it;
   no socket, transcript, metadata or bridge changes.
   */
  lemma NonTerminalOnlyLogs(s: System, cs: string, status: string)
    requires cs != "" && status != ""
    requires status !in TerminalStatuses
    ensures var r := CallStatus(s, Some(cs), Some(status));
      && r.0.bridges == s.bridges
      && r.0.world.sockets == s.world.sockets
      && r.0.world.transcripts == s.world.transcripts
      && r.0.world.metadata == s.world.metadata
      && r.0.world.logs == s.world.logs[cs := StatusLog.Push(LogOf(s.world, cs), CallStatusChanged(status))]
      && r.2 == [Shared(Status(cs, CallStatusChanged(status), cs in s.world.sockets))]
  {
  }

  /** The state right after the status line of a callback is broadcast. */
  function Announced(s: System, cs: string, status: string): (s1: System)
    requires cs != ""
    ensures s1.bridges == s.bridges
    ensures s1.world.sockets == s.world.sockets && s1.world.transcripts == s.world.transcripts
    ensures s1.world.metadata == s.world.metadata
    ensures s1.world.logs - {cs} == s.world.logs - {cs}
  {
    s.(world := Broadcast(s.world, Some(cs), CallStatusChanged(status)).0)
  }

  lemma TerminalIsTeardown(s: System, cs: string, status: string)
    requires cs != "" && status in TerminalStatuses
    ensures var r := CallStatus(s, Some(cs), Some(status));
      var t := Teardown(Announced(s, cs, status), cs);
      && r.0 == t.0
      && r.2 == [Shared(Status(cs, CallStatusChanged(status), cs in s.world.sockets))] + t.1
  {
  }

  /**
   A terminal status (`completed`, `failed`, `busy`, `no-answer`) removes the
   call from all four tables, and nothing else from any of them.
   */
  lemma TerminalForgetsCall(s: System, cs: string, status: string)
    requires cs != "" && status in TerminalStatuses
    ensures var w := CallStatus(s, Some(cs), Some(status)).0.world;
      && w.sockets == s.world.sockets - {cs}
      && w.logs == s.world.logs - {cs}
      && w.transcripts == s.world.transcripts - {cs}
      && w.metadata == s.world.metadata - {cs}
  {
    TerminalIsTeardown(s, cs, status);
  }

  /**
   A terminal status closes the call's media socket with 1000 "Call ended"
   exactly when that socket is registered and still open, marking it closed;
   every other bridge is untouched.
   */
  lemma TerminalClosesOpenSocket(s: System, cs: string, status: string, c: ConnId)
    requires cs != "" && status in TerminalStatuses
    ensures var r := CallStatus(s, Some(cs), Some(status));
      var open := cs in s.world.sockets && c == s.world.sockets[cs] && c in s.bridges && s.bridges[c].farEndOpen;
      && (At(c, CloseFarEnd(1000, "Call ended")) in r.2 <==> open)
      && (c in r.0.bridges <==> c in s.bridges)
      && (c in s.bridges ==> r.0.bridges[c] == if open then s.bridges[c].(farEndOpen := false) else s.bridges[c])
  {
    TerminalIsTeardown(s, cs, status);
  }

  /**
   A terminal status hands the transcript off exactly when the call has one,
   and what it hands off is the rendering of that transcript.
   */
  lemma TerminalHandsOffTranscript(s: System, cs: string, status: string)
    requires cs != "" && status in TerminalStatuses
    ensures var r := CallStatus(s, Some(cs), Some(status));
      && HandOffCount(r.2) == (if cs in s.world.transcripts then 1 else 0)
      && (cs in s.world.transcripts ==> Shared(HandOff(cs, Render(s.world.transcripts[cs]))) in r.2)
  {
    TerminalIsTeardown(s, cs, status);
    var s1 := Announced(s, cs, status);
    var w := s1.world;
    var closing :=
      if cs in w.sockets && w.sockets[cs] in s1.bridges && s1.bridges[w.sockets[cs]].farEndOpen then
        [At(w.sockets[cs], CloseFarEnd(1000, "Call ended"))]
      else [];
    var handOff := if cs in w.transcripts then [Shared(HandOff(cs, Render(w.transcripts[cs])))] else [];
    assert Teardown(s1, cs).1 == closing + handOff;
    var head := [Shared(Status(cs, CallStatusChanged(status), cs in s.world.sockets))];
    HandOffCountConcat(head, closing + handOff);
    HandOffCountConcat(closing, handOff);
    assert HandOffCount(head) == 0 by {
      assert head[..0] == [];
    }
    assert HandOffCount(closing) == 0 by {
      if |closing| > 0 {
        assert closing[..0] == [];
      }
    }
    if |handOff| > 0 {
      assert handOff[..0] == [];
    }
  }

  /**
   Teardown is idempotent: a second terminal status for the same call leaves
   the whole system as the first left it, closes nothing and hands nothing
   off; it only announces itself.
   */
  lemma TeardownIdempotent(s: System, cs: string, first: string, second: string)
    requires cs != "" && first in TerminalStatuses && second in TerminalStatuses
    ensures var r1 := CallStatus(s, Some(cs), Some(first));
      var r2 := CallStatus(r1.0, Some(cs), Some(second));
      && r2.0 == r1.0
      && r2.2 == [Shared(Status(cs, CallStatusChanged(second), false))]
  {
    var r1 := CallStatus(s, Some(cs), Some(first));
    TerminalForgetsCall(s, cs, first);
    TerminalIsTeardown(r1.0, cs, second);
    var s1 := Announced(r1.0, cs, second);
    TeardownForgotten(s1, cs);
    DropAbsent(r1.0.world.logs, cs);
  }

  /** Removing a key that is not there changes nothing. */
  lemma DropAbsent<V>(m: map<string, V>, k: string)
    requires k !in m
    ensures m - {k} == m
  {
  }

  /** Tearing down a call that is already gone closes nothing, hands nothing off and only drops its log. */
  lemma TeardownForgotten(s: System, cs: string)
    requires cs !in s.world.sockets && cs !in s.world.transcripts && cs !in s.world.metadata
    ensures Teardown(s, cs) == (s.(world := s.world.(logs := s.world.logs - {cs})), [])
  {
    DropAbsent(s.world.sockets, cs);
    DropAbsent(s.world.transcripts, cs);
    DropAbsent(s.world.metadata, cs);
    var noActions: seq<Action> := [];
    assert noActions + noActions == noActions;
  }

  /** A run of status callbacks for one call, in arrival order. */
  function Callbacks(s: System, cs: string, statuses: seq<string>): (System, seq<Action>)
    decreases |statuses|
  {
    if |statuses| == 0 then (s, [])
    else
      var r := CallStatus(s, Some(cs), Some(statuses[0]));
      var rest := Callbacks(r.0, cs, statuses[1..]);
      (rest.0, r.2 + rest.1)
  }

  /** One callback: it hands off only for a terminal status, and afterwards the transcript is gone. */
  lemma OneCallbackHandOffs(s: System, cs: string, status: string)
    requires cs != ""
    ensures var r := CallStatus(s, Some(cs), Some(status));
      && HandOffCount(r.2) <= (if cs in s.world.transcripts then 1 else 0)
      && (cs in r.0.world.transcripts ==> cs in s.world.transcripts && HandOffCount(r.2) == 0)
  {
    var r := CallStatus(s, Some(cs), Some(status));
    if status == "" {
      assert r.2 == [];
    } else if status in TerminalStatuses {
      TerminalHandsOffTranscript(s, cs, status);
      TerminalForgetsCall(s, cs, status);
    } else {
      NonTerminalOnlyLogs(s, cs, status);
      assert r.2[..0] == [];
    }
  }

  /**
   However many status callbacks arrive for a call, and in whatever order,
   its transcript is handed off at most once, and never when it has none.
   */
  lemma {:induction false} TranscriptHandedOffAtMostOnce(s: System, cs: string, statuses: seq<string>)
    requires cs != ""
    ensures HandOffCount(Callbacks(s, cs, statuses).1) <= (if cs in s.world.transcripts then 1 else 0)
    decreases |statuses|
  {
    if |statuses| > 0 {
      var r := CallStatus(s, Some(cs), Some(statuses[0]));
      OneCallbackHandOffs(s, cs, statuses[0]);
      TranscriptHandedOffAtMostOnce(r.0, cs, statuses[1..]);
      HandOffCountConcat(r.2, Callbacks(r.0, cs, statuses[1..]).1);
    }
  }

  /** The webhook keeps the shared tables well formed. */
  lemma CallStatusPreservesValid(s: System, callSid: Option<string>, status: Option<string>)
    requires Valid(s)
    ensures Valid(CallStatus(s, callSid, status).0)
  {
    if Present(callSid) && Present(status) {
      var cs := callSid.value;
      var s1 := Announced(s, cs, status.value);
      assert Valid(s1);
      if status.value in TerminalStatuses {
        TerminalIsTeardown(s, cs, status.value);
      }
    }
  }

  /** Every step keeps the bridge's own connection number. */
  lemma StepKeepsConn(b: Bridge, w: World, e: Input)
    ensures Step(b, w, e).b.conn == b.conn
  {
    var h := Handle(b, w, e);
    if e.Start? {
      RelayProps.OnStartOpens(b, w, e.streamSid, e.callSid, e.customCallSid, e.language);
    } else if e.ProviderMessage? {
      assert h == OnProviderMessage(b, w, e.ev);
    } else if e.SessionUpdateDue? {
      RelayProps.OnSessionUpdateDueOpens(b, w);
    }
    assert h.b.conn == b.conn;
  }

  /** Delivering an input to a connection keeps the shared tables well formed. */
  lemma DeliverPreservesValid(s: System, conn: ConnId, e: Input)
    requires Valid(s)
    ensures Valid(Deliver(s, conn, e).0)
  {
    if conn in s.bridges {
      RelayProps.StepPreservesInv(s.bridges[conn], s.world, e);
      StepKeepsConn(s.bridges[conn], s.world, e);
    }
  }

  /**
   The socket closed by a terminal status still reports its own close
   afterwards, so the call's log, just dropped, comes back holding that one
   line.
   */
  lemma LogReturnsAfterTeardown(s: System, cs: string, status: string, c: ConnId)
    requires cs != "" && status in TerminalStatuses
    requires c in s.bridges && s.bridges[c].callSid == Some(cs)
    ensures var r := CallStatus(s, Some(cs), Some(status));
      LogOf(Deliver(r.0, c, FarEndClosed).0.world, cs) == [FarEndGone]
  {
    var r := CallStatus(s, Some(cs), Some(status));
    TerminalForgetsCall(s, cs, status);
    TerminalClosesOpenSocket(s, cs, status, c);
    assert c in r.0.bridges && r.0.bridges[c].callSid == Some(cs);
    RelayProps.FarEndCloseLogs(r.0.bridges[c], r.0.world);
  }

  /**
   A terminal status leaves the media connection live until its socket
   reports the close. An agent transcript delta arriving in between creates
   the call's transcript anew, and a repeated terminal status hands that one
   off as well: over mixed inputs, a call can see two hand-offs.
   */
  lemma LateDeltaRecreatesTranscript(s: System, cs: string, status: string, c: ConnId, text: string)
    requires cs != "" && status in TerminalStatuses
    requires c in s.bridges && s.bridges[c].callSid == Some(cs) && s.bridges[c].callActive
    requires !Blank(text)
    ensures var r1 := CallStatus(s, Some(cs), Some(status));
      var r2 := Deliver(r1.0, c, ProviderMessage(TranscriptDelta(Some(text))));
      var r3 := CallStatus(r2.0, Some(cs), Some(status));
      && TranscriptOf(r2.0.world, cs) == [Entry(Assistant, text)]
      && HandOffCount(r3.2) == 1
      && Shared(HandOff(cs, Render([Entry(Assistant, text)]))) in r3.2
  {
    var r1 := CallStatus(s, Some(cs), Some(status));
    TrimEmptyIffBlank(text);
    TerminalForgetsCall(s, cs, status);
    TerminalClosesOpenSocket(s, cs, status, c);
    var b := r1.0.bridges[c];
    assert Live(b);
    var e := ProviderMessage(TranscriptDelta(Some(text)));
    RelayEvents.MessageIsDispatched(b, r1.0.world, TranscriptDelta(Some(text)));
    RelayEvents.TranscriptDeltaAppends(b, r1.0.world, Some(text));
    var r2 := Deliver(r1.0, c, e);
    assert r2.0.world.transcripts == r1.0.world.transcripts[cs := [Entry(Assistant, text)]];
    TerminalHandsOffTranscript(r2.0, cs, status);
  }
}
