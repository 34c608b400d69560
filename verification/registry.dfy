/**
 The process-wide tables shared by all calls, keyed by call identifier: the
 registry of live media sockets, the bounded status logs, the transcripts and
 the call metadata; and `broadcastStatus`, the one writer of the logs.
 */
module Registry {
  import opened Common
  import opened Wire
  import opened Transcript
  import opened Notes
  import StatusLog

  /** Diagnostic identifier of one media connection. */
  type ConnId = nat

  datatype World = World(
    sockets: map<string, ConnId>,
    logs: map<string, seq<Note>>,
    transcripts: map<string, seq<Entry>>,
    metadata: map<string, Metadata>)

  const Empty := World(map[], map[], map[], map[])

  /**
   Every log is within capacity, and a transcript exists only once it holds an
   entry (the source creates the list right before its first push).
   */
  ghost predicate Inv(w: World)
  {
    && Bounded(w.logs)
    && (forall k :: k in w.transcripts ==> |w.transcripts[k]| > 0)
  }

  function LogOf(w: World, callSid: string): seq<Note>
  {
    if callSid in w.logs then w.logs[callSid] else []
  }

  function TranscriptOf(w: World, callSid: string): seq<Entry>
  {
    if callSid in w.transcripts then w.transcripts[callSid] else []
  }

  function MetadataOf(w: World, callSid: string): Option<Metadata>
  {
    if callSid in w.metadata then Some(w.metadata[callSid]) else None
  }

  /** The log of `callSid` in a table of logs, empty when it has none. */
  function LogIn(logs: map<string, seq<Note>>, callSid: string): seq<Note>
  {
    if callSid in logs then logs[callSid] else []
  }

  /** Every log in the table is within capacity. */
  predicate Bounded(logs: map<string, seq<Note>>)
  {
    forall k :: k in logs ==> |logs[k]| <= StatusLog.Capacity
  }

  /**
   The log writes of a run of effects: every status broadcast among them is
   pushed onto its own call's log, in the order broadcast; nothing else
   touches the logs.
   */
  function Record(logs: map<string, seq<Note>>, fx: seq<Effect>): (r: map<string, seq<Note>>)
    ensures Bounded(logs) ==> Bounded(r)
  {
    if |fx| == 0 then logs
    else
      var before := Record(logs, fx[..|fx| - 1]);
      var e := fx[|fx| - 1];
      if e.Status? then before[e.callSid := StatusLog.Push(LogIn(before, e.callSid), e.note)] else before
  }

  lemma {:induction false} RecordConcat(logs: map<string, seq<Note>>, a: seq<Effect>, b: seq<Effect>)
    ensures Record(logs, a + b) == Record(Record(logs, a), b)
    decreases |b|
  {
    if |b| == 0 {
      assert a + b == a;
    } else {
      assert (a + b)[..|a + b| - 1] == a + b[..|b| - 1];
      RecordConcat(logs, a, b[..|b| - 1]);
    }
  }

  /** No status broadcast among the effects. */
  predicate Silent(fx: seq<Effect>)
  {
    forall i :: 0 <= i < |fx| ==> !fx[i].Status?
  }

  /** Effects without a status broadcast leave every log as it was. */
  lemma {:induction false} RecordSilent(logs: map<string, seq<Note>>, fx: seq<Effect>)
    requires Silent(fx)
    ensures Record(logs, fx) == logs
    decreases |fx|
  {
    if |fx| > 0 {
      RecordSilent(logs, fx[..|fx| - 1]);
    }
  }

  /** A status broadcast at the end of a run of effects is its last log write. */
  lemma RecordThenStatus(logs: map<string, seq<Note>>, pre: seq<Effect>, e: Effect)
    requires e.Status?
    ensures var before := Record(logs, pre);
      Record(logs, pre + [e]) == before[e.callSid := StatusLog.Push(LogIn(before, e.callSid), e.note)]
  {
    assert (pre + [e])[..|pre + [e]| - 1] == pre;
  }

  /** The status effect `broadcastStatus` emits: the message and whether the call's media socket is registered. */
  function Announce(w: World, callSid: string, msg: Note): (e: Effect)
    ensures e.Status? && e.callSid == callSid && e.note == msg
    ensures e.active <==> callSid in w.sockets
  {
    Status(callSid, msg, callSid in w.sockets)
  }

  /**
   `broadcastStatus(callSid, msg)`: without a call identifier nothing happens;
   otherwise the message is appended to that call's bounded log (and only that
   log) and a status update carrying the registry membership goes out.
   */
  function Broadcast(w: World, callSid: Option<string>, msg: Note): (r: (World, seq<Effect>))
    ensures !Present(callSid) ==> r == (w, [])
    ensures Present(callSid) ==>
      && r.0.sockets == w.sockets && r.0.transcripts == w.transcripts && r.0.metadata == w.metadata
      && r.0.logs.Keys == w.logs.Keys + {callSid.value}
      && (forall k :: k in w.logs && k != callSid.value ==> r.0.logs[k] == w.logs[k])
      && r.0.logs[callSid.value] == StatusLog.Push(LogOf(w, callSid.value), msg)
      && r.1 == [Status(callSid.value, msg, callSid.value in w.sockets)]
    ensures Inv(w) ==> Inv(r.0)
  {
    if !Present(callSid) then (w, [])
    else
      var cs := callSid.value;
      (w.(logs := w.logs[cs := StatusLog.Push(LogOf(w, cs), msg)]),
       [Announce(w, cs, msg)])
  }

  /** A broadcast writes to the logs exactly what recording the status it emits writes. */
  lemma BroadcastIsRecorded(w: World, callSid: Option<string>, msg: Note)
    ensures var r := Broadcast(w, callSid, msg);
      r.0 == w.(logs := Record(w.logs, r.1))
  {
    var r := Broadcast(w, callSid, msg);
    if Present(callSid) {
      assert r.1[..0] == [];
      assert Record(w.logs, r.1[..0]) == w.logs;
    }
  }

  /** The messages of the status broadcasts for `callSid` among the effects, in broadcast order. */
  function NotesFor(fx: seq<Effect>, callSid: string): seq<Note>
    decreases |fx|
  {
    if |fx| == 0 then []
    else
      var e := fx[|fx| - 1];
      NotesFor(fx[..|fx| - 1], callSid) + (if e.Status? && e.callSid == callSid then [e.note] else [])
  }

  /**
   The log a call ends up with after a run of effects is its old log with
   every message broadcast for that call pushed on, oldest first; the
   broadcasts for other calls do not reach it.
   */
  lemma {:induction false} RecordIsPushAll(logs: map<string, seq<Note>>, fx: seq<Effect>, callSid: string)
    ensures LogIn(Record(logs, fx), callSid) == StatusLog.PushAll(LogIn(logs, callSid), NotesFor(fx, callSid))
    decreases |fx|
  {
    if |fx| == 0 {
    } else {
      var pre := fx[..|fx| - 1];
      var e := fx[|fx| - 1];
      RecordIsPushAll(logs, pre, callSid);
      if e.Status? && e.callSid == callSid {
        StatusLog.PushAllSnoc(LogIn(logs, callSid), NotesFor(pre, callSid), e.note);
      } else {
        assert NotesFor(fx, callSid) == NotesFor(pre, callSid) + [];
        assert NotesFor(pre, callSid) + [] == NotesFor(pre, callSid);
      }
    }
  }

  /**
   However many messages a step broadcasts for a call, its log keeps exactly
   the last hundred of its earlier entries followed by those messages.
   */
  lemma RecordKeepsLastHundred(logs: map<string, seq<Note>>, fx: seq<Effect>, callSid: string)
    requires Bounded(logs)
    ensures LogIn(Record(logs, fx), callSid) == StatusLog.Recent(LogIn(logs, callSid) + NotesFor(fx, callSid))
  {
    RecordIsPushAll(logs, fx, callSid);
    StatusLog.PushAllKeepsRecent(LogIn(logs, callSid), NotesFor(fx, callSid));
  }

  /** Apply an edit to one call's transcript, creating it on first use. */
  function EditTranscript(w: World, callSid: string, t': seq<Entry>): (r: World)
    requires |t'| > 0
    ensures r.sockets == w.sockets && r.logs == w.logs && r.metadata == w.metadata
    ensures r.transcripts == w.transcripts[callSid := t']
    ensures TranscriptOf(r, callSid) == t'
    ensures forall k :: k != callSid ==> TranscriptOf(r, k) == TranscriptOf(w, k)
    ensures Inv(w) ==> Inv(r)
  {
    w.(transcripts := w.transcripts[callSid := t'])
  }

  /** Every call's transcript is unchanged or differs from before by one pushed entry or a rewritten last entry. */
  ghost predicate TailEditsOnly(w: World, w': World)
  {
    forall k :: TranscriptOf(w', k) == TranscriptOf(w, k) || TailEdit(TranscriptOf(w, k), TranscriptOf(w', k))
  }
}
