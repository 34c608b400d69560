/**
 The whole server as seen from the shared tables: every open media
 connection with its bridge state, and the `/call-status` webhook that the
 telephony provider calls as a call progresses. A terminal status tears the
 call down: the media socket is closed and deregistered, the log dropped,
 the transcript rendered and handed off, and the metadata removed.
 */
module Supervisor {
  import opened Common
  import opened Wire
  import opened Transcript
  import opened Registry
  import opened Notes
  import opened ProviderEvents
  import opened Relay
  import StatusLog

  datatype System = System(world: World, bridges: map<ConnId, Bridge>, nextConn: nat)

  const Initial := System(Empty, map[], 0)

  /** An effect on one media connection, or one that concerns the process as a whole. */
  datatype Action = At(conn: ConnId, effect: Effect) | Shared(effect: Effect)

  /** The shared tables are well formed and every bridge knows its own connection number. */
  ghost predicate Valid(s: System)
  {
    && Inv(s.world)
    && (forall c :: c in s.bridges ==> c < s.nextConn && s.bridges[c].conn == c)
  }

  /** A new `/media-stream` connection: a fresh bridge under an unused number. */
  function Connect(s: System): (r: (System, ConnId))
    ensures Valid(s) ==> r.1 !in s.bridges
    ensures r.0.bridges == s.bridges[r.1 := Fresh(r.1)] && r.0.world == s.world
    ensures Valid(s) ==> Valid(r.0)
  {
    var c := s.nextConn;
    (s.(bridges := s.bridges[c := Fresh(c)], nextConn := c + 1), c)
  }

  function Tag(conn: ConnId, fx: seq<Effect>): (r: seq<Action>)
    ensures |r| == |fx|
    ensures forall i :: 0 <= i < |r| ==> r[i] == At(conn, fx[i])
  {
    if |fx| == 0 then [] else Tag(conn, fx[..|fx| - 1]) + [At(conn, fx[|fx| - 1])]
  }

  /** An input for one media connection; inputs for a connection that does not exist change nothing. */
  function Deliver(s: System, conn: ConnId, e: Input): (r: (System, seq<Action>))
    ensures conn !in s.bridges ==> r == (s, [])
    ensures conn in s.bridges ==>
      var o := Step(s.bridges[conn], s.world, e);
      r.0 == s.(world := o.w, bridges := s.bridges[conn := o.b]) && r.1 == Tag(conn, o.fx)
  {
    if conn !in s.bridges then (s, [])
    else
      var o := Step(s.bridges[conn], s.world, e);
      (s.(world := o.w, bridges := s.bridges[conn := o.b]), Tag(conn, o.fx))
  }

  /** Number of transcript hand-offs among the actions. */
  function HandOffCount(acts: seq<Action>): nat
  {
    if |acts| == 0 then 0
    else HandOffCount(acts[..|acts| - 1]) + (if acts[|acts| - 1].effect.HandOff? then 1 else 0)
  }

  lemma {:induction false} HandOffCountConcat(a: seq<Action>, b: seq<Action>)
    ensures HandOffCount(a + b) == HandOffCount(a) + HandOffCount(b)
    decreases |b|
  {
    if |b| == 0 {
      assert a + b == a;
    } else {
      assert (a + b)[..|a + b| - 1] == a + b[..|b| - 1];
      HandOffCountConcat(a, b[..|b| - 1]);
    }
  }

  /** The statuses after which a call is over. */
  const TerminalStatuses: set<string> := {"completed", "failed", "busy", "no-answer"}

  /** The webhook's HTTP reply. */
  datatype Reply = Reply(code: nat, body: string)

  /**
   The cleanup for a call that has ended: close its media socket when it is
   still open and deregister it, drop its log, hand its rendered transcript
   off and drop it, and drop its metadata.
   */
  function Teardown(s: System, cs: string): (r: (System, seq<Action>))
  {
    var w := s.world;
    var (bridges, closing) :=
      if cs in w.sockets && w.sockets[cs] in s.bridges && s.bridges[w.sockets[cs]].farEndOpen then
        var c := w.sockets[cs];
        (s.bridges[c := s.bridges[c].(farEndOpen := false)], [At(c, CloseFarEnd(1000, "Call ended"))])
      else (s.bridges, []);
    var handOff := if cs in w.transcripts then [Shared(HandOff(cs, Render(w.transcripts[cs])))] else [];
    var w' := World(w.sockets - {cs}, w.logs - {cs}, w.transcripts - {cs}, w.metadata - {cs});
    (s.(world := w', bridges := bridges), closing + handOff)
  }

  /**
   `POST /call-status`: a missing call identifier or status is rejected with
   400; otherwise the status is broadcast and, for a terminal status, the call
   is torn down; the reply is 204 either way.
   */
  function CallStatus(s: System, callSid: Option<string>, status: Option<string>): (r: (System, Reply, seq<Action>))
    ensures !Present(callSid) ==> r == (s, Reply(400, "Missing CallSid"), [])
    ensures Present(callSid) && !Present(status) ==> r == (s, Reply(400, "Missing CallStatus"), [])
    ensures Present(callSid) && Present(status) ==> r.1 == Reply(204, "")
  {
    if !Present(callSid) then (s, Reply(400, "Missing CallSid"), [])
    else if !Present(status) then (s, Reply(400, "Missing CallStatus"), [])
    else
      var cs := callSid.value;
      var (w1, said) := Broadcast(s.world, callSid, CallStatusChanged(status.value));
      var s1 := s.(world := w1);
      var acts := [Shared(said[0])];
      if status.value in TerminalStatuses then
        var (s2, cleanup) := Teardown(s1, cs);
        (s2, Reply(204, ""), acts + cleanup)
      else (s1, Reply(204, ""), acts)
  }
}
