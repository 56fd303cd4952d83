/**
 * Properties of two peers and the relay together: the roles the relay's
 * events give the peers, and what the requesting peer shows for a remote
 * execution compared with running the same code locally.
 */
module Session {
  import opened Wrappers
  import opened Wire
  import Json
  import Signaling
  import Executor
  import P2P
  import Renderer

  /** The relay's output when `a` creates a room and `b` joins it, in order. */
  lemma HandshakeTrace(rooms: Signaling.Rooms, id: RoomId, a: Signaling.Handle, b: Signaling.Handle)
    requires id !in rooms
    ensures var created := Signaling.CreateStep(rooms, a, id);
            var joined := Signaling.JoinStep(created.rooms, b, id);
      created.out + joined.out == [Signaling.Emit(a, Created), Signaling.Emit(b, Joined),
                                   Signaling.Emit(a, Ready), Signaling.Emit(b, Ready)]
  {
    var created := Signaling.CreateStep(rooms, a, id);
    var joined := Signaling.JoinStep(created.rooms, b, id);
    assert joined.rooms[id] == [a, b];
    assert Signaling.Broadcast([a, b], Ready) == [Signaling.Emit(a, Ready), Signaling.Emit(b, Ready)];
  }

  /** How the relay's handshake output splits between its two recipients. */
  lemma HandshakeRouting(a: Signaling.Handle, b: Signaling.Handle)
    requires a != b
    ensures var out := [Signaling.Emit(a, Created), Signaling.Emit(b, Joined),
                        Signaling.Emit(a, Ready), Signaling.Emit(b, Ready)];
      Signaling.EventsTo(out, a) == [Created, Ready] && Signaling.EventsTo(out, b) == [Joined, Ready]
  {
    var out := [Signaling.Emit(a, Created), Signaling.Emit(b, Joined),
                Signaling.Emit(a, Ready), Signaling.Emit(b, Ready)];
    var o1, o2, o3 := out[1..], out[2..], out[3..];
    assert o1[1..] == o2 && o2[1..] == o3 && o3[1..] == [];
    assert Signaling.EventsTo(o3, a) == [] + Signaling.EventsTo([], a);
    assert Signaling.EventsTo(o3, b) == [Ready] + Signaling.EventsTo([], b);
    assert Signaling.EventsTo(o2, a) == [Ready] + Signaling.EventsTo(o3, a);
    assert Signaling.EventsTo(o2, b) == [] + Signaling.EventsTo(o3, b);
    assert Signaling.EventsTo(o1, a) == [] + Signaling.EventsTo(o2, a);
    assert Signaling.EventsTo(o1, b) == [Joined] + Signaling.EventsTo(o2, b);
    assert Signaling.EventsTo(out, a) == [Created] + Signaling.EventsTo(o1, a);
    assert Signaling.EventsTo(out, b) == [] + Signaling.EventsTo(o1, b);
  }

  /**
   * When `a` creates a room and `b` joins it, each receives exactly the
   * events that make it build one peer: the creator an initiating one, the
   * joiner a responding one.
   */
  lemma HandshakeRoles(rooms: Signaling.Rooms, id: RoomId, a: Signaling.Handle, b: Signaling.Handle)
    requires id !in rooms && a != b
    ensures var created := Signaling.CreateStep(rooms, a, id);
            var joined := Signaling.JoinStep(created.rooms, b, id);
            var out := created.out + joined.out;
      && Signaling.EventsTo(out, a) == [Created, Ready]
      && Signaling.EventsTo(out, b) == [Joined, Ready]
      && P2P.PeersCreated(true, Signaling.EventsTo(out, a)) == [true]
      && P2P.PeersCreated(false, Signaling.EventsTo(out, b)) == [false]
  {
    HandshakeTrace(rooms, id, a, b);
    HandshakeRouting(a, b);
    assert [Created, Ready][1..] == [Ready];
    assert [Joined, Ready][1..] == [Ready];
  }

  /** A third socket joining a full room gets only the refusal, so it never builds a peer. */
  lemma LateJoinerBuildsNoPeer(rooms: Signaling.Rooms, id: RoomId, a: Signaling.Handle,
                               b: Signaling.Handle, c: Signaling.Handle)
    requires id !in rooms
    ensures var created := Signaling.CreateStep(rooms, a, id);
            var joined := Signaling.JoinStep(created.rooms, b, id);
            var refused := Signaling.JoinStep(joined.rooms, c, id);
      && Signaling.EventsTo(refused.out, c) == [Error(Signaling.RoomFull)]
      && P2P.PeersCreated(false, Signaling.EventsTo(refused.out, c)) == []
  {
    var joined := Signaling.JoinStep(Signaling.CreateStep(rooms, a, id).rooms, b, id);
    assert |joined.rooms[id]| == 2;
  }

  /**
   * For a settled execution, what the requesting peer finally shows is what
   * running the same code locally would show, except for a failure whose
   * message is empty: that one arrives as an error field that is falsy and is
   * shown as empty normal output.
   */
  lemma RemoteMatchesLocal(data: Json.Value, outcome: Executor.Settlement, ignored: Executor.Settlement)
    requires Renderer.HasType(data, "execute") && !outcome.Pending?
    ensures var reply := Renderer.PeerDataReaction(data, outcome).reply;
      && reply.Some?
      && P2P.Received(Json.Stringify(reply.value)) == [P2P.Data(reply.value)]
      && (outcome != Executor.Rejected("") ==>
            Renderer.PeerDataReaction(reply.value, ignored).shows == [Renderer.LocalDisplays(outcome)[1]])
      && (outcome == Executor.Rejected("") ==>
            Renderer.PeerDataReaction(reply.value, ignored).shows == [Renderer.Display("", false)]
            && Renderer.LocalDisplays(outcome)[1] == Renderer.Display(Renderer.ErrorPrefix, true))
  {
    var reply := Renderer.ResultReply(outcome).value;
    assert !Renderer.HasType(reply, "execute");
    if outcome.Rejected? {
      assert Json.Truthy(Json.Field(reply, "error")) <==> outcome.message != "";
    }
  }

  /**
   * For any request `executeRemotely` sends, the other side replies with the
   * settlement of running that same language and code, the reply reaches the
   * requester intact, and the requester shows what a local run would show,
   * with the one exception of an empty failure message.
   */
  lemma RemoteRunMatchesLocal(language: string, code: string, vm: (string, nat) -> Executor.JsRun,
                              python: (string, nat) -> seq<Executor.PyEvent>, ignored: Executor.Settlement)
    ensures var request := Renderer.ExecuteRequest(language, code);
            var outcome := Executor.Outcome(language, code, Executor.DefaultTimeout, vm, python);
            var reply := Renderer.PeerDataReaction(request, outcome).reply;
      && P2P.Received(Json.Stringify(request)) == [P2P.Data(request)]
      && reply == Renderer.ResultReply(outcome)
      && (reply.None? ==> language == "python")
      && (reply.Some? ==>
            && P2P.Received(Json.Stringify(reply.value)) == [P2P.Data(reply.value)]
            && Renderer.PeerDataReaction(reply.value, ignored).shows
               == if outcome == Executor.Rejected("") then [Renderer.Display("", false)]
                  else [Renderer.LocalDisplays(outcome)[1]])
  {
    var request := Renderer.ExecuteRequest(language, code);
    var outcome := Executor.Outcome(language, code, Executor.DefaultTimeout, vm, python);
    if !outcome.Pending? {
      RemoteMatchesLocal(request, outcome, ignored);
    }
  }

  /**
   * A remote run of JavaScript code whose one `console.log` call prints "8"
   * shows "8\n" on the requesting peer, as a local run does.
   */
  lemma RemoteJavaScriptExample(code: string, vm: (string, nat) -> Executor.JsRun,
                                python: (string, nat) -> seq<Executor.PyEvent>)
    requires vm(code, Executor.DefaultTimeout) == Executor.JsRun([["8"]], None)
    ensures var request := Renderer.ExecuteRequest("javascript", code);
            var outcome := Executor.Outcome("javascript", code, Executor.DefaultTimeout, vm, python);
            var reply := Renderer.PeerDataReaction(request, outcome).reply;
      && outcome == Executor.Resolved("8\n")
      && reply.Some?
      && Renderer.PeerDataReaction(reply.value, Executor.Pending).shows == [Renderer.Display("8\n", false)]
      && Renderer.LocalDisplays(outcome) == [Renderer.Display(Renderer.ExecutingLocally, false),
                                             Renderer.Display("8\n", false)]
  {
    var outcome := Executor.Outcome("javascript", code, Executor.DefaultTimeout, vm, python);
    assert Executor.LogText([["8"]]) == "8\n";
    assert outcome == Executor.Resolved("8\n");
    RemoteMatchesLocal(Renderer.ExecuteRequest("javascript", code), outcome, Executor.Pending);
  }
}
