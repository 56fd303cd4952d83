/**
 * The renderer's protocol logic: what a peer does with an inbound message,
 * what it sends to request a remote execution, what the output pane shows
 * for a local one, and the room-id guard of the join button.
 *
 * The page's global state (`currentRoomId`, the manager and the executor)
 * is the class `Page`; the output pane is the sequence of contents it has
 * held. The result of `codeExecutor.execute` is the settlement it reaches.
 */
module Renderer {
  import opened Wrappers
  import opened Json
  import JsBuiltins
  import Executor
  import P2P
  import Wire

  const SignalingUrl := "http://localhost:3000"
  const ExecutingLocally := "Executing locally..."
  const SendingRemotely := "Sending code to remote peer..."
  const ErrorPrefix := "Error: "

  /** One content of the output pane: the text, and whether `displayOutput` styled it as an error. */
  datatype Display = Display(text: string, isError: bool)

  /** `data.type === tag`. */
  predicate HasType(data: Value, tag: string) {
    Field(data, "type") == Some(Str(tag))
  }

  /** `{type: 'execute', language, code}`, and nothing else. */
  function ExecuteRequest(language: string, code: string): (r: Value)
    ensures r.Obj? && r.fields.Keys == {"type", "language", "code"}
    ensures HasType(r, "execute") && !HasType(r, "result")
    ensures Field(r, "language") == Some(Str(language))
    ensures Field(r, "code") == Some(Str(code))
  {
    Obj(map["type" := Str("execute"), "language" := Str(language), "code" := Str(code)])
  }

  /**
   * The reply to an `execute` message: `{type: 'result', result}` on success,
   * `{type: 'result', error: message}` with no `result` on failure, and no
   * reply at all while the execution has not settled.
   */
  function ResultReply(outcome: Executor.Settlement): (r: Option<Value>)
    ensures r.None? <==> outcome.Pending?
    ensures r.Some? ==> HasType(r.value, "result") && r.value.Obj? && |r.value.fields| == 2
    ensures outcome.Resolved? ==>
              Field(r.value, "result") == Some(Str(outcome.value)) && Field(r.value, "error").None?
    ensures outcome.Rejected? ==>
              Field(r.value, "error") == Some(Str(outcome.message)) && Field(r.value, "result").None?
  {
    match outcome
    case Pending => None
    case Resolved(result) => Some(Obj(map["type" := Str("result"), "result" := Str(result)]))
    case Rejected(message) => Some(Obj(map["type" := Str("result"), "error" := Str(message)]))
  }

  /** The text `textContent = v` leaves: nothing for null or undefined, `String(v)` otherwise. */
  function TextContent(v: Option<Value>): (r: string)
    ensures v.Some? && v.value.Str? ==> r == v.value.s
    ensures v.None? || v == Some(Null) ==> r == ""
  {
    if v.None? || v == Some(Null) then "" else ToText(v.value)
  }

  /** How a `result` message is shown: its `error` when that is truthy, otherwise its `result`. */
  function ResultDisplay(data: Value): (d: Display)
    ensures d.isError <==> Truthy(Field(data, "error"))
    ensures d.isError ==> d.text == ErrorPrefix + ToText(Field(data, "error").value)
    ensures !d.isError ==> d.text == TextContent(Field(data, "result"))
  {
    var error := Field(data, "error");
    if Truthy(error) then Display(ErrorPrefix + ToText(error.value), true)
    else Display(TextContent(Field(data, "result")), false)
  }

  /** What handling one message does: the reply it sends, if any, and what it puts in the output pane. */
  datatype Reaction = Reaction(reply: Option<Value>, shows: seq<Display>)

  /**
   * `handlePeerData(data)`, where `outcome` is how executing what an
   * `execute` message asks for settles. An `execute` message gets exactly one
   * reply once that settles and shows nothing; a `result` message sends
   * nothing and shows one thing; any other message does neither.
   */
  function PeerDataReaction(data: Value, outcome: Executor.Settlement): (r: Reaction)
    ensures r.reply.Some? <==> HasType(data, "execute") && !outcome.Pending?
    ensures r.reply.Some? ==> r.reply == ResultReply(outcome)
    ensures r.shows != [] <==> HasType(data, "result")
    ensures r.shows != [] ==> r.shows == [ResultDisplay(data)]
  {
    if HasType(data, "execute") then Reaction(ResultReply(outcome), [])
    else if HasType(data, "result") then Reaction(None, [ResultDisplay(data)])
    else Reaction(None, [])
  }

  /**
   * The successive contents of the output pane during `executeLocally`: the
   * status line, then the result or the error message once the execution
   * settles.
   */
  function LocalDisplays(outcome: Executor.Settlement): (r: seq<Display>)
    ensures |r| >= 1 && r[0] == Display(ExecutingLocally, false)
    ensures |r| == 1 <==> outcome.Pending?
    ensures |r| <= 2
    ensures outcome.Resolved? ==> r[1] == Display(outcome.value, false)
    ensures outcome.Rejected? ==> r[1] == Display(ErrorPrefix + outcome.message, true)
  {
    [Display(ExecutingLocally, false)] +
    match outcome
    case Pending => []
    case Resolved(result) => [Display(result, false)]
    case Rejected(message) => [Display(ErrorPrefix + message, true)]
  }

  class Page {
    const manager: P2P.P2PManager
    const executor: Executor.CodeExecutor
    var currentRoomId: Option<string>
    var output: seq<Display>

    /** The page's room id is always the one the manager was last given. */
    ghost predicate Valid()
      reads this, manager
    {
      manager.Valid() && currentRoomId == manager.roomId
    }

    /** `init`. */
    constructor ()
      ensures Valid() && fresh(manager) && fresh(executor)
      ensures manager.signalingServerUrl == SignalingUrl && manager.peer == None && manager.socket == None
      ensures executor.timeout == Executor.DefaultTimeout
      ensures currentRoomId == None && output == []
    {
      manager := new P2P.P2PManager(SignalingUrl);
      executor := new Executor.CodeExecutor();
      currentRoomId := None;
      output := [];
    }

    /** `createRoom`, with `generated` the id `generateRoomId` returned. */
    method CreateRoom(generated: string)
      requires Valid()
      modifies this, manager
      ensures Valid()
      ensures currentRoomId == Some(generated)
      ensures manager.isInitiator && manager.socket == Some(P2P.Socket(Wire.Create(generated), false))
      ensures manager.peer == old(manager.peer) && manager.relayOut == old(manager.relayOut)
      ensures manager.emitted == old(manager.emitted) && output == old(output)
    {
      currentRoomId := Some(generated);
      manager.CreateRoom(generated);
    }

    /** `joinRoom`, with `input` the text of the room-id field: a blank id changes nothing. */
    method JoinRoom(input: string)
      requires Valid()
      modifies this, manager
      ensures Valid()
      ensures JsBuiltins.Trim(input) == "" ==> unchanged(this) && unchanged(manager)
      ensures JsBuiltins.Trim(input) != "" ==>
                && currentRoomId == Some(JsBuiltins.Trim(input))
                && !manager.isInitiator
                && manager.socket == Some(P2P.Socket(Wire.Join(JsBuiltins.Trim(input)), false))
                && manager.peer == old(manager.peer) && manager.relayOut == old(manager.relayOut)
                && manager.emitted == old(manager.emitted) && output == old(output)
    {
      var id := JsBuiltins.Trim(input);
      if id == "" {
        return;
      }
      currentRoomId := Some(id);
      manager.JoinRoom(id);
    }

    /** `executeRemotely`: the status line, and the request for the current selection and editor text. */
    method ExecuteRemotely(language: string, code: string)
      requires Valid()
      modifies this, manager
      ensures Valid()
      ensures output == old(output) + [Display(SendingRemotely, false)]
      ensures manager.peer == P2P.AfterSend(old(manager.peer), ExecuteRequest(language, code))
      ensures currentRoomId == old(currentRoomId) && manager.socket == old(manager.socket)
      ensures manager.relayOut == old(manager.relayOut) && manager.emitted == old(manager.emitted)
    {
      output := output + [Display(SendingRemotely, false)];
      manager.Send(ExecuteRequest(language, code));
    }

    /** `executeLocally`, given what each runtime does with the code. */
    method ExecuteLocally(language: string, code: string,
                          vm: (string, nat) -> Executor.JsRun,
                          python: (string, nat) -> seq<Executor.PyEvent>)
      requires Valid()
      modifies this
      ensures Valid()
      ensures output == old(output) + LocalDisplays(Executor.Outcome(language, code, executor.timeout, vm, python))
      ensures currentRoomId == old(currentRoomId)
    {
      output := output + [Display(ExecutingLocally, false)];
      var outcome := executor.Execute(language, code, vm, python);
      match outcome {
        case Pending =>
        case Resolved(result) =>
          output := output + [Display(result, false)];
        case Rejected(message) =>
          output := output + [Display(ErrorPrefix + message, true)];
      }
    }

    /** `handlePeerData(data)`, given the settlement of the execution an `execute` message asks for. */
    method HandlePeerData(data: Value, outcome: Executor.Settlement)
      requires Valid()
      modifies this, manager
      ensures Valid()
      ensures output == old(output) + PeerDataReaction(data, outcome).shows
      ensures PeerDataReaction(data, outcome).reply.Some? ==>
                manager.peer == P2P.AfterSend(old(manager.peer), PeerDataReaction(data, outcome).reply.value)
      ensures PeerDataReaction(data, outcome).reply.None? ==> manager.peer == old(manager.peer)
      ensures currentRoomId == old(currentRoomId) && manager.socket == old(manager.socket)
      ensures manager.relayOut == old(manager.relayOut) && manager.emitted == old(manager.emitted)
    {
      if HasType(data, "execute") {
        var reply := ResultReply(outcome);
        if reply.Some? {
          manager.Send(reply.value);
        }
      } else if HasType(data, "result") {
        output := output + [ResultDisplay(data)];
      }
    }
  }
}
