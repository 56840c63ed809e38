/** The `useAIChat` hook: it sends the history and the file descriptors to the
    relay, classifies the outcome into a returned text or a thrown error, and
    keeps the `isLoading` flag, which is set for the call and always reset. */
module Client {
  import opened ChatTypes
  import Relay

  /** `files.map(...)`: one `{name, size, type}` descriptor per file, in order. */
  function Descriptors(files: seq<File>): (r: seq<FileDesc>)
    ensures |r| == |files|
    ensures forall i :: 0 <= i < |files| ==>
              r[i].name == files[i].name && r[i].size == |files[i].bytes| && r[i].mime == files[i].mime
  {
    if files == [] then [] else [FileDesc(files[0].name, files[0].Size(), files[0].mime)] + Descriptors(files[1..])
  }

  /** The payload's `files` field: the descriptors, or the empty list when no file list is given. */
  function FilesField(files: Option<seq<File>>): (r: seq<FileDesc>)
    ensures files.None? ==> r == []
    ensures files.Some? ==> |r| == |files.value|
  {
    if files.Some? then Descriptors(files.value) else []
  }

  /** The request body: the turns unchanged and the descriptors. */
  datatype Payload = Payload(messages: seq<Message>, files: seq<FileDesc>)

  /** What `supabase.functions.invoke` resolves to: a transport `error`, or a
      `data` body whose `error` and `response` fields may be absent. */
  datatype InvokeResult = InvokeError(transportError: string) | InvokeData(dataError: Option<string>, response: Option<string>)

  /** What the call throws: the transport error itself, or `new Error(data.error)`. */
  datatype Thrown = TransportFailure(error: string) | ErrorWithMessage(message: string)

  /** How the call settles for its caller: it returns `data.response` (possibly
      `undefined`) or it throws. */
  datatype CallOutcome = Returned(response: Option<string>) | Threw(thrown: Thrown)

  /** A JavaScript string field is truthy when present and non-empty. */
  predicate Truthy(s: Option<string>) {
    s.Some? && s.value != ""
  }

  /** The outcome `sendMessageToAI` gives for an invoke result, three ways: a
      transport error is rethrown as is; a body with a (non-empty) `error`
      throws an error with that text; any other body returns its `response`.
      Nothing else returns. */
  function Classify(reply: InvokeResult): (r: CallOutcome)
    ensures reply.InvokeError? ==> r == Threw(TransportFailure(reply.transportError))
    ensures reply.InvokeData? && Truthy(reply.dataError) ==> r == Threw(ErrorWithMessage(reply.dataError.value))
    ensures r.Returned? <==> reply.InvokeData? && !Truthy(reply.dataError)
    ensures r.Returned? ==> r.response == reply.response
  {
    match reply
    case InvokeError(e) => Threw(TransportFailure(e))
    case InvokeData(error, response) =>
      if Truthy(error) then Threw(ErrorWithMessage(error.value)) else Returned(response)
  }

  /** The toast every failure shows. */
  datatype Toast = Toast(title: string, description: string, destructive: bool)

  const FailureToast: Toast :=
    Toast("Errore", "Si è verificato un errore durante la comunicazione con l'AI. Riprova.", true)

  /** One call of the relay: the payload and the value of `isLoading` while it was pending. */
  datatype Invocation = Invocation(payload: Payload, loadingWhilePending: bool)

  /** The hook's state, with the effects it has on the outside recorded in order. */
  class AIChat {
    var isLoading: bool
    /** Every value written to `isLoading`, in order. */
    var loadingWrites: seq<bool>
    /** Every call made to the relay, in order. */
    var invocations: seq<Invocation>
    /** Every notification shown, in order. */
    var toasts: seq<Toast>

    /** Between calls the flag is off, each call wrote it twice, and no call
        showed more than one notification. */
    ghost predicate Valid()
      reads this
    {
      !isLoading && |loadingWrites| == 2 * |invocations| && |toasts| <= |invocations|
    }

    constructor ()
      ensures Valid()
      ensures !isLoading && loadingWrites == [] && invocations == [] && toasts == []
    {
      isLoading := false;
      loadingWrites := [];
      invocations := [];
      toasts := [];
    }

    /** `sendMessageToAI(messages, files)`, where the relay call turns out as
        `reply`. The flag is on while the call is pending and off afterwards,
        the payload carries the turns unchanged and one descriptor per file,
        the outcome is the classification of `reply`, and every failure shows
        exactly one notification and still reaches the caller. */
    method SendMessageToAI(messages: seq<Message>, files: Option<seq<File>>, reply: InvokeResult)
      returns (outcome: CallOutcome)
      requires Valid()
      modifies this
      ensures Valid()
      ensures outcome == Classify(reply)
      ensures !isLoading && loadingWrites == old(loadingWrites) + [true, false]
      ensures invocations == old(invocations) + [Invocation(Payload(messages, FilesField(files)), true)]
      ensures toasts == old(toasts) + (if outcome.Threw? then [FailureToast] else [])
    {
      isLoading := true;
      loadingWrites := loadingWrites + [true];
      var payload := Payload(messages, FilesField(files));
      invocations := invocations + [Invocation(payload, isLoading)];
      var thrown: Option<Thrown> := None;
      match reply {
        case InvokeError(e) =>
          thrown := Some(TransportFailure(e));
        case InvokeData(error, response) =>
          if error.Some? && error.value != "" {
            thrown := Some(ErrorWithMessage(error.value));
          } else {
            outcome := Returned(response);
          }
      }
      if thrown.Some? {
        toasts := toasts + [FailureToast];
        outcome := Threw(thrown.value);
      }
      isLoading := false;
      loadingWrites := loadingWrites + [false];
    }
  }

  /** The round trip of one greeting: the relay answers `Salve!` to `Ciao`, and
      when the transport hands that body over the caller gets `Salve!`. */
  lemma GreetingRoundTrip(id: string, now: nat, status: nat)
    requires Relay.StatusOk(status)
    ensures var payload := Payload([Message(id, User, "Ciao", Some([]), now)], FilesField(Some([])));
            var req := Relay.Request("POST", Relay.Payload(Relay.WireHistory(payload.messages), Some(payload.files)));
            var resp := Relay.Respond(req, Relay.Replied(status, Relay.Content(Some("Salve!"))));
            resp.status == 200 && resp.body == Relay.ResponseBody(Some("Salve!")) &&
            Relay.Outbound(req) == Some([Relay.SystemEntry, Relay.Entry(Relay.UserRole, "Ciao")]) &&
            Classify(InvokeData(None, resp.body.response)) == Returned(Some("Salve!"))
  {
    var history := Relay.WireHistory([Message(id, User, "Ciao", Some([]), now)]);
    assert history == [Relay.Msg(User, "Ciao")];
    assert Relay.MapHistory(history) == [Relay.Entry(Relay.UserRole, "Ciao")];
    assert "POST" != "OPTIONS" by { assert "POST"[0] != "OPTIONS"[0]; }
    assert FilesField(Some([])) == [];
    var req := Relay.Request("POST", Relay.Payload(history, Some([])));
    assert !Relay.HasFiles(Some([]));
    assert Relay.BaseEntries(history) == [Relay.SystemEntry, Relay.Entry(Relay.UserRole, "Ciao")];
    assert Relay.Outbound(req) == Some([Relay.SystemEntry, Relay.Entry(Relay.UserRole, "Ciao")]);
    var resp := Relay.Respond(req, Relay.Replied(status, Relay.Content(Some("Salve!"))));
    assert resp.status == 200;
    assert resp.body == Relay.ResponseBody(Some("Salve!"));
  }
}
