/** The `ai-chat` edge function: it turns the chat history into the upstream
    completion request (a fixed system entry, then one role-tagged entry per
    turn, with a file summary appended to the last entry) and shapes the
    upstream outcome into a `{response}` body or a status-500 `{error, details}`
    body. */
module Relay {
  import opened ChatTypes
  import opened Text

  /** The role of an upstream entry. */
  datatype Role = SystemRole | UserRole | AssistantRole

  /** One element of the upstream `messages` array: `{role, content}`. */
  datatype Entry = Entry(role: Role, content: string)

  /** What the relay reads of an incoming turn: `msg.type` and `msg.content`. */
  datatype Msg = Msg(kind: Kind, content: string)

  /** The turn as it arrives after the client's serialisation. */
  function WireMsg(m: Message): Msg {
    Msg(m.kind, m.content)
  }

  /** The history as it arrives: each turn's kind and content, in order. */
  function WireHistory(ms: seq<Message>): (r: seq<Msg>)
    ensures |r| == |ms|
    ensures forall i :: 0 <= i < |ms| ==> r[i].kind == ms[i].kind && r[i].content == ms[i].content
  {
    if ms == [] then [] else [WireMsg(ms[0])] + WireHistory(ms[1..])
  }

  /** The persona instruction; its wording is configuration, and nothing here depends on it. */
  const SystemPrompt: string := "Sei un assistente AI esperto in programmazione che parla in italiano."

  const SystemEntry: Entry := Entry(SystemRole, SystemPrompt)

  /** A user turn becomes a `user` entry; every other turn an `assistant` entry. */
  function RoleOf(k: Kind): (r: Role)
    ensures r != SystemRole
    ensures r == UserRole <==> k == User
  {
    if k == User then UserRole else AssistantRole
  }

  /** `messages.map(...)`: one entry per turn, in order. */
  function MapHistory(messages: seq<Msg>): (r: seq<Entry>)
    ensures |r| == |messages|
    ensures forall i :: 0 <= i < |messages| ==>
              r[i].content == messages[i].content && r[i].role != SystemRole &&
              (r[i].role == UserRole <==> messages[i].kind == User)
  {
    if messages == [] then []
    else [Entry(RoleOf(messages[0].kind), messages[0].content)] + MapHistory(messages[1..])
  }

  /** The upstream list before any file summary: the system entry, then the history. */
  function BaseEntries(messages: seq<Msg>): seq<Entry> {
    [SystemEntry] + MapHistory(messages)
  }

  /** A file list is present and has at least one element. */
  predicate HasFiles(files: Option<seq<FileDesc>>) {
    files.Some? && files.value != []
  }

  /** The summary line of one file, which names the file and gives its size in decimal. */
  function FileLine(f: FileDesc): (r: string)
    ensures Contains(r, f.name)
    ensures Contains(r, NatToString(f.size))
  {
    var line := "File: " + f.name + " (" + NatToString(f.size) + " bytes)";
    ContainsMiddle("File: ", f.name, " (" + NatToString(f.size) + " bytes)");
    assert "File: " + f.name + (" (" + NatToString(f.size) + " bytes)") == line;
    ContainsMiddle("File: " + f.name + " (", NatToString(f.size), " bytes)");
    line
  }

  /** `files.map(...)`: one line per file, in order. */
  function FileLines(files: seq<FileDesc>): (r: seq<string>)
    ensures |r| == |files|
    ensures forall i :: 0 <= i < |files| ==> r[i] == FileLine(files[i])
  {
    if files == [] then [] else [FileLine(files[0])] + FileLines(files[1..])
  }

  /** The file lines joined by a newline. */
  function FileInfo(files: seq<FileDesc>): string {
    Join(FileLines(files), "\n")
  }

  const FilesHeading: string := "\n\nFile allegati:\n"

  /** The text appended to the last entry. */
  function Summary(files: seq<FileDesc>): string {
    FilesHeading + FileInfo(files)
  }

  /** The list with `suffix` added to the content of its last element; every
      role stays where it was. */
  function AppendToLast(entries: seq<Entry>, suffix: string): (r: seq<Entry>)
    requires entries != []
    ensures |r| == |entries|
    ensures forall i :: 0 <= i < |r| ==> r[i].role == entries[i].role
  {
    var k := |entries| - 1;
    entries[k := entries[k].(content := entries[k].content + suffix)]
  }

  /** The `messages` array sent upstream: one entry more than the history,
      with the system entry first. */
  function Upstream(messages: seq<Msg>, files: Option<seq<FileDesc>>): (r: seq<Entry>)
    ensures |r| == |messages| + 1
    ensures r[0].role == SystemRole
  {
    var base := BaseEntries(messages);
    if HasFiles(files) then AppendToLast(base, Summary(files.value)) else base
  }

  /** The system content changes only when the history is empty and files are attached. */
  lemma UpstreamShape(messages: seq<Msg>, files: Option<seq<FileDesc>>)
    ensures Upstream(messages, files)[0].content ==
            if messages == [] && HasFiles(files) then SystemPrompt + Summary(files.value) else SystemPrompt
  {
  }

  /** Entry i + 1 carries turn i: its role is `user` exactly for a user turn
      and `assistant` otherwise, and its content is the turn's content, with the
      file summary after it only on the last turn. */
  lemma UpstreamEntry(messages: seq<Msg>, files: Option<seq<FileDesc>>, i: nat)
    requires i < |messages|
    ensures Upstream(messages, files)[i + 1].role == (if messages[i].kind == User then UserRole else AssistantRole)
    ensures Upstream(messages, files)[i + 1].content ==
            if HasFiles(files) && i == |messages| - 1 then messages[i].content + Summary(files.value)
            else messages[i].content
  {
    var base := BaseEntries(messages);
    assert base[i + 1] == MapHistory(messages)[i];
    assert |base| == |messages| + 1;
  }

  /** Without files (absent or empty) nothing is appended anywhere. */
  lemma UpstreamWithoutFiles(messages: seq<Msg>, files: Option<seq<FileDesc>>)
    requires !HasFiles(files)
    ensures Upstream(messages, files) == BaseEntries(messages)
    ensures forall i :: 0 <= i < |messages| ==> Upstream(messages, files)[i + 1].content == messages[i].content
  {
  }

  /** With files, only the last entry changes: its content gains the heading and
      the file lines; every earlier entry is the unmodified one. */
  lemma UpstreamWithFiles(messages: seq<Msg>, files: Option<seq<FileDesc>>)
    requires HasFiles(files)
    ensures var up, base, n := Upstream(messages, files), BaseEntries(messages), |messages|;
            |up| == |base| && up[..n] == base[..n] &&
            up[n] == Entry(base[n].role, base[n].content + FilesHeading + FileInfo(files.value))
  {
  }

  /** With an empty history, the system entry is the last one and receives the summary. */
  lemma SummaryOnEmptyHistory(files: Option<seq<FileDesc>>)
    requires HasFiles(files)
    ensures Upstream([], files) == [Entry(SystemRole, SystemPrompt + Summary(files.value))]
  {
  }

  /** The file lines are joined by single newlines: appending a file appends a
      newline and its line, with no separator after the last one. */
  lemma FileInfoSnoc(files: seq<FileDesc>, f: FileDesc)
    ensures FileInfo(files + [f]) == if files == [] then FileLine(f) else FileInfo(files) + "\n" + FileLine(f)
  {
    var ls := FileLines(files + [f]);
    assert ls == FileLines(files) + [FileLine(f)];
    JoinSnoc(FileLines(files), FileLine(f), "\n");
  }

  /** Read from the front: the first file's line, a newline, then the others. */
  lemma FileInfoCons(f: FileDesc, files: seq<FileDesc>)
    requires files != []
    ensures FileInfo([f] + files) == FileLine(f) + "\n" + FileInfo(files)
  {
    assert FileLines([f] + files) == [FileLine(f)] + FileLines(files);
    JoinCons(FileLine(f), FileLines(files), "\n");
  }

  /** A single file's summary is just its line. */
  lemma FileInfoSingle(f: FileDesc)
    ensures FileInfo([f]) == "File: " + f.name + " (" + NatToString(f.size) + " bytes)"
  {
  }

  /** With files attached, the last upstream entry names every file and gives its size. */
  lemma UpstreamMentionsFiles(messages: seq<Msg>, files: Option<seq<FileDesc>>, k: nat)
    requires HasFiles(files) && k < |files.value|
    ensures var up := Upstream(messages, files);
            Contains(up[|up| - 1].content, files.value[k].name) &&
            Contains(up[|up| - 1].content, NatToString(files.value[k].size))
  {
    var fs := files.value;
    var up := Upstream(messages, files);
    var last := BaseEntries(messages)[|messages|].content;
    assert up[|up| - 1].content == last + FilesHeading + FileInfo(fs);
    JoinContainsPart(FileLines(fs), "\n", k);
    ContainsMiddle(last + FilesHeading, FileInfo(fs), "");
    assert last + FilesHeading + FileInfo(fs) + "" == up[|up| - 1].content;
    ContainsTransitive(up[|up| - 1].content, FileInfo(fs), FileLine(fs[k]));
    ContainsTransitive(up[|up| - 1].content, FileLine(fs[k]), fs[k].name);
    ContainsTransitive(up[|up| - 1].content, FileLine(fs[k]), NatToString(fs[k].size));
  }

  /** One user turn with `a.py` (120 bytes) attached: the text sent upstream
      mentions `a.py` and `120`. */
  lemma AttachmentScenario(text: string)
    ensures var up := Upstream([Msg(User, text)], Some([FileDesc("a.py", 120, "text/x-python")]));
            Contains(up[1].content, "a.py") && Contains(up[1].content, "120")
  {
    assert NatToString(120) == "120" by {
      assert NatToString(12) == "12" by { assert NatToString(1) == "1"; }
    }
    var files := Some([FileDesc("a.py", 120, "text/x-python")]);
    var up := Upstream([Msg(User, text)], files);
    assert |up| == 2;
    UpstreamMentionsFiles([Msg(User, text)], files, 0);
  }

  // ---------------------------------------------------------------------------
  // The HTTP side of the handler.

  datatype Header = Header(name: string, value: string)

  const CorsHeaders: seq<Header> := [
    Header("Access-Control-Allow-Origin", "*"),
    Header("Access-Control-Allow-Headers", "authorization, x-client-info, apikey, content-type")
  ]

  const JsonHeaders: seq<Header> := CorsHeaders + [Header("Content-Type", "application/json")]

  /** The JSON body of a response: none (`null`), `{response}` or `{error, details}`. */
  datatype Body = NullBody | ResponseBody(response: Option<string>) | ErrorBody(error: string, details: string)

  datatype HttpResponse = HttpResponse(status: nat, headers: seq<Header>, body: Body)

  /** The fixed user-facing error text of every failure. */
  const GenericError: string := "Si è verificato un errore durante la generazione della risposta. Riprova più tardi."

  /** What `await req.json()` and the destructuring of `messages` and `files`
      give: the payload, or the message of the exception they raise. */
  datatype RequestBody = Payload(messages: seq<Msg>, files: Option<seq<FileDesc>>) | Unreadable(reason: string)

  datatype Request = Request(verb: string, body: RequestBody)

  /** What reading `data.choices[0].message.content` gives: the text (`None`
      when the field is `null` or absent, which `JSON.stringify` then writes as
      a null or missing `response`), or the message of the exception it raises. */
  datatype Completion = Content(text: Option<string>) | Malformed(reason: string)

  /** The upstream call's outcome: the `fetch` failed with a message, or a reply
      came back with a status and a body. */
  datatype UpstreamResult = FetchFailed(reason: string) | Replied(status: nat, completion: Completion)

  /** `response.ok`. */
  predicate StatusOk(status: nat) {
    200 <= status <= 299
  }

  const UpstreamErrorPrefix: string := "OpenAI API error: "

  /** The message of the error thrown for a non-ok upstream status. */
  function UpstreamErrorDetails(status: nat): string {
    UpstreamErrorPrefix + NatToString(status)
  }

  /** The catch branch: status 500, the fixed text and the exception's message. */
  function ErrorResponse(details: string): HttpResponse {
    HttpResponse(500, JsonHeaders, ErrorBody(GenericError, details))
  }

  /** The list the handler sends upstream, if it gets that far. */
  function Outbound(req: Request): Option<seq<Entry>> {
    if req.verb == "OPTIONS" then None
    else match req.body
      case Unreadable(_) => None
      case Payload(messages, files) => Some(Upstream(messages, files))
  }

  /** The response the handler gives for a request, when the upstream call
      turns out as `upstream`: status 200 or 500, and every 500 carries the
      fixed error text. */
  function Respond(req: Request, upstream: UpstreamResult): (r: HttpResponse)
    ensures r.status == 200 || r.status == 500
    ensures r.status == 500 <==> r.body.ErrorBody?
    ensures r.body.ErrorBody? ==> r.body.error == GenericError
  {
    if req.verb == "OPTIONS" then HttpResponse(200, CorsHeaders, NullBody)
    else match req.body
      case Unreadable(reason) => ErrorResponse(reason)
      case Payload(_, _) =>
        match upstream
        case FetchFailed(reason) => ErrorResponse(reason)
        case Replied(status, completion) =>
          if !StatusOk(status) then ErrorResponse(UpstreamErrorDetails(status))
          else match completion
            case Malformed(reason) => ErrorResponse(reason)
            case Content(text) => HttpResponse(200, JsonHeaders, ResponseBody(text))
  }

  /** A preflight request gets the CORS headers and no body, and nothing is assembled or sent. */
  lemma OptionsPreflight(req: Request, upstream: UpstreamResult)
    requires req.verb == "OPTIONS"
    ensures Respond(req, upstream) == HttpResponse(200, CorsHeaders, NullBody)
    ensures Outbound(req) == None
  {
  }

  /** A non-ok upstream status yields status 500, the fixed error text and
      details from which the status can be read back. */
  lemma UpstreamStatusError(req: Request, status: nat, completion: Completion)
    requires req.verb != "OPTIONS" && req.body.Payload? && !StatusOk(status)
    ensures var r := Respond(req, Replied(status, completion));
            r.status == 500 && r.body.ErrorBody? && r.body.error == GenericError &&
            r.body.details == "OpenAI API error: " + NatToString(status) &&
            var rest := r.body.details[|UpstreamErrorPrefix|..];
            (forall i :: 0 <= i < |rest| ==> IsDigit(rest[i])) && DecimalValue(rest) == status
  {
    var d := UpstreamErrorDetails(status);
    assert d[|UpstreamErrorPrefix|..] == NatToString(status);
    NatToStringRoundTrip(status);
  }

  /** An ok upstream reply with a first choice is relayed as `{response}` with status 200. */
  lemma UpstreamSuccess(req: Request, status: nat, text: Option<string>)
    requires req.verb != "OPTIONS" && req.body.Payload? && StatusOk(status)
    ensures Respond(req, Replied(status, Content(text))) == HttpResponse(200, JsonHeaders, ResponseBody(text))
  {
  }

  /** Every response to a non-preflight request is either a 200 `{response}` or
      a 500 `{error, details}` with the fixed error text, and it is the
      200 one exactly when the payload was read, the call succeeded with an ok
      status and the first choice was there. */
  lemma ResponseClassification(req: Request, upstream: UpstreamResult)
    requires req.verb != "OPTIONS"
    ensures var r := Respond(req, upstream);
            r.headers == JsonHeaders &&
            (r.status == 200 <==> r.body.ResponseBody?) &&
            (r.status == 500 <==> r.body.ErrorBody?) &&
            (r.status == 200 || r.status == 500) &&
            (r.body.ErrorBody? ==> r.body.error == GenericError) &&
            (r.body.ResponseBody? <==>
               req.body.Payload? && upstream.Replied? && StatusOk(upstream.status) && upstream.completion.Content?)
  {
  }

  // ---------------------------------------------------------------------------
  // The handler itself, which builds the array and updates its last element in place.

  /** `list[list.length - 1].content += suffix`, in place. */
  method AppendInPlace(list: array<Entry>, suffix: string)
    requires list.Length > 0
    modifies list
    ensures list[..] == AppendToLast(old(list[..]), suffix)
  {
    var k := list.Length - 1;
    list[k] := list[k].(content := list[k].content + suffix);
  }

  /** The system entry and the mapped history as a fresh array, with the
      file summary added to its last element when files are attached. */
  method Assemble(messages: seq<Msg>, files: Option<seq<FileDesc>>) returns (list: array<Entry>)
    ensures fresh(list)
    ensures list[..] == Upstream(messages, files)
  {
    var base := BaseEntries(messages);
    list := new Entry[|base|](i requires 0 <= i < |base| => base[i]);
    assert list[..] == base;
    if files.Some? && |files.value| > 0 {
      var fileInfo := FileInfo(files.value);
      AppendInPlace(list, FilesHeading + fileInfo);
    }
  }

  /** The request handler. Returns the response and the list sent upstream (none
      when the handler never reaches the upstream call). */
  method Handle(req: Request, upstream: UpstreamResult) returns (resp: HttpResponse, sent: Option<seq<Entry>>)
    ensures sent == Outbound(req)
    ensures resp == Respond(req, upstream)
    ensures sent.Some? ==> |sent.value| == |req.body.messages| + 1
  {
    if req.verb == "OPTIONS" {
      return HttpResponse(200, CorsHeaders, NullBody), None;
    }
    match req.body {
      case Unreadable(reason) =>
        return ErrorResponse(reason), None;
      case Payload(messages, files) =>
        var list := Assemble(messages, files);
        sent := Some(list[..]);
        match upstream {
          case FetchFailed(reason) =>
            resp := ErrorResponse(reason);
          case Replied(status, completion) =>
            if !StatusOk(status) {
              resp := ErrorResponse(UpstreamErrorDetails(status));
            } else {
              match completion {
                case Malformed(reason) => resp := ErrorResponse(reason);
                case Content(text) => resp := HttpResponse(200, JsonHeaders, ResponseBody(text));
              }
            }
        }
    }
  }
}
