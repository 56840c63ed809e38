/** The chat page's state: the list of turns, the input draft, the selected
    files and the typing indicator, with the page's handlers (send, the
    deferred canned reply, file selection and removal). */
module Session {
  import opened ChatTypes
  import opened Text

  const Greeting: string :=
    "Ciao! \U{1F44B} Sono il tuo assistente AI per la programmazione. Posso aiutarti a scrivere codice, risolvere errori e imparare passo dopo passo. Puoi inviarmi anche file e immagini!"

  /** What follows the number of files in the files reply. */
  const FilesReplyTail: string :=
    " file! \U{1F4C1} Analizziamo insieme il codice. Dalle informazioni che vedo, posso aiutarti a migliorare la struttura, trovare errori o spiegare come funziona. Cosa vorresti sapere nello specifico?"

  const ErrorReply: string :=
    "Vedo che hai un problema con un errore! " + "\U{1F50D}" + " Per aiutarti meglio, puoi condividere il codice che ti dà problemi? Posso analizzare il messaggio d'errore e spiegarti passo dopo passo come risolverlo."

  const LearningReply: string :=
    "Perfetto! Adoro insegnare programmazione! " + "\U{1F4DA}" + " Su cosa vorresti concentrarti? Posso spiegarti concetti base, best practices, o aiutarti con linguaggi specifici come JavaScript, Python, React e molto altro. Dimmi il tuo livello attuale!"

  const DefaultReply: string :=
    "Ottima domanda! " + "\U{1F4A1}" + " Sono qui per aiutarti con qualsiasi cosa riguardi la programmazione. Posso spiegarti concetti, revisionare il tuo codice, aiutarti a risolvere bug, o guidarti nell'apprendimento di nuove tecnologie. Come posso assisterti al meglio?"

  /** The lower-cased message includes `errore` or `error`. */
  predicate MentionsError(message: string) {
    Contains(Lower(message), "errore") || Contains(Lower(message), "error")
  }

  /** The lower-cased message includes `imparare` or `tutorial`. */
  predicate MentionsLearning(message: string) {
    Contains(Lower(message), "imparare") || Contains(Lower(message), "tutorial")
  }

  /** The four canned replies of the page; the first names how many files were received. */
  datatype CannedReply = FilesAck(count: nat) | ErrorHelp | LearningHelp | DefaultHelp
  {
    /** The reply's text. */
    function Text(): string {
      match this
      case FilesAck(count) => "Ho ricevuto " + NatToString(count) + FilesReplyTail
      case ErrorHelp => ErrorReply
      case LearningHelp => LearningReply
      case DefaultHelp => DefaultReply
    }
  }

  /** `getAIResponse`: which canned reply a message and its files get. Any
      attached file gets the files reply, which counts them. */
  function GetAIResponse(message: string, files: seq<File>): (r: CannedReply)
    ensures r.FilesAck? <==> |files| > 0
    ensures r.FilesAck? ==> r.count == |files|
  {
    if |files| > 0 then FilesAck(|files|)
    else if MentionsError(message) then ErrorHelp
    else if MentionsLearning(message) then LearningHelp
    else DefaultHelp
  }

  /** The precedence of the other canned replies, each case exactly: without
      files, a mention of an error wins, then a mention of learning, and
      otherwise the default reply. */
  lemma ReplyPrecedence(message: string, files: seq<File>)
    ensures GetAIResponse(message, files) == ErrorHelp <==> |files| == 0 && MentionsError(message)
    ensures GetAIResponse(message, files) == LearningHelp <==>
            |files| == 0 && !MentionsError(message) && MentionsLearning(message)
    ensures GetAIResponse(message, files) == DefaultHelp <==>
            |files| == 0 && !MentionsError(message) && !MentionsLearning(message)
  {
  }

  /** The files reply spells out the number of files, which can be read back from it. */
  lemma FilesAckCount(count: nat)
    ensures var t := FilesAck(count).Text(); var d := NatToString(count);
            t == "Ho ricevuto " + d + FilesReplyTail && DecimalValue(t[12..12 + |d|]) == count
  {
    var t := FilesAck(count).Text();
    assert t[12..12 + |NatToString(count)|] == NatToString(count);
    NatToStringRoundTrip(count);
  }

  /** Different replies have different texts: the four kinds read differently,
      and two files replies differ in the count they spell out. */
  lemma RepliesDistinct(a: CannedReply, b: CannedReply)
    requires a != b
    ensures a.Text() != b.Text()
  {
    if a.FilesAck? && b.FilesAck? {
      FilesAckCount(a.count);
      FilesAckCount(b.count);
    } else {
      assert a.Text()[0] != b.Text()[0] by {
        assert ErrorReply[0] == 'V' && LearningReply[0] == 'P' && DefaultReply[0] == 'O';
      }
    }
  }

  /** Testing for `errore` adds nothing: every text that includes it includes `error`. */
  lemma ErroreImpliesError(message: string)
    ensures MentionsError(message) <==> Contains(Lower(message), "error")
  {
    var l := Lower(message);
    if Contains(l, "errore") {
      ContainsMiddle("", "error", "e");
      assert "" + "error" + "e" == "errore";
      ContainsTransitive(l, "errore", "error");
    }
  }

  /** An upper-case keyword is still recognised, since the text is lower-cased first. */
  lemma UpperCaseKeywordScenario()
    ensures GetAIResponse("Errore", []) == ErrorHelp
  {
    var l := Lower("Errore");
    assert l[0] == 'e';
    assert l == "errore";
  }

  /** The keyword test ignores ASCII letter case. */
  lemma MentionsIgnoreCase(message: string)
    ensures MentionsError(Lower(message)) == MentionsError(message)
    ensures MentionsLearning(Lower(message)) == MentionsLearning(message)
  {
    LowerIdempotent(message);
  }

  /** The index filter of `removeFile`, applied to elements of `s` standing at
      positions `offset`, `offset + 1`, ...: the element at `index` goes, the
      others stay in order. */
  function KeepOthers<T>(s: seq<T>, index: int, offset: int): (r: seq<T>)
    ensures offset <= index < offset + |s| ==> r == s[..index - offset] + s[index - offset + 1..]
    ensures !(offset <= index < offset + |s|) ==> r == s
  {
    if s == [] then []
    else (if offset == index then [] else [s[0]]) + KeepOthers(s[1..], index, offset + 1)
  }

  /** `removeFile`'s filter over a whole list: it drops the element at `index`
      when there is one and keeps the list as it is otherwise. */
  function RemoveIndex<T>(s: seq<T>, index: int): (r: seq<T>)
    ensures 0 <= index < |s| ==> r == s[..index] + s[index + 1..]
    ensures !(0 <= index < |s|) ==> r == s
  {
    KeepOthers(s, index, 0)
  }

  /** In range, exactly the element at `index` is removed and the rest keep their order. */
  lemma RemoveIndexInRange<T>(s: seq<T>, index: int)
    requires 0 <= index < |s|
    ensures |RemoveIndex(s, index)| == |s| - 1
    ensures forall j :: 0 <= j < index ==> RemoveIndex(s, index)[j] == s[j]
    ensures forall j :: index <= j < |s| - 1 ==> RemoveIndex(s, index)[j] == s[j + 1]
  {
  }

  /** The send button's `disabled` condition, which is also the send handler's
      early-return guard: the trimmed draft is empty and no file is selected,
      that is, the draft is all whitespace and the selection is empty. */
  predicate SendButtonDisabled(input: string, files: seq<File>): (r: bool)
    ensures r <==> IsBlank(input) && files == []
  {
    Trim(input) == [] && |files| == 0
  }

  /** The number of turns of kind `k`. */
  function CountKind(ms: seq<Message>, k: Kind): nat {
    if ms == [] then 0 else CountKind(ms[..|ms| - 1], k) + (if ms[|ms| - 1].kind == k then 1 else 0)
  }

  /** Appending a turn adds one to the count of its own kind only. */
  lemma CountKindSnoc(ms: seq<Message>, m: Message, k: Kind)
    ensures CountKind(ms + [m], k) == CountKind(ms, k) + (if m.kind == k then 1 else 0)
  {
    assert (ms + [m])[..|ms + [m]| - 1] == ms;
  }

  /** A reply scheduled by an accepted send: the timer's callback sees the
      draft and the files as they were when the send ran. */
  datatype PendingReply = PendingReply(input: string, files: seq<File>)

  /** The page component's state. */
  class ChatSession {
    var messages: seq<Message>
    var inputMessage: string
    var selectedFiles: seq<File>
    var isTyping: bool
    /** The replies scheduled and not yet delivered, in the order they were scheduled. */
    var pending: seq<PendingReply>

    /** The welcome turn stays first, every user turn has had or still awaits
        exactly one reply, and the indicator is on only while some reply is
        pending. */
    ghost predicate Valid()
      reads this
    {
      messages != [] && messages[0].id == "1" && messages[0].kind == Ai &&
      CountKind(messages, User) + 1 == CountKind(messages, Ai) + |pending| &&
      (isTyping ==> pending != [])
    }

    /** The initial state, holding only the welcome turn (its timestamp `now`). */
    constructor (now: nat)
      ensures Valid()
      ensures messages == [Message("1", Ai, Greeting, None, now)]
      ensures inputMessage == "" && selectedFiles == [] && !isTyping && pending == []
    {
      messages := [Message("1", Ai, Greeting, None, now)];
      inputMessage := "";
      selectedFiles := [];
      isTyping := false;
      pending := [];
      assert [Message("1", Ai, Greeting, None, now)] == [] + [Message("1", Ai, Greeting, None, now)];
      CountKindSnoc([], Message("1", Ai, Greeting, None, now), User);
      CountKindSnoc([], Message("1", Ai, Greeting, None, now), Ai);
    }

    /** `setInputMessage`: the draft as typed. */
    method SetInput(text: string)
      modifies this
      ensures inputMessage == text
      ensures messages == old(messages) && selectedFiles == old(selectedFiles)
      ensures isTyping == old(isTyping) && pending == old(pending)
    {
      inputMessage := text;
    }

    /** `handleSendMessage`. With a blank draft and no files it changes nothing;
        otherwise it appends one user turn carrying the draft and the files
        (with the fresh `id` and timestamp `now`), clears the draft and the
        selection, turns the indicator on and schedules the reply. */
    method HandleSendMessage(id: string, now: nat) returns (accepted: bool)
      requires Valid()
      modifies this
      ensures Valid()
      ensures accepted == !SendButtonDisabled(old(inputMessage), old(selectedFiles))
      ensures !accepted ==>
                messages == old(messages) && inputMessage == old(inputMessage) &&
                selectedFiles == old(selectedFiles) && isTyping == old(isTyping) && pending == old(pending)
      ensures accepted ==>
                messages == old(messages) + [Message(id, User, old(inputMessage), Some(old(selectedFiles)), now)] &&
                inputMessage == "" && selectedFiles == [] && isTyping &&
                pending == old(pending) + [PendingReply(old(inputMessage), old(selectedFiles))]
    {
      if SendButtonDisabled(inputMessage, selectedFiles) {
        return false;
      }
      var newMessage := Message(id, User, inputMessage, Some(selectedFiles), now);
      CountKindSnoc(messages, newMessage, User);
      CountKindSnoc(messages, newMessage, Ai);
      messages := messages + [newMessage];
      var scheduled := PendingReply(inputMessage, selectedFiles);
      inputMessage := "";
      selectedFiles := [];
      isTyping := true;
      pending := pending + [scheduled];
      accepted := true;
    }

    /** The timer of the `k`-th pending reply fires: one assistant turn with the
        canned reply to what that send captured is appended after every
        existing turn, and the indicator goes off. */
    method DeliverReply(k: nat, id: string, now: nat)
      requires Valid() && k < |pending|
      modifies this
      ensures Valid()
      ensures messages ==
              old(messages) + [Message(id, Ai, GetAIResponse(old(pending)[k].input, old(pending)[k].files).Text(), None, now)]
      ensures |messages| == |old(messages)| + 1 && messages[..|old(messages)|] == old(messages)
      ensures !isTyping && pending == old(pending)[..k] + old(pending)[k + 1..]
      ensures inputMessage == old(inputMessage) && selectedFiles == old(selectedFiles)
    {
      var captured := pending[k];
      var aiResponse := Message(id, Ai, GetAIResponse(captured.input, captured.files).Text(), None, now);
      CountKindSnoc(messages, aiResponse, User);
      CountKindSnoc(messages, aiResponse, Ai);
      messages := messages + [aiResponse];
      isTyping := false;
      pending := pending[..k] + pending[k + 1..];
    }

    /** `handleFileSelect`: the chosen files (none when the list is null) after the old selection. */
    method HandleFileSelect(chosen: Option<seq<File>>)
      requires Valid()
      modifies this
      ensures Valid()
      ensures selectedFiles == old(selectedFiles) + (if chosen.Some? then chosen.value else [])
      ensures messages == old(messages) && inputMessage == old(inputMessage)
      ensures isTyping == old(isTyping) && pending == old(pending)
    {
      var files := if chosen.Some? then chosen.value else [];
      selectedFiles := selectedFiles + files;
    }

    /** `removeFile`: drops the file at `index`; an index out of range changes nothing. */
    method RemoveFile(index: int)
      requires Valid()
      modifies this
      ensures Valid()
      ensures selectedFiles == RemoveIndex(old(selectedFiles), index)
      ensures 0 <= index < |old(selectedFiles)| ==>
                selectedFiles == old(selectedFiles)[..index] + old(selectedFiles)[index + 1..]
      ensures !(0 <= index < |old(selectedFiles)|) ==> selectedFiles == old(selectedFiles)
      ensures messages == old(messages) && inputMessage == old(inputMessage)
      ensures isTyping == old(isTyping) && pending == old(pending)
    {
      selectedFiles := RemoveIndex(selectedFiles, index);
    }
  }
}
