/** The session engine of `ChatSystem`: the prompt it assembles for each
    question, and the three fields it keeps between questions (the chat
    history, the loaded pages and their joined text).  The language-model
    call and the page parsers are parameters. */
module Chat {
  import opened Wrappers
  import opened DocumentLoader

  datatype Role = System | Human | AI

  /** A role-tagged chat message (`SystemMessage`, `HumanMessage`, `AIMessage`). */
  datatype Message = Message(role: Role, content: string)

  // ---------------------------------------------------------------------
  // The system message

  /** The indentation that the triple-quoted template carries on every line. */
  const Indent := "                "

  const GenericSystemPrompt := "Vous êtes un assistant conversationnel utile et amical."

  const DocumentStart := "=== CONTENU DU DOCUMENT ==="
  const DocumentEnd := "=== FIN DU DOCUMENT ==="

  /** The template text before the opening delimiter. */
  const PromptIntro :=
    "\n" + Indent + "Vous êtes un assistant conversationnel intelligent. Un document a été chargé et voici son contenu :\n"
    + Indent + "\n" + Indent

  /** The template text after the closing delimiter. */
  const PromptInstructions :=
    "\n" + Indent + "\n" + Indent + "Instructions :\n"
    + Indent + "- Si l'utilisateur demande un résumé, une analyse, ou pose des questions sur le document, utilisez le contenu ci-dessus\n"
    + Indent + "- Si l'utilisateur pose une question générale non liée au document, répondez normalement\n"
    + Indent + "- Soyez précis et basez-vous sur le contenu du document quand c'est pertinent\n"
    + Indent + "- Indiquez clairement quand vous vous basez sur le document ou non\n"
    + Indent

  /** Everything the template puts before the document text. */
  const PromptHead := PromptIntro + DocumentStart + "\n" + Indent

  /** Everything the template puts after the document text. */
  const PromptTail := "\n" + Indent + DocumentEnd + PromptInstructions

  /** The system message `ask_question` chooses: the document template when
      the content is non-empty (Python truthiness), the generic one otherwise. */
  function SystemPrompt(documentContent: string): string {
    if documentContent != "" then PromptHead + documentContent + PromptTail
    else GenericSystemPrompt
  }

  /** With a document, the system message holds the content verbatim between
      the two delimiters, each on its own indented line. */
  lemma DocumentBetweenDelimiters(content: string)
    requires content != ""
    ensures SystemPrompt(content) ==
      PromptIntro + DocumentStart + "\n" + Indent + content + "\n" + Indent + DocumentEnd + PromptInstructions
  {
    Regroup(PromptIntro, DocumentStart, "\n", Indent, content, DocumentEnd, PromptInstructions);
  }

  /** Regroups the template's concatenation around the content, for
      `DocumentBetweenDelimiters`. */
  lemma Regroup(a: string, b: string, n: string, i: string, x: string, e: string, f: string)
    ensures (a + b + n + i) + x + (n + i + e + f) == a + b + n + i + x + n + i + e + f
  {
  }

  /** Without a document, the system message is the fixed generic one. */
  lemma GenericWithoutDocument()
    ensures SystemPrompt("") == GenericSystemPrompt
  {
  }

  /** Reads the document back out of a system message; `None` when the
      message is not the document template. */
  function ExtractDocument(prompt: string): Option<string> {
    if |prompt| >= |PromptHead| + |PromptTail|
       && prompt[..|PromptHead|] == PromptHead
       && prompt[|prompt| - |PromptTail|..] == PromptTail
    then Some(prompt[|PromptHead|..|prompt| - |PromptTail|])
    else None
  }

  /** The system message determines the document content: extraction undoes
      `SystemPrompt`, and the generic message carries no document. */
  lemma ExtractDocumentRoundTrip(content: string)
    ensures ExtractDocument(SystemPrompt(content)) == if content == "" then None else Some(content)
  {
    if content == "" {
      assert |GenericSystemPrompt| < |PromptHead| + |PromptTail|;
    } else {
      var p := PromptHead + content + PromptTail;
      assert p[..|PromptHead|] == PromptHead;
      assert p[|p| - |PromptTail|..] == PromptTail;
      assert p[|PromptHead|..|p| - |PromptTail|] == content;
    }
  }

  /** Distinct document contents give distinct system messages. */
  lemma SystemPromptInjective(c1: string, c2: string)
    requires SystemPrompt(c1) == SystemPrompt(c2)
    ensures c1 == c2
  {
    ExtractDocumentRoundTrip(c1);
    ExtractDocumentRoundTrip(c2);
  }

  // ---------------------------------------------------------------------
  // The document content

  const PageSeparator := "\n\n"

  /** `sep.join(parts)`. */
  function Join(sep: string, parts: seq<string>): string
    decreases |parts|
  {
    if |parts| == 0 then ""
    else if |parts| == 1 then parts[0]
    else parts[0] + sep + Join(sep, parts[1..])
  }

  function TotalLength(parts: seq<string>): nat {
    if parts == [] then 0 else |parts[0]| + TotalLength(parts[1..])
  }

  /** The text of each page, in order. */
  function PageContents(docs: seq<Document>): seq<string> {
    seq(|docs|, i requires 0 <= i < |docs| => docs[i].pageContent)
  }

  /** `document_content` after a load: the pages joined by a blank line. */
  function DocumentText(docs: seq<Document>): string {
    Join(PageSeparator, PageContents(docs))
  }

  /** The joined text is exactly the pages plus one separator between each two. */
  lemma {:induction false} JoinLength(sep: string, parts: seq<string>)
    requires parts != []
    ensures |Join(sep, parts)| == TotalLength(parts) + (|parts| - 1) * |sep|
    decreases |parts|
  {
    if |parts| > 1 {
      JoinLength(sep, parts[1..]);
    }
  }

  /** A slice of the last part of a concatenation, seen from the whole. */
  lemma SliceOfSuffix(front: string, rest: string, lo: nat, hi: nat)
    requires lo <= hi <= |rest|
    ensures (front + rest)[|front| + lo..|front| + hi] == rest[lo..hi]
  {
  }

  /** The first page opens the joined text, followed by a separator when
      more pages come. */
  lemma JoinFirstPage(sep: string, parts: seq<string>)
    requires parts != []
    ensures |parts[0]| <= |Join(sep, parts)| && Join(sep, parts)[..|parts[0]|] == parts[0]
    ensures |parts| > 1 ==>
      |parts[0]| + |sep| <= |Join(sep, parts)| &&
      Join(sep, parts)[|parts[0]|..|parts[0]| + |sep|] == sep
  {
    if |parts| > 1 {
      var j := Join(sep, parts);
      assert j == parts[0] + sep + Join(sep, parts[1..]);
      assert j[..|parts[0]|] == parts[0];
      assert j[|parts[0]|..|parts[0]| + |sep|] == sep;
    }
  }

  /** Where page `i` starts in the joined text: after every earlier page
      and its separator. */
  function PageOffset(sep: string, parts: seq<string>, i: nat): nat
    requires i < |parts|
    decreases i
  {
    if i == 0 then 0 else |parts[0]| + |sep| + PageOffset(sep, parts[1..], i - 1)
  }

  /** Page `i` sits verbatim in the joined text at its offset, and is
      followed by a separator unless it is last: the join keeps every page,
      in order, without change. */
  lemma {:induction false} JoinPageAt(sep: string, parts: seq<string>, i: nat)
    requires i < |parts|
    ensures var off := PageOffset(sep, parts, i);
      off + |parts[i]| <= |Join(sep, parts)| &&
      Join(sep, parts)[off..off + |parts[i]|] == parts[i] &&
      (i + 1 < |parts| ==>
        off + |parts[i]| + |sep| <= |Join(sep, parts)| &&
        Join(sep, parts)[off + |parts[i]|..off + |parts[i]| + |sep|] == sep)
    decreases |parts|
  {
    if i == 0 {
      JoinFirstPage(sep, parts);
    } else {
      var tail := parts[1..];
      JoinPageAt(sep, tail, i - 1);
      assert tail[i - 1] == parts[i];
      var offR := PageOffset(sep, tail, i - 1);
      var len := |parts[i]|;
      var rest := Join(sep, tail);
      assert Join(sep, parts) == (parts[0] + sep) + rest;
      SliceOfSuffix(parts[0] + sep, rest, offR, offR + len);
      if i + 1 < |parts| {
        SliceOfSuffix(parts[0] + sep, rest, offR + len, offR + len + |sep|);
      }
    }
  }

  /** Offsets grow with the page index: later pages start later. */
  lemma {:induction false} PageOffsetMonotone(sep: string, parts: seq<string>, i: nat, k: nat)
    requires i < k < |parts|
    ensures PageOffset(sep, parts, i) + |parts[i]| + |sep| <= PageOffset(sep, parts, k)
    decreases i
  {
    if i > 0 {
      PageOffsetMonotone(sep, parts[1..], i - 1, k - 1);
    } else {
      assert PageOffset(sep, parts, k) == |parts[0]| + |sep| + PageOffset(sep, parts[1..], k - 1);
    }
  }

  /** What `load_documents` stores: the text of every page, verbatim, at
      its offset in the document content, with a blank line after every page
      but the last. */
  lemma DocumentTextPageAt(docs: seq<Document>, i: nat)
    requires i < |docs|
    ensures var pages := PageContents(docs);
      var off := PageOffset(PageSeparator, pages, i);
      var text := DocumentText(docs);
      off + |docs[i].pageContent| <= |text| &&
      text[off..off + |docs[i].pageContent|] == docs[i].pageContent &&
      (i + 1 < |docs| ==>
        off + |docs[i].pageContent| + 2 <= |text| &&
        text[off + |docs[i].pageContent|..off + |docs[i].pageContent| + 2] == "\n\n")
  {
    var pages := PageContents(docs);
    assert pages[i] == docs[i].pageContent;
    JoinPageAt(PageSeparator, pages, i);
  }

  /** With a non-empty separator the join is empty exactly when there are no
      pages or a single empty one. */
  lemma {:induction false} JoinEmptyIff(sep: string, parts: seq<string>)
    requires sep != ""
    ensures Join(sep, parts) == "" <==> |parts| == 0 || (|parts| == 1 && parts[0] == "")
  {
    if |parts| > 1 {
      assert |Join(sep, parts)| >= |sep|;
    }
  }

  // ---------------------------------------------------------------------
  // The session state and its transitions

  /** The three fields of a `ChatSystem`, as a value. */
  datatype Session = Session(chatHistory: seq<Message>, loadedDocuments: seq<Document>, documentContent: string)

  /** A fresh `ChatSystem`. */
  const EmptySession := Session([], [], "")

  /** The outcome of the language-model call: a reply, or the exception's text. */
  datatype LlmOutcome = Reply(content: string) | Failure(cause: string)

  /** The dictionary `ask_question` returns: `{"answer": …}` or `{"error": …}`. */
  datatype AskResult = Answer(answer: string) | Error(error: string)

  const ErrorPrefix := "Erreur lors du traitement de la question : "

  /** `if documents:` in `load_documents`: a present, non-empty page list. */
  predicate LoadSucceeds(docs: Option<seq<Document>>) {
    docs.Some? && docs.value != []
  }

  /** `load_documents` given what the loader returned. */
  function Load(s: Session, docs: Option<seq<Document>>): Session {
    if LoadSucceeds(docs) then s.(loadedDocuments := docs.value, documentContent := DocumentText(docs.value))
    else s
  }

  /** The message list `ask_question` hands to the model. */
  function Prompt(s: Session, question: string): seq<Message> {
    [Message(System, SystemPrompt(s.documentContent))] + s.chatHistory + [Message(Human, question)]
  }

  /** `ask_question`'s effect on the session, given the model's outcome. */
  function Ask(s: Session, question: string, outcome: LlmOutcome): Session {
    match outcome
    case Reply(a) => s.(chatHistory := s.chatHistory + [Message(Human, question)] + [Message(AI, a)])
    case Failure(_) => s
  }

  /** `ask_question`'s return value, given the model's outcome. */
  function AskResultOf(outcome: LlmOutcome): AskResult {
    match outcome
    case Reply(a) => Answer(a)
    case Failure(e) => Error(ErrorPrefix + e)
  }

  function Reset(s: Session): Session {
    s.(chatHistory := [])
  }

  function Clear(s: Session): Session {
    s.(loadedDocuments := [], documentContent := "")
  }

  /** The history is a sequence of completed exchanges: a user message then
      an AI message, over and over. */
  predicate AlternatesTurns(h: seq<Message>) {
    |h| % 2 == 0 && forall i :: 0 <= i < |h| ==> h[i].role == (if i % 2 == 0 then Human else AI)
  }

  // ---------------------------------------------------------------------
  // Properties of one transition

  /** The prompt is one system message, the whole stored history in stored
      order, then the question as the last user message. */
  lemma PromptStructure(s: Session, question: string)
    ensures |Prompt(s, question)| == |s.chatHistory| + 2
    ensures Prompt(s, question)[0] == Message(System, SystemPrompt(s.documentContent))
    ensures Prompt(s, question)[1..|s.chatHistory| + 1] == s.chatHistory
    ensures Prompt(s, question)[|s.chatHistory| + 1] == Message(Human, question)
  {
  }

  /** For a history of completed exchanges, the first message is the only
      system message of the prompt. */
  lemma PromptSingleSystem(s: Session, question: string)
    requires AlternatesTurns(s.chatHistory)
    ensures forall i :: 1 <= i < |Prompt(s, question)| ==> Prompt(s, question)[i].role != System
  {
    var p := Prompt(s, question);
    forall i | 1 <= i < |p| ensures p[i].role != System {
      if i <= |s.chatHistory| { assert p[i] == s.chatHistory[i - 1]; }
    }
  }

  /** A load that yields pages replaces both document fields, and nothing else. */
  lemma LoadReplaces(s: Session, docs: Option<seq<Document>>)
    requires LoadSucceeds(docs)
    ensures Load(s, docs).loadedDocuments == docs.value
    ensures Load(s, docs).documentContent == DocumentText(docs.value)
    ensures Load(s, docs).chatHistory == s.chatHistory
  {
  }

  /** A load that yields `None` or no pages changes nothing. */
  lemma LoadFailureUnchanged(s: Session, docs: Option<seq<Document>>)
    requires !LoadSucceeds(docs)
    ensures Load(s, docs) == s
  {
  }

  /** Two successful loads leave only the second document: loading replaces
      and never accumulates. */
  lemma LoadTwiceKeepsLast(s: Session, first: Option<seq<Document>>, second: Option<seq<Document>>)
    requires LoadSucceeds(first) && LoadSucceeds(second)
    ensures Load(Load(s, first), second) == Load(s, second)
  {
  }

  /** A successful answer appends the question and then the answer, and is returned. */
  lemma AskSuccessAppendsPair(s: Session, question: string, answer: string)
    ensures Ask(s, question, Reply(answer)).chatHistory ==
      s.chatHistory + [Message(Human, question), Message(AI, answer)]
    ensures Ask(s, question, Reply(answer)).loadedDocuments == s.loadedDocuments
    ensures Ask(s, question, Reply(answer)).documentContent == s.documentContent
    ensures AskResultOf(Reply(answer)) == Answer(answer)
  {
  }

  /** A failed call leaves the session as it was and reports the cause. */
  lemma AskFailureUnchanged(s: Session, question: string, cause: string)
    ensures Ask(s, question, Failure(cause)) == s
    ensures AskResultOf(Failure(cause)) == Error(ErrorPrefix + cause)
  {
  }

  /** Reset touches only the history, clear only the documents, and the two
      commute; together they give back a fresh session. */
  lemma ResetClearOrthogonal(s: Session)
    ensures Reset(s).chatHistory == [] && Reset(s).loadedDocuments == s.loadedDocuments
    ensures Reset(s).documentContent == s.documentContent
    ensures Clear(s).chatHistory == s.chatHistory && Clear(s).loadedDocuments == []
    ensures Clear(s).documentContent == ""
    ensures Reset(Clear(s)) == Clear(Reset(s)) == EmptySession
  {
  }

  /** After clearing, the next prompt carries the generic system message. */
  lemma ClearGivesGenericPrompt(s: Session, question: string)
    ensures Prompt(Clear(s), question)[0] == Message(System, GenericSystemPrompt)
  {
  }

  /** Every transition keeps the history a sequence of completed exchanges. */
  lemma TransitionsKeepTurns(s: Session, docs: Option<seq<Document>>, question: string, outcome: LlmOutcome)
    requires AlternatesTurns(s.chatHistory)
    ensures AlternatesTurns(Load(s, docs).chatHistory)
    ensures AlternatesTurns(Ask(s, question, outcome).chatHistory)
    ensures AlternatesTurns(Reset(s).chatHistory)
    ensures AlternatesTurns(Clear(s).chatHistory)
  {
    if outcome.Reply? {
      var h := s.chatHistory;
      var h' := Ask(s, question, outcome).chatHistory;
      assert |h'| == |h| + 2;
      forall i | 0 <= i < |h'| ensures h'[i].role == (if i % 2 == 0 then Human else AI) {
        if i < |h| { assert h'[i] == h[i]; }
      }
    }
  }

  /** The document content is the blank-line join of the loaded pages' text:
      both fields always describe the same single resident document. */
  predicate ContentMatchesPages(s: Session) {
    s.documentContent == DocumentText(s.loadedDocuments)
  }

  /** A fresh session satisfies `ContentMatchesPages`, and every transition
      keeps it. */
  lemma TransitionsKeepContent(s: Session, docs: Option<seq<Document>>, question: string, outcome: LlmOutcome)
    requires ContentMatchesPages(s)
    ensures ContentMatchesPages(EmptySession)
    ensures ContentMatchesPages(Load(s, docs))
    ensures ContentMatchesPages(Ask(s, question, outcome))
    ensures ContentMatchesPages(Reset(s))
    ensures ContentMatchesPages(Clear(s))
  {
    assert PageContents([]) == [];
  }

  /** A page list whose only page is empty loads successfully yet leaves the
      content empty, so the next prompt is the generic one. */
  lemma EmptyPageLoadsAsNoDocument(s: Session, question: string)
    ensures LoadSucceeds(Some([Document("")]))
    ensures Load(s, Some([Document("")])).loadedDocuments == [Document("")]
    ensures Prompt(Load(s, Some([Document("")])), question)[0] == Message(System, GenericSystemPrompt)
  {
    assert PageContents([Document("")]) == [""];
  }

  // ---------------------------------------------------------------------
  // Sequences of questions

  /** One question put to the session and the model's outcome for it. */
  datatype Exchange = Exchange(question: string, outcome: LlmOutcome)

  /** The session after asking the questions one after the other. */
  function AskAll(s: Session, xs: seq<Exchange>): Session
    decreases |xs|
  {
    if xs == [] then s else AskAll(Ask(s, xs[0].question, xs[0].outcome), xs[1..])
  }

  /** The messages the exchanges that were answered contribute, in order. */
  function Transcript(xs: seq<Exchange>): seq<Message>
    decreases |xs|
  {
    if xs == [] then []
    else
      (match xs[0].outcome
       case Reply(a) => [Message(Human, xs[0].question), Message(AI, a)]
       case Failure(_) => [])
      + Transcript(xs[1..])
  }

  predicate AllAnswered(xs: seq<Exchange>) {
    forall i :: 0 <= i < |xs| ==> xs[i].outcome.Reply?
  }

  /** Asking only appends: the history grows by the answered exchanges in the
      order they were asked, failures leave no trace, and the document
      fields never change. */
  lemma {:induction false} AskAllAppends(s: Session, xs: seq<Exchange>)
    ensures AskAll(s, xs) == s.(chatHistory := s.chatHistory + Transcript(xs))
    decreases |xs|
  {
    if xs != [] {
      var s' := Ask(s, xs[0].question, xs[0].outcome);
      AskAllAppends(s', xs[1..]);
      var head := match xs[0].outcome
        case Reply(a) => [Message(Human, xs[0].question), Message(AI, a)]
        case Failure(_) => [];
      assert s'.chatHistory == s.chatHistory + head;
      assert Transcript(xs) == head + Transcript(xs[1..]);
      assert s.chatHistory + head + Transcript(xs[1..]) == s.chatHistory + Transcript(xs);
    }
  }

  /** After N answered questions the history has N more exchanges, each the
      question asked and the answer given, in call order. */
  lemma {:induction false} AnsweredTranscript(xs: seq<Exchange>)
    requires AllAnswered(xs)
    ensures |Transcript(xs)| == 2 * |xs|
    ensures forall i :: 0 <= i < |xs| ==>
      Transcript(xs)[2 * i] == Message(Human, xs[i].question) &&
      Transcript(xs)[2 * i + 1] == Message(AI, xs[i].outcome.content)
    decreases |xs|
  {
    if xs != [] {
      var tail := xs[1..];
      assert AllAnswered(tail) by {
        forall i | 0 <= i < |tail| ensures tail[i].outcome.Reply? { assert tail[i] == xs[i + 1]; }
      }
      AnsweredTranscript(tail);
      assert xs[0].outcome.Reply?;
      var t := Transcript(xs);
      assert t == [Message(Human, xs[0].question), Message(AI, xs[0].outcome.content)] + Transcript(tail);
      forall i | 0 <= i < |xs|
        ensures t[2 * i] == Message(Human, xs[i].question) && t[2 * i + 1] == Message(AI, xs[i].outcome.content)
      {
        if i > 0 {
          assert t[2 * i] == Transcript(tail)[2 * (i - 1)];
          assert t[2 * i + 1] == Transcript(tail)[2 * (i - 1) + 1];
          assert tail[i - 1] == xs[i];
        }
      }
    }
  }

  /** A run of failed questions leaves the session exactly as it was. */
  lemma {:induction false} FailuresLeaveSession(s: Session, xs: seq<Exchange>)
    requires forall i :: 0 <= i < |xs| ==> xs[i].outcome.Failure?
    ensures AskAll(s, xs) == s
    decreases |xs|
  {
    if xs != [] {
      assert xs[0].outcome.Failure?;
      FailuresLeaveSession(s, xs[1..]);
    }
  }

  // ---------------------------------------------------------------------
  // Scenarios

  /** Load a text file holding one sentence and ask about it: the system
      message carries the sentence verbatim, and a successful answer leaves a
      history of exactly that question and answer. */
  lemma ParisScenario(parse: ParseFn, buffer: seq<byte>, answer: string)
    requires parse(TextLoader, buffer) == Some([Document("Paris is the capital of France.")])
    ensures var s := Load(EmptySession, LoadFromUploadedFile(Some(UploadedFile("a.TXT", buffer)), parse));
      var q := "What is the capital of France, per the document?";
      s.documentContent == "Paris is the capital of France." &&
      Prompt(s, q)[0] == Message(System, PromptHead + "Paris is the capital of France." + PromptTail) &&
      Ask(s, q, Reply(answer)).chatHistory == [Message(Human, q), Message(AI, answer)]
  {
    UpperCaseExtensionAccepted();
    var docs := [Document("Paris is the capital of France.")];
    assert PageContents(docs) == ["Paris is the capital of France."];
  }

  /** Loading a `.docx` file yields nothing and leaves the session unchanged. */
  lemma DocxScenario(s: Session, parse: ParseFn, buffer: seq<byte>)
    ensures Load(s, LoadFromUploadedFile(Some(UploadedFile("c.docx", buffer)), parse)) == s
  {
    DocxRefused();
    assert SelectLoader(Some(UploadedFile("c.docx", buffer))).Err?;
  }

  // ---------------------------------------------------------------------
  // The object

  /** `ChatSystem`: the model client is not stored; each question takes the
      model call as `invoke`. */
  class ChatSystem {
    var chatHistory: seq<Message>
    var loadedDocuments: seq<Document>
    var documentContent: string

    /** The object's fields as a session value. */
    function State(): Session
      reads this
    {
      Session(chatHistory, loadedDocuments, documentContent)
    }

    predicate Valid()
      reads this
    {
      AlternatesTurns(chatHistory) && ContentMatchesPages(State())
    }

    constructor ()
      ensures Valid() && State() == EmptySession
    {
      assert PageContents([]) == [];
      chatHistory := [];
      loadedDocuments := [];
      documentContent := "";
    }

    /** `load_documents`: returns whether pages were installed. */
    method LoadDocuments(file: Option<UploadedFile>, parse: ParseFn) returns (loaded: bool)
      requires Valid()
      modifies this
      ensures Valid()
      ensures loaded == LoadSucceeds(LoadFromUploadedFile(file, parse))
      ensures State() == Load(old(State()), LoadFromUploadedFile(file, parse))
    {
      var documents := LoadFromUploadedFile(file, parse);
      if documents.Some? && documents.value != [] {
        loadedDocuments := documents.value;
        documentContent := Join(PageSeparator, PageContents(documents.value));
        return true;
      }
      return false;
    }

    /** The message list of `ask_question`, built by appending one message
        at a time. */
    method BuildMessages(question: string) returns (messages: seq<Message>)
      ensures messages == Prompt(State(), question)
    {
      if documentContent != "" {
        messages := [Message(System, PromptHead + documentContent + PromptTail)];
      } else {
        messages := [Message(System, GenericSystemPrompt)];
      }
      for i := 0 to |chatHistory|
        invariant messages == [Message(System, SystemPrompt(documentContent))] + chatHistory[..i]
      {
        messages := messages + [chatHistory[i]];
      }
      assert chatHistory[..|chatHistory|] == chatHistory;
      messages := messages + [Message(Human, question)];
    }

    /** `ask_question`: the history changes only once the model has answered. */
    method AskQuestion(question: string, invoke: seq<Message> -> LlmOutcome) returns (result: AskResult)
      requires Valid()
      modifies this
      ensures Valid()
      ensures result == AskResultOf(invoke(Prompt(old(State()), question)))
      ensures State() == Ask(old(State()), question, invoke(Prompt(old(State()), question)))
      ensures forall i :: 1 <= i < |Prompt(old(State()), question)| ==>
        Prompt(old(State()), question)[i].role != System
    {
      var messages := BuildMessages(question);
      var response := invoke(messages);
      match response {
        case Reply(content) =>
          chatHistory := chatHistory + [Message(Human, question)];
          chatHistory := chatHistory + [Message(AI, content)];
          result := Answer(content);
        case Failure(cause) =>
          result := Error(ErrorPrefix + cause);
      }
      TransitionsKeepTurns(old(State()), None, question, response);
      TransitionsKeepContent(old(State()), None, question, response);
      PromptSingleSystem(old(State()), question);
    }

    /** `reset_conversation`. */
    method ResetConversation()
      requires Valid()
      modifies this
      ensures Valid()
      ensures State() == Reset(old(State()))
    {
      if chatHistory != [] {
        chatHistory := [];
      }
    }

    /** `clear_documents`. */
    method ClearDocuments()
      requires Valid()
      modifies this
      ensures Valid()
      ensures State() == Clear(old(State()))
    {
      loadedDocuments := [];
      documentContent := "";
    }
  }
}
