# DocMind session engine, modelled in Dafny

DocMind is a single-session chat assistant. A user can upload one text or PDF
document and ask questions about it. This project models the part of
`chatbot.py` that holds state and builds prompts:

- `DocumentLoader` decides from the file name which parser runs, if any
  (`document_loader.dfy`, module `DocumentLoader`).
- `ChatSystem` keeps three fields: the chat history, the loaded pages and
  their joined text (`chat.dfy`, module `Chat`). Its four operations are
  `load_documents`, `ask_question`, `reset_conversation` and `clear_documents`.

`Chat.ChatSystem` is a class with the source's three fields. Each method is
proved against a pure transition function on a `Session` value (`Load`,
`Ask`, `Reset`, `Clear`). The properties are proved as lemmas about those
functions. The object invariant `Valid()` says that the history is a run of
user/AI exchanges and that the document content is the join of the loaded
pages' text.

External calls are function parameters:

- The language-model call is `invoke: seq<Message> -> LlmOutcome`. It
  receives the assembled prompt and gives `Reply(answer)` or
  `Failure(cause)`, where `Failure` stands for the exception the source
  catches. The model is nondeterministic because the caller chooses `invoke`.
- The parsers `TextLoader` and `PyPDFLoader` are `parse: (Parser, bytes) ->
  Option<seq<Document>>`, where `None` stands for a parser that raised.

The prompt template is written out character for character, including the
16-space indentation and the newlines of the triple-quoted f-string.

File extensions follow POSIX `os.path.splitext`: '/' is the only separator,
and the extension starts at the last '.' of the base name, but only if some
character before that '.' in the base name is not a '.'. Lower-casing is
`str.lower` on ASCII letters.

## Model

| member | source | states |
|---|---|---|
| DocumentLoader.Lower | chatbot.py:36 | the result has the input's length, its character at each position is the lower-case form of the input's character at that position, and contains no ASCII capital |
| DocumentLoader.LastIndex | chatbot.py:36 | `rfind` of one character: -1 or an index holding it, with no occurrence after it |
| DocumentLoader.Extension | chatbot.py:36 | the extension is a suffix of the name; when non-empty it starts with '.' and has no other '.' and no '/' |
| DocumentLoader.ExtensionPresent | chatbot.py:36 | a name has an extension exactly when, within the base name, a non-'.' character comes before some '.' |
| DocumentLoader.SelectLoader | chatbot.py:24-41 | a missing file is `NoFile`; otherwise the lower-cased extension selects `TextLoader` iff it is `.txt`, `PyPdfLoader` iff it is `.pdf`, and is refused (carrying the extension) otherwise |
| DocumentLoader.LoadFromUploadedFile | chatbot.py:30-54 | documents come back only from a present file whose lower-cased extension is `.txt` or `.pdf` |
| DocumentLoader.UnsupportedNeverParses | chatbot.py:31-41 | a missing file or an unsupported extension yields `None`, and the same result whatever the parsers do, so no parser runs |
| DocumentLoader.SupportedRunsItsParser | chatbot.py:38-50 | a supported extension passes on the result of its table parser, run on the uploaded bytes |
| DocumentLoader.SingleDotExtension | chatbot.py:36 | in a name with no '/' and one dot that is not its first character, the extension runs from that dot to the end |
| DocumentLoader.UpperCaseExtensionAccepted | chatbot.py:36-38 | `a.TXT` selects the text loader because the extension is lower-cased first |
| DocumentLoader.DocxRefused | chatbot.py:38-41 | `c.docx` is refused with extension `.docx` |
| DocumentLoader.DotFileRefused | chatbot.py:36-41 | `.txt` alone has an empty extension and is refused |
| Chat.DocumentBetweenDelimiters | chatbot.py:87-102 | with non-empty content, the system message is the content, verbatim, between the `=== CONTENU DU DOCUMENT ===` line and the `=== FIN DU DOCUMENT ===` line of the template |
| Chat.GenericWithoutDocument | chatbot.py:103-105 | with empty content, the system message is the fixed generic assistant text |
| Chat.ExtractDocumentRoundTrip | chatbot.py:87-105 | the document can be read back out of the system message; the generic message carries none |
| Chat.SystemPromptInjective | chatbot.py:87-105 | different document contents give different system messages |
| Chat.DocumentTextPageAt | chatbot.py:80 | the stored document content holds each page's text verbatim at its offset, in page order, with `"\n\n"` after every page but the last |
| Chat.JoinLength | chatbot.py:80 | the joined content is the pages' total length plus one separator between each two pages |
| Chat.JoinPageAt | chatbot.py:80 | each page appears verbatim at its offset in the joined content, in page order, with a separator after every page but the last |
| Chat.PageOffsetMonotone | chatbot.py:80 | a later page starts after an earlier page and its separator end, so page order is kept |
| Chat.JoinEmptyIff | chatbot.py:77-80 | the joined content is empty iff there are no pages or a single empty page |
| Chat.PromptStructure | chatbot.py:87-112 | the prompt has `|history| + 2` messages: one system message, then the stored history in stored order, then the question as a user message |
| Chat.PromptSingleSystem | chatbot.py:102-112 | when the history consists of completed exchanges, the first message is the only system message |
| Chat.LoadReplaces | chatbot.py:76-81 | a load that yields pages installs them and their joined text, and keeps the history |
| Chat.LoadFailureUnchanged | chatbot.py:76-82 | a load that yields `None` or an empty list changes nothing |
| Chat.LoadTwiceKeepsLast | chatbot.py:77-80 | two successful loads give the same state as the second alone, so loads replace and never accumulate |
| Chat.AskSuccessAppendsPair | chatbot.py:115-121 | on a reply, history grows by the question and then the answer, the documents stay, and the answer is returned |
| Chat.AskFailureUnchanged | chatbot.py:115-123 | on a failure, the session is unchanged and the error text is the fixed prefix plus the cause |
| Chat.ResetClearOrthogonal | chatbot.py:125-132 | reset empties only the history and clear empties only the documents; they commute, and together they give a fresh session |
| Chat.ClearGivesGenericPrompt | chatbot.py:87-105 | the prompt after a clear carries the generic system message |
| Chat.TransitionsKeepTurns | chatbot.py:70 | all four transitions keep the history as alternating user and AI messages |
| Chat.TransitionsKeepContent | chatbot.py:71-80 | a fresh session and every transition keep the document content equal to the blank-line join of the loaded pages' text |
| Chat.EmptyPageLoadsAsNoDocument | chatbot.py:77-87 | a single empty page counts as a successful load, but the content stays empty and the prompt is generic |
| Chat.AskAllAppends | chatbot.py:115-123 | a run of questions appends exactly the answered exchanges, in order, and never touches the documents |
| Chat.AnsweredTranscript | chatbot.py:118-119 | after N answered questions the history has 2N more messages, each pair being that question and its answer, in call order |
| Chat.FailuresLeaveSession | chatbot.py:122-123 | a run of failed questions leaves the session unchanged |
| Chat.ParisScenario | chatbot.py:74-121 | loading a one-line `.TXT` file puts the line verbatim into the system message, and one answered question leaves a one-exchange history |
| Chat.DocxScenario | chatbot.py:38-41 | loading a `.docx` file leaves the session unchanged |
| Chat.ChatSystem.constructor | chatbot.py:61-72 | empty history, no pages, empty content |
| Chat.ChatSystem.LoadDocuments | chatbot.py:74-82 | returns whether pages were installed; the new state is `Load` of the old one |
| Chat.ChatSystem.BuildMessages | chatbot.py:87-112 | the list built by appending message by message equals `Prompt` of the current state |
| Chat.ChatSystem.AskQuestion | chatbot.py:84-123 | the model sees `Prompt` of the old state, whose first message is its only system message; the new state and the result are `Ask` and `AskResultOf` of its outcome |
| Chat.ChatSystem.ResetConversation | chatbot.py:125-127 | the new state is `Reset` of the old one |
| Chat.ChatSystem.ClearDocuments | chatbot.py:129-132 | the new state is `Clear` of the old one |

## Left out

- `main()` and everything in it is presentation: Streamlit widgets, the UI's own `conversation_history` with timestamps, and the whitespace-only question guard.
- The `ChatOpenAI` client is not modelled: its configuration (model name, temperature, token limit, streaming) and the call itself are replaced by the `invoke` parameter.
- `TextLoader` and `PyPDFLoader` parsing is replaced by the `parse` parameter. Document metadata is dropped and only `page_content` is kept.
- Writing and removing the scratch file is filesystem I/O and is not modelled.
- Reading `.env` and the API key is configuration and is not modelled.
- The `st.warning` and `st.error` calls in the loader are display side effects and are not modelled.
- DocumentLoader.Lower: lower-cases ASCII letters only, where Python's `str.lower` covers all of Unicode. Acceptance can differ only if some non-ASCII character lower-cases to one of `.txtpdf`, which this model does not rule out by proof.
- DocumentLoader.Extension: uses the POSIX rule with '/' as the only separator. The Windows variant, which also splits on '\\', is not modelled.
- `reset_conversation` clears only when `self.chat_history` is truthy. That tests the history object itself, which is always truthy, so the model clears whenever the history is non-empty. Both readings leave the history empty.
- `ask_question` catches every exception, but only the model call can raise in practice. Only that failure is modelled.
- The model does not claim the document text occurs only once in the system message, because the template text may itself contain it. It proves instead that the content sits between the delimiters and can be read back (`Chat.ExtractDocumentRoundTrip`).
- Unsupported extensions and parser failures are not told apart in the result. The code returns `None` for both and `load_documents` turns that into `False`, so the model does the same. `SelectLoader` keeps the reason internally.
