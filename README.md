# Flash-card generator: a Dafny model

This project models the core of a flash-card generator. The system reads a document and asks a large language model (the Groq chat-completion service) to work on it:
- it categorises the document;
- it summarises it;
- it extracts its key concepts;
- it writes question/answer pairs;
- it can translate each question and answer into a target language.

The resulting cards can be saved to a JSON file and loaded back. A web front end uploads a document, shows the cards one at a time, and keeps track of the signed-in user.

The model has these modules:

- `Wrappers`: an `Option` type.
- `Values`: the Python values the pipeline moves around: strings, lists, dicts as association lists, and `None`. It also holds the exceptions a step can raise (`Outcome` = `Done` | `Raised`), and subscripting, `dict.get`, iteration, and `json.loads` as a decoder parameter.
- `Text`: the string operations the pipeline uses: `strip`, `find`, `rfind`, Python slicing, ASCII lower-casing, and the lenient trimming of a reply to its bracketed array.
- `Generation`: the generation service, modelled as a scripted oracle. `Service(pending, sent)` holds the replies still to come and the requests already sent. A missing reply counts as a failure. `GroqClient` is the object whose `chat.completions.create` consumes one reply.
- `Pipeline`: the canonical analyser (`AnalyzeDocs` and `ReadDocs` of `bin/libs_py/model.py`). It covers the retry wrapper, the prompt stages, card assembly with all-or-nothing error handling, the JSON card store (as values kept in a `Disk` object), `generate_flashcards`, `generate_flashcards_from_file` and the document-type dispatch. Each method of the class `Pipeline.AnalyzeDocs` is proved equal to a specification function, and the properties are lemmas about those functions.
- `LegacyPipeline`: the older analyser of `bin/model.py`. It makes one call with no retry and builds cards as plain dicts. Exceptions reach its caller. Lemmas compare it with the canonical version.
- `StudySession`: the flash-card list component. It covers the index that wraps at both ends using JavaScript's truncating `%`, flipping, and the mastered set with its counts.
- `Upload`: the upload form. It covers file validation, the 200-character preview, and the selection, drop, upload and download handlers.
- `Auth`: the authentication context. It covers `login`, `logout`, the agreement of the flag and the token, and `useAuth` throwing outside a provider.

Two facts about the code shape the model of `process_document`:
- It decodes the flash-card reply with `json.loads` directly. It does not apply the bracket trimming that `generate_qa_pairs` does (bin/libs_py/model.py:184-185).
- Any exception while the cards are built makes it return the empty list, including a `KeyError` from a pair without a question or an answer (bin/libs_py/model.py:202-204).

## Model

| member | source | states |
|---|---|---|
| Pipeline.Attempts | bin/libs_py/model.py:38-49 | The attempt loop makes at most `retry_count` calls. Every call before the last one failed. A success returns the reply of the last call. Raising happens only after `retry_count` calls, the last of which failed. No call and `None` exactly when `retry_count` ≤ 0. |
| Pipeline.Retry | bin/libs_py/model.py:38-49 | `generate_with_groq` against the service: the attempt loop's outcome, with the service after all the calls that loop made. Its properties are the `Attempts` contract and the three `Retry…` lemmas. |
| Pipeline.RetryReturnsFirstSuccess | bin/libs_py/model.py:38-45 | When attempts 0..k-1 fail and attempt k succeeds within the limit, the wrapper returns attempt k's content after exactly k+1 calls and makes no more. |
| Pipeline.RetryRaisesAfterAllFail | bin/libs_py/model.py:38-49 | When all `retry_count` attempts fail, the wrapper raises the generation error after exactly `retry_count` calls. |
| Pipeline.RetryWithoutAttempts | bin/libs_py/model.py:38-49 | With `retry_count` ≤ 0 the wrapper makes no call and returns `None`. |
| Pipeline.AnalyzeDocs.GenerateWithGroq | bin/libs_py/model.py:28-49 | The imperative retry loop over the client returns the outcome of the retry specification. The client ends in the specified state: the replies used are consumed and the requests are recorded. |
| Pipeline.Ask | bin/libs_py/model.py:28-49 | A prompt stage's call with the default three attempts. When it returns, its content is a string. |
| Pipeline.AnalyzeDocs.CategorizeContent | bin/libs_py/model.py:72-89 | One categorisation request through the retry wrapper. The outcome and the service are as specified. |
| Pipeline.AnalyzeDocs.SummarizeText | bin/libs_py/model.py:91-107 | One summary request through the retry wrapper. The outcome and the service are as specified. |
| Pipeline.KeyConceptsSpec | bin/libs_py/model.py:51-70 | Raises exactly when the call raises. Otherwise the result is what the decoder gives on the reply, or the empty list when it rejects it. The service changes only by the one wrapped call. |
| Pipeline.AnalyzeDocs.ExtractKeyConcepts | bin/libs_py/model.py:51-70 | The method's outcome and service effect are those of `KeyConceptsSpec`. |
| Text.Strip | bin/libs_py/model.py:127 | `strip()` removes exactly the whitespace at both ends. When anything is left, it starts and ends with a character that is not whitespace. |
| Text.Lower | bin/libs_py/model.py:146 | `lower()` keeps the length and lower-cases each character. |
| Text.FindFirst | bin/libs_py/model.py:129 | `find` gives the first occurrence, and -1 exactly when there is none. |
| Text.RFindLast | bin/libs_py/model.py:131 | `rfind` gives the last occurrence, and -1 exactly when there is none. |
| Text.LenientArrayText | bin/libs_py/model.py:126-131 | The reply is stripped. When it contains a `[` followed later by a `]`, the result is the text from the first `[` to the last `]`. |
| Text.BracketedPassesThrough | bin/libs_py/model.py:126-131 | A reply that already starts with `[` and ends with `]` passes through the trimming unchanged. |
| Text.NoArrayDecodesBareText | bin/libs_py/model.py:126-131 | A reply without a `[`…`]` pair is trimmed to `""` or `"]"`. |
| Pipeline.QAPairsSpec | bin/libs_py/model.py:109-135 | Raises exactly when the call raises. Otherwise the result is the decoded trimmed reply, with the empty list when it does not decode. The service changes only by the one wrapped call. |
| Pipeline.QAPairsWithoutArray | bin/libs_py/model.py:126-135 | For a decoder that rejects `""` and `"]"`, a reply with no bracketed array yields no pairs. |
| Pipeline.AnalyzeDocs.GenerateQAPairs | bin/libs_py/model.py:109-135 | The method's outcome and service effect are those of `QAPairsSpec`. |
| Text.IsEnglishCaseInsensitive | bin/libs_py/model.py:22 | The English test on the lower-cased language holds exactly when each of the seven letters of "english" is given in either case. |
| Pipeline.TranslateSpec | bin/libs_py/model.py:146-156 | `translate_content`: the content itself in English, one retried translation request otherwise. Its properties are the `Translator…` lemmas below. |
| Pipeline.TranslatorInEnglish | bin/libs_py/model.py:146-147 | When the target language lower-cases to "english", translation gives back its content and makes no call. |
| Pipeline.TranslatorAnswersFirst | bin/libs_py/model.py:149-156 | For any other language, when the next reply succeeds, translation returns its text. It sends exactly one translation request for that content and consumes exactly that reply. |
| Pipeline.AnalyzeDocs.TranslateContent | bin/libs_py/model.py:137-156 | The method matches `TranslateSpec`. In English it is the identity and leaves the service untouched. |
| Pipeline.AnalyzeDocs.constructor | bin/libs_py/model.py:21-23 | The target language is stored lower-cased, and the model name and the client are kept. |
| Pipeline.CardFrom | bin/libs_py/model.py:192-200 | A card that is built comes from an item with a question and an answer. It carries the document's category and the item's difficulty, or "medium" when there is none. |
| Pipeline.CardFromIdentity | bin/libs_py/model.py:192-200 | Without translation, a pair becomes the card holding its own question and answer, and no call is made. |
| Pipeline.CardFromTranslated | bin/libs_py/model.py:192-200 | With translation, when the next two replies succeed, the card's prompt and answer are those two replies. The question's request is sent before the answer's, and exactly those two replies are consumed. |
| Pipeline.BuildCards | bin/libs_py/model.py:189-201 | The card loop over the decoded pairs, stopping at the first exception. Its properties are the `BuildCards…` lemmas. |
| Pipeline.AssembleCards | bin/libs_py/model.py:189-205 | The `try` block around the card loop, where any exception gives `[]`. Its properties are the `AssembleCards…` lemmas. |
| Pipeline.AnalyzeDocs.CardOf | bin/libs_py/model.py:192-200 | The imperative loop body's outcome and service effect are those of `CardFrom` with `translate_content`. |
| Pipeline.BuildCardsExtends | bin/libs_py/model.py:189-201 | A successful card loop appends exactly one card per pair to what it already had, keeping the earlier cards in order. |
| Pipeline.BuildCardsFit | bin/libs_py/model.py:189-201 | In a successful card loop, card k comes from pair k, which has a question and an answer. The card's category is the document's category. Its difficulty is the pair's, or "medium" when the pair has none. In English its prompt and answer are the pair's own question and answer. |
| Pipeline.BuildCardsEnglish | bin/libs_py/model.py:189-201 | In English, when every item has a question and an answer, the loop succeeds and makes no call. |
| Pipeline.TranslationRequests | bin/libs_py/model.py:191-196 | Two translation requests per pair: its question, then its answer. |
| Pipeline.BuildCardsTranslated | bin/libs_py/model.py:189-201 | With translation, when the next 2·n replies succeed, the loop succeeds with one card for each of the n pairs. Card k's prompt and answer are replies 2k and 2k+1. |
| Pipeline.BuildCardsTranslatedRequests | bin/libs_py/model.py:189-201 | In the same case, the loop sends exactly the question and answer translation requests, pair by pair, and consumes exactly their 2·n replies. |
| Pipeline.AssembleCardsAllOrNothing | bin/libs_py/model.py:184-205 | The card stage never raises. A non-empty result comes from a list of pairs and fits it card by card. Anything else gives the empty list. |
| Pipeline.TranslatorFromReplies | bin/libs_py/model.py:38-49 | In another language, translation returns the text of the successful reply, on whichever attempt it came. Afterwards the service has consumed replies only from the front of its script. |
| Pipeline.CardFromReplies | bin/libs_py/model.py:192-200 | With such a translation, a card's prompt and answer are texts of successful replies, and the replies left are among those there were. |
| Pipeline.BuildCardsFromReplies | bin/libs_py/model.py:189-201 | With such a translation, every card of a completed loop holds only reply texts. |
| Pipeline.AssembleCardsFromReplies | bin/libs_py/model.py:189-205 | In another language, with any replies and any number of attempts per translation, every card's prompt and answer are each drawn from the texts of the service's successful replies (prompt and answer may be the same text). |
| Pipeline.AssembleCardsMalformedPair | bin/libs_py/model.py:189-204 | A single pair without a question or an answer discards every card of the document. |
| Pipeline.AssembleCardsEnglish | bin/libs_py/model.py:189-205 | In English, a list of well-formed pairs gives one fitting card per pair and no call. |
| Pipeline.AssembleCardsTranslated | bin/libs_py/model.py:189-205 | In another language, when every translation succeeds at its first attempt, a list of well-formed pairs gives one card per pair holding the replies in order. The service has received exactly the pairs' translation requests. |
| Pipeline.GatherSpec | bin/libs_py/model.py:169-187 | The stages before card assembly, in source order: categorise, summarise, extract the concepts, join them, request the cards and decode the reply. The first exception ends them. |
| Pipeline.ProcessDocumentSpec | bin/libs_py/model.py:158-205 | `process_document`: the gathered stages, then `[]` for an undecodable reply, otherwise card assembly. Its properties are `ProcessDocumentAllOrNothing` and the card lemmas. |
| Pipeline.ProcessDocumentAllOrNothing | bin/libs_py/model.py:158-205 | `process_document` raises exactly when categorising, summarising, extracting concepts, joining them or the flash-card request raises. A reply that does not decode gives the empty list. A non-empty result fits the decoded pairs card by card. |
| Pipeline.AnalyzeDocs.ProcessDocument | bin/libs_py/model.py:158-187 | The method's outcome and the service afterwards are those of `ProcessDocumentSpec`. |
| Pipeline.AnalyzeDocs.AssembleFlashCards | bin/libs_py/model.py:189-205 | The imperative card loop, and its catch-all that gives the empty list, match `AssembleCards`. |
| Values.LookupBinding | bin/libs_py/model.py:192 | A dict lookup finds nothing exactly when no field has the key. Otherwise it finds the value of the last field holding the key. |
| Values.Subscript | bin/libs_py/model.py:192 | `item["question"]` succeeds exactly on a dict holding the key and gives its last binding. Otherwise it raises `KeyError` on a dict and `TypeError` on anything else. |
| Values.Get | bin/libs_py/model.py:199 | `item.get("difficulty", "medium")` gives the bound value or the default on a dict, and raises on anything else. |
| Values.Elements | bin/libs_py/model.py:190 | Iteration succeeds exactly on lists, dicts and strings. A list yields its items, and the other two yield strings. |
| Values.Decode | bin/libs_py/model.py:184-185 | `json.loads` accepts only a string and gives the decoder's answer on it. |
| Pipeline.CardRecord | bin/libs_py/model.py:216-221 | The four-key record saved for one card. |
| Pipeline.CardRecords | bin/libs_py/model.py:214-221 | One record per card, in order. |
| Pipeline.CardFromRecord | bin/libs_py/model.py:238-244 | A record loads exactly when it has a prompt and an answer. The card holds the record's prompt and answer. A missing category or difficulty becomes `None`. |
| Pipeline.LoadFrom | bin/libs_py/model.py:238-245 | The loading loop from record i on, stopping at the first record that raises. Its property is `LoadFromRecords`. |
| Pipeline.LoadCards | bin/libs_py/model.py:236-246 | Iterate over the decoded file and load each record. Its properties are `SaveLoadRoundTrip` and `LoadWithoutOptionalFields`. |
| Pipeline.CardRecordLoads | bin/libs_py/model.py:238-244 | A card's saved record loads back as the same card. |
| Pipeline.LoadFromRecords | bin/libs_py/model.py:238-245 | Loading the saved records from position i on completes the cards already loaded into all of them. |
| Pipeline.SaveLoadRoundTrip | bin/libs_py/model.py:214-245 | Loading what was saved gives back the same cards in the same order. |
| Pipeline.LoadWithoutOptionalFields | bin/libs_py/model.py:238-245 | A record with only a prompt and an answer loads with category and difficulty `None`. |
| Pipeline.AnalyzeDocs.FlashcardsToJson | bin/libs_py/model.py:265-282 | The loop produces one four-field record per card, in order. These are the records the round-trip lemma loads back. |
| Pipeline.AnalyzeDocs.SaveFlashcards | bin/libs_py/model.py:207-224 | The named file holds the cards' records, and every other file is unchanged. |
| Pipeline.AnalyzeDocs.LoadFlashcards | bin/libs_py/model.py:226-246 | A missing file raises `FileNotFoundError`. Otherwise the loop gives what `LoadCards` gives on the file's contents. |
| Pipeline.AnalyzeDocs.GenerateFlashcards | bin/libs_py/model.py:248-263 | A given language replaces the target language, not lower-cased. The cards are those of `process_document`. They are saved exactly when `save_to` is a non-empty name. |
| Pipeline.AnalyzeDocs.GenerateFlashcardsFromFile | bin/libs_py/model.py:284-297 | A missing file raises before any call. Otherwise the file's text goes through `generate_flashcards` with the language kept and `save_to` passed on. |
| Pipeline.JoinPath | bin/libs_py/model.py:342 | POSIX `os.path.join` of the data directory and the file name. An absolute name replaces the directory. |
| Pipeline.DefaultReaderPaths | bin/libs_py/model.py:299-342 | With the default `data_dir="input"`, a relative file name is read from `input/<name>` and an absolute one as given, for PDF and text alike. |
| Pipeline.ReadDocument | bin/libs_py/model.py:332-348 | The type "pdf" reads the joined path with OCR. The type "text" reads it, or raises `FileNotFoundError` when it is missing. Any other type raises `ValueError`. |
| Generation.GroqClient.Create | bin/libs_py/model.py:40-45 | One call consumes the next scripted reply and records the request. |
| LegacyPipeline.Ask | bin/model.py:16-22 | One call and no retry. A successful call returns the reply's content. A failed call raises, and the failure reaches the caller. |
| LegacyPipeline.AskIsOneAttempt | bin/model.py:16-22 | The legacy call behaves like the canonical wrapper with a single attempt, except that its failure is the service's own error. |
| LegacyPipeline.AnalyzeDocs.constructor | bin/model.py:12-14 | The target language is kept as given, without lower-casing. |
| LegacyPipeline.AnalyzeDocs.GenerateWithGroq | bin/model.py:16-22 | The method makes exactly one call, as `LegacyPipeline.Ask` states. |
| LegacyPipeline.AnalyzeDocs.SummarizeText | bin/model.py:24-30 | One summary request, as specified. |
| LegacyPipeline.QAPairsSpec | bin/model.py:32-48 | One call. A failure raises. A reply is trimmed to its bracketed part and decoded, and an undecodable reply gives the empty list. |
| LegacyPipeline.AnalyzeDocs.GenerateQAPairs | bin/model.py:32-48 | The method matches `LegacyPipeline.QAPairsSpec`. |
| LegacyPipeline.TranslateSpec | bin/model.py:50-59 | English is the identity with no call. Any other language is one call. |
| LegacyPipeline.AnalyzeDocs.TranslateContent | bin/model.py:50-59 | The method matches `LegacyPipeline.TranslateSpec`. |
| LegacyPipeline.BuildCards | bin/model.py:67-76 | The legacy card loop, with no catch: the first exception escapes. Its properties are the legacy `BuildCards…` lemmas. |
| LegacyPipeline.ProcessDocumentSpec | bin/model.py:61-78 | Summarise, generate the pairs, then build one dict per pair. Every exception reaches the caller. |
| LegacyPipeline.BuildCardsFit | bin/model.py:67-76 | A successful loop gives one card per pair, in order. Each card is a dict with exactly the keys `prompt` and `answer`, and in English it holds the pair's own question and answer. |
| LegacyPipeline.BuildCardsEnglish | bin/model.py:67-76 | In English, well-formed pairs give their cards with no call. |
| LegacyPipeline.ProcessDocumentCards | bin/model.py:61-78 | A successful run had a successful summary, pair list and iteration, and its cards fit the pairs one by one. |
| LegacyPipeline.MalformedPairRaisesHere | bin/model.py:68-70 | A pair without a question or an answer raises in the legacy pipeline, while the canonical one returns the empty list. |
| LegacyPipeline.AnalyzeDocs.ProcessDocument | bin/model.py:61-78 | The imperative loop matches `LegacyPipeline.ProcessDocumentSpec`. Nothing is caught. |
| StudySession.JsRem | bin/src/components/FlashcardList.tsx:19 | JavaScript's `%`: the remainder takes the sign of the dividend, its size is below the divisor's, and the two differ by a multiple of the divisor. |
| StudySession.NextIndex | bin/src/components/FlashcardList.tsx:19 | `(currentIndex + 1) % length`, which stays on a card. |
| StudySession.PreviousIndex | bin/src/components/FlashcardList.tsx:24 | `(currentIndex - 1 + length) % length`, which stays on a card. |
| StudySession.NextWraps | bin/src/components/FlashcardList.tsx:17-20 | Next moves one card on, and from the last card goes to the first. |
| StudySession.PreviousWraps | bin/src/components/FlashcardList.tsx:22-25 | Previous moves one card back, and from the first card goes to the last. |
| StudySession.NextPreviousInverse | bin/src/components/FlashcardList.tsx:17-25 | Next and previous undo each other. |
| StudySession.Toggled | bin/src/components/FlashcardList.tsx:27-37 | The toggled index changes membership and no other index does. |
| StudySession.ToggleTwice | bin/src/components/FlashcardList.tsx:27-37 | Toggling twice restores the set. |
| StudySession.MasteredBound | bin/src/components/FlashcardList.tsx:128-129 | A set of card indices has at most as many members as there are cards. |
| StudySession.Step | bin/src/components/FlashcardList.tsx:17-60 | One user action. Only toggling changes the mastered set. Toggling and flipping keep the index. Moving unflips the card. Toggling keeps the flip. |
| StudySession.StepKeepsValid | bin/src/components/FlashcardList.tsx:17-37 | Every user action keeps the index on a card and the mastered set within the cards. |
| StudySession.RunKeepsValid | bin/src/components/FlashcardList.tsx:10-37 | Any sequence of actions keeps the session valid, with at most n cards mastered. |
| StudySession.FlashcardList.constructor | bin/src/components/FlashcardList.tsx:10-12 | The list starts on card 0, unflipped, with nothing mastered. |
| StudySession.FlashcardList.CurrentCard | bin/src/components/FlashcardList.tsx:14 | The card on show is one of the cards. |
| StudySession.FlashcardList.MasteredCount | bin/src/components/FlashcardList.tsx:128 | The "Mastered" count (the size of the mastered set) never exceeds the number of cards in a valid state. `Remaining` says it adds up with the remaining count to the number of cards. |
| StudySession.FlashcardList.Remaining | bin/src/components/FlashcardList.tsx:129 | "Remaining" is never negative, and Mastered + Remaining is the number of cards. |
| StudySession.FlashcardList.HandleNext | bin/src/components/FlashcardList.tsx:17-20 | Moves to the next card with wrap-around, unflips, and keeps the mastered set. |
| StudySession.FlashcardList.HandlePrevious | bin/src/components/FlashcardList.tsx:22-25 | Moves to the previous card with wrap-around, unflips, and keeps the mastered set. |
| StudySession.FlashcardList.ToggleMastered | bin/src/components/FlashcardList.tsx:27-37 | Toggles only the current index and keeps the index and the flip. |
| StudySession.FlashcardList.Flip | bin/src/components/FlashcardList.tsx:60 | Negates the flip and nothing else. |
| Upload.ValidationError | bin/src/components/FileUpload.tsx:23-33 | A file passes exactly when it is at most 5 MiB and is a PDF or plain text. The size is reported before the type. |
| Upload.SizeLimitIsInclusive | bin/src/components/FileUpload.tsx:11-27 | Exactly 5·1024·1024 bytes passes and one byte more fails. An oversized file of the wrong type reports its size. |
| Upload.Preview | bin/src/components/FileUpload.tsx:35-42 | A text file shows its first 200 characters, with "..." when it is longer. Any other file shows nothing. |
| Upload.PreviewBounded | bin/src/components/FileUpload.tsx:36-38 | A preview has at most 203 characters and starts with the text's beginning. |
| Upload.FileUpload.constructor | bin/src/components/FileUpload.tsx:14-20 | The form's initial state. |
| Upload.FileUpload.ValidateFile | bin/src/components/FileUpload.tsx:23-33 | Returns whether the file passes. A failing file sets the matching message, and nothing else changes. |
| Upload.FileUpload.GeneratePreview | bin/src/components/FileUpload.tsx:35-42 | Sets the preview to `Preview(f)` and changes nothing else. |
| Upload.FileUpload.HandleFileChange | bin/src/components/FileUpload.tsx:44-53 | A valid chosen file is taken, clears the error and sets the preview. An invalid one only sets the error. No file changes nothing. |
| Upload.FileUpload.HandleDrop | bin/src/components/FileUpload.tsx:116-127 | A dropped file has the same effects as a chosen file. |
| Upload.FileUpload.HandleUpload | bin/src/components/FileUpload.tsx:55-90 | Without a file nothing is sent and nothing changes. Otherwise the request carries the file, language, count and bearer header. Cards received are kept and passed on, a failure sets the upload message, and `uploading` is false at the end. |
| Upload.FileUpload.HandleDownload | bin/src/components/FileUpload.tsx:92-109 | No cards gives no download. Otherwise the cards are offered as `flashcards.json`. |
| Auth.Apply | bin/src/context/AuthContext.tsx:18-30 | Login sets the flag and the token. Logout restores the signed-out record. Either way the flag and the token agree. |
| Auth.LogoutIdempotent | bin/src/context/AuthContext.tsx:25-30 | Logging out twice is logging out once. |
| Auth.ApplyAllConsistent | bin/src/context/AuthContext.tsx:13-30 | From a consistent record, any sequence of logins and logouts keeps the flag and the token in agreement, and the last action decides the record. |
| Auth.AuthProvider.constructor | bin/src/context/AuthContext.tsx:13-16 | The provider starts signed out, with no token. |
| Auth.AuthProvider.Login | bin/src/context/AuthContext.tsx:18-23 | After login the user is authenticated with the given token. |
| Auth.AuthProvider.Logout | bin/src/context/AuthContext.tsx:25-30 | After logout the user is signed out with no token. |
| Auth.UseAuth | bin/src/context/AuthContext.tsx:39-44 | The hook throws the provider message exactly when there is no provider, and otherwise returns the provider's value. |

## Left out

- The prompts, the model names and the sampling temperature are replaced by request tags (`Generation.Task`). The replies are an arbitrary script, because the service is outside the program.
- The `GROQ_API_KEY` check in the constructor (bin/libs_py/model.py:24-26) reads the environment, so it is not modelled. The constructor never raises here.
- `json.loads` is a parameter `parse`. Writing JSON text is modelled as storing the record list in `Disk.files`, and indentation and file handles are not modelled.
- `read_pdf` (Poppler page rendering and Tesseract OCR) is a parameter `ocr`. Text files are a map from path to contents, and encoding errors are not modelled.
- Python numbers are Dafny integers. Floating-point values are not modelled, and neither is the progress percentage (bin/src/components/FlashcardList.tsx:15).
- Pipeline.AnalyzeDocs.ProcessDocument: the concepts are joined into the prompt text. The model only records whether the join succeeds (`TypeError` otherwise), not the joined text, because the prompt text is not modelled.
- Values.Elements: a dict yields every key in its association list, so a repeated key is yielded twice. A Python dict holds each key once.
- Upload.Preview: lengths count Dafny characters, not JavaScript's UTF-16 code units.
- Text.Lower: only ASCII letters are lower-cased, while Python's `str.lower` is Unicode-aware.
- Exception messages (such as the attempt count and cause of the generation error) are reduced to the error kind. The `print` warnings are not modelled.
- The `main.py` drivers, including their `read_pdf` and `read_text` helpers (bin/main.py:10,16 and bin/libs_py/main.py:7,14), `bin/libs_py/api.py` (the HTTP façade) and the `pdf_test.py` scripts are not part of this model.
- The front end's rendering, toasts, `fetch`, `Blob` creation, the `setLanguage`/`setNumFlashcards` input handlers, the parent callbacks, `await`, and React's batching of state updates are left out. Each handler is modelled as one atomic update of the component's state. The server's answer to an upload is a parameter.
- StudySession.FlashcardList.constructor, StudySession.FlashcardList.Remaining: the deck is fixed for the component's life. bin/src/App.tsx:20 re-renders the same `FlashcardList` without a `key` after each upload, so React keeps `currentIndex` and `mastered` when a new deck arrives. A new deck on the same component is not modelled. With a shorter deck, the current card would be undefined (bin/src/components/FlashcardList.tsx:14) and "Remaining" could go negative (bin/src/components/FlashcardList.tsx:129).
- StudySession.FlashcardList.constructor: it requires at least one card, because the list is shown only when there are cards (bin/src/App.tsx:20). An empty list is not modelled.
- Upload.FileUpload.HandleUpload: the model takes the upload's answer to be the array of cards, as bin/src/components/FileUpload.tsx:80 declares. The back end in this repository answers with an object, `{"flashcards": [...]}` (bin/libs_py/api.py:116). Against that back end `flashcards.length` is undefined, so the download guard (bin/src/components/FileUpload.tsx:93) does not fire and the list is never shown (bin/src/App.tsx:20). The model does not capture this mismatch.
- Upload.FileUpload.HandleUpload: the request keeps the card count as an integer, without its conversion to decimal text.
- The generation service's reply content is always a string. The client library's `None` content is not modelled.
