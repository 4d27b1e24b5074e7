/** The canonical document-to-flash-cards pipeline (`AnalyzeDocs` and `ReadDocs`):
    a retrying wrapper around the generation service, the prompt stages built on
    it, card assembly, the card store, and the document-type dispatch. */
module Pipeline {
  import opened Wrappers
  import opened Values
  import opened Text
  import opened Generation

  /** The attempt count every caller of the retry wrapper uses. */
  const DefaultRetries := 3

  /** A flash card. Its fields hold whatever Python values the pipeline put there;
      `Null` stands for `None`. */
  datatype FlashCard = FlashCard(prompt: Value, answer: Value, category: Value, difficulty: Value)

  // ---------------------------------------------------------------------------
  // The retry wrapper

  /** The attempt loop of `generate_with_groq` from attempt number `attempt` on:
      its outcome and the number of calls made by its end. `Done(None)` is the
      implicit `return None` after a loop that ran no iteration. */
  function Attempts(pending: seq<Reply>, retryCount: int, attempt: nat): (r: (Outcome<Option<string>>, nat))
    ensures attempt <= r.1
    ensures attempt < retryCount ==> r.1 <= retryCount && !(r.0.Done? && r.0.value.None?)
    ensures attempt >= retryCount ==> r == (Done(None), attempt)
    ensures forall k :: attempt <= k < r.1 - 1 ==> ReplyAt(pending, k).Fail?
    ensures r.0.Done? && r.0.value.Some? ==> attempt < r.1 && ReplyAt(pending, r.1 - 1) == Ok(r.0.value.value)
    ensures r.0.Raised? ==> r.0.error == GenerationError(retryCount) && r.1 == retryCount
                            && ReplyAt(pending, retryCount - 1).Fail?
    decreases retryCount - attempt
  {
    if attempt >= retryCount then (Done(None), attempt)
    else match ReplyAt(pending, attempt)
      case Ok(content) => (Done(Some(content)), attempt + 1)
      case Fail =>
        if attempt == retryCount - 1 then (Raised(GenerationError(retryCount)), attempt + 1)
        else Attempts(pending, retryCount, attempt + 1)
  }

  /** `generate_with_groq(messages, retry_count)` against the service `svc`: the
      outcome and the service afterwards. */
  function Retry(svc: Service, req: Request, retryCount: int): (Outcome<Option<string>>, Service) {
    var (out, calls) := Attempts(svc.pending, retryCount, 0);
    (out, AfterCalls(svc, req, calls))
  }

  /** The wrapper returns the content of the first successful attempt, after exactly
      the calls up to and including it. */
  lemma RetryReturnsFirstSuccess(svc: Service, req: Request, retryCount: int, k: nat)
    requires k < retryCount
    requires forall j :: 0 <= j < k ==> ReplyAt(svc.pending, j).Fail?
    requires ReplyAt(svc.pending, k).Ok?
    ensures Retry(svc, req, retryCount) == (Done(Some(ReplyAt(svc.pending, k).content)), AfterCalls(svc, req, k + 1))
  {
  }

  /** When every one of the `retryCount` attempts fails, the wrapper raises a
      generation error after exactly `retryCount` calls. */
  lemma RetryRaisesAfterAllFail(svc: Service, req: Request, retryCount: int)
    requires retryCount > 0
    requires forall j :: 0 <= j < retryCount ==> ReplyAt(svc.pending, j).Fail?
    ensures Retry(svc, req, retryCount) == (Raised(GenerationError(retryCount)), AfterCalls(svc, req, retryCount))
  {
  }

  /** With no attempt allowed, the wrapper makes no call and returns None. */
  lemma RetryWithoutAttempts(svc: Service, req: Request, retryCount: int)
    requires retryCount <= 0
    ensures Retry(svc, req, retryCount) == (Done(None), svc)
  {
    assert Drop(svc.pending, 0) == svc.pending;
    assert svc.sent + Repeat(req, 0) == svc.sent;
  }

  /** The wrapper's content as a Python value. */
  function ContentValue(out: Outcome<Option<string>>): (r: Outcome<Value>)
    ensures r.Raised? <==> out.Raised?
    ensures r.Raised? ==> r.error == out.error
    ensures r.Done? ==> r.value == AsValue(out.value)
  {
    match out
    case Done(content) => Done(AsValue(content))
    case Raised(e) => Raised(e)
  }

  /** `self.generate_with_groq(messages)`, as every prompt stage calls it. */
  function Ask(svc: Service, req: Request): (r: (Outcome<Value>, Service))
    ensures r.0.Done? ==> r.0.value.Str?
  {
    var (out, after) := Retry(svc, req, DefaultRetries);
    (ContentValue(out), after)
  }

  // ---------------------------------------------------------------------------
  // Prompt stages

  /** `extract_key_concepts(text)`. */
  function KeyConceptsSpec(text: string, parse: string -> Option<Value>, svc: Service): (r: (Outcome<Value>, Service))
    ensures r.1 == Ask(svc, Request(KeyConcepts, Str(text))).1
    ensures r.0.Raised? <==> Ask(svc, Request(KeyConcepts, Str(text))).0.Raised?
    ensures r.0.Done? ==> r.0.value == parse(Ask(svc, Request(KeyConcepts, Str(text))).0.value.s).GetOr(List([]))
    ensures r.0.Done? && parse(Ask(svc, Request(KeyConcepts, Str(text))).0.value.s).None? ==> r.0.value == List([])
  {
    var (response, after) := Ask(svc, Request(KeyConcepts, Str(text)));
    match response
    case Raised(e) => (Raised(e), after)
    case Done(v) =>
      match Decode(parse, v)
      case Raised(e) => (Raised(e), after)
      case Done(decoded) => (Done(decoded.GetOr(List([]))), after)
  }

  /** `generate_qa_pairs(summary)`: the response is trimmed to its bracketed part
      before decoding; an undecodable one gives the empty list. */
  function QAPairsSpec(summary: Value, parse: string -> Option<Value>, svc: Service): (r: (Outcome<Value>, Service))
    ensures r.1 == Ask(svc, Request(QuestionAnswers, summary)).1
    ensures r.0.Raised? <==> Ask(svc, Request(QuestionAnswers, summary)).0.Raised?
    ensures r.0.Done? ==>
              var s := Ask(svc, Request(QuestionAnswers, summary)).0.value.s;
              r.0.value == parse(LenientArrayText(s)).GetOr(List([]))
  {
    var (response, after) := Ask(svc, Request(QuestionAnswers, summary));
    match response
    case Raised(e) => (Raised(e), after)
    case Done(v) =>
      if v.Str? then (Done(parse(LenientArrayText(v.s)).GetOr(List([]))), after)
      else (Raised(AttributeError), after)
  }

  /** A response without a `[` followed later by a `]` gives no pairs, for any decoder
      that rejects the texts "" and "]" (as `json.loads` does). */
  lemma QAPairsWithoutArray(summary: Value, parse: string -> Option<Value>, svc: Service)
    requires parse("") == None && parse("]") == None
    requires var response := Ask(svc, Request(QuestionAnswers, summary)).0;
             response.Done? && !(0 <= Find(Strip(response.value.s), '[') < RFind(Strip(response.value.s), ']'))
    ensures QAPairsSpec(summary, parse, svc).0 == Done(List([]))
  {
    NoArrayDecodesBareText(Ask(svc, Request(QuestionAnswers, summary)).0.value.s);
  }

  /** `translate_content(content)` for the target language `language`. */
  function TranslateSpec(language: string, content: Value, svc: Service): (r: (Outcome<Value>, Service))
  {
    if IsEnglish(language) then (Done(content), svc)
    else Ask(svc, Request(Translate(language), content))
  }

  /** Whether `', '.join(concepts)` succeeds: what it iterates over must be strings. */
  predicate Joinable(concepts: Value) {
    var elements := Elements(concepts);
    elements.Done? && forall k :: 0 <= k < |elements.value| ==> elements.value[k].Str?
  }

  // ---------------------------------------------------------------------------
  // Card assembly

  predicate IsPair(item: Value) {
    HasKey(item, "question") && HasKey(item, "answer")
  }

  /** `qa.get('difficulty', 'medium')` */
  function DifficultyOf(item: Value): Value
    requires item.Dict?
  {
    Lookup(item.fields, "difficulty").GetOr(Str("medium"))
  }

  /** A translation step as the card loop sees it: from the content and the service,
      the translated content (or the exception raised) and the service afterwards. */
  type Translation = (Value, Service) -> (Outcome<Value>, Service)

  /** `self.translate_content` for the target language `language`. */
  function Translator(language: string): Translation {
    (content: Value, svc: Service) => TranslateSpec(language, content, svc)
  }

  /** A translation that gives its content back and makes no call. */
  ghost predicate IsIdentity(translate: Translation) {
    forall content: Value, svc: Service :: translate(content, svc) == (Done(content), svc)
  }

  /** A translation that, when the service's next reply succeeds, returns that
      reply's text after sending the one translation request for `language`. */
  ghost predicate AnswersFirst(language: string, translate: Translation) {
    forall content: Value, svc: Service :: ReplyAt(svc.pending, 0).Ok? ==>
      translate(content, svc) == (Done(Str(ReplyAt(svc.pending, 0).content)),
                                  Service(Drop(svc.pending, 1), svc.sent + [Request(Translate(language), content)]))
  }

  /** In English, `translate_content` returns its content without a call. */
  lemma TranslatorInEnglish(language: string)
    requires IsEnglish(language)
    ensures IsIdentity(Translator(language))
  {
  }

  /** In another language, `translate_content` returns the first reply when it
      succeeds, after exactly one call. */
  lemma TranslatorAnswersFirst(language: string)
    requires !IsEnglish(language)
    ensures AnswersFirst(language, Translator(language))
  {
    forall content: Value, svc: Service | ReplyAt(svc.pending, 0).Ok?
      ensures Translator(language)(content, svc)
              == (Done(Str(ReplyAt(svc.pending, 0).content)),
                  Service(Drop(svc.pending, 1), svc.sent + [Request(Translate(language), content)]))
    {
      var req := Request(Translate(language), content);
      RetryReturnsFirstSuccess(svc, req, DefaultRetries, 0);
      assert Repeat(req, 1) == [req];
    }
  }

  /** One pass of the loop body of `process_document` on the pair `item`, with the
      translation `translate`: the card it builds and the service afterwards, or the
      exception it raises. A card that is built comes from a well-formed pair and
      carries the category and the pair's difficulty. */
  function CardFrom(translate: Translation, category: Value, item: Value, svc: Service)
    : (r: (Outcome<FlashCard>, Service))
    ensures r.0.Done? ==> IsPair(item) && r.0.value.category == category && r.0.value.difficulty == DifficultyOf(item)
  {
    match Subscript(item, "question")
    case Raised(e) => (Raised(e), svc)
    case Done(question) =>
      var (prompt, s1) := translate(question, svc);
      match prompt
      case Raised(e) => (Raised(e), s1)
      case Done(p) =>
        match Subscript(item, "answer")
        case Raised(e) => (Raised(e), s1)
        case Done(answer) =>
          var (translated, s2) := translate(answer, s1);
          match translated
          case Raised(e) => (Raised(e), s2)
          case Done(a) => (Done(FlashCard(p, a, category, Get(item, "difficulty", Str("medium")).value)), s2)
  }

  /** Without translation, a well-formed pair becomes the card holding its own
      question and answer, and no call is made. */
  lemma CardFromIdentity(translate: Translation, category: Value, item: Value, svc: Service)
    requires IsIdentity(translate) && IsPair(item)
    ensures CardFrom(translate, category, item, svc)
            == (Done(FlashCard(Lookup(item.fields, "question").value, Lookup(item.fields, "answer").value,
                               category, DifficultyOf(item))), svc)
  {
    var question := Lookup(item.fields, "question").value;
    var answer := Lookup(item.fields, "answer").value;
    assert translate(question, svc) == (Done(question), svc);
    assert translate(answer, svc) == (Done(answer), svc);
  }

  /** Applying `Translator(language)` is calling `translate_content`. */
  lemma TranslatorApplies(language: string, content: Value, svc: Service)
    ensures Translator(language)(content, svc) == TranslateSpec(language, content, svc)
  {
  }

  /** The loop of `process_document` over the decoded pairs, from `items[i]` on,
      with the cards `acc` built so far. */
  function BuildCards(translate: Translation, category: Value, items: seq<Value>, i: nat, acc: seq<FlashCard>,
                      svc: Service): (Outcome<seq<FlashCard>>, Service)
    requires i <= |items|
    decreases |items| - i
  {
    if i == |items| then (Done(acc), svc)
    else
      var (card, after) := CardFrom(translate, category, items[i], svc);
      match card
      case Raised(e) => (Raised(e), after)
      case Done(c) => BuildCards(translate, category, items, i + 1, acc + [c], after)
  }

  /** One turn of the loop: the card of `items[i]` is added, or its exception ends
      the loop with the service as the card left it. */
  lemma BuildCardsStep(translate: Translation, category: Value, items: seq<Value>, i: nat, acc: seq<FlashCard>,
                       svc: Service)
    requires i < |items|
    ensures var (card, after) := CardFrom(translate, category, items[i], svc);
            BuildCards(translate, category, items, i, acc, svc)
            == if card.Done? then BuildCards(translate, category, items, i + 1, acc + [card.value], after)
               else (Raised(card.error), after)
  {
  }

  /** The `try` block of `process_document` around that loop: any exception, while
      iterating or while building a card, gives the empty list. */
  function AssembleCards(language: string, category: Value, qa: Value, svc: Service): (Outcome<seq<FlashCard>>, Service) {
    match Elements(qa)
    case Raised(_) => (Done([]), svc)
    case Done(items) =>
      var (built, after) := BuildCards(Translator(language), category, items, 0, [], svc);
      (if built.Done? then built else Done([]), after)
  }

  /** A card fits a decoded pair: the pair has a question and an answer, and the card
      carries the document's category, the pair's difficulty (or "medium") and, in
      English, the pair's own question and answer. */
  predicate Fits(language: string, category: Value, item: Value, card: FlashCard) {
    && IsPair(item)
    && card.category == category
    && card.difficulty == DifficultyOf(item)
    && (IsEnglish(language) ==>
          && card.prompt == Lookup(item.fields, "question").value
          && card.answer == Lookup(item.fields, "answer").value)
  }

  /** One card per pair, in order, each fitting its pair. */
  predicate AllFit(language: string, category: Value, items: seq<Value>, cards: seq<FlashCard>) {
    |cards| == |items| && forall k :: 0 <= k < |items| ==> Fits(language, category, items[k], cards[k])
  }

  /** The loop keeps the cards built so far and adds one per remaining item. */
  lemma {:induction false} BuildCardsExtends(translate: Translation, category: Value, items: seq<Value>, i: nat,
                                             acc: seq<FlashCard>, svc: Service)
    requires i <= |items|
    ensures var out := BuildCards(translate, category, items, i, acc, svc).0;
            out.Done? ==> |out.value| == |acc| + |items| - i && out.value[..|acc|] == acc
    decreases |items| - i
  {
    if i < |items| {
      var (card, after) := CardFrom(translate, category, items[i], svc);
      if card.Done? {
        BuildCardsExtends(translate, category, items, i + 1, acc + [card.value], after);
        var out := BuildCards(translate, category, items, i + 1, acc + [card.value], after).0;
        if out.Done? {
          assert out.value[..|acc|] == out.value[..|acc| + 1][..|acc|];
        }
      }
    }
  }

  /** A loop that completes has found a question and an answer in every item, and
      every card it added fits its item; in English the translation is the identity. */
  lemma {:induction false} BuildCardsFit(language: string, translate: Translation, category: Value,
                                         items: seq<Value>, i: nat, acc: seq<FlashCard>, svc: Service)
    requires i <= |items|
    requires IsEnglish(language) ==> IsIdentity(translate)
    requires AllFit(language, category, items[..i], acc)
    ensures var out := BuildCards(translate, category, items, i, acc, svc).0;
            out.Done? ==> AllFit(language, category, items, out.value)
    decreases |items| - i
  {
    if i == |items| {
      assert items[..i] == items;
    } else {
      var (card, after) := CardFrom(translate, category, items[i], svc);
      if card.Done? {
        if IsEnglish(language) {
          CardFromIdentity(translate, category, items[i], svc);
        }
        assert Fits(language, category, items[i], card.value);
        assert AllFit(language, category, items[..i + 1], acc + [card.value]) by {
          assert items[..i + 1] == items[..i] + [items[i]];
        }
        BuildCardsFit(language, translate, category, items, i + 1, acc + [card.value], after);
      }
    }
  }

  /** Without translation, a list of well-formed pairs becomes cards without a single
      call to the service. */
  lemma {:induction false} BuildCardsEnglish(translate: Translation, category: Value, items: seq<Value>, i: nat,
                                             acc: seq<FlashCard>, svc: Service)
    requires i <= |items|
    requires IsIdentity(translate)
    requires forall k :: i <= k < |items| ==> IsPair(items[k])
    ensures BuildCards(translate, category, items, i, acc, svc).0.Done?
    ensures BuildCards(translate, category, items, i, acc, svc).1 == svc
    decreases |items| - i
  {
    if i < |items| {
      assert IsPair(items[i]);
      CardFromIdentity(translate, category, items[i], svc);
      var (card, after) := CardFrom(translate, category, items[i], svc);
      BuildCardsEnglish(translate, category, items, i + 1, acc + [card.value], svc);
    }
  }

  /** The requests sent for the cards from `items[i]` on, when every translation
      succeeds at its first attempt: the question, then the answer, pair by pair. */
  function TranslationRequests(language: string, items: seq<Value>, i: nat): (r: seq<Request>)
    requires i <= |items|
    requires forall k :: i <= k < |items| ==> IsPair(items[k])
    ensures |r| == 2 * (|items| - i)
    decreases |items| - i
  {
    if i == |items| then []
    else
      assert IsPair(items[i]);
      [Request(Translate(language), Lookup(items[i].fields, "question").value),
       Request(Translate(language), Lookup(items[i].fields, "answer").value)]
      + TranslationRequests(language, items, i + 1)
  }

  /** When both translations of a well-formed pair succeed at their first attempt,
      the card holds the two replies, and the service has consumed them and recorded
      the two requests. */
  lemma CardFromTranslated(language: string, translate: Translation, category: Value, item: Value, svc: Service)
    requires AnswersFirst(language, translate) && IsPair(item)
    requires ReplyAt(svc.pending, 0).Ok? && ReplyAt(svc.pending, 1).Ok?
    ensures var rq := Request(Translate(language), Lookup(item.fields, "question").value);
            var ra := Request(Translate(language), Lookup(item.fields, "answer").value);
            var card := FlashCard(Str(ReplyAt(svc.pending, 0).content), Str(ReplyAt(svc.pending, 1).content),
                                  category, DifficultyOf(item));
            CardFrom(translate, category, item, svc) == (Done(card), Service(Drop(svc.pending, 2), svc.sent + [rq, ra]))
  {
    var question := Lookup(item.fields, "question").value;
    var rq := Request(Translate(language), question);
    var ra := Request(Translate(language), Lookup(item.fields, "answer").value);
    var s1 := Service(Drop(svc.pending, 1), svc.sent + [rq]);
    assert translate(question, svc) == (Done(Str(ReplyAt(svc.pending, 0).content)), s1);
    assert ReplyAt(s1.pending, 0) == ReplyAt(svc.pending, 1);
    DropDrop(svc.pending, 1, 1);
    assert svc.sent + [rq] + [ra] == svc.sent + [rq, ra];
  }

  /** The service gave a reply, and `v` is its text. */
  predicate Answered(v: Value, reply: Reply) {
    reply.Ok? && v == Str(reply.content)
  }

  /** From card `i` on, each card's prompt and answer are the texts of the replies
      `2 * (k - i)` and `2 * (k - i) + 1` of `pending`. */
  predicate RepliesFrom(cards: seq<FlashCard>, pending: seq<Reply>, i: nat)
    requires i <= |cards|
  {
    forall k :: i <= k < |cards| ==>
      && Answered(cards[k].prompt, ReplyAt(pending, 2 * (k - i)))
      && Answered(cards[k].answer, ReplyAt(pending, 2 * (k - i) + 1))
  }

  lemma RepliesFromShift(cards: seq<FlashCard>, pending: seq<Reply>, i: nat)
    requires i < |cards|
    requires RepliesFrom(cards, Drop(pending, 2), i + 1)
    requires Answered(cards[i].prompt, ReplyAt(pending, 0))
    requires Answered(cards[i].answer, ReplyAt(pending, 1))
    ensures RepliesFrom(cards, pending, i)
  {
    forall k | i + 1 <= k < |cards|
      ensures Answered(cards[k].prompt, ReplyAt(pending, 2 * (k - i)))
      ensures Answered(cards[k].answer, ReplyAt(pending, 2 * (k - i) + 1))
    {
      assert Answered(cards[k].prompt, ReplyAt(Drop(pending, 2), 2 * (k - (i + 1))));
      assert Answered(cards[k].answer, ReplyAt(Drop(pending, 2), 2 * (k - (i + 1)) + 1));
    }
  }

  /** When the service answers every translation at its first attempt, the loop
      succeeds with one card per pair, and each card's prompt and answer are the
      texts of the two replies given for that pair, in order. */
  lemma {:induction false} BuildCardsTranslated(language: string, translate: Translation, category: Value,
                                                items: seq<Value>, i: nat, acc: seq<FlashCard>, svc: Service)
    requires i <= |items| && |acc| == i
    requires AnswersFirst(language, translate)
    requires forall k :: i <= k < |items| ==> IsPair(items[k])
    requires forall j: nat :: j < 2 * (|items| - i) ==> ReplyAt(svc.pending, j).Ok?
    ensures var out := BuildCards(translate, category, items, i, acc, svc).0;
            && out.Done? && |out.value| == |items|
            && RepliesFrom(out.value, svc.pending, i)
    decreases |items| - i
  {
    if i < |items| {
      var item := items[i];
      assert IsPair(item);
      assert ReplyAt(svc.pending, 0).Ok? && ReplyAt(svc.pending, 1).Ok?;
      var rq := Request(Translate(language), Lookup(item.fields, "question").value);
      var ra := Request(Translate(language), Lookup(item.fields, "answer").value);
      var card := FlashCard(Str(ReplyAt(svc.pending, 0).content), Str(ReplyAt(svc.pending, 1).content),
                            category, DifficultyOf(item));
      var s2 := Service(Drop(svc.pending, 2), svc.sent + [rq, ra]);
      CardFromTranslated(language, translate, category, item, svc);
      AnsweredAfterTwo(svc.pending, 2 * (|items| - (i + 1)));
      BuildCardsTranslated(language, translate, category, items, i + 1, acc + [card], s2);
      BuildCardsExtends(translate, category, items, i + 1, acc + [card], s2);
      var out := BuildCards(translate, category, items, i + 1, acc + [card], s2).0;
      LastAppended(acc, card, out.value);
      RepliesFromShift(out.value, svc.pending, i);
    }
  }

  /** In the same case, the loop sends exactly the translation requests of the
      questions and answers, pair by pair, and consumes exactly their replies. */
  lemma {:induction false} BuildCardsTranslatedRequests(language: string, translate: Translation, category: Value,
                                                        items: seq<Value>, i: nat, acc: seq<FlashCard>, svc: Service)
    requires i <= |items|
    requires AnswersFirst(language, translate)
    requires forall k :: i <= k < |items| ==> IsPair(items[k])
    requires forall j: nat :: j < 2 * (|items| - i) ==> ReplyAt(svc.pending, j).Ok?
    ensures BuildCards(translate, category, items, i, acc, svc).1
            == Service(Drop(svc.pending, 2 * (|items| - i)), svc.sent + TranslationRequests(language, items, i))
    decreases |items| - i
  {
    if i == |items| {
      assert Drop(svc.pending, 0) == svc.pending;
    } else {
      var item := items[i];
      assert IsPair(item);
      assert ReplyAt(svc.pending, 0).Ok? && ReplyAt(svc.pending, 1).Ok?;
      var rq := Request(Translate(language), Lookup(item.fields, "question").value);
      var ra := Request(Translate(language), Lookup(item.fields, "answer").value);
      var card := FlashCard(Str(ReplyAt(svc.pending, 0).content), Str(ReplyAt(svc.pending, 1).content),
                            category, DifficultyOf(item));
      var s2 := Service(Drop(svc.pending, 2), svc.sent + [rq, ra]);
      CardFromTranslated(language, translate, category, item, svc);
      AnsweredAfterTwo(svc.pending, 2 * (|items| - (i + 1)));
      BuildCardsTranslatedRequests(language, translate, category, items, i + 1, acc + [card], s2);
      TranslationRequestsCons(language, items, i);
      var m := 2 * (|items| - (i + 1));
      var after := BuildCards(translate, category, items, i + 1, acc + [card], s2).1;
      AfterTwoThenRest(svc.pending, svc.sent, [rq, ra], TranslationRequests(language, items, i + 1), m, after);
      assert 2 + m == 2 * (|items| - i);
    }
  }

  /** When the first `n + 2` replies succeed, the first `n` after two calls do. */
  lemma AnsweredAfterTwo(pending: seq<Reply>, n: nat)
    requires forall j: nat :: j < n + 2 ==> ReplyAt(pending, j).Ok?
    ensures forall j: nat :: j < n ==> ReplyAt(Drop(pending, 2), j).Ok?
  {
    forall j: nat | j < n ensures ReplyAt(Drop(pending, 2), j).Ok? {
      assert ReplyAt(Drop(pending, 2), j) == ReplyAt(pending, j + 2);
    }
  }

  /** A sequence extending `acc + [card]` holds `card` at position `|acc|`. */
  lemma LastAppended(acc: seq<FlashCard>, card: FlashCard, out: seq<FlashCard>)
    requires |out| > |acc| && out[..|acc| + 1] == acc + [card]
    ensures out[|acc|] == card
  {
    assert out[..|acc| + 1][|acc|] == out[|acc|];
  }

  /** The requests from pair `i` on are those of pair `i` followed by the rest. */
  lemma TranslationRequestsCons(language: string, items: seq<Value>, i: nat)
    requires i < |items| && IsPair(items[i])
    requires forall k :: i <= k < |items| ==> IsPair(items[k])
    ensures TranslationRequests(language, items, i)
            == [Request(Translate(language), Lookup(items[i].fields, "question").value),
                Request(Translate(language), Lookup(items[i].fields, "answer").value)]
               + TranslationRequests(language, items, i + 1)
  {
  }

  /** Two calls and then `m` more leave the service as `2 + m` calls do. */
  lemma AfterTwoThenRest(pending: seq<Reply>, sent: seq<Request>, head: seq<Request>, tail: seq<Request>,
                         m: nat, after: Service)
    requires after == Service(Drop(Drop(pending, 2), m), sent + head + tail)
    ensures after == Service(Drop(pending, 2 + m), sent + (head + tail))
  {
    DropDrop(pending, 2, m);
  }

  /** A pair whose card raises ends the loop: assembly gives no card, with the
      service as that card left it. */
  lemma AssembleCardsStops(language: string, category: Value, qa: Value, items: seq<Value>, i: nat,
                           acc: seq<FlashCard>, svc: Service, start: Service, e: Error, after: Service)
    requires Elements(qa) == Done(items) && i < |items|
    requires BuildCards(Translator(language), category, items, i, acc, svc)
             == BuildCards(Translator(language), category, items, 0, [], start)
    requires CardFrom(Translator(language), category, items[i], svc) == (Raised(e), after)
    ensures AssembleCards(language, category, qa, start) == (Done([]), after)
  {
    BuildCardsStep(Translator(language), category, items, i, acc, svc);
  }

  /** Card assembly is all-or-nothing: it never raises, and it gives either no card
      or one card per decoded pair, in order, each fitting its pair. */
  lemma AssembleCardsAllOrNothing(language: string, category: Value, qa: Value, svc: Service)
    ensures var out := AssembleCards(language, category, qa, svc).0;
            && out.Done?
            && (out.value != [] ==> qa.List? && AllFit(language, category, qa.items, out.value))
  {
    var elements := Elements(qa);
    if elements.Done? {
      if IsEnglish(language) {
        TranslatorInEnglish(language);
      }
      assert elements.value[..0] == [];
      BuildCardsFit(language, Translator(language), category, elements.value, 0, [], svc);
    }
  }

  /** One pair without a question or an answer (or that is not a dict) makes the
      whole result empty. */
  lemma AssembleCardsMalformedPair(language: string, category: Value, qa: Value, svc: Service, k: nat)
    requires qa.List? && k < |qa.items| && !IsPair(qa.items[k])
    ensures AssembleCards(language, category, qa, svc).0 == Done([])
  {
    AssembleCardsAllOrNothing(language, category, qa, svc);
  }

  /** In English, well-formed pairs become exactly one fitting card each, and no
      call is made. */
  lemma AssembleCardsEnglish(language: string, category: Value, qa: Value, svc: Service)
    requires IsEnglish(language) && qa.List?
    requires forall k :: 0 <= k < |qa.items| ==> IsPair(qa.items[k])
    ensures var (out, after) := AssembleCards(language, category, qa, svc);
            out.Done? && AllFit(language, category, qa.items, out.value) && after == svc
  {
    TranslatorInEnglish(language);
    BuildCardsEnglish(Translator(language), category, qa.items, 0, [], svc);
    assert qa.items[..0] == [];
    BuildCardsFit(language, Translator(language), category, qa.items, 0, [], svc);
  }

  /** In another language, when the service answers each translation at its first
      attempt, well-formed pairs become one card each, holding the replies in order,
      and the service has received exactly the question and answer translation
      requests, pair by pair. */
  lemma AssembleCardsTranslated(language: string, category: Value, qa: Value, svc: Service)
    requires !IsEnglish(language) && qa.List?
    requires forall k :: 0 <= k < |qa.items| ==> IsPair(qa.items[k])
    requires forall j: nat :: j < 2 * |qa.items| ==> ReplyAt(svc.pending, j).Ok?
    ensures var (out, after) := AssembleCards(language, category, qa, svc);
            && out.Done? && |out.value| == |qa.items|
            && RepliesFrom(out.value, svc.pending, 0)
            && after == Service(Drop(svc.pending, 2 * |qa.items|), svc.sent + TranslationRequests(language, qa.items, 0))
  {
    TranslatorAnswersFirst(language);
    BuildCardsTranslated(language, Translator(language), category, qa.items, 0, [], svc);
    BuildCardsTranslatedRequests(language, Translator(language), category, qa.items, 0, [], svc);
  }

  /** The texts of the successful replies in `pending`. */
  function ReplyTexts(pending: seq<Reply>): set<Value> {
    set j | 0 <= j < |pending| && pending[j].Ok? :: Str(pending[j].content)
  }

  /** Both texts of the card are among `texts`. */
  predicate RepliedCard(card: FlashCard, texts: set<Value>) {
    card.prompt in texts && card.answer in texts
  }

  /** A translation that consumes replies from the front of the script, and whose
      result, when it returns one, is the text of one of the replies it had. */
  ghost predicate AnswersFromReplies(translate: Translation) {
    forall content: Value, svc: Service ::
      && (exists m: nat :: translate(content, svc).1.pending == Drop(svc.pending, m))
      && (translate(content, svc).0.Done? ==> translate(content, svc).0.value in ReplyTexts(svc.pending))
  }

  /** The replies left after some calls are among those there were. */
  lemma ReplyTextsDrop(pending: seq<Reply>, m: nat)
    ensures ReplyTexts(Drop(pending, m)) <= ReplyTexts(pending)
  {
    if m < |pending| {
      forall v | v in ReplyTexts(Drop(pending, m)) ensures v in ReplyTexts(pending) {
        var j :| 0 <= j < |pending[m..]| && pending[m..][j].Ok? && v == Str(pending[m..][j].content);
        assert pending[m + j] == pending[m..][j];
      }
    }
  }

  /** In another language, `translate_content` returns the text of the successful
      attempt, whichever of its attempts that was, and consumes the replies of the
      attempts it made. */
  lemma TranslatorFromReplies(language: string)
    requires !IsEnglish(language)
    ensures AnswersFromReplies(Translator(language))
  {
    forall content: Value, svc: Service
      ensures exists m: nat :: Translator(language)(content, svc).1.pending == Drop(svc.pending, m)
      ensures Translator(language)(content, svc).0.Done? ==>
                Translator(language)(content, svc).0.value in ReplyTexts(svc.pending)
    {
      var req := Request(Translate(language), content);
      var (out, calls) := Attempts(svc.pending, DefaultRetries, 0);
      assert Translator(language)(content, svc) == (ContentValue(out), AfterCalls(svc, req, calls));
      assert Translator(language)(content, svc).1.pending == Drop(svc.pending, calls);
      if out.Done? {
        var j := calls - 1;
        assert ReplyAt(svc.pending, j) == Ok(out.value.value);
        assert j < |svc.pending| && svc.pending[j].Ok?;
        assert ContentValue(out).value == Str(svc.pending[j].content);
      }
    }
  }

  /** A card built with such a translation holds reply texts, and the replies left
      afterwards are among those there were. */
  lemma CardFromReplies(translate: Translation, category: Value, item: Value, svc: Service)
    requires AnswersFromReplies(translate)
    ensures var (card, after) := CardFrom(translate, category, item, svc);
            && ReplyTexts(after.pending) <= ReplyTexts(svc.pending)
            && (card.Done? ==> RepliedCard(card.value, ReplyTexts(svc.pending)))
  {
    var texts := ReplyTexts(svc.pending);
    var (card, after) := CardFrom(translate, category, item, svc);
    var question := Subscript(item, "question");
    if question.Raised? {
      assert after == svc;
      return;
    }
    var (prompt, s1) := translate(question.value, svc);
    var m1: nat :| s1.pending == Drop(svc.pending, m1);
    ReplyTextsDrop(svc.pending, m1);
    var answer := Subscript(item, "answer");
    if prompt.Raised? || answer.Raised? {
      assert after == s1;
      return;
    }
    assert prompt.value in texts;
    var (translated, s2) := translate(answer.value, s1);
    var m2: nat :| s2.pending == Drop(s1.pending, m2);
    ReplyTextsDrop(s1.pending, m2);
    assert after == s2;
    if translated.Done? {
      assert translated.value in ReplyTexts(s1.pending);
      assert card.value.prompt == prompt.value && card.value.answer == translated.value;
    }
  }

  /** A loop that completes with such a translation holds only reply texts in its
      cards: those it had, and one per translated question and answer. */
  lemma {:induction false} BuildCardsFromReplies(translate: Translation, category: Value, items: seq<Value>, i: nat,
                                                 acc: seq<FlashCard>, svc: Service, texts: set<Value>)
    requires i <= |items|
    requires AnswersFromReplies(translate)
    requires ReplyTexts(svc.pending) <= texts
    requires forall k :: 0 <= k < |acc| ==> RepliedCard(acc[k], texts)
    ensures var out := BuildCards(translate, category, items, i, acc, svc).0;
            out.Done? ==> forall k :: 0 <= k < |out.value| ==> RepliedCard(out.value[k], texts)
    decreases |items| - i
  {
    if i < |items| {
      BuildCardsStep(translate, category, items, i, acc, svc);
      var (card, after) := CardFrom(translate, category, items[i], svc);
      CardFromReplies(translate, category, items[i], svc);
      if card.Done? {
        var grown := acc + [card.value];
        forall k | 0 <= k < |grown| ensures RepliedCard(grown[k], texts) {
          if k < |acc| {
            assert grown[k] == acc[k];
          }
        }
        BuildCardsFromReplies(translate, category, items, i + 1, grown, after, texts);
      }
    }
  }

  /** In another language, whatever the service answers and however many attempts
      each translation takes, every card's prompt and answer are texts of successful
      replies of the service. */
  lemma AssembleCardsFromReplies(language: string, category: Value, qa: Value, svc: Service)
    requires !IsEnglish(language)
    ensures var out := AssembleCards(language, category, qa, svc).0;
            out.Done? && forall k :: 0 <= k < |out.value| ==> RepliedCard(out.value[k], ReplyTexts(svc.pending))
  {
    AssembleCardsAllOrNothing(language, category, qa, svc);
    var elements := Elements(qa);
    if elements.Done? {
      TranslatorFromReplies(language);
      BuildCardsFromReplies(Translator(language), category, elements.value, 0, [], svc, ReplyTexts(svc.pending));
    }
  }

  // ---------------------------------------------------------------------------
  // process_document

  /** What `process_document` has gathered before assembling cards: the category,
      and the decoded card response (None when it was not valid JSON). */
  datatype Gathered = Gathered(category: Value, decoded: Option<Value>)

  /** The stages of `process_document` up to the decoding of the card response. */
  function GatherSpec(text: string, numCards: int, parse: string -> Option<Value>, svc: Service)
    : (Outcome<Gathered>, Service)
  {
    var (category, s1) := Ask(svc, Request(Categorize, Str(text)));
    if category.Raised? then (Raised(category.error), s1) else
    var (summary, s2) := Ask(s1, Request(Summarize, Str(text)));
    if summary.Raised? then (Raised(summary.error), s2) else
    var (concepts, s3) := KeyConceptsSpec(text, parse, s2);
    if concepts.Raised? then (Raised(concepts.error), s3) else
    if !Joinable(concepts.value) then (Raised(TypeError), s3) else
    var (response, s4) := Ask(s3, Request(FlashCards(numCards, concepts.value), summary.value));
    if response.Raised? then (Raised(response.error), s4) else
    match Decode(parse, response.value)
    case Raised(e) => (Raised(e), s4)
    case Done(decoded) => (Done(Gathered(category.value, decoded)), s4)
  }

  /** `process_document(text, num_cards)` for the target language `language`. */
  function ProcessDocumentSpec(language: string, text: string, numCards: int, parse: string -> Option<Value>,
                               svc: Service): (Outcome<seq<FlashCard>>, Service)
  {
    var (gathered, after) := GatherSpec(text, numCards, parse, svc);
    match gathered
    case Raised(e) => (Raised(e), after)
    case Done(Gathered(category, None)) => (Done([]), after)
    case Done(Gathered(category, Some(qa))) => AssembleCards(language, category, qa, after)
  }

  /** `process_document` raises only when a generation stage before card assembly
      did; an undecodable card response gives no card; and a non-empty result has
      one card per decoded pair, in order, each fitting its pair. */
  lemma ProcessDocumentAllOrNothing(language: string, text: string, numCards: int,
                                    parse: string -> Option<Value>, svc: Service)
    ensures var gathered := GatherSpec(text, numCards, parse, svc).0;
            var out := ProcessDocumentSpec(language, text, numCards, parse, svc).0;
            && (out.Raised? <==> gathered.Raised?)
            && (gathered.Done? && gathered.value.decoded.None? ==> out == Done([]))
            && (out.Done? && out.value != [] ==>
                  && gathered.Done? && gathered.value.decoded.Some?
                  && var qa := gathered.value.decoded.value;
                  && qa.List? && AllFit(language, gathered.value.category, qa.items, out.value))
  {
    var (gathered, after) := GatherSpec(text, numCards, parse, svc);
    if gathered.Done? && gathered.value.decoded.Some? {
      AssembleCardsAllOrNothing(language, gathered.value.category, gathered.value.decoded.value, after);
    }
  }

  // ---------------------------------------------------------------------------
  // The card store

  /** The record `save_flashcards` and `flashcards_to_json` write for one card. */
  function CardRecord(card: FlashCard): Value {
    Dict([("prompt", card.prompt), ("answer", card.answer), ("category", card.category),
          ("difficulty", card.difficulty)])
  }

  function CardRecords(cards: seq<FlashCard>): (r: seq<Value>)
    ensures |r| == |cards|
    ensures forall k :: 0 <= k < |cards| ==> r[k] == CardRecord(cards[k])
  {
    seq(|cards|, k requires 0 <= k < |cards| => CardRecord(cards[k]))
  }

  /** The card `load_flashcards` builds from one record: `prompt` and `answer` are
      required, a missing `category` or `difficulty` becomes None. */
  function CardFromRecord(item: Value): (r: Outcome<FlashCard>)
    ensures r.Done? <==> HasKey(item, "prompt") && HasKey(item, "answer")
    ensures r.Done? ==> r.value.prompt == Lookup(item.fields, "prompt").value
                        && r.value.answer == Lookup(item.fields, "answer").value
    ensures r.Done? ==> r.value.category == Lookup(item.fields, "category").GetOr(Null)
                        && r.value.difficulty == Lookup(item.fields, "difficulty").GetOr(Null)
  {
    match Subscript(item, "prompt")
    case Raised(e) => Raised(e)
    case Done(prompt) =>
      match Subscript(item, "answer")
      case Raised(e) => Raised(e)
      case Done(answer) =>
        Done(FlashCard(prompt, answer, Get(item, "category", Null).value, Get(item, "difficulty", Null).value))
  }

  /** The loop of `load_flashcards` from `items[i]` on, with the cards `acc` so far. */
  function LoadFrom(items: seq<Value>, i: nat, acc: seq<FlashCard>): Outcome<seq<FlashCard>>
    requires i <= |items|
    decreases |items| - i
  {
    if i == |items| then Done(acc)
    else match CardFromRecord(items[i])
      case Raised(e) => Raised(e)
      case Done(card) => LoadFrom(items, i + 1, acc + [card])
  }

  /** The cards `load_flashcards` builds from a decoded file. */
  function LoadCards(data: Value): Outcome<seq<FlashCard>> {
    match Elements(data)
    case Raised(e) => Raised(e)
    case Done(items) => LoadFrom(items, 0, [])
  }

  /** A saved record loads as the card it was saved from. */
  lemma CardRecordLoads(card: FlashCard)
    ensures CardFromRecord(CardRecord(card)) == Done(card)
  {
    var f := CardRecord(card).fields;
    assert LookupBelow(f, "prompt", 1) == Some(card.prompt);
    assert LookupBelow(f, "prompt", 3) == LookupBelow(f, "prompt", 1);
    assert LookupBelow(f, "answer", 2) == Some(card.answer);
    assert LookupBelow(f, "answer", 4) == LookupBelow(f, "answer", 2);
    assert LookupBelow(f, "category", 3) == Some(card.category);
  }

  lemma {:induction false} LoadFromRecords(cards: seq<FlashCard>, i: nat)
    requires i <= |cards|
    ensures LoadFrom(CardRecords(cards), i, cards[..i]) == Done(cards)
    decreases |cards| - i
  {
    if i < |cards| {
      CardRecordLoads(cards[i]);
      assert cards[..i] + [cards[i]] == cards[..i + 1];
      LoadFromRecords(cards, i + 1);
    } else {
      assert cards[..i] == cards;
    }
  }

  /** Loading what was saved gives back the same cards, in the same order. */
  lemma SaveLoadRoundTrip(cards: seq<FlashCard>)
    ensures LoadCards(List(CardRecords(cards))) == Done(cards)
  {
    LoadFromRecords(cards, 0);
  }

  /** A record with only a prompt and an answer loads with None for the category
      and the difficulty. */
  lemma LoadWithoutOptionalFields(prompt: Value, answer: Value)
    ensures LoadCards(List([Dict([("prompt", prompt), ("answer", answer)])]))
            == Done([FlashCard(prompt, answer, Null, Null)])
  {
    var f := [("prompt", prompt), ("answer", answer)];
    assert LookupBelow(f, "prompt", 2) == LookupBelow(f, "prompt", 1) == Some(prompt);
    assert LookupBelow(f, "answer", 2) == Some(answer);
    assert LookupBelow(f, "category", 2) == LookupBelow(f, "category", 1) == LookupBelow(f, "category", 0) == None;
    assert LookupBelow(f, "difficulty", 2) == LookupBelow(f, "difficulty", 1) == LookupBelow(f, "difficulty", 0) == None;
    assert CardFromRecord(Dict(f)) == Done(FlashCard(prompt, answer, Null, Null));
    var card := FlashCard(prompt, answer, Null, Null);
    assert [] + [card] == [card];
    assert LoadFrom([Dict(f)], 0, []) == LoadFrom([Dict(f)], 1, [card]);
  }

  /** The files the store writes, each holding the JSON document saved under its name. */
  class Disk {
    var files: map<string, Value>

    constructor ()
      ensures files == map[]
    {
      files := map[];
    }
  }

  // ---------------------------------------------------------------------------
  // The analyser object

  class AnalyzeDocs {
    var targetLanguage: string
    const model: string
    const client: GroqClient

    constructor (targetLanguage: string, model: string, client: GroqClient)
      ensures this.targetLanguage == Lower(targetLanguage)
      ensures this.model == model && this.client == client
    {
      this.targetLanguage := Lower(targetLanguage);
      this.model := model;
      this.client := client;
    }

    /** `generate_with_groq(messages, retry_count)`. */
    method GenerateWithGroq(req: Request, retryCount: int) returns (r: Outcome<Option<string>>)
      modifies client
      ensures (r, client.service) == Retry(old(client.service), req, retryCount)
    {
      ghost var start := client.service;
      var attempt := 0;
      while attempt < retryCount
        invariant attempt == 0 || attempt < retryCount
        invariant client.service == AfterCalls(start, req, attempt)
        invariant Attempts(start.pending, retryCount, attempt) == Attempts(start.pending, retryCount, 0)
      {
        AfterCallsAdd(start, req, attempt);
        var reply := client.Create(req);
        if reply.Ok? {
          return Done(Some(reply.content));
        }
        if attempt == retryCount - 1 {
          return Raised(GenerationError(retryCount));
        }
        attempt := attempt + 1;
      }
      return Done(None);
    }

    /** `categorize_content(text)` */
    method CategorizeContent(text: string) returns (r: Outcome<Value>)
      modifies client
      ensures (r, client.service) == Ask(old(client.service), Request(Categorize, Str(text)))
    {
      var response := GenerateWithGroq(Request(Categorize, Str(text)), DefaultRetries);
      r := ContentValue(response);
    }

    /** `summarize_text(text)` */
    method SummarizeText(text: string) returns (r: Outcome<Value>)
      modifies client
      ensures (r, client.service) == Ask(old(client.service), Request(Summarize, Str(text)))
    {
      var response := GenerateWithGroq(Request(Summarize, Str(text)), DefaultRetries);
      r := ContentValue(response);
    }

    /** `extract_key_concepts(text)` */
    method ExtractKeyConcepts(text: string, parse: string -> Option<Value>) returns (r: Outcome<Value>)
      modifies client
      ensures (r, client.service) == KeyConceptsSpec(text, parse, old(client.service))
    {
      var response := GenerateWithGroq(Request(KeyConcepts, Str(text)), DefaultRetries);
      var content := ContentValue(response);
      if content.Raised? {
        return Raised(content.error);
      }
      var decoded := Decode(parse, content.value);
      r := Done(decoded.value.GetOr(List([])));
    }

    /** `generate_qa_pairs(summary)` */
    method GenerateQAPairs(summary: Value, parse: string -> Option<Value>) returns (r: Outcome<Value>)
      modifies client
      ensures (r, client.service) == QAPairsSpec(summary, parse, old(client.service))
    {
      var response := GenerateWithGroq(Request(QuestionAnswers, summary), DefaultRetries);
      var content := ContentValue(response);
      if content.Raised? {
        return Raised(content.error);
      }
      if !content.value.Str? {
        return Raised(AttributeError);
      }
      var text := LenientArrayText(content.value.s);
      r := Done(parse(text).GetOr(List([])));
    }

    /** `translate_content(content)` */
    method TranslateContent(content: Value) returns (r: Outcome<Value>)
      modifies client
      ensures (r, client.service) == TranslateSpec(targetLanguage, content, old(client.service))
      ensures IsEnglish(targetLanguage) ==> r == Done(content) && client.service == old(client.service)
    {
      if IsEnglish(targetLanguage) {
        return Done(content);
      }
      var response := GenerateWithGroq(Request(Translate(targetLanguage), content), DefaultRetries);
      r := ContentValue(response);
    }

    /** `process_document(text, num_cards)` */
    method ProcessDocument(text: string, numCards: int, parse: string -> Option<Value>)
      returns (r: Outcome<seq<FlashCard>>)
      modifies client
      ensures (r, client.service) == ProcessDocumentSpec(targetLanguage, text, numCards, parse, old(client.service))
    {
      var category := CategorizeContent(text);
      if category.Raised? {
        return Raised(category.error);
      }
      var summary := SummarizeText(text);
      if summary.Raised? {
        return Raised(summary.error);
      }
      var concepts := ExtractKeyConcepts(text, parse);
      if concepts.Raised? {
        return Raised(concepts.error);
      }
      if !Joinable(concepts.value) {
        return Raised(TypeError);
      }
      var response := GenerateWithGroq(Request(FlashCards(numCards, concepts.value), summary.value), DefaultRetries);
      var content := ContentValue(response);
      if content.Raised? {
        return Raised(content.error);
      }
      var decoded := Decode(parse, content.value);
      if decoded.value.None? {
        return Done([]);
      }
      r := AssembleFlashCards(category.value, decoded.value.value);
    }

    /** The `try` block of `process_document`: the loop over the decoded pairs, where
        any exception gives the empty list. */
    method AssembleFlashCards(category: Value, qa: Value) returns (r: Outcome<seq<FlashCard>>)
      modifies client
      ensures (r, client.service) == AssembleCards(targetLanguage, category, qa, old(client.service))
    {
      var elements := Elements(qa);
      if elements.Raised? {
        return Done([]);
      }
      var items := elements.value;
      ghost var start := client.service;
      var cards: seq<FlashCard> := [];
      var i := 0;
      while i < |items|
        invariant 0 <= i <= |items|
        invariant BuildCards(Translator(targetLanguage), category, items, i, cards, client.service)
               == BuildCards(Translator(targetLanguage), category, items, 0, [], start)
      {
        ghost var before := client.service;
        BuildCardsStep(Translator(targetLanguage), category, items, i, cards, before);
        var card := CardOf(category, items[i]);
        if card.Raised? {
          AssembleCardsStops(targetLanguage, category, qa, items, i, cards, before, start, card.error, client.service);
          return Done([]);
        }
        cards := cards + [card.value];
        i := i + 1;
      }
      return Done(cards);
    }

    /** The body of that loop for one pair: the question and the answer are looked up
        and translated, and the card takes the pair's difficulty or "medium". */
    method CardOf(category: Value, item: Value) returns (card: Outcome<FlashCard>)
      modifies client
      ensures (card, client.service) == CardFrom(Translator(targetLanguage), category, item, old(client.service))
    {
      ghost var before := client.service;
      var question := Subscript(item, "question");
      if question.Raised? {
        return Raised(question.error);
      }
      TranslatorApplies(targetLanguage, question.value, before);
      var prompt := TranslateContent(question.value);
      ghost var middle := client.service;
      if prompt.Raised? {
        return Raised(prompt.error);
      }
      var answer := Subscript(item, "answer");
      if answer.Raised? {
        return Raised(answer.error);
      }
      TranslatorApplies(targetLanguage, answer.value, middle);
      var translated := TranslateContent(answer.value);
      if translated.Raised? {
        return Raised(translated.error);
      }
      var difficulty := Get(item, "difficulty", Str("medium"));
      return Done(FlashCard(prompt.value, translated.value, category, difficulty.value));
    }

    /** `flashcards_to_json(cards)` */
    method FlashcardsToJson(cards: seq<FlashCard>) returns (data: seq<Value>)
      ensures data == CardRecords(cards)
    {
      data := [];
      var i := 0;
      while i < |cards|
        invariant 0 <= i <= |cards|
        invariant data == CardRecords(cards[..i])
      {
        data := data + [CardRecord(cards[i])];
        i := i + 1;
      }
      assert cards[..i] == cards;
    }

    /** `save_flashcards(cards, filename)` */
    method SaveFlashcards(cards: seq<FlashCard>, filename: string, disk: Disk)
      modifies disk
      ensures disk.files == old(disk.files)[filename := List(CardRecords(cards))]
    {
      var data: seq<Value> := [];
      var i := 0;
      while i < |cards|
        invariant 0 <= i <= |cards|
        invariant data == CardRecords(cards[..i])
      {
        data := data + [CardRecord(cards[i])];
        i := i + 1;
      }
      assert cards[..i] == cards;
      disk.files := disk.files[filename := List(data)];
    }

    /** `load_flashcards(filename)` */
    method LoadFlashcards(filename: string, disk: Disk) returns (r: Outcome<seq<FlashCard>>)
      ensures filename !in disk.files ==> r == Raised(FileNotFound(filename))
      ensures filename in disk.files ==> r == LoadCards(disk.files[filename])
    {
      if filename !in disk.files {
        return Raised(FileNotFound(filename));
      }
      var elements := Elements(disk.files[filename]);
      if elements.Raised? {
        return Raised(elements.error);
      }
      var items := elements.value;
      var cards: seq<FlashCard> := [];
      var i := 0;
      while i < |items|
        invariant 0 <= i <= |items|
        invariant LoadFrom(items, i, cards) == LoadFrom(items, 0, [])
      {
        var card := CardFromRecord(items[i]);
        if card.Raised? {
          return Raised(card.error);
        }
        cards := cards + [card.value];
        i := i + 1;
      }
      return Done(cards);
    }

    /** `generate_flashcards(text, num_cards, save_to, language)`: the language, when
        given, replaces the target language before the document is processed, and a
        non-empty `save_to` names the file the cards are saved to. */
    method GenerateFlashcards(text: string, numCards: int, saveTo: Option<string>, language: Option<string>,
                              parse: string -> Option<Value>, disk: Disk)
      returns (r: Outcome<seq<FlashCard>>)
      modifies this, client, disk
      ensures targetLanguage == language.GetOr(old(targetLanguage))
      ensures (r, client.service) == ProcessDocumentSpec(targetLanguage, text, numCards, parse, old(client.service))
      ensures disk.files == if r.Done? && saveTo.Some? && saveTo.value != ""
                            then old(disk.files)[saveTo.value := List(CardRecords(r.value))]
                            else old(disk.files)
    {
      targetLanguage := language.GetOr(targetLanguage);
      r := ProcessDocument(text, numCards, parse);
      if r.Done? && saveTo.Some? && saveTo.value != "" {
        SaveFlashcards(r.value, saveTo.value, disk);
      }
    }

    /** `generate_flashcards_from_file(filename, num_cards, save_to)`, where
        `textFiles` holds the readable text files: a missing file raises, otherwise
        its text goes through `generate_flashcards` with the language kept. */
    method GenerateFlashcardsFromFile(filename: string, numCards: int, saveTo: Option<string>,
                                      textFiles: map<string, string>, parse: string -> Option<Value>, disk: Disk)
      returns (r: Outcome<seq<FlashCard>>)
      modifies this, client, disk
      ensures filename !in textFiles ==>
                r == Raised(FileNotFound(filename)) && client.service == old(client.service)
                && disk.files == old(disk.files) && targetLanguage == old(targetLanguage)
      ensures filename in textFiles ==>
                && targetLanguage == old(targetLanguage)
                && (r, client.service)
                   == ProcessDocumentSpec(targetLanguage, textFiles[filename], numCards, parse, old(client.service))
                && disk.files == if r.Done? && saveTo.Some? && saveTo.value != ""
                                 then old(disk.files)[saveTo.value := List(CardRecords(r.value))]
                                 else old(disk.files)
    {
      if filename !in textFiles {
        return Raised(FileNotFound(filename));
      }
      r := GenerateFlashcards(textFiles[filename], numCards, saveTo, None, parse, disk);
    }
  }

  // ---------------------------------------------------------------------------
  // The document reader

  datatype ReadDocs = ReadDocs(dataDir: string)

  /** `ReadDocs()`: the data directory defaults to `input`. */
  const DefaultDataDir := "input"

  function DefaultReadDocs(): ReadDocs {
    ReadDocs(DefaultDataDir)
  }

  /** `os.path.join(directory, name)` on POSIX. */
  function JoinPath(directory: string, name: string): string {
    if |name| > 0 && name[0] == '/' then name
    else if directory == [] || directory[|directory| - 1] == '/' then directory + name
    else directory + "/" + name
  }

  /** `read_document(file_type, file_name)`, where `textFiles` holds the readable text
      files and `ocr` is what `read_pdf` recognises in a PDF file. */
  function ReadDocument(docs: ReadDocs, fileType: string, fileName: string, textFiles: map<string, string>,
                        ocr: string -> Outcome<string>): (r: Outcome<string>)
    ensures var path := JoinPath(docs.dataDir, fileName);
            && (fileType == "pdf" ==> r == ocr(path))
            && (fileType == "text" && path in textFiles ==> r == Done(textFiles[path]))
            && (fileType == "text" && path !in textFiles ==> r == Raised(FileNotFound(path)))
            && (fileType != "pdf" && fileType != "text" ==> r == Raised(ValueError))
  {
    var path := JoinPath(docs.dataDir, fileName);
    if fileType == "pdf" then ocr(path)
    else if fileType == "text" then
      (if path in textFiles then Done(textFiles[path]) else Raised(FileNotFound(path)))
    else Raised(ValueError)
  }

  /** A reader made with the default directory looks a relative file name up under
      `input/`, and an absolute one as it is given. */
  lemma DefaultReaderPaths(fileName: string, textFiles: map<string, string>, ocr: string -> Outcome<string>)
    ensures var path := if |fileName| > 0 && fileName[0] == '/' then fileName else "input/" + fileName;
            && ReadDocument(DefaultReadDocs(), "pdf", fileName, textFiles, ocr) == ocr(path)
            && ReadDocument(DefaultReadDocs(), "text", fileName, textFiles, ocr)
               == if path in textFiles then Done(textFiles[path]) else Raised(FileNotFound(path))
  {
    assert DefaultDataDir[|DefaultDataDir| - 1] == 't';
    assert DefaultDataDir + "/" == "input/";
  }
}
