/** The older pipeline (`bin/model.py`): a single call per request with no retry,
    cards that are plain dicts with a prompt and an answer, and no handler around
    card assembly, so a malformed pair or a failed call reaches the caller. */
module LegacyPipeline {
  import opened Wrappers
  import opened Values
  import opened Text
  import opened Generation
  import Pipeline

  /** `generate_with_groq(messages)`: exactly one call; a failure is not caught. */
  function Ask(svc: Service, req: Request): (r: (Outcome<Value>, Service))
    ensures r.1 == AfterCalls(svc, req, 1)
    ensures r.0.Raised? <==> ReplyAt(svc.pending, 0).Fail?
    ensures r.0.Raised? ==> r.0.error == ServiceError
    ensures r.0.Done? ==> r.0 == Done(Str(ReplyAt(svc.pending, 0).content))
  {
    match ReplyAt(svc.pending, 0)
    case Ok(content) => (Done(Str(content)), AfterCalls(svc, req, 1))
    case Fail => (Raised(ServiceError), AfterCalls(svc, req, 1))
  }

  /** The single call agrees with one attempt of the retrying wrapper: the same
      content, the same service afterwards; only the exception differs. */
  lemma AskIsOneAttempt(svc: Service, req: Request)
    ensures var (out, after) := Pipeline.Retry(svc, req, 1);
            && Ask(svc, req).1 == after
            && (out.Done? ==> Ask(svc, req).0 == Pipeline.ContentValue(out))
            && (out.Raised? ==> out.error == GenerationError(1) && Ask(svc, req).0 == Raised(ServiceError))
  {
    if ReplyAt(svc.pending, 0).Ok? {
      Pipeline.RetryReturnsFirstSuccess(svc, req, 1, 0);
    } else {
      Pipeline.RetryRaisesAfterAllFail(svc, req, 1);
    }
  }

  /** `generate_qa_pairs(summary)`: the same trimming as the canonical pipeline. */
  function QAPairsSpec(summary: Value, parse: string -> Option<Value>, svc: Service): (r: (Outcome<Value>, Service))
    ensures r.1 == AfterCalls(svc, Request(QuestionAnswers, summary), 1)
    ensures r.0.Raised? <==> ReplyAt(svc.pending, 0).Fail?
    ensures r.0.Done? ==> r.0.value == parse(LenientArrayText(ReplyAt(svc.pending, 0).content)).GetOr(List([]))
  {
    var (response, after) := Ask(svc, Request(QuestionAnswers, summary));
    match response
    case Raised(e) => (Raised(e), after)
    case Done(v) => (Done(parse(LenientArrayText(v.s)).GetOr(List([]))), after)
  }

  /** `translate_content(content)` for the target language `language`. */
  function TranslateSpec(language: string, content: Value, svc: Service): (r: (Outcome<Value>, Service))
    ensures IsEnglish(language) ==> r == (Done(content), svc)
    ensures !IsEnglish(language) ==> r == Ask(svc, Request(Translate(language), content))
  {
    if IsEnglish(language) then (Done(content), svc)
    else Ask(svc, Request(Translate(language), content))
  }

  /** The card `process_document` builds: a dict with exactly these two keys. */
  function Card(prompt: Value, answer: Value): Value {
    Dict([("prompt", prompt), ("answer", answer)])
  }

  /** The loop of `process_document` from `items[i]` on, with the cards `acc` so far;
      every exception escapes. */
  function BuildCards(language: string, items: seq<Value>, i: nat, acc: seq<Value>, svc: Service)
    : (Outcome<seq<Value>>, Service)
    requires i <= |items|
    decreases |items| - i
  {
    if i == |items| then (Done(acc), svc)
    else
      var item := items[i];
      match Subscript(item, "question")
      case Raised(e) => (Raised(e), svc)
      case Done(question) =>
        var (prompt, s1) := TranslateSpec(language, question, svc);
        match prompt
        case Raised(e) => (Raised(e), s1)
        case Done(p) =>
          match Subscript(item, "answer")
          case Raised(e) => (Raised(e), s1)
          case Done(answer) =>
            var (translated, s2) := TranslateSpec(language, answer, s1);
            match translated
            case Raised(e) => (Raised(e), s2)
            case Done(a) => BuildCards(language, items, i + 1, acc + [Card(p, a)], s2)
  }

  /** `process_document(text)` for the target language `language`. */
  function ProcessDocumentSpec(language: string, text: string, parse: string -> Option<Value>, svc: Service)
    : (Outcome<seq<Value>>, Service)
  {
    var (summary, s1) := Ask(svc, Request(Summarize, Str(text)));
    if summary.Raised? then (Raised(summary.error), s1) else
    var (qa, s2) := QAPairsSpec(summary.value, parse, s1);
    if qa.Raised? then (Raised(qa.error), s2) else
    match Elements(qa.value)
    case Raised(e) => (Raised(e), s2)
    case Done(items) => BuildCards(language, items, 0, [], s2)
  }

  /** A card fits a pair: the pair has a question and an answer, and the card is a
      dict whose keys are exactly "prompt" and "answer", holding in English the
      pair's own question and answer. */
  predicate Fits(language: string, item: Value, card: Value) {
    && Pipeline.IsPair(item)
    && card.Dict? && |card.fields| == 2 && card.fields[0].0 == "prompt" && card.fields[1].0 == "answer"
    && (IsEnglish(language) ==>
          card == Card(Lookup(item.fields, "question").value, Lookup(item.fields, "answer").value))
  }

  /** One card per pair, in order, each fitting its pair. */
  predicate AllFit(language: string, items: seq<Value>, cards: seq<Value>) {
    |cards| == |items| && forall k :: 0 <= k < |items| ==> Fits(language, items[k], cards[k])
  }

  /** A loop that completes has found a question and an answer in every item, and
      every card it added fits its item. */
  lemma {:induction false} BuildCardsFit(language: string, items: seq<Value>, i: nat, acc: seq<Value>, svc: Service)
    requires i <= |items|
    requires AllFit(language, items[..i], acc)
    ensures var out := BuildCards(language, items, i, acc, svc).0;
            out.Done? ==> AllFit(language, items, out.value)
    decreases |items| - i
  {
    if i == |items| {
      assert items[..i] == items;
    } else {
      var item := items[i];
      var question := Subscript(item, "question");
      if question.Done? {
        var (prompt, s1) := TranslateSpec(language, question.value, svc);
        var answer := Subscript(item, "answer");
        if prompt.Done? && answer.Done? {
          var (translated, s2) := TranslateSpec(language, answer.value, s1);
          if translated.Done? {
            var card := Card(prompt.value, translated.value);
            assert Fits(language, item, card);
            assert AllFit(language, items[..i + 1], acc + [card]) by {
              assert items[..i + 1] == items[..i] + [item];
            }
            BuildCardsFit(language, items, i + 1, acc + [card], s2);
          }
        }
      }
    }
  }

  /** In English, well-formed pairs become cards without a single call. */
  lemma {:induction false} BuildCardsEnglish(language: string, items: seq<Value>, i: nat, acc: seq<Value>, svc: Service)
    requires i <= |items|
    requires IsEnglish(language)
    requires forall k :: i <= k < |items| ==> Pipeline.IsPair(items[k])
    ensures BuildCards(language, items, i, acc, svc).0.Done?
    ensures BuildCards(language, items, i, acc, svc).1 == svc
    decreases |items| - i
  {
    if i < |items| {
      var item := items[i];
      assert Pipeline.IsPair(item);
      BuildCardsEnglish(language, items, i + 1,
                        acc + [Card(Lookup(item.fields, "question").value, Lookup(item.fields, "answer").value)], svc);
    }
  }

  /** The older `process_document` either raises or returns one two-key card per
      decoded pair, in order. */
  lemma ProcessDocumentCards(language: string, text: string, parse: string -> Option<Value>, svc: Service)
    ensures var (summary, s1) := Ask(svc, Request(Summarize, Str(text)));
            var out := ProcessDocumentSpec(language, text, parse, svc).0;
            out.Done? ==>
              && summary.Done?
              && var qa := QAPairsSpec(summary.value, parse, s1).0;
              && qa.Done? && Elements(qa.value).Done?
              && AllFit(language, Elements(qa.value).value, out.value)
  {
    var (summary, s1) := Ask(svc, Request(Summarize, Str(text)));
    if summary.Done? {
      var (qa, s2) := QAPairsSpec(summary.value, parse, s1);
      if qa.Done? {
        var elements := Elements(qa.value);
        if elements.Done? {
          assert elements.value[..0] == [];
          BuildCardsFit(language, elements.value, 0, [], s2);
        }
      }
    }
  }

  /** Where the older loop raises on a malformed pair, the canonical one returns no
      card at all: for a decoded list holding a pair without a question or an
      answer. */
  lemma MalformedPairRaisesHere(language: string, category: Value, qa: Value, svc: Service, k: nat)
    requires qa.List? && k < |qa.items| && !Pipeline.IsPair(qa.items[k])
    ensures BuildCards(language, qa.items, 0, [], svc).0.Raised?
    ensures Pipeline.AssembleCards(language, category, qa, svc).0 == Done([])
  {
    assert qa.items[..0] == [];
    BuildCardsFit(language, qa.items, 0, [], svc);
    Pipeline.AssembleCardsMalformedPair(language, category, qa, svc, k);
  }

  class AnalyzeDocs {
    var targetLanguage: string
    const client: GroqClient

    /** Unlike the canonical constructor, the language is kept as given. */
    constructor (targetLanguage: string, client: GroqClient)
      ensures this.targetLanguage == targetLanguage && this.client == client
    {
      this.targetLanguage := targetLanguage;
      this.client := client;
    }

    /** `generate_with_groq(messages)` */
    method GenerateWithGroq(req: Request) returns (r: Outcome<Value>)
      modifies client
      ensures (r, client.service) == Ask(old(client.service), req)
    {
      var reply := client.Create(req);
      if reply.Fail? {
        return Raised(ServiceError);
      }
      r := Done(Str(reply.content));
    }

    /** `summarize_text(text)` */
    method SummarizeText(text: string) returns (r: Outcome<Value>)
      modifies client
      ensures (r, client.service) == Ask(old(client.service), Request(Summarize, Str(text)))
    {
      r := GenerateWithGroq(Request(Summarize, Str(text)));
    }

    /** `generate_qa_pairs(summary)` */
    method GenerateQAPairs(summary: Value, parse: string -> Option<Value>) returns (r: Outcome<Value>)
      modifies client
      ensures (r, client.service) == QAPairsSpec(summary, parse, old(client.service))
    {
      var response := GenerateWithGroq(Request(QuestionAnswers, summary));
      if response.Raised? {
        return Raised(response.error);
      }
      var text := LenientArrayText(response.value.s);
      r := Done(parse(text).GetOr(List([])));
    }

    /** `translate_content(content)` */
    method TranslateContent(content: Value) returns (r: Outcome<Value>)
      modifies client
      ensures (r, client.service) == TranslateSpec(targetLanguage, content, old(client.service))
    {
      if IsEnglish(targetLanguage) {
        return Done(content);
      }
      r := GenerateWithGroq(Request(Translate(targetLanguage), content));
    }

    /** `process_document(text)` */
    method ProcessDocument(text: string, parse: string -> Option<Value>) returns (r: Outcome<seq<Value>>)
      modifies client
      ensures (r, client.service) == ProcessDocumentSpec(targetLanguage, text, parse, old(client.service))
    {
      var summary := SummarizeText(text);
      if summary.Raised? {
        return Raised(summary.error);
      }
      var qaPairs := GenerateQAPairs(summary.value, parse);
      if qaPairs.Raised? {
        return Raised(qaPairs.error);
      }
      var elements := Elements(qaPairs.value);
      if elements.Raised? {
        return Raised(elements.error);
      }
      var items := elements.value;
      ghost var start := client.service;
      var cards: seq<Value> := [];
      var i := 0;
      while i < |items|
        invariant 0 <= i <= |items|
        invariant BuildCards(targetLanguage, items, i, cards, client.service)
               == BuildCards(targetLanguage, items, 0, [], start)
      {
        var question := Subscript(items[i], "question");
        if question.Raised? {
          return Raised(question.error);
        }
        var prompt := TranslateContent(question.value);
        if prompt.Raised? {
          return Raised(prompt.error);
        }
        var answer := Subscript(items[i], "answer");
        if answer.Raised? {
          return Raised(answer.error);
        }
        var translated := TranslateContent(answer.value);
        if translated.Raised? {
          return Raised(translated.error);
        }
        cards := cards + [Card(prompt.value, translated.value)];
        i := i + 1;
      }
      return Done(cards);
    }
  }
}
