/** The external text-generation service, as an oracle: it answers each request
    with the next reply of a script fixed in advance, and records the request. */
module Generation {
  import opened Values

  /** One reply: the completion's text content, or an exception from the client. */
  datatype Reply = Ok(content: string) | Fail

  /** What a request asks for; the wording of the system prompts is not modelled. */
  datatype Task =
    | Categorize
    | Summarize
    | KeyConcepts
    | QuestionAnswers
    | FlashCards(count: int, concepts: Value)
    | Translate(language: string)

  /** One request: the task and the user turn. */
  datatype Request = Request(task: Task, user: Value)

  /** The service as the client sees it: the replies it will still give, in order,
      and every request sent so far. Once the script is used up every call fails. */
  datatype Service = Service(pending: seq<Reply>, sent: seq<Request>)

  /** The reply to the `k`-th call from now. */
  function ReplyAt(pending: seq<Reply>, k: nat): Reply {
    if k < |pending| then pending[k] else Fail
  }

  function Drop(pending: seq<Reply>, k: nat): (r: seq<Reply>)
    ensures forall j: nat :: ReplyAt(r, j) == ReplyAt(pending, k + j)
  {
    if k < |pending| then pending[k..] else []
  }

  function Repeat(req: Request, k: nat): (r: seq<Request>)
    ensures |r| == k && forall j :: 0 <= j < k ==> r[j] == req
  {
    seq(k, _ => req)
  }

  /** The service after `k` calls that all sent `req`. */
  function AfterCalls(svc: Service, req: Request, k: nat): Service {
    Service(Drop(svc.pending, k), svc.sent + Repeat(req, k))
  }

  lemma AfterCallsAdd(svc: Service, req: Request, k: nat)
    ensures AfterCalls(AfterCalls(svc, req, k), req, 1) == AfterCalls(svc, req, k + 1)
    ensures ReplyAt(AfterCalls(svc, req, k).pending, 0) == ReplyAt(svc.pending, k)
  {
    assert Repeat(req, k) + Repeat(req, 1) == Repeat(req, k + 1);
  }

  /** Dropping `a` replies and then `b` drops `a + b`. */
  lemma DropDrop(pending: seq<Reply>, a: nat, b: nat)
    ensures Drop(Drop(pending, a), b) == Drop(pending, a + b)
  {
    if a < |pending| && b < |pending| - a {
      assert pending[a..][b..] == pending[a + b..];
    }
  }

  /** The client object (`Groq(...)`) that performs `chat.completions.create`. */
  class GroqClient {
    var service: Service

    constructor (script: seq<Reply>)
      ensures service == Service(script, [])
    {
      service := Service(script, []);
    }

    /** One call to the service. */
    method Create(req: Request) returns (reply: Reply)
      modifies this
      ensures reply == ReplyAt(old(service).pending, 0)
      ensures service == AfterCalls(old(service), req, 1)
    {
      reply := ReplyAt(service.pending, 0);
      service := AfterCalls(service, req, 1);
    }
  }
}
