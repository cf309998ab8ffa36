/**
 * The Anthropic adapter: messages with `tool_use` content blocks, a
 * conversation of at most three requests, each tool result sent back as a
 * user message, and no missing-parameter guard on the ticket tool.
 */
module Anthropic {
  import opened Wrappers
  import opened Js
  import Mcp
  import Tools
  import Llm

  /** One content block of a reply; only `tool_use` blocks are dispatched.  `Other`
      stands for a block whose `type` is neither `text` nor `tool_use`. */
  datatype Block =
    | Text(text: string)
    | ToolUse(id: string, name: string, input: Value)
    | Other

  /** A reply: its `stop_reason` and its `content` (absent or null is None). */
  datatype Response = Response(stopReason: string, content: Option<seq<Block>>)

  datatype Message =
    | User(text: string)
    | Assistant(blocks: seq<Block>)
    | ToolResult(toolUseId: string, result: Value)

  const MaxRequests := 3
  const ToolUseStop := "tool_use"
  const Fallback := "Problema procesado exitosamente"

  /** `stop_reason === 'tool_use' && content`; an empty array is truthy. */
  predicate RequestsTools(r: Response) {
    r.stopReason == ToolUseStop && r.content.Some?
  }

  /** `content?.[0]?.type === 'text' ? content[0].text : 'Problema procesado exitosamente'` */
  function ExtractResult(r: Response): (s: string)
    ensures r.content.Some? && |r.content.value| > 0 && r.content.value[0].Text? ==>
              s == r.content.value[0].text
    ensures !(r.content.Some? && |r.content.value| > 0 && r.content.value[0].Text?) ==> s == Fallback
  {
    match r.content
    case Some(blocks) => if |blocks| > 0 && blocks[0].Text? then blocks[0].text else Fallback
    case None => Fallback
  }

  // ---------------------------------------------------------------------------
  // Dispatching one turn's tool-use blocks

  /** The ids of the `tool_use` blocks, in order. */
  function ToolUseIds(blocks: seq<Block>): seq<string> {
    if blocks == [] then []
    else
      var last := blocks[|blocks| - 1];
      ToolUseIds(blocks[..|blocks| - 1]) + (if last.ToolUse? then [last.id] else [])
  }

  /** `replies` answers `blocks`: one tool-result message per `tool_use` block, in order,
      each carrying that block's id. */
  ghost predicate Answered(blocks: seq<Block>, replies: seq<Message>) {
    && |replies| == |ToolUseIds(blocks)|
    && forall i :: 0 <= i < |replies| ==>
         replies[i].ToolResult? && replies[i].toolUseId == ToolUseIds(blocks)[i]
  }

  /** What `processToolCalls` appends for `blocks`, and the requests the capability client
      sends, with the server's calls numbered from k. */
  function Replies(blocks: seq<Block>, answer: (nat, Mcp.Request) -> Mcp.Outcome, k: nat)
    : (seq<Message>, seq<Mcp.Request>)
  {
    if blocks == [] then ([], [])
    else
      var before := Replies(blocks[..|blocks| - 1], answer, k);
      var last := ReplyTo(blocks[|blocks| - 1], answer, k + |before.1|);
      (before.0 + last.0, before.1 + last.1)
  }

  /** The messages and capability-server requests one block produces when the server's
      k-th call is answered by `answer`. */
  function ReplyTo(block: Block, answer: (nat, Mcp.Request) -> Mcp.Outcome, k: nat)
    : (seq<Message>, seq<Mcp.Request>)
  {
    if block.ToolUse? then
      var a := Tools.Route(false, block.name, block.input);
      ([ToolResult(block.id, Tools.Settle(a, answer, k))], Tools.Traffic(a))
    else ([], [])
  }

  /** Answering one more call appends its reply to those of the ones before, behind
      whatever the conversation and the server's log already held. */
  lemma RepliesStep(start: seq<Message>, log0: seq<Mcp.Request>, blocks: seq<Block>, i: nat,
                    answer: (nat, Mcp.Request) -> Mcp.Outcome, k: nat)
    requires i < |blocks|
    ensures var before := Replies(blocks[..i], answer, k);
            var last := ReplyTo(blocks[i], answer, k + |before.1|);
            && start + before.0 + last.0 == start + Replies(blocks[..i + 1], answer, k).0
            && log0 + before.1 + last.1 == log0 + Replies(blocks[..i + 1], answer, k).1
  {
    assert blocks[..i + 1][..i] == blocks[..i];
  }

  /** The server requests `blocks` lead to, which do not depend on what the server answers. */
  function Traffic(blocks: seq<Block>): seq<Mcp.Request> {
    if blocks == [] then []
    else
      var last := blocks[|blocks| - 1];
      Traffic(blocks[..|blocks| - 1])
        + (if last.ToolUse? then Tools.Traffic(Tools.Route(false, last.name, last.input)) else [])
  }

  /** Every `tool_use` block is answered exactly once, in order, by a tool result with
      its id; other blocks are not answered. */
  lemma {:induction false} RepliesAnswer(blocks: seq<Block>, answer: (nat, Mcp.Request) -> Mcp.Outcome, k: nat)
    ensures Answered(blocks, Replies(blocks, answer, k).0)
  {
    if blocks != [] {
      RepliesAnswer(blocks[..|blocks| - 1], answer, k);
    }
  }

  /** The server sees exactly the routed requests of the `tool_use` blocks, in order,
      whatever it answers; each block sends exactly one request, since nothing is
      answered without asking the server. */
  lemma {:induction false} RepliesTraffic(blocks: seq<Block>, answer: (nat, Mcp.Request) -> Mcp.Outcome, k: nat)
    ensures Replies(blocks, answer, k).1 == Traffic(blocks)
    ensures |Traffic(blocks)| == |ToolUseIds(blocks)|
  {
    if blocks != [] {
      RepliesTraffic(blocks[..|blocks| - 1], answer, k);
    }
  }

  /** A turn appends `reply`'s assistant message and then exactly the answers
      `processToolCalls` gives its blocks, the server's calls numbered from k. */
  ghost predicate Follows(before: seq<Message>, reply: Response, after: seq<Message>,
                          answer: (nat, Mcp.Request) -> Mcp.Outcome, k: nat) {
    && RequestsTools(reply)
    && after == before + [Assistant(reply.content.value)] + Replies(reply.content.value, answer, k).0
  }

  /** A turn keeps what came before, puts the assistant message next, and answers each
      block once with its id, in order. */
  lemma FollowsShape(before: seq<Message>, reply: Response, after: seq<Message>,
                     answer: (nat, Mcp.Request) -> Mcp.Outcome, k: nat)
    requires Follows(before, reply, after, answer, k)
    ensures |before| < |after| && after[..|before|] == before
    ensures after[|before|] == Assistant(reply.content.value)
    ensures Answered(reply.content.value, after[|before| + 1..])
  {
    RepliesAnswer(reply.content.value, answer, k);
    assert after[|before| + 1..] == Replies(reply.content.value, answer, k).0;
  }

  /** What a reply asks to be answered; nothing when it carries no `content`. */
  function CallsOf(reply: Response): seq<Block> {
    reply.content.GetOr([])
  }

  /** The capability-server requests of the tool turns answering `turns`, turn by turn. */
  function TurnsTraffic(turns: seq<Response>): seq<Mcp.Request> {
    if turns == [] then []
    else TurnsTraffic(turns[..|turns| - 1]) + Traffic(CallsOf(turns[|turns| - 1]))
  }

  /** One more tool turn appends its own requests behind those of the turns before. */
  lemma TurnsStep(listed: seq<Mcp.Request>, replies: seq<Response>, i: nat)
    requires i < |replies|
    ensures listed + TurnsTraffic(replies[..i]) + Traffic(CallsOf(replies[i]))
            == listed + TurnsTraffic(replies[..i + 1])
  {
    assert replies[..i + 1][..i] == replies[..i];
  }

  // ---------------------------------------------------------------------------
  // The conversation as a function of the scripted replies

  /** Reply k exists and asks for tools. */
  predicate Asks(replies: seq<Response>, k: nat) {
    k < |replies| && RequestsTools(replies[k])
  }

  /** Replies `lo` up to `hi` (exclusive) all exist and all ask for tools. */
  predicate AskTools(replies: seq<Response>, lo: nat, hi: int) {
    forall k: nat :: lo <= k < hi ==> Asks(replies, k)
  }

  /**
   * The number of requests a resolution makes when the vendor's next replies
   * are `replies`: the first request, then one more after each reply that
   * asks for tools, up to three; a request that fails ends the run.
   */
  function Requests(replies: seq<Response>): nat {
    if !Asks(replies, 0) then 1
    else if !Asks(replies, 1) then 2
    else MaxRequests
  }

  /** The requests are the leading run of tool-asking replies plus one, capped at three. */
  lemma RequestsRun(replies: seq<Response>)
    ensures 1 <= Requests(replies) <= MaxRequests
    ensures AskTools(replies, 0, Requests(replies) - 1)
    ensures Requests(replies) < MaxRequests ==> !Asks(replies, Requests(replies) - 1)
  {
  }

  /** The result of a resolution: the text of the last reply, or the vendor's error. */
  function Resolution(replies: seq<Response>, outage: string): Result<string> {
    var n := Requests(replies);
    if n <= |replies| then Success(ExtractResult(replies[n - 1])) else Failure(outage)
  }

  /** The message lists sent in one resolution: the problem alone first, then each
      request extends the previous one by a tool turn; the manifest never changes. */
  ghost predicate Conversed(problem: string, replies: seq<Response>, answer: (nat, Mcp.Request) -> Mcp.Outcome, base: nat,
                            requests: seq<Llm.Request<Message>>) {
    && |requests| == Requests(replies)
    && requests[0].messages == [User(problem)]
    && (forall k :: 0 <= k < |requests| ==> requests[k].tools == requests[0].tools)
    && (forall k :: 0 <= k < |requests| - 1 ==> Step(replies, answer, base, requests, k))
  }

  /** What one resolution against a vendor holding `pending` leaves behind: its result,
      the requests it sent, all offering the manifest built from `catalog`, and the
      server log grown from `log0` to `log` by one `listTools` and then each tool turn. */
  ghost predicate Resolved(problem: string, pending: seq<Response>, outage: string,
                           answer: (nat, Mcp.Request) -> Mcp.Outcome, catalog: Option<seq<Mcp.Tool>>,
                           r: Result<string>, requests: seq<Llm.Request<Message>>,
                           log0: seq<Mcp.Request>, log: seq<Mcp.Request>) {
    && r == Resolution(pending, outage)
    && Conversed(problem, pending, answer, |log0| + 1, requests)
    && requests[0].tools == Tools.Manifest(catalog)
    && Requests(pending) - 1 <= |pending|
    && log == log0 + [Mcp.List] + TurnsTraffic(pending[..Requests(pending) - 1])
  }

  /** Request k + 1 extends request k by the tool turn of reply k. */
  ghost predicate Step(replies: seq<Response>, answer: (nat, Mcp.Request) -> Mcp.Outcome, base: nat,
                       requests: seq<Llm.Request<Message>>, k: nat)
    requires k + 1 < |requests|
  {
    && k < |replies|
    && Follows(requests[k].messages, replies[k], requests[k + 1].messages,
               answer, base + |TurnsTraffic(replies[..k])|)
  }

  /** The first requests of a resolution, up to and including the latest. */
  ghost predicate Opened(problem: string, replies: seq<Response>, tools: seq<Mcp.Tool>,
                         answer: (nat, Mcp.Request) -> Mcp.Outcome, base: nat, requests: seq<Llm.Request<Message>>) {
    && |requests| >= 1
    && requests[0].messages == [User(problem)]
    && (forall k :: 0 <= k < |requests| ==> requests[k].tools == tools)
    && (forall k :: 0 <= k < |requests| - 1 ==> Step(replies, answer, base, requests, k))
  }

  lemma Extended(problem: string, replies: seq<Response>, tools: seq<Mcp.Tool>,
                 answer: (nat, Mcp.Request) -> Mcp.Outcome, base: nat, requests: seq<Llm.Request<Message>>, k: nat, next: seq<Message>)
    requires Opened(problem, replies, tools, answer, base, requests)
    requires |requests| - 1 < |replies|
    requires k == base + |TurnsTraffic(replies[..|requests| - 1])|
    requires Follows(requests[|requests| - 1].messages, replies[|requests| - 1], next, answer, k)
    ensures Opened(problem, replies, tools, answer, base, requests + [Llm.Request(next, tools)])
  {
    var longer := requests + [Llm.Request(next, tools)];
    forall k | 0 <= k < |longer| - 1
      ensures Step(replies, answer, base, longer, k)
    {
      if k < |requests| - 1 {
        assert Step(replies, answer, base, requests, k);
        assert longer[k] == requests[k] && longer[k + 1] == requests[k + 1];
      }
    }
  }

  /** Requests that follow the protocol and stop where the cascade stops are exactly a
      resolution's requests. */
  lemma Closed(problem: string, replies: seq<Response>, tools: seq<Mcp.Tool>,
               answer: (nat, Mcp.Request) -> Mcp.Outcome, base: nat, requests: seq<Llm.Request<Message>>)
    requires Opened(problem, replies, tools, answer, base, requests)
    requires |requests| <= MaxRequests
    requires |requests| == MaxRequests || !Asks(replies, |requests| - 1)
    ensures Conversed(problem, replies, answer, base, requests)
  {
    forall k: nat | k < |requests| - 1
      ensures Asks(replies, k)
    {
      assert Step(replies, answer, base, requests, k);
    }
  }

  /** A first reply that does not stop for tool use, or has no content, ends the
      conversation after one request with that reply's text. */
  lemma NoToolsSingleRequest(replies: seq<Response>, outage: string)
    requires |replies| > 0 && !RequestsTools(replies[0])
    ensures Requests(replies) == 1
    ensures Resolution(replies, outage) == Success(ExtractResult(replies[0]))
  {
  }

  /** After three requests the adapter stops, even if the third reply asks for tools. */
  lemma CapAtThree(replies: seq<Response>, outage: string)
    requires |replies| >= MaxRequests
    requires RequestsTools(replies[0]) && RequestsTools(replies[1])
    ensures Requests(replies) == MaxRequests
    ensures Resolution(replies, outage) == Success(ExtractResult(replies[MaxRequests - 1]))
  {
  }

  // ---------------------------------------------------------------------------
  // The adapter

  class Service {
    const vendor: Llm.Vendor<Message, Response>
    const mcp: Mcp.Client
    /** Whether `models.list` would answer: the outcome of every liveness probe. */
    const reachable: bool

    constructor (vendor: Llm.Vendor<Message, Response>, mcp: Mcp.Client, reachable: bool)
      ensures this.vendor == vendor && this.mcp == mcp && this.reachable == reachable
    {
      this.vendor := vendor;
      this.mcp := mcp;
      this.reachable := reachable;
    }

    /** `ping`, reduced to its `alive` flag. */
    method Ping() returns (alive: bool)
      ensures alive == reachable
    {
      alive := reachable;
    }

    /** `processToolCalls`: answer every `tool_use` block, in order, by pushing a user
        message carrying its tool result. */
    method ProcessToolCalls(blocks: seq<Block>, transcript: Llm.Transcript<Message>)
      modifies transcript, mcp
      ensures transcript.messages == old(transcript.messages) + Replies(blocks, mcp.answer, |old(mcp.log)|).0
      ensures mcp.log == old(mcp.log) + Replies(blocks, mcp.answer, |old(mcp.log)|).1
    {
      ghost var start, log0, k := transcript.messages, mcp.log, |mcp.log|;
      for i := 0 to |blocks|
        invariant |log0| == k
        invariant transcript.messages == start + Replies(blocks[..i], mcp.answer, k).0
        invariant mcp.log == log0 + Replies(blocks[..i], mcp.answer, k).1
      {
        AnswerNext(start, log0, k, blocks, i, transcript);
      }
      assert blocks[..|blocks|] == blocks;
    }

    /** One iteration of the loop: answering the i-th call extends the replies to the
        first i calls by its own. */
    method AnswerNext(ghost start: seq<Message>, ghost log0: seq<Mcp.Request>, ghost k: nat,
                      blocks: seq<Block>, i: nat, transcript: Llm.Transcript<Message>)
      requires i < |blocks| && |log0| == k
      requires transcript.messages == start + Replies(blocks[..i], mcp.answer, k).0
      requires mcp.log == log0 + Replies(blocks[..i], mcp.answer, k).1
      modifies transcript, mcp
      ensures transcript.messages == start + Replies(blocks[..i + 1], mcp.answer, k).0
      ensures mcp.log == log0 + Replies(blocks[..i + 1], mcp.answer, k).1
    {
      ghost var before := Replies(blocks[..i], mcp.answer, k);
      ghost var last := ReplyTo(blocks[i], mcp.answer, k + |before.1|);
      RepliesStep(start, log0, blocks, i, mcp.answer, k);
      assert |mcp.log| == k + |before.1|;
      Answer(blocks[i], transcript);
      assert transcript.messages == start + before.0 + last.0;
    }

    /** The body of the `for` loop: a `tool_use` block is routed and answered by one
        tool-result message; any other block is passed over. */
    method Answer(block: Block, transcript: Llm.Transcript<Message>)
      modifies transcript, mcp
      ensures transcript.messages == old(transcript.messages) + ReplyTo(block, mcp.answer, |old(mcp.log)|).0
      ensures mcp.log == old(mcp.log) + ReplyTo(block, mcp.answer, |old(mcp.log)|).1
    {
      if block.ToolUse? {
        var action := Tools.Route(false, block.name, block.input);
        var payload := Tools.Perform(action, mcp);
        transcript.Push(ToolResult(block.id, payload));
      }
    }

    /** One tool turn: push the reply's content as the assistant message, then answer its
        `tool_use` blocks. */
    method Round(reply: Response, transcript: Llm.Transcript<Message>)
      requires RequestsTools(reply)
      modifies transcript, mcp
      ensures Follows(old(transcript.messages), reply, transcript.messages, mcp.answer, |old(mcp.log)|)
      ensures mcp.log == old(mcp.log) + Traffic(reply.content.value)
    {
      transcript.Push(Assistant(reply.content.value));
      ProcessToolCalls(reply.content.value, transcript);
      RepliesTraffic(reply.content.value, mcp.answer, |old(mcp.log)|);
    }

    /** A tool turn followed by the next request, with the protocol's bookkeeping: the
        requests so far grow by the one just sent. */
    method FollowUp(ghost problem: string, ghost replies: seq<Response>, tools: seq<Mcp.Tool>,
                    ghost before: seq<Llm.Request<Message>>, ghost listed: seq<Mcp.Request>,
                    ghost requests: seq<Llm.Request<Message>>, message: Response,
                    transcript: Llm.Transcript<Message>)
      returns (reply: Result<Response>, ghost longer: seq<Llm.Request<Message>>)
      requires Opened(problem, replies, tools, mcp.answer, |listed|, requests)
      requires |requests| - 1 < |replies| && message == replies[|requests| - 1]
      requires RequestsTools(message)
      requires transcript.messages == requests[|requests| - 1].messages
      requires vendor.Pending() == replies[|requests|..]
      requires vendor.sent == before + requests
      requires mcp.log == listed + TurnsTraffic(replies[..|requests| - 1])
      modifies transcript, mcp, vendor
      ensures |longer| == |requests| + 1
      ensures Opened(problem, replies, tools, mcp.answer, |listed|, longer)
      ensures transcript.messages == longer[|requests|].messages
      ensures vendor.sent == before + longer
      ensures |requests| < |replies| ==>
                reply == Success(replies[|requests|]) && vendor.Pending() == replies[|longer|..]
      ensures |requests| >= |replies| ==> reply == Failure(vendor.outage)
      ensures mcp.log == old(mcp.log) + Traffic(message.content.value)
      ensures mcp.log == listed + TurnsTraffic(replies[..|requests|])
    {
      ghost var k := |listed| + |TurnsTraffic(replies[..|requests| - 1])|;
      assert |mcp.log| == k;
      TurnsStep(listed, replies, |requests| - 1);
      Round(message, transcript);
      Extended(problem, replies, tools, mcp.answer, |listed|, requests, k, transcript.messages);
      reply := vendor.Create(transcript.messages, tools);
      longer := requests + [Llm.Request(transcript.messages, tools)];
      if |requests| < |replies| {
        assert vendor.Pending() == replies[|requests|..][1..];
      }
    }

    /** The result the resolution returns once it stops. */
    static lemma Concluded(problem: string, replies: seq<Response>, tools: seq<Mcp.Tool>,
                           requests: seq<Llm.Request<Message>>, reply: Result<Response>,
                           outage: string, listed: seq<Mcp.Request>, log: seq<Mcp.Request>,
                           answer: (nat, Mcp.Request) -> Mcp.Outcome)
      requires Opened(problem, replies, tools, answer, |listed|, requests)
      requires |requests| <= MaxRequests
      requires |requests| - 1 <= |replies|
      requires log == listed + TurnsTraffic(replies[..|requests| - 1])
      requires reply.Success? ==> |requests| - 1 < |replies| && reply.value == replies[|requests| - 1]
      requires reply.Failure? ==> |requests| > |replies| && reply.error == outage
      requires |requests| == MaxRequests || reply.Failure? || !RequestsTools(reply.value)
      ensures Conversed(problem, replies, answer, |listed|, requests)
      ensures (if reply.Failure? then Failure(reply.error) else Success(ExtractResult(reply.value)))
              == Resolution(replies, outage)
      ensures Requests(replies) - 1 <= |replies|
      ensures log == listed + TurnsTraffic(replies[..Requests(replies) - 1])
    {
      Closed(problem, replies, tools, answer, |listed|, requests);
    }

    /** `resolverProblemaConLLM`: up to three requests, each after a tool turn answering
        the previous reply's `tool_use` blocks; the last reply's first text block is the
        result. A failed request is the result as it is. */
    method ResolveWithLLM(problem: string) returns (r: Result<string>)
      modifies vendor, mcp
      ensures old(vendor.sent) <= vendor.sent
      ensures Conversed(problem, old(vendor.Pending()), mcp.answer, |old(mcp.log)| + 1,
                        vendor.sent[|old(vendor.sent)|..])
      ensures vendor.sent[|old(vendor.sent)|].tools == Tools.Manifest(mcp.catalog)
      ensures r == Resolution(old(vendor.Pending()), vendor.outage)
      ensures Requests(old(vendor.Pending())) - 1 <= |old(vendor.Pending())|
      ensures mcp.log == old(mcp.log) + [Mcp.List]
                         + TurnsTraffic(old(vendor.Pending())[..Requests(old(vendor.Pending())) - 1])
    {
      ghost var replies := vendor.Pending();
      ghost var before := vendor.sent;
      var tools := Tools.PrepareTools(mcp);
      ghost var listed := mcp.log;
      var transcript := new Llm.Transcript([User(problem)]);

      var reply := vendor.Create(transcript.messages, tools);
      ghost var requests := [Llm.Request(transcript.messages, tools)];
      assert Opened(problem, replies, tools, mcp.answer, |listed|, requests);
      assert mcp.log == listed + TurnsTraffic(replies[..0]);
      if reply.Failure? || !RequestsTools(reply.value) {
        Concluded(problem, replies, tools, requests, reply, vendor.outage, listed, mcp.log, mcp.answer);
        assert vendor.sent[|before|..] == requests;
        return if reply.Failure? then Failure(reply.error) else Success(ExtractResult(reply.value));
      }
      var message := reply.value;

      reply, requests := FollowUp(problem, replies, tools, before, listed, requests, message, transcript);
      if reply.Failure? || !RequestsTools(reply.value) {
        Concluded(problem, replies, tools, requests, reply, vendor.outage, listed, mcp.log, mcp.answer);
        assert vendor.sent[|before|..] == requests;
        return if reply.Failure? then Failure(reply.error) else Success(ExtractResult(reply.value));
      }
      message := reply.value;

      reply, requests := FollowUp(problem, replies, tools, before, listed, requests, message, transcript);
      Concluded(problem, replies, tools, requests, reply, vendor.outage, listed, mcp.log, mcp.answer);
      assert vendor.sent[|before|..] == requests;
      return if reply.Failure? then Failure(reply.error) else Success(ExtractResult(reply.value));
    }
  }
}
