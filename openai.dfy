/**
 * The OpenAI adapter: chat completions with function-type tool calls, a
 * conversation of at most four completion requests, and the tool dispatch
 * with the missing-parameter guard on the ticket tool.
 */
module OpenAI {
  import opened Wrappers
  import opened Js
  import Mcp
  import Tools
  import Llm

  /** A call's `arguments` after `JSON.parse` (or as given when not a string), or the
      parse error's message. */
  datatype Arguments = Parsed(value: Value) | Unparseable(message: string)

  /** A requested tool call; only calls carrying a `function` property are dispatched. */
  datatype ToolCall =
    | FunctionCall(id: string, name: string, arguments: Arguments)
    | CustomCall(id: string)

  /** `choices[0].message` of a completion. */
  datatype Completion = Completion(content: Option<string>, toolCalls: Option<seq<ToolCall>>)

  datatype Message =
    | User(text: string)
    | Assistant(content: Option<string>, toolCalls: seq<ToolCall>)
    | Tool(toolCallId: string, result: Value)

  const MaxCompletions := 4
  const Fallback := "Problema procesado exitosamente"

  /** `tool_calls && tool_calls.length > 0` */
  predicate RequestsTools(c: Completion) {
    c.toolCalls.Some? && |c.toolCalls.value| > 0
  }

  /** `message.content || 'Problema procesado exitosamente'` */
  function ExtractResult(c: Completion): (r: string)
    ensures c.content.Some? && c.content.value != "" ==> r == c.content.value
    ensures c.content.None? || c.content.value == "" ==> r == Fallback
    ensures r != ""
  {
    if c.content.Some? && c.content.value != "" then c.content.value else Fallback
  }

  // ---------------------------------------------------------------------------
  // Dispatching one turn's tool calls

  /** The ids of the calls that get an answer (those with a `function`), in order. */
  function AnsweredIds(calls: seq<ToolCall>): seq<string> {
    if calls == [] then []
    else
      var last := calls[|calls| - 1];
      AnsweredIds(calls[..|calls| - 1]) + (if last.FunctionCall? then [last.id] else [])
  }

  /** `replies` answers `calls`: one tool message per function call, in order, each
      carrying that call's id. */
  ghost predicate Answered(calls: seq<ToolCall>, replies: seq<Message>) {
    && |replies| == |AnsweredIds(calls)|
    && forall i :: 0 <= i < |replies| ==> replies[i].Tool? && replies[i].toolCallId == AnsweredIds(calls)[i]
  }

  /** The messages and capability-server requests one call produces when the server's
      k-th call is answered by `answer`. */
  function ReplyTo(call: ToolCall, answer: (nat, Mcp.Request) -> Mcp.Outcome, k: nat)
    : (seq<Message>, seq<Mcp.Request>)
  {
    match call
    case CustomCall(_) => ([], [])
    case FunctionCall(id, name, Unparseable(message)) => ([Tool(id, ErrorPayload(message))], [])
    case FunctionCall(id, name, Parsed(args)) =>
      var a := Tools.Route(true, name, args);
      ([Tool(id, Tools.Settle(a, answer, k))], Tools.Traffic(a))
  }

  /** What `processToolCalls` appends for `calls`, with the server's calls numbered from k. */
  function Replies(calls: seq<ToolCall>, answer: (nat, Mcp.Request) -> Mcp.Outcome, k: nat)
    : (seq<Message>, seq<Mcp.Request>)
  {
    if calls == [] then ([], [])
    else
      var before := Replies(calls[..|calls| - 1], answer, k);
      var last := ReplyTo(calls[|calls| - 1], answer, k + |before.1|);
      (before.0 + last.0, before.1 + last.1)
  }

  /** Answering one more call appends its reply to those of the ones before, behind
      whatever the conversation and the server's log already held. */
  lemma RepliesStep(start: seq<Message>, log0: seq<Mcp.Request>, calls: seq<ToolCall>, i: nat,
                    answer: (nat, Mcp.Request) -> Mcp.Outcome, k: nat)
    requires i < |calls|
    ensures var before := Replies(calls[..i], answer, k);
            var last := ReplyTo(calls[i], answer, k + |before.1|);
            && start + before.0 + last.0 == start + Replies(calls[..i + 1], answer, k).0
            && log0 + before.1 + last.1 == log0 + Replies(calls[..i + 1], answer, k).1
  {
    assert calls[..i + 1][..i] == calls[..i];
  }

  /** The server requests `calls` lead to, which do not depend on what the server answers. */
  function Traffic(calls: seq<ToolCall>): seq<Mcp.Request> {
    if calls == [] then []
    else
      var last := calls[|calls| - 1];
      Traffic(calls[..|calls| - 1])
        + (if last.FunctionCall? && last.arguments.Parsed?
           then Tools.Traffic(Tools.Route(true, last.name, last.arguments.value)) else [])
  }

  /** Every function call is answered exactly once, in request order, by a tool message
      with its id; calls without `function` are not answered. */
  lemma {:induction false} RepliesAnswer(calls: seq<ToolCall>, answer: (nat, Mcp.Request) -> Mcp.Outcome, k: nat)
    ensures Answered(calls, Replies(calls, answer, k).0)
  {
    if calls != [] {
      var init := calls[..|calls| - 1];
      RepliesAnswer(init, answer, k);
    }
  }

  /** The server sees exactly the routed requests of the parseable function calls, in
      order, whatever it answers. */
  lemma {:induction false} RepliesTraffic(calls: seq<ToolCall>, answer: (nat, Mcp.Request) -> Mcp.Outcome, k: nat)
    ensures Replies(calls, answer, k).1 == Traffic(calls)
  {
    if calls != [] {
      RepliesTraffic(calls[..|calls| - 1], answer, k);
    }
  }

  /** A turn appends `reply`'s assistant message and then exactly the answers
      `processToolCalls` gives its calls, the server's calls numbered from k. */
  ghost predicate Follows(before: seq<Message>, reply: Completion, after: seq<Message>,
                          answer: (nat, Mcp.Request) -> Mcp.Outcome, k: nat) {
    && RequestsTools(reply)
    && after == before + [Assistant(reply.content, reply.toolCalls.value)] + Replies(reply.toolCalls.value, answer, k).0
  }

  /** A turn keeps what came before, puts the assistant message next, and answers each
      call once with its id, in order. */
  lemma FollowsShape(before: seq<Message>, reply: Completion, after: seq<Message>,
                     answer: (nat, Mcp.Request) -> Mcp.Outcome, k: nat)
    requires Follows(before, reply, after, answer, k)
    ensures |before| < |after| && after[..|before|] == before
    ensures after[|before|] == Assistant(reply.content, reply.toolCalls.value)
    ensures Answered(reply.toolCalls.value, after[|before| + 1..])
  {
    RepliesAnswer(reply.toolCalls.value, answer, k);
    assert after[|before| + 1..] == Replies(reply.toolCalls.value, answer, k).0;
  }

  /** What a reply asks to be answered; nothing when it carries no `toolCalls`. */
  function CallsOf(reply: Completion): seq<ToolCall> {
    reply.toolCalls.GetOr([])
  }

  /** The capability-server requests of the tool turns answering `turns`, turn by turn. */
  function TurnsTraffic(turns: seq<Completion>): seq<Mcp.Request> {
    if turns == [] then []
    else TurnsTraffic(turns[..|turns| - 1]) + Traffic(CallsOf(turns[|turns| - 1]))
  }

  /** One more tool turn appends its own requests behind those of the turns before. */
  lemma TurnsStep(listed: seq<Mcp.Request>, replies: seq<Completion>, i: nat)
    requires i < |replies|
    ensures listed + TurnsTraffic(replies[..i]) + Traffic(CallsOf(replies[i]))
            == listed + TurnsTraffic(replies[..i + 1])
  {
    assert replies[..i + 1][..i] == replies[..i];
  }

  // ---------------------------------------------------------------------------
  // The conversation as a function of the scripted completions

  /** Reply k exists and asks for tools. */
  predicate Asks(replies: seq<Completion>, k: nat) {
    k < |replies| && RequestsTools(replies[k])
  }

  /** Replies `lo` up to `hi` (exclusive) all exist and all ask for tools. */
  predicate AskTools(replies: seq<Completion>, lo: nat, hi: int) {
    forall k: nat :: lo <= k < hi ==> Asks(replies, k)
  }

  /**
   * The number of completion requests a resolution makes when the vendor's
   * next replies are `replies`: the first request, then one more after each
   * reply that asks for tools, up to four; a request that fails ends the run.
   */
  function Requests(replies: seq<Completion>): nat {
    if !Asks(replies, 0) then 1
    else if !Asks(replies, 1) then 2
    else if !Asks(replies, 2) then 3
    else MaxCompletions
  }

  /** The requests are the leading run of tool-asking replies plus one, capped at four:
      every reply but the last one asked about asks for tools, and the last one does
      not unless the cap was reached. */
  lemma RequestsRun(replies: seq<Completion>)
    ensures 1 <= Requests(replies) <= MaxCompletions
    ensures AskTools(replies, 0, Requests(replies) - 1)
    ensures Requests(replies) < MaxCompletions ==> !Asks(replies, Requests(replies) - 1)
  {
  }

  /** The result of a resolution: the text of the last reply, or the vendor's error. */
  function Resolution(replies: seq<Completion>, outage: string): Result<string> {
    var n := Requests(replies);
    if n <= |replies| then Success(ExtractResult(replies[n - 1])) else Failure(outage)
  }

  /** The message lists sent in one resolution: the problem alone first, then each
      request extends the previous one by a tool turn; the manifest never changes. */
  ghost predicate Conversed(problem: string, replies: seq<Completion>, answer: (nat, Mcp.Request) -> Mcp.Outcome, base: nat,
                            requests: seq<Llm.Request<Message>>) {
    && |requests| == Requests(replies)
    && requests[0].messages == [User(problem)]
    && (forall k :: 0 <= k < |requests| ==> requests[k].tools == requests[0].tools)
    && (forall k :: 0 <= k < |requests| - 1 ==> Step(replies, answer, base, requests, k))
  }

  /** What one resolution against a vendor holding `pending` leaves behind: its result,
      the requests it sent, all offering the manifest built from `catalog`, and the
      server log grown from `log0` to `log` by one `listTools` and then each tool turn. */
  ghost predicate Resolved(problem: string, pending: seq<Completion>, outage: string,
                           answer: (nat, Mcp.Request) -> Mcp.Outcome, catalog: Option<seq<Mcp.Tool>>,
                           r: Result<string>, requests: seq<Llm.Request<Message>>,
                           log0: seq<Mcp.Request>, log: seq<Mcp.Request>) {
    && r == Resolution(pending, outage)
    && Conversed(problem, pending, answer, |log0| + 1, requests)
    && requests[0].tools == Tools.Manifest(catalog)
    && Requests(pending) - 1 <= |pending|
    && log == log0 + [Mcp.List] + TurnsTraffic(pending[..Requests(pending) - 1])
  }

  /** Request k + 1 extends request k by the tool turn of reply k. */
  ghost predicate Step(replies: seq<Completion>, answer: (nat, Mcp.Request) -> Mcp.Outcome, base: nat,
                       requests: seq<Llm.Request<Message>>, k: nat)
    requires k + 1 < |requests|
  {
    && k < |replies|
    && Follows(requests[k].messages, replies[k], requests[k + 1].messages,
               answer, base + |TurnsTraffic(replies[..k])|)
  }

  /** The first requests of a resolution, up to and including the latest. */
  ghost predicate Opened(problem: string, replies: seq<Completion>, tools: seq<Mcp.Tool>,
                         answer: (nat, Mcp.Request) -> Mcp.Outcome, base: nat, requests: seq<Llm.Request<Message>>) {
    && |requests| >= 1
    && requests[0].messages == [User(problem)]
    && (forall k :: 0 <= k < |requests| ==> requests[k].tools == tools)
    && (forall k :: 0 <= k < |requests| - 1 ==> Step(replies, answer, base, requests, k))
  }

  lemma Extended(problem: string, replies: seq<Completion>, tools: seq<Mcp.Tool>,
                 answer: (nat, Mcp.Request) -> Mcp.Outcome, base: nat, requests: seq<Llm.Request<Message>>, k: nat, next: seq<Message>)
    requires Opened(problem, replies, tools, answer, base, requests)
    requires |requests| - 1 < |replies|
    requires k == base + |TurnsTraffic(replies[..|requests| - 1])|
    requires Follows(requests[|requests| - 1].messages, replies[|requests| - 1], next, answer, k)
    ensures Opened(problem, replies, tools, answer, base, requests + [Llm.Request(next, tools)])
  {
    var longer := requests + [Llm.Request(next, tools)];
    forall k | 0 <= k < |longer| - 1
      ensures Step(replies, answer, base, longer, k)
    {
      if k < |requests| - 1 {
        assert Step(replies, answer, base, requests, k);
        assert longer[k] == requests[k] && longer[k + 1] == requests[k + 1];
      } else {
        assert longer[k] == requests[k] && longer[k + 1].messages == next;
      }
    }
  }

  /** Requests that follow the protocol and stop where the loop stops are exactly a
      resolution's requests. */
  lemma Closed(problem: string, replies: seq<Completion>, tools: seq<Mcp.Tool>,
               answer: (nat, Mcp.Request) -> Mcp.Outcome, base: nat, requests: seq<Llm.Request<Message>>)
    requires Opened(problem, replies, tools, answer, base, requests)
    requires |requests| <= MaxCompletions
    requires |requests| == MaxCompletions || !Asks(replies, |requests| - 1)
    ensures Conversed(problem, replies, answer, base, requests)
  {
    forall k: nat | k < |requests| - 1
      ensures Asks(replies, k)
    {
      assert Step(replies, answer, base, requests, k);
    }
  }

  /** A first reply without tool calls ends the conversation after one request with
      that reply's text. */
  lemma NoToolsSingleRequest(replies: seq<Completion>, outage: string)
    requires |replies| > 0 && !RequestsTools(replies[0])
    ensures Requests(replies) == 1
    ensures Resolution(replies, outage) == Success(ExtractResult(replies[0]))
  {
  }

  /** After four requests the loop stops, even if the fourth reply asks for tools again. */
  lemma CapAtFour(replies: seq<Completion>, outage: string)
    requires |replies| >= MaxCompletions
    requires forall k :: 0 <= k < MaxCompletions - 1 ==> RequestsTools(replies[k])
    ensures Requests(replies) == MaxCompletions
    ensures Resolution(replies, outage) == Success(ExtractResult(replies[MaxCompletions - 1]))
  {
  }

  // ---------------------------------------------------------------------------
  // The adapter

  class Service {
    const vendor: Llm.Vendor<Message, Completion>
    const mcp: Mcp.Client
    /** Whether `models.list` would answer: the outcome of every liveness probe. */
    const reachable: bool

    constructor (vendor: Llm.Vendor<Message, Completion>, mcp: Mcp.Client, reachable: bool)
      ensures this.vendor == vendor && this.mcp == mcp && this.reachable == reachable
    {
      this.vendor := vendor;
      this.mcp := mcp;
      this.reachable := reachable;
    }

    /** `ping`, reduced to its `alive` flag. */
    method Ping() returns (alive: bool)
      ensures alive == reachable
    {
      alive := reachable;
    }

    /** `processToolCalls`: answer every function call of a turn, in order, by pushing a
        tool message onto the conversation. */
    method ProcessToolCalls(calls: seq<ToolCall>, transcript: Llm.Transcript<Message>)
      modifies transcript, mcp
      ensures transcript.messages == old(transcript.messages) + Replies(calls, mcp.answer, |old(mcp.log)|).0
      ensures mcp.log == old(mcp.log) + Replies(calls, mcp.answer, |old(mcp.log)|).1
    {
      ghost var start, log0, k := transcript.messages, mcp.log, |mcp.log|;
      for i := 0 to |calls|
        invariant |log0| == k
        invariant transcript.messages == start + Replies(calls[..i], mcp.answer, k).0
        invariant mcp.log == log0 + Replies(calls[..i], mcp.answer, k).1
      {
        AnswerNext(start, log0, k, calls, i, transcript);
      }
      assert calls[..|calls|] == calls;
    }

    /** One iteration of the loop: answering the i-th call extends the replies to the
        first i calls by its own. */
    method AnswerNext(ghost start: seq<Message>, ghost log0: seq<Mcp.Request>, ghost k: nat,
                      calls: seq<ToolCall>, i: nat, transcript: Llm.Transcript<Message>)
      requires i < |calls| && |log0| == k
      requires transcript.messages == start + Replies(calls[..i], mcp.answer, k).0
      requires mcp.log == log0 + Replies(calls[..i], mcp.answer, k).1
      modifies transcript, mcp
      ensures transcript.messages == start + Replies(calls[..i + 1], mcp.answer, k).0
      ensures mcp.log == log0 + Replies(calls[..i + 1], mcp.answer, k).1
    {
      ghost var before := Replies(calls[..i], mcp.answer, k);
      ghost var last := ReplyTo(calls[i], mcp.answer, k + |before.1|);
      RepliesStep(start, log0, calls, i, mcp.answer, k);
      assert |mcp.log| == k + |before.1|;
      Answer(calls[i], transcript);
      assert transcript.messages == start + before.0 + last.0;
    }

    /** The body of the `for` loop: a call with a `function` is parsed, routed and
        answered by one tool message; a parse failure is answered with its error. */
    method Answer(call: ToolCall, transcript: Llm.Transcript<Message>)
      modifies transcript, mcp
      ensures transcript.messages == old(transcript.messages) + ReplyTo(call, mcp.answer, |old(mcp.log)|).0
      ensures mcp.log == old(mcp.log) + ReplyTo(call, mcp.answer, |old(mcp.log)|).1
    {
      if call.FunctionCall? {
        match call.arguments {
          case Unparseable(message) =>
            transcript.Push(Tool(call.id, ErrorPayload(message)));
          case Parsed(args) =>
            var action := Tools.Route(true, call.name, args);
            var payload := Tools.Perform(action, mcp);
            transcript.Push(Tool(call.id, payload));
        }
      }
    }

    /** One tool turn: push the assistant message carrying the reply's content and calls,
        then answer the calls. */
    method Round(reply: Completion, transcript: Llm.Transcript<Message>)
      requires RequestsTools(reply)
      modifies transcript, mcp
      ensures Follows(old(transcript.messages), reply, transcript.messages, mcp.answer, |old(mcp.log)|)
      ensures mcp.log == old(mcp.log) + Traffic(reply.toolCalls.value)
    {
      transcript.Push(Assistant(reply.content, reply.toolCalls.value));
      ProcessToolCalls(reply.toolCalls.value, transcript);
      RepliesTraffic(reply.toolCalls.value, mcp.answer, |old(mcp.log)|);
    }

    /** A tool turn followed by the next completion request, with the protocol's
        bookkeeping: the requests so far grow by the one just sent. */
    method FollowUp(ghost problem: string, ghost replies: seq<Completion>, tools: seq<Mcp.Tool>,
                    ghost before: seq<Llm.Request<Message>>, ghost listed: seq<Mcp.Request>,
                    ghost requests: seq<Llm.Request<Message>>, message: Completion,
                    transcript: Llm.Transcript<Message>)
      returns (reply: Result<Completion>, ghost longer: seq<Llm.Request<Message>>)
      requires Opened(problem, replies, tools, mcp.answer, |listed|, requests)
      requires |requests| - 1 < |replies| && message == replies[|requests| - 1]
      requires RequestsTools(message)
      requires transcript.messages == requests[|requests| - 1].messages
      requires vendor.Pending() == replies[|requests|..]
      requires vendor.sent == before + requests
      requires mcp.log == listed + TurnsTraffic(replies[..|requests| - 1])
      modifies transcript, mcp, vendor
      ensures |longer| == |requests| + 1
      ensures Opened(problem, replies, tools, mcp.answer, |listed|, longer)
      ensures transcript.messages == longer[|requests|].messages
      ensures vendor.sent == before + longer
      ensures |requests| < |replies| ==>
                reply == Success(replies[|requests|]) && vendor.Pending() == replies[|longer|..]
      ensures |requests| >= |replies| ==> reply == Failure(vendor.outage)
      ensures mcp.log == old(mcp.log) + Traffic(message.toolCalls.value)
      ensures mcp.log == listed + TurnsTraffic(replies[..|requests|])
    {
      ghost var k := |listed| + |TurnsTraffic(replies[..|requests| - 1])|;
      assert |mcp.log| == k;
      TurnsStep(listed, replies, |requests| - 1);
      Round(message, transcript);
      Extended(problem, replies, tools, mcp.answer, |listed|, requests, k, transcript.messages);
      reply := vendor.Create(transcript.messages, tools);
      longer := requests + [Llm.Request(transcript.messages, tools)];
      if |requests| < |replies| {
        assert vendor.Pending() == replies[|requests|..][1..];
      }
    }

    /** The result the resolution returns once it stops. */
    static lemma Concluded(problem: string, replies: seq<Completion>, tools: seq<Mcp.Tool>,
                           requests: seq<Llm.Request<Message>>, reply: Result<Completion>,
                           outage: string, listed: seq<Mcp.Request>, log: seq<Mcp.Request>,
                           answer: (nat, Mcp.Request) -> Mcp.Outcome)
      requires Opened(problem, replies, tools, answer, |listed|, requests)
      requires |requests| <= MaxCompletions
      requires |requests| - 1 <= |replies|
      requires log == listed + TurnsTraffic(replies[..|requests| - 1])
      requires reply.Success? ==> |requests| - 1 < |replies| && reply.value == replies[|requests| - 1]
      requires reply.Failure? ==> |requests| > |replies| && reply.error == outage
      requires |requests| == MaxCompletions || reply.Failure? || !RequestsTools(reply.value)
      ensures Conversed(problem, replies, answer, |listed|, requests)
      ensures (if reply.Failure? then Failure(reply.error) else Success(ExtractResult(reply.value)))
              == Resolution(replies, outage)
      ensures Requests(replies) - 1 <= |replies|
      ensures log == listed + TurnsTraffic(replies[..Requests(replies) - 1])
    {
      Closed(problem, replies, tools, answer, |listed|, requests);
    }

    /** `resolverProblemaConLLM`: up to four completion requests, each after a tool turn
        answering the previous reply's calls; the last reply's text is the result. A
        failed request is the result as it is. */
    method ResolveWithLLM(problem: string) returns (r: Result<string>)
      modifies vendor, mcp
      ensures old(vendor.sent) <= vendor.sent
      ensures Conversed(problem, old(vendor.Pending()), mcp.answer, |old(mcp.log)| + 1,
                        vendor.sent[|old(vendor.sent)|..])
      ensures vendor.sent[|old(vendor.sent)|].tools == Tools.Manifest(mcp.catalog)
      ensures r == Resolution(old(vendor.Pending()), vendor.outage)
      ensures Requests(old(vendor.Pending())) - 1 <= |old(vendor.Pending())|
      ensures mcp.log == old(mcp.log) + [Mcp.List]
                         + TurnsTraffic(old(vendor.Pending())[..Requests(old(vendor.Pending())) - 1])
    {
      ghost var replies := vendor.Pending();
      ghost var before := vendor.sent;
      var tools := Tools.PrepareTools(mcp);
      ghost var listed := mcp.log;
      var transcript := new Llm.Transcript([User(problem)]);

      var reply := vendor.Create(transcript.messages, tools);
      ghost var requests := [Llm.Request(transcript.messages, tools)];
      assert Opened(problem, replies, tools, mcp.answer, |listed|, requests);
      assert mcp.log == listed + TurnsTraffic(replies[..0]);
      if reply.Failure? || !RequestsTools(reply.value) {
        Concluded(problem, replies, tools, requests, reply, vendor.outage, listed, mcp.log, mcp.answer);
        assert vendor.sent[|before|..] == requests;
        return if reply.Failure? then Failure(reply.error) else Success(ExtractResult(reply.value));
      }
      var message := reply.value;

      reply, requests := FollowUp(problem, replies, tools, before, listed, requests, message, transcript);
      if reply.Failure? || !RequestsTools(reply.value) {
        Concluded(problem, replies, tools, requests, reply, vendor.outage, listed, mcp.log, mcp.answer);
        assert vendor.sent[|before|..] == requests;
        return if reply.Failure? then Failure(reply.error) else Success(ExtractResult(reply.value));
      }
      message := reply.value;

      reply, requests := FollowUp(problem, replies, tools, before, listed, requests, message, transcript);
      if reply.Failure? || !RequestsTools(reply.value) {
        Concluded(problem, replies, tools, requests, reply, vendor.outage, listed, mcp.log, mcp.answer);
        assert vendor.sent[|before|..] == requests;
        return if reply.Failure? then Failure(reply.error) else Success(ExtractResult(reply.value));
      }
      message := reply.value;

      reply, requests := FollowUp(problem, replies, tools, before, listed, requests, message, transcript);
      Concluded(problem, replies, tools, requests, reply, vendor.outage, listed, mcp.log, mcp.answer);
      assert vendor.sent[|before|..] == requests;
      return if reply.Failure? then Failure(reply.error) else Success(ExtractResult(reply.value));
    }
  }
}
