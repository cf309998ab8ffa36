/**
 * The capability (MCP) client as the orchestrator sees it: `listTools`,
 * `readResource` and `callTool`.  The server behind it is a scripted oracle:
 * `catalog` is what `listTools` yields (None when it fails) and
 * `answer(k, q)` is the outcome of the k-th call the client makes.  The
 * client keeps a log of every request it was asked to send.
 */
module Mcp {
  import opened Wrappers
  import opened Js

  /** A tool as the server advertises it (name, description, JSON schema of its input). */
  datatype Tool = Tool(name: string, description: string, inputSchema: Value)

  datatype Request =
    | List
    | Read(uri: string)
    | Call(name: string, arguments: Value)

  /** What a `readResource` or `callTool` produced: a value, or a thrown error's message.
      For `readResource` the value is the already decoded list of content chunks, and a
      failing decoder is a `Failed` outcome like a failing transport. */
  datatype Outcome = Returned(value: Value) | Failed(message: string)

  class Client {
    const catalog: Option<seq<Tool>>
    const answer: (nat, Request) -> Outcome
    var log: seq<Request>

    constructor (catalog: Option<seq<Tool>>, answer: (nat, Request) -> Outcome)
      ensures this.catalog == catalog && this.answer == answer
      ensures log == []
    {
      this.catalog := catalog;
      this.answer := answer;
      log := [];
    }

    method ListTools() returns (tools: Option<seq<Tool>>)
      modifies this
      ensures log == old(log) + [List]
      ensures tools == catalog
    {
      log := log + [List];
      tools := catalog;
    }

    method ReadResource(uri: string) returns (outcome: Outcome)
      modifies this
      ensures log == old(log) + [Read(uri)]
      ensures outcome == answer(|old(log)|, Read(uri))
    {
      outcome := answer(|log|, Read(uri));
      log := log + [Read(uri)];
    }

    method CallTool(name: string, arguments: Value) returns (outcome: Outcome)
      modifies this
      ensures log == old(log) + [Call(name, arguments)]
      ensures outcome == answer(|old(log)|, Call(name, arguments))
    {
      outcome := answer(|log|, Call(name, arguments));
      log := log + [Call(name, arguments)];
    }
  }
}
