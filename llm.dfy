/**
 * The two pieces of state a conversation needs besides the capability
 * client: the vendor's chat endpoint, scripted, and the message list that
 * the loop appends to in place.
 */
module Llm {
  import opened Wrappers
  import Mcp

  /** One request as it reached the vendor: the message list at that moment and the tool manifest. */
  datatype Request<M> = Request(messages: seq<M>, tools: seq<Mcp.Tool>)

  /**
   * A vendor endpoint that answers from a script of canned replies, one per
   * request, in order.  Once the script is used up every request fails with
   * `outage`, the way a transport error surfaces from the vendor's SDK.
   */
  class Vendor<M, R> {
    const script: seq<R>
    const outage: string
    var sent: seq<Request<M>>

    constructor (script: seq<R>, outage: string)
      ensures this.script == script && this.outage == outage
      ensures sent == [] && Pending() == script
    {
      this.script := script;
      this.outage := outage;
      sent := [];
    }

    /** The replies the next requests will receive. */
    ghost function Pending(): seq<R>
      reads this
    {
      if |sent| <= |script| then script[|sent|..] else []
    }

    method Create(messages: seq<M>, tools: seq<Mcp.Tool>) returns (reply: Result<R>)
      modifies this
      ensures sent == old(sent) + [Request(messages, tools)]
      ensures old(Pending()) != [] ==> reply == Success(old(Pending())[0]) && Pending() == old(Pending())[1..]
      ensures old(Pending()) == [] ==> reply == Failure(outage) && Pending() == []
    {
      if |sent| < |script| {
        reply := Success(script[|sent|]);
      } else {
        reply := Failure(outage);
      }
      sent := sent + [Request(messages, tools)];
    }
  }

  /** The conversation's message list; it is only ever appended to. */
  class Transcript<M> {
    var messages: seq<M>

    constructor (initial: seq<M>)
      ensures messages == initial
    {
      messages := initial;
    }

    method Push(m: M)
      modifies this
      ensures messages == old(messages) + [m]
    {
      messages := messages + [m];
    }
  }
}
