/**
 * What both adapters share about tools: the manifest offered to the vendor
 * (the server's tools, then two resource-reading built-ins) and the routing
 * of one requested tool call to the capability client.
 */
module Tools {
  import opened Wrappers
  import opened Js
  import Mcp

  const TrelloListsTool := "get_trello_lists"
  const KnownProblemsTool := "get_known_problems"
  const TicketTool := "trello-create-ticket-tool"
  const TrelloListsUri := "mcp://trello/lists"
  const KnownProblemsUri := "mcp://known-problems"
  const MissingParameters := "Missing required parameters"

  /** `{type: 'object', properties: {}, required: []}`, the input schema of both built-ins. */
  const NoArguments := Obj(map["type" := Str("object"), "properties" := Obj(map[]), "required" := Arr([])])

  const Builtins: seq<Mcp.Tool> := [
    Mcp.Tool(TrelloListsTool, "Obtiene el listado de listas disponibles en Trello", NoArguments),
    Mcp.Tool(KnownProblemsTool, "Obtiene la lista de problemas conocidos resueltos", NoArguments)
  ]

  /** The manifest: the server's tools in server order, then the two built-ins; only the
      built-ins when listing the server's tools failed. */
  function Manifest(listed: Option<seq<Mcp.Tool>>): (tools: seq<Mcp.Tool>)
    ensures |tools| == |listed.GetOr([])| + 2
    ensures forall i :: 0 <= i < |listed.GetOr([])| ==> tools[i] == listed.GetOr([])[i]
    ensures tools[|tools| - 2].name == TrelloListsTool && tools[|tools| - 1].name == KnownProblemsTool
    ensures listed.None? ==> tools == Builtins
  {
    listed.GetOr([]) + Builtins
  }

  /** `prepareTools`: ask the server for its tools once and build the manifest. */
  method PrepareTools(mcp: Mcp.Client) returns (tools: seq<Mcp.Tool>)
    modifies mcp
    ensures mcp.log == old(mcp.log) + [Mcp.List]
    ensures tools == Manifest(mcp.catalog)
  {
    var listed := mcp.ListTools();
    tools := [];
    if listed.Some? {
      tools := listed.value;
    }
    tools := tools + Builtins;
  }

  /** The three ticket fields after alias resolution. */
  datatype Ticket = Ticket(listId: Value, name: Value, description: Value)

  /** `idList || listId`, `name`, `desc || description` read off the call's arguments. */
  function TicketFields(args: Value): (t: Ticket)
    ensures Truthy(Get(args, "idList")) ==> t.listId == Get(args, "idList")
    ensures !Truthy(Get(args, "idList")) ==> t.listId == Get(args, "listId")
    ensures t.name == Get(args, "name")
    ensures Truthy(Get(args, "desc")) ==> t.description == Get(args, "desc")
    ensures !Truthy(Get(args, "desc")) ==> t.description == Get(args, "description")
  {
    Ticket(Or(Get(args, "idList"), Get(args, "listId")), Get(args, "name"),
           Or(Get(args, "desc"), Get(args, "description")))
  }

  predicate Complete(t: Ticket) {
    Truthy(t.listId) && Truthy(t.name) && Truthy(t.description)
  }

  /** `{listId, name, description}`, the arguments sent to the ticket tool. */
  function TicketArguments(t: Ticket): Value {
    Obj(map["listId" := t.listId, "name" := t.name, "description" := t.description])
  }

  /** Where one tool call goes: a resource read, a tool call, or an immediate result. */
  datatype Action =
    | ReadResource(uri: string)
    | CallTool(tool: string, arguments: Value)
    | Immediate(payload: Value)

  /**
   * The adapters' `switch (functionName)`: the two built-ins read their fixed
   * resource, the ticket tool is called with its resolved fields, and every
   * other name is forwarded verbatim.  `guarded` is the OpenAI adapter's
   * missing-parameter check, which the Anthropic adapter does not have.
   */
  function Route(guarded: bool, name: string, args: Value): (a: Action)
    ensures name == TrelloListsTool ==> a == ReadResource(TrelloListsUri)
    ensures name == KnownProblemsTool ==> a == ReadResource(KnownProblemsUri)
    ensures name == TicketTool && guarded && !Complete(TicketFields(args)) ==>
              a == Immediate(ErrorPayload(MissingParameters))
    ensures name == TicketTool && (!guarded || Complete(TicketFields(args))) ==>
              a == CallTool(TicketTool, TicketArguments(TicketFields(args)))
    ensures name != TrelloListsTool && name != KnownProblemsTool && name != TicketTool ==>
              a == CallTool(name, args)
  {
    if name == TrelloListsTool then ReadResource(TrelloListsUri)
    else if name == KnownProblemsTool then ReadResource(KnownProblemsUri)
    else if name == TicketTool then
      var t := TicketFields(args);
      if guarded && !Complete(t) then Immediate(ErrorPayload(MissingParameters))
      else CallTool(TicketTool, TicketArguments(t))
    else CallTool(name, args)
  }

  /** The requests an action sends to the capability client: one, or none. */
  function Traffic(a: Action): seq<Mcp.Request> {
    match a
    case ReadResource(uri) => [Mcp.Read(uri)]
    case CallTool(tool, arguments) => [Mcp.Call(tool, arguments)]
    case Immediate(_) => []
  }

  /** The result an action yields when the server answers its k-th call with `answer`:
      a server failure becomes `{error: message}`. */
  function Settle(a: Action, answer: (nat, Mcp.Request) -> Mcp.Outcome, k: nat): (payload: Value)
    ensures a.Immediate? ==> payload == a.payload
    ensures !a.Immediate? && answer(k, Traffic(a)[0]).Returned? ==> payload == answer(k, Traffic(a)[0]).value
    ensures !a.Immediate? && answer(k, Traffic(a)[0]).Failed? ==> payload == ErrorPayload(answer(k, Traffic(a)[0]).message)
  {
    if a.Immediate? then a.payload
    else
      match answer(k, Traffic(a)[0])
      case Returned(v) => v
      case Failed(message) => ErrorPayload(message)
  }

  /** Carry out an action against the client (`getTrelloLists`, `getKnownProblems`,
      `createTrelloTicket` and the default branch); it never throws. */
  method Perform(a: Action, mcp: Mcp.Client) returns (payload: Value)
    modifies mcp
    ensures mcp.log == old(mcp.log) + Traffic(a)
    ensures payload == Settle(a, mcp.answer, |old(mcp.log)|)
  {
    match a {
      case Immediate(p) =>
        payload := p;
      case ReadResource(uri) =>
        var outcome := mcp.ReadResource(uri);
        payload := if outcome.Returned? then outcome.value else ErrorPayload(outcome.message);
      case CallTool(tool, arguments) =>
        var outcome := mcp.CallTool(tool, arguments);
        payload := if outcome.Returned? then outcome.value else ErrorPayload(outcome.message);
    }
  }

  /** Only the two built-in names read resources, each its own fixed URI. */
  lemma ReadsOnlyForBuiltins(guarded: bool, name: string, args: Value, uri: string)
    ensures Route(guarded, name, args) == ReadResource(uri)
            <==> (name == TrelloListsTool && uri == TrelloListsUri) || (name == KnownProblemsTool && uri == KnownProblemsUri)
  {
  }

  /** With the guard, the ticket tool is called exactly when all three resolved fields are
      truthy; without it, it is always called. */
  lemma TicketGuard(name: string, args: Value)
    requires name == TicketTool
    ensures Route(true, name, args).CallTool? <==> Complete(TicketFields(args))
    ensures Route(false, name, args) == CallTool(TicketTool, TicketArguments(TicketFields(args)))
    ensures !Route(true, name, args).CallTool? ==> Traffic(Route(true, name, args)) == []
  {
  }
}
