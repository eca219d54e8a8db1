/** The two request handlers a server instance registers (list-tools and
    call-tool), the in-order handling of one session's requests, and the
    service description served at the HTTP root. */
module Server {
  import opened Wrappers
  import opened JsValue
  import Registry
  import Dispatcher

  datatype Request =
    | ListToolsRequest
    | CallToolRequest(name: string, arguments: Args)

  datatype Response =
    | ListToolsResult(tools: seq<Registry.ToolDescriptor>)
    | ToolResult(result: Dispatcher.CallToolResult)

  /** Routes a request to the handler registered for its kind; `now` is the
      clock reading a `get_timestamp` call would take. */
  function Handle(request: Request, now: string): (r: Response)
    ensures r.ListToolsResult? <==> request.ListToolsRequest?
    ensures r.ListToolsResult? ==> r.tools == Registry.Tools
    ensures r.ToolResult? ==>
      && |r.result.content| == 1 && r.result.content[0].kind == "text"
      && (r.result.isError == Some(true) <==> Dispatcher.Invoke(request.name, request.arguments, now).Failure?)
  {
    match request
    case ListToolsRequest => ListToolsResult(Registry.Tools)
    case CallToolRequest(name, args) => ToolResult(Dispatcher.CallTool(name, args, now))
  }

  /** One session: requests are answered one by one, in arrival order;
      `clock(i)` is the clock reading while request `i` is handled. */
  function Serve(requests: seq<Request>, clock: nat -> string): (responses: seq<Response>)
    ensures |responses| == |requests|
    ensures forall i :: 0 <= i < |requests| ==> responses[i] == Handle(requests[i], clock(i))
  {
    if requests == [] then []
    else
      var last := |requests| - 1;
      Serve(requests[..last], clock) + [Handle(requests[last], clock(last))]
  }

  /** Listing the tools returns the registry unchanged, whatever requests came before. */
  lemma ListingIgnoresHistory(history: seq<Request>, clock: nat -> string)
    ensures Serve(history + [ListToolsRequest], clock)[|history|] == ListToolsResult(Registry.Tools)
    ensures Serve(history + [ListToolsRequest], clock)[|history|].tools == [Registry.EchoTool, Registry.AddTool, Registry.TimestampTool]
  {
  }

  /** Every call-tool request in a session is answered with exactly one text
      item, and nothing escapes as a fault. */
  lemma SessionCallsAreWellFormed(requests: seq<Request>, clock: nat -> string, i: nat)
    requires i < |requests| && requests[i].CallToolRequest?
    ensures Serve(requests, clock)[i].ToolResult?
    ensures |Serve(requests, clock)[i].result.content| == 1
    ensures Serve(requests, clock)[i].result.content[0].kind == "text"
  {
  }

  /** The JSON body of `GET /`. */
  datatype ServiceInfo = ServiceInfo(
    name: string,
    version: string,
    description: string,
    websocket: string,
    tools: seq<Registry.ToolSummary>)

  /** `GET /` for a request whose `Host` header is `host`. */
  function RootInfo(host: string): (r: ServiceInfo)
    ensures |r.websocket| == |host| + 6
    ensures r.websocket[..5] == "ws://" && r.websocket[5..|r.websocket| - 1] == host
    ensures r.websocket[|r.websocket| - 1] == '/'
    ensures |r.tools| == |Registry.Tools|
    ensures forall i :: 0 <= i < |r.tools| ==> r.tools[i].name == Registry.Tools[i].name
  {
    ServiceInfo(
      "mcp-server-joeleesuh",
      "1.0.0",
      "MCP server with echo, add, and timestamp tools",
      "ws://" + host + "/",
      Registry.Summaries(Registry.Tools))
  }

  /** The root endpoint lists every registered tool, in registry order, by
      name and description. */
  lemma RootListsRegistry(host: string)
    ensures |RootInfo(host).tools| == |Registry.Tools| == 3
    ensures forall i :: 0 <= i < 3 ==>
      RootInfo(host).tools[i] == Registry.ToolSummary(Registry.Tools[i].name, Registry.Tools[i].description)
    ensures RootInfo(host).tools[0].name == "echo"
    ensures RootInfo(host).tools[1].name == "add"
    ensures RootInfo(host).tools[2].name == "get_timestamp"
  {
  }
}
