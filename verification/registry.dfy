/** The fixed tool registry (`TOOLS`) and the projection of it that the root
    HTTP endpoint advertises. */
module Registry {
  import opened Wrappers

  /** One entry of an input schema's `properties` object. */
  datatype PropertyDecl = PropertyDecl(name: string, jsonType: string, description: string)

  /** A tool's `inputSchema`: always of type "object"; `required` may be absent. */
  datatype InputSchema = InputSchema(schemaType: string, properties: seq<PropertyDecl>, required: Option<seq<string>>)

  datatype ToolDescriptor = ToolDescriptor(name: string, description: string, inputSchema: InputSchema)

  const EchoTool := ToolDescriptor(
    "echo",
    "Echoes back the provided message",
    InputSchema("object", [PropertyDecl("message", "string", "The message to echo back")], Some(["message"])))

  const AddTool := ToolDescriptor(
    "add",
    "Adds two numbers together",
    InputSchema(
      "object",
      [PropertyDecl("a", "number", "The first number"), PropertyDecl("b", "number", "The second number")],
      Some(["a", "b"])))

  const TimestampTool := ToolDescriptor(
    "get_timestamp",
    "Returns the current timestamp in ISO 8601 format",
    InputSchema("object", [], None))

  /** The registry, in the order it is listed. */
  const Tools: seq<ToolDescriptor> := [EchoTool, AddTool, TimestampTool]

  /** The names of `tools`, position by position. */
  function Names(tools: seq<ToolDescriptor>): (names: seq<string>)
    ensures |names| == |tools|
    ensures forall i :: 0 <= i < |tools| ==> names[i] == tools[i].name
  {
    if tools == [] then [] else [tools[0].name] + Names(tools[1..])
  }

  predicate Distinct(s: seq<string>) {
    forall i, j :: 0 <= i < j < |s| ==> s[i] != s[j]
  }

  /** The names a schema declares as properties. */
  function PropertyNames(props: seq<PropertyDecl>): (names: set<string>)
    ensures forall p :: p in props ==> p.name in names
    ensures forall n :: n in names ==> exists p :: p in props && p.name == n
  {
    if props == [] then {} else {props[0].name} + PropertyNames(props[1..])
  }

  /** Every name a schema marks as required is one of its declared properties. */
  predicate RequiredDeclared(schema: InputSchema) {
    schema.required.Some? ==>
      forall r :: r in schema.required.value ==> r in PropertyNames(schema.properties)
  }

  /** The registry holds exactly echo, add and get_timestamp, in that order,
      with pairwise distinct names and well-formed schemas. */
  lemma RegistryShape()
    ensures |Tools| == 3
    ensures Names(Tools) == ["echo", "add", "get_timestamp"]
    ensures Distinct(Names(Tools))
    ensures forall t :: t in Tools ==> t.inputSchema.schemaType == "object" && RequiredDeclared(t.inputSchema)
  {
  }

  /** `{name, description}` of one tool, as the root endpoint lists it. */
  datatype ToolSummary = ToolSummary(name: string, description: string)

  /** `tools.map(t => ({name: t.name, description: t.description}))`. */
  function Summaries(tools: seq<ToolDescriptor>): (r: seq<ToolSummary>)
    ensures |r| == |tools|
    ensures forall i :: 0 <= i < |tools| ==>
      r[i].name == tools[i].name && r[i].description == tools[i].description
  {
    if tools == [] then [] else [ToolSummary(tools[0].name, tools[0].description)] + Summaries(tools[1..])
  }
}
