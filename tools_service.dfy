/**
  The server's tool schemas (schema only: the client executes the tools)
  and their conversion to the format the provider binding expects.
 */
module ToolsService {
  import opened Values

  datatype ToolDefinition = ToolDefinition(name: string, description: string, schema: Value)

  /** The converted tool: `schema` is renamed `input_schema`. */
  datatype LangChainTool = LangChainTool(name: string, description: string, inputSchema: Value)

  /** An object schema with one optional string property. */
  function OptionalStringSchema(property: string, description: string): Value {
    Obj(map[
      "type" := Str("object"),
      "properties" := Obj(map[property := Obj(map["type" := Str("string"), "description" := Str(description)])]),
      "required" := Arr([])])
  }

  const GetCurrentTime: ToolDefinition := ToolDefinition(
    "getCurrentTime",
    "Get the current date and time. ONLY use this tool when the user explicitly asks about time, date, or \"what time is it\". Do NOT use for general questions, greetings, or unrelated queries.",
    OptionalStringSchema("timezone", "Optional timezone (e.g., \"America/New_York\", \"Europe/Oslo\"). Defaults to UTC if not provided."))

  const GetSampleData: ToolDefinition := ToolDefinition(
    "getSampleData",
    "Get sample data items for demonstration purposes. Use this when the user asks to see sample data, demo data, or example items. Supports optional category filtering.",
    OptionalStringSchema("category", "Optional category to filter items (e.g., \"books\", \"products\", \"services\"). If not provided, returns all items."))

  const Tools: seq<ToolDefinition> := [GetCurrentTime, GetSampleData]

  /** The registered schemas: exactly two, with distinct names, and no required parameter. */
  lemma ToolsAreTheTwoSchemas()
    ensures |Tools| == 2
    ensures Tools[0].name == "getCurrentTime" && Tools[1].name == "getSampleData"
    ensures forall i, j :: 0 <= i < j < |Tools| ==> Tools[i].name != Tools[j].name
    ensures forall k :: 0 <= k < |Tools| ==> Prop(Tools[k].schema, "required") == Arr([])
    ensures forall k :: 0 <= k < |Tools| ==> Prop(Tools[k].schema, "type") == Str("object")
  {
  }

  /** `tool => ({name, description, input_schema: tool.schema})` mapped over a list, in order. */
  function Convert(tools: seq<ToolDefinition>): (r: seq<LangChainTool>)
    ensures |r| == |tools|
    ensures forall k :: 0 <= k < |tools| ==>
              && r[k].name == tools[k].name
              && r[k].description == tools[k].description
              && r[k].inputSchema == tools[k].schema
    decreases |tools|
  {
    if tools == [] then []
    else [LangChainTool(tools[0].name, tools[0].description, tools[0].schema)] + Convert(tools[1..])
  }

  /** `convertToLangChainTools` */
  function ConvertToLangChainTools(): (r: seq<LangChainTool>)
    ensures |r| == |Tools| == 2
    ensures r[0].name == "getCurrentTime" && r[1].name == "getSampleData"
    ensures forall k :: 0 <= k < |r| ==> r[k].inputSchema == Tools[k].schema && r[k].description == Tools[k].description
  {
    Convert(Tools)
  }
}
