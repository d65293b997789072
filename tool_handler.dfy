/**
  The client's tool dispatcher: executes a tool call by name and answers
  the two lookups the renderers need, with their defaults for a miss.
 */
module ToolHandler {
  import opened Values
  import opened ToolsConfig

  const DrawerLocation: string := "drawer"
  const ComponentAreaLocation: string := "component-area"

  function UnknownTool(toolName: string): string {
    "Unknown tool: " + toolName
  }

  /** `executeToolCall`: the executor's outcome, or the unknown-tool error for a miss or an entry without executor. */
  function ExecuteToolCall(registry: map<string, ToolEntry>, toolName: string, parameters: Value, w: World): (r: Result<Value, string>)
    ensures (toolName !in registry || registry[toolName].executor.None?) ==> r == Err(UnknownTool(toolName))
    ensures toolName in registry && registry[toolName].executor.Some? ==>
              r == RunExecutor(registry[toolName].executor.value, parameters, w)
  {
    if toolName !in registry || registry[toolName].executor.None? then Err(UnknownTool(toolName))
    else RunExecutor(registry[toolName].executor.value, parameters, w)
  }

  /** `getToolRenderer`: the entry's component, or none. */
  function GetToolRenderer(registry: map<string, ToolEntry>, toolName: string): (r: Option<Component>)
    ensures r.Some? <==> toolName in registry && registry[toolName].component.Some?
    ensures r.Some? ==> r.value == registry[toolName].component.value
  {
    if toolName in registry then registry[toolName].component else None
  }

  /** The render location an entry asks for, if it names one (an empty string does not). */
  function StatedLocation(e: ToolEntry): Option<string> {
    if e.renderLocation.Some? && e.renderLocation.value != "" then e.renderLocation else None
  }

  /** `getToolRenderLocation`: the entry's location, `drawer` for a miss or a missing location. */
  function GetToolRenderLocation(registry: map<string, ToolEntry>, toolName: string): (r: string)
    ensures toolName in registry && StatedLocation(registry[toolName]).Some? ==> r == registry[toolName].renderLocation.value
    ensures toolName !in registry || StatedLocation(registry[toolName]).None? ==> r == DrawerLocation
    ensures r != ""
  {
    if toolName in registry && StatedLocation(registry[toolName]).Some? then registry[toolName].renderLocation.value
    else DrawerLocation
  }

  /** Every entry that states a location states one of the two surfaces. */
  predicate LocationsWellFormed(registry: map<string, ToolEntry>) {
    forall n :: n in registry && StatedLocation(registry[n]).Some? ==>
      StatedLocation(registry[n]).value in {DrawerLocation, ComponentAreaLocation}
  }

  /** The documented result, "component-area" or "drawer", holds for every name when the entries are well formed. */
  lemma RenderLocationIsASurface(registry: map<string, ToolEntry>, toolName: string)
    requires LocationsWellFormed(registry)
    ensures GetToolRenderLocation(registry, toolName) in {DrawerLocation, ComponentAreaLocation}
  {
    if toolName in registry && StatedLocation(registry[toolName]).Some? {
      assert StatedLocation(registry[toolName]).value == registry[toolName].renderLocation.value;
    }
  }

  /** The built-in registry: the time tool renders in the drawer, the sample-data tool in the component area. */
  lemma DefaultRegistryLocations()
    ensures LocationsWellFormed(DefaultEntries)
    ensures GetToolRenderLocation(DefaultEntries, "getCurrentTime") == DrawerLocation
    ensures GetToolRenderLocation(DefaultEntries, "getSampleData") == ComponentAreaLocation
    ensures GetToolRenderer(DefaultEntries, "getCurrentTime") == Some("TimeDisplay")
    ensures GetToolRenderer(DefaultEntries, "getSampleData") == Some("SampleDataList")
    ensures forall n :: n !in {"getCurrentTime", "getSampleData"} ==>
              GetToolRenderLocation(DefaultEntries, n) == DrawerLocation && GetToolRenderer(DefaultEntries, n).None?
  {
  }

  /** Registering a well-formed entry keeps every location a surface. */
  lemma RegisterKeepsLocationsWellFormed(registry: map<string, ToolEntry>, toolName: string, config: ToolEntry)
    requires LocationsWellFormed(registry)
    requires StatedLocation(config).Some? ==> StatedLocation(config).value in {DrawerLocation, ComponentAreaLocation}
    ensures LocationsWellFormed(registry[toolName := config])
  {
  }

  /** After `registerTool(name, config)` the dispatcher runs the new executor for `name` and nothing changes for other names. */
  lemma DispatchAfterRegister(registry: map<string, ToolEntry>, toolName: string, config: ToolEntry,
                              other: string, parameters: Value, w: World)
    requires other != toolName
    ensures ExecuteToolCall(registry[toolName := config], toolName, parameters, w)
         == if config.executor.Some? then RunExecutor(config.executor.value, parameters, w) else Err(UnknownTool(toolName))
    ensures ExecuteToolCall(registry[toolName := config], other, parameters, w) == ExecuteToolCall(registry, other, parameters, w)
    ensures GetToolRenderLocation(registry[toolName := config], other) == GetToolRenderLocation(registry, other)
  {
  }
}
