/** The tool manager: a name-keyed registry (a JavaScript `Map`, so names keep
    their registration order), the registration of the two built-in tools
    as the configuration store allows, the declaration list handed to the
    model, and the dispatch of a function call to a tool. The tool objects
    themselves (web search, weather) are values given from outside: whether
    they offer a declaration, which one, and whether they have `execute`. */
module ToolRegistry {
  import opened Common
  import opened ToolConfigs

  /** A registered tool object: its `getDeclaration()` result, when it has
      that method, and whether it has an `execute` method. */
  datatype Tool = Tool(declaration: Option<Json>, hasExecute: bool)

  type ToolMap = OrderedMap<string, Tool>

  /** The registry after a sequence of `registerTool` calls, and whether one
      of them threw (the later ones are then never made). */
  datatype Registration = Registration(tools: ToolMap, outcome: Outcome)

  function DuplicateError(name: string): AppError {
    AppError("Tool " + name + " is already registered", InvalidState)
  }

  /** The names of a list of pending registrations, in order. */
  function Names(pending: seq<(string, Tool)>): (r: seq<string>)
    ensures |r| == |pending| && forall i :: 0 <= i < |pending| ==> r[i] == pending[i].0
  {
    seq(|pending|, i requires 0 <= i < |pending| => pending[i].0)
  }

  /** `registerTool` applied to each pending pair in turn, stopping at the
      first name that is already registered. */
  function RegisterAll(m: ToolMap, pending: seq<(string, Tool)>): (r: Registration)
    requires WellFormed(m)
    ensures WellFormed(r.tools)
    decreases |pending|
  {
    if pending == [] then Registration(m, Done)
    else
      var prior := RegisterAll(m, pending[..|pending| - 1]);
      var name := pending[|pending| - 1].0;
      if prior.outcome.Failed? then prior
      else if name in prior.tools.entries then Registration(prior.tools, Failed(DuplicateError(name)))
      else Registration(MapSet(prior.tools, name, pending[|pending| - 1].1), Done)
  }

  /** The names of `pending` are pairwise distinct and none is registered
      in `m` yet. */
  ghost predicate Fresh(m: ToolMap, pending: seq<(string, Tool)>) {
    Distinct(Names(pending)) && forall i :: 0 <= i < |pending| ==> pending[i].0 !in m.entries
  }

  /** Freshness of a list carries over to all but its last pair, whose name
      is neither registered nor among the earlier ones. */
  lemma FreshInit(m: ToolMap, pending: seq<(string, Tool)>)
    requires Fresh(m, pending) && pending != []
    ensures Fresh(m, pending[..|pending| - 1])
    ensures pending[|pending| - 1].0 !in m.entries
    ensures pending[|pending| - 1].0 !in Names(pending[..|pending| - 1])
    ensures Names(pending) == Names(pending[..|pending| - 1]) + [pending[|pending| - 1].0]
  {
    var n := |pending| - 1;
    var init := pending[..n];
    assert Names(init) == Names(pending)[..n];
    forall i, j | 0 <= i < j < n ensures Names(init)[i] != Names(init)[j] {
      assert Names(pending)[i] != Names(pending)[j];
    }
  }

  /** Registering fresh, pairwise distinct names never fails, and the names
      are appended in order. */
  lemma {:induction false} RegisterFresh(m: ToolMap, pending: seq<(string, Tool)>)
    requires WellFormed(m) && Fresh(m, pending)
    ensures RegisterAll(m, pending).outcome == Done
    ensures RegisterAll(m, pending).tools.keys == m.keys + Names(pending)
    ensures forall k :: k in RegisterAll(m, pending).tools.entries <==> k in m.entries || k in Names(pending)
    decreases |pending|
  {
    if pending != [] {
      var n := |pending| - 1;
      var init := pending[..n];
      FreshInit(m, pending);
      RegisterFresh(m, init);
      var name := pending[n].0;
      var prior := RegisterAll(m, init);
      assert name !in prior.tools.entries;
      assert RegisterAll(m, pending).tools == MapSet(prior.tools, name, pending[n].1);
      assert m.keys + Names(pending) == (m.keys + Names(init)) + [name];
    }
  }

  /** Registering fresh names stores each pair's tool under its name. */
  lemma {:induction false} RegisterFreshEntries(m: ToolMap, pending: seq<(string, Tool)>)
    requires WellFormed(m) && Fresh(m, pending)
    ensures forall i :: 0 <= i < |pending| ==>
      pending[i].0 in RegisterAll(m, pending).tools.entries
      && RegisterAll(m, pending).tools.entries[pending[i].0] == pending[i].1
    decreases |pending|
  {
    if pending != [] {
      var n := |pending| - 1;
      var init := pending[..n];
      FreshInit(m, pending);
      RegisterFresh(m, init);
      RegisterFreshEntries(m, init);
      var name := pending[n].0;
      var prior := RegisterAll(m, init);
      var r := RegisterAll(m, pending);
      assert r.tools == MapSet(prior.tools, name, pending[n].1);
      forall i | 0 <= i < |pending| ensures r.tools.entries[pending[i].0] == pending[i].1 {
        if i < n {
          assert init[i] == pending[i];
          assert Names(init)[i] == pending[i].0;
        }
      }
    }
  }

  /** ... and leaves the entries registered before alone. */
  lemma {:induction false} RegisterFreshKeeps(m: ToolMap, pending: seq<(string, Tool)>)
    requires WellFormed(m) && Fresh(m, pending)
    ensures forall k :: k in m.entries ==>
      k in RegisterAll(m, pending).tools.entries && RegisterAll(m, pending).tools.entries[k] == m.entries[k]
    decreases |pending|
  {
    if pending != [] {
      var n := |pending| - 1;
      FreshInit(m, pending);
      RegisterFresh(m, pending[..n]);
      RegisterFreshKeeps(m, pending[..n]);
    }
  }

  /** `config && config.enabled` on the stored configuration of `id`. */
  predicate Enabled(configs: ConfigMap, id: string) {
    id in configs.entries && configs.entries[id].config.enabled
  }

  /** What `registerDefaultTools` registers: web search under `googleSearch`
      when the `google_search` configuration is enabled, then the weather
      tool under `weather` when the `weather` configuration is enabled. */
  function DefaultSelection(configs: ConfigMap, search: Tool, weather: Tool): (r: seq<(string, Tool)>)
    ensures Distinct(Names(r))
    ensures forall i :: 0 <= i < |r| ==>
      (r[i] == ("googleSearch", search) && Enabled(configs, "google_search"))
      || (r[i] == ("weather", weather) && Enabled(configs, "weather"))
  {
    (if Enabled(configs, "google_search") then [("googleSearch", search)] else [])
    + (if Enabled(configs, "weather") then [("weather", weather)] else [])
  }

  /** The names `registerDefaultTools` uses, for the enabled tools only. */
  function EnabledNames(configs: ConfigMap): (r: seq<string>)
    ensures forall k :: k in r <==>
      (k == "googleSearch" && Enabled(configs, "google_search")) || (k == "weather" && Enabled(configs, "weather"))
  {
    (if Enabled(configs, "google_search") then ["googleSearch"] else [])
    + (if Enabled(configs, "weather") then ["weather"] else [])
  }

  /** On an empty registry the built-in registration cannot fail and
      registers exactly the enabled tools, web search first. */
  lemma DefaultsOnEmpty(configs: ConfigMap, search: Tool, weather: Tool)
    ensures var r := RegisterAll(EmptyMap(), DefaultSelection(configs, search, weather));
      && r.outcome == Done
      && r.tools.keys == EnabledNames(configs)
      && (forall k :: k in r.tools.entries <==> k in EnabledNames(configs))
  {
    var m: ToolMap := EmptyMap();
    var sel := DefaultSelection(configs, search, weather);
    RegisterFresh(m, sel);
    assert Names(sel) == EnabledNames(configs);
  }

  /** ... and each registered name holds its tool object. */
  lemma DefaultsOnEmptyTools(configs: ConfigMap, search: Tool, weather: Tool)
    ensures var r := RegisterAll(EmptyMap(), DefaultSelection(configs, search, weather));
      && ("googleSearch" in r.tools.entries ==> r.tools.entries["googleSearch"] == search)
      && ("weather" in r.tools.entries ==> r.tools.entries["weather"] == weather)
  {
    var m: ToolMap := EmptyMap();
    var sel := DefaultSelection(configs, search, weather);
    DefaultsOnEmpty(configs, search, weather);
    RegisterFreshEntries(m, sel);
    if Enabled(configs, "google_search") {
      assert sel[0] == ("googleSearch", search);
    }
    if Enabled(configs, "weather") {
      assert sel[|sel| - 1] == ("weather", weather);
    }
  }

  /** The declaration list entry of one tool: the weather tool's declaration
      is wrapped as `functionDeclarations`, every other one is keyed by the
      tool's registered name. */
  function Wrap(name: string, declaration: Json): (r: Json)
    ensures r.JObj? && |r.fields| == 1 && r.fields.Values == {declaration}
    ensures name == "weather" ==> "functionDeclarations" in r.fields
    ensures name != "weather" ==> name in r.fields
  {
    if name == "weather" then JObj(map["functionDeclarations" := declaration])
    else JObj(map[name := declaration])
  }

  /** The declarations of the tools registered under `names`, in that order,
      skipping tools without a declaration. */
  function DeclarationsOf(m: ToolMap, names: seq<string>): (r: seq<Json>)
    requires forall k :: k in names ==> k in m.entries
    ensures |r| <= |names|
    decreases |names|
  {
    if names == [] then []
    else
      var prefix := DeclarationsOf(m, names[..|names| - 1]);
      var name := names[|names| - 1];
      match m.entries[name].declaration
      case Some(d) => prefix + [Wrap(name, d)]
      case None => prefix
  }

  /** The declaration list depends only on the tools registered under the
      names walked. */
  lemma {:induction false} DeclarationsFrame(m: ToolMap, m': ToolMap, names: seq<string>)
    requires forall k :: k in names ==> k in m.entries && k in m'.entries && m.entries[k] == m'.entries[k]
    ensures DeclarationsOf(m, names) == DeclarationsOf(m', names)
    decreases |names|
  {
    if names != [] {
      DeclarationsFrame(m, m', names[..|names| - 1]);
    }
  }

  /** Registration order is declaration order: registering a new tool adds
      its declaration, wrapped, after all the earlier ones, and a tool
      without a declaration adds nothing. */
  lemma {:induction false} DeclarationsAfterRegister(m: ToolMap, name: string, tool: Tool)
    requires WellFormed(m) && name !in m.entries
    ensures var m' := MapSet(m, name, tool);
      DeclarationsOf(m', m'.keys) ==
        DeclarationsOf(m, m.keys) + (if tool.declaration.Some? then [Wrap(name, tool.declaration.value)] else [])
  {
    var m' := MapSet(m, name, tool);
    forall k | k in m.keys ensures k in m.entries && k in m'.entries && m.entries[k] == m'.entries[k] {
      assert k != name;
    }
    DeclarationsFrame(m, m', m.keys);
    DeclarationsSnoc(m', m.keys, name);
  }

  /** One more name walked adds at most its own declaration at the end. */
  lemma DeclarationsSnoc(m: ToolMap, names: seq<string>, name: string)
    requires forall k :: k in names ==> k in m.entries
    requires name in m.entries
    ensures DeclarationsOf(m, names + [name]) == DeclarationsOf(m, names)
      + (if m.entries[name].declaration.Some? then [Wrap(name, m.entries[name].declaration.value)] else [])
  {
    assert (names + [name])[..|names|] == names;
  }

  /** Both tools enabled and registered on an empty registry give the web
      search declaration under its name, then the weather one wrapped. */
  lemma {:induction false} BothDeclarations(configs: ConfigMap, search: Json, weather: Json, se: bool, we: bool)
    requires Enabled(configs, "google_search") && Enabled(configs, "weather")
    ensures var r := RegisterAll(EmptyMap(), DefaultSelection(configs, Tool(Some(search), se), Tool(Some(weather), we)));
      DeclarationsOf(r.tools, r.tools.keys)
        == [JObj(map["googleSearch" := search]), JObj(map["functionDeclarations" := weather])]
  {
    var s := Tool(Some(search), se);
    var w := Tool(Some(weather), we);
    DefaultsOnEmpty(configs, s, w);
    DefaultsOnEmptyTools(configs, s, w);
    var r := RegisterAll(EmptyMap(), DefaultSelection(configs, s, w));
    assert r.tools.keys == ["googleSearch"] + ["weather"];
    DeclarationsSnoc(r.tools, [], "googleSearch");
    DeclarationsSnoc(r.tools, ["googleSearch"], "weather");
  }

  /** A function call as the model sends it. */
  datatype FunctionCall = FunctionCall(name: string, args: Json, id: Json)

  /** What a tool's `execute` does with the arguments: resolve with a value
      or throw an error with a message. */
  datatype Execution = Returned(value: Json) | Threw(message: string)

  datatype ResponseBody = Output(output: Json) | ErrorMessage(error: string)

  datatype FunctionResponse = FunctionResponse(response: ResponseBody, id: Json)

  datatype ToolResponse = ToolResponse(functionResponses: seq<FunctionResponse>)

  /** The message of the `TypeError` raised when a tool has no `execute`. */
  const NotAFunction: string := "tool.execute is not a function"

  /** The registry name a call is looked up under: the weather tool also
      answers to `get_weather_on_date`. */
  function ResolveName(name: string): (r: string)
    ensures r == "weather" <==> name == "get_weather_on_date" || name == "weather"
    ensures name != "get_weather_on_date" ==> r == name
  {
    if name == "get_weather_on_date" then "weather" else name
  }

  /** `handleToolCall` on the registry `tools`: an unknown tool is an
      INVALID_PARAMETER error and no response; otherwise exactly one
      response carrying the call's id, holding the tool's result or the
      message of what it threw. */
  function HandleToolCall(tools: ToolMap, call: FunctionCall, execute: (Tool, Json) -> Execution)
    : (r: Result<ToolResponse>)
    ensures r.Err? <==> ResolveName(call.name) !in tools.entries
    ensures r.Err? ==> r.error == AppError("Unknown tool: " + call.name, InvalidParameter)
    ensures r.Ok? ==> |r.value.functionResponses| == 1 && r.value.functionResponses[0].id == call.id
    ensures r.Ok? ==>
      var tool := tools.entries[ResolveName(call.name)];
      var body := r.value.functionResponses[0].response;
      && (body.Output? <==> tool.hasExecute && execute(tool, call.args).Returned?)
      && (body.Output? ==> body.output == execute(tool, call.args).value)
      && (body.ErrorMessage? ==>
            body.error == if tool.hasExecute then execute(tool, call.args).message else NotAFunction)
  {
    var name := ResolveName(call.name);
    if name !in tools.entries then Err(AppError("Unknown tool: " + call.name, InvalidParameter))
    else
      var tool := tools.entries[name];
      var body :=
        if !tool.hasExecute then ErrorMessage(NotAFunction)
        else match execute(tool, call.args)
          case Returned(v) => Output(v)
          case Threw(msg) => ErrorMessage(msg);
      Ok(ToolResponse([FunctionResponse(body, call.id)]))
  }

  /** A `get_weather_on_date` call is answered exactly as a `weather` call
      when the weather tool is registered. */
  lemma WeatherAlias(tools: ToolMap, args: Json, id: Json, execute: (Tool, Json) -> Execution)
    requires "weather" in tools.entries
    ensures HandleToolCall(tools, FunctionCall("get_weather_on_date", args, id), execute)
         == HandleToolCall(tools, FunctionCall("weather", args, id), execute)
  {
  }

  /** With the weather configuration disabled, the registry built by the
      built-in registration answers neither weather call. */
  lemma DisabledWeatherUnknown(configs: ConfigMap, search: Tool, weather: Tool, call: FunctionCall,
                               execute: (Tool, Json) -> Execution)
    requires !Enabled(configs, "weather")
    requires call.name == "weather" || call.name == "get_weather_on_date"
    ensures HandleToolCall(RegisterAll(EmptyMap(), DefaultSelection(configs, search, weather)).tools, call, execute)
         == Err(AppError("Unknown tool: " + call.name, InvalidParameter))
  {
    DefaultsOnEmpty(configs, search, weather);
  }

  /** One entry of `getToolsInfo`. */
  datatype ToolInfo = ToolInfo(name: string, enabled: bool, config: Option<ToolRecord>,
                               hasDeclaration: bool, hasExecute: bool)

  /** The configuration id a registered tool is described by. */
  function ConfigIdFor(name: string): (r: string)
    ensures name != "googleSearch" ==> r == name
  {
    if name == "googleSearch" then "google_search" else name
  }

  class ToolManager {
    var tools: ToolMap

    ghost predicate Valid()
      reads this
    {
      WellFormed(tools)
    }

    /** A new manager holds what the built-in registration puts in an empty
        registry. */
    constructor (mcp: MCPConfig, search: Tool, weather: Tool)
      ensures Valid()
      ensures Registration(tools, Done) == RegisterAll(EmptyMap(), DefaultSelection(mcp.toolConfigs, search, weather))
    {
      tools := EmptyMap();
      new;
      var o := RegisterDefaultTools(mcp, search, weather);
      DefaultsOnEmpty(mcp.toolConfigs, search, weather);
    }

    /** `registerTool`: a fresh name is appended with its tool; a name already
        registered is an INVALID_STATE error and the registry is unchanged. */
    method RegisterTool(name: string, tool: Tool) returns (o: Outcome)
      requires Valid()
      modifies this
      ensures Valid()
      ensures name in old(tools.entries) ==> o == Failed(DuplicateError(name)) && tools == old(tools)
      ensures name !in old(tools.entries) ==>
        o == Done && tools.keys == old(tools.keys) + [name] && tools.entries == old(tools.entries)[name := tool]
    {
      if name in tools.entries {
        return Failed(DuplicateError(name));
      }
      tools := MapSet(tools, name, tool);
      o := Done;
    }

    /** `registerDefaultTools`: both configurations are read first, then the
        enabled tools are registered in order; a throw stops the rest. */
    method RegisterDefaultTools(mcp: MCPConfig, search: Tool, weather: Tool) returns (o: Outcome)
      requires Valid()
      modifies this
      ensures Valid()
      ensures Registration(tools, o) == RegisterAll(old(tools), DefaultSelection(mcp.toolConfigs, search, weather))
    {
      var sel := DefaultSelection(mcp.toolConfigs, search, weather);
      ghost var m := tools;
      var searchOn := Enabled(mcp.toolConfigs, "google_search");
      var weatherOn := Enabled(mcp.toolConfigs, "weather");
      o := Done;
      if searchOn {
        o := RegisterTool("googleSearch", search);
        assert sel[..1] == [("googleSearch", search)] && sel[..1][..0] == [];
        assert RegisterAll(m, sel[..1]) == Registration(tools, o);
        if o.Failed? {
          if weatherOn {
            assert sel[..|sel| - 1] == sel[..1];
          }
          return;
        }
      }
      ghost var mid := tools;
      assert Registration(mid, Done) == RegisterAll(m, sel[..if searchOn then 1 else 0]);
      if weatherOn {
        o := RegisterTool("weather", weather);
        assert sel[..|sel| - 1] == sel[..if searchOn then 1 else 0];
      } else {
        assert sel == sel[..if searchOn then 1 else 0];
      }
    }

    /** `reloadTools`: whatever was registered before, the registry then holds
        exactly the enabled built-in tools, and no duplicate can arise. */
    method ReloadTools(mcp: MCPConfig, search: Tool, weather: Tool)
      requires Valid()
      modifies this
      ensures Valid()
      ensures Registration(tools, Done) == RegisterAll(EmptyMap(), DefaultSelection(mcp.toolConfigs, search, weather))
      ensures "googleSearch" in tools.entries <==> Enabled(mcp.toolConfigs, "google_search")
      ensures "weather" in tools.entries <==> Enabled(mcp.toolConfigs, "weather")
    {
      tools := EmptyMap();
      var o := RegisterDefaultTools(mcp, search, weather);
      DefaultsOnEmpty(mcp.toolConfigs, search, weather);
    }

    /** `getToolDeclarations`: one entry per registered tool that has a
        declaration, in registration order. */
    method GetToolDeclarations() returns (decls: seq<Json>)
      requires Valid()
      ensures decls == DeclarationsOf(tools, tools.keys)
    {
      decls := [];
      var i := 0;
      while i < |tools.keys|
        invariant 0 <= i <= |tools.keys|
        invariant decls == DeclarationsOf(tools, tools.keys[..i])
      {
        var name := tools.keys[i];
        var tool := tools.entries[name];
        assert tools.keys[..i + 1][..i] == tools.keys[..i];
        if tool.declaration.Some? {
          decls := decls + [Wrap(name, tool.declaration.value)];
        }
        i := i + 1;
      }
      assert tools.keys[..i] == tools.keys;
    }

    /** `getToolsInfo`: one entry per registered tool, in registration order,
        described by the configuration `google_search` for `googleSearch` and
        by its own name otherwise; enabled only when that configuration
        exists and is enabled. */
    method GetToolsInfo(mcp: MCPConfig) returns (infos: seq<ToolInfo>)
      requires Valid()
      ensures |infos| == |tools.keys|
      ensures forall i :: 0 <= i < |infos| ==>
        && infos[i].name == tools.keys[i]
        && infos[i].config == mcp.GetConfig(ConfigIdFor(tools.keys[i]))
        && (infos[i].enabled <==> Enabled(mcp.toolConfigs, ConfigIdFor(tools.keys[i])))
        && infos[i].hasDeclaration == tools.entries[tools.keys[i]].declaration.Some?
        && infos[i].hasExecute == tools.entries[tools.keys[i]].hasExecute
    {
      infos := [];
      var i := 0;
      while i < |tools.keys|
        invariant 0 <= i <= |tools.keys|
        invariant |infos| == i
        invariant forall j :: 0 <= j < i ==>
          && infos[j].name == tools.keys[j]
          && infos[j].config == mcp.GetConfig(ConfigIdFor(tools.keys[j]))
          && (infos[j].enabled <==> Enabled(mcp.toolConfigs, ConfigIdFor(tools.keys[j])))
          && infos[j].hasDeclaration == tools.entries[tools.keys[j]].declaration.Some?
          && infos[j].hasExecute == tools.entries[tools.keys[j]].hasExecute
      {
        var name := tools.keys[i];
        var tool := tools.entries[name];
        var config := mcp.GetConfig(ConfigIdFor(name));
        var enabled := config.Some? && config.value.config.enabled;
        infos := infos + [ToolInfo(name, enabled, config, tool.declaration.Some?, tool.hasExecute)];
        i := i + 1;
      }
    }
  }
}
