/** The tool configuration store (`MCPConfig`): validation of a raw
    configuration, the ordered map of stored records, update, enable and
    remove, the bulk import and the statistics. */
module ToolConfigs {
  import opened Common

  const RequiredFields: seq<string> := ["name", "description", "category", "enabled"]

  const ValidCategories: seq<string> :=
    ["search", "information", "utility", "system", "development", "data", "communication", "creative"]

  const DefaultIcon: string := "\U{1F527}"
  const DefaultColor: string := "#666666"

  /** A validated configuration. Name, description, icon, colour,
      permissions and settings are kept as given; the flags are coerced with
      `Boolean`. */
  datatype ToolConfig = ToolConfig(
    name: Json,
    description: Json,
    category: string,
    enabled: bool,
    serverSide: bool,
    icon: Json,
    color: Json,
    permissions: Json,
    settings: Json)

  /** A stored configuration. A record written by `addToolConfig` carries its
      id and the two timestamps; one rewritten by `updateConfig` holds only
      the validated fields. */
  datatype ToolRecord = ToolRecord(id: Option<string>, config: ToolConfig, timestamped: bool)

  type ConfigMap = OrderedMap<string, ToolRecord>

  /** `config[k]`, `undefined` when the key is absent. */
  function Get(fields: map<string, Json>, k: string): Json {
    if k in fields then fields[k] else JUndefined
  }

  /** `a || b`. */
  function Or(a: Json, b: Json): Json {
    if Truthy(a) then a else b
  }

  /** The required fields that are not keys of the object, in order. */
  function MissingFields(required: seq<string>, fields: map<string, Json>): (r: seq<string>)
    ensures forall f :: f in r <==> f in required && f !in fields
    ensures r == [] <==> forall f :: f in required ==> f in fields
    ensures |r| <= |required|
  {
    if required == [] then []
    else if required[0] in fields then MissingFields(required[1..], fields)
    else [required[0]] + MissingFields(required[1..], fields)
  }

  const MissingPrefix: string := "Missing required fields in tool config: "

  /** The `TypeError` the `in` operator raises on a primitive. */
  function InOperatorMessage(v: Json): string {
    "Cannot use 'in' operator to search for 'name' in " + JsString(v)
  }

  /** `validCategories.join(', ')`, written out. */
  const CategoryList: string := "search, information, utility, system, development, data, communication, creative"

  function InvalidCategoryMessage(category: Json): string {
    "Invalid category: " + JsString(category) + ". Must be one of: " + CategoryList
  }

  /** A configuration as validation leaves it: a valid category and truthy
      icon, colour, permissions and settings. */
  predicate Normal(c: ToolConfig) {
    c.category in ValidCategories && Truthy(c.icon) && Truthy(c.color)
    && Truthy(c.permissions) && Truthy(c.settings)
  }

  /** `validateToolConfig`. Presence is tested with `in`, so a field whose
      value is falsy still counts as present. */
  function Validate(config: Json): (r: Result<ToolConfig>)
    ensures r.Ok? <==>
      && config.JObj?
      && (forall f :: f in RequiredFields ==> f in config.fields)
      && config.fields["category"].JStr? && config.fields["category"].s in ValidCategories
    ensures r.Ok? ==> (
      && Normal(r.value)
      && r.value.category == config.fields["category"].s
      && r.value.name == config.fields["name"] && r.value.description == config.fields["description"]
      && r.value.enabled == Truthy(config.fields["enabled"])
      && r.value.serverSide == Truthy(Get(config.fields, "serverSide")))
    ensures r.Ok? ==> r.value == Normalized(config.fields)
    ensures r.Err? && (config.JObj? || config.JArr?) ==> r.error.code == InvalidParameter
    ensures !(config.JObj? || config.JArr?) ==> r == Err(AppError(InOperatorMessage(config), BuiltinTypeError))
  {
    if !(config.JObj? || config.JArr?) then
      Err(AppError(InOperatorMessage(config), BuiltinTypeError))
    else if config.JArr? then
      // an array has none of the four keys
      Err(AppError(MissingPrefix + "name, description, category, enabled", InvalidParameter))
    else
      var fields := config.fields;
      var missing := MissingFields(RequiredFields, fields);
      if |missing| > 0 then
        Err(AppError(MissingPrefix + Join(missing, ", "), InvalidParameter))
      else
        var category := fields["category"];
        if !(category.JStr? && category.s in ValidCategories) then
          Err(AppError(InvalidCategoryMessage(category), InvalidParameter))
        else
          Ok(Normalized(fields))
  }

  /** The object `validateToolConfig` returns once the checks pass. */
  function Normalized(fields: map<string, Json>): (c: ToolConfig)
    requires forall f :: f in RequiredFields ==> f in fields
    requires fields["category"].JStr? && fields["category"].s in ValidCategories
    ensures Normal(c) && c.category == fields["category"].s
    ensures c.name == fields["name"] && c.description == fields["description"]
    ensures c.enabled == Truthy(fields["enabled"]) && c.serverSide == Truthy(Get(fields, "serverSide"))
    ensures Truthy(Get(fields, "icon")) ==> c.icon == Get(fields, "icon")
    ensures !Truthy(Get(fields, "icon")) ==> c.icon == JStr(DefaultIcon)
    ensures Truthy(Get(fields, "color")) ==> c.color == Get(fields, "color")
    ensures !Truthy(Get(fields, "color")) ==> c.color == JStr(DefaultColor)
    ensures Truthy(Get(fields, "permissions")) ==> c.permissions == Get(fields, "permissions")
    ensures !Truthy(Get(fields, "permissions")) ==> c.permissions == JArr([])
    ensures Truthy(Get(fields, "settings")) ==> c.settings == Get(fields, "settings")
    ensures !Truthy(Get(fields, "settings")) ==> c.settings == JObj(map[])
  {
    assert "category" in RequiredFields;
    ToolConfig(
      fields["name"], fields["description"], fields["category"].s,
      Truthy(fields["enabled"]), Truthy(Get(fields, "serverSide")),
      Or(Get(fields, "icon"), JStr(DefaultIcon)),
      Or(Get(fields, "color"), JStr(DefaultColor)),
      Or(Get(fields, "permissions"), JArr([])),
      Or(Get(fields, "settings"), JObj(map[])))
  }

  /** An object lacking some required keys is refused with all of them
      listed, in the order name, description, category, enabled. */
  lemma MissingReported(fields: map<string, Json>)
    requires exists f :: f in RequiredFields && f !in fields
    ensures Validate(JObj(fields))
         == Err(AppError(MissingPrefix + Join(MissingFields(RequiredFields, fields), ", "), InvalidParameter))
  {
  }

  /** For instance, an object holding only a category is refused for its
      three other fields. */
  lemma MissingReportedInOrder(fields: map<string, Json>)
    requires "category" in fields && "name" !in fields && "description" !in fields && "enabled" !in fields
    ensures Validate(JObj(fields))
         == Err(AppError(MissingPrefix + "name, description, enabled", InvalidParameter))
  {
    assert "name" in RequiredFields;
    MissingReported(fields);
    MissingInOrder(fields);
    ThreeJoined();
  }

  lemma ThreeJoined()
    ensures Join(["name", "description", "enabled"], ", ") == "name, description, enabled"
  {
  }

  lemma MissingInOrder(fields: map<string, Json>)
    requires "category" in fields && "name" !in fields && "description" !in fields && "enabled" !in fields
    ensures MissingFields(RequiredFields, fields) == ["name", "description", "enabled"]
  {
    assert RequiredFields[1..] == ["description", "category", "enabled"];
    assert RequiredFields[1..][1..] == ["category", "enabled"];
    assert RequiredFields[1..][1..][1..] == ["enabled"];
    assert MissingFields(["enabled"], fields) == ["enabled"];
    assert MissingFields(["category", "enabled"], fields) == ["enabled"];
    assert MissingFields(["description", "category", "enabled"], fields) == ["description", "enabled"];
  }

  /** A configuration seen as the object it is stored as. */
  function Fields(c: ToolConfig): map<string, Json> {
    map[
      "name" := c.name, "description" := c.description, "category" := JStr(c.category),
      "enabled" := JBool(c.enabled), "serverSide" := JBool(c.serverSide),
      "icon" := c.icon, "color" := c.color, "permissions" := c.permissions, "settings" := c.settings]
  }

  /** Validation is idempotent: a stored configuration validates to itself. */
  lemma ValidateStored(c: ToolConfig)
    requires Normal(c)
    ensures Validate(JObj(Fields(c))) == Ok(c)
  {
    var fields := Fields(c);
    FieldsAt(c);
    assert forall f :: f in RequiredFields ==> f in fields;
    assert MissingFields(RequiredFields, fields) == [];
    assert Normalized(fields) == c;
  }

  /** The stored object lists each field of the configuration under its name. */
  lemma FieldsAt(c: ToolConfig)
    ensures var fields := Fields(c);
      && fields.Keys == {"name", "description", "category", "enabled", "serverSide", "icon", "color", "permissions", "settings"}
      && fields["name"] == c.name && fields["description"] == c.description
      && fields["category"] == JStr(c.category) && fields["enabled"] == JBool(c.enabled)
      && fields["serverSide"] == JBool(c.serverSide) && fields["icon"] == c.icon && fields["color"] == c.color
      && fields["permissions"] == c.permissions && fields["settings"] == c.settings
  {
  }

  /** `addToolConfig` on the map alone. */
  function Add(m: ConfigMap, id: string, config: Json): (r: Result<ConfigMap>)
    requires WellFormed(m)
    ensures r.Ok? <==> Validate(config).Ok?
    ensures r.Ok? ==> (
      && WellFormed(r.value)
      && r.value.entries == m.entries[id := ToolRecord(Some(id), Validate(config).value, true)]
      && r.value.keys == if id in m.entries then m.keys else m.keys + [id])
    ensures r.Err? ==> r.error == Validate(config).error
  {
    match Validate(config)
    case Ok(c) => Ok(MapSet(m, id, ToolRecord(Some(id), c, true)))
    case Err(e) => Err(e)
  }

  /** `updateConfig` on the map alone: the existing fields overlaid with the
      updates, validated again; the id and timestamps are not kept. */
  function Update(m: ConfigMap, id: string, updates: map<string, Json>): (r: Result<ConfigMap>)
    requires WellFormed(m)
    ensures id !in m.entries ==> r == Err(AppError("Tool config not found: " + id, NotFound))
    ensures r.Ok? ==> (
      && WellFormed(r.value) && r.value.keys == m.keys && id in m.entries
      && Validate(JObj(Fields(m.entries[id].config) + updates)).Ok?
      && r.value.entries == m.entries[id := ToolRecord(None, Validate(JObj(Fields(m.entries[id].config) + updates)).value, false)])
  {
    if id !in m.entries then Err(AppError("Tool config not found: " + id, NotFound))
    else match Validate(JObj(Fields(m.entries[id].config) + updates))
      case Ok(c) => Ok(MapSet(m, id, ToolRecord(None, c, false)))
      case Err(e) => Err(e)
  }

  /** The required fields are always present after the overlay, so an update
      of a stored record fails only on its category. */
  lemma UpdateFailsOnlyOnCategory(m: ConfigMap, id: string, updates: map<string, Json>)
    requires WellFormed(m) && id in m.entries && Normal(m.entries[id].config)
    ensures Update(m, id, updates).Err? <==>
      "category" in updates && !(updates["category"].JStr? && updates["category"].s in ValidCategories)
  {
    var fields := Fields(m.entries[id].config) + updates;
    assert forall f :: f in RequiredFields ==> f in fields;
  }

  /** `setToolEnabled` on a stored record: only the flag changes (and the id
      and timestamps are dropped). */
  lemma SetEnabledEffect(m: ConfigMap, id: string, enabled: bool)
    requires WellFormed(m) && id in m.entries && Normal(m.entries[id].config)
    ensures Update(m, id, map["enabled" := JBool(enabled)])
         == Ok(MapSet(m, id, ToolRecord(None, m.entries[id].config.(enabled := enabled), false)))
  {
    var c := m.entries[id].config;
    ValidateStored(c.(enabled := enabled));
    FieldsWithEnabled(c, enabled);
  }

  /** Overwriting `enabled` in the stored object is storing the configuration
      with the new flag. */
  lemma FieldsWithEnabled(c: ToolConfig, enabled: bool)
    ensures Fields(c) + map["enabled" := JBool(enabled)] == Fields(c.(enabled := enabled))
  {
    var c' := c.(enabled := enabled);
    FieldsAt(c);
    FieldsAt(c');
    forall k | k in Fields(c')
      ensures (Fields(c) + map["enabled" := JBool(enabled)])[k] == Fields(c')[k]
    {
    }
  }

  /** Every stored record is one that validation produced. */
  ghost predicate StoreValid(m: ConfigMap) {
    WellFormed(m) && forall id :: id in m.entries ==> Normal(m.entries[id].config)
  }

  /** What the import loop leaves behind: the store and whether it stopped. */
  datatype ImportState = ImportState(store: ConfigMap, outcome: Outcome)

  /** Each imported id with what validation makes of its configuration. */
  function Validated(entries: seq<(string, Json)>): (r: seq<(string, Result<ToolConfig>)>)
    ensures |r| == |entries|
    ensures forall k :: 0 <= k < |r| ==> r[k] == (entries[k].0, Validate(entries[k].1))
  {
    seq(|entries|, k requires 0 <= k < |entries| => (entries[k].0, Validate(entries[k].1)))
  }

  /** Adding the validated entries in order from state `s`, stopping at
      the first that failed validation; the ones added before it stay. */
  function ImportFrom(s: ImportState, checked: seq<(string, Result<ToolConfig>)>): (r: ImportState)
    requires WellFormed(s.store)
    ensures WellFormed(r.store)
    decreases |checked|
  {
    if checked == [] then s
    else ImportFrom(ImportStep(s, checked[0]), checked[1..])
  }

  /** The whole import into the store `m`. */
  function ImportAll(m: ConfigMap, checked: seq<(string, Result<ToolConfig>)>): (r: ImportState)
    requires WellFormed(m)
    ensures WellFormed(r.store)
  {
    ImportFrom(ImportState(m, Done), checked)
  }

  /** One turn of the import loop. */
  function ImportStep(prior: ImportState, entry: (string, Result<ToolConfig>)): (r: ImportState)
    requires WellFormed(prior.store)
    ensures WellFormed(r.store)
    ensures prior.outcome.Failed? ==> r == prior
    ensures r.outcome.Done? ==> prior.outcome.Done? && entry.1.Ok? && entry.0 in r.store.entries
  {
    if prior.outcome.Failed? then prior
    else match entry.1
      case Ok(c) => ImportState(MapSet(prior.store, entry.0, ToolRecord(Some(entry.0), c, true)), Done)
      case Err(e) => ImportState(prior.store, Failed(e))
  }

  /** A turn of the import loop is one `addToolConfig`. */
  lemma ImportStepIsAdd(m: ConfigMap, entry: (string, Result<ToolConfig>), config: Json)
    requires WellFormed(m) && entry.1 == Validate(config)
    ensures ImportStep(ImportState(m, Done), entry) ==
      match Add(m, entry.0, config)
      case Ok(next) => ImportState(next, Done)
      case Err(e) => ImportState(m, Failed(e))
  {
  }

  /** The import loop's turn `i` takes the state reached so far one step on. */
  lemma ImportFromStep(s: ImportState, checked: seq<(string, Result<ToolConfig>)>, i: nat)
    requires WellFormed(s.store) && i < |checked|
    ensures ImportFrom(s, checked[i..]) == ImportFrom(ImportStep(s, checked[i]), checked[i + 1..])
  {
    assert checked[i..][0] == checked[i];
    assert checked[i..][1..] == checked[i + 1..];
  }

  /** Once an entry has failed, the rest of the import changes nothing. */
  lemma {:induction false} ImportFromFailed(s: ImportState, rest: seq<(string, Result<ToolConfig>)>)
    requires WellFormed(s.store) && s.outcome.Failed?
    ensures ImportFrom(s, rest) == s
    decreases |rest|
  {
    if rest != [] {
      ImportFromFailed(ImportStep(s, rest[0]), rest[1..]);
    }
  }

  /** One turn of the import loop from a running import: it goes on from
      the new store, or the import has ended with the store it had. */
  lemma ImportTurn(before: ConfigMap, checked: seq<(string, Result<ToolConfig>)>, i: nat,
                   after: ConfigMap, o: Outcome)
    requires WellFormed(before) && i < |checked|
    requires ImportStep(ImportState(before, Done), checked[i]) == ImportState(after, o)
    ensures o.Done? ==>
      ImportFrom(ImportState(before, Done), checked[i..]) == ImportFrom(ImportState(after, Done), checked[i + 1..])
    ensures o.Failed? ==>
      ImportFrom(ImportState(before, Done), checked[i..]) == ImportState(after, o)
  {
    ImportFromStep(ImportState(before, Done), checked, i);
    if o.Failed? {
      ImportFromFailed(ImportState(after, o), checked[i + 1..]);
    }
  }

  /** An import succeeds exactly when it was running and every entry
      validates. */
  lemma {:induction false} ImportSucceedsIff(s: ImportState, checked: seq<(string, Result<ToolConfig>)>)
    requires WellFormed(s.store)
    ensures ImportFrom(s, checked).outcome == Done <==>
      s.outcome == Done && forall k :: 0 <= k < |checked| ==> checked[k].1.Ok?
    decreases |checked|
  {
    if checked != [] {
      var rest := checked[1..];
      ImportSucceedsIff(ImportStep(s, checked[0]), rest);
      assert forall k :: 0 < k < |checked| ==> checked[k] == rest[k - 1];
    }
  }

  /** A successful import stores every imported id, the last entry with its
      validated configuration, and leaves the other ids alone. */
  lemma {:induction false} ImportStoresEntries(s: ImportState, checked: seq<(string, Result<ToolConfig>)>)
    requires WellFormed(s.store)
    requires ImportFrom(s, checked).outcome == Done
    ensures forall k :: 0 <= k < |checked| ==> checked[k].0 in ImportFrom(s, checked).store.entries
    ensures forall id :: id in s.store.entries && (forall k :: 0 <= k < |checked| ==> checked[k].0 != id) ==>
      id in ImportFrom(s, checked).store.entries && ImportFrom(s, checked).store.entries[id] == s.store.entries[id]
    ensures |checked| > 0 ==> var last := checked[|checked| - 1];
      last.1.Ok? && ImportFrom(s, checked).store.entries[last.0] == ToolRecord(Some(last.0), last.1.value, true)
    decreases |checked|
  {
    if checked != [] {
      var first, rest := checked[0], checked[1..];
      var next := ImportStep(s, first);
      if next.outcome.Failed? {
        ImportFromFailed(next, rest);
        assert false;
      }
      ImportDoneStep(s, first);
      ImportStoresEntries(next, rest);
      var after := ImportFrom(s, checked).store.entries;
      assert after == ImportFrom(next, rest).store.entries;
      forall k | 0 <= k < |checked|
        ensures checked[k].0 in after
      {
        if k > 0 {
          assert checked[k] == rest[k - 1];
        } else if forall j :: 0 <= j < |rest| ==> rest[j].0 != first.0 {
          assert first.0 in next.store.entries;
        }
      }
      forall id | id in s.store.entries && (forall k :: 0 <= k < |checked| ==> checked[k].0 != id)
        ensures id in after && after[id] == s.store.entries[id]
      {
        assert checked[0].0 != id;
        forall j | 0 <= j < |rest|
          ensures rest[j].0 != id
        {
          assert rest[j] == checked[j + 1];
        }
      }
      if rest == [] {
        assert ImportFrom(next, rest) == next;
      } else {
        assert rest[|rest| - 1] == checked[|checked| - 1];
      }
    }
  }

  /** A turn that leaves the import running started from a running import
      and stored a validated entry. */
  lemma ImportDoneStep(prior: ImportState, entry: (string, Result<ToolConfig>))
    requires WellFormed(prior.store)
    requires ImportStep(prior, entry).outcome == Done
    ensures prior.outcome == Done && entry.1.Ok?
    ensures ImportStep(prior, entry).store.entries ==
      prior.store.entries[entry.0 := ToolRecord(Some(entry.0), entry.1.value, true)]
  {
  }

  /** Import preserves the store invariant. */
  lemma ImportKeepsValid(m: ConfigMap, entries: seq<(string, Json)>)
    requires StoreValid(m)
    ensures StoreValid(ImportAll(m, Validated(entries)).store)
  {
    ImportFromValid(ImportState(m, Done), Validated(entries));
  }

  lemma {:induction false} ImportFromValid(s: ImportState, checked: seq<(string, Result<ToolConfig>)>)
    requires StoreValid(s.store)
    requires forall k :: 0 <= k < |checked| && checked[k].1.Ok? ==> Normal(checked[k].1.value)
    ensures StoreValid(ImportFrom(s, checked).store)
    decreases |checked|
  {
    if checked != [] {
      var rest := checked[1..];
      assert forall k :: 0 <= k < |rest| ==> rest[k] == checked[k + 1];
      ImportFromValid(ImportStep(s, checked[0]), rest);
    }
  }

  /** The statistics `getStats` reports. */
  datatype Stats = Stats(
    total: int, enabled: int, disabled: int,
    categories: map<string, nat>, serverSide: int, clientSide: int)

  function IsEnabled(r: ToolRecord): bool { r.config.enabled }
  function HasValidCategory(r: ToolRecord): bool { r.config.category in ValidCategories }
  function InCategory(category: string): ToolRecord -> bool {
    (r: ToolRecord) => r.config.category == category
  }
  function IsDisabled(r: ToolRecord): bool { !r.config.enabled }
  function IsServerSide(r: ToolRecord): bool { r.config.serverSide }
  function IsClientSide(r: ToolRecord): bool { !r.config.serverSide }

  /** The `categories` object built by the `forEach`: a count per category
      present. */
  function CategoryCounts(records: seq<ToolRecord>): (r: map<string, nat>)
    ensures forall c :: c in r ==> 1 <= r[c] <= |records|
  {
    if records == [] then map[]
    else
      var counts := CategoryCounts(records[..|records| - 1]);
      var c := records[|records| - 1].config.category;
      counts[c := (if c in counts then counts[c] else 0) + 1]
  }

  /** Each category's count is the length of `getConfigsByCategory` for it,
      and a category appears exactly when some record has it. */
  lemma {:induction false} CategoryCountsMatch(records: seq<ToolRecord>)
    ensures forall c :: c in CategoryCounts(records) <==> |Filter(records, InCategory(c))| > 0
    ensures forall c :: c in CategoryCounts(records) ==>
      CategoryCounts(records)[c] == |Filter(records, InCategory(c))|
  {
    if records != [] {
      var init := records[..|records| - 1];
      var x := records[|records| - 1];
      CategoryCountsMatch(init);
      assert records == init + [x];
      forall c {
        FilterAppend(init, x, InCategory(c));
      }
    }
  }

  /** The per-category counts add up to the total when every category is one
      of the valid ones. */
  lemma {:induction false} CategoryCountsSum(records: seq<ToolRecord>)
    ensures SumCounts(CategoryCounts(records), ValidCategories) ==
      |Filter(records, HasValidCategory)|
  {
    if records != [] {
      var init := records[..|records| - 1];
      var x := records[|records| - 1];
      CategoryCountsSum(init);
      assert records == init + [x];
      ValidCategoriesDistinct();
      FilterAppend(init, x, HasValidCategory);
      var c := x.config.category;
      var counts := CategoryCounts(init);
      assert CategoryCounts(records) == counts[c := (if c in counts then counts[c] else 0) + 1];
      SumCountsBump(counts, ValidCategories, c);
      assert |Filter(records, HasValidCategory)| == |Filter(init, HasValidCategory)| + if c in ValidCategories then 1 else 0;
    } else {
      SumCountsEmpty(ValidCategories);
    }
  }

  /** No category is listed twice. */
  lemma ValidCategoriesDistinct()
    ensures Distinct(ValidCategories)
  {
  }

  /** The sum of the counts of the listed (distinct) categories. */
  function SumCounts(counts: map<string, nat>, cats: seq<string>): nat {
    if cats == [] then 0
    else (if cats[0] in counts then counts[cats[0]] else 0) + SumCounts(counts, cats[1..])
  }

  lemma {:induction false} SumCountsEmpty(cats: seq<string>)
    ensures SumCounts(map[], cats) == 0
  {
    if cats != [] {
      SumCountsEmpty(cats[1..]);
    }
  }

  lemma {:induction false} SumCountsBump(counts: map<string, nat>, cats: seq<string>, c: string)
    requires Distinct(cats)
    ensures SumCounts(counts[c := (if c in counts then counts[c] else 0) + 1], cats)
         == SumCounts(counts, cats) + if c in cats then 1 else 0
  {
    if cats != [] {
      assert Distinct(cats[1..]);
      SumCountsBump(counts, cats[1..], c);
      assert cats[0] !in cats[1..];
    }
  }

  /** The eight built-in configurations, as `loadDefaultConfigs` passes them. */
  datatype DefaultTool = DefaultTool(
    id: string, name: string, description: string, category: string,
    enabled: bool, serverSide: bool, icon: string, color: string)
  {
    function Input(): Json {
      JObj(map[
        "name" := JStr(name), "description" := JStr(description), "category" := JStr(category),
        "enabled" := JBool(enabled), "serverSide" := JBool(serverSide),
        "icon" := JStr(icon), "color" := JStr(color)])
    }

    function Expected(): ToolConfig {
      ToolConfig(JStr(name), JStr(description), category, enabled, serverSide,
                 JStr(icon), JStr(color), JArr([]), JObj(map[]))
    }
  }

  const GoogleSearchDefault := DefaultTool("google_search", "Google Search", "Search the web using Google",
    "search", true, true, "\U{1F50D}", "#4285f4")
  const WeatherDefault := DefaultTool("weather", "Weather Forecast", "Get weather information for any location",
    "information", true, false, "\U{1F324}\U{FE0F}", "#ff9800")
  const CalculatorDefault := DefaultTool("calculator", "Calculator", "Perform mathematical calculations",
    "utility", false, false, "\U{1F9EE}", "#9c27b0")
  const FileManagerDefault := DefaultTool("file_manager", "File Manager", "Manage files and directories",
    "system", false, false, "\U{1F4C1}", "#607d8b")
  const CodeExecutorDefault := DefaultTool("code_executor", "Code Executor", "Execute code snippets safely",
    "development", false, false, "\U{1F4BB}", "#4caf50")
  const DatabaseQueryDefault := DefaultTool("database_query", "Database Query", "Query databases and data sources",
    "data", false, false, "\U{1F5C4}\U{FE0F}", "#2196f3")
  const EmailSenderDefault := DefaultTool("email_sender", "Email Sender", "Send emails and notifications",
    "communication", false, false, "\U{1F4E7}", "#f44336")
  const ImageGeneratorDefault := DefaultTool("image_generator", "Image Generator", "Generate images using AI",
    "creative", false, true, "\U{1F3A8}", "#e91e63")

  /** The built-in configurations, in the order they are added. */
  const DefaultTools: seq<DefaultTool> := [
    GoogleSearchDefault, WeatherDefault, CalculatorDefault, FileManagerDefault,
    CodeExecutorDefault, DatabaseQueryDefault, EmailSenderDefault, ImageGeneratorDefault
  ]

  /** The list built up one `addToolConfig` call at a time is the list of
      built-in configurations. */
  lemma DefaultsInOrder()
    ensures [] + [GoogleSearchDefault] + [WeatherDefault] + [CalculatorDefault] + [FileManagerDefault]
      + [CodeExecutorDefault] + [DatabaseQueryDefault] + [EmailSenderDefault] + [ImageGeneratorDefault] == DefaultTools
  {
  }


  /** The object a built-in configuration is passed as has the four
      required keys and neither permissions nor settings. */
  lemma DefaultInputShape(d: DefaultTool)
    ensures d.Input().JObj?
    ensures forall f :: f in RequiredFields ==> f in d.Input().fields
    ensures "permissions" !in d.Input().fields && "settings" !in d.Input().fields
    ensures d.Input().fields["category"] == JStr(d.category)
    ensures var fields := d.Input().fields;
      && fields["name"] == JStr(d.name) && fields["description"] == JStr(d.description)
      && fields["enabled"] == JBool(d.enabled) && fields["serverSide"] == JBool(d.serverSide)
      && fields["icon"] == JStr(d.icon) && fields["color"] == JStr(d.color)
  {
    var fields := d.Input().fields;
    assert "permissions"[0] != "description"[0] && "settings"[0] != "category"[0];
  }

  /** A built-in configuration passes validation unchanged apart from the
      added empty permissions and settings. */
  lemma ValidateDefault(d: DefaultTool)
    requires d.category in ValidCategories && d.icon != "" && d.color != ""
    ensures Validate(d.Input()) == Ok(d.Expected())
  {
    DefaultInputShape(d);
    var fields := d.Input().fields;
    assert MissingFields(RequiredFields, fields) == [];
    assert Normalized(fields) == d.Expected();
  }

  function DefaultRecord(d: DefaultTool): ToolRecord {
    ToolRecord(Some(d.id), d.Expected(), true)
  }

  /** The store after `addToolConfig` of each configuration of `ds`, in
      order. */
  function Loaded(m: ConfigMap, ds: seq<DefaultTool>): (r: ConfigMap)
    requires WellFormed(m)
    ensures WellFormed(r)
    decreases |ds|
  {
    if ds == [] then m
    else MapSet(Loaded(m, ds[..|ds| - 1]), ds[|ds| - 1].id, DefaultRecord(ds[|ds| - 1]))
  }

  /** The ids of a list of configurations, in order. */
  function IdsOf(ds: seq<DefaultTool>): (ids: seq<string>)
    ensures |ids| == |ds| && forall k :: 0 <= k < |ds| ==> ids[k] == ds[k].id
    decreases |ds|
  {
    if ds == [] then [] else IdsOf(ds[..|ds| - 1]) + [ds[|ds| - 1].id]
  }

  /** Loading configurations with distinct ids into an empty store lists
      their ids in order. */
  lemma {:induction false} LoadedFresh(m: ConfigMap, ds: seq<DefaultTool>)
    requires WellFormed(m) && m.keys == [] && Distinct(IdsOf(ds))
    ensures Loaded(m, ds).keys == IdsOf(ds)
    decreases |ds|
  {
    if ds != [] {
      var n := |ds| - 1;
      DistinctSnoc(IdsOf(ds[..n]), ds[n].id);
      LoadedFresh(m, ds[..n]);
    }
  }

  /** ... and stores each configuration's record under its id. */
  lemma {:induction false} LoadedFreshEntries(m: ConfigMap, ds: seq<DefaultTool>)
    requires WellFormed(m) && m.keys == [] && Distinct(IdsOf(ds))
    ensures forall k :: 0 <= k < |ds| ==>
      ds[k].id in Loaded(m, ds).entries && Loaded(m, ds).entries[ds[k].id] == DefaultRecord(ds[k])
    decreases |ds|
  {
    if ds != [] {
      var n := |ds| - 1;
      DistinctSnoc(IdsOf(ds[..n]), ds[n].id);
      LoadedFreshEntries(m, ds[..n]);
      forall k | 0 <= k < n ensures ds[k].id != ds[n].id {
        assert IdsOf(ds[..n])[k] == ds[k].id;
      }
    }
  }

  lemma DefaultIdsListed()
    ensures IdsOf(DefaultTools) == ["google_search", "weather", "calculator", "file_manager", "code_executor",
                                    "database_query", "email_sender", "image_generator"]
  {
  }

  lemma DefaultFlags(k: nat)
    requires k < |DefaultTools|
    ensures DefaultTools[k].enabled <==> k < 2
    ensures DefaultTools[k].serverSide <==> k == 0 || k == 7
  {
  }

  lemma DefaultIdsDistinct()
    ensures Distinct(IdsOf(DefaultTools))
  {
    DefaultIdsListed();
  }

  /** Loading the built-in configurations into an empty store gives the
      eight ids in order. */
  lemma DefaultsListed(m: ConfigMap)
    requires WellFormed(m) && m.keys == []
    ensures Loaded(m, DefaultTools).keys ==
      ["google_search", "weather", "calculator", "file_manager", "code_executor",
       "database_query", "email_sender", "image_generator"]
  {
    DefaultIdsDistinct();
    LoadedFresh(m, DefaultTools);
    DefaultIdsListed();
  }

  /** Of the loaded built-in configurations only web search and the weather
      forecast start enabled, and web search and image generation are the
      ones handled on the server. */
  lemma DefaultsLoaded(m: ConfigMap)
    requires WellFormed(m) && m.keys == []
    ensures forall id :: id in Loaded(m, DefaultTools).entries ==>
      (Loaded(m, DefaultTools).entries[id].config.enabled <==> id == "google_search" || id == "weather")
    ensures forall id :: id in Loaded(m, DefaultTools).entries ==>
      (Loaded(m, DefaultTools).entries[id].config.serverSide <==> id == "google_search" || id == "image_generator")
  {
    DefaultIdsDistinct();
    LoadedFresh(m, DefaultTools);
    LoadedFreshEntries(m, DefaultTools);
    var r := Loaded(m, DefaultTools);
    forall id | id in r.entries
      ensures r.entries[id].config.enabled <==> id == "google_search" || id == "weather"
      ensures r.entries[id].config.serverSide <==> id == "google_search" || id == "image_generator"
    {
      assert id in r.keys;
      var k :| 0 <= k < |DefaultTools| && IdsOf(DefaultTools)[k] == id;
      DefaultEntry(k);
    }
  }

  /** The flags of the `k`-th built-in configuration, by id. */
  lemma DefaultEntry(k: nat)
    requires k < |DefaultTools|
    ensures var d := DefaultTools[k];
      && (d.enabled <==> d.id == "google_search" || d.id == "weather")
      && (d.serverSide <==> d.id == "google_search" || d.id == "image_generator")
  {
    var ids := IdsOf(DefaultTools);
    DefaultFlags(k);
    DefaultIdsListed();
    DefaultIdsDistinct();
    assert ids[0] == "google_search" && ids[1] == "weather" && ids[7] == "image_generator";
    assert ids[k] == "google_search" <==> k == 0;
    assert ids[k] == "weather" <==> k == 1;
    assert ids[k] == "image_generator" <==> k == 7;
  }

  class MCPConfig {
    /** `toolConfigs`: tool id to stored record, in insertion order. */
    var toolConfigs: ConfigMap

    ghost predicate Valid()
      reads this
    {
      StoreValid(toolConfigs)
    }

    /** Starts from an empty store and loads the built-in configurations. */
    constructor ()
      ensures Valid()
      ensures toolConfigs == Loaded(EmptyMap(), DefaultTools)
    {
      toolConfigs := EmptyMap();
      new;
      LoadDefaultConfigs();
    }

    /** `addToolConfig`: a configuration that fails validation leaves the
        store unchanged and the error is thrown. */
    method AddToolConfig(toolId: string, config: Json) returns (o: Outcome)
      requires Valid()
      modifies this
      ensures Valid()
      ensures match Add(old(toolConfigs), toolId, config)
        case Ok(m) => toolConfigs == m && o == Done
        case Err(e) => toolConfigs == old(toolConfigs) && o == Failed(e)
    {
      var validated := Validate(config);
      match validated
      case Err(e) =>
        o := Failed(e);
      case Ok(c) =>
        toolConfigs := MapSet(toolConfigs, toolId, ToolRecord(Some(toolId), c, true));
        o := Done;
    }

    /** One call per built-in configuration, in order; each one succeeds. */
    method LoadDefaultConfigs()
      requires Valid()
      modifies this
      ensures Valid()
      ensures toolConfigs == Loaded(old(toolConfigs), DefaultTools)
    {
      ghost var m := toolConfigs;
      ghost var done: seq<DefaultTool> := [];
      AddDefault(GoogleSearchDefault, m, done);
      done := done + [GoogleSearchDefault];
      AddDefault(WeatherDefault, m, done);
      done := done + [WeatherDefault];
      AddDefault(CalculatorDefault, m, done);
      done := done + [CalculatorDefault];
      AddDefault(FileManagerDefault, m, done);
      done := done + [FileManagerDefault];
      AddDefault(CodeExecutorDefault, m, done);
      done := done + [CodeExecutorDefault];
      AddDefault(DatabaseQueryDefault, m, done);
      done := done + [DatabaseQueryDefault];
      AddDefault(EmailSenderDefault, m, done);
      done := done + [EmailSenderDefault];
      AddDefault(ImageGeneratorDefault, m, done);
      done := done + [ImageGeneratorDefault];
      DefaultsInOrder();
    }

    /** `this.addToolConfig(id, {...})` for one built-in configuration `d`,
        after the ones in `done`. */
    method AddDefault(d: DefaultTool, ghost m: ConfigMap, ghost done: seq<DefaultTool>)
      requires Valid() && WellFormed(m) && toolConfigs == Loaded(m, done)
      requires d.category in ValidCategories && d.icon != "" && d.color != ""
      modifies this
      ensures Valid() && toolConfigs == Loaded(m, done + [d])
    {
      ValidateDefault(d);
      var o := AddToolConfig(d.id, d.Input());
      assert (done + [d])[..|done|] == done;
    }

    /** `getConfig`: the stored record, or null. */
    function GetConfig(toolId: string): (r: Option<ToolRecord>)
      reads this
      ensures r.Some? <==> toolId in toolConfigs.entries
      ensures r.Some? ==> r.value == toolConfigs.entries[toolId]
    {
      if toolId in toolConfigs.entries then Some(toolConfigs.entries[toolId]) else None
    }

    /** `getAllConfigs`: the records in insertion order. */
    function GetAllConfigs(): (r: seq<ToolRecord>)
      requires WellFormed(toolConfigs)
      reads this
      ensures |r| == |toolConfigs.keys|
      ensures forall i :: 0 <= i < |r| ==> r[i] == toolConfigs.entries[toolConfigs.keys[i]]
    {
      MapValues(toolConfigs)
    }

    /** `getEnabledConfigs`. */
    function GetEnabledConfigs(): (r: seq<ToolRecord>)
      requires WellFormed(toolConfigs)
      reads this
      ensures forall x :: x in r <==> x in GetAllConfigs() && x.config.enabled
    {
      Filter(GetAllConfigs(), IsEnabled)
    }

    /** `getConfigsByCategory`. */
    function GetConfigsByCategory(category: string): (r: seq<ToolRecord>)
      requires WellFormed(toolConfigs)
      reads this
      ensures forall x :: x in r <==> x in GetAllConfigs() && x.config.category == category
    {
      Filter(GetAllConfigs(), InCategory(category))
    }

    /** `updateConfig`: an unknown id is NOT_FOUND; an update that fails
        validation is thrown and leaves the store alone. */
    method UpdateConfig(toolId: string, updates: map<string, Json>) returns (o: Outcome)
      requires Valid()
      modifies this
      ensures Valid()
      ensures match Update(old(toolConfigs), toolId, updates)
        case Ok(m) => toolConfigs == m && o == Done
        case Err(e) => toolConfigs == old(toolConfigs) && o == Failed(e)
    {
      if toolId !in toolConfigs.entries {
        o := Failed(AppError("Tool config not found: " + toolId, NotFound));
        return;
      }
      var existing := toolConfigs.entries[toolId];
      var validated := Validate(JObj(Fields(existing.config) + updates));
      match validated
      case Err(e) =>
        o := Failed(e);
      case Ok(c) =>
        toolConfigs := MapSet(toolConfigs, toolId, ToolRecord(None, c, false));
        o := Done;
    }

    /** `setToolEnabled`: for a stored id it always succeeds and changes only
        the flag; an unknown id is NOT_FOUND. */
    method SetToolEnabled(toolId: string, enabled: bool) returns (o: Outcome)
      requires Valid()
      modifies this
      ensures Valid()
      ensures toolId in old(toolConfigs.entries) ==> (
        && o == Done
        && toolConfigs.keys == old(toolConfigs.keys)
        && toolConfigs.entries == old(toolConfigs.entries)[toolId := ToolRecord(None, old(toolConfigs.entries[toolId].config).(enabled := enabled), false)])
      ensures toolId !in old(toolConfigs.entries) ==> (
        && toolConfigs == old(toolConfigs)
        && o == Failed(AppError("Tool config not found: " + toolId, NotFound)))
    {
      if toolId in toolConfigs.entries {
        SetEnabledEffect(toolConfigs, toolId, enabled);
      }
      o := UpdateConfig(toolId, map["enabled" := JBool(enabled)]);
    }

    /** `removeConfig`: deleting an absent id does nothing. */
    method RemoveConfig(toolId: string)
      requires Valid()
      modifies this
      ensures Valid()
      ensures toolConfigs == MapDelete(old(toolConfigs), toolId)
      ensures toolConfigs.entries == old(toolConfigs.entries) - {toolId}
    {
      toolConfigs := MapDelete(toolConfigs, toolId);
    }

    /** `importConfigs`, given the entries of the parsed JSON (or the error
        the parsing raised): adds them in order; the first failure is
        rethrown as INVALID_PARAMETER with a prefix, and what was added
        before it stays. */
    method ImportConfigs(parsed: Result<seq<(string, Json)>>) returns (o: Outcome)
      requires Valid()
      modifies this
      ensures Valid()
      ensures parsed.Err? ==> (
        && toolConfigs == old(toolConfigs)
        && o == Failed(AppError("Failed to import configs: " + parsed.error.message, InvalidParameter)))
      ensures parsed.Ok? ==> toolConfigs == ImportAll(old(toolConfigs), Validated(parsed.value)).store
      ensures parsed.Ok? ==> match ImportAll(old(toolConfigs), Validated(parsed.value)).outcome
        case Done => o == Done
        case Failed(e) => o == Failed(AppError("Failed to import configs: " + e.message, InvalidParameter))
    {
      if parsed.Err? {
        return Failed(AppError("Failed to import configs: " + parsed.error.message, InvalidParameter));
      }
      var entries := parsed.value;
      var i := 0;
      assert Validated(entries)[i..] == Validated(entries);
      while i < |entries|
        invariant 0 <= i <= |entries|
        invariant Valid()
        invariant ImportFrom(ImportState(toolConfigs, Done), Validated(entries)[i..]) ==
                  ImportAll(old(toolConfigs), Validated(entries))
      {
        ghost var before := toolConfigs;
        var added := AddToolConfig(entries[i].0, entries[i].1);
        ImportStepIsAdd(before, Validated(entries)[i], entries[i].1);
        ImportTurn(before, Validated(entries), i, toolConfigs, added);
        if added.Failed? {
          return Failed(AppError("Failed to import configs: " + added.error.message, InvalidParameter));
        }
        i := i + 1;
      }
      assert Validated(entries)[i..] == [];
      o := Done;
    }

    /** `getStats`: the counts, computed as the source does with filters and
        one pass over the records for the categories. */
    method GetStats() returns (stats: Stats)
      requires WellFormed(toolConfigs)
      ensures stats == StatsOf(GetAllConfigs())
    {
      var all := GetAllConfigs();
      var enabled := GetEnabledConfigs();
      var categories: map<string, nat> := map[];
      for i := 0 to |all|
        invariant categories == CategoryCounts(all[..i])
      {
        var c := all[i].config.category;
        CategoryCountsSnoc(all, i);
        categories := categories[c := (if c in categories then categories[c] else 0) + 1];
      }
      assert all[..|all|] == all;
      stats := Stats(|all|, |enabled|, |all| - |enabled|, categories,
                     |Filter(all, IsServerSide)|, |Filter(all, IsClientSide)|);
    }

    /** What the statistics of the store say: every record is counted once
        as enabled or disabled and once as server- or client-side, each
        category present carries the length of `getConfigsByCategory`, and
        the category counts add up to the total. */
    lemma StatsMeaning()
      requires Valid()
      ensures var stats := StatsOf(GetAllConfigs());
        && stats.total == |toolConfigs.keys|
        && stats.total == stats.enabled + stats.disabled == stats.serverSide + stats.clientSide
        && stats.enabled == |GetEnabledConfigs()|
        && (forall c :: c in stats.categories <==> |GetConfigsByCategory(c)| > 0)
        && (forall c :: c in stats.categories ==> stats.categories[c] == |GetConfigsByCategory(c)|)
        && SumCounts(stats.categories, ValidCategories) == stats.total
    {
      var all := GetAllConfigs();
      StoredNormal(toolConfigs, all);
      StatsFacts(all);
    }
  }

  /** One more turn of the `forEach` over the records. */
  lemma CategoryCountsSnoc(records: seq<ToolRecord>, i: nat)
    requires i < |records|
    ensures var counts, c := CategoryCounts(records[..i]), records[i].config.category;
      CategoryCounts(records[..i + 1]) == counts[c := (if c in counts then counts[c] else 0) + 1]
  {
    assert records[..i + 1][..i] == records[..i];
  }

  /** Every record listed from a valid store is normalised. */
  lemma StoredNormal(m: ConfigMap, all: seq<ToolRecord>)
    requires StoreValid(m)
    requires |all| == |m.keys|
    requires forall i :: 0 <= i < |all| ==> all[i] == m.entries[m.keys[i]]
    ensures forall x :: x in all ==> Normal(x.config)
  {
    forall x | x in all
      ensures Normal(x.config)
    {
      var i :| 0 <= i < |all| && all[i] == x;
      assert m.keys[i] in m.entries;
    }
  }

  /** The object `getStats` returns for the records `all`. */
  function StatsOf(all: seq<ToolRecord>): (r: Stats)
  {
    var enabled := Filter(all, IsEnabled);
    Stats(|all|, |enabled|, |all| - |enabled|, CategoryCounts(all),
          |Filter(all, IsServerSide)|, |Filter(all, IsClientSide)|)
  }

  /** The facts `getStats` relies on, for any list of stored records. */
  lemma StatsFacts(all: seq<ToolRecord>)
    requires forall x :: x in all ==> Normal(x.config)
    ensures |Filter(all, IsEnabled)| + |Filter(all, IsDisabled)| == |all|
    ensures |Filter(all, IsServerSide)| + |Filter(all, IsClientSide)| == |all|
    ensures forall c :: c in CategoryCounts(all) <==> |Filter(all, InCategory(c))| > 0
    ensures forall c :: c in CategoryCounts(all) ==> CategoryCounts(all)[c] == |Filter(all, InCategory(c))|
    ensures SumCounts(CategoryCounts(all), ValidCategories) == |all|
  {
    FilterComplement(all, IsEnabled, IsDisabled);
    FilterComplement(all, IsServerSide, IsClientSide);
    CategoryCountsMatch(all);
    CategoryCountsSum(all);
    AllCategoriesValid(all);
  }

  /** Stored records all have valid categories. */
  lemma AllCategoriesValid(records: seq<ToolRecord>)
    requires forall x :: x in records ==> x.config.category in ValidCategories
    ensures Filter(records, HasValidCategory) == records
  {
    if records != [] {
      AllCategoriesValid(records[..|records| - 1]);
      assert records[..|records| - 1] + [records[|records| - 1]] == records;
    }
  }
}
