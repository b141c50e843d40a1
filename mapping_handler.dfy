/**
 * MappingHandler: the register of machines and, for each machine, the
 * mappings and the globals of every IDS its mapping directory lists. A machine
 * is loaded from JSON files the first time it is asked for. The handler also
 * sets up the RAM cache that the plugin mappings share.
 *
 * The file system is a map from path to what reading the file gives. A path
 * that is absent cannot be opened; `None` is a file that does not parse as JSON.
 */
module MappingHandlers {
  import opened Wrappers
  import opened Json
  import CText
  import opened Mappings
  import opened RamCaches
  import Subset

  const DefaultDdVersion: string := "3.39.0"
  const ConfigFile: string := "mappings.cfg.json"
  const GlobalsFile: string := "globals.json"
  const MappingsFile: string := "mappings.json"

  type Files = map<string, Option<Json>>

  /** MachineMapping: by IDS name, the IDS's registered mappings and its globals. */
  datatype MachineMapping = MachineMapping(mappings: map<string, map<string, Mapping>>, attributes: map<string, Json>)

  type Register = map<string, MachineMapping>

  /** The content of a file, if it opens and parses. */
  function Read(files: Files, path: string): Option<Json> {
    if path in files then files[path] else None
  }

  /**
   * mapping_path: the file sits in the machine's directory under the mapping
   * directory, and in the IDS's own subdirectory when an IDS is named.
   */
  function MappingPath(dir: string, machine: string, ids: string, file: string): (p: string)
    ensures dir + "/" + machine + "/" <= p
    ensures |file| <= |p| && p[|p| - |file|..] == file
    ensures ids == [] ==> |p| == |dir| + |machine| + |file| + 2
    ensures ids != [] ==> |p| == |dir| + |machine| + |ids| + |file| + 3
  {
    var machineDir := dir + "/" + machine + "/";
    if ids == [] then
      machineDir + file
    else
      machineDir + ids + "/" + file
  }

  /** An IDS's file is never the machine's top-level file of the same name. */
  lemma IdsPathIsNotTopLevel(dir: string, machine: string, ids: string, file: string)
    requires ids != []
    ensures MappingPath(dir, machine, ids, file) != MappingPath(dir, machine, [], file)
  {
  }

  // ---- globals -------------------------------------------------------------------------------

  /**
   * load_toplevel: the machine's own globals.json, or, when it does not open
   * or parse, the number 999 that RAISE_PLUGIN_ERROR returns as a json.
   */
  function TopLevel(dir: string, machine: string, files: Files): (j: Json)
    ensures Read(files, MappingPath(dir, machine, [], GlobalsFile)).None? ==> j == JInt(PluginError)
    ensures Read(files, MappingPath(dir, machine, [], GlobalsFile)).Some? ==>
      j == Read(files, MappingPath(dir, machine, [], GlobalsFile)).value
  {
    var top := Read(files, MappingPath(dir, machine, [], GlobalsFile));
    if top.Some? then top.value else JInt(PluginError)
  }

  /**
   * What load_globals records for an IDS: its own globals.json updated with
   * the machine's top-level globals, so that a top-level global wins over the
   * IDS's own; None (the plugin error, nothing recorded) when the IDS's file
   * does not open or parse. The update throws unless the IDS's globals are an
   * object or null and the top-level ones an object, so a top-level file that
   * cannot be read makes every IDS's globals throw.
   */
  function IdsGlobals(dir: string, machine: string, ids: string, files: Files): (r: Outcome<Option<Json>>)
    ensures !r.Undefined?
    ensures (r.Done? && r.value.None?) <==> Read(files, MappingPath(dir, machine, ids, GlobalsFile)).None?
    ensures (Read(files, MappingPath(dir, machine, ids, GlobalsFile)).Some? &&
             Read(files, MappingPath(dir, machine, [], GlobalsFile)).None?) ==> r.Threw?
    ensures r.Done? && r.value.Some? ==> r.value.value.JObj? && TopLevel(dir, machine, files).JObj?
    ensures r.Done? && r.value.Some? ==> forall k :: k in TopLevel(dir, machine, files).fields ==>
      k in r.value.value.fields && r.value.value.fields[k] == TopLevel(dir, machine, files).fields[k]
    ensures r.Done? && r.value.Some? ==> var own := Read(files, MappingPath(dir, machine, ids, GlobalsFile)).value;
      own.JObj? ==> forall k :: k in own.fields && k !in TopLevel(dir, machine, files).fields ==>
        k in r.value.value.fields && r.value.value.fields[k] == own.fields[k]
    ensures r.Done? && r.value.Some? ==> var own := Read(files, MappingPath(dir, machine, ids, GlobalsFile)).value;
      forall k :: k in r.value.value.fields ==>
        k in TopLevel(dir, machine, files).fields || (own.JObj? && k in own.fields)
  {
    var own := Read(files, MappingPath(dir, machine, ids, GlobalsFile));
    if own.None? then Done(None)
    else
      var merged := Update(own.value, TopLevel(dir, machine, files));
      if merged.Failed() then merged.Propagate() else Done(Some(merged.value))
  }

  // ---- the fields of a plugin mapping --------------------------------------------------------

  /** A JSON number as a real (the rounding to float is not modelled). */
  function NumberValue(j: Json): real
    requires j.IsNumber()
  {
    if j.JInt? then j.i as real else if j.JUInt? then j.u as real else j.r
  }

  /**
   * get_float_value: absent or null gives none; a number gives its value; a
   * string is rendered with the IDS's globals and read by std::stof, whose
   * invalid_argument is caught (none) and whose out_of_range is not; any
   * other value gives none.
   */
  function FloatValue(name: string, value: Json, attrs: Json, ext: External): (r: Outcome<Option<real>>)
    ensures !r.Undefined?
    ensures !Contains(value, name) || value.fields[name].JNull? ==> r == Done(None)
    ensures Contains(value, name) && value.fields[name].IsNumber() ==>
      r == Done(Some(NumberValue(value.fields[name])))
    ensures r.Threw? <==> (Contains(value, name) && value.fields[name].JStr? &&
                           ext.stof(ext.render(value.fields[name].s, attrs)).RealOutOfRange?)
    ensures Contains(value, name) && value.fields[name].JStr? ==>
      match ext.stof(ext.render(value.fields[name].s, attrs))
      case RealParsed(x) => r == Done(Some(x))
      case RealInvalid => r == Done(None)
      case RealOutOfRange => r.Threw?
    ensures r.Done? && r.value.Some? ==>
      Contains(value, name) && (value.fields[name].IsNumber() || value.fields[name].JStr?)
  {
    if !Contains(value, name) || value.fields[name].JNull? then Done(None)
    else
      var field := value.fields[name];
      if field.IsNumber() then Done(Some(NumberValue(field)))
      else if field.JStr? then
        match ext.stof(ext.render(field.s, attrs))
        case RealParsed(x) => Done(Some(x))
        case RealInvalid => Done(None)
        case RealOutOfRange => Threw("std::out_of_range from stof")
      else Done(None)
  }

  /** `value.contains(key) ? optional{value[key].get<std::string>()} : {}`. */
  function OptionalString(value: Json, key: string): (r: Outcome<Option<string>>)
    ensures !r.Undefined?
    ensures r.Threw? <==> Contains(value, key) && !value.fields[key].JStr?
    ensures r.Done? ==> (r.value.Some? <==> Contains(value, key))
    ensures r.Done? && r.value.Some? ==> r.value.value == value.fields[key].s
  {
    if !Contains(value, key) then Done(None)
    else
      var s := GetString(value.fields[key]);
      if s.Failed() then s.Propagate() else Done(Some(s.value))
  }

  /** get<MapArgs_t>(): an object's members; anything else throws. */
  function ArgsOf(j: Json): (r: Outcome<map<string, Json>>)
    ensures !r.Undefined?
    ensures r.Done? <==> j.JObj?
    ensures r.Done? ==> r.value == j.fields
  {
    if j.JObj? then Done(j.fields) else Threw("type_error.302: type must be object")
  }

  /** The arguments and function once a plugin's configuration is applied. */
  datatype Config = Config(args: map<string, Json>, functionName: Option<string>)

  /** The arguments of the configuration: the const `config["ARGS"]` walked with items(). */
  function ConfigArgs(config: Json): Outcome<map<string, Json>> {
    var argsJson := ConstAt(config, "ARGS");
    if argsJson.Failed() then argsJson.Propagate() else Done(Items(argsJson.value))
  }

  /**
   * apply_config: when the IDS's PLUGIN_CONFIG names the plugin, each of the
   * configuration's ARGS is added unless the mapping already has an argument
   * of that name, and the configuration's FUNCTION is adopted when the mapping
   * names none. The mapping's own arguments and function are never replaced.
   */
  function Configured(args: map<string, Json>, fn: Option<string>, configMap: Json, plugin: string)
    : (r: Outcome<Config>)
    ensures !Contains(configMap, plugin) ==> r == Done(Config(args, fn))
    ensures Contains(configMap, plugin) ==> (r.Done? ==> ConfigArgs(configMap.fields[plugin]).Done?)
    ensures r.Done? ==> forall k :: k in args ==> k in r.value.args && r.value.args[k] == args[k]
    ensures r.Done? && Contains(configMap, plugin) ==> var extra := ConfigArgs(configMap.fields[plugin]).value;
      r.value.args.Keys == args.Keys + extra.Keys &&
      forall k :: k in extra && k !in args ==> r.value.args[k] == extra[k]
    ensures r.Done? && fn.Some? ==> r.value.functionName == fn
    ensures r.Done? && fn.None? && Contains(configMap, plugin) ==> var config := configMap.fields[plugin];
      (r.value.functionName.Some? <==> Contains(config, "FUNCTION")) &&
      (r.value.functionName.Some? ==> config.fields["FUNCTION"] == JStr(r.value.functionName.value))
    ensures r.Threw? <==> (Contains(configMap, plugin) &&
                           (ConfigArgs(configMap.fields[plugin]).Threw? ||
                            (ConfigArgs(configMap.fields[plugin]).Done? && fn.None? &&
                             Contains(configMap.fields[plugin], "FUNCTION") &&
                             !configMap.fields[plugin].fields["FUNCTION"].JStr?)))
  {
    if !Contains(configMap, plugin) then Done(Config(args, fn))
    else
      var config := configMap.fields[plugin];
      var extra := ConfigArgs(config);
      if extra.Failed() then extra.Propagate()
      else
        var merged := map k | k in args.Keys + extra.value.Keys :: if k in args then args[k] else extra.value[k];
        if Contains(config, "FUNCTION") && fn.None? then
          var f := GetString(config.fields["FUNCTION"]);
          if f.Failed() then f.Propagate() else Done(Config(merged, Some(f.value)))
        else Done(Config(merged, fn))
  }

  /** apply_config as the loop over the configuration's arguments that it is. */
  method ApplyConfig(args: map<string, Json>, fn: Option<string>, configMap: Json, plugin: string)
    returns (r: Outcome<Config>)
    ensures r == Configured(args, fn, configMap, plugin)
  {
    if !Contains(configMap, plugin) {
      return Done(Config(args, fn));
    }
    var config := configMap.fields[plugin];
    var extra := ConfigArgs(config);
    if extra.Failed() {
      return extra.Propagate();
    }
    var merged := args;
    var todo := extra.value.Keys;
    while todo != {}
      invariant todo <= extra.value.Keys
      invariant merged ==
        map k | k in args.Keys + (extra.value.Keys - todo) :: if k in args then args[k] else extra.value[k]
      decreases todo
    {
      var name :| name in todo;
      if name !in merged {
        merged := merged[name := extra.value[name]];
      }
      todo := todo - {name};
    }
    assert extra.value.Keys - todo == extra.value.Keys;
    var adopted := fn;
    if Contains(config, "FUNCTION") && adopted.None? {
      var f := GetString(config.fields["FUNCTION"]);
      if f.Failed() {
        return f.Propagate();
      }
      adopted := Some(f.value);
    }
    return Done(Config(merged, adopted));
  }

  /** The plugin name and arguments of a PLUGIN entry, the first fields init_plugin_mapping reads. */
  function PluginHead(value: Json): (r: Outcome<(string, map<string, Json>)>)
    ensures r.Done? <==> (Contains(value, "PLUGIN") && value.fields["PLUGIN"].JStr? &&
                          Contains(value, "ARGS") && value.fields["ARGS"].JObj?)
    ensures r.Done? ==> r.value.0 == CText.ToUpper(value.fields["PLUGIN"].s) && r.value.1 == value.fields["ARGS"].fields
    ensures value.JObj? && !("PLUGIN" in value.fields) ==> r.Undefined?
  {
    var name := ConstAt(value, "PLUGIN");
    if name.Failed() then name.Propagate()
    else
      var s := GetString(name.value);
      if s.Failed() then s.Propagate()
      else
        var argsJson := ConstAt(value, "ARGS");
        if argsJson.Failed() then argsJson.Propagate()
        else
          var args := ArgsOf(argsJson.value);
          if args.Failed() then args.Propagate() else Done((CText.ToUpper(s.value), args.value))
  }

  /**
   * init_plugin_mapping once the name and the arguments are read: OFFSET and
   * SCALE as get_float_value reads them, the optional SLICE and FUNCTION
   * strings, then the IDS's PLUGIN_CONFIG applied.
   */
  function PluginRest(plugin: string, args: map<string, Json>, value: Json, attrs: Json, ext: External)
    : (r: Outcome<Mapping>)
    ensures r.Done? ==> r.value.PluginMapping? && r.value.plugin == plugin
    ensures r.Done? ==> (FloatValue("OFFSET", value, attrs, ext).Done? &&
                         r.value.offset == FloatValue("OFFSET", value, attrs, ext).value)
    ensures r.Done? ==> (FloatValue("SCALE", value, attrs, ext).Done? &&
                         r.value.scale == FloatValue("SCALE", value, attrs, ext).value)
    ensures r.Done? ==> OptionalString(value, "SLICE").Done? && r.value.slice == OptionalString(value, "SLICE").value
    ensures r.Done? ==> forall k :: k in args ==> k in r.value.args && r.value.args[k] == args[k]
    ensures r.Done? && !Contains(attrs, "PLUGIN_CONFIG") ==>
      (r.value.args == args && OptionalString(value, "FUNCTION").Done? &&
       r.value.functionName == OptionalString(value, "FUNCTION").value)
    ensures FloatValue("OFFSET", value, attrs, ext).Threw? ==> r.Threw?
  {
    var offset := FloatValue("OFFSET", value, attrs, ext);
    var scale := FloatValue("SCALE", value, attrs, ext);
    var slice := OptionalString(value, "SLICE");
    var fn := OptionalString(value, "FUNCTION");
    if offset.Failed() then offset.Propagate()
    else if scale.Failed() then scale.Propagate()
    else if slice.Failed() then slice.Propagate()
    else if fn.Failed() then fn.Propagate()
    else
      var config :=
        if Contains(attrs, "PLUGIN_CONFIG") then Configured(args, fn.value, attrs.fields["PLUGIN_CONFIG"], plugin)
        else Done(Config(args, fn.value));
      if config.Failed() then config.Propagate()
      else Done(PluginMapping(plugin, config.value.args, offset.value, scale.value, slice.value, config.value.functionName))
  }

  /** init_plugin_mapping: the plugin name upper-cased, its ARGS, then the rest. */
  function PluginMappingOf(value: Json, attrs: Json, ext: External): (r: Outcome<Mapping>)
    ensures r.Done? ==> PluginHead(value).Done? && r.value.PluginMapping?
    ensures r.Done? ==> r.value.plugin == CText.ToUpper(value.fields["PLUGIN"].s)
    ensures r.Done? ==> forall c :: 0 <= c < |r.value.plugin| ==> !('a' <= r.value.plugin[c] <= 'z')
    ensures PluginHead(value).Failed() ==> r.Failed() && r.Threw? == PluginHead(value).Threw?
    ensures PluginHead(value).Done? ==>
      r == PluginRest(PluginHead(value).value.0, value.fields["ARGS"].fields, value, attrs, ext)
  {
    var head := PluginHead(value);
    if head.Failed() then head.Propagate() else PluginRest(head.value.0, head.value.1, value, attrs, ext)
  }

  /** The string map of get<std::unordered_map<std::string, std::string>>(). */
  function StringsOf(j: Json): (r: Outcome<map<string, string>>)
    ensures !r.Undefined?
    ensures r.Done? <==> j.JObj? && forall k :: k in j.fields ==> j.fields[k].JStr?
    ensures r.Done? ==> r.value.Keys == j.fields.Keys && forall k :: k in j.fields ==> r.value[k] == j.fields[k].s
  {
    if j.JObj? && forall k :: k in j.fields ==> j.fields[k].JStr? then
      Done(map k | k in j.fields :: j.fields[k].s)
    else Threw("type_error.302: type must be string")
  }

  /** The string under a key, through the const operator[] and get<std::string>(). */
  function StringAt(value: Json, key: string): (r: Outcome<string>)
    ensures r.Done? <==> Contains(value, key) && value.fields[key].JStr?
    ensures r.Done? ==> r.value == value.fields[key].s
    ensures r.Undefined? <==> value.JObj? && key !in value.fields
  {
    var j := ConstAt(value, key);
    if j.Failed() then j.Propagate() else GetString(j.value)
  }

  // ---- one entry of a mappings file ---------------------------------------------------------

  /**
   * The switch of init_mappings on one entry: the mapping it registers, or
   * none for SLICE, which falls to the default branch. `attrs` is the IDS's
   * globals when it has any; a PLUGIN entry of an IDS without them throws
   * (`attributes.at`).
   */
  function InitEntry(value: Json, attrs: Option<Json>, ext: External): (r: Outcome<Option<Mapping>>)
    ensures r.Done? ==> Contains(value, "MAP_TYPE")
    ensures r.Done? ==> (r.value.None? <==> MapTypeOf(value.fields["MAP_TYPE"]) == AsSlice)
    ensures value.JObj? && "MAP_TYPE" !in value.fields ==> r.Undefined?
    ensures !value.JObj? ==> r.Threw?
    ensures Contains(value, "MAP_TYPE") && MapTypeOf(value.fields["MAP_TYPE"]) == AsValue ==>
      (r.Done? <==> "VALUE" in value.fields) && (r.Done? ==> r.value == Some(ValueMapping(value.fields["VALUE"])))
    ensures Contains(value, "MAP_TYPE") && MapTypeOf(value.fields["MAP_TYPE"]) == AsPlugin ==>
      (attrs.None? ==> r.Threw?) &&
      (attrs.Some? ==> r == (var p := PluginMappingOf(value, attrs.value, ext);
                             if p.Failed() then p.Propagate() else Done(Some(p.value))))
    ensures Contains(value, "MAP_TYPE") && MapTypeOf(value.fields["MAP_TYPE"]) == AsDimension ==>
      (r.Done? <==> StringAt(value, "DIM_PROBE").Done?) &&
      (r.Done? ==> r.value == Some(DimMapping(value.fields["DIM_PROBE"].s)))
    ensures Contains(value, "MAP_TYPE") && MapTypeOf(value.fields["MAP_TYPE"]) == AsCustom ==>
      (r.Done? <==> "CUSTOM_TYPE" in value.fields) &&
      (r.Done? ==> r.value == Some(CustomMapping(CustomKindOf(value.fields["CUSTOM_TYPE"]))))
    ensures Contains(value, "MAP_TYPE") && MapTypeOf(value.fields["MAP_TYPE"]) == AsExpr ==>
      (r.Done? <==> StringAt(value, "EXPR").Done? && Contains(value, "PARAMETERS") &&
                    StringsOf(value.fields["PARAMETERS"]).Done?) &&
      (r.Done? ==> r.value == Some(ExprMapping(value.fields["EXPR"].s, StringsOf(value.fields["PARAMETERS"]).value)))
  {
    var mapType := ConstAt(value, "MAP_TYPE");
    if mapType.Failed() then mapType.Propagate()
    else
      match MapTypeOf(mapType.value)
      case AsValue =>
        var v := At(value, "VALUE");
        if v.Failed() then v.Propagate() else Done(Some(ValueMapping(v.value)))
      case AsPlugin =>
        if attrs.None? then Threw("std::out_of_range from unordered_map::at")
        else
          var p := PluginMappingOf(value, attrs.value, ext);
          if p.Failed() then p.Propagate() else Done(Some(p.value))
      case AsDimension =>
        var probe := StringAt(value, "DIM_PROBE");
        if probe.Failed() then probe.Propagate() else Done(Some(DimMapping(probe.value)))
      case AsExpr =>
        var expr := StringAt(value, "EXPR");
        if expr.Failed() then expr.Propagate()
        else
          var params := ConstAt(value, "PARAMETERS");
          if params.Failed() then params.Propagate()
          else
            var strings := StringsOf(params.value);
            if strings.Failed() then strings.Propagate() else Done(Some(ExprMapping(expr.value, strings.value)))
      case AsCustom =>
        var kind := ConstAt(value, "CUSTOM_TYPE");
        if kind.Failed() then kind.Propagate() else Done(Some(CustomMapping(CustomKindOf(kind.value))))
      case AsSlice => Done(None)
  }

  /** The entries of `keys` initialise without an exception or undefined behaviour. */
  predicate InitAmong(items: map<string, Json>, keys: set<string>, attrs: Option<Json>, ext: External) {
    forall k :: k in keys && k in items ==> InitEntry(items[k], attrs, ext).Done?
  }

  /** The part of the table init_mappings builds from the entries of `keys`. */
  function RegisteredAmong(items: map<string, Json>, keys: set<string>, attrs: Option<Json>, ext: External)
    : (r: map<string, Mapping>)
    requires InitAmong(items, keys, attrs, ext)
  {
    map k | k in keys && k in items && InitEntry(items[k], attrs, ext).value.Some? :: InitEntry(items[k], attrs, ext).value.value
  }

  /** One more entry initialised: the table gains it unless it is a SLICE. */
  lemma RegisteredAmongAdd(items: map<string, Json>, keys: set<string>, key: string, attrs: Option<Json>, ext: External)
    requires InitAmong(items, keys, attrs, ext) && key in items && key !in keys
    requires InitEntry(items[key], attrs, ext).Done?
    ensures InitAmong(items, keys + {key}, attrs, ext)
    ensures key !in RegisteredAmong(items, keys, attrs, ext)
    ensures RegisteredAmong(items, keys + {key}, attrs, ext) ==
      (var e := InitEntry(items[key], attrs, ext).value;
       if e.Some? then RegisteredAmong(items, keys, attrs, ext)[key := e.value] else RegisteredAmong(items, keys, attrs, ext))
  {
  }

  /** Every entry of a mappings file initialises without an exception or undefined behaviour. */
  predicate AllInit(items: map<string, Json>, attrs: Option<Json>, ext: External) {
    InitAmong(items, items.Keys, attrs, ext)
  }

  /**
   * The table init_mappings builds: every entry except the SLICE ones, each as
   * its initialiser made it.
   */
  function Registered(items: map<string, Json>, attrs: Option<Json>, ext: External): (r: map<string, Mapping>)
    requires AllInit(items, attrs, ext)
    ensures forall k :: k in r <==> k in items && MapTypeOf(items[k].fields["MAP_TYPE"]) != AsSlice
    ensures forall k :: k in r ==> InitEntry(items[k], attrs, ext) == Done(Some(r[k]))
  {
    RegisteredAmong(items, items.Keys, attrs, ext)
  }

  /** The IDS's globals, when load_globals recorded any. */
  function AttributesOf(mm: MachineMapping, ids: string): Option<Json> {
    if ids in mm.attributes then Some(mm.attributes[ids]) else None
  }

  /** `mappings.try_emplace(ids, table)`: an IDS that already has a table keeps it. */
  function Emplaced(mm: MachineMapping, ids: string, table: map<string, Mapping>): (r: MachineMapping)
    ensures r.attributes == mm.attributes
    ensures r.mappings.Keys == mm.mappings.Keys + {ids}
    ensures forall i :: i in mm.mappings ==> r.mappings[i] == mm.mappings[i]
    ensures ids !in mm.mappings ==> r.mappings[ids] == table
  {
    if ids in mm.mappings then mm else mm.(mappings := mm.mappings[ids := table])
  }

  // ---- loading a machine ---------------------------------------------------------------------

  /**
   * What a loading call leaves: the register, and the code it returns, or
   * None when an exception or undefined behaviour ends it. Which entry of a
   * mappings file fails first, when several would, is not fixed, so the kind
   * of failure is not recorded here.
   */
  datatype Loaded = Loaded(register: Register, code: Option<int>)

  /** load_globals: the IDS's merged globals recorded, or 999 and nothing recorded. */
  function GlobalsLoaded(reg: Register, dir: string, machine: string, ids: string, files: Files)
    : (r: Outcome<(int, Register)>)
    requires machine in reg
    ensures r.Failed() <==> IdsGlobals(dir, machine, ids, files).Failed()
    ensures r.Done? ==> (r.value.1.Keys == reg.Keys &&
                         (forall m :: m in reg && m != machine ==> r.value.1[m] == reg[m]) &&
                         r.value.1[machine].mappings == reg[machine].mappings)
    ensures r.Done? && r.value.0 == PluginError ==> r.value.1 == reg
    ensures r.Done? ==> (r.value.0 == 0 <==> IdsGlobals(dir, machine, ids, files).value.Some?)
    ensures r.Done? && r.value.0 == 0 ==>
      r.value.1[machine].attributes == reg[machine].attributes[ids := IdsGlobals(dir, machine, ids, files).value.value]
  {
    var g := IdsGlobals(dir, machine, ids, files);
    if g.Failed() then g.Propagate()
    else if g.value.None? then Done((PluginError, reg))
    else Done((0, reg[machine := reg[machine].(attributes := reg[machine].attributes[ids := g.value.value])]))
  }

  /**
   * load_mappings: the IDS's table built from its mappings.json and emplaced,
   * or 999 and nothing changed when the file does not open or parse.
   */
  function MappingsLoaded(reg: Register, dir: string, machine: string, ids: string, files: Files, ext: External)
    : (l: Loaded)
    requires machine in reg
    ensures l.register.Keys == reg.Keys && forall m :: m in reg && m != machine ==> l.register[m] == reg[m]
    ensures l.register[machine].attributes == reg[machine].attributes
    ensures l.code.Some? ==> l.code.value in {0, PluginError}
    ensures l.code != Some(0) ==> l.register == reg
    ensures ids in reg[machine].mappings ==> l.register == reg
    ensures l.code == Some(0) <==>
      (Read(files, MappingPath(dir, machine, ids, MappingsFile)).Some? &&
       AllInit(Items(Read(files, MappingPath(dir, machine, ids, MappingsFile)).value), AttributesOf(reg[machine], ids), ext))
    ensures l.code == Some(0) ==>
      l.register[machine] ==
        Emplaced(reg[machine], ids, Registered(Items(Read(files, MappingPath(dir, machine, ids, MappingsFile)).value),
                                               AttributesOf(reg[machine], ids), ext))
  {
    var data := Read(files, MappingPath(dir, machine, ids, MappingsFile));
    if data.None? then Loaded(reg, Some(PluginError))
    else
      var items := Items(data.value);
      var attrs := AttributesOf(reg[machine], ids);
      if !AllInit(items, attrs, ext) then Loaded(reg, None)
      else Loaded(reg[machine := Emplaced(reg[machine], ids, Registered(items, attrs, ext))], Some(0))
  }

  /** One turn of load_machine's loop: load_globals then load_mappings for one IDS, codes ignored. */
  function IdsStep(before: Loaded, dir: string, machine: string, ids: string, files: Files, ext: External)
    : (l: Loaded)
    requires machine in before.register
    ensures machine in l.register
  {
    if before.code.None? then before
    else
      var g := GlobalsLoaded(before.register, dir, machine, ids, files);
      if g.Failed() then Loaded(before.register, None)
      else
        var m := MappingsLoaded(g.value.1, dir, machine, ids, files, ext);
        Loaded(m.register, if m.code.None? then None else Some(0))
  }

  /**
   * One turn touches only this machine, keeps every table it had, adds at most
   * the IDS's own, registers it when its mappings.json reads, and passes an
   * earlier exception on unchanged.
   */
  lemma IdsStepKeeps(before: Loaded, dir: string, machine: string, ids: string, files: Files, ext: External)
    requires machine in before.register
    ensures var l := IdsStep(before, dir, machine, ids, files, ext);
      l.register.Keys == before.register.Keys
      && (forall m :: m in before.register && m != machine ==> l.register[m] == before.register[m])
      && (before.code.None? ==> l == before)
      && (l.code.Some? ==> l.code.value == 0)
      && (forall i :: i in before.register[machine].mappings ==>
            i in l.register[machine].mappings && l.register[machine].mappings[i] == before.register[machine].mappings[i])
      && before.register[machine].attributes.Keys <= l.register[machine].attributes.Keys
      && (l.code.Some? && Read(files, MappingPath(dir, machine, ids, MappingsFile)).Some? ==>
            ids in l.register[machine].mappings)
      && (forall i :: i in l.register[machine].mappings ==> i in before.register[machine].mappings || i == ids)
  {
    if before.code.Some? {
      var g := GlobalsLoaded(before.register, dir, machine, ids, files);
      if !g.Failed() {
        var reg := g.value.1;
        var m := MappingsLoaded(reg, dir, machine, ids, files, ext);
        assert reg[machine].mappings == before.register[machine].mappings;
        assert before.register[machine].attributes.Keys <= reg[machine].attributes.Keys;
        assert m.register[machine].attributes == reg[machine].attributes;
        if m.code == Some(0) {
          assert ids in m.register[machine].mappings;
        }
      }
    }
  }

  /**
   * The loop of load_machine: load_globals then load_mappings for each IDS
   * listed, their codes ignored, until one of them throws.
   */
  function IdsLoaded(reg: Register, dir: string, machine: string, idsList: seq<string>, files: Files, ext: External)
    : (l: Loaded)
    requires machine in reg
    ensures machine in l.register
    decreases |idsList|
  {
    if idsList == [] then Loaded(reg, Some(0))
    else
      IdsStep(IdsLoaded(reg, dir, machine, idsList[..|idsList| - 1], files, ext), dir, machine, idsList[|idsList| - 1],
              files, ext)
  }

  /** An IDS's table, once registered, is never replaced, and no other machine is touched. */
  lemma {:induction false} IdsLoadedKeeps(reg: Register, dir: string, machine: string, idsList: seq<string>,
                                          files: Files, ext: External)
    requires machine in reg
    ensures var l := IdsLoaded(reg, dir, machine, idsList, files, ext);
      l.register.Keys == reg.Keys
      && (forall m :: m in reg && m != machine ==> l.register[m] == reg[m])
      && (l.code.Some? ==> l.code.value == 0)
      && (forall i :: i in reg[machine].mappings ==>
            i in l.register[machine].mappings && l.register[machine].mappings[i] == reg[machine].mappings[i])
      && reg[machine].attributes.Keys <= l.register[machine].attributes.Keys
    decreases |idsList|
  {
    if idsList != [] {
      var front := idsList[..|idsList| - 1];
      IdsLoadedKeeps(reg, dir, machine, front, files, ext);
      IdsStepKeeps(IdsLoaded(reg, dir, machine, front, files, ext), dir, machine, idsList[|idsList| - 1], files, ext);
    }
  }

  /** The list grown by one IDS is one more turn of the loop. */
  lemma IdsLoadedSnoc(reg: Register, dir: string, machine: string, front: seq<string>, ids: string, files: Files,
                      ext: External)
    requires machine in reg
    ensures IdsLoaded(reg, dir, machine, front + [ids], files, ext) ==
      IdsStep(IdsLoaded(reg, dir, machine, front, files, ext), dir, machine, ids, files, ext)
  {
    assert (front + [ids])[..|front|] == front;
  }

  /** The prefix one IDS longer is one more turn of the loop. */
  lemma IdsLoadedNext(reg: Register, dir: string, machine: string, idsList: seq<string>, i: nat, files: Files,
                      ext: External)
    requires machine in reg && i < |idsList|
    ensures IdsLoaded(reg, dir, machine, idsList[..i + 1], files, ext) ==
      IdsStep(IdsLoaded(reg, dir, machine, idsList[..i], files, ext), dir, machine, idsList[i], files, ext)
  {
    assert idsList[..i + 1] == idsList[..i] + [idsList[i]];
    IdsLoadedSnoc(reg, dir, machine, idsList[..i], idsList[i], files, ext);
  }

  /** Once an IDS's loading throws, the rest of the list is not looked at. */
  lemma {:induction false} IdsLoadedStops(reg: Register, dir: string, machine: string, idsList: seq<string>, k: nat,
                                          files: Files, ext: External)
    requires machine in reg && k <= |idsList|
    requires IdsLoaded(reg, dir, machine, idsList[..k], files, ext).code.None?
    ensures IdsLoaded(reg, dir, machine, idsList, files, ext) == IdsLoaded(reg, dir, machine, idsList[..k], files, ext)
    decreases |idsList| - k
  {
    if k < |idsList| {
      IdsLoadedSnoc(reg, dir, machine, idsList[..k], idsList[k], files, ext);
      assert idsList[..k + 1] == idsList[..k] + [idsList[k]];
      IdsLoadedStops(reg, dir, machine, idsList, k + 1, files, ext);
    } else {
      assert idsList[..k] == idsList;
    }
  }

  /** A throw while loading the first k IDS is the outcome of loading the whole list. */
  lemma LoadIdsStops(reg: Register, dir: string, machine: string, idsList: seq<string>, k: nat,
                     files: Files, ext: External, left: Register)
    requires machine in reg && k <= |idsList|
    requires Loaded(left, None) == IdsLoaded(reg, dir, machine, idsList[..k], files, ext)
    ensures IdsLoaded(reg, dir, machine, idsList, files, ext) == Loaded(left, None)
  {
    IdsLoadedStops(reg, dir, machine, idsList, k, files, ext);
  }

  /**
   * When the loop runs to the end, every listed IDS whose mappings.json reads
   * has a table, and no IDS outside the list gains one.
   */
  lemma {:induction false} ListedIdsRegistered(reg: Register, dir: string, machine: string, idsList: seq<string>,
                                               files: Files, ext: External)
    requires machine in reg
    requires IdsLoaded(reg, dir, machine, idsList, files, ext).code.Some?
    ensures var l := IdsLoaded(reg, dir, machine, idsList, files, ext);
      forall i :: 0 <= i < |idsList| && Read(files, MappingPath(dir, machine, idsList[i], MappingsFile)).Some? ==>
        idsList[i] in l.register[machine].mappings
    ensures var l := IdsLoaded(reg, dir, machine, idsList, files, ext);
      forall ids :: ids in l.register[machine].mappings ==> ids in reg[machine].mappings || ids in idsList
    decreases |idsList|
  {
    if idsList != [] {
      var front := idsList[..|idsList| - 1];
      IdsStepKeeps(IdsLoaded(reg, dir, machine, front, files, ext), dir, machine, idsList[|idsList| - 1], files, ext);
      ListedIdsRegistered(reg, dir, machine, front, files, ext);
      assert forall i :: 0 <= i < |front| ==> idsList[i] == front[i];
      assert forall x :: x in front ==> x in idsList;
    }
  }

  /** The element `config[dd]` names through the non-const operator[], which adds a null when absent. */
  function Indexed(config: Json, dd: string): (r: Outcome<(Json, Json)>)
    ensures !r.Undefined?
    ensures r.Done? <==> config.JObj? || config.JNull?
    ensures r.Done? ==> r.value.0.JObj? && dd in r.value.0.fields && r.value.1 == r.value.0.fields[dd]
    ensures Contains(config, dd) ==> r == Done((config, config.fields[dd]))
    ensures r.Done? && !Contains(config, dd) ==> r.value.1 == JNull
  {
    if Contains(config, dd) then Done((config, config.fields[dd]))
    else
      var added := Assign(config, dd, JNull);
      if added.Failed() then added.Propagate() else Done((added.value, JNull))
  }

  /** get<std::vector<std::string>>(): an array of strings; anything else throws. */
  function IdsListOf(j: Json): (r: Outcome<seq<string>>)
    ensures !r.Undefined?
    ensures r.Done? <==> j.JArr? && forall i :: 0 <= i < |j.elems| ==> j.elems[i].JStr?
    ensures r.Done? ==> |r.value| == |j.elems| && forall i :: 0 <= i < |j.elems| ==> r.value[i] == j.elems[i].s
  {
    if j.JArr? && forall i :: 0 <= i < |j.elems| ==> j.elems[i].JStr? then
      Done(seq(|j.elems|, i requires 0 <= i < |j.elems| => j.elems[i].s))
    else Threw("type_error.302: type must be array")
  }

  /**
   * load_machine: a machine already registered is left alone; a config file
   * that does not open gives 999 with nothing registered; once the config
   * parses, the machine is registered with empty tables before its IDS list
   * is read, so a machine whose list then throws stays registered, and empty.
   */
  function MachineLoaded(reg: Register, config: Json, dir: string, dd: string, machine: string, files: Files,
                         ext: External): (r: (Json, Loaded))
    ensures machine in reg ==> r == (config, Loaded(reg, Some(0)))
    ensures machine !in reg && MappingPath(dir, machine, [], ConfigFile) !in files ==>
      r == (config, Loaded(reg, Some(PluginError)))
    ensures machine !in reg && Read(files, MappingPath(dir, machine, [], ConfigFile)).Some? ==>
      machine in r.1.register && r.1.register.Keys == reg.Keys + {machine}
    ensures forall m :: m in reg && m != machine ==> m in r.1.register && r.1.register[m] == reg[m]
    ensures r.1.register.Keys <= reg.Keys + {machine}
    ensures r.1.code.Some? ==> r.1.code.value in {0, PluginError}
    ensures r.1.code == Some(PluginError) ==> r.1.register == reg
  {
    if machine in reg then (config, Loaded(reg, Some(0)))
    else
      var path := MappingPath(dir, machine, [], ConfigFile);
      if path !in files then (config, Loaded(reg, Some(PluginError)))
      else if files[path].None? then (config, Loaded(reg, None))
      else
        var parsed := files[path].value;
        var registered := reg[machine := MachineMapping(map[], map[])];
        var element := Indexed(parsed, dd);
        if element.Failed() then (parsed, Loaded(registered, None))
        else
          var idsList := IdsListOf(element.value.1);
          if idsList.Failed() then (element.value.0, Loaded(registered, None))
          else
            IdsLoadedKeeps(registered, dir, machine, idsList.value, files, ext);
            (element.value.0, IdsLoaded(registered, dir, machine, idsList.value, files, ext))
  }

  // ---- the cache setting ---------------------------------------------------------------------

  /** UDA_JSON_MAPPING_USE_CACHE: caching is on when unset or a positive number. */
  function CacheEnabled(useCacheVar: Option<string>): (r: Outcome<bool>)
    ensures !r.Undefined?
    ensures useCacheVar.None? ==> r == Done(true)
    ensures useCacheVar.Some? ==> (r.Done? <==> CText.Stoi(useCacheVar.value).Parsed?)
    ensures useCacheVar.Some? && r.Done? ==> r.value == (CText.Stoi(useCacheVar.value).value > 0)
  {
    if useCacheVar.None? then Done(true)
    else
      match CText.Stoi(useCacheVar.value)
      case Parsed(v) => Done(v > 0)
      case InvalidArgument => Threw("std::invalid_argument from stoi")
      case OutOfRange => Threw("std::out_of_range from stoi")
  }

  /**
   * UDA_JSON_MAPPING_CACHE_SIZE, or the default 100 when unset. The int that
   * std::stoi reads passes through size_t into the cache's 32-bit capacity,
   * so it is taken modulo 2^32: a negative size becomes a capacity above
   * 2^31.
   */
  function CacheCapacity(cacheSizeVar: Option<string>): (r: Outcome<nat>)
    ensures !r.Undefined?
    ensures cacheSizeVar.None? ==> r == Done(DefaultSize)
    ensures cacheSizeVar.Some? ==> (r.Done? <==> CText.Stoi(cacheSizeVar.value).Parsed?)
    ensures r.Done? ==> r.value < Subset.U32
    ensures r.Done? && cacheSizeVar.Some? && CText.Stoi(cacheSizeVar.value).value >= 0 ==>
      r.value == CText.Stoi(cacheSizeVar.value).value
    ensures r.Done? && cacheSizeVar.Some? && CText.Stoi(cacheSizeVar.value).value < 0 ==>
      r.value == Subset.U32 + CText.Stoi(cacheSizeVar.value).value && r.value > CText.IntMax
  {
    if cacheSizeVar.None? then Done(DefaultSize)
    else
      match CText.Stoi(cacheSizeVar.value)
      case Parsed(v) => WrapsBelow(v); Done(v % Subset.U32)
      case InvalidArgument => Threw("std::invalid_argument from stoi")
      case OutOfRange => Threw("std::out_of_range from stoi")
  }

  /** An int taken modulo 2^32: itself when not negative, else 2^32 above it. */
  lemma WrapsBelow(v: int)
    requires CText.IntMin <= v <= CText.IntMax
    ensures v >= 0 ==> v % Subset.U32 == v
    ensures v < 0 ==> v % Subset.U32 == v + Subset.U32
  {
    if v < 0 {
      assert (v + Subset.U32) - Subset.U32 == v;
    }
  }

  /**
   * UDA_JSON_MAPPING_CACHE_LOGGING, which the cache's constructor reads:
   * logging is on when set to a positive number, off when unset.
   */
  function CacheLogging(cacheLogVar: Option<string>): (r: Outcome<bool>)
    ensures !r.Undefined?
    ensures cacheLogVar.None? ==> r == Done(false)
    ensures cacheLogVar.Some? ==> (r.Done? <==> CText.Stoi(cacheLogVar.value).Parsed?)
    ensures cacheLogVar.Some? && r.Done? ==> r.value == (CText.Stoi(cacheLogVar.value).value > 0)
  {
    if cacheLogVar.None? then Done(false)
    else
      match CText.Stoi(cacheLogVar.value)
      case Parsed(v) => Done(v > 0)
      case InvalidArgument => Threw("std::invalid_argument from stoi")
      case OutOfRange => Threw("std::out_of_range from stoi")
  }

  /**
   * The cache init() creates: none when caching is switched off, else one of
   * CacheCapacity's size, whose constructor then reads the logging setting.
   * std::stoi's exceptions escape.
   */
  function CacheSetting(cacheSizeVar: Option<string>, useCacheVar: Option<string>, cacheLogVar: Option<string>)
    : (r: Outcome<Option<nat>>)
    ensures !r.Undefined?
    ensures cacheSizeVar.None? && useCacheVar.None? && cacheLogVar.None? ==> r == Done(Some(DefaultSize))
    ensures r.Done? <==>
      (CacheEnabled(useCacheVar).Done? &&
       (CacheEnabled(useCacheVar).value ==> CacheCapacity(cacheSizeVar).Done? && CacheLogging(cacheLogVar).Done?))
    ensures r.Done? ==> (r.value.Some? <==> CacheEnabled(useCacheVar).value)
    ensures r.Done? && r.value.Some? ==> r.value.value == CacheCapacity(cacheSizeVar).value
    ensures r.Threw? && CacheEnabled(useCacheVar).Done? && CacheCapacity(cacheSizeVar).Done? ==>
      r == CacheLogging(cacheLogVar).Propagate()
  {
    var enabled := CacheEnabled(useCacheVar);
    if enabled.Failed() then enabled.Propagate()
    else if !enabled.value then Done(None)
    else
      var capacity := CacheCapacity(cacheSizeVar);
      if capacity.Failed() then capacity.Propagate()
      else
        var logging := CacheLogging(cacheLogVar);
        if logging.Failed() then logging.Propagate() else Done(Some(capacity.value))
  }

  /**
   * With caching on, a logging setting std::stoi rejects makes init() throw
   * whatever the other two settings say; with caching off it is never read.
   */
  lemma LoggingSettingThrows(cacheSizeVar: Option<string>, useCacheVar: Option<string>, cacheLogVar: Option<string>)
    requires CacheEnabled(useCacheVar) == Done(true) && CacheCapacity(cacheSizeVar).Done?
    requires cacheLogVar.Some? && !CText.Stoi(cacheLogVar.value).Parsed?
    ensures CacheSetting(cacheSizeVar, useCacheVar, cacheLogVar).Threw?
  {
  }

  /** The cache a setting asks for: an empty one of that capacity, or none. */
  method NewCache(capacity: Option<nat>) returns (c: RamCache?)
    requires capacity.Some? ==> capacity.value < Subset.U32
    ensures c != null <==> capacity.Some?
    ensures c != null ==> fresh(c) && c.State() == Empty(capacity.value)
  {
    if capacity.Some? {
      c := new RamCache.WithCapacity(capacity.value);
    } else {
      c := null;
    }
  }

  // ---- the handler -------------------------------------------------------------------------

  class MappingHandler {
    var machineRegister: Register
    var initialised: bool
    var ddVersion: string
    var mappingDir: string
    var mappingConfig: Json
    var ramCache: RamCache?
    var cacheEnabled: bool

    /** MappingHandler(): data dictionary version 3.39.0, nothing loaded. */
    constructor ()
      ensures machineRegister == map[] && !initialised && ddVersion == DefaultDdVersion
      ensures mappingDir == [] && mappingConfig == JNull && ramCache == null
    {
      machineRegister := map[];
      initialised := false;
      ddVersion := DefaultDdVersion;
      mappingDir := [];
      mappingConfig := JNull;
      ramCache := null;
      cacheEnabled := false;
    }

    /** MappingHandler(dd_version). */
    constructor WithVersion(dd: string)
      ensures machineRegister == map[] && !initialised && ddVersion == dd
      ensures mappingDir == [] && mappingConfig == JNull && ramCache == null
    {
      machineRegister := map[];
      initialised := false;
      ddVersion := dd;
      mappingDir := [];
      mappingConfig := JNull;
      ramCache := null;
      cacheEnabled := false;
    }

    /** The settings the loading methods leave alone: version, directory, init flag and cache. */
    function Settings(): (string, string, bool, RamCache?)
      reads this
    {
      (ddVersion, mappingDir, initialised, ramCache)
    }

    /** reset(): forgets every machine and the config; the cache is kept. */
    method Reset() returns (r: int)
      modifies this
      ensures r == 0 && machineRegister == map[] && !initialised
      ensures mappingConfig == Cleared(old(mappingConfig))
      ensures ramCache == old(ramCache) && cacheEnabled == old(cacheEnabled)
      ensures ddVersion == old(ddVersion) && mappingDir == old(mappingDir)
    {
      machineRegister := map[];
      mappingConfig := Cleared(mappingConfig);
      initialised := false;
      return 0;
    }

    /**
     * init(): does nothing once initialised or once a machine is loaded;
     * otherwise creates the cache CacheSetting describes, or none.
     */
    method Init(cacheSizeVar: Option<string>, useCacheVar: Option<string>, cacheLogVar: Option<string>) returns (r: Outcome<int>)
      modifies this
      ensures old(initialised) || old(machineRegister) != map[] ==>
        r == Done(0) && initialised == old(initialised) && ramCache == old(ramCache)
      ensures !old(initialised) && old(machineRegister) == map[] ==>
        (r.Done? <==> CacheSetting(cacheSizeVar, useCacheVar, cacheLogVar).Done?) &&
        (r.Failed() ==> r == CacheSetting(cacheSizeVar, useCacheVar, cacheLogVar).Propagate<int>() && ramCache == old(ramCache)) &&
        (r.Done? ==> r.value == 0 && initialised && cacheEnabled == (ramCache != null) &&
                     (ramCache != null <==> CacheSetting(cacheSizeVar, useCacheVar, cacheLogVar).value.Some?) &&
                     (ramCache != null ==>
                        fresh(ramCache) && ramCache.State() == Empty(CacheSetting(cacheSizeVar, useCacheVar, cacheLogVar).value.value)))
      ensures machineRegister == old(machineRegister) && mappingConfig == old(mappingConfig)
      ensures ddVersion == old(ddVersion) && mappingDir == old(mappingDir)
    {
      if initialised || machineRegister != map[] {
        return Done(0);
      }
      var setting := CacheSetting(cacheSizeVar, useCacheVar, cacheLogVar);
      if setting.Failed() {
        return setting.Propagate();
      }
      ramCache := NewCache(setting.value);
      cacheEnabled := ramCache != null;
      initialised := true;
      return Done(0);
    }

    /** set_map_dir. */
    method SetMapDir(dir: string) returns (r: int)
      modifies this
      ensures r == 0 && mappingDir == dir
      ensures machineRegister == old(machineRegister) && mappingConfig == old(mappingConfig)
      ensures initialised == old(initialised) && ramCache == old(ramCache) && ddVersion == old(ddVersion)
    {
      mappingDir := dir;
      return 0;
    }

    /** load_globals. */
    method LoadGlobals(machine: string, ids: string, files: Files) returns (r: Outcome<int>)
      requires machine in machineRegister
      modifies this
      ensures var g := GlobalsLoaded(old(machineRegister), mappingDir, machine, ids, files);
        (r.Failed() <==> g.Failed()) && (r.Failed() ==> r == g.Propagate<int>() && machineRegister == old(machineRegister)) &&
        (r.Done? ==> r.value == g.value.0 && machineRegister == g.value.1)
      ensures mappingConfig == old(mappingConfig) && Settings() == old(Settings())
    {
      var g := IdsGlobals(mappingDir, machine, ids, files);
      if g.Failed() {
        return g.Propagate();
      }
      if g.value.None? {
        return Done(PluginError);
      }
      var mm := machineRegister[machine];
      machineRegister := machineRegister[machine := mm.(attributes := mm.attributes[ids := g.value.value])];
      return Done(0);
    }

    /** init_mappings: every entry initialised in turn, then the table emplaced. */
    method InitMappings(machine: string, ids: string, data: Json, ext: External) returns (r: Outcome<int>)
      requires machine in machineRegister
      modifies this
      ensures var attrs := AttributesOf(old(machineRegister)[machine], ids);
        (r.Done? <==> AllInit(Items(data), attrs, ext)) &&
        (r.Done? ==>
           r.value == 0 &&
           machineRegister == old(machineRegister)[machine := Emplaced(old(machineRegister)[machine], ids,
                                                                         Registered(Items(data), attrs, ext))]) &&
        (r.Failed() ==>
           machineRegister == old(machineRegister) &&
           exists k :: k in Items(data) && InitEntry(Items(data)[k], attrs, ext).Failed() &&
                       r == InitEntry(Items(data)[k], attrs, ext).Propagate<int>())
      ensures mappingConfig == old(mappingConfig) && Settings() == old(Settings())
    {
      var items := Items(data);
      var attrs := AttributesOf(machineRegister[machine], ids);
      var table: map<string, Mapping> := map[];
      var todo := items.Keys;
      while todo != {}
        invariant todo <= items.Keys
        invariant InitAmong(items, items.Keys - todo, attrs, ext)
        invariant table == RegisteredAmong(items, items.Keys - todo, attrs, ext)
        invariant unchanged(this)
        decreases todo
      {
        var key :| key in todo;
        var e := InitEntry(items[key], attrs, ext);
        if e.Failed() {
          return e.Propagate();
        }
        RegisteredAmongAdd(items, items.Keys - todo, key, attrs, ext);
        assert items.Keys - (todo - {key}) == (items.Keys - todo) + {key};
        if e.value.Some? && key !in table {
          table := table[key := e.value.value];
        }
        todo := todo - {key};
      }
      assert items.Keys - todo == items.Keys;
      machineRegister := machineRegister[machine := Emplaced(machineRegister[machine], ids, table)];
      return Done(0);
    }

    /** load_mappings. */
    method LoadMappings(machine: string, ids: string, files: Files, ext: External) returns (r: Outcome<int>)
      requires machine in machineRegister
      modifies this
      ensures var l := MappingsLoaded(old(machineRegister), mappingDir, machine, ids, files, ext);
        machineRegister == l.register && (r.Done? <==> l.code.Some?) && (r.Done? ==> r.value == l.code.value)
      ensures mappingConfig == old(mappingConfig) && Settings() == old(Settings())
    {
      var data := Read(files, MappingPath(mappingDir, machine, ids, MappingsFile));
      if data.None? {
        return Done(PluginError);
      }
      r := InitMappings(machine, ids, data.value, ext);
      if r.Done? {
        r := Done(0);
      }
    }

    /** load_machine. */
    method LoadMachine(machine: string, files: Files, ext: External) returns (r: Outcome<int>)
      modifies this
      ensures var (config, l) := MachineLoaded(old(machineRegister), old(mappingConfig), mappingDir, ddVersion,
                                               machine, files, ext);
        machineRegister == l.register && mappingConfig == config &&
        (r.Done? <==> l.code.Some?) && (r.Done? ==> r.value == l.code.value)
      ensures Settings() == old(Settings())
    {
      if machine in machineRegister {
        return Done(0);
      }
      var path := MappingPath(mappingDir, machine, [], ConfigFile);
      if path !in files {
        return Done(PluginError);
      }
      if files[path].None? {
        return Threw("parse_error from the mapping config file");
      }
      mappingConfig := files[path].value;
      var reg0 := machineRegister[machine := MachineMapping(map[], map[])];
      machineRegister := reg0;
      var element := Indexed(mappingConfig, ddVersion);
      if element.Failed() {
        return element.Propagate();
      }
      mappingConfig := element.value.0;
      var idsList := IdsListOf(element.value.1);
      if idsList.Failed() {
        return idsList.Propagate();
      }
      r := LoadIds(machine, idsList.value, files, ext);
    }

    /** One turn of load_machine's loop: the globals, then the mappings, of one IDS. */
    method LoadStep(machine: string, ids: string, files: Files, ext: External) returns (r: Outcome<int>)
      requires machine in machineRegister
      modifies this
      ensures IdsStep(Loaded(old(machineRegister), Some(0)), mappingDir, machine, ids, files, ext) ==
        Loaded(machineRegister, if r.Done? then Some(0) else None)
      ensures r.Done? ==> r.value == 0
      ensures mappingConfig == old(mappingConfig) && Settings() == old(Settings())
    {
      var g := LoadGlobals(machine, ids, files);
      if g.Failed() {
        return g;
      }
      var m := LoadMappings(machine, ids, files, ext);
      if m.Failed() {
        return m;
      }
      return Done(0);
    }

    /** One pass of load_machine's loop: the IDS after the first i is loaded. */
    method LoadNext(ghost start: Register, machine: string, idsList: seq<string>, i: nat, files: Files, ext: External)
      returns (r: Outcome<int>)
      requires machine in start && i < |idsList|
      requires Loaded(machineRegister, Some(0)) == IdsLoaded(start, mappingDir, machine, idsList[..i], files, ext)
      modifies this
      ensures Loaded(machineRegister, if r.Done? then Some(0) else None)
        == IdsLoaded(start, mappingDir, machine, idsList[..i + 1], files, ext)
      ensures r.Done? ==> r.value == 0
      ensures mappingConfig == old(mappingConfig) && Settings() == old(Settings())
    {
      IdsLoadedNext(start, mappingDir, machine, idsList, i, files, ext);
      r := LoadStep(machine, idsList[i], files, ext);
    }

    /** The loop of load_machine over the IDS list. */
    method LoadIds(machine: string, idsList: seq<string>, files: Files, ext: External) returns (r: Outcome<int>)
      requires machine in machineRegister
      modifies this
      ensures var l := IdsLoaded(old(machineRegister), mappingDir, machine, idsList, files, ext);
        machineRegister == l.register && (r.Done? <==> l.code.Some?) && (r.Done? ==> r.value == l.code.value)
      ensures mappingConfig == old(mappingConfig) && Settings() == old(Settings())
    {
      ghost var start := machineRegister;
      ghost var dir := mappingDir;
      var i := 0;
      while i < |idsList|
        invariant 0 <= i <= |idsList|
        invariant mappingDir == dir && mappingConfig == old(mappingConfig) && Settings() == old(Settings())
        invariant machine in machineRegister
        invariant Loaded(machineRegister, Some(0)) == IdsLoaded(start, dir, machine, idsList[..i], files, ext)
      {
        r := LoadNext(start, machine, idsList, i, files, ext);
        if r.Failed() {
          LoadIdsStops(start, dir, machine, idsList, i + 1, files, ext, machineRegister);
          return;
        }
        i := i + 1;
      }
      assert idsList[..i] == idsList;
      return Done(0);
    }

    /**
     * read_mappings: loads the machine, then gives the IDS's globals and
     * table when the machine is registered and the IDS has both.
     */
    method ReadMappings(machine: string, ids: string, files: Files, ext: External)
      returns (r: Outcome<Option<(Json, map<string, Mapping>)>>)
      modifies this
      ensures var (config, l) := MachineLoaded(old(machineRegister), old(mappingConfig), mappingDir, ddVersion,
                                               machine, files, ext);
        machineRegister == l.register && mappingConfig == config && (r.Done? <==> l.code.Some?)
      ensures r.Done? ==> (r.value.Some? <==> (machine in machineRegister &&
                                               ids in machineRegister[machine].mappings &&
                                               ids in machineRegister[machine].attributes))
      ensures r.Done? && r.value.Some? ==>
        r.value.value == (machineRegister[machine].attributes[ids], machineRegister[machine].mappings[ids])
      ensures Settings() == old(Settings())
    {
      var loaded := LoadMachine(machine, files, ext);
      if loaded.Failed() {
        return loaded.Propagate();
      }
      if machine !in machineRegister {
        return Done(None);
      }
      var mm := machineRegister[machine];
      if ids !in mm.mappings || ids !in mm.attributes {
        return Done(None);
      }
      return Done(Some((mm.attributes[ids], mm.mappings[ids])));
    }
  }

  /** json::clear(): an object or array is emptied, a scalar reset to its default. */
  function Cleared(j: Json): (r: Json)
    ensures j.JObj? ==> r == JObj(map[])
    ensures j.JArr? ==> r == JArr([])
  {
    match j
    case JObj(_) => JObj(map[])
    case JArr(_) => JArr([])
    case JNull => JNull
    case JBool(_) => JBool(false)
    case JInt(_) => JInt(0)
    case JUInt(_) => JUInt(0)
    case JFloat(_) => JFloat(0.0)
    case JStr(_) => JStr([])
    case JBinary => JBinary
    case JDiscarded => JDiscarded
  }
}
