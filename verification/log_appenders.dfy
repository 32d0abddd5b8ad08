/**
 * Configuration values of the logger and the "take `kind` out of the map"
 * deserialisation shared by the custom appenders.
 */
module LogValues {
  import opened Common

  /** A deserialised configuration value. */
  datatype Value = VString(s: string) | VBool(b: bool) | VInt(i: int) | VMap(entries: map<string, Value>)

  datatype DeError = MissingField(name: string) | InvalidType(expected: string) | UnknownFields(names: set<string>)

  /** A reference to a pluggable component: its `kind` and the rest of its map, handed to that kind's deserialiser. */
  datatype Kinded = Kinded(kind: string, config: map<string, Value>)

  const KindKey: string := "kind"

  /** Removes `kind` from a map value and reads it as a string; when absent, `fallback` is the kind, or the field is missing. */
  function SplitKind(v: Value, fallback: Option<string>): (r: Result<Kinded, DeError>)
    ensures !v.VMap? ==> r == Err(InvalidType("map"))
    ensures v.VMap? && KindKey !in v.entries ==>
      r == if fallback.Some? then Ok(Kinded(fallback.value, v.entries)) else Err(MissingField(KindKey))
    ensures v.VMap? && KindKey in v.entries ==>
      r == if v.entries[KindKey].VString? then Ok(Kinded(v.entries[KindKey].s, v.entries - {KindKey})) else Err(InvalidType("string"))
    ensures r.Ok? ==> KindKey !in r.value.config
  {
    if !v.VMap? then Err(InvalidType("map"))
    else if KindKey !in v.entries then
      if fallback.Some? then Ok(Kinded(fallback.value, v.entries)) else Err(MissingField(KindKey))
    else if v.entries[KindKey].VString? then Ok(Kinded(v.entries[KindKey].s, v.entries - {KindKey}))
    else Err(InvalidType("string"))
  }

  /** The inverse: the map a component reference is written as. */
  function Joined(k: Kinded): Value {
    VMap(k.config[KindKey := VString(k.kind)])
  }

  /** Writing a reference and reading it back gives it back, whatever the fallback. */
  lemma SplitJoined(k: Kinded, fallback: Option<string>)
    requires KindKey !in k.config
    ensures SplitKind(Joined(k), fallback) == Ok(k)
  {
    assert k.config[KindKey := VString(k.kind)] - {KindKey} == k.config;
  }

  /** Reading a map that names its kind and writing the result back gives the map back. */
  lemma JoinedSplit(v: Value, fallback: Option<string>)
    requires v.VMap? && KindKey in v.entries && SplitKind(v, fallback).Ok?
    ensures Joined(SplitKind(v, fallback).value) == v
  {
    assert (v.entries - {KindKey})[KindKey := v.entries[KindKey]] == v.entries;
  }

  /** The `deserialize` of an appender or roller: the kind is required, and the rest of the map is its configuration. */
  function RequiredKind(v: Value): (r: Result<Kinded, DeError>)
    ensures v.VMap? && KindKey !in v.entries ==> r == Err(MissingField(KindKey))
    ensures r.Ok? ==> Joined(r.value) == v && KindKey !in r.value.config
  {
    var r := SplitKind(v, None);
    if r.Ok? then JoinedSplit(v, None); r else r
  }

  /**
   * `Deserializers::deserialize`: the error of building a component of kind
   * `k.kind` from `k.config`, or None. An unregistered kind fails, and so
   * does a registered one whose own deserializer rejects the configuration;
   * that rejection is the parameter `rejected`.
   */
  function InnerError(kinds: set<string>, k: Kinded, rejected: Option<string>): (e: Option<string>)
    ensures e.None? <==> k.kind in kinds && rejected.None?
    ensures k.kind in kinds ==> e == rejected
  {
    if k.kind !in kinds then Some("no deserializer for kind " + k.kind) else rejected
  }

  /** Reads an optional boolean field. */
  function OptionalBool(m: map<string, Value>, name: string): Result<Option<bool>, DeError> {
    if name !in m then Ok(None)
    else if m[name].VBool? then Ok(Some(m[name].b))
    else Err(InvalidType("bool"))
  }

  /** Reads a required string field. */
  function RequiredString(m: map<string, Value>, name: string): Result<string, DeError> {
    if name !in m then Err(MissingField(name))
    else if m[name].VString? then Ok(m[name].s)
    else Err(InvalidType("string"))
  }
}

/** The appender that forwards records only while its named switch is on. */
module ConditionalAppend {
  import opened Common
  import opened LogValues
  import ConditionalMap

  datatype Config = Config(appender: Kinded, id: string, defaultEnabled: Option<bool>)

  const ConfigFields: set<string> := {"appender", "id", "default_enabled"}

  /** The configuration; fields other than the three it declares are refused. */
  function ParseConfig(v: Value): (r: Result<Config, DeError>)
    ensures v.VMap? && !(v.entries.Keys <= ConfigFields) ==> r == Err(UnknownFields(v.entries.Keys - ConfigFields))
    ensures v.VMap? && "default_enabled" !in v.entries && r.Ok? ==> r.value.defaultEnabled == None
  {
    if !v.VMap? then Err(InvalidType("map"))
    else
      var m := v.entries;
      if !(m.Keys <= ConfigFields) then Err(UnknownFields(m.Keys - ConfigFields))
      else if "appender" !in m then Err(MissingField("appender"))
      else
        match RequiredKind(m["appender"])
        case Err(e) => Err(e)
        case Ok(appender) =>
          match RequiredString(m, "id")
          case Err(e) => Err(e)
          case Ok(id) =>
            match OptionalBool(m, "default_enabled")
            case Err(e) => Err(e)
            case Ok(enabled) => Ok(Config(appender, id, enabled))
  }

  /** The inverse: the map a configuration is written as; an absent default is left out. */
  function EncodeConfig(c: Config): Value {
    var m := map["appender" := Joined(c.appender), "id" := VString(c.id)];
    VMap(if c.defaultEnabled.Some? then m["default_enabled" := VBool(c.defaultEnabled.value)] else m)
  }

  lemma ConfigRoundTrip(c: Config)
    requires KindKey !in c.appender.config
    ensures ParseConfig(EncodeConfig(c)) == Ok(c)
  {
    SplitJoined(c.appender, None);
  }

  /** A record handed to an appender. */
  datatype Record = Record(target: string, message: string)

  /** The wrapped appender, seen from outside: what it has written and how often it was flushed. */
  class Sink {
    var written: seq<Record>
    var flushes: nat
    const failure: Option<string>

    constructor (failure: Option<string>)
      ensures written == [] && flushes == 0 && this.failure == failure
    {
      written, flushes := [], 0;
      this.failure := failure;
    }

    method Append(record: Record) returns (err: Option<string>)
      modifies this
      ensures err == failure && flushes == old(flushes)
      ensures written == old(written) + if failure.None? then [record] else []
    {
      if failure.Some? {
        return failure;
      }
      written := written + [record];
      return None;
    }

    method Flush()
      modifies this
      ensures written == old(written) && flushes == old(flushes) + 1
    {
      flushes := flushes + 1;
    }
  }

  class ConditionallyAppendAppender {
    const appender: Sink
    const id: string
    const state: ConditionalMap.Flag

    constructor (appender: Sink, id: string, state: ConditionalMap.Flag)
      ensures this.appender == appender && this.id == id && this.state == state
    {
      this.appender, this.id, this.state := appender, id, state;
    }

    /** Forwards the record exactly when the switch is on; otherwise succeeds without writing. */
    method Append(record: Record) returns (err: Option<string>)
      modifies appender
      ensures appender.written == old(appender.written) + if state.value && appender.failure.None? then [record] else []
      ensures err == if state.value then appender.failure else None
      ensures appender.flushes == old(appender.flushes)
    {
      if state.value {
        err := appender.Append(record);
      } else {
        err := None;
      }
    }

    /** Flushing is always forwarded. */
    method Flush()
      modifies appender
      ensures appender.written == old(appender.written) && appender.flushes == old(appender.flushes) + 1
    {
      appender.Flush();
    }
  }

  /**
   * `ConditionallyAppendAppenderDeserializer::deserialize`: builds the
   * wrapped appender, which fails for an unregistered kind or a configuration
   * its deserializer rejects (`rejected`), and only then shares the switch
   * registered under the configured id, creating it, on by default, if none.
   */
  method Deserialize(c: Config, kinds: set<string>, rejected: Option<string>, registry: ConditionalMap.Registry, sinkFailure: Option<string>)
    returns (r: Result<ConditionallyAppendAppender, string>)
    modifies registry
    ensures InnerError(kinds, c.appender, rejected).Some? ==>
      r == Err(InnerError(kinds, c.appender, rejected).value) && registry.flags == old(registry.flags)
    ensures InnerError(kinds, c.appender, rejected).None? ==> r.Ok? && fresh(r.value) && fresh(r.value.appender)
    ensures r.Ok? ==> r.value.id == c.id && registry.GetById(c.id) == Some(r.value.state)
    ensures r.Ok? && c.id in old(registry.flags) ==>
      r.value.state == old(registry.flags[c.id]) && r.value.state.value == old(registry.flags[c.id].value) && registry.flags == old(registry.flags)
    ensures r.Ok? && c.id !in old(registry.flags) ==>
      fresh(r.value.state) && r.value.state.value == (if c.defaultEnabled.Some? then c.defaultEnabled.value else true)
  {
    var failure := InnerError(kinds, c.appender, rejected);
    if failure.Some? {
      return Err(failure.value);
    }
    var sink := new Sink(sinkFailure);
    var state := registry.GetOrCreateById(c.id, if c.defaultEnabled.Some? then c.defaultEnabled.value else true);
    var a := new ConditionallyAppendAppender(sink, c.id, state);
    return Ok(a);
  }

  /**
   * The terminal client turns the `console` switch off through its own
   * handle; an appender built earlier for that id then drops every record.
   */
  method ConsoleSilenced(registry: ConditionalMap.Registry, a: ConditionallyAppendAppender, record: Record)
    requires a.id == "console" && registry.GetById("console") == Some(a.state)
    modifies registry, a.state, a.appender
    ensures a.appender.written == old(a.appender.written)
  {
    var handle := registry.GetOrCreateById("console", false);
    handle.Store(false);
    var err := a.Append(record);
  }
}

/** The appender that rolls the existing log file when the program launches. */
module LaunchRoll {
  import opened Common
  import opened LogValues

  const DefaultPolicy: string := "compound"

  /** `Policy::deserialize`: a missing kind means the compound policy. */
  function DeserializePolicy(v: Value): (r: Result<Kinded, DeError>)
    ensures v.VMap? && KindKey !in v.entries ==> r == Ok(Kinded(DefaultPolicy, v.entries))
    ensures v.VMap? && KindKey in v.entries && r.Ok? ==> Joined(r.value) == v
    ensures r.Ok? ==> KindKey !in r.value.config
  {
    var r := SplitKind(v, Some(DefaultPolicy));
    if r.Ok? && KindKey in v.entries then JoinedSplit(v, Some(DefaultPolicy)); r else r
  }

  datatype Config = Config(appender: Kinded, path: string, launchRoller: Kinded)

  const ConfigFields: set<string> := {"appender", "path", "launch_roller"}

  /** The configuration: all three fields are required and no other is allowed. */
  function ParseConfig(v: Value): (r: Result<Config, DeError>)
    ensures v.VMap? && !(v.entries.Keys <= ConfigFields) ==> r == Err(UnknownFields(v.entries.Keys - ConfigFields))
    ensures r.Ok? ==> v.VMap? && v.entries.Keys == ConfigFields
  {
    if !v.VMap? then Err(InvalidType("map"))
    else
      var m := v.entries;
      if !(m.Keys <= ConfigFields) then Err(UnknownFields(m.Keys - ConfigFields))
      else if "appender" !in m then Err(MissingField("appender"))
      else
        match RequiredKind(m["appender"])
        case Err(e) => Err(e)
        case Ok(appender) =>
          match RequiredString(m, "path")
          case Err(e) => Err(e)
          case Ok(path) =>
            if "launch_roller" !in m then Err(MissingField("launch_roller"))
            else
              match RequiredKind(m["launch_roller"])
              case Err(e) => Err(e)
              case Ok(roller) => Ok(Config(appender, path, roller))
  }

  function EncodeConfig(c: Config): Value {
    VMap(map["appender" := Joined(c.appender), "path" := VString(c.path), "launch_roller" := Joined(c.launchRoller)])
  }

  lemma ConfigRoundTrip(c: Config)
    requires KindKey !in c.appender.config && KindKey !in c.launchRoller.config
    ensures ParseConfig(EncodeConfig(c)) == Ok(c)
  {
    SplitJoined(c.appender, None);
    SplitJoined(c.launchRoller, None);
  }

  /** The log directory as far as rolling is concerned: the regular files and what the rollers have rolled away. */
  class LogFiles {
    var files: set<string>
    var rolled: seq<string>

    constructor (files: set<string>)
      ensures this.files == files && rolled == []
    {
      this.files, rolled := files, [];
    }

    /** A roller rolls the file at `path` away, or fails and leaves it. */
    method Roll(path: string, failure: Option<string>) returns (err: Option<string>)
      modifies this
      ensures err == failure
      ensures failure.None? ==> files == old(files) - {path} && rolled == old(rolled) + [path]
      ensures failure.Some? ==> files == old(files) && rolled == old(rolled)
    {
      if failure.Some? {
        return failure;
      }
      files, rolled := files - {path}, rolled + [path];
      return None;
    }
  }

  /** What building the appender produces: the kind of the appender it delegates to. */
  datatype Outcome = Outcome(rolled: bool, delegate: Kinded)

  /**
   * Reference definition of `RollFileOnLaunchAppenderDeserializer::deserialize`.
   * `rollerRejected` and `appenderRejected` are the rejections of the roller's
   * and the appender's configurations by their kinds' deserializers.
   */
  function Launched(c: Config, files: set<string>, rollers: set<string>, rollerRejected: Option<string>,
                    appenders: set<string>, appenderRejected: Option<string>, rollFailure: Option<string>)
    : (Result<Outcome, string>, set<string>)
  {
    if c.path in files && InnerError(rollers, c.launchRoller, rollerRejected).Some? then
      (Err(InnerError(rollers, c.launchRoller, rollerRejected).value), files)
    else if c.path in files && rollFailure.Some? then (Err(rollFailure.value), files)
    else
      var files' := if c.path in files then files - {c.path} else files;
      var e := InnerError(appenders, c.appender, appenderRejected);
      if e.Some? then (Err(e.value), files')
      else (Ok(Outcome(c.path in files, c.appender)), files')
  }

  /**
   * The roller is built only when the configured path is an existing regular
   * file, and then rolls it away. A roller that cannot be built or a roll
   * failure aborts with the file in place; an appender that cannot be built
   * fails after the file has already been rolled.
   */
  lemma LaunchedRollsOnlyFiles(c: Config, files: set<string>, rollers: set<string>, rollerRejected: Option<string>,
                               appenders: set<string>, appenderRejected: Option<string>, rollFailure: Option<string>)
    ensures var (r, files') := Launched(c, files, rollers, rollerRejected, appenders, appenderRejected, rollFailure);
      var rollerError := InnerError(rollers, c.launchRoller, rollerRejected);
      var appenderError := InnerError(appenders, c.appender, appenderRejected);
      && (c.path !in files ==> files' == files && (r.Ok? <==> appenderError.None?))
      && (c.path in files && rollerError.Some? ==> r == Err(rollerError.value) && files' == files)
      && (c.path in files && rollerError.None? && rollFailure.Some? ==> r == Err(rollFailure.value) && files' == files)
      && (c.path in files && rollerError.None? && rollFailure.None? ==>
            files' == files - {c.path} && (appenderError.Some? ==> r == Err(appenderError.value)))
      && (r.Ok? ==> appenderError.None? && r.value.rolled == (c.path in files) && r.value.delegate == c.appender && c.path !in files')
      && files' <= files && files - files' <= {c.path}
  {
  }

  /** `deserialize`, rolling through the log directory object. */
  method Deserialize(c: Config, dir: LogFiles, rollers: set<string>, rollerRejected: Option<string>,
                     appenders: set<string>, appenderRejected: Option<string>, rollFailure: Option<string>)
    returns (r: Result<Outcome, string>)
    modifies dir
    ensures (r, dir.files) == Launched(c, old(dir.files), rollers, rollerRejected, appenders, appenderRejected, rollFailure)
    ensures dir.rolled == old(dir.rolled) +
      if c.path in old(dir.files) && InnerError(rollers, c.launchRoller, rollerRejected).None? && rollFailure.None? then [c.path] else []
  {
    var rolled := false;
    if c.path in dir.files {
      var rollerError := InnerError(rollers, c.launchRoller, rollerRejected);
      if rollerError.Some? {
        return Err(rollerError.value);
      }
      var err := dir.Roll(c.path, rollFailure);
      if err.Some? {
        return Err(err.value);
      }
      rolled := true;
    }
    var appenderError := InnerError(appenders, c.appender, appenderRejected);
    if appenderError.Some? {
      return Err(appenderError.value);
    }
    return Ok(Outcome(rolled, c.appender));
  }
}
