/**
 * The wire descriptor (service/src/providers/wire.ts): a lenient reader that layers overlays, and a strict
 * validator for the write path.
 */
module Wire {
  import opened Json
  import opened Sequences
  import opened Wrappers
  import Trimming = Text

  type Fields = map<string, Json>

  datatype AuthStyle = Bearer | XApiKey | NoAuth

  datatype StreamUsage = StreamOptions | Native | NoUsage

  datatype Supports = Supports(tools: bool, toolChoice: bool, topP: bool, temperature: bool)

  datatype ResolvedWire = ResolvedWire(
    schemaVersion: real, chatPath: Option<string>, authStyle: AuthStyle, headers: map<string, string>,
    streamUsage: StreamUsage, supports: Supports, paramMap: map<string, string>)

  const WIRE_SCHEMA_VERSION := 1.0

  const KNOWN_KEYS := {"schemaVersion", "chatPath", "auth", "headers", "streamUsage", "supports", "paramMap"}

  const KNOWN_SUPPORTS := {"tools", "toolChoice", "topP", "temperature"}

  // ---- Reading one value ----

  function ReadString(v: Option<Json>): Option<string> {
    match v
    case Some(Str(s)) => if Trimming.IsBlank(s) then None else Some(Trimming.Trim(s))
    case _ => None
  }

  function ReadNumber(v: Option<Json>): Option<real> {
    match v
    case Some(Number(n)) => Some(n)
    case _ => None
  }

  function ReadAuthStyle(v: Option<Json>): Option<AuthStyle> {
    match v
    case Some(Str("bearer")) => Some(Bearer)
    case Some(Str("x-api-key")) => Some(XApiKey)
    case Some(Str("none")) => Some(NoAuth)
    case _ => None
  }

  function ReadStreamUsage(v: Option<Json>): Option<StreamUsage> {
    match v
    case Some(Str("stream_options")) => Some(StreamOptions)
    case Some(Str("native")) => Some(Native)
    case Some(Str("none")) => Some(NoUsage)
    case _ => None
  }

  /** The style inside `auth`; an array has no such property. */
  function AuthStyleIn(v: Option<Json>): Option<AuthStyle> {
    match v
    case Some(Object(auth)) => ReadAuthStyle(Field(auth, "style"))
    case _ => None
  }

  /** The entries of an object, and none of anything else. */
  function Entries(v: Option<Json>): Fields {
    match v
    case Some(Object(fields)) => fields
    case _ => map[]
  }

  function Strings(fields: Fields): map<string, string> {
    map k | k in fields && fields[k].Str? :: fields[k].s
  }

  /** The string entries of raw over base. */
  function Layered(base: map<string, string>, raw: Fields): map<string, string> {
    base + Strings(raw)
  }

  function ReadBool(fields: Fields, key: string, default: bool): bool {
    if key in fields && fields[key].Bool? then fields[key].b else default
  }

  // ---- One overlay, as a rule ----

  function MergedSupports(base: Supports, raw: Fields): Supports {
    Supports(ReadBool(raw, "tools", base.tools), ReadBool(raw, "toolChoice", base.toolChoice),
             ReadBool(raw, "topP", base.topP), ReadBool(raw, "temperature", base.temperature))
  }

  function Overlaid(base: ResolvedWire, overlay: Fields): ResolvedWire {
    ResolvedWire(
      ReadNumber(Field(overlay, "schemaVersion")).GetOr(base.schemaVersion),
      ReadString(Field(overlay, "chatPath")).OrElse(base.chatPath),
      AuthStyleIn(Field(overlay, "auth")).GetOr(base.authStyle),
      Layered(base.headers, Entries(Field(overlay, "headers"))),
      ReadStreamUsage(Field(overlay, "streamUsage")).GetOr(base.streamUsage),
      MergedSupports(base.supports, Entries(Field(overlay, "supports"))),
      Layered(base.paramMap, Entries(Field(overlay, "paramMap"))))
  }

  /** The overlay a config contributes: its `wire`, if that is an object. */
  function OverlayIn(config: Option<Fields>): Fields {
    if config.Some? then Entries(Field(config.value, "wire")) else map[]
  }

  function Resolved(defaults: ResolvedWire, configs: seq<Option<Fields>>): ResolvedWire {
    if configs == [] then defaults
    else Overlaid(Resolved(defaults, configs[..|configs| - 1]), OverlayIn(configs[|configs| - 1]))
  }

  /** What the reader logs as ignored. */
  datatype Warning =
    | NewerSchema
    | IgnoredKey(key: string)
    | IgnoredCapability(key: string)
    | IgnoredEntry(field: string, key: string)

  function EntryWarnings(raw: Fields, field: string): set<Warning> {
    set k | k in raw && !raw[k].Str? :: IgnoredEntry(field, k)
  }

  function Warnings(overlay: Fields): set<Warning> {
    (if ReadNumber(Field(overlay, "schemaVersion")).GetOr(0.0) > WIRE_SCHEMA_VERSION then {NewerSchema} else {})
    + (set k | k in overlay && k !in KNOWN_KEYS :: IgnoredKey(k))
    + (set k | k in Entries(Field(overlay, "supports")) && k !in KNOWN_SUPPORTS :: IgnoredCapability(k))
    + EntryWarnings(Entries(Field(overlay, "headers")), "headers")
    + EntryWarnings(Entries(Field(overlay, "paramMap")), "paramMap")
  }

  // ---- The reader ----

  method MergeSupports(base: Supports, raw: Option<Json>) returns (merged: Supports, warned: set<Warning>)
    ensures merged == MergedSupports(base, Entries(raw))
    ensures warned == set k | k in Entries(raw) && k !in KNOWN_SUPPORTS :: IgnoredCapability(k)
  {
    merged, warned := base, {};
    if raw.None? || !raw.value.Object? {
      return;
    }
    var fields := raw.value.fields;
    var pending := fields.Keys;
    while pending != {}
      invariant pending <= fields.Keys
      invariant merged == MergedSupports(base, fields - pending)
      invariant warned == set k | k in fields && k !in pending && k !in KNOWN_SUPPORTS :: IgnoredCapability(k)
      decreases |pending|
    {
      var key :| key in pending;
      var value := fields[key];
      if key !in KNOWN_SUPPORTS {
        warned := warned + {IgnoredCapability(key)};
      } else if value.Bool? {
        merged := WithCapability(merged, key, value.b);
      }
      SupportsStep(base, fields, pending, key);
      pending := pending - {key};
    }
    assert fields - {} == fields;
  }

  function WithCapability(supports: Supports, key: string, on: bool): Supports {
    match key
    case "tools" => supports.(tools := on)
    case "toolChoice" => supports.(toolChoice := on)
    case "topP" => supports.(topP := on)
    case "temperature" => supports.(temperature := on)
    case _ => supports
  }

  lemma {:induction false} SupportsStep(base: Supports, fields: Fields, pending: set<string>, key: string)
    requires key in pending && pending <= fields.Keys
    ensures var sofar := MergedSupports(base, fields - pending);
            MergedSupports(base, fields - (pending - {key})) ==
              if fields[key].Bool? then WithCapability(sofar, key, fields[key].b) else sofar
  {
  }

  method MergeStringMap(base: map<string, string>, raw: Option<Json>, field: string)
    returns (merged: map<string, string>, warned: set<Warning>)
    ensures merged == Layered(base, Entries(raw))
    ensures warned == EntryWarnings(Entries(raw), field)
  {
    merged, warned := base, {};
    if raw.None? || !raw.value.Object? {
      return;
    }
    var fields := raw.value.fields;
    var pending := fields.Keys;
    NothingLayered(base, fields, field);
    while pending != {}
      invariant pending <= fields.Keys
      invariant merged == Layered(base, fields - pending)
      invariant warned == EntryWarnings(fields - pending, field)
      decreases |pending|
    {
      var key :| key in pending;
      LayeredStep(base, fields, pending, key);
      EntryWarningsStep(fields, pending, key, field);
      if fields[key].Str? {
        merged := merged[key := fields[key].s];
      } else {
        warned := warned + {IgnoredEntry(field, key)};
      }
      pending := pending - {key};
    }
    assert fields - {} == fields;
  }

  lemma {:induction false} NothingLayered(base: map<string, string>, fields: Fields, field: string)
    ensures Layered(base, fields - fields.Keys) == base
    ensures EntryWarnings(fields - fields.Keys, field) == {}
  {
    assert fields - fields.Keys == map[];
    assert base + map[] == base;
  }

  lemma {:induction false} LayeredStep(base: map<string, string>, fields: Fields, pending: set<string>, key: string)
    requires key in pending && pending <= fields.Keys
    ensures var sofar := Layered(base, fields - pending);
            Layered(base, fields - (pending - {key})) ==
              if fields[key].Str? then sofar[key := fields[key].s] else sofar
  {
    var before, after := Strings(fields - pending), Strings(fields - (pending - {key}));
    assert after == if fields[key].Str? then before[key := fields[key].s] else before;
  }

  lemma {:induction false} EntryWarningsStep(fields: Fields, pending: set<string>, key: string, field: string)
    requires key in pending && pending <= fields.Keys
    ensures EntryWarnings(fields - (pending - {key}), field) ==
            EntryWarnings(fields - pending, field) + if fields[key].Str? then {} else {IgnoredEntry(field, key)}
  {
    var before, after := fields - pending, fields - (pending - {key});
    assert forall k :: k in after <==> k in before || k == key;
    assert forall k :: k in before ==> after[k] == before[k];
  }

  method ApplyOverlay(base: ResolvedWire, overlay: Fields) returns (r: ResolvedWire, warned: set<Warning>)
    ensures r == Overlaid(base, overlay) && warned == Warnings(overlay)
  {
    var declaredVersion := ReadNumber(Field(overlay, "schemaVersion"));
    warned := if declaredVersion.Some? && declaredVersion.value > WIRE_SCHEMA_VERSION then {NewerSchema} else {};
    warned := warned + set k | k in overlay && k !in KNOWN_KEYS :: IgnoredKey(k);
    var headers, headersWarned := MergeStringMap(base.headers, Field(overlay, "headers"), "headers");
    var supports, supportsWarned := MergeSupports(base.supports, Field(overlay, "supports"));
    var paramMap, paramMapWarned := MergeStringMap(base.paramMap, Field(overlay, "paramMap"), "paramMap");
    warned := warned + supportsWarned + headersWarned + paramMapWarned;
    r := ResolvedWire(
      declaredVersion.GetOr(base.schemaVersion),
      ReadString(Field(overlay, "chatPath")).OrElse(base.chatPath),
      AuthStyleIn(Field(overlay, "auth")).GetOr(base.authStyle),
      headers,
      ReadStreamUsage(Field(overlay, "streamUsage")).GetOr(base.streamUsage),
      supports,
      paramMap);
  }

  method ResolveWire(defaults: ResolvedWire, configs: seq<Option<Fields>>) returns (result: ResolvedWire)
    ensures result == Resolved(defaults, configs)
  {
    result := defaults;
    for n := 0 to |configs|
      invariant result == Resolved(defaults, configs[..n])
    {
      assert configs[..n + 1][..n] == configs[..n];
      var raw := if configs[n].Some? then Field(configs[n].value, "wire") else None;
      if raw.None? || !raw.value.Object? {
        EmptyOverlayKeeps(result);
        continue;
      }
      var warned;
      result, warned := ApplyOverlay(result, raw.value.fields);
    }
    assert configs[..|configs|] == configs;
  }

  lemma {:induction false} EmptyOverlayKeeps(base: ResolvedWire)
    ensures Overlaid(base, map[]) == base
  {
    assert base.headers + map[] == base.headers && base.paramMap + map[] == base.paramMap;
  }

  // ---- The validator ----

  datatype Problem =
    | NotAnObject
    | UnknownKey(key: string)
    | VersionNotInteger
    | VersionTooNew
    | ChatPathNotString
    | AuthNotObject
    | AuthStyleUnknown
    | StreamUsageUnknown
    | SupportsNotObject
    | UnknownCapability(key: string)
    | CapabilityNotBoolean(key: string)
    | NotAStringMap(field: string)
    | EntryNotString(field: string, key: string)

  function VersionProblems(v: Option<Json>): set<Problem> {
    match v
    case None => {}
    case Some(Number(n)) =>
      if n.Floor as real != n then {VersionNotInteger} else if n > WIRE_SCHEMA_VERSION then {VersionTooNew} else {}
    case Some(_) => {VersionNotInteger}
  }

  function AuthProblems(v: Option<Json>): set<Problem> {
    match v
    case None => {}
    case Some(Object(auth)) =>
      if "style" in auth && ReadAuthStyle(Some(auth["style"])).None? then {AuthStyleUnknown} else {}
    case Some(_) => {AuthNotObject}
  }

  function SupportsProblems(v: Option<Json>): set<Problem> {
    match v
    case None => {}
    case Some(Object(raw)) =>
      (set k | k in raw && k !in KNOWN_SUPPORTS :: UnknownCapability(k))
      + (set k | k in raw && k in KNOWN_SUPPORTS && !raw[k].Bool? :: CapabilityNotBoolean(k))
    case Some(_) => {SupportsNotObject}
  }

  function StringMapProblems(v: Option<Json>, field: string): set<Problem> {
    match v
    case None => {}
    case Some(Object(raw)) => set k | k in raw && !raw[k].Str? :: EntryNotString(field, k)
    case Some(_) => {NotAStringMap(field)}
  }

  function UnknownKeys(wire: Fields): set<Problem> {
    set k | k in wire && k !in KNOWN_KEYS :: UnknownKey(k)
  }

  function FieldProblems(wire: Fields): set<Problem> {
    UnknownKeys(wire)
    + VersionProblems(Field(wire, "schemaVersion"))
    + (if "chatPath" in wire && !wire["chatPath"].Str? then {ChatPathNotString} else {})
    + AuthProblems(Field(wire, "auth"))
    + (if "streamUsage" in wire && ReadStreamUsage(Some(wire["streamUsage"])).None? then {StreamUsageUnknown} else {})
    + SupportsProblems(Field(wire, "supports"))
    + StringMapProblems(Field(wire, "headers"), "headers")
    + StringMapProblems(Field(wire, "paramMap"), "paramMap")
  }

  /** What the validator reports of a descriptor; nothing of an absent or null one. */
  function Problems(raw: Option<Json>): set<Problem> {
    match raw
    case None => {}
    case Some(Null) => {}
    case Some(Object(wire)) => FieldProblems(wire)
    case Some(_) => {NotAnObject}
  }

  method ValidateStringMap(raw: Option<Json>, field: string) returns (problems: set<Problem>)
    ensures problems == StringMapProblems(raw, field)
  {
    if raw.None? {
      return {};
    }
    if !raw.value.Object? {
      return {NotAStringMap(field)};
    }
    problems := {};
    var fields := raw.value.fields;
    var pending := fields.Keys;
    while pending != {}
      invariant pending <= fields.Keys
      invariant problems == set k | k in fields && k !in pending && !fields[k].Str? :: EntryNotString(field, k)
      decreases |pending|
    {
      var key :| key in pending;
      if !fields[key].Str? {
        problems := problems + {EntryNotString(field, key)};
      }
      pending := pending - {key};
    }
  }

  method ValidateSupports(raw: Option<Json>) returns (problems: set<Problem>)
    ensures problems == SupportsProblems(raw)
  {
    if raw.None? {
      return {};
    }
    if !raw.value.Object? {
      return {SupportsNotObject};
    }
    problems := {};
    var fields := raw.value.fields;
    var pending := fields.Keys;
    while pending != {}
      invariant pending <= fields.Keys
      invariant problems ==
                (set k | k in fields && k !in pending && k !in KNOWN_SUPPORTS :: UnknownCapability(k))
                + (set k | k in fields && k !in pending && k in KNOWN_SUPPORTS
                  && !fields[k].Bool? :: CapabilityNotBoolean(k))
      decreases |pending|
    {
      var key :| key in pending;
      if key !in KNOWN_SUPPORTS {
        problems := problems + {UnknownCapability(key)};
      } else if !fields[key].Bool? {
        problems := problems + {CapabilityNotBoolean(key)};
      }
      pending := pending - {key};
    }
  }

  method ValidateKeys(wire: Fields) returns (problems: set<Problem>)
    ensures problems == UnknownKeys(wire)
  {
    problems := {};
    var pending := wire.Keys;
    while pending != {}
      invariant pending <= wire.Keys
      invariant problems == set k | k in wire && k !in pending && k !in KNOWN_KEYS :: UnknownKey(k)
      decreases |pending|
    {
      var key :| key in pending;
      if key !in KNOWN_KEYS {
        problems := problems + {UnknownKey(key)};
      }
      pending := pending - {key};
    }
  }

  method ValidateWire(raw: Option<Json>) returns (problems: set<Problem>)
    ensures problems == Problems(raw)
  {
    if raw.None? || raw.value.Null? {
      return {};
    }
    if !raw.value.Object? {
      return {NotAnObject};
    }
    var wire := raw.value.fields;
    problems := ValidateKeys(wire);
    var version := VersionProblems(Field(wire, "schemaVersion"));
    if "chatPath" in wire && !wire["chatPath"].Str? {
      problems := problems + {ChatPathNotString};
    }
    var auth := AuthProblems(Field(wire, "auth"));
    if "streamUsage" in wire && ReadStreamUsage(Some(wire["streamUsage"])).None? {
      problems := problems + {StreamUsageUnknown};
    }
    var supports := ValidateSupports(Field(wire, "supports"));
    var headers := ValidateStringMap(Field(wire, "headers"), "headers");
    var paramMap := ValidateStringMap(Field(wire, "paramMap"), "paramMap");
    problems := problems + version + auth + supports + headers + paramMap;
  }
}
