/** What the strict writer promises the lenient reader, and the algebra of layering. */
module WireLaws {
  import opened Json
  import opened Sequences
  import opened Wrappers
  import opened Wire
  import Trimming = Text

  // ---- Strict write, full effect ----

  function AuthName(style: AuthStyle): string {
    match style
    case Bearer => "bearer"
    case XApiKey => "x-api-key"
    case NoAuth => "none"
  }

  function StreamUsageName(usage: StreamUsage): string {
    match usage
    case StreamOptions => "stream_options"
    case Native => "native"
    case NoUsage => "none"
  }

  predicate Capability(supports: Supports, key: string) {
    match key
    case "tools" => supports.tools
    case "toolChoice" => supports.toolChoice
    case "topP" => supports.topP
    case _ => supports.temperature
  }

  predicate AuthShown(declared: Json, effective: AuthStyle) {
    && declared.Object? && declared.fields.Keys <= {"style"}
    && ("style" in declared.fields ==> declared.fields["style"] == Str(AuthName(effective)))
  }

  /** The reader looks at one key of `auth`, and the validator at no other. */
  predicate AuthUnderstood(wire: Fields) {
    "auth" in wire && wire["auth"].Object? ==> wire["auth"].fields.Keys <= {"style"}
  }

  predicate SupportsShown(declared: Json, effective: Supports) {
    declared.Object? && forall k :: k in declared.fields ==>
      k in {"tools", "toolChoice", "topP", "temperature"} && declared.fields[k] == Bool(Capability(effective, k))
  }

  predicate StringsShown(declared: Json, effective: map<string, string>) {
    declared.Object? && forall k :: k in declared.fields ==> k in effective && declared.fields[k] == Str(effective[k])
  }

  predicate PathShown(declared: Json, base: Option<string>, effective: Option<string>) {
    declared.Str? && effective == if Trimming.IsBlank(declared.s) then base else Some(Trimming.Trim(declared.s))
  }

  /** Everything the descriptor declares is what the wire says; a blank path declares nothing. */
  predicate Shown(wire: Fields, base: ResolvedWire, r: ResolvedWire) {
    && wire.Keys <= {"schemaVersion", "chatPath", "auth", "headers", "streamUsage", "supports", "paramMap"}
    && ("schemaVersion" in wire ==> wire["schemaVersion"] == Number(r.schemaVersion))
    && ("chatPath" in wire ==> PathShown(wire["chatPath"], base.chatPath, r.chatPath))
    && ("auth" in wire ==> AuthShown(wire["auth"], r.authStyle))
    && ("streamUsage" in wire ==> wire["streamUsage"] == Str(StreamUsageName(r.streamUsage)))
    && ("supports" in wire ==> SupportsShown(wire["supports"], r.supports))
    && ("headers" in wire ==> StringsShown(wire["headers"], r.headers))
    && ("paramMap" in wire ==> StringsShown(wire["paramMap"], r.paramMap))
  }

  predicate VersionUnderstood(wire: Fields) {
    "schemaVersion" in wire && wire["schemaVersion"].Number? ==>
      var n := wire["schemaVersion"].n; n.Floor as real == n && n <= 1.0
  }

  lemma {:induction false} SupportsAccepted(declared: Json, base: Supports)
    ensures SupportsProblems(Some(declared)) == {} <==>
            SupportsShown(declared, MergedSupports(base, Entries(Some(declared))))
  {
    if declared.Object? {
      var raw := declared.fields;
      var merged := MergedSupports(base, raw);
      forall k | k in raw
        ensures k in KNOWN_SUPPORTS ==> (raw[k].Bool? <==> raw[k] == Bool(Capability(merged, k)))
      {
      }
      if k :| k in raw && k !in KNOWN_SUPPORTS {
        assert UnknownCapability(k) in SupportsProblems(Some(declared));
      } else if k :| k in raw && !raw[k].Bool? {
        assert CapabilityNotBoolean(k) in SupportsProblems(Some(declared));
      }
    }
  }

  lemma {:induction false} StringsAccepted(declared: Json, field: string, base: map<string, string>)
    ensures StringMapProblems(Some(declared), field) == {} <==>
            StringsShown(declared, Layered(base, Entries(Some(declared))))
  {
    if declared.Object? {
      if k :| k in declared.fields && !declared.fields[k].Str? {
        assert EntryNotString(field, k) in StringMapProblems(Some(declared), field);
      }
    }
  }

  lemma {:induction false} KeysAccepted(wire: Fields)
    ensures UnknownKeys(wire) == {} <==> wire.Keys <= KNOWN_KEYS
  {
    forall k | k in wire && k !in KNOWN_KEYS ensures UnknownKeys(wire) != {} {
      assert UnknownKey(k) in UnknownKeys(wire);
    }
  }

  lemma {:induction false} VersionAccepted(base: ResolvedWire, wire: Fields)
    ensures VersionProblems(Field(wire, "schemaVersion")) == {} <==>
            && VersionUnderstood(wire)
            && ("schemaVersion" in wire ==> wire["schemaVersion"] == Number(Overlaid(base, wire).schemaVersion))
  {}

  lemma {:induction false} NamesAccepted(base: ResolvedWire, wire: Fields)
    ensures "auth" in wire ==>
              (AuthProblems(Some(wire["auth"])) == {} && AuthUnderstood(wire) <==>
                AuthShown(wire["auth"], Overlaid(base, wire).authStyle))
    ensures "streamUsage" in wire ==>
              (ReadStreamUsage(Some(wire["streamUsage"])).Some? <==>
                wire["streamUsage"] == Str(StreamUsageName(Overlaid(base, wire).streamUsage)))
  {}

  lemma {:induction false} ScalarsAccepted(base: ResolvedWire, wire: Fields)
    ensures var r := Overlaid(base, wire);
            && (VersionProblems(Field(wire, "schemaVersion")) == {} <==>
                 VersionUnderstood(wire)
                 && ("schemaVersion" in wire ==> wire["schemaVersion"] == Number(r.schemaVersion)))
            && ("chatPath" in wire ==>
                 (wire["chatPath"].Str? <==> PathShown(wire["chatPath"], base.chatPath, r.chatPath)))
            && ("auth" in wire ==>
                 (AuthProblems(Some(wire["auth"])) == {} && AuthUnderstood(wire) <==>
                   AuthShown(wire["auth"], r.authStyle)))
            && ("streamUsage" in wire ==>
                 (ReadStreamUsage(Some(wire["streamUsage"])).Some? <==>
                   wire["streamUsage"] == Str(StreamUsageName(r.streamUsage))))
  {
    VersionAccepted(base, wire);
    NamesAccepted(base, wire);
  }

  lemma {:induction false} MapsAccepted(base: ResolvedWire, wire: Fields)
    ensures var r := Overlaid(base, wire);
            && (SupportsProblems(Field(wire, "supports")) == {} <==>
                ("supports" in wire ==> SupportsShown(wire["supports"], r.supports)))
            && (StringMapProblems(Field(wire, "headers"), "headers") == {} <==>
                ("headers" in wire ==> StringsShown(wire["headers"], r.headers)))
            && (StringMapProblems(Field(wire, "paramMap"), "paramMap") == {} <==>
                ("paramMap" in wire ==> StringsShown(wire["paramMap"], r.paramMap)))
  {
    if "supports" in wire {
      SupportsAccepted(wire["supports"], base.supports);
    }
    if "headers" in wire {
      StringsAccepted(wire["headers"], "headers", base.headers);
    }
    if "paramMap" in wire {
      StringsAccepted(wire["paramMap"], "paramMap", base.paramMap);
    }
  }

  lemma {:induction false} NoProblems(wire: Fields)
    ensures FieldProblems(wire) == {} <==>
            && UnknownKeys(wire) == {}
            && VersionProblems(Field(wire, "schemaVersion")) == {}
            && ("chatPath" in wire ==> wire["chatPath"].Str?)
            && AuthProblems(Field(wire, "auth")) == {}
            && ("streamUsage" in wire ==> ReadStreamUsage(Some(wire["streamUsage"])).Some?)
            && SupportsProblems(Field(wire, "supports")) == {}
            && StringMapProblems(Field(wire, "headers"), "headers") == {}
            && StringMapProblems(Field(wire, "paramMap"), "paramMap") == {}
  {
  }

  /**
   * The descriptors that are accepted and hold nothing beside `style` in their `auth` are exactly those whose every
   * declared value takes effect, over any base.
   */
  lemma {:induction false} AcceptedIffShown(base: ResolvedWire, wire: Fields)
    ensures Problems(Some(Object(wire))) == {} && AuthUnderstood(wire) <==>
            VersionUnderstood(wire) && Shown(wire, base, Overlaid(base, wire))
  {
    NoProblems(wire);
    KeysAccepted(wire);
    ScalarsAccepted(base, wire);
    MapsAccepted(base, wire);
  }

  /** An accepted descriptor takes full effect exactly when its `auth` holds nothing beside `style`. */
  lemma {:induction false} FullEffectIffAuthUnderstood(base: ResolvedWire, wire: Fields)
    requires Problems(Some(Object(wire))) == {}
    ensures Shown(wire, base, Overlaid(base, wire)) <==> AuthUnderstood(wire)
  {
    AcceptedIffShown(base, wire);
    NoProblems(wire);
    ScalarsAccepted(base, wire);
  }

  lemma {:induction false} OtherAuthKeyPasses(wire: Fields, key: string, value: Json)
    requires key != "style" && wire == map["auth" := Object(map[key := value])]
    ensures Problems(Some(Object(wire))) == {} && Warnings(wire) == {}
  {
    NoProblems(wire);
    KeysAccepted(wire);
    AcceptedIsQuiet(wire);
  }

  /** Any other key inside `auth`, such as a misspelt `style`, is accepted, not warned about, and ignored. */
  lemma {:induction false} OtherAuthKeyIsIgnored(base: ResolvedWire, key: string, value: Json)
    requires key != "style"
    ensures var wire := map["auth" := Object(map[key := value])];
            && Problems(Some(Object(wire))) == {} && Warnings(wire) == {}
            && Overlaid(base, wire) == base && !Shown(wire, base, base)
  {
    var wire: Fields := map["auth" := Object(map[key := value])];
    OtherAuthKeyPasses(wire, key, value);
    EmptyOverlayKeeps(base);
    assert key in wire["auth"].fields.Keys;
  }

  /** The reader has nothing to warn about in an accepted descriptor. */
  lemma {:induction false} AcceptedIsQuiet(wire: Fields)
    requires Problems(Some(Object(wire))) == {}
    ensures Warnings(wire) == {}
  {
    NoProblems(wire);
    KeysAccepted(wire);
    NoCapabilityIgnored(wire);
    NoEntryIgnored(wire, "headers");
    NoEntryIgnored(wire, "paramMap");
  }

  lemma {:induction false} NoCapabilityIgnored(wire: Fields)
    ensures SupportsProblems(Field(wire, "supports")) == {} ==>
            (set k | k in Entries(Field(wire, "supports")) && k !in KNOWN_SUPPORTS :: IgnoredCapability(k)) == {}
  {
    forall k | k in Entries(Field(wire, "supports")) && k !in KNOWN_SUPPORTS
      ensures SupportsProblems(Field(wire, "supports")) != {}
    {
      assert UnknownCapability(k) in SupportsProblems(Field(wire, "supports"));
    }
  }

  lemma {:induction false} NoEntryIgnored(wire: Fields, field: string)
    ensures StringMapProblems(Field(wire, field), field) == {} ==>
            EntryWarnings(Entries(Field(wire, field)), field) == {}
  {
    var raw := Entries(Field(wire, field));
    forall k | k in raw && !raw[k].Str? ensures StringMapProblems(Field(wire, field), field) != {} {
      assert EntryNotString(field, k) in StringMapProblems(Field(wire, field), field);
    }
  }

  /** Whatever an overlay does not mention keeps its base value. */
  lemma {:induction false} UnmentionedKeeps(base: ResolvedWire, wire: Fields)
    ensures var r := Overlaid(base, wire);
            && ("schemaVersion" !in wire ==> r.schemaVersion == base.schemaVersion)
            && ("chatPath" !in wire ==> r.chatPath == base.chatPath)
            && ("auth" !in wire ==> r.authStyle == base.authStyle)
            && ("streamUsage" !in wire ==> r.streamUsage == base.streamUsage)
            && (forall k :: k in KNOWN_SUPPORTS && k !in Entries(Field(wire, "supports")) ==>
                  Capability(r.supports, k) == Capability(base.supports, k))
            && (forall k :: k !in Entries(Field(wire, "headers")) ==> At(r.headers, k) == At(base.headers, k))
            && (forall k :: k !in Entries(Field(wire, "paramMap")) ==> At(r.paramMap, k) == At(base.paramMap, k))
  {
  }

  /** Beside objects only an absent or null descriptor passes. */
  lemma {:induction false} OnlyObjectsPass(raw: Option<Json>)
    ensures raw.None? || raw == Some(Null) ==> Problems(raw) == {}
    ensures raw.Some? && !raw.value.Null? && !raw.value.Object? ==> Problems(raw) == {NotAnObject}
  {}

  predicate StringsOnly(v: Option<Json>) {
    v.Some? && v.value.Object? ==> forall k :: k in v.value.fields ==> v.value.fields[k].Str?
  }

  predicate CapabilitiesOnly(v: Option<Json>) {
    v.Some? && v.value.Object? ==>
      forall k :: k in v.value.fields ==> k in {"tools", "toolChoice", "topP", "temperature"}
  }

  /** What the reader warns about: a newer version, an unknown key or capability, and an entry that is no string. */
  lemma {:induction false} QuietIff(wire: Fields)
    ensures Warnings(wire) == {} <==>
            && ("schemaVersion" in wire && wire["schemaVersion"].Number? ==> wire["schemaVersion"].n <= 1.0)
            && wire.Keys <= {"schemaVersion", "chatPath", "auth", "headers", "streamUsage", "supports", "paramMap"}
            && CapabilitiesOnly(Field(wire, "supports"))
            && StringsOnly(Field(wire, "headers")) && StringsOnly(Field(wire, "paramMap"))
  {
    NoWarnings(wire);
    UnknownKeysWarned(wire);
    CapabilitiesWarned(Field(wire, "supports"));
    EntriesWarned(Field(wire, "headers"), "headers");
    EntriesWarned(Field(wire, "paramMap"), "paramMap");
  }

  function KeyWarnings(wire: Fields): set<Warning> {
    set k | k in wire && k !in KNOWN_KEYS :: IgnoredKey(k)
  }

  function CapabilityWarnings(raw: Fields): set<Warning> {
    set k | k in raw && k !in KNOWN_SUPPORTS :: IgnoredCapability(k)
  }

  lemma {:induction false} NoWarnings(wire: Fields)
    ensures Warnings(wire) == {} <==>
            && ReadNumber(Field(wire, "schemaVersion")).GetOr(0.0) <= WIRE_SCHEMA_VERSION
            && KeyWarnings(wire) == {} && CapabilityWarnings(Entries(Field(wire, "supports"))) == {}
            && EntryWarnings(Entries(Field(wire, "headers")), "headers") == {}
            && EntryWarnings(Entries(Field(wire, "paramMap")), "paramMap") == {}
  {}

  lemma {:induction false} UnknownKeysWarned(wire: Fields)
    ensures KeyWarnings(wire) == {} <==> wire.Keys <= KNOWN_KEYS
  {
    forall k | k in wire && k !in KNOWN_KEYS ensures KeyWarnings(wire) != {} {
      assert IgnoredKey(k) in KeyWarnings(wire);
    }
  }

  lemma {:induction false} CapabilitiesWarned(v: Option<Json>)
    ensures CapabilityWarnings(Entries(v)) == {} <==> CapabilitiesOnly(v)
  {
    forall k | k in Entries(v) && k !in KNOWN_SUPPORTS ensures CapabilityWarnings(Entries(v)) != {} {
      assert IgnoredCapability(k) in CapabilityWarnings(Entries(v));
    }
  }

  lemma {:induction false} EntriesWarned(v: Option<Json>, field: string)
    ensures EntryWarnings(Entries(v), field) == {} <==> StringsOnly(v)
  {
    forall k | k in Entries(v) && !Entries(v)[k].Str? ensures EntryWarnings(Entries(v), field) != {} {
      assert IgnoredEntry(field, k) in EntryWarnings(Entries(v), field);
    }
  }

  // ---- Last writer wins ----

  function At(m: map<string, string>, k: string): Option<string> {
    if k in m then Some(m[k]) else None
  }

  function StringAt(v: Option<Json>, k: string): Option<string> {
    At(Strings(Entries(v)), k)
  }

  function BoolAt(v: Option<Json>, k: string): Option<bool> {
    var fields := Entries(v);
    if k in fields && fields[k].Bool? then Some(fields[k].b) else None
  }

  /** What each config says under one field of its overlay. */
  function Saying<T>(field: string, read: Option<Json> -> Option<T>): Option<Fields> -> Option<T> {
    (config: Option<Fields>) => read(Field(OverlayIn(config), field))
  }

  function StringsSaying(field: string, k: string): Option<Fields> -> Option<string> {
    Saying(field, (v: Option<Json>) => StringAt(v, k))
  }

  function BoolSaying(k: string): Option<Fields> -> Option<bool> {
    Saying("supports", (v: Option<Json>) => BoolAt(v, k))
  }

  lemma {:induction false} SettleScalar<T>(
      field: string, read: Option<Json> -> Option<T>, configs: seq<Option<Fields>>, c: Option<Fields>, b: T)
    ensures LastSome(Saying(field, read), configs + [c]).GetOr(b) ==
            read(Field(OverlayIn(c), field)).GetOr(LastSome(Saying(field, read), configs).GetOr(b))
  {
    LastSomeSnoc(Saying(field, read), configs, c);
  }

  ghost predicate ScalarsSettled(d: ResolvedWire, configs: seq<Option<Fields>>, r: ResolvedWire) {
    && r.schemaVersion == LastSome(Saying("schemaVersion", ReadNumber), configs).GetOr(d.schemaVersion)
    && r.chatPath == LastSome(Saying("chatPath", ReadString), configs).OrElse(d.chatPath)
    && r.authStyle == LastSome(Saying("auth", AuthStyleIn), configs).GetOr(d.authStyle)
    && r.streamUsage == LastSome(Saying("streamUsage", ReadStreamUsage), configs).GetOr(d.streamUsage)
  }

  ghost predicate KeysSettled(
      d: map<string, string>, field: string, configs: seq<Option<Fields>>, r: map<string, string>)
  {
    forall k :: At(r, k) == LastSome(StringsSaying(field, k), configs).OrElse(At(d, k))
  }

  ghost predicate CapabilitiesSettled(d: Supports, configs: seq<Option<Fields>>, r: Supports) {
    forall k :: k in KNOWN_SUPPORTS ==>
      Capability(r, k) == LastSome(BoolSaying(k), configs).GetOr(Capability(d, k))
  }

  lemma {:induction false} LayeredAt(base: map<string, string>, v: Option<Json>, k: string)
    ensures At(Layered(base, Entries(v)), k) == StringAt(v, k).OrElse(At(base, k))
  {
  }

  lemma {:induction false} SettleKeys(
      d: map<string, string>, field: string, configs: seq<Option<Fields>>, c: Option<Fields>, r: map<string, string>)
    requires KeysSettled(d, field, configs, r)
    ensures KeysSettled(d, field, configs + [c], Layered(r, Entries(Field(OverlayIn(c), field))))
  {
    var v := Field(OverlayIn(c), field);
    forall k
      ensures At(Layered(r, Entries(v)), k) == LastSome(StringsSaying(field, k), configs + [c]).OrElse(At(d, k))
    {
      LastSomeSnoc(StringsSaying(field, k), configs, c);
      LayeredAt(r, v, k);
    }
  }

  lemma {:induction false} MergedCapability(base: Supports, v: Option<Json>, k: string)
    requires k in KNOWN_SUPPORTS
    ensures Capability(MergedSupports(base, Entries(v)), k) == BoolAt(v, k).GetOr(Capability(base, k))
  {
  }

  lemma {:induction false} SettleCapability(
      d: bool, k: string, configs: seq<Option<Fields>>, c: Option<Fields>, r: bool, merged: bool)
    requires r == LastSome(BoolSaying(k), configs).GetOr(d)
    requires merged == BoolAt(Field(OverlayIn(c), "supports"), k).GetOr(r)
    ensures merged == LastSome(BoolSaying(k), configs + [c]).GetOr(d)
  {
    LastSomeSnoc(BoolSaying(k), configs, c);
  }

  lemma {:induction false} SettleCapabilities(
      d: Supports, configs: seq<Option<Fields>>, c: Option<Fields>, r: Supports, merged: Supports)
    requires CapabilitiesSettled(d, configs, r)
    requires merged == MergedSupports(r, Entries(Field(OverlayIn(c), "supports")))
    ensures CapabilitiesSettled(d, configs + [c], merged)
  {
    forall k | k in KNOWN_SUPPORTS
      ensures Capability(merged, k) == LastSome(BoolSaying(k), configs + [c]).GetOr(Capability(d, k))
    {
      MergedCapability(r, Field(OverlayIn(c), "supports"), k);
      SettleCapability(Capability(d, k), k, configs, c, Capability(r, k), Capability(merged, k));
    }
  }

  /** Layering is last-writer-wins: field by field for the scalars, key by key inside the maps. */
  lemma {:induction false} LastWriterWins(d: ResolvedWire, configs: seq<Option<Fields>>)
    ensures var r := Resolved(d, configs);
            && ScalarsSettled(d, configs, r)
            && KeysSettled(d.headers, "headers", configs, r.headers)
            && KeysSettled(d.paramMap, "paramMap", configs, r.paramMap)
            && CapabilitiesSettled(d.supports, configs, r.supports)
  {
    if configs != [] {
      var init, c := configs[..|configs| - 1], configs[|configs| - 1];
      assert configs == init + [c];
      LastWriterWins(d, init);
      var r := Resolved(d, init);
      SettleScalar("schemaVersion", ReadNumber, init, c, d.schemaVersion);
      LastSomeSnoc(Saying("chatPath", ReadString), init, c);
      SettleScalar("auth", AuthStyleIn, init, c, d.authStyle);
      SettleScalar("streamUsage", ReadStreamUsage, init, c, d.streamUsage);
      SettleKeys(d.headers, "headers", init, c, r.headers);
      SettleKeys(d.paramMap, "paramMap", init, c, r.paramMap);
      SettleCapabilities(d.supports, init, c, r.supports, Resolved(d, configs).supports);
    }
  }

  // ---- Composition ----

  function Pick<T>(read: Option<Json> -> Option<T>, first: Option<Json>, second: Option<Json>): Option<Json> {
    if read(second).Some? then second else first
  }

  /** The entries of two layers, the second overriding where it can be used. */
  function Stacked(usable: Json -> bool, first: Fields, second: Fields): Fields {
    map k | k in first.Keys + second.Keys ::
      if k in second && (usable(second[k]) || k !in first) then second[k] else first[k]
  }

  function IsString(v: Json): bool { v.Str? }

  function IsBool(v: Json): bool { v.Bool? }

  function Put(fields: Fields, key: string, v: Option<Json>): Fields {
    if v.Some? then fields[key := v.value] else fields
  }

  /** One overlay with the effect of two. */
  function Compose(first: Fields, second: Fields): Fields {
    var o := Put(map[], "schemaVersion",
      Pick(ReadNumber, Field(first, "schemaVersion"), Field(second, "schemaVersion")));
    var o := Put(o, "chatPath", Pick(ReadString, Field(first, "chatPath"), Field(second, "chatPath")));
    var o := Put(o, "auth", Pick(AuthStyleIn, Field(first, "auth"), Field(second, "auth")));
    var o := Put(o, "streamUsage", Pick(ReadStreamUsage, Field(first, "streamUsage"), Field(second, "streamUsage")));
    o["headers" := Object(Stacked(IsString, Entries(Field(first, "headers")), Entries(Field(second, "headers"))))]
     ["supports" := Object(Stacked(IsBool, Entries(Field(first, "supports")), Entries(Field(second, "supports"))))]
     ["paramMap" := Object(Stacked(IsString, Entries(Field(first, "paramMap")), Entries(Field(second, "paramMap"))))]
  }

  lemma {:induction false} ComposeFields(first: Fields, second: Fields)
    ensures var o := Compose(first, second);
            && Field(o, "schemaVersion") ==
                 Pick(ReadNumber, Field(first, "schemaVersion"), Field(second, "schemaVersion"))
            && Field(o, "chatPath") == Pick(ReadString, Field(first, "chatPath"), Field(second, "chatPath"))
            && Field(o, "auth") == Pick(AuthStyleIn, Field(first, "auth"), Field(second, "auth"))
            && Field(o, "streamUsage") ==
                 Pick(ReadStreamUsage, Field(first, "streamUsage"), Field(second, "streamUsage"))
            && Entries(Field(o, "headers")) ==
                 Stacked(IsString, Entries(Field(first, "headers")), Entries(Field(second, "headers")))
            && Entries(Field(o, "supports")) ==
                 Stacked(IsBool, Entries(Field(first, "supports")), Entries(Field(second, "supports")))
            && Entries(Field(o, "paramMap")) ==
                 Stacked(IsString, Entries(Field(first, "paramMap")), Entries(Field(second, "paramMap")))
  {
  }

  lemma {:induction false} StackedStrings(base: map<string, string>, first: Fields, second: Fields)
    ensures Layered(Layered(base, first), second) == Layered(base, Stacked(IsString, first, second))
  {
    assert Strings(Stacked(IsString, first, second)) == Strings(first) + Strings(second);
    assert base + (Strings(first) + Strings(second)) == (base + Strings(first)) + Strings(second);
  }

  lemma {:induction false} StackedBool(first: Fields, second: Fields, key: string, default: bool)
    ensures ReadBool(second, key, ReadBool(first, key, default)) ==
            ReadBool(Stacked(IsBool, first, second), key, default)
  {
  }

  lemma {:induction false} StackedSupports(base: Supports, first: Fields, second: Fields)
    ensures MergedSupports(MergedSupports(base, first), second) == MergedSupports(base, Stacked(IsBool, first, second))
  {
    StackedBool(first, second, "tools", base.tools);
    StackedBool(first, second, "toolChoice", base.toolChoice);
    StackedBool(first, second, "topP", base.topP);
    StackedBool(first, second, "temperature", base.temperature);
  }

  /** Any two overlays compose into one, over every base. */
  lemma {:induction false} OverlaysCompose(base: ResolvedWire, first: Fields, second: Fields)
    ensures Overlaid(Overlaid(base, first), second) == Overlaid(base, Compose(first, second))
  {
    ComposeFields(first, second);
    StackedStrings(base.headers, Entries(Field(first, "headers")), Entries(Field(second, "headers")));
    StackedStrings(base.paramMap, Entries(Field(first, "paramMap")), Entries(Field(second, "paramMap")));
    StackedSupports(base.supports, Entries(Field(first, "supports")), Entries(Field(second, "supports")));
  }

  function Combined(configs: seq<Option<Fields>>): Fields {
    if configs == [] then map[] else Compose(Combined(configs[..|configs| - 1]), OverlayIn(configs[|configs| - 1]))
  }

  /** A whole run of configs is one overlay, whatever it is laid over. */
  lemma {:induction false} RunIsOneOverlay(base: ResolvedWire, configs: seq<Option<Fields>>)
    ensures Resolved(base, configs) == Overlaid(base, Combined(configs))
  {
    if configs == [] {
      EmptyOverlayKeeps(base);
    } else {
      var init := configs[..|configs| - 1];
      RunIsOneOverlay(base, init);
      OverlaysCompose(base, Combined(init), OverlayIn(configs[|configs| - 1]));
    }
  }

  /** Re-applying an overlay changes nothing. */
  lemma {:induction false} OverlayIdempotent(base: ResolvedWire, overlay: Fields)
    ensures Overlaid(Overlaid(base, overlay), overlay) == Overlaid(base, overlay)
  {
    var headers, paramMap := Entries(Field(overlay, "headers")), Entries(Field(overlay, "paramMap"));
    assert Layered(Layered(base.headers, headers), headers) == Layered(base.headers, headers);
    assert Layered(Layered(base.paramMap, paramMap), paramMap) == Layered(base.paramMap, paramMap);
  }
}
