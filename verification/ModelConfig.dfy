/**
 * How a model's free-form config is stored and shown (service/src/runtime/model-admin.service.ts): keys that
 * look like credentials are stripped at every depth, and one reference to a credential is kept in a slot.
 */
module ModelConfig {
  import opened Json
  import opened Wrappers
  import opened Wire
  import opened WireLaws
  import Trimming = Text

  // ---- Secret-named keys ----

  function LowerChar(c: char): char {
    if 'A' <= c <= 'Z' then c - 'A' + 'a' else c
  }

  function Lower(s: string): string {
    seq(|s|, i requires 0 <= i < |s| => LowerChar(s[i]))
  }

  /** The names the pattern matches, whatever the case of their ASCII letters. */
  predicate IsSecretName(key: string) {
    Lower(key) in {
      "apikey", "api-key", "api_key", "apikeyenvvar", "managedkeyalias", "secret", "token", "password", "credential",
      "accesstoken", "access-token", "access_token", "refreshtoken", "refresh-token", "refresh_token",
      "bearertoken", "bearer-token", "bearer_token"}
  }

  function Sanitized(v: Json): (r: Json)
    ensures v.Object? ==> r.Object?
    decreases v
  {
    match v
    case Array(items) => Array(seq(|items|, i requires 0 <= i < |items| => Sanitized(items[i])))
    case Object(fields) => Object(map k | k in fields && !IsSecretName(k) :: Sanitized(fields[k]))
    case _ => v
  }

  function SanitizedRecord(config: Fields): Fields {
    Sanitized(Object(config)).fields
  }

  // ---- The key reference ----

  datatype Source = Env | Managed

  datatype KeyReference = KeyReference(source: Source, name: string)

  /** What a request asks of the reference: leave it out, clear it, or set it. */
  datatype Requested = Unspecified | Cleared | Set(reference: KeyReference)

  datatype ConfigError = WireRejected(problems: set<Problem>) | SourceInvalid

  function SlotOf(source: Source): string {
    match source
    case Env => "apiKeyEnvVar"
    case Managed => "managedKeyAlias"
  }

  const SLOTS := {"apiKeyEnvVar", "managedKeyAlias"}

  function FieldOf(v: Json, key: string): Option<Json> {
    if v.Object? then Field(v.fields, key) else None
  }

  function Naming(source: Source, name: Option<Json>): Requested {
    match ReadString(name)
    case Some(n) => Set(KeyReference(source, n))
    case None => Cleared
  }

  /** The two ways a request may name its key; an absent field is `undefined`. */
  function NormalizeKeyReferenceName(
      keyReference: Option<Json>, apiKeyEnvVar: Option<Json>): Result<Requested, ConfigError>
  {
    match keyReference
    case Some(Null) => Success(Cleared)
    case Some(given) => (
      match FieldOf(given, "source")
      case None => Success(Naming(Env, FieldOf(given, "name")))
      case Some(Null) => Success(Naming(Env, FieldOf(given, "name")))
      case Some(Str("env")) => Success(Naming(Env, FieldOf(given, "name")))
      case Some(Str("managed")) => Success(Naming(Managed, FieldOf(given, "name")))
      case Some(_) => Failure(SourceInvalid))
    case None => Success(if apiKeyEnvVar.None? then Unspecified else Naming(Env, apiKeyEnvVar))
  }

  function ReadKeyReference(config: Option<Fields>): Option<KeyReference> {
    if config.None? then None
    else
      match ReadString(Field(config.value, "managedKeyAlias"))
      case Some(alias) => Some(KeyReference(Managed, alias))
      case None =>
        match ReadString(Field(config.value, "apiKeyEnvVar"))
        case Some(name) => Some(KeyReference(Env, name))
        case None => None
  }

  // ---- Write and display ----

  function NonEmpty(config: Fields): Option<Fields> {
    if config == map[] then None else Some(config)
  }

  function SanitizeWritableConfig(config: Option<Fields>): Result<Option<Fields>, ConfigError> {
    if config.None? then Success(None)
    else
      var sanitized := SanitizedRecord(config.value);
      var problems := Problems(Field(sanitized, "wire"));
      if problems != {} then Failure(WireRejected(problems)) else Success(NonEmpty(sanitized))
  }

  function Merged(config: Option<Fields>, requested: Requested): Option<Fields> {
    match requested
    case Unspecified => config
    case Cleared => NonEmpty(config.GetOr(map[]) - SLOTS)
    case Set(reference) => Some((config.GetOr(map[]) - SLOTS)[SlotOf(reference.source) := Str(reference.name)])
  }

  method MergeModelConfig(config: Option<Fields>, requested: Requested) returns (r: Option<Fields>)
    ensures r == Merged(config, requested)
  {
    if requested.Unspecified? {
      return config;
    }
    var nextConfig := config.GetOr(map[]);
    nextConfig := nextConfig - {"apiKeyEnvVar"};
    nextConfig := nextConfig - {"managedKeyAlias"};
    assert nextConfig == config.GetOr(map[]) - SLOTS;
    if requested.Set? {
      if requested.reference.source == Managed {
        nextConfig := nextConfig["managedKeyAlias" := Str(requested.reference.name)];
      } else {
        nextConfig := nextConfig["apiKeyEnvVar" := Str(requested.reference.name)];
      }
    }
    return if |nextConfig| > 0 then Some(nextConfig) else None;
  }

  /** The stored config of a create, or of an update that mentions the config or its reference. */
  function Written(config: Option<Fields>, requested: Requested): Result<Option<Fields>, ConfigError> {
    match SanitizeWritableConfig(config)
    case Success(writable) => Success(Merged(writable, requested))
    case Failure(e) => Failure(e)
  }

  /**
   * Merging touches the two slots only, and leaves in them what was asked for; a config of no keys is stored as none.
   */
  lemma {:induction false} MergingTouchesSlots(config: Option<Fields>, requested: Requested, r: Option<Fields>)
    requires r == Merged(config, requested)
    ensures forall k :: k !in SLOTS ==> Field(r.GetOr(map[]), k) == Field(config.GetOr(map[]), k)
    ensures !requested.Unspecified? ==>
              && r != Some(map[])
              && forall k :: k in SLOTS ==> Field(r.GetOr(map[]), k) == Field(Slot(requested), k)
  {
    if !requested.Unspecified? {
      var kept := config.GetOr(map[]) - SLOTS;
      assert NonEmpty(kept).GetOr(map[]) == kept;
    }
  }

  /** An update that mentions neither keeps what is stored. */
  function Updated(
      stored: Option<Fields>, config: Option<Option<Fields>>, requested: Requested)
    : Result<Option<Fields>, ConfigError>
  {
    if config.None? && requested.Unspecified? then Success(stored) else Written(config.GetOr(None), requested)
  }

  function Displayed(stored: Option<Fields>): Option<Fields> {
    if stored.None? then None else Some(SanitizedRecord(stored.value))
  }

  /** The reference as the admin API shows it; `configured` is read from elsewhere. */
  function ShownReference(reference: Option<KeyReference>, configured: bool): Json {
    match reference
    case None => Null
    case Some(r) => Object(map[
      "source" := Str(if r.source == Env then "env" else "managed"), "name" := Str(r.name),
        "configured" := Bool(configured)])
  }

  // ---- Names and references, literally ----

  /** The names that are stripped, in lower case. */
  lemma {:induction false} NamesThatAreStripped(s: string)
    requires forall i :: 0 <= i < |s| ==> !('A' <= s[i] <= 'Z')
    ensures IsSecretName(s) <==> s in {
      "apikey", "api-key", "api_key", "apikeyenvvar", "managedkeyalias", "secret", "token", "password", "credential",
      "accesstoken", "access-token", "access_token", "refreshtoken", "refresh-token", "refresh_token",
      "bearertoken", "bearer-token", "bearer_token"}
  {
    LowerStays(s);
  }

  lemma {:induction false} LowerStays(s: string)
    requires forall i :: 0 <= i < |s| ==> !('A' <= s[i] <= 'Z')
    ensures Lower(s) == s
  {}

  /** The case of ASCII letters does not matter to that, and nothing else is overlooked. */
  lemma {:induction false} CaseDoesNotMatter(s: string, t: string)
    requires |s| == |t| && forall i :: 0 <= i < |s| ==>
      s[i] == t[i] || ('A' <= s[i] <= 'Z' && t[i] as int == s[i] as int + 32)
    ensures IsSecretName(s) <==> IsSecretName(t)
  {
    assert Lower(s) == Lower(t);
  }

  /** The slot that holds a reference, by its source. */
  lemma {:induction false} SlotsSayTheSource(config: Option<Fields>, name: string)
    ensures var managed := Merged(config, Set(KeyReference(Managed, name))).GetOr(map[]);
            Field(managed, "managedKeyAlias") == Some(Str(name)) && "apiKeyEnvVar" !in managed
    ensures var env := Merged(config, Set(KeyReference(Env, name))).GetOr(map[]);
            Field(env, "apiKeyEnvVar") == Some(Str(name)) && "managedKeyAlias" !in env
  {}

  /** A name that is a text with more than white space is trimmed and set, and any other clears the reference. */
  predicate NamesA(r: Requested, source: Source, name: Option<Json>) {
    if name.Some? && name.value.Str? && Trimming.Trim(name.value.s) != ""
    then r == Set(KeyReference(source, Trimming.Trim(name.value.s)))
    else r == Cleared
  }

  /**
   * What a request asks: nothing when it has neither field; a bare variable name as a reference to the environment; and
   * of a reference, which takes precedence, its source, the environment by default, and its name.
   */
  lemma {:induction false} ReferenceSaysTheRequest(keyReference: Option<Json>, apiKeyEnvVar: Option<Json>)
    ensures var r := NormalizeKeyReferenceName(keyReference, apiKeyEnvVar);
            if keyReference.None? then
              r.Success? && if apiKeyEnvVar.None? then r.value == Unspecified else NamesA(r.value, Env, apiKeyEnvVar)
            else if keyReference == Some(Null) then r == Success(Cleared)
            else if !keyReference.value.Object? then r == Success(Cleared)
            else
              var fields := keyReference.value.fields;
              var name := Field(fields, "name");
              if "source" !in fields || fields["source"] in {Null, Str("env")} then
                r.Success? && NamesA(r.value, Env, name)
              else if fields["source"] == Str("managed") then r.Success? && NamesA(r.value, Managed, name)
              else r == Failure(SourceInvalid)
  {}

  /** A managed reference is read before one to the environment, and a blank one not at all. */
  lemma {:induction false} ReadingSaysTheSlots(stored: Fields)
    ensures var managed, env := Field(stored, "managedKeyAlias"), Field(stored, "apiKeyEnvVar");
            var r := ReadKeyReference(Some(stored));
            if managed.Some? && managed.value.Str? && Trimming.Trim(managed.value.s) != "" then
              r == Some(KeyReference(Managed, Trimming.Trim(managed.value.s)))
            else if env.Some? && env.value.Str? && Trimming.Trim(env.value.s) != "" then
              r == Some(KeyReference(Env, Trimming.Trim(env.value.s)))
            else r == None
  {}

  /**
   * A write is refused exactly for what the validator finds in the sanitized descriptor; no config is never refused.
   */
  lemma {:induction false} RefusedForItsWire(config: Option<Fields>, requested: Requested)
    ensures Written(config, requested).Failure? <==>
            config.Some? && Problems(Field(SanitizedRecord(config.value), "wire")) != {}
    ensures forall stored :: Updated(stored, None, Unspecified) == Success(stored)
    ensures forall stored, given :: Updated(stored, Some(given), requested) == Written(given, requested)
  {}

  // ---- What sanitizing keeps ----

  datatype Step = Key(key: string) | Index(index: nat)

  function At(v: Json, path: seq<Step>): Option<Json> {
    if path == [] then Some(v)
    else if path[0].Key? && v.Object? && path[0].key in v.fields then At(v.fields[path[0].key], path[1..])
    else if path[0].Index? && v.Array? && path[0].index < |v.items| then At(v.items[path[0].index], path[1..])
    else None
  }

  predicate SecretFree(path: seq<Step>) {
    forall i :: 0 <= i < |path| && path[i].Key? ==> !IsSecretName(path[i].key)
  }

  /** No path into the value passes through a secret-named key. */
  ghost predicate Clean(v: Json) {
    forall path :: At(v, path).Some? ==> SecretFree(path)
  }

  function MapSanitized(v: Option<Json>): Option<Json> {
    if v.Some? then Some(Sanitized(v.value)) else None
  }

  /** Exactly the paths through no secret-named key survive, and they lead to the same places. */
  lemma {:induction false} SanitizingKeeps(v: Json, path: seq<Step>)
    ensures At(Sanitized(v), path) == if SecretFree(path) then MapSanitized(At(v, path)) else None
    decreases path
  {
    if path != [] {
      var head, tail := path[0], path[1..];
      assert SecretFree(path) <==> SecretFree(tail) && (head.Key? ==> !IsSecretName(head.key));
      if head.Key? && v.Object? && head.key in v.fields {
        SanitizingKeeps(v.fields[head.key], tail);
      } else if head.Index? && v.Array? && head.index < |v.items| {
        SanitizingKeeps(v.items[head.index], tail);
      }
    }
  }

  lemma {:induction false} SanitizedIsClean(v: Json)
    ensures Clean(Sanitized(v))
  {
    forall path | At(Sanitized(v), path).Some? ensures SecretFree(path) {
      SanitizingKeeps(v, path);
    }
  }

  lemma {:induction false} CleanChild(v: Json, step: Step)
    requires Clean(v) && At(v, [step]).Some?
    ensures SecretFree([step]) && Clean(At(v, [step]).value)
  {
    var child := At(v, [step]).value;
    forall path | At(child, path).Some? ensures SecretFree(path) {
      assert ([step] + path)[1..] == path;
      assert SecretFree([step] + path);
      assert forall i :: 0 <= i < |path| ==> path[i] == ([step] + path)[i + 1];
    }
  }

  /** The sanitizer leaves alone exactly the values with nothing to strip. */
  lemma {:induction false} CleanIsFixed(v: Json)
    ensures Sanitized(v) == v <==> Clean(v)
    decreases v
  {
    if Sanitized(v) == v {
      SanitizedIsClean(v);
    }
    if Clean(v) {
      match v
      case Array(items) =>
        forall i | 0 <= i < |items| ensures Sanitized(items[i]) == items[i] {
          assert At(v, [Index(i)]) == Some(items[i]);
          CleanChild(v, Index(i));
          CleanIsFixed(items[i]);
        }
        assert Sanitized(v).items == items;
      case Object(fields) =>
        forall k | k in fields ensures !IsSecretName(k) && Sanitized(fields[k]) == fields[k] {
          assert At(v, [Key(k)]) == Some(fields[k]);
          CleanChild(v, Key(k));
          assert [Key(k)][0].Key?;
          CleanIsFixed(fields[k]);
        }
        assert Sanitized(v).fields == fields;
      case _ =>
    }
  }

  lemma {:induction false} SanitizedIdempotent(v: Json)
    ensures Sanitized(Sanitized(v)) == Sanitized(v)
  {
    SanitizedIsClean(v);
    CleanIsFixed(Sanitized(v));
  }

  // ---- The fixpoint ----

  /** The slot a request fills, if it names a key. */
  function Slot(requested: Requested): Fields {
    match requested
    case Set(r) => map[SlotOf(r.source) := Str(r.name)]
    case _ => map[]
  }

  predicate WellNamed(requested: Requested) {
    requested.Set? ==>
      !Trimming.IsBlank(requested.reference.name) && Trimming.Trim(requested.reference.name) == requested.reference.name
  }

  lemma {:induction false} NormalizedIsWellNamed(keyReference: Option<Json>, apiKeyEnvVar: Option<Json>)
    ensures var r := NormalizeKeyReferenceName(keyReference, apiKeyEnvVar); r.Success? ==> WellNamed(r.value)
  {
    forall name: Option<Json>, source ensures WellNamed(Naming(source, name)) {
      if name.Some? && name.value.Str? {
        Trimming.TrimIdempotent(name.value.s);
      }
    }
  }

  lemma {:induction false} SlotsAreSecret()
    ensures IsSecretName("apiKeyEnvVar") && IsSecretName("managedKeyAlias") && !IsSecretName("wire")
  {
    assert Lower("apiKeyEnvVar") == "apikeyenvvar";
    assert Lower("managedKeyAlias") == "managedkeyalias";
    assert Lower("wire") == "wire";
  }

  /** What is stored is the sanitized config with the one slot beside it. */
  lemma {:induction false} StoredIsBodyAndSlot(config: Option<Fields>, requested: Requested)
    requires Written(config, requested).Success?
    ensures var body := SanitizedRecord(config.GetOr(map[]));
            && Written(config, requested).value == NonEmpty(body + Slot(requested))
            && Clean(Object(body)) && SLOTS !! body.Keys
  {
    var body := SanitizedRecord(config.GetOr(map[]));
    SlotsAreSecret();
    SanitizedIsClean(Object(config.GetOr(map[])));
    assert forall k :: k in SLOTS ==> IsSecretName(k);
    assert body - SLOTS == body && body + map[] == body;
    assert config.None? ==> body == map[];
    assert NonEmpty(body).GetOr(map[]) == body;
    if requested.Set? {
      assert body[SlotOf(requested.reference.source) := Str(requested.reference.name)] == body + Slot(requested);
    }
  }

  lemma {:induction false} ShowingStripsTheSlot(body: Fields, requested: Requested)
    requires Clean(Object(body)) && SLOTS !! body.Keys
    ensures SanitizedRecord(body + Slot(requested)) == body
  {
    SlotsAreSecret();
    CleanIsFixed(Object(body));
    var full := body + Slot(requested);
    assert forall k :: k in body ==> !IsSecretName(k) && full[k] == body[k] && Sanitized(body[k]) == body[k] by {
      assert Sanitized(Object(body)).fields == body;
    }
  }

  lemma {:induction false} PathThrough(body: Fields, slot: Fields, path: seq<Step>)
    ensures path != [] && !(path[0].Key? && path[0].key in slot) ==>
            At(Object(body + slot), path) == At(Object(body), path)
  {
  }

  lemma {:induction false} SlotPath(body: Fields, requested: Requested, path: seq<Step>)
    requires Clean(Object(body)) && At(Object(body + Slot(requested)), path).Some? && !SecretFree(path)
    ensures requested.Set? && path == [Key(SlotOf(requested.reference.source))]
  {
    PathThrough(body, Slot(requested), path);
    assert path[0].Key? && path[0].key in Slot(requested);
    assert At(Slot(requested)[path[0].key], path[1..]).Some?;
  }

  lemma {:induction false} SlotReadsBack(body: Fields, requested: Requested)
    requires SLOTS !! body.Keys && WellNamed(requested)
    ensures ReadKeyReference(NonEmpty(body + Slot(requested))) == if requested.Set? then
            Some(requested.reference) else None
  {
  }

  /** Nothing secret-named is stored at any depth but the reference just written, which reads back. */
  lemma {:induction false} OnlyTheSlotIsSecret(config: Option<Fields>, requested: Requested)
    requires Written(config, requested).Success? && WellNamed(requested)
    ensures var stored := Written(config, requested).value;
            && (forall path :: At(Object(stored.GetOr(map[])), path).Some? && !SecretFree(path) ==>
                  requested.Set? && path == [Key(SlotOf(requested.reference.source))])
            && ReadKeyReference(stored) == if requested.Set? then Some(requested.reference) else None
  {
    StoredIsBodyAndSlot(config, requested);
    var body := SanitizedRecord(config.GetOr(map[]));
    SlotReadsBack(body, requested);
    var stored := Written(config, requested).value;
    assert Object(stored.GetOr(map[])) == Object(body + Slot(requested));
    forall path: seq<Step> | At(Object(stored.GetOr(map[])), path).Some? && !SecretFree(path)
      ensures requested.Set? && path == [Key(SlotOf(requested.reference.source))]
    {
      SlotPath(body, requested, path);
    }
  }

  /** Submitting what is shown, reference included, stores the same config again. */
  lemma {:induction false} ReadModifyWrite(config: Option<Fields>, requested: Requested, configured: bool)
    requires Written(config, requested).Success? && WellNamed(requested)
    ensures var stored := Written(config, requested).value;
            var again := NormalizeKeyReferenceName(Some(ShownReference(ReadKeyReference(stored), configured)), None);
            && again.Success?
            && Updated(stored, Some(Displayed(stored)), again.value) == Success(stored)
  {
    StoredIsBodyAndSlot(config, requested);
    OnlyTheSlotIsSecret(config, requested);
    var body := SanitizedRecord(config.GetOr(map[]));
    var stored := Written(config, requested).value;
    var again := if requested.Set? then requested else Cleared;
    ShownReferenceNormalizes(requested, configured);
    ShowingStripsTheSlot(body, requested);
    CleanIsFixed(Object(body));
    assert Slot(again) == Slot(requested);
    assert Problems(Field(body, "wire")) == {};
    if stored.Some? {
      assert Displayed(stored) == Some(body);
      StoredIsBodyAndSlot(Some(body), again);
    } else {
      StoredIsBodyAndSlot(None, again);
      assert body == map[];
    }
  }

  lemma {:induction false} ShownReferenceNormalizes(requested: Requested, configured: bool)
    requires WellNamed(requested)
    ensures var reference := if requested.Set? then Some(requested.reference) else None;
            NormalizeKeyReferenceName(Some(ShownReference(reference, configured)), None) ==
              Success(if requested.Set? then requested else Cleared)
  {
  }

  /** Submitting what is shown without the reference drops it; submitting the reference alone drops the rest. */
  lemma {:induction false} PartialUpdatesReplace(config: Option<Fields>, requested: Requested, reference: KeyReference)
    requires Written(config, requested).Success? && WellNamed(requested)
    ensures var stored := Written(config, requested).value;
            && Updated(stored, Some(Displayed(stored)), Unspecified) ==
                 Success(NonEmpty(SanitizedRecord(config.GetOr(map[]))))
            && Updated(stored, None, Set(reference)) == Success(Some(Slot(Set(reference))))
  {
    StoredIsBodyAndSlot(config, requested);
    var body := SanitizedRecord(config.GetOr(map[]));
    ShowingStripsTheSlot(body, requested);
    CleanIsFixed(Object(body));
    assert Problems(Field(body, "wire")) == {};
    if Written(config, requested).value.None? {
      assert body == map[];
    }
    var nothing: Fields := map[];
    assert nothing - SLOTS == nothing;
  }

  // ---- The wire descriptor inside a config ----

  /** The configuration of a stored model, as the reader sees it over a base. */
  function Effective(base: ResolvedWire, stored: Option<Fields>): ResolvedWire {
    Overlaid(base, OverlayIn(stored))
  }

  /** What is stored of a descriptor is its sanitized form. */
  lemma {:induction false} StoredWire(config: Fields, requested: Requested, wire: Fields)
    requires Written(Some(config), requested).Success? && Field(config, "wire") == Some(Object(wire))
    ensures OverlayIn(Written(Some(config), requested).value) == SanitizedRecord(wire)
    ensures Problems(Some(Object(SanitizedRecord(wire)))) == {}
  {
    StoredIsBodyAndSlot(Some(config), requested);
    SlotsAreSecret();
    var body := SanitizedRecord(config);
    assert body["wire"] == Sanitized(Object(wire)) && "wire" !in Slot(requested);
    assert Written(Some(config), requested).value == Some(body + Slot(requested));
  }

  lemma {:induction false} ScalarIsClean(v: Json)
    requires !IsObjectLike(v)
    ensures Clean(v)
  {}

  lemma {:induction false} FieldsAreClean(fields: Fields)
    requires forall k :: k in fields ==> !IsSecretName(k) && Clean(fields[k])
    ensures Clean(Object(fields))
  {
    forall path: seq<Step> | At(Object(fields), path).Some? ensures SecretFree(path) {
      if path != [] {
        assert At(fields[path[0].key], path[1..]).Some?;
        assert forall i :: 0 < i < |path| ==> path[i] == path[1..][i - 1];
      }
    }
  }

  lemma {:induction false} DescriptorNamesAreNotSecret(k: string)
    requires k in KNOWN_KEYS || k in KNOWN_SUPPORTS || k == "style"
    ensures !IsSecretName(k)
  {
    assert Lower("schemaVersion") == "schemaversion" && Lower("chatPath") == "chatpath" && Lower("auth") == "auth";
    assert Lower("headers") == "headers" && Lower("streamUsage") == "streamusage" && Lower("supports") == "supports";
    assert Lower("paramMap") == "parammap" && Lower("tools") == "tools" && Lower("toolChoice") == "toolchoice";
    assert Lower("topP") == "topp" && Lower("temperature") == "temperature" && Lower("style") == "style";
  }

  /** Strings that are all in effect, over a base without any, all survived sanitizing. */
  lemma {:induction false} ShownStringsAreClean(declared: Json)
    requires StringsShown(declared, Layered(map[], Entries(Some(Sanitized(declared)))))
    ensures Clean(declared)
  {
    forall k | k in declared.fields ensures !IsSecretName(k) && Clean(declared.fields[k]) {
      assert k in Sanitized(declared).fields;
      ScalarIsClean(declared.fields[k]);
    }
    FieldsAreClean(declared.fields);
  }

  lemma {:induction false} ShownPartsAreClean(declared: Json, supports: Supports, style: AuthStyle)
    ensures SupportsShown(declared, supports) ==> Clean(declared)
    ensures AuthShown(declared, style) ==> Clean(declared)
  {
    if SupportsShown(declared, supports) || AuthShown(declared, style) {
      forall k | k in declared.fields ensures !IsSecretName(k) && Clean(declared.fields[k]) {
        DescriptorNamesAreNotSecret(k);
        ScalarIsClean(declared.fields[k]);
      }
      FieldsAreClean(declared.fields);
    }
  }

  /** A base that declares no header and no parameter. */
  const BARE := ResolvedWire(
    WIRE_SCHEMA_VERSION, None, Bearer, map[], StreamOptions, Supports(true, true, true, true), map[])

  lemma {:induction false} ShownIsClean(wire: Fields, r: ResolvedWire)
    requires r == Overlaid(BARE, SanitizedRecord(wire)) && Shown(wire, BARE, r)
    ensures Clean(Object(wire))
  {
    forall k | k in wire ensures !IsSecretName(k) && Clean(wire[k]) {
      DescriptorNamesAreNotSecret(k);
      assert Field(SanitizedRecord(wire), k) == Some(Sanitized(wire[k]));
      match k
      case "headers" => ShownStringsAreClean(wire[k]);
      case "paramMap" => ShownStringsAreClean(wire[k]);
      case "supports" => ShownPartsAreClean(wire[k], r.supports, r.authStyle);
      case "auth" => ShownPartsAreClean(wire[k], r.supports, r.authStyle);
      case _ => ScalarIsClean(wire[k]);
    }
    FieldsAreClean(wire);
  }

  /**
   * An accepted descriptor takes full effect from what is stored of it, over every base, exactly when nothing in it is
   * secret-named and its `auth` holds nothing beside `style`.
   */
  lemma {:induction false} StoredWireTakesEffect(config: Fields, requested: Requested, wire: Fields)
    requires Written(Some(config), requested).Success? && Field(config, "wire") == Some(Object(wire))
    ensures var stored := Written(Some(config), requested).value;
            (forall base :: Shown(wire, base, Effective(base, stored))) <==> Clean(Object(wire)) && AuthUnderstood(wire)
  {
    var stored := Written(Some(config), requested).value;
    StoredWire(config, requested, wire);
    if Clean(Object(wire)) && AuthUnderstood(wire) {
      CleanIsFixed(Object(wire));
      forall base ensures Shown(wire, base, Effective(base, stored)) {
        FullEffectIffAuthUnderstood(base, wire);
      }
    }
    if forall base :: Shown(wire, base, Effective(base, stored)) {
      assert Shown(wire, BARE, Effective(BARE, stored));
      ShownIsClean(wire, Effective(BARE, stored));
    }
  }

  function TokenHeader(value: string): Fields {
    map["wire" := Object(map["headers" := Object(map["token" := Str(value)])])]
  }

  const NO_HEADERS: Fields := map["headers" := Object(map[])]

  lemma {:induction false} TokenStripped(value: string)
    ensures SanitizedRecord(TokenHeader(value)) == map["wire" := Object(NO_HEADERS)]
  {
    var headers: Fields := map["token" := Str(value)];
    var wire: Fields := map["headers" := Object(headers)];
    assert Lower("token") == "token" && Lower("headers") == "headers" && Lower("wire") == "wire";
    assert SanitizedRecord(headers) == map[];
    assert SanitizedRecord(wire) == NO_HEADERS;
  }

  lemma {:induction false} NothingDeclared(base: ResolvedWire, config: Fields)
    requires config == map["wire" := Object(NO_HEADERS)]
    ensures Problems(Field(config, "wire")) == {} && Resolved(base, [Some(config)]) == base
  {
    assert base.headers + map[] == base.headers && base.paramMap + map[] == base.paramMap;
    KeysAccepted(NO_HEADERS);
    NoProblems(NO_HEADERS);
    assert [Some(config)][..0] == [];
    assert OverlayIn(Some(config)) == NO_HEADERS;
  }

  /** A header with a secret-looking name is stripped before validation, so it is accepted without taking effect. */
  lemma {:induction false} SecretHeaderIsLost(base: ResolvedWire, value: string)
    ensures var stored := Written(Some(TokenHeader(value)), Cleared);
            stored.Success? && Resolved(base, [stored.value]) == base
  {
    TokenStripped(value);
    var body := SanitizedRecord(TokenHeader(value));
    NothingDeclared(base, body);
    assert body - SLOTS == body;
  }
}
