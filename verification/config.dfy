/**
 * The application's settings record: its defaults, its dictionary view
 * (`asdict`), its construction from keyword values, the merge of a
 * dictionary of updates into it, and the reading of a stored record.
 * Reading and writing the settings file are not modelled; what reading
 * produced arrives as a `StoredConfig`: the decoded JSON object, or the way
 * reading it went wrong.
 */
module Config {
  import opened Wrappers

  /** A settings value as a dictionary holds it (a JSON scalar). */
  datatype Value = Str(s: string) | Int(i: int) | Bool(b: bool) | Null

  /** The shape of value each field holds. */
  datatype Kind = StrKind | IntKind | BoolKind | OptionalBoolKind

  /** The settings record. `manualOverride == None` means: follow the schedule. */
  datatype AppConfig = AppConfig(
    locationMode: string,
    manualLocation: string,
    nightLightStrength: int,
    transitionMinutes: int,
    scheduleIntervalMinutes: int,
    dryRun: bool,
    startAtLogin: bool,
    manualOverride: Option<bool>)

  /**
   * Why a record cannot be built: keywords that name no field (the
   * constructor's TypeError), or values of the wrong shape for their field.
   * The sets of names are this model's error value; the TypeError's message
   * names only the first unexpected keyword, and no caller reads it.
   */
  datatype ConfigError = UnexpectedKeyword(names: set<string>) | WrongType(names: set<string>)

  /** The record every field's default makes up. */
  const DefaultConfig: AppConfig :=
    AppConfig("auto", "", 50, 10, 5, true, false, None)

  /** The record's fields by their keyword name, with the shape each holds. */
  const FieldKinds: map<string, Kind> := map[
    "location_mode" := StrKind,
    "manual_location" := StrKind,
    "night_light_strength" := IntKind,
    "transition_minutes" := IntKind,
    "schedule_interval_minutes" := IntKind,
    "dry_run" := BoolKind,
    "start_at_login" := BoolKind,
    "manual_override" := OptionalBoolKind]

  predicate Fits(k: Kind, v: Value) {
    match k
    case StrKind => v.Str?
    case IntKind => v.Int?
    case BoolKind => v.Bool?
    case OptionalBoolKind => v.Bool? || v.Null?
  }

  /** Keyword values a record can be built from: known fields, each with a fitting value. */
  predicate WellFormed(data: map<string, Value>) {
    && data.Keys <= FieldKinds.Keys
    && forall name :: name in data ==> Fits(FieldKinds[name], data[name])
  }

  function OptionalBool(b: Option<bool>): Value {
    match b
    case Some(x) => Bool(x)
    case None => Null
  }

  /** The dictionary view of a record, one entry per field. */
  function AsDict(c: AppConfig): (d: map<string, Value>)
    ensures d.Keys == FieldKinds.Keys
    ensures WellFormed(d)
  {
    map[
      "location_mode" := Str(c.locationMode),
      "manual_location" := Str(c.manualLocation),
      "night_light_strength" := Int(c.nightLightStrength),
      "transition_minutes" := Int(c.transitionMinutes),
      "schedule_interval_minutes" := Int(c.scheduleIntervalMinutes),
      "dry_run" := Bool(c.dryRun),
      "start_at_login" := Bool(c.startAtLogin),
      "manual_override" := OptionalBool(c.manualOverride)]
  }

  function StrField(data: map<string, Value>, name: string, default: string): string {
    if name in data && data[name].Str? then data[name].s else default
  }

  function IntField(data: map<string, Value>, name: string, default: int): int {
    if name in data && data[name].Int? then data[name].i else default
  }

  function BoolField(data: map<string, Value>, name: string, default: bool): bool {
    if name in data && data[name].Bool? then data[name].b else default
  }

  function OptionalBoolField(data: map<string, Value>, name: string, default: Option<bool>): Option<bool> {
    if name in data && data[name].Bool? then Some(data[name].b)
    else if name in data && data[name].Null? then None
    else default
  }

  /**
   * Build a record from keyword values: a field given a value takes it, a
   * field not given keeps its default, and a keyword that names no field
   * makes construction fail.
   */
  function Construct(data: map<string, Value>): (r: Result<AppConfig, ConfigError>)
    ensures r.Success? <==> WellFormed(data)
    ensures !(data.Keys <= FieldKinds.Keys) ==> r == Failure(UnexpectedKeyword(data.Keys - FieldKinds.Keys))
  {
    var unknown := data.Keys - FieldKinds.Keys;
    var illTyped := set name | name in data && name in FieldKinds && !Fits(FieldKinds[name], data[name]);
    if unknown != {} then Failure(UnexpectedKeyword(unknown))
    else
      assert data.Keys <= FieldKinds.Keys by {
        forall name | name in data ensures name in FieldKinds {
          assert name !in unknown;
        }
      }
      if illTyped != {} then Failure(WrongType(illTyped))
      else
      assert WellFormed(data) by {
        forall name | name in data ensures Fits(FieldKinds[name], data[name]) {
          assert name !in illTyped;
        }
      }
      Success(Build(data))
  }

  /** The record whose every field takes its given value, or its default when none is given. */
  function Build(data: map<string, Value>): AppConfig {
    var d := DefaultConfig;
    AppConfig(
      StrField(data, "location_mode", d.locationMode),
      StrField(data, "manual_location", d.manualLocation),
      IntField(data, "night_light_strength", d.nightLightStrength),
      IntField(data, "transition_minutes", d.transitionMinutes),
      IntField(data, "schedule_interval_minutes", d.scheduleIntervalMinutes),
      BoolField(data, "dry_run", d.dryRun),
      BoolField(data, "start_at_login", d.startAtLogin),
      OptionalBoolField(data, "manual_override", d.manualOverride))
  }

  /**
   * Merge updates into a record: the record's dictionary view, overwritten
   * by the updates, is built into a new record.
   */
  function UpdateConfig(c: AppConfig, updates: map<string, Value>): (r: Result<AppConfig, ConfigError>)
    ensures r.Success? <==> WellFormed(updates)
    ensures !(updates.Keys <= FieldKinds.Keys) ==>
      r == Failure(UnexpectedKeyword(updates.Keys - FieldKinds.Keys))
  {
    MergeIntoCompleteDict(AsDict(c), updates);
    Construct(AsDict(c) + updates)
  }

  /**
   * What reading the settings file yields before a record is built: no
   * file, an `OSError`, a `JSONDecodeError`, a file whose bytes are not
   * UTF-8 text (a `UnicodeDecodeError`), a JSON value that is not an
   * object, or the decoded object.
   */
  datatype StoredConfig =
    | Missing
    | ReadError
    | NotJson
    | NotText
    | NotAnObject
    | Decoded(raw: map<string, Value>)

  /** The one reading failure that `load_config` does not catch and lets escape. */
  datatype LoadError = UndecodableText

  /**
   * The record read from storage: a missing file, a read error, invalid
   * JSON, a JSON value that is not an object, or a stored object that
   * cannot be built into a record all yield the defaults. Undecodable text
   * is not caught and escapes as an error.
   */
  function LoadConfig(stored: StoredConfig): (r: Result<AppConfig, LoadError>)
    ensures r.Failure? <==> stored.NotText?
    ensures stored.Missing? || stored.ReadError? || stored.NotJson? || stored.NotAnObject? ==>
      r == Success(DefaultConfig)
    ensures stored.Decoded? && !WellFormed(stored.raw) ==> r == Success(DefaultConfig)
    ensures stored.Decoded? && WellFormed(stored.raw) ==> r == Success(Construct(stored.raw).value)
  {
    match stored
    case NotText => Failure(UndecodableText)
    case Decoded(raw) => Success(Construct(raw).GetOr(DefaultConfig))
    case _ => Success(DefaultConfig)
  }

  /**
   * Overwriting a dictionary that names every field: the result is
   * well-formed exactly when the updates are, and its unknown keys are
   * those of the updates.
   */
  lemma MergeIntoCompleteDict(base: map<string, Value>, updates: map<string, Value>)
    requires base.Keys == FieldKinds.Keys && WellFormed(base)
    ensures WellFormed(base + updates) <==> WellFormed(updates)
    ensures (base + updates).Keys - FieldKinds.Keys == updates.Keys - FieldKinds.Keys
  {
  }

  /** Overwriting with a dictionary that covers every key leaves only the overwriting one. */
  lemma OverwriteCovered(a: map<string, Value>, b: map<string, Value>)
    requires a.Keys <= b.Keys
    ensures a + b == b
  {
  }

  /** Overwriting twice is overwriting once with the merged updates. */
  lemma OverwriteAssociative(m: map<string, Value>, u1: map<string, Value>, u2: map<string, Value>)
    ensures (m + u1) + u2 == m + (u1 + u2)
  {
  }

  // ---------------------------------------------------------------------
  // The dictionary view and construction are inverse

  /** Two records with the same dictionary view are the same record. */
  lemma AsDictInjective(a: AppConfig, b: AppConfig)
    requires AsDict(a) == AsDict(b)
    ensures a == b
  {
    var d := AsDict(a);
    assert d["location_mode"] == AsDict(b)["location_mode"];
    assert d["manual_location"] == AsDict(b)["manual_location"];
    assert d["night_light_strength"] == AsDict(b)["night_light_strength"];
    assert d["transition_minutes"] == AsDict(b)["transition_minutes"];
    assert d["schedule_interval_minutes"] == AsDict(b)["schedule_interval_minutes"];
    assert d["dry_run"] == AsDict(b)["dry_run"];
    assert d["start_at_login"] == AsDict(b)["start_at_login"];
    assert d["manual_override"] == AsDict(b)["manual_override"];
  }

  /** Building a record from no keyword values gives the defaults. */
  lemma ConstructNoKeywords()
    ensures Construct(map[]) == Success(DefaultConfig)
  {
  }

  /** Building a record from its own dictionary view gives it back. */
  lemma ConstructAsDict(c: AppConfig)
    ensures Construct(AsDict(c)) == Success(c)
  {
  }

  /**
   * A built record's dictionary view is the defaults' view overwritten by
   * the keyword values it was built from.
   */
  lemma AsDictConstruct(data: map<string, Value>)
    requires WellFormed(data)
    ensures Construct(data).Success?
    ensures AsDict(Construct(data).value) == AsDict(DefaultConfig) + data
  {
    ConstructWellFormed(data);
    AsDictBuild(data);
  }

  /** Well-formed keyword values pass both of construction's checks. */
  lemma ConstructWellFormed(data: map<string, Value>)
    requires WellFormed(data)
    ensures Construct(data) == Success(Build(data))
  {
  }

  /** Each field of the built record shows the given value, or the default's. */
  lemma AsDictBuild(data: map<string, Value>)
    requires WellFormed(data)
    ensures AsDict(Build(data)) == AsDict(DefaultConfig) + data
  {
    var built := AsDict(Build(data));
    var expected := AsDict(DefaultConfig) + data;
    var d := DefaultConfig;
    StrFieldTakesGiven(data, "location_mode", d.locationMode);
    StrFieldTakesGiven(data, "manual_location", d.manualLocation);
    IntFieldTakesGiven(data, "night_light_strength", d.nightLightStrength);
    IntFieldTakesGiven(data, "transition_minutes", d.transitionMinutes);
    IntFieldTakesGiven(data, "schedule_interval_minutes", d.scheduleIntervalMinutes);
    BoolFieldTakesGiven(data, "dry_run", d.dryRun);
    BoolFieldTakesGiven(data, "start_at_login", d.startAtLogin);
    OptionalBoolFieldTakesGiven(data, "manual_override", d.manualOverride);
    DictsAgreeingOnFieldsAreEqual(built, expected);
  }

  /** Two dictionaries over exactly the field names are equal when they agree on each field. */
  lemma DictsAgreeingOnFieldsAreEqual(a: map<string, Value>, b: map<string, Value>)
    requires a.Keys == FieldKinds.Keys && b.Keys == FieldKinds.Keys
    requires a["location_mode"] == b["location_mode"]
    requires a["manual_location"] == b["manual_location"]
    requires a["night_light_strength"] == b["night_light_strength"]
    requires a["transition_minutes"] == b["transition_minutes"]
    requires a["schedule_interval_minutes"] == b["schedule_interval_minutes"]
    requires a["dry_run"] == b["dry_run"]
    requires a["start_at_login"] == b["start_at_login"]
    requires a["manual_override"] == b["manual_override"]
    ensures a == b
  {
    forall name | name in a ensures a[name] == b[name] {
      assert name in FieldKinds.Keys;
    }
  }

  lemma StrFieldTakesGiven(data: map<string, Value>, name: string, default: string)
    requires WellFormed(data) && name in FieldKinds && FieldKinds[name] == StrKind
    ensures Str(StrField(data, name, default)) == if name in data then data[name] else Str(default)
  {
  }

  lemma IntFieldTakesGiven(data: map<string, Value>, name: string, default: int)
    requires WellFormed(data) && name in FieldKinds && FieldKinds[name] == IntKind
    ensures Int(IntField(data, name, default)) == if name in data then data[name] else Int(default)
  {
  }

  lemma BoolFieldTakesGiven(data: map<string, Value>, name: string, default: bool)
    requires WellFormed(data) && name in FieldKinds && FieldKinds[name] == BoolKind
    ensures Bool(BoolField(data, name, default)) == if name in data then data[name] else Bool(default)
  {
  }

  lemma OptionalBoolFieldTakesGiven(data: map<string, Value>, name: string, default: Option<bool>)
    requires WellFormed(data) && name in FieldKinds && FieldKinds[name] == OptionalBoolKind
    ensures OptionalBool(OptionalBoolField(data, name, default))
              == if name in data then data[name] else OptionalBool(default)
  {
  }

  // ---------------------------------------------------------------------
  // Merging updates

  /** After a merge, the record's dictionary view is the old view overwritten by the updates. */
  lemma UpdateConfigMerges(c: AppConfig, updates: map<string, Value>)
    requires WellFormed(updates)
    ensures UpdateConfig(c, updates).Success?
    ensures AsDict(UpdateConfig(c, updates).value) == AsDict(c) + updates
  {
    MergeIntoCompleteDict(AsDict(c), updates);
    AsDictConstruct(AsDict(c) + updates);
    OverwriteCovered(AsDict(DefaultConfig), AsDict(c) + updates);
  }

  /** Every field named in the updates takes the value given; every other field keeps its value. */
  lemma UpdateConfigFieldwise(c: AppConfig, updates: map<string, Value>, name: string)
    requires WellFormed(updates) && name in FieldKinds
    ensures UpdateConfig(c, updates).Success?
    ensures name in updates ==> AsDict(UpdateConfig(c, updates).value)[name] == updates[name]
    ensures name !in updates ==> AsDict(UpdateConfig(c, updates).value)[name] == AsDict(c)[name]
  {
    UpdateConfigMerges(c, updates);
  }

  /** Merging no updates changes nothing. */
  lemma UpdateConfigEmpty(c: AppConfig)
    ensures UpdateConfig(c, map[]) == Success(c)
  {
  }

  /** Merging the same updates a second time changes nothing more. */
  lemma UpdateConfigIdempotent(c: AppConfig, updates: map<string, Value>)
    requires WellFormed(updates)
    ensures UpdateConfig(c, updates).Success?
    ensures UpdateConfig(UpdateConfig(c, updates).value, updates) == UpdateConfig(c, updates)
  {
    UpdateConfigMerges(c, updates);
    OverwriteAssociative(AsDict(c), updates, updates);
    assert updates + updates == updates;
  }

  /** Two merges in a row are one merge of the first updates overwritten by the second. */
  lemma UpdateConfigSequential(c: AppConfig, u1: map<string, Value>, u2: map<string, Value>)
    requires WellFormed(u1)
    ensures UpdateConfig(c, u1).Success?
    ensures UpdateConfig(UpdateConfig(c, u1).value, u2) == UpdateConfig(c, u1 + u2)
  {
    UpdateConfigMerges(c, u1);
    OverwriteAssociative(AsDict(c), u1, u2);
  }

  // ---------------------------------------------------------------------
  // Reading the stored record

  /** Storing a record's dictionary view and reading it back gives the record. */
  lemma LoadSavedConfig(c: AppConfig)
    ensures LoadConfig(Decoded(AsDict(c))) == Success(c)
  {
  }

  /** A well-formed stored dictionary reads as the defaults overwritten by it. */
  lemma LoadConfigWellFormed(raw: map<string, Value>)
    requires WellFormed(raw)
    ensures LoadConfig(Decoded(raw)).Success?
    ensures AsDict(LoadConfig(Decoded(raw)).value) == AsDict(DefaultConfig) + raw
  {
    AsDictConstruct(raw);
  }
}
