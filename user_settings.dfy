/** User-global settings: the registry of setting keys, validation of a
    value for a key, sanitising a settings file into the two known fields,
    and writing one setting through its mapper. The two mapper classes
    (package manager, notification) are not part of this model: each is a
    record of its target field name, its validator and its transformer. */
module UserSettingsManager {
  import opened Wrappers
  import opened Strings

  /** A JSON value as read from the settings file, as far as the sanitiser
      distinguishes it. */
  datatype Json = JString(s: string) | JBool(b: bool) | JNumber(n: int) | JNull | JOther

  /** The sanitised settings. */
  datatype UserSettings = UserSettings(muteNotification: bool, packageManager: string)

  /** A registered setting: the field it writes, whether a command-line value
      is acceptable, and how that value is stored. */
  datatype Mapper = Mapper(key: string, valueValidator: string -> bool, valueTransformer: string -> Json)

  /** The two registered mappers. */
  datatype Registry = Registry(packageManager: Mapper, notification: Mapper)

  /** `userSettingOptions`: the registered keys, in registration order. */
  const UserSettingOptions: seq<string> := ["package-manager", "mute-notification"]

  /** What `userSettingMappers[key]` gives on the plain object literal:
      a registered mapper, a value inherited from `Object.prototype` (truthy,
      but not a mapper), or nothing. */
  datatype Lookup = Registered(mapper: Mapper) | Inherited | Absent

  /** `userSettingMappers[key]`. */
  function MapperFor(registry: Registry, key: string): (r: Lookup)
    ensures r.Registered? <==> key in UserSettingOptions
    ensures r.Inherited? <==> key in ObjectPrototypeKeys
    ensures key == "package-manager" ==> r == Registered(registry.packageManager)
    ensures key == "mute-notification" ==> r == Registered(registry.notification)
  {
    if key == "package-manager" then Registered(registry.packageManager)
    else if key == "mute-notification" then Registered(registry.notification)
    else if key in ObjectPrototypeKeys then Inherited
    else Absent
  }

  /** The error calling a missing method throws. */
  function NotAFunction(callee: string): string {
    "TypeError: " + callee + " is not a function"
  }

  /** `validateUserSetting`: false for a key with no value, otherwise the
      verdict of that key's validator; an inherited key has no
      `valueValidator`, so calling it throws. */
  function ValidateUserSetting(registry: Registry, key: string, value: string): (r: Result<bool, string>)
    ensures r.Err? <==> key in ObjectPrototypeKeys
    ensures r.Err? ==> r.error == NotAFunction("userSettingMappers[key].valueValidator")
    ensures key !in UserSettingOptions && key !in ObjectPrototypeKeys ==> r == Ok(false)
    ensures key == "package-manager" ==> r == Ok(registry.packageManager.valueValidator(value))
    ensures key == "mute-notification" ==> r == Ok(registry.notification.valueValidator(value))
  {
    match MapperFor(registry, key)
    case Absent => Ok(false)
    case Inherited => Err(NotAFunction("userSettingMappers[key].valueValidator"))
    case Registered(mapper) => Ok(mapper.valueValidator(value))
  }

  /** The settings used when the file says nothing usable. */
  const DefaultSettings: UserSettings := UserSettings(false, "yarn")

  predicate IsPackageManager(s: string) {
    s == "yarn" || s == "npm" || s == "disabled"
  }

  /** `readUserSettingsFrom`: `file` is the parsed settings object, or `None`
      when the file cannot be read or parsed (the error is swallowed). Each
      field is taken from the file only when it holds an accepted value. */
  function ReadUserSettings(file: Option<map<string, Json>>): (r: UserSettings)
    ensures IsPackageManager(r.packageManager)
    ensures file.None? ==> r == DefaultSettings
    ensures file.Some? && "packageManager" in file.value && file.value["packageManager"].JString?
            && IsPackageManager(file.value["packageManager"].s)
            ==> r.packageManager == file.value["packageManager"].s
    ensures !(file.Some? && "packageManager" in file.value && file.value["packageManager"].JString?
              && IsPackageManager(file.value["packageManager"].s))
            ==> r.packageManager == "yarn"
    ensures (file.Some? && "muteNotification" in file.value && file.value["muteNotification"].JBool?)
            ==> r.muteNotification == file.value["muteNotification"].b
    ensures !(file.Some? && "muteNotification" in file.value && file.value["muteNotification"].JBool?)
            ==> !r.muteNotification
  {
    match file
    case None => DefaultSettings
    case Some(json) =>
      var s0 := DefaultSettings;
      var s1 := if "packageManager" in json && json["packageManager"].JString?
                   && IsPackageManager(json["packageManager"].s)
                then s0.(packageManager := json["packageManager"].s) else s0;
      if "muteNotification" in json && json["muteNotification"].JBool?
      then s1.(muteNotification := json["muteNotification"].b) else s1
  }

  /** Sanitising is idempotent: settings that come out of it, written back as
      a file, read back unchanged. */
  lemma ReadUserSettingsIdempotent(file: Option<map<string, Json>>)
    ensures var r := ReadUserSettings(file);
            ReadUserSettings(Some(map["packageManager" := JString(r.packageManager),
                                      "muteNotification" := JBool(r.muteNotification)])) == r
  {
  }

  /** A settings object as `setUserSetting` sees it: field name to value. */
  class SettingsObject {
    var fields: map<string, Json>

    constructor (fields: map<string, Json>)
      ensures this.fields == fields
    {
      this.fields := fields;
    }
  }

  /** `setUserSetting`: a key with no value throws the registration error,
      an inherited key throws when its missing transformer is called; either
      way the settings are left alone. A registered key writes exactly one
      field, the mapper's, with the transformed value. */
  method SetUserSetting(settings: SettingsObject, registry: Registry, key: string, value: string)
    returns (r: Result<(), string>)
    modifies settings
    ensures r.Err? <==> key !in UserSettingOptions
    ensures r.Err? ==> settings.fields == old(settings.fields)
    ensures r.Err? && key !in ObjectPrototypeKeys ==> r.error == "Mapper not registered for provided key: " + key
    ensures r.Err? && key in ObjectPrototypeKeys ==> r.error == NotAFunction("mapper.valueTransformer")
    ensures r.Ok? ==> var mapper := MapperFor(registry, key).mapper;
                      settings.fields == old(settings.fields)[mapper.key := mapper.valueTransformer(value)]
  {
    var mapper := MapperFor(registry, key);
    if mapper.Absent? {
      return Err("Mapper not registered for provided key: " + key);
    }
    if mapper.Inherited? {
      return Err(NotAFunction("mapper.valueTransformer"));
    }
    var realKey := mapper.mapper.key;
    var realValue := mapper.mapper.valueTransformer(value);
    settings.fields := settings.fields[realKey := realValue];
    r := Ok(());
  }
}
