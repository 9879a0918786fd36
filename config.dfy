/**
 * The configuration store of src/config.ts: the default document, the
 * per-section merge of a saved document over the defaults, platform
 * detection, and load/save/backup over a store of two files (the config
 * file and its backup).
 */
module ConfigStore {
  import opened Wrappers
  import opened Types

  const DarwinDefaultSound: string := "/System/Library/Sounds/Glass.aiff"
  const Win32DefaultSound: string := "C:\\Windows\\Media\\Windows Notify.wav"
  const DefaultTitle: string := "AI通知"

  /** A path rooted at `/` or at a drive letter such as `C:\`. */
  predicate IsAbsolute(path: string)
  {
    || (|path| > 0 && path[0] == '/')
    || (|path| >= 3 && 'A' <= path[0] <= 'Z' && path[1] == ':' && path[2] == '\\')
  }

  /** The default sound of each supported platform. */
  const DefaultPaths: PathTable := map[Darwin := DarwinDefaultSound, Win32 := Win32DefaultSound]

  /** Every supported platform has an absolute default sound path. */
  lemma DefaultPathsComplete()
    ensures forall p: Platform :: p in DefaultPaths && IsAbsolute(DefaultPaths[p])
  {
    forall p: Platform ensures p in DefaultPaths && IsAbsolute(DefaultPaths[p]) {
      match p
      case Darwin =>
      case Win32 =>
    }
  }

  /** The hard-coded default document. */
  function GetDefaultConfig(): (c: Config)
    ensures c.sound.useDefault && c.sound.customPath == None
    ensures forall p: Platform :: p in c.sound.defaultPaths && IsAbsolute(c.sound.defaultPaths[p])
    ensures c.sound.defaultPaths[Darwin] == DarwinDefaultSound
    ensures c.sound.defaultPaths[Win32] == Win32DefaultSound
    ensures c.notification.enabled && c.notification.defaultTitle == DefaultTitle
  {
    DefaultPathsComplete();
    Config(
      SoundConfig(None, true, DefaultPaths),
      NotificationConfig(true, DefaultTitle))
  }

  // ---------------------------------------------------------------------
  // The document as read back from disk
  // ---------------------------------------------------------------------

  /** A `sound` section read from the file: any of its fields may be missing. */
  datatype SoundSection = SoundSection(customPath: Option<string>, useDefault: Option<bool>, defaultPaths: Option<PathTable>)

  /** A `notification` section read from the file: either field may be missing. */
  datatype NotificationSection = NotificationSection(enabled: Option<bool>, defaultTitle: Option<string>)

  /** A parsed config file (`Partial<Config>`): either section may be missing. */
  datatype Document = Document(sound: Option<SoundSection>, notification: Option<NotificationSection>)

  /**
   * The text of a file, abstracted: either a JSON document of the
   * configuration's shape, or text that JSON parsing rejects with the
   * given diagnostic.
   */
  datatype Text = Json(doc: Document) | Malformed(diagnostic: string)

  /** The document that serializing `c` writes: every field, and `customPath` only when set. */
  function SavedDocument(c: Config): Document
  {
    Document(
      Some(SoundSection(c.sound.customPath, Some(c.sound.useDefault), Some(c.sound.defaultPaths))),
      Some(NotificationSection(Some(c.notification.enabled), Some(c.notification.defaultTitle))))
  }

  /** Parsing a file's text; a failure carries the rendered syntax error. */
  function Parse(t: Text): (r: Result<Document, string>)
    ensures r.Err? <==> t.Malformed?
    ensures t.Json? ==> r == Ok(t.doc)
    ensures t.Malformed? ==> r == Err("SyntaxError: " + t.diagnostic)
  {
    match t
    case Json(doc) => Ok(doc)
    case Malformed(diagnostic) => Err("SyntaxError: " + diagnostic)
  }

  /** Serializing a configuration; parsing the text gives back the saved document. */
  function Serialize(c: Config): (t: Text)
    ensures Parse(t) == Ok(SavedDocument(c))
  {
    Json(SavedDocument(c))
  }

  // ---------------------------------------------------------------------
  // Merge
  // ---------------------------------------------------------------------

  /** An object spread of one field: the supplied value if present, else the default. */
  function Spread<T>(supplied: Option<T>, dflt: T): T
  {
    if supplied.Some? then supplied.value else dflt
  }

  /** A merged field: a supplied value wins, an omitted one keeps the default. */
  ghost predicate Overrides<T>(supplied: Option<T>, dflt: T, merged: T)
  {
    (supplied.Some? ==> merged == supplied.value) && (supplied.None? ==> merged == dflt)
  }

  ghost predicate SoundMerged(u: SoundSection, d: SoundConfig, r: SoundConfig)
  {
    && (u.customPath.Some? ==> r.customPath == u.customPath)
    && (u.customPath.None? ==> r.customPath == d.customPath)
    && Overrides(u.useDefault, d.useDefault, r.useDefault)
    && Overrides(u.defaultPaths, d.defaultPaths, r.defaultPaths)
  }

  ghost predicate NotificationMerged(u: NotificationSection, d: NotificationConfig, r: NotificationConfig)
  {
    && Overrides(u.enabled, d.enabled, r.enabled)
    && Overrides(u.defaultTitle, d.defaultTitle, r.defaultTitle)
  }

  /**
   * The shallow, per-section merge of a saved document over the defaults:
   * within each section every supplied field wins and every omitted field
   * keeps the default; a missing section is the default section.
   */
  function MergeConfig(d: Config, u: Document): (r: Config)
    ensures u.sound.None? ==> r.sound == d.sound
    ensures u.sound.Some? ==> SoundMerged(u.sound.value, d.sound, r.sound)
    ensures u.notification.None? ==> r.notification == d.notification
    ensures u.notification.Some? ==> NotificationMerged(u.notification.value, d.notification, r.notification)
  {
    var sound :=
      match u.sound
      case None => d.sound
      case Some(s) =>
        SoundConfig(
          if s.customPath.Some? then s.customPath else d.sound.customPath,
          Spread(s.useDefault, d.sound.useDefault),
          Spread(s.defaultPaths, d.sound.defaultPaths));
    var notification :=
      match u.notification
      case None => d.notification
      case Some(n) =>
        NotificationConfig(Spread(n.enabled, d.notification.enabled), Spread(n.defaultTitle, d.notification.defaultTitle));
    Config(sound, notification)
  }

  /** Merging a complete saved document over the defaults gives that document back. */
  lemma MergeSavedIsIdentity(c: Config)
    ensures MergeConfig(GetDefaultConfig(), SavedDocument(c)) == c
  {
  }

  /** A document with neither section merges to the defaults. */
  lemma MergeEmptyIsDefault(d: Config)
    ensures MergeConfig(d, Document(None, None)) == d
  {
  }

  /**
   * The merge is shallow: a saved `defaultPaths` table replaces the default
   * table wholesale, so a table that names only darwin loses the win32 entry.
   */
  lemma MergeReplacesPathTable(darwinPath: string)
    ensures var r := MergeConfig(GetDefaultConfig(), Document(Some(SoundSection(None, None, Some(map[Darwin := darwinPath]))), None));
      && r.sound.defaultPaths == map[Darwin := darwinPath]
      && Win32 !in r.sound.defaultPaths
      && r.sound.useDefault
      && r.notification == GetDefaultConfig().notification
  {
  }

  // ---------------------------------------------------------------------
  // Platform
  // ---------------------------------------------------------------------

  /** The current platform, given what the operating system reports. */
  function GetCurrentPlatform(os: string): (r: Result<Platform, string>)
    ensures r.Ok? <==> os == "darwin" || os == "win32"
    ensures r.Ok? ==> PlatformName(r.value) == os
    ensures r.Err? ==> r.error == "Unsupported platform: " + os
  {
    if os == "darwin" then Ok(Darwin)
    else if os == "win32" then Ok(Win32)
    else Err("Unsupported platform: " + os)
  }

  /** The default sound of the current platform, looked up in the default document. */
  function GetDefaultSoundPath(os: string): (r: Result<string, string>)
    ensures r.Ok? <==> GetCurrentPlatform(os).Ok?
    ensures r.Ok? ==> r.value == GetDefaultConfig().sound.defaultPaths[GetCurrentPlatform(os).value]
    ensures r.Ok? ==> IsAbsolute(r.value)
    ensures r.Err? ==> r.error == "Unsupported platform: " + os
  {
    var config := GetDefaultConfig();
    match GetCurrentPlatform(os)
    case Err(e) => Err(e)
    case Ok(p) => Ok(config.sound.defaultPaths[p])
  }

  // ---------------------------------------------------------------------
  // The two-file store
  // ---------------------------------------------------------------------

  /** The contents of the config file and of the backup file; None when absent. */
  datatype Disk = Disk(config: Option<Text>, backup: Option<Text>)

  /**
   * What the file system does on one call, each as the rendered error when
   * that step fails: reading an existing config file, checking and copying
   * it to the backup path, and writing the config file.
   */
  datatype IoFaults = IoFaults(readError: Option<string>, backupError: Option<string>, writeError: Option<string>)

  /** The store's own failures, each wrapping the rendered underlying error. */
  datatype ConfigError = LoadFailed(cause: string) | SaveFailed(cause: string)

  /** The message of the store's error: its prefix, then the rendered cause. */
  function Message(e: ConfigError): (m: string)
    ensures e.LoadFailed? ==> m == "Failed to load config: " + e.cause
    ensures e.SaveFailed? ==> m == "Failed to save config: " + e.cause
    ensures |m| > |e.cause| && m[|m| - |e.cause|..] == e.cause
  {
    match e
    case LoadFailed(cause) => "Failed to load config: " + cause
    case SaveFailed(cause) => "Failed to save config: " + cause
  }

  /** The result of an operation together with the disk it leaves behind. */
  datatype After<R> = After(result: R, disk: Disk)

  /**
   * Backup: copy the config file over the backup file when the config file
   * exists. A missing file is a no-op and every other failure is only
   * logged, so backup never fails and never touches the config file.
   */
  function BackupEffect(d: Disk, f: IoFaults): (d': Disk)
    ensures d'.config == d.config
    ensures d.config.None? ==> d' == d
    ensures d.config.Some? && f.backupError.None? ==> d'.backup == d.config
    ensures f.backupError.Some? ==> d' == d
  {
    match d.config
    case None => d
    case Some(_) => if f.backupError.Some? then d else d.(backup := d.config)
  }

  /**
   * Save: back up first, then overwrite the config file with the serialized
   * configuration; only a failed write fails the save.
   */
  function SaveEffect(d: Disk, c: Config, f: IoFaults): (r: After<Outcome<ConfigError>>)
    ensures r.result.Pass? <==> f.writeError.None?
    ensures r.result.Fail? ==> r.result.error == SaveFailed(f.writeError.value)
    ensures r.result.Fail? ==> Message(r.result.error) == "Failed to save config: " + f.writeError.value
    ensures r.result.Pass? ==> r.disk.config == Some(Serialize(c))
    ensures r.result.Fail? ==> r.disk.config == d.config
    ensures r.disk.backup == BackupEffect(d, f).backup
  {
    var backedUp := BackupEffect(d, f);
    match f.writeError
    case Some(e) => After(Fail(SaveFailed(e)), backedUp)
    case None => After(Pass, backedUp.(config := Some(Serialize(c))))
  }

  /**
   * Load: a missing config file is healed by saving the defaults (a failure
   * of that save escapes as it is); an existing file is only read, and a
   * read or parse failure is a load failure; otherwise the parsed document
   * is merged over the defaults.
   */
  function LoadEffect(d: Disk, f: IoFaults): (r: After<Result<Config, ConfigError>>)
    ensures d.config.None? && f.writeError.None? ==>
      r == After(Ok(GetDefaultConfig()), d.(config := Some(Serialize(GetDefaultConfig()))))
    ensures d.config.None? && f.writeError.Some? ==> r == After(Err(SaveFailed(f.writeError.value)), d)
    ensures d.config.None? && f.writeError.Some? ==> Message(r.result.error) == "Failed to save config: " + f.writeError.value
    ensures d.config.Some? ==> r.disk == d
    ensures d.config.Some? ==> (r.result.Ok? <==> f.readError.None? && d.config.value.Json?)
    ensures d.config.Some? && r.result.Err? ==> r.result.error.LoadFailed?
    ensures d.config.Some? && f.readError.Some? ==> Message(r.result.error) == "Failed to load config: " + f.readError.value
    ensures d.config.Some? && f.readError.None? && d.config.value.Malformed? ==>
      Message(r.result.error) == "Failed to load config: SyntaxError: " + d.config.value.diagnostic
    ensures d.config.Some? && r.result.Ok? ==> r.result.value == MergeConfig(GetDefaultConfig(), d.config.value.doc)
  {
    match d.config
    case None =>
      var saved := SaveEffect(d, GetDefaultConfig(), f);
      if saved.result.Fail? then After(Err(saved.result.error), saved.disk)
      else After(Ok(GetDefaultConfig()), saved.disk)
    case Some(text) =>
      if f.readError.Some? then After(Err(LoadFailed(f.readError.value)), d)
      else
        match Parse(text)
        case Err(e) => After(Err(LoadFailed(e)), d)
        case Ok(doc) => After(Ok(MergeConfig(GetDefaultConfig(), doc)), d)
  }

  /** A successful save followed by a load that can read the file gives back what was saved. */
  lemma SaveThenLoad(d: Disk, c: Config, f: IoFaults, g: IoFaults)
    requires SaveEffect(d, c, f).result.Pass?
    requires g.readError.None?
    ensures var saved := SaveEffect(d, c, f).disk;
      LoadEffect(saved, g) == After(Ok(c), saved)
  {
  }

  /** Self-healing is idempotent: after a load created the file, the next load returns the same defaults and writes nothing. */
  lemma SelfHealIsIdempotent(d: Disk, f: IoFaults, g: IoFaults)
    requires d.config.None? && f.writeError.None? && g.readError.None?
    ensures var first := LoadEffect(d, f);
      && first.result == Ok(GetDefaultConfig())
      && LoadEffect(first.disk, g) == After(Ok(GetDefaultConfig()), first.disk)
  {
  }

  /** Two successful saves leave the second configuration in the config file and the first in the backup. */
  lemma SecondSaveBacksUpFirst(d: Disk, c1: Config, c2: Config, f: IoFaults)
    requires f.backupError.None? && f.writeError.None?
    ensures SaveEffect(SaveEffect(d, c1, f).disk, c2, f).disk == Disk(Some(Serialize(c2)), Some(Serialize(c1)))
  {
  }

  /** FileConfigManager: the store as an object over the two files it owns. */
  class FileConfigManager {
    var configFile: Option<Text>
    var backupFile: Option<Text>

    function State(): Disk
      reads this
    {
      Disk(configFile, backupFile)
    }

    constructor (initial: Disk)
      ensures State() == initial
    {
      configFile := initial.config;
      backupFile := initial.backup;
    }

    method Backup(f: IoFaults)
      modifies this
      ensures State() == BackupEffect(old(State()), f)
    {
      if configFile.Some? && f.backupError.None? {
        backupFile := configFile;
      }
    }

    method Save(c: Config, f: IoFaults) returns (r: Outcome<ConfigError>)
      modifies this
      ensures After(r, State()) == SaveEffect(old(State()), c, f)
    {
      Backup(f);
      var data := Serialize(c);
      if f.writeError.Some? {
        return Fail(SaveFailed(f.writeError.value));
      }
      configFile := Some(data);
      r := Pass;
    }

    method Load(f: IoFaults) returns (r: Result<Config, ConfigError>)
      modifies this
      ensures After(r, State()) == LoadEffect(old(State()), f)
    {
      if configFile.None? {
        var defaults := GetDefaultConfig();
        var saved := Save(defaults, f);
        if saved.Fail? {
          return Err(saved.error);
        }
        return Ok(defaults);
      }
      if f.readError.Some? {
        return Err(LoadFailed(f.readError.value));
      }
      var parsed := Parse(configFile.value);
      if parsed.Err? {
        return Err(LoadFailed(parsed.error));
      }
      r := Ok(MergeConfig(GetDefaultConfig(), parsed.value));
    }
  }
}
