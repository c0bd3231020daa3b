/** The persisted settings record and the file store it lives in.

    The file system is a map from path to what the file holds: a record that
    parses, or text that does not. `readOnly` holds the paths at which nothing
    can be written: creating, opening for writing, or renaming onto such a path
    fails. JSON encoding is abstracted away: a file holds the record itself. */
module ConfigFile {
  import opened Wrappers
  import opened Text

  /** The settings record. `nextId` is the single pending-task pointer. */
  datatype Config = Config(
    token: string,
    projects: map<string, U32>,
    path: string,
    nextId: Option<string>,
    timezone: Option<string>,
    lastVersionCheck: Option<string>)

  datatype Entry = Stored(config: Config) | Unparsable

  const CONFIG_FILE_NAME := "tod.cfg"
  const LEGACY_FILE_NAME := ".tod.cfg"

  const NO_CONFIG_DIR := "Could not find config directory"
  const NO_HOME_DIR := "Could not find home directory"
  const CREATE_ERROR := "Could not create file"
  const SAVE_ERROR := "Could not find config"
  const LOAD_MISSING := "Could not find file"
  const LOAD_PARSE_ERROR := "Could not parse JSON"
  const INPUT_ERROR := "error: unable to read user input"
  const TIMEZONE_PARSE_ERROR := "Could not parse string into number"
  /** The operating system's text for a rename that is refused. */
  const RENAME_DENIED := "Permission denied (os error 13)"
  const RENAME_MISSING := "No such file or directory (os error 2)"
  const DONE := "✓"

  /** What the program finds around it: the config and home directories the
      `dirs` crate reports, the lines the user types at the two prompts (None
      when reading stdin fails), and the timezone list of `time::get_timezone`,
      which is not part of this model. */
  datatype Environment = Environment(
    configDir: Option<string>,
    homeDir: Option<string>,
    tokenLine: Option<string>,
    timezoneLine: Option<string>,
    zoneName: nat -> string)

  /** `generate_path`: the config file inside the config directory. */
  function GeneratePath(env: Environment): (r: Result<string>)
    ensures env.configDir.None? ==> r == Err(NO_CONFIG_DIR)
    ensures env.configDir.Some? ==> r == Ok(env.configDir.value + "/" + CONFIG_FILE_NAME)
  {
    match env.configDir
    case None => Err(NO_CONFIG_DIR)
    case Some(dir) => Ok(dir + "/" + CONFIG_FILE_NAME)
  }

  /** `generate_legacy_path`: the hidden file in the home directory that
      earlier versions used. */
  function GenerateLegacyPath(env: Environment): (r: Result<string>)
    ensures env.homeDir.None? ==> r == Err(NO_HOME_DIR)
    ensures env.homeDir.Some? ==> r == Ok(env.homeDir.value + "/" + LEGACY_FILE_NAME)
  {
    match env.homeDir
    case None => Err(NO_HOME_DIR)
    case Some(dir) => Ok(dir + "/" + LEGACY_FILE_NAME)
  }

  /** `get_input`: the line typed, trimmed, or the read failure. */
  function GetInput(line: Option<string>): (r: Result<string>)
    ensures line.None? <==> r == Err(INPUT_ERROR)
    ensures line.Some? ==> r == Ok(Trim(line.value))
  {
    match line
    case None => Err(INPUT_ERROR)
    case Some(l) => Ok(Trim(l))
  }

  lemma GetInputIsTrimmed(line: string)
    ensures GetInput(Some(line)).Ok?
    ensures Trim(GetInput(Some(line)).value) == GetInput(Some(line)).value
  {
    TrimIdempotent(line);
  }

  // ---------------------------------------------------------------------------
  // Whole-record updates

  /** `Config::new`: a fresh record for `token` at the generated path. */
  function New(token: string, generatedPath: Result<string>): (r: Result<Config>)
    ensures generatedPath.Err? ==> r == Err(generatedPath.error)
    ensures generatedPath.Ok? ==> r.Ok? && r.value.path == generatedPath.value
    ensures r.Ok? ==> r.value.token == token && r.value.projects == map[]
                      && r.value.nextId.None? && r.value.timezone.None?
                      && r.value.lastVersionCheck.None?
  {
    match generatedPath
    case Err(e) => Err(e)
    case Ok(path) => Ok(Config(token, map[], path, None, None, None))
  }

  /** `set_path`: only the path changes. */
  function SetPath(c: Config, path: string): (r: Config)
    ensures r.path == path
    ensures r.(path := c.path) == c
  {
    c.(path := path)
  }

  /** `set_next_id`: the pointer is `id` whatever it was before; nothing else
      changes. */
  function SetNextId(c: Config, id: string): (r: Config)
    ensures r.nextId == Some(id)
    ensures r.(nextId := c.nextId) == c
  {
    c.(nextId := Some(id))
  }

  /** `clear_next_id`: no pointer afterwards; nothing else changes. */
  function ClearNextId(c: Config): (r: Config)
    ensures r.nextId.None?
    ensures r.(nextId := c.nextId) == c
  {
    c.(nextId := None)
  }

  /** There is one pointer: a second selection overwrites the first. */
  lemma PointerOverwritten(c: Config, first: string, second: string)
    ensures SetNextId(SetNextId(c, first), second) == SetNextId(c, second)
  {
  }

  /** Clearing forgets whatever was selected. */
  lemma ClearForgetsSelection(c: Config, id: string)
    ensures ClearNextId(SetNextId(c, id)) == ClearNextId(c)
    ensures ClearNextId(ClearNextId(c)) == ClearNextId(c)
  {
  }

  lemma SetPathIdentity(c: Config)
    ensures SetPath(c, c.path) == c
  {
  }

  // ---------------------------------------------------------------------------
  // The timezone prompt

  /** The timezone `check_for_timezone` obtains: the number typed, parsed as a
      `usize`, looked up in the timezone list. */
  function TimezoneChoice(env: Environment): (r: Result<string>)
    ensures env.timezoneLine.None? ==> r == Err(INPUT_ERROR)
    ensures env.timezoneLine.Some? ==>
      var n := ParseUnsigned(Trim(env.timezoneLine.value), USIZE_BOUND);
      r == if n.None? then Err(TIMEZONE_PARSE_ERROR) else Ok(env.zoneName(n.value))
  {
    match GetInput(env.timezoneLine)
    case Err(e) => Err(e)
    case Ok(text) =>
      match ParseUnsigned(text, USIZE_BOUND)
      case None => Err(TIMEZONE_PARSE_ERROR)
      case Some(n) => Ok(env.zoneName(n))
  }

  // ---------------------------------------------------------------------------
  // The file store

  class FileSystem {
    var files: map<string, Entry>
    var readOnly: set<string>

    constructor (files: map<string, Entry>, readOnly: set<string>)
      ensures this.files == files && this.readOnly == readOnly
    {
      this.files := files;
      this.readOnly := readOnly;
    }

    /** `path_exists`: whether a file exists at `path`, which is exactly when
        loading it fails for another reason than a missing file, or
        succeeds. */
    predicate Exists(path: string)
      reads this
      ensures Exists(path) <==> Load(path) != Err(LOAD_MISSING)
    {
      path in files
    }

    /** `Config::load`. */
    function Load(path: string): (r: Result<Config>)
      reads this
      ensures r.Ok? <==> path in files && files[path].Stored?
      ensures r.Ok? ==> files[path] == Stored(r.value)
      ensures path !in files ==> r == Err(LOAD_MISSING)
      ensures path in files && files[path].Unparsable? ==> r == Err(LOAD_PARSE_ERROR)
    {
      if path !in files then Err(LOAD_MISSING)
      else match files[path]
        case Unparsable => Err(LOAD_PARSE_ERROR)
        case Stored(c) => Ok(c)
    }

    /** `create`: truncates or creates the file at `c.path` and writes `c`;
        it fails only where nothing can be written. */
    method Create(c: Config) returns (r: Result<Config>)
      modifies this`files
      ensures c.path in readOnly ==> r == Err(CREATE_ERROR) && files == old(files)
      ensures c.path !in readOnly ==> r == Ok(c) && files == old(files)[c.path := Stored(c)]
      ensures r.Ok? ==> Load(c.path) == Ok(c)
    {
      if c.path in readOnly {
        return Err(CREATE_ERROR);
      }
      files := files[c.path := Stored(c)];
      return Ok(c);
    }

    /** `save`: opens the existing file at `c.path` without a create flag and
        rewrites it; with no file there it fails and writes nothing. */
    method Save(c: Config) returns (r: Result<string>)
      modifies this`files
      ensures r.Ok? <==> c.path in old(files) && c.path !in readOnly
      ensures r.Ok? ==> r.value == DONE && files == old(files)[c.path := Stored(c)]
      ensures r.Ok? ==> Load(c.path) == Ok(c)
      ensures r.Err? ==> r.error == SAVE_ERROR && files == old(files)
    {
      if c.path !in files || c.path in readOnly {
        return Err(SAVE_ERROR);
      }
      files := files[c.path := Stored(c)];
      return Ok(DONE);
    }

    /** `fs::rename`: moves (not copies) the file at `from` to `to`. */
    method Rename(from: string, to: string) returns (r: Result<()>)
      modifies this`files
      ensures from !in old(files) ==> r == Err(RENAME_MISSING) && files == old(files)
      ensures from in old(files) && to in readOnly ==> r == Err(RENAME_DENIED) && files == old(files)
      ensures from in old(files) && to !in readOnly ==>
        r.Ok? && files == (old(files) - {from})[to := old(files)[from]]
      ensures r.Ok? && from != to ==> from !in files
    {
      if from !in files {
        return Err(RENAME_MISSING);
      }
      if to in readOnly {
        return Err(RENAME_DENIED);
      }
      files := (files - {from})[to := files[from]];
      return Ok(());
    }
  }

  /** Saving a record, loading it back and saving what was loaded: the record
      loads back field for field, and the second save leaves the store as the
      first one left it. */
  method StoreRoundTrip(fs: FileSystem, c: Config)
    returns (first: Result<string>, loaded: Result<Config>, second: Result<string>)
    modifies fs`files
    ensures first.Ok? ==> loaded == Ok(c) && second == Ok(DONE)
    ensures first.Ok? ==> fs.files == old(fs.files)[c.path := Stored(c)]
    ensures first.Err? ==> second == first && fs.files == old(fs.files)
  {
    first := fs.Save(c);
    loaded := fs.Load(c.path);
    second := first;
    if first.Ok? {
      second := fs.Save(loaded.value);
    }
  }

  /** What `check_for_timezone` does to the store `files` and what it returns:
      a record with a timezone is kept as it is; one without gets the timezone
      the user picks and is saved. */
  function TimezoneOutcome(files: map<string, Entry>, readOnly: set<string>, c: Config, env: Environment)
    : (map<string, Entry>, Result<Config>)
  {
    if c.timezone.Some? then (files, Ok(c))
    else match TimezoneChoice(env)
      case Err(e) => (files, Err(e))
      case Ok(zone) =>
        var chosen := c.(timezone := Some(zone));
        if c.path in files && c.path !in readOnly then (files[c.path := Stored(chosen)], Ok(chosen))
        else (files, Err(SAVE_ERROR))
  }

  /** `check_for_timezone`: a record with a timezone is returned as it is; one
      without gets the timezone the user picks, and is saved. */
  method CheckForTimezone(fs: FileSystem, c: Config, env: Environment) returns (r: Result<Config>)
    modifies fs`files
    ensures (fs.files, r) == TimezoneOutcome(old(fs.files), fs.readOnly, c, env)
    ensures c.timezone.Some? ==> r == Ok(c) && fs.files == old(fs.files)
    ensures c.timezone.None? && TimezoneChoice(env).Err? ==>
      r == Err(TimezoneChoice(env).error) && fs.files == old(fs.files)
    ensures c.timezone.None? && TimezoneChoice(env).Ok? ==>
      var chosen := c.(timezone := Some(TimezoneChoice(env).value));
      if c.path in old(fs.files) && c.path !in fs.readOnly
      then r == Ok(chosen) && fs.files == old(fs.files)[c.path := Stored(chosen)]
      else r == Err(SAVE_ERROR) && fs.files == old(fs.files)
    ensures r.Ok? ==> r.value.timezone.Some? && r.value.(timezone := c.timezone) == c
  {
    if c.timezone.None? {
      var choice := TimezoneChoice(env);
      if choice.Err? {
        return Err(choice.error);
      }
      var chosen := c.(timezone := Some(choice.value));
      var saved := fs.Save(chosen);
      if saved.Err? {
        return Err(saved.error);
      }
      return Ok(chosen);
    }
    return Ok(c);
  }

  /** The path `get_or_create` works on: the given one, trimmed, or the
      generated one. */
  function TargetPath(configPath: Option<string>, env: Environment): (r: Result<string>)
    ensures configPath.None? ==> r == GeneratePath(env)
    ensures configPath.Some? ==> r == Ok(Trim(configPath.value))
  {
    match configPath
    case None => GeneratePath(env)
    case Some(p) => Ok(Trim(p))
  }

  /** Lines 122-133: with no file at `path`, a file at the legacy location is
      moved there. */
  method MoveLegacy(fs: FileSystem, path: string, env: Environment) returns (r: Result<()>)
    modifies fs`files
    ensures path in old(fs.files) ==> r.Ok? && fs.files == old(fs.files)
    ensures path !in old(fs.files) && GenerateLegacyPath(env).Err? ==>
      r == Err(GenerateLegacyPath(env).error) && fs.files == old(fs.files)
    ensures path !in old(fs.files) && GenerateLegacyPath(env).Ok? ==>
      var legacy := GenerateLegacyPath(env).value;
      if legacy !in old(fs.files) then r.Ok? && fs.files == old(fs.files)
      else if path in fs.readOnly then r == Err(RENAME_DENIED) && fs.files == old(fs.files)
      else r.Ok? && legacy !in fs.files && fs.files == (old(fs.files) - {legacy})[path := old(fs.files)[legacy]]
  {
    if !fs.Exists(path) {
      var legacy := GenerateLegacyPath(env);
      if legacy.Err? {
        return Err(legacy.error);
      }
      if fs.Exists(legacy.value) {
        r := fs.Rename(legacy.value, path);
        return;
      }
    }
    return Ok(());
  }

  /** What lines 135-147 do with the file found at `path` in the store
      `before`: load it and repair its path field, rewriting the store only when
      the field differed. */
  function LoadBranch(before: map<string, Entry>, readOnly: set<string>, path: string)
    : (map<string, Entry>, Result<Config>)
    requires path in before
  {
    match before[path]
    case Unparsable => (before, Err(LOAD_PARSE_ERROR))
    case Stored(loaded) =>
      if loaded.path == path then (before, Ok(loaded))
      else if path in readOnly then (before, Err(SAVE_ERROR))
      else (before[path := Stored(SetPath(loaded, path))], Ok(SetPath(loaded, path)))
  }

  /** The load branch returns a record whose path field is the path it was
      found at, and which is stored there afterwards; the store is rewritten
      only when the stored path field differed. */
  lemma LoadBranchRepairsPath(before: map<string, Entry>, readOnly: set<string>, path: string)
    requires path in before
    ensures var (after, r) := LoadBranch(before, readOnly, path);
      (r.Ok? ==> r.value.path == path && path in after && after[path] == Stored(r.value))
      && (after != before ==> before[path].Stored? && before[path].config.path != path
                              && r.Ok? && after == before[path := Stored(r.value)])
      && (before[path].Stored? && before[path].config.path == path ==> after == before && r == Ok(before[path].config))
  {
    var (after, r) := LoadBranch(before, readOnly, path);
    if after != before {
      assert before[path].Stored? && before[path].config.path != path && path !in readOnly;
    }
  }

  /** What lines 148-151 do when there is no file: ask for a token, create a
      fresh record at `at`, then ask for a timezone and save it. */
  function FreshBranch(before: map<string, Entry>, readOnly: set<string>, at: Result<string>, env: Environment)
    : (map<string, Entry>, Result<Config>)
  {
    match GetInput(env.tokenLine)
    case Err(e) => (before, Err(e))
    case Ok(token) =>
      match New(token, at)
      case Err(e) => (before, Err(e))
      case Ok(initial) =>
        if initial.path in readOnly then (before, Err(CREATE_ERROR))
        else TimezoneOutcome(before[initial.path := Stored(initial)], readOnly, initial, env)
  }

  /** The whole of `get_or_create` on the store `before`: settle the target
      path, move a legacy file there if the target is missing, then load and
      repair the file, or create a fresh record at `freshAt`. */
  function GetOrCreateOutcome(before: map<string, Entry>, readOnly: set<string>,
                              configPath: Option<string>, env: Environment, freshAt: Result<string>)
    : (map<string, Entry>, Result<Config>)
  {
    match TargetPath(configPath, env)
    case Err(e) => (before, Err(e))
    case Ok(path) =>
      if path in before then LoadBranch(before, readOnly, path)
      else match GenerateLegacyPath(env)
        case Err(e) => (before, Err(e))
        case Ok(legacy) =>
          if legacy !in before then FreshBranch(before, readOnly, freshAt, env)
          else if path in readOnly then (before, Err(RENAME_DENIED))
          else LoadBranch((before - {legacy})[path := before[legacy]], readOnly, path)
  }

  /** When a legacy file is moved to the target, it is gone from the legacy
      location afterwards, whatever the load branch then does. */
  lemma LegacyMoved(before: map<string, Entry>, readOnly: set<string>,
                    configPath: Option<string>, env: Environment, freshAt: Result<string>)
    requires TargetPath(configPath, env).Ok? && TargetPath(configPath, env).value !in before
    requires GenerateLegacyPath(env).Ok? && GenerateLegacyPath(env).value in before
    requires TargetPath(configPath, env).value !in readOnly
    ensures var (after, r) := GetOrCreateOutcome(before, readOnly, configPath, env, freshAt);
      var path := TargetPath(configPath, env).value;
      GenerateLegacyPath(env).value !in after && path in after
      && (r.Ok? ==> r.value.path == path)
  {
    var path := TargetPath(configPath, env).value;
    var legacy := GenerateLegacyPath(env).value;
    var moved := (before - {legacy})[path := before[legacy]];
    LoadBranchRepairsPath(moved, readOnly, path);
  }

  /** A record already stored at the target with the right path field is
      returned as it is, and nothing is written. */
  lemma SettledRecordLoads(before: map<string, Entry>, readOnly: set<string>,
                           configPath: Option<string>, env: Environment, freshAt: Result<string>, c: Config)
    requires TargetPath(configPath, env) == Ok(c.path) && c.path in before && before[c.path] == Stored(c)
    ensures GetOrCreateOutcome(before, readOnly, configPath, env, freshAt) == (before, Ok(c))
  {
    LoadBranchRepairsPath(before, readOnly, c.path);
  }

  /** With the fresh record placed at the target, every success leaves the
      returned record stored at the target under its own path. */
  lemma {:induction false} AtTargetStoresResult(before: map<string, Entry>, readOnly: set<string>,
                                                configPath: Option<string>, env: Environment)
    ensures var (after, r) := GetOrCreateOutcome(before, readOnly, configPath, env, TargetPath(configPath, env));
      r.Ok? ==> TargetPath(configPath, env).Ok?
                && r.value.path == TargetPath(configPath, env).value
                && r.value.path in after && after[r.value.path] == Stored(r.value)
  {
    var target := TargetPath(configPath, env);
    if target.Ok? {
      var path := target.value;
      if path in before {
        LoadBranchRepairsPath(before, readOnly, path);
      } else if GenerateLegacyPath(env).Ok? {
        var legacy := GenerateLegacyPath(env).value;
        if legacy in before && path !in readOnly {
          LoadBranchRepairsPath((before - {legacy})[path := before[legacy]], readOnly, path);
        }
      }
    }
  }

  /** Lines 135-151 once the target `path` is settled: load an existing file,
      or create a fresh record at `freshPath`. */
  method OpenOrCreate(fs: FileSystem, path: string, freshPath: Result<string>, env: Environment)
    returns (r: Result<Config>)
    modifies fs`files
    ensures path in old(fs.files) ==> (fs.files, r) == LoadBranch(old(fs.files), fs.readOnly, path)
    ensures path !in old(fs.files) ==> (fs.files, r) == FreshBranch(old(fs.files), fs.readOnly, freshPath, env)
  {
    if fs.Exists(path) {
      var loaded := fs.Load(path);
      if loaded.Err? {
        return Err(loaded.error);
      }
      var config := loaded.value;
      if config.path != path {
        var repaired := SetPath(config, path);
        var saved := fs.Save(repaired);
        if saved.Err? {
          return Err(saved.error);
        }
        return Ok(repaired);
      }
      return Ok(config);
    }
    var token := GetInput(env.tokenLine);
    if token.Err? {
      return Err(token.error);
    }
    var initial := New(token.value, freshPath);
    if initial.Err? {
      return Err(initial.error);
    }
    var created := fs.Create(initial.value);
    if created.Err? {
      return Err(created.error);
    }
    r := CheckForTimezone(fs, created.value, env);
  }

  /** `get_or_create`, as written: a fresh record is created at the generated
      path, even when a different path was given. */
  method GetOrCreate(fs: FileSystem, configPath: Option<string>, env: Environment)
    returns (r: Result<Config>)
    modifies fs`files
    ensures (fs.files, r) == GetOrCreateOutcome(old(fs.files), fs.readOnly, configPath, env, GeneratePath(env))
    ensures r.Ok? && TargetPath(configPath, env).value in old(fs.files) ==>
      r.value.path == TargetPath(configPath, env).value
  {
    var target := TargetPath(configPath, env);
    if target.Err? {
      return Err(target.error);
    }
    var moved := MoveLegacy(fs, target.value, env);
    if moved.Err? {
      return Err(moved.error);
    }
    r := OpenOrCreate(fs, target.value, GeneratePath(env), env);
    if target.value in old(fs.files) {
      LoadBranchRepairsPath(old(fs.files), fs.readOnly, target.value);
    }
  }

  /** `get_or_create` as evidently intended: a fresh record is created at the
      target path, so that a successful call always leaves the returned record
      stored at the target. With no path given it is `GetOrCreate` exactly. */
  method GetOrCreateAtTarget(fs: FileSystem, configPath: Option<string>, env: Environment)
    returns (r: Result<Config>)
    modifies fs`files
    ensures (fs.files, r) == GetOrCreateOutcome(old(fs.files), fs.readOnly, configPath, env, TargetPath(configPath, env))
    ensures configPath.None? ==>
      (fs.files, r) == GetOrCreateOutcome(old(fs.files), fs.readOnly, configPath, env, GeneratePath(env))
    ensures r.Ok? ==> TargetPath(configPath, env).Ok? && r.value.path == TargetPath(configPath, env).value
    ensures r.Ok? ==> fs.Load(r.value.path) == Ok(r.value)
  {
    var target := TargetPath(configPath, env);
    if target.Err? {
      return Err(target.error);
    }
    var moved := MoveLegacy(fs, target.value, env);
    if moved.Err? {
      return Err(moved.error);
    }
    r := OpenOrCreate(fs, target.value, Ok(target.value), env);
    AtTargetStoresResult(old(fs.files), fs.readOnly, configPath, env);
  }

  /** With no path given the two agree: the target is the generated path. */
  lemma DefaultTargetIsGenerated(env: Environment)
    ensures TargetPath(None, env) == GeneratePath(env)
  {
  }

  /** The surroundings of the scenarios below: a user whose default config
      file exists, who types a token and picks timezone number 3. */
  function ScenarioEnv(): Environment
  {
    Environment(Some("/home/u/.config"), Some("/home/u"), Some("abc\n"), Some("3"),
                (n: nat) => "US/Pacific")
  }

  const STANDARD_PATH := "/home/u/.config/tod.cfg"
  const CUSTOM_PATH := "/tmp/custom.cfg"

  function ExistingConfig(): Config
  {
    Config("old", map["home" := 7], STANDARD_PATH, Some("42"), Some("UTC"), None)
  }

  lemma ScenarioPaths()
    ensures TargetPath(Some(" /tmp/custom.cfg"), ScenarioEnv()) == Ok(CUSTOM_PATH)
  {
    var custom := " /tmp/custom.cfg";
    assert [' '] + CUSTOM_PATH + [] == custom;
    TrimUnique([' '], CUSTOM_PATH, []);
    assert Trim(custom) == CUSTOM_PATH;
  }

  lemma ScenarioPaths2()
    ensures GeneratePath(ScenarioEnv()) == Ok(STANDARD_PATH)
    ensures GenerateLegacyPath(ScenarioEnv()) == Ok("/home/u/.tod.cfg")
    ensures "/home/u/.tod.cfg" != STANDARD_PATH && CUSTOM_PATH != STANDARD_PATH
  {
    assert "/home/u/.config" + "/" + CONFIG_FILE_NAME == STANDARD_PATH;
    assert "/home/u" + "/" + LEGACY_FILE_NAME == "/home/u/.tod.cfg";
    assert "/home/u/.tod.cfg"[9] != STANDARD_PATH[9];
    assert CUSTOM_PATH[1] != STANDARD_PATH[1];
  }

  lemma ScenarioInputs()
    ensures GetInput(ScenarioEnv().tokenLine) == Ok("abc")
  {
    TrimUnique([], "abc", "\n");
    assert [] + "abc" + "\n" == "abc\n";
  }

  lemma ScenarioInputs2()
    ensures TimezoneChoice(ScenarioEnv()) == Ok("US/Pacific")
  {
    TrimUnique([], "3", []);
    assert [] + "3" + [] == "3";
    ParseDecimal(3, USIZE_BOUND);
    assert DecimalString(3) == "3";
  }

  lemma ScenarioFacts()
    ensures TargetPath(Some(" /tmp/custom.cfg"), ScenarioEnv()) == Ok(CUSTOM_PATH)
    ensures GeneratePath(ScenarioEnv()) == Ok(STANDARD_PATH)
    ensures GenerateLegacyPath(ScenarioEnv()) == Ok("/home/u/.tod.cfg")
    ensures "/home/u/.tod.cfg" != STANDARD_PATH && CUSTOM_PATH != STANDARD_PATH
    ensures GetInput(ScenarioEnv().tokenLine) == Ok("abc")
    ensures TimezoneChoice(ScenarioEnv()) == Ok("US/Pacific")
  {
    ScenarioPaths(); ScenarioPaths2(); ScenarioInputs(); ScenarioInputs2();
  }

  /** The record made from the user's answers when no file exists, stored
      at `at`. */
  function PromptedRecord(env: Environment, at: string): Config
    requires GetInput(env.tokenLine).Ok? && TimezoneChoice(env).Ok?
  {
    Config(GetInput(env.tokenLine).value, map[], at, None, Some(TimezoneChoice(env).value), None)
  }

  /** The fresh branch for a target `at` where nothing is stored and
      everything can be written: the prompted record is stored at `at`. */
  lemma FreshRecordStored(before: map<string, Entry>, readOnly: set<string>, at: string, env: Environment)
    requires at !in readOnly
    requires GetInput(env.tokenLine).Ok? && TimezoneChoice(env).Ok?
    ensures FreshBranch(before, readOnly, Ok(at), env)
            == (before[at := Stored(PromptedRecord(env, at))], Ok(PromptedRecord(env, at)))
  {
    var initial := Config(GetInput(env.tokenLine).value, map[], at, None, None, None);
    var chosen := PromptedRecord(env, at);
    FreshRecordPlaced(before, readOnly, at, env);
    PromptedTimezoneSaved(before[at := Stored(initial)], readOnly, initial, env);
    assert initial.(timezone := Some(TimezoneChoice(env).value)) == chosen;
    OverwriteTwice(before, at, Stored(initial), Stored(chosen));
  }

  /** A second write to the same path replaces the first. */
  lemma OverwriteTwice(m: map<string, Entry>, k: string, first: Entry, second: Entry)
    ensures m[k := first][k := second] == m[k := second]
  {
  }

  /** The fresh branch first stores the record `New` makes at `at`. */
  lemma FreshRecordPlaced(before: map<string, Entry>, readOnly: set<string>, at: string, env: Environment)
    requires at !in readOnly
    requires GetInput(env.tokenLine).Ok?
    ensures var initial := Config(GetInput(env.tokenLine).value, map[], at, None, None, None);
      FreshBranch(before, readOnly, Ok(at), env) == TimezoneOutcome(before[at := Stored(initial)], readOnly, initial, env)
  {
  }

  /** A stored record without timezone gets the chosen one and is saved. */
  lemma PromptedTimezoneSaved(files: map<string, Entry>, readOnly: set<string>, initial: Config, env: Environment)
    requires initial.timezone.None? && initial.path in files && initial.path !in readOnly
    requires TimezoneChoice(env).Ok?
    ensures var chosen := initial.(timezone := Some(TimezoneChoice(env).value));
      TimezoneOutcome(files, readOnly, initial, env) == (files[initial.path := Stored(chosen)], Ok(chosen))
  {
  }

  /** The discrepancy of `GetOrCreate`: given a custom path with no file
      behind it, the fresh record goes to the generated path, replacing any
      record stored there, and the custom path stays empty. */
  lemma CustomPathIgnored(before: map<string, Entry>, readOnly: set<string>, custom: string, env: Environment)
    requires Trim(custom) !in before
    requires GenerateLegacyPath(env).Ok? && GenerateLegacyPath(env).value !in before
    requires GeneratePath(env).Ok? && GeneratePath(env).value != Trim(custom)
    requires GeneratePath(env).value !in readOnly
    requires GetInput(env.tokenLine).Ok? && TimezoneChoice(env).Ok?
    ensures var (after, r) := GetOrCreateOutcome(before, readOnly, Some(custom), env, GeneratePath(env));
      var standard := GeneratePath(env).value;
      r == Ok(PromptedRecord(env, standard))
      && after == before[standard := Stored(PromptedRecord(env, standard))]
      && Trim(custom) !in after
  {
    FreshRecordStored(before, readOnly, GeneratePath(env).value, env);
  }

  /** The corrected version on the same inputs stores the fresh record at the
      custom path and leaves every other file alone. */
  lemma CustomPathHonoured(before: map<string, Entry>, readOnly: set<string>, custom: string, env: Environment)
    requires Trim(custom) !in before
    requires GenerateLegacyPath(env).Ok? && GenerateLegacyPath(env).value !in before
    requires Trim(custom) !in readOnly
    requires GetInput(env.tokenLine).Ok? && TimezoneChoice(env).Ok?
    ensures var (after, r) := GetOrCreateOutcome(before, readOnly, Some(custom), env, TargetPath(Some(custom), env));
      r == Ok(PromptedRecord(env, Trim(custom)))
      && after == before[Trim(custom) := Stored(PromptedRecord(env, Trim(custom)))]
  {
    FreshRecordStored(before, readOnly, Trim(custom), env);
  }

  /** A concrete input the as-written version applies to: a user with a
      default config file who passes " /tmp/custom.cfg" loses that file's
      record, and the custom path is still missing. */
  lemma CustomPathScenario()
    ensures var (after, r) := GetOrCreateOutcome(map[STANDARD_PATH := Stored(ExistingConfig())], {},
                                                 Some(" /tmp/custom.cfg"), ScenarioEnv(), GeneratePath(ScenarioEnv()));
      r.Ok? && r.value.token == "abc"
      && STANDARD_PATH in after && after[STANDARD_PATH] != Stored(ExistingConfig())
      && CUSTOM_PATH !in after
  {
    ScenarioFacts();
    var before := map[STANDARD_PATH := Stored(ExistingConfig())];
    assert CUSTOM_PATH !in before && "/home/u/.tod.cfg" !in before;
    CustomPathIgnored(before, {}, " /tmp/custom.cfg", ScenarioEnv());
  }

  /** The corrected version on the same input keeps the default record and
      stores the new one at the custom path. */
  lemma CustomPathScenarioCorrected()
    ensures var (after, r) := GetOrCreateOutcome(map[STANDARD_PATH := Stored(ExistingConfig())], {},
                                                 Some(" /tmp/custom.cfg"), ScenarioEnv(),
                                                 TargetPath(Some(" /tmp/custom.cfg"), ScenarioEnv()));
      r.Ok? && STANDARD_PATH in after && after[STANDARD_PATH] == Stored(ExistingConfig())
      && CUSTOM_PATH in after && after[CUSTOM_PATH] == Stored(r.value)
  {
    ScenarioFacts();
    var before := map[STANDARD_PATH := Stored(ExistingConfig())];
    assert CUSTOM_PATH !in before && "/home/u/.tod.cfg" !in before;
    CustomPathHonoured(before, {}, " /tmp/custom.cfg", ScenarioEnv());
  }
}
