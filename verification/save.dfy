/**
 * The per-save configuration store of the local server: `SaveConfig::load_path`
 * and `SaveConfig::load_or_create_path`.
 *
 * The disk is abstracted as a set of directories plus a map from file path to
 * text, and the operating system's refusals as a fixed set of denied paths.
 * The RON codec is abstracted as the `Ron` value below: which texts
 * `ron::from_str::<SaveConfig>` accepts, and what `ron::ser::to_string_pretty`
 * (tab indent, "\n" newlines) produces for a default configuration.
 */
module Save {
  import opened Common

  const ConfigFileName: string := "config.ron"

  /** `<dir>/config.ron` */
  function ConfigPath(dir: Path): (r: Path)
    ensures r.parts != [] && Parent(r) == dir && r.parts[|r.parts| - 1] == ConfigFileName
  {
    Child(dir, ConfigFileName)
  }

  /**
   * The configuration of one save. Its only field, the save path, is skipped
   * by serde: it is never read from nor written to the file.
   */
  datatype SaveConfig = SaveConfig(savePath: Path)

  datatype IoError = NotFound | PermissionDenied | AlreadyExists | IsADirectory

  datatype SaveConfigError =
    | LoadError(cause: IoError, doing: string)
    | InvalidSave(path: Path)
    | RonError

  datatype SaveLoadState = Created(config: SaveConfig) | Existing(config: SaveConfig)

  /**
   * The RON codec for `SaveConfig`. Since every field of `SaveConfig` is
   * skipped, the pretty output does not depend on the value serialised;
   * `pretty` is `None` when the serialiser reports an error.
   */
  datatype Ron = Ron(accepts: string -> bool, pretty: Option<string>)

  /** What the file-format stability of the codec promises: a freshly written file reads back. */
  predicate RoundTrips(ron: Ron) {
    ron.pretty.Some? ==> ron.accepts(ron.pretty.value + "\n")
  }

  datatype Disk = Disk(dirs: set<Path>, files: map<Path, string>)

  /** Both roots are directories, nothing is both a file and a directory, and everything sits in a directory. */
  ghost predicate WellFormed(d: Disk) {
    && Path(true, []) in d.dirs && Path(false, []) in d.dirs
    && d.dirs !! d.files.Keys
    && (forall f | f in d.files :: f.parts != [] && Parent(f) in d.dirs)
    && (forall p | p in d.dirs && p.parts != [] :: Parent(p) in d.dirs)
  }

  function Exists(d: Disk, p: Path): bool {
    p in d.dirs || p in d.files
  }

  /** `std::fs::read_to_string` */
  function ReadToString(d: Disk, denied: set<Path>, p: Path): (r: Result<string, IoError>)
    ensures r.Ok? <==> p !in denied && p in d.files
    ensures r.Ok? ==> r.value == d.files[p]
  {
    if p in denied then Err(PermissionDenied)
    else if p in d.files then Ok(d.files[p])
    else if p in d.dirs then Err(IsADirectory)
    else Err(NotFound)
  }

  /** `std::fs::create_dir_all`: fails when a file is in the way or the path is denied. */
  function CreateDirAll(d: Disk, denied: set<Path>, p: Path): (r: Result<Disk, IoError>)
    ensures r.Ok? ==> r.value.files == d.files && r.value.dirs == d.dirs + Ancestors(p)
    ensures r.Err? <==> p in denied || !(Ancestors(p) !! d.files.Keys)
  {
    if !(Ancestors(p) !! d.files.Keys) then Err(AlreadyExists)
    else if p in denied then Err(PermissionDenied)
    else Ok(Disk(d.dirs + Ancestors(p), d.files))
  }

  /** `std::fs::write`: creates or truncates a file whose directory exists. */
  function WriteFile(d: Disk, denied: set<Path>, p: Path, text: string): (r: Result<Disk, IoError>)
    ensures r.Ok? <==> p !in denied && p !in d.dirs && p.parts != [] && Parent(p) in d.dirs
    ensures r.Ok? ==> r.value == Disk(d.dirs, d.files[p := text])
  {
    if p in denied then Err(PermissionDenied)
    else if p in d.dirs then Err(IsADirectory)
    else if p.parts == [] || Parent(p) !in d.dirs then Err(NotFound)
    else Ok(Disk(d.dirs, d.files[p := text]))
  }

  /**
   * `SaveConfig::load_path`: read `<dir>/config.ron`, parse it, and record
   * `dir` (never anything from the file) as the save path.
   */
  function LoadPath(d: Disk, denied: set<Path>, ron: Ron, dir: Path): (r: Result<SaveConfig, SaveConfigError>)
    ensures r.Ok? <==> ConfigPath(dir) !in denied && ConfigPath(dir) in d.files && ron.accepts(d.files[ConfigPath(dir)])
    ensures r.Ok? ==> r.value.savePath == dir
    ensures r == Err(RonError) <==> ConfigPath(dir) !in denied && ConfigPath(dir) in d.files && !ron.accepts(d.files[ConfigPath(dir)])
    ensures r.Err? && r.error.LoadError? ==> r.error.doing == "reading config.ron file"
    ensures r.Err? ==> r.error.LoadError? || r.error.RonError?
  {
    match ReadToString(d, denied, ConfigPath(dir))
    case Err(e) => Err(LoadError(e, "reading config.ron file"))
    case Ok(text) => if ron.accepts(text) then Ok(SaveConfig(dir)) else Err(RonError)
  }

  /**
   * Reference definition of `SaveConfig::load_or_create_path`: the result and
   * the disk afterwards. Each step that fails leaves the effects of the steps
   * before it in place (a created directory stays).
   */
  function LoadOrCreate(d: Disk, denied: set<Path>, ron: Ron, dir: Path): (Result<SaveLoadState, SaveConfigError>, Disk)
  {
    var loaded := LoadPath(d, denied, ron, dir);
    if loaded.Ok? then (Ok(Existing(loaded.value)), d)
    else
      var made := if dir in d.dirs then Ok(d) else CreateDirAll(d, denied, dir);
      if made.Err? then (Err(LoadError(made.error, "creating save directory")), d)
      else
        var d1 := made.value;
        var cfg := ConfigPath(dir);
        if Exists(d1, cfg) then (Err(InvalidSave(cfg)), d1)
        else if ron.pretty.None? then (Err(RonError), d1)
        else
          match WriteFile(d1, denied, cfg, ron.pretty.value + "\n")
          case Err(e) => (Err(LoadError(e, "writing empty configuration")), d1)
          case Ok(d2) => (Ok(Created(SaveConfig(cfg))), d2)
  }

  /** The filesystem as an object whose operations change it step by step. */
  class FileSystem {
    var dirs: set<Path>
    var files: map<Path, string>
    const denied: set<Path>
    const ron: Ron

    function Contents(): Disk
      reads this
    {
      Disk(dirs, files)
    }

    ghost predicate Valid()
      reads this
    {
      WellFormed(Contents())
    }

    constructor (disk: Disk, denied: set<Path>, ron: Ron)
      requires WellFormed(disk)
      ensures Valid() && Contents() == disk && this.denied == denied && this.ron == ron
    {
      dirs, files := disk.dirs, disk.files;
      this.denied, this.ron := denied, ron;
    }

    method CreateDirs(p: Path) returns (err: Option<IoError>)
      modifies this
      ensures var r := CreateDirAll(old(Contents()), denied, p);
        if r.Ok? then err == None && Contents() == r.value else err == Some(r.error) && Contents() == old(Contents())
    {
      var r := CreateDirAll(Contents(), denied, p);
      if r.Err? {
        return Some(r.error);
      }
      dirs := dirs + Ancestors(p);
      return None;
    }

    method Write(p: Path, text: string) returns (err: Option<IoError>)
      modifies this
      ensures var r := WriteFile(old(Contents()), denied, p, text);
        if r.Ok? then err == None && Contents() == r.value else err == Some(r.error) && Contents() == old(Contents())
    {
      var r := WriteFile(Contents(), denied, p, text);
      if r.Err? {
        return Some(r.error);
      }
      files := files[p := text];
      return None;
    }

    /** `SaveConfig::load_or_create_path` */
    method LoadOrCreatePath(dir: Path) returns (r: Result<SaveLoadState, SaveConfigError>)
      requires Valid()
      modifies this
      ensures Valid()
      ensures (r, Contents()) == LoadOrCreate(old(Contents()), denied, ron, dir)
    {
      var loaded := LoadPath(Contents(), denied, ron, dir);
      if loaded.Ok? {
        return Ok(Existing(loaded.value));
      }
      if dir !in dirs {
        var err := CreateDirs(dir);
        if err.Some? {
          return Err(LoadError(err.value, "creating save directory"));
        }
        CreateDirAllKeepsWellFormed(old(Contents()), denied, dir);
      }
      var cfg := ConfigPath(dir);
      if cfg in dirs || cfg in files {
        return Err(InvalidSave(cfg));
      }
      if ron.pretty.None? {
        return Err(RonError);
      }
      ghost var before := Contents();
      var err := Write(cfg, ron.pretty.value + "\n");
      if err.Some? {
        return Err(LoadError(err.value, "writing empty configuration"));
      }
      WriteFileKeepsWellFormed(before, denied, cfg, ron.pretty.value + "\n");
      return Ok(Created(SaveConfig(cfg)));
    }
  }

  // ---------------------------------------------------------------------------
  // Properties of load-or-create

  /** A configuration that loads is returned as Existing with the directory as its path, and nothing is written. */
  lemma ExistingIsReadOnly(d: Disk, denied: set<Path>, ron: Ron, dir: Path)
    requires ConfigPath(dir) !in denied && ConfigPath(dir) in d.files && ron.accepts(d.files[ConfigPath(dir)])
    ensures LoadOrCreate(d, denied, ron, dir) == (Ok(Existing(SaveConfig(dir))), d)
  {
  }

  /**
   * A config file that exists but does not load is never overwritten: the
   * result is InvalidSave naming the file, and the disk is unchanged.
   */
  lemma CorruptConfigNeverOverwritten(d: Disk, denied: set<Path>, ron: Ron, dir: Path)
    requires WellFormed(d)
    requires ConfigPath(dir) in d.files
    requires LoadPath(d, denied, ron, dir).Err?
    ensures LoadOrCreate(d, denied, ron, dir) == (Err(InvalidSave(ConfigPath(dir))), d)
  {
    assert Parent(ConfigPath(dir)) in d.dirs;
  }

  /** No call ever changes or removes a file that was already there; at most the config file is added. */
  lemma LoadOrCreateKeepsExistingFiles(d: Disk, denied: set<Path>, ron: Ron, dir: Path)
    ensures var d' := LoadOrCreate(d, denied, ron, dir).1;
      && d.dirs <= d'.dirs
      && (forall f | f in d.files :: f in d'.files && d'.files[f] == d.files[f])
      && d'.files.Keys <= d.files.Keys + {ConfigPath(dir)}
  {
  }

  lemma AncestorParent(p: Path, q: Path)
    requires q in Ancestors(p) && q.parts != []
    ensures Parent(q) in Ancestors(p)
  {
    var i := |q.parts|;
    assert q == Path(p.absolute, p.parts[..i]);
    assert Parent(q) == Path(p.absolute, p.parts[..i - 1]);
  }

  lemma CreateDirAllKeepsWellFormed(d: Disk, denied: set<Path>, p: Path)
    requires WellFormed(d) && CreateDirAll(d, denied, p).Ok?
    ensures WellFormed(CreateDirAll(d, denied, p).value)
  {
    var d1 := CreateDirAll(d, denied, p).value;
    assert d1.dirs == d.dirs + Ancestors(p) && d1.files == d.files;
    forall q | q in d1.dirs && q.parts != []
      ensures Parent(q) in d1.dirs
    {
      if q in Ancestors(p) {
        AncestorParent(p, q);
      }
    }
  }

  lemma WriteFileKeepsWellFormed(d: Disk, denied: set<Path>, p: Path, text: string)
    requires WellFormed(d) && WriteFile(d, denied, p, text).Ok?
    ensures WellFormed(WriteFile(d, denied, p, text).value)
  {
  }

  /** The disk stays well-formed. */
  lemma LoadOrCreateKeepsWellFormed(d: Disk, denied: set<Path>, ron: Ron, dir: Path)
    requires WellFormed(d)
    ensures WellFormed(LoadOrCreate(d, denied, ron, dir).1)
  {
    if LoadPath(d, denied, ron, dir).Ok? {
      return;
    }
    var made := if dir in d.dirs then Ok(d) else CreateDirAll(d, denied, dir);
    if made.Err? {
      return;
    }
    if dir !in d.dirs {
      CreateDirAllKeepsWellFormed(d, denied, dir);
    }
    var d1 := made.value;
    var cfg := ConfigPath(dir);
    if !Exists(d1, cfg) && ron.pretty.Some? && WriteFile(d1, denied, cfg, ron.pretty.value + "\n").Ok? {
      WriteFileKeepsWellFormed(d1, denied, cfg, ron.pretty.value + "\n");
    }
  }

  /**
   * A Created configuration records the file path `<dir>/config.ron` (not the
   * directory, unlike Existing), the file holds the pretty text plus "\n",
   * and the only other change is the directory tree created for it.
   */
  lemma CreatedWritesDefaultConfig(d: Disk, denied: set<Path>, ron: Ron, dir: Path)
    requires LoadOrCreate(d, denied, ron, dir).0.Ok? && LoadOrCreate(d, denied, ron, dir).0.value.Created?
    ensures var (r, d') := LoadOrCreate(d, denied, ron, dir);
      && r.value.config.savePath == ConfigPath(dir)
      && ConfigPath(dir) !in d.files && ron.pretty.Some?
      && d'.files == d.files[ConfigPath(dir) := ron.pretty.value + "\n"]
      && d'.dirs == (if dir in d.dirs then d.dirs else d.dirs + Ancestors(dir))
  {
  }

  /**
   * Create-versus-load disjointness: once a call has returned Created, a
   * second call on the same directory returns Existing and writes nothing,
   * provided the codec reads back what it writes.
   */
  lemma CreatedThenExisting(d: Disk, denied: set<Path>, ron: Ron, dir: Path)
    requires RoundTrips(ron)
    requires LoadOrCreate(d, denied, ron, dir).0.Ok? && LoadOrCreate(d, denied, ron, dir).0.value.Created?
    ensures var d' := LoadOrCreate(d, denied, ron, dir).1;
      LoadOrCreate(d', denied, ron, dir) == (Ok(Existing(SaveConfig(dir))), d')
  {
    var d' := LoadOrCreate(d, denied, ron, dir).1;
    CreatedWritesDefaultConfig(d, denied, ron, dir);
    assert d'.files[ConfigPath(dir)] == ron.pretty.value + "\n";
    ExistingIsReadOnly(d', denied, ron, dir);
  }

  /**
   * The read error of `load_path` is never reported by `load_or_create_path`:
   * its I/O errors name directory creation or the write, and a parse failure
   * of an existing file surfaces as InvalidSave.
   */
  lemma LoadOrCreateErrors(d: Disk, denied: set<Path>, ron: Ron, dir: Path)
    ensures var r := LoadOrCreate(d, denied, ron, dir).0;
      r.Err? ==> match r.error
        case LoadError(_, doing) => doing == "creating save directory" || doing == "writing empty configuration"
        case InvalidSave(p) => p == ConfigPath(dir)
        case RonError => ron.pretty.None?
  {
  }
}
