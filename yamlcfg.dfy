/**
 * The configuration loader of go-yamlcfg (yamlcfg.go).
 *
 * `LoadConfig` resolves the first existing file among an ordered list of
 * candidate paths, materialises a default file at the first candidate when
 * none exists and the target can supply one, reads the file, rejects an empty
 * one, optionally runs the bytes through a template engine, decodes them into
 * the target and finally calls the target's `SetConfigPath` and `Validate`
 * hooks.  Any error ends the call.  `RandomString` fills a byte buffer with
 * characters drawn from an alphabet.
 *
 * The outside world is abstracted as follows:
 *  - the filesystem is a map from absolute path to file contents, plus the sets
 *    of paths on which directory creation, writing or reading fails;
 *  - environment expansion followed by `filepath.Abs`, `filepath.Dir`, the
 *    template engine and the YAML decoder are opaque functions (`Runtime`);
 *  - the target object is a set of optional capabilities plus the history of
 *    what the loader has done to it (`Event`s).
 *
 * `Load` is the functional specification of one call; the `LoadConfig`
 * method is the step-by-step model of the source and is proved to agree
 * with it.  Properties of `Load` are in module YamlCfgProperties.
 */
module YamlCfg {

  newtype byte = b: int | 0 <= b < 256

  /** File contents, default contents and template output are byte strings. */
  type Bytes = seq<byte>

  /** A path after environment expansion and `filepath.Abs`. */
  type Path = string

  datatype Option<T> = None | Some(value: T)

  datatype Result<T> = Ok(value: T) | Err(error: Error)

  /** The errors `LoadConfig` can return, one kind per return statement. */
  datatype Error =
    | InvalidInput                       // the candidate list is empty
    | NotFound(candidates: seq<string>)  // nothing exists and no usable default
    | MkdirFailed(shown: Bytes)          // the message shows the default content, not the path
    | WriteFailed(shown: Bytes)          // likewise
    | ReadFailed(path: Path)
    | EmptyFile(path: Path)
    | TemplateParse(cause: string)
    | TemplateExec(cause: string)
    | Decode(cause: string)
    | Validation(message: string)        // returned verbatim from the target's Validate

  /** The `error` result of `LoadConfig`: nil or an error. */
  datatype Outcome = Success | Failure(error: Error)

  /** What the template engine makes of the raw bytes: output, or a parse or execution failure. */
  datatype RenderResult = Rendered(output: Bytes) | ParseFailed(cause: string) | ExecFailed(cause: string)

  /** What the YAML decoder reports. */
  datatype DecodeResult = Decoded | DecodeFailed(cause: string)

  /**
   * The library calls the loader makes and the model does not look into:
   * `norm` is os.ExpandEnv followed by filepath.Abs (whose error the source
   * ignores), `dir` is filepath.Dir, `render` parses and executes the raw bytes
   * as a template whose `secret` function is the given lookup (the `env`
   * function reads the process environment, which is part of `render`), and
   * `decode` is yaml.Unmarshal into the target.
   */
  datatype Runtime = Runtime(
    norm: string -> Path,
    dir: Path -> Path,
    render: (Bytes, string -> string) -> RenderResult,
    decode: Bytes -> DecodeResult)

  /** The paths on which the operating system refuses each kind of operation. */
  datatype Faults = Faults(mkdir: set<Path>, write: set<Path>, read: set<Path>)

  /** What the loader does to the target object, in order. */
  datatype Event = Unmarshalled(data: Bytes) | ConfigPathSet(path: Path) | Validated

  /**
   * The four optional interfaces the loader detects on the target:
   * GetDefaultConfig (its result), GetSecret, SetConfigPath, and Validate
   * (its result as a function of what has been done to the target so far).
   */
  datatype Capabilities = Capabilities(
    defaultConfig: Option<Bytes>,
    secret: Option<string -> string>,
    setConfigPath: bool,
    validate: Option<seq<Event> -> Option<string>>)

  datatype ReadResult = Read(data: Bytes) | Unreadable

  /** os.Stat succeeds: the path names an existing file (the empty path never does). */
  predicate Present(files: map<Path, Bytes>, p: Path)
  {
    p != "" && p in files
  }

  /** ioutil.WriteFile succeeds on this path. */
  predicate Writable(faults: Faults, p: Path)
  {
    p != "" && p !in faults.write
  }

  /** ioutil.ReadFile on this path. */
  function ReadAt(files: map<Path, Bytes>, faults: Faults, p: Path): ReadResult
  {
    if Present(files, p) && p !in faults.read then Read(files[p]) else Unreadable
  }

  /**
   * The index of the first candidate, in list order, whose normalised path
   * exists; None when none does.
   */
  function FirstHit(cands: seq<string>, norm: string -> Path, files: map<Path, Bytes>): (r: Option<nat>)
    ensures r.Some? ==> r.value < |cands| && Present(files, norm(cands[r.value]))
    ensures r.Some? ==> forall j :: 0 <= j < r.value ==> !Present(files, norm(cands[j]))
    ensures r.None? <==> forall j :: 0 <= j < |cands| ==> !Present(files, norm(cands[j]))
  {
    if |cands| == 0 then None
    else if Present(files, norm(cands[0])) then Some(0)
    else match FirstHit(cands[1..], norm, files)
      case None => None
      case Some(i) => Some(i + 1)
  }

  /** The file the pipeline goes on to read, with the filesystem after resolution. */
  datatype Resolution = Resolved(path: Path, files: map<Path, Bytes>) | Unresolved(error: Error)

  /** Path resolution with the default-file fallback (yamlcfg.go lines 25-52). */
  function Resolve(cands: seq<string>, caps: Capabilities, files: map<Path, Bytes>, faults: Faults, rt: Runtime): Resolution
    requires |cands| > 0
  {
    match FirstHit(cands, rt.norm, files)
    case Some(i) => Resolved(rt.norm(cands[i]), files)
    case None =>
      if caps.defaultConfig.None? || |caps.defaultConfig.value| == 0 then Unresolved(NotFound(cands))
      else
        var content := caps.defaultConfig.value;
        var target := rt.norm(cands[0]);
        if rt.dir(target) in faults.mkdir then Unresolved(MkdirFailed(content))
        else if !Writable(faults, target) then Unresolved(WriteFailed(content))
        else Resolved(target, files[target := content])
  }

  /** The template step: gated on GetSecret, raw bytes pass through otherwise. */
  function Template(raw: Bytes, caps: Capabilities, rt: Runtime): Result<Bytes>
  {
    if caps.secret.None? then Ok(raw)
    else match rt.render(raw, caps.secret.value)
      case ParseFailed(cause) => Err(TemplateParse(cause))
      case ExecFailed(cause) => Err(TemplateExec(cause))
      case Rendered(output) => Ok(output)
  }

  /** SetConfigPath then Validate, after a successful decode. */
  function Hooks(path: Path, caps: Capabilities, events: seq<Event>): (Outcome, seq<Event>)
  {
    var notified := if caps.setConfigPath then events + [ConfigPathSet(path)] else events;
    if caps.validate.None? then (Success, notified)
    else
      var verdict := caps.validate.value(notified);
      (if verdict.Some? then Failure(Validation(verdict.value)) else Success, notified + [Validated])
  }

  /** Everything after resolution: read, empty check, template, decode, hooks. */
  function Populate(path: Path, files: map<Path, Bytes>, faults: Faults, caps: Capabilities, events: seq<Event>, rt: Runtime): (Outcome, seq<Event>)
  {
    match ReadAt(files, faults, path)
    case Unreadable => (Failure(ReadFailed(path)), events)
    case Read(raw) =>
      if |raw| < 1 then (Failure(EmptyFile(path)), events)
      else match Template(raw, caps, rt)
        case Err(e) => (Failure(e), events)
        case Ok(data) =>
          var decodedInto := events + [Unmarshalled(data)];
          match rt.decode(data)
          case DecodeFailed(cause) => (Failure(Decode(cause)), decodedInto)
          case Decoded => Hooks(path, caps, decodedInto)
  }

  /** The result of one call: the error returned, the filesystem and the target's history afterwards. */
  datatype Run = Run(outcome: Outcome, files: map<Path, Bytes>, events: seq<Event>)

  /** The functional specification of one `LoadConfig` call. */
  function Load(cands: seq<string>, caps: Capabilities, files: map<Path, Bytes>, faults: Faults, events: seq<Event>, rt: Runtime): Run
  {
    if |cands| < 1 then Run(Failure(InvalidInput), files, events)
    else match Resolve(cands, caps, files, faults, rt)
      case Unresolved(e) => Run(Failure(e), files, events)
      case Resolved(path, resolvedFiles) =>
        var (outcome, history) := Populate(path, resolvedFiles, faults, caps, events, rt);
        Run(outcome, resolvedFiles, history)
  }

  /** The filesystem the loader works on. */
  class FileSystem {
    var files: map<Path, Bytes>
    const faults: Faults

    constructor (files: map<Path, Bytes>, faults: Faults)
      ensures this.files == files && this.faults == faults
    {
      this.files := files;
      this.faults := faults;
    }

    /** os.Stat: every failure counts as "absent". */
    method Stat(p: Path) returns (ok: bool)
      ensures ok == Present(files, p)
    {
      ok := p != "" && p in files;
    }

    /** os.MkdirAll; the directories it creates are not recorded. */
    method MkdirAll(d: Path) returns (ok: bool)
      ensures ok == (d !in faults.mkdir)
    {
      ok := d !in faults.mkdir;
    }

    /** ioutil.WriteFile: creates or replaces one file. */
    method WriteFile(p: Path, data: Bytes) returns (ok: bool)
      modifies this
      ensures ok == Writable(faults, p)
      ensures files == if ok then old(files)[p := data] else old(files)
    {
      ok := p != "" && p !in faults.write;
      if ok {
        files := files[p := data];
      }
    }

    /** ioutil.ReadFile. */
    method ReadFile(p: Path) returns (r: ReadResult)
      ensures r == ReadAt(files, faults, p)
    {
      if p != "" && p in files && p !in faults.read {
        r := Read(files[p]);
      } else {
        r := Unreadable;
      }
    }
  }

  /** The caller's configuration object. */
  class Target {
    const caps: Capabilities
    var events: seq<Event>

    constructor (caps: Capabilities)
      ensures this.caps == caps && events == []
    {
      this.caps := caps;
      events := [];
    }

    method GetDefaultConfig() returns (content: Bytes)
      requires caps.defaultConfig.Some?
      ensures content == caps.defaultConfig.value
    {
      content := caps.defaultConfig.value;
    }

    /** yaml.Unmarshal into this object; it may populate fields even when it fails. */
    method Unmarshal(data: Bytes, decode: Bytes -> DecodeResult) returns (r: DecodeResult)
      modifies this
      ensures r == decode(data)
      ensures events == old(events) + [Unmarshalled(data)]
    {
      r := decode(data);
      events := events + [Unmarshalled(data)];
    }

    method SetConfigPath(path: Path)
      requires caps.setConfigPath
      modifies this
      ensures events == old(events) + [ConfigPathSet(path)]
    {
      events := events + [ConfigPathSet(path)];
    }

    method Validate() returns (err: Option<string>)
      requires caps.validate.Some?
      modifies this
      ensures err == caps.validate.value(old(events))
      ensures events == old(events) + [Validated]
    {
      err := caps.validate.value(events);
      events := events + [Validated];
    }
  }

  /**
   * LoadConfig: the source's sequence of steps, each ending the call on error.
   * Its effect on the filesystem and on the target, and its result, are those
   * of `Load`.
   */
  method LoadConfig(cfgFiles: seq<string>, cfg: Target, fs: FileSystem, rt: Runtime) returns (err: Outcome)
    modifies fs, cfg
    ensures var run := Load(cfgFiles, cfg.caps, old(fs.files), fs.faults, old(cfg.events), rt);
            err == run.outcome && fs.files == run.files && cfg.events == run.events
  {
    var cfgFile: Path := "";
    if |cfgFiles| < 1 {
      return Failure(InvalidInput);
    }
    var k := 0;
    while k < |cfgFiles|
      invariant 0 <= k <= |cfgFiles|
      invariant cfgFile == ""
      invariant fs.files == old(fs.files) && cfg.events == old(cfg.events)
      invariant forall j :: 0 <= j < k ==> !Present(fs.files, rt.norm(cfgFiles[j]))
    {
      var filename := rt.norm(cfgFiles[k]);
      var found := fs.Stat(filename);
      if found {
        cfgFile := filename;
        assert FirstHit(cfgFiles, rt.norm, fs.files) == Some(k);
        break;
      }
      k := k + 1;
    }
    if cfgFile == "" {
      assert FirstHit(cfgFiles, rt.norm, fs.files).None?;
      if cfg.caps.defaultConfig.Some? {
        var defaultCfg := cfg.GetDefaultConfig();
        if |defaultCfg| == 0 {
          return Failure(NotFound(cfgFiles));
        }
        var defaultCfgPath := rt.norm(cfgFiles[0]);
        var ok := fs.MkdirAll(rt.dir(defaultCfgPath));
        if !ok {
          return Failure(MkdirFailed(defaultCfg));
        }
        ok := fs.WriteFile(defaultCfgPath, defaultCfg);
        if !ok {
          return Failure(WriteFailed(defaultCfg));
        } else {
          cfgFile := defaultCfgPath;
        }
      } else {
        return Failure(NotFound(cfgFiles));
      }
    }
    assert Resolve(cfgFiles, cfg.caps, old(fs.files), fs.faults, rt) == Resolved(cfgFile, fs.files);
    ghost var populated := Populate(cfgFile, fs.files, fs.faults, cfg.caps, cfg.events, rt);
    assert Load(cfgFiles, cfg.caps, old(fs.files), fs.faults, cfg.events, rt) == Run(populated.0, fs.files, populated.1);
    var read := fs.ReadFile(cfgFile);
    if read.Unreadable? {
      return Failure(ReadFailed(cfgFile));
    }
    var rawCfg := read.data;
    if |rawCfg| < 1 {
      return Failure(EmptyFile(cfgFile));
    }
    if cfg.caps.secret.Some? {
      match rt.render(rawCfg, cfg.caps.secret.value)
      case ParseFailed(cause) =>
        return Failure(TemplateParse(cause));
      case ExecFailed(cause) =>
        return Failure(TemplateExec(cause));
      case Rendered(output) =>
        rawCfg := output;
    }
    assert Template(read.data, cfg.caps, rt) == Ok(rawCfg);
    var decoded := cfg.Unmarshal(rawCfg, rt.decode);
    if decoded.DecodeFailed? {
      return Failure(Decode(decoded.cause));
    }
    if cfg.caps.setConfigPath {
      cfg.SetConfigPath(cfgFile);
    }
    if cfg.caps.validate.Some? {
      var verdict := cfg.Validate();
      if verdict.Some? {
        return Failure(Validation(verdict.value));
      }
    }
    return Success;
  }

  /**
   * RandomString: a buffer of `length` bytes, the i-th one `chars[pick(i)]`,
   * where `pick(i)` is the i-th index the random source returns.  The source
   * draws from [0, |chars|); a draw from an empty range panics, which the
   * precondition excludes.
   */
  method RandomString(chars: Bytes, length: nat, pick: nat -> nat) returns (s: Bytes)
    requires forall i :: 0 <= i < length ==> pick(i) < |chars|
    ensures |s| == length
    ensures forall i :: 0 <= i < length ==> s[i] == chars[pick(i)]
    ensures forall i :: 0 <= i < |s| ==> s[i] in chars
  {
    var b := new byte[length];
    for i := 0 to length
      invariant forall j :: 0 <= j < i ==> b[j] == chars[pick(j)]
    {
      var r := pick(i);
      b[i] := chars[r];
    }
    s := b[..];
  }
}
