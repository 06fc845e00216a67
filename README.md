# go-yamlcfg loader, modelled in Dafny

go-yamlcfg loads a YAML configuration file into a caller's object.
`LoadConfig(cfgFiles, cfg)` walks an ordered list of candidate paths and takes
the first one that exists (after environment expansion and `filepath.Abs`).
If none exists and the object implements `GetDefaultConfig()` with a non-empty
result, it writes that content at the first candidate's path and uses that
file. It then reads the file, rejects an empty one, and runs the bytes through
`text/template` (with `secret` and `env` functions) when the object implements
`GetSecret`. It decodes the result into the object, calls `SetConfigPath` with
the resolved path and finally `Validate`, whose error is returned as is. Every
error ends the call. `RandomString(chars, length)` builds a string of `length`
bytes drawn from `chars`.

The project has two modules:

- `YamlCfg` (yamlcfg.dfy) holds the model:
  - The filesystem is a `FileSystem` object. It holds a map from absolute path to contents and the sets of paths on which `MkdirAll`, `WriteFile` and `ReadFile` fail. Its methods stand for the OS calls and define the abstraction rather than model logic of the loader: `Stat` (yamlcfg.go:27) succeeds exactly on a non-empty path in the map (`Present`); `MkdirAll` (line 39) fails exactly on the refused directories and records nothing; `ReadFile` (line 53) yields the contents of a present, readable path (`ReadAt`).
  - The target object is a `Target`. It holds the four optional capabilities and the history of what the loader did to it: `Unmarshalled(data)`, `ConfigPathSet(path)` and `Validated`. `GetDefaultConfig` (yamlcfg.go:33-34) returns the fixed default content.
  - `Runtime` bundles the library calls the model treats as opaque functions: env expansion with `filepath.Abs`, `filepath.Dir`, the template engine and the YAML decoder.
  - `Load` is the functional specification of one call. It is built from the stages `FirstHit`, `Resolve`, `Template`, `Populate` and `Hooks`.
  - The `LoadConfig` method follows the source statement by statement. It is proved to leave the filesystem and the target as `Load` says and to return `Load`'s result.
  - `RandomString` fills a fresh array in a loop. The random source is an oracle `pick` that gives the index of each draw.
- `YamlCfgProperties` (yamlcfg_properties.dfy) proves the properties of `Load` listed below.

The messages at yamlcfg.go:41 and :45 show the default content, not the path;
`MkdirFailed` and `WriteFailed` carry the content.

## Model

| member | source | states |
|---|---|---|
| `YamlCfg.LoadConfig` | yamlcfg.go:20-93 | the method's result, the filesystem afterwards and the target's history afterwards are exactly those of the specification `Load`, for every input |
| `YamlCfg.FirstHit` | yamlcfg.go:25-31 | the index of the first candidate, in list order, whose normalised path exists, with every earlier one absent; None exactly when no candidate exists |
| `YamlCfg.FileSystem.WriteFile` | yamlcfg.go:43 | a write succeeds exactly on a non-empty path the OS accepts, and then sets that one path to the data and changes nothing else |
| `YamlCfg.Target.Unmarshal` | yamlcfg.go:78 | reports the decoder's verdict on the data and records that the data was decoded into the target, whether or not decoding failed |
| `YamlCfg.Target.SetConfigPath` | yamlcfg.go:82-84 | only callable when the capability is present; records the path handed to the target |
| `YamlCfg.Target.Validate` | yamlcfg.go:85-90 | only callable when the capability is present; returns the verdict on everything done to the target so far and records the call |
| `YamlCfg.RandomString` | yamlcfg.go:96-107 | the result has exactly `length` bytes, the i-th is `chars[pick(i)]`, so every byte is an element of `chars` |
| `YamlCfgProperties.EmptyCandidatesRejected` | yamlcfg.go:22-24 | an empty candidate list returns InvalidInput with the filesystem and the target untouched |
| `YamlCfgProperties.FirstExistingCandidateWins` | yamlcfg.go:25-31 | when candidate i is the first that exists, its normalised path is the resolved file, nothing is written, and the rest of the pipeline runs on that path |
| `YamlCfgProperties.LaterCandidatesIgnored` | yamlcfg.go:25-31 | after a hit the scan stops: appending any candidates to the list does not change which candidate is hit |
| `YamlCfgProperties.FirstHitOfConcatenation` | yamlcfg.go:25-31 | the scan goes in list order: on a list split in two, a hit in the first part is the hit, and otherwise the hit is the second part's, shifted past the first part |
| `YamlCfgProperties.FirstHitDependsOnlyOnCandidates` | yamlcfg.go:25-31 | only whether each candidate's path exists decides the hit; other files make no difference |
| `YamlCfgProperties.LoadIgnoresCandidatesAfterHit` | yamlcfg.go:25-31 | a call on a list extended past its first hit gives the same result, filesystem and target history |
| `YamlCfgProperties.NoDefaultNotFound` | yamlcfg.go:32-51 | when nothing exists and the target has no GetDefaultConfig or it returns empty content, the result is NotFound(candidates) and nothing is written or touched |
| `YamlCfgProperties.DefaultMaterialisedAtFirstCandidate` | yamlcfg.go:38-48 | when nothing exists and the default is non-empty, a directory or write failure returns its error with nothing written; otherwise exactly one new file appears, at the first candidate's normalised path, with the default content, and that path is the one read and handed to SetConfigPath |
| `YamlCfgProperties.AtMostTheDefaultIsWritten` | yamlcfg.go:32-52 | every call leaves the filesystem unchanged, except that it may add the default at the first candidate when no candidate existed |
| `YamlCfgProperties.DefaultCreatedOnce` | yamlcfg.go:25-48 | a second call on the filesystem the first left behind writes nothing |
| `YamlCfgProperties.EmptyFileRejected` | yamlcfg.go:53-59 | the call fails with EmptyFile exactly when the raw file is empty, and then the target is untouched |
| `YamlCfgProperties.TemplateGating` | yamlcfg.go:60-77 | without GetSecret the decoder receives the raw bytes; with it, a parse or an execution failure returns its own error before decoding; otherwise the rendered bytes reach the decoder, even when empty |
| `YamlCfgProperties.HooksFollowDecode` | yamlcfg.go:78-90 | the loader only appends to the target's history: nothing, or one failed decode, or a successful decode always followed by SetConfigPath with the resolved path (if implemented) and then Validate (if implemented); a call that fails before reading touches nothing |
| `YamlCfgProperties.SuccessIffEveryStagePasses` | yamlcfg.go:78-92 | the call succeeds exactly when decoding was reached and succeeded and Validate, if implemented, returned nil; it fails with Validation(m) exactly when Validate returned m, even though decoding succeeded |

## Left out

- YAML decoding (gopkg.in/yaml.v3): an opaque `decode` that succeeds or fails. Field mapping, tags and partial population are not modelled. The target records which bytes were decoded into it.
- text/template parsing and execution: an opaque `render` with distinct parse and execution failures. The `secret` and `env` substitution is not modelled. The process environment is folded into `render`.
- `os.ExpandEnv`, `filepath.Abs` and `filepath.Dir`: opaque functions. The ignored `Abs` error is folded into `norm`. `os.Stat` and `ioutil.WriteFile` fail on the empty path, which keeps the source's `cfgFile == ""` test meaningful.
- YamlCfg.FileSystem.WriteFile: a write failure is modelled as atomic, with no file left behind. `ioutil.WriteFile` creates and truncates before writing, so a failed write can leave an empty or partial file at the default path, which a later call would find (and then reject as empty or decode in part). `DefaultMaterialisedAtFirstCandidate` and `AtMostTheDefaultIsWritten` state "nothing written" under this simplification.
- Directories: `MkdirAll` only succeeds or fails, and the directories it creates are not recorded. A candidate that names a directory is represented as a present path whose read fails.
- File permission bits (0755, 0600) and the wording of error messages. The model keeps the error kinds and the data each message carries.
- The capabilities are fixed for one call. `GetDefaultConfig` is a constant, and `Validate` is a function of the target's history.
- YamlCfg.RandomString: does not model the uniformity or cryptographic quality of `crypto/rand`. An entropy failure is a panic, which the oracle's range precondition excludes. So is a draw from an empty alphabet. A negative length, which panics in `make`, is excluded by the `nat` type.
- Concurrent callers creating the same default file: concurrency is out of scope.
- `CharsetAlphanumeric`: a constant with no behaviour.
