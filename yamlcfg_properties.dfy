/**
 * Properties of one LoadConfig call, stated about its specification `Load`
 * (which the `LoadConfig` method is proved to implement): candidate order,
 * the default-file fallback, the empty-file check, template gating, the
 * order of the target's hooks and when the call succeeds.
 */
module YamlCfgProperties {
  import opened YamlCfg

  /** An empty candidate list is rejected before the filesystem or the target is touched. */
  lemma EmptyCandidatesRejected(cands: seq<string>, caps: Capabilities, files: map<Path, Bytes>, faults: Faults, events: seq<Event>, rt: Runtime)
    requires |cands| == 0
    ensures Load(cands, caps, files, faults, events, rt) == Run(Failure(InvalidInput), files, events)
  {
  }

  /**
   * When candidate i is the first whose path exists, nothing is written and the
   * rest of the pipeline works on that candidate's normalised path.
   */
  lemma FirstExistingCandidateWins(cands: seq<string>, caps: Capabilities, files: map<Path, Bytes>, faults: Faults, events: seq<Event>, rt: Runtime, i: nat)
    requires i < |cands| && Present(files, rt.norm(cands[i]))
    requires forall j :: 0 <= j < i ==> !Present(files, rt.norm(cands[j]))
    ensures Resolve(cands, caps, files, faults, rt) == Resolved(rt.norm(cands[i]), files)
    ensures var (outcome, history) := Populate(rt.norm(cands[i]), files, faults, caps, events, rt);
            Load(cands, caps, files, faults, events, rt) == Run(outcome, files, history)
  {
  }

  /** Once a candidate is hit, the candidates after it are never looked at. */
  lemma {:induction false} LaterCandidatesIgnored(cands: seq<string>, more: seq<string>, norm: string -> Path, files: map<Path, Bytes>)
    requires FirstHit(cands, norm, files).Some?
    ensures FirstHit(cands + more, norm, files) == FirstHit(cands, norm, files)
  {
    if !Present(files, norm(cands[0])) {
      assert (cands + more)[1..] == cands[1..] + more;
      LaterCandidatesIgnored(cands[1..], more, norm, files);
    }
  }

  /** The same for the whole call: a list extended after its first hit loads the same way. */
  lemma LoadIgnoresCandidatesAfterHit(cands: seq<string>, more: seq<string>, caps: Capabilities, files: map<Path, Bytes>, faults: Faults, events: seq<Event>, rt: Runtime)
    requires FirstHit(cands, rt.norm, files).Some?
    ensures Load(cands + more, caps, files, faults, events, rt) == Load(cands, caps, files, faults, events, rt)
  {
    LaterCandidatesIgnored(cands, more, rt.norm, files);
    var i := FirstHit(cands, rt.norm, files).value;
    assert (cands + more)[i] == cands[i];
  }

  /**
   * The scan in list order: on a list made of two parts, a hit in the first
   * part is the hit of the whole, and otherwise the hit of the whole is the
   * second part's hit, shifted past the first part.
   */
  lemma {:induction false} FirstHitOfConcatenation(front: seq<string>, back: seq<string>, norm: string -> Path, files: map<Path, Bytes>)
    ensures FirstHit(front + back, norm, files) ==
              match FirstHit(front, norm, files)
              case Some(i) => Some(i)
              case None =>
                match FirstHit(back, norm, files)
                case Some(j) => Some(|front| + j)
                case None => None
  {
    if |front| > 0 && !Present(files, norm(front[0])) {
      assert (front + back)[1..] == front[1..] + back;
      FirstHitOfConcatenation(front[1..], back, norm, files);
    } else if |front| == 0 {
      assert front + back == back;
    }
  }

  /**
   * Only whether each candidate's path exists decides the scan: two
   * filesystems that agree on that give the same hit, whatever else they hold.
   */
  lemma FirstHitDependsOnlyOnCandidates(cands: seq<string>, norm: string -> Path, files: map<Path, Bytes>, other: map<Path, Bytes>)
    requires forall j :: 0 <= j < |cands| ==> (Present(files, norm(cands[j])) <==> Present(other, norm(cands[j])))
    ensures FirstHit(cands, norm, files) == FirstHit(cands, norm, other)
  {
  }

  /**
   * Nothing exists and the target offers no default (no GetDefaultConfig, or an
   * empty one): not found, and nothing is written.
   */
  lemma NoDefaultNotFound(cands: seq<string>, caps: Capabilities, files: map<Path, Bytes>, faults: Faults, events: seq<Event>, rt: Runtime)
    requires |cands| > 0
    requires forall j :: 0 <= j < |cands| ==> !Present(files, rt.norm(cands[j]))
    requires caps.defaultConfig.None? || caps.defaultConfig.value == []
    ensures Load(cands, caps, files, faults, events, rt) == Run(Failure(NotFound(cands)), files, events)
  {
  }

  /**
   * Nothing exists and the default is non-empty: the one file written is the
   * default content at the FIRST candidate's path, which was absent before;
   * that path is the one the rest of the pipeline reads (and hands to
   * SetConfigPath).  A directory or write failure ends the call with nothing
   * written.
   */
  lemma DefaultMaterialisedAtFirstCandidate(cands: seq<string>, caps: Capabilities, files: map<Path, Bytes>, faults: Faults, events: seq<Event>, rt: Runtime)
    requires |cands| > 0
    requires forall j :: 0 <= j < |cands| ==> !Present(files, rt.norm(cands[j]))
    requires caps.defaultConfig.Some? && |caps.defaultConfig.value| > 0
    ensures var p, d := rt.norm(cands[0]), caps.defaultConfig.value;
            var run := Load(cands, caps, files, faults, events, rt);
            && (rt.dir(p) in faults.mkdir ==> run == Run(Failure(MkdirFailed(d)), files, events))
            && (rt.dir(p) !in faults.mkdir && !Writable(faults, p) ==> run == Run(Failure(WriteFailed(d)), files, events))
            && (rt.dir(p) !in faults.mkdir && Writable(faults, p) ==>
                  && p !in files
                  && run.files == files[p := d]
                  && run.files.Keys == files.Keys + {p}
                  && (run.outcome, run.events) == Populate(p, files[p := d], faults, caps, events, rt))
  {
  }

  /**
   * Whatever happens, a call changes at most one file: the default at the
   * first candidate, written only when no candidate existed.
   */
  lemma AtMostTheDefaultIsWritten(cands: seq<string>, caps: Capabilities, files: map<Path, Bytes>, faults: Faults, events: seq<Event>, rt: Runtime)
    ensures var run := Load(cands, caps, files, faults, events, rt);
            || run.files == files
            || (&& |cands| > 0
                && FirstHit(cands, rt.norm, files).None?
                && caps.defaultConfig.Some?
                && |caps.defaultConfig.value| > 0
                && run.files == files[rt.norm(cands[0]) := caps.defaultConfig.value])
  {
  }

  /**
   * A second call on the filesystem a first call left behind writes nothing:
   * the default file is created at most once.
   */
  lemma DefaultCreatedOnce(cands: seq<string>, caps: Capabilities, files: map<Path, Bytes>, faults: Faults, events: seq<Event>, later: seq<Event>, rt: Runtime)
    ensures var after := Load(cands, caps, files, faults, events, rt).files;
            Load(cands, caps, after, faults, later, rt).files == after
  {
  }

  /**
   * The empty check looks at the raw file: an empty file fails with EmptyFile
   * and nothing reaches the target, and a non-empty one never fails that way.
   */
  lemma EmptyFileRejected(path: Path, files: map<Path, Bytes>, faults: Faults, caps: Capabilities, events: seq<Event>, rt: Runtime, raw: Bytes)
    requires ReadAt(files, faults, path) == Read(raw)
    ensures raw == [] ==> Populate(path, files, faults, caps, events, rt) == (Failure(EmptyFile(path)), events)
    ensures Populate(path, files, faults, caps, events, rt).0 == Failure(EmptyFile(path)) <==> raw == []
  {
  }

  /**
   * Template gating: without GetSecret the raw bytes reach the decoder
   * unchanged; with it, a parse or execution failure is reported as such and
   * the decoder is never called, and otherwise the rendered bytes, even empty
   * ones, reach the decoder.
   */
  lemma TemplateGating(path: Path, files: map<Path, Bytes>, faults: Faults, caps: Capabilities, events: seq<Event>, rt: Runtime, raw: Bytes)
    requires ReadAt(files, faults, path) == Read(raw) && |raw| > 0
    ensures var (outcome, history) := Populate(path, files, faults, caps, events, rt);
            && (caps.secret.None? ==> |history| > |events| && history[|events|] == Unmarshalled(raw))
            && (caps.secret.Some? ==>
                  match rt.render(raw, caps.secret.value)
                  case ParseFailed(cause) => outcome == Failure(TemplateParse(cause)) && history == events
                  case ExecFailed(cause) => outcome == Failure(TemplateExec(cause)) && history == events
                  case Rendered(output) => |history| > |events| && history[|events|] == Unmarshalled(output))
  {
  }

  /**
   * The hooks in order: the loader only appends to the target's history, and
   * what it appends is nothing, or one failed decode, or a successful decode
   * always followed by SetConfigPath with the resolved path (when implemented)
   * and then Validate (when implemented).
   */
  ghost predicate HookOrder(tail: seq<Event>, path: Path, caps: Capabilities, rt: Runtime)
  {
    || tail == []
    || (|tail| == 1 && tail[0].Unmarshalled? && rt.decode(tail[0].data).DecodeFailed?)
    || (&& |tail| > 0
        && tail[0].Unmarshalled?
        && rt.decode(tail[0].data) == Decoded
        && tail[1..] == (if caps.setConfigPath then [ConfigPathSet(path)] else [])
                        + (if caps.validate.Some? then [Validated] else []))
  }

  lemma HooksFollowDecode(cands: seq<string>, caps: Capabilities, files: map<Path, Bytes>, faults: Faults, events: seq<Event>, rt: Runtime)
    ensures var run := Load(cands, caps, files, faults, events, rt);
            && events <= run.events
            && (|cands| > 0 && Resolve(cands, caps, files, faults, rt).Resolved? ==>
                  HookOrder(run.events[|events|..], Resolve(cands, caps, files, faults, rt).path, caps, rt))
            && (|cands| == 0 || Resolve(cands, caps, files, faults, rt).Unresolved? ==> run.events == events)
  {
  }

  /**
   * Success, and the verbatim Validate error, read off the target's history:
   * the call succeeds exactly when the decoder was reached and succeeded and
   * Validate, if implemented, returned nil; it fails with Validation(m)
   * exactly when Validate returned m.  Reaching the decoder implies every
   * earlier stage passed, since no earlier failure touches the target.
   */
  lemma SuccessIffEveryStagePasses(cands: seq<string>, caps: Capabilities, files: map<Path, Bytes>, faults: Faults, events: seq<Event>, rt: Runtime)
    ensures var run := Load(cands, caps, files, faults, events, rt);
            var tail := run.events[|events|..];
            var decodedOk := |tail| > 0 && tail[0].Unmarshalled? && rt.decode(tail[0].data) == Decoded;
            && events <= run.events
            && (run.outcome == Success <==>
                  && decodedOk
                  && (caps.validate.Some? ==> caps.validate.value(run.events[..|run.events| - 1]) == None))
            && (forall m :: run.outcome == Failure(Validation(m)) <==>
                  && decodedOk
                  && caps.validate.Some?
                  && caps.validate.value(run.events[..|run.events| - 1]) == Some(m))
  {
  }
}
