/** The pipeline behind one `generate` request of the production handler:
    input resolution (local path or URL, media kind from the extension),
    parameter defaulting, the invocation of the external generator, and the
    outcome classification including the soft-failing upload.  Every external
    effect is an oracle result in `Effects`; the calls the pipeline makes are
    returned as a trace so that "no download", "no launch" and "upload only
    when" can be stated. */
module Generation {
  import opened Values

  const DefaultSize := "infinitetalk-480"
  const DefaultPrompt := "A person is talking"
  const InputErrorMessage := "Either provide audio_path/image_path or audio_url/image_url"
  const GenerationFailedPrefix := "Generation failed: "
  /** The visual extensions that are treated as a video clip. */
  const VideoExtensions: seq<string> := ["mp4", "avi", "mov", "webm"]

  // ---------------------------------------------------------------- oracles

  /** What `subprocess.run(["wget", ...], check=True)` did. */
  datatype FetchResult = Fetched | FetchRaised(message: string)

  /** What `Popen(...)` followed by `communicate()` did. */
  datatype RunResult = LaunchRaised(message: string) | Exited(returnCode: int, stderr: string)

  /** What `upload_file` followed by `generate_presigned_url` did. */
  datatype PublishResult = Presigned(url: string) | PublishRaised

  /** The outside world during one request. */
  datatype Effects = Effects(
    audioFetch: FetchResult,
    imageFetch: FetchResult,
    run: RunResult,
    outputExists: bool,
    publish: PublishResult)

  // ---------------------------------------------------- what is handed over

  /** The visual condition of the input JSON: exactly one of `cond_video`
      and `cond_image`. */
  datatype Visual = CondVideo(video: string) | CondImage(image: string)

  /** The input JSON file: prompt, `cond_audio.person1`, and the visual. */
  datatype InvocationInput = InvocationInput(prompt: Value, condAudio: Value, visual: Visual)

  /** The generation parameters passed on the command line. */
  datatype GenerationConfig = GenerationConfig(
    size: Value,
    frameNum: Value,
    maxFrameNum: Value,
    sampleSteps: Value,
    sampleShift: Value,
    cfgScale: Value,
    seed: Value)

  /** An external call the pipeline makes, in order. */
  datatype Call =
    | Wget(dest: string, url: Value)
    | Launch(input: InvocationInput, config: GenerationConfig, outputPath: string)
    | Upload(file: string, key: string)

  // ------------------------------------------------------ input resolution

  /** The TypeError `subprocess.run` raises for a command argument that is
      neither a string, bytes nor a path. */
  function ArgTypeError(v: Value): string {
    "expected str, bytes or os.PathLike object, not " + TypeName(v)
  }

  function AudioDownloadPath(jobId: string): string {
    "/tmp/" + jobId + "_audio.wav"
  }

  /** The lower-cased last '.'-separated segment of a URL. */
  function UrlExtension(url: string): string {
    ToLower(LastSegment(url))
  }

  /** An extension taken from a URL has no '.' and is lower case. */
  lemma UrlExtensionShape(url: string)
    ensures '.' !in UrlExtension(url)
    ensures ToLower(UrlExtension(url)) == UrlExtension(url)
  {
    LastSegmentShape(url);
    ToLowerIdempotent(LastSegment(url));
  }

  /** The extension a downloaded visual is given: a video extension is
      kept, anything else becomes `jpg`. */
  function VisualTail(url: string): string {
    var ext := UrlExtension(url);
    if ext in VideoExtensions then ext else "jpg"
  }

  /** The extension given to a downloaded visual is lower case. */
  lemma VisualTailIsLower(url: string)
    ensures ToLower(VisualTail(url)) == VisualTail(url)
  {
    if UrlExtension(url) in VideoExtensions {
      UrlExtensionShape(url);
    } else {
      JpgIsLower();
    }
  }

  lemma JpgIsLower()
    ensures ToLower("jpg") == "jpg"
  {
    var r := ToLower("jpg");
    assert r[0] == 'j' && r[1] == 'p' && r[2] == 'g';
  }

  /** Where a visual URL is downloaded to. */
  function ImageDownloadPath(jobId: string, url: string): string {
    ("/tmp/" + jobId + "_input") + ("." + VisualTail(url))
  }

  /** `path.lower().endswith(('.mp4', '.avi', '.mov', '.webm'))`. */
  predicate IsVideoPath(path: string) {
    var p := ToLower(path);
    EndsWith(p, ".mp4") || EndsWith(p, ".avi") || EndsWith(p, ".mov") || EndsWith(p, ".webm")
  }

  /** The kind decided from the URL when downloading and the kind decided
      from the downloaded path when building the input JSON agree. */
  lemma ImageDownloadKind(jobId: string, url: string)
    ensures IsVideoPath(ImageDownloadPath(jobId, url)) <==> UrlExtension(url) in VideoExtensions
  {
    VisualTailIsLower(url);
    TailDecidesKind("/tmp/" + jobId + "_input", UrlExtension(url), VisualTail(url));
  }

  /** A path ending in '.' and a lower-case tail looks like a video iff the
      tail is a video extension, whatever comes before. */
  lemma TailDecidesKind(prefix: string, ext: string, tail: string)
    requires tail == (if ext in VideoExtensions then ext else "jpg")
    requires ToLower(tail) == tail
    ensures IsVideoPath(prefix + ("." + tail)) <==> ext in VideoExtensions
  {
    if ext in VideoExtensions {
      VideoTailDecides(prefix, tail);
    } else {
      JpgTailDecides(prefix);
      assert "." + tail == ".jpg";
    }
  }

  lemma VideoTailDecides(prefix: string, ext: string)
    requires ext in VideoExtensions && ToLower(ext) == ext
    ensures IsVideoPath(prefix + ("." + ext))
  {
    var p := ToLower(prefix) + ("." + ext);
    assert ToLower(prefix + ("." + ext)) == p by {
      LowerKeepsDottedTail(prefix, ext);
    }
    assert EndsWith(p, ".mp4") || EndsWith(p, ".avi") || EndsWith(p, ".mov") || EndsWith(p, ".webm") by {
      EndsWithAppend(ToLower(prefix), "." + ext);
      VideoTailIsVideo(p, ext);
    }
  }

  lemma JpgTailDecides(prefix: string)
    ensures !IsVideoPath(prefix + ".jpg")
  {
    var p := ToLower(prefix) + ".jpg";
    assert ToLower(prefix + ".jpg") == p by {
      JpgIsLower();
      LowerKeepsDottedTail(prefix, "jpg");
      assert "." + "jpg" == ".jpg";
    }
    assert !EndsWith(p, ".mp4") && !EndsWith(p, ".avi") && !EndsWith(p, ".mov") && !EndsWith(p, ".webm") by {
      EndsWithAppend(ToLower(prefix), ".jpg");
      JpgTailIsNotVideo(p);
    }
  }

  lemma EndsWithAppend(a: string, b: string)
    ensures EndsWith(a + b, b)
  {
    assert (a + b)[|a|..] == b;
  }

  lemma LowerKeepsDottedTail(prefix: string, tail: string)
    requires ToLower(tail) == tail
    ensures ToLower(prefix + ("." + tail)) == ToLower(prefix) + ("." + tail)
  {
    ToLowerAppend(prefix, "." + tail);
    ToLowerAppend(".", tail);
    assert ToLower(".") == ".";
  }

  lemma VideoTailIsVideo(p: string, ext: string)
    requires ext in VideoExtensions && EndsWith(p, "." + ext)
    ensures EndsWith(p, ".mp4") || EndsWith(p, ".avi") || EndsWith(p, ".mov") || EndsWith(p, ".webm")
  {
  }

  lemma JpgTailIsNotVideo(p: string)
    requires EndsWith(p, ".jpg")
    ensures !EndsWith(p, ".mp4") && !EndsWith(p, ".avi") && !EndsWith(p, ".mov") && !EndsWith(p, ".webm")
  {
    SuffixLastChar(p, ".jpg");
    if EndsWith(p, ".mp4") { SuffixLastChar(p, ".mp4"); }
    if EndsWith(p, ".avi") { SuffixLastChar(p, ".avi"); }
    if EndsWith(p, ".mov") { SuffixLastChar(p, ".mov"); }
    if EndsWith(p, ".webm") { SuffixLastChar(p, ".webm"); }
  }

  lemma SuffixLastChar(s: string, suffix: string)
    requires EndsWith(s, suffix) && |suffix| > 0
    ensures s[|s| - 1] == suffix[|suffix| - 1]
  {
    assert s[|s| - |suffix|..][|suffix| - 1] == s[|s| - 1];
  }

  /** The paths after runpod_handler.py:87-109, the first exception raised there (if
      any), and the downloads attempted. */
  datatype Resolution = Resolution(audio: Value, image: Value, failure: Option<string>, calls: seq<Call>)

  /** runpod_handler.py:87-109.  Local paths are used when both are truthy;
      otherwise each truthy URL is downloaded (audio first) and replaces its
      path, even a path that was given.  An audio URL that is not a string
      makes `subprocess.run` raise before wget starts. */
  function Resolve(input: Dict, jobId: string, fx: Effects): Resolution {
    var audioPath := Get(input, "audio_path");
    var imagePath := Get(input, "image_path");
    if Truthy(audioPath) && Truthy(imagePath) then
      Resolution(audioPath, imagePath, None, [])
    else
      var audioUrl := Get(input, "audio_url");
      var audio := if Truthy(audioUrl) then Str(AudioDownloadPath(jobId)) else audioPath;
      if Truthy(audioUrl) && !audioUrl.Str? then
        Resolution(audio, imagePath, Some(ArgTypeError(audioUrl)), [])
      else
      var audioCalls := if Truthy(audioUrl) then [Wget(AudioDownloadPath(jobId), audioUrl)] else [];
      if Truthy(audioUrl) && fx.audioFetch.FetchRaised? then
        Resolution(audio, imagePath, Some(fx.audioFetch.message), audioCalls)
      else
        ResolveVisual(input, jobId, fx, audio, audioCalls)
  }

  /** runpod_handler.py:97-109, once the audio is settled: a truthy visual URL must be a
      string, and is downloaded to a path that keeps a video extension. */
  function ResolveVisual(input: Dict, jobId: string, fx: Effects, audio: Value, audioCalls: seq<Call>): Resolution {
    var imagePath := Get(input, "image_path");
    var imageUrl := Get(input, "image_url");
    if !Truthy(imageUrl) then
      Resolution(audio, imagePath, None, audioCalls)
    else if !imageUrl.Str? then
      Resolution(audio, imagePath, Some(NoAttribute(imageUrl, "split")), audioCalls)
    else
      var dest := ImageDownloadPath(jobId, imageUrl.s);
      var failure := if fx.imageFetch.FetchRaised? then Some(fx.imageFetch.message) else None;
      Resolution(audio, Str(dest), failure, audioCalls + [Wget(dest, imageUrl)])
  }

  // ----------------------------------------------------- input JSON, config

  /** runpod_handler.py:133-138: the input JSON's visual key is chosen by
      the lower-cased suffix of the path. */
  function ClassifyVisual(imagePath: string): (v: Visual)
    ensures v.CondVideo? <==> IsVideoPath(imagePath)
    ensures v == CondVideo(imagePath) || v == CondImage(imagePath)
  {
    if IsVideoPath(imagePath) then CondVideo(imagePath) else CondImage(imagePath)
  }

  /** runpod_handler.py:116-122: each parameter is taken from the request when the key
      is present (whatever its value) and defaulted otherwise; the default
      `sample_shift` depends on the resulting `size`. */
  function ConfigOf(input: Dict): (c: GenerationConfig)
    ensures "size" in input ==> c.size == input["size"]
    ensures "size" !in input ==> c.size == Str(DefaultSize)
    ensures "frame_num" in input ==> c.frameNum == input["frame_num"]
    ensures "frame_num" !in input ==> c.frameNum == Int(81)
    ensures "max_frame_num" in input ==> c.maxFrameNum == input["max_frame_num"]
    ensures "max_frame_num" !in input ==> c.maxFrameNum == Int(1000)
    ensures "sample_steps" in input ==> c.sampleSteps == input["sample_steps"]
    ensures "sample_steps" !in input ==> c.sampleSteps == Int(40)
    ensures "sample_shift" in input ==> c.sampleShift == input["sample_shift"]
    ensures "sample_shift" !in input ==> c.sampleShift == (if c.size == Str(DefaultSize) then Int(7) else Int(11))
    ensures "cfg_scale" in input ==> c.cfgScale == input["cfg_scale"]
    ensures "cfg_scale" !in input ==> c.cfgScale == Float("1.1")
    ensures "seed" in input ==> c.seed == input["seed"]
    ensures "seed" !in input ==> c.seed == Int(-1)
  {
    var size := GetOr(input, "size", Str(DefaultSize));
    GenerationConfig(
      size,
      GetOr(input, "frame_num", Int(81)),
      GetOr(input, "max_frame_num", Int(1000)),
      GetOr(input, "sample_steps", Int(40)),
      GetOr(input, "sample_shift", if size == Str(DefaultSize) then Int(7) else Int(11)),
      GetOr(input, "cfg_scale", Float("1.1")),
      GetOr(input, "seed", Int(-1)))
  }

  /** The configuration a request gets when it sets no parameter at all. */
  const DefaultConfig := GenerationConfig(Str(DefaultSize), Int(81), Int(1000), Int(40), Int(7), Float("1.1"), Int(-1))

  const ParameterKeys := {"size", "frame_num", "max_frame_num", "sample_steps", "sample_shift", "cfg_scale", "seed"}

  /** Every parameter has a default: a request that carries only its assets
      is always invocable, with the smaller preset and its shift of 7. */
  lemma AssetsOnlyRequestGetsDefaults(input: Dict)
    requires input.Keys !! ParameterKeys
    ensures ConfigOf(input) == DefaultConfig
  {
    assert "size" !in input && "frame_num" !in input && "max_frame_num" !in input;
    assert "sample_steps" !in input && "sample_shift" !in input && "cfg_scale" !in input && "seed" !in input;
  }

  /** The size-dependent default of `sample_shift`: 7 for the 480 preset, 11
      for any other size, including an explicit but different one. */
  lemma SampleShiftDefault(input: Dict)
    requires "sample_shift" !in input
    ensures ConfigOf(input).sampleShift == Int(7) <==> Get(input, "size") == Str(DefaultSize) || "size" !in input
    ensures ConfigOf(input).sampleShift != Int(7) ==> ConfigOf(input).sampleShift == Int(11)
  {
  }

  // ------------------------------------------------------------ the outcome

  function OutputPath(outputRoot: string, jobId: string): string {
    outputRoot + "/" + jobId + ".mp4"
  }

  function UploadKey(jobId: string): string {
    "outputs/" + jobId + ".mp4"
  }

  /** Every file a job touches is named after its job id, so two jobs never
      share a download, an output file or an upload key. */
  lemma JobFilesDistinct(outputRoot: string, url: string, a: string, b: string)
    requires a != b
    ensures AudioDownloadPath(a) != AudioDownloadPath(b)
    ensures ImageDownloadPath(a, url) != ImageDownloadPath(b, url)
    ensures OutputPath(outputRoot, a) != OutputPath(outputRoot, b)
    ensures UploadKey(a) != UploadKey(b)
  {
    InfixDetermined("/tmp/", a, b, "_audio.wav");
    InfixDetermined("/tmp/", a, b, "_input" + ("." + VisualTail(url)));
    assert ImageDownloadPath(a, url) == "/tmp/" + a + ("_input" + ("." + VisualTail(url)));
    assert ImageDownloadPath(b, url) == "/tmp/" + b + ("_input" + ("." + VisualTail(url)));
    InfixDetermined(outputRoot + "/", a, b, ".mp4");
    assert OutputPath(outputRoot, a) == (outputRoot + "/") + a + ".mp4";
    assert OutputPath(outputRoot, b) == (outputRoot + "/") + b + ".mp4";
    InfixDetermined("outputs/", a, b, ".mp4");
  }

  datatype JobResult = Succeeded(outputPath: string, presignedUrl: Value) | Failed(error: string)

  datatype Outcome = Outcome(result: JobResult, calls: seq<Call>)

  /** Resolution ended without an exception, with two truthy paths, and a
      string image path: the input JSON can be built. */
  predicate ReadyToLaunch(r: Resolution) {
    r.failure.None? && Truthy(r.audio) && Truthy(r.image) && r.image.Str?
  }

  /** The TypeError `' '.join(cmd)` raises when the `--size` value, item 13
      of the command, is not a string. */
  function JoinTypeError(size: Value): string {
    "sequence item 13: expected str instance, " + TypeName(size) + " found"
  }

  /** The input JSON can be built and the command line joined: the
      generator is launched. */
  predicate Launchable(input: Dict, r: Resolution) {
    ReadyToLaunch(r) && ConfigOf(input).size.Str?
  }

  function LaunchCall(outputRoot: string, input: Dict, jobId: string, r: Resolution): Call
    requires ReadyToLaunch(r)
  {
    Launch(InvocationInput(GetOr(input, "prompt", Str(DefaultPrompt)), r.audio, ClassifyVisual(r.image.s)),
           ConfigOf(input), OutputPath(outputRoot, jobId))
  }

  /** runpod_handler.py:86-216 as one function: the job's result and the
      calls made. */
  function Run(outputRoot: string, s3Configured: bool, input: Dict, jobId: string, fx: Effects): Outcome {
    RunResolved(outputRoot, s3Configured, input, jobId, fx, Resolve(input, jobId, fx))
  }

  /** runpod_handler.py:111-216, once resolution `r` is done: the input
      check, the visual's `lower()`, the join of the command line (which needs
      a string `size`), the launch and the soft-failing upload. */
  function RunResolved(outputRoot: string, s3Configured: bool, input: Dict, jobId: string, fx: Effects, r: Resolution): Outcome {
    if r.failure.Some? then Outcome(Failed(r.failure.value), r.calls)
    else if !Truthy(r.audio) || !Truthy(r.image) then Outcome(Failed(InputErrorMessage), r.calls)
    else if !r.image.Str? then Outcome(Failed(NoAttribute(r.image, "lower")), r.calls)
    else if !ConfigOf(input).size.Str? then Outcome(Failed(JoinTypeError(ConfigOf(input).size)), r.calls)
    else
      var outputPath := OutputPath(outputRoot, jobId);
      var calls := r.calls + [LaunchCall(outputRoot, input, jobId, r)];
      match fx.run
      case LaunchRaised(message) => Outcome(Failed(message), calls)
      case Exited(code, stderr) =>
        if code != 0 then Outcome(Failed(GenerationFailedPrefix + stderr), calls)
        else if s3Configured && fx.outputExists then
          var url := if fx.publish.Presigned? then Str(fx.publish.url) else Null;
          Outcome(Succeeded(outputPath, url), calls + [Upload(outputPath, UploadKey(jobId))])
        else Outcome(Succeeded(outputPath, Null), calls)
  }

  predicate HasLaunch(calls: seq<Call>) {
    exists i :: 0 <= i < |calls| && calls[i].Launch?
  }

  predicate HasUpload(calls: seq<Call>) {
    exists i :: 0 <= i < |calls| && calls[i].Upload?
  }

  predicate HasWget(calls: seq<Call>) {
    exists i :: 0 <= i < |calls| && calls[i].Wget?
  }

  /** Resolution only ever downloads. */
  lemma ResolveOnlyDownloads(input: Dict, jobId: string, fx: Effects)
    ensures forall i :: 0 <= i < |Resolve(input, jobId, fx).calls| ==> Resolve(input, jobId, fx).calls[i].Wget?
  {
  }

  /** With both local paths given, no URL is consulted and nothing is
      downloaded. */
  lemma BothPathsSkipUrls(outputRoot: string, s3Configured: bool, input: Dict, jobId: string, fx: Effects)
    requires Truthy(Get(input, "audio_path")) && Truthy(Get(input, "image_path"))
    ensures Resolve(input, jobId, fx) == Resolution(input["audio_path"], input["image_path"], None, [])
    ensures !HasWget(Run(outputRoot, s3Configured, input, jobId, fx).calls)
  {
  }

  /** The generator is launched exactly when resolution succeeded with two
      truthy paths, a string image path and a string `size`, and then it is
      launched once, after all downloads. */
  lemma LaunchedIffReady(outputRoot: string, s3Configured: bool, input: Dict, jobId: string, fx: Effects)
    ensures var o := Run(outputRoot, s3Configured, input, jobId, fx);
            var r := Resolve(input, jobId, fx);
            HasLaunch(o.calls) <==> Launchable(input, r)
    ensures var o := Run(outputRoot, s3Configured, input, jobId, fx);
            var r := Resolve(input, jobId, fx);
            Launchable(input, r) ==> |o.calls| > |r.calls| && o.calls[..|r.calls|] == r.calls
                                     && o.calls[|r.calls|] == LaunchCall(outputRoot, input, jobId, r)
    ensures var o := Run(outputRoot, s3Configured, input, jobId, fx);
            var r := Resolve(input, jobId, fx);
            forall i :: 0 <= i < |o.calls| && o.calls[i].Launch? ==> i == |r.calls|
  {
    var o := Run(outputRoot, s3Configured, input, jobId, fx);
    var r := Resolve(input, jobId, fx);
    ResolveOnlyDownloads(input, jobId, fx);
    if Launchable(input, r) {
      assert o.calls[|r.calls|].Launch?;
      assert o.calls == r.calls + [LaunchCall(outputRoot, input, jobId, r)]
             || o.calls == r.calls + [LaunchCall(outputRoot, input, jobId, r), Upload(OutputPath(outputRoot, jobId), UploadKey(jobId))];
    } else {
      assert o.calls == r.calls;
    }
  }

  /** A path still missing after URL resolution fails the job with the input
      error, and nothing is launched. */
  lemma UnresolvedInputFails(outputRoot: string, s3Configured: bool, input: Dict, jobId: string, fx: Effects)
    requires Resolve(input, jobId, fx).failure.None?
    requires !Truthy(Resolve(input, jobId, fx).audio) || !Truthy(Resolve(input, jobId, fx).image)
    ensures Run(outputRoot, s3Configured, input, jobId, fx).result == Failed(InputErrorMessage)
    ensures !HasLaunch(Run(outputRoot, s3Configured, input, jobId, fx).calls)
  {
    LaunchedIffReady(outputRoot, s3Configured, input, jobId, fx);
  }

  /** A request with neither `audio_path` nor `audio_url` fails without the
      generator being launched; the input error is reported unless an
      `image_url` was tried first and raised. */
  lemma MissingAudioFails(outputRoot: string, s3Configured: bool, input: Dict, jobId: string, fx: Effects)
    requires !Truthy(Get(input, "audio_path")) && !Truthy(Get(input, "audio_url"))
    ensures var o := Run(outputRoot, s3Configured, input, jobId, fx);
            o.result.Failed? && !HasLaunch(o.calls) && !HasUpload(o.calls)
    ensures !Truthy(Get(input, "image_url")) ==>
              Run(outputRoot, s3Configured, input, jobId, fx) == Outcome(Failed(InputErrorMessage), [])
    ensures Get(input, "image_url").Str? && Truthy(Get(input, "image_url")) && fx.imageFetch == Fetched ==>
              Run(outputRoot, s3Configured, input, jobId, fx).result == Failed(InputErrorMessage)
  {
    var r := Resolve(input, jobId, fx);
    assert r == ResolveVisual(input, jobId, fx, Get(input, "audio_path"), []);
    assert !Truthy(r.audio);
    var o := Run(outputRoot, s3Configured, input, jobId, fx);
    assert o == Outcome(Failed(if r.failure.Some? then r.failure.value else InputErrorMessage), r.calls);
    assert !HasLaunch(o.calls) && !HasUpload(o.calls) by {
      ResolveOnlyDownloads(input, jobId, fx);
    }
  }

  /** A `size` that is not a string fails the job at the join of the
      command line, whatever the generator would have done: it is never
      launched. */
  lemma NonStringSizeFails(outputRoot: string, s3Configured: bool, input: Dict, jobId: string, fx: Effects)
    requires ReadyToLaunch(Resolve(input, jobId, fx)) && !ConfigOf(input).size.Str?
    ensures Run(outputRoot, s3Configured, input, jobId, fx)
            == Outcome(Failed(JoinTypeError(ConfigOf(input).size)), Resolve(input, jobId, fx).calls)
    ensures !HasLaunch(Run(outputRoot, s3Configured, input, jobId, fx).calls)
  {
    LaunchedIffReady(outputRoot, s3Configured, input, jobId, fx);
  }

  /** An audio URL that is not a string fails the job before anything is
      downloaded or launched. */
  lemma NonStringAudioUrlFails(outputRoot: string, s3Configured: bool, input: Dict, jobId: string, fx: Effects)
    requires !(Truthy(Get(input, "audio_path")) && Truthy(Get(input, "image_path")))
    requires Truthy(Get(input, "audio_url")) && !Get(input, "audio_url").Str?
    ensures Run(outputRoot, s3Configured, input, jobId, fx) == Outcome(Failed(ArgTypeError(Get(input, "audio_url"))), [])
  {
  }

  /** Once the command line is built, the exit code alone decides: non-zero
      fails the job with the captured stderr, zero completes it at the
      deterministic output path, whether or not the file exists and whether
      or not the upload worked; a failed upload or presign only leaves the
      URL as None.  A non-string `size` fails before the exit code matters. */
  lemma ExitCodeDecides(outputRoot: string, s3Configured: bool, input: Dict, jobId: string, fx: Effects)
    requires ReadyToLaunch(Resolve(input, jobId, fx)) && fx.run.Exited?
    ensures var o := Run(outputRoot, s3Configured, input, jobId, fx);
            !ConfigOf(input).size.Str? ==> o.result == Failed(JoinTypeError(ConfigOf(input).size))
    ensures var o := Run(outputRoot, s3Configured, input, jobId, fx);
            ConfigOf(input).size.Str? && fx.run.returnCode != 0 ==> o.result == Failed(GenerationFailedPrefix + fx.run.stderr)
    ensures var o := Run(outputRoot, s3Configured, input, jobId, fx);
            ConfigOf(input).size.Str? && fx.run.returnCode == 0 ==>
              o.result == Succeeded(OutputPath(outputRoot, jobId),
                                    if s3Configured && fx.outputExists && fx.publish.Presigned?
                                    then Str(fx.publish.url) else Null)
  {
  }

  /** An upload is attempted exactly when the generator was launched and
      exited with 0, storage is configured and the output file exists. */
  lemma UploadOnlyWhenPresent(outputRoot: string, s3Configured: bool, input: Dict, jobId: string, fx: Effects)
    ensures HasUpload(Run(outputRoot, s3Configured, input, jobId, fx).calls) <==>
              Launchable(input, Resolve(input, jobId, fx)) && fx.run.Exited? && fx.run.returnCode == 0
              && s3Configured && fx.outputExists
  {
    var o := Run(outputRoot, s3Configured, input, jobId, fx);
    var r := Resolve(input, jobId, fx);
    ResolveOnlyDownloads(input, jobId, fx);
    if Launchable(input, r) && fx.run.Exited? && fx.run.returnCode == 0 && s3Configured && fx.outputExists {
      assert o.calls[|o.calls| - 1].Upload?;
    } else {
      assert o.calls == r.calls || (Launchable(input, r) && o.calls == r.calls + [LaunchCall(outputRoot, input, jobId, r)]);
      forall i | 0 <= i < |o.calls| ensures !o.calls[i].Upload? {
        if i < |r.calls| { assert o.calls[i] == r.calls[i]; }
      }
    }
  }

  /** Without object storage, a completed job never carries a URL. */
  lemma NoStorageNoUrl(outputRoot: string, input: Dict, jobId: string, fx: Effects)
    ensures var o := Run(outputRoot, false, input, jobId, fx);
            o.result.Succeeded? ==> o.result.presignedUrl == Null && !HasUpload(o.calls)
  {
    UploadOnlyWhenPresent(outputRoot, false, input, jobId, fx);
  }

  /** The input JSON holds `cond_video` exactly when the resolved visual path
      looks like a video; for a downloaded visual this is exactly when the
      URL's extension is a video extension. */
  lemma VisualKind(outputRoot: string, input: Dict, jobId: string, fx: Effects)
    requires ReadyToLaunch(Resolve(input, jobId, fx))
    ensures var r := Resolve(input, jobId, fx);
            var visual := LaunchCall(outputRoot, input, jobId, r).input.visual;
            (visual.CondVideo? <==> IsVideoPath(r.image.s))
            && (visual == CondVideo(r.image.s) || visual == CondImage(r.image.s))
    ensures var r := Resolve(input, jobId, fx);
            var visual := LaunchCall(outputRoot, input, jobId, r).input.visual;
            var url := Get(input, "image_url");
            (!(Truthy(Get(input, "audio_path")) && Truthy(Get(input, "image_path"))) && url.Str? && Truthy(url))
            ==> (visual.CondVideo? <==> UrlExtension(url.s) in VideoExtensions)
  {
    var url := Get(input, "image_url");
    if !(Truthy(Get(input, "audio_path")) && Truthy(Get(input, "image_path"))) && url.Str? && Truthy(url) {
      ImageDownloadKind(jobId, url.s);
    }
  }
}
