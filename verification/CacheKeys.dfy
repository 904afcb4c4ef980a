/** The cache keys of a run, against the command line that the runner builds for it. */
module CacheKeys {
  import opened Schema
  import opened Decimal
  import opened VideoType

  datatype RunnerJobSpec = RunnerJobSpec(
    videoSha256: string,
    staticCamera: bool,
    useDpvo: bool,
    videoRender: bool,
    videoType: string,
    fMm: Option<int>,
    upstreamVersion: string)

  /** The two dictionaries that are digested. */
  datatype Payload =
    | CorePayload(videoSha256: string, staticCamera: bool, useDpvo: bool, fMm: Option<int>, upstreamVersion: string)
    | RenderPayload(coreCacheKey: string, videoRender: bool, videoType: string)

  /** The digest is taken to be free of collisions. */
  ghost predicate Injective(digest: Payload -> string) {
    forall p, q :: digest(p) == digest(q) ==> p == q
  }

  function Version(spec: RunnerJobSpec, fallback: string): string {
    if spec.upstreamVersion == "" then fallback else spec.upstreamVersion
  }

  function CoreCacheKey(digest: Payload -> string, spec: RunnerJobSpec, fallback: string): string {
    digest(CorePayload(spec.videoSha256, spec.staticCamera, spec.useDpvo && !spec.staticCamera, spec.fMm,
                       Version(spec, fallback)))
  }

  function RenderCacheKey(digest: Payload -> string, lower: string -> string, spec: RunnerJobSpec, fallback: string):
    string
  {
    digest(RenderPayload(CoreCacheKey(digest, spec, fallback), spec.videoRender, Normalize(lower, spec.videoType)))
  }

  /** The flags for camera, odometry and focal length. */
  function CoreFlags(spec: RunnerJobSpec): seq<string> {
    (if spec.staticCamera then ["-s"] else if spec.useDpvo then ["--use_dpvo"] else [])
    + (if spec.fMm.Some? then ["--f_mm=" + ToDecimal(spec.fMm.value)] else [])
  }

  function RenderFlag(spec: RunnerJobSpec): string {
    "--video_render=" + if spec.videoRender then "true" else "false"
  }

  predicate AsksForVideo(lower: string -> string, spec: RunnerJobSpec) {
    spec.videoRender && Normalize(lower, spec.videoType) != "" && Normalize(lower, spec.videoType) != "none"
  }

  function TypeFlags(lower: string -> string, spec: RunnerJobSpec): seq<string> {
    if AsksForVideo(lower, spec) then ["--video_type=" + Normalize(lower, spec.videoType)] else []
  }

  method BuildCommand(lower: string -> string, python: string, entry: string, video: string, outputRoot: string,
                      spec: RunnerJobSpec)
    returns (command: seq<string>)
    ensures command == [python, "-m", entry, "--video=" + video, "--output_root=" + outputRoot, RenderFlag(spec)]
                       + CoreFlags(spec) + TypeFlags(lower, spec)
  {
    command := [python, "-m", entry, "--video=" + video, "--output_root=" + outputRoot,
                "--video_render=" + (if spec.videoRender then "true" else "false")];
    if spec.staticCamera {
      command := command + ["-s"];
    } else if spec.useDpvo {
      command := command + ["--use_dpvo"];
    }
    if spec.fMm.Some? {
      command := command + ["--f_mm=" + ToDecimal(spec.fMm.value)];
    }
    var normalizedType := Normalize(lower, spec.videoType);
    if spec.videoRender && normalizedType != "" && normalizedType != "none" {
      command := command + ["--video_type=" + normalizedType];
    }
  }

  /** The flags, word for word. */
  lemma FlagsAre(lower: string -> string, spec: RunnerJobSpec)
    ensures RenderFlag(spec) == if spec.videoRender then "--video_render=true" else "--video_render=false"
    ensures CoreFlags(spec) ==
              (if spec.staticCamera then ["-s"] else [])
              + (if spec.useDpvo && !spec.staticCamera then ["--use_dpvo"] else [])
              + (if spec.fMm.Some? then ["--f_mm=" + ToDecimal(spec.fMm.value)] else [])
    ensures TypeFlags(lower, spec) ==
              if spec.videoRender && Normalize(lower, spec.videoType) !in {"", "none"}
              then ["--video_type=" + Normalize(lower, spec.videoType)] else []
  {
    hide Normalize, ToDecimal;
    assert "--video_render=" + "true" == "--video_render=true" && "--video_render=" + "false" == "--video_render=false";
  }

  /** A video is asked for exactly when rendering is on and the text names some part other than `none` alone. */
  lemma AsksWhenRequested(lower: string -> string, spec: RunnerJobSpec)
    requires Lowers(lower)
    ensures AsksForVideo(lower, spec) <==> spec.videoRender && Requested(lower, spec.videoType) != ["none"]
  {
    NormalizeIsIdempotent(lower, spec.videoType);
    NormalizedNone(lower, spec.videoType);
    hide Normalize, Requested, Lowers;
  }

  /** The plan lists a third artifact exactly when a video is asked for. */
  function ExpectedArtifacts(lower: string -> string, spec: RunnerJobSpec): seq<string> {
    ["hmr4d_results.pt", "runner.log"]
    + if spec.videoRender && Normalize(lower, spec.videoType) !in {"none", ""} then ["render_outputs"] else []
  }

  method PlanArtifacts(lower: string -> string, spec: RunnerJobSpec) returns (artifacts: seq<string>)
    ensures artifacts == ExpectedArtifacts(lower, spec)
    ensures artifacts ==
            if spec.videoRender && Normalize(lower, spec.videoType) !in {"none", ""}
            then ["hmr4d_results.pt", "runner.log", "render_outputs"] else ["hmr4d_results.pt", "runner.log"]
  {
    artifacts := ["hmr4d_results.pt", "runner.log"];
    var normalizedType := Normalize(lower, spec.videoType);
    if spec.videoRender && normalizedType !in {"none", ""} {
      artifacts := artifacts + ["render_outputs"];
    }
  }

  lemma PrefixedEqual(prefix: string, a: string, b: string)
    requires prefix + a == prefix + b
    ensures a == b
  {
    assert (prefix + a)[|prefix|..] == a && (prefix + b)[|prefix|..] == b;
  }

  /** The flags reveal camera mode, effective odometry and focal length. */
  lemma CoreFlagsDecide(a: RunnerJobSpec, b: RunnerJobSpec)
    ensures CoreFlags(a) == CoreFlags(b) <==>
              && a.staticCamera == b.staticCamera
              && (a.useDpvo && !a.staticCamera) == (b.useDpvo && !b.staticCamera)
              && a.fMm == b.fMm
  {
    if CoreFlags(a) == CoreFlags(b) {
      var fa, fb := CoreFlags(a), CoreFlags(b);
      CameraFlag(a);
      CameraFlag(b);
      if a.fMm.Some? && b.fMm.Some? {
        assert fa[|fa| - 1] == fb[|fb| - 1];
        PrefixedEqual("--f_mm=", ToDecimal(a.fMm.value), ToDecimal(b.fMm.value));
        DecimalInjective(a.fMm.value, b.fMm.value);
      }
    }
  }

  /** Each flag can be told from the others by its first characters. */
  lemma CameraFlag(spec: RunnerJobSpec)
    ensures var f := CoreFlags(spec);
            && (spec.staticCamera <==> f != [] && f[0] == "-s")
            && (!spec.staticCamera && spec.useDpvo <==> f != [] && f[0] == "--use_dpvo")
            && (spec.fMm.Some? <==> f != [] && |f[|f| - 1]| > 2 && f[|f| - 1][2] == 'f')
  {
    var f := CoreFlags(spec);
    assert "-s"[1] == 's' && "--use_dpvo"[2] == 'u' && |"-s"| == 2;
    if spec.fMm.Some? {
      assert f[|f| - 1] == "--f_mm=" + ToDecimal(spec.fMm.value);
      assert f[|f| - 1][1] == '-' && f[|f| - 1][2] == 'f';
    }
  }

  /** Core keys agree exactly when input, upstream version and core flags agree: nothing is confused, nothing split. */
  lemma CoreKeyIsExact(digest: Payload -> string, a: RunnerJobSpec, b: RunnerJobSpec, fallback: string)
    requires Injective(digest)
    ensures CoreCacheKey(digest, a, fallback) == CoreCacheKey(digest, b, fallback) <==>
              && a.videoSha256 == b.videoSha256
              && (if a.upstreamVersion != "" then a.upstreamVersion else fallback)
                 == (if b.upstreamVersion != "" then b.upstreamVersion else fallback)
              && a.staticCamera == b.staticCamera
              && (a.useDpvo && !a.staticCamera) == (b.useDpvo && !b.staticCamera)
              && a.fMm == b.fMm
    ensures CoreCacheKey(digest, a, fallback) == CoreCacheKey(digest, b, fallback) <==>
              && a.videoSha256 == b.videoSha256
              && Version(a, fallback) == Version(b, fallback)
              && CoreFlags(a) == CoreFlags(b)
  {
    CoreFlagsDecide(a, b);
  }

  /** Render keys agree exactly when core keys, the render switch and the requested parts agree. */
  lemma RenderKeyIsExact(digest: Payload -> string, lower: string -> string, a: RunnerJobSpec, b: RunnerJobSpec,
                         fallback: string)
    requires Lowers(lower) && Injective(digest)
    ensures RenderCacheKey(digest, lower, a, fallback) == RenderCacheKey(digest, lower, b, fallback) <==>
              && CoreCacheKey(digest, a, fallback) == CoreCacheKey(digest, b, fallback)
              && a.videoRender == b.videoRender
              && multiset(Requested(lower, a.videoType)) == multiset(Requested(lower, b.videoType))
  {
    hide Normalize, Requested, CoreCacheKey;
    NormalizeDecidesRequest(lower, a.videoType, b.videoType);
  }

  /** Equal render keys give the same command, paths apart. */
  lemma RenderKeyIsSound(digest: Payload -> string, lower: string -> string, a: RunnerJobSpec, b: RunnerJobSpec,
                         fallback: string)
    requires Injective(digest)
    requires RenderCacheKey(digest, lower, a, fallback) == RenderCacheKey(digest, lower, b, fallback)
    ensures RenderFlag(a) == RenderFlag(b) && CoreFlags(a) == CoreFlags(b) && TypeFlags(lower, a) == TypeFlags(lower, b)
    ensures ExpectedArtifacts(lower, a) == ExpectedArtifacts(lower, b)
  {
    hide Normalize;
    CoreKeyIsExact(digest, a, b, fallback);
  }

  /** When both jobs render, the type flag decides the normal form; otherwise the key may split equal commands. */
  lemma TypeFlagsDecide(lower: string -> string, a: RunnerJobSpec, b: RunnerJobSpec)
    requires Lowers(lower) && a.videoRender && b.videoRender
    ensures TypeFlags(lower, a) == TypeFlags(lower, b) <==>
              Normalize(lower, a.videoType) == Normalize(lower, b.videoType)
  {
    NormalizeIsIdempotent(lower, a.videoType);
    NormalizeIsIdempotent(lower, b.videoType);
    hide Normalize;
    if AsksForVideo(lower, a) && AsksForVideo(lower, b) && TypeFlags(lower, a) == TypeFlags(lower, b) {
      assert TypeFlags(lower, a)[0] == TypeFlags(lower, b)[0];
      PrefixedEqual("--video_type=", Normalize(lower, a.videoType), Normalize(lower, b.videoType));
    }
  }

  /** Given equal core keys, the render key separates exactly different commands, unless nothing is rendered. */
  lemma RenderKeyMatchesCommand(digest: Payload -> string, lower: string -> string, a: RunnerJobSpec, b: RunnerJobSpec,
                                fallback: string)
    requires Lowers(lower) && Injective(digest)
    requires CoreCacheKey(digest, a, fallback) == CoreCacheKey(digest, b, fallback)
    ensures var sameKey := RenderCacheKey(digest, lower, a, fallback) == RenderCacheKey(digest, lower, b, fallback);
            var sameCommand := RenderFlag(a) == RenderFlag(b) && TypeFlags(lower, a) == TypeFlags(lower, b);
            sameKey == sameCommand <==>
              a.videoRender || b.videoRender || Normalize(lower, a.videoType) == Normalize(lower, b.videoType)
  {
    hide Normalize, CoreCacheKey;
    assert RenderFlag(a) == RenderFlag(b) <==> a.videoRender == b.videoRender by {
      if RenderFlag(a) == RenderFlag(b) {
        PrefixedEqual("--video_render=", if a.videoRender then "true" else "false",
                      if b.videoRender then "true" else "false");
        assert "true"[0] == 't' && "false"[0] == 'f';
      }
    }
    if a.videoRender && b.videoRender {
      TypeFlagsDecide(lower, a, b);
    }
  }

  /** A render output is expected exactly when the command asks for one. */
  lemma ArtifactsMatchCommand(lower: string -> string, spec: RunnerJobSpec)
    ensures "render_outputs" in ExpectedArtifacts(lower, spec) <==> TypeFlags(lower, spec) != []
  {
    hide Normalize;
    var base := ["hmr4d_results.pt", "runner.log"];
    assert base[0][0] == 'h' && base[1][1] == 'u' && "render_outputs"[0] == 'r' && "render_outputs"[1] == 'e';
    assert "render_outputs" !in base;
    if TypeFlags(lower, spec) != [] {
      assert ExpectedArtifacts(lower, spec)[2] == "render_outputs";
    }
  }
}
