/**
 The operating-system families of `src/sys/platform.rs`, their names, and how the family of
 the build target is detected.
 */
module Platforms {

  /**
   The configuration of the build target. `windows` and `unix` are the built-in `cfg!` flags of
   the target family; `macos` is a configuration option that is literally named `macos`, which
   the compiler never sets by itself (only an explicit `--cfg macos` would); `targetOs` is the
   built-in `target_os` value (`"windows"`, `"macos"`, `"linux"`, ...).
   */
  datatype TargetCfg = TargetCfg(windows: bool, unix: bool, macos: bool, targetOs: string)

  /**
   A configuration the compiler produces for a real target without extra `--cfg` options: the
   `macos` option is unset, Windows targets belong to the windows family, and macOS and Linux
   targets to the unix family.
   */
  predicate IsBuiltinTarget(cfg: TargetCfg) {
    && !cfg.macos
    && !(cfg.windows && cfg.unix)
    && (cfg.targetOs == "windows" <==> cfg.windows)
    && (cfg.targetOs == "macos" ==> cfg.unix)
    && (cfg.targetOs == "linux" ==> cfg.unix)
  }

  /** The configuration of a macOS target. */
  const MacosTarget := TargetCfg(false, true, false, "macos")

  predicate IsLowerAscii(s: string) {
    forall i :: 0 <= i < |s| ==> 'a' <= s[i] <= 'z'
  }

  datatype Platform = Windows | Darwin | Linux | Unknown {

    /**
     `Platform::detect`: the windows flag, the unix flag and the `macos` option are tried in
     that order and the first one set decides; with none set the platform is unknown. A target
     with the unix flag is therefore never Darwin.
     */
    static function Detect(cfg: TargetCfg): (p: Platform)
      ensures p == Windows <==> cfg.windows
      ensures p == Linux <==> !cfg.windows && cfg.unix
      ensures p == Darwin <==> !cfg.windows && !cfg.unix && cfg.macos
      ensures p == Unknown <==> !cfg.windows && !cfg.unix && !cfg.macos
    {
      if cfg.windows then Windows
      else if cfg.unix then Linux
      else if cfg.macos then Darwin
      else Unknown
    }

    /**
     `value`: the platform's name, a non-empty lower-case word that `From` maps back to the
     same platform.
     */
    function Value(): (s: string)
      ensures s != [] && IsLowerAscii(s)
      ensures From(s) == this
    {
      match this
      case Windows => "windows"
      case Darwin => "darwin"
      case Linux => "linux"
      case Unknown => "unknown"
    }

    /** The `Display` of a platform is its name, which `From` parses back. */
    function Display(): (s: string)
      ensures s == Value()
      ensures From(s) == this
    {
      Value()
    }

    /**
     `From<&str>`: exactly the names `"windows"`, `"darwin"` and `"linux"`, compared case by
     case, give a known platform; every other string gives `Unknown`.
     */
    static function From(v: string): (p: Platform)
      ensures p == Windows <==> v == "windows"
      ensures p == Darwin <==> v == "darwin"
      ensures p == Linux <==> v == "linux"
    {
      if v == "windows" then Windows
      else if v == "darwin" then Darwin
      else if v == "linux" then Linux
      else Unknown
    }

    /**
     Intended detection: Windows by the windows flag, then Darwin by `target_os = "macos"`,
     tested before the unix flag, since macOS belongs to the unix family; then Linux by the
     unix flag.
     */
    static function DetectByTargetOs(cfg: TargetCfg): (p: Platform)
      ensures p == Windows <==> cfg.windows
      ensures p == Darwin <==> !cfg.windows && cfg.targetOs == "macos"
      ensures p == Linux <==> !cfg.windows && cfg.targetOs != "macos" && cfg.unix
      ensures p == Unknown <==> !cfg.windows && cfg.targetOs != "macos" && !cfg.unix
    {
      if cfg.windows then Windows
      else if cfg.targetOs == "macos" then Darwin
      else if cfg.unix then Linux
      else Unknown
    }
  }

  /** Distinct platforms have distinct names. */
  lemma ValueInjective(p: Platform, q: Platform)
    ensures p.Value() == q.Value() ==> p == q
  {
    if p.Value() == q.Value() {
      assert Platform.From(p.Value()) == Platform.From(q.Value());
    }
  }

  /** The names are matched exactly: other spellings are unknown platforms. */
  lemma FromIsCaseSensitive()
    ensures Platform.From("Linux") == Unknown
    ensures Platform.From("WINDOWS") == Unknown
    ensures Platform.From("macos") == Unknown
    ensures Platform.From("") == Unknown
  {
  }

  /** A macOS target sets the unix flag and not the `macos` option, and is detected as Linux. */
  lemma MacosDetectedAsLinux()
    ensures IsBuiltinTarget(MacosTarget)
    ensures Platform.Detect(MacosTarget) == Linux
  {
  }

  /** Without an explicit `--cfg macos`, detection never gives Darwin. */
  lemma DarwinUnreachable(cfg: TargetCfg)
    requires IsBuiltinTarget(cfg)
    ensures Platform.Detect(cfg) != Darwin
  {
  }

  /**
   Detection by `target_os` tells the built-in targets apart: Darwin exactly for macOS, Linux
   for the other unix targets, Windows for Windows, and the detected name is `"darwin"` on macOS.
   */
  lemma TargetOsDetectsDarwin(cfg: TargetCfg)
    requires IsBuiltinTarget(cfg)
    ensures Platform.DetectByTargetOs(cfg) == Darwin <==> cfg.targetOs == "macos"
    ensures cfg.targetOs == "linux" ==> Platform.DetectByTargetOs(cfg) == Linux
    ensures cfg.targetOs == "windows" ==> Platform.DetectByTargetOs(cfg) == Windows
    ensures Platform.DetectByTargetOs(MacosTarget).Display() == "darwin"
  {
  }
}
