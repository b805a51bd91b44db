/**
 * The tables and per-string decisions of the CMake-to-Meson converter:
 * language and target-type maps, the flag and library blacklists, the
 * `-std=` recogniser, and the shared-library name candidates used to turn a
 * link library into a `link_with` target.
 */
module CMakeFlags {
  import opened WrapCommon

  // ---------------------------------------------------------------------------
  // Generic sequence and string helpers
  // ---------------------------------------------------------------------------

  /** The elements of `s` that satisfy `keep`, in order (a list comprehension with an `if`). */
  function Filter<T>(s: seq<T>, keep: T -> bool): (r: seq<T>)
    ensures |r| <= |s|
    ensures forall i :: 0 <= i < |r| ==> r[i] in s && keep(r[i])
    ensures forall i :: 0 <= i < |s| && keep(s[i]) ==> s[i] in r
  {
    if s == [] then [] else Filter(s[..|s| - 1], keep) + (if keep(s[|s| - 1]) then [s[|s| - 1]] else [])
  }

  predicate EndsWith(s: string, suffix: string) {
    |suffix| <= |s| && s[|s| - |suffix|..] == suffix
  }

  predicate EndsWithAny(s: string, suffixes: seq<string>) {
    exists y :: y in suffixes && EndsWith(s, y)
  }

  /** Python's `t in s` on strings. */
  predicate Contains(s: string, t: string) {
    exists k :: 0 <= k <= |s| - |t| && StartsWith(s[k..], t)
  }

  /** `os.path.isabs` on `/`-separated paths. */
  predicate IsAbs(p: string) {
    |p| > 0 && p[0] == '/'
  }

  /** ASCII upper-casing: each ASCII small letter becomes its capital and every other character is kept (Python's `str.upper()` restricted to ASCII input). */
  function Upper(s: string): (r: string)
    ensures |r| == |s|
    ensures forall i :: 0 <= i < |s| ==> r[i] == if 'a' <= s[i] <= 'z' then (s[i] - 'a' + 'A') as char else s[i]
  {
    if s == [] then []
    else [if 'a' <= s[0] <= 'z' then (s[0] - 'a' + 'A') as char else s[0]] + Upper(s[1..])
  }

  // ---------------------------------------------------------------------------
  // Languages and target types
  // ---------------------------------------------------------------------------

  /** `language_map`: Meson language to CMake language. */
  const LanguageMap: map<string, string> := map[
    "c" := "C", "cpp" := "CXX", "cuda" := "CUDA", "cs" := "CSharp",
    "java" := "Java", "fortran" := "Fortran", "swift" := "Swift"]

  /**
   * `lang_cmake_to_meson`: `language_map` inverted, keyed by the lower-cased
   * CMake name.
   */
  const LangCMakeToMeson: map<string, string> := map[
    "c" := "c", "cxx" := "cpp", "cuda" := "cuda", "csharp" := "cs",
    "java" := "java", "fortran" := "fortran", "swift" := "swift"]

  /** `lang_cmake_to_meson.get(language.lower(), 'c')`: unknown languages become `c`. */
  function MesonLanguage(cmakeLanguage: string): (r: string)
    ensures r in LanguageMap
    ensures Lower(cmakeLanguage) !in LangCMakeToMeson ==> r == "c"
  {
    var l := Lower(cmakeLanguage);
    if l in LangCMakeToMeson then LangCMakeToMeson[l] else "c"
  }

  // One entry of `language_map` at a time: each proof reads one CMake name.
  lemma RoundTripC() ensures MesonLanguage(LanguageMap["c"]) == "c" { assert Lower("C") == "c"; }
  lemma RoundTripCpp() ensures MesonLanguage(LanguageMap["cpp"]) == "cpp" { assert Lower("CXX") == "cxx"; }
  lemma RoundTripCuda() ensures MesonLanguage(LanguageMap["cuda"]) == "cuda" { assert Lower("CUDA") == "cuda"; }
  lemma RoundTripCSharp() ensures MesonLanguage(LanguageMap["cs"]) == "cs" { assert Lower("CSharp") == "csharp"; }
  lemma RoundTripJava() ensures MesonLanguage(LanguageMap["java"]) == "java" { assert Lower("Java") == "java"; }
  lemma RoundTripFortran() ensures MesonLanguage(LanguageMap["fortran"]) == "fortran" { assert Lower("Fortran") == "fortran"; }
  lemma RoundTripSwift() ensures MesonLanguage(LanguageMap["swift"]) == "swift" { assert Lower("Swift") == "swift"; }

  /** `lang_cmake_to_meson` inverts `language_map`: every Meson language survives the trip to its CMake name and back. */
  lemma MesonLanguageInvertsLanguageMap(l: string)
    requires l in LanguageMap
    ensures MesonLanguage(LanguageMap[l]) == l
  {
    if l == "c" { RoundTripC(); }
    else if l == "cpp" { RoundTripCpp(); }
    else if l == "cuda" { RoundTripCuda(); }
    else if l == "cs" { RoundTripCSharp(); }
    else if l == "java" { RoundTripJava(); }
    else if l == "fortran" { RoundTripFortran(); }
    else { RoundTripSwift(); }
  }

  lemma {:induction false} LowerIdempotent(s: string)
    ensures Lower(Lower(s)) == Lower(s)
  {
    if s != [] {
      LowerIdempotent(s[1..]);
    }
  }

  /** The language lookup ignores letter case: `CXX`, `Cxx` and `cxx` all become `cpp`. */
  lemma MesonLanguageIgnoresCase(cmakeLanguage: string)
    ensures MesonLanguage(Lower(cmakeLanguage)) == MesonLanguage(cmakeLanguage)
  {
    LowerIdempotent(cmakeLanguage);
  }

  /** `target_type_map.get(type.upper())`, the Meson function a CMake target type becomes. */
  function MesonFunc(targetType: string): (r: Option<string>)
    ensures r == Some("header_only") <==> Upper(targetType) == "INTERFACE_LIBRARY"
    ensures r == Some("static_library") <==> Upper(targetType) in {"STATIC_LIBRARY", "OBJECT_LIBRARY"}
    ensures r.None? <==> Upper(targetType) !in {"STATIC_LIBRARY", "MODULE_LIBRARY", "SHARED_LIBRARY", "EXECUTABLE", "OBJECT_LIBRARY", "INTERFACE_LIBRARY"}
  {
    var t := Upper(targetType);
    if t == "STATIC_LIBRARY" then Some("static_library")
    else if t == "MODULE_LIBRARY" then Some("shared_module")
    else if t == "SHARED_LIBRARY" then Some("shared_library")
    else if t == "EXECUTABLE" then Some("executable")
    else if t == "OBJECT_LIBRARY" then Some("static_library")
    else if t == "INTERFACE_LIBRARY" then Some("header_only")
    else None
  }

  /** `transfer_dependencies_from`: targets whose dependencies move to their dependents. */
  predicate TransfersDependencies(targetType: string) {
    MesonFunc(targetType) == Some("header_only")
  }

  // ---------------------------------------------------------------------------
  // Blacklists
  // ---------------------------------------------------------------------------

  const BlacklistCompilerFlags: seq<string> := [
    "-Wall", "-Wextra", "-Weverything", "-Werror", "-Wpedantic", "-pedantic", "-w",
    "/W1", "/W2", "/W3", "/W4", "/Wall", "/WX", "/w",
    "/O1", "/O2", "/Ob", "/Od", "/Og", "/Oi", "/Os", "/Ot", "/Ox", "/Oy", "/Ob0",
    "/RTC1", "/RTCc", "/RTCs", "/RTCu",
    "/Z7", "/Zi", "/ZI"]

  const BlacklistLinkFlags: seq<string> := [
    "/machine:x64", "/machine:x86", "/machine:arm", "/machine:ebc",
    "/debug", "/debug:fastlink", "/debug:full", "/debug:none",
    "/incremental"]

  const BlacklistClangClLinkFlags: seq<string> := ["/GR", "/EHsc", "/MDd", "/Zi", "/RTC1"]

  const BlacklistLinkLibs: seq<string> := [
    "kernel32.lib", "user32.lib", "gdi32.lib", "winspool.lib", "shell32.lib",
    "ole32.lib", "oleaut32.lib", "uuid.lib", "comdlg32.lib", "advapi32.lib"]

  const PieFlags: seq<string> := ["-fPIC", "-fpic", "-fPIE", "-fpie"]

  /** `check_flag`: a link flag survives unless it is blacklisted (link flags case-insensitively) or a `/D` define. */
  predicate CheckFlag(flag: string) {
    !(Lower(flag) in BlacklistLinkFlags || flag in BlacklistCompilerFlags + BlacklistClangClLinkFlags)
    && !StartsWith(flag, "/D")
  }

  /** A link library survives the final filter unless its lower-cased name is a blacklisted Windows system library. */
  predicate KeepLinkLibrary(lib: string) {
    Lower(lib) !in BlacklistLinkLibs
  }

  // ---------------------------------------------------------------------------
  // Compile flags
  // ---------------------------------------------------------------------------

  /** What `.*` matches: the text up to the first line break. */
  function UpToNewline(s: string): (r: string)
    ensures r <= s
    ensures '\n' !in r
    ensures |r| < |s| ==> s[|r|] == '\n'
  {
    if s == [] || s[0] == '\n' then [] else [s[0]] + UpToNewline(s[1..])
  }

  /**
   * `std_regex.match(flag).group(2)` for `([-]{1,2}std=|/std:v?|[-]{1,2}std:)(.*)`:
   * the alternatives are tried in order and the optional `v` is taken when present.
   */
  function StdValue(flag: string): Option<string> {
    if StartsWith(flag, "-std=") then Some(UpToNewline(flag[5..]))
    else if StartsWith(flag, "--std=") then Some(UpToNewline(flag[6..]))
    else if StartsWith(flag, "/std:v") then Some(UpToNewline(flag[6..]))
    else if StartsWith(flag, "/std:") then Some(UpToNewline(flag[5..]))
    else if StartsWith(flag, "-std:") then Some(UpToNewline(flag[5..]))
    else if StartsWith(flag, "--std:") then Some(UpToNewline(flag[6..]))
    else None
  }

  /** A standard written in any of the recognised spellings is read back unchanged. */
  lemma StdValueRoundTrip(prefix: string, v: string)
    requires prefix in ["-std=", "--std=", "-std:", "--std:", "/std:v"] || (prefix == "/std:" && (v == [] || v[0] != 'v'))
    requires '\n' !in v
    ensures StdValue(prefix + v) == Some(v)
  {
    UpToNewlineWhole(v);
    var f := prefix + v;
    assert f[..|prefix|] == prefix && f[|prefix|..] == v;
    if prefix == "--std=" {
      assert f[1] == '-';
    } else if prefix == "-std:" {
      assert f[0] == '-' && f[1] == 's' && f[4] == ':';
    } else if prefix == "--std:" {
      assert f[0] == '-' && f[1] == '-' && f[5] == ':';
    } else if prefix == "/std:v" {
      assert f[0] == '/';
    } else if prefix == "/std:" {
      assert f[0] == '/';
      assert !StartsWith(f, "/std:v") by {
        if |f| >= 6 { assert f[5] == v[0]; }
      }
    }
  }

  lemma {:induction false} UpToNewlineWhole(s: string)
    requires '\n' !in s
    ensures UpToNewline(s) == s
  {
    if s != [] {
      UpToNewlineWhole(s[1..]);
    }
  }

  /** How `postprocess` treats one C or C++ compile flag. */
  datatype FlagKind = StdFlag(value: string) | PieFlag | Blacklisted | Kept

  function Classify(flag: string): (k: FlagKind)
    ensures k.StdFlag? <==> StdValue(flag).Some?
    ensures k.PieFlag? <==> StdValue(flag).None? && flag in PieFlags
    ensures k.Blacklisted? <==> StdValue(flag).None? && flag !in PieFlags && flag in BlacklistCompilerFlags
    ensures k.Kept? ==> flag !in PieFlags && flag !in BlacklistCompilerFlags && !StartsWith(flag, "-std=")
  {
    match StdValue(flag)
    case Some(v) => StdFlag(v)
    case None =>
      if flag in PieFlags then PieFlag
      else if flag in BlacklistCompilerFlags then Blacklisted
      else Kept
  }

  /** The flags of one language that `postprocess` keeps, in order. */
  function KeptFlags(opts: seq<string>): (r: seq<string>) {
    Filter(opts, (f: string) => Classify(f).Kept?)
  }

  /** The `'{lang}_std={value}'` overrides that the standard flags of one language produce, in order. */
  function StdOverrides(lang: string, opts: seq<string>): seq<string> {
    if opts == [] then []
    else
      var f := opts[|opts| - 1];
      StdOverrides(lang, opts[..|opts| - 1])
      + (match Classify(f) case StdFlag(v) => [lang + "_std=" + v] case _ => [])
  }

  predicate HasPieFlag(opts: seq<string>) {
    exists f :: f in opts && Classify(f).PieFlag?
  }

  /**
   * Nothing is lost and nothing forbidden survives: a flag is kept exactly
   * when it is neither a standard, a position-independence flag nor
   * blacklisted, and every standard flag yields its override.
   */
  lemma {:induction false} FlagFilterComplete(lang: string, opts: seq<string>, i: nat)
    requires i < |opts|
    ensures opts[i] in KeptFlags(opts) <==> Classify(opts[i]).Kept?
    ensures Classify(opts[i]).StdFlag? ==> lang + "_std=" + Classify(opts[i]).value in StdOverrides(lang, opts)
    ensures Classify(opts[i]).PieFlag? ==> HasPieFlag(opts)
  {
    if i < |opts| - 1 {
      FlagFilterComplete(lang, opts[..|opts| - 1], i);
      assert opts[..|opts| - 1][i] == opts[i];
    }
  }

  /** Every override names the language and comes from a standard flag of that language. */
  lemma {:induction false} StdOverridesSound(lang: string, opts: seq<string>, o: string)
    requires o in StdOverrides(lang, opts)
    ensures exists f :: f in opts && Classify(f).StdFlag? && o == lang + "_std=" + Classify(f).value
  {
    var init := opts[..|opts| - 1];
    var f := opts[|opts| - 1];
    if o in StdOverrides(lang, init) {
      StdOverridesSound(lang, init, o);
      var g :| g in init && Classify(g).StdFlag? && o == lang + "_std=" + Classify(g).value;
      assert g in opts;
    } else {
      assert f in opts;
    }
  }

  // ---------------------------------------------------------------------------
  // Link libraries
  // ---------------------------------------------------------------------------

  predicate IsDigit(c: char) {
    '0' <= c <= '9'
  }

  /** `t` matches `(\.[0-9]+)+` as a whole: dot-separated, non-empty runs of digits. */
  predicate IsVersionTail(t: string) {
    && |t| >= 2 && t[0] == '.' && IsDigit(t[|t| - 1])
    && (forall i :: 0 <= i < |t| ==> t[i] == '.' || IsDigit(t[i]))
    && (forall i :: 0 <= i < |t| - 1 && t[i] == '.' ==> IsDigit(t[i + 1]))
  }

  /** The leftmost position from `p` on where a version tail starts, or `|s|` when none does. */
  function TailStart(s: string, p: nat): (q: nat)
    requires p <= |s|
    ensures p <= q <= |s|
    ensures q < |s| ==> IsVersionTail(s[q..])
    ensures forall k :: p <= k < q ==> !IsVersionTail(s[k..])
    decreases |s| - p
  {
    if p == |s| then p
    else if IsVersionTail(s[p..]) then p
    else TailStart(s, p + 1)
  }

  /**
   * `rm_so_version.sub('', s)` for `(\.[0-9]+)+$`: the leftmost version
   * tail running to the end of the name is removed (`libz.so.1.2` becomes
   * `libz.so`).
   */
  function RmSoVersion(s: string): (r: string)
    ensures r <= s
    ensures |r| == |s| || IsVersionTail(s[|r|..])
    ensures forall k :: 0 <= k < |r| ==> !IsVersionTail(s[k..])
  {
    s[..TailStart(s, 0)]
  }

  /** A name with no version tail is left alone. */
  lemma RmSoVersionNoTail(s: string)
    requires |s| == 0 || !IsDigit(s[|s| - 1])
    ensures RmSoVersion(s) == s
  {
  }

  /**
   * `try_resolve_link_with`'s candidate names for a library path: its
   * basename, the basename without version tail, and for each library
   * suffix it ends with, the stem without version tail plus that suffix.
   */
  function LinkCandidates(path: string, libSuffixes: seq<string>): (r: seq<string>)
    ensures |r| >= 2 && r[0] == Basename(path) && r[1] == RmSoVersion(Basename(path))
  {
    var b := Basename(path);
    [b, RmSoVersion(b)] + SuffixCandidates(b, libSuffixes)
  }

  /** `c` is the candidate for suffix `sfx`: the stem before `.sfx`, without version tail, with `.sfx` put back. */
  predicate IsSuffixCandidate(b: string, sfx: string, c: string) {
    EndsWith(b, "." + sfx) && c == RmSoVersion(b[..|b| - |sfx| - 1]) + "." + sfx
  }

  function SuffixCandidates(b: string, libSuffixes: seq<string>): (r: seq<string>)
    ensures forall c :: c in r ==> exists sfx :: sfx in libSuffixes && IsSuffixCandidate(b, sfx, c)
  {
    if libSuffixes == [] then []
    else
      var init := SuffixCandidates(b, libSuffixes[..|libSuffixes| - 1]);
      var sfx := libSuffixes[|libSuffixes| - 1];
      var here := if EndsWith(b, "." + sfx) then [RmSoVersion(b[..|b| - |sfx| - 1]) + "." + sfx] else [];
      assert forall c :: c in here ==> IsSuffixCandidate(b, sfx, c);
      assert forall j :: j in libSuffixes[..|libSuffixes| - 1] ==> j in libSuffixes;
      init + here
  }

  /** The value of the first candidate the map knows, or None. */
  function FirstHit<V(==)>(candidates: seq<string>, m: map<string, V>): (r: Option<V>)
    ensures r.None? <==> forall c :: c in candidates ==> c !in m
    ensures r.Some? ==> exists i :: (0 <= i < |candidates| && candidates[i] in m && r.value == m[candidates[i]]
      && forall j :: 0 <= j < i ==> candidates[j] !in m)
  {
    if candidates == [] then None
    else if candidates[0] in m then Some(m[candidates[0]])
    else
      var rest := FirstHit(candidates[1..], m);
      if rest.Some? then
        var i :| 0 <= i < |candidates[1..]| && candidates[1..][i] in m && rest.value == m[candidates[1..][i]]
          && forall j :: 0 <= j < i ==> candidates[1..][j] !in m;
        assert candidates[i + 1] in m && forall j :: 0 <= j < i + 1 ==> candidates[j] !in m by {
          forall j | 0 <= j < i + 1 ensures candidates[j] !in m {
            if j > 0 { assert candidates[j] == candidates[1..][j - 1]; }
          }
        }
        rest
      else
        assert forall c :: c in candidates ==> c !in m by {
          forall c | c in candidates ensures c !in m {
            if c != candidates[0] { assert c in candidates[1..]; }
          }
        }
        rest
  }

  /** `try_resolve_link_with`: the target registered under one of the candidate names, the exact basename first. */
  function ResolveLinkWith<V(==)>(path: string, libSuffixes: seq<string>, outputs: map<string, V>): Option<V> {
    FirstHit(LinkCandidates(path, libSuffixes), outputs)
  }

  /** A library whose file name is a known output always resolves to that output's target. */
  lemma ResolveExactBasename<V>(path: string, libSuffixes: seq<string>, outputs: map<string, V>)
    requires Basename(path) in outputs
    ensures ResolveLinkWith(path, libSuffixes, outputs) == Some(outputs[Basename(path)])
  {
  }

  /** A versioned shared library (`libfoo.so.1.2`) resolves to the unversioned output when the exact name is unknown. */
  lemma ResolveUnversioned<V>(path: string, libSuffixes: seq<string>, outputs: map<string, V>)
    requires Basename(path) !in outputs
    requires RmSoVersion(Basename(path)) in outputs
    ensures ResolveLinkWith(path, libSuffixes, outputs) == Some(outputs[RmSoVersion(Basename(path))])
  {
    var c := LinkCandidates(path, libSuffixes);
    assert c[1..][0] == RmSoVersion(Basename(path));
  }
}
