/**
 * The per-vendor option tables of the C compiler classes: which `-std`
 * values a compiler offers, which command-line flags a chosen standard,
 * warning level, link option or include path turns into, and the
 * Xcode-clang to LLVM-clang version lookup.
 *
 * Each compiler class is a `Vendor`; a method a class inherits from its
 * parent is the parent's entry here, and a method defined only in a mixin
 * outside this file yields `None`.  `version_compare(version, '>=X')` is the
 * predicate `atLeast` applied to the threshold `X`.
 */
module CCompilers {
  import opened WrapCommon
  import CMakeFlags

  datatype Vendor =
    | Clang | AppleClang | Emscripten | Armclang | Gnu | Elbrus | Pgi | Intel
    | VisualStudio | ClangCl | IntelCl | Arm | Ccrx | Xc16 | C2000

  /** A combo option as declared by `get_options`: its key, its choices, its default. */
  datatype ComboOption = ComboOption(key: string, choices: seq<string>, default: string)

  /** The classes whose `-std` handling is `'-std=' + value` (GCC-style). */
  predicate GnuStyleStd(v: Vendor) {
    v in {Clang, AppleClang, Emscripten, Armclang, Gnu, Elbrus, Intel}
  }

  // ---------------------------------------------------------------------------
  // get_options: the C standard choices
  // ---------------------------------------------------------------------------

  function ClangStds(atLeast: string -> bool): seq<string> {
    var c17 := atLeast("6.0.0");
    var c18 := atLeast("8.0.0");
    ["c89", "c99", "c11"] + (if c17 then ["c17"] else []) + (if c18 then ["c18"] else [])
    + ["gnu89", "gnu99", "gnu11"] + (if c17 then ["gnu17"] else []) + (if c18 then ["gnu18"] else [])
  }

  function GnuStds(atLeast: string -> bool): seq<string> {
    var recent := atLeast("8.0.0");
    ["c89", "c99", "c11"] + (if recent then ["c17", "c18"] else [])
    + ["gnu89", "gnu99", "gnu11"] + (if recent then ["gnu17", "gnu18"] else [])
  }

  function IntelStds(atLeast: string -> bool): seq<string> {
    ["c89", "c99"] + (if atLeast("16.0.0") then ["c11"] else []) + ["gnu89", "gnu99"]
  }

  /**
   * The `std` (or, for XC16 and C2000, `c_std`) combo option a class declares,
   * or None when the class takes it from a mixin that is not part of this model.
   */
  function StdOption(v: Vendor, atLeast: string -> bool): (r: Option<ComboOption>)
    ensures r.Some? ==> |r.value.choices| > 1 && r.value.choices[0] == "none"
    ensures r.Some? ==> r.value.default == "none" && r.value.default in r.value.choices
    ensures r.None? <==> v in {Pgi, VisualStudio, ClangCl}
  {
    match v
    case Clang | AppleClang | Emscripten => Some(ComboOption("std", ["none"] + ClangStds(atLeast), "none"))
    case Armclang => Some(ComboOption("std", ["none", "c90", "c99", "c11", "gnu90", "gnu99", "gnu11"], "none"))
    case Gnu => Some(ComboOption("std", ["none"] + GnuStds(atLeast), "none"))
    case Elbrus => Some(ComboOption("std", ["none", "c89", "c90", "c9x", "c99", "c1x", "c11",
                                            "gnu89", "gnu90", "gnu9x", "gnu99", "gnu1x", "gnu11",
                                            "iso9899:2011", "iso9899:1990", "iso9899:199409", "iso9899:1999"], "none"))
    case Intel => Some(ComboOption("std", ["none"] + IntelStds(atLeast), "none"))
    case IntelCl => Some(ComboOption("std", ["none", "c89", "c99", "c11"], "none"))
    case Arm => Some(ComboOption("std", ["none", "c90", "c99"], "none"))
    case Ccrx => Some(ComboOption("std", ["none", "c89", "c99"], "none"))
    case Xc16 => Some(ComboOption("c_std", ["none", "c89", "c99", "gnu89", "gnu99"], "none"))
    case C2000 => Some(ComboOption("c_std", ["none", "c89", "c99", "c11"], "none"))
    case Pgi | VisualStudio | ClangCl => None
  }

  /** Clang offers the C89/C99/C11 family always, C17 from 6.0.0 and C18 from 8.0.0. */
  lemma ClangStdGates(v: Vendor, atLeast: string -> bool)
    requires v in {Clang, AppleClang, Emscripten}
    ensures StdOption(v, atLeast).Some?
    ensures forall s :: s in ["c89", "c99", "c11", "gnu89", "gnu99", "gnu11"] ==> s in StdOption(v, atLeast).value.choices
    ensures ("c17" in StdOption(v, atLeast).value.choices) == atLeast("6.0.0")
    ensures ("gnu17" in StdOption(v, atLeast).value.choices) == atLeast("6.0.0")
    ensures ("c18" in StdOption(v, atLeast).value.choices) == atLeast("8.0.0")
    ensures ("gnu18" in StdOption(v, atLeast).value.choices) == atLeast("8.0.0")
  {
    var cs := ClangStds(atLeast);
    assert StdOption(v, atLeast).value.choices == ["none"] + cs;
    ClangBase(atLeast);
    ClangGate17(atLeast);
    ClangGate18(atLeast);
  }

  /** The C89/C99/C11 family is always on Clang's list. */
  lemma ClangBase(atLeast: string -> bool)
    ensures forall s :: s in ["c89", "c99", "c11", "gnu89", "gnu99", "gnu11"] ==> s in ClangStds(atLeast)
  {
  }

  /** `c17` and `gnu17` are on Clang's list exactly from 6.0.0. */
  lemma ClangGate17(atLeast: string -> bool)
    ensures ("c17" in ClangStds(atLeast)) == atLeast("6.0.0") && ("gnu17" in ClangStds(atLeast)) == atLeast("6.0.0")
  {
    var cs := ClangStds(atLeast);
    if !atLeast("6.0.0") {
      assert forall i :: 0 <= i < |cs| ==> cs[i] != "c17" && cs[i] != "gnu17";
    }
  }

  /** `c18` and `gnu18` are on Clang's list exactly from 8.0.0. */
  lemma ClangGate18(atLeast: string -> bool)
    ensures ("c18" in ClangStds(atLeast)) == atLeast("8.0.0") && ("gnu18" in ClangStds(atLeast)) == atLeast("8.0.0")
  {
    var cs := ClangStds(atLeast);
    if !atLeast("8.0.0") {
      assert forall i :: 0 <= i < |cs| ==> cs[i] != "c18" && cs[i] != "gnu18";
    }
  }

  /** GCC adds all of c17, c18, gnu17 and gnu18 exactly when the version is at least 8.0.0. */
  lemma GnuStdGates(atLeast: string -> bool)
    ensures StdOption(Gnu, atLeast).Some?
    ensures forall s :: s in ["c17", "c18", "gnu17", "gnu18"] ==>
      (s in StdOption(Gnu, atLeast).value.choices) == atLeast("8.0.0")
  {
    var cs := StdOption(Gnu, atLeast).value.choices;
    if !atLeast("8.0.0") {
      assert forall i :: 0 <= i < |cs| ==> cs[i] !in ["c17", "c18", "gnu17", "gnu18"];
    }
  }

  /** The Intel compiler offers c11 exactly when the version is at least 16.0.0. */
  lemma IntelStdGate(atLeast: string -> bool)
    ensures StdOption(Intel, atLeast).Some?
    ensures ("c11" in StdOption(Intel, atLeast).value.choices) == atLeast("16.0.0")
  {
    var cs := StdOption(Intel, atLeast).value.choices;
    if !atLeast("16.0.0") {
      assert forall i :: 0 <= i < |cs| ==> cs[i] != "c11";
    }
  }

  // ---------------------------------------------------------------------------
  // get_option_compile_args
  // ---------------------------------------------------------------------------

  /**
   * The flags for the chosen standard `std`; None for the classes whose
   * `get_option_compile_args` lives in a mixin outside this model.
   */
  function CompileArgs(v: Vendor, std: string): (r: Option<seq<string>>)
    ensures r.None? <==> v in {Pgi, VisualStudio, ClangCl}
    ensures r.Some? && std == "none" ==> r.value == []
    ensures r.Some? ==> |r.value| <= 2
  {
    match v
    case Clang | AppleClang | Emscripten | Armclang | Gnu | Elbrus | Intel =>
      Some(if std != "none" then ["-std=" + std] else [])
    case IntelCl =>
      // ICL has no C89 switch: it warns and selects nothing, which is close.
      Some(if std == "c89" then [] else if std != "none" then ["/Qstd:" + std] else [])
    case Arm | C2000 =>
      Some(if std != "none" then ["--" + std] else [])
    case Ccrx =>
      Some(if std == "c89" then ["-lang=c"] else if std == "c99" then ["-lang=c99"] else [])
    case Xc16 =>
      Some(if std != "none" then ["-ansi", "-std=" + std] else [])
    case Pgi | VisualStudio | ClangCl => None
  }

  /**
   * Round trip: for the GCC-style classes (and XC16, whose second flag is
   * GCC-style) a selected standard other than `none` yields a flag from
   * which the CMake converter's std pattern reads the standard back (up to
   * a line break, where the pattern's `.` stops), and `none` yields no flag.
   */
  lemma GnuStyleStdRoundTrip(v: Vendor, std: string)
    requires GnuStyleStd(v) || v == Xc16
    requires std != "none"
    ensures CompileArgs(v, std).Some?
    ensures var args := CompileArgs(v, std).value;
      |args| > 0 && CMakeFlags.StdValue(args[|args| - 1]) == Some(CMakeFlags.UpToNewline(std))
    ensures '\n' !in std ==> CMakeFlags.StdValue(CompileArgs(v, std).value[|CompileArgs(v, std).value| - 1]) == Some(std)
    ensures CompileArgs(v, "none") == Some([])
  {
    var flag := "-std=" + std;
    assert flag[..5] == "-std=" && flag[5..] == std;
    if '\n' !in std {
      CMakeFlags.StdValueRoundTrip("-std=", std);
    }
  }

  /**
   * Every standard a class offers, other than `none` (and ICL's `c89`),
   * produces at least one flag: no offered choice is silently dropped.
   */
  lemma EveryOfferedStdHasFlag(v: Vendor, atLeast: string -> bool, std: string)
    requires StdOption(v, atLeast).Some? && std in StdOption(v, atLeast).value.choices
    requires std != "none" && !(v == IntelCl && std == "c89")
    ensures CompileArgs(v, std).Some? && |CompileArgs(v, std).value| > 0
  {
  }

  // ---------------------------------------------------------------------------
  // get_option_link_args
  // ---------------------------------------------------------------------------

  /** Whether `get_options` declares the `winlibs` array option. */
  predicate DeclaresWinlibs(v: Vendor, windowsOrCygwin: bool) {
    match v
    case Clang | AppleClang | Emscripten | Gnu => windowsOrCygwin
    case VisualStudio | ClangCl | IntelCl => true
    case _ => false
  }

  /**
   * What `get_option_link_args` gives: the link flags the options add, a
   * failed `options['winlibs']` lookup (the key missing from the options the
   * class declares), or nothing for the classes that take the method from a
   * mixin outside this file.  Elbrus inherits the GCC method, which reads
   * `winlibs` on Windows and Cygwin, but replaces the GCC `get_options` with
   * one that never declares it.
   */
  datatype LinkArgsOutcome = LinkFlags(flags: seq<string>) | KeyLookupFails(key: string) | Elsewhere

  /**
   * The link flags the options add, given whether the host is Windows or
   * Cygwin and the value of the `winlibs` option (used when declared).
   */
  function LinkArgs(v: Vendor, windowsOrCygwin: bool, winlibs: seq<string>): (r: LinkArgsOutcome)
    ensures r.Elsewhere? <==> v in {Pgi, Intel, Arm, Ccrx, Xc16, C2000}
    ensures r.KeyLookupFails? ==> r.key == "winlibs" && !DeclaresWinlibs(v, windowsOrCygwin)
  {
    match v
    case Clang | AppleClang | Emscripten | Gnu | Elbrus =>
      if !windowsOrCygwin then LinkFlags([])
      else if DeclaresWinlibs(v, windowsOrCygwin) then LinkFlags(winlibs)
      else KeyLookupFails("winlibs")
    case Armclang => LinkFlags([])
    case VisualStudio | ClangCl | IntelCl => LinkFlags(winlibs)
    case Pgi | Intel | Arm | Ccrx | Xc16 | C2000 => Elsewhere
  }

  /**
   * The link flags are never invented: they are the `winlibs` option's
   * value when one is declared and used, and empty otherwise; the lookup
   * fails exactly for Elbrus on Windows or Cygwin.
   */
  lemma LinkArgsComeFromWinlibs(v: Vendor, windowsOrCygwin: bool, winlibs: seq<string>)
    ensures LinkArgs(v, windowsOrCygwin, winlibs).KeyLookupFails? <==> v == Elbrus && windowsOrCygwin
    ensures LinkArgs(v, windowsOrCygwin, winlibs).LinkFlags? ==>
      var r := LinkArgs(v, windowsOrCygwin, winlibs).flags;
      (r == winlibs && DeclaresWinlibs(v, windowsOrCygwin)) || r == []
    ensures v in {VisualStudio, ClangCl, IntelCl} ==> LinkArgs(v, windowsOrCygwin, winlibs) == LinkFlags(winlibs)
    ensures windowsOrCygwin && v in {Clang, AppleClang, Emscripten, Gnu} ==> LinkArgs(v, windowsOrCygwin, winlibs) == LinkFlags(winlibs)
    ensures v == Armclang ==> LinkArgs(v, windowsOrCygwin, winlibs) == LinkFlags([])
    ensures !windowsOrCygwin && v in {Clang, AppleClang, Emscripten, Gnu, Elbrus} ==> LinkArgs(v, windowsOrCygwin, winlibs) == LinkFlags([])
  {
  }

  // ---------------------------------------------------------------------------
  // warn_args
  // ---------------------------------------------------------------------------

  function DefaultWarnArgs(v: Vendor): seq<string> {
    if v == Intel then ["-Wall", "-w3", "-diag-disable:remark"] else ["-Wall", "-Winvalid-pch"]
  }

  /**
   * The `warn_args` table a class's constructor installs, at the given level
   * key; None for a level outside `'0'`..`'3'` or for a class whose table is
   * set outside this model.
   */
  function WarnArgs(v: Vendor, level: string): (r: Option<seq<string>>)
    ensures r.Some? ==> level in ["0", "1", "2", "3"]
    ensures r.Some? ==> v in {Clang, AppleClang, Emscripten, Armclang, Gnu, Intel}
  {
    if v !in {Clang, AppleClang, Emscripten, Armclang, Gnu, Intel} then None
    else
      var base := DefaultWarnArgs(v);
      if level == "0" then Some([])
      else if level == "1" then Some(base)
      else if level == "2" then Some(base + ["-Wextra"])
      else if level == "3" then Some(if v == Intel then base + ["-Wextra"] else base + ["-Wextra", "-Wpedantic"])
      else None
  }

  /**
   * The levels are nested: each level's flags begin with the previous
   * level's; level 0 is empty, level 2 adds `-Wextra`, level 3 adds
   * `-Wpedantic` except for Intel, whose level 3 equals its level 2.
   */
  lemma WarnLevelsNested(v: Vendor)
    requires v in {Clang, AppleClang, Emscripten, Armclang, Gnu, Intel}
    ensures forall l :: l in ["0", "1", "2", "3"] ==> WarnArgs(v, l).Some?
    ensures WarnArgs(v, "0").value == []
    ensures WarnArgs(v, "2").value == WarnArgs(v, "1").value + ["-Wextra"]
    ensures v != Intel ==> WarnArgs(v, "3").value == WarnArgs(v, "1").value + ["-Wextra", "-Wpedantic"]
    ensures v == Intel ==> WarnArgs(v, "3").value == WarnArgs(v, "2").value
    ensures WarnArgs(v, "1").value <= WarnArgs(v, "2").value <= WarnArgs(v, "3").value
    ensures "-Wall" in WarnArgs(v, "1").value
  {
  }

  // ---------------------------------------------------------------------------
  // get_include_args (CCRX, XC16, C2000)
  // ---------------------------------------------------------------------------

  function IncludePrefix(v: Vendor): string
    requires v in {Ccrx, Xc16, C2000}
  {
    match v
    case Ccrx => "-include="
    case Xc16 => "-I"
    case C2000 => "--include_path="
  }

  function IncludeArgs(v: Vendor, path: string, isSystem: bool): (r: seq<string>)
    requires v in {Ccrx, Xc16, C2000}
    ensures |r| == 1
  {
    [IncludePrefix(v) + (if path == "" then "." else path)]
  }

  /**
   * The single include argument names the path after the vendor prefix,
   * the empty path becoming the current directory; the system flag does
   * not change it.
   */
  lemma IncludeArgsNamePath(v: Vendor, path: string, isSystem: bool)
    requires v in {Ccrx, Xc16, C2000}
    ensures var arg := IncludeArgs(v, path, isSystem)[0];
      var p := IncludePrefix(v);
      |arg| > |p| && arg[..|p|] == p && arg[|p|..] == (if path == "" then "." else path)
    ensures IncludeArgs(v, path, isSystem) == IncludeArgs(v, path, !isSystem)
  {
    var p := IncludePrefix(v);
    var q := if path == "" then "." else path;
    assert (p + q)[..|p|] == p && (p + q)[|p|..] == q;
  }

  // ---------------------------------------------------------------------------
  // AppleClangCCompiler.map_xcode_clang_version
  // ---------------------------------------------------------------------------

  /** One entry of the lookup table: a single key or a tuple of keys. */
  datatype LutEntry = LutEntry(keys: seq<string>, clang: string)

  function XcodeLut(): seq<LutEntry> {
    [ LutEntry(["1"], "2.5.0"), LutEntry(["60"], "2.6.0"), LutEntry(["70"], "2.7.0"),
      LutEntry(["77", "137"], "2.8.0"), LutEntry(["163", "211"], "2.9.0"),
      LutEntry(["318", "421"], "3.0.0"), LutEntry(["425"], "3.1.0"), LutEntry(["500"], "3.2.0"),
      LutEntry(["503"], "3.3.0"), LutEntry(["600"], "3.4.0"), LutEntry(["602"], "3.5.0"),
      LutEntry(["700"], "3.6.0"), LutEntry(["703"], "3.7.0"), LutEntry(["800", "802"], "3.8.0"),
      LutEntry(["900"], "4.0.0"), LutEntry(["902"], "5.0.2"), LutEntry(["1000"], "6.0.1"),
      LutEntry(["1001"], "7.0.0"), LutEntry(["1100"], "8.0.0") ]
  }

  /** The inner loop over one entry's keys, reassigning the running value on each hit. */
  function ScanKeys(keys: seq<string>, clang: string, cur: string): string {
    if keys == [] then cur
    else ScanKeys(keys[1..], clang, if keys[0] == cur then clang else cur)
  }

  /** The outer loop over the table, in declaration order. */
  function ScanLut(lut: seq<LutEntry>, cur: string): string {
    if lut == [] then cur
    else ScanLut(lut[1..], ScanKeys(lut[0].keys, lut[0].clang, cur))
  }

  /** The extraction tiers tried in order: the first that finds a number wins. */
  function ExtractXcodeVersion(text: string, tier1: string -> Option<string>,
                               tier2: string -> Option<string>, tier3: string -> Option<string>): Option<string>
  {
    if tier1(text).Some? then tier1(text)
    else if tier2(text).Some? then tier2(text)
    else tier3(text)
  }

  function MapXcodeClangVersion(text: string, tier1: string -> Option<string>,
                                tier2: string -> Option<string>, tier3: string -> Option<string>): Option<string>
  {
    match ExtractXcodeVersion(text, tier1, tier2, tier3)
    case None => None
    case Some(n) => Some(ScanLut(XcodeLut(), n))
  }

  /** The reference definition: the clang version of the first entry listing `n`, else `n`. */
  function LookupXcode(lut: seq<LutEntry>, n: string): string {
    if lut == [] then n
    else if n in lut[0].keys then lut[0].clang
    else LookupXcode(lut[1..], n)
  }

  predicate IsDigits(s: string) {
    forall i :: 0 <= i < |s| ==> '0' <= s[i] <= '9'
  }

  lemma {:induction false} ScanKeysHit(keys: seq<string>, clang: string, cur: string)
    requires !IsDigits(clang)
    requires forall k :: k in keys ==> IsDigits(k)
    ensures ScanKeys(keys, clang, cur) == (if cur in keys then clang else cur)
  {
    if keys != [] {
      var next := if keys[0] == cur then clang else cur;
      ScanKeysHit(keys[1..], clang, next);
      if keys[0] == cur {
        assert clang !in keys[1..];
      }
    }
  }

  lemma {:induction false} ScanLutUnchanged(lut: seq<LutEntry>, v: string)
    requires !IsDigits(v)
    requires forall e :: e in lut ==> forall k :: k in e.keys ==> IsDigits(k)
    requires forall e :: e in lut ==> !IsDigits(e.clang)
    ensures ScanLut(lut, v) == v
  {
    if lut != [] {
      ScanKeysHit(lut[0].keys, lut[0].clang, v);
      assert v !in lut[0].keys;
      ScanLutUnchanged(lut[1..], v);
    }
  }

  lemma {:induction false} ScanLutIsLookup(lut: seq<LutEntry>, n: string)
    requires forall e :: e in lut ==> forall k :: k in e.keys ==> IsDigits(k)
    requires forall e :: e in lut ==> !IsDigits(e.clang)
    ensures ScanLut(lut, n) == LookupXcode(lut, n)
  {
    if lut != [] {
      ScanKeysHit(lut[0].keys, lut[0].clang, n);
      if n in lut[0].keys {
        ScanLutUnchanged(lut[1..], lut[0].clang);
      } else {
        ScanLutIsLookup(lut[1..], n);
      }
    }
  }

  lemma XcodeLutShape()
    ensures forall e :: e in XcodeLut() ==> forall k :: k in e.keys ==> IsDigits(k)
    ensures forall e :: e in XcodeLut() ==> !IsDigits(e.clang)
  {
    var lut := XcodeLut();
    forall i | 0 <= i < |lut|
      ensures forall k :: k in lut[i].keys ==> IsDigits(k)
      ensures !IsDigits(lut[i].clang)
    {
      assert |lut[i].clang| == 5 && lut[i].clang[1] == '.';
    }
  }

  /**
   * The loop that reassigns its running value is a plain lookup: no tier
   * finds a number gives None; a number listed under a key (alone or in a
   * tuple) gives that key's clang version; any other number is returned as is.
   */
  lemma MapXcodeClangVersionIsLookup(text: string, tier1: string -> Option<string>,
                                     tier2: string -> Option<string>, tier3: string -> Option<string>)
    ensures var n := ExtractXcodeVersion(text, tier1, tier2, tier3);
      MapXcodeClangVersion(text, tier1, tier2, tier3) ==
        if n.None? then None else Some(LookupXcode(XcodeLut(), n.value))
  {
    var n := ExtractXcodeVersion(text, tier1, tier2, tier3);
    if n.Some? {
      XcodeLutShape();
      ScanLutIsLookup(XcodeLut(), n.value);
    }
  }

  /** The lookup answers with the first entry that lists the number. */
  lemma {:induction false} LookupFirstHit(lut: seq<LutEntry>, n: string, i: nat)
    requires i < |lut| && n in lut[i].keys
    requires forall j :: 0 <= j < i ==> n !in lut[j].keys
    ensures LookupXcode(lut, n) == lut[i].clang
  {
    if i > 0 {
      assert n !in lut[0].keys;
      LookupFirstHit(lut[1..], n, i - 1);
    }
  }

  /** A number that no entry lists is returned unchanged. */
  lemma {:induction false} LookupMiss(lut: seq<LutEntry>, n: string)
    requires forall j :: 0 <= j < |lut| ==> n !in lut[j].keys
    ensures LookupXcode(lut, n) == n
  {
    if lut != [] {
      assert n !in lut[0].keys;
      LookupMiss(lut[1..], n);
    }
  }

  /**
   * AppleClangCCompiler.__init__: the version is replaced by the mapped
   * Xcode version taken from `version_output` when given, else from
   * `full_version`, and kept when neither yields one.
   */
  function AppleClangVersion(version: string, versionOutput: Option<string>, fullVersion: Option<string>,
                             tier1: string -> Option<string>, tier2: string -> Option<string>,
                             tier3: string -> Option<string>): (r: string)
    ensures versionOutput.None? && fullVersion.None? ==> r == version
  {
    var mapped :=
      if versionOutput.Some? then MapXcodeClangVersion(versionOutput.value, tier1, tier2, tier3)
      else if fullVersion.Some? then MapXcodeClangVersion(fullVersion.value, tier1, tier2, tier3)
      else None;
    if mapped.Some? then mapped.value else version
  }

  // ---------------------------------------------------------------------------
  // Construction guards
  // ---------------------------------------------------------------------------

  datatype Compiler = Compiler(vendor: Vendor, id: string, isCross: bool)

  /** EmscriptenCCompiler.__init__: only a cross compiler may be Emscripten. */
  function NewEmscripten(isCross: bool): (r: Option<Compiler>)
    ensures r.Some? <==> isCross
    ensures r.Some? ==> r.value.vendor == Emscripten && r.value.id == "emscripten"
  {
    if !isCross then None else Some(Compiler(Emscripten, "emscripten", isCross))
  }

  /**
   * ElbrusCCompiler.has_function: `lchmod` is reported missing (not found,
   * not cached) without probing; every other name goes to the inherited probe.
   */
  function HasFunction(v: Vendor, funcname: string, probe: string -> (bool, bool)): (r: (bool, bool))
    ensures v == Elbrus && funcname == "lchmod" ==> r == (false, false)
    ensures v != Elbrus || funcname != "lchmod" ==> r == probe(funcname)
  {
    if v == Elbrus && funcname == "lchmod" then (false, false) else probe(funcname)
  }
}
