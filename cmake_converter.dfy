/**
 * The CMake-to-Meson target converter: `ConverterTarget` and
 * `ConverterCustomTarget` objects built from the CMake code model and the
 * CMake trace, rewritten in place by the analysis passes.
 *
 * Each target object is a class whose fields the passes reassign; every
 * pass is a method whose contract gives the new fields as a function of the
 * old ones, and the specification functions carry the lemmas.  Path
 * queries (`os.path.exists`, `normpath`, `commonpath`, `relpath`) and the
 * compiler suffix tables are inputs.
 */
module CMakeConverter {
  import opened WrapCommon
  import opened CMakeNames
  import opened CMakeFlags
  import opened CMakeOutputs

  // ---------------------------------------------------------------------------
  // Inputs
  // ---------------------------------------------------------------------------

  /** One include directory of a file group. */
  datatype IncludeDir = IncludeDir(path: string, isSystem: bool)

  /** A file group of a CMake target: sources sharing a language and flags. */
  datatype FileGroup = FileGroup(
    language: string,
    flags: seq<string>,
    defines: seq<string>,
    includes: seq<IncludeDir>,
    isGenerated: bool,
    sources: seq<string>)

  /** A target of the CMake code model. */
  datatype CMakeTarget = CMakeTarget(
    name: string,
    fullName: string,
    targetType: string,
    artifacts: seq<string>,
    srcDir: string,
    buildDir: string,
    install: bool,
    installPaths: seq<string>,
    linkLibraries: seq<string>,
    linkFlags: seq<string>,
    linkLangFlags: seq<string>,
    files: seq<FileGroup>)

  /** A target recorded by the CMake trace. */
  datatype TraceTarget = TraceTarget(depends: seq<string>, properties: map<string, seq<string>>)

  /** A custom command recorded by the CMake trace. */
  datatype GeneratorTarget = GeneratorTarget(
    name: string,
    outputs: seq<string>,
    command: seq<seq<string>>,
    workingDir: string,
    depends: seq<string>)

  /** The suffix tables of the compiler layer (`header_suffixes`, `obj_suffixes`, `lib_suffixes`, `lang_suffixes`). */
  datatype Suffixes = Suffixes(header: seq<string>, obj: seq<string>, lib: seq<string>, lang: map<string, seq<string>>)

  /**
   * The path queries the converter makes: `os.path.exists`,
   * `os.path.normpath(os.path.join(a, b))`, `os.path.commonpath([p, base]) == base`
   * and `os.path.relpath(p, base)`.
   */
  datatype PathOps = PathOps(
    present: string -> bool,
    normJoin: (string, string) -> string,
    within: (string, string) -> bool,
    relTo: (string, string) -> string)

  /** What the converter raises: a failed `assert`, an error from a library call on a wrong type, or a `CMakeException`. */
  datatype CMakeError =
    | AssertionFailed
    | TypeError
    | AttributeError
    | IndexError
    | CycleDetected
    | UnknownTargetType(targetType: string)

  // ---------------------------------------------------------------------------
  // References between targets
  // ---------------------------------------------------------------------------

  /** A dependency or link target: a build target or a custom target, compared by identity. */
  datatype Dep = Target(t: ConverterTarget) | Custom(c: ConverterCustomTarget) {
    function Obj(): object {
      if Target? then t else c
    }
  }

  /** The objects the values of an output map refer to. */
  function Objects(outputs: map<string, Dep>): set<object> {
    set k | k in outputs :: outputs[k].Obj()
  }

  /** A value, or the exception the converter raises instead. */
  datatype Outcome<T> = Value(value: T) | Raise(error: CMakeError)

  /** `CustomTargetReference`: one output of a custom target. */
  datatype CustomTargetReference = CustomTargetReference(ctgt: ConverterCustomTarget?, index: int) {
    /** `valid()`. */
    predicate IsValid() {
      ctgt != null && index >= 0
    }
  }

  /** An entry of `generated`: a path, or (after `postprocess`) a reference to a custom target output. */
  datatype Generated = GenPath(path: string) | GenRef(ref: CustomTargetReference)

  /** A word of a custom command: text, or a target the word named. */
  datatype Word = Text(text: string) | Obj(dep: Dep)

  /** An input of a custom target: a path, or what `get_ref` returned for a generated file. */
  datatype Input = InputPath(path: string) | InputRef(ref: Option<CustomTargetReference>)

  /** Whether a dependency hands its own dependencies to its dependents (a header-only build target). */
  predicate Transfers(d: Dep) {
    d.Target? && TransfersDependencies(d.t.targetType)
  }

  /** No element occurs twice. */
  predicate NoDup<T(==)>(s: seq<T>) {
    forall i, j :: 0 <= i < j < |s| ==> s[i] != s[j]
  }

  /** `list(set(s))`: each element once; the source leaves the order to the hash set, here it is first occurrence. */
  function Dedup<T(==)>(s: seq<T>): (r: seq<T>)
    ensures NoDup(r)
    ensures forall i :: 0 <= i < |r| ==> r[i] in s
    ensures forall i :: 0 <= i < |s| ==> s[i] in r
  {
    if s == [] then []
    else
      var init := Dedup(s[..|s| - 1]);
      var x := s[|s| - 1];
      if x in init then init else init + [x]
  }

  /** `s.index(x)`: the first position of `x`, or None where Python raises `ValueError`. */
  function IndexOf<T(==)>(s: seq<T>, x: T): (r: Option<nat>)
    ensures r.Some? ==> r.value < |s| && s[r.value] == x && forall k :: 0 <= k < r.value ==> s[k] != x
    ensures r.None? <==> x !in s
  {
    if s == [] then None
    else if s[0] == x then Some(0)
    else
      var r := IndexOf(s[1..], x);
      if r.Some? then
        assert forall k :: 1 <= k < r.value + 1 ==> s[k] == s[1..][k - 1];
        Some(r.value + 1)
      else
        assert forall k :: 1 <= k < |s| ==> s[k] == s[1..][k - 1];
        None
  }

  // ---------------------------------------------------------------------------
  // ConverterTarget construction
  // ---------------------------------------------------------------------------

  /** `compile_opts[lang] += [x for x in args if x not in compile_opts[lang]]`: the test is against the list before the call. */
  function AddNew(existing: seq<string>, args: seq<string>): seq<string> {
    existing + Filter(args, (x: string) => x !in existing)
  }

  function Count<T(==)>(s: seq<T>, x: T): nat {
    if s == [] then 0 else Count(s[..|s| - 1], x) + (if s[|s| - 1] == x then 1 else 0)
  }

  lemma {:induction false} CountAppend<T>(a: seq<T>, b: seq<T>, x: T)
    ensures Count(a + b, x) == Count(a, x) + Count(b, x)
    decreases |b|
  {
    if b != [] {
      assert (a + b)[..|a + b| - 1] == a + b[..|b| - 1];
      assert (a + b)[|a + b| - 1] == b[|b| - 1];
      CountAppend(a, b[..|b| - 1], x);
    } else {
      assert a + b == a;
    }
  }

  lemma {:induction false} CountAbsent<T>(s: seq<T>, x: T)
    requires x !in s
    ensures Count(s, x) == 0
  {
    if s != [] {
      CountAbsent(s[..|s| - 1], x);
    }
  }

  /**
   * A flag already present for the language is not appended again, and
   * every new flag is: the existing list is a prefix, each flag it holds
   * keeps its number of occurrences, and every argument ends up present.
   */
  lemma AddNewKeepsExisting(existing: seq<string>, args: seq<string>, x: string)
    ensures existing <= AddNew(existing, args)
    ensures x in existing ==> Count(AddNew(existing, args), x) == Count(existing, x)
    ensures x in args ==> x in AddNew(existing, args)
  {
    var added := Filter(args, (y: string) => y !in existing);
    CountAppend(existing, added, x);
    if x in existing {
      assert x !in added;
      CountAbsent(added, x);
    }
    if x in args && x !in existing {
      var i :| 0 <= i < |args| && args[i] == x;
    }
  }

  /** What the constructor's loop accumulates over the file groups. */
  datatype GroupState = GroupState(
    languages: seq<string>,
    compileOpts: map<string, seq<string>>,
    includes: seq<string>,
    sysIncludes: seq<string>,
    sources: seq<string>,
    generated: seq<string>)

  /** `prefix + x` for each element, in order: `-D` before each define, `.` before each suffix. */
  function PrefixEach(prefix: string, xs: seq<string>): (r: seq<string>)
    ensures |r| == |xs|
    ensures forall i :: 0 <= i < |xs| ==> r[i] == prefix + xs[i]
  {
    if xs == [] then [] else PrefixEach(prefix, xs[..|xs| - 1]) + [prefix + xs[|xs| - 1]]
  }

  function IncludePaths(includes: seq<IncludeDir>, system: bool): (r: seq<string>)
    ensures forall i :: 0 <= i < |includes| && includes[i].isSystem == system ==> includes[i].path in r
    ensures forall k :: 0 <= k < |r| ==> exists i :: 0 <= i < |includes| && includes[i].isSystem == system && includes[i].path == r[k]
  {
    if includes == [] then []
    else
      var last := includes[|includes| - 1];
      IncludePaths(includes[..|includes| - 1], system) + (if last.isSystem == system then [last.path] else [])
  }

  /** One iteration of the constructor's loop over `target.files`. */
  function GroupStep(st: GroupState, g: FileGroup): GroupState {
    var lang := MesonLanguage(g.language);
    var opts := if lang in st.compileOpts then st.compileOpts[lang] else [];
    GroupState(
      if lang in st.languages then st.languages else st.languages + [lang],
      st.compileOpts[lang := AddNew(opts, g.flags + PrefixEach("-D", g.defines))],
      st.includes + IncludePaths(g.includes, false),
      st.sysIncludes + IncludePaths(g.includes, true),
      if g.isGenerated then st.sources else st.sources + g.sources,
      if g.isGenerated then st.generated + g.sources else st.generated)
  }

  function Groups(files: seq<FileGroup>): GroupState {
    if files == [] then GroupState([], map[], [], [], [], [])
    else GroupStep(Groups(files[..|files| - 1]), files[|files| - 1])
  }

  /** Each language is recorded once, and exactly the recorded languages have a compile-option list. */
  lemma {:induction false} GroupsLanguagesDistinct(files: seq<FileGroup>)
    ensures NoDup(Groups(files).languages)
    ensures forall l :: l in Groups(files).languages <==> l in Groups(files).compileOpts
  {
    if files != [] {
      GroupsLanguagesDistinct(files[..|files| - 1]);
    }
  }

  /** Every group's Meson language is recorded, and every recorded language is the Meson language of some group. */
  lemma {:induction false} GroupsLanguages(files: seq<FileGroup>)
    ensures forall i :: 0 <= i < |files| ==> MesonLanguage(files[i].language) in Groups(files).languages
    ensures forall l :: l in Groups(files).languages ==> exists i :: 0 <= i < |files| && MesonLanguage(files[i].language) == l
  {
    if files != [] {
      var init := files[..|files| - 1];
      GroupsLanguages(init);
      var last := MesonLanguage(files[|files| - 1].language);
      var langs := Groups(files).languages;
      assert langs == Groups(init).languages || langs == Groups(init).languages + [last];
      forall l | l in langs
        ensures exists i :: 0 <= i < |files| && MesonLanguage(files[i].language) == l
      {
        if l in Groups(init).languages {
          var i :| 0 <= i < |init| && MesonLanguage(init[i].language) == l;
          assert files[i] == init[i];
        } else {
          assert l == last;
        }
      }
      forall i | 0 <= i < |files| ensures MesonLanguage(files[i].language) in langs {
        if i < |files| - 1 {
          assert files[i] == init[i];
        }
      }
    }
  }

  /** The Meson language of a file group is always one Meson knows. */
  lemma LanguagesKnown(files: seq<FileGroup>, l: string)
    requires l in Groups(files).languages
    ensures l in LanguageMap
  {
    GroupsLanguages(files);
    var i :| 0 <= i < |files| && MesonLanguage(files[i].language) == l;
  }

  /** The fold over one more file group is one more step. */
  lemma GroupsSnoc(files: seq<FileGroup>, k: nat)
    requires k < |files|
    ensures Groups(files[..k + 1]) == GroupStep(Groups(files[..k]), files[k])
  {
    assert files[..k + 1][..k] == files[..k];
  }

  /** The constructor's loop over the file groups. */
  method CollectGroups(files: seq<FileGroup>) returns (st: GroupState)
    ensures st == Groups(files)
  {
    var langs: seq<string> := [];
    var opts: map<string, seq<string>> := map[];
    var incs: seq<string> := [];
    var sysIncs: seq<string> := [];
    var srcs: seq<string> := [];
    var gens: seq<string> := [];
    var k := 0;
    assert files[..0] == [];
    while k < |files|
      invariant 0 <= k <= |files|
      invariant GroupState(langs, opts, incs, sysIncs, srcs, gens) == Groups(files[..k])
    {
      ghost var prev := GroupState(langs, opts, incs, sysIncs, srcs, gens);
      var g := files[k];
      ghost var next := GroupStep(prev, g);
      var lang := MesonLanguage(g.language);
      if lang !in langs {
        langs := langs + [lang];
      }
      assert langs == next.languages;
      var current: seq<string> := [];
      if lang in opts {
        current := opts[lang];
      }
      opts := opts[lang := AddNew(current, g.flags + PrefixEach("-D", g.defines))];
      assert opts == next.compileOpts;
      incs := incs + IncludePaths(g.includes, false);
      sysIncs := sysIncs + IncludePaths(g.includes, true);
      if g.isGenerated {
        gens := gens + g.sources;
      } else {
        srcs := srcs + g.sources;
      }
      assert srcs == next.sources && gens == next.generated;
      GroupsSnoc(files, k);
      k := k + 1;
    }
    assert files[..k] == files;
    st := GroupState(langs, opts, incs, sysIncs, srcs, gens);
  }

  // ---------------------------------------------------------------------------
  // ConverterTarget.postprocess: specification of each phase
  // ---------------------------------------------------------------------------

  /** The compile options once the C and C++ lists hold only the flags that are kept. */
  function FilteredOpts(opts: map<string, seq<string>>): map<string, seq<string>> {
    var m := if "c" in opts then opts["c" := KeptFlags(opts["c"])] else opts;
    if "cpp" in m then m["cpp" := KeptFlags(m["cpp"])] else m
  }

  /** The standard overrides one language's options yield (none when the language is absent). */
  function LangOverrides(lang: string, opts: map<string, seq<string>>): seq<string> {
    if lang in opts then StdOverrides(lang, opts[lang]) else []
  }

  predicate LangHasPie(lang: string, opts: map<string, seq<string>>) {
    lang in opts && HasPieFlag(opts[lang])
  }

  /**
   * After the flag pass the C and C++ options hold exactly the kept flags
   * of the original lists; every other language is untouched.
   */
  lemma FilteredOptsSpec(opts: map<string, seq<string>>, lang: string, f: string)
    ensures FilteredOpts(opts).Keys == opts.Keys
    ensures lang in opts && lang != "c" && lang != "cpp" ==> FilteredOpts(opts)[lang] == opts[lang]
    ensures lang in opts && (lang == "c" || lang == "cpp") ==>
      (f in FilteredOpts(opts)[lang] <==> f in opts[lang] && Classify(f).Kept?)
  {
    if lang in opts && (lang == "c" || lang == "cpp") {
      var kept := FilteredOpts(opts)[lang];
      assert kept == KeptFlags(opts[lang]);
      if f in opts[lang] && Classify(f).Kept? {
        var i :| 0 <= i < |opts[lang]| && opts[lang][i] == f;
        FlagFilterComplete(lang, opts[lang], i);
      }
    }
  }

  lemma KeptFlagsSnoc(lang: string, opts: seq<string>, j: nat)
    requires j < |opts|
    ensures KeptFlags(opts[..j + 1]) == KeptFlags(opts[..j]) + (if Classify(opts[j]).Kept? then [opts[j]] else [])
    ensures StdOverrides(lang, opts[..j + 1]) == StdOverrides(lang, opts[..j])
      + (match Classify(opts[j]) case StdFlag(v) => [lang + "_std=" + v] case _ => [])
    ensures HasPieFlag(opts[..j + 1]) == (HasPieFlag(opts[..j]) || Classify(opts[j]).PieFlag?)
  {
    assert opts[..j + 1][..j] == opts[..j];
    assert opts[..j + 1] == opts[..j] + [opts[j]];
  }

  /** `props.get(key, [])`. */
  function Prop(props: map<string, seq<string>>, key: string): seq<string> {
    if key in props then props[key] else []
  }

  /** What the link-library loop produces: the libraries kept and the targets they resolved to. */
  datatype LinkSplit = LinkSplit(libraries: seq<string>, linkWith: seq<Dep>)

  /** A link library the loop drops because Meson handles run paths itself. */
  predicate IsRpath(lib: string) {
    Contains(lib, ",-rpath,")
  }

  /** A relative link library that names the output of a known target. */
  predicate Resolvable(lib: string, outputs: map<string, Dep>, libSuffixes: seq<string>) {
    !IsRpath(lib) && !IsAbs(lib) && ResolveLinkWith(lib, libSuffixes, outputs).Some?
  }

  /** The targets the relative link libraries resolve to. */
  function ResolvedTargets(libs: seq<string>, outputs: map<string, Dep>, libSuffixes: seq<string>): set<Dep> {
    set i | 0 <= i < |libs| && Resolvable(libs[i], outputs, libSuffixes) :: ResolveLinkWith(libs[i], libSuffixes, outputs).value
  }

  /** The link-library loop of `postprocess`, one library at a time. */
  function SplitLinkLibraries(libs: seq<string>, outputs: map<string, Dep>, libSuffixes: seq<string>): LinkSplit {
    if libs == [] then LinkSplit([], [])
    else
      var s := SplitLinkLibraries(libs[..|libs| - 1], outputs, libSuffixes);
      var l := libs[|libs| - 1];
      if IsRpath(l) then s
      else if Resolvable(l, outputs, libSuffixes) then
        LinkSplit(s.libraries, s.linkWith + [ResolveLinkWith(l, libSuffixes, outputs).value])
      else LinkSplit(s.libraries + [l], s.linkWith)
  }

  /**
   * A library stays in `link_libraries` exactly when it is no run-path
   * entry and does not resolve to a target, and nothing else is kept.
   */
  lemma {:induction false} SplitLinkLibrariesKept(libs: seq<string>, outputs: map<string, Dep>, libSuffixes: seq<string>)
    ensures forall i :: 0 <= i < |libs| ==>
      (libs[i] in SplitLinkLibraries(libs, outputs, libSuffixes).libraries <==> !IsRpath(libs[i]) && !Resolvable(libs[i], outputs, libSuffixes))
    ensures forall k :: 0 <= k < |SplitLinkLibraries(libs, outputs, libSuffixes).libraries| ==>
      SplitLinkLibraries(libs, outputs, libSuffixes).libraries[k] in libs
  {
    if libs != [] {
      var init := libs[..|libs| - 1];
      SplitLinkLibrariesKept(init, outputs, libSuffixes);
      var s0 := SplitLinkLibraries(init, outputs, libSuffixes).libraries;
      var s := SplitLinkLibraries(libs, outputs, libSuffixes).libraries;
      var l := libs[|libs| - 1];
      assert s == s0 || s == s0 + [l];
      forall i | 0 <= i < |libs|
        ensures libs[i] in s <==> !IsRpath(libs[i]) && !Resolvable(libs[i], outputs, libSuffixes)
      {
        if i < |libs| - 1 {
          assert libs[i] == init[i];
        }
        if libs[i] in s0 {
          var m :| 0 <= m < |init| && init[m] == libs[i];
        }
      }
      forall k | 0 <= k < |s| ensures s[k] in libs {
        if k < |s0| {
          assert s0[k] in init;
        }
      }
    }
  }

  /** Every resolvable library has its target in `link_with`, and `link_with` holds nothing else. */
  lemma {:induction false} SplitLinkLibrariesLinked(libs: seq<string>, outputs: map<string, Dep>, libSuffixes: seq<string>)
    ensures forall i :: 0 <= i < |libs| && Resolvable(libs[i], outputs, libSuffixes) ==>
      ResolveLinkWith(libs[i], libSuffixes, outputs).value in SplitLinkLibraries(libs, outputs, libSuffixes).linkWith
    ensures forall k :: 0 <= k < |SplitLinkLibraries(libs, outputs, libSuffixes).linkWith| ==>
      SplitLinkLibraries(libs, outputs, libSuffixes).linkWith[k] in ResolvedTargets(libs, outputs, libSuffixes)
  {
    if libs != [] {
      var init := libs[..|libs| - 1];
      SplitLinkLibrariesLinked(init, outputs, libSuffixes);
      var w0 := SplitLinkLibraries(init, outputs, libSuffixes).linkWith;
      var w := SplitLinkLibraries(libs, outputs, libSuffixes).linkWith;
      var l := libs[|libs| - 1];
      assert w == w0 || (Resolvable(l, outputs, libSuffixes) && w == w0 + [ResolveLinkWith(l, libSuffixes, outputs).value]);
      forall i | 0 <= i < |libs| && Resolvable(libs[i], outputs, libSuffixes)
        ensures ResolveLinkWith(libs[i], libSuffixes, outputs).value in w
      {
        if i < |libs| - 1 {
          assert libs[i] == init[i];
        }
      }
      forall k | 0 <= k < |w| ensures w[k] in ResolvedTargets(libs, outputs, libSuffixes) {
        if k < |w0| {
          assert w0[k] in ResolvedTargets(init, outputs, libSuffixes);
          var i :| 0 <= i < |init| && Resolvable(init[i], outputs, libSuffixes)
            && w0[k] == ResolveLinkWith(init[i], libSuffixes, outputs).value;
          assert libs[i] == init[i];
        } else {
          assert libs[|libs| - 1] == l;
        }
      }
    }
  }

  /** The source suffixes of the given languages, concatenated in order. */
  function LangSuffixes(languages: seq<string>, table: map<string, seq<string>>): seq<string>
    requires forall i :: 0 <= i < |languages| ==> languages[i] in table
  {
    if languages == [] then []
    else LangSuffixes(languages[..|languages| - 1], table) + table[languages[|languages| - 1]]
  }

  /** The dotted suffixes a source may carry: headers, objects and the sources of the target's languages. */
  function SupportedSuffixes(sfx: Suffixes, languages: seq<string>): seq<string>
    requires forall i :: 0 <= i < |languages| ==> languages[i] in sfx.lang
  {
    PrefixEach(".", sfx.header + sfx.obj + LangSuffixes(languages, sfx.lang))
  }

  function SupportedSources(sources: seq<string>, supported: seq<string>): seq<string> {
    Filter(sources, (x: string) => EndsWithAny(x, supported))
  }

  function SupportedGenerated(generated: seq<Generated>, supported: seq<string>): seq<Generated> {
    Filter(generated, (g: Generated) => g.GenPath? && EndsWithAny(g.path, supported))
  }

  /**
   * What the interpreter hands to `postprocess`: the path queries, the
   * suffix tables, the project source root, the subdirectory of the
   * subproject, the environment's build directory and the install prefix.
   */
  datatype Context = Context(
    ops: PathOps,
    sfx: Suffixes,
    rootSrcDir: string,
    subdir: string,
    envBuildDir: string,
    installPrefix: string)

  /**
   * `rel_path`: a relative path is first taken relative to the target's
   * source directory; a missing path that is neither an object file nor
   * generated is dropped; a path in the build tree becomes relative to the
   * build subdirectory (headers) or to the source root (everything else), a
   * path in the source tree relative to the source root.  The object test
   * is `x.endswith(y)` on the undotted suffix.
   */
  function RelPath(ctx: Context, srcDir: string, x: string, isHeader: bool, isGenerated: bool): (r: Option<string>)
    ensures r.None? <==> (!isGenerated && !ctx.ops.present(if IsAbs(x) then x else ctx.ops.normJoin(srcDir, x))
      && !EndsWithAny(if IsAbs(x) then x else ctx.ops.normJoin(srcDir, x), ctx.sfx.obj))
  {
    var y := if IsAbs(x) then x else ctx.ops.normJoin(srcDir, x);
    if !ctx.ops.present(y) && !EndsWithAny(y, ctx.sfx.obj) && !isGenerated then None
    else if IsAbs(y) && ctx.ops.within(y, ctx.envBuildDir) then
      if isHeader then Some(ctx.ops.relTo(y, Join(ctx.envBuildDir, ctx.subdir)))
      else Some(ctx.ops.relTo(y, ctx.rootSrcDir))
    else if IsAbs(y) && ctx.ops.within(y, ctx.rootSrcDir) then Some(ctx.ops.relTo(y, ctx.rootSrcDir))
    else Some(y)
  }

  /** `rel_path` applied to each element, the dropped ones kept as None. */
  function RelPaths(ctx: Context, srcDir: string, xs: seq<string>, isHeader: bool, isGenerated: bool): (r: seq<Option<string>>)
    ensures |r| == |xs|
    ensures forall i :: 0 <= i < |xs| ==> r[i] == RelPath(ctx, srcDir, xs[i], isHeader, isGenerated)
  {
    if xs == [] then []
    else RelPaths(ctx, srcDir, xs[..|xs| - 1], isHeader, isGenerated) + [RelPath(ctx, srcDir, xs[|xs| - 1], isHeader, isGenerated)]
  }

  /** `[x for x in xs if x is not None]`. */
  function Somes(xs: seq<Option<string>>): (r: seq<string>)
    ensures forall i :: 0 <= i < |r| ==> Some(r[i]) in xs
    ensures forall i :: 0 <= i < |xs| && xs[i].Some? ==> xs[i].value in r
  {
    if xs == [] then []
    else
      var init := Somes(xs[..|xs| - 1]);
      var last := xs[|xs| - 1];
      assert forall i :: 0 <= i < |init| ==> Some(init[i]) in xs by {
        forall i | 0 <= i < |init| ensures Some(init[i]) in xs {
          assert Some(init[i]) in xs[..|xs| - 1];
        }
      }
      if last.Some? then init + [last.value] else init
  }

  /**
   * The include directories after `postprocess`: the resolved directories
   * and the target's build directory as a set, then `.` if it is missing.
   */
  function IncludeDirs(ctx: Context, srcDir: string, includes: seq<string>, buildDirRel: string): seq<string> {
    var s := Dedup(Somes(RelPaths(ctx, srcDir, includes, true, false)) + [buildDirRel]);
    if "." in s then s else s + ["."]
  }

  /** The system include directories after `postprocess`: the resolved directories as a set. */
  function SysIncludeDirs(ctx: Context, srcDir: string, includes: seq<string>): seq<string> {
    Dedup(Somes(RelPaths(ctx, srcDir, includes, true, false)))
  }

  /**
   * The include directories are duplicate-free, always hold `.` and the
   * build directory, and otherwise hold exactly the resolved directories.
   */
  lemma IncludeDirsSpec(ctx: Context, srcDir: string, includes: seq<string>, buildDirRel: string, x: string)
    ensures NoDup(IncludeDirs(ctx, srcDir, includes, buildDirRel))
    ensures "." in IncludeDirs(ctx, srcDir, includes, buildDirRel)
    ensures x in IncludeDirs(ctx, srcDir, includes, buildDirRel) <==>
      x == "." || x == buildDirRel || exists i :: 0 <= i < |includes| && RelPath(ctx, srcDir, includes[i], true, false) == Some(x)
  {
    var rel := RelPaths(ctx, srcDir, includes, true, false);
    var all := Somes(rel) + [buildDirRel];
    var s := Dedup(all);
    assert buildDirRel == all[|all| - 1];
    if x in s && x != "." && x != buildDirRel {
      var k :| 0 <= k < |s| && s[k] == x;
      var j :| 0 <= j < |all| && all[j] == x;
      assert Some(x) in rel;
      var i :| 0 <= i < |rel| && rel[i] == Some(x);
    }
    if exists i :: 0 <= i < |includes| && RelPath(ctx, srcDir, includes[i], true, false) == Some(x) {
      var i :| 0 <= i < |includes| && RelPath(ctx, srcDir, includes[i], true, false) == Some(x);
      assert rel[i] == Some(x);
      var k :| 0 <= k < |Somes(rel)| && Somes(rel)[k] == x;
      assert all[k] == x;
    }
    if "." !in s {
      var t := s + ["."];
      forall i, j | 0 <= i < j < |t| ensures t[i] != t[j] {
        if j == |t| - 1 {
          assert t[i] in s;
        }
      }
    }
  }

  /** The map hits for `_target_key` of each raw dependency, in order. */
  function TargetKeyHits(raw: seq<string>, outputs: map<string, Dep>): seq<Dep> {
    if raw == [] then []
    else
      var key := TargetKey(raw[|raw| - 1]);
      TargetKeyHits(raw[..|raw| - 1], outputs) + (if key in outputs then [outputs[key]] else [])
  }

  /** The targets the map holds under the target key of some raw dependency. */
  function KeyedTargets(raw: seq<string>, outputs: map<string, Dep>): set<Dep> {
    set i | 0 <= i < |raw| && TargetKey(raw[i]) in outputs :: outputs[TargetKey(raw[i])]
  }

  /** Every raw dependency with a target key in the map contributes its target, and nothing else is added. */
  lemma {:induction false} TargetKeyHitsSpec(raw: seq<string>, outputs: map<string, Dep>)
    ensures forall i :: 0 <= i < |raw| && TargetKey(raw[i]) in outputs ==> outputs[TargetKey(raw[i])] in TargetKeyHits(raw, outputs)
    ensures forall k :: 0 <= k < |TargetKeyHits(raw, outputs)| ==> TargetKeyHits(raw, outputs)[k] in KeyedTargets(raw, outputs)
  {
    if raw != [] {
      var init := raw[..|raw| - 1];
      TargetKeyHitsSpec(init, outputs);
      var r0 := TargetKeyHits(init, outputs);
      var r := TargetKeyHits(raw, outputs);
      forall i | 0 <= i < |raw| && TargetKey(raw[i]) in outputs ensures outputs[TargetKey(raw[i])] in r {
        if i < |raw| - 1 {
          assert raw[i] == init[i];
        }
      }
      forall k | 0 <= k < |r| ensures r[k] in KeyedTargets(raw, outputs) {
        if k < |r0| {
          assert r0[k] in KeyedTargets(init, outputs);
          var i :| 0 <= i < |init| && TargetKey(init[i]) in outputs && r0[k] == outputs[TargetKey(init[i])];
          assert raw[i] == init[i] && r[k] == r0[k];
        } else {
          assert r[k] == outputs[TargetKey(raw[|raw| - 1])];
        }
      }
    }
  }

  /** The custom targets among the outputs. */
  function CustomTargets(outputs: map<string, Dep>): set<ConverterCustomTarget> {
    set k | k in outputs && outputs[k].Custom? :: outputs[k].c
  }

  /**
   * `custom_target`: a generated file some custom target produces becomes
   * a reference to that output.  The map entry must be a custom target and
   * its `get_ref` must succeed; otherwise the `assert` fails.
   */
  function CustomTargetOf(outputs: map<string, Dep>, x: string): (r: Outcome<Generated>)
    reads CustomTargets(outputs)`outputs, CustomTargets(outputs)`conflictMap
    ensures GeneratedFileKey(x) !in outputs ==> r == Value(GenPath(x))
    ensures r.Value? && r.value.GenRef? ==>
      && r.value.ref.IsValid() && GeneratedFileKey(x) in outputs
      && outputs[GeneratedFileKey(x)] == Custom(r.value.ref.ctgt)
    ensures r.Raise? <==> (GeneratedFileKey(x) in outputs &&
      (outputs[GeneratedFileKey(x)].Target? || outputs[GeneratedFileKey(x)].c.GetRef(x).None?))
  {
    var key := GeneratedFileKey(x);
    if key !in outputs then Value(GenPath(x))
    else
      match outputs[key]
      case Target(_) => Raise(AssertionFailed)
      case Custom(c) =>
        assert c in CustomTargets(outputs);
        var ref := c.GetRef(x);
        if ref.Some? && ref.value.IsValid() then Value(GenRef(ref.value)) else Raise(AssertionFailed)
  }

  /** `[custom_target(x) for x in xs]`: the first failure in list order propagates. */
  function CustomTargetsOf(outputs: map<string, Dep>, xs: seq<string>): Outcome<seq<Generated>>
    reads CustomTargets(outputs)`outputs, CustomTargets(outputs)`conflictMap
  {
    if xs == [] then Value([])
    else
      var init := CustomTargetsOf(outputs, xs[..|xs| - 1]);
      var last := CustomTargetOf(outputs, xs[|xs| - 1]);
      if init.Raise? then Raise(init.error)
      else if last.Raise? then Raise(last.error)
      else Value(init.value + [last.value])
  }

  /**
   * Resolving a list succeeds exactly when every element resolves, and
   * then yields each element's resolution in place.
   */
  lemma {:induction false} CustomTargetsOfSpec(outputs: map<string, Dep>, xs: seq<string>)
    ensures CustomTargetsOf(outputs, xs).Value? ==> |CustomTargetsOf(outputs, xs).value| == |xs|
    ensures CustomTargetsOf(outputs, xs).Value? ==> forall i :: 0 <= i < |xs| ==>
      CustomTargetOf(outputs, xs[i]) == Value(CustomTargetsOf(outputs, xs).value[i])
    ensures CustomTargetsOf(outputs, xs).Raise? <==> exists i :: 0 <= i < |xs| && CustomTargetOf(outputs, xs[i]).Raise?
  {
    if xs != [] {
      var init := xs[..|xs| - 1];
      CustomTargetsOfSpec(outputs, init);
      assert forall i :: 0 <= i < |init| ==> init[i] == xs[i];
    }
  }

  /** The paths of `generated` entries that are paths. */
  function GeneratedPaths(generated: seq<Generated>): (r: seq<string>)
    ensures |r| <= |generated|
    ensures forall i :: 0 <= i < |generated| && generated[i].GenPath? ==> generated[i].path in r
    ensures (forall i :: 0 <= i < |generated| ==> generated[i].GenPath?) ==>
      |r| == |generated| && forall i :: 0 <= i < |generated| ==> r[i] == generated[i].path
  {
    if generated == [] then []
    else
      var init := GeneratedPaths(generated[..|generated| - 1]);
      var last := generated[|generated| - 1];
      assert forall i :: 0 <= i < |generated| - 1 ==> generated[..|generated| - 1][i] == generated[i];
      if last.GenPath? then init + [last.path] else init
  }

  /** `rel_path(x, False, True)` for each generated path; a generated path is never dropped. */
  function RelGenerated(ctx: Context, srcDir: string, paths: seq<string>): (r: seq<string>)
    ensures |r| == |paths|
    ensures forall i :: 0 <= i < |paths| ==> Some(r[i]) == RelPath(ctx, srcDir, paths[i], false, true)
  {
    if paths == [] then []
    else RelGenerated(ctx, srcDir, paths[..|paths| - 1]) + [RelPath(ctx, srcDir, paths[|paths| - 1], false, true).value]
  }

  /** The build directory of a target relative to the build directory of the subproject. */
  function BuildDirRel(ctx: Context, buildDir: string): string {
    ctx.ops.relTo(buildDir, Join(ctx.envBuildDir, ctx.subdir))
  }

  /** `install_dir` made relative to the install prefix when it lies inside it. */
  function RelInstallDir(ctx: Context, installDir: string): string {
    if installDir != "" && IsAbs(installDir) && ctx.ops.within(installDir, ctx.installPrefix) then
      ctx.ops.relTo(installDir, ctx.installPrefix)
    else installDir
  }

  function KeptLinkLibraries(libs: seq<string>): seq<string> {
    Filter(libs, (l: string) => KeepLinkLibrary(l))
  }

  function KeptLinkFlags(flags: seq<string>): seq<string> {
    Filter(flags, (f: string) => CheckFlag(f))
  }

  // ---------------------------------------------------------------------------
  // The passes of ConverterTarget.postprocess, on a snapshot of the fields
  // ---------------------------------------------------------------------------

  /** The fields of a `ConverterTarget` that `postprocess` and the later steps change. */
  datatype TargetState = TargetState(
    installDir: string,
    linkLibraries: seq<string>,
    linkFlags: seq<string>,
    dependsRaw: seq<string>,
    depends: seq<Dep>,
    languages: seq<string>,
    sources: seq<string>,
    generated: seq<Generated>,
    includes: seq<string>,
    sysIncludes: seq<string>,
    linkWith: seq<Dep>,
    objectLibs: seq<ConverterTarget>,
    compileOpts: map<string, seq<string>>,
    publicCompileOpts: seq<string>,
    pie: bool,
    overrideOptions: seq<string>)

  /**
   * The usage requirement `key` an interface library takes from its trace
   * entry; a target the trace does not know, or that is not an interface
   * library, takes nothing.
   */
  function InterfaceProp(cmakeName: string, targetType: string, trace: map<string, TraceTarget>, key: string): seq<string> {
    if cmakeName in trace && Upper(targetType) == "INTERFACE_LIBRARY" then Prop(trace[cmakeName].properties, key) else []
  }

  /** What the path pass leaves in the four fields it rewrites, and the exception it may raise. */
  datatype PathResult = PathResult(includes: seq<string>, sysIncludes: seq<string>, sources: seq<string>,
                                   generated: seq<Generated>, error: Option<CMakeError>)

  /**
   * The path pass: include directories made relative and deduplicated,
   * missing sources dropped, and generated files that a custom target
   * produces turned into references to it.  The raise propagates, so
   * the fields a raise leaves behind are never read; the model's are
   * already filtered, where the program's would still hold the unfiltered
   * values.
   */
  function PathPass(includes: seq<string>, sysIncludes: seq<string>, sources: seq<string>, generated: seq<Generated>,
                    outputs: map<string, Dep>, ctx: Context, srcDir: string, buildDir: string): PathResult
    reads CustomTargets(outputs)`outputs, CustomTargets(outputs)`conflictMap
  {
    var rel := RelGenerated(ctx, srcDir, GeneratedPaths(generated));
    var resolved := CustomTargetsOf(outputs, rel);
    PathResult(IncludeDirs(ctx, srcDir, includes, BuildDirRel(ctx, buildDir)),
               SysIncludeDirs(ctx, srcDir, sysIncludes),
               Somes(RelPaths(ctx, srcDir, sources, false, false)),
               if resolved.Raise? then Paths(rel) else resolved.value,
               if resolved.Raise? then Some(resolved.error) else None)
  }

  /** The path pass leaves `.` among the include directories, and no directory twice. */
  lemma PathPassKeepsDot(includes: seq<string>, sysIncludes: seq<string>, sources: seq<string>, generated: seq<Generated>,
                         outputs: map<string, Dep>, ctx: Context, srcDir: string, buildDir: string)
    ensures var p := PathPass(includes, sysIncludes, sources, generated, outputs, ctx, srcDir, buildDir);
      "." in p.includes && NoDup(p.includes)
  {
    IncludeDirsSpec(ctx, srcDir, includes, BuildDirRel(ctx, buildDir), ".");
  }

  /**
   * The first half of `postprocess`: the flag pass (C and C++ options
   * filtered, standards recorded, `pie` set), the trace pass (explicit
   * dependencies, and an interface library's usage requirements), the
   * link-library pass (libraries that name a target move to `link_with`)
   * and the source pass (files with no supported suffix dropped).  Each
   * field is written by exactly one of the four, so in order they amount
   * to a single update.
   */
  function PostprocessFlagsSpec(s: TargetState, cmakeName: string, targetType: string, outputs: map<string, Dep>,
                                ctx: Context, trace: map<string, TraceTarget>): TargetState
    requires forall i :: 0 <= i < |s.languages| ==> s.languages[i] in ctx.sfx.lang
  {
    var split := SplitLinkLibraries(s.linkLibraries, outputs, ctx.sfx.lib);
    var supported := SupportedSuffixes(ctx.sfx, s.languages);
    s.(compileOpts := FilteredOpts(s.compileOpts),
       overrideOptions := s.overrideOptions + LangOverrides("c", s.compileOpts) + LangOverrides("cpp", s.compileOpts),
       pie := s.pie || LangHasPie("c", s.compileOpts) || LangHasPie("cpp", s.compileOpts) || Upper(targetType) == "OBJECT_LIBRARY",
       dependsRaw := if cmakeName in trace then trace[cmakeName].depends else s.dependsRaw,
       includes := s.includes + InterfaceProp(cmakeName, targetType, trace, "INTERFACE_INCLUDE_DIRECTORIES"),
       publicCompileOpts := s.publicCompileOpts + InterfaceProp(cmakeName, targetType, trace, "INTERFACE_COMPILE_DEFINITIONS")
                            + InterfaceProp(cmakeName, targetType, trace, "INTERFACE_COMPILE_OPTIONS"),
       linkFlags := s.linkFlags + InterfaceProp(cmakeName, targetType, trace, "INTERFACE_LINK_OPTIONS"),
       linkLibraries := split.libraries,
       linkWith := s.linkWith + split.linkWith,
       sources := SupportedSources(s.sources, supported),
       generated := SupportedGenerated(s.generated, supported))
  }

  /**
   * The second half of `postprocess`: the path pass, then (unless it
   * raised) the install-directory pass, the blacklist pass and the
   * `add_dependency()` pass, which write fields the path pass leaves alone.
   */
  function PostprocessPathsSpec(s: TargetState, outputs: map<string, Dep>, ctx: Context, srcDir: string, buildDir: string): (TargetState, Option<CMakeError>)
    reads CustomTargets(outputs)`outputs, CustomTargets(outputs)`conflictMap
  {
    var p := PathPass(s.includes, s.sysIncludes, s.sources, s.generated, outputs, ctx, srcDir, buildDir);
    var t := s.(includes := p.includes, sysIncludes := p.sysIncludes, sources := p.sources, generated := p.generated);
    if p.error.Some? then (t, p.error)
    else (t.(installDir := RelInstallDir(ctx, s.installDir),
             linkLibraries := KeptLinkLibraries(s.linkLibraries),
             linkFlags := KeptLinkFlags(s.linkFlags),
             depends := s.depends + TargetKeyHits(s.dependsRaw, outputs)), None)
  }

  /** `postprocess` as a whole. */
  function PostprocessSpec(s: TargetState, cmakeName: string, targetType: string, outputs: map<string, Dep>,
                           ctx: Context, trace: map<string, TraceTarget>, srcDir: string, buildDir: string): (TargetState, Option<CMakeError>)
    requires forall i :: 0 <= i < |s.languages| ==> s.languages[i] in ctx.sfx.lang
    reads CustomTargets(outputs)`outputs, CustomTargets(outputs)`conflictMap
  {
    PostprocessPathsSpec(PostprocessFlagsSpec(s, cmakeName, targetType, outputs, ctx, trace), outputs, ctx, srcDir, buildDir)
  }

  /** The flag half keeps no C or C++ option the filter drops, makes an object library position independent and leaves no `-rpath` library. */
  lemma PostprocessFlagsSpecProperties(s: TargetState, cmakeName: string, targetType: string, outputs: map<string, Dep>,
                                       ctx: Context, trace: map<string, TraceTarget>)
    requires forall i :: 0 <= i < |s.languages| ==> s.languages[i] in ctx.sfx.lang
    ensures
      var f := PostprocessFlagsSpec(s, cmakeName, targetType, outputs, ctx, trace);
      && ("c" in f.compileOpts ==> forall x :: x in f.compileOpts["c"] ==> Classify(x).Kept?)
      && ("cpp" in f.compileOpts ==> forall x :: x in f.compileOpts["cpp"] ==> Classify(x).Kept?)
      && (Upper(targetType) == "OBJECT_LIBRARY" ==> f.pie)
      && (forall l :: l in f.linkLibraries ==> !IsRpath(l))
      && f.languages == s.languages && f.objectLibs == s.objectLibs && f.depends == s.depends
  {
    var f := PostprocessFlagsSpec(s, cmakeName, targetType, outputs, ctx, trace);
    forall x | "c" in f.compileOpts && x in f.compileOpts["c"] ensures Classify(x).Kept? {
      FilteredOptsSpec(s.compileOpts, "c", x);
    }
    forall x | "cpp" in f.compileOpts && x in f.compileOpts["cpp"] ensures Classify(x).Kept? {
      FilteredOptsSpec(s.compileOpts, "cpp", x);
    }
    SplitLinkLibrariesKept(s.linkLibraries, outputs, ctx.sfx.lib);
  }

  /**
   * Unless the path pass raises, the path half leaves `.` among the
   * include directories, no blacklisted link library or link flag, and
   * `depends` grown by exactly the output-map hits of the explicit
   * dependencies; it drops link libraries but never adds one, and
   * leaves the options, `pie`, the languages and the object libraries alone.
   */
  lemma PostprocessPathsSpecProperties(s: TargetState, outputs: map<string, Dep>, ctx: Context, srcDir: string, buildDir: string)
    ensures
      var (r, err) := PostprocessPathsSpec(s, outputs, ctx, srcDir, buildDir);
      && r.compileOpts == s.compileOpts && r.pie == s.pie && r.languages == s.languages && r.objectLibs == s.objectLibs
      && (forall l :: l in r.linkLibraries ==> l in s.linkLibraries)
      && (err.None? ==> "." in r.includes && NoDup(r.includes))
      && (err.None? ==> forall l :: l in r.linkLibraries ==> KeepLinkLibrary(l))
      && (err.None? ==> forall x :: x in r.linkFlags ==> CheckFlag(x))
      && (err.None? ==> r.depends == s.depends + TargetKeyHits(s.dependsRaw, outputs))
  {
    PathPassKeepsDot(s.includes, s.sysIncludes, s.sources, s.generated, outputs, ctx, srcDir, buildDir);
  }

  /**
   * What `postprocess` guarantees: no C or C++ option that the flag filter
   * drops survives, an object library is position independent, no
   * `-rpath` entry is left among the link libraries, the languages and
   * object libraries are untouched, and, unless the path pass raised, `.`
   * is an include directory, no blacklisted link library or link flag is
   * left, and `depends` grew by exactly the output-map hits of the
   * explicit dependencies.
   */
  lemma PostprocessSpecProperties(s: TargetState, cmakeName: string, targetType: string, outputs: map<string, Dep>,
                                  ctx: Context, trace: map<string, TraceTarget>, srcDir: string, buildDir: string)
    requires forall i :: 0 <= i < |s.languages| ==> s.languages[i] in ctx.sfx.lang
    ensures
      var (r, err) := PostprocessSpec(s, cmakeName, targetType, outputs, ctx, trace, srcDir, buildDir);
      var f := PostprocessFlagsSpec(s, cmakeName, targetType, outputs, ctx, trace);
      && ("c" in r.compileOpts ==> forall x :: x in r.compileOpts["c"] ==> Classify(x).Kept?)
      && ("cpp" in r.compileOpts ==> forall x :: x in r.compileOpts["cpp"] ==> Classify(x).Kept?)
      && (Upper(targetType) == "OBJECT_LIBRARY" ==> r.pie)
      && (forall l :: l in r.linkLibraries ==> !IsRpath(l))
      && r.languages == s.languages && r.objectLibs == s.objectLibs
      && (err.None? ==> "." in r.includes && NoDup(r.includes))
      && (err.None? ==> forall l :: l in r.linkLibraries ==> KeepLinkLibrary(l))
      && (err.None? ==> forall x :: x in r.linkFlags ==> CheckFlag(x))
      && (err.None? ==> r.depends == s.depends + TargetKeyHits(f.dependsRaw, outputs))
  {
    var f := PostprocessFlagsSpec(s, cmakeName, targetType, outputs, ctx, trace);
    PostprocessFlagsSpecProperties(s, cmakeName, targetType, outputs, ctx, trace);
    PostprocessPathsSpecProperties(f, outputs, ctx, srcDir, buildDir);
  }

  // ---------------------------------------------------------------------------
  // ConverterTarget
  // ---------------------------------------------------------------------------

  class ConverterTarget {
    const artifacts: seq<string>
    const srcDir: string
    const buildDir: string
    const name: string
    const cmakeName: string
    const fullName: string
    const targetType: string
    const install: bool
    var installDir: string
    var linkLibraries: seq<string>
    var linkFlags: seq<string>
    var dependsRaw: seq<string>
    var depends: seq<Dep>
    var languages: seq<string>
    var sources: seq<string>
    var generated: seq<Generated>
    var includes: seq<string>
    var sysIncludes: seq<string>
    var linkWith: seq<Dep>
    var objectLibs: seq<ConverterTarget>
    var compileOpts: map<string, seq<string>>
    var publicCompileOpts: seq<string>
    var pie: bool
    var overrideOptions: seq<string>

    /** `__init__`: the Meson name, and the languages, flags, include directories and sources gathered from the file groups. */
    constructor (target: CMakeTarget)
      ensures name == MesonName(target.name) && cmakeName == target.name
      ensures fullName == target.fullName && targetType == target.targetType && artifacts == target.artifacts
      ensures srcDir == target.srcDir && buildDir == target.buildDir && install == target.install
      ensures installDir == if target.installPaths != [] then target.installPaths[0] else ""
      ensures linkLibraries == target.linkLibraries
      ensures linkFlags == target.linkFlags + target.linkLangFlags
      ensures dependsRaw == [] && depends == [] && linkWith == [] && objectLibs == []
      ensures publicCompileOpts == [] && !pie && overrideOptions == []
      ensures var st := Groups(target.files);
        && languages == st.languages && compileOpts == st.compileOpts
        && includes == st.includes && sysIncludes == st.sysIncludes
        && sources == st.sources && generated == Paths(st.generated)
    {
      artifacts := target.artifacts;
      srcDir := target.srcDir;
      buildDir := target.buildDir;
      cmakeName := target.name;
      fullName := target.fullName;
      targetType := target.targetType;
      install := target.install;
      installDir := "";
      linkLibraries := target.linkLibraries;
      linkFlags := target.linkFlags + target.linkLangFlags;
      dependsRaw := [];
      depends := [];
      if target.installPaths != [] {
        installDir := target.installPaths[0];
      }
      linkWith := [];
      objectLibs := [];
      publicCompileOpts := [];
      pie := false;
      overrideOptions := [];
      name := GeneratedTargetNamePrefix + ReplaceDashes(target.name);

      var st := CollectGroups(target.files);
      languages := st.languages;
      compileOpts := st.compileOpts;
      includes := st.includes;
      sysIncludes := st.sysIncludes;
      sources := st.sources;
      generated := Paths(st.generated);
    }

    /** The fields the later steps change, as one value. */
    function State(): TargetState
      reads this
    {
      TargetState(installDir, linkLibraries, linkFlags, dependsRaw, depends, languages, sources, generated,
                  includes, sysIncludes, linkWith, objectLibs, compileOpts, publicCompileOpts, pie, overrideOptions)
    }

    /** Before `postprocess` every `generated` entry is a path. */
    predicate GeneratedArePaths()
      reads this
    {
      forall i :: 0 <= i < |generated| ==> generated[i].GenPath?
    }

    /** One language's pass of the flag loop in `postprocess`. */
    method FilterLanguageFlags(lang: string)
      requires lang in compileOpts
      modifies this`compileOpts, this`overrideOptions, this`pie
      ensures compileOpts == old(compileOpts)[lang := KeptFlags(old(compileOpts)[lang])]
      ensures overrideOptions == old(overrideOptions) + StdOverrides(lang, old(compileOpts)[lang])
      ensures pie == (old(pie) || HasPieFlag(old(compileOpts)[lang]))
    {
      var opts := compileOpts[lang];
      var temp: seq<string> := [];
      var overrides := overrideOptions;
      var pieSeen := pie;
      var j := 0;
      while j < |opts|
        invariant 0 <= j <= |opts|
        invariant compileOpts == old(compileOpts) && overrideOptions == old(overrideOptions) && pie == old(pie)
        invariant temp == KeptFlags(opts[..j])
        invariant overrides == old(overrideOptions) + StdOverrides(lang, opts[..j])
        invariant pieSeen == (old(pie) || HasPieFlag(opts[..j]))
      {
        var f := opts[j];
        KeptFlagsSnoc(lang, opts, j);
        match Classify(f) {
          case StdFlag(v) =>
            overrides := overrides + [lang + "_std=" + v];
          case PieFlag =>
            pieSeen := true;
          case Blacklisted =>
          case Kept =>
            temp := temp + [f];
        }
        j := j + 1;
      }
      assert opts[..j] == opts;
      compileOpts := compileOpts[lang := temp];
      overrideOptions := overrides;
      pie := pieSeen;
    }

    /** The flag pass of `postprocess`: C and C++ options, then `pie` forced on for object libraries. */
    method FilterCompileFlags()
      modifies this`compileOpts, this`overrideOptions, this`pie
      ensures compileOpts == FilteredOpts(old(compileOpts))
      ensures overrideOptions == old(overrideOptions) + LangOverrides("c", old(compileOpts)) + LangOverrides("cpp", old(compileOpts))
      ensures pie == (old(pie) || LangHasPie("c", old(compileOpts)) || LangHasPie("cpp", old(compileOpts))
        || Upper(targetType) == "OBJECT_LIBRARY")
    {
      ghost var opts0 := compileOpts;
      if "c" in compileOpts {
        FilterLanguageFlags("c");
      }
      assert overrideOptions == old(overrideOptions) + LangOverrides("c", opts0);
      assert "cpp" in compileOpts <==> "cpp" in opts0;
      assert "cpp" in opts0 ==> compileOpts["cpp"] == opts0["cpp"];
      ghost var mid := overrideOptions;
      if "cpp" in compileOpts {
        FilterLanguageFlags("cpp");
      }
      assert overrideOptions == mid + LangOverrides("cpp", opts0);
      if Upper(targetType) == "OBJECT_LIBRARY" {
        pie := true;
      }
      forall f | "c" in compileOpts && f in compileOpts["c"] ensures Classify(f).Kept? {
        FilteredOptsSpec(opts0, "c", f);
      }
      forall f | "cpp" in compileOpts && f in compileOpts["cpp"] ensures Classify(f).Kept? {
        FilteredOptsSpec(opts0, "cpp", f);
      }
    }

    /** The link-library loop of `postprocess`. */
    method ResolveLinkLibraries(outputs: map<string, Dep>, libSuffixes: seq<string>)
      modifies this`linkLibraries, this`linkWith
      ensures linkLibraries == SplitLinkLibraries(old(linkLibraries), outputs, libSuffixes).libraries
      ensures linkWith == old(linkWith) + SplitLinkLibraries(old(linkLibraries), outputs, libSuffixes).linkWith
    {
      var libs := linkLibraries;
      var temp: seq<string> := [];
      var k := 0;
      while k < |libs|
        invariant 0 <= k <= |libs|
        invariant temp == SplitLinkLibraries(libs[..k], outputs, libSuffixes).libraries
        invariant linkWith == old(linkWith) + SplitLinkLibraries(libs[..k], outputs, libSuffixes).linkWith
      {
        var l := libs[k];
        assert libs[..k + 1][..k] == libs[..k];
        if Contains(l, ",-rpath,") {
        } else {
          var resolved: Option<Dep> := None;
          if !IsAbs(l) {
            resolved := ResolveLinkWith(l, libSuffixes, outputs);
          }
          if resolved.Some? {
            linkWith := linkWith + [resolved.value];
          } else {
            temp := temp + [l];
          }
        }
        k := k + 1;
      }
      assert libs[..k] == libs;
      linkLibraries := temp;
      SplitLinkLibrariesKept(libs, outputs, libSuffixes);
    }

    /** The `add_dependency()` loop of `postprocess`. */
    method AddExplicitDependencies(outputs: map<string, Dep>)
      modifies this`depends
      ensures depends == old(depends) + TargetKeyHits(dependsRaw, outputs)
    {
      var k := 0;
      while k < |dependsRaw|
        invariant 0 <= k <= |dependsRaw|
        invariant depends == old(depends) + TargetKeyHits(dependsRaw[..k], outputs)
      {
        assert dependsRaw[..k + 1][..k] == dependsRaw[..k];
        var key := TargetKey(dependsRaw[k]);
        if key in outputs {
          depends := depends + [outputs[key]];
        }
        k := k + 1;
      }
      assert dependsRaw[..k] == dependsRaw;
    }

    /** The flag and trace passes of `postprocess`. */
    method FilterFlagsAndTrace(trace: map<string, TraceTarget>)
      modifies this`compileOpts, this`overrideOptions, this`pie, this`dependsRaw, this`includes, this`publicCompileOpts, this`linkFlags
      ensures compileOpts == FilteredOpts(old(compileOpts))
      ensures overrideOptions == old(overrideOptions) + LangOverrides("c", old(compileOpts)) + LangOverrides("cpp", old(compileOpts))
      ensures pie == (old(pie) || LangHasPie("c", old(compileOpts)) || LangHasPie("cpp", old(compileOpts))
        || Upper(targetType) == "OBJECT_LIBRARY")
      ensures dependsRaw == if cmakeName in trace then trace[cmakeName].depends else old(dependsRaw)
      ensures includes == old(includes) + InterfaceProp(cmakeName, targetType, trace, "INTERFACE_INCLUDE_DIRECTORIES")
      ensures publicCompileOpts == old(publicCompileOpts) + InterfaceProp(cmakeName, targetType, trace, "INTERFACE_COMPILE_DEFINITIONS")
                                   + InterfaceProp(cmakeName, targetType, trace, "INTERFACE_COMPILE_OPTIONS")
      ensures linkFlags == old(linkFlags) + InterfaceProp(cmakeName, targetType, trace, "INTERFACE_LINK_OPTIONS")
    {
      FilterCompileFlags();
      if cmakeName in trace {
        var tgt := trace[cmakeName];
        dependsRaw := tgt.depends;
        if Upper(targetType) == "INTERFACE_LIBRARY" {
          var props := tgt.properties;
          includes := includes + Prop(props, "INTERFACE_INCLUDE_DIRECTORIES");
          publicCompileOpts := publicCompileOpts + Prop(props, "INTERFACE_COMPILE_DEFINITIONS");
          publicCompileOpts := publicCompileOpts + Prop(props, "INTERFACE_COMPILE_OPTIONS");
          linkFlags := linkFlags + Prop(props, "INTERFACE_LINK_OPTIONS");
        }
      }
    }

    /** The link-library and source passes of `postprocess`. */
    method ResolveLinksAndSources(outputs: map<string, Dep>, ctx: Context)
      requires forall i :: 0 <= i < |languages| ==> languages[i] in ctx.sfx.lang
      modifies this`linkLibraries, this`linkWith, this`sources, this`generated
      ensures linkLibraries == SplitLinkLibraries(old(linkLibraries), outputs, ctx.sfx.lib).libraries
      ensures linkWith == old(linkWith) + SplitLinkLibraries(old(linkLibraries), outputs, ctx.sfx.lib).linkWith
      ensures sources == SupportedSources(old(sources), SupportedSuffixes(ctx.sfx, languages))
      ensures generated == SupportedGenerated(old(generated), SupportedSuffixes(ctx.sfx, languages))
    {
      ResolveLinkLibraries(outputs, ctx.sfx.lib);
      var supported := SupportedSuffixes(ctx.sfx, languages);
      sources := SupportedSources(sources, supported);
      generated := SupportedGenerated(generated, supported);
    }

    /**
     * The first half of `postprocess`: the flag, trace, link-library and
     * source passes.  The fields it writes are those of
     * `PostprocessFlagsSpec`, whose guarantees `PostprocessFlagsSpecProperties`
     * states.
     */
    method PostprocessFlags(outputs: map<string, Dep>, ctx: Context, trace: map<string, TraceTarget>)
      requires forall i :: 0 <= i < |languages| ==> languages[i] in ctx.sfx.lang
      modifies this`compileOpts, this`overrideOptions, this`pie, this`dependsRaw, this`includes, this`publicCompileOpts
      modifies this`linkFlags, this`linkLibraries, this`linkWith, this`sources, this`generated
      ensures var t := PostprocessFlagsSpec(old(State()), cmakeName, targetType, outputs, ctx, trace);
        && compileOpts == t.compileOpts && overrideOptions == t.overrideOptions && pie == t.pie
        && dependsRaw == t.dependsRaw && includes == t.includes && publicCompileOpts == t.publicCompileOpts
        && linkFlags == t.linkFlags && linkLibraries == t.linkLibraries && linkWith == t.linkWith
        && sources == t.sources && generated == t.generated
    {
      FilterFlagsAndTrace(trace);
      ResolveLinksAndSources(outputs, ctx);
    }

    /**
     * The path pass of `postprocess`: include directories become a set
     * holding the build directory and `.`, missing sources are dropped, and
     * generated files made by custom targets become references to them.
     */
    method MakePathsRelative(outputs: map<string, Dep>, ctx: Context) returns (err: Option<CMakeError>)
      modifies this`includes, this`sysIncludes, this`sources, this`generated
      ensures var p := old(PathPass(includes, sysIncludes, sources, generated, outputs, ctx, srcDir, buildDir));
        err == p.error && includes == p.includes && sysIncludes == p.sysIncludes && sources == p.sources && generated == p.generated
    {
      var p := PathPass(includes, sysIncludes, sources, generated, outputs, ctx, srcDir, buildDir);
      includes := p.includes;
      sysIncludes := p.sysIncludes;
      sources := p.sources;
      generated := p.generated;
      err := p.error;
    }

    /**
     * The second half of `postprocess`: the path, install-directory, blacklist
     * and dependency passes, field by field as `PostprocessPathsSpec` computes
     * them; `PostprocessPathsSpecProperties` states their guarantees.  An
     * exception from the path pass leaves the later fields as they were.
     */
    method PostprocessPaths(outputs: map<string, Dep>, ctx: Context) returns (err: Option<CMakeError>)
      modifies this`includes, this`sysIncludes, this`sources, this`generated, this`installDir
      modifies this`linkLibraries, this`linkFlags, this`depends
      ensures var p := old(PathPass(includes, sysIncludes, sources, generated, outputs, ctx, srcDir, buildDir));
        err == p.error && includes == p.includes && sysIncludes == p.sysIncludes && sources == p.sources && generated == p.generated
      ensures installDir == if err.Some? then old(installDir) else RelInstallDir(ctx, old(installDir))
      ensures linkLibraries == if err.Some? then old(linkLibraries) else KeptLinkLibraries(old(linkLibraries))
      ensures linkFlags == if err.Some? then old(linkFlags) else KeptLinkFlags(old(linkFlags))
      ensures depends == if err.Some? then old(depends) else old(depends) + TargetKeyHits(dependsRaw, outputs)
    {
      err := MakePathsRelative(outputs, ctx);
      if err.Some? {
        return;
      }
      installDir := RelInstallDir(ctx, installDir);
      linkLibraries := KeptLinkLibraries(linkLibraries);
      linkFlags := KeptLinkFlags(linkFlags);
      AddExplicitDependencies(outputs);
    }

    /**
     * `process_object_libs`: the object libraries whose sources produced one
     * of this target's generated object files are recorded, and those object
     * files are dropped from `generated`.  Taking the basename of a
     * reference to a custom target output raises `TypeError`.
     */
    method ProcessObjectLibs(objTargets: seq<ConverterTarget>, objSuffixes: seq<string>) returns (err: Option<CMakeError>)
      modifies this`objectLibs, this`generated
      ensures err.None? <==> old(ObjectLibScan(ObjectStems(generated, objSuffixes), objTargets)).Value?
      ensures err.None? ==> objectLibs == old(objectLibs) + old(ObjectLibScan(ObjectStems(generated, objSuffixes), objTargets)).value
      ensures err.None? ==> generated == WithoutObjectFiles(old(generated), objSuffixes)
      ensures err.Some? ==> err == Some(TypeError) && generated == old(generated)
      ensures err.Some? ==>
        exists k :: 0 <= k < |objTargets| &&
          old(SourceNames(objTargets[k].sources, objTargets[k].generated)).None? &&
          old(ObjectLibScan(ObjectStems(generated, objSuffixes), objTargets[..k])).Value? &&
          objectLibs == old(objectLibs) + old(ObjectLibScan(ObjectStems(generated, objSuffixes), objTargets[..k])).value
    {
      var stems := ObjectStems(generated, objSuffixes);
      var k := 0;
      while k < |objTargets|
        invariant 0 <= k <= |objTargets|
        invariant generated == old(generated)
        invariant old(ObjectLibScan(stems, objTargets[..k])).Value?
        invariant objectLibs == old(objectLibs) + old(ObjectLibScan(stems, objTargets[..k])).value
      {
        var t := objTargets[k];
        assert objTargets[..k + 1][..k] == objTargets[..k];
        var names := SourceNames(t.sources, t.generated);
        if names.None? {
          ObjectLibScanRaises(stems, objTargets, k);
          assert old(SourceNames(objTargets[k].sources, objTargets[k].generated)).None?;
          return Some(TypeError);
        }
        if BuildsStem(names.value, stems) {
          objectLibs := objectLibs + [t];
        }
        k := k + 1;
      }
      assert objTargets[..k] == objTargets;
      generated := WithoutObjectFiles(generated, objSuffixes);
      return None;
    }

    /**
     * `process_inter_target_dependencies`: `depends` becomes the
     * duplicate-free list of every dependency reached through header-only
     * targets that is not itself a header-only target; `reached` is the least
     * set closed under that rule over the old `depends`, and `universe` any
     * closed set.
     */
    method ProcessInterTargetDependencies(ghost universe: set<Dep>) returns (ghost reached: set<Dep>)
      requires ClosedOver(universe, depends)
      modifies this`depends
      ensures reached <= universe
      ensures old(ClosedOver(reached, depends))
      ensures forall other: set<Dep> :: old(allocated(other)) && old(ClosedOver(other, depends)) ==> reached <= other
      ensures NoDup(depends)
      ensures forall d :: d in depends <==> d in reached && !Transfers(d)
      ensures forall i :: 0 <= i < |old(depends)| && !Transfers(old(depends)[i]) ==> old(depends)[i] in depends
    {
      ghost var roots := depends;
      var kept;
      kept, reached := TransferDependencies(depends, universe);
      forall other: set<Dep> | old(allocated(other)) && old(ClosedOver(other, depends))
        ensures reached <= other
      {
        assert ClosedOver(other, roots);
      }
      depends := Dedup(kept);
    }

    /** `cleanup_dependencies`: a target whose dependencies moved to its dependents keeps none. */
    method CleanupDependencies()
      modifies this`depends
      ensures depends == if TransfersDependencies(targetType) then [] else old(depends)
    {
      if MesonFunc(targetType) == Some("header_only") {
        depends := [];
      }
    }
  }

  /** Plain paths as `generated` entries. */
  function Paths(s: seq<string>): (r: seq<Generated>)
    ensures |r| == |s|
    ensures forall i :: 0 <= i < |s| ==> r[i] == GenPath(s[i])
  {
    if s == [] then [] else Paths(s[..|s| - 1]) + [GenPath(s[|s| - 1])]
  }

  // ---------------------------------------------------------------------------
  // ConverterTarget.process_object_libs
  // ---------------------------------------------------------------------------

  /** The position of the last `.` in a string. */
  function LastDot(s: string): (r: Option<nat>)
    ensures r.Some? ==> r.value < |s| && s[r.value] == '.'
    ensures r.None? ==> '.' !in s
  {
    if s == [] then None
    else if s[|s| - 1] == '.' then Some(|s| - 1)
    else
      var r := LastDot(s[..|s| - 1]);
      assert r.None? ==> forall k :: 0 <= k < |s| - 1 ==> s[k] == s[..|s| - 1][k];
      r
  }

  predicate AllDots(s: string) {
    forall k :: 0 <= k < |s| ==> s[k] == '.'
  }

  /** `os.path.splitext(b)[0]` for a file name: the part before the last dot, unless only dots precede it. */
  function SplitextRoot(b: string): string {
    match LastDot(b)
    case None => b
    case Some(d) => if AllDots(b[..d]) then b else b[..d]
  }

  /** The stems of this target's generated object files: the source file each was compiled from. */
  function ObjectStems(generated: seq<Generated>, objSuffixes: seq<string>): seq<string> {
    if generated == [] then []
    else
      var init := ObjectStems(generated[..|generated| - 1], objSuffixes);
      var g := generated[|generated| - 1];
      if g.GenPath? && EndsWithAny(Basename(g.path), PrefixEach(".", objSuffixes)) then init + [SplitextRoot(Basename(g.path))]
      else init
  }

  /** `[os.path.basename(x) for x in sources + generated]`, None where a reference makes it raise. */
  function SourceNames(sources: seq<string>, generated: seq<Generated>): (r: Option<seq<string>>)
    ensures r.None? <==> exists i :: 0 <= i < |generated| && generated[i].GenRef?
    ensures r.Some? ==> forall i :: 0 <= i < |sources| ==> Basename(sources[i]) in r.value
  {
    if exists i :: 0 <= i < |generated| && generated[i].GenRef? then None
    else
      var all := sources + GeneratedPaths(generated);
      assert forall i :: 0 <= i < |sources| ==> all[i] == sources[i];
      Some(Basenames(all))
  }

  /** Whether an object library built one of the stems. */
  predicate BuildsStem(names: seq<string>, stems: seq<string>) {
    exists j :: j in names && j in stems
  }

  /** The loop over the object libraries: those that built a stem, in order, or `TypeError`. */
  function ObjectLibScan(stems: seq<string>, objTargets: seq<ConverterTarget>): Outcome<seq<ConverterTarget>>
    reads objTargets`sources, objTargets`generated
  {
    if objTargets == [] then Value([])
    else
      var t := objTargets[|objTargets| - 1];
      var init := ObjectLibScan(stems, objTargets[..|objTargets| - 1]);
      if init.Raise? then init
      else
        match SourceNames(t.sources, t.generated)
        case None => Raise(TypeError)
        case Some(names) => if BuildsStem(names, stems) then Value(init.value + [t]) else init
  }

  /** Once one object library holds a reference to a custom target output, the scan raises. */
  lemma {:induction false} ObjectLibScanRaises(stems: seq<string>, objTargets: seq<ConverterTarget>, k: nat)
    requires k < |objTargets|
    requires SourceNames(objTargets[k].sources, objTargets[k].generated).None?
    ensures ObjectLibScan(stems, objTargets).Raise?
    decreases |objTargets|
  {
    if k < |objTargets| - 1 {
      ObjectLibScanRaises(stems, objTargets[..|objTargets| - 1], k);
    }
  }

  /** The scan raises exactly when some object library has a custom target output among its generated sources. */
  lemma {:induction false} ObjectLibScanRaiseIff(stems: seq<string>, objTargets: seq<ConverterTarget>)
    ensures ObjectLibScan(stems, objTargets).Raise? <==>
      exists k :: 0 <= k < |objTargets| && SourceNames(objTargets[k].sources, objTargets[k].generated).None?
  {
    if objTargets != [] {
      var init := objTargets[..|objTargets| - 1];
      ObjectLibScanRaiseIff(stems, init);
      assert forall k :: 0 <= k < |init| ==> init[k] == objTargets[k];
    }
  }

  /** Every object library that built a stem is recorded. */
  lemma {:induction false} ObjectLibScanComplete(stems: seq<string>, objTargets: seq<ConverterTarget>, k: nat)
    requires ObjectLibScan(stems, objTargets).Value? && k < |objTargets|
    requires SourceNames(objTargets[k].sources, objTargets[k].generated).Some?
    requires BuildsStem(SourceNames(objTargets[k].sources, objTargets[k].generated).value, stems)
    ensures objTargets[k] in ObjectLibScan(stems, objTargets).value
  {
    var init := objTargets[..|objTargets| - 1];
    if k < |objTargets| - 1 {
      assert init[k] == objTargets[k];
      ObjectLibScanComplete(stems, init, k);
    }
  }

  /** Only object libraries that built a stem are recorded. */
  lemma {:induction false} ObjectLibScanSound(stems: seq<string>, objTargets: seq<ConverterTarget>, t: ConverterTarget)
    requires ObjectLibScan(stems, objTargets).Value? && t in ObjectLibScan(stems, objTargets).value
    ensures t in objTargets && SourceNames(t.sources, t.generated).Some?
    ensures BuildsStem(SourceNames(t.sources, t.generated).value, stems)
  {
    var init := objTargets[..|objTargets| - 1];
    if t in ObjectLibScan(stems, init).value {
      ObjectLibScanSound(stems, init, t);
      var i :| 0 <= i < |init| && init[i] == t;
      assert objTargets[i] == t;
    }
  }

  /** `generated` without the object files, references kept. */
  function WithoutObjectFiles(generated: seq<Generated>, objSuffixes: seq<string>): seq<Generated> {
    Filter(generated, (g: Generated) => g.GenRef? || !EndsWithAny(g.path, PrefixEach(".", objSuffixes)))
  }

  // ---------------------------------------------------------------------------
  // ConverterTarget.process_inter_target_dependencies
  // ---------------------------------------------------------------------------

  /** The build targets among a set of dependencies: the objects whose `depends` the traversal reads. */
  function TargetsIn(deps: set<Dep>): set<ConverterTarget> {
    set d | d in deps && d.Target? :: d.t
  }

  function Elems(s: seq<Dep>): set<Dep> {
    set x | x in s
  }

  /**
   * A set of dependencies that holds the roots and, with every header-only
   * target in it, all of that target's dependencies.
   */
  ghost predicate ClosedOver(deps: set<Dep>, roots: seq<Dep>)
    reads TargetsIn(deps)
  {
    && (forall i :: 0 <= i < |roots| ==> roots[i] in deps)
    && (forall d :: d in deps && Transfers(d) ==> forall j :: 0 <= j < |d.t.depends| ==> d.t.depends[j] in deps)
  }

  /** `[x for x in deps if x not in processed]`. */
  function NotProcessed(deps: seq<Dep>, processed: seq<Dep>): (r: seq<Dep>)
    ensures |r| <= |deps|
    ensures forall i :: 0 <= i < |r| ==> r[i] in deps && r[i] !in processed
    ensures forall i :: 0 <= i < |deps| && deps[i] !in processed ==> deps[i] in r
  {
    Filter(deps, (x: Dep) => x !in processed)
  }

  /** `n` copies of `r`. */
  function Repeat(n: nat, r: nat): (s: seq<nat>)
    ensures |s| == n && forall i :: 0 <= i < n ==> s[i] == r
  {
    if n == 0 then [] else [r] + Repeat(n - 1, r)
  }

  lemma CardRemove(u: set<Dep>, p: set<Dep>, x: Dep)
    ensures |u - (p + {x})| <= |u - p|
    ensures x in u && x !in p ==> |u - (p + {x})| == |u - p| - 1
  {
    if x in u && x !in p {
      assert u - (p + {x}) == (u - p) - {x};
    } else {
      assert u - (p + {x}) == u - p;
    }
  }

  /** The pending entries that have already been processed through an earlier copy. */
  function StaleCount(pending: seq<Dep>, processed: seq<Dep>): nat {
    if pending == [] then 0
    else (if pending[0] in processed then 1 else 0) + StaleCount(pending[1..], processed)
  }

  lemma {:induction false} StaleCountAppend(xs: seq<Dep>, ys: seq<Dep>, processed: seq<Dep>)
    ensures StaleCount(xs + ys, processed) == StaleCount(xs, processed) + StaleCount(ys, processed)
  {
    if xs == [] {
      assert xs + ys == ys;
    } else {
      assert (xs + ys)[1..] == xs[1..] + ys;
      StaleCountAppend(xs[1..], ys, processed);
    }
  }

  lemma {:induction false} StaleCountFresh(xs: seq<Dep>, processed: seq<Dep>)
    requires forall i :: 0 <= i < |xs| ==> xs[i] !in processed
    ensures StaleCount(xs, processed) == 0
  {
    if xs != [] {
      StaleCountFresh(xs[1..], processed);
    }
  }

  /** Processing again an entry already processed changes no membership, hence no count. */
  lemma {:induction false} StaleCountSame(xs: seq<Dep>, processed: seq<Dep>, x: Dep)
    requires x in processed
    ensures StaleCount(xs, processed + [x]) == StaleCount(xs, processed)
  {
    if xs != [] {
      assert xs[0] in processed + [x] <==> xs[0] in processed;
      StaleCountSame(xs[1..], processed, x);
    }
  }

  ghost predicate Covered(queue: seq<Dep>, universe: set<Dep>) {
    forall j :: 0 <= j < |queue| ==> queue[j] in universe
  }

  /** Every header-only target processed so far has had its dependencies put on the work list. */
  ghost predicate Expanded(queue: seq<Dep>, k: nat, universe: set<Dep>)
    reads TargetsIn(universe)
  {
    && Covered(queue, universe)
    && k <= |queue|
    && (forall j {:trigger Transfers(queue[j])} :: 0 <= j < k && Transfers(queue[j]) ==>
          forall x :: 0 <= x < |queue[j].t.depends| ==> queue[j].t.depends[x] in queue)
  }

  /** The kept dependencies are exactly the processed entries that are not header-only targets. */
  ghost predicate KeptOk(queue: seq<Dep>, k: nat, kept: seq<Dep>) {
    && k <= |queue|
    && (forall i :: 0 <= i < |kept| ==> kept[i] in queue[..k] && !Transfers(kept[i]))
    && (forall j {:trigger Transfers(queue[j])} :: 0 <= j < k && !Transfers(queue[j]) ==> queue[j] in kept)
  }

  /**
   * The work list shrinks in the lexicographic order of the number of
   * universe entries not yet processed and the number of pending entries
   * processed before: a new entry lowers the first, and an entry processed
   * again lowers the second, since all it adds is unprocessed.
   */
  lemma MeasureStep(universe: set<Dep>, queue: seq<Dep>, k: nat, added: seq<Dep>)
    requires k < |queue| && queue[k] in universe
    requires forall i :: 0 <= i < |added| ==> added[i] !in queue[..k + 1]
    ensures var before := |universe - Elems(queue[..k])|;
      var after := |universe - Elems(queue[..k + 1])|;
      after < before || (after == before &&
        StaleCount((queue + added)[k + 1..], queue[..k + 1]) < StaleCount(queue[k..], queue[..k]))
  {
    var p := queue[..k];
    assert queue[..k + 1] == p + [queue[k]];
    assert Elems(queue[..k + 1]) == Elems(p) + {queue[k]};
    CardRemove(universe, Elems(p), queue[k]);
    if queue[k] in p {
      assert queue[k..] == [queue[k]] + queue[k + 1..];
      assert (queue + added)[k + 1..] == queue[k + 1..] + added;
      StaleCountAppend(queue[k + 1..], added, queue[..k + 1]);
      StaleCountFresh(added, queue[..k + 1]);
      StaleCountSame(queue[k + 1..], p, queue[k]);
    }
  }

  lemma ExpandStep(queue: seq<Dep>, k: nat, universe: set<Dep>, added: seq<Dep>)
    requires Expanded(queue, k, universe) && k < |queue| && Covered(added, universe)
    requires Transfers(queue[k]) ==> forall x :: 0 <= x < |queue[k].t.depends| ==>
      queue[k].t.depends[x] in queue[..k + 1] || queue[k].t.depends[x] in added
    ensures Expanded(queue + added, k + 1, universe)
  {
    var q := queue + added;
    forall j | 0 <= j < k + 1 && Transfers(q[j])
      ensures forall x :: 0 <= x < |q[j].t.depends| ==> q[j].t.depends[x] in q
    {
      assert q[j] == queue[j];
      forall x | 0 <= x < |q[j].t.depends| ensures q[j].t.depends[x] in q {
        var y := q[j].t.depends[x];
        if j == k && y in added {
          var i :| 0 <= i < |added| && added[i] == y;
          assert q[|queue| + i] == y;
        } else {
          assert y in queue;
        }
      }
    }
  }
  /**
   * Where each work-list entry came from: the first `|deps|` entries are the
   * roots, and every later one is a dependency of an earlier, already
   * processed header-only entry, its parent.
   */
  ghost predicate Derived(deps: seq<Dep>, universe: set<Dep>, queue: seq<Dep>, k: nat, parents: seq<nat>)
    reads TargetsIn(universe)
  {
    && Covered(queue, universe)
    && |parents| == |queue|
    && (forall j {:trigger parents[j]} :: |deps| <= j < |queue| ==>
          && parents[j] < j && parents[j] < k && Transfers(queue[parents[j]])
          && queue[j] in queue[parents[j]].t.depends)
  }

  lemma DerivedStep(deps: seq<Dep>, universe: set<Dep>, queue: seq<Dep>, k: nat, parents: seq<nat>, added: seq<Dep>)
    requires Derived(deps, universe, queue, k, parents) && k < |queue| && Covered(added, universe)
    requires added != [] ==> Transfers(queue[k])
    requires forall i :: 0 <= i < |added| ==> queue[k].Target? && added[i] in queue[k].t.depends
    ensures Derived(deps, universe, queue + added, k + 1, parents + Repeat(|added|, k))
  {
    var q := queue + added;
    var ps := parents + Repeat(|added|, k);
    forall j | |deps| <= j < |q|
      ensures ps[j] < j && ps[j] < k + 1 && Transfers(q[ps[j]]) && q[j] in q[ps[j]].t.depends
    {
      if j < |queue| {
        assert ps[j] == parents[j] && q[j] == queue[j] && q[ps[j]] == queue[parents[j]];
      } else {
        assert ps[j] == k && q[j] == added[j - |queue|] && q[k] == queue[k];
      }
    }
  }

  /** Every entry of a derived work list lies in each closed set: the roots by definition, the rest through their parents. */
  lemma {:induction false} DerivedIn(deps: seq<Dep>, universe: set<Dep>, queue: seq<Dep>, k: nat, parents: seq<nat>, other: set<Dep>, j: nat)
    requires Derived(deps, universe, queue, k, parents) && |deps| <= |queue| && queue[..|deps|] == deps
    requires ClosedOver(other, deps) && j < |queue|
    ensures queue[j] in other
    decreases j
  {
    if j < |deps| {
      assert queue[j] == deps[j];
    } else {
      var p := parents[j];
      DerivedIn(deps, universe, queue, k, parents, other, p);
      var d := queue[p];
      var x :| 0 <= x < |d.t.depends| && d.t.depends[x] == queue[j];
    }
  }

  lemma KeptStep(queue: seq<Dep>, k: nat, kept: seq<Dep>, added: seq<Dep>, kept': seq<Dep>)
    requires KeptOk(queue, k, kept) && k < |queue|
    requires kept' == if Transfers(queue[k]) then kept else kept + [queue[k]]
    ensures KeptOk(queue + added, k + 1, kept')
  {
    var q := queue + added;
    assert q[..k + 1] == queue[..k] + [queue[k]];
  }

  /** What one entry adds to the work list: a header-only target's dependencies not yet processed. */
  function Added(d: Dep, processed: seq<Dep>): (r: seq<Dep>)
    reads if d.Target? then {d.t} else {}
    ensures !Transfers(d) ==> r == []
    ensures Transfers(d) ==> r == NotProcessed(d.t.depends, processed)
  {
    if Transfers(d) then NotProcessed(d.t.depends, processed) else []
  }

  /** What an entry of a closed universe adds stays in the universe and is new. */
  lemma AddedFacts(deps: seq<Dep>, universe: set<Dep>, d: Dep, processed: seq<Dep>)
    requires ClosedOver(universe, deps) && d in universe
    ensures var added := Added(d, processed);
      && Covered(added, universe)
      && (added != [] ==> Transfers(d))
      && (forall i :: 0 <= i < |added| ==> d.Target? && added[i] in d.t.depends && added[i] !in processed)
  {
    var added := Added(d, processed);
    if Transfers(d) {
      forall i | 0 <= i < |added| ensures added[i] in universe {
        var x :| 0 <= x < |d.t.depends| && d.t.depends[x] == added[i];
      }
    }
  }

  /**
   * An exhausted work list holds a closed set within the universe that lies
   * in every closed set, and the kept entries are its non-header-only members.
   */
  lemma WorkListDone(deps: seq<Dep>, universe: set<Dep>, queue: seq<Dep>, parents: seq<nat>, kept: seq<Dep>)
    requires |deps| <= |queue| && queue[..|deps|] == deps
    requires Expanded(queue, |queue|, universe) && Derived(deps, universe, queue, |queue|, parents)
    requires KeptOk(queue, |queue|, kept)
    ensures ClosedOver(Elems(queue), deps) && Elems(queue) <= universe
    ensures forall other: set<Dep> {:trigger ClosedOver(other, deps)} :: ClosedOver(other, deps) ==> Elems(queue) <= other
    ensures forall i :: 0 <= i < |kept| ==> kept[i] in Elems(queue) && !Transfers(kept[i])
    ensures forall d :: d in Elems(queue) && !Transfers(d) ==> d in kept
  {
    assert queue[..|queue|] == queue;
    forall i | 0 <= i < |deps| ensures deps[i] in Elems(queue) {
      assert deps[i] == queue[i];
    }
    forall other: set<Dep> | ClosedOver(other, deps) ensures Elems(queue) <= other {
      forall d | d in Elems(queue) ensures d in other {
        var j :| 0 <= j < |queue| && queue[j] == d;
        DerivedIn(deps, universe, queue, |queue|, parents, other, j);
      }
    }
  }

  /** Appending to the work list keeps its first entries. */
  lemma PrefixStep(deps: seq<Dep>, queue: seq<Dep>, added: seq<Dep>)
    requires |deps| <= |queue| && queue[..|deps|] == deps
    ensures |deps| <= |queue + added| && (queue + added)[..|deps|] == deps
  {
    assert (queue + added)[..|deps|] == queue[..|deps|];
  }

  /** The invariant of the work list after `k` entries have been processed. */
  ghost predicate WorkList(deps: seq<Dep>, universe: set<Dep>, queue: seq<Dep>, k: nat, parents: seq<nat>, kept: seq<Dep>)
    reads TargetsIn(universe)
  {
    && ClosedOver(universe, deps)
    && |deps| <= |queue| && queue[..|deps|] == deps
    && Expanded(queue, k, universe)
    && Derived(deps, universe, queue, k, parents)
    && KeptOk(queue, k, kept)
  }

  /** Before the loop: the work list is the roots, and nothing is processed or kept. */
  lemma WorkListStart(deps: seq<Dep>, universe: set<Dep>)
    requires ClosedOver(universe, deps)
    ensures WorkList(deps, universe, deps, 0, Repeat(|deps|, 0), [])
  {
    assert deps[..|deps|] == deps;
  }

  /** Processing the entry at `k` keeps the invariant and shrinks the work still to do. */
  lemma WorkListNext(deps: seq<Dep>, universe: set<Dep>, queue: seq<Dep>, k: nat, parents: seq<nat>, kept: seq<Dep>, added: seq<Dep>, kept': seq<Dep>)
    requires WorkList(deps, universe, queue, k, parents, kept) && k < |queue|
    requires added == Added(queue[k], queue[..k + 1])
    requires kept' == if Transfers(queue[k]) then kept else kept + [queue[k]]
    ensures WorkList(deps, universe, queue + added, k + 1, parents + Repeat(|added|, k), kept')
    ensures var before := |universe - Elems(queue[..k])|;
      var after := |universe - Elems(queue[..k + 1])|;
      after < before || (after == before &&
        StaleCount((queue + added)[k + 1..], queue[..k + 1]) < StaleCount(queue[k..], queue[..k]))
  {
    var d := queue[k];
    AddedFacts(deps, universe, d, queue[..k + 1]);
    MeasureStep(universe, queue, k, added);
    PrefixStep(deps, queue, added);
    if Transfers(d) {
      forall x | 0 <= x < |d.t.depends| ensures d.t.depends[x] in queue[..k + 1] || d.t.depends[x] in added {
      }
    }
    ExpandStep(queue, k, universe, added);
    DerivedStep(deps, universe, queue, k, parents, added);
    KeptStep(queue, k, kept, added, kept');
  }

  /**
   * The loop of `process_inter_target_dependencies`: a work list starting
   * with the target's dependencies, where a header-only target contributes
   * its own not yet processed dependencies instead of itself.  The result
   * holds exactly the dependencies that are not header-only targets among
   * everything reached, and what is reached is the least set closed under
   * that rule; `universe` is any such closed set, and bounds the work.
   */
  method TransferDependencies(deps: seq<Dep>, ghost universe: set<Dep>) returns (kept: seq<Dep>, ghost reached: set<Dep>)
    requires ClosedOver(universe, deps)
    ensures ClosedOver(reached, deps) && reached <= universe
    ensures forall other: set<Dep> {:trigger ClosedOver(other, deps)} :: ClosedOver(other, deps) ==> reached <= other
    ensures forall i :: 0 <= i < |kept| ==> kept[i] in reached && !Transfers(kept[i])
    ensures forall d :: d in reached && !Transfers(d) ==> d in kept
  {
    var queue := deps;
    var processed: seq<Dep> := [];
    kept := [];
    ghost var parents: seq<nat> := Repeat(|deps|, 0);
    var k := 0;
    WorkListStart(deps, universe);
    while k < |queue|
      invariant k <= |queue| && processed == queue[..k]
      invariant WorkList(deps, universe, queue, k, parents, kept)
      decreases |universe - Elems(processed)|, StaleCount(queue[k..], processed)
    {
      var d := queue[k];
      processed := processed + [d];
      assert processed == queue[..k + 1];
      var added: seq<Dep> := [];
      if Transfers(d) {
        added := NotProcessed(d.t.depends, processed);
      }
      ghost var kept0 := kept;
      if !Transfers(d) {
        kept := kept + [d];
      }
      WorkListNext(deps, universe, queue, k, parents, kept0, added, kept);
      PrefixStep(processed, queue, added);
      queue := queue + added;
      parents := parents + Repeat(|added|, k);
      k := k + 1;
    }
    WorkListDone(deps, universe, queue, parents, kept);
    reached := Elems(queue);
  }

  /** The class attributes `tgt_counter` and `out_counter` of `ConverterCustomTarget`, shared by every instance. */
  class Counters {
    var tgtCounter: nat
    var outCounter: nat

    constructor ()
      ensures tgtCounter == 0 && outCounter == 0
    {
      tgtCounter := 0;
      outCounter := 0;
    }
  }

  /** The `all_outputs` list the interpreter passes to every custom target's `postprocess`. */
  class OutputList {
    var items: seq<string>

    constructor ()
      ensures items == []
    {
      items := [];
    }
  }

  /** `[os.path.basename(x) for x in xs]`. */
  function Basenames(xs: seq<string>): (r: seq<string>)
    ensures |r| == |xs|
    ensures forall i :: 0 <= i < |xs| ==> r[i] == Basename(xs[i])
  {
    if xs == [] then [] else Basenames(xs[..|xs| - 1]) + [Basename(xs[|xs| - 1])]
  }

  /** The words of a recorded command, before any of them is resolved to a target. */
  function TextWords(words: seq<string>): (r: seq<Word>)
    ensures |r| == |words|
    ensures forall i :: 0 <= i < |words| ==> r[i] == Text(words[i])
  {
    if words == [] then [] else TextWords(words[..|words| - 1]) + [Text(words[|words| - 1])]
  }

  function TextCommand(command: seq<seq<string>>): (r: seq<seq<Word>>)
    ensures |r| == |command|
    ensures forall i :: 0 <= i < |command| ==> r[i] == TextWords(command[i])
  {
    if command == [] then [] else TextCommand(command[..|command| - 1]) + [TextWords(command[|command| - 1])]
  }

  /** The name a custom target is known by in CMake: its own, or `custom_tgt_<N>` when it has none. */
  function CustomTargetBaseName(targetName: string, tgtCounter: nat): string {
    if targetName == "" then "custom_tgt_" + Decimal(tgtCounter) else targetName
  }

  // ---------------------------------------------------------------------------
  // ConverterCustomTarget.postprocess
  // ---------------------------------------------------------------------------

  /** `ensure_absolute`: a relative output is taken relative to the build directory. */
  function EnsureAbsolute(ops: PathOps, buildDir: string, x: string): (r: string)
    ensures IsAbs(x) ==> r == x
  {
    if IsAbs(x) then x else ops.normJoin(buildDir, x)
  }

  function EnsureAbsolutes(ops: PathOps, buildDir: string, xs: seq<string>): (r: seq<string>)
    ensures |r| == |xs|
    ensures forall i :: 0 <= i < |xs| ==> r[i] == EnsureAbsolute(ops, buildDir, xs[i])
  {
    if xs == [] then [] else EnsureAbsolutes(ops, buildDir, xs[..|xs| - 1]) + [EnsureAbsolute(ops, buildDir, xs[|xs| - 1])]
  }

  /**
   * The working directory after `postprocess`: an absolute one is kept, an
   * unset one becomes the build directory, a relative one is taken relative
   * to the build directory.  An unset one with a relative build directory
   * passes both steps, so the build directory is joined onto itself.
   */
  function WorkingDir(ops: PathOps, buildDir: string, wd: string): (r: string)
    ensures wd != "" && IsAbs(wd) ==> r == wd
    ensures wd == "" && IsAbs(buildDir) ==> r == buildDir
    ensures !IsAbs(wd) && wd != "" ==> r == ops.normJoin(buildDir, wd)
    ensures wd == "" && !IsAbs(buildDir) ==> r == ops.normJoin(buildDir, buildDir)
  {
    EnsureAbsolute(ops, buildDir, if wd == "" then buildDir else wd)
  }

  /**
   * One word of a custom command after `postprocess`: an empty word is
   * dropped, a word whose target key is in the output-target map becomes
   * that target, anything else is kept.
   */
  function ResolveWord(outputs: map<string, Dep>, w: Word): Option<Word> {
    match w
    case Text(s) =>
      if s == "" then None
      else if TargetKey(s) in outputs then Some(Obj(outputs[TargetKey(s)]))
      else Some(w)
    case Obj(_) => Some(w)
  }

  /** A word the command pass leaves as it is: not empty, and not naming a target. */
  predicate Resolved(outputs: map<string, Dep>, w: Word) {
    w.Text? ==> w.text != "" && TargetKey(w.text) !in outputs
  }

  /** One command line after `postprocess`. */
  function ResolveWords(outputs: map<string, Dep>, words: seq<Word>): (r: seq<Word>)
    ensures |r| <= |words|
    ensures forall i :: 0 <= i < |r| ==> Resolved(outputs, r[i])
  {
    if words == [] then []
    else
      var init := ResolveWords(outputs, words[..|words| - 1]);
      match ResolveWord(outputs, words[|words| - 1])
      case None => init
      case Some(w) => init + [w]
  }

  /** Every word that is not dropped shows up, resolved, in the new line. */
  lemma {:induction false} ResolveWordsComplete(outputs: map<string, Dep>, words: seq<Word>)
    ensures forall i :: 0 <= i < |words| && ResolveWord(outputs, words[i]).Some? ==>
      ResolveWord(outputs, words[i]).value in ResolveWords(outputs, words)
  {
    if words != [] {
      var init := words[..|words| - 1];
      ResolveWordsComplete(outputs, init);
      forall i | 0 <= i < |words| - 1 && ResolveWord(outputs, words[i]).Some?
        ensures ResolveWord(outputs, words[i]).value in ResolveWords(outputs, words)
      {
        assert words[i] == init[i];
      }
    }
  }

  /** Every word of the new line is the resolution of some word of the old one. */
  lemma {:induction false} ResolveWordsSound(outputs: map<string, Dep>, words: seq<Word>, w: Word)
    requires w in ResolveWords(outputs, words)
    ensures exists i :: 0 <= i < |words| && ResolveWord(outputs, words[i]) == Some(w)
  {
    var init := words[..|words| - 1];
    if w in ResolveWords(outputs, init) {
      ResolveWordsSound(outputs, init, w);
      var i :| 0 <= i < |init| && ResolveWord(outputs, init[i]) == Some(w);
      assert words[i] == init[i];
    } else {
      assert ResolveWord(outputs, words[|words| - 1]) == Some(w);
    }
  }

  /** A line whose words are all resolved is left unchanged. */
  lemma {:induction false} ResolveWordsFixed(outputs: map<string, Dep>, words: seq<Word>)
    requires forall i :: 0 <= i < |words| ==> Resolved(outputs, words[i])
    ensures ResolveWords(outputs, words) == words
  {
    if words != [] {
      var init := words[..|words| - 1];
      assert forall i :: 0 <= i < |init| ==> init[i] == words[i];
      ResolveWordsFixed(outputs, init);
      assert ResolveWord(outputs, words[|words| - 1]) == Some(words[|words| - 1]);
    }
  }

  /** Resolving a command line a second time changes nothing. */
  lemma ResolveWordsIdempotent(outputs: map<string, Dep>, words: seq<Word>)
    ensures ResolveWords(outputs, ResolveWords(outputs, words)) == ResolveWords(outputs, words)
  {
    ResolveWordsFixed(outputs, ResolveWords(outputs, words));
  }

  /** The command after `postprocess`: every line resolved, the number of lines kept. */
  function ResolveCommand(outputs: map<string, Dep>, command: seq<seq<Word>>): (r: seq<seq<Word>>)
    ensures |r| == |command|
    ensures forall i :: 0 <= i < |command| ==> r[i] == ResolveWords(outputs, command[i])
  {
    if command == [] then []
    else ResolveCommand(outputs, command[..|command| - 1]) + [ResolveWords(outputs, command[|command| - 1])]
  }

  /** Where one entry of `depends_raw` goes. */
  datatype Route = Skip | ToDepend(dep: Dep) | ToInput(input: Input) | Fail(error: CMakeError)

  /**
   * The dependency pass for one entry, tried in order: empty entries are
   * skipped; a file name or target key in the map makes a dependency; a
   * generated file of a custom target makes an input referring to it (a
   * build target there has no `get_ref`, hence `AttributeError`); a
   * relative path present under the source root, or an absolute one present
   * inside it, makes a plain input; anything else is dropped.
   */
  function DependRoute(outputs: map<string, Dep>, ctx: Context, x: string): (r: Route)
    reads CustomTargets(outputs)`outputs, CustomTargets(outputs)`conflictMap
    ensures r.ToDepend? ==> r.dep in outputs.Values
    ensures r.Fail? <==> (x != "" && Basename(x) !in outputs && TargetKey(x) !in outputs
      && GeneratedFileKey(x) in outputs && outputs[GeneratedFileKey(x)].Target?)
    ensures r.Fail? ==> r.error == AttributeError
    ensures r.ToInput? && r.input.InputRef? ==>
      && GeneratedFileKey(x) in outputs && outputs[GeneratedFileKey(x)].Custom?
      && r.input.ref == outputs[GeneratedFileKey(x)].c.GetRef(x)
    ensures r.ToInput? && r.input.InputPath? ==> ctx.ops.present(if IsAbs(x) then x else Join(ctx.rootSrcDir, x))
    ensures x == "" ==> r.Skip?
  {
    if x == "" then Skip
    else if Basename(x) in outputs then ToDepend(outputs[Basename(x)])
    else if TargetKey(x) in outputs then ToDepend(outputs[TargetKey(x)])
    else if GeneratedFileKey(x) in outputs then
      match outputs[GeneratedFileKey(x)]
      case Target(_) => Fail(AttributeError)
      case Custom(c) =>
        assert c in CustomTargets(outputs);
        ToInput(InputRef(c.GetRef(x)))
    else if !IsAbs(x) && ctx.ops.present(Join(ctx.rootSrcDir, x)) then ToInput(InputPath(x))
    else if IsAbs(x) && ctx.ops.present(x) && ctx.ops.within(x, ctx.rootSrcDir) then
      ToInput(InputPath(ctx.ops.relTo(x, ctx.rootSrcDir)))
    else Skip
  }

  function Routes(outputs: map<string, Dep>, ctx: Context, raw: seq<string>): (r: seq<Route>)
    reads CustomTargets(outputs)`outputs, CustomTargets(outputs)`conflictMap
    ensures |r| == |raw|
  {
    if raw == [] then [] else Routes(outputs, ctx, raw[..|raw| - 1]) + [DependRoute(outputs, ctx, raw[|raw| - 1])]
  }

  /** The route of each entry is that entry's own. */
  lemma {:induction false} RoutesAt(outputs: map<string, Dep>, ctx: Context, raw: seq<string>, i: nat)
    requires i < |raw|
    ensures Routes(outputs, ctx, raw)[i] == DependRoute(outputs, ctx, raw[i])
  {
    if i < |raw| - 1 {
      RoutesAt(outputs, ctx, raw[..|raw| - 1], i);
    }
  }

  /** What the dependency pass has gathered, and the exception that ended it. */
  datatype DependState = DependState(inputs: seq<Input>, depends: seq<Dep>, error: Option<CMakeError>)

  /** One pass of the dependency loop; after an exception nothing more happens. */
  function DependStep(st: DependState, route: Route): DependState {
    if st.error.Some? then st
    else
      match route
      case Skip => st
      case ToDepend(d) => st.(depends := st.depends + [d])
      case ToInput(i) => st.(inputs := st.inputs + [i])
      case Fail(e) => st.(error := Some(e))
  }

  /** The dependency loop over the routes of `depends_raw`. */
  function CollectDepends(st: DependState, routes: seq<Route>): (r: DependState)
    ensures st.inputs <= r.inputs && st.depends <= r.depends
    ensures st.error.Some? ==> r == st
  {
    if routes == [] then st else DependStep(CollectDepends(st, routes[..|routes| - 1]), routes[|routes| - 1])
  }

  /** The pass fails exactly when some entry fails, and then with that entry's error. */
  lemma {:induction false} CollectDependsRaises(st: DependState, routes: seq<Route>)
    requires st.error.None?
    ensures CollectDepends(st, routes).error.Some? <==> exists k :: 0 <= k < |routes| && routes[k].Fail?
    ensures CollectDepends(st, routes).error.Some? ==>
      exists k :: 0 <= k < |routes| && routes[k] == Fail(CollectDepends(st, routes).error.value)
  {
    if routes != [] {
      var init := routes[..|routes| - 1];
      CollectDependsRaises(st, init);
      assert forall k :: 0 <= k < |init| ==> init[k] == routes[k];
      if CollectDepends(st, init).error.Some? {
        var k :| 0 <= k < |init| && init[k].Fail?;
        assert routes[k].Fail?;
      }
    }
  }

  /** When the pass succeeds, every dependency and input an entry calls for is gathered. */
  lemma {:induction false} CollectDependsComplete(st: DependState, routes: seq<Route>, k: nat)
    requires CollectDepends(st, routes).error.None? && k < |routes|
    ensures routes[k].ToDepend? ==> routes[k].dep in CollectDepends(st, routes).depends
    ensures routes[k].ToInput? ==> routes[k].input in CollectDepends(st, routes).inputs
  {
    var init := routes[..|routes| - 1];
    var prev := CollectDepends(st, init);
    assert prev.error.None?;
    if k < |init| {
      CollectDependsComplete(st, init, k);
      assert init[k] == routes[k];
    }
  }

  /** Nothing is gathered that no entry called for. */
  lemma {:induction false} CollectDependsSound(st: DependState, routes: seq<Route>)
    ensures forall d :: d in CollectDepends(st, routes).depends ==>
      d in st.depends || exists k :: 0 <= k < |routes| && routes[k] == ToDepend(d)
    ensures forall i :: i in CollectDepends(st, routes).inputs ==>
      i in st.inputs || exists k :: 0 <= k < |routes| && routes[k] == ToInput(i)
  {
    if routes != [] {
      var init := routes[..|routes| - 1];
      CollectDependsSound(st, init);
      assert forall k :: 0 <= k < |init| ==> init[k] == routes[k];
    }
  }

  class ConverterCustomTarget {
    const name: string
    const cmakeName: string
    var originalOutputs: seq<string>
    var outputs: seq<string>
    var conflictMap: map<string, string>
    var command: seq<seq<Word>>
    var workingDir: string
    const dependsRaw: seq<string>
    var inputs: seq<Input>
    var depends: seq<Dep>

    /**
     * `__init__`: an unnamed command is named `custom_tgt_<N>` from the
     * shared counter, which then moves on; the Meson name replaces dashes and
     * adds the `cm_` prefix; outputs are kept by their basenames.
     */
    constructor (target: GeneratorTarget, counters: Counters)
      modifies counters
      ensures cmakeName == CustomTargetBaseName(target.name, old(counters.tgtCounter))
      ensures name == MesonName(cmakeName)
      ensures counters.tgtCounter == old(counters.tgtCounter) + (if target.name == "" then 1 else 0)
      ensures counters.outCounter == old(counters.outCounter)
      ensures originalOutputs == target.outputs && outputs == Basenames(target.outputs)
      ensures conflictMap == map[] && command == TextCommand(target.command) && workingDir == target.workingDir
      ensures dependsRaw == target.depends && inputs == [] && depends == []
    {
      var base := target.name;
      if base == "" {
        base := "custom_tgt_" + Decimal(counters.tgtCounter);
        counters.tgtCounter := counters.tgtCounter + 1;
      }
      cmakeName := base;
      originalOutputs := target.outputs;
      outputs := Basenames(target.outputs);
      conflictMap := map[];
      command := TextCommand(target.command);
      workingDir := target.workingDir;
      dependsRaw := target.depends;
      inputs := [];
      depends := [];
      name := GeneratedTargetNamePrefix + ReplaceDashes(base);
    }

    /** The output name `get_ref` looks up: renamed outputs are found under their new name. */
    function Redirect(fname: string): string
      reads this`conflictMap
    {
      if fname in conflictMap then conflictMap[fname] else fname
    }

    /**
     * `get_ref`: a valid reference to the first output whose name is the
     * basename of the (redirected) file, or None when no output has it.
     */
    function GetRef(fname: string): (r: Option<CustomTargetReference>)
      reads this`outputs, this`conflictMap
      ensures r.Some? ==> r.value.IsValid() && r.value.ctgt == this
      ensures r.Some? ==> r.value.index < |outputs| && outputs[r.value.index] == Basename(Redirect(fname))
      ensures r.Some? ==> forall k :: 0 <= k < r.value.index ==> outputs[k] != Basename(Redirect(fname))
      ensures r.None? <==> Basename(Redirect(fname)) !in outputs
    {
      var idx := IndexOf(outputs, Basename(Redirect(fname)));
      if idx.Some? then Some(CustomTargetReference(this, idx.value)) else None
    }

    /** The first steps of `postprocess`: the working directory and the original outputs made absolute. */
    method MakeAbsolute(ops: PathOps, buildDir: string)
      modifies this`workingDir, this`originalOutputs
      ensures workingDir == WorkingDir(ops, buildDir, old(workingDir))
      ensures originalOutputs == EnsureAbsolutes(ops, buildDir, old(originalOutputs))
    {
      if workingDir == "" {
        workingDir := buildDir;
      }
      if !IsAbs(workingDir) {
        workingDir := ops.normJoin(buildDir, workingDir);
      }
      originalOutputs := EnsureAbsolutes(ops, buildDir, originalOutputs);
    }

    /**
     * The renaming loop of `postprocess`: each output goes on the shared
     * list, renamed from the shared counter when its name is already there.
     */
    method RenameOutputs(allOutputs: OutputList, counters: Counters)
      modifies this`outputs, this`conflictMap, allOutputs, counters`outCounter
      ensures var rn := old(Rename(outputs, allOutputs.items, counters.outCounter, conflictMap));
        && outputs == rn.outputs && conflictMap == rn.conflicts
        && allOutputs.items == rn.all && counters.outCounter == rn.counter
    {
      var names := outputs;
      var all := allOutputs.items;
      var counter := counters.outCounter;
      var conflicts := conflictMap;
      var temp: seq<string> := [];
      var k := 0;
      while k < |names|
        invariant 0 <= k <= |names|
        invariant RenameState(temp, all, counter, conflicts) == Rename(names[..k], old(allOutputs.items), old(counters.outCounter), old(conflictMap))
      {
        var i := names[k];
        assert names[..k + 1][..k] == names[..k];
        if i in all {
          var o := i;
          i := "c" + Decimal(counter) + "_" + i;
          counter := counter + 1;
          conflicts := conflicts[o := i];
        }
        all := all + [i];
        temp := temp + [i];
        k := k + 1;
      }
      assert names[..k] == names;
      outputs := temp;
      conflictMap := conflicts;
      allOutputs.items := all;
      counters.outCounter := counter;
    }

    /** The command pass of `postprocess`. */
    method ResolveCommands(outputMap: map<string, Dep>)
      modifies this`command
      ensures command == ResolveCommand(outputMap, old(command))
    {
      var lines := command;
      var commands: seq<seq<Word>> := [];
      var k := 0;
      while k < |lines|
        invariant 0 <= k <= |lines|
        invariant commands == ResolveCommand(outputMap, lines[..k])
      {
        assert lines[..k + 1][..k] == lines[..k];
        var cmd := ResolveLine(outputMap, lines[k]);
        commands := commands + [cmd];
        k := k + 1;
      }
      assert lines[..k] == lines;
      command := commands;
    }

    /** The dependency pass of `postprocess`; an entry naming a generated file of a build target raises. */
    method ResolveDepends(outputMap: map<string, Dep>, ctx: Context) returns (err: Option<CMakeError>)
      modifies this`inputs, this`depends
      ensures var ds := CollectDepends(DependState(old(inputs), old(depends), None), Routes(outputMap, ctx, dependsRaw));
        inputs == ds.inputs && depends == ds.depends && err == ds.error
    {
      var routes := Routes(outputMap, ctx, dependsRaw);
      var r := GatherDepends(DependState(inputs, depends, None), routes);
      assert forall c :: c in CustomTargets(outputMap) ==> allocated(c);
      inputs, depends, err := r.inputs, r.depends, r.error;
      assert routes == Routes(outputMap, ctx, dependsRaw);
    }

    /**
     * `postprocess`: the working directory and outputs made absolute, the
     * outputs renamed against the shared list, the command resolved, a
     * dummy header output `<name>.h` when there is no output, then the
     * dependencies and inputs.  The dependency pass sees the outputs as they
     * are at its end.
     */
    method Postprocess(outputMap: map<string, Dep>, ctx: Context, buildDir: string, allOutputs: OutputList, counters: Counters)
      returns (err: Option<CMakeError>)
      modifies this, allOutputs, counters`outCounter
      ensures workingDir == WorkingDir(ctx.ops, buildDir, old(workingDir))
      ensures originalOutputs == EnsureAbsolutes(ctx.ops, buildDir, old(originalOutputs))
      ensures var rn := old(Rename(outputs, allOutputs.items, counters.outCounter, conflictMap));
        && allOutputs.items == rn.all && counters.outCounter == rn.counter && conflictMap == rn.conflicts
        && outputs == (if rn.outputs == [] then [name + ".h"] else rn.outputs)
      ensures command == ResolveCommand(outputMap, old(command))
      ensures var ds := CollectDepends(DependState(old(inputs), old(depends), None), Routes(outputMap, ctx, dependsRaw));
        inputs == ds.inputs && depends == ds.depends && err == ds.error
    {
      ghost var rn := Rename(outputs, allOutputs.items, counters.outCounter, conflictMap);
      MakeAbsolute(ctx.ops, buildDir);
      RenameOutputs(allOutputs, counters);
      assert outputs == rn.outputs;
      ResolveCommands(outputMap);
      if outputs == [] {
        outputs := [name + ".h"];
      }
      err := ResolveDepends(outputMap, ctx);
    }

    /**
     * `process_inter_target_dependencies`, the same pass as the build
     * target's: `depends` becomes the duplicate-free list of every
     * dependency reached through header-only targets that is not itself one.
     */
    method ProcessInterTargetDependencies(ghost universe: set<Dep>) returns (ghost reached: set<Dep>)
      requires ClosedOver(universe, depends)
      modifies this`depends
      ensures reached <= universe
      ensures old(ClosedOver(reached, depends))
      ensures forall other: set<Dep> :: old(allocated(other)) && old(ClosedOver(other, depends)) ==> reached <= other
      ensures NoDup(depends)
      ensures forall d :: d in depends <==> d in reached && !Transfers(d)
    {
      ghost var roots := depends;
      var kept;
      kept, reached := TransferDependencies(depends, universe);
      forall other: set<Dep> | old(allocated(other)) && old(ClosedOver(other, depends))
        ensures reached <= other
      {
        assert ClosedOver(other, roots);
      }
      depends := Dedup(kept);
    }
  }

  /** The inner loop of the command pass: one command line. */
  method ResolveLine(outputMap: map<string, Dep>, words: seq<Word>) returns (cmd: seq<Word>)
    ensures cmd == ResolveWords(outputMap, words)
  {
    cmd := [];
    var j := 0;
    while j < |words|
      invariant 0 <= j <= |words|
      invariant cmd == ResolveWords(outputMap, words[..j])
    {
      assert words[..j + 1][..j] == words[..j];
      var w := words[j];
      if w.Text? && w.text == "" {
      } else if w.Text? && TargetKey(w.text) in outputMap {
        cmd := cmd + [Obj(outputMap[TargetKey(w.text)])];
      } else {
        cmd := cmd + [w];
      }
      j := j + 1;
    }
    assert words[..j] == words;
  }

  /** The loop of the dependency pass over the routes of the entries; it stops at the first exception. */
  method GatherDepends(start: DependState, routes: seq<Route>) returns (r: DependState)
    requires start.error.None?
    ensures r == CollectDepends(start, routes)
  {
    var ins, deps := start.inputs, start.depends;
    var k := 0;
    while k < |routes|
      invariant 0 <= k <= |routes|
      invariant CollectDepends(start, routes[..k]) == DependState(ins, deps, None)
    {
      CollectDependsSnoc(start, routes, k);
      match routes[k] {
        case Skip =>
        case ToDepend(d) => deps := deps + [d];
        case ToInput(i) => ins := ins + [i];
        case Fail(e) =>
          CollectDependsStops(start, routes, k + 1);
          return DependState(ins, deps, Some(e));
      }
      k := k + 1;
    }
    assert routes[..k] == routes;
    return DependState(ins, deps, None);
  }

  /** The dependency loop over one more entry is one more step. */
  lemma CollectDependsSnoc(st: DependState, routes: seq<Route>, k: nat)
    requires k < |routes|
    ensures CollectDepends(st, routes[..k + 1]) == DependStep(CollectDepends(st, routes[..k]), routes[k])
  {
    assert routes[..k + 1][..k] == routes[..k];
  }

  /** Once the pass has raised, the later entries change nothing. */
  lemma {:induction false} CollectDependsStops(st: DependState, routes: seq<Route>, k: nat)
    requires k <= |routes| && CollectDepends(st, routes[..k]).error.Some?
    ensures CollectDepends(st, routes) == CollectDepends(st, routes[..k])
  {
    if k < |routes| {
      var init := routes[..|routes| - 1];
      assert init[..k] == routes[..k];
      CollectDependsStops(st, init, k);
    } else {
      assert routes[..k] == routes;
    }
  }

  /**
   * After the renaming pass, every name the target's outputs had before
   * still leads `get_ref` to an output, through the conflict map when it
   * was renamed.
   */
  lemma RenamedOutputsResolve(c: ConverterCustomTarget, names: seq<string>, all: seq<string>, counter: nat)
    requires forall k :: 0 <= k < |names| ==> '/' !in names[k]
    requires c.outputs == Rename(names, all, counter, map[]).outputs
    requires c.conflictMap == Rename(names, all, counter, map[]).conflicts
    ensures forall k :: 0 <= k < |names| ==> c.GetRef(names[k]).Some?
  {
    RenameRedirects(names, all, counter);
    RenameBare(names, all, counter, map[]);
    forall k | 0 <= k < |names| ensures c.GetRef(names[k]).Some? {
      var x := c.Redirect(names[k]);
      assert x in c.outputs;
      assert Basename(x) == x by {
        assert SplitIndex(x) == 0;
      }
    }
  }
}
