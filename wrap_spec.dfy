/**
 * What each step of the wrap resolver does, as a function from a world to
 * the step's result and the world it leaves.  A step that raises still
 * leaves the effects it had before raising (commands run, files created),
 * so every function returns the world in both cases.
 */
module WrapSpec {
  import opened WrapCommon
  import opened WrapManifest
  import opened WrapWorld

  /** The download policy; only `NoDownload` changes what the resolver does. */
  datatype WrapMode = Default | NoFallback | NoDownload | ForceFallback

  const CacheDirName: string := "packagecache"
  const SubmoduleWarning: string := "git submodule might be out of date"

  /** The resolver once `resolve` has chosen a directory and loaded a manifest. */
  datatype Ctx = Ctx(mode: WrapMode, root: string, packagename: string, directory: string, wrap: PackageDefinition)
  {
    function DirPath(): string { Join(root, directory) }
    function CacheDir(): string { Join(root, CacheDirName) }
  }

  /** `check_can_download`: refuses in `nodownload` mode. */
  function CheckCanDownload(mode: WrapMode): (r: Result<()>)
    ensures r.Err? <==> mode == NoDownload
    ensures r.Err? ==> r.error == DownloadDisabled
  {
    if mode == NoDownload then Err(DownloadDisabled) else Ok(())
  }

  // ---------------------------------------------------------------------------
  // is_git_full_commit_id
  // ---------------------------------------------------------------------------

  const HexDigits: string := "0123456789AaBbCcDdEeFf"

  predicate IsHexDigit(c: char) {
    c in HexDigits
  }

  /** `all(ch in ... for ch in s)`, one character at a time. */
  predicate AllHex(s: string) {
    s == [] || (IsHexDigit(s[0]) && AllHex(s[1..]))
  }

  predicate IsGitFullCommitId(revno: string) {
    (|revno| == 40 || |revno| == 64) && AllHex(revno)
  }

  lemma {:induction false} AllHexIff(s: string)
    ensures AllHex(s) <==> forall i :: 0 <= i < |s| ==> IsHexDigit(s[i])
  {
    if s != [] {
      AllHexIff(s[1..]);
      assert forall i :: 1 <= i < |s| ==> s[i] == s[1..][i - 1];
    }
  }

  /** A full commit id is a SHA-1 (40) or SHA-256 (64) hex string, in either letter case. */
  lemma IsGitFullCommitIdIff(revno: string)
    ensures IsGitFullCommitId(revno) <==>
      && (|revno| == 40 || |revno| == 64)
      && forall i :: 0 <= i < |revno| ==> revno[i] in "0123456789abcdefABCDEF"
  {
    AllHexIff(revno);
    forall c: char ensures IsHexDigit(c) <==> c in "0123456789abcdefABCDEF" {
      assert c in HexDigits <==> c in "0123456789abcdefABCDEF";
    }
  }

  // ---------------------------------------------------------------------------
  // resolve_git_submodule
  // ---------------------------------------------------------------------------

  function SubmoduleInitArgv(root: string, dirname: string): seq<string> {
    ["git", "-C", root, "submodule", "update", "--init", dirname]
  }

  const CheckoutAllArgv: seq<string> := ["git", "checkout", "."]

  /** `resolve_git_submodule`: whether `dirname` is a git submodule of the repository at `root`, repairing it if needed. */
  function ResolveGitSubmodule(env: Env, root: string, dirname: string, w: World): (o: Out<bool>)
    ensures o.w.downloads == w.downloads && o.w.nameIndex == w.nameIndex
  {
    var (inRepo, _, w1) := QuietGit(env, w, ["rev-parse"], root);
    if !inRepo then Out(Ok(false), w1)
    else
      var (listed, out, w2) := QuietGit(env, w1, ["submodule", "status", dirname], root);
      if !listed then Out(Ok(false), w2)
      else if StartsWith(out, "+") then Out(Ok(true), w2.(warnings := w2.warnings + [SubmoduleWarning]))
      else if StartsWith(out, "U") then Out(Err(SubmoduleConflict), w2)
      else if StartsWith(out, "-") then
        var (status, _, w3) := RunIn(env, w2, Command(SubmoduleInitArgv(root, dirname), ""));
        if status == 0 then Out(Ok(true), w3) else Out(Err(SubmoduleInitFailed), w3)
      else if StartsWith(out, " ") then
        var c := Call(env, w2, CheckoutAllArgv, dirname);
        if c.res.Err? then Out(Err(c.res.error), c.w) else Out(Ok(true), c.w)
      else if out == "" then Out(Ok(false), w2)
      else Out(Err(UnknownSubmoduleOutput(out)), w2)
  }

  // ---------------------------------------------------------------------------
  // get_git, get_hg, get_svn
  // ---------------------------------------------------------------------------

  function DepthOption(depth: string): seq<string> {
    if depth != "" then ["--depth", depth] else []
  }

  function SubmoduleUpdateArgv(depthOption: seq<string>): seq<string> {
    ["git", "submodule", "update", "--init", "--checkout", "--recursive"] + depthOption
  }

  function SetPushUrlArgv(pushUrl: string): seq<string> {
    ["git", "remote", "set-url", "--push", "origin", pushUrl]
  }

  predicate CloneRecursive(wrap: PackageDefinition) {
    Lower(GetOr(wrap, "clone-recursive", "")) == "true"
  }

  /** The two optional steps every git branch ends with: recursive submodules, then the push URL. */
  function GitFinish(env: Env, ctx: Ctx, w: World, depthOption: seq<string>): (o: Out<()>)
  {
    var o1 := if CloneRecursive(ctx.wrap)
      then CheckCall(env, w, SubmoduleUpdateArgv(depthOption), ctx.DirPath())
      else Out(Ok(()), w);
    if o1.res.Err? then o1
    else
      var pushUrl := GetOr(ctx.wrap, "push-url", "");
      if pushUrl != "" then CheckCall(env, o1.w, SetPushUrlArgv(pushUrl), ctx.DirPath()) else o1
  }

  /** A shallow fetch of a full commit id: `init`, `remote add`, `fetch --depth`, `checkout`. */
  function GitShallowCommit(env: Env, ctx: Ctx, w: World, revno: string, depthOption: seq<string>): (o: Out<()>)
  {
    var o1 := CheckCall(env, w, ["git", "init", ctx.directory], ctx.root);
    if o1.res.Err? then o1
    else
      var url := Get(ctx.wrap, "url");
      if url.Err? then Out(Err(url.error), o1.w)
      else
        var o2 := CheckCall(env, o1.w, ["git", "remote", "add", "origin", url.value], ctx.DirPath());
        if o2.res.Err? then o2
        else
          var o3 := CheckCall(env, o2.w, ["git", "fetch"] + depthOption + ["origin", revno], ctx.DirPath());
          if o3.res.Err? then o3
          else
            var o4 := CheckCall(env, o3.w, ["git", "checkout", revno], ctx.DirPath());
            if o4.res.Err? then o4 else GitFinish(env, ctx, o4.w, depthOption)
  }

  /** A full clone, then a checkout of the revision unless it is `head`, fetching it when the checkout fails. */
  function GitFullClone(env: Env, ctx: Ctx, w: World, revno: string): (o: Out<()>)
  {
    var url := Get(ctx.wrap, "url");
    if url.Err? then Out(Err(url.error), w)
    else
      var o1 := CheckCall(env, w, ["git", "clone", url.value, ctx.directory], ctx.root);
      if o1.res.Err? then o1
      else if Lower(revno) == "head" then GitFinish(env, ctx, o1.w, [])
      else
        var c := Call(env, o1.w, ["git", "checkout", revno], ctx.DirPath());
        if c.res.Err? then Out(Err(c.res.error), c.w)
        else if c.res.value == 0 then GitFinish(env, ctx, c.w, [])
        else
          var o2 := CheckCall(env, c.w, ["git", "fetch", url.value, revno], ctx.DirPath());
          if o2.res.Err? then o2
          else
            var o3 := CheckCall(env, o2.w, ["git", "checkout", revno], ctx.DirPath());
            if o3.res.Err? then o3 else GitFinish(env, ctx, o3.w, [])
  }

  /** A shallow clone of a named ref: one `clone --depth --branch`. */
  function GitShallowRef(env: Env, ctx: Ctx, w: World, revno: string, depthOption: seq<string>): (o: Out<()>)
  {
    var url := Get(ctx.wrap, "url");
    if url.Err? then Out(Err(url.error), w)
    else
      var o1 := CheckCall(env, w, ["git", "clone"] + depthOption + ["--branch", revno, url.value, ctx.directory], ctx.root);
      if o1.res.Err? then o1 else GitFinish(env, ctx, o1.w, depthOption)
  }

  /** `get_git`: the revision decides between the three ways of fetching. */
  function GetGit(env: Env, ctx: Ctx, w: World): (o: Out<()>)
  {
    var revno := Get(ctx.wrap, "revision");
    if revno.Err? then Out(Err(revno.error), w)
    else
      var depth := GetOr(ctx.wrap, "depth", "");
      if depth != "" && IsGitFullCommitId(revno.value) then GitShallowCommit(env, ctx, w, revno.value, DepthOption(depth))
      else if depth == "" then GitFullClone(env, ctx, w, revno.value)
      else GitShallowRef(env, ctx, w, revno.value, DepthOption(depth))
  }

  /** `get_hg`: clone, then check out the revision unless it is `tip`. */
  function GetHg(env: Env, ctx: Ctx, w: World): (o: Out<()>)
  {
    var revno := Get(ctx.wrap, "revision");
    if revno.Err? then Out(Err(revno.error), w)
    else
      var url := Get(ctx.wrap, "url");
      if url.Err? then Out(Err(url.error), w)
      else
        var o1 := CheckCall(env, w, ["hg", "clone", url.value, ctx.directory], ctx.root);
        if o1.res.Err? || Lower(revno.value) == "tip" then o1
        else CheckCall(env, o1.w, ["hg", "checkout", revno.value], ctx.DirPath())
  }

  /** `get_svn`: one checkout at the revision. */
  function GetSvn(env: Env, ctx: Ctx, w: World): (o: Out<()>)
  {
    var revno := Get(ctx.wrap, "revision");
    if revno.Err? then Out(Err(revno.error), w)
    else
      var url := Get(ctx.wrap, "url");
      if url.Err? then Out(Err(url.error), w)
      else CheckCall(env, w, ["svn", "checkout", "-r", revno.value, url.value, ctx.directory], ctx.root)
  }

  // ---------------------------------------------------------------------------
  // The package cache
  // ---------------------------------------------------------------------------

  /** `get_data`: the response goes to a fresh file in the cache directory; the digest covers exactly what was written. */
  function GetData(env: Env, ctx: Ctx, w: World, url: string): (o: Out<(string, string)>)
    ensures o.w.log == w.log && o.w.warnings == w.warnings
    ensures o.res.Ok? ==>
      var (digest, tmp) := o.res.value;
      && tmp !in w.fs
      && IsFile(o.w.fs, tmp) && o.w.fs[tmp].writable
      && digest == env.sha256(o.w.fs[tmp].data)
      && o.w.fs == w.fs[tmp := o.w.fs[tmp]]
  {
    var t := MakeTemp(env, w, ctx.CacheDir(), false);
    if t.res.Err? then Out(Err(t.res.error), t.w)
    else
      var tmp := t.res.value;
      var r := OpenUrl(env, t.w, url);
      if r.res.Err? then Out(Err(r.res.error), r.w)
      else
        var data := Payload(r.res.value);
        Out(Ok((env.sha256(data), tmp)), r.w.(fs := r.w.fs[tmp := File(data, true)]))
  }

  /** `check_hash`: the file at `path` must hash to the manifest's `<what>_hash`. */
  function CheckHash(env: Env, ctx: Ctx, fs: FileSystem, what: string, path: string): (r: Result<()>)
    ensures r.Ok? <==>
      && (what + "_hash") in ctx.wrap.values && IsFile(fs, path)
      && env.sha256(fs[path].data) == ctx.wrap.values[what + "_hash"]
    ensures (what + "_hash") !in ctx.wrap.values ==> r == Err(MissingKey(what + "_hash", ctx.wrap.basename))
    ensures (what + "_hash") in ctx.wrap.values && !IsFile(fs, path) ==> r == Err(OsError("open", path))
    ensures (what + "_hash") in ctx.wrap.values && IsFile(fs, path)
              && env.sha256(fs[path].data) != ctx.wrap.values[what + "_hash"] ==>
              r == Err(IncorrectHash(what, ctx.wrap.values[what + "_hash"], env.sha256(fs[path].data)))
  {
    var expected := Get(ctx.wrap, what + "_hash");
    if expected.Err? then Err(expected.error)
    else if !IsFile(fs, path) then Err(OsError("open", path))
    else
      var digest := env.sha256(fs[path].data);
      if digest != expected.value then Err(IncorrectHash(what, expected.value, digest)) else Ok(())
  }

  /** `download`: fetch `<what>_url` into a temp file, then rename it to `ofname` only when its digest matches. */
  function Download(env: Env, ctx: Ctx, w: World, what: string, ofname: string): (o: Out<()>)
    ensures o.w.log == w.log && o.w.warnings == w.warnings
  {
    var allowed := CheckCanDownload(ctx.mode);
    if allowed.Err? then Out(Err(allowed.error), w)
    else
      var srcurl := Get(ctx.wrap, what + "_url");
      if srcurl.Err? then Out(Err(srcurl.error), w)
      else
        var d := GetData(env, ctx, w, srcurl.value);
        if d.res.Err? then Out(Err(d.res.error), d.w)
        else
          var (digest, tmp) := d.res.value;
          var expected := Get(ctx.wrap, what + "_hash");
          if expected.Err? then Out(Err(expected.error), d.w)
          else if digest != expected.value then
            // the temp file exists and is writable, so removing it succeeds
            Out(Err(IncorrectHash(what, expected.value, digest)), d.w.(fs := d.w.fs - {tmp}))
          else
            // a failed rename leaves the temp file behind
            var moved := Rename(d.w.fs, tmp, ofname);
            if moved.Err? then Out(Err(moved.error), d.w)
            else Out(Ok(()), d.w.(fs := moved.value))
  }

  function CachePath(ctx: Ctx, filename: string): string {
    Join(ctx.CacheDir(), filename)
  }

  /** `get_file_internal`: the cached `<what>_filename`, re-verified, or downloaded into the cache. */
  function GetFileInternal(env: Env, ctx: Ctx, w: World, what: string): (o: Out<string>)
    ensures o.w.log == w.log && o.w.warnings == w.warnings
  {
    var filename := Get(ctx.wrap, what + "_filename");
    if filename.Err? then Out(Err(filename.error), w)
    else
      var cachePath := CachePath(ctx, filename.value);
      if cachePath in w.fs then
        var h := CheckHash(env, ctx, w.fs, what, cachePath);
        if h.Err? then Out(Err(h.error), w) else Out(Ok(cachePath), w)
      else
        var made := if IsDir(w.fs, ctx.CacheDir()) then Ok(w.fs) else Mkdir(w.fs, ctx.CacheDir());
        if made.Err? then Out(Err(made.error), w)
        else
          var d := Download(env, ctx, w.(fs := made.value), what, cachePath);
          if d.res.Err? then Out(Err(d.res.error), d.w) else Out(Ok(cachePath), d.w)
  }

  // ---------------------------------------------------------------------------
  // copy_tree
  // ---------------------------------------------------------------------------

  /** `str.replace(pattern, replacement, 1)`: the first occurrence of `pattern` replaced. */
  function ReplaceFirst(s: string, pattern: string, replacement: string): string
    decreases |s|
  {
    if StartsWith(s, pattern) then replacement + s[|pattern|..]
    else if s == [] then s
    else [s[0]] + ReplaceFirst(s[1..], pattern, replacement)
  }

  /** Remove a destination entry the way `copy_tree` does: on a permission error, make it writable and remove it again. */
  function RemoveForOverwrite(fs: FileSystem, p: string): (r: Result<FileSystem>)
    ensures r.Ok? <==> IsFile(fs, p)
    ensures r.Ok? ==> r.value == fs - {p}
  {
    var first := Remove(fs, p);
    if first.Ok? then first else Remove(MakeWritable(fs, p), p)
  }

  /** `shutil.copy2(src, dstDir)`: contents and permission bits of `src` land at `dstDir/name` (or at `dstDir` itself when it is not a directory). */
  function Copy2(fs: FileSystem, src: string, dstDir: string, name: string): (r: Result<FileSystem>)
    ensures r.Ok? <==> IsFile(fs, src)
  {
    if !IsFile(fs, src) then Err(OsError("copy2", src))
    else
      var dest := if IsDir(fs, dstDir) then Join(dstDir, name) else dstDir;
      Ok(fs[dest := fs[src]])
  }

  /** One file of one walked directory: clear the destination, then copy; a failure keeps whatever was already done. */
  function CopyFile(fs: FileSystem, srcDir: string, dstDir: string, name: string): (r: (Result<()>, FileSystem))
  {
    var dstFile := Join(dstDir, name);
    var cleared := if dstFile in fs then RemoveForOverwrite(fs, dstFile) else Ok(fs);
    if cleared.Err? then (Err(cleared.error), fs)
    else
      var copied := Copy2(cleared.value, Join(srcDir, name), dstDir, name);
      if copied.Err? then (Err(copied.error), cleared.value) else (Ok(()), copied.value)
  }

  /** The files of one walked directory, in order; the first failure stops the copy. */
  function CopyFiles(fs: FileSystem, srcDir: string, dstDir: string, names: seq<string>): (r: (Result<()>, FileSystem))
    decreases |names|
  {
    if names == [] then (Ok(()), fs)
    else
      var (res, fs1) := CopyFile(fs, srcDir, dstDir, names[0]);
      if res.Err? then (res, fs1)
      else CopyFiles(fs1, srcDir, dstDir, names[1..])
  }

  /** The destination directory of a walked directory. */
  function Rebase(dir: string, src: string, dst: string): string {
    ReplaceFirst(dir, src, dst)
  }

  /**
   * `os.makedirs(d)` on a missing `d`.  The walk is top-down, so the parent
   * of every destination directory after the first already exists and only
   * `d` itself is created.
   */
  function MakeDirs(fs: FileSystem, d: string): FileSystem {
    fs[d := Dir]
  }

  /** The walked directories, in walk order. */
  function CopyEntries(fs: FileSystem, entries: seq<WalkEntry>, src: string, dst: string): (r: (Result<()>, FileSystem))
    decreases |entries|
  {
    if entries == [] then (Ok(()), fs)
    else
      var dstDir := Rebase(entries[0].dir, src, dst);
      var fs1 := if dstDir in fs then fs else MakeDirs(fs, dstDir);
      var (res, fs2) := CopyFiles(fs1, entries[0].dir, dstDir, entries[0].files);
      if res.Err? then (res, fs2) else CopyEntries(fs2, entries[1..], src, dst)
  }

  /** `copy_tree(src, dst)`: every walked file copied over, replacing read-only destinations too. */
  function CopyTree(env: Env, fs: FileSystem, src: string, dst: string): (r: (Result<()>, FileSystem))
  {
    CopyEntries(fs, env.walk(src, fs), src, dst)
  }

  // ---------------------------------------------------------------------------
  // get_file, apply_patch
  // ---------------------------------------------------------------------------

  /** `apply_patch`: unpack the patch over the tree; if that raises, unpack it into a temporary directory and copy it over. */
  function ApplyPatch(env: Env, ctx: Ctx, w: World): (o: Out<()>)
    ensures o.w.log == w.log && o.w.warnings == w.warnings
  {
    var p := GetFileInternal(env, ctx, w, "patch");
    if p.res.Err? then Out(Err(p.res.error), p.w)
    else
      var path := p.res.value;
      var direct := UnpackArchive(env, p.w.fs, path, ctx.root);
      if direct.Ok? then Out(Ok(()), p.w.(fs := direct.value))
      else
        var t := MakeTemp(env, p.w, env.sysTempDir, true);
        if t.res.Err? then Out(Err(t.res.error), t.w)
        else
          var workdir := t.res.value;
          var u := UnpackArchive(env, t.w.fs, path, workdir);
          if u.Err? then Out(Err(u.error), t.w.(fs := RemoveTree(t.w.fs, workdir)))
          else
            var (res, fs1) := CopyTree(env, u.value, workdir, ctx.root);
            Out(res, t.w.(fs := RemoveTree(fs1, workdir)))
  }

  /** `get_file`: the source archive from the cache, unpacked (into a new directory when it has no leading one), then patched. */
  function GetFile(env: Env, ctx: Ctx, w: World): (o: Out<()>)
    ensures o.w.log == w.log && o.w.warnings == w.warnings
  {
    var p := GetFileInternal(env, ctx, w, "source");
    if p.res.Err? then Out(Err(p.res.error), p.w)
    else
      var path := p.res.value;
      var leadMissing := "lead_directory_missing" in ctx.wrap.values;
      var made := if leadMissing then Mkdir(p.w.fs, ctx.DirPath()) else Ok(p.w.fs);
      if made.Err? then Out(Err(made.error), p.w)
      else
        var extractDir := if leadMissing then ctx.DirPath() else ctx.root;
        var u := UnpackArchive(env, made.value, path, extractDir);
        if u.Err? then Out(Err(u.error), p.w.(fs := made.value))
        else if HasPatch(ctx.wrap) then ApplyPatch(env, ctx, p.w.(fs := u.value))
        else Out(Ok(()), p.w.(fs := u.value))
  }

  // ---------------------------------------------------------------------------
  // resolve
  // ---------------------------------------------------------------------------

  function ManifestPath(root: string, packagename: string): string {
    Join(root, packagename + ".wrap")
  }

  /** `load_wrap`: the manifest when `<root>/<packagename>.wrap` is a file, else None. */
  function LoadWrap(env: Env, root: string, packagename: string, fs: FileSystem): (r: Result<Option<PackageDefinition>>)
    ensures r.Ok? && r.value.Some? ==> IsFile(fs, ManifestPath(root, packagename))
    ensures !IsFile(fs, ManifestPath(root, packagename)) ==> r == Ok(None)
  {
    var fname := ManifestPath(root, packagename);
    if !IsFile(fs, fname) then Ok(None)
    else
      var pd := Load(fname, env.parseIni(fs[fname].data));
      if pd.Err? then Err(pd.error) else Ok(Some(pd.value))
  }

  /** The directory name: the manifest's `directory` key when present, else the package name. */
  function ChosenDirectory(packagename: string, wrap: Option<PackageDefinition>): string {
    if wrap.Some? && "directory" in wrap.value.values then wrap.value.values["directory"] else packagename
  }

  /** The file that marks a usable subproject for a method. */
  function DescriptorName(buildMethod: string): string {
    if buildMethod == "meson" then "meson.build" else "CMakeLists.txt"
  }

  /** The fetch block of `resolve`: nothing for an existing directory, else the transport the manifest names. */
  function Fetch(env: Env, mode: WrapMode, root: string, packagename: string, directory: string,
                 wrap: Option<PackageDefinition>, w: World): (o: Out<()>)
  {
    var dirpath := Join(root, directory);
    if dirpath in w.fs then
      if !IsDir(w.fs, dirpath) then Out(Err(NotADirectory), w) else Out(Ok(()), w)
    else if wrap.None? then Out(Err(NotFound(packagename)), w)
    else
      var ctx := Ctx(mode, root, packagename, directory, wrap.value);
      if wrap.value.wrapType == "file" then GetFile(env, ctx, w)
      else if CheckCanDownload(mode).Err? then Out(Err(CheckCanDownload(mode).error), w)
      else if wrap.value.wrapType == "git" then GetGit(env, ctx, w)
      else if wrap.value.wrapType == "hg" then GetHg(env, ctx, w)
      else if wrap.value.wrapType == "svn" then GetSvn(env, ctx, w)
      else Out(Err(UnknownWrapType(wrap.value.wrapType)), w)
  }

  /**
   * The second half of `resolve`, once the build file is found missing:
   * the submodule check, the fetch, and the build file looked for again.
   */
  function Obtain(env: Env, mode: WrapMode, root: string, packagename: string, directory: string,
                  wrap: Option<PackageDefinition>, descriptorName: string, w: World): (o: Out<string>)
  {
    var dirpath := Join(root, directory);
    var s := ResolveGitSubmodule(env, root, dirpath, w);
    if s.res.Err? then Out(Err(s.res.error), s.w)
    else
      var f := Fetch(env, mode, root, packagename, directory, wrap, s.w);
      if f.res.Err? then Out(Err(f.res.error), f.w)
      else if Join(dirpath, descriptorName) !in f.w.fs then Out(Err(MissingDescriptor(descriptorName)), f.w)
      else Out(Ok(directory), f.w)
  }

  /** `resolve(packagename, method)`: the subproject's directory name, made available by whatever means the manifest allows. */
  function Resolve(env: Env, mode: WrapMode, root: string, packagename: string, buildMethod: string, w: World): (o: Out<string>)
  {
    var wrap := LoadWrap(env, root, packagename, w.fs);
    if wrap.Err? then Out(Err(wrap.error), w)
    else
      var directory := ChosenDirectory(packagename, wrap.value);
      if wrap.value.Some? && "directory" in wrap.value.value.values && Dirname(directory) != "" then
        Out(Err(DirectoryNotName), w)
      else if buildMethod != "meson" && buildMethod != "cmake" then Out(Err(UnsupportedMethod), w)
      else if Join(Join(root, directory), DescriptorName(buildMethod)) in w.fs then Out(Ok(directory), w)
      else Obtain(env, mode, root, packagename, directory, wrap.value, DescriptorName(buildMethod), w)
  }

  /** When the build file is missing from a usable directory, `resolve` goes on to obtain it. */
  lemma ResolveObtains(env: Env, mode: WrapMode, root: string, packagename: string, buildMethod: string, w: World,
                       wrap: Option<PackageDefinition>)
    requires LoadWrap(env, root, packagename, w.fs) == Ok(wrap)
    requires !(wrap.Some? && "directory" in wrap.value.values && Dirname(ChosenDirectory(packagename, wrap)) != "")
    requires buildMethod == "meson" || buildMethod == "cmake"
    requires Join(Join(root, ChosenDirectory(packagename, wrap)), DescriptorName(buildMethod)) !in w.fs
    ensures Resolve(env, mode, root, packagename, buildMethod, w)
      == Obtain(env, mode, root, packagename, ChosenDirectory(packagename, wrap), wrap, DescriptorName(buildMethod), w)
  {
  }
}
