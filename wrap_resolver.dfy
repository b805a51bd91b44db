/**
 * The resolver as the object it is: `Resolver` keeps the package name,
 * directory and manifest of the current `resolve` call in fields, and
 * acts on a `Host` holding the filesystem and the logs of programs run
 * and URLs opened.  Each method is proved to leave the host exactly as
 * the matching step function in `WrapSpec` says, with the same result.
 */
module WrapResolver {
  import opened WrapCommon
  import opened WrapManifest
  import opened WrapWorld
  import opened WrapSpec

  /** Writing the same path twice leaves only the second write. */
  lemma OverwriteTwice(fs: FileSystem, p: string, first: Node, second: Node)
    ensures fs[p := first][p := second] == fs[p := second]
  {
  }

  /** The process's surroundings; each method is one library call. */
  class Host {
    const env: Env
    var fs: FileSystem
    var log: seq<Command>
    var downloads: seq<string>
    var warnings: seq<string>
    var nameIndex: nat

    function State(): World
      reads this
    {
      World(fs, log, downloads, warnings, nameIndex)
    }

    constructor(env: Env, w: World)
      ensures this.env == env && State() == w
    {
      this.env := env;
      fs, log, downloads, warnings, nameIndex := w.fs, w.log, w.downloads, w.warnings, w.nameIndex;
    }

    method SetState(w: World)
      modifies this
      ensures State() == w
    {
      fs, log, downloads, warnings, nameIndex := w.fs, w.log, w.downloads, w.warnings, w.nameIndex;
    }

    method QuietGit(cmd: seq<string>, workingdir: string) returns (ok: bool, out: string)
      modifies this
      ensures (ok, out, State()) == WrapWorld.QuietGit(env, old(State()), cmd, workingdir)
    {
      var q := WrapWorld.QuietGit(env, State(), cmd, workingdir);
      ok, out := q.0, q.1;
      SetState(q.2);
    }

    /** `subprocess.call` in the current working directory. */
    method CallHere(argv: seq<string>) returns (status: int)
      modifies this
      ensures (status, State()) == (RunIn(env, old(State()), Command(argv, "")).0, RunIn(env, old(State()), Command(argv, "")).2)
    {
      var r := RunIn(env, State(), Command(argv, ""));
      status := r.0;
      SetState(r.2);
    }

    method Call(argv: seq<string>, cwd: string) returns (r: Result<int>)
      modifies this
      ensures Out(r, State()) == WrapWorld.Call(env, old(State()), argv, cwd)
    {
      var o := WrapWorld.Call(env, State(), argv, cwd);
      r := o.res;
      SetState(o.w);
    }

    method CheckCall(argv: seq<string>, cwd: string) returns (r: Result<()>)
      modifies this
      ensures Out(r, State()) == WrapWorld.CheckCall(env, old(State()), argv, cwd)
    {
      var o := WrapWorld.CheckCall(env, State(), argv, cwd);
      r := o.res;
      SetState(o.w);
    }

    method Warning(msg: string)
      modifies this
      ensures State() == old(State()).(warnings := old(warnings) + [msg])
    {
      warnings := warnings + [msg];
    }

    method MakeTemp(dir: string, asDir: bool) returns (r: Result<string>)
      modifies this
      ensures Out(r, State()) == WrapWorld.MakeTemp(env, old(State()), dir, asDir)
    {
      var o := WrapWorld.MakeTemp(env, State(), dir, asDir);
      r := o.res;
      SetState(o.w);
    }

    method OpenUrl(url: string) returns (r: Result<seq<Bytes>>)
      modifies this
      ensures Out(r, State()) == WrapWorld.OpenUrl(env, old(State()), url)
    {
      var o := WrapWorld.OpenUrl(env, State(), url);
      r := o.res;
      SetState(o.w);
    }

    /** `file.write(block)` on an open file. */
    method Append(p: string, block: Bytes)
      requires IsFile(fs, p)
      modifies this
      ensures State() == old(State()).(fs := old(fs)[p := File(old(fs)[p].data + block, old(fs)[p].writable)])
    {
      fs := fs[p := File(fs[p].data + block, fs[p].writable)];
    }

    /** `open(p, 'rb').read()`. */
    method ReadFile(p: string) returns (r: Result<Bytes>)
      ensures r.Ok? <==> IsFile(fs, p)
      ensures r.Ok? ==> r.value == fs[p].data
      ensures r.Err? ==> r.error == OsError("open", p)
    {
      if IsFile(fs, p) { r := Ok(fs[p].data); } else { r := Err(OsError("open", p)); }
    }

    /** `configparser.ConfigParser.read(p)`. */
    method ReadIni(p: string) returns (sections: Option<seq<Section>>)
      requires IsFile(fs, p)
      ensures sections == env.parseIni(fs[p].data)
    {
      sections := env.parseIni(fs[p].data);
    }

    method Mkdir(p: string) returns (r: Result<()>)
      modifies this
      ensures r.Ok? <==> WrapWorld.Mkdir(old(fs), p).Ok?
      ensures r.Err? ==> r.error == WrapWorld.Mkdir(old(fs), p).error && State() == old(State())
      ensures r.Ok? ==> State() == old(State()).(fs := WrapWorld.Mkdir(old(fs), p).value)
    {
      var m := WrapWorld.Mkdir(fs, p);
      if m.Err? { r := Err(m.error); } else { fs := m.value; r := Ok(()); }
    }

    method Remove(p: string) returns (r: Result<()>)
      modifies this
      ensures r.Ok? <==> WrapWorld.Remove(old(fs), p).Ok?
      ensures r.Err? ==> r.error == WrapWorld.Remove(old(fs), p).error && State() == old(State())
      ensures r.Ok? ==> State() == old(State()).(fs := WrapWorld.Remove(old(fs), p).value)
    {
      var m := WrapWorld.Remove(fs, p);
      if m.Err? { r := Err(m.error); } else { fs := m.value; r := Ok(()); }
    }

    method Chmod(p: string)
      modifies this
      ensures State() == old(State()).(fs := MakeWritable(old(fs), p))
    {
      fs := MakeWritable(fs, p);
    }

    /** `os.rename`. */
    method Rename(src: string, dst: string) returns (r: Result<()>)
      modifies this
      ensures r.Ok? <==> WrapWorld.Rename(old(fs), src, dst).Ok?
      ensures r.Err? ==> r.error == WrapWorld.Rename(old(fs), src, dst).error && State() == old(State())
      ensures r.Ok? ==> State() == old(State()).(fs := WrapWorld.Rename(old(fs), src, dst).value)
    {
      var m := WrapWorld.Rename(fs, src, dst);
      if m.Err? { r := Err(m.error); } else { fs := m.value; r := Ok(()); }
    }

    method Copy2(src: string, dstDir: string, name: string) returns (r: Result<()>)
      modifies this
      ensures r.Ok? <==> WrapSpec.Copy2(old(fs), src, dstDir, name).Ok?
      ensures r.Err? ==> r.error == WrapSpec.Copy2(old(fs), src, dstDir, name).error && State() == old(State())
      ensures r.Ok? ==> State() == old(State()).(fs := WrapSpec.Copy2(old(fs), src, dstDir, name).value)
    {
      var m := WrapSpec.Copy2(fs, src, dstDir, name);
      if m.Err? { r := Err(m.error); } else { fs := m.value; r := Ok(()); }
    }

    method MakeDirs(d: string)
      modifies this
      ensures State() == old(State()).(fs := WrapSpec.MakeDirs(old(fs), d))
    {
      fs := WrapSpec.MakeDirs(fs, d);
    }

    method Unpack(archive: string, dest: string) returns (r: Result<()>)
      modifies this
      ensures r.Ok? <==> UnpackArchive(env, old(fs), archive, dest).Ok?
      ensures r.Err? ==> r.error == UnpackArchive(env, old(fs), archive, dest).error && State() == old(State())
      ensures r.Ok? ==> State() == old(State()).(fs := UnpackArchive(env, old(fs), archive, dest).value)
    {
      var m := UnpackArchive(env, fs, archive, dest);
      if m.Err? { r := Err(m.error); } else { fs := m.value; r := Ok(()); }
    }

    method RemoveTree(d: string)
      modifies this
      ensures State() == old(State()).(fs := WrapWorld.RemoveTree(old(fs), d))
    {
      fs := WrapWorld.RemoveTree(fs, d);
    }

    method Walk(top: string) returns (entries: seq<WalkEntry>)
      ensures entries == env.walk(top, fs)
    {
      entries := env.walk(top, fs);
    }
  }

  class Resolver {
    const host: Host
    const wrapMode: WrapMode
    const subdirRoot: string
    const cachedir: string
    var packagename: string
    var directory: string
    var dirname: string
    var wrap: Option<PackageDefinition>

    predicate Valid()
    {
      cachedir == Join(subdirRoot, CacheDirName)
    }

    /** After `resolve` has chosen the directory and found a manifest. */
    predicate Ready()
      reads this
    {
      Valid() && wrap.Some? && dirname == Join(subdirRoot, directory)
    }

    function Settled(): Ctx
      reads this
      requires wrap.Some?
    {
      Ctx(wrapMode, subdirRoot, packagename, directory, wrap.value)
    }

    constructor(host: Host, subdirRoot: string, wrapMode: WrapMode)
      ensures Valid()
      ensures this.host == host && this.subdirRoot == subdirRoot && this.wrapMode == wrapMode
      ensures wrap.None?
    {
      this.host := host;
      this.wrapMode := wrapMode;
      this.subdirRoot := subdirRoot;
      this.cachedir := Join(subdirRoot, CacheDirName);
      packagename, directory, dirname, wrap := "", "", "", None;
    }

    method LoadWrap() returns (r: Result<Option<PackageDefinition>>)
      ensures r == WrapSpec.LoadWrap(host.env, subdirRoot, packagename, host.fs)
    {
      var fname := Join(subdirRoot, packagename + ".wrap");
      if IsFile(host.fs, fname) {
        var sections := host.ReadIni(fname);
        var pd := Load(fname, sections);
        if pd.Err? { return Err(pd.error); }
        return Ok(Some(pd.value));
      }
      return Ok(None);
    }

    method CheckCanDownload() returns (r: Result<()>)
      ensures r.Err? <==> wrapMode == NoDownload
      ensures r == WrapSpec.CheckCanDownload(wrapMode)
    {
      if wrapMode == NoDownload {
        return Err(DownloadDisabled);
      }
      return Ok(());
    }

    method ResolveGitSubmodule() returns (r: Result<bool>)
      modifies host
      ensures Out(r, host.State()) == WrapSpec.ResolveGitSubmodule(host.env, subdirRoot, dirname, old(host.State()))
    {
      var ok, out := host.QuietGit(["rev-parse"], subdirRoot);
      if !ok {
        return Ok(false);
      }
      ok, out := host.QuietGit(["submodule", "status", dirname], subdirRoot);
      if !ok {
        return Ok(false);
      }
      if StartsWith(out, "+") {
        host.Warning(SubmoduleWarning);
        return Ok(true);
      } else if StartsWith(out, "U") {
        return Err(SubmoduleConflict);
      } else if StartsWith(out, "-") {
        var status := host.CallHere(SubmoduleInitArgv(subdirRoot, dirname));
        if status == 0 {
          return Ok(true);
        }
        return Err(SubmoduleInitFailed);
      } else if StartsWith(out, " ") {
        var c := host.Call(CheckoutAllArgv, dirname);
        if c.Err? {
          return Err(c.error);
        }
        return Ok(true);
      } else if out == "" {
        return Ok(false);
      }
      return Err(UnknownSubmoduleOutput(out));
    }

    /** The end of every git branch: recursive submodules, then the push URL. */
    method FinishGit(depthOption: seq<string>) returns (r: Result<()>)
      requires Ready()
      modifies host
      ensures Out(r, host.State()) == GitFinish(host.env, Settled(), old(host.State()), depthOption)
    {
      r := Ok(());
      if Lower(GetOr(wrap.value, "clone-recursive", "")) == "true" {
        r := host.CheckCall(SubmoduleUpdateArgv(depthOption), dirname);
        if r.Err? {
          return;
        }
      }
      var pushUrl := GetOr(wrap.value, "push-url", "");
      if pushUrl != "" {
        r := host.CheckCall(SetPushUrlArgv(pushUrl), dirname);
      }
    }

    method GetGit() returns (r: Result<()>)
      requires Ready()
      modifies host
      ensures Out(r, host.State()) == WrapSpec.GetGit(host.env, Settled(), old(host.State()))
    {
      var revno := Get(wrap.value, "revision");
      if revno.Err? {
        return Err(revno.error);
      }
      var isShallow := false;
      var depthOption: seq<string> := [];
      if GetOr(wrap.value, "depth", "") != "" {
        isShallow := true;
        depthOption := ["--depth", GetOr(wrap.value, "depth", "")];
      }
      if isShallow && IsGitFullCommitId(revno.value) {
        r := host.CheckCall(["git", "init", directory], subdirRoot);
        if r.Err? { return; }
        var url := Get(wrap.value, "url");
        if url.Err? { return Err(url.error); }
        r := host.CheckCall(["git", "remote", "add", "origin", url.value], dirname);
        if r.Err? { return; }
        r := host.CheckCall(["git", "fetch"] + depthOption + ["origin", revno.value], dirname);
        if r.Err? { return; }
        r := host.CheckCall(["git", "checkout", revno.value], dirname);
        if r.Err? { return; }
      } else if !isShallow {
        var url := Get(wrap.value, "url");
        if url.Err? { return Err(url.error); }
        r := host.CheckCall(["git", "clone", url.value, directory], subdirRoot);
        if r.Err? { return; }
        if Lower(revno.value) != "head" {
          var status := host.Call(["git", "checkout", revno.value], dirname);
          if status.Err? { return Err(status.error); }
          if status.value != 0 {
            r := host.CheckCall(["git", "fetch", url.value, revno.value], dirname);
            if r.Err? { return; }
            r := host.CheckCall(["git", "checkout", revno.value], dirname);
            if r.Err? { return; }
          }
        }
      } else {
        var url := Get(wrap.value, "url");
        if url.Err? { return Err(url.error); }
        r := host.CheckCall(["git", "clone"] + depthOption + ["--branch", revno.value, url.value, directory], subdirRoot);
        if r.Err? { return; }
      }
      r := FinishGit(depthOption);
    }

    method GetHg() returns (r: Result<()>)
      requires Ready()
      modifies host
      ensures Out(r, host.State()) == WrapSpec.GetHg(host.env, Settled(), old(host.State()))
    {
      var revno := Get(wrap.value, "revision");
      if revno.Err? { return Err(revno.error); }
      var url := Get(wrap.value, "url");
      if url.Err? { return Err(url.error); }
      r := host.CheckCall(["hg", "clone", url.value, directory], subdirRoot);
      if r.Err? { return; }
      if Lower(revno.value) != "tip" {
        r := host.CheckCall(["hg", "checkout", revno.value], dirname);
      }
    }

    method GetSvn() returns (r: Result<()>)
      requires Ready()
      modifies host
      ensures Out(r, host.State()) == WrapSpec.GetSvn(host.env, Settled(), old(host.State()))
    {
      var revno := Get(wrap.value, "revision");
      if revno.Err? { return Err(revno.error); }
      var url := Get(wrap.value, "url");
      if url.Err? { return Err(url.error); }
      r := host.CheckCall(["svn", "checkout", "-r", revno.value, url.value, directory], subdirRoot);
    }

    /**
     * `get_data`: read the response block by block into a fresh temp file
     * until the first empty block, feeding each block to the hash.  The
     * hash object's state is the bytes fed to it so far.
     */
    method GetData(url: string) returns (r: Result<(string, string)>)
      requires Ready()
      modifies host
      ensures Out(r, host.State()) == WrapSpec.GetData(host.env, Settled(), old(host.State()), url)
    {
      var t := host.MakeTemp(cachedir, false);
      if t.Err? {
        return Err(t.error);
      }
      var tmpfile := t.value;
      var resp := host.OpenUrl(url);
      if resp.Err? {
        return Err(resp.error);
      }
      var blocks := resp.value;
      ghost var afterOpen := host.State();
      assert afterOpen.fs[tmpfile] == File([], true);
      assert afterOpen.fs == afterOpen.fs[tmpfile := File(Concat(blocks[..0]), true)];
      var fed: Bytes := [];
      var i := 0;
      while true
        invariant 0 <= i <= FirstEmpty(blocks)
        invariant fed == Concat(blocks[..i])
        invariant host.State() == afterOpen.(fs := afterOpen.fs[tmpfile := File(fed, true)])
        decreases |blocks| - i
      {
        var block := if i < |blocks| then blocks[i] else [];
        if block == [] {
          break;
        }
        assert blocks[..i + 1] == blocks[..i] + [block];
        ConcatAppend(blocks[..i], block);
        OverwriteTwice(afterOpen.fs, tmpfile, File(fed, true), File(fed + block, true));
        fed := fed + block;
        host.Append(tmpfile, block);
        i := i + 1;
      }
      assert i == FirstEmpty(blocks);
      assert fed == Payload(blocks);
      return Ok((host.env.sha256(fed), tmpfile));
    }

    method CheckHash(what: string, path: string) returns (r: Result<()>)
      requires Ready()
      ensures r == WrapSpec.CheckHash(host.env, Settled(), host.fs, what, path)
    {
      var expected := Get(wrap.value, what + "_hash");
      if expected.Err? { return Err(expected.error); }
      var data := host.ReadFile(path);
      if data.Err? { return Err(data.error); }
      var dhash := host.env.sha256(data.value);
      if dhash != expected.value {
        return Err(IncorrectHash(what, expected.value, dhash));
      }
      return Ok(());
    }

    method Download(what: string, ofname: string) returns (r: Result<()>)
      requires Ready()
      modifies host
      ensures Out(r, host.State()) == WrapSpec.Download(host.env, Settled(), old(host.State()), what, ofname)
    {
      var allowed := CheckCanDownload();
      if allowed.Err? { return Err(allowed.error); }
      var srcurl := Get(wrap.value, what + "_url");
      if srcurl.Err? { return Err(srcurl.error); }
      var d := GetData(srcurl.value);
      if d.Err? { return Err(d.error); }
      var (dhash, tmpfile) := d.value;
      var expected := Get(wrap.value, what + "_hash");
      if expected.Err? { return Err(expected.error); }
      if dhash != expected.value {
        var removed := host.Remove(tmpfile);
        assert removed.Ok?;
        return Err(IncorrectHash(what, expected.value, dhash));
      }
      var renamed := host.Rename(tmpfile, ofname);
      if renamed.Err? { return Err(renamed.error); }
      return Ok(());
    }

    method GetFileInternal(what: string) returns (r: Result<string>)
      requires Ready()
      modifies host
      ensures Out(r, host.State()) == WrapSpec.GetFileInternal(host.env, Settled(), old(host.State()), what)
    {
      var filename := Get(wrap.value, what + "_filename");
      if filename.Err? { return Err(filename.error); }
      var cachePath := Join(cachedir, filename.value);
      if cachePath in host.fs {
        var h := CheckHash(what, cachePath);
        if h.Err? { return Err(h.error); }
        return Ok(cachePath);
      }
      if !IsDir(host.fs, cachedir) {
        var m := host.Mkdir(cachedir);
        if m.Err? { return Err(m.error); }
      }
      var d := Download(what, cachePath);
      if d.Err? { return Err(d.error); }
      return Ok(cachePath);
    }

    /** The body of `copy_tree`'s inner loop: clear the destination file, chmod-ing it when it is read-only, then `copy2`. */
    method ReplaceFile(srcDir: string, dstDir: string, name: string) returns (r: Result<()>)
      modifies host
      ensures (r, host.fs) == CopyFile(old(host.fs), srcDir, dstDir, name)
      ensures host.State() == old(host.State()).(fs := host.fs)
    {
      ghost var fs0 := host.fs;
      var srcFile := Join(srcDir, name);
      var dstFile := Join(dstDir, name);
      if dstFile in host.fs {
        var removed := host.Remove(dstFile);
        if removed.Err? {
          host.Chmod(dstFile);
          removed := host.Remove(dstFile);
          if removed.Err? {
            return Err(removed.error);
          }
          assert MakeWritable(fs0, dstFile) - {dstFile} == fs0 - {dstFile};
        }
      }
      r := host.Copy2(srcFile, dstDir, name);
      if r.Ok? { assert r.value == (); }
    }

    /** `copy_tree`: walk the source top-down, creating directories and replacing files at the destination. */
    method CopyTree(rootSrcDir: string, rootDstDir: string) returns (r: Result<()>)
      modifies host
      ensures (r, host.fs) == WrapSpec.CopyTree(host.env, old(host.fs), rootSrcDir, rootDstDir)
      ensures host.State() == old(host.State()).(fs := host.fs)
    {
      ghost var fs0 := host.fs;
      var walk := host.Walk(rootSrcDir);
      var k := 0;
      while k < |walk|
        invariant 0 <= k <= |walk|
        invariant CopyEntries(host.fs, walk[k..], rootSrcDir, rootDstDir) == CopyEntries(fs0, walk, rootSrcDir, rootDstDir)
        invariant host.State() == old(host.State()).(fs := host.fs)
      {
        var entry := walk[k];
        assert walk[k..][0] == entry && walk[k..][1..] == walk[k + 1..];
        var dstDir := ReplaceFirst(entry.dir, rootSrcDir, rootDstDir);
        if dstDir !in host.fs {
          host.MakeDirs(dstDir);
        }
        var copied := CopyFilesInto(entry.dir, dstDir, entry.files);
        if copied.Err? {
          return copied;
        }
        k := k + 1;
      }
      return Ok(());
    }

    /** The inner loop of `copy_tree`: each file of one walked directory replaces its copy at the destination. */
    method CopyFilesInto(srcDir: string, dstDir: string, files: seq<string>) returns (r: Result<()>)
      modifies host
      ensures (r, host.fs) == CopyFiles(old(host.fs), srcDir, dstDir, files)
      ensures host.State() == old(host.State()).(fs := host.fs)
    {
      var j := 0;
      while j < |files|
        invariant 0 <= j <= |files|
        invariant CopyFiles(host.fs, srcDir, dstDir, files[j..]) == CopyFiles(old(host.fs), srcDir, dstDir, files)
        invariant host.State() == old(host.State()).(fs := host.fs)
      {
        var name := files[j];
        assert files[j..][0] == name && files[j..][1..] == files[j + 1..];
        var copied := ReplaceFile(srcDir, dstDir, name);
        if copied.Err? {
          return copied;
        }
        j := j + 1;
      }
      return Ok(());
    }

    method ApplyPatch() returns (r: Result<()>)
      requires Ready()
      modifies host
      ensures Out(r, host.State()) == WrapSpec.ApplyPatch(host.env, Settled(), old(host.State()))
    {
      var path := GetFileInternal("patch");
      if path.Err? { return Err(path.error); }
      var direct := host.Unpack(path.value, subdirRoot);
      if direct.Ok? {
        return Ok(());
      }
      var workdir := host.MakeTemp(host.env.sysTempDir, true);
      if workdir.Err? { return Err(workdir.error); }
      var u := host.Unpack(path.value, workdir.value);
      if u.Err? {
        host.RemoveTree(workdir.value);
        return Err(u.error);
      }
      r := CopyTree(workdir.value, subdirRoot);
      host.RemoveTree(workdir.value);
    }

    method GetFile() returns (r: Result<()>)
      requires Ready()
      modifies host
      ensures Out(r, host.State()) == WrapSpec.GetFile(host.env, Settled(), old(host.State()))
    {
      var path := GetFileInternal("source");
      if path.Err? { return Err(path.error); }
      var extractDir := subdirRoot;
      if "lead_directory_missing" in wrap.value.values {
        var m := host.Mkdir(dirname);
        if m.Err? { return Err(m.error); }
        extractDir := dirname;
      }
      var u := host.Unpack(path.value, extractDir);
      if u.Err? { return Err(u.error); }
      if HasPatch(wrap.value) {
        r := ApplyPatch();
      } else {
        r := Ok(());
      }
    }

    /** The middle of `resolve`: an existing path must be a directory; a missing one is fetched as the manifest says. */
    method FetchIfMissing() returns (r: Result<()>)
      requires Valid() && dirname == Join(subdirRoot, directory)
      modifies host
      ensures Out(r, host.State()) == Fetch(host.env, wrapMode, subdirRoot, packagename, directory, wrap, old(host.State()))
    {
      if dirname in host.fs {
        if !IsDir(host.fs, dirname) {
          return Err(NotADirectory);
        }
        return Ok(());
      }
      if wrap.None? {
        return Err(NotFound(packagename));
      }
      if wrap.value.wrapType == "file" {
        r := GetFile();
        return;
      }
      var allowed := CheckCanDownload();
      if allowed.Err? {
        return Err(allowed.error);
      }
      if wrap.value.wrapType == "git" {
        r := GetGit();
      } else if wrap.value.wrapType == "hg" {
        r := GetHg();
      } else if wrap.value.wrapType == "svn" {
        r := GetSvn();
      } else {
        r := Err(UnknownWrapType(wrap.value.wrapType));
      }
    }

    /** `resolve(packagename, method)`. */
    method Resolve(packagename: string, buildMethod: string) returns (r: Result<string>)
      requires Valid()
      modifies this, host
      ensures Out(r, host.State()) == WrapSpec.Resolve(host.env, wrapMode, subdirRoot, packagename, buildMethod, old(host.State()))
      ensures this.packagename == packagename
      ensures r.Ok? ==> directory == r.value && dirname == Join(subdirRoot, directory)
    {
      this.packagename := packagename;
      directory := packagename;
      var loaded := LoadWrap();
      if loaded.Err? {
        return Err(loaded.error);
      }
      wrap := loaded.value;
      if wrap.Some? && "directory" in wrap.value.values {
        directory := wrap.value.values["directory"];
        if Dirname(directory) != "" {
          return Err(DirectoryNotName);
        }
      }
      dirname := Join(subdirRoot, directory);
      var mesonFile := Join(dirname, "meson.build");
      var cmakeFile := Join(dirname, "CMakeLists.txt");
      if buildMethod != "meson" && buildMethod != "cmake" {
        return Err(UnsupportedMethod);
      }
      if buildMethod == "meson" && mesonFile in host.fs {
        return Ok(directory);
      }
      if buildMethod == "cmake" && cmakeFile in host.fs {
        return Ok(directory);
      }
      ResolveObtains(host.env, wrapMode, subdirRoot, packagename, buildMethod, host.State(), wrap);
      r := Obtain(buildMethod);
    }

    /** What `resolve` does once the build file is missing: check for a submodule, fetch, and look again. */
    method Obtain(buildMethod: string) returns (r: Result<string>)
      requires Valid() && dirname == Join(subdirRoot, directory)
      requires buildMethod == "meson" || buildMethod == "cmake"
      modifies host
      ensures Out(r, host.State()) == WrapSpec.Obtain(host.env, wrapMode, subdirRoot, packagename, directory, wrap,
        DescriptorName(buildMethod), old(host.State()))
      ensures r.Ok? ==> r.value == directory
    {
      var mesonFile := Join(dirname, "meson.build");
      var cmakeFile := Join(dirname, "CMakeLists.txt");
      var submodule := ResolveGitSubmodule();
      if submodule.Err? {
        return Err(submodule.error);
      }
      var fetched := FetchIfMissing();
      if fetched.Err? {
        return Err(fetched.error);
      }
      if buildMethod == "meson" && mesonFile !in host.fs {
        return Err(MissingDescriptor("meson.build"));
      }
      if buildMethod == "cmake" && cmakeFile !in host.fs {
        return Err(MissingDescriptor("CMakeLists.txt"));
      }
      return Ok(directory);
    }
  }
}
