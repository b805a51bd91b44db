/**
 * Properties of the wrap resolver's steps: which commands each transport
 * runs, what the package cache guarantees about the files it hands out,
 * what `nodownload` mode rules out, and how `resolve` behaves when called
 * again.
 */
module WrapProperties {
  import opened WrapCommon
  import opened WrapManifest
  import opened WrapWorld
  import opened WrapSpec

  // ---------------------------------------------------------------------------
  // resolve_git_submodule
  // ---------------------------------------------------------------------------

  /** The outcome for every kind of `git submodule status` output. */
  lemma SubmoduleTable(env: Env, root: string, dirname: string, w: World)
    ensures
      var o := ResolveGitSubmodule(env, root, dirname, w);
      var (inRepo, _, w1) := QuietGit(env, w, ["rev-parse"], root);
      var (listed, out, w2) := QuietGit(env, w1, ["submodule", "status", dirname], root);
      var init := Command(SubmoduleInitArgv(root, dirname), "");
      && (!inRepo ==> o == Out(Ok(false), w1))
      && (inRepo && !listed ==> o == Out(Ok(false), w2))
      && (inRepo && listed ==>
        && (StartsWith(out, "+") ==> o == Out(Ok(true), w2.(warnings := w2.warnings + [SubmoduleWarning])))
        && (StartsWith(out, "U") ==> o == Out(Err(SubmoduleConflict), w2))
        && (StartsWith(out, "-") ==>
              && o.w.log == w2.log + [init]
              && (o.res == Ok(true) <==> env.exec(init, w2.fs).status == 0)
              && (o.res != Ok(true) ==> o.res == Err(SubmoduleInitFailed)))
        && (StartsWith(out, " ") ==>
              && (dirname == "" || IsDir(w2.fs, dirname) ==> o.res == Ok(true) && o.w.log == w2.log + [Command(CheckoutAllArgv, dirname)])
              && (dirname != "" && !IsDir(w2.fs, dirname) ==> o == Out(Err(OsError("chdir", dirname)), w2)))
        && (out == "" ==> o == Out(Ok(false), w2))
        && (!StartsWith(out, "+") && !StartsWith(out, "U") && !StartsWith(out, "-") && !StartsWith(out, " ") && out != "" ==>
              o == Out(Err(UnknownSubmoduleOutput(out)), w2)))
  {
  }

  /** The submodule step runs at most three programs, all of them git, and opens no URL. */
  lemma SubmoduleRunsOnlyGit(env: Env, root: string, dirname: string, w: World)
    ensures
      var o := ResolveGitSubmodule(env, root, dirname, w);
      && |w.log| <= |o.w.log| <= |w.log| + 3
      && o.w.log[..|w.log|] == w.log
      && (forall i :: |w.log| <= i < |o.w.log| ==> o.w.log[i].argv != [] && o.w.log[i].argv[0] == "git")
      && o.w.downloads == w.downloads
  {
  }

  // ---------------------------------------------------------------------------
  // get_git, get_hg, get_svn
  // ---------------------------------------------------------------------------

  /** The commands `GitFinish` runs when it succeeds. */
  function GitTail(ctx: Ctx, depthOption: seq<string>): seq<Command> {
    (if CloneRecursive(ctx.wrap) then [Command(SubmoduleUpdateArgv(depthOption), ctx.DirPath())] else [])
    + (if GetOr(ctx.wrap, "push-url", "") != "" then [Command(SetPushUrlArgv(ctx.wrap.values["push-url"]), ctx.DirPath())] else [])
  }

  /** The tail holds the submodule update iff `clone-recursive` is true, and the push URL step iff `push-url` is non-empty. */
  lemma GitTailSteps(ctx: Ctx, depthOption: seq<string>)
    ensures Command(SubmoduleUpdateArgv(depthOption), ctx.DirPath()) in GitTail(ctx, depthOption) <==> CloneRecursive(ctx.wrap)
    ensures (exists u :: Command(SetPushUrlArgv(u), ctx.DirPath()) in GitTail(ctx, depthOption)) <==> GetOr(ctx.wrap, "push-url", "") != ""
  {
    var pushUrl := GetOr(ctx.wrap, "push-url", "");
    if pushUrl != "" {
      assert Command(SetPushUrlArgv(pushUrl), ctx.DirPath()) in GitTail(ctx, depthOption);
    }
    assert SubmoduleUpdateArgv(depthOption)[1] == "submodule";
  }

  lemma GitFinishRunsTail(env: Env, ctx: Ctx, w: World, depthOption: seq<string>)
    requires GitFinish(env, ctx, w, depthOption).res.Ok?
    ensures GitFinish(env, ctx, w, depthOption).w.log == w.log + GitTail(ctx, depthOption)
  {
  }

  lemma ShallowCommitCommands(env: Env, ctx: Ctx, w: World, revno: string, depth: string)
    requires depth != ""
    requires GitShallowCommit(env, ctx, w, revno, DepthOption(depth)).res.Ok?
    ensures "url" in ctx.wrap.values
    ensures GitShallowCommit(env, ctx, w, revno, DepthOption(depth)).w.log
      == w.log + [Command(["git", "init", ctx.directory], ctx.root),
                  Command(["git", "remote", "add", "origin", ctx.wrap.values["url"]], ctx.DirPath()),
                  Command(["git", "fetch", "--depth", depth, "origin", revno], ctx.DirPath()),
                  Command(["git", "checkout", revno], ctx.DirPath())] + GitTail(ctx, ["--depth", depth])
  {
    var opt := DepthOption(depth);
    var o1 := CheckCall(env, w, ["git", "init", ctx.directory], ctx.root);
    assert o1.res.Ok?;
    ShallowFetchCommands(env, ctx, o1.w, revno, depth);
  }

  /** After `git init`, the shallow fetch of a commit adds the remote, fetches, checks out and finishes. */
  lemma ShallowFetchCommands(env: Env, ctx: Ctx, w: World, revno: string, depth: string)
    requires depth != "" && "url" in ctx.wrap.values
    requires
      var o2 := CheckCall(env, w, ["git", "remote", "add", "origin", ctx.wrap.values["url"]], ctx.DirPath());
      var o3 := CheckCall(env, o2.w, ["git", "fetch"] + DepthOption(depth) + ["origin", revno], ctx.DirPath());
      var o4 := CheckCall(env, o3.w, ["git", "checkout", revno], ctx.DirPath());
      o2.res.Ok? && o3.res.Ok? && o4.res.Ok? && GitFinish(env, ctx, o4.w, DepthOption(depth)).res.Ok?
    ensures
      var o2 := CheckCall(env, w, ["git", "remote", "add", "origin", ctx.wrap.values["url"]], ctx.DirPath());
      var o3 := CheckCall(env, o2.w, ["git", "fetch"] + DepthOption(depth) + ["origin", revno], ctx.DirPath());
      var o4 := CheckCall(env, o3.w, ["git", "checkout", revno], ctx.DirPath());
      GitFinish(env, ctx, o4.w, DepthOption(depth)).w.log
        == w.log + [Command(["git", "remote", "add", "origin", ctx.wrap.values["url"]], ctx.DirPath()),
                    Command(["git", "fetch", "--depth", depth, "origin", revno], ctx.DirPath()),
                    Command(["git", "checkout", revno], ctx.DirPath())] + GitTail(ctx, ["--depth", depth])
  {
    var opt := DepthOption(depth);
    var dir := ctx.DirPath();
    var o2 := CheckCall(env, w, ["git", "remote", "add", "origin", ctx.wrap.values["url"]], dir);
    var o3 := CheckCall(env, o2.w, ["git", "fetch"] + opt + ["origin", revno], dir);
    var o4 := CheckCall(env, o3.w, ["git", "checkout", revno], dir);
    var c2 := Command(["git", "remote", "add", "origin", ctx.wrap.values["url"]], dir);
    var c3 := Command(["git", "fetch", "--depth", depth, "origin", revno], dir);
    var c4 := Command(["git", "checkout", revno], dir);
    assert ["git", "fetch"] + opt + ["origin", revno] == ["git", "fetch", "--depth", depth, "origin", revno];
    assert o4.w.log == w.log + [c2] + [c3] + [c4];
    assert w.log + [c2] + [c3] + [c4] == w.log + [c2, c3, c4];
    GitFinishRunsTail(env, ctx, o4.w, opt);
  }

  /**
   * When the `checkout` that follows the clone exits non-zero, the clone
   * fetches the revision from the URL and checks it out again.
   */
  lemma FullCloneRetryCommands(env: Env, ctx: Ctx, w: World, revno: string)
    requires "url" in ctx.wrap.values
    requires
      var o1 := CheckCall(env, w, ["git", "clone", ctx.wrap.values["url"], ctx.directory], ctx.root);
      var c := Call(env, o1.w, ["git", "checkout", revno], ctx.DirPath());
      o1.res.Ok? && c.res.Ok? && c.res.value != 0
    requires
      var o1 := CheckCall(env, w, ["git", "clone", ctx.wrap.values["url"], ctx.directory], ctx.root);
      var c := Call(env, o1.w, ["git", "checkout", revno], ctx.DirPath());
      var o2 := CheckCall(env, c.w, ["git", "fetch", ctx.wrap.values["url"], revno], ctx.DirPath());
      o2.res.Ok? && CheckCall(env, o2.w, ["git", "checkout", revno], ctx.DirPath()).res.Ok?
      && GitFinish(env, ctx, CheckCall(env, o2.w, ["git", "checkout", revno], ctx.DirPath()).w, []).res.Ok?
    ensures
      var o1 := CheckCall(env, w, ["git", "clone", ctx.wrap.values["url"], ctx.directory], ctx.root);
      var c := Call(env, o1.w, ["git", "checkout", revno], ctx.DirPath());
      var o2 := CheckCall(env, c.w, ["git", "fetch", ctx.wrap.values["url"], revno], ctx.DirPath());
      var o3 := CheckCall(env, o2.w, ["git", "checkout", revno], ctx.DirPath());
      GitFinish(env, ctx, o3.w, []).w.log == w.log + [Command(["git", "clone", ctx.wrap.values["url"], ctx.directory], ctx.root),
        Command(["git", "checkout", revno], ctx.DirPath()), Command(["git", "fetch", ctx.wrap.values["url"], revno], ctx.DirPath()),
        Command(["git", "checkout", revno], ctx.DirPath())] + GitTail(ctx, [])
  {
    var o1 := CheckCall(env, w, ["git", "clone", ctx.wrap.values["url"], ctx.directory], ctx.root);
    var c := Call(env, o1.w, ["git", "checkout", revno], ctx.DirPath());
    var o2 := CheckCall(env, c.w, ["git", "fetch", ctx.wrap.values["url"], revno], ctx.DirPath());
    var o3 := CheckCall(env, o2.w, ["git", "checkout", revno], ctx.DirPath());
    GitFinishRunsTail(env, ctx, o3.w, []);
  }

  /**
   * A successful full clone ran `clone` and, unless the revision is `head`,
   * a `checkout`; the exit status of that checkout, run on the world the
   * clone left, decides whether a `fetch` and a second `checkout` follow.
   */
  lemma FullCloneCommands(env: Env, ctx: Ctx, w: World, revno: string)
    requires GitFullClone(env, ctx, w, revno).res.Ok?
    ensures "url" in ctx.wrap.values
    ensures
      var o := GitFullClone(env, ctx, w, revno);
      var url := ctx.wrap.values["url"];
      var clone := Command(["git", "clone", url, ctx.directory], ctx.root);
      var checkout := Command(["git", "checkout", revno], ctx.DirPath());
      var status := Call(env, CheckCall(env, w, ["git", "clone", url, ctx.directory], ctx.root).w, ["git", "checkout", revno], ctx.DirPath()).res;
      && (Lower(revno) == "head" ==> o.w.log == w.log + [clone] + GitTail(ctx, []))
      && (Lower(revno) != "head" ==> status.Ok?)
      && (Lower(revno) != "head" && status == Ok(0) ==>
            o.w.log == w.log + [clone, checkout] + GitTail(ctx, []))
      && (Lower(revno) != "head" && status.Ok? && status.value != 0 ==>
            o.w.log == w.log + [clone, checkout, Command(["git", "fetch", url, revno], ctx.DirPath()), checkout] + GitTail(ctx, []))
  {
    var dir := ctx.DirPath();
    var url := ctx.wrap.values["url"];
    var o1 := CheckCall(env, w, ["git", "clone", url, ctx.directory], ctx.root);
    assert o1.res.Ok?;
    if Lower(revno) == "head" {
      GitFinishRunsTail(env, ctx, o1.w, []);
    } else {
      var c := Call(env, o1.w, ["git", "checkout", revno], dir);
      assert c.res.Ok?;
      if c.res.value == 0 {
        GitFinishRunsTail(env, ctx, c.w, []);
      } else {
        FullCloneRetryCommands(env, ctx, w, revno);
      }
    }
  }

  lemma ShallowRefCommands(env: Env, ctx: Ctx, w: World, revno: string, depth: string)
    requires depth != ""
    requires GitShallowRef(env, ctx, w, revno, DepthOption(depth)).res.Ok?
    ensures "url" in ctx.wrap.values
    ensures GitShallowRef(env, ctx, w, revno, DepthOption(depth)).w.log
      == w.log + [Command(["git", "clone", "--depth", depth, "--branch", revno, ctx.wrap.values["url"], ctx.directory], ctx.root)]
               + GitTail(ctx, ["--depth", depth])
  {
    var opt := DepthOption(depth);
    var url := ctx.wrap.values["url"];
    var o1 := CheckCall(env, w, ["git", "clone"] + opt + ["--branch", revno, url, ctx.directory], ctx.root);
    assert o1.res.Ok?;
    GitFinishRunsTail(env, ctx, o1.w, opt);
    assert ["git", "clone"] + opt + ["--branch", revno, url, ctx.directory]
        == ["git", "clone", "--depth", depth, "--branch", revno, url, ctx.directory];
  }

  /**
   * On success `get_git` has run exactly one of three command sequences:
   * shallow with a full commit id, `init`/`remote add`/`fetch --depth`/`checkout`;
   * not shallow, `clone` and, unless the revision is `head`, a `checkout`
   * (followed by `fetch` and a second `checkout` exactly when that first
   * `checkout`, run on the world the clone left, exits non-zero);
   * shallow with a named ref, one `clone --depth --branch`.  Each ends
   * with the optional submodule update and push-URL steps.
   */
  lemma GetGitCommands(env: Env, ctx: Ctx, w: World)
    requires GetGit(env, ctx, w).res.Ok?
    ensures "revision" in ctx.wrap.values && "url" in ctx.wrap.values
    ensures
      var o := GetGit(env, ctx, w);
      var revno := ctx.wrap.values["revision"];
      var url := ctx.wrap.values["url"];
      var depth := GetOr(ctx.wrap, "depth", "");
      var dir := ctx.DirPath();
      var checkout := Command(["git", "checkout", revno], dir);
      var clone := Command(["git", "clone", url, ctx.directory], ctx.root);
      var status := Call(env, CheckCall(env, w, ["git", "clone", url, ctx.directory], ctx.root).w, ["git", "checkout", revno], dir).res;
      && (depth != "" && IsGitFullCommitId(revno) ==>
            o.w.log == w.log + [Command(["git", "init", ctx.directory], ctx.root),
                                Command(["git", "remote", "add", "origin", url], dir),
                                Command(["git", "fetch", "--depth", depth, "origin", revno], dir),
                                checkout] + GitTail(ctx, ["--depth", depth]))
      && (depth == "" && Lower(revno) == "head" ==>
            o.w.log == w.log + [clone] + GitTail(ctx, []))
      && (depth == "" && Lower(revno) != "head" && status == Ok(0) ==>
            o.w.log == w.log + [clone, checkout] + GitTail(ctx, []))
      && (depth == "" && Lower(revno) != "head" && status.Ok? && status.value != 0 ==>
            o.w.log == w.log + [clone, checkout, Command(["git", "fetch", url, revno], dir), checkout] + GitTail(ctx, []))
      && (depth != "" && !IsGitFullCommitId(revno) ==>
            o.w.log == w.log + [Command(["git", "clone", "--depth", depth, "--branch", revno, url, ctx.directory], ctx.root)]
                             + GitTail(ctx, ["--depth", depth]))
  {
    var revno := ctx.wrap.values["revision"];
    var depth := GetOr(ctx.wrap, "depth", "");
    if depth != "" && IsGitFullCommitId(revno) {
      ShallowCommitCommands(env, ctx, w, revno, depth);
    } else if depth == "" {
      FullCloneCommands(env, ctx, w, revno);
    } else {
      ShallowRefCommands(env, ctx, w, revno, depth);
    }
  }

  /** `get_hg` clones, then checks out the revision unless it is `tip`. */
  lemma GetHgCommands(env: Env, ctx: Ctx, w: World)
    requires GetHg(env, ctx, w).res.Ok?
    ensures "revision" in ctx.wrap.values && "url" in ctx.wrap.values
    ensures
      var revno := ctx.wrap.values["revision"];
      GetHg(env, ctx, w).w.log == w.log
        + [Command(["hg", "clone", ctx.wrap.values["url"], ctx.directory], ctx.root)]
        + (if Lower(revno) != "tip" then [Command(["hg", "checkout", revno], ctx.DirPath())] else [])
  {
  }

  /** `get_svn` runs exactly one `checkout -r <revision>`. */
  lemma GetSvnCommands(env: Env, ctx: Ctx, w: World)
    requires GetSvn(env, ctx, w).res.Ok?
    ensures "revision" in ctx.wrap.values && "url" in ctx.wrap.values
    ensures GetSvn(env, ctx, w).w.log == w.log
      + [Command(["svn", "checkout", "-r", ctx.wrap.values["revision"], ctx.wrap.values["url"], ctx.directory], ctx.root)]
  {
  }

  // ---------------------------------------------------------------------------
  // The package cache
  // ---------------------------------------------------------------------------

  /** The digest `get_data` returns is the hash of exactly the blocks before the first empty one, which is what the temp file holds. */
  lemma GetDataWritesPayload(env: Env, ctx: Ctx, w: World, url: string)
    requires GetData(env, ctx, w, url).res.Ok?
    ensures
      var o := GetData(env, ctx, w, url);
      var (digest, tmp) := o.res.value;
      var response := env.urlopen(Last(o.w.downloads));
      && o.w.downloads[..|w.downloads| + 1] == w.downloads + [url]
      && response.Some?
      && o.w.fs[tmp] == File(Payload(response.value), true)
      && digest == env.sha256(Payload(response.value))
  {
  }

  /** A URL that cannot be opened leaves behind the empty temp file created before opening it. */
  lemma UnreachableUrlLeavesTempFile(env: Env, ctx: Ctx, w: World, url: string)
    requires MakeTemp(env, w, ctx.CacheDir(), false).res.Ok?
    requires OpenUrl(env, MakeTemp(env, w, ctx.CacheDir(), false).w, url).res.Err?
    ensures
      var t := MakeTemp(env, w, ctx.CacheDir(), false);
      var o := GetData(env, ctx, w, url);
      && o.res.Err? && o.res.error.UrlFailed?
      && t.res.value !in w.fs
      && o.w.fs == w.fs[t.res.value := File([], true)]
  {
  }

  /** `download` checks the download mode before anything else. */
  lemma DownloadChecksModeFirst(env: Env, ctx: Ctx, w: World, what: string, ofname: string)
    requires ctx.mode == NoDownload
    ensures Download(env, ctx, w, what, ofname) == Out(Err(DownloadDisabled), w)
  {
  }

  /**
   * The temp file becomes `ofname` only when its digest is the declared
   * hash: a successful download changes the filesystem at `ofname` alone,
   * to a file with the declared hash, and a rejected one leaves the
   * filesystem as it found it.  A fetched payload whose digest differs from
   * the declared hash is always rejected, naming both digests; one whose
   * digest matches is renamed exactly when `ofname`'s directory exists and
   * `ofname` is not a directory, and a failed rename leaves the temp file,
   * holding the payload, behind.
   */
  lemma DownloadRenamesOnlyOnMatch(env: Env, ctx: Ctx, w: World, what: string, ofname: string)
    ensures
      var o := Download(env, ctx, w, what, ofname);
      && (o.res.Ok? ==>
            && (what + "_hash") in ctx.wrap.values
            && IsFile(o.w.fs, ofname)
            && env.sha256(o.w.fs[ofname].data) == ctx.wrap.values[what + "_hash"]
            && o.w.fs == w.fs[ofname := o.w.fs[ofname]])
      && (o.res.Err? && o.res.error.IncorrectHash? ==>
            && o.w.fs == w.fs
            && o.res.error.what == what
            && (what + "_hash") in ctx.wrap.values
            && o.res.error.expected == ctx.wrap.values[what + "_hash"]
            && o.res.error.actual != o.res.error.expected)
    ensures
      var o := Download(env, ctx, w, what, ofname);
      CheckCanDownload(ctx.mode).Ok? && (what + "_url") in ctx.wrap.values && (what + "_hash") in ctx.wrap.values ==>
        var d := GetData(env, ctx, w, ctx.wrap.values[what + "_url"]);
        d.res.Ok? ==>
          var tmp := d.res.value.1;
          var digest := env.sha256(d.w.fs[tmp].data);
          && (digest != ctx.wrap.values[what + "_hash"] ==>
                && o.res == Err(IncorrectHash(what, ctx.wrap.values[what + "_hash"], digest))
                && o.w.fs == w.fs)
          && (digest == ctx.wrap.values[what + "_hash"] ==>
                && (o.res.Ok? <==> IsDir(w.fs, Dirname(ofname)) && !IsDir(w.fs, ofname))
                && (o.res.Err? ==>
                      && o.res == Err(OsError("rename", tmp))
                      && tmp !in w.fs && o.w.fs == w.fs[tmp := d.w.fs[tmp]]
                      && IsFile(o.w.fs, tmp) && env.sha256(o.w.fs[tmp].data) == digest))
  {
    if CheckCanDownload(ctx.mode).Ok? && Get(ctx.wrap, what + "_url").Ok? {
      var d := GetData(env, ctx, w, ctx.wrap.values[what + "_url"]);
      if d.res.Ok? {
        var (digest, tmp) := d.res.value;
        DropFresh(w.fs, d.w.fs, tmp, ofname);
      }
    }
  }

  /**
   * Removing a file that was added to `fs` leaves `fs`; renaming it succeeds
   * exactly when `fs` allows the destination, and leaves `fs` with the one
   * new entry.
   */
  lemma DropFresh(fs: FileSystem, fs': FileSystem, tmp: string, ofname: string)
    requires tmp !in fs && IsFile(fs', tmp) && fs' == fs[tmp := fs'[tmp]]
    ensures fs' - {tmp} == fs
    ensures Rename(fs', tmp, ofname).Ok? <==> IsDir(fs, Dirname(ofname)) && !IsDir(fs, ofname)
    ensures Rename(fs', tmp, ofname).Ok? ==> Rename(fs', tmp, ofname).value == fs[ofname := fs'[tmp]]
  {
    assert fs' - {tmp} == fs;
  }

  /** An existing cache entry is re-verified and returned without downloading; a mismatch names both digests. */
  lemma CacheHitIsVerified(env: Env, ctx: Ctx, w: World, what: string)
    requires (what + "_filename") in ctx.wrap.values
    requires CachePath(ctx, ctx.wrap.values[what + "_filename"]) in w.fs
    ensures
      var path := CachePath(ctx, ctx.wrap.values[what + "_filename"]);
      var o := GetFileInternal(env, ctx, w, what);
      && o.w == w
      && (o.res.Ok? <==> CheckHash(env, ctx, w.fs, what, path).Ok?)
      && (o.res.Ok? ==> o.res.value == path)
      && ((what + "_hash") in ctx.wrap.values && IsFile(w.fs, path)
          && env.sha256(w.fs[path].data) != ctx.wrap.values[what + "_hash"] ==>
            o.res == Err(IncorrectHash(what, ctx.wrap.values[what + "_hash"], env.sha256(w.fs[path].data))))
  {
  }

  /** On a cache miss the cache directory is created when missing, and the download decides the rest. */
  lemma CacheMissDownloads(env: Env, ctx: Ctx, w: World, what: string)
    requires (what + "_filename") in ctx.wrap.values
    requires CachePath(ctx, ctx.wrap.values[what + "_filename"]) !in w.fs
    requires IsDir(w.fs, ctx.CacheDir()) || Mkdir(w.fs, ctx.CacheDir()).Ok?
    ensures
      var path := CachePath(ctx, ctx.wrap.values[what + "_filename"]);
      var w1 := w.(fs := w.fs[ctx.CacheDir() := Dir]);
      var o := GetFileInternal(env, ctx, w, what);
      var d := Download(env, ctx, w1, what, path);
      && IsDir(w1.fs, ctx.CacheDir())
      && o.w == d.w
      && (o.res.Ok? <==> d.res.Ok?)
      && (o.res.Ok? ==> o.res.value == path)
  {
    if IsDir(w.fs, ctx.CacheDir()) {
      assert w.fs[ctx.CacheDir() := Dir] == w.fs;
    }
  }

  /** Whatever path the cache hands out is a file whose digest is the declared `<what>_hash`. */
  lemma CachedFileHasDeclaredHash(env: Env, ctx: Ctx, w: World, what: string)
    requires GetFileInternal(env, ctx, w, what).res.Ok?
    ensures
      var o := GetFileInternal(env, ctx, w, what);
      && (what + "_filename") in ctx.wrap.values
      && (what + "_hash") in ctx.wrap.values
      && o.res.value == CachePath(ctx, ctx.wrap.values[what + "_filename"])
      && IsFile(o.w.fs, o.res.value)
      && env.sha256(o.w.fs[o.res.value].data) == ctx.wrap.values[what + "_hash"]
  {
    var path := CachePath(ctx, ctx.wrap.values[what + "_filename"]);
    if path !in w.fs {
      var made := if IsDir(w.fs, ctx.CacheDir()) then Ok(w.fs) else Mkdir(w.fs, ctx.CacheDir());
      DownloadRenamesOnlyOnMatch(env, ctx, w.(fs := made.value), what, path);
    }
  }

  /** In `nodownload` mode the cache never opens a URL. */
  lemma CacheNoDownloadOpensNoUrl(env: Env, ctx: Ctx, w: World, what: string)
    requires ctx.mode == NoDownload
    ensures GetFileInternal(env, ctx, w, what).w.downloads == w.downloads
  {
  }

  /** In `nodownload` mode fetching a `file` wrap opens no URL: only verified cache entries are used. */
  lemma GetFileNoDownloadOpensNoUrl(env: Env, ctx: Ctx, w: World)
    requires ctx.mode == NoDownload
    ensures GetFile(env, ctx, w).w.downloads == w.downloads
  {
    var p := GetFileInternal(env, ctx, w, "source");
    CacheNoDownloadOpensNoUrl(env, ctx, w, "source");
    if p.res.Ok? && HasPatch(ctx.wrap) {
      var leadMissing := "lead_directory_missing" in ctx.wrap.values;
      var made := if leadMissing then Mkdir(p.w.fs, ctx.DirPath()) else Ok(p.w.fs);
      if made.Ok? {
        var extractDir := if leadMissing then ctx.DirPath() else ctx.root;
        var u := UnpackArchive(env, made.value, p.res.value, extractDir);
        if u.Ok? {
          CacheNoDownloadOpensNoUrl(env, ctx, p.w.(fs := u.value), "patch");
        }
      }
    }
  }

  // ---------------------------------------------------------------------------
  // copy_tree
  // ---------------------------------------------------------------------------

  lemma JoinExtends(a: string, b: string)
    requires b != [] && b[0] != '/'
    ensures |Join(a, b)| > |a| && Join(a, b)[..|a|] == a
  {
  }

  lemma JoinInjective(a: string, b: string, c: string)
    requires b != [] && b[0] != '/' && c != [] && c[0] != '/'
    requires Join(a, b) == Join(a, c)
    ensures b == c
  {
    var jb := Join(a, b);
    var jc := Join(a, c);
    if a == "" || a[|a| - 1] == '/' {
      assert b == jb[|a|..] && c == jc[|a|..];
    } else {
      assert b == jb[|a| + 1..] && c == jc[|a| + 1..];
    }
  }

  /**
   * Overwriting one file: into an existing destination directory, the
   * source file's contents and permissions replace whatever file was at
   * the destination, read-only or not; the copy fails only when a
   * directory is in the way.
   */
  lemma CopyFileOverwrites(fs: FileSystem, srcDir: string, dstDir: string, name: string)
    requires name != [] && name[0] != '/'
    requires IsDir(fs, dstDir) && IsFile(fs, Join(srcDir, name))
    requires Join(srcDir, name) != Join(dstDir, name)
    ensures var (res, fs') := CopyFile(fs, srcDir, dstDir, name);
      && (res.Ok? <==> !IsDir(fs, Join(dstDir, name)))
      && (res.Ok? ==> fs' == fs[Join(dstDir, name) := fs[Join(srcDir, name)]])
  {
    var dstFile := Join(dstDir, name);
    JoinExtends(dstDir, name);
    assert dstFile != dstDir;
    if dstFile in fs && fs[dstFile].File? {
      var cleared := fs - {dstFile};
      assert IsDir(cleared, dstDir);
      assert cleared[dstFile := fs[Join(srcDir, name)]] == fs[dstFile := fs[Join(srcDir, name)]];
    }
  }

  /** The destinations of one walked directory's files. */
  function Destinations(dstDir: string, names: seq<string>): set<string> {
    set i | 0 <= i < |names| :: Join(dstDir, names[i])
  }

  predicate PlainName(name: string) {
    name != [] && '/' !in name
  }

  /**
   * `copy_tree` on one walked directory overlays it onto the destination:
   * every listed file's destination ends up holding that source file, and
   * nothing else changes.  The source files must be files, no destination
   * may be a directory, and no source file may be one of the destinations.
   */
  lemma {:induction false} CopyFilesOverlay(fs: FileSystem, srcDir: string, dstDir: string, names: seq<string>)
    requires IsDir(fs, dstDir)
    requires forall i :: 0 <= i < |names| ==> PlainName(names[i])
    requires forall i :: 0 <= i < |names| ==> Join(srcDir, names[i]) in fs && fs[Join(srcDir, names[i])].File?
    requires forall i :: 0 <= i < |names| ==> !IsDir(fs, Join(dstDir, names[i]))
    requires forall i, j :: 0 <= i < |names| && 0 <= j < |names| ==> Join(srcDir, names[i]) != Join(dstDir, names[j])
    ensures
      var (res, fs') := CopyFiles(fs, srcDir, dstDir, names);
      && res.Ok?
      && (forall i :: 0 <= i < |names| ==> Join(dstDir, names[i]) in fs' && fs'[Join(dstDir, names[i])] == fs[Join(srcDir, names[i])])
      && (forall p :: p !in Destinations(dstDir, names) ==> (p in fs' <==> p in fs) && (p in fs ==> fs'[p] == fs[p]))
      && IsDir(fs', dstDir)
    decreases |names|
  {
    if names != [] {
      var name := names[0];
      assert name[0] != '/' by { assert name[0] in name; }
      CopyFileOverwrites(fs, srcDir, dstDir, name);
      var fs1 := fs[Join(dstDir, name) := fs[Join(srcDir, name)]];
      var rest := names[1..];
      JoinExtends(dstDir, name);
      assert forall i :: 0 <= i < |rest| ==> rest[i] == names[i + 1];
      forall i | 0 <= i < |rest|
        ensures IsFile(fs1, Join(srcDir, rest[i])) && !IsDir(fs1, Join(dstDir, rest[i]))
      {
        assert Join(srcDir, rest[i]) != Join(dstDir, name);
      }
      CopyFilesOverlay(fs1, srcDir, dstDir, rest);
      var (res, fs') := CopyFiles(fs, srcDir, dstDir, names);
      assert (res, fs') == CopyFiles(fs1, srcDir, dstDir, rest);
      forall i | 0 <= i < |names|
        ensures Join(dstDir, names[i]) in fs' && fs'[Join(dstDir, names[i])] == fs[Join(srcDir, names[i])]
      {
        if i > 0 {
          assert names[i] == rest[i - 1];
          assert Join(srcDir, names[i]) != Join(dstDir, name);
        } else if Join(dstDir, name) !in Destinations(dstDir, rest) {
        } else {
          var j :| 0 <= j < |rest| && Join(dstDir, rest[j]) == Join(dstDir, name);
          assert rest[j][0] != '/' by { assert rest[j][0] in rest[j]; }
          JoinInjective(dstDir, rest[j], name);
          assert Join(srcDir, rest[j]) != Join(dstDir, name);
        }
      }
      forall p | p !in Destinations(dstDir, names)
        ensures (p in fs' <==> p in fs) && (p in fs ==> fs'[p] == fs[p])
      {
        assert p != Join(dstDir, names[0]);
        assert Destinations(dstDir, rest) <= Destinations(dstDir, names) by {
          forall j | 0 <= j < |rest| ensures Join(dstDir, rest[j]) in Destinations(dstDir, names) {
            assert Join(dstDir, rest[j]) == Join(dstDir, names[j + 1]);
          }
        }
      }
    }
  }

  /**
   * The shape of a flat patch tree: `src` walks as the one directory `src`
   * holding the files `names`, `dst` is a directory, every name is a plain
   * file name whose destination is not a directory, and no source file is a
   * destination.
   */
  predicate FlatOverlay(env: Env, fs: FileSystem, src: string, dst: string, names: seq<string>) {
    && env.walk(src, fs) == [WalkEntry(src, names)]
    && IsDir(fs, dst)
    && (forall i :: 0 <= i < |names| ==> PlainName(names[i]))
    && (forall i :: 0 <= i < |names| ==> IsFile(fs, Join(src, names[i])))
    && (forall i :: 0 <= i < |names| ==> !IsDir(fs, Join(dst, names[i])))
    && (forall i, j :: 0 <= i < |names| && 0 <= j < |names| ==> Join(src, names[i]) != Join(dst, names[j]))
  }

  /** `copy_tree` of a flat tree succeeds, and each file lands under the same name in `dst` with nothing else changed. */
  lemma FlatCopyTreeOverlays(env: Env, fs: FileSystem, src: string, dst: string, names: seq<string>)
    requires FlatOverlay(env, fs, src, dst, names)
    ensures
      var (res, fs') := CopyTree(env, fs, src, dst);
      && res.Ok?
      && (forall i :: 0 <= i < |names| ==> Join(dst, names[i]) in fs' && fs'[Join(dst, names[i])] == fs[Join(src, names[i])])
      && (forall p :: p !in Destinations(dst, names) ==> (p in fs' <==> p in fs) && (p in fs ==> fs'[p] == fs[p]))
  {
    RebaseSelf(src, dst);
    CopyEntriesOne(fs, WalkEntry(src, names), src, dst);
    CopyFilesOverlay(fs, src, dst, names);
  }

  lemma RebaseSelf(src: string, dst: string)
    ensures Rebase(src, src, dst) == dst
  {
    assert StartsWith(src, src) && src[|src|..] == [];
  }

  /** A walk of one directory whose destination exists copies that directory's files and nothing more. */
  lemma CopyEntriesOne(fs: FileSystem, e: WalkEntry, src: string, dst: string)
    requires Rebase(e.dir, src, dst) in fs
    ensures CopyEntries(fs, [e], src, dst) == CopyFiles(fs, e.dir, Rebase(e.dir, src, dst), e.files)
  {
    var r := CopyFiles(fs, e.dir, Rebase(e.dir, src, dst), e.files);
    assert [e][0] == e && [e][1..] == [];
    assert CopyEntries(r.1, [], src, dst) == (Ok(()), r.1);
    if r.0.Ok? {
      var v: () := r.0.value;
      assert v == ();
      assert r.0 == Ok(());
    }
  }

  // ---------------------------------------------------------------------------
  // get_file, apply_patch
  // ---------------------------------------------------------------------------

  /**
   * `apply_patch` over all inputs: the patch archive is the verified cache
   * entry; when it unpacks over the subproject directly that is the whole
   * effect; otherwise it is unpacked into a fresh temporary directory, which
   * is copied over the subproject with `copy_tree` and then removed, whatever
   * the unpack and the copy did.
   */
  lemma ApplyPatchFallsBackToCopy(env: Env, ctx: Ctx, w: World)
    ensures
      var p := GetFileInternal(env, ctx, w, "patch");
      p.res.Ok? ==>
      var archive := p.res.value;
      var o := ApplyPatch(env, ctx, w);
      var direct := UnpackArchive(env, p.w.fs, archive, ctx.root);
      var t := MakeTemp(env, p.w, env.sysTempDir, true);
      && "patch_hash" in ctx.wrap.values
      && IsFile(p.w.fs, archive) && env.sha256(p.w.fs[archive].data) == ctx.wrap.values["patch_hash"]
      && (direct.Ok? ==> o == Out(Ok(()), p.w.(fs := direct.value)))
      && (direct.Err? && t.res.Err? ==> o == Out(Err(t.res.error), t.w))
      && (direct.Err? && t.res.Ok? ==>
            var workdir := t.res.value;
            var u := UnpackArchive(env, t.w.fs, archive, workdir);
            var copied := if u.Ok? then CopyTree(env, u.value, workdir, ctx.root) else (Err(u.error), t.w.fs);
            && workdir !in p.w.fs
            && workdir !in o.w.fs
            && o == Out(copied.0, t.w.(fs := RemoveTree(copied.1, workdir))))
  {
    if GetFileInternal(env, ctx, w, "patch").res.Ok? {
      assert "patch" + "_hash" == "patch_hash";
      CachedFileHasDeclaredHash(env, ctx, w, "patch");
    }
  }

  /** The fallback of `apply_patch` once both unpacks are decided: copy the temporary tree over, then remove it. */
  lemma ApplyPatchCopies(env: Env, ctx: Ctx, w: World)
    requires GetFileInternal(env, ctx, w, "patch").res.Ok?
    requires
      var p := GetFileInternal(env, ctx, w, "patch");
      var t := MakeTemp(env, p.w, env.sysTempDir, true);
      && UnpackArchive(env, p.w.fs, p.res.value, ctx.root).Err? && t.res.Ok?
      && UnpackArchive(env, t.w.fs, p.res.value, t.res.value).Ok?
    ensures
      var p := GetFileInternal(env, ctx, w, "patch");
      var t := MakeTemp(env, p.w, env.sysTempDir, true);
      var u := UnpackArchive(env, t.w.fs, p.res.value, t.res.value);
      var copied := CopyTree(env, u.value, t.res.value, ctx.root);
      ApplyPatch(env, ctx, w) == Out(copied.0, t.w.(fs := RemoveTree(copied.1, t.res.value)))
  {
  }

  /**
   * A flat patch archive that does not unpack over the subproject directly
   * still patches it: the copy succeeds, each patch file lands under its
   * name in the subproject root, every other path outside the temporary
   * directory is as the unpack left it, and the temporary directory is gone.
   */
  lemma FlatPatchOverlays(env: Env, ctx: Ctx, w: World, names: seq<string>)
    requires GetFileInternal(env, ctx, w, "patch").res.Ok?
    requires
      var p := GetFileInternal(env, ctx, w, "patch");
      UnpackArchive(env, p.w.fs, p.res.value, ctx.root).Err? && MakeTemp(env, p.w, env.sysTempDir, true).res.Ok?
    requires
      var p := GetFileInternal(env, ctx, w, "patch");
      var t := MakeTemp(env, p.w, env.sysTempDir, true);
      var u := UnpackArchive(env, t.w.fs, p.res.value, t.res.value);
      && u.Ok?
      && FlatOverlay(env, u.value, t.res.value, ctx.root, names)
      && (forall i :: 0 <= i < |names| ==> !StartsWith(Join(ctx.root, names[i]), t.res.value))
    ensures
      var p := GetFileInternal(env, ctx, w, "patch");
      var t := MakeTemp(env, p.w, env.sysTempDir, true);
      var workdir := t.res.value;
      var u := UnpackArchive(env, t.w.fs, p.res.value, workdir);
      var o := ApplyPatch(env, ctx, w);
      && o.res.Ok?
      && workdir !in o.w.fs
      && (forall i :: 0 <= i < |names| ==>
            Join(ctx.root, names[i]) in o.w.fs && o.w.fs[Join(ctx.root, names[i])] == u.value[Join(workdir, names[i])])
      && (forall q :: q !in Destinations(ctx.root, names) && !StartsWith(q, workdir) ==>
            (q in o.w.fs <==> q in u.value) && (q in o.w.fs ==> o.w.fs[q] == u.value[q]))
  {
    var p := GetFileInternal(env, ctx, w, "patch");
    var t := MakeTemp(env, p.w, env.sysTempDir, true);
    var workdir := t.res.value;
    var u := UnpackArchive(env, t.w.fs, p.res.value, workdir);
    ApplyPatchCopies(env, ctx, w);
    FlatCopyTreeOverlays(env, u.value, workdir, ctx.root, names);
    forall q | StartsWith(q, workdir + "/") ensures StartsWith(q, workdir) {
      assert q[..|workdir|] == (workdir + "/")[..|workdir|];
    }
  }

  /**
   * `get_file` over all inputs: the source archive is a file in the cache
   * (`CachedFileHasDeclaredHash` gives its digest); with `lead_directory_missing` a new `<dirname>` is created (an
   * existing one, or a missing parent, raises) and the archive is unpacked
   * into it, otherwise it is unpacked into the subproject root; after a
   * successful unpack the patch step runs exactly when the manifest
   * declares a patch.
   */
  lemma GetFileUnpacksThenPatches(env: Env, ctx: Ctx, w: World)
    ensures
      var p := GetFileInternal(env, ctx, w, "source");
      p.res.Ok? ==>
      var o := GetFile(env, ctx, w);
      var archive := p.res.value;
      var lead := "lead_directory_missing" in ctx.wrap.values;
      var canMake := ctx.DirPath() !in p.w.fs && IsDir(p.w.fs, Dirname(ctx.DirPath()));
      var into := if lead then ctx.DirPath() else ctx.root;
      var fs1 := if lead then p.w.fs[ctx.DirPath() := Dir] else p.w.fs;
      var u := UnpackArchive(env, fs1, archive, into);
      && IsFile(p.w.fs, archive)
      && (lead && !canMake ==> o == Out(Err(OsError("mkdir", ctx.DirPath())), p.w))
      && (!lead || canMake ==>
            && (u.Err? ==> o == Out(Err(u.error), p.w.(fs := fs1)))
            && (u.Ok? && HasPatch(ctx.wrap) ==> o == ApplyPatch(env, ctx, p.w.(fs := u.value)))
            && (u.Ok? && !HasPatch(ctx.wrap) ==> o == Out(Ok(()), p.w.(fs := u.value))))
  {
    var p := GetFileInternal(env, ctx, w, "source");
    if p.res.Ok? {
      CachedFileHasDeclaredHash(env, ctx, w, "source");
      if "lead_directory_missing" in ctx.wrap.values && Mkdir(p.w.fs, ctx.DirPath()).Ok? {
        assert Mkdir(p.w.fs, ctx.DirPath()).value == p.w.fs[ctx.DirPath() := Dir];
      }
    }
  }

  // ---------------------------------------------------------------------------
  // resolve
  // ---------------------------------------------------------------------------

  /** The fetch block: an existing directory is used as it is, and every other case is decided before any command runs except the transport's own. */
  lemma FetchTable(env: Env, mode: WrapMode, root: string, packagename: string, directory: string,
                   wrap: Option<PackageDefinition>, w: World)
    ensures
      var o := Fetch(env, mode, root, packagename, directory, wrap, w);
      var dirpath := Join(root, directory);
      && (IsDir(w.fs, dirpath) ==> o == Out(Ok(()), w))
      && (dirpath in w.fs && !IsDir(w.fs, dirpath) ==> o == Out(Err(NotADirectory), w))
      && (dirpath !in w.fs && wrap.None? ==> o == Out(Err(NotFound(packagename)), w))
      && (dirpath !in w.fs && wrap.Some? && wrap.value.wrapType != "file" && mode == NoDownload ==>
            o == Out(Err(DownloadDisabled), w))
      && (dirpath !in w.fs && wrap.Some? && wrap.value.wrapType !in {"file", "git", "hg", "svn"} && mode != NoDownload ==>
            o == Out(Err(UnknownWrapType(wrap.value.wrapType)), w))
  {
  }

  /** In `nodownload` mode the fetch block opens no URL and runs no program. */
  lemma FetchNoDownload(env: Env, root: string, packagename: string, directory: string,
                        wrap: Option<PackageDefinition>, w: World)
    ensures
      var o := Fetch(env, NoDownload, root, packagename, directory, wrap, w);
      o.w.downloads == w.downloads && o.w.log == w.log
  {
    var dirpath := Join(root, directory);
    if dirpath !in w.fs && wrap.Some? && wrap.value.wrapType == "file" {
      GetFileNoDownloadOpensNoUrl(env, Ctx(NoDownload, root, packagename, directory, wrap.value), w);
    }
  }

  /** In `nodownload` mode `resolve` never opens a URL, and runs no program besides the submodule step's git commands. */
  lemma ResolveNoDownloadOpensNoUrl(env: Env, root: string, packagename: string, buildMethod: string, w: World)
    ensures
      var o := Resolve(env, NoDownload, root, packagename, buildMethod, w);
      && o.w.downloads == w.downloads
      && (forall i :: |w.log| <= i < |o.w.log| ==> o.w.log[i].argv != [] && o.w.log[i].argv[0] == "git")
  {
    var o := Resolve(env, NoDownload, root, packagename, buildMethod, w);
    var wrap := LoadWrap(env, root, packagename, w.fs);
    if wrap.Ok? {
      var directory := ChosenDirectory(packagename, wrap.value);
      var dirpath := Join(root, directory);
      var descriptor := Join(dirpath, DescriptorName(buildMethod));
      if !(wrap.value.Some? && "directory" in wrap.value.value.values && Dirname(directory) != "")
        && (buildMethod == "meson" || buildMethod == "cmake") && descriptor !in w.fs
      {
        var s := ResolveGitSubmodule(env, root, dirpath, w);
        SubmoduleRunsOnlyGit(env, root, dirpath, w);
        if s.res.Ok? {
          var f := Fetch(env, NoDownload, root, packagename, directory, wrap.value, s.w);
          FetchNoDownload(env, root, packagename, directory, wrap.value, s.w);
          assert o.w == f.w;
        } else {
          assert o.w == s.w;
        }
      } else {
        assert o.w == w;
      }
    } else {
      assert o.w == w;
    }
  }

  /** When the method's descriptor already exists, `resolve` returns the directory name and changes nothing. */
  lemma ResolveEarlyExit(env: Env, mode: WrapMode, root: string, packagename: string, buildMethod: string, w: World)
    requires LoadWrap(env, root, packagename, w.fs).Ok?
    requires var wrap := LoadWrap(env, root, packagename, w.fs).value;
      wrap.Some? && "directory" in wrap.value.values ==> Dirname(wrap.value.values["directory"]) == ""
    requires buildMethod == "meson" || buildMethod == "cmake"
    requires
      var directory := ChosenDirectory(packagename, LoadWrap(env, root, packagename, w.fs).value);
      Join(Join(root, directory), DescriptorName(buildMethod)) in w.fs
    ensures Resolve(env, mode, root, packagename, buildMethod, w)
         == Out(Ok(ChosenDirectory(packagename, LoadWrap(env, root, packagename, w.fs).value)), w)
  {
  }

  /**
   * What a successful `resolve` promises: the method is supported, the
   * returned name is the manifest's `directory` (a bare name) or the
   * package name, and the method's descriptor exists under it.
   */
  lemma ResolveSuccess(env: Env, mode: WrapMode, root: string, packagename: string, buildMethod: string, w: World)
    requires Resolve(env, mode, root, packagename, buildMethod, w).res.Ok?
    ensures
      var o := Resolve(env, mode, root, packagename, buildMethod, w);
      var d := o.res.value;
      var wrap := LoadWrap(env, root, packagename, w.fs);
      && (buildMethod == "meson" || buildMethod == "cmake")
      && wrap.Ok?
      && d == ChosenDirectory(packagename, wrap.value)
      && (d != packagename ==> Dirname(d) == "")
      && Join(Join(root, d), DescriptorName(buildMethod)) in o.w.fs
  {
    var wrap := LoadWrap(env, root, packagename, w.fs);
    var directory := ChosenDirectory(packagename, wrap.value);
    if Join(Join(root, directory), DescriptorName(buildMethod)) !in w.fs {
      ObtainSuccess(env, mode, root, packagename, directory, wrap.value, DescriptorName(buildMethod), w);
    }
  }

  /** A successful fetch returns the directory name, and the build file is then present. */
  lemma ObtainSuccess(env: Env, mode: WrapMode, root: string, packagename: string, directory: string,
                      wrap: Option<PackageDefinition>, descriptorName: string, w: World)
    requires Obtain(env, mode, root, packagename, directory, wrap, descriptorName, w).res.Ok?
    ensures
      var o := Obtain(env, mode, root, packagename, directory, wrap, descriptorName, w);
      o.res.value == directory && Join(Join(root, directory), descriptorName) in o.w.fs
  {
  }

  /** Rejections made before anything runs: a `directory` that is a path, and an unsupported method. */
  lemma ResolveRejections(env: Env, mode: WrapMode, root: string, packagename: string, buildMethod: string, w: World)
    requires LoadWrap(env, root, packagename, w.fs).Ok?
    ensures
      var wrap := LoadWrap(env, root, packagename, w.fs).value;
      var o := Resolve(env, mode, root, packagename, buildMethod, w);
      && (wrap.Some? && "directory" in wrap.value.values && Dirname(wrap.value.values["directory"]) != "" ==>
            o == Out(Err(DirectoryNotName), w))
      && (!(wrap.Some? && "directory" in wrap.value.values && Dirname(wrap.value.values["directory"]) != "")
          && buildMethod != "meson" && buildMethod != "cmake" ==>
            o == Out(Err(UnsupportedMethod), w))
  {
  }

  /**
   * A second `resolve` after a successful one returns the same name and
   * changes nothing, provided the first left the manifest file as it was.
   */
  lemma ResolveIdempotent(env: Env, mode: WrapMode, root: string, packagename: string, buildMethod: string, w: World)
    requires Resolve(env, mode, root, packagename, buildMethod, w).res.Ok?
    requires var w' := Resolve(env, mode, root, packagename, buildMethod, w).w;
      var m := ManifestPath(root, packagename);
      (m in w.fs <==> m in w'.fs) && (m in w.fs ==> w.fs[m] == w'.fs[m])
    ensures
      var first := Resolve(env, mode, root, packagename, buildMethod, w);
      Resolve(env, mode, root, packagename, buildMethod, first.w) == first
  {
    var first := Resolve(env, mode, root, packagename, buildMethod, w);
    assert LoadWrap(env, root, packagename, first.w.fs) == LoadWrap(env, root, packagename, w.fs);
    ResolveSuccess(env, mode, root, packagename, buildMethod, w);
  }
}
