/**
 * The world the wrap resolver acts on, as values: a filesystem map, the
 * log of external commands run so far, the URLs opened, the warnings
 * logged, and the position in the temporary-name stream.  Everything the
 * resolver cannot see into is an oracle in `Env`: running a program,
 * opening a URL (the blocks a response yields), SHA-256, archive
 * extraction, INI parsing, directory walking and random temporary names.
 *
 * The functions here are the library calls the resolver makes (`os.*`,
 * `subprocess.*`, `tempfile.*`, `shutil.unpack_archive`), each stated on a
 * world value.
 */
module WrapWorld {
  import opened WrapCommon
  import opened WrapManifest

  datatype Node = File(data: Bytes, writable: bool) | Dir
  type FileSystem = map<string, Node>

  /** One run of an external program: its argument vector and its working directory ("" = inherited). */
  datatype Command = Command(argv: seq<string>, cwd: string)

  /** What a program run reports: exit status, captured output, and the filesystem it leaves. */
  datatype ExecResult = ExecResult(status: int, output: string, fs: FileSystem)

  /** One `os.walk` step: a directory and the names of the files directly in it. */
  datatype WalkEntry = WalkEntry(dir: string, files: seq<string>)

  datatype Env = Env(
    exec: (Command, FileSystem) -> ExecResult,
    urlopen: string -> Option<seq<Bytes>>,
    sha256: Bytes -> string,
    unpack: (Bytes, string, FileSystem) -> Option<FileSystem>,
    parseIni: Bytes -> Option<seq<Section>>,
    walk: (string, FileSystem) -> seq<WalkEntry>,
    tempNames: nat -> string,
    sysTempDir: string)

  datatype World = World(
    fs: FileSystem,
    log: seq<Command>,
    downloads: seq<string>,
    warnings: seq<string>,
    nameIndex: nat)

  /** The result of a step together with the world it leaves, whether it succeeded or raised. */
  datatype Out<T> = Out(res: Result<T>, w: World)

  // ---------------------------------------------------------------------------
  // os.path and os
  // ---------------------------------------------------------------------------

  predicate Exists(fs: FileSystem, p: string) { p in fs }
  predicate IsDir(fs: FileSystem, p: string) { p in fs && fs[p].Dir? }
  predicate IsFile(fs: FileSystem, p: string) { p in fs && fs[p].File? }

  /** `os.mkdir`: fails when the path exists or its parent is not a directory. */
  function Mkdir(fs: FileSystem, p: string): (r: Result<FileSystem>)
    ensures r.Ok? <==> p !in fs && IsDir(fs, Dirname(p))
    ensures r.Ok? ==> r.value == fs[p := Dir]
  {
    if p in fs || !IsDir(fs, Dirname(p)) then Err(OsError("mkdir", p)) else Ok(fs[p := Dir])
  }

  /**
   * `os.remove` with the permission rule of a read-only file system entry:
   * a missing path, a directory, or a file without write permission raises.
   * (On POSIX a read-only file can be removed; the caller below then chmods
   * and removes it, which leaves the same final state.)
   */
  function Remove(fs: FileSystem, p: string): (r: Result<FileSystem>)
    ensures r.Ok? <==> IsFile(fs, p) && fs[p].writable
    ensures r.Ok? ==> r.value == fs - {p}
  {
    if IsFile(fs, p) && fs[p].writable then Ok(fs - {p}) else Err(OsError("remove", p))
  }

  /**
   * `os.rename` of a file: a missing source, a destination whose directory
   * does not exist, or a destination that is a directory raises and changes
   * nothing; otherwise the source's entry moves to the destination,
   * replacing a file there.
   */
  function Rename(fs: FileSystem, src: string, dst: string): (r: Result<FileSystem>)
    ensures r.Ok? <==> IsFile(fs, src) && IsDir(fs, Dirname(dst)) && !IsDir(fs, dst)
    ensures r.Ok? ==> r.value == (fs - {src})[dst := fs[src]]
    ensures r.Err? ==> r.error == OsError("rename", src)
  {
    if IsFile(fs, src) && IsDir(fs, Dirname(dst)) && !IsDir(fs, dst) then Ok((fs - {src})[dst := fs[src]])
    else Err(OsError("rename", src))
  }

  /** `os.chmod(p, stat.S_IWUSR)`: a file becomes writable; other entries are unchanged. */
  function MakeWritable(fs: FileSystem, p: string): (r: FileSystem)
    ensures r.Keys == fs.Keys
    ensures IsFile(fs, p) ==> r[p] == File(fs[p].data, true)
    ensures forall q :: q in fs && (q != p || !IsFile(fs, p)) ==> r[q] == fs[q]
    ensures !IsFile(fs, p) ==> r == fs
  {
    if IsFile(fs, p) then fs[p := File(fs[p].data, true)] else fs
  }

  /** `shutil.rmtree`: the directory and everything under it disappear. */
  function RemoveTree(fs: FileSystem, d: string): (r: FileSystem)
    ensures d !in r
    ensures forall p :: p in r <==> p in fs && p != d && !StartsWith(p, d + "/")
  {
    map p | p in fs && p != d && !StartsWith(p, d + "/") :: fs[p]
  }

  // ---------------------------------------------------------------------------
  // subprocess
  // ---------------------------------------------------------------------------

  /** Run one program: it is logged, and the oracle says its status, output and effect. */
  function RunIn(env: Env, w: World, cmd: Command): (r: (int, string, World))
    ensures r.2.log == w.log + [cmd]
    ensures r.2.downloads == w.downloads && r.2.warnings == w.warnings && r.2.nameIndex == w.nameIndex
  {
    var e := env.exec(cmd, w.fs);
    (e.status, e.output, w.(fs := e.fs, log := w.log + [cmd]))
  }

  /**
   * Start a program the way `subprocess` does: a working directory that is
   * not a directory raises before anything runs; otherwise the run is
   * logged and yields its status and output.
   */
  function Exec(env: Env, w: World, cmd: Command): (o: Out<(int, string)>)
    ensures o.res.Err? <==> cmd.cwd != "" && !IsDir(w.fs, cmd.cwd)
    ensures o.res.Err? ==> o.w == w && o.res.error == OsError("chdir", cmd.cwd)
    ensures o.res.Ok? ==> o.w.log == w.log + [cmd]
    ensures o.w.downloads == w.downloads && o.w.warnings == w.warnings && o.w.nameIndex == w.nameIndex
  {
    if cmd.cwd != "" && !IsDir(w.fs, cmd.cwd) then Out(Err(OsError("chdir", cmd.cwd)), w)
    else
      var (status, out, w1) := RunIn(env, w, cmd);
      Out(Ok((status, out)), w1)
  }

  /** `subprocess.check_call`: a non-zero status raises. */
  function CheckCall(env: Env, w: World, argv: seq<string>, cwd: string): (o: Out<()>)
    ensures o.res.Ok? ==> o.w.log == w.log + [Command(argv, cwd)]
    ensures o.res.Ok? <==> Exec(env, w, Command(argv, cwd)).res.Ok? && Exec(env, w, Command(argv, cwd)).res.value.0 == 0
    ensures o.w == Exec(env, w, Command(argv, cwd)).w
  {
    var o := Exec(env, w, Command(argv, cwd));
    if o.res.Err? then Out(Err(o.res.error), o.w)
    else if o.res.value.0 != 0 then Out(Err(CommandFailed(argv, o.res.value.0)), o.w)
    else Out(Ok(()), o.w)
  }

  /** `subprocess.call`: the status is returned. */
  function Call(env: Env, w: World, argv: seq<string>, cwd: string): (o: Out<int>)
    ensures o.w == Exec(env, w, Command(argv, cwd)).w
    ensures o.res.Ok? <==> Exec(env, w, Command(argv, cwd)).res.Ok?
    ensures o.res.Ok? ==> o.res.value == Exec(env, w, Command(argv, cwd)).res.value.0
  {
    var o := Exec(env, w, Command(argv, cwd));
    if o.res.Err? then Out(Err(o.res.error), o.w) else Out(Ok(o.res.value.0), o.w)
  }

  /** `quiet_git(cmd, workingdir)`: success flag and captured output of `git -C workingdir cmd`. */
  function QuietGit(env: Env, w: World, cmd: seq<string>, workingdir: string): (r: (bool, string, World))
    ensures r.2.log == w.log + [Command(["git", "-C", workingdir] + cmd, "")]
    ensures r.2.downloads == w.downloads && r.2.warnings == w.warnings && r.2.nameIndex == w.nameIndex
  {
    var (status, out, w1) := RunIn(env, w, Command(["git", "-C", workingdir] + cmd, ""));
    (status == 0, out, w1)
  }

  // ---------------------------------------------------------------------------
  // tempfile
  // ---------------------------------------------------------------------------

  /** The number of candidate names `tempfile` tries before giving up (`TMP_MAX`). */
  const TmpMax: nat := 10000

  function TempCandidate(env: Env, dir: string, index: nat): string {
    Join(dir, "tmp" + env.tempNames(index))
  }

  /** The first of the remaining candidates that is free, as an offset from `start`. */
  function FreeCandidate(env: Env, fs: FileSystem, dir: string, start: nat, k: nat): (r: Option<nat>)
    requires k <= TmpMax
    ensures r.Some? ==> k <= r.value < TmpMax && TempCandidate(env, dir, start + r.value) !in fs
    decreases TmpMax - k
  {
    if k == TmpMax then None
    else if TempCandidate(env, dir, start + k) !in fs then Some(k)
    else FreeCandidate(env, fs, dir, start, k + 1)
  }

  /**
   * `tempfile.NamedTemporaryFile(dir=dir, delete=False)` (`asDir` false) or
   * `tempfile.mkdtemp(dir=dir)` (`asDir` true): a fresh name in `dir`,
   * created empty; the name stream advances past every candidate tried.
   */
  function MakeTemp(env: Env, w: World, dir: string, asDir: bool): (o: Out<string>)
    ensures o.w.log == w.log && o.w.downloads == w.downloads && o.w.warnings == w.warnings
    ensures o.res.Ok? ==> o.res.value !in w.fs
    ensures o.res.Ok? ==> o.w.fs == w.fs[o.res.value := if asDir then Dir else File([], true)]
    ensures o.res.Err? ==> o.w.fs == w.fs
  {
    if !IsDir(w.fs, dir) then Out(Err(OsError("mkstemp", dir)), w)
    else match FreeCandidate(env, w.fs, dir, w.nameIndex, 0)
      case None => Out(Err(OsError("mkstemp", dir)), w.(nameIndex := w.nameIndex + TmpMax))
      case Some(k) =>
        var p := TempCandidate(env, dir, w.nameIndex + k);
        Out(Ok(p), w.(fs := w.fs[p := if asDir then Dir else File([], true)], nameIndex := w.nameIndex + k + 1))
  }

  // ---------------------------------------------------------------------------
  // urllib
  // ---------------------------------------------------------------------------

  const WrapDbPrefix: string := "https://wrapdb.mesonbuild.com"

  /**
   * Open a URL and take the blocks its response yields.  A wrapdb URL that
   * cannot be opened over https is retried once over plain http.  Every
   * URL opened is recorded in `downloads`.
   */
  function OpenUrl(env: Env, w: World, url: string): (o: Out<seq<Bytes>>)
    ensures o.w.fs == w.fs && o.w.log == w.log && o.w.warnings == w.warnings && o.w.nameIndex == w.nameIndex
    ensures |w.downloads| < |o.w.downloads| && o.w.downloads[..|w.downloads| + 1] == w.downloads + [url]
    ensures o.res.Ok? ==> env.urlopen(Last(o.w.downloads)) == Some(o.res.value)
  {
    var w1 := w.(downloads := w.downloads + [url]);
    match env.urlopen(url)
    case Some(blocks) => Out(Ok(blocks), w1)
    case None =>
      if !StartsWith(url, WrapDbPrefix) then Out(Err(UrlFailed(url)), w1)
      else
        var plain := "http" + url[5..];
        var w2 := w1.(downloads := w1.downloads + [plain]);
        match env.urlopen(plain)
        case Some(blocks) => Out(Ok(blocks), w2)
        case None => Out(Err(UrlFailed(plain)), w2)
  }

  function Last<T>(s: seq<T>): T
    requires s != []
  {
    s[|s| - 1]
  }

  // ---------------------------------------------------------------------------
  // shutil.unpack_archive
  // ---------------------------------------------------------------------------

  /** Extract the archive file at `archive` into `dest`; the oracle says what it produces or that it raised. */
  function UnpackArchive(env: Env, fs: FileSystem, archive: string, dest: string): (r: Result<FileSystem>)
    ensures r.Ok? ==> IsFile(fs, archive)
  {
    if !IsFile(fs, archive) then Err(OsError("unpack_archive", archive))
    else match env.unpack(fs[archive].data, dest, fs)
      case None => Err(UnpackFailed(archive))
      case Some(fs1) => Ok(fs1)
  }

  // ---------------------------------------------------------------------------
  // Reading a download: the blocks up to the first empty one
  // ---------------------------------------------------------------------------

  /** Index of the first empty block, or the number of blocks when none is empty. */
  function FirstEmpty(blocks: seq<Bytes>): (n: nat)
    ensures n <= |blocks|
    ensures n < |blocks| ==> blocks[n] == []
    ensures forall i :: 0 <= i < n ==> blocks[i] != []
  {
    if blocks == [] || blocks[0] == [] then 0 else 1 + FirstEmpty(blocks[1..])
  }

  /** The bytes of a block sequence, in order. */
  function Concat(blocks: seq<Bytes>): Bytes {
    if blocks == [] then [] else Concat(blocks[..|blocks| - 1]) + blocks[|blocks| - 1]
  }

  /** The bytes a response yields before its first empty block. */
  function Payload(blocks: seq<Bytes>): Bytes {
    Concat(blocks[..FirstEmpty(blocks)])
  }

  lemma {:induction false} ConcatAppend(blocks: seq<Bytes>, b: Bytes)
    ensures Concat(blocks + [b]) == Concat(blocks) + b
  {
    assert (blocks + [b])[..|blocks|] == blocks;
  }

}
