/**
 * Values shared by the wrap resolver: results and the errors it raises,
 * byte strings, and the `os.path` helpers it uses on `/`-separated paths.
 */
module WrapCommon {

  datatype Option<T> = None | Some(value: T)

  /**
   * What the resolver raises.  Each constructor is one `raise` site (or one
   * exception a library call lets through), carrying the values its message
   * interpolates.  `NotFound` is `WrapNotFoundException`; `CommandFailed` is
   * the `CalledProcessError` of `subprocess.check_call`; `OsError` is an
   * `OSError` from a filesystem call; every other one is a `WrapException`.
   */
  datatype Error =
    | ParseFailed(basename: string)
    | MissingSections(basename: string)
    | InvalidFirstSection(section: string, basename: string)
    | MissingKey(key: string, basename: string)
    | DirectoryNotName
    | UnsupportedMethod
    | NotADirectory
    | NotFound(packagename: string)
    | DownloadDisabled
    | SubmoduleConflict
    | SubmoduleInitFailed
    | UnknownSubmoduleOutput(output: string)
    | UnknownWrapType(wrapType: string)
    | MissingDescriptor(descriptor: string)
    | IncorrectHash(what: string, expected: string, actual: string)
    | UrlFailed(url: string)
    | UnpackFailed(archive: string)
    | CommandFailed(argv: seq<string>, status: int)
    | OsError(op: string, path: string)

  datatype Result<T> = Ok(value: T) | Err(error: Error) {
    predicate IsFailure() { Err? }
    function PropagateFailure<U>(): Result<U> requires Err? { Err(error) }
    function Extract(): T requires Ok? { value }
  }

  type byte = x: int | 0 <= x < 256
  type Bytes = seq<byte>

  // ---------------------------------------------------------------------------
  // Strings and paths
  // ---------------------------------------------------------------------------

  predicate StartsWith(s: string, prefix: string) {
    |prefix| <= |s| && s[..|prefix|] == prefix
  }

  /** ASCII case folding: each ASCII capital becomes its small letter and every other character is kept (Python's `str.lower()` restricted to ASCII input). */
  function Lower(s: string): (r: string)
    ensures |r| == |s|
    ensures forall i :: 0 <= i < |s| ==> r[i] == if 'A' <= s[i] <= 'Z' then (s[i] - 'A' + 'a') as char else s[i]
  {
    if s == [] then []
    else [if 'A' <= s[0] <= 'Z' then (s[0] - 'A' + 'a') as char else s[0]] + Lower(s[1..])
  }

  /** `os.path.join(a, b)`: an absolute `b` replaces `a`; a separator is added only when needed. */
  function Join(a: string, b: string): (r: string)
    ensures |b| > 0 && b[0] == '/' ==> r == b
    ensures !(|b| > 0 && b[0] == '/') && a != "" && a[|a| - 1] != '/' ==> r == a + "/" + b
  {
    if |b| > 0 && b[0] == '/' then b
    else if a == "" || a[|a| - 1] == '/' then a + b
    else a + "/" + b
  }

  /** Index just past the last `/` of `p`, or 0 when there is none. */
  function SplitIndex(p: string): (i: nat)
    ensures i <= |p|
    ensures i > 0 ==> p[i - 1] == '/'
    ensures forall j :: i <= j < |p| ==> p[j] != '/'
  {
    if p == [] then 0
    else if p[|p| - 1] == '/' then |p|
    else SplitIndex(p[..|p| - 1])
  }

  function Basename(p: string): string {
    p[SplitIndex(p)..]
  }

  predicate AllSlashes(s: string) {
    forall i :: 0 <= i < |s| ==> s[i] == '/'
  }

  function RStripSlashes(s: string): (r: string)
    ensures r <= s
  {
    if s != [] && s[|s| - 1] == '/' then RStripSlashes(s[..|s| - 1]) else s
  }

  /** `os.path.dirname`: the head before the last `/`, trailing slashes removed unless it is all slashes. */
  function Dirname(p: string): string {
    var head := p[..SplitIndex(p)];
    if head != "" && !AllSlashes(head) then RStripSlashes(head) else head
  }

  lemma {:induction false} RStripKeepsNonSlash(s: string)
    requires !AllSlashes(s)
    ensures RStripSlashes(s) != ""
  {
    if s != [] && s[|s| - 1] == '/' {
      var t := s[..|s| - 1];
      assert !AllSlashes(t) by {
        var i :| 0 <= i < |s| && s[i] != '/';
        assert i < |s| - 1 && t[i] == s[i];
      }
      RStripKeepsNonSlash(t);
    }
  }

  /** A path has an empty dirname exactly when it holds no separator, i.e. it is a bare name. */
  lemma DirnameEmptyIff(p: string)
    ensures Dirname(p) == "" <==> '/' !in p
  {
    var i := SplitIndex(p);
    var head := p[..i];
    if '/' in p {
      var k :| 0 <= k < |p| && p[k] == '/';
      assert i > k;
      assert head != "";
      if !AllSlashes(head) {
        RStripKeepsNonSlash(head);
      }
    }
  }

  lemma BasenameHasNoSlash(p: string)
    ensures '/' !in Basename(p)
  {
    var b := Basename(p);
    var i := SplitIndex(p);
    forall j | 0 <= j < |b| ensures b[j] != '/' {
      assert b[j] == p[i + j];
    }
  }
}
