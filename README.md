# Meson subproject resolver, CMake target converter and C compiler tables in Dafny

This project models three parts of the Meson build system and proves properties of them.

**The wrap subproject resolver** (`mesonbuild/wrap/wrap.py`):

- reading a `.wrap` manifest (`PackageDefinition`);
- `Resolver.resolve` and its steps:
  - the git-submodule check;
  - the git, hg and svn transports;
  - the hash-verified package cache (`get_data`, `check_hash`, `download`, `get_file_internal`);
  - unpacking and patching a `file` wrap (`get_file`, `apply_patch`);
  - the `copy_tree` overlay.

The filesystem is a map from path to entry. Every external program run is appended to a command log, and every URL opened is appended to a download log. What the resolver cannot see into is an oracle in an environment value:

- a program's exit status, output and effect on the filesystem;
- the blocks a URL yields;
- SHA-256;
- archive extraction;
- INI parsing;
- directory walking;
- temporary names.

Each step is a function from a world value to a result and a new world (module `WrapSpec`). The resolver itself is a class `Resolver` with the fields `resolve` sets (`packagename`, `directory`, `dirname`, `wrap`). It acts on a class `Host` that holds the filesystem and the logs. Every `Resolver` method is proved to leave the host exactly as the matching `WrapSpec` function says, with the same result. The properties (`WrapProperties`) are lemmas about those functions:

- which commands each transport runs;
- what the cache guarantees about the file it hands out;
- that `nodownload` mode opens no URL;
- that `resolve` is idempotent.

**The CMake-to-Meson target converter** (`mesonbuild/cmake/interpreter.py`). `ConverterTarget` and `ConverterCustomTarget` are classes whose fields the analysis passes reassign. Each pass is a method whose contract gives the new fields as a function of the old ones. Then come:

- the transfer of header-only dependencies, as a work-list loop proved to compute the least closed set;
- the output de-conflicting with its shared counter;
- `get_ref`;
- the traversal of `pretend_to_be_meson`. The class `Emitter` holds `processing`, `processed` and `name_map`. It is proved to emit each target once, only after everything it links with, extracts objects from, depends on or takes a generated file from, and to raise on a cycle;
- `target_info` and `target_list` over the resulting table.

**The C compiler tables** (`mesonbuild/compilers/c.py`):

- the per-class `-std` choices, gated on the compiler version;
- the compile and link arguments the options produce;
- the warning-level tables;
- the include-argument format;
- the Xcode-clang to LLVM-clang version lookup;
- the Emscripten and Elbrus guards.

`version_compare(version, '>=X')` is a predicate `atLeast(X)` passed in.

Notes on what the code does (the model follows it):

- In `ConverterTarget.__init__` (interpreter.py:193-194), include directories are filtered with `x not in self.includes`. Here `x` is a dictionary and the list holds strings, so nothing is ever filtered out. The model keeps every include path of every file group. Duplicates disappear later, when `postprocess` turns the list into a set.
- In `ConverterCustomTarget.postprocess` (interpreter.py:481-490), a renamed output `c<N>_<name>` is not checked against the shared output list. `CMakeOutputs.RenameCanCollide` shows two equal names arising: with `c0_a` already listed and outputs `a`, `a`, the list becomes `c0_a`, `a`, `c0_a`.
- `process_target` (interpreter.py:961-967) runs the header loop after the target's dependencies are processed. The model decides whether that loop would fail before the dependencies run, and reports the failure only after they succeed. Processing other targets never changes a custom target's outputs, so the outcome is the same.

## Model

| member | source | states |
|---|---|---|
| WrapCommon.Lower | mesonbuild/wrap/wrap.py:258 | the ASCII part of `str.lower()`: each ASCII capital becomes its small letter, every other character is kept, and the length is kept; exact for ASCII input only |
| WrapCommon.Join | mesonbuild/wrap/wrap.py:137 | `os.path.join(a, b)`: an absolute `b` replaces `a`; otherwise one separator is inserted after a non-empty `a` that does not end in one |
| WrapCommon.DirnameEmptyIff | mesonbuild/wrap/wrap.py:135-136 | the dirname of a `directory` value is empty exactly when the value holds no separator |
| WrapCommon.BasenameHasNoSlash | mesonbuild/wrap/wrap.py:95 | a basename never holds a separator |
| WrapManifest.DropLast5 | mesonbuild/wrap/wrap.py:96 | `s[:-5]` is `s` without its last five characters (empty when shorter) |
| WrapManifest.Load | mesonbuild/wrap/wrap.py:93-109 | a parse failure, no sections, or a first section not starting with `wrap-` raises the matching error naming the file; otherwise the definition is built, and loading succeeds exactly in that case |
| WrapManifest.LoadedNameRoundTrip | mesonbuild/wrap/wrap.py:94-96 | a manifest file `<dir>/<name>.wrap` yields the package name `<name>` |
| WrapManifest.Get | mesonbuild/wrap/wrap.py:111-116 | `get(key)` succeeds exactly when the key is present and returns its value; otherwise it raises naming the key and the file |
| WrapManifest.GetAfterLoad | mesonbuild/wrap/wrap.py:104-119 | after loading, the type is the first section's name after `wrap-`; every key of that section can be read, any other key fails, and `has_patch` holds exactly when `patch_url` is a key |
| WrapSpec.CheckCanDownload | mesonbuild/wrap/wrap.py:189-194 | refuses exactly in `nodownload` mode |
| WrapSpec.AllHexIff | mesonbuild/wrap/wrap.py:293 | the character test holds exactly when every character is a hex digit |
| WrapSpec.IsGitFullCommitIdIff | mesonbuild/wrap/wrap.py:290-294 | a full commit id is exactly a 40- or 64-character string of hex digits in either case |
| WrapSpec.ResolveGitSubmodule | mesonbuild/wrap/wrap.py:196-226 | the submodule check never opens a URL and leaves the temporary-name stream alone |
| WrapSpec.GetData | mesonbuild/wrap/wrap.py:309-347 | on success the returned temp file is new, is the only change to the filesystem, and the returned digest is the hash of exactly its contents |
| WrapSpec.CheckHash | mesonbuild/wrap/wrap.py:349-356 | succeeds exactly when the file's digest equals the manifest's `<what>_hash`; a missing `<what>_hash` raises the missing-key error, a missing file an open error, and a digest mismatch `IncorrectHash` naming the expected digest and the file's actual digest |
| WrapSpec.Download | mesonbuild/wrap/wrap.py:358-367 | runs no program and logs no warning |
| WrapSpec.GetFileInternal | mesonbuild/wrap/wrap.py:369-381 | runs no program and logs no warning |
| WrapSpec.RemoveForOverwrite | mesonbuild/wrap/wrap.py:403-408 | removing a destination file succeeds exactly when it is a file, read-only or not (by chmod and retry), and removes only it |
| WrapSpec.Copy2 | mesonbuild/wrap/wrap.py:409 | `copy2` succeeds exactly when the source is a file, and then puts its contents and permission at the destination |
| WrapSpec.ApplyPatch | mesonbuild/wrap/wrap.py:383-390 | applying the patch runs no program and logs no warning |
| WrapSpec.GetFile | mesonbuild/wrap/wrap.py:228-238 | fetching a `file` wrap runs no program and logs no warning |
| WrapSpec.LoadWrap | mesonbuild/wrap/wrap.py:183-187 | a manifest is loaded only from the file `<root>/<name>.wrap`; when that is not a file the result is None |
| WrapSpec.ResolveObtains | mesonbuild/wrap/wrap.py:149-182 | when the descriptor is missing, `resolve` continues with the submodule check, the fetch and the final descriptor check |
| WrapWorld.Mkdir | mesonbuild/wrap/wrap.py:379 | `os.mkdir` succeeds exactly when the path is free and its parent is a directory, and adds only that directory |
| WrapWorld.Remove | mesonbuild/wrap/wrap.py:405 | `os.remove` succeeds exactly on a writable file and removes only it |
| WrapWorld.Rename | mesonbuild/wrap/wrap.py:367 | `os.rename` succeeds exactly when the source is a file, the destination's directory exists and the destination is not a directory; it then moves the entry to the destination and changes nothing else, and otherwise raises and changes nothing |
| WrapWorld.MakeWritable | mesonbuild/wrap/wrap.py:407 | `os.chmod(p, S_IWUSR)` makes a file writable, keeps its contents and changes nothing else |
| WrapWorld.RemoveTree | mesonbuild/wrap/wrap.py:388-390 | removing the temporary directory deletes it and everything under it, and nothing else |
| WrapWorld.CheckCall | mesonbuild/wrap/wrap.py:252 | `check_call` succeeds exactly when the program starts and exits with 0, and logs the command |
| WrapWorld.Call | mesonbuild/wrap/wrap.py:272 | `call` returns the exit status of the logged command |
| WrapWorld.QuietGit | mesonbuild/wrap/wrap.py:54-62 | runs and logs exactly `git -C <workingdir> <cmd>` and changes nothing but the log and the filesystem |
| WrapWorld.MakeTemp | mesonbuild/wrap/wrap.py:312 | a new temporary file is a name not in use, created empty and writable, and nothing else changes |
| WrapWorld.OpenUrl | mesonbuild/wrap/wrap.py:64-83 | the URL is recorded first; a failed wrapdb `https` URL is retried once over `http`; the blocks returned are those of the last URL opened |
| WrapWorld.UnpackArchive | mesonbuild/wrap/wrap.py:236 | unpacking succeeds only from an archive that is a file |
| WrapWorld.FirstEmpty | mesonbuild/wrap/wrap.py:327-331 | the read loop stops at the first empty block: every block before it is non-empty |
| WrapProperties.SubmoduleTable | mesonbuild/wrap/wrap.py:196-226 | the result for every kind of `git submodule status` output: not a repository or not listed gives False; `+` gives True with a warning; `U` raises; `-` runs the init and gives True exactly when it succeeds; ` ` runs a checkout and gives True; empty gives False; anything else raises |
| WrapProperties.SubmoduleRunsOnlyGit | mesonbuild/wrap/wrap.py:196-226 | the submodule check runs at most three programs, all `git`, and opens no URL |
| WrapProperties.GitTailSteps | mesonbuild/wrap/wrap.py:258-266 | the submodule update runs exactly when `clone-recursive` lowercases to `true`, and `set-url --push` exactly when `push-url` is non-empty |
| WrapProperties.GitFinishRunsTail | mesonbuild/wrap/wrap.py:280-288 | a successful end of a git branch has run exactly those tail commands |
| WrapProperties.ShallowCommitCommands | mesonbuild/wrap/wrap.py:248-266 | a shallow fetch of a full commit id runs exactly `init`, `remote add`, `fetch --depth`, `checkout`, then the tail |
| WrapProperties.ShallowFetchCommands | mesonbuild/wrap/wrap.py:250-257 | after `init`, the shallow fetch adds the remote, fetches with the depth, checks out and finishes, stopping at the first failure |
| WrapProperties.FullCloneRetryCommands | mesonbuild/wrap/wrap.py:272-274 | a failed `checkout` after a full clone is followed by `fetch` and a second `checkout` |
| WrapProperties.FullCloneCommands | mesonbuild/wrap/wrap.py:268-274 | a non-shallow clone runs `clone`, then the tail if the revision lowercases to `head`; otherwise a `checkout` whose exit status, on the world the clone left, decides the rest: status 0 goes straight to the tail, any other status runs `fetch <url> <revision>` and a second `checkout` first |
| WrapProperties.ShallowRefCommands | mesonbuild/wrap/wrap.py:276-288 | a shallow clone of a named ref runs a single `clone --depth --branch`, then the tail |
| WrapProperties.GetGitCommands | mesonbuild/wrap/wrap.py:240-288 | a successful `get_git` ran exactly one of the command sequences, chosen by whether `depth` is set, whether the revision is a full commit id or `head`, and (for a full clone) the exit status of the first `checkout` |
| WrapProperties.GetHgCommands | mesonbuild/wrap/wrap.py:296-302 | `get_hg` clones, then checks out exactly when the revision does not lowercase to `tip` |
| WrapProperties.GetSvnCommands | mesonbuild/wrap/wrap.py:304-307 | `get_svn` runs exactly one `checkout -r <revision>` |
| WrapProperties.GetDataWritesPayload | mesonbuild/wrap/wrap.py:309-347 | the temp file holds exactly the blocks read before the first empty one, and the digest is their hash |
| WrapProperties.UnreachableUrlLeavesTempFile | mesonbuild/wrap/wrap.py:312-319 | a URL that cannot be opened leaves behind the empty temp file created before it |
| WrapProperties.DownloadChecksModeFirst | mesonbuild/wrap/wrap.py:358-359 | in `nodownload` mode `download` fails before doing anything |
| WrapProperties.DownloadRenamesOnlyOnMatch | mesonbuild/wrap/wrap.py:358-367 | the temp file becomes `ofname` only when its digest is the declared hash; a fetched payload whose digest differs from the declared hash always fails with `IncorrectHash` naming the declared and the actual digest, with the temp file removed and the filesystem as it was; a payload whose digest matches is renamed exactly when `ofname`'s directory exists and `ofname` is not a directory, and a failed rename raises leaving the temp file, holding the payload, behind |
| WrapProperties.CacheHitIsVerified | mesonbuild/wrap/wrap.py:369-376 | an existing cache entry is re-hashed and returned without downloading; a mismatch raises naming both digests |
| WrapProperties.CacheMissDownloads | mesonbuild/wrap/wrap.py:378-381 | on a cache miss the cache directory is created when missing, and the download decides the rest |
| WrapProperties.CachedFileHasDeclaredHash | mesonbuild/wrap/wrap.py:369-381 | whatever path the cache returns is a file whose digest is the declared `<what>_hash` |
| WrapProperties.CacheNoDownloadOpensNoUrl | mesonbuild/wrap/wrap.py:369-381 | in `nodownload` mode the cache opens no URL |
| WrapProperties.GetFileNoDownloadOpensNoUrl | mesonbuild/wrap/wrap.py:228-238 | in `nodownload` mode fetching a `file` wrap, with its patch, opens no URL |
| WrapProperties.CopyFileOverwrites | mesonbuild/wrap/wrap.py:401-409 | one file of `copy_tree` replaces the destination file, read-only or not, with the source's contents and permission; it fails only when a directory is in the way |
| WrapProperties.CopyFilesOverlay | mesonbuild/wrap/wrap.py:397-409 | one walked directory is overlaid onto the destination: every listed file's destination holds that source file, and nothing else changes |
| WrapProperties.FlatCopyTreeOverlays | mesonbuild/wrap/wrap.py:392-409 | `copy_tree` of a tree whose files all sit in its top directory succeeds; each file lands under its name in the destination, and nothing else changes |
| WrapProperties.ApplyPatchFallsBackToCopy | mesonbuild/wrap/wrap.py:383-390 | the patch archive is the cache file with the declared `patch_hash`; a direct unpack over the subproject is the whole effect when it succeeds; otherwise the archive is unpacked into a fresh temporary directory, that directory is copied over the subproject with `copy_tree`, and it is removed whatever the unpack and the copy did |
| WrapProperties.FlatPatchOverlays | mesonbuild/wrap/wrap.py:383-390 | a flat patch that cannot be unpacked in place still patches the subproject: the result is success, each patch file is at its name under the subproject root, every other path outside the temporary directory is as the unpack left it, and the temporary directory is gone |
| WrapProperties.GetFileUnpacksThenPatches | mesonbuild/wrap/wrap.py:228-238 | with `lead_directory_missing` a new `<dirname>` is created (an existing path or a missing parent raises) and the source archive is unpacked into it, otherwise into the subproject root; after a successful unpack the patch is applied exactly when the manifest declares one, and otherwise the unpack is the whole effect |
| WrapProperties.FetchTable | mesonbuild/wrap/wrap.py:153-173 | an existing directory is used as it is and never fetched into; an existing non-directory raises; with no manifest `WrapNotFoundException` is raised; `file` fetches from the cache; other types check the download mode first; an unknown type raises |
| WrapProperties.FetchNoDownload | mesonbuild/wrap/wrap.py:153-173 | in `nodownload` mode the fetch step opens no URL and runs no program |
| WrapProperties.ResolveNoDownloadOpensNoUrl | mesonbuild/wrap/wrap.py:127-182 | in `nodownload` mode `resolve` opens no URL and runs nothing besides the submodule check's git commands |
| WrapProperties.ResolveEarlyExit | mesonbuild/wrap/wrap.py:144-148 | when the method's descriptor already exists, `resolve` returns the directory name and changes nothing |
| WrapProperties.ResolveSuccess | mesonbuild/wrap/wrap.py:127-182 | a successful `resolve` had a supported method, returns the manifest's bare `directory` or the package name, and the descriptor exists under it |
| WrapProperties.ObtainSuccess | mesonbuild/wrap/wrap.py:149-182 | a successful fetch returns the directory name, and the descriptor is then present |
| WrapProperties.ResolveRejections | mesonbuild/wrap/wrap.py:133-142 | a `directory` that is a path, and a method other than `meson` or `cmake`, are rejected before anything runs |
| WrapProperties.ResolveIdempotent | mesonbuild/wrap/wrap.py:127-182 | a second `resolve` after a successful one returns the same name and changes nothing, provided the manifest file is unchanged |
| WrapResolver.Host.QuietGit | mesonbuild/wrap/wrap.py:54-62 | the host changes exactly as `quiet_git` on the world value says |
| WrapResolver.Resolver.constructor | mesonbuild/wrap/wrap.py:122-125 | a resolver starts with its root and mode and no manifest |
| WrapResolver.Resolver.LoadWrap | mesonbuild/wrap/wrap.py:183-187 | loads the manifest as `WrapSpec.LoadWrap` does |
| WrapResolver.Resolver.CheckCanDownload | mesonbuild/wrap/wrap.py:189-194 | refuses exactly in `nodownload` mode |
| WrapResolver.Resolver.ResolveGitSubmodule | mesonbuild/wrap/wrap.py:196-226 | result and host state are those of `WrapSpec.ResolveGitSubmodule` |
| WrapResolver.Resolver.FinishGit | mesonbuild/wrap/wrap.py:258-266 | runs the recursive-submodule and push-URL tail as `GitFinish` says |
| WrapResolver.Resolver.GetGit | mesonbuild/wrap/wrap.py:240-288 | result and host state are those of `WrapSpec.GetGit` |
| WrapResolver.Resolver.GetHg | mesonbuild/wrap/wrap.py:296-302 | result and host state are those of `WrapSpec.GetHg` |
| WrapResolver.Resolver.GetSvn | mesonbuild/wrap/wrap.py:304-307 | result and host state are those of `WrapSpec.GetSvn` |
| WrapResolver.Resolver.GetData | mesonbuild/wrap/wrap.py:309-347 | the block loop, which feeds each block to the hash and the temp file, gives the result and state of `WrapSpec.GetData` |
| WrapResolver.Resolver.CheckHash | mesonbuild/wrap/wrap.py:349-356 | the result of `WrapSpec.CheckHash` |
| WrapResolver.Resolver.Download | mesonbuild/wrap/wrap.py:358-367 | result and host state are those of `WrapSpec.Download` |
| WrapResolver.Resolver.GetFileInternal | mesonbuild/wrap/wrap.py:369-381 | result and host state are those of `WrapSpec.GetFileInternal` |
| WrapResolver.Resolver.ReplaceFile | mesonbuild/wrap/wrap.py:401-409 | one file of `copy_tree`, as `CopyFile` says; only the filesystem changes |
| WrapResolver.Resolver.CopyTree | mesonbuild/wrap/wrap.py:392-409 | the walk loop gives the result and filesystem of `WrapSpec.CopyTree`; only the filesystem changes |
| WrapResolver.Resolver.CopyFilesInto | mesonbuild/wrap/wrap.py:400-409 | the inner loop gives the result and filesystem of `CopyFiles` |
| WrapResolver.Resolver.ApplyPatch | mesonbuild/wrap/wrap.py:383-390 | result and host state are those of `WrapSpec.ApplyPatch` |
| WrapResolver.Resolver.GetFile | mesonbuild/wrap/wrap.py:228-238 | result and host state are those of `WrapSpec.GetFile` |
| WrapResolver.Resolver.FetchIfMissing | mesonbuild/wrap/wrap.py:153-173 | result and host state are those of `Fetch` |
| WrapResolver.Resolver.Resolve | mesonbuild/wrap/wrap.py:127-182 | result and host state are those of `WrapSpec.Resolve`; on success `directory` is the returned name and `dirname` is it joined to the root |
| WrapResolver.Resolver.Obtain | mesonbuild/wrap/wrap.py:149-182 | result and host state are those of `WrapSpec.Obtain`; on success the directory name is returned |
| CMakeNames.TargetKeyInjective | mesonbuild/cmake/interpreter.py:132-133 | two targets share a `_target_key` exactly when their names are equal |
| CMakeNames.KeysDisjoint | mesonbuild/cmake/interpreter.py:132-136 | a target key never equals a generated-file key |
| CMakeNames.GeneratedFileKeyIff | mesonbuild/cmake/interpreter.py:135-136 | two files share a `_generated_file_key` exactly when their basenames agree |
| CMakeNames.ReplaceDashes | mesonbuild/cmake/interpreter.py:176 | `replace('-', '_')` changes every dash, and only dashes, keeping the length |
| CMakeNames.MesonNameShape | mesonbuild/cmake/interpreter.py:176-177 | a converted name starts with `cm_`, holds no dash and is three characters longer than the CMake name |
| CMakeNames.ListedName | mesonbuild/cmake/interpreter.py:1112-1117 | the `cm_` prefix is stripped from exactly the names that carry it |
| CMakeNames.ListedMesonName | mesonbuild/cmake/interpreter.py:1112-1117 | listing a converted target gives back its CMake name with dashes replaced, and exactly its CMake name when it had no dash |
| CMakeOutputs.Decimal | mesonbuild/cmake/interpreter.py:485 | `str(n)` is a non-empty string of digits |
| CMakeOutputs.DecimalInjective | mesonbuild/cmake/interpreter.py:485 | different counter values are written differently |
| CMakeOutputs.Renamed | mesonbuild/cmake/interpreter.py:485 | `c<N>_<name>` is longer than the name and adds no separator |
| CMakeOutputs.RenamedInjective | mesonbuild/cmake/interpreter.py:485 | a renamed output determines its counter and its original name |
| CMakeOutputs.Rename | mesonbuild/cmake/interpreter.py:481-490 | the renaming loop keeps the number of outputs, appends exactly the new outputs to the shared list and never moves the counter back |
| CMakeOutputs.RenameKeeps | mesonbuild/cmake/interpreter.py:482-489 | an output keeps its name exactly when that name is not yet on the shared list, counting this target's earlier outputs |
| CMakeOutputs.RenameCounter | mesonbuild/cmake/interpreter.py:486 | the counter moves on by one per renamed output |
| CMakeOutputs.RenameTag | mesonbuild/cmake/interpreter.py:484-487 | each renamed output is `c<N>_<old>`, with `N` the counter value reached after the outputs before it |
| CMakeOutputs.CounterMonotone | mesonbuild/cmake/interpreter.py:481-490 | the shared counter never moves back as the loop goes on |
| CMakeOutputs.RenamedDistinct | mesonbuild/cmake/interpreter.py:481-490 | two outputs renamed in one pass never share a name |
| CMakeOutputs.RenameRedirects | mesonbuild/cmake/interpreter.py:487 | every old name leads to one of the new outputs, through the conflict map when it was renamed and as itself otherwise |
| CMakeOutputs.RenameBare | mesonbuild/cmake/interpreter.py:481-490 | renaming bare file names yields bare file names |
| CMakeOutputs.RenameCanCollide | mesonbuild/cmake/interpreter.py:481-490 | a renamed name is not checked against the list: with `c0_a` listed, outputs `a`, `a` make the list `c0_a`, `a`, `c0_a` |
| CMakeFlags.MesonLanguage | mesonbuild/cmake/interpreter.py:181 | a CMake language maps to a language Meson knows, and an unknown one to `c` |
| CMakeFlags.MesonLanguageIgnoresCase | mesonbuild/cmake/interpreter.py:139 | the language lookup ignores letter case |
| CMakeFlags.MesonLanguageInvertsLanguageMap | mesonbuild/cmake/interpreter.py:139 | every Meson language of `language_map` maps to its CMake name and back to itself |
| CMakeFlags.Upper | mesonbuild/cmake/interpreter.py:386 | the ASCII part of `str.upper()`: each ASCII small letter becomes its capital, every other character is kept, and the length is kept; exact for ASCII input only |
| CMakeFlags.MesonFunc | mesonbuild/cmake/interpreter.py:385-386 | `target_type_map.get(type.upper())`: `INTERFACE_LIBRARY` exactly gives `header_only`, `STATIC_LIBRARY` and `OBJECT_LIBRARY` give `static_library`, and exactly the six known types give a function |
| CMakeFlags.StdValueRoundTrip | mesonbuild/cmake/interpreter.py:205 | a standard written after `-std=`, `--std=`, `/std:`, `/std:v`, `-std:` or `--std:` is read back unchanged |
| CMakeFlags.Classify | mesonbuild/cmake/interpreter.py:214-223 | a flag is a standard exactly when the std pattern matches; otherwise position-independence exactly when it is one of the four `-fPIC`/`-fpic`/`-fPIE`/`-fpie`; otherwise blacklisted exactly when listed; only what is none of these is kept |
| CMakeFlags.FlagFilterComplete | mesonbuild/cmake/interpreter.py:209-225 | a flag is kept exactly when it is kept by the classification; every standard flag yields its `<lang>_std=` override; a position-independence flag sets `pie` |
| CMakeFlags.StdOverridesSound | mesonbuild/cmake/interpreter.py:215-217 | every override names the language and comes from a standard flag of that language |
| CMakeFlags.RmSoVersion | mesonbuild/cmake/interpreter.py:140 | `rm_so_version.sub` removes the leftmost version tail `(\.[0-9]+)+` running to the end, and only that |
| CMakeFlags.RmSoVersionNoTail | mesonbuild/cmake/interpreter.py:140 | a name with no version tail is left alone |
| CMakeFlags.LinkCandidates | mesonbuild/cmake/interpreter.py:247-255 | the candidates are the basename, the basename without version tail, then one per matching library suffix |
| CMakeFlags.SuffixCandidates | mesonbuild/cmake/interpreter.py:249-255 | each suffix candidate is the unversioned stem plus a library suffix the basename ends with |
| CMakeFlags.FirstHit | mesonbuild/cmake/interpreter.py:256-259 | the value of the first candidate the map knows, or None exactly when it knows none |
| CMakeFlags.ResolveExactBasename | mesonbuild/cmake/interpreter.py:246-259 | a library whose file name is a known output resolves to that output's target |
| CMakeFlags.ResolveUnversioned | mesonbuild/cmake/interpreter.py:246-259 | a versioned shared library resolves to the unversioned output when the exact name is unknown |
| CMakeConverter.Dedup | mesonbuild/cmake/interpreter.py:378 | `list(set(s))` holds each element of `s` once and nothing else |
| CMakeConverter.IndexOf | mesonbuild/cmake/interpreter.py:550 | `list.index` gives the first position of the element, or fails exactly when it is absent |
| CMakeConverter.AddNewKeepsExisting | mesonbuild/cmake/interpreter.py:187-190 | the existing flags stay a prefix, a flag already present is not added again, and every new argument ends up present |
| CMakeConverter.PrefixEach | mesonbuild/cmake/interpreter.py:189 | each define `x` becomes `-Dx` (and each suffix `s` becomes `.s`), in order, one for one |
| CMakeConverter.IncludePaths | mesonbuild/cmake/interpreter.py:193-194 | every include of the requested kind (system or not) contributes its path, and every path listed is the path of an include of that kind |
| CMakeConverter.GroupsLanguagesDistinct | mesonbuild/cmake/interpreter.py:179-185 | each language is recorded once, and exactly the recorded languages have a compile-option list |
| CMakeConverter.GroupsLanguages | mesonbuild/cmake/interpreter.py:179-183 | every file group's Meson language is recorded, and nothing else is |
| CMakeConverter.LanguagesKnown | mesonbuild/cmake/interpreter.py:181 | every recorded language is one Meson knows |
| CMakeConverter.CollectGroups | mesonbuild/cmake/interpreter.py:179-200 | the constructor's loop over the file groups computes the languages, options, includes and sources of the `Groups` fold |
| CMakeConverter.FilteredOptsSpec | mesonbuild/cmake/interpreter.py:209-225 | after the flag pass, `c` and `cpp` hold exactly their kept flags in order, and every other language is untouched |
| CMakeConverter.SplitLinkLibrariesKept | mesonbuild/cmake/interpreter.py:261-273 | a library stays in `link_libraries` exactly when it holds no `,-rpath,` and is absolute or resolves to no target |
| CMakeConverter.SplitLinkLibrariesLinked | mesonbuild/cmake/interpreter.py:261-273 | every relative library that resolves has its target in `link_with`, and `link_with` holds nothing else |
| CMakeConverter.RelPath | mesonbuild/cmake/interpreter.py:284-297 | `rel_path` drops a path exactly when it is missing, not an object file and not generated; otherwise it is made relative to the build or source tree |
| CMakeConverter.RelPaths | mesonbuild/cmake/interpreter.py:310-313 | `rel_path` applied to each element |
| CMakeConverter.Somes | mesonbuild/cmake/interpreter.py:318-322 | removing `None` entries keeps every present value and adds nothing |
| CMakeConverter.IncludeDirsSpec | mesonbuild/cmake/interpreter.py:309-326 | the include directories are duplicate-free, always hold `.` and the build directory, and otherwise hold exactly the resolved directories |
| CMakeConverter.TargetKeyHitsSpec | mesonbuild/cmake/interpreter.py:344-348 | every `depends_raw` entry whose target key is in the map adds its target, and nothing else is added |
| CMakeConverter.CustomTargetOf | mesonbuild/cmake/interpreter.py:299-307 | a file with no generated-file key stays a path; a key of a custom target whose `get_ref` succeeds gives that valid reference; any other key fails the assertion |
| CMakeConverter.CustomTargetsOfSpec | mesonbuild/cmake/interpreter.py:316 | resolving the generated list succeeds exactly when every element resolves, and then yields each element's resolution in place |
| CMakeConverter.GeneratedPaths | mesonbuild/cmake/interpreter.py:352 | the path entries among `generated`, all of them when every entry is a path |
| CMakeConverter.RelGenerated | mesonbuild/cmake/interpreter.py:313 | a generated path is never dropped by `rel_path` |
| CMakeConverter.ConverterTarget.constructor | mesonbuild/cmake/interpreter.py:142-200 | the Meson name, the copied target fields, the first install path, and the languages, options, includes and sources gathered from the file groups |
| CMakeConverter.ConverterTarget.FilterLanguageFlags | mesonbuild/cmake/interpreter.py:209-225 | one language's flags become the kept ones, its standard overrides are appended, and `pie` is set when a position-independence flag was seen |
| CMakeConverter.ConverterTarget.FilterCompileFlags | mesonbuild/cmake/interpreter.py:208-229 | after the flag pass `c` and `cpp` hold only kept flags; overrides and `pie` follow from the old options, and `OBJECT_LIBRARY` forces `pie` |
| CMakeConverter.ConverterTarget.ResolveLinkLibraries | mesonbuild/cmake/interpreter.py:261-273 | `link_libraries` becomes the kept libraries, none holding `,-rpath,`, and the resolved targets are appended to `link_with` |
| CMakeConverter.ConverterTarget.FilterFlagsAndTrace | mesonbuild/cmake/interpreter.py:208-243 | the flag pass, then the trace pass: a target the trace knows takes its `depends` from it, and an interface library also appends its include directories, compile definitions and options, and link options |
| CMakeConverter.ConverterTarget.ResolveLinksAndSources | mesonbuild/cmake/interpreter.py:261-281 | the link-library pass, then only sources and generated files with a suffix of one of the target's languages are kept |
| CMakeConverter.ConverterTarget.MakePathsRelative | mesonbuild/cmake/interpreter.py:283-326 | the include directories, system includes, sources, generated files and exception become those the path pass computes from the old ones |
| CMakeConverter.PathPassKeepsDot | mesonbuild/cmake/interpreter.py:309-326 | after the path pass `.` is an include directory and no directory is listed twice |
| CMakeConverter.ConverterTarget.AddExplicitDependencies | mesonbuild/cmake/interpreter.py:344-348 | `depends` gains exactly the map hits for `_target_key` of each `depends_raw` entry |
| CMakeConverter.ConverterTarget.PostprocessFlags | mesonbuild/cmake/interpreter.py:207-281 | the eleven fields the flag, trace, link-library and source passes write become those of `PostprocessFlagsSpec` applied to the old state; the frame keeps the rest |
| CMakeConverter.ConverterTarget.PostprocessPaths | mesonbuild/cmake/interpreter.py:283-348 | the path pass's four fields and its exception; unless it raised, the install directory made relative, blacklisted libraries and flags removed, and the output-map hits of `depends_raw` appended to `depends`; after a raise those fields are unchanged |
| CMakeConverter.PostprocessFlagsSpecProperties | mesonbuild/cmake/interpreter.py:207-281 | after the first half no C or C++ option the filter drops is left, an object library has `pie`, no `,-rpath,` library is left, and the languages, object libraries and `depends` are untouched |
| CMakeConverter.PostprocessPathsSpecProperties | mesonbuild/cmake/interpreter.py:283-348 | the second half never adds a link library and leaves options, `pie`, languages and object libraries alone; unless it raised, `.` is an include, the includes are duplicate-free, no blacklisted library or flag is left and `depends` grew by exactly the output-map hits |
| CMakeConverter.PostprocessSpecProperties | mesonbuild/cmake/interpreter.py:207-348 | all `postprocess` guarantees together: only kept flags, `pie` for object libraries, no run-path entry, and, unless the path pass raised, `.` among the includes, no blacklisted library or flag, and `depends` grown by the hits of the trace's dependencies |
| CMakeConverter.ConverterTarget.ProcessObjectLibs | mesonbuild/cmake/interpreter.py:350-365 | the object libraries whose sources produced one of the generated object files are recorded and those files dropped; the first object library with a custom-target reference among its sources raises `TypeError`, leaving `generated` as it was and `object_libs` extended by the matches found in the libraries before it |
| CMakeConverter.ConverterTarget.ProcessInterTargetDependencies | mesonbuild/cmake/interpreter.py:367-378 | `depends` becomes duplicate-free and holds exactly the non-header-only members of the least set that contains the old dependencies and is closed under header-only dependencies |
| CMakeConverter.ConverterTarget.CleanupDependencies | mesonbuild/cmake/interpreter.py:380-383 | a header-only target's `depends` is emptied; any other target's is unchanged |
| CMakeConverter.SourceNames | mesonbuild/cmake/interpreter.py:358 | the basenames of the sources and generated files; fails exactly when a generated entry is a reference |
| CMakeConverter.ObjectLibScanRaises | mesonbuild/cmake/interpreter.py:357-362 | once an object library holds a custom-target reference, the scan raises |
| CMakeConverter.ObjectLibScanRaiseIff | mesonbuild/cmake/interpreter.py:357-362 | the scan raises exactly when some object library has a reference among its generated sources |
| CMakeConverter.ObjectLibScanComplete | mesonbuild/cmake/interpreter.py:357-362 | every object library that built one of the object files is recorded |
| CMakeConverter.ObjectLibScanSound | mesonbuild/cmake/interpreter.py:357-362 | only object libraries that built one of the object files are recorded |
| CMakeConverter.NotProcessed | mesonbuild/cmake/interpreter.py:374 | the dependencies not yet processed, and all of them |
| CMakeConverter.MeasureStep | mesonbuild/cmake/interpreter.py:371-377 | the work list terminates even though it grows: each step lowers the unprocessed count or the count of stale entries |
| CMakeConverter.Added | mesonbuild/cmake/interpreter.py:373-374 | a header-only target adds its dependencies not yet processed; any other entry adds nothing |
| CMakeConverter.WorkListDone | mesonbuild/cmake/interpreter.py:371-377 | an exhausted work list is closed, lies in every closed set, and its kept entries are exactly its non-header-only members |
| CMakeConverter.TransferDependencies | mesonbuild/cmake/interpreter.py:369-378 | the loop returns exactly the non-header-only dependencies of the least closed set over the target's dependencies |
| CMakeConverter.Counters.constructor | mesonbuild/cmake/interpreter.py:429-430 | both shared counters start at 0 |
| CMakeConverter.Basenames | mesonbuild/cmake/interpreter.py:439 | the outputs are kept by their basenames, in order |
| CMakeConverter.EnsureAbsolute | mesonbuild/cmake/interpreter.py:471-475 | an absolute output is kept; a relative one is taken relative to the build directory |
| CMakeConverter.EnsureAbsolutes | mesonbuild/cmake/interpreter.py:476 | `ensure_absolute` applied to each original output |
| CMakeConverter.WorkingDir | mesonbuild/cmake/interpreter.py:460-466 | an absolute working directory is kept, an empty one becomes the build directory (joined onto itself when the build directory is relative), and a relative one is joined to the build directory |
| CMakeConverter.ResolveWords | mesonbuild/cmake/interpreter.py:494-507 | a resolved command line never grows, and every word in it is resolved |
| CMakeConverter.ResolveWordsComplete | mesonbuild/cmake/interpreter.py:494-507 | every non-empty word shows up, resolved to its target when its target key is in the map |
| CMakeConverter.ResolveWordsSound | mesonbuild/cmake/interpreter.py:494-507 | every word of the new line is the resolution of a word of the old one |
| CMakeConverter.ResolveWordsFixed | mesonbuild/cmake/interpreter.py:494-507 | a line whose words are all resolved is left unchanged |
| CMakeConverter.ResolveWordsIdempotent | mesonbuild/cmake/interpreter.py:493-508 | resolving a command a second time changes nothing |
| CMakeConverter.ResolveCommand | mesonbuild/cmake/interpreter.py:493-508 | the number of command lines is kept and each line is resolved |
| CMakeConverter.DependRoute | mesonbuild/cmake/interpreter.py:516-531 | a dependency entry becomes a dependency on a mapped target, an input reference to a custom target's output, or an input path; an entry naming a build target's generated file raises `AttributeError` |
| CMakeConverter.CollectDepends | mesonbuild/cmake/interpreter.py:516-531 | the dependency loop only appends, and once it has raised nothing changes |
| CMakeConverter.CollectDependsRaises | mesonbuild/cmake/interpreter.py:516-531 | the pass raises exactly when some entry raises, and then with the first such entry's error |
| CMakeConverter.CollectDependsComplete | mesonbuild/cmake/interpreter.py:516-531 | when the pass succeeds every dependency and input an entry calls for is gathered |
| CMakeConverter.CollectDependsSound | mesonbuild/cmake/interpreter.py:516-531 | nothing is gathered that no entry called for |
| CMakeConverter.CollectDependsStops | mesonbuild/cmake/interpreter.py:516-531 | after the entry that raises, later entries change nothing |
| CMakeConverter.ConverterCustomTarget.constructor | mesonbuild/cmake/interpreter.py:432-449 | an unnamed command is named `custom_tgt_<N>` and the shared counter moves on; the Meson name replaces dashes and adds `cm_`; outputs are kept by basename |
| CMakeConverter.ConverterCustomTarget.GetRef | mesonbuild/cmake/interpreter.py:546-552 | after the conflict-map redirect, a valid reference to the first output equal to the file's basename, or None exactly when no output has it |
| CMakeConverter.ConverterCustomTarget.MakeAbsolute | mesonbuild/cmake/interpreter.py:460-476 | the working directory and the original outputs are made absolute against the build directory |
| CMakeConverter.ConverterCustomTarget.RenameOutputs | mesonbuild/cmake/interpreter.py:481-490 | the outputs, shared list, shared counter and conflict map become those of the renaming fold |
| CMakeConverter.ConverterCustomTarget.ResolveCommands | mesonbuild/cmake/interpreter.py:493-508 | the command becomes its resolution |
| CMakeConverter.ConverterCustomTarget.ResolveDepends | mesonbuild/cmake/interpreter.py:516-531 | inputs, dependencies and error are those of the dependency fold over the entries |
| CMakeConverter.ConverterCustomTarget.Postprocess | mesonbuild/cmake/interpreter.py:454-531 | working directory and outputs absolute, outputs renamed, command resolved, a `<name>.h` dummy output when none is left, then dependencies and inputs gathered |
| CMakeConverter.ConverterCustomTarget.ProcessInterTargetDependencies | mesonbuild/cmake/interpreter.py:533-544 | the same least-closed-set transfer as the build target's |
| CMakeConverter.ResolveLine | mesonbuild/cmake/interpreter.py:494-507 | the inner loop computes the resolved line |
| CMakeConverter.GatherDepends | mesonbuild/cmake/interpreter.py:516-531 | the loop, which stops at the first exception, computes the dependency fold |
| CMakeConverter.RenamedOutputsResolve | mesonbuild/cmake/interpreter.py:546-552 | after renaming, every former output name still leads `get_ref` to an output |
| CMakeEmit.PyIndex | mesonbuild/cmake/interpreter.py:425-426 | `outputs[index]` is defined exactly for `-len <= index < len`, and is then an output |
| CMakeEmit.CustomDependSteps | mesonbuild/cmake/interpreter.py:936-941 | a build target visits exactly the custom targets among its `depends` |
| CMakeEmit.GeneratedSteps | mesonbuild/cmake/interpreter.py:944-953 | each reference among the generated sources visits its custom target and then reads its file name; a reference without a target raises `AttributeError` |
| CMakeEmit.GeneratedAbortSound | mesonbuild/cmake/interpreter.py:944-953 | the generated sources raise only because of a reference without a target |
| CMakeEmit.WordSteps | mesonbuild/cmake/interpreter.py:1074-1075 | every target word of a command line is visited |
| CMakeEmit.CommandSteps | mesonbuild/cmake/interpreter.py:1074-1075 | a custom command only visits targets |
| CMakeEmit.InputSteps | mesonbuild/cmake/interpreter.py:1078 | every input reference with a custom target gives a step visiting that target, and one without a target gives an `AttributeError` step; every visit comes from such a reference; there are no more steps than inputs, and some step whenever an input is a reference |
| CMakeEmit.InputStepsNoRefs | mesonbuild/cmake/interpreter.py:1078 | paths and `None` inputs add no step: inputs without references give none at all |
| CMakeEmit.Plan | mesonbuild/cmake/interpreter.py:926-953 | a file-name step only occurs for a build target's reference to one of its generated custom-target outputs |
| CMakeEmit.PlanAbortSound | mesonbuild/cmake/interpreter.py:926-953 | a build target's steps raise only on a link target that is a custom target or a reference without a target |
| CMakeEmit.PlanAbortComplete | mesonbuild/cmake/interpreter.py:926-953 | a custom link target, or a reference without a target, makes a build target's steps raise |
| CMakeEmit.BuildVars | mesonbuild/cmake/interpreter.py:975-1037 | a header-only target has no source or target variable; every build target has `<name>_inc`; only header-only, static and shared libraries have a dependency variable |
| CMakeEmit.Emitter.constructor | mesonbuild/cmake/interpreter.py:889-891 | `processing`, `processed` and `name_map` start empty |
| CMakeEmit.Emitter.Visit | mesonbuild/cmake/interpreter.py:903-1086 | a target already being processed raises a cycle and changes nothing; otherwise, on success, everything it visits was processed before it and it is recorded last with its variables; a build target also had a known type and no unresolvable header, and its CMake name maps to it |
| CMakeEmit.Emitter.Start | mesonbuild/cmake/interpreter.py:903-906 | `detect_cycle` appends the name; then the steps, checks and record follow, and the target ends up last in the order |
| CMakeEmit.Emitter.Proceed | mesonbuild/cmake/interpreter.py:915-1038 | the steps of a started target, then its checks and its record |
| CMakeEmit.Emitter.Finish | mesonbuild/cmake/interpreter.py:955-1038 | after the steps, a build target with an unresolvable header raises, then one with an unknown type; otherwise the target is recorded |
| CMakeEmit.Emitter.TakeAll | mesonbuild/cmake/interpreter.py:926-953 | the steps run in order and stop at the first that raises; on success every step is done |
| CMakeEmit.Emitter.Record | mesonbuild/cmake/interpreter.py:1037-1038 | `processed` gains the target's variables, the order gains its name, and a build target's CMake name is mapped to it |
| CMakeEmit.Emitter.Take | mesonbuild/cmake/interpreter.py:926-953 | one step: an unprocessed target is processed, a file name is looked up (an index out of range raises), and a failed check raises |
| CMakeEmit.Emitter.Emit | mesonbuild/cmake/interpreter.py:1088-1097 | on success every custom and build target is recorded, and exactly the started targets are recorded |
| CMakeEmit.Emitter.EmitEach | mesonbuild/cmake/interpreter.py:1088-1093 | one emission loop processes each target of the list not yet processed |
| CMakeEmit.Emitter.TargetInfo | mesonbuild/cmake/interpreter.py:1099-1110 | the `cm_`-prefixed exact match wins, then the name map; nothing is found exactly when neither knows the name; the assertion never fails in a valid table |
| CMakeEmit.Emitter.TargetList | mesonbuild/cmake/interpreter.py:1112-1117 | the recorded names, in recording order, with the `cm_` prefix stripped |
| CMakeEmit.Emitter.ListedInfo | mesonbuild/cmake/interpreter.py:1099-1117 | asking `target_info` for a listed name that carried the prefix gives back that target's variables |
| CCompilers.StdOption | mesonbuild/compilers/c.py:100-118 | the `std` option lists `none` first, as its default, with other choices; exactly the classes taking it from a mixin have none |
| CCompilers.ClangStdGates | mesonbuild/compilers/c.py:100-118 | Clang always offers the c89/c99/c11 family, `c17`/`gnu17` exactly from 6.0.0 and `c18`/`gnu18` exactly from 8.0.0 |
| CCompilers.GnuStdGates | mesonbuild/compilers/c.py:322-336 | GCC offers `c17`, `c18`, `gnu17` and `gnu18` exactly from 8.0.0 |
| CCompilers.IntelStdGate | mesonbuild/compilers/c.py:418-431 | Intel offers `c11` exactly from 16.0.0 |
| CCompilers.CompileArgs | mesonbuild/compilers/c.py:128-133 | `none` gives no flag and no standard gives more than two; only the mixin-defined classes have no table here |
| CCompilers.GnuStyleStdRoundTrip | mesonbuild/compilers/c.py:128-133 | for the GCC-style classes and XC16 a standard other than `none` gives a flag from which the CMake converter's std pattern (`CMakeFlags.StdValue`, interpreter.py:205) reads the standard back, up to its first line break; `none` gives no flag |
| CCompilers.EveryOfferedStdHasFlag | mesonbuild/compilers/c.py:499-506 | every offered standard other than `none` (and ICL's `c89`) produces at least one flag |
| CCompilers.LinkArgs | mesonbuild/compilers/c.py:135-138 | exactly the classes without a link method here give `Elsewhere`; a failed lookup is always of `winlibs`, on a class whose options do not declare it |
| CCompilers.LinkArgsComeFromWinlibs | mesonbuild/compilers/c.py:353-392 | the `winlibs` lookup fails exactly for Elbrus on Windows or Cygwin (it inherits the GCC method but its options never declare `winlibs`); Clang and GCC give `winlibs` on Windows or Cygwin and nothing otherwise; Elbrus gives nothing elsewhere; MSVC-like classes always give `winlibs`; Armclang gives nothing |
| CCompilers.WarnArgs | mesonbuild/compilers/c.py:94-98 | tables exist only for levels `0`-`3` and for the classes that install one |
| CCompilers.WarnLevelsNested | mesonbuild/compilers/c.py:94-98 | level 0 is empty; level 2 is level 1 plus `-Wextra`; level 3 adds `-Wpedantic`, except Intel's, which equals level 2 |
| CCompilers.IncludeArgs | mesonbuild/compilers/c.py:581-585 | one include argument |
| CCompilers.IncludeArgsNamePath | mesonbuild/compilers/c.py:581-585 | the argument is the vendor prefix and the path, with an empty path becoming `.`; the system flag does not change it |
| CCompilers.ScanKeysHit | mesonbuild/compilers/c.py:255-258 | scanning one tuple key sets the clang version exactly when the number is among its members |
| CCompilers.ScanLutUnchanged | mesonbuild/compilers/c.py:254-261 | once a clang version is assigned, no later key matches it |
| CCompilers.ScanLutIsLookup | mesonbuild/compilers/c.py:254-261 | the reassigning loop equals a first-match lookup |
| CCompilers.XcodeLutShape | mesonbuild/compilers/c.py:233-253 | every key is a digit string and no clang version is |
| CCompilers.MapXcodeClangVersionIsLookup | mesonbuild/compilers/c.py:189-262 | no tier finding a number gives None; a number listed under a key, alone or in a tuple, gives that key's version; any other number is returned unchanged |
| CCompilers.LookupFirstHit | mesonbuild/compilers/c.py:254-261 | the lookup answers with the first entry that lists the number |
| CCompilers.LookupMiss | mesonbuild/compilers/c.py:254-261 | a number no entry lists is returned unchanged |
| CCompilers.AppleClangVersion | mesonbuild/compilers/c.py:157-173 | the version is kept when neither `version_output` nor `full_version` is given |
| CCompilers.NewEmscripten | mesonbuild/compilers/c.py:265-273 | an Emscripten compiler is made exactly for a cross build |
| CCompilers.HasFunction | mesonbuild/compilers/c.py:396-403 | on Elbrus `lchmod` is reported absent without probing; every other name goes to the inherited probe |

## Left out

- Network, SSL and timeouts: a URL is an oracle that yields blocks or fails. The SSL-availability flag is taken to be set, so `open_wrapdburl` always tries `https` first. Its once-only stderr warnings and the progress bar are not modelled.
- WrapWorld.CheckCall, WrapWorld.Call, WrapWorld.QuietGit: a program that is not installed (`git`, `hg` or `svn` missing, `FileNotFoundError` from `subprocess`) is not modelled; the only start failure is a working directory that does not exist, so every other run starts and yields the oracle's status. In `quiet_git` a failed run's output is the oracle's, not specifically stderr.
- WrapCommon.Lower, CMakeFlags.Upper: case mapping is ASCII-only. Python's Unicode mappings are not modelled: `'\u212a'.lower()` is `'k'`, `'ſ'.upper()` is `'S'` and `'ß'.upper()` is `'SS'`, which changes the length. A library name or target type spelled with such characters is therefore treated differently than by the program.
- WrapSpec.ApplyPatch: a direct unpack that fails is modelled as leaving the subproject untouched; a partial extraction before the failure is not modelled.
- Subprocesses, archive extraction, INI parsing, `os.walk`, SHA-256 and temporary names are oracle parameters. A `copy2` copies contents and the writable bit only; other metadata is not modelled.
- `os.path` on `/`-separated strings. `normpath`, `commonpath` and `relpath` in the CMake converter are oracle parameters. Drive letters and backslashes are not modelled.
- Temporary-directory cleanup in `apply_patch` is modelled as removing the tree, with no failure of its own.
- Logging (`mlog`) and printed messages are not modelled.
- The `is_header` test used by `process_target` comes from `mesonbuild/compilers/compilers.py`, which is not part of this model. It is a parameter of the emitter.
- `CMakeInterpreter.analyse`, `configure`, `initialise`, the CMake trace parser and the file API client are not part of this model. The trace is an input map, and the output-target map and shared output list are parameters.
- The Meson AST that `pretend_to_be_meson` builds (function nodes, keyword arguments, `resolve_ctgt_ref` indexing). Only the traversal is modelled: its order, emit-once, the cycle check, the header and type checks, and the recorded variable names.
- `ConverterTarget.__init__` extends the CMake file group's own flag list in place (`args = i.flags; args += ...`). The model does not change its input.
- `CMakeConverter.Dedup`: `list(set(...))` leaves the order to the hash set. The model picks first-occurrence order, and contracts about it state membership and absence of duplicates only.
- `CMakeConverter.ConverterTarget.ProcessInterTargetDependencies` and `CMakeConverter.ConverterCustomTarget.ProcessInterTargetDependencies`: their contracts state the set of resulting dependencies and that it has no duplicates, not their order, for the same reason.
- Termination of the traversal and of the work list is argued over a ghost closed set of targets. Nothing in the program itself is bounded.
- `version_compare`, `coredata` option objects and the compiler mixins (`ClangCompiler`, `GnuCompiler`, the MSVC-like ones, PGI) are not part of this model. A class that takes a table from a mixin yields None.
- The regular-expression tiers of `map_xcode_clang_version` are three extraction functions passed in.
- `CCompilers.AppleClangVersion`: its contract only states the case with neither `version_output` nor `full_version`. The other cases follow by definition from `MapXcodeClangVersion`, whose lookup `CCompilers.MapXcodeClangVersionIsLookup` states.
- `ConverterTarget.postprocess` has no single method in the model. It is the method `PostprocessFlags` followed by `PostprocessPaths`, the order in which the source runs its passes, and `CMakeConverter.PostprocessSpec` composes the two halves as values. Proving the combined new state inside one method exceeds the verifier's resource bound.
- `sanity_check`, `has_header_symbol`, `get_pch_use_args` and the other compiler methods that run a compiler are not modelled.
