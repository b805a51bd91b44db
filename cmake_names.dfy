/**
 * Names used by the CMake-to-Meson converter: the private keys of the
 * output-target map, and the Meson-side name given to each CMake target.
 */
module CMakeNames {
  import opened WrapCommon

  const GeneratedTargetNamePrefix: string := "cm_"

  /** `_target_key`: the map key of a target, `__tgt_<name>__`. */
  function TargetKey(name: string): string {
    "__tgt_" + name + "__"
  }

  /** `_generated_file_key`: the map key of a generated file, `__gen_<basename>__`. */
  function GeneratedFileKey(fname: string): string {
    "__gen_" + Basename(fname) + "__"
  }

  /** Different targets never share a key. */
  lemma TargetKeyInjective(a: string, b: string)
    ensures TargetKey(a) == TargetKey(b) <==> a == b
  {
    WrapInjective("__tgt_", a, b, "__");
  }

  /** A target key and a generated-file key never collide: they differ in their third character. */
  lemma KeysDisjoint(name: string, fname: string)
    ensures TargetKey(name) != GeneratedFileKey(fname)
  {
    assert TargetKey(name)[2] == 't';
    assert GeneratedFileKey(fname)[2] == 'g';
  }

  lemma BasenameIdempotent(p: string)
    ensures Basename(Basename(p)) == Basename(p)
  {
    BasenameHasNoSlash(p);
  }

  /** Wrapping between a fixed prefix and suffix loses nothing. */
  lemma WrapInjective(pre: string, a: string, b: string, post: string)
    ensures pre + a + post == pre + b + post <==> a == b
  {
    if pre + a + post == pre + b + post {
      assert |a| == |b|;
      assert a == (pre + a + post)[|pre|..|pre| + |a|];
      assert b == (pre + b + post)[|pre|..|pre| + |b|];
    }
  }

  /** Two generated files get the same key exactly when their basenames agree, whatever their directories. */
  lemma GeneratedFileKeyIff(f: string, g: string)
    ensures GeneratedFileKey(f) == GeneratedFileKey(g) <==> Basename(f) == Basename(g)
    ensures GeneratedFileKey(Basename(f)) == GeneratedFileKey(f)
  {
    BasenameIdempotent(f);
    WrapInjective("__gen_", Basename(f), Basename(g), "__");
  }

  /** `name.replace('-', '_')`. */
  function ReplaceDashes(s: string): (r: string)
    ensures |r| == |s|
    ensures forall i :: 0 <= i < |s| ==> r[i] == if s[i] == '-' then '_' else s[i]
  {
    if s == [] then [] else [if s[0] == '-' then '_' else s[0]] + ReplaceDashes(s[1..])
  }

  /**
   * The Meson name of a CMake target: dashes become underscores and the
   * prefix `cm_` is added; the original name is kept beside it as
   * `cmake_name`.
   */
  function MesonName(cmakeName: string): string {
    GeneratedTargetNamePrefix + ReplaceDashes(cmakeName)
  }

  /** A Meson name is a valid identifier-like string: it carries the prefix and no dash. */
  lemma MesonNameShape(cmakeName: string)
    ensures StartsWith(MesonName(cmakeName), GeneratedTargetNamePrefix)
    ensures '-' !in MesonName(cmakeName)
    ensures |MesonName(cmakeName)| == |cmakeName| + 3
  {
    var m := MesonName(cmakeName);
    assert m[..3] == GeneratedTargetNamePrefix;
    forall i | 0 <= i < |m| ensures m[i] != '-' {
      if i >= 3 {
        assert m[i] == ReplaceDashes(cmakeName)[i - 3];
      }
    }
  }

  /** One entry of `target_list`: the `cm_` prefix is stripped from names that carry it, and only from those. */
  function ListedName(key: string): (r: string)
    ensures StartsWith(key, GeneratedTargetNamePrefix) ==> GeneratedTargetNamePrefix + r == key
    ensures !StartsWith(key, GeneratedTargetNamePrefix) ==> r == key
  {
    if StartsWith(key, GeneratedTargetNamePrefix) then key[|GeneratedTargetNamePrefix|..] else key
  }

  /** Listing a converted target gives back its CMake name with dashes replaced, and exactly its CMake name when it had no dash. */
  lemma ListedMesonName(cmakeName: string)
    ensures ListedName(MesonName(cmakeName)) == ReplaceDashes(cmakeName)
    ensures ListedName(MesonName(cmakeName)) == cmakeName <==> '-' !in cmakeName
  {
    MesonNameShape(cmakeName);
    var r := ReplaceDashes(cmakeName);
    assert ListedName(MesonName(cmakeName)) == r;
    if '-' in cmakeName {
      var i :| 0 <= i < |cmakeName| && cmakeName[i] == '-';
      assert r[i] == '_';
    } else {
      assert r == cmakeName;
    }
  }
}
