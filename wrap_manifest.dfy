/**
 * The wrap manifest (`<name>.wrap`): an INI file whose first section,
 * `[wrap-<type>]`, names the transport and holds its keys.  The INI text is
 * parsed by a library; here its result is an input: the sections in file
 * order, or None when the parser raised.
 */
module WrapManifest {
  import opened WrapCommon

  datatype Section = Section(name: string, entries: map<string, string>)

  datatype PackageDefinition = PackageDefinition(
    filename: string,
    basename: string,
    name: string,
    wrapSection: string,
    wrapType: string,
    values: map<string, string>)

  const WrapPrefix: string := "wrap-"

  /** Python's `s[:-5]`: all but the last five characters, or "" when shorter. */
  function DropLast5(s: string): (r: string)
    ensures |s| >= 5 ==> r + s[|s| - 5..] == s
    ensures |s| < 5 ==> r == ""
  {
    if |s| >= 5 then s[..|s| - 5] else ""
  }

  /** `PackageDefinition.__init__`: name from the file name, type and keys from the first section. */
  function Load(fname: string, parsed: Option<seq<Section>>): (r: Result<PackageDefinition>)
    ensures parsed.None? ==> r == Err(ParseFailed(Basename(fname)))
    ensures parsed.Some? && parsed.value == [] ==> r == Err(MissingSections(Basename(fname)))
    ensures parsed.Some? && parsed.value != [] && !StartsWith(parsed.value[0].name, WrapPrefix) ==>
      r == Err(InvalidFirstSection(parsed.value[0].name, Basename(fname)))
    ensures r.Ok? <==> parsed.Some? && parsed.value != [] && StartsWith(parsed.value[0].name, WrapPrefix)
    ensures r.Ok? ==>
      && r.value.filename == fname
      && r.value.basename == Basename(fname)
      && r.value.name == DropLast5(Basename(fname))
      && r.value.wrapSection == parsed.value[0].name
      && WrapPrefix + r.value.wrapType == parsed.value[0].name
      && r.value.values == parsed.value[0].entries
  {
    var basename := Basename(fname);
    if parsed.None? then Err(ParseFailed(basename))
    else if |parsed.value| < 1 then Err(MissingSections(basename))
    else
      var section := parsed.value[0];
      if !StartsWith(section.name, WrapPrefix) then Err(InvalidFirstSection(section.name, basename))
      else
        assert section.name == WrapPrefix + section.name[5..];
        Ok(PackageDefinition(fname, basename, DropLast5(basename), section.name, section.name[5..], section.entries))
  }

  /** A manifest file `<name>.wrap` yields the package name `<name>`. */
  lemma LoadedNameRoundTrip(fname: string, parsed: Option<seq<Section>>, name: string)
    requires Basename(fname) == name + ".wrap"
    requires Load(fname, parsed).Ok?
    ensures Load(fname, parsed).value.name == name
  {
    var b := Basename(fname);
    assert b[..|b| - 5] == name;
  }

  /** `get(key)`: the stored value, or an error naming the key and the manifest file. */
  function Get(pd: PackageDefinition, key: string): (r: Result<string>)
    ensures r.Ok? <==> key in pd.values
    ensures r.Ok? ==> r.value == pd.values[key]
    ensures r.Err? ==> r.error == MissingKey(key, pd.basename)
  {
    if key in pd.values then Ok(pd.values[key]) else Err(MissingKey(key, pd.basename))
  }

  /** `values.get(key, default)`, which never raises. */
  function GetOr(pd: PackageDefinition, key: string, default: string): string {
    if key in pd.values then pd.values[key] else default
  }

  predicate HasPatch(pd: PackageDefinition) {
    "patch_url" in pd.values
  }

  /**
   * Keys are read lazily: every key of the manifest's first section can be
   * read from the loaded definition, and any other key fails naming itself
   * and the file; a patch is declared exactly when `patch_url` can be read.
   */
  lemma GetAfterLoad(fname: string, sections: seq<Section>, key: string)
    requires Load(fname, Some(sections)).Ok?
    ensures var pd := Load(fname, Some(sections)).value;
      && (key in sections[0].entries ==> Get(pd, key) == Ok(sections[0].entries[key]))
      && (key !in sections[0].entries ==> Get(pd, key) == Err(MissingKey(key, Basename(fname))))
      && (HasPatch(pd) <==> Get(pd, "patch_url").Ok?)
  {
  }
}
