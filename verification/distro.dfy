/** The four distribution lookup tables, the lookup helpers that normalise
    the name first, and `inferStateFromDistro` (src/types.ts). */
module DistroTables {
  import opened Options
  import opened Text
  import opened Profile
  import opened DistroData

  /** `table[normalized] || 'unknown'`, reading own keys only: the name is
      lower-cased and trimmed first, and a missing key (or an empty value)
      falls back to `"unknown"`. */
  function Lookup(table: string -> Option<string>, name: string): (r: string)
    ensures table(Normalize(name)).Some? && table(Normalize(name)).value != "" ==> r == table(Normalize(name)).value
    ensures table(Normalize(name)).None? ==> r == Unknown
    ensures r != ""
  {
    var n := Normalize(name);
    if table(n).Some? && table(n).value != "" then table(n).value else Unknown
  }

  /** `getPackageManagerForDistro`: the table entry of the normalised name, or `'unknown'`. */
  function PackageManagerFor(distro: string): (r: string)
    ensures PackageManagerTable(Normalize(distro)).Some? && PackageManagerTable(Normalize(distro)).value != "" ==>
      r == PackageManagerTable(Normalize(distro)).value
    ensures PackageManagerTable(Normalize(distro)).None? ==> r == Unknown
  {
    Lookup(PackageManagerTable, distro)
  }

  /** `getDistroBase`: the table entry of the normalised name, or `'unknown'`. */
  function DistroBaseOf(distro: string): (r: string)
    ensures BaseTable(Normalize(distro)).Some? && BaseTable(Normalize(distro)).value != "" ==>
      r == BaseTable(Normalize(distro)).value
    ensures BaseTable(Normalize(distro)).None? ==> r == Unknown
  {
    Lookup(BaseTable, distro)
  }

  /** `getInitSystem`: the table entry of the normalised name, or `'unknown'`. */
  function InitSystemOf(distro: string): (r: string)
    ensures InitTable(Normalize(distro)).Some? && InitTable(Normalize(distro)).value != "" ==>
      r == InitTable(Normalize(distro)).value
    ensures InitTable(Normalize(distro)).None? ==> r == Unknown
  {
    Lookup(InitTable, distro)
  }

  /** `getDefaultDesktop`: the table entry of the normalised name, or `'unknown'`. */
  function DefaultDesktopOf(distro: string): (r: string)
    ensures DesktopTable(Normalize(distro)).Some? && DesktopTable(Normalize(distro)).value != "" ==>
      r == DesktopTable(Normalize(distro)).value
    ensures DesktopTable(Normalize(distro)).None? ==> r == Unknown
  {
    Lookup(DesktopTable, distro)
  }

  /** A lookup sees only the normalised name: looking up the normalised name
      gives the same answer, and so do any two names that normalise alike. */
  lemma LookupSeesOnlyNormalized(table: string -> Option<string>, s: string)
    ensures Lookup(table, s) == Lookup(table, Normalize(s))
  {
    NormalizeIdempotent(s);
  }

  /** The table key "antiX" holds an upper-case letter, so no name ever
      normalises to it; "antix" is the key that answers. */
  lemma MixedCaseKeyUnreachable(s: string)
    ensures Normalize(s) != "antiX"
  {
    var n := Normalize(s);
    NormalizeSpec(s);
    if n == "antiX" {
      assert IsUpperChar(n[4]);
      assert false;
    }
  }

  /** The keys `inferStateFromDistro` sets. */
  predicate Inferred(k: Key) {
    k == Distro || k == DistroBase || k == PackageManager || k == InitSystem || k == Desktop
  }

  /** `inferStateFromDistro(distro)`: the raw name as given, and the four
      table lookups of its normalised form; no other key, no hardware. */
  function InferStateFromDistro(distro: string): (u: PartialState)
    ensures u.distro == Some(distro)
    ensures u.distroBase == Some(DistroBaseOf(distro))
    ensures u.packageManager == Some(PackageManagerFor(distro))
    ensures u.initSystem == Some(InitSystemOf(distro))
    ensures u.desktop == Some(DefaultDesktopOf(distro))
    ensures forall k :: UpdateField(u, k).Some? <==> Inferred(k)
    ensures u.hardware.None? && !IsEmpty(u)
  {
    var normalized := Normalize(distro);
    LookupSeesOnlyNormalized(BaseTable, distro);
    LookupSeesOnlyNormalized(PackageManagerTable, distro);
    LookupSeesOnlyNormalized(InitTable, distro);
    LookupSeesOnlyNormalized(DesktopTable, distro);
    DistroUpdate(distro, DistroBaseOf(normalized), PackageManagerFor(normalized),
                 InitSystemOf(normalized), DefaultDesktopOf(normalized))
  }

  /** The update object literal built by `inferStateFromDistro`. */
  function DistroUpdate(distro: string, base: string, pm: string, init: string, desktop: string): (u: PartialState)
    ensures u.distro == Some(distro) && u.distroBase == Some(base) && u.packageManager == Some(pm)
    ensures u.initSystem == Some(init) && u.desktop == Some(desktop)
    ensures forall k :: UpdateField(u, k).Some? <==> Inferred(k)
    ensures u.hardware.None? && !IsEmpty(u)
  {
    EmptyUpdate.(distro := Some(distro), distroBase := Some(base), packageManager := Some(pm),
                 initSystem := Some(init), desktop := Some(desktop))
  }

  /** The name is matched case-insensitively and without surrounding
      whitespace. */
  lemma NormalizeFedora()
    ensures Normalize(" Fedora") == "fedora"
  {
    assert Lower(" Fedora") == " fedora" by {}
    assert TrimStart(" fedora") == "fedora" by {}
    assert TrimEnd("fedora") == "fedora" by {}
  }

  /** `inferStateFromDistro(" Fedora")` keeps the raw name and infers the
      fedora family, dnf, systemd and GNOME. */
  lemma InferFedora()
    ensures InferStateFromDistro(" Fedora")
            == EmptyUpdate.(distro := Some(" Fedora"), distroBase := Some("fedora"),
                            packageManager := Some("dnf"), initSystem := Some("systemd"),
                            desktop := Some("gnome"))
  {
    NormalizeFedora();
    assert PackageManagerTable("fedora") == Some("dnf") by {}
    assert BaseTable("fedora") == Some("fedora") by {}
    assert InitTable("fedora") == Some("systemd") by {}
    assert DesktopTable("fedora") == Some("gnome") by {}
  }

  /** Arch uses pacman and has no default desktop. */
  lemma ArchLookups()
    ensures PackageManagerFor("arch") == "pacman"
    ensures DefaultDesktopOf("arch") == Unknown
  {
    NormalizedName("arch");
    ArchPackageManagerEntry();
    ArchDesktopEntry();
  }

  lemma ArchPackageManagerEntry()
    ensures PackageManagerTable("arch") == Some("pacman")
  {
  }

  lemma ArchDesktopEntry()
    ensures DesktopTable("arch") == None
  {
  }

  /** NixOS is its own base and uses systemd. */
  lemma NixosLookups()
    ensures DistroBaseOf("nixos") == "nixos"
    ensures InitSystemOf("nixos") == "systemd"
  {
    NormalizedName("nixos");
    NixosBaseEntry();
    NixosInitEntry();
  }

  lemma NixosBaseEntry()
    ensures BaseTable("nixos") == Some("nixos")
  {
  }

  lemma NixosInitEntry()
    ensures InitTable("nixos") == Some("systemd")
  {
  }

  /** A lower-case name without edge blanks is already normalised. */
  lemma NormalizedName(s: string)
    requires IsLowered(s) && (s == [] || (!IsSpace(s[0]) && !IsSpace(s[|s| - 1])))
    ensures Normalize(s) == s
  {
    LowerOfLowered(s);
    TrimOfTrimmed(s);
  }

  // ---------------------------------------------------------------------
  // The lookup as written reads a plain object literal, which also answers
  // for the names it inherits from `Object.prototype`.
  // ---------------------------------------------------------------------

  /** The inherited property names of a plain object that contain no
      upper-case letter, and so can be spelled by a normalised name. */
  predicate IsInheritedKey(key: string) {
    key == "constructor" || key == "__proto__"
  }

  /** What `table[normalized] || 'unknown'` evaluates to on the object literal. */
  datatype PropertyRead = TextValue(text: string) | InheritedMember(name: string)

  /** The lookup as written: an own key gives its value, an inherited
      member is truthy and so is returned in place of `'unknown'`, and any
      other name falls back to `'unknown'`. */
  function LookupAsWritten(table: string -> Option<string>, name: string): (r: PropertyRead)
    ensures r.InheritedMember? <==> table(Normalize(name)).None? && IsInheritedKey(Normalize(name))
    ensures r.TextValue? ==> r.text == Lookup(table, name)
  {
    var n := Normalize(name);
    if table(n).Some? && table(n).value != "" then TextValue(table(n).value)
    else if table(n).None? && IsInheritedKey(n) then InheritedMember(n)
    else TextValue(Unknown)
  }

  /** The name "constructor" is in no table, yet the lookup as written
      returns the inherited `constructor` function instead of `'unknown'`;
      the corrected lookup returns `'unknown'`. */
  lemma PrototypeKeyBypassesFallback()
    ensures LookupAsWritten(DesktopTable, "constructor") == InheritedMember("constructor")
    ensures DefaultDesktopOf("constructor") == Unknown
  {
    NormalizeConstructor();
    DesktopTableLacksConstructor();
  }

  lemma DesktopTableLacksConstructor()
    ensures DesktopTable("constructor") == None
  {
  }

  lemma NormalizeConstructor()
    ensures Normalize("constructor") == "constructor"
  {
    ConstructorLowered();
    ConstructorTrimmed();
  }

  lemma ConstructorLowered()
    ensures Lower("constructor") == "constructor"
  {
    LowerOfLowered("constructor");
  }

  lemma ConstructorTrimmed()
    ensures Trim("constructor") == "constructor"
  {
    assert TrimStart("constructor") == "constructor";
    assert TrimEnd("constructor") == "constructor";
  }
}
