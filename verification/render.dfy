/** The three renderers of a profile (src/types.ts): the Markdown summary
    used for display, the compact one-line header, and the context block
    given to the model.

    Each renderer pushes a line only when the field behind it is set. Here a
    renderer is a constant list of line prefixes together with one entry per
    prefix — whether the line is pushed, and the text after the prefix — and
    `Shown` keeps, in order, the lines whose entry is pushed. The emoji and
    Markdown in the prefixes are opaque constants: nothing depends on their
    characters except that the prefixes of one renderer differ. */
module Render {
  import opened Options
  import opened Text
  import opened Profile

  datatype Entry = Entry(shown: bool, text: string)

  /** The lines of the pushed entries, each after its prefix, in order. */
  function Shown(prefixes: seq<string>, es: seq<Entry>): (r: seq<string>)
    requires |prefixes| == |es|
    ensures |r| <= |es|
  {
    if es == [] then []
    else (if es[0].shown then [prefixes[0] + es[0].text] else []) + Shown(prefixes[1..], es[1..])
  }

  /** Some line of `lines` begins with `tag`. */
  predicate HasLine(lines: seq<string>, tag: string) {
    exists l | l in lines :: StartsWith(l, tag)
  }

  /** `value !== 'unknown' ? value : fallback` */
  function KnownOr(value: string, fallback: string): string {
    if value != Unknown then value else fallback
  }

  /** `value !== 'unknown' ? before + value + after : ''` */
  function IfKnown(value: string, before: string, after: string): string {
    if value != Unknown then before + value + after else ""
  }

  // ---------------------------------------------------------------------
  // Facts about Shown
  // ---------------------------------------------------------------------

  /** A pushed entry's line is among the shown lines. */
  lemma {:induction false} ShownIncludes(prefixes: seq<string>, es: seq<Entry>, i: nat)
    requires |prefixes| == |es| && i < |es| && es[i].shown
    ensures prefixes[i] + es[i].text in Shown(prefixes, es)
  {
    if i > 0 {
      ShownIncludes(prefixes[1..], es[1..], i - 1);
    }
  }

  /** Every shown line is the line of a pushed entry. */
  lemma {:induction false} ShownComesFrom(prefixes: seq<string>, es: seq<Entry>, l: string)
    requires |prefixes| == |es| && l in Shown(prefixes, es)
    ensures exists i | 0 <= i < |es| :: es[i].shown && prefixes[i] + es[i].text == l
  {
    if es[0].shown && l == prefixes[0] + es[0].text {
      assert es[0].shown && prefixes[0] + es[0].text == l;
    } else {
      ShownComesFrom(prefixes[1..], es[1..], l);
      var i :| 0 <= i < |es[1..]| && es[1..][i].shown && prefixes[1..][i] + es[1..][i].text == l;
      assert es[i + 1].shown && prefixes[i + 1] + es[i + 1].text == l;
    }
  }

  /** When the last entry is pushed, its line is the last shown line. */
  lemma ShownEndsWithLast(prefixes: seq<string>, es: seq<Entry>)
    requires |prefixes| == |es| > 0 && es[|es| - 1].shown
    ensures var r := Shown(prefixes, es); |r| > 0 && r[|r| - 1] == prefixes[|es| - 1] + es[|es| - 1].text
  {
    if |es| > 1 {
      ShownEndsWithLast(prefixes[1..], es[1..]);
    }
  }

  /** Pushing one more entry, all else equal, shows exactly one more line. */
  lemma {:induction false} ShownOneMore(prefixes: seq<string>, es: seq<Entry>, fs: seq<Entry>, j: nat)
    requires |prefixes| == |es| == |fs| && j < |es|
    requires forall i | 0 <= i < |es| && i != j :: es[i] == fs[i]
    requires es[j].shown && !fs[j].shown
    ensures |Shown(prefixes, es)| == |Shown(prefixes, fs)| + 1
  {
    if j == 0 {
      assert es[1..] == fs[1..];
    } else {
      ShownOneMore(prefixes[1..], es[1..], fs[1..], j - 1);
    }
  }

  /** Entries that are not pushed do not matter. */
  lemma {:induction false} ShownIgnoresHidden(prefixes: seq<string>, es: seq<Entry>, fs: seq<Entry>, j: nat)
    requires |prefixes| == |es| == |fs| && j < |es|
    requires forall i | 0 <= i < |es| && i != j :: es[i] == fs[i]
    requires !es[j].shown && !fs[j].shown
    ensures Shown(prefixes, es) == Shown(prefixes, fs)
  {
    if j == 0 {
      assert es[1..] == fs[1..];
    } else {
      ShownIgnoresHidden(prefixes[1..], es[1..], fs[1..], j - 1);
    }
  }

  /** A line beginning with `tag` can only come from entry `j` when every
      other prefix differs from `tag` at position `k`. */
  lemma HasLineOnlyAt(prefixes: seq<string>, es: seq<Entry>, tag: string, j: nat, k: nat)
    requires |prefixes| == |es| && j < |es| && k < |tag|
    requires forall i | 0 <= i < |es| && i != j :: k < |prefixes[i]| && prefixes[i][k] != tag[k]
    requires HasLine(Shown(prefixes, es), tag)
    ensures es[j].shown
  {
    var l :| l in Shown(prefixes, es) && StartsWith(l, tag);
    ShownComesFrom(prefixes, es, l);
    var i :| 0 <= i < |es| && es[i].shown && prefixes[i] + es[i].text == l;
    assert l[..|tag|][k] == l[k];
    assert i == j;
  }

  /** The line of a pushed entry occurs in the joined rendering. */
  lemma LineOccursInJoin(prefixes: seq<string>, es: seq<Entry>, i: nat, sep: string)
    requires |prefixes| == |es| && i < |es| && es[i].shown
    ensures Occurs(prefixes[i] + es[i].text, Join(Shown(prefixes, es), sep))
  {
    ShownIncludes(prefixes, es, i);
    var lines := Shown(prefixes, es);
    var k :| 0 <= k < |lines| && lines[k] == prefixes[i] + es[i].text;
    PartOccursInJoin(lines, sep, k);
  }

  // ---------------------------------------------------------------------
  // formatStateForAI
  // ---------------------------------------------------------------------

  const AiHeader := "User's Linux System Context:"
  const DistributionLabel := "- Distribution: "
  const ExperienceLabel := "- Experience Level: "
  const UseCaseLabel := "- Primary Use Case: "

  const AiPrefixes: seq<string> := [
    AiHeader, DistributionLabel, "- Package Manager: ", "- Also uses: ", "- Desktop: ",
    "- Init System: ", "- Boot Type: ", "- GPU: ", "- CPU: ", "- Form Factor: ", "- Shell: ",
    "- Audio: ", "- Containers: ", ExperienceLabel, UseCaseLabel, "- Preferred Editors: "]

  /** The truthiness test on `state.aurHelper`: null and `""` are falsy. */
  function AurSuffix(aur: Option<string>): string {
    if aur.Some? && aur.value != "" then " with AUR helper: " + aur.value else ""
  }

  function AiEntries(s: LinuxUserState): (es: seq<Entry>)
    ensures |es| == |AiPrefixes|
  {
    var h := s.hardware;
    [ Entry(true, ""),
      Entry(s.distro != Unknown,
        s.distro + " " + KnownOr(s.distroVersion, "") + " (" + s.distroBase + " family)"),
      Entry(s.packageManager != Unknown, s.packageManager + AurSuffix(s.aurHelper)),
      Entry(|s.secondaryPackageManagers| > 0, Join(s.secondaryPackageManagers, ", ")),
      Entry(s.desktop != Unknown, s.desktop + " on " + KnownOr(s.displayServer, "unknown display server")),
      Entry(s.initSystem != Unknown, s.initSystem),
      Entry(s.bootType != Unknown, s.bootType + IfKnown(s.bootMode, " (", ")")),
      Entry(h.gpuVendor != Unknown, h.gpuVendor + IfKnown(h.gpuDriver, " (", " driver)")),
      Entry(h.cpuVendor != Unknown, h.cpuVendor + " " + KnownOr(h.cpuArch, "")),
      Entry(h.formFactor != Unknown, h.formFactor + (if h.hasTouchscreen then " with touchscreen" else "")),
      Entry(s.shell != Unknown, s.shell + IfKnown(s.terminal, " in ", "")),
      Entry(s.audioSystem != Unknown, s.audioSystem),
      Entry(s.containerRuntime != "none", s.containerRuntime),
      Entry(true, s.experienceLevel),
      Entry(true, s.primaryUseCase),
      Entry(|s.preferredEditors| > 0, Join(s.preferredEditors, ", ")) ]
  }

  function AiLines(s: LinuxUserState): seq<string> {
    Shown(AiPrefixes, AiEntries(s))
  }

  /** `formatStateForAI`: the header, then one line per set field, joined
      with newlines. The header always comes first, and the experience
      level and primary use case are always stated. */
  function FormatStateForAI(s: LinuxUserState): (r: string)
    ensures StartsWith(r, AiHeader)
    ensures Occurs(ExperienceLabel + s.experienceLevel, r)
    ensures Occurs(UseCaseLabel + s.primaryUseCase, r)
  {
    var es := AiEntries(s);
    var lines := Shown(AiPrefixes, es);
    assert lines[0] == AiHeader + "";
    JoinStartsWithFirst(lines, "\n");
    LineOccursInJoin(AiPrefixes, es, 13, "\n");
    LineOccursInJoin(AiPrefixes, es, 14, "\n");
    Join(lines, "\n")
  }

  /** Only the distribution prefix has an 'i' as its fourth character. */
  lemma AiPrefixesDifferFromDistribution()
    ensures forall i | 0 <= i < |AiPrefixes| && i != 1 ::
      3 < |AiPrefixes[i]| && AiPrefixes[i][3] != DistributionLabel[3]
  {
  }

  /** The context block has a Distribution line exactly when the
      distribution is known. */
  lemma AiDistributionLineIffKnown(s: LinuxUserState)
    ensures HasLine(AiLines(s), DistributionLabel) <==> s.distro != Unknown
  {
    var es := AiEntries(s);
    if s.distro != Unknown {
      ShownIncludes(AiPrefixes, es, 1);
      assert StartsWith(DistributionLabel + es[1].text, DistributionLabel);
    }
    if HasLine(AiLines(s), DistributionLabel) {
      AiPrefixesDifferFromDistribution();
      HasLineOnlyAt(AiPrefixes, es, DistributionLabel, 1, 3);
    }
  }

  // ---------------------------------------------------------------------
  // formatStateForDisplay
  // ---------------------------------------------------------------------

  const LevelLabel := "\U{1F4CA} **Level:** "
  const NoProfileText := "No profile set yet. Tell me about your Linux setup!"

  const DisplayPrefixes: seq<string> := [
    "\U{1F427} **Distro:** ", "\U{1F4E6} **Package Manager:** ", "\U{1F5A5}\U{FE0F} **Desktop:** ",
    "\U{1F50C} **Boot:** ", "\U{1F527} **Hardware:** ", "\U{1F4BB} **Shell:** ",
    "\U{2699}\U{FE0F} **Init:** ", LevelLabel, "\U{1F3AF} **Use:** "]

  function DisplayEntries(s: LinuxUserState): (es: seq<Entry>)
    ensures |es| == |DisplayPrefixes|
  {
    var h := s.hardware;
    [ Entry(s.distro != Unknown,
        s.distro + IfKnown(s.distroVersion, " ", "") + IfKnown(s.distroCodename, " (", ")")),
      Entry(s.packageManager != Unknown,
        s.packageManager
        + (if |s.secondaryPackageManagers| > 0 then " + " + Join(s.secondaryPackageManagers, ", ") else "")),
      Entry(s.desktop != Unknown, Upper(s.desktop) + IfKnown(s.displayServer, " (", ")")),
      Entry(s.bootType != Unknown, s.bootType + IfKnown(s.bootMode, " / ", "")),
      Entry(h.gpuVendor != Unknown,
        "GPU: " + Upper(h.gpuVendor)
        + (if h.cpuVendor != Unknown then ", CPU: " + Upper(h.cpuVendor) else "")
        + IfKnown(h.formFactor, " (", ")")),
      Entry(s.shell != Unknown, s.shell),
      Entry(s.initSystem != Unknown, s.initSystem),
      Entry(true, s.experienceLevel),
      Entry(s.primaryUseCase != "desktop-general", s.primaryUseCase) ]
  }

  function DisplayLines(s: LinuxUserState): seq<string> {
    Shown(DisplayPrefixes, DisplayEntries(s))
  }

  /** `formatStateForDisplay`: the Markdown summary, one line per set field.
      The level line is always pushed, so the "no profile" text is never
      what comes back. */
  function FormatStateForDisplay(s: LinuxUserState): (r: string)
    ensures Occurs(LevelLabel + s.experienceLevel, r)
  {
    var lines := DisplayLines(s);
    DisplayFallbackUnreachable(s);
    LineOccursInJoin(DisplayPrefixes, DisplayEntries(s), 7, "\n");
    if |lines| > 0 then Join(lines, "\n") else NoProfileText
  }

  /** The display always has at least one line: the experience level. */
  lemma DisplayFallbackUnreachable(s: LinuxUserState)
    ensures |DisplayLines(s)| > 0
  {
    ShownIncludes(DisplayPrefixes, DisplayEntries(s), 7);
  }

  // ---------------------------------------------------------------------
  // formatStateCompact
  // ---------------------------------------------------------------------

  const Bullet := " \U{2022} "
  const NoCompactText := "Profile not set"

  /** The compact parts carry no prefix. */
  const CompactPrefixes: seq<string> := ["", "", "", "", ""]

  /** The compact header shows the desktop unless it is unset or "none". */
  predicate CompactShowsDesktop(desktop: string) {
    desktop != Unknown && desktop != "none"
  }

  function CompactEntries(s: LinuxUserState): (es: seq<Entry>)
    ensures |es| == |CompactPrefixes|
  {
    [ Entry(s.distro != Unknown, s.distro + IfKnown(s.distroVersion, " ", "")),
      Entry(s.packageManager != Unknown, s.packageManager),
      Entry(CompactShowsDesktop(s.desktop), s.desktop),
      Entry(s.hardware.gpuVendor != Unknown, s.hardware.gpuVendor),
      Entry(true, s.experienceLevel) ]
  }

  function CompactLines(s: LinuxUserState): seq<string> {
    Shown(CompactPrefixes, CompactEntries(s))
  }

  /** `formatStateCompact`: the set parts joined by a bullet. It always ends
      with the experience level, so the "not set" text is never what comes
      back. */
  function FormatStateCompact(s: LinuxUserState): (r: string)
    ensures |CompactLines(s)| > 0
    ensures EndsWith(r, s.experienceLevel)
  {
    var es := CompactEntries(s);
    var lines := Shown(CompactPrefixes, es);
    ShownEndsWithLast(CompactPrefixes, es);
    assert lines[|lines| - 1] == "" + s.experienceLevel;
    JoinEndsWithLast(lines, Bullet);
    if |lines| > 0 then Join(lines, Bullet) else NoCompactText
  }

  /** The compact header is the same as with no desktop at all exactly when
      the desktop is unset or "none"; any other desktop adds one part. */
  lemma CompactDesktopIff(s: LinuxUserState)
    ensures CompactLines(s) == CompactLines(s.(desktop := Unknown)) <==> !CompactShowsDesktop(s.desktop)
  {
    var t := s.(desktop := Unknown);
    if CompactShowsDesktop(s.desktop) {
      ShownOneMore(CompactPrefixes, CompactEntries(s), CompactEntries(t), 2);
    } else {
      ShownIgnoresHidden(CompactPrefixes, CompactEntries(s), CompactEntries(t), 2);
    }
  }
}
