/** The deterministic half of `extractStateWithLLM` (src/server.ts): from
    the model's reply text to a partial profile update.

    The model call is a parameter: `None` is a call that threw, `Some(t)`
    the reply text. `JSON.parse` is a parameter too: `None` is a parse that
    threw. Every failure path ends in the empty update. */
module Extraction {
  import opened Options
  import opened Text
  import opened Profile
  import opened Prompt

  /** A value of the parsed object as far as the mapping can tell it apart:
      a string, or any other JSON value given by its truthiness and the text
      a template literal shows for it. */
  datatype JsonValue = JString(s: string) | JOther(truthy: bool, shown: string)

  type JsonObject = map<string, JsonValue>

  /** `parsed.name`: an absent property is `undefined`. */
  function Get(parsed: JsonObject, name: string): Option<JsonValue> {
    if name in parsed then Some(parsed[name]) else None
  }

  /** JavaScript truthiness of a property value. */
  predicate Truthy(v: Option<JsonValue>) {
    match v
    case None => false
    case Some(JString(s)) => s != ""
    case Some(JOther(t, _)) => t
  }

  /** What a template literal or a plain copy keeps of a value. */
  function AsText(v: JsonValue): string {
    match v
    case JString(s) => s
    case JOther(_, shown) => shown
  }

  // ---------------------------------------------------------------------
  // The span `text.match(/\{[\s\S]*\}/)`
  // ---------------------------------------------------------------------

  /** The first position of `c` in `s`. */
  function FirstIndex(c: char, s: string): (r: Option<nat>)
    ensures r.Some? ==> r.value < |s| && s[r.value] == c && forall k | 0 <= k < r.value :: s[k] != c
    ensures r.None? ==> forall k | 0 <= k < |s| :: s[k] != c
  {
    if s == [] then None
    else if s[0] == c then Some(0)
    else match FirstIndex(c, s[1..])
      case None => None
      case Some(i) => Some(i + 1)
  }

  /** The last position of `c` in `s`. */
  function LastIndex(c: char, s: string): (r: Option<nat>)
    ensures r.Some? ==> r.value < |s| && s[r.value] == c && forall k | r.value < k < |s| :: s[k] != c
    ensures r.None? ==> forall k | 0 <= k < |s| :: s[k] != c
  {
    if s == [] then None
    else if s[|s| - 1] == c then Some(|s| - 1)
    else LastIndex(c, s[..|s| - 1])
  }

  /** The greedy match of a brace, anything, and a brace: from the first
      `{` to the last `}` after it. There is a match exactly when some `{`
      comes before some `}`; the match has no `{` before it and no `}`
      after it. */
  function JsonSpan(text: string): (r: Option<string>)
    ensures r.Some? <==> exists i, j | 0 <= i < j < |text| :: text[i] == '{' && text[j] == '}'
    ensures r.Some? ==> exists i | 0 <= i <= |text| - |r.value| ::
      OccursAt(r.value, text, i)
      && (forall k | 0 <= k < i :: text[k] != '{')
      && (forall k | i + |r.value| <= k < |text| :: text[k] != '}')
    ensures r.Some? ==> |r.value| >= 2 && r.value[0] == '{' && r.value[|r.value| - 1] == '}'
  {
    match FirstIndex('{', text)
    case None => None
    case Some(i) =>
      match LastIndex('}', text)
      case None => None
      case Some(j) =>
        if j < i then None
        else
          var span := text[i..j + 1];
          assert OccursAt(span, text, i);
          Some(span)
  }

  // ---------------------------------------------------------------------
  // Field mapping
  // ---------------------------------------------------------------------

  /** A truthy property that is not a string: calling `toLowerCase` on it
      throws a TypeError. */
  predicate NotAString(v: Option<JsonValue>) {
    Truthy(v) && v.value.JOther?
  }

  /** The outcome of one `if (parsed.k) updates.k = parsed.k.toLowerCase()`:
      nothing, a lower-cased string, or a TypeError when the value is truthy
      but not a string. */
  datatype LowerOutcome = Skip | Put(value: string) | Throws

  function LowerField(v: Option<JsonValue>): (r: LowerOutcome)
    ensures r.Skip? <==> !Truthy(v)
    ensures r.Throws? <==> NotAString(v)
    ensures r.Put? ==> v == Some(JString(v.value.s)) && r.value == Lower(v.value.s)
    ensures r.Put? ==> IsLowered(r.value) && |r.value| == |v.value.s|
  {
    if !Truthy(v) then Skip
    else match v.value
      case JString(s) => LowerCharwise(s); Put(Lower(s))
      case JOther(_, _) => Throws
  }

  function PutValue(l: LowerOutcome): Option<string> {
    if l.Put? then Some(l.value) else None
  }

  /** `if (parsed.k) updates.k = parsed.k`: the value as it is. */
  function CopyField(v: Option<JsonValue>): (r: Option<string>)
    ensures r.Some? <==> Truthy(v)
    ensures r.Some? ==> r.value == AsText(v.value)
  {
    if Truthy(v) then Some(AsText(v.value)) else None
  }

  /** Some lower-cased property holds a truthy non-string, so a call to
      `toLowerCase` throws and the whole extraction falls back to `{}`. */
  predicate AnyThrows(parsed: JsonObject) {
    NotAString(Get(parsed, "distro"))
    || NotAString(Get(parsed, "packageManager"))
    || NotAString(Get(parsed, "desktop"))
    || NotAString(Get(parsed, "shell"))
    || NotAString(Get(parsed, "gpuVendor"))
    || NotAString(Get(parsed, "formFactor"))
  }

  /** A lower-cased key: absent when the property is falsy, and the
      lower-cased string when it is a non-empty string. */
  predicate LoweredFrom(o: Option<string>, v: Option<JsonValue>) {
    && (!Truthy(v) ==> o.None?)
    && (Truthy(v) && v.value.JString? ==> o == Some(Lower(v.value.s)))
  }

  /** A copied key: absent when the property is falsy, and its value
      otherwise. */
  predicate CopiedFrom(o: Option<string>, v: Option<JsonValue>) {
    && (!Truthy(v) ==> o.None?)
    && (Truthy(v) ==> o == Some(AsText(v.value)))
  }

  /** The keys extraction may set at the top level. */
  predicate Extracted(k: Key) {
    k == Distro || k == DistroVersion || k == PackageManager || k == Desktop
    || k == Shell || k == BootType || k == ExperienceLevel
  }

  /** What every mapping does with the eight keys other than the level:
      no key outside the extracted ones; distro, package manager, desktop
      and shell lower-cased and version and boot type copied from their
      properties; `hardware` present exactly when the GPU vendor or the
      form factor is truthy, holding only those two, lower-cased. */
  predicate MappedFrom(u: PartialState, parsed: JsonObject) {
    && (forall k :: !Extracted(k) ==> UpdateField(u, k).None?)
    && LoweredFrom(u.distro, Get(parsed, "distro"))
    && CopiedFrom(u.distroVersion, Get(parsed, "distroVersion"))
    && LoweredFrom(u.packageManager, Get(parsed, "packageManager"))
    && LoweredFrom(u.desktop, Get(parsed, "desktop"))
    && LoweredFrom(u.shell, Get(parsed, "shell"))
    && CopiedFrom(u.bootType, Get(parsed, "bootType"))
    && (u.hardware.Some? <==> Truthy(Get(parsed, "gpuVendor")) || Truthy(Get(parsed, "formFactor")))
    && (u.hardware.Some? ==>
          && (forall k :: k != GpuVendor && k != FormFactor ==> HardwareUpdateField(u.hardware, k).None?)
          && LoweredFrom(u.hardware.value.gpuVendor, Get(parsed, "gpuVendor"))
          && LoweredFrom(u.hardware.value.formFactor, Get(parsed, "formFactor")))
  }

  /** The update built from the parsed object, given what to store as the
      experience level; `None` when a `toLowerCase` call throws. */
  function MapWith(parsed: JsonObject, level: Option<string>): (r: Option<PartialState>)
    ensures r.None? <==> AnyThrows(parsed)
    ensures r.Some? ==> MappedFrom(r.value, parsed) && r.value.experienceLevel == level
  {
    if AnyThrows(parsed) then None
    else
      var gpu := Get(parsed, "gpuVendor");
      var form := Get(parsed, "formFactor");
      Some(EmptyUpdate.(
        distro := PutValue(LowerField(Get(parsed, "distro"))),
        distroVersion := CopyField(Get(parsed, "distroVersion")),
        packageManager := PutValue(LowerField(Get(parsed, "packageManager"))),
        desktop := PutValue(LowerField(Get(parsed, "desktop"))),
        shell := PutValue(LowerField(Get(parsed, "shell"))),
        bootType := CopyField(Get(parsed, "bootType")),
        experienceLevel := level,
        hardware :=
          if Truthy(gpu) || Truthy(form) then
            Some(NoHardwareUpdate.(gpuVendor := PutValue(LowerField(gpu)), formFactor := PutValue(LowerField(form))))
          else None))
  }

  /** The mapping as written: it fails exactly when a lower-cased property
      holds a truthy non-string, and otherwise maps the eight keys and
      copies the experience level verbatim, whatever it says. */
  function MapParsedAsWritten(parsed: JsonObject): (r: Option<PartialState>)
    ensures r.None? <==> AnyThrows(parsed)
    ensures r.Some? ==> MappedFrom(r.value, parsed)
    ensures r.Some? ==> CopiedFrom(r.value.experienceLevel, Get(parsed, "experienceLevel"))
  {
    MapWith(parsed, CopyField(Get(parsed, "experienceLevel")))
  }

  /** A property holding one of the three levels as a string. */
  predicate IsLevelString(v: Option<JsonValue>) {
    v.Some? && v.value.JString? && IsLevel(v.value.s)
  }

  /** The corrected reading of the level line: the level is kept only when
      it is one of the three levels. */
  function CheckedLevel(v: Option<JsonValue>): (r: Option<string>)
    ensures r.Some? <==> IsLevelString(v)
    ensures r.Some? ==> v == Some(JString(r.value))
  {
    if v.Some? && v.value.JString? && IsLevel(v.value.s) then Some(v.value.s) else None
  }

  /** The corrected mapping: as the mapping as written, except that the
      experience level is set exactly when the property names one of the
      three levels, so the update is always well formed. */
  function MapParsed(parsed: JsonObject): (r: Option<PartialState>)
    ensures r.None? <==> AnyThrows(parsed)
    ensures r.Some? ==> MappedFrom(r.value, parsed)
    ensures r.Some? ==> WellFormedUpdate(r.value)
    ensures r.Some? ==>
      (r.value.experienceLevel.Some? <==> IsLevelString(Get(parsed, "experienceLevel")))
    ensures r.Some? && r.value.experienceLevel.Some? ==>
      Get(parsed, "experienceLevel") == Some(JString(r.value.experienceLevel.value))
  {
    MapWith(parsed, CheckedLevel(Get(parsed, "experienceLevel")))
  }

  /** The two mappings differ only in the experience level, and agree on it
      whenever the corrected one keeps it. */
  lemma MappingsAgreeButLevel(parsed: JsonObject)
    ensures MapParsed(parsed).Some? <==> MapParsedAsWritten(parsed).Some?
    ensures MapParsed(parsed).Some? ==>
      MapParsed(parsed).value == MapParsedAsWritten(parsed).value.(experienceLevel := MapParsed(parsed).value.experienceLevel)
    ensures MapParsed(parsed).Some? && MapParsed(parsed).value.experienceLevel.Some? ==>
      MapParsed(parsed).value.experienceLevel == MapParsedAsWritten(parsed).value.experienceLevel
  {
  }

  // ---------------------------------------------------------------------
  // The whole extraction
  // ---------------------------------------------------------------------

  /** A JSON parser, abstract: `None` when it throws. */
  type Parser = string -> Option<JsonObject>

  /** The reply does not get as far as a parsed object: the call threw,
      the trimmed text has no brace span, or `JSON.parse` threw. */
  predicate NothingParsed(reply: Option<string>, parse: Parser) {
    reply.None? || JsonSpan(Trim(reply.value)).None? || parse(JsonSpan(Trim(reply.value)).value).None?
  }

  /** The object parsed from the brace span of the trimmed reply. */
  function ParsedReply(reply: Option<string>, parse: Parser): JsonObject
    requires !NothingParsed(reply, parse)
  {
    parse(JsonSpan(Trim(reply.value)).value).value
  }

  /** `extractStateWithLLM` after the model call, with the mapping given. */
  function ExtractWith(reply: Option<string>, parse: Parser, map_: JsonObject -> Option<PartialState>): PartialState {
    match reply
    case None => EmptyUpdate
    case Some(text) =>
      match JsonSpan(Trim(text))
      case None => EmptyUpdate
      case Some(span) =>
        match parse(span)
        case None => EmptyUpdate
        case Some(parsed) => map_(parsed).GetOr(EmptyUpdate)
  }

  /** `extractStateWithLLM` as written: the mapped update of the parsed
      reply, and the empty update whenever the call, the span, the parse or
      a `toLowerCase` throws. */
  function ExtractState(reply: Option<string>, parse: Parser): (r: PartialState)
    ensures NothingParsed(reply, parse) ==> r == EmptyUpdate
    ensures !NothingParsed(reply, parse) && AnyThrows(ParsedReply(reply, parse)) ==> r == EmptyUpdate
    ensures !NothingParsed(reply, parse) && !AnyThrows(ParsedReply(reply, parse)) ==>
      && MappedFrom(r, ParsedReply(reply, parse))
      && CopiedFrom(r.experienceLevel, Get(ParsedReply(reply, parse), "experienceLevel"))
  {
    ExtractWith(reply, parse, MapParsedAsWritten)
  }

  /** The extraction with the corrected mapping: the same paths, and never
      an invalid experience level. */
  function ExtractStateCorrected(reply: Option<string>, parse: Parser): (r: PartialState)
    ensures WellFormedUpdate(r)
    ensures NothingParsed(reply, parse) ==> r == EmptyUpdate
    ensures !NothingParsed(reply, parse) && AnyThrows(ParsedReply(reply, parse)) ==> r == EmptyUpdate
    ensures !NothingParsed(reply, parse) && !AnyThrows(ParsedReply(reply, parse)) ==>
      Some(r) == MapParsed(ParsedReply(reply, parse))
  {
    ExtractWith(reply, parse, MapParsed)
  }

  /** A reply with no brace pair yields the empty update whatever the parser. */
  lemma NoBracesNoUpdate(text: string, parse: Parser)
    requires forall i, j | 0 <= i < j < |text| :: !(text[i] == '{' && text[j] == '}')
    ensures ExtractState(Some(text), parse) == EmptyUpdate
  {
    TrimSpec(text);
    var t := Trim(text);
    var d :| 0 <= d <= |text| && OccursAt(t, text, d);
    forall i, j | 0 <= i < j < |t|
      ensures !(t[i] == '{' && t[j] == '}')
    {
      assert t[i] == text[d + i] && t[j] == text[d + j];
    }
  }

  // ---------------------------------------------------------------------
  // The verbatim experience level (see Findings)
  // ---------------------------------------------------------------------

  const ExpertReply := map["experienceLevel" := JString("expert")]
  const ExpertUpdate := EmptyUpdate.(experienceLevel := Some("expert"))

  /** As written, a reply naming a level outside the three ends up in the
      profile, and the next system prompt says "undefined" where the style
      block belongs. */
  lemma VerbatimLevelReachesPrompt(now: int)
    ensures MapParsedAsWritten(ExpertReply) == Some(ExpertUpdate)
    ensures Merge(DefaultState(now), ExpertUpdate, now).experienceLevel == "expert"
    ensures InstructionsText("expert") == "undefined"
    ensures Occurs("undefined", BuildSystemPrompt(Merge(DefaultState(now), ExpertUpdate, now)))
  {
    VerbatimExpertUpdate();
    ExpertMerged(DefaultState(now), now);
    UnknownLevelPromptSaysUndefined(Merge(DefaultState(now), ExpertUpdate, now));
  }

  lemma VerbatimExpertUpdate()
    ensures MapParsedAsWritten(ExpertReply) == Some(ExpertUpdate)
  {
    assert Get(ExpertReply, "experienceLevel") == Some(JString("expert"));
    ExpertReplyHasNoOtherField();
  }

  lemma ExpertMerged(p: LinuxUserState, now: int)
    ensures Merge(p, ExpertUpdate, now).experienceLevel == "expert"
  {
    var m := Merge(p, ExpertUpdate, now);
    assert Field(m, ExperienceLevel) == Spread(Field(p, ExperienceLevel), UpdateField(ExpertUpdate, ExperienceLevel));
  }

  lemma ExpertReplyHasNoOtherField()
    ensures forall name | name != "experienceLevel" :: Get(ExpertReply, name).None?
  {
  }

  /** The corrected mapping drops that level: the update is empty. */
  lemma CorrectedMappingDropsUnknownLevel()
    ensures MapParsed(ExpertReply) == Some(EmptyUpdate)
  {
    assert Get(ExpertReply, "experienceLevel") == Some(JString("expert"));
    ExpertReplyHasNoOtherField();
  }
}
