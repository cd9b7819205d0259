# Tux, the Linux setup assistant: profile and turn logic in Dafny

This project models the deterministic core of a chat agent that helps people
set up Linux. The agent keeps a profile of the user's system:
- the distribution and its lookups;
- the desktop, shell and hardware;
- the user's experience level.

On every chat turn the agent does the following:
- It answers three slash commands directly.
- It asks a language model to pull profile facts out of the user's text. It maps the model's JSON reply to a partial update, merges that update into the stored profile, and renders the profile into the system prompt.
- It offers its scheduling tools only when the text asks for a reminder.

The modules follow the two source files.

| module (file) | models |
|---|---|
| `Options` (options.dfy) | the `Option` type |
| `Text` (text.dfy) | ASCII `toLowerCase`/`toUpperCase`, `trim`, `join`, substring occurrence |
| `Profile` (profile.dfy) | `LinuxUserState`, `HardwareInfo`, `PartialLinuxUserState`, `createDefaultState`, `mergeState`, read key by key |
| `DistroData` (distro_data.dfy) | the four `DISTRO_*_MAP` tables, entry for entry |
| `DistroTables` (distro.dfy) | the `get*` lookups and `inferStateFromDistro` |
| `Render` (render.dfy) | `formatStateForAI`, `formatStateForDisplay`, `formatStateCompact` |
| `Prompt` (prompt.dfy) | `getExperienceInstructions`, `buildSystemPrompt` |
| `Extraction` (extraction.dfy) | everything in `extractStateWithLLM` after the model call |
| `Intent` (intent.dfy) | the schedule-intent regular expression of `onChatMessage` |
| `ChatAgent` (agent.dfy) | the profile cache and store, `handleCommand`, `onChatMessage` |

Some parts are parameters rather than code:
- The clock is a parameter `now`.
- The extraction model's reply is a parameter `Option<string>`, where `None` means the call threw.
- `JSON.parse` is a parameter `string -> Option<JsonObject>`, where `None` means it threw.
- The durable store is one optional profile, its `"userState"` entry.

A renderer line is an `Entry` with two parts:
- a fixed prefix;
- a shown/hidden flag with its text.

This lets one set of lemmas about `Shown` serve all three renderers.

## Model

| member | source | states |
|---|---|---|
| Profile.DefaultState | src/types.ts:671-735 | every key is at its unset sentinel except two: the level is `beginner` and the use case is `desktop-general`. The sentinels are `'unknown'`, `'none'` for the container runtime, `null` for the AUR helper and `[]` for lists. Every hardware key is unset, and both stamps are `now` |
| Profile.Merge | src/types.ts:743-758 | each key, hardware keys included, takes the update's value when present and keeps the current one otherwise. So the list fields are replaced wholesale or kept, and hardware is merged key by key. `createdAt` is kept and `updatedAt` becomes `now` |
| Profile.FieldsDetermineState | src/types.ts:615-665 | two profiles that agree on every key and both stamps are equal, so the key-by-key reading of `Merge` pins the whole record |
| Profile.HardwareFieldsDetermine | src/types.ts:434-445 | two hardware records that agree on every key are equal |
| Profile.MergeEmptyOnlyStamps | src/types.ts:747-757 | merging `{}` changes only `updatedAt` |
| Profile.MergeIdempotent | src/types.ts:747-757 | merging the same update twice equals merging it once at the later time |
| Profile.LevelUpdate | src/server.ts:221 | `{ experienceLevel: level }` sets only that key and is not empty |
| Profile.MergeLevelOnly | src/types.ts:747-757 | a level-only merge changes only the level and `updatedAt` |
| Profile.MergeKeepsWellFormed | src/types.ts:747-757 | merging an update whose level, if any, is one of the three keeps the profile's level one of the three |
| DistroTables.Lookup | src/types.ts:1280-1298 | a name whose normalised form is in the table with a non-empty value gets exactly that value. A name whose normalised form is not in the table gets `'unknown'`, and the result is never empty |
| DistroTables.PackageManagerFor | src/types.ts:1280-1283 | `getPackageManagerForDistro`: a normalised name with a non-empty package-manager entry gets that entry, and a name not in the table gets `'unknown'` |
| DistroTables.DistroBaseOf | src/types.ts:1285-1288 | `getDistroBase`: the base entry of the normalised name, or `'unknown'` when the name is not in the table |
| DistroTables.InitSystemOf | src/types.ts:1290-1293 | `getInitSystem`: the init entry of the normalised name, or `'unknown'` when the name is not in the table |
| DistroTables.DefaultDesktopOf | src/types.ts:1295-1298 | `getDefaultDesktop`: the desktop entry of the normalised name, or `'unknown'` when the name is not in the table |
| DistroTables.LookupSeesOnlyNormalized | src/types.ts:1280-1298 | a lookup of a name equals the lookup of its lower-cased, trimmed form |
| DistroTables.MixedCaseKeyUnreachable | src/types.ts:785 | no name normalises to `antiX`, so that key can never be found |
| DistroTables.InferStateFromDistro | src/types.ts:1304-1313 | the update keeps the raw name and sets the four looked-up keys from the normalised name, and no other key |
| DistroTables.DistroUpdate | src/types.ts:1306-1312 | the update built from a name and four values sets exactly the five inferred keys |
| DistroTables.NormalizeFedora | src/types.ts:1305 | `" Fedora"` normalises to `fedora` |
| DistroTables.InferFedora | src/types.ts:838 | `" Fedora"` infers fedora / dnf / systemd / gnome and keeps `" Fedora"` as the distro |
| DistroTables.ArchLookups | src/types.ts:887 | `getPackageManagerForDistro("arch")` is pacman, and `getDefaultDesktop("arch")` falls back to `'unknown'` |
| DistroTables.NixosLookups | src/types.ts:1158 | `getDistroBase("nixos")` is nixos and `getInitSystem("nixos")` is systemd |
| DistroTables.LookupAsWritten | src/types.ts:1280-1298 | on the object literal, only a missing key that is an inherited member name (`constructor`, `__proto__`) returns that member; every other read agrees with `Lookup` |
| DistroTables.PrototypeKeyBypassesFallback | src/types.ts:1295-1298 | `getDefaultDesktop("constructor")` as written returns the inherited function; the corrected lookup returns `'unknown'` |
| Render.Shown | src/types.ts:1413-1457 | a renderer keeps at most one line per candidate entry |
| Render.ShownIncludes | src/types.ts:1413-1457 | a shown entry's line is among the rendered lines |
| Render.ShownComesFrom | src/types.ts:1413-1457 | every rendered line is the line of some shown entry |
| Render.ShownEndsWithLast | src/types.ts:1403-1405 | when the last entry is shown, it is the last line |
| Render.ShownOneMore | src/types.ts:1413-1457 | showing one more entry adds exactly one line |
| Render.ShownIgnoresHidden | src/types.ts:1397 | a hidden entry's text does not affect the rendering |
| Render.HasLineOnlyAt | src/types.ts:1415-1417 | a line with a given prefix can only come from the one entry whose prefix matches it |
| Render.LineOccursInJoin | src/types.ts:1457 | a shown entry's line occurs in the joined text |
| Render.FormatStateForAI | src/types.ts:1412-1458 | the text starts with the context header and contains the Experience Level and Primary Use Case lines |
| Render.AiDistributionLineIffKnown | src/types.ts:1415-1417 | the Distribution line is present if and only if the distro is not `'unknown'` |
| Render.FormatStateForDisplay | src/types.ts:1319-1382 | the text contains the Level line with the profile's level |
| Render.DisplayFallbackUnreachable | src/types.ts:1376-1381 | the display always has a line, so its "No profile set yet" fallback cannot be reached |
| Render.FormatStateCompact | src/types.ts:1388-1406 | the compact text always has a part and ends with the level, so "Profile not set" cannot be reached |
| Render.CompactDesktopIff | src/types.ts:1397 | the compact text depends on the desktop if and only if it is neither `'unknown'` nor `'none'` |
| Prompt.ExperienceInstructions | src/server.ts:67-81 | a style block exists exactly for the three levels |
| Prompt.InstructionsDistinct | src/server.ts:67-81 | the three levels get three different style blocks |
| Prompt.BuildSystemPrompt | src/server.ts:35-65 | the prompt is a function of the profile, and it contains the style block, the whole context block and the command list |
| Prompt.UnknownLevelPromptSaysUndefined | src/server.ts:36-41 | a level outside the three puts the word `undefined` into the prompt |
| Prompt.WellFormedPromptHasStyleBlock | src/server.ts:36-41 | a profile with one of the three levels gets its own style block in the prompt |
| Extraction.FirstIndex | src/server.ts:131 | the first position of a character, or none |
| Extraction.LastIndex | src/server.ts:131 | the last position of a character, or none |
| Extraction.JsonSpan | src/server.ts:131-132 | a span exists if and only if some `{` precedes some `}`. The span runs from the first `{` to the last `}` |
| Extraction.LowerField | src/server.ts:139-151 | a falsy property is skipped, a truthy non-string throws, and a non-empty string gives exactly its lower-cased copy |
| Extraction.CopyField | src/server.ts:140-144 | a property is copied exactly when it is truthy, and the copy is its value |
| Extraction.MapWith | src/server.ts:137-152 | the mapping fails exactly when a lower-cased property throws. Otherwise `distro`, `packageManager`, `desktop` and `shell` are the lower-cased strings of their properties, and `distroVersion` and `bootType` are their properties' values. Each is set exactly when its property is truthy, and no other top-level key is set. `hardware` is set exactly when the GPU vendor or form factor is truthy, and holds only those two, lower-cased |
| Extraction.MapParsedAsWritten | src/server.ts:137-152 | the mapping of the code as written: the eight keys as for `MapWith`, and the level copied verbatim whenever it is truthy |
| Extraction.CheckedLevel | src/server.ts:145 | the corrected reading of the level line: the level is kept exactly when it is a string naming one of the three levels, and then it is that string |
| Extraction.MapParsed | src/server.ts:137-152 | the corrected mapping: the eight keys as for `MapWith`, and the level set exactly when its property names one of the three levels, so the update is well formed |
| Extraction.MappingsAgreeButLevel | src/server.ts:137-152 | the corrected mapping and the mapping as written differ only in the level, and agree on every level they both keep |
| Extraction.ExtractState | src/server.ts:118-159 | when the call, the span and the parse succeed and no `toLowerCase` throws, the update is the mapping as written of the parsed object, key by key. When any of these steps throws, the update is `{}` |
| Extraction.ExtractStateCorrected | src/server.ts:118-159 | the same paths with the corrected mapping: the parsed object's corrected mapping on success, `{}` on any failure, and never a level outside the three |
| Extraction.NoBracesNoUpdate | src/server.ts:131-132 | a reply without a `{` before a `}` yields `{}` whatever the parser does |
| Extraction.VerbatimLevelReachesPrompt | src/server.ts:145 | as written, a reply `{"experienceLevel":"expert"}` stores `expert`, and the next prompt contains `undefined` |
| Extraction.CorrectedMappingDropsUnknownLevel | src/server.ts:145 | the corrected mapping turns that reply into `{}` |
| Intent.DigitRunEnd | src/server.ts:285 | the end of a run of digits: every character before it is a digit and the one at it is not |
| Intent.ScanWithIff | src/server.ts:285 | scanning the positions finds a hit if and only if some position passes |
| Intent.MatchAtSound | src/server.ts:285 | the scanner matches at a position only where the regular expression matches |
| Intent.MatchAtComplete | src/server.ts:285 | the scanner matches wherever the regular expression matches |
| Intent.SpecAsMatches | src/server.ts:285 | some alternative between two word boundaries exists if and only if the scanner matches somewhere |
| Intent.ScheduleIntent | src/server.ts:285 | the test is true if and only if some alternative lies between two word boundaries of the text, ignoring case |
| Intent.ReminderWantsSchedule | src/server.ts:285 | "remind me in 10 minutes to update" asks for scheduling |
| Intent.QuestionWantsNoSchedule | src/server.ts:285 | "what package manager should I use" does not |
| Intent.AlternativeStartsWithPair | src/server.ts:285 | every alternative starts with `re`, `sc`, `la` or `in` |
| ChatAgent.Current | src/server.ts:173-176 | the profile is the cache if there is one, else the stored entry, else a default profile created at `now` |
| ChatAgent.GetUserState | src/server.ts:172-178 | the profile returned is the current one, so a fresh default with neither cache nor store. The store is not written. The profile is cached, so later calls see it whatever the time. A present cache is returned untouched |
| ChatAgent.GetUserStateStable | src/server.ts:173 | a second call returns the first call's profile and agent |
| ChatAgent.UpdateUserState | src/server.ts:183-188 | the cache and the store both hold the merge of the current profile with the update |
| ChatAgent.ResetUserState | src/server.ts:193-198 | the cache and the store both hold a default profile |
| ChatAgent.StoredProfileSurvivesRestart | src/server.ts:183-198 | after an update or a reset, an instance that lost its memory reads back the same profile |
| ChatAgent.CoherentRestart | src/server.ts:172-178 | a coherent agent with a stored entry sees the same profile after losing its memory |
| ChatAgent.SpaceRunEnd | src/server.ts:218 | the end of a run of whitespace |
| ChatAgent.ParseLevel | src/server.ts:218-220 | a recognised level is one of the three |
| ChatAgent.ParseLevelIff | src/server.ts:218-220 | the parser accepts exactly the texts `^\/level\s+(beginner\|intermediate\|advanced)$` matches, and captures the same level |
| ChatAgent.ParseCommand | src/server.ts:204-225 | the command is `/reset` exactly when the trimmed, lower-cased text is `/reset`, and `/profile` exactly when it is `/profile`. It is a level command exactly when that text parses as one, and then it carries the parsed level, which is always valid |
| ChatAgent.Execute | src/server.ts:203-226 | a reply exists exactly for a command and is never empty. Anything else changes nothing. `/reset` stores a default. `/profile` does not write the store and quotes the context block. `/level` stores the profile with only the level and `updatedAt` changed, and names the level. Coherence and valid levels are kept |
| ChatAgent.ShowProfile | src/server.ts:213-216 | the store is untouched, a present cache is untouched, and the reply contains the current profile's context block |
| ChatAgent.SetLevel | src/server.ts:218-223 | the stored and cached profile differ from the current one only in the level and `updatedAt`, and the reply names the level |
| ChatAgent.HandleCommand | src/server.ts:203-226 | a reply exists exactly when the text is a command, is never empty, and otherwise nothing changes. A text normalising to `/reset` caches and stores a default and gets the reset reply. `/profile` leaves the store alone and quotes the current context block. A `/level` command stores the current profile with the parsed level and a new `updatedAt` |
| ChatAgent.ShoutedResetResets | src/server.ts:204-211 | `"  /RESET "` resets and stores the default profile and gets a reply |
| ChatAgent.SpacedLevelIsLevel | src/server.ts:218 | `/level   Advanced` sets the level `advanced` |
| ChatAgent.MalformedLevelIsNoCommand | src/server.ts:218-225 | `/levelbeginner` and `/level extreme` get no reply and change nothing |
| ChatAgent.TextsOf | src/server.ts:238-239 | the filter is empty exactly when there is no text part, and one part gives its own text or nothing |
| ChatAgent.TextsOfAppend | src/server.ts:238-239 | filtering a concatenation concatenates the filtered halves, so with the one-part cases the texts are those of the text parts, in order, each once |
| ChatAgent.UserText | src/server.ts:236-240 | the user text is the texts of the last message's text parts joined by one blank. It contains every text part, and is `""` when there is no message or no text part |
| ChatAgent.UserTextInOrder | src/server.ts:236-240 | for parts made of two runs that each have text, the user text is the first run's text, one blank, then the second run's text |
| Text.JoinAppend | src/server.ts:240 | joining two non-empty lists one after the other joins each and puts one separator between them |
| ChatAgent.Absorb | src/server.ts:273-276 | an empty update changes nothing. A non-empty one is merged and both cached and stored |
| ChatAgent.Ask | src/server.ts:279-285 | the prompt is built from the now cached profile, and the tools come exactly with a scheduling request |
| ChatAgent.Respond | src/server.ts:242-285 | given the extracted update, a turn is answered directly exactly when it is a command. Its reply is then `handleCommand`'s reply, and its agent is the one `handleCommand` leaves. Otherwise the tools come exactly with a scheduling request and the prompt's profile is the current one. Coherence is kept, and valid levels are kept unless a level outside the three is absorbed |
| ChatAgent.OnChatMessage | src/server.ts:231-318 | the turn as written, extracting with `ExtractState`. It gives a direct reply exactly for a command. Otherwise it gives tools exactly with a scheduling request, and the prompt built from the current profile. Coherence is kept. Valid levels are kept when the extraction names no level outside the three |
| ChatAgent.OnChatMessageCorrected | src/server.ts:231-318 | the turn with the corrected extraction has the same properties: a command turn is `handleCommand`'s reply and agent, and the tools and the prompt's profile are as for `OnChatMessage`. It always keeps every profile's level one of the three, so the prompt's profile is well formed |
| ChatAgent.CommandTurnIsHandleCommand | src/server.ts:242-264 | a command turn sends exactly `handleCommand`'s reply, and ends with the agent `handleCommand` leaves |
| ChatAgent.CommandIgnoresModel | src/server.ts:246-264 | a command's turn does not depend on the extraction model or the parser |
| ChatAgent.NothingExtractedNothingStored | src/server.ts:273-276 | when nothing is extracted, the store is not written and the prompt's profile is the current one |
| ChatAgent.ExtractedFactsReachPrompt | src/server.ts:272-282 | extracted facts are merged, stored and used for that very turn's prompt |
| ChatAgent.TurnProfileWellFormed | src/server.ts:272-282 | a well-formed agent whose extraction names no level outside the three prompts with a profile whose level is one of the three |
| ChatAgent.VerbatimLevelTurn | src/server.ts:145 | as written, an ordinary turn whose reply parses to `{"experienceLevel":"expert"}` stores `expert`, leaves the agent not well formed, and prompts with a level outside the three |
| ChatAgent.PromptSaysUndefined | src/server.ts:36-41 | a request to the model whose profile has a level outside the three has `undefined` in its system prompt |
| ChatAgent.CorrectedTurnDropsLevel | src/server.ts:145 | the corrected turn on the same reply stores nothing and prompts with the profile as it was |
| ChatAgent.FreshAgentWellFormed | src/server.ts:167 | a new instance over an empty store is coherent and well formed |
| Text.TrimSpec | src/types.ts:1281 | a trimmed string has no blank at either end and occurs in the original |
| Text.LowerTrimCommute | src/types.ts:1281 | lower-casing and trimming commute |
| Text.NormalizeIdempotent | src/types.ts:1281 | normalising twice is normalising once |
| Text.PartOccursInJoin | src/types.ts:1457 | every part occurs in the joined text |

## Left out

- `generateText`, `streamText`, `createWorkersAI` and the UI message stream are foreign asynchronous calls. The extraction model's reply is a parameter, and the chat model's request is the `Generate` response holding the profile it is prompted with.
- The extraction prompt text (src/server.ts:87-113) is only sent to the model, so nothing in the model depends on it.
- `JSON.parse` is a library call, so it is a parameter. A parsed value is a string or an opaque non-string known only by its truthiness and its template-literal text.
- `cleanupMessages` and `processToolCalls` live in a helper module that is not part of this model. `tools.ts`, `executeTask`, the `fetch` handler, and the `/health` and `/api/state` endpoints are transport or scheduling glue, and are also left out.
- The `console.log` and `console.error` calls are left out; they have no effect on the results.
- `Date.now()` is the parameter `now`. One `now` stands for every clock reading within a call, so `createDefaultState` and the following `mergeState` share it.
- Durable Object storage is the optional `store` field. Its asynchrony and failure modes are not modelled.
- `toLowerCase`, `toUpperCase`, `trim`, `\s`, `\w` and case-insensitive matching are ASCII-only. Unicode case mapping and Unicode whitespace are not modelled.
- The emoji and Markdown prefixes of the renderers are opaque constants. The emoji in src/types.ts are stored mis-decoded there, and the model uses the characters they evidently stand for.
- Enumerated fields are plain strings with the `'unknown'` sentinel. `ramGB` is an unbounded integer.
- Render.FormatStateForDisplay: its contract does not state every line, only the level line the fallback argument needs.
- Render.FormatStateForAI: its contract states the header and the two lines that are always present. The conditional lines are covered through `Shown` and the Distribution lemma.
- ChatAgent.OnChatMessage: the system prompt is represented by the profile it is rendered from (`Response.System` renders it), because the prompt text itself is only passed on to the model.
- Extraction.CopyField: a truthy property that is not a string (an array, a number, an object) is stored as the text a template literal shows for it. The program stores the value itself, so its later strict comparisons never equal a string. These are the level `switch` and the renderers' `!== 'unknown'` tests. The model compares the text instead: `["beginner"]` as a level selects the beginner block, where the program's prompt says "undefined".
- DistroTables.Lookup: it reads only the table's own keys, which is the corrected reading of src/types.ts:1295-1298. The code as written also answers the inherited names `constructor` and `__proto__` with a member of `Object.prototype` (`LookupAsWritten`). For those two names, the `get*` helpers and `InferStateFromDistro` therefore give `'unknown'` where the program gives that member.

## Findings

| source | as written | input that shows it | evidently intended | confidence | as-written member | corrected member |
|---|---|---|---|---|---|---|
| src/server.ts:145 | the model's `experienceLevel` is copied verbatim into the update | extraction reply `{"experienceLevel":"expert"}` | keep only `beginner`, `intermediate` or `advanced`, as the extraction prompt lists; otherwise `getExperienceInstructions` returns `undefined` and the prompt says "undefined" | not executed | ChatAgent.VerbatimLevelTurn | ChatAgent.OnChatMessageCorrected |
| src/types.ts:1295-1298 | `DISTRO_DEFAULT_DESKTOP_MAP[normalized] \|\| 'unknown'` reads a plain object literal, so a name such as `constructor` finds the inherited `Object.prototype` member | distro name `constructor` | names that are not in the table give `'unknown'` | not executed | DistroTables.PrototypeKeyBypassesFallback | DistroTables.Lookup |

The two rows are modelled as follows:
- `ChatAgent.OnChatMessage` is the turn as written. It extracts with `ExtractState` and the verbatim mapping `MapParsedAsWritten`.
  - `VerbatimLevelReachesPrompt` and `VerbatimLevelTurn` show the level `expert` reaching the store and the prompt.
  - The corrected turn `OnChatMessageCorrected` extracts with `ExtractStateCorrected` and `MapParsed`, and keeps the agent well formed on every input.
  - `CorrectedMappingDropsUnknownLevel` and `CorrectedTurnDropsLevel` show it dropping that reply.
- `DistroTables.Lookup` is the corrected lookup, and every `get*` helper and `inferStateFromDistro` use it. `PrototypeKeyBypassesFallback` shows both readings of `constructor`, using `LookupAsWritten` for the code as written.

The same inherited-member read affects all four lookups; the table row shows it on the desktop table.
