/** The chat agent of src/server.ts: the cached and stored profile, the
    slash commands, and one chat turn from the user's text to either a
    direct reply or the system prompt and tool choice for the model.

    The durable store is one optional profile (its "userState" entry). The
    clock, the language model's reply and the JSON parser are parameters;
    one `now` stands for every `Date.now()` of a turn. */
module ChatAgent {
  import opened Options
  import opened Text
  import opened Profile
  import opened Render
  import opened Prompt
  import opened Extraction
  import opened Intent

  /** The in-memory `#userState` and the stored "userState" entry. */
  datatype Agent = Agent(cache: Option<LinuxUserState>, store: Option<LinuxUserState>)

  /** A new instance over an empty store. */
  const Fresh := Agent(None, None)

  /** The profile `getUserState` yields: the cache, else the stored entry,
      else a default created at `now`. */
  function Current(a: Agent, now: int): (r: LinuxUserState)
    ensures a.cache.Some? ==> r == a.cache.value
    ensures a.cache.None? && a.store.Some? ==> r == a.store.value
    ensures a.cache.None? && a.store.None? ==> r == DefaultState(now)
  {
    match a.cache
    case Some(p) => p
    case None => a.store.GetOr(DefaultState(now))
  }

  /** The cache never disagrees with a stored entry. */
  predicate Coherent(a: Agent) {
    a.cache.Some? && a.store.Some? ==> a.cache == a.store
  }

  /** Every profile the agent holds has one of the three levels. */
  predicate AgentWellFormed(a: Agent) {
    (a.cache.Some? ==> WellFormed(a.cache.value)) && (a.store.Some? ==> WellFormed(a.store.value))
  }

  /** The same object after its memory is lost: only the store remains. */
  function Restarted(a: Agent): Agent {
    Agent(None, a.store)
  }

  // ---------------------------------------------------------------------
  // getUserState, updateUserState, resetUserState
  // ---------------------------------------------------------------------

  /** `getUserState`: the profile is cached, so it no longer depends on the
      clock; the store is not written. */
  function GetUserState(a: Agent, now: int): (r: (Agent, LinuxUserState))
    ensures r.1 == Current(a, now)
    ensures a.cache.None? && a.store.None? ==> r.1 == DefaultState(now)
    ensures r.0.store == a.store
    ensures r.0.cache == Some(r.1)
    ensures forall later :: Current(r.0, later) == r.1
    ensures a.cache.Some? ==> r.0 == a
    ensures Coherent(a) ==> Coherent(r.0)
    ensures AgentWellFormed(a) ==> AgentWellFormed(r.0) && WellFormed(r.1)
  {
    var p := Current(a, now);
    (a.(cache := Some(p)), p)
  }

  /** `updateUserState`: the merged profile is both cached and stored. */
  function UpdateUserState(a: Agent, u: PartialState, now: int): (r: Agent)
    ensures r.cache == r.store
    ensures r.store == Some(Merge(Current(a, now), u, now))
    ensures AgentWellFormed(a) && WellFormedUpdate(u) ==> AgentWellFormed(r)
  {
    var current := GetUserState(a, now).1;
    var merged := Merge(current, u, now);
    assert AgentWellFormed(a) && WellFormedUpdate(u) ==> WellFormed(merged) by {
      if AgentWellFormed(a) && WellFormedUpdate(u) {
        MergeKeepsWellFormed(current, u, now);
      }
    }
    Agent(Some(merged), Some(merged))
  }

  /** `resetUserState`: a default profile, both cached and stored, whatever
      was there before. */
  function ResetUserState(a: Agent, now: int): (r: Agent)
    ensures r.cache == r.store == Some(DefaultState(now))
    ensures WellFormed(r.store.value)
  {
    var p := DefaultState(now);
    Agent(Some(p), Some(p))
  }

  /** A second `getUserState` sees the profile of the first and changes
      nothing, however much later it runs. */
  lemma GetUserStateStable(a: Agent, t1: int, t2: int)
    ensures GetUserState(GetUserState(a, t1).0, t2) == GetUserState(a, t1)
  {
  }

  /** Whatever an update or a reset leaves behind is what an instance that
      lost its memory reads back from the store. */
  lemma StoredProfileSurvivesRestart(a: Agent, u: PartialState, t1: int, t2: int)
    ensures Current(Restarted(UpdateUserState(a, u, t1)), t2) == Merge(Current(a, t1), u, t1)
    ensures Current(Restarted(ResetUserState(a, t1)), t2) == DefaultState(t1)
  {
  }

  /** A coherent agent with a stored entry sees the same profile before
      and after losing its memory. */
  lemma CoherentRestart(a: Agent, t1: int, t2: int)
    requires Coherent(a) && a.store.Some?
    ensures Current(Restarted(a), t2) == Current(a, t1)
  {
  }

  // ---------------------------------------------------------------------
  // handleCommand
  // ---------------------------------------------------------------------

  datatype Command = ResetCommand | ProfileCommand | LevelCommand(level: string) | NoCommand

  const LevelWord := "/level"

  /** `\s` in positions `i .. k - 1`. */
  predicate SpacesBetween(t: string, i: int, k: int)
    requires 0 <= i <= k <= |t|
  {
    forall j | i <= j < k :: IsSpace(t[j])
  }

  /** The whole of `t` matches `^/level\s+(beginner|intermediate|advanced)$`
      with the whitespace ending at `k` and the group capturing `level`. */
  predicate LevelCommandAt(t: string, k: int, level: string) {
    |LevelWord| < k <= |t| && t[..|LevelWord|] == LevelWord && SpacesBetween(t, |LevelWord|, k)
    && t[k..] == level && IsLevel(level)
  }

  /** The end of the run of whitespace that starts at `i`. */
  function SpaceRunEnd(t: string, i: nat): (k: nat)
    requires i <= |t|
    ensures i <= k <= |t| && SpacesBetween(t, i, k)
    ensures k == |t| || !IsSpace(t[k])
    decreases |t| - i
  {
    if i < |t| && IsSpace(t[i]) then SpaceRunEnd(t, i + 1) else i
  }

  /** The level a `/level` command names, if `t` is one. */
  function ParseLevel(t: string): (r: Option<string>)
    ensures r.Some? ==> IsLevel(r.value)
  {
    if |t| < |LevelWord| || t[..|LevelWord|] != LevelWord then None
    else
      var k := SpaceRunEnd(t, |LevelWord|);
      if k > |LevelWord| && IsLevel(t[k..]) then Some(t[k..]) else None
  }

  /** The parser accepts exactly the texts the regular expression matches,
      and captures the same level. */
  lemma ParseLevelIff(t: string, level: string)
    ensures ParseLevel(t) == Some(level) <==> exists k :: LevelCommandAt(t, k, level)
  {
    if ParseLevel(t) == Some(level) {
      assert LevelCommandAt(t, SpaceRunEnd(t, |LevelWord|), level);
    }
    if k :| LevelCommandAt(t, k, level) {
      var e := SpaceRunEnd(t, |LevelWord|);
      assert t[k] == level[0];
      assert !IsSpace(t[k]);
      assert e == k;
    }
  }

  /** A level command names one of the three levels. */
  predicate ValidCommand(c: Command) {
    c.LevelCommand? ==> IsLevel(c.level)
  }

  /** What `handleCommand` recognises in the trimmed, lower-cased text. */
  function ParseCommand(text: string): (r: Command)
    ensures ValidCommand(r)
    ensures r == ResetCommand <==> Normalize(text) == "/reset"
    ensures r == ProfileCommand <==> Normalize(text) == "/profile"
    ensures r.LevelCommand? <==> ParseLevel(Normalize(text)).Some?
    ensures r.LevelCommand? ==> ParseLevel(Normalize(text)) == Some(r.level)
  {
    var t := Normalize(text);
    if t == "/reset" then ResetCommand
    else if t == "/profile" then ProfileCommand
    else match ParseLevel(t)
      case Some(level) => LevelCommand(level)
      case None => NoCommand
  }

  const ResetReply := "\U{1F504} Profile reset! Your conversation history has been cleared.\n\nTell me about your Linux setup (distro, desktop, hardware) or use the buttons to set your profile."
  const ProfileHeading := "\U{1F4CB} **Your Current Profile:**\n\n"
  const LevelReplyStart := "\U{2705} Experience level set to **"
  const LevelReplyEnd := "**. I'll adjust my explanations accordingly."

  /** The branches of `handleCommand`: the reply, if the command is one,
      and the agent after it. */
  function Execute(a: Agent, c: Command, now: int): (r: (Agent, Option<string>))
    requires ValidCommand(c)
    ensures r.1.None? <==> c == NoCommand
    ensures r.1.Some? ==> |r.1.value| > 0
    ensures r.1.None? ==> r.0 == a
    ensures c == ResetCommand ==> r.0.store == Some(DefaultState(now)) && Current(r.0, now) == DefaultState(now)
    ensures c == ProfileCommand ==> r.0.store == a.store && Occurs(FormatStateForAI(Current(a, now)), r.1.value)
    ensures c.LevelCommand? ==>
      && r.0.store == Some(Current(a, now).(experienceLevel := c.level, updatedAt := now))
      && Occurs(c.level, r.1.value)
    ensures forall later :: r.1.Some? ==> Current(r.0, later) == Current(r.0, now)
    ensures Coherent(a) ==> Coherent(r.0)
    ensures AgentWellFormed(a) ==> AgentWellFormed(r.0)
  {
    match c
    case ResetCommand => (ResetUserState(a, now), Some(ResetReply))
    case ProfileCommand =>
      var (b, reply) := ShowProfile(a, now);
      (b, Some(reply))
    case LevelCommand(level) =>
      var (b, reply) := SetLevel(a, level, now);
      (b, Some(reply))
    case NoCommand => (a, None)
  }

  /** `/profile`: the context block of the current profile, which is now
      cached; the store is not written. */
  function ShowProfile(a: Agent, now: int): (r: (Agent, string))
    ensures r.0.store == a.store
    ensures a.cache.Some? ==> r.0 == a
    ensures Occurs(FormatStateForAI(Current(a, now)), r.1)
    ensures forall later :: Current(r.0, later) == Current(a, now)
    ensures Coherent(a) ==> Coherent(r.0)
    ensures AgentWellFormed(a) ==> AgentWellFormed(r.0)
  {
    var (b, p) := GetUserState(a, now);
    OccursInConcat(ProfileHeading, FormatStateForAI(p), "");
    assert ProfileHeading + FormatStateForAI(p) + "" == ProfileHeading + FormatStateForAI(p);
    (b, ProfileHeading + FormatStateForAI(p))
  }

  /** `/level <level>`: only the level and the update time change, and the
      result is stored. */
  function SetLevel(a: Agent, level: string, now: int): (r: (Agent, string))
    requires IsLevel(level)
    ensures r.0.cache == r.0.store == Some(Current(a, now).(experienceLevel := level, updatedAt := now))
    ensures Occurs(level, r.1)
    ensures AgentWellFormed(a) ==> AgentWellFormed(r.0)
  {
    MergeLevelOnly(Current(a, now), level, now);
    OccursInTemplate(LevelReplyStart, level, LevelReplyEnd, "", "");
    assert LevelReplyStart + level + LevelReplyEnd + "" + "" == LevelReplyStart + level + LevelReplyEnd;
    (UpdateUserState(a, LevelUpdate(level), now), LevelReplyStart + level + LevelReplyEnd)
  }

  /** `handleCommand(text)`: on the trimmed, lower-cased text, `/reset`
      stores a default, `/profile` quotes the context block of the current
      profile without writing the store, a `/level` command stores the new
      level, and anything else gets no reply and changes nothing. */
  function HandleCommand(a: Agent, text: string, now: int): (r: (Agent, Option<string>))
    ensures r.1.Some? <==> ParseCommand(text) != NoCommand
    ensures r.1.Some? ==> |r.1.value| > 0
    ensures r.1.None? ==> r.0 == a
    ensures Normalize(text) == "/reset" ==> r.0.cache == r.0.store == Some(DefaultState(now)) && r.1 == Some(ResetReply)
    ensures Normalize(text) == "/profile" ==>
      r.0.store == a.store && Occurs(FormatStateForAI(Current(a, now)), r.1.value)
    ensures ParseLevel(Normalize(text)).Some? ==>
      r.0.store == Some(Current(a, now).(experienceLevel := ParseLevel(Normalize(text)).value, updatedAt := now))
  {
    Execute(a, ParseCommand(text), now)
  }

  /** Surrounding blanks and capitals do not hide a command: the text
      resets and stores the default profile and gets a reply. */
  lemma ShoutedResetResets(a: Agent, now: int)
    ensures HandleCommand(a, "  /RESET ", now).0 == Agent(Some(DefaultState(now)), Some(DefaultState(now)))
    ensures HandleCommand(a, "  /RESET ", now).1.Some?
  {
    ShoutedResetIsReset();
  }

  lemma ShoutedResetIsReset()
    ensures ParseCommand("  /RESET ") == ResetCommand
  {
    var l := Lower("  /RESET ");
    assert l == "  /reset ";
    assert TrimStart(l) == "/reset ";
    assert TrimEnd("/reset ") == "/reset";
  }

  /** Several blanks may separate the word from the level. */
  lemma SpacedLevelIsLevel()
    ensures ParseCommand("/level   Advanced") == LevelCommand(Advanced)
  {
    SpacedLevelNormalized();
    SpacedLevelParsed();
  }

  lemma SpacedLevelParsed()
    ensures ParseLevel("/level   advanced") == Some(Advanced)
  {
    var t := "/level   advanced";
    assert t[..6] == LevelWord;
    assert SpaceRunEnd(t, 6) == 9;
    assert t[9..] == Advanced;
  }

  lemma SpacedLevelNormalized()
    ensures Normalize("/level   Advanced") == "/level   advanced"
  {
    var l := Lower("/level   Advanced");
    assert l == "/level   advanced";
    assert TrimStart(l) == l;
    assert TrimEnd(l) == l;
  }

  /** The blank after `/level` is required, and the level must be one of
      the three: such texts are no command and change nothing. */
  lemma MalformedLevelIsNoCommand(a: Agent, now: int)
    ensures HandleCommand(a, "/levelbeginner", now) == (a, None)
    ensures HandleCommand(a, "/level extreme", now) == (a, None)
  {
    GluedLevelIsNoCommand();
    UnknownLevelIsNoCommand();
  }

  lemma GluedLevelIsNoCommand()
    ensures ParseCommand("/levelbeginner") == NoCommand
  {
    var t := "/levelbeginner";
    LowerOfLowered(t);
    assert TrimStart(t) == t && TrimEnd(t) == t;
    assert SpaceRunEnd(t, 6) == 6;
  }

  lemma UnknownLevelIsNoCommand()
    ensures ParseCommand("/level extreme") == NoCommand
  {
    var t := "/level extreme";
    LowerOfLowered(t);
    assert TrimStart(t) == t && TrimEnd(t) == t;
    assert SpaceRunEnd(t, 6) == 7;
  }

  // ---------------------------------------------------------------------
  // onChatMessage
  // ---------------------------------------------------------------------

  /** A message part: text, or anything else (a tool call, a file). */
  datatype Part = TextPart(text: string) | OtherPart

  /** A chat message; `parts` may be missing. */
  datatype Message = Message(parts: Option<seq<Part>>)

  /** The texts of the text parts, in order. */
  function TextsOf(parts: seq<Part>): (r: seq<string>)
    ensures |r| <= |parts|
    ensures |r| == 0 <==> NoTextParts(parts)
    ensures |parts| == 1 ==> r == TextOf(parts[0])
  {
    if |parts| == 0 then []
    else
      assert forall i | 1 <= i < |parts| :: parts[i] == parts[1..][i - 1];
      TextOf(parts[0]) + TextsOf(parts[1..])
  }

  /** Filtering a concatenation filters each side and keeps their order:
      with the one-part cases this pins `TextsOf` down as the in-order
      texts of the text parts, each once. */
  lemma {:induction false} TextsOfAppend(p1: seq<Part>, p2: seq<Part>)
    ensures TextsOf(p1 + p2) == TextsOf(p1) + TextsOf(p2)
  {
    if |p1| == 0 {
      assert p1 + p2 == p2;
    } else {
      var q := p1 + p2;
      assert q[0] == p1[0] && q[1..] == p1[1..] + p2;
      TextsOfAppend(p1[1..], p2);
    }
  }

  /** The texts of a part on its own. */
  function TextOf(p: Part): seq<string> {
    if p.TextPart? then [p.text] else []
  }

  /** No part is a text part. */
  predicate NoTextParts(parts: seq<Part>) {
    forall j | 0 <= j < |parts| :: parts[j].OtherPart?
  }

  /** The parts of the last message, if there is one and it has parts. */
  function LastParts(messages: seq<Message>): seq<Part> {
    if |messages| == 0 then [] else messages[|messages| - 1].parts.GetOr([])
  }

  /** The user's text: the text parts of the last message joined by a
      blank; it holds every one of them, and is "" when there is none. */
  function UserText(messages: seq<Message>): (r: string)
    ensures forall i | 0 <= i < |LastParts(messages)| && LastParts(messages)[i].TextPart? ::
              Occurs(LastParts(messages)[i].text, r)
    ensures r == Join(TextsOf(LastParts(messages)), " ")
    ensures |messages| == 0 || NoTextParts(LastParts(messages)) ==> r == ""
  {
    var parts := LastParts(messages);
    forall i | 0 <= i < |parts| && parts[i].TextPart?
      ensures Occurs(parts[i].text, Join(TextsOf(parts), " "))
    {
      TextPartInJoin(parts, i);
    }
    Join(TextsOf(parts), " ")
  }

  /** Where the text of text part `i` sits among the texts. */
  lemma {:induction false} TextIndex(parts: seq<Part>, i: nat) returns (k: nat)
    requires i < |parts| && parts[i].TextPart?
    ensures k < |TextsOf(parts)| && TextsOf(parts)[k] == parts[i].text
  {
    assert TextsOf(parts) == TextOf(parts[0]) + TextsOf(parts[1..]);
    if i == 0 {
      k := 0;
    } else {
      assert parts[1..][i - 1] == parts[i];
      var k' := TextIndex(parts[1..], i - 1);
      k := |TextOf(parts[0])| + k';
    }
  }

  lemma TextPartInJoin(parts: seq<Part>, i: nat)
    requires i < |parts| && parts[i].TextPart?
    ensures Occurs(parts[i].text, Join(TextsOf(parts), " "))
  {
    var texts := TextsOf(parts);
    var k := TextIndex(parts, i);
    PartOccursInJoin(texts, " ", k);
  }

  /** The text of a last message whose parts are two runs, each with some
      text, is the text of the first run, one blank, and the text of the
      second: nothing is dropped, reordered or added. */
  lemma UserTextInOrder(p1: seq<Part>, p2: seq<Part>)
    requires !NoTextParts(p1) && !NoTextParts(p2)
    ensures UserText([Message(Some(p1 + p2))]) == UserText([Message(Some(p1))]) + " " + UserText([Message(Some(p2))])
  {
    TextsOfAppend(p1, p2);
    JoinAppend(TextsOf(p1), TextsOf(p2), " ");
  }

  /** What the agent sends back: the command reply as it is, or a request
      to the model, with or without the tools, whose system prompt is the
      one `buildSystemPrompt` renders for `profile`. */
  datatype Response = DirectReply(text: string) | Generate(profile: LinuxUserState, withTools: bool)
  {
    function System(): string
      requires Generate?
    {
      BuildSystemPrompt(profile)
    }
  }

  /** `if (Object.keys(stateUpdates).length > 0) updateUserState(...)`:
      a non-empty update is merged and stored; the empty one touches
      nothing. */
  function Absorb(b: Agent, u: PartialState, now: int): (r: Agent)
    ensures IsEmpty(u) ==> r == b
    ensures !IsEmpty(u) ==> r.cache == r.store == Some(Merge(Current(b, now), u, now))
    ensures Coherent(b) ==> Coherent(r)
    ensures AgentWellFormed(b) && WellFormedUpdate(u) ==> AgentWellFormed(r)
  {
    if IsEmpty(u) then b else UpdateUserState(b, u, now)
  }

  /** The request to the model: the prompt of the current profile, which is
      now cached, and the tools only with a scheduling request. */
  function Ask(c: Agent, text: string, now: int): (r: (Agent, Response))
    ensures r.1.Generate?
    ensures r.1.withTools <==> WantsSchedule(text)
    ensures forall later :: r.1.profile == Current(r.0, later)
    ensures Coherent(c) ==> Coherent(r.0)
    ensures AgentWellFormed(c) ==> AgentWellFormed(r.0)
  {
    var got := GetUserState(c, now);
    (got.0, Generate(got.1, ScheduleIntent(text)))
  }

  /** A turn once the extraction's update `u` is known (it is only computed,
      and only matters, when the text is no command): a command is answered
      directly; anything else absorbs `u` and goes to the model. */
  function Respond(a: Agent, messages: seq<Message>, u: PartialState, now: int): (r: (Agent, Response))
    ensures r.1.DirectReply? <==> ParseCommand(UserText(messages)) != NoCommand
    ensures r.1.DirectReply? ==>
      var handled := HandleCommand(a, UserText(messages), now);
      r.0 == handled.0 && handled.1 == Some(r.1.text)
    ensures r.1.Generate? ==> (r.1.withTools <==> WantsSchedule(UserText(messages)))
    ensures r.1.Generate? ==> r.1.profile == Current(r.0, now)
    ensures Coherent(a) ==> Coherent(r.0)
    ensures AgentWellFormed(a) && (r.1.Generate? ==> WellFormedUpdate(u)) ==> AgentWellFormed(r.0)
  {
    var text := UserText(messages);
    var (b, command) := HandleCommand(a, text, now);
    if command.Some? && command.value != "" then (b, DirectReply(command.value))
    else Ask(Absorb(b, u, now), text, now)
  }

  /** `onChatMessage`, given the extraction model's reply (`None` when the
      call throws) and the JSON parser: a command is answered directly and
      nothing is extracted; anything else merges what the extraction as
      written returns and goes to the model. The agent stays well formed
      when the extracted level, if any, is one of the three. */
  function OnChatMessage(a: Agent, messages: seq<Message>, reply: Option<string>, parse: Parser, now: int): (r: (Agent, Response))
    ensures r.1.DirectReply? <==> ParseCommand(UserText(messages)) != NoCommand
    ensures r.1.Generate? ==> (r.1.withTools <==> WantsSchedule(UserText(messages)))
    ensures r.1.Generate? ==> r.1.profile == Current(r.0, now)
    ensures Coherent(a) ==> Coherent(r.0)
    ensures AgentWellFormed(a) && (r.1.Generate? ==> WellFormedUpdate(ExtractState(reply, parse))) ==> AgentWellFormed(r.0)
  {
    Respond(a, messages, ExtractState(reply, parse), now)
  }

  /** The turn with the corrected extraction: it never lets a level outside
      the three into the agent, so every prompt carries a style block. */
  function OnChatMessageCorrected(a: Agent, messages: seq<Message>, reply: Option<string>, parse: Parser, now: int): (r: (Agent, Response))
    ensures r.1.DirectReply? <==> ParseCommand(UserText(messages)) != NoCommand
    ensures r.1.DirectReply? ==>
      var handled := HandleCommand(a, UserText(messages), now);
      r.0 == handled.0 && handled.1 == Some(r.1.text)
    ensures r.1.Generate? ==> (r.1.withTools <==> WantsSchedule(UserText(messages)))
    ensures r.1.Generate? ==> r.1.profile == Current(r.0, now)
    ensures Coherent(a) ==> Coherent(r.0)
    ensures AgentWellFormed(a) ==> AgentWellFormed(r.0)
    ensures AgentWellFormed(a) && r.1.Generate? ==> WellFormed(r.1.profile)
  {
    var r := Respond(a, messages, ExtractStateCorrected(reply, parse), now);
    assert r.1.Generate? ==> r.0.cache == Some(r.1.profile);
    r
  }

  /** A command turn is exactly `handleCommand`: its reply is sent as it
      is, and the agent is the one `handleCommand` leaves. */
  lemma CommandTurnIsHandleCommand(a: Agent, messages: seq<Message>, reply: Option<string>, parse: Parser, now: int)
    requires ParseCommand(UserText(messages)) != NoCommand
    ensures var r := OnChatMessage(a, messages, reply, parse, now);
      var handled := HandleCommand(a, UserText(messages), now);
      && r.1.DirectReply?
      && r.0 == handled.0
      && handled.1 == Some(r.1.text)
  {
  }

  /** A command is answered without the model: its reply and effect do not
      depend on what the extraction model would have said. */
  lemma CommandIgnoresModel(a: Agent, messages: seq<Message>, r1: Option<string>, p1: Parser, r2: Option<string>, p2: Parser, now: int)
    requires ParseCommand(UserText(messages)) != NoCommand
    ensures OnChatMessage(a, messages, r1, p1, now) == OnChatMessage(a, messages, r2, p2, now)
  {
  }

  /** When nothing is extracted from an ordinary turn, the store is not
      written. */
  lemma NothingExtractedNothingStored(a: Agent, messages: seq<Message>, reply: Option<string>, parse: Parser, now: int)
    requires ParseCommand(UserText(messages)) == NoCommand
    requires IsEmpty(ExtractState(reply, parse))
    ensures OnChatMessage(a, messages, reply, parse, now).0.store == a.store
    ensures OnChatMessage(a, messages, reply, parse, now).1.profile == Current(a, now)
  {
  }

  /** Facts extracted from an ordinary turn are merged into the profile,
      stored, and the prompt of that very turn is built from the merge. */
  lemma ExtractedFactsReachPrompt(a: Agent, messages: seq<Message>, reply: Option<string>, parse: Parser, now: int)
    requires ParseCommand(UserText(messages)) == NoCommand
    requires !IsEmpty(ExtractState(reply, parse))
    ensures var r := OnChatMessage(a, messages, reply, parse, now);
      && r.0.store == Some(Merge(Current(a, now), ExtractState(reply, parse), now))
      && r.1.profile == r.0.store.value
  {
  }

  /** A turn of a well-formed agent whose extraction names no level outside
      the three asks the model with a well-formed profile, so its prompt
      carries a real style block. */
  lemma TurnProfileWellFormed(a: Agent, messages: seq<Message>, reply: Option<string>, parse: Parser, now: int)
    requires AgentWellFormed(a) && WellFormedUpdate(ExtractState(reply, parse))
    ensures var r := OnChatMessage(a, messages, reply, parse, now);
      r.1.Generate? ==> WellFormed(r.1.profile)
  {
    var r := OnChatMessage(a, messages, reply, parse, now);
    assert r.1.Generate? ==> r.0.cache == Some(r.1.profile);
  }

  /** As written, an ordinary turn whose extraction reply parses to
      `{"experienceLevel":"expert"}` stores "expert" and prompts the model
      with that profile, so (by `PromptSaysUndefined`) with "undefined" where
      the style block belongs; the agent is no longer well formed. */
  lemma VerbatimLevelTurn(a: Agent, messages: seq<Message>, reply: Option<string>, parse: Parser, now: int)
    requires ParseCommand(UserText(messages)) == NoCommand
    requires !NothingParsed(reply, parse) && ParsedReply(reply, parse) == ExpertReply
    ensures var r := OnChatMessage(a, messages, reply, parse, now);
      && r.1.Generate?
      && r.0.store.Some? && r.0.store.value.experienceLevel == "expert"
      && !AgentWellFormed(r.0)
      && !IsLevel(r.1.profile.experienceLevel)
  {
    VerbatimTurnStoresExpert(a, messages, reply, parse, now);
  }

  /** A request to the model whose profile has a level outside the three
      has "undefined" in its system prompt. */
  lemma PromptSaysUndefined(g: Response)
    requires g.Generate? && !IsLevel(g.profile.experienceLevel)
    ensures Occurs("undefined", g.System())
  {
    UnknownLevelPromptSaysUndefined(g.profile);
  }

  lemma VerbatimTurnStoresExpert(a: Agent, messages: seq<Message>, reply: Option<string>, parse: Parser, now: int)
    requires ParseCommand(UserText(messages)) == NoCommand
    requires !NothingParsed(reply, parse) && ParsedReply(reply, parse) == ExpertReply
    ensures var r := OnChatMessage(a, messages, reply, parse, now);
      && r.1.Generate?
      && r.0.cache == r.0.store == Some(r.1.profile)
      && r.1.profile.experienceLevel == "expert"
  {
    VerbatimExpertUpdate();
    assert ExtractState(reply, parse) == ExpertUpdate;
    ExpertMerged(Current(a, now), now);
  }

  /** The corrected turn drops that level: nothing is stored and the prompt
      is built from the profile as it was. */
  lemma CorrectedTurnDropsLevel(a: Agent, messages: seq<Message>, reply: Option<string>, parse: Parser, now: int)
    requires ParseCommand(UserText(messages)) == NoCommand
    requires !NothingParsed(reply, parse) && ParsedReply(reply, parse) == ExpertReply
    ensures var r := OnChatMessageCorrected(a, messages, reply, parse, now);
      && r.1.Generate?
      && r.0.store == a.store
      && r.1.profile == Current(a, now)
  {
    CorrectedMappingDropsUnknownLevel();
    assert ExtractStateCorrected(reply, parse) == EmptyUpdate;
  }

  /** A new instance over an empty store is coherent and well formed. */
  lemma FreshAgentWellFormed()
    ensures Coherent(Fresh) && AgentWellFormed(Fresh)
  {
  }
}
