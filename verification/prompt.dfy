/** The system prompt given to the model on every turn (src/server.ts):
    a fixed template around the style block for the user's experience level
    and the profile's context block. */
module Prompt {
  import opened Options
  import opened Text
  import opened Profile
  import opened Render

  const BeginnerStyle :=
    "## Style: Beginner\nExplain commands step-by-step. Warn about risks with \U{26A0}\U{FE0F}. Show how to undo."
  const IntermediateStyle :=
    "## Style: Intermediate\nClear commands with brief explanations. Mention caveats."
  const AdvancedStyle :=
    "## Style: Advanced\nConcise responses. Commands first, minimal explanation."

  /** `getExperienceInstructions`: the style block of a level. The switch has
      no default branch, so any other string yields `undefined` (`None`). */
  function ExperienceInstructions(level: string): (r: Option<string>)
    ensures r.Some? <==> IsLevel(level)
  {
    if level == Beginner then Some(BeginnerStyle)
    else if level == Intermediate then Some(IntermediateStyle)
    else if level == Advanced then Some(AdvancedStyle)
    else None
  }

  /** The three levels get three different style blocks. */
  lemma InstructionsDistinct(a: string, b: string)
    requires IsLevel(a) && IsLevel(b) && a != b
    ensures ExperienceInstructions(a) != ExperienceInstructions(b)
  {
  }

  /** How a template literal shows the instructions: `undefined` is
      rendered as the text "undefined". */
  function InstructionsText(level: string): string {
    ExperienceInstructions(level).GetOr("undefined")
  }

  const Intro := "You are Tux, a Linux setup assistant. Help users configure and troubleshoot their Linux systems."

  const Rules :=
    "## CRITICAL: Response Length Rules\n"
    + "- Keep responses SHORT and CONCISE (max 150-200 words)\n"
    + "- For complex tasks, break into numbered steps and handle ONE STEP at a time\n"
    + "- After completing a step, ask: \"Ready for the next step?\" or \"Should I continue?\"\n"
    + "- Never dump a wall of text - users will lose important information\n"
    + "- Use bullet points and code blocks for clarity\n"
    + "- If a command is long, show ONLY the command without lengthy explanations"

  const Guidelines :=
    "## Guidelines\n"
    + "- Use the user's package manager (dnf for Fedora, pacman for Arch, apt for Debian/Ubuntu)\n"
    + "- Respect their desktop environment\n"
    + "- Warn before destructive operations with \U{26A0}\U{FE0F}\n"
    + "- When user mentions distro/DE/hardware, acknowledge the update"

  const CommandList :=
    "## Commands\n"
    + "- /reset - Clear profile\n"
    + "- /level beginner|intermediate|advanced - Set experience\n"
    + "- /profile - Show profile"

  /** The template text around the two substituted parts. */
  const Head := Intro + "\n\n"
  const Middle := "\n\n## User Profile\n"
  const Tail := "\n\n" + Rules + "\n\n" + Guidelines + "\n\n" + CommandList + "\n"

  /** `buildSystemPrompt`: the prompt is a function of the profile alone,
      and it carries the style block (or "undefined"), the whole context
      block and the command list. */
  function BuildSystemPrompt(s: LinuxUserState): (r: string)
    ensures Occurs(InstructionsText(s.experienceLevel), r)
    ensures Occurs(FormatStateForAI(s), r)
    ensures Occurs(CommandList, r)
  {
    var instructions := InstructionsText(s.experienceLevel);
    var context := FormatStateForAI(s);
    OccursInTemplate(Head, instructions, Middle, context, Tail);
    CommandsInTail();
    OccursInRight(CommandList, Head + instructions + Middle + context, Tail);
    Head + instructions + Middle + context + Tail
  }

  lemma CommandsInTail()
    ensures Occurs(CommandList, Tail)
  {
    OccursInConcat("\n\n" + Rules + "\n\n" + Guidelines + "\n\n", CommandList, "\n");
  }

  /** A profile whose level is none of the three gets the word "undefined"
      in place of a style block. */
  lemma UnknownLevelPromptSaysUndefined(s: LinuxUserState)
    requires !IsLevel(s.experienceLevel)
    ensures InstructionsText(s.experienceLevel) == "undefined"
    ensures Occurs("undefined", BuildSystemPrompt(s))
  {
  }

  /** A profile with one of the three levels gets its own style block in
      the prompt, never "undefined". */
  lemma WellFormedPromptHasStyleBlock(s: LinuxUserState)
    requires WellFormed(s)
    ensures ExperienceInstructions(s.experienceLevel).Some?
    ensures Occurs(ExperienceInstructions(s.experienceLevel).value, BuildSystemPrompt(s))
  {
  }
}
