/** The fixed sentences of the meal-plan prompt. Each sentence is kept as
    short pieces so that the absence of a newline can be checked piece by
    piece. */
module PromptText {
  const Intro1 := "Generate a 7-day weekly "
  const Intro2 := "meal plan for a family "
  const Intro3 := "of four, accommodating "
  const Intro4 := "the following dietary "
  const Intro5 := "restrictions:"

  /** The opening sentence, before the member lines. */
  const Intro := Intro1 + Intro2 + Intro3 + Intro4 + Intro5

  const Guidance1 := "Each day's plan should "
  const Guidance2 := "include breakfast, lunch, "
  const Guidance3 := "and dinner for each "
  const Guidance4 := "member. Ensure the meals "
  const Guidance5 := "are balanced, varied, "
  const Guidance6 := "and realistic for a "
  const Guidance7 := "family, using common "
  const Guidance8 := "ingredients. Avoid any "
  const Guidance9 := "restricted items "
  const Guidance10 := "mentioned above."

  /** The paragraph after the member lines. */
  const Guidance := Guidance1 + Guidance2 + Guidance3 + Guidance4 + Guidance5
                    + Guidance6 + Guidance7 + Guidance8 + Guidance9 + Guidance10

  const Format1 := "**Format the response "
  const Format2 := "in valid JSON with the "
  const Format3 := "following structure**:"

  /** The line that introduces the JSON example. */
  const FormatRequest := Format1 + Format2 + Format3

  lemma Intro1HasNoNewline() ensures '\n' !in Intro1 { }
  lemma Intro2HasNoNewline() ensures '\n' !in Intro2 { }
  lemma Intro3HasNoNewline() ensures '\n' !in Intro3 { }
  lemma Intro4HasNoNewline() ensures '\n' !in Intro4 { }
  lemma Intro5HasNoNewline() ensures '\n' !in Intro5 { }

  lemma Guidance1HasNoNewline() ensures '\n' !in Guidance1 { }
  lemma Guidance2HasNoNewline() ensures '\n' !in Guidance2 { }
  lemma Guidance3HasNoNewline() ensures '\n' !in Guidance3 { }
  lemma Guidance4HasNoNewline() ensures '\n' !in Guidance4 { }
  lemma Guidance5HasNoNewline() ensures '\n' !in Guidance5 { }
  lemma Guidance6HasNoNewline() ensures '\n' !in Guidance6 { }
  lemma Guidance7HasNoNewline() ensures '\n' !in Guidance7 { }
  lemma Guidance8HasNoNewline() ensures '\n' !in Guidance8 { }
  lemma Guidance9HasNoNewline() ensures '\n' !in Guidance9 { }
  lemma Guidance10HasNoNewline() ensures '\n' !in Guidance10 { }

  lemma Format1HasNoNewline() ensures '\n' !in Format1 { }
  lemma Format2HasNoNewline() ensures '\n' !in Format2 { }
  lemma Format3HasNoNewline() ensures '\n' !in Format3 { }

  lemma IntroHasNoNewline()
    ensures '\n' !in Intro
  {
    Intro1HasNoNewline();
    Intro2HasNoNewline();
    Intro3HasNoNewline();
    Intro4HasNoNewline();
    Intro5HasNoNewline();
  }

  lemma GuidanceHasNoNewline()
    ensures '\n' !in Guidance
  {
    Guidance1HasNoNewline();
    Guidance2HasNoNewline();
    Guidance3HasNoNewline();
    Guidance4HasNoNewline();
    Guidance5HasNoNewline();
    Guidance6HasNoNewline();
    Guidance7HasNoNewline();
    Guidance8HasNoNewline();
    Guidance9HasNoNewline();
    Guidance10HasNoNewline();
  }

  lemma FormatRequestHasNoNewline()
    ensures '\n' !in FormatRequest
  {
    Format1HasNoNewline();
    Format2HasNoNewline();
    Format3HasNoNewline();
  }

  /** None of the fixed sentences holds a newline. */
  lemma FixedTextHasNoNewline()
    ensures '\n' !in Intro && '\n' !in Guidance && '\n' !in FormatRequest
  {
    IntroHasNoNewline();
    GuidanceHasNoNewline();
    FormatRequestHasNoNewline();
  }
}
