/** The meal-plan prompt `/webhook` sends to the completion service. The
    f-string is modelled as the list of its lines, joined by newlines. */
module Prompt {
  import opened Common
  import opened Submissions
  import opened PromptText

  function Digit(i: nat): string
    requires i < 10
  {
    [DigitChar(i)]
  }

  /** `- Member i (First Name: first_name_i): restrictions_i` */
  function MemberLine(i: nat, m: Member): string
    requires 1 <= i <= 4
  {
    "- Member " + Digit(i) + " (First Name: " + Render(m.firstName) + "): " + Render(m.restrictions)
  }

  /** The start of an example entry for day `d`. */
  function DayPrefix(d: nat): string
    requires 1 <= d <= 7
  {
    "    { \"day\": " + Digit(d) + ","
  }

  function Meal(i: nat): string
    requires 1 <= i <= 4
  {
    "\"Meal for member " + Digit(i) + "\""
  }

  /** Example entry for member `i`, day `d`; all but the last end with a comma. */
  function DayLine(i: nat, d: nat): string
    requires 1 <= i <= 4 && 1 <= d <= 7
  {
    DayPrefix(d) + " \"breakfast\": " + Meal(i) + ", \"lunch\": " + Meal(i) + ", \"dinner\": " + Meal(i) + " }"
      + (if d == 7 then "" else ",")
  }

  /** The line that opens member `m`'s example array: its email as a JSON key. */
  function ArrayOpen(m: Member): string
  {
    "  \"" + Render(m.email) + "\": ["
  }

  /** The example array for member `i`: opener, seven day entries, closer. */
  function ExampleBlock(i: nat, m: Member): seq<string>
    requires 1 <= i <= 4
  {
    [ArrayOpen(m)] + seq(7, d requires 0 <= d < 7 => DayLine(i, d + 1)) + [if i == 4 then "  ]" else "  ],"]
  }

  /** Everything before the JSON example: 12 lines. */
  function Preamble(members: Slots): seq<string>
  {
    [Intro, ""]
      + [MemberLine(1, members[0]), MemberLine(2, members[1]), MemberLine(3, members[2]), MemberLine(4, members[3])]
      + ["", Guidance, "", FormatRequest, "", "{"]
  }

  function PromptLines(members: Slots): seq<string>
  {
    Preamble(members)
      + ExampleBlock(1, members[0]) + ExampleBlock(2, members[1])
      + ExampleBlock(3, members[2]) + ExampleBlock(4, members[3])
      + ["}"]
  }

  /** `"\n".join(lines)` */
  function JoinLines(lines: seq<string>): string
    requires |lines| > 0
    decreases |lines|
  {
    if |lines| == 1 then lines[0] else lines[0] + "\n" + JoinLines(lines[1..])
  }

  /** The prompt text built at the `meal_plan_prompt` assignment. When no
      member field holds a newline, splitting it at newlines recovers exactly
      its lines, so the shape proved below is the shape of the text sent. */
  function MealPlanPrompt(members: Slots): (text: string)
    ensures (forall i :: 0 <= i < 4 ==> SingleLine(members[i])) ==> SplitLines(text) == PromptLines(members)
  {
    var text := JoinLines(PromptLines(members));
    if forall i :: 0 <= i < 4 ==> SingleLine(members[i]) then
      PromptLinesHaveNoNewline(members);
      SplitJoin(PromptLines(members));
      text
    else
      text
  }

  // ------------------------------------------------------- reading it back

  /** The position of the first newline of `s`, or `|s|` if there is none. */
  function NewlineIndex(s: string): (i: nat)
    ensures i <= |s|
    ensures i < |s| ==> s[i] == '\n'
    ensures forall j :: 0 <= j < i ==> s[j] != '\n'
  {
    if s == [] || s[0] == '\n' then 0 else 1 + NewlineIndex(s[1..])
  }

  /** `s.split("\n")` */
  function SplitLines(s: string): seq<string>
    decreases |s|
  {
    var i := NewlineIndex(s);
    if i == |s| then [s] else [s[..i]] + SplitLines(s[i + 1..])
  }

  /** Joining lines that contain no newline and splitting again gives them back. */
  lemma {:induction false} SplitJoin(lines: seq<string>)
    requires |lines| > 0
    requires forall k :: 0 <= k < |lines| ==> '\n' !in lines[k]
    ensures SplitLines(JoinLines(lines)) == lines
    decreases |lines|
  {
    var first := lines[0];
    if |lines| == 1 {
      assert NewlineIndex(first) == |first|;
    } else {
      var rest := JoinLines(lines[1..]);
      var s := JoinLines(lines);
      assert s == first + "\n" + rest;
      assert s[|first|] == '\n';
      assert NewlineIndex(s) == |first|;
      assert s[..|first|] == first;
      assert s[|first| + 1..] == rest;
      SplitJoin(lines[1..]);
    }
  }

  // -------------------------------------------------------------- properties

  predicate StartsWith(line: string, prefix: string)
  {
    |prefix| <= |line| && line[..|prefix|] == prefix
  }

  /** An example entry whose `day` field is `d`. */
  predicate IsDayEntry(line: string, d: nat)
    requires 1 <= d <= 7
  {
    StartsWith(line, DayPrefix(d))
  }

  /** The line that closes an example array. */
  predicate IsArrayClose(line: string)
  {
    StartsWith(line, "  ]")
  }

  /** An example array keyed by `email`: opener, exactly seven entries whose
      `day` fields are 1, 2, ..., 7 in that order, and a closer. */
  predicate IsExampleArray(block: seq<string>, email: string)
  {
    && |block| == 9
    && block[0] == "  \"" + email + "\": ["
    && (forall d :: 1 <= d <= 7 ==> IsDayEntry(block[d], d) && !IsArrayClose(block[d]))
    && IsArrayClose(block[8])
  }

  /** Where member i's example array opens (i counted from 0). */
  function BlockStart(i: nat): nat
  {
    12 + 9 * i
  }

  lemma DayLineShape(i: nat, d: nat)
    requires 1 <= i <= 4 && 1 <= d <= 7
    ensures IsDayEntry(DayLine(i, d), d) && !IsArrayClose(DayLine(i, d))
  {
    var line := DayLine(i, d);
    assert line[..|DayPrefix(d)|] == DayPrefix(d);
    assert line[2] == ' ';
  }

  lemma ExampleBlockShape(i: nat, m: Member)
    requires 1 <= i <= 4
    ensures IsExampleArray(ExampleBlock(i, m), Render(m.email))
  {
    var block := ExampleBlock(i, m);
    forall d | 1 <= d <= 7 ensures IsDayEntry(block[d], d) && !IsArrayClose(block[d]) {
      DayLineShape(i, d);
    }
    assert block[8][..3] == "  ]";
  }

  lemma BlockAt(members: Slots, i: nat)
    requires i < 4
    ensures |PromptLines(members)| == 49
    ensures PromptLines(members)[BlockStart(i)..BlockStart(i) + 9] == ExampleBlock(i + 1, members[i])
  {
    var pre := Preamble(members);
    var b1, b2, b3, b4 := ExampleBlock(1, members[0]), ExampleBlock(2, members[1]),
                          ExampleBlock(3, members[2]), ExampleBlock(4, members[3]);
    var lines := PromptLines(members);
    assert |pre| == 12 && |b1| == 9 && |b2| == 9 && |b3| == 9 && |b4| == 9;
    assert lines == pre + b1 + b2 + b3 + b4 + ["}"];
    if i == 0 {
      assert lines[12..21] == b1;
    } else if i == 1 {
      assert lines[21..30] == b2;
    } else if i == 2 {
      assert lines[30..39] == b3;
    } else {
      assert lines[39..48] == b4;
    }
  }

  /** The prompt lists members 1 to 4 in order, one line each with the first
      name and the restriction; then, for each member in order, an example
      array keyed by the member's email with exactly seven day entries. */
  lemma PromptShape(members: Slots)
    ensures |PromptLines(members)| == 49
    ensures forall i :: 0 <= i < 4 ==>
              PromptLines(members)[2 + i] == "- Member " + Digit(i + 1) + " (First Name: "
                + Render(members[i].firstName) + "): " + Render(members[i].restrictions)
    ensures forall i :: 0 <= i < 4 ==>
              IsExampleArray(PromptLines(members)[BlockStart(i)..BlockStart(i) + 9], Render(members[i].email))
  {
    MemberLinesShape(members);
    ExampleArraysShape(members);
  }

  lemma MemberLinesShape(members: Slots)
    ensures |PromptLines(members)| == 49
    ensures forall i :: 0 <= i < 4 ==> PromptLines(members)[2 + i] == MemberLine(i + 1, members[i])
  {
    PromptStartsWithPreamble(members);
    PreambleMemberLines(members);
  }

  lemma PreambleMemberLines(members: Slots)
    ensures forall i :: 0 <= i < 4 ==> Preamble(members)[2 + i] == MemberLine(i + 1, members[i])
  {
    var memberLines := [MemberLine(1, members[0]), MemberLine(2, members[1]),
                        MemberLine(3, members[2]), MemberLine(4, members[3])];
    assert Preamble(members) == [Intro, ""] + memberLines + ["", Guidance, "", FormatRequest, "", "{"];
  }

  lemma PromptStartsWithPreamble(members: Slots)
    ensures |PromptLines(members)| == 49
    ensures forall k :: 0 <= k < 12 ==> PromptLines(members)[k] == Preamble(members)[k]
  {
    var pre := Preamble(members);
    var b1, b2, b3, b4 := ExampleBlock(1, members[0]), ExampleBlock(2, members[1]),
                          ExampleBlock(3, members[2]), ExampleBlock(4, members[3]);
    assert |pre| == 12 && |b1| == 9 && |b2| == 9 && |b3| == 9 && |b4| == 9;
    assert PromptLines(members) == pre + b1 + b2 + b3 + b4 + ["}"];
  }

  lemma ExampleArraysShape(members: Slots)
    ensures |PromptLines(members)| == 49
    ensures forall i :: 0 <= i < 4 ==>
              IsExampleArray(PromptLines(members)[BlockStart(i)..BlockStart(i) + 9], Render(members[i].email))
  {
    MemberLinesShape(members);
    forall i | 0 <= i < 4
      ensures IsExampleArray(PromptLines(members)[BlockStart(i)..BlockStart(i) + 9], Render(members[i].email))
    {
      BlockAt(members, i);
      ExampleBlockShape(i + 1, members[i]);
    }
  }

  /** A slot whose restriction was not submitted (or was null) shows `None`
      on its member line. */
  lemma MissingRestrictionReadsNone(data: map<string, Text>, i: nat)
    requires i < 4
    requires var key := SlotKey("dietary_restrictions_", i + 1); key !in data || data[key] == Null
    ensures var sub := ParseSubmission(data);
            PromptLines(sub.members)[2 + i]
              == "- Member " + Digit(i + 1) + " (First Name: " + Render(sub.members[i].firstName) + "): None"
  {
    var sub := ParseSubmission(data);
    MemberLinesShape(sub.members);
    assert Render(sub.members[i].restrictions) == "None";
  }

  /** The member's text fields that end up inside the prompt. */
  predicate SingleLine(m: Member)
  {
    '\n' !in Render(m.email) && '\n' !in Render(m.firstName) && '\n' !in Render(m.restrictions)
  }

  predicate NoNewlines(lines: seq<string>)
  {
    forall k :: 0 <= k < |lines| ==> '\n' !in lines[k]
  }

  lemma PreambleHasNoNewline(members: Slots)
    requires forall i :: 0 <= i < 4 ==> SingleLine(members[i])
    ensures NoNewlines(Preamble(members))
  {
    FixedTextHasNoNewline();
    forall i | 0 <= i < 4 ensures '\n' !in MemberLine(i + 1, members[i]) {
      assert SingleLine(members[i]);
    }
  }

  lemma DayLineHasNoNewline(i: nat, d: nat)
    requires 1 <= i <= 4 && 1 <= d <= 7
    ensures '\n' !in DayLine(i, d)
  {
    assert '\n' !in DayPrefix(d) && '\n' !in Meal(i);
  }

  lemma ExampleBlockHasNoNewline(i: nat, m: Member)
    requires 1 <= i <= 4 && SingleLine(m)
    ensures NoNewlines(ExampleBlock(i, m))
  {
    var block := ExampleBlock(i, m);
    forall k | 0 <= k < |block| ensures '\n' !in block[k] {
      if 1 <= k <= 7 {
        assert block[k] == DayLine(i, k);
        DayLineHasNoNewline(i, k);
      }
    }
  }

  lemma PromptLinesHaveNoNewline(members: Slots)
    requires forall i :: 0 <= i < 4 ==> SingleLine(members[i])
    ensures NoNewlines(PromptLines(members))
  {
    PreambleHasNoNewline(members);
    ExampleBlockHasNoNewline(1, members[0]);
    ExampleBlockHasNoNewline(2, members[1]);
    ExampleBlockHasNoNewline(3, members[2]);
    ExampleBlockHasNoNewline(4, members[3]);
  }
}
