/** The prompt the letter generator sends to the text model: a header naming
    the letter type, one line per intake field, an optional amount line and
    a fixed list of drafting requirements, with empty lines dropped and the
    rest joined by newlines. */
module Prompt {

  const Newline: char := '\n'

  /** The intake fields quoted in the prompt, in order. */
  const FieldKeys: seq<string> :=
    ["senderName", "senderAddress", "recipientName", "recipientAddress", "issueDescription", "desiredOutcome"]

  /** The fixed tail of the prompt. The longer lines are written in pieces
      so that their freedom from newlines follows piece by piece. */
  const Requirements: seq<string> := [
    "Requirements:",
    "- Write a professional, " + "legally sound letter (300-500 words)",
    "- Include proper date and addresses",
    "- Present facts clearly",
    "- State clear demands with deadlines",
    "- Maintain professional " + "legal tone throughout",
    "- Format as a complete letter " + "with proper structure"]

  const Closing: string := "Return only the letter content, " + "no additional commentary " + "or explanations."

  /** `key.replace(/_/g, " ")`. */
  function Humanize(key: string): (r: string)
    ensures |r| == |key|
    ensures forall i :: 0 <= i < |key| ==> r[i] == (if key[i] == '_' then ' ' else key[i])
    ensures '_' !in r
    ensures '_' !in key ==> r == key
  {
    seq(|key|, i requires 0 <= i < |key| => if key[i] == '_' then ' ' else key[i])
  }

  /** The value of an intake field, the empty string when it is absent. */
  function FieldValue(intake: map<string, string>, key: string): string {
    if key in intake then intake[key] else ""
  }

  function FieldLine(intake: map<string, string>, key: string): string {
    Humanize(key) + ": " + FieldValue(intake, key)
  }

  function Header(letterType: string): string {
    "Draft a professional " + letterType + " letter with the following details:"
  }

  /** The amount line, empty unless `amountDemanded` is a non-empty value. */
  function AmountLine(intake: map<string, string>): string {
    if FieldValue(intake, "amountDemanded") != "" then "Amount: $" + intake["amountDemanded"] else ""
  }

  function FieldLines(intake: map<string, string>): seq<string> {
    seq(|FieldKeys|, i requires 0 <= i < |FieldKeys| => FieldLine(intake, FieldKeys[i]))
  }

  /** The line list before empty lines are filtered out. */
  function RawLines(letterType: string, intake: map<string, string>): seq<string> {
    [Header(letterType), ""] + FieldLines(intake) + [AmountLine(intake), ""] + Requirements + ["", Closing]
  }

  /** The no-newline condition of a prompt line. */
  predicate OneLine(s: string) {
    Newline !in s
  }

  /** `filter(Boolean)` on strings: keeps the non-empty ones in order. */
  function DropEmpty(xs: seq<string>): (r: seq<string>)
    ensures |r| <= |xs|
    ensures forall i :: 0 <= i < |r| ==> r[i] != "" && r[i] in xs
    decreases |xs|
  {
    if xs == [] then []
    else if xs[0] == "" then DropEmpty(xs[1..])
    else [xs[0]] + DropEmpty(xs[1..])
  }

  /** `lines.join("\n")`. */
  function Join(xs: seq<string>, sep: char): string
    decreases |xs|
  {
    if |xs| == 0 then ""
    else if |xs| == 1 then xs[0]
    else xs[0] + [sep] + Join(xs[1..], sep)
  }

  /** The prompt lines after filtering. */
  function PromptLines(letterType: string, intake: map<string, string>): seq<string> {
    DropEmpty(RawLines(letterType, intake))
  }

  /** `buildPrompt(letterType, intakeData)`. */
  function BuildPrompt(letterType: string, intake: map<string, string>): string {
    Join(PromptLines(letterType, intake), Newline)
  }

  // ---------------------------------------------------------------------
  // Reading a prompt back into lines

  function IndexOf(s: string, c: char): (i: nat)
    requires c in s
    ensures i < |s| && s[i] == c && c !in s[..i]
  {
    if s[0] == c then 0
    else
      assert c in s[1..];
      var j := IndexOf(s[1..], c);
      assert s[1..][..j] == s[1..j + 1];
      1 + j
  }

  /** `s.split(sep)`. */
  function Split(s: string, sep: char): (r: seq<string>)
    ensures |r| >= 1
    decreases |s|
  {
    if sep !in s then [s]
    else
      var i := IndexOf(s, sep);
      [s[..i]] + Split(s[i + 1..], sep)
  }

  /** Splitting a join recovers the lines, provided no line holds the
      separator. */
  lemma {:induction false} SplitJoin(xs: seq<string>, sep: char)
    requires |xs| >= 1
    requires forall i :: 0 <= i < |xs| ==> sep !in xs[i]
    ensures Split(Join(xs, sep), sep) == xs
    decreases |xs|
  {
    if |xs| > 1 {
      var s := Join(xs, sep);
      var rest := Join(xs[1..], sep);
      assert s == xs[0] + [sep] + rest;
      assert s[|xs[0]|] == sep;
      var i := IndexOf(s, sep);
      assert s[..|xs[0]|] == xs[0];
      assert s[i + 1..] == rest;
      SplitJoin(xs[1..], sep);
    }
  }

  // ---------------------------------------------------------------------
  // The shape of the prompt

  lemma {:induction false} DropEmptyAppend(a: seq<string>, b: seq<string>)
    ensures DropEmpty(a + b) == DropEmpty(a) + DropEmpty(b)
    decreases |a|
  {
    if a != [] {
      assert (a + b)[0] == a[0];
      assert (a + b)[1..] == a[1..] + b;
      DropEmptyAppend(a[1..], b);
      if a[0] == "" {
        assert DropEmpty(a + b) == DropEmpty(a[1..] + b);
      } else {
        assert DropEmpty(a + b) == [a[0]] + DropEmpty(a[1..] + b);
        assert DropEmpty(a) == [a[0]] + DropEmpty(a[1..]);
      }
    } else {
      assert a + b == b;
    }
  }

  lemma {:induction false} DropEmptyKeepsFull(xs: seq<string>)
    requires forall i :: 0 <= i < |xs| ==> xs[i] != ""
    ensures DropEmpty(xs) == xs
    decreases |xs|
  {
    if xs != [] {
      DropEmptyKeepsFull(xs[1..]);
    }
  }

  /** The filtered prompt is the header, the six field lines in order, the
      amount line exactly when an amount was demanded, and the fixed
      requirements and closing line; no line is empty. */
  lemma PromptShape(letterType: string, intake: map<string, string>)
    ensures var lines := PromptLines(letterType, intake);
            var amount := if AmountLine(intake) != "" then [AmountLine(intake)] else [];
            && lines == [Header(letterType)] + FieldLines(intake) + amount + Requirements + [Closing]
            && |lines| == (if FieldValue(intake, "amountDemanded") != "" then 16 else 15)
            && lines[0] == Header(letterType)
            && forall i :: 0 <= i < |lines| ==> lines[i] != ""
  {
    var a1: seq<string> := [Header(letterType), ""];
    var a2 := FieldLines(intake);
    var a3: seq<string> := [AmountLine(intake), ""];
    var a4 := Requirements;
    var a5: seq<string> := ["", Closing];
    PromptPartsFiltered(letterType, intake);
    assert RawLines(letterType, intake) == a1 + a2 + a3 + a4 + a5;
    DropEmptyAppend(a1 + a2 + a3 + a4, a5);
    DropEmptyAppend(a1 + a2 + a3, a4);
    DropEmptyAppend(a1 + a2, a3);
    DropEmptyAppend(a1, a2);
    RequirementsNonEmpty();
  }

  lemma PromptPartsFiltered(letterType: string, intake: map<string, string>)
    ensures DropEmpty([Header(letterType), ""]) == [Header(letterType)]
    ensures DropEmpty(FieldLines(intake)) == FieldLines(intake)
    ensures DropEmpty([AmountLine(intake), ""]) == (if AmountLine(intake) != "" then [AmountLine(intake)] else [])
    ensures DropEmpty(Requirements) == Requirements
    ensures DropEmpty(["", Closing]) == [Closing]
  {
    DropEmptyPair(Header(letterType));
    FieldLinesFiltered(intake);
    DropEmptyPair(AmountLine(intake));
    RequirementsFiltered();
    ClosingFiltered();
  }

  lemma FieldLinesFiltered(intake: map<string, string>)
    ensures DropEmpty(FieldLines(intake)) == FieldLines(intake)
  {
    FieldLinesNonEmpty(intake);
    DropEmptyKeepsFull(FieldLines(intake));
  }

  lemma RequirementsFiltered()
    ensures DropEmpty(Requirements) == Requirements
  {
    RequirementsNonEmpty();
    DropEmptyKeepsFull(Requirements);
  }

  lemma ClosingFiltered()
    ensures DropEmpty(["", Closing]) == [Closing]
  {
    assert ["", Closing][1..] == [Closing];
    DropEmptyKeepsFull([Closing]);
  }

  lemma DropEmptyPair(s: string)
    ensures DropEmpty([s, ""]) == (if s != "" then [s] else [])
  {
    assert [s, ""][1..] == [""];
    assert DropEmpty([""]) == [];
  }

  lemma FieldLinesNonEmpty(intake: map<string, string>)
    ensures forall i :: 0 <= i < |FieldLines(intake)| ==> FieldLines(intake)[i] != ""
  {
    forall i | 0 <= i < |FieldKeys| ensures FieldLine(intake, FieldKeys[i]) != "" {
      assert |FieldLine(intake, FieldKeys[i])| >= 2;
    }
  }

  lemma RequirementsNonEmpty()
    ensures forall i :: 0 <= i < |Requirements| ==> Requirements[i] != ""
  {
  }

  lemma RequirementsOneLine()
    ensures forall i :: 0 <= i < |Requirements| ==> OneLine(Requirements[i])
    ensures OneLine(Closing)
  {
    forall i | 0 <= i < |Requirements| ensures OneLine(Requirements[i]) {
      RequirementOneLine(i);
    }
    ClosingOneLine();
  }

  lemma ClosingOneLine()
    ensures OneLine(Closing)
  {
    OneLineConcat("Return only the letter content, ", "no additional commentary ");
    OneLineConcat("Return only the letter content, " + "no additional commentary ", "or explanations.");
  }

  lemma RequirementOneLine(i: nat)
    requires i < |Requirements|
    ensures OneLine(Requirements[i])
  {
    if i == 1 {
      OneLineConcat("- Write a professional, ", "legally sound letter (300-500 words)");
    } else if i == 5 {
      OneLineConcat("- Maintain professional ", "legal tone throughout");
    } else if i == 6 {
      OneLineConcat("- Format as a complete letter ", "with proper structure");
    }
  }

  lemma OneLineConcat(a: string, b: string)
    requires OneLine(a) && OneLine(b)
    ensures OneLine(a + b)
  {
  }

  lemma HeaderOneLine(letterType: string)
    requires OneLine(letterType)
    ensures OneLine(Header(letterType))
  {
    assert OneLine("Draft a professional ");
    assert OneLine(" letter with the following details:");
  }

  lemma FieldsOneLine(intake: map<string, string>)
    requires forall k :: k in intake ==> OneLine(intake[k])
    ensures forall i :: 0 <= i < |FieldLines(intake)| ==> OneLine(FieldLines(intake)[i])
    ensures OneLine(AmountLine(intake))
  {
    forall i | 0 <= i < |FieldKeys| ensures OneLine(FieldLine(intake, FieldKeys[i])) {
      var key := FieldKeys[i];
      assert OneLine(key);
      assert OneLine(Humanize(key));
      assert OneLine(": ");
    }
    assert OneLine("Amount: $");
  }

  /** A prompt whose letter type and intake values hold no newline reads
      back, line by line, as exactly the filtered prompt lines. */
  lemma PromptLinesRoundTrip(letterType: string, intake: map<string, string>)
    requires OneLine(letterType)
    requires forall k :: k in intake ==> OneLine(intake[k])
    ensures Split(BuildPrompt(letterType, intake), Newline) == PromptLines(letterType, intake)
  {
    var lines := PromptLines(letterType, intake);
    PromptShape(letterType, intake);
    HeaderOneLine(letterType);
    FieldsOneLine(intake);
    RequirementsOneLine();
    var amount := if AmountLine(intake) != "" then [AmountLine(intake)] else [];
    var parts := [Header(letterType)] + FieldLines(intake) + amount + Requirements + [Closing];
    forall i | 0 <= i < |lines| ensures Newline !in lines[i] {
      assert lines[i] == parts[i];
    }
    SplitJoin(lines, Newline);
  }
}
