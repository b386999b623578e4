/**
 * The cooking-guide and add-recipe logic of the main window: the line parser
 * of the add-recipe dialog, the "Step N: ..." labels of the step list and
 * the index read back from them, and stepping through a recipe with the
 * previous/next buttons.
 */
module CookingGuide {
  import opened Wrappers
  import opened Text
  import opened Decimal
  import opened Models
  import GroceryPantry

  // ---------------------------------------------------------------------------
  // The add-recipe dialog

  /**
   * One line of the ingredients box: blank lines give nothing; a line with
   * " - " is cut at its first occurrence into a name and an amount, both
   * stripped; any other line is a name without an amount.
   */
  function ParseIngredientLine(line: string): (r: Option<Ingredient>)
    ensures r.None? <==> Strip(line) == []
    ensures r.Some? ==> IsStripped(r.value.name) && IsStripped(r.value.amount)
    ensures r.Some? && !Contains(Strip(line), " - ") ==> r.value == Ingredient(Strip(line), "")
  {
    var t := Strip(line);
    StripSpec(line);
    if t == [] then None
    else if Contains(t, " - ") then
      var parts := SplitOnce(t, " - ");
      StripSpec(parts.0);
      StripSpec(parts.1);
      Some(Ingredient(Strip(parts.0), Strip(parts.1)))
    else Some(Ingredient(t, ""))
  }

  /** A line holding " - " gives the stripped text on either side of its first occurrence. */
  lemma ParseIngredientLineSplits(line: string, k: nat)
    requires FirstOccurrence(Strip(line), " - ", k)
    ensures ParseIngredientLine(line) == Some(Ingredient(Strip(Strip(line)[..k]), Strip(Strip(line)[k + 3..])))
  {
    SplitOnceAt(Strip(line), " - ", k);
  }

  /**
   * What a line parser collects from a list of lines, in order.  The parser is
   * a parameter so that reasoning about the list never looks inside one line.
   */
  function Collect(parse: string -> Option<Ingredient>, lines: seq<string>): (r: seq<Ingredient>)
    ensures |r| <= |lines|
    decreases |lines|
  {
    if lines == [] then []
    else match parse(lines[0])
      case Some(i) => [i] + Collect(parse, lines[1..])
      case None => Collect(parse, lines[1..])
  }

  /** The ingredients of a list of lines, in order. */
  function ParseIngredientLines(lines: seq<string>): (r: seq<Ingredient>)
    ensures |r| <= |lines|
  {
    Collect(ParseIngredientLine, lines)
  }

  /** The ingredients box: its text split into lines, then the dialog's loop over them. */
  method ParseIngredients(text: string) returns (ingredients: seq<Ingredient>)
    ensures ingredients == ParseIngredientLines(Split(text, '\n'))
  {
    var lines := Split(text, '\n');
    ingredients := CollectIngredients(lines);
  }

  /** The dialog's loop: each non-blank line appends its ingredient. */
  method CollectIngredients(lines: seq<string>) returns (ingredients: seq<Ingredient>)
    ensures ingredients == ParseIngredientLines(lines)
  {
    ingredients := [];
    var i := 0;
    while i < |lines|
      invariant 0 <= i <= |lines|
      invariant ingredients + Collect(ParseIngredientLine, lines[i..]) == Collect(ParseIngredientLine, lines)
    {
      var parsed := ParseIngredientLine(lines[i]);
      CollectStep(ParseIngredientLine, lines, i, ingredients);
      if parsed.Some? {
        ingredients := ingredients + [parsed.value];
      }
      i := i + 1;
    }
    assert lines[i..] == [];
  }

  /** One step of a loop over lines: line `i` contributes its ingredient, if any, and the rest follow. */
  lemma CollectStep(parse: string -> Option<Ingredient>, lines: seq<string>, i: int, done: seq<Ingredient>)
    requires 0 <= i < |lines|
    requires done + Collect(parse, lines[i..]) == Collect(parse, lines)
    ensures (if parse(lines[i]).Some? then done + [parse(lines[i]).value] else done) + Collect(parse, lines[i + 1..])
        == Collect(parse, lines)
  {
    assert lines[i..][0] == lines[i] && lines[i..][1..] == lines[i + 1..];
    if parse(lines[i]).Some? {
      var x := parse(lines[i]).value;
      assert Collect(parse, lines[i..]) == [x] + Collect(parse, lines[i + 1..]);
      assert done + ([x] + Collect(parse, lines[i + 1..])) == (done + [x]) + Collect(parse, lines[i + 1..]);
    }
  }

  /** The instructions box: every non-blank line, stripped, in order. */
  function ParseInstructionLines(lines: seq<string>): (r: seq<string>)
    ensures |r| <= |lines|
    ensures forall k :: 0 <= k < |r| ==> r[k] != [] && IsStripped(r[k])
    decreases |lines|
  {
    if lines == [] then []
    else
      var t := Strip(lines[0]);
      StripIsStripped(lines[0]);
      var rest := ParseInstructionLines(lines[1..]);
      if t != [] then [t] + rest else rest
  }

  function ParseInstructions(text: string): seq<string> {
    ParseInstructionLines(Split(text, '\n'))
  }

  /** An ingredient as the dialog's "Name - Amount" format can express it. */
  predicate Writable(i: Ingredient) {
    i.name != [] && IsStripped(i.name) && IsStripped(i.amount) &&
    GroceryPantry.ReadsBack(i.name) && '\n' !in i.name && '\n' !in i.amount
  }

  /** The line a user types for an ingredient: the same "name - amount" text the lists show. */
  function IngredientLine(i: Ingredient): string {
    GroceryPantry.EntryText(i.name, i.amount)
  }

  lemma IngredientLineReadsBack(i: Ingredient)
    requires Writable(i)
    ensures ParseIngredientLine(IngredientLine(i)) == Some(i)
  {
    var t := IngredientLine(i);
    assert Strip(t) == t by {
      assert IsStripped(t) by {
        if i.amount != [] {
          assert t[|t| - 1] == i.amount[|i.amount| - 1];
        }
      }
      StripSpec(t);
    }
    GroceryPantry.EntryTextReadsBack(i.name, i.amount);
    if i.amount != [] {
      AmountLineReadsBack(i, t);
    } else {
      assert Before(t, " - ") == t;
    }
  }

  /** With an amount, the first " - " is the one the line put after the name. */
  lemma AmountLineReadsBack(i: Ingredient, t: string)
    requires Writable(i) && i.amount != []
    requires t == IngredientLine(i) && Strip(t) == t && Before(t, " - ") == i.name
    ensures ParseIngredientLine(t) == Some(i)
  {
    assert Contains(t, " - ") by { assert OccursAt(t, " - ", |i.name|); }
    var parts := SplitOnce(t, " - ");
    assert parts.0 == i.name by {
      assert OccursAt(t, " - ", |parts.0|);
      BeforeAt(t, " - ", |parts.0|);
    }
    assert parts.1 == i.amount;
    StripSpec(i.name);
    StripSpec(i.amount);
  }

  /** The ingredients box holding one line per ingredient. */
  function IngredientLines(xs: seq<Ingredient>): (r: seq<string>)
    ensures |r| == |xs|
    decreases |xs|
  {
    if xs == [] then [] else [IngredientLine(xs[0])] + IngredientLines(xs[1..])
  }

  lemma {:induction false} IngredientLinesReadBack(xs: seq<Ingredient>)
    requires forall k :: 0 <= k < |xs| ==> Writable(xs[k])
    ensures ParseIngredientLines(IngredientLines(xs)) == xs
    decreases |xs|
  {
    if xs != [] {
      var lines := IngredientLines(xs);
      var line := IngredientLine(xs[0]);
      assert lines[0] == line && lines[1..] == IngredientLines(xs[1..]);
      assert ParseIngredientLines(lines) == [xs[0]] + ParseIngredientLines(lines[1..]) by {
        IngredientLineReadsBack(xs[0]);
        ParseLinesCons(lines, xs[0]);
      }
      assert ParseIngredientLines(lines[1..]) == xs[1..] by {
        IngredientLinesReadBack(xs[1..]);
      }
      assert xs == [xs[0]] + xs[1..];
    }
  }

  lemma IngredientLineWhole(i: Ingredient)
    requires '\n' !in i.name && '\n' !in i.amount
    ensures '\n' !in IngredientLine(i)
  {
    assert '\n' !in " - ";
  }

  /** No line of the box breaks when no name or amount holds a line break. */
  lemma {:induction false} IngredientLinesWhole(xs: seq<Ingredient>)
    requires forall k :: 0 <= k < |xs| ==> '\n' !in xs[k].name && '\n' !in xs[k].amount
    ensures forall k :: 0 <= k < |xs| ==> '\n' !in IngredientLines(xs)[k]
    decreases |xs|
  {
    if xs != [] {
      var lines := IngredientLines(xs);
      IngredientLineWhole(xs[0]);
      IngredientLinesWhole(xs[1..]);
      assert lines == [IngredientLine(xs[0])] + IngredientLines(xs[1..]);
      forall k | 1 <= k < |xs| ensures '\n' !in lines[k] {
        assert lines[k] == IngredientLines(xs[1..])[k - 1];
      }
    }
  }

  lemma ParseLinesCons(lines: seq<string>, x: Ingredient)
    requires lines != [] && ParseIngredientLine(lines[0]) == Some(x)
    ensures ParseIngredientLines(lines) == [x] + ParseIngredientLines(lines[1..])
  {
  }

  /** Typing the ingredients one per line gives them back, in order. */
  lemma IngredientsBoxRoundTrip(xs: seq<Ingredient>)
    requires forall k :: 0 <= k < |xs| ==> Writable(xs[k])
    ensures ParseIngredientLines(Split(Join(IngredientLines(xs), "\n"), '\n')) == xs
  {
    if xs == [] {
      assert Split("", '\n') == [""];
      assert Strip("") == [] by { StripSpec(""); }
    } else {
      IngredientLinesReadBack(xs);
      IngredientLinesWhole(xs);
      SplitJoin(IngredientLines(xs), '\n');
    }
  }

  /** Typing stripped, non-blank steps one per line gives them back, in order. */
  lemma {:induction false} InstructionLinesReadBack(steps: seq<string>)
    requires forall k :: 0 <= k < |steps| ==> steps[k] != [] && IsStripped(steps[k])
    ensures ParseInstructionLines(steps) == steps
    decreases |steps|
  {
    if steps != [] {
      StripSpec(steps[0]);
      InstructionLinesReadBack(steps[1..]);
      assert steps == [steps[0]] + steps[1..];
    }
  }

  lemma InstructionsBoxRoundTrip(steps: seq<string>)
    requires forall k :: 0 <= k < |steps| ==> steps[k] != [] && IsStripped(steps[k]) && '\n' !in steps[k]
    ensures ParseInstructions(Join(steps, "\n")) == steps
  {
    if steps == [] {
      assert Split("", '\n') == [""];
      assert Strip("") == [] by { StripSpec(""); }
    } else {
      SplitJoin(steps, '\n');
      InstructionLinesReadBack(steps);
    }
  }

  // ---------------------------------------------------------------------------
  // Step labels

  const PreviewLength := 50

  /** The instruction as a label shows it: its first 50 characters and "..." when it is longer. */
  function Preview(instruction: string): (r: string)
    ensures |r| <= PreviewLength + 3
    ensures var shown := if |instruction| < PreviewLength then |instruction| else PreviewLength;
      |r| >= shown && r[..shown] == instruction[..shown]
    ensures |instruction| <= PreviewLength ==> r == instruction
    ensures |instruction| > PreviewLength ==> |r| == PreviewLength + 3 && r[PreviewLength..] == "..."
  {
    if |instruction| > PreviewLength then instruction[..PreviewLength] + "..." else instruction
  }

  /** The step list's entry for the step at index `i` (shown numbered from 1). */
  function StepLabel(i: nat, instruction: string): string {
    "Step " + IntToDecimal(i + 1) + ": " + Preview(instruction)
  }

  function StepLabels(instructions: seq<string>): (r: seq<string>)
    ensures |r| == |instructions|
    ensures forall k :: 0 <= k < |r| ==> r[k] == StepLabel(k, instructions[k])
  {
    seq(|instructions|, k requires 0 <= k < |instructions| => StepLabel(k, instructions[k]))
  }

  /** The step index read back from an entry: the number between "Step " and the first ':', less one. */
  function ParseStepIndex(text: string): Option<int> {
    match ParseInt(ReplaceAll(Before(text, ":"), "Step ", ""))
    case Some(n) => Some(n - 1)
    case None => None
  }

  /** The text before a label's first ':' is "Step " and the step's number. */
  lemma StepLabelPrefix(i: nat, instruction: string)
    ensures Before(StepLabel(i, instruction), ":") == "Step " + IntToDecimal(i + 1)
  {
    var d := IntToDecimal(i + 1);
    var entry := StepLabel(i, instruction);
    var k := 5 + |d|;
    assert entry[..k] == "Step " + d;
    forall j | 0 <= j < k
      ensures !OccursAt(entry, ":", j)
    {
      assert entry[j] != ':' by {
        if j < 5 {
          assert entry[j] == "Step "[j];
        } else {
          assert entry[j] == d[j - 5];
          assert IsDigit(d[j - 5]);
        }
      }
      assert entry[j..j + 1][0] == entry[j];
    }
    assert OccursAt(entry, ":", k) by {
      assert entry[k] == ':';
      assert entry[k..k + 1] == [entry[k]];
    }
    BeforeAt(entry, ":", k);
  }

  /** Removing "Step " from "Step " and a number leaves the number. */
  lemma DropStepWord(d: string)
    requires AllDigits(d)
    ensures ReplaceAll("Step " + d, "Step ", "") == d
  {
    var before := "Step " + d;
    assert StartsWith(before, "Step ") by { assert before[..5] == "Step "; }
    assert before[5..] == d;
    assert 'S' !in d by {
      forall j | 0 <= j < |d| ensures d[j] != 'S' { assert IsDigit(d[j]); }
    }
    ReplaceAllNoop(d, "Step ", "");
  }

  /** A label reads back as the index it was made for, however its instruction was cut. */
  lemma StepLabelRoundTrip(i: nat, instruction: string)
    ensures ParseStepIndex(StepLabel(i, instruction)) == Some(i)
  {
    StepLabelPrefix(i, instruction);
    DropStepWord(IntToDecimal(i + 1));
    ParseIntRoundTrip(i + 1);
  }

  /** The instruction `show_step_details` shows for an entry, if its index is one of the recipe's. */
  function StepDetails(entry: string, instructions: seq<string>): Option<string> {
    match ParseStepIndex(entry)
    case Some(k) => if 0 <= k < |instructions| then Some(instructions[k]) else None
    case None => None
  }

  /** Selecting a step's entry shows the whole instruction, not the cut one. */
  lemma StepDetailsOfLabel(instructions: seq<string>, i: nat)
    requires i < |instructions|
    ensures StepDetails(StepLabels(instructions)[i], instructions) == Some(instructions[i])
  {
    StepLabelRoundTrip(i, instructions[i]);
  }

  // ---------------------------------------------------------------------------
  // Stepping through a recipe

  /** The cooking page's step list, its current row (-1 for none), the details text and the two buttons. */
  class StepList {
    var instructions: seq<string>
    var labels: seq<string>
    var currentRow: int
    var details: string
    var prevEnabled: bool
    var nextEnabled: bool

    /** The entries are the recipe's labels and the current row is one of them, or -1 only when there are none. */
    ghost predicate Valid()
      reads this
    {
      labels == StepLabels(instructions) &&
      -1 <= currentRow < |labels| &&
      (|labels| > 0 ==> 0 <= currentRow) &&
      (0 <= currentRow ==> details == instructions[currentRow])
    }

    /** The buttons as `update_step_navigation` sets them. */
    ghost predicate ButtonsMatch()
      reads this
    {
      prevEnabled == (currentRow > 0) && nextEnabled == (currentRow < |labels| - 1)
    }

    /** The page before any recipe is loaded: no steps, both buttons enabled. */
    constructor()
      ensures Valid()
      ensures instructions == [] && labels == [] && currentRow == -1 && prevEnabled && nextEnabled
      ensures details == "Select a step to view details"
    {
      instructions := [];
      labels := [];
      currentRow := -1;
      details := "Select a step to view details";
      prevEnabled := true;
      nextEnabled := true;
    }

    method UpdateStepNavigation()
      modifies this
      ensures ButtonsMatch()
      ensures instructions == old(instructions) && labels == old(labels)
      ensures currentRow == old(currentRow) && details == old(details)
    {
      prevEnabled := currentRow > 0;
      nextEnabled := currentRow < |labels| - 1;
    }

    /**
     * `show_step_details` for the entry at `row`: when the entry reads back
     * as an index of the recipe, that instruction is shown and the buttons
     * are updated; otherwise nothing changes.
     */
    method ShowStepDetails(row: int)
      modifies this
      ensures instructions == old(instructions) && labels == old(labels) && currentRow == old(currentRow)
      ensures 0 <= row < |labels| && StepDetails(labels[row], instructions).Some? ==>
        details == StepDetails(labels[row], instructions).value && ButtonsMatch()
      ensures !(0 <= row < |labels| && StepDetails(labels[row], instructions).Some?) ==>
        details == old(details) && prevEnabled == old(prevEnabled) && nextEnabled == old(nextEnabled)
    {
      if 0 <= row < |labels| {
        var shown := StepDetails(labels[row], instructions);
        if shown.Some? {
          details := shown.value;
          UpdateStepNavigation();
        }
      }
    }

    /** `load_cooking_recipe`: a recipe that is not found changes nothing. */
    method LoadCookingRecipe(recipe: Option<seq<string>>)
      modifies this
      ensures recipe.None? ==> instructions == old(instructions) && labels == old(labels)
      ensures recipe.None? ==> currentRow == old(currentRow) && details == old(details)
      ensures recipe.None? ==> prevEnabled == old(prevEnabled) && nextEnabled == old(nextEnabled)
      ensures recipe.Some? ==> Valid() && ButtonsMatch() && instructions == recipe.value
      ensures recipe.Some? ==> currentRow == (if recipe.value == [] then -1 else 0)
      ensures recipe.Some? && recipe.value == [] ==> details == old(details)
    {
      if recipe.None? {
        return;
      }
      var steps := recipe.value;
      instructions := steps;
      labels := [];
      currentRow := -1;
      var i := 0;
      while i < |steps|
        invariant 0 <= i <= |steps| && instructions == steps && currentRow == -1
        invariant details == old(details)
        invariant labels == StepLabels(steps[..i])
      {
        labels := labels + [StepLabel(i, steps[i])];
        i := i + 1;
        assert StepLabels(steps[..i]) == StepLabels(steps[..i - 1]) + [StepLabel(i - 1, steps[i - 1])];
      }
      assert steps[..i] == steps;
      if |labels| > 0 {
        currentRow := 0;
        StepDetailsOfLabel(steps, 0);
        ShowStepDetails(0);
      }
      UpdateStepNavigation();
    }

    /** Clicking an entry makes it current and shows its step. */
    method ClickStep(row: int)
      requires Valid()
      requires 0 <= row < |labels|
      modifies this
      ensures Valid() && ButtonsMatch() && currentRow == row
      ensures instructions == old(instructions)
    {
      currentRow := row;
      StepDetailsOfLabel(instructions, row);
      ShowStepDetails(row);
    }

    /** `previous_step`: moves up one row only when there is a row above. */
    method PreviousStep()
      requires Valid()
      modifies this
      ensures Valid() && instructions == old(instructions)
      ensures currentRow == if old(currentRow) > 0 then old(currentRow) - 1 else old(currentRow)
      ensures old(currentRow) > 0 ==> ButtonsMatch()
      ensures old(currentRow) <= 0 ==>
        details == old(details) && prevEnabled == old(prevEnabled) && nextEnabled == old(nextEnabled)
    {
      if currentRow > 0 {
        currentRow := currentRow - 1;
        StepDetailsOfLabel(instructions, currentRow);
        ShowStepDetails(currentRow);
      }
    }

    /** `next_step`: moves down one row only when there is a row below. */
    method NextStep()
      requires Valid()
      modifies this
      ensures Valid() && instructions == old(instructions)
      ensures currentRow == if old(currentRow) < |labels| - 1 then old(currentRow) + 1 else old(currentRow)
      ensures old(currentRow) < |labels| - 1 ==> ButtonsMatch()
      ensures old(currentRow) >= |labels| - 1 ==>
        details == old(details) && prevEnabled == old(prevEnabled) && nextEnabled == old(nextEnabled)
    {
      if currentRow < |labels| - 1 {
        currentRow := currentRow + 1;
        StepDetailsOfLabel(instructions, currentRow);
        ShowStepDetails(currentRow);
      }
    }
  }
}
