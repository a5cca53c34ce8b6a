/** The evaluation session: the position, the pending selection and the results
    log that the page keeps between reruns, and the buttons that change them. */
module Session {
  import opened Evaluation

  /** What a click did. NotShown: the control is not on the page (no data, an
      empty dataset, or an option letter that is not offered); Disabled: the
      button is greyed out; NeedsSelection: the page shows an error because no
      option is selected; Applied: the action took place. */
  datatype Outcome = Applied | NotShown | Disabled | NeedsSelection

  class EvalSession {
    var data: seq<Record>
    var currentIndex: nat
    var selectedOption: Option<string>
    var results: seq<ResultRecord>

    /** The position is inside a non-empty dataset (and 0 for an empty one),
        and every logged result describes a question of the current dataset. */
    ghost predicate Valid()
      reads this
    {
      && (|data| > 0 ==> currentIndex < |data|)
      && (|data| == 0 ==> currentIndex == 0)
      && forall k :: 0 <= k < |results| ==> Describes(data, results[k])
    }

    /** The options on the page for the current question. */
    ghost function CurrentOptions(includeAlternative: bool): seq<Choice>
      reads this
      requires Valid() && |data| > 0
    {
      OptionsFor(data, currentIndex, includeAlternative)
    }

    /** The result the page would record for the current question and selection. */
    ghost function PendingResult(includeAlternative: bool, comments: string, timestamp: string): ResultRecord
      reads this
      requires Valid() && |data| > 0 && selectedOption.Some?
    {
      MakeResult(data[currentIndex], currentIndex, CurrentOptions(includeAlternative),
                 selectedOption.value, comments, timestamp)
    }

    /** The first run of the page: nothing loaded and no option selected. */
    constructor ()
      ensures Valid()
      ensures data == [] && currentIndex == 0 && selectedOption == None && results == []
    {
      data := [];
      currentIndex := 0;
      selectedOption := None;
      results := [];
    }

    /** "Load Data": replaces the dataset, goes back to the first question and
        empties the results log; a pending selection is kept. */
    method Load(dataset: seq<Record>)
      requires Valid()
      modifies this
      ensures Valid()
      ensures data == dataset && currentIndex == 0 && results == []
      ensures selectedOption == old(selectedOption)
    {
      data := dataset;
      currentIndex := 0;
      results := [];
    }

    /** Clicking the button of option `letter` on the current question. */
    method Select(letter: string, includeAlternative: bool) returns (outcome: Outcome)
      requires Valid()
      modifies this
      ensures Valid()
      ensures data == old(data) && currentIndex == old(currentIndex) && results == old(results)
      ensures outcome == (if |data| > 0 && Offered(CurrentOptions(includeAlternative), letter) then Applied else NotShown)
      ensures selectedOption == if outcome == Applied then Some(letter) else old(selectedOption)
    {
      if |data| == 0 {
        return NotShown;
      }
      var options := BuildOptions(data, currentIndex, includeAlternative);
      if FindOption(options, letter).None? {
        return NotShown;
      }
      selectedOption := Some(letter);
      outcome := Applied;
    }

    /** "Previous": disabled on the first question; otherwise drops the pending
        selection and moves back one question without recording anything. */
    method Previous() returns (outcome: Outcome)
      requires Valid()
      modifies this
      ensures Valid()
      ensures data == old(data) && results == old(results)
      ensures outcome == (if |data| == 0 then NotShown else if old(currentIndex) == 0 then Disabled else Applied)
      ensures outcome != Applied ==> currentIndex == old(currentIndex) && selectedOption == old(selectedOption)
      ensures outcome == Applied ==> currentIndex == old(currentIndex) - 1 && selectedOption == None
    {
      if |data| == 0 {
        return NotShown;
      }
      if currentIndex == 0 {
        return Disabled;
      }
      selectedOption := None;
      currentIndex := currentIndex - 1;
      outcome := Applied;
    }

    /** "Next": disabled on the last question and refused without a selection;
        otherwise records the current question, drops the selection and moves on. */
    method Next(includeAlternative: bool, comments: string, timestamp: string) returns (outcome: Outcome)
      requires Valid()
      modifies this
      ensures Valid()
      ensures data == old(data)
      ensures outcome ==
        if |data| == 0 then NotShown
        else if old(currentIndex) == |data| - 1 then Disabled
        else if old(selectedOption).None? then NeedsSelection
        else Applied
      ensures outcome != Applied ==>
        currentIndex == old(currentIndex) && selectedOption == old(selectedOption) && results == old(results)
      ensures outcome == Applied ==>
        && results == old(results) + [old(PendingResult(includeAlternative, comments, timestamp))]
        && results[|results| - 1].questionIndex == old(currentIndex)
        && selectedOption == None
        && currentIndex == old(currentIndex) + 1
    {
      if |data| == 0 {
        return NotShown;
      }
      if currentIndex == |data| - 1 {
        return Disabled;
      }
      if selectedOption.None? {
        return NeedsSelection;
      }
      var options := BuildOptions(data, currentIndex, includeAlternative);
      var result := MakeResult(data[currentIndex], currentIndex, options, selectedOption.value, comments, timestamp);
      results := results + [result];
      selectedOption := None;
      currentIndex := currentIndex + 1;
      outcome := Applied;
    }

    /** "Save & Finish": refused without a selection; otherwise records the
        current question and returns the summary of the whole log. The position
        and the selection stay, so a second click records the question again. */
    method SaveAndFinish(includeAlternative: bool, comments: string, timestamp: string)
      returns (outcome: Outcome, summary: Summary)
      requires Valid()
      modifies this
      ensures Valid()
      ensures data == old(data) && currentIndex == old(currentIndex) && selectedOption == old(selectedOption)
      ensures outcome ==
        if |data| == 0 then NotShown
        else if old(selectedOption).None? then NeedsSelection
        else Applied
      ensures outcome != Applied ==> results == old(results)
      ensures outcome == Applied ==>
        && results == old(results) + [old(PendingResult(includeAlternative, comments, timestamp))]
        && results[|results| - 1].questionIndex == currentIndex
        && summary == Tally(results)
        && 1 <= summary.totalEvaluated
        && summary.correctCount <= summary.totalEvaluated
        && summary.correctCount == CorrectCount(old(results)) + (if results[|results| - 1].isCorrect then 1 else 0)
    {
      summary := Summary(0, 0);
      if |data| == 0 {
        return NotShown, summary;
      }
      if selectedOption.None? {
        return NeedsSelection, summary;
      }
      var options := BuildOptions(data, currentIndex, includeAlternative);
      var result := MakeResult(data[currentIndex], currentIndex, options, selectedOption.value, comments, timestamp);
      CorrectCountAppend(results, result);
      results := results + [result];
      summary := Tally(results);
      outcome := Applied;
    }
  }

  /** The two-question walk-through: "A" then Next on the first question, "B"
      then Save & Finish on the second, whose option "B" wraps to the first
      record. One of the two recorded answers is correct. */
  method TwoQuestionWalkthrough() returns (log: seq<ResultRecord>, summary: Summary)
    ensures |log| == 2
    ensures log[0].questionIndex == 0 && log[0].selectedOption == "A"
    ensures log[0].selectedResponse == "R1" && log[0].isCorrect
    ensures log[1].questionIndex == 1 && log[1].selectedOption == "B"
    ensures log[1].selectedResponse == "R1" && !log[1].isCorrect
    ensures summary == Summary(1, 2)
  {
    var dataset := [Record("Q1", "R1"), Record("Q2", "R2")];
    var s := new EvalSession();
    s.Load(dataset);
    var o := s.Select("A", true);
    LookupInOptions(dataset, 0, true, "A");
    o := s.Next(true, "", "t0");
    LookupInOptions(dataset, 1, true, "B");
    o := s.Select("B", true);
    o, summary := s.SaveAndFinish(true, "", "t1");
    log := s.results;
  }

  /** Clicking Save & Finish twice on the same question, without selecting
      again, logs that question twice. */
  method RepeatedSave(dataset: seq<Record>, includeAlternative: bool, comments: string, t0: string, t1: string)
    returns (log: seq<ResultRecord>)
    requires |dataset| > 0
    ensures |log| == 2
    ensures log[0].questionIndex == 0 && log[1].questionIndex == 0
    ensures log[0].selectedOption == "A" && log[1].selectedOption == "A"
    ensures log[0].isCorrect && log[1].isCorrect
    ensures log[1] == log[0].(timestamp := t1)
  {
    var s := new EvalSession();
    s.Load(dataset);
    LookupInOptions(dataset, 0, includeAlternative, "A");
    var o := s.Select("A", includeAlternative);
    var summary;
    o, summary := s.SaveAndFinish(includeAlternative, comments, t0);
    o, summary := s.SaveAndFinish(includeAlternative, comments, t1);
    log := s.results;
  }

  /** A selection of "B" survives loading a new dataset; saving with the
      alternative switched off then records an empty response as incorrect. */
  method StaleSelectionAfterLoad(first: seq<Record>, second: seq<Record>, comments: string, timestamp: string)
    returns (log: seq<ResultRecord>)
    requires |first| > 0 && |second| > 0
    ensures |log| == 1
    ensures log[0].questionIndex == 0 && log[0].selectedOption == "B"
    ensures log[0].selectedResponse == "" && !log[0].isCorrect
  {
    var s := new EvalSession();
    s.Load(first);
    LookupInOptions(first, 0, true, "B");
    var o := s.Select("B", true);
    s.Load(second);
    LookupInOptions(second, 0, false, "B");
    var summary;
    o, summary := s.SaveAndFinish(false, comments, timestamp);
    log := s.results;
  }
}
