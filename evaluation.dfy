/** The expression-level logic of the evaluation page: which options a question
    offers, how the selected letter is looked up among them, how a result record
    is built, and how the summary tallies the recorded results. */
module Evaluation {

  datatype Option<T> = None | Some(value: T)

  /** One line of the dataset: a question and its recorded answer (the ground truth). */
  datatype Record = Record(input: string, output: string)

  /** A labelled candidate response shown to the evaluator ("A", "B"). */
  datatype Choice = Choice(letter: string, response: string)

  /** One entry of the results log, with the fields written to the CSV and JSONL files. */
  datatype ResultRecord = ResultRecord(
    questionIndex: nat,
    question: string,
    groundTruth: string,
    selectedOption: string,
    selectedResponse: string,
    isCorrect: bool,
    comments: string,
    timestamp: string)

  /** The counts shown under "Evaluation Summary". */
  datatype Summary = Summary(correctCount: nat, totalEvaluated: nat)

  // ---------------------------------------------------------------------------
  // Options

  /** The dataset position whose output is offered as option "B" for question i:
      the next record, wrapping around to the first one after the last. */
  function AlternativeIndex(i: nat, n: nat): (j: nat)
    requires i < n
    ensures j < n
    ensures j == if i == n - 1 then 0 else i + 1
  {
    (i + 1) % n
  }

  /** The options of question i: "A" is the record's own output; with the
      alternative flag, "B" is the output of the record at AlternativeIndex. */
  function OptionsFor(data: seq<Record>, i: nat, includeAlternative: bool): seq<Choice>
    requires i < |data|
  {
    [Choice("A", data[i].output)]
    + if includeAlternative then [Choice("B", data[AlternativeIndex(i, |data|)].output)] else []
  }

  /** Builds the option list the way the page does, by appending to a one-element list. */
  method BuildOptions(data: seq<Record>, i: nat, includeAlternative: bool) returns (options: seq<Choice>)
    requires i < |data|
    ensures options == OptionsFor(data, i, includeAlternative)
  {
    options := [Choice("A", data[i].output)];
    if includeAlternative {
      var altIndex := AlternativeIndex(i, |data|);
      options := options + [Choice("B", data[altIndex].output)];
    }
  }

  /** The shape of the options: "A" first with the question's own output, then
      "B" exactly when the alternative flag is set, and no letter twice. */
  lemma OptionsShape(data: seq<Record>, i: nat, includeAlternative: bool)
    requires i < |data|
    ensures var options := OptionsFor(data, i, includeAlternative);
      && |options| == (if includeAlternative then 2 else 1)
      && options[0] == Choice("A", data[i].output)
      && (includeAlternative ==> options[1].letter == "B")
      && forall j, k :: 0 <= j < k < |options| ==> options[j].letter != options[k].letter
  {
  }

  /** Option "B" of the last question is the first record's output. */
  lemma AlternativeWrapsAround(data: seq<Record>)
    requires |data| > 0
    ensures OptionsFor(data, |data| - 1, true)[1] == Choice("B", data[0].output)
  {
  }

  /** With a single record, option "B" is present and repeats option "A". */
  lemma SingleRecordAlternativeRepeatsA(data: seq<Record>)
    requires |data| == 1
    ensures var options := OptionsFor(data, 0, true);
      |options| == 2 && options[1].letter == "B" && options[1].response == options[0].response
  {
  }

  // ---------------------------------------------------------------------------
  // Looking up the selected letter

  /** True when some option carries the letter. */
  predicate Offered(options: seq<Choice>, letter: string)
  {
    exists k :: 0 <= k < |options| && options[k].letter == letter
  }

  /** Position of the first option carrying the letter, or |options| if none does. */
  function FirstMatch(options: seq<Choice>, letter: string): (k: nat)
    ensures k <= |options|
    ensures k < |options| ==> options[k].letter == letter
    ensures forall j :: 0 <= j < k ==> options[j].letter != letter
  {
    if options == [] || options[0].letter == letter then 0
    else 1 + FirstMatch(options[1..], letter)
  }

  /** The first option carrying the letter, or None when no option does. */
  function FindOption(options: seq<Choice>, letter: string): (r: Option<Choice>)
    ensures r.None? <==> !Offered(options, letter)
    ensures r.Some? ==> r.value.letter == letter
    ensures r.Some? ==> exists k ::
      && 0 <= k < |options|
      && options[k] == r.value
      && forall j :: 0 <= j < k ==> options[j].letter != letter
  {
    var k := FirstMatch(options, letter);
    if k < |options| then Some(options[k]) else None
  }

  /** With the page's options, "A" finds the question's own output, "B" finds the
      alternative only when the flag is set, and any other letter finds nothing. */
  lemma LookupInOptions(data: seq<Record>, i: nat, includeAlternative: bool, letter: string)
    requires i < |data|
    ensures FindOption(OptionsFor(data, i, includeAlternative), letter) ==
      if letter == "A" then Some(Choice("A", data[i].output))
      else if letter == "B" && includeAlternative then Some(Choice("B", data[AlternativeIndex(i, |data|)].output))
      else None
  {
    var options := OptionsFor(data, i, includeAlternative);
    assert options[0].letter == "A";
    if includeAlternative {
      assert options[1].letter == "B";
    }
  }

  // ---------------------------------------------------------------------------
  // Result records

  /** The result recorded for question `index` (whose record is `item`) when the
      letter `selected` is committed while `options` are on the page. */
  function MakeResult(item: Record, index: nat, options: seq<Choice>, selected: string,
                      comments: string, timestamp: string): (r: ResultRecord)
    ensures r.questionIndex == index && r.question == item.input && r.groundTruth == item.output
    ensures r.selectedOption == selected && r.comments == comments && r.timestamp == timestamp
    ensures !Offered(options, selected) ==> r.selectedResponse == "" && !r.isCorrect
    ensures Offered(options, selected) ==>
      r.selectedResponse == options[FirstMatch(options, selected)].response
      && (r.isCorrect <==> r.selectedResponse == item.output)
  {
    var found := FindOption(options, selected);
    ResultRecord(
      index,
      item.input,
      item.output,
      selected,
      if found.Some? then found.value.response else "",
      if found.Some? then found.value.response == item.output else false,
      comments,
      timestamp)
  }

  /** A result names a question of the dataset and copies its input and output. */
  predicate Describes(data: seq<Record>, r: ResultRecord)
  {
    r.questionIndex < |data|
    && r.question == data[r.questionIndex].input
    && r.groundTruth == data[r.questionIndex].output
  }

  /** Selecting "A" always records a correct answer. */
  lemma SelectingAIsCorrect(data: seq<Record>, i: nat, includeAlternative: bool, comments: string, timestamp: string)
    requires i < |data|
    ensures var r := MakeResult(data[i], i, OptionsFor(data, i, includeAlternative), "A", comments, timestamp);
      r.isCorrect && r.selectedResponse == r.groundTruth
  {
  }

  /** Selecting "B" is correct exactly when the neighbouring record has the same
      output; with a single record it is therefore always correct. */
  lemma SelectingBCorrectIff(data: seq<Record>, i: nat, comments: string, timestamp: string)
    requires i < |data|
    ensures var r := MakeResult(data[i], i, OptionsFor(data, i, true), "B", comments, timestamp);
      && (r.isCorrect <==> data[AlternativeIndex(i, |data|)].output == data[i].output)
      && (|data| == 1 ==> r.isCorrect)
  {
    LookupInOptions(data, i, true, "B");
  }

  /** A letter that is not on the page records an empty response and an incorrect answer. */
  lemma UnofferedLabelIsIncorrect(data: seq<Record>, i: nat, includeAlternative: bool,
                                  letter: string, comments: string, timestamp: string)
    requires i < |data|
    requires letter != "A" && (letter != "B" || !includeAlternative)
    ensures var r := MakeResult(data[i], i, OptionsFor(data, i, includeAlternative), letter, comments, timestamp);
      r.selectedResponse == "" && !r.isCorrect
  {
  }

  /** is_correct is not the same as selected_response == ground_truth: a letter
      left over from a page with option "B" gives an empty response, which equals
      an empty ground truth, yet the record is marked incorrect. */
  lemma CorrectnessIsNotResponseEquality()
    ensures var data := [Record("q", "")];
      var r := MakeResult(data[0], 0, OptionsFor(data, 0, false), "B", "", "");
      r.selectedResponse == r.groundTruth && !r.isCorrect
  {
  }

  // ---------------------------------------------------------------------------
  // Summary tally

  /** Number of recorded results marked correct. */
  function CorrectCount(results: seq<ResultRecord>): (c: nat)
    ensures c <= |results|
  {
    if results == [] then 0
    else (if results[0].isCorrect then 1 else 0) + CorrectCount(results[1..])
  }

  /** Appending one result raises the count by one exactly when that result is correct. */
  lemma {:induction false} CorrectCountAppend(results: seq<ResultRecord>, r: ResultRecord)
    ensures CorrectCount(results + [r]) == CorrectCount(results) + (if r.isCorrect then 1 else 0)
  {
    if results != [] {
      assert (results + [r])[1..] == results[1..] + [r];
      CorrectCountAppend(results[1..], r);
    }
  }

  /** Every result is counted exactly when every result is correct. */
  lemma {:induction false} CorrectCountAllIff(results: seq<ResultRecord>)
    ensures CorrectCount(results) == |results| <==> forall k :: 0 <= k < |results| ==> results[k].isCorrect
  {
    if results != [] {
      CorrectCountAllIff(results[1..]);
      assert forall k :: 1 <= k < |results| ==> results[k] == results[1..][k - 1];
    }
  }

  /** The count is zero exactly when no result is correct. */
  lemma {:induction false} CorrectCountZeroIff(results: seq<ResultRecord>)
    ensures CorrectCount(results) == 0 <==> forall k :: 0 <= k < |results| ==> !results[k].isCorrect
  {
    if results != [] {
      CorrectCountZeroIff(results[1..]);
      assert forall k :: 1 <= k < |results| ==> results[k] == results[1..][k - 1];
    }
  }

  /** Positions of the results log that hold a correct result. */
  function CorrectPositions(results: seq<ResultRecord>): set<int>
  {
    set k | 0 <= k < |results| && results[k].isCorrect
  }

  /** The count is the number of positions holding a correct result. */
  lemma {:induction false} CorrectCountIsCardinality(results: seq<ResultRecord>)
    ensures CorrectCount(results) == |CorrectPositions(results)|
  {
    if results == [] {
      assert CorrectPositions(results) == {};
    } else {
      var init, last := results[..|results| - 1], results[|results| - 1];
      assert results == init + [last];
      CorrectCountIsCardinality(init);
      CorrectCountAppend(init, last);
      if last.isCorrect {
        assert CorrectPositions(results) == CorrectPositions(init) + {|init|};
        assert |init| !in CorrectPositions(init);
      } else {
        assert CorrectPositions(results) == CorrectPositions(init);
      }
    }
  }

  /** The summary of the results log: correct selections out of the total evaluated. */
  function Tally(results: seq<ResultRecord>): (s: Summary)
    ensures s.totalEvaluated == |results| && s.correctCount <= s.totalEvaluated
    ensures s.correctCount == s.totalEvaluated <==> forall k :: 0 <= k < |results| ==> results[k].isCorrect
    ensures s.correctCount == 0 <==> forall k :: 0 <= k < |results| ==> !results[k].isCorrect
  {
    CorrectCountAllIff(results);
    CorrectCountZeroIff(results);
    Summary(CorrectCount(results), |results|)
  }
}
