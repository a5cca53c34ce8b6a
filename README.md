# AI Response Evaluator: evaluation session model

The AI Response Evaluator is a Streamlit page. An evaluator loads a dataset of
(input, output) records and is shown one question at a time. Each question has
option "A", the record's own output (the ground truth). When the "Include
alternative responses" box is ticked, it also has option "B", the output of the
next record, wrapping around to the first record after the last one. The
evaluator picks an option, may type a comment, and moves with Previous, Next and
Save & Finish. Next and Save & Finish append a result record to an in-memory
log. Save & Finish also shows how many logged answers were correct.

This project models that session logic from `main()` in two modules:

- `Evaluation` (evaluation.dfy) holds the expression-level parts as functions and
  lemmas: the options of a question, the first-match lookup of the selected letter
  (Python's `next(...)`), the construction of a result record with its
  `is_correct` flag, and the correct-answer tally.
- `Session` (session.dfy) holds the state the page keeps across reruns as the
  class `EvalSession`. Its fields are the dataset, `current_index`,
  `selected_option` and `results`. "Load Data" is the method `Load`. Each click
  of an option, Previous, Next or Save & Finish is a method that returns an
  `Outcome`: `Applied`, `NotShown`, `Disabled` or `NeedsSelection`. The methods
  preserve the invariant `Valid()`: the index stays inside a non-empty dataset
  and is 0 for an empty one, and every logged result names a question of the loaded dataset and copies its
  input and output. Three client methods replay concrete sessions: the
  two-question walk-through, a repeated Save & Finish, and a selection kept
  across Load.

Widget values that the page reads on every rerun are method parameters: the
alternative flag, the comment text and the timestamp.

The model follows the code as written, including these behaviours a reader
might not expect:

- Option "B" is offered even for a one-record dataset. It then repeats option "A".
- Save & Finish does not deduplicate. Each click appends another record for the
  same question.
- Load does not clear the pending selection.
- `is_correct` is not the same as `selected_response == ground_truth`. A
  selected letter that is not on the page gives the response `""` and
  `is_correct == false`, even when the ground truth is `""` as well.

## Model

| member | source | states |
|---|---|---|
| `Evaluation.AlternativeIndex` | main.py:205 | The alternative's position is a valid index. It is the next position, or 0 for the last question. |
| `Evaluation.BuildOptions` | main.py:197-207 | Building the option list by appending yields exactly the options `OptionsFor` specifies for that question and flag. |
| `Evaluation.OptionsShape` | main.py:197-207 | There is one option without the flag and two with it. The first is always "A" with the question's own output, the second is "B", and no letter appears twice. |
| `Evaluation.AlternativeWrapsAround` | main.py:205-207 | For the last question, option "B" is the first record's output. |
| `Evaluation.SingleRecordAlternativeRepeatsA` | main.py:202-207 | With one record and the flag on, "B" is still present and its response equals A's. |
| `Evaluation.FirstMatch` | main.py:265 | The result is the position of the first option carrying the letter: every earlier option carries another letter, and the position is past the end when none matches. |
| `Evaluation.FindOption` | main.py:265 | The lookup finds nothing exactly when no option carries the letter. Otherwise it returns the first option carrying it. |
| `Evaluation.LookupInOptions` | main.py:197-207 | On a question's options, "A" finds the question's output. "B" finds the alternative only when the flag is on. Any other letter finds nothing. |
| `Evaluation.MakeResult` | main.py:265-277 | The record copies the index, question, ground truth, letter, comment and timestamp. If the letter is not offered, the response is "" and the answer is incorrect. Otherwise the response is the first matching option's, and the answer is correct iff that response equals the ground truth. |
| `Evaluation.SelectingAIsCorrect` | main.py:265-266 | Selecting "A" always records a correct answer whose response is the ground truth. |
| `Evaluation.SelectingBCorrectIff` | main.py:314-315 | Selecting "B" is correct iff the alternative record has the same output. With one record it is always correct. |
| `Evaluation.UnofferedLabelIsIncorrect` | main.py:265-273 | A letter that is not on the page records response "" and is incorrect. |
| `Evaluation.CorrectnessIsNotResponseEquality` | main.py:266-273 | There is a record whose response equals its ground truth yet is marked incorrect (an unoffered letter with an empty ground truth). |
| `Evaluation.CorrectCount` | main.py:293 | The number of correct results never exceeds the number of results. |
| `Evaluation.CorrectCountAppend` | main.py:293-294 | Appending a result raises the correct count by one iff that result is correct. |
| `Evaluation.CorrectCountAllIff` | main.py:293 | The correct count equals the number of results iff every result is correct. |
| `Evaluation.CorrectCountZeroIff` | main.py:293 | The correct count is zero iff no result is correct. |
| `Evaluation.CorrectCountIsCardinality` | main.py:293 | The correct count is the number of log positions that hold a correct result. |
| `Evaluation.Tally` | main.py:293-294 | The total is the log length, and the correct count is at most the total. The two are equal iff all results are correct, and the count is 0 iff none is. |
| `Session.EvalSession.constructor` | main.py:162-163 | The first run starts with no data, index 0, no selection and an empty log. |
| `Session.EvalSession.Load` | main.py:151-159 | Load installs the dataset, sets the index to 0 and empties the log. It keeps the pending selection. |
| `Session.EvalSession.Select` | main.py:226-233 | Clicking an offered option sets the selection to its letter. A letter that is not on the page, or an empty dataset, changes nothing. |
| `Session.EvalSession.Previous` | main.py:249-253 | Previous is disabled at index 0. Otherwise it clears the selection and decrements the index, and the log is unchanged. The index stays in bounds. |
| `Session.EvalSession.Next` | main.py:307-333 | Next is disabled at the last index. Without a selection it changes nothing. Otherwise it appends exactly the record for the old index and selection, clears the selection and increments the index. The index stays in bounds. |
| `Session.EvalSession.SaveAndFinish` | main.py:258-294 | Without a selection it changes nothing. Otherwise it appends the record for the current index, and the index and selection are unchanged. The summary has total at least 1, and the correct count is at most the total and is the old count plus the new record's correctness. |
| `Session.TwoQuestionWalkthrough` | main.py:197-333 | On records (Q1,R1),(Q2,R2): A then Next logs a correct answer for question 0. B then Save & Finish on question 1 logs response R1 (wrapped) as incorrect. The summary is 1 of 2. |
| `Session.RepeatedSave` | main.py:258-282 | Two Save & Finish clicks without navigating log two records for the same question. The second record equals the first except for its timestamp. |
| `Session.StaleSelectionAfterLoad` | main.py:151-273 | A "B" selected before Load survives it. Saving with the alternative off then logs response "" as incorrect. |

## Left out

- Page rendering is not modelled: CSS, HTML/markdown, columns, the progress bar, the option boxes and `st.rerun`. Button clicks are method calls; a button that is not drawn gives `NotShown`, a disabled one gives `Disabled`.
- `load_data` is not modelled, because it is file I/O and JSON parsing. The dataset is a given `seq<Record>`. A missing file or bad JSON yields an empty dataset, which the model covers.
- `save_evaluation` is not modelled, because it creates a directory and writes CSV and JSONL files. Save & Finish updates the in-memory log it would write, and nothing is persisted.
- `datetime.now()` and the output-file name are not modelled. The timestamp is an opaque string parameter, and the file name and `option_orders` are not kept because no core logic reads them.
- The percentage `correct_count/total_evaluated*100` is not modelled, because it is floating point. Only the two integer counts are kept.
- The comment text area is not modelled as state. Its current text is a parameter of Next and Save & Finish, because the code never clears it.
- The page's "no data loaded yet" and "empty dataset" states are one state in the model: an empty `data`. Both end `main()` before any question, option or navigation button is drawn.
- Session.EvalSession.Select: the page sets the selection unconditionally, but only offered options have buttons. The model refuses an unoffered letter with `NotShown` instead of setting it.
