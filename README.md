# qualitative_analysis core, in Dafny

This project models the core of the `qualitative_analysis` package. The package classifies
verbatims (free-text survey or interview entries) with a large language model and compares
the model's codes with those of human raters. Three files are modelled:

- `qualitative_analysis/response_parsing.py` pulls a JSON object and an integer code out of a
  model's free-text answer. Both functions are `re.search` calls. Each regular expression is
  modelled twice:
  - as a reference predicate that says which substrings match and which one `re.search`
    reports (leftmost start, then the first decomposition in backtracking order);
  - as an explicit scanner.

  Lemmas prove that the scanner reports exactly that match (module `ResponseParsing`). Worked
  examples from the docstrings and from the pattern's edge cases are in `ParsingExamples`.
- `qualitative_analysis/notebooks_functions.py` holds the classification drivers
  (module `Notebooks`).
  - The language-model client is a class, `LlmClient.ScriptedClient`. It pops pre-recorded
    outcomes off a script and appends every request it receives to a log.
  - Each loop of the source is an imperative method driving that client. Its postcondition
    ties the new client state and the results to a pure run function.
  - Lemmas prove what the run promises:
    - the result table has one row per verbatim and theme, in order;
    - labels are valid or null;
    - one cost record per verbatim;
    - which requests go out and how many;
    - exactly when a batch aborts.
- `qualitative_analysis/evaluation.py` computes Cohen's kappa and the table of all pairwise
  kappas (module `Evaluation`).
  - `compute_cohens_kappa` delegates to scikit-learn's `cohen_kappa_score`. It is modelled
    exactly over the reals: the confusion-matrix form `1 - n * sum(w * C) / sum(w * E)`,
    with unweighted, linear and quadratic weights.
  - For unweighted kappa this is proved equal to Cohen's `(p_o - p_e) / (1 - p_e)`.
  - `compute_all_kappas` is two loops that fill a dictionary. The dictionary is modelled as
    its items in insertion order, with Python's assignment semantics.

The docstring examples of `compute_cohens_kappa` are computed exactly in `EvaluationExamples`.

Where the documentation and the code disagree, the model follows the code:

- **Docstring of `compute_cohens_kappa`:** it prints -0.40 for `[0,1,2,1,0]` against
  `[2,0,1,2,1]`. The exact value is -8/17 (about -0.47); see
  `EvaluationExamples.DocstringNoAgreement`.
- **Prefixed pattern, "Validity -2":** the pattern reads the `-` as the optional separator
  `[:\-]?`. With prefix "validity" the text "Validity -2" therefore gives 2, not -2; see
  `ParsingExamples.ExtractHyphenIsSeparator`. After a colon the sign is kept: "Validity: -2"
  gives -2.
- **Docstring of `parse_llm_response`:** it says the function raises `ValueError` when no
  JSON object is found. The code catches that error itself and returns every field as `None`.

Python's `None` appears as `Option.None` or `Cell.Null`, and `dict` as `map` or as a
sequence of items where order matters. Floats are reals.

## Model

| member | source | states |
|---|---|---|
| `ResponseParsing.BraceSpan` | qualitative_analysis/response_parsing.py:44 | `\{.*\}` with DOTALL: the reported span runs from the first `{` to the last `}` after it; None exactly when no `{` is followed by a `}` |
| `ResponseParsing.SearchedBraceMatchUnique` | qualitative_analysis/response_parsing.py:44-46 | the span `re.search` reports for `\{.*\}` is unique |
| `ResponseParsing.ParseLlmResponse` | qualitative_analysis/response_parsing.py:42-62 | the result has exactly the selected fields as keys; with no brace span, or when the span does not decode to an object (decode error or another exception caught), every field is None; otherwise each field holds the object's value or None when absent |
| `ResponseParsing.FindInteger` | qualitative_analysis/response_parsing.py:100 | `[+-]?\d+`: the reported span is the leftmost, longest signed digit run; None exactly when the text has no digit |
| `ResponseParsing.EndsLineMeansLineEndsAfter` | qualitative_analysis/response_parsing.py:91-93 | the deterministic check for `\s*$` under MULTILINE holds exactly when some run of whitespace reaches the end of the text or a newline |
| `ResponseParsing.TailDigitsMaximal` | qualitative_analysis/response_parsing.py:90-92 | in any match of the part after the prefix, the captured digits run to the end of the digit run, because `\s*$` cannot start on a digit |
| `ResponseParsing.MatchTailSound` | qualitative_analysis/response_parsing.py:92 | what the tail matcher reports is a decomposition of `\s*[:\-]?\s*([+-]?\d+)\s*$` |
| `ResponseParsing.MatchTailComplete` | qualitative_analysis/response_parsing.py:92 | whenever the tail pattern can match, the matcher finds a decomposition, and every decomposition comes no later in backtracking order than the one it reports |
| `ResponseParsing.GreedyMaxUnique` | qualitative_analysis/response_parsing.py:92 | two decompositions each first in backtracking order are the same, so the captured group is determined |
| `ResponseParsing.ScanAtSound` | qualitative_analysis/response_parsing.py:92-93 | a start position the scanner accepts holds a match of `(?i)\b<prefix>...` |
| `ResponseParsing.ScanAtComplete` | qualitative_analysis/response_parsing.py:92-93 | any match of the whole prefixed pattern at a position is accepted there by the scanner, with a decomposition no earlier than the match's |
| `ResponseParsing.FindPrefixedFirst` | qualitative_analysis/response_parsing.py:93 | the search reports the first start position the scanner accepts, with the scanner's decomposition there; None only when it accepts none |
| `ResponseParsing.FirstScanIsFirstMatch` | qualitative_analysis/response_parsing.py:93 | the first accepted start position holds the match `re.search` reports: leftmost, then first in backtracking order |
| `ResponseParsing.NoScanNoMatch` | qualitative_analysis/response_parsing.py:93-97 | when the scanner accepts no position, the pattern matches nowhere |
| `ResponseParsing.FindPrefixedCorrect` | qualitative_analysis/response_parsing.py:92-97 | the search result is the match `re.search` reports, and None exactly when there is no match |
| `ResponseParsing.FindPrefixedOutcome` | qualitative_analysis/response_parsing.py:92-97 | the search is None exactly when the pattern matches nowhere, and equals any first match |
| `ResponseParsing.ExtractCodeFromResponse` | qualitative_analysis/response_parsing.py:65-104 | with a non-empty prefix: None exactly when the prefixed pattern matches nowhere, else the value of the group captured by the first match; with None or "" as prefix: None exactly when the text has no digit, else the value of the first signed integer |
| `ParsingExamples.ExtractDocstringPrefixed` | qualitative_analysis/response_parsing.py:69-71 | "Validity: 1" with prefix "Validity:" gives 1 |
| `ParsingExamples.ExtractDocstringFallback` | qualitative_analysis/response_parsing.py:73-74 | "I think the code is 2" without a prefix gives 2 |
| `ParsingExamples.ExtractEmptyPrefixFallsBack` | qualitative_analysis/response_parsing.py:83 | the empty prefix is falsy: "rated -3" gives -3 by the unprefixed pattern |
| `ParsingExamples.ExtractHyphenIsSeparator` | qualitative_analysis/response_parsing.py:88-92 | in "Validity -2" the hyphen is taken as the separator, so prefix "validity" gives 2 |
| `ParsingExamples.ExtractNegativeAfterColon` | qualitative_analysis/response_parsing.py:92 | after a colon the sign is captured: "Validity: -2" gives -2 |
| `ParsingExamples.ExtractNeedsLineEnd` | qualitative_analysis/response_parsing.py:91-93 | "Score: 1 ok" with prefix "Score" gives None: the integer must end its line |
| `ParsingExamples.ExtractLaterLine` | qualitative_analysis/response_parsing.py:93 | under MULTILINE a later line may match, case-insensitively: "A 1 b\na 2" with prefix "a" gives 2 |
| `ParsingExamples.ExtractNeedsWordBoundary` | qualitative_analysis/response_parsing.py:86 | `\b` keeps "score" from matching inside "Subscore: 2", which gives None |
| `ParsingExamples.PrefixAtFoldFirst` | qualitative_analysis/response_parsing.py:85 | the prefix matches where the text differs from it only in the case of its first letter |
| `ParsingExamples.BraceSpanIsGreedy` | qualitative_analysis/response_parsing.py:44 | the greedy `.*` spans two objects: in "a {x} b {y} c" the span is from the first `{` to the last `}` |
| `LlmClient.ScriptedClient.GetResponse` | qualitative_analysis/notebooks_functions.py:94-100 | `llm_client.get_response`: the request is appended to the log and one scripted outcome consumed; the reply is that outcome's text with a fresh usage object holding its counts, or None exactly when the outcome is a failure (the call raises) |
| `LlmClient.Usage.Absorb` | qualitative_analysis/notebooks_functions.py:120-122 | each of the three counts grows by the other usage's count; the other usage is unchanged |
| `Notebooks.ClassifyRequests` | qualitative_analysis/notebooks_functions.py:90-142 | one request, or two exactly when reasoning is on and the first call answers; every request carries the model, 500 max tokens and the temperature; exactly that many outcomes are consumed |
| `Notebooks.ClassifyAnswer` | qualitative_analysis/notebooks_functions.py:350-388 | the prompts of both tasks: multiclass sends the base prompt alone, binary appends the query; with reasoning, the second prompt embeds the first reply under the heading of the classification kind; the answer exists exactly when every call made answers, and is the last reply with the summed usage |
| `Notebooks.GenerateMulticlassAnswer` | qualitative_analysis/notebooks_functions.py:90-142 | logs the requests and consumes the outcomes of the specification; the answer text is that of the last call; the usage is fresh and holds the summed counts; None when a call raises |
| `Notebooks.GenerateBinaryAnswer` | qualitative_analysis/notebooks_functions.py:350-388 | the same for the binary task's prompts |
| `Notebooks.CellRequests` | qualitative_analysis/notebooks_functions.py:227-236 | one classification cell sends one request, or one or two with reasoning, all batch requests; the script advances by that many |
| `Notebooks.CellLabel` | qualitative_analysis/notebooks_functions.py:225-280 | the label is a valid score or null; if the call or the cost helper raises, the label is null and nothing is counted; otherwise the usage's tokens and the cost are counted, the label is null exactly when the code extracted from the reply is None or not a valid score, and otherwise it is that code |
| `Notebooks.ClassifyTheme` | qualitative_analysis/notebooks_functions.py:225-252 | the client's script, log and the label, tokens and cost agree with the cell specification |
| `Notebooks.ThemesAbort` | qualitative_analysis/notebooks_functions.py:221-223 | a verbatim's theme loop aborts exactly when formatting a prompt raises for one of its themes (outside the try block); cost records are untouched |
| `Notebooks.ThemesLog` | qualitative_analysis/notebooks_functions.py:216-236 | the theme loop only appends batch requests to the log; without an abort it appends between one and two requests per theme in total with reasoning, exactly one per theme without |
| `Notebooks.ThemesRows` | qualitative_analysis/notebooks_functions.py:259-280 | without an abort, the theme loop classifies one cell per theme and appends one row per theme, in order: row j holds the parsed fields, theme j's name and the label of cell j |
| `Notebooks.ThemesCells` | qualitative_analysis/notebooks_functions.py:216-250 | without an abort, cell j is classified from the script exactly where cell j − 1 left it, the loop leaves the script where the last cell left it, the log gains the cells' requests in order, and the verbatim's tokens and cost are the sums of its cells' |
| `Notebooks.ThemesTokens` | qualitative_analysis/notebooks_functions.py:238-247 | without reasoning, and with a cost helper that does not raise, the tokens of a verbatim are the reply tokens of the outcomes its themes consumed |
| `Notebooks.ThemesAbortedStays` | qualitative_analysis/notebooks_functions.py:221-223 | once the theme loop has aborted, later themes change nothing |
| `Notebooks.VerbatimAbort` | qualitative_analysis/notebooks_functions.py:208-289 | one verbatim aborts exactly when one of its prompts fails to format; otherwise exactly one cost record is appended: the verbatim, the sum of its cells' tokens and the sum of its cells' costs |
| `Notebooks.VerbatimRows` | qualitative_analysis/notebooks_functions.py:216-280 | without an abort, one verbatim appends one row per theme in order, row j with theme j's name and the label of cell j |
| `Notebooks.CriteriaAbort` | qualitative_analysis/notebooks_functions.py:208-223 | the batch aborts exactly when some prompt of some verbatim and theme fails to format |
| `Notebooks.CriteriaAbortedStays` | qualitative_analysis/notebooks_functions.py:208-223 | once the batch has aborted, later verbatims change nothing |
| `Notebooks.CriteriaLog` | qualitative_analysis/notebooks_functions.py:208-280 | the batch only appends batch requests to the log; without an abort, between verbatims × themes and twice that with reasoning, exactly verbatims × themes without |
| `Notebooks.CriteriaRows` | qualitative_analysis/notebooks_functions.py:259-280 | without an abort, the rows come in verbatim-major blocks: the row at i × themes + j is verbatim i's fields, theme j's name and the label of the cell of verbatim i and theme j |
| `Notebooks.CriteriaCosts` | qualitative_analysis/notebooks_functions.py:282-289 | without an abort, one cost record per verbatim, in order: verbatim i with the sums of the tokens and of the costs of its cells |
| `Notebooks.CriteriaCells` | qualitative_analysis/notebooks_functions.py:208-289 | the cells of verbatim i are classified in turn from the script the first i verbatims left, and the script and log after verbatim i are what its cells leave and send |
| `Notebooks.CriteriaRunShape` | qualitative_analysis/notebooks_functions.py:203-297 | the whole batch from an empty state: aborts exactly when a prompt fails to format; every logged request is a batch request; otherwise the row blocks with each cell's label, one cost record per verbatim in order with its cells' token and cost sums, and the request count |
| `Notebooks.ProcessTheme` | qualitative_analysis/notebooks_functions.py:220-280 | one theme's body: the new client state and results are one step of the theme specification |
| `Notebooks.ProcessThemes` | qualitative_analysis/notebooks_functions.py:216-280 | the theme loop: the client state, rows, abort flag, tokens and cost are those of the theme run |
| `Notebooks.ProcessCriteria` | qualitative_analysis/notebooks_functions.py:203-297 | the verbatim loop: the client state is that of the batch run; the result is None exactly when the run aborts, else its rows and cost records |
| `Notebooks.ProcessMulticlassVerbatims` | qualitative_analysis/notebooks_functions.py:145-297 | `process_verbatims_for_multiclass_criteria`: the batch run with the multiclass task and the caller's valid scores |
| `Notebooks.ProcessBinaryVerbatims` | qualitative_analysis/notebooks_functions.py:391-533 | `process_verbatims_for_binary_criteria`: the batch run with the binary task and the valid scores [0, 1] |
| `Notebooks.GeneralStepShape` | qualitative_analysis/notebooks_functions.py:586-619 | one general verbatim appends exactly one row and one cost record for it, adds that record to the totals, and sends at most one request |
| `Notebooks.GeneralStepFailure` | qualitative_analysis/notebooks_functions.py:614-619 | when formatting, the call or the cost helper raises, the row's label is None, the record is (verbatim, 0, 0) and the totals are unchanged; a format failure sends nothing |
| `Notebooks.GeneralStepLabel` | qualitative_analysis/notebooks_functions.py:587-612 | otherwise the label is the code extracted with the caller's prefix, the tokens are the reply's, and the logged request is the formatted prompt with the model, 500 tokens and the temperature |
| `Notebooks.GeneralRows` | qualitative_analysis/notebooks_functions.py:605-616 | the general loop appends one row per verbatim, in order |
| `Notebooks.GeneralCosts` | qualitative_analysis/notebooks_functions.py:599-621 | one cost record per verbatim, in order, and the totals are the sums of the records |
| `Notebooks.GeneralLog` | qualitative_analysis/notebooks_functions.py:588-594 | the general loop appends at most one request per verbatim, each with the model, 500 tokens and the temperature |
| `Notebooks.GeneralVerbatim` | qualitative_analysis/notebooks_functions.py:586-619 | one general loop body: the new client state and results are one step of the general specification |
| `Notebooks.ProcessGeneralVerbatims` | qualitative_analysis/notebooks_functions.py:577-622 | `process_general_verbatims`: the client state, rows, cost records and totals are those of the general run |
| `Evaluation.InsertSorted` | qualitative_analysis/evaluation.py:19-20 | inserting into a strictly sorted list keeps it strictly sorted and adds exactly the new element |
| `Evaluation.UniqueLabels` | qualitative_analysis/evaluation.py:19-20 | the default labels: strictly sorted and holding exactly the labels that occur |
| `Evaluation.Pairs` | qualitative_analysis/evaluation.py:19-20 | the counted samples: at most one per sample, each a pair of indices into the label list |
| `Evaluation.CohensKappa` | qualitative_analysis/evaluation.py:8-65 | a ValueError exactly for different lengths, an empty label list, or a label list none of whose labels occurs in the first labeling |
| `Evaluation.KappaAtMostOne` | qualitative_analysis/evaluation.py:24-25 | the score is at most 1 |
| `Evaluation.KappaOfIdentical` | qualitative_analysis/evaluation.py:47-52 | a labeling against itself scores exactly 1 whenever two counted samples differ |
| `Evaluation.PairsKappaUnweighted` | qualitative_analysis/evaluation.py:10-14 | the unweighted confusion-matrix form is Cohen's (p_o - p_e) / (1 - p_e), with observed and chance agreement computed from the counts |
| `Evaluation.KappaUnweightedIsCohen` | qualitative_analysis/evaluation.py:61-63 | for any labelings, an unweighted score is Cohen's coefficient of the counted samples |
| `Evaluation.PutKeys` | qualitative_analysis/evaluation.py:92 | `results[key] = v` keeps the key order for an existing key and appends a new key; distinct keys stay distinct |
| `Evaluation.PutLookup` | qualitative_analysis/evaluation.py:107 | after the assignment the key maps to the new value and every other key to its old one |
| `Evaluation.ApplyFails` | qualitative_analysis/evaluation.py:89-107 | a run of assignments raises exactly when one kappa raises, with the first error |
| `Evaluation.ApplyFailedStays` | qualitative_analysis/evaluation.py:89-107 | after the first error, no further write changes the outcome |
| `Evaluation.ApplyDistinct` | qualitative_analysis/evaluation.py:92-107 | with distinct keys and no error, the dictionary is the old items followed by the new ones in order |
| `Evaluation.ApplyLookupLast` | qualitative_analysis/evaluation.py:107 | a key written more than once holds the value of its last write |
| `Evaluation.ApplyLookupUntouched` | qualitative_analysis/evaluation.py:107 | a key no write carries keeps its old value |
| `Evaluation.PairsOfLength` | qualitative_analysis/evaluation.py:98-99 | the first m passes of the outer loop make m(2n - m - 1)/2 comparisons |
| `Evaluation.PairsOfIndex` | qualitative_analysis/evaluation.py:98-100 | rater i against later rater j is comparison number \|passes before i\| + (j - i - 1) |
| `Evaluation.WritesLength` | qualitative_analysis/evaluation.py:88-107 | n raters give n + n(n - 1)/2 assignments |
| `Evaluation.WritesModelAt` | qualitative_analysis/evaluation.py:88-92 | the i-th assignment is "model_vs_<rater i>" of the model's coding against rater i |
| `Evaluation.WritesPairs` | qualitative_analysis/evaluation.py:97-107 | for every i < j, "<rater i>_vs_<rater j>" of rater i against rater j is written, at a known position |
| `Evaluation.WritesContent` | qualitative_analysis/evaluation.py:98-100 | after the model's n, every assignment compares a rater with a later one: never a rater with itself, never a pair in reverse |
| `Evaluation.TableOfDistinctKeys` | qualitative_analysis/evaluation.py:85-111 | with distinct keys and no error, the result holds every assignment's kappa, in order |
| `Evaluation.KappaTableFails` | qualitative_analysis/evaluation.py:89-107 | `compute_all_kappas` raises exactly when one of its kappas raises, with the first such error |
| `Evaluation.ModelPassIsApply` | qualitative_analysis/evaluation.py:88-94 | the first loop after i raters is the first i model assignments applied in order |
| `Evaluation.RowPassIsApply` | qualitative_analysis/evaluation.py:99-109 | the inner loop up to j is rater i's first comparisons applied in order |
| `Evaluation.PairPassesIsApply` | qualitative_analysis/evaluation.py:97-109 | the outer loop after i passes applies the comparisons of those passes in order |
| `Evaluation.KappaTableByPasses` | qualitative_analysis/evaluation.py:85-111 | the table equals the first loop followed by all passes of the nested loops |
| `Evaluation.CompareModel` | qualitative_analysis/evaluation.py:88-94 | the first loop computes the model passes over all raters |
| `Evaluation.CompareWithLater` | qualitative_analysis/evaluation.py:99-109 | the inner loop computes rater i's pass against every later rater |
| `Evaluation.ComputeAllWith` | qualitative_analysis/evaluation.py:85-111 | the two loops compute the whole table, stopping at the first kappa that raises |
| `Evaluation.ComputeAllKappas` | qualitative_analysis/evaluation.py:68-111 | `compute_all_kappas` with the caller's labels and weights passed to every kappa |
| `EvaluationExamples.DocstringUnweighted` | qualitative_analysis/evaluation.py:31-38 | [0,1,2,1,0] against [0,2,2,1,0] scores 12/17 (0.71) |
| `EvaluationExamples.DocstringLinear` | qualitative_analysis/evaluation.py:40-45 | the same with labels [0,1,2] and linear weights scores 18/23 (0.78) |
| `EvaluationExamples.DocstringPerfect` | qualitative_analysis/evaluation.py:47-52 | a labeling against itself scores 1 |
| `EvaluationExamples.DocstringNoAgreement` | qualitative_analysis/evaluation.py:54-59 | [0,1,2,1,0] against [2,0,1,2,1] scores -8/17 (about -0.47) |
| `EvaluationExamples.TwoRaterKeys` | qualitative_analysis/evaluation.py:88-107 | raters A and B give the keys model_vs_A, model_vs_B, A_vs_B, in that order |
| `EvaluationExamples.CollidingKeys` | qualitative_analysis/evaluation.py:92-107 | a rater named "model" next to a rater "x": their comparison overwrites "model_vs_x" |

## Left out

- User interface, plotting (`plot_confusion_matrices` and the rest of `evaluation.py`), console output, verbose printing and timing: output only, no effect on results.
- The language-model client is not part of this model. It is a scripted client whose replies and usage counts are given in advance, and a failing call is a scripted failure.
- `str.format`, `parse_key_value_lines` and `extract_code_from_response` as imported from `qualitative_analysis/parsing.py`, and `openai_api_calculate_cost`: the drivers take them as parameters (`Notebooks.Hooks`). `parsing.py` and `cost_estimation.py` are not part of this model.
- The `usage is None` (falsy usage) branches of the drivers: the scripted client always returns a usage object.
- Floating point: costs, temperatures and kappas are reals. Rounding and NaN are not modelled; a kappa whose chance term is 0 is `Undefined` where scikit-learn returns NaN.
- scikit-learn's input checks besides the three ValueErrors of `Evaluation.CohensKappa` (label types, sample weights): our labels are integers.
- Duplicate entries in a `labels` argument: the model indexes the first occurrence.
- Evaluation.KappaAtMostOne: states only the upper bound 1 of the docstring's range; the lower bound -1 is not proved.
- `compute_all_kappas` compares raters by their position in the dictionary. The model takes the raters as a sequence of name–labels pairs; its key names are assumed distinct, as dictionary keys are.
- Key collisions between "model_vs_<r>" and "<r1>_vs_<r2>" are modelled, see `EvaluationExamples.CollidingKeys`, but not summarised beyond the last-write rule.
- `re.IGNORECASE` and `\b`/`\w`/`\s` are modelled on ASCII case folding and word characters. `\s` is Python's whitespace set. Unicode case folding and non-ASCII word characters are not modelled. `\d` and `int()` are modelled on the ASCII digits 0-9: other Unicode decimal digits count as non-digits.
- ResponseParsing.FindInteger: `\d` matches only the ASCII digits 0-9, where Python also matches every Unicode decimal digit; a text whose only digits are non-ASCII gives None here.
- ResponseParsing.ExtractCodeFromResponse: `\d` and `int()` are taken on the ASCII digits 0-9 only, where Python also reads other Unicode decimal digits as numbers.
- The hooks `parse_key_value_lines` and `extract_code_from_response` are total functions. In the source they run inside the `try`: a raise from `extract_code_from_response` gives a row with label None after the call's tokens and cost were counted (qualitative_analysis/notebooks_functions.py:238-253 and 479-491), and a raise from `parse_key_value_lines` is raised again from the `except` block and ends the batch (lines 273 and 511). Neither is modelled.
- A row is a map, so the order of its keys (the parsed fields, then "Theme", then "Label", which becomes the DataFrame's column order) is not modelled.
- `json.loads` is a parameter: the model does not decode JSON text itself.
- Notebooks.ThemesTokens: states the token total only without reasoning and with a cost helper that never raises; the reasoning case is covered by `ClassifyAnswer` per call.
- The loop bodies of the drivers are separate methods (`ProcessTheme`, `GeneralVerbatim`), each specified by one step of the run function.
