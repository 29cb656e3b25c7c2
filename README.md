# RecMetric — text-recognition accuracy, modelled in Dafny

`RecMetric` in `mindocr/metrics/rec_metrics.py` scores the output of a text-recognition model. It is an accumulator. Each `update` call receives a batch of predicted texts and their ground truth, and goes through these steps:

- cuts padded ground-truth texts to their true lengths;
- normalises every (prediction, label) pair in a fixed order:
  - spaces are removed from both texts;
  - label characters outside the dictionary are dropped;
  - the label is lower-cased;
- counts the pairs that then match exactly;
- adds up their normalised Levenshtein distances.

`eval` turns the counters into two scores: the accuracy `correct / total` and `1 - distance_sum / total`. `clear` resets the counters.

This project models the class and proves what it promises. Its modules:

- `Wrappers` (`wrappers.dfy`): the three exceptions the class raises (`ValueError`, `IndexError`, `RuntimeError`), plus `Option`, `Result` and `Outcome`.
- `TextNormalization` (`text_normalization.dfy`) covers the three normalisation steps and the dictionary. The steps are:
  - space removal (`RemoveSpaces`);
  - the dictionary filter (`FilterOod`), where the dictionary is a list of strings, so a character is in it when the one-character string holding it is an entry;
  - ASCII lower-casing (`ToLower`).

  Both filters are instances of one order-preserving `Filter`. The module also holds:
  - the default dictionary of 36 digits and lower-case letters;
  - the `rstrip('\n\r')` applied to dictionary-file lines;
  - the lemmas stating what the normalised prediction and label satisfy.
- `Levenshtein` (`levenshtein.dfy`): the unit-cost edit distance and its normalisation by the longer length. Two empty strings are at distance 0. This module stands in for `rapidfuzz`'s `Levenshtein.normalized_distance`.
- `GroundTruth` (`ground_truth.dfy`) turns the `gt` argument into labels:
  - a tuple or list is padded texts plus their lengths, and each label is the Python slice `text[:l]`, negative lengths included;
  - more lengths than texts raise `IndexError`;
  - anything else is the label list itself.
- `RecMetrics` (`rec_metric.dfy`) holds the class `RecMetric`:
  - its counters are mutable fields: `correctNum`, `totalNum` and `normEditDis` (a `real`);
  - its configuration is constant fields;
  - `update`'s loop over `zip(pred_texts, gt_texts)` is a `while` loop, and each iteration is `AddPair`;
  - the counters' meaning is given by the specification functions `Zip`, `CorrectCount` and `DistanceSum`, with the invariant `CountersConsistent`.
- `ShippedExample` (`shipped_example.dfy`): the demonstration at the end of the source file. Constructing the metric, calling `update` and then `eval` gives an accuracy of 1/2 and a score of 13/14.

### Edge behaviour of `update`

- When the predictions and the labels differ in number, `zip` pairs them up to the shorter list and the extra entries are not counted.
- With padded ground truth, fewer lengths than texts yields one label per length.
- More lengths than texts raises the `IndexError` of the slicing comprehension before any counter changes.
- In the demonstration, removing spaces from `"ba xla la!"` gives `"baxlala!"`. The dictionary filter then drops the `'!'`.

## Model

| member | source | states |
|---|---|---|
| RecMetrics.RecMetric.constructor | mindocr/metrics/rec_metrics.py:25-48 | starts with zero counters. Stores the three flags. The dictionary is the 36 digits and lower-case letters when no file is given, otherwise one entry per file line with trailing line terminators stripped |
| RecMetrics.RecMetric.Clear | mindocr/metrics/rec_metrics.py:50-53 | every counter is zero afterwards and the counters are consistent |
| RecMetrics.RecMetric.Update | mindocr/metrics/rec_metrics.py:55-118 | arity other than 2 raises ValueError. More lengths than texts raises IndexError. On either error no counter changes. Otherwise the total grows by the number of zipped pairs, the correct count by the pairs that match after normalisation, and the distance sum by their normalised distances. The sum never decreases and the counter invariant is kept |
| RecMetrics.RecMetric.Accumulate | mindocr/metrics/rec_metrics.py:94-118 | the loop over the zipped pairs adds exactly CorrectCount, the number of pairs, and DistanceSum of those pairs to the counters, and keeps them consistent |
| RecMetrics.RecMetric.AddPair | mindocr/metrics/rec_metrics.py:98-118 | the stepwise normalisation of one pair adds 1 to the total, 1 to the correct count exactly when the pair matches, and the pair's normalised distance to the sum |
| RecMetrics.RecMetric.Eval | mindocr/metrics/rec_metrics.py:120-129 | raises RuntimeError exactly when the total is 0. Otherwise acc times total equals the correct count and (1 - score) times total equals the distance sum. With consistent counters, 0 <= acc <= score <= 1, and acc is 1 exactly when the score is 1 |
| RecMetrics.Zip | mindocr/metrics/rec_metrics.py:94 | as many pairs as the shorter list, the i-th pairing the i-th prediction with the i-th label |
| RecMetrics.PairDistance | mindocr/metrics/rec_metrics.py:111-114 | a pair's distance term lies in [0, 1] and is 0 exactly when the normalised prediction equals the normalised label |
| RecMetrics.CorrectCount | mindocr/metrics/rec_metrics.py:113-114 | a batch has at most as many matches as pairs |
| RecMetrics.DistanceSum | mindocr/metrics/rec_metrics.py:111-112 | the summed distance of a batch is between 0 and its number of mismatches, and 0 exactly when every pair matches |
| RecMetrics.CountsStep | mindocr/metrics/rec_metrics.py:94-118 | counting one more pair adds that pair's match and distance |
| RecMetrics.CountsAdditive | mindocr/metrics/rec_metrics.py:94-118 | counts of a concatenation of batches are the sums of the batches' counts, so two updates count like one update of both batches |
| RecMetrics.ZipConcat | mindocr/metrics/rec_metrics.py:94 | zipping concatenated batches, the first of equal lengths, concatenates the zips |
| RecMetrics.MergeConsistent | mindocr/metrics/rec_metrics.py:112-118 | adding consistent counters to consistent counters keeps them consistent |
| RecMetrics.BatchConsistent | mindocr/metrics/rec_metrics.py:94-118 | the counts of any batch satisfy the counter invariant |
| GroundTruth.SlicePrefix | mindocr/metrics/rec_metrics.py:89 | Python `s[:l]`: a prefix of s, of length min(l, len s) for l >= 0 and max(0, len s + l) for negative l |
| GroundTruth.Labels | mindocr/metrics/rec_metrics.py:81-91 | non-tuple ground truth is used unchanged. Padded ground truth fails with IndexError exactly when there are more lengths than texts. Otherwise it gives one label per length, each its text sliced by SlicePrefix, so a prefix of the length asked for capped by the text length, or for a negative length all but that many final characters |
| TextNormalization.Filter | mindocr/metrics/rec_metrics.py:99-103 | no longer than the input, and every character it keeps is admitted |
| TextNormalization.FilterProperties | mindocr/metrics/rec_metrics.py:99-103 | filtering keeps the admitted characters in order, with their multiplicities, and drops every other character |
| TextNormalization.FilterConcat | mindocr/metrics/rec_metrics.py:99-103 | filtering a concatenation is the concatenation of the filtered parts |
| TextNormalization.FilterKeepsAll | mindocr/metrics/rec_metrics.py:99-103 | a text whose every character is admitted passes unchanged |
| TextNormalization.FilterPastDropped | mindocr/metrics/rec_metrics.py:99-103 | a kept run followed by a dropped character comes through as the run, with filtering continuing after it |
| TextNormalization.RemoveSpaces | mindocr/metrics/rec_metrics.py:99-100 | no space is left, the rest keeps its order, and every other character keeps its multiplicity |
| TextNormalization.FilterOod | mindocr/metrics/rec_metrics.py:102-103 | every kept character is a dictionary entry, the order is kept, and every dictionary character keeps its multiplicity |
| TextNormalization.LowerChar | mindocr/metrics/rec_metrics.py:105-106 | an ASCII upper-case letter becomes the lower-case letter 32 code points above it. Every other character is unchanged. The result is never upper-case |
| TextNormalization.ToLower | mindocr/metrics/rec_metrics.py:105-106 | same length, each character lower-cased |
| TextNormalization.ToLowerFixesNonUpper | mindocr/metrics/rec_metrics.py:105-106 | lower-casing a text without upper-case letters leaves it unchanged |
| TextNormalization.Characters | mindocr/metrics/rec_metrics.py:42 | as many entries as the text has characters, and a character is in the dictionary exactly when it is in the text. CharactersEntries states what each entry is |
| TextNormalization.CharactersEntries | mindocr/metrics/rec_metrics.py:42 | entry i of the character list is the one-character string holding the i-th character of the text |
| TextNormalization.DefaultDictionary | mindocr/metrics/rec_metrics.py:41-42 | 36 entries, and a character is in it exactly when it is a digit or a lower-case ASCII letter |
| TextNormalization.StripLineEnd | mindocr/metrics/rec_metrics.py:47 | a prefix of the line that ends in neither newline nor carriage return, the removed tail made only of those |
| TextNormalization.PredictionOnlyLosesSpaces | mindocr/metrics/rec_metrics.py:98-99 | the normalised prediction is the prediction when spaces are kept. Otherwise it has no space. It keeps the order and count of every other character, so it is never filtered or lower-cased |
| TextNormalization.FilteredLabelProperties | mindocr/metrics/rec_metrics.py:98-103 | after the first two steps the label keeps its order, has no space when spaces are ignored, holds only dictionary characters when filtering, and is unchanged with both steps off |
| TextNormalization.LabelNormalized | mindocr/metrics/rec_metrics.py:98-106 | the normalised label is no longer than the label and keeps its (lower-cased) order. It has no space when spaces are ignored and no upper-case letter when lower-casing. When filtering, each of its characters is a dictionary character, lower-cased when configured |
| TextNormalization.DefaultLabelKeepsDictionaryChars | mindocr/metrics/rec_metrics.py:102-106 | with the default configuration a label keeps exactly its digits and lower-case letters, each as often as it occurs, and loses everything else, upper-case letters included |
| TextNormalization.FilterBeforeLowerMatters | mindocr/metrics/rec_metrics.py:102-106 | the step order is observable: "aB" normalises to "a", whereas lower-casing before filtering would give "ab" |
| TextNormalization.SubsequenceChars | mindocr/metrics/rec_metrics.py:99-103 | an order-preserving selection holds no character its source lacks |
| TextNormalization.SubsequenceTransitive | mindocr/metrics/rec_metrics.py:99-103 | a selection of a selection is a selection of the original, so two filters in a row keep order |
| TextNormalization.SubsequenceLength | mindocr/metrics/rec_metrics.py:99-103 | a selection is no longer than its source |
| TextNormalization.SubsequenceToLower | mindocr/metrics/rec_metrics.py:105-106 | lower-casing both sides keeps a selection a selection |
| RecMetrics.Matches | mindocr/metrics/rec_metrics.py:113 | the normalised prediction equals the normalised label. Its properties are stated by PairDistance, whose term is 0 exactly on a match, and by CorrectCount |
| TextNormalization.InDictionary | mindocr/metrics/rec_metrics.py:103 | a character is in the dictionary when the one-character string holding it is an entry. Characters and DefaultDictionary state which characters that admits |
| TextNormalization.NormalizePrediction | mindocr/metrics/rec_metrics.py:98-99 | the prediction with spaces removed when configured, and nothing else. PredictionOnlyLosesSpaces states its properties |
| TextNormalization.FilteredLabel | mindocr/metrics/rec_metrics.py:98-103 | the label after space removal and then the dictionary filter, each when configured. FilteredLabelProperties states its properties |
| TextNormalization.NormalizeLabel | mindocr/metrics/rec_metrics.py:98-106 | the filtered label, lower-cased last when configured. LabelNormalized, DefaultLabelKeepsDictionaryChars and FilterBeforeLowerMatters state its properties |
| Levenshtein.Distance | mindocr/metrics/rec_metrics.py:111 | the unit-cost edit distance (insertion, deletion, substitution). DistanceToSelf, DistanceAtMostLonger, DistanceAtLeastLengthGap, DistanceZeroIffEqual, DistanceSymmetric and DistanceOfInsertion state its properties |
| Levenshtein.DistanceToSelf | mindocr/metrics/rec_metrics.py:111 | a text is at distance 0 from itself |
| Levenshtein.DistanceAtMostLonger | mindocr/metrics/rec_metrics.py:111 | the distance is at most the longer length |
| Levenshtein.DistanceAtLeastLengthGap | mindocr/metrics/rec_metrics.py:111 | the distance is at least the difference of the lengths |
| Levenshtein.DistanceZeroIffEqual | mindocr/metrics/rec_metrics.py:111 | the distance is 0 exactly when the texts are equal |
| Levenshtein.DistanceSymmetric | mindocr/metrics/rec_metrics.py:111 | the distance does not depend on the order of its arguments |
| Levenshtein.DistanceOfInsertion | mindocr/metrics/rec_metrics.py:111 | inserting one character anywhere costs exactly one edit |
| Levenshtein.NormalizedDistance | mindocr/metrics/rec_metrics.py:111 | lies in [0, 1], is 0 exactly when the texts are equal (two empty texts included), and is 1 when exactly one text is empty |
| Levenshtein.NormalizedDistanceSymmetric | mindocr/metrics/rec_metrics.py:111 | the normalised distance is symmetric |
| ShippedExample.ExampleLabels | mindocr/metrics/rec_metrics.py:131-133 | the padded texts cut to lengths 10 and 2 are "ba xla la!" and "ba" |
| ShippedExample.PlainUnchanged | mindocr/metrics/rec_metrics.py:98-106 | a text of digits and lower-case letters is unchanged by either side's normalisation under the default configuration |
| ShippedExample.ExampleSpacesRemoved | mindocr/metrics/rec_metrics.py:98-100 | "ba xla la!" without spaces is "baxlala!" |
| ShippedExample.ExampleOodDropped | mindocr/metrics/rec_metrics.py:102-103 | the default dictionary filter turns "baxlala!" into "baxlala" |
| ShippedExample.ExampleLabelNormalized | mindocr/metrics/rec_metrics.py:98-106 | the label "ba xla la!" normalises to "baxlala" |
| ShippedExample.ExampleEditDistance | mindocr/metrics/rec_metrics.py:111 | "balala" and "baxlala" are one edit apart |
| ShippedExample.ExampleDistance | mindocr/metrics/rec_metrics.py:111 | their normalised distance is 1/7 |
| ShippedExample.ExampleFirstPair | mindocr/metrics/rec_metrics.py:131-137 | the pair ("balala", "ba xla la!") does not match and adds 1/7 |
| ShippedExample.ExampleSecondPair | mindocr/metrics/rec_metrics.py:131-137 | the pair ("ba", "ba") matches and adds 0 |
| ShippedExample.ExampleCounts | mindocr/metrics/rec_metrics.py:131-137 | over both pairs, one match and a summed distance of 1/7 |
| ShippedExample.ExampleBatch | mindocr/metrics/rec_metrics.py:131-137 | the demonstration's ground truth unpacks, and zips with the predictions into two pairs with one match and a summed distance of 1/7 |
| ShippedExample.RunShippedExample | mindocr/metrics/rec_metrics.py:131-140 | a default metric, one update with the demonstration batch, then eval gives acc 1/2 and score 13/14 |

## Left out

- Reading the dictionary file (`open` and line iteration) is I/O. The constructor takes the file's lines as an optional parameter, and a file that cannot be opened is not modelled.
- The MindSpore tensor-to-NumPy conversion of the ground truth and the `nn.Metric` base class are framework plumbing. Inputs are plain sequences of strings and integers.
- The `print` diagnostics and the `print_flag` option that switches them produce output only and change no state. `**kwargs` is accepted and ignored by the source, and has no counterpart here.
- RecMetrics.RecMetric.Update: `update(*inputs)` is modelled by its argument count `arity` and by the predicted texts and ground truth of the two-argument case. The following are not modelled:
  - a `preds` without a `texts` key (`KeyError`);
  - a tuple or list ground truth with fewer than two elements (`IndexError` on `gt[1]`);
  - elements of a type other than string.
- The commented-out confidence handling has no behaviour and is not modelled.
- Lower-casing is ASCII only (`A`–`Z` to `a`–`z`). Python's full Unicode `str.lower`, which also maps other scripts and can change the length of a text, is not modelled.
- `norm_edit_dis` and the scores are exact rationals (`real`). Binary floating-point rounding of the Python `float` sum and divisions is not modelled.
- The edit distance is defined directly as the unit-cost Levenshtein recursion. The internals of `rapidfuzz` (bit-parallel algorithms, score cut-offs, processors) are not part of this model.
- Concurrent use of one metric object is not modelled. The source gives it no synchronisation.
