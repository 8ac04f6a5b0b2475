# actspotter in Dafny

A model of the classification core of actspotter (`actspotter/__init__.py`).
actspotter classifies the activity shown in a live video feed. A producer hands frames to a
`VideoClassifier`. The classifier keeps them in a bounded buffer. A background loop drains the
buffer once it holds `buffer_size` frames and classifies the batch with `ImageClassifier`.
The loop stores the per-frame labels as the latest votes and passes them to an optional callback.
`get_last_classification` reduces the votes to one label by majority.

Modules:

- `Outcomes`: a `Result` type standing for "returns a value or raises".
- `ImageClassification`: `classify_images`, `np.argmax` as the first index of the maximum,
  and the label comprehension. The network is a `ClassifierModel`: the class names plus an
  opaque total function `predict` from a batch to score rows. Scores are integers.
- `VoteAggregation`: `max(set(votes), key=votes.count)` over a vote result.
- `FrameBuffer`: the frame record, Python's `s[:-n]`, the effect of `add_image` on the buffer,
  and the image snapshot taken by the loop.
- `VideoClassification`: the class `VideoClassifier`. Its methods are `AddImage`, one pass of the
  `run` loop (`RunIteration`), `Exit` and the two accessors. `Valid()` is the buffer bound that
  every step keeps. Two client methods replay short scenarios.

Behaviour reproduced as the code has it:

- The buffer trims keep the OLDEST entries. `buffer[:-buffer_size]` drops the newest
  `buffer_size` entries, the new frame included. `buffer[:-0]` empties the buffer.
  A full buffer that receives one more frame keeps only its oldest frame.
  Keeping the most recent frames was probably the intent; the model follows the code as written.
- `classify_images([])` returns the bare string `'none'`, not a list. This result is the
  `ScalarVote` case of `Votes`. The majority of that string is taken over its characters, so it is
  `"n"`. This happens when `buffer_size <= 0`, because the loop then drains empty batches.
- The majority tie-break is the iteration order of a Python `set`. The contracts promise only
  membership and maximal count. The function itself takes the first ballot seen with a maximal
  count.

## Model

| member | source | states |
|---|---|---|
| `ImageClassification.Argmax` | actspotter/__init__.py:64 | the result is a valid index of the row, holds a maximal score, and every earlier score is strictly smaller (first maximum) |
| `ImageClassification.FirstMaxIsUnique` | actspotter/__init__.py:64 | only one index is a first maximum, so the contract of `Argmax` determines its value |
| `ImageClassification.LabelRows` | actspotter/__init__.py:64 | succeeds iff every row is non-empty and its argmax indexes `class_names`; on success gives one label per row, in order, each `class_names[argmax(row)]`; on failure raises the error of the first bad row |
| `ImageClassification.ClassifyImages` | actspotter/__init__.py:52-64 | empty batch gives the scalar `'none'` whatever the network; more than 32 images raises `'max_32_images_allowed_in_buffer'`; for 1 to 32 images, success iff every score row is labelable, and then a list of `class_names[argmax(row_i)]`, one per row, each a class name; a batch of 1 to 32 never raises the size error |
| `ImageClassification.ClassifyWithConformingModel` | actspotter/__init__.py:60-64 | when the network returns one row per image with one score per class, 1 to 32 images give exactly one label per image, the i-th label for the i-th image |
| `VoteAggregation.MostFrequent` | actspotter/__init__.py:128 | the result is one of the candidates and no candidate is counted more often |
| `VoteAggregation.Majority` | actspotter/__init__.py:125-133 | raises iff there is nothing to vote on; otherwise the result is one of the ballots and no string has a larger count |
| `VoteAggregation.StrictWinnerIsMajority` | actspotter/__init__.py:128 | a ballot that outnumbers every other ballot is the majority, whatever the tie-break |
| `VoteAggregation.InitialVotesMajority` | actspotter/__init__.py:79 | the initial votes `['none']` give the majority `'none'` |
| `VoteAggregation.CatDogCatMajority` | actspotter/__init__.py:128 | `['cat', 'dog', 'cat']` gives `'cat'` |
| `VoteAggregation.SentinelMajority` | actspotter/__init__.py:125-128 | the scalar sentinel `'none'` is voted on by character and gives `'n'` |
| `FrameBuffer.DropLast` | actspotter/__init__.py:114 | Python `s[:-n]`: a prefix of `s`, empty for `n == 0` or `n >= len(s)`, otherwise `n` shorter |
| `FrameBuffer.AppendAndTrim` | actspotter/__init__.py:111-117 | the result is a prefix of old buffer plus new frame; without a trim it is exactly the old buffer plus the frame; `buffer_size == 0` empties it; over a positive target it keeps the first `len - buffer_size` entries of the old buffer (the new frame is lost), and after that also drops the newest 32 if still over 32; when the target trim does not fire (negative target, or length within it) but the length exceeds 32, the first `len - 32` entries are kept; a full buffer keeps only its oldest frame; the bounds 32 and a non-negative `buffer_size` are preserved |
| `FrameBuffer.FrameImages` | actspotter/__init__.py:94 | the images of the buffer, one per entry, in insertion order, without timestamps |
| `VideoClassification.VideoClassifier.constructor` | actspotter/__init__.py:71-82 | empty buffer, not closed, votes `['none']`, default `buffer_size` 4 and no callback |
| `VideoClassification.VideoClassifier.AddImage` | actspotter/__init__.py:107-119 | the buffer becomes `AppendAndTrim` of the old buffer and `(image, t)`; the buffer bounds are kept; nothing else changes |
| `VideoClassification.VideoClassifier.RunIteration` | actspotter/__init__.py:86-101 | when closed the loop exits; with fewer than `buffer_size` frames nothing changes; otherwise the classifier receives exactly the buffered images in insertion order, the buffer is emptied, and on success the votes are replaced by the result and the callback log grows by it once (if a callback is set), while an exception leaves votes and log unchanged; the drained batch has exactly `buffer_size` frames when that is non-negative, never happens when `buffer_size > 32`, never raises the size error, and yields `buffer_size` labels with a conforming network |
| `VideoClassification.VideoClassifier.Exit` | actspotter/__init__.py:103-105 | sets `closed` and keeps the buffer bounds; no other method modifies it |
| `VideoClassification.VideoClassifier.GetLastClassificationVotes` | actspotter/__init__.py:121-123 | returns the stored votes |
| `VideoClassification.VideoClassifier.GetLastClassification` | actspotter/__init__.py:125-133 | the majority of the stored votes: a ballot with maximal count, or an error when there are no ballots |

## Left out

- Loading the TensorFlow model, reading `ACTSPOTTER_TF_MODEL_PATH`, building paths and reading `meta.json` (lines 10-45) are I/O. The loaded network and class names are a `ClassifierModel` parameter of the constructor.
- `model.predict` and `np.stack` are foreign calls. `predict` is an opaque total function on batches, so the model assumes the network is deterministic and never raises.
- Probability rows are floating point. Scores are integers, which keeps their order. NaN scores are not modelled.
- `threading.Thread`, the `Lock`, `time.sleep` polling and the unsynchronised reads of the votes are concurrency. Each `add_image` and each loop pass is one atomic step.
- The `while` loop itself is not modelled as a method. Whether it ends depends on the other thread, so `RunIteration` models one pass, including the `closed` test, and callers repeat it. After a pass that raised, the thread has ended; the model leaves it to the caller not to call `RunIteration` again.
- `time.time()` is a clock. The timestamp is a parameter of `AddImage`.
- The callback is foreign code. The model records each invocation's argument in a ghost log and does not model anything the callback itself does.
- The `debug` flag and all `logging` calls (lines 12-16, 130-131) only produce diagnostics.
- `setup.py` is packaging only.
- `VideoClassification.VideoClassifier.GetLastClassification` and `VoteAggregation.Majority`: do not promise which label wins a tie, because Python takes it from a set's iteration order.
