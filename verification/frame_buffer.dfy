/** The frame buffer of `VideoClassifier`: what `add_image` does to the list
    of (image, timestamp) pairs, and how the worker reads images out of it. */
module FrameBuffer {
  import opened ImageClassification

  /** One buffered entry: the image and the wall-clock time it was added. */
  datatype Frame<I> = Frame(image: I, timestamp: real)

  /** Python's `s[:-n]` for `n >= 0`. A negative stop counts from the end and
      is clamped at 0; a stop of `-0` is 0, so `s[:-0]` is empty. */
  function DropLast<T>(s: seq<T>, n: nat): (r: seq<T>)
    ensures r <= s
    ensures n == 0 || n >= |s| ==> r == []
    ensures 0 < n <= |s| ==> |r| == |s| - n
  {
    if n == 0 || n >= |s| then [] else s[..|s| - n]
  }

  /** The buffer after `add_image(image)` at time `t`: append the frame, then
      trim with `buffer[:-buffer_size]` when the buffer is longer than a
      non-negative `buffer_size`, then with `buffer[:-32]` when it is longer
      than 32. Both trims keep the OLDEST entries. */
  function AppendAndTrim<I>(buffer: seq<Frame<I>>, f: Frame<I>, bufferSize: int): (r: seq<Frame<I>>)
    // the result is always a prefix of the old buffer plus the new frame
    ensures r <= buffer + [f]
    // no trim: the frame is appended and nothing else changes
    ensures (bufferSize < 0 || |buffer| + 1 <= bufferSize) && |buffer| + 1 <= MaxImages ==>
              r == buffer + [f]
    // `[:-0]` empties the buffer
    ensures bufferSize == 0 ==> r == []
    // over the target size: the newest `bufferSize` entries, the new frame among them, are dropped
    ensures 0 < bufferSize < |buffer| + 1 <= bufferSize + MaxImages ==>
              r == buffer[..|buffer| + 1 - bufferSize]
    // over the target size and still over the hard cap: both trims apply
    ensures 0 < bufferSize && bufferSize + MaxImages < |buffer| + 1 ==>
              r == buffer[..|buffer| + 1 - bufferSize - MaxImages]
    // within (or without) the target size but over the hard cap: the newest 32 entries are dropped
    ensures (bufferSize < 0 || |buffer| + 1 <= bufferSize) && MaxImages < |buffer| + 1 ==>
              r == buffer[..|buffer| + 1 - MaxImages]
    // the bounds are kept: within 32 stays within 32, within the target size stays within it
    ensures |buffer| <= MaxImages ==> |r| <= MaxImages
    ensures 0 <= bufferSize && |buffer| <= bufferSize ==> |r| <= bufferSize
    // a full buffer keeps only its oldest frame
    ensures 0 < bufferSize == |buffer| ==> r == [buffer[0]]
  {
    var appended := buffer + [f];
    var targeted := if bufferSize >= 0 && |appended| > bufferSize then DropLast(appended, bufferSize) else appended;
    if |targeted| > MaxImages then DropLast(targeted, MaxImages) else targeted
  }

  /** `[image for image, _ in buffer]`: the images in insertion order. */
  function FrameImages<I>(buffer: seq<Frame<I>>): (images: seq<I>)
    ensures |images| == |buffer|
    ensures forall i :: 0 <= i < |buffer| ==> images[i] == buffer[i].image
  {
    seq(|buffer|, i requires 0 <= i < |buffer| => buffer[i].image)
  }
}
