/** `VideoClassifier`: the producer side (`add_image`), one pass of the
    background loop (`run`), `exit`, and the accessors for the last votes.
    Each method is one atomic step; the thread, the lock and the polling
    sleep are not modelled. */
module VideoClassification {
  import opened Outcomes
  import opened ImageClassification
  import opened VoteAggregation
  import opened FrameBuffer

  /** What one pass of the `run` loop did. */
  datatype Step<I> =
    | LoopExited                                                  // `closed` was set: the loop ends
    | Polled                                                      // too few frames: sleep and retry
    | Drained(batch: seq<I>, outcome: Result<Votes, ClassifyError>) // the buffer was classified

  class VideoClassifier<!I> {
    const classifier: ClassifierModel<I>
    const hasCallback: bool
    const bufferSize: int
    var imageBuffer: seq<Frame<I>>
    var closed: bool
    var lastClassificationVotes: Votes
    /** The arguments of every callback invocation so far. */
    ghost var notified: seq<Votes>

    /** The buffer bounds that every step keeps. */
    ghost predicate Valid()
      reads this
    {
      |imageBuffer| <= MaxImages &&
      (bufferSize >= 0 ==> |imageBuffer| <= bufferSize)
    }

    /** `__init__(callback_function=None, debug=False, buffer_size=4)`; the
        loaded network is passed in. */
    constructor (classifier: ClassifierModel<I>, hasCallback: bool := false, bufferSize: int := 4)
      ensures Valid()
      ensures this.classifier == classifier && this.hasCallback == hasCallback && this.bufferSize == bufferSize
      ensures imageBuffer == [] && !closed
      ensures lastClassificationVotes == VoteList([NoneLabel])
      ensures notified == []
    {
      this.classifier := classifier;
      this.hasCallback := hasCallback;
      this.bufferSize := bufferSize;
      imageBuffer := [];
      closed := false;
      lastClassificationVotes := VoteList([NoneLabel]);
      notified := [];
    }

    /** `add_image`: append the frame, then apply the two trims. */
    method AddImage(image: I, timestamp: real)
      requires Valid()
      modifies this`imageBuffer
      ensures Valid()
      ensures imageBuffer == AppendAndTrim(old(imageBuffer), Frame(image, timestamp), bufferSize)
    {
      imageBuffer := imageBuffer + [Frame(image, timestamp)];
      if bufferSize >= 0 && |imageBuffer| > bufferSize {
        imageBuffer := DropLast(imageBuffer, bufferSize);
      }
      if |imageBuffer| > MaxImages {
        imageBuffer := DropLast(imageBuffer, MaxImages);
      }
    }

    /** One pass of the `run` loop. If `closed` is set the loop ends. If fewer
        than `buffer_size` frames are buffered, nothing changes. Otherwise the
        buffered images are taken in insertion order, the buffer is emptied and
        the batch is classified; on success the result replaces the votes and
        is passed to the callback, if any; an exception leaves the votes as
        they were and ends the thread. */
    method RunIteration() returns (step: Step<I>)
      requires Valid()
      modifies this`imageBuffer, this`lastClassificationVotes, this`notified
      ensures Valid()
      ensures old(closed) ==> step == LoopExited
      ensures !old(closed) && |old(imageBuffer)| < bufferSize ==> step == Polled
      ensures !old(closed) && |old(imageBuffer)| >= bufferSize ==> step.Drained?
      ensures !step.Drained? ==>
                imageBuffer == old(imageBuffer) &&
                lastClassificationVotes == old(lastClassificationVotes) &&
                notified == old(notified)
      ensures step.Drained? ==>
                step.batch == FrameImages(old(imageBuffer)) &&
                step.outcome == ClassifyImages(classifier, step.batch) &&
                imageBuffer == []
      ensures step.Drained? && step.outcome.Ok? ==>
                lastClassificationVotes == step.outcome.value &&
                notified == old(notified) + (if hasCallback then [step.outcome.value] else [])
      ensures step.Drained? && step.outcome.Err? ==>
                lastClassificationVotes == old(lastClassificationVotes) &&
                notified == old(notified)
      // consequences of the buffer bounds
      ensures step.Drained? && bufferSize >= 0 ==> |step.batch| == bufferSize
      ensures bufferSize > MaxImages ==> !step.Drained?
      ensures step.Drained? ==> step.outcome != Err(Raised(MaxImagesMessage))
      // with a positive target size and a network that keeps its contract, one label per frame
      ensures step.Drained? && bufferSize > 0 && |classifier.classNames| > 0 &&
              OneRowPerImage(classifier, step.batch) ==>
                step.outcome.Ok? && step.outcome.value.VoteList? &&
                |step.outcome.value.labels| == bufferSize
    {
      if closed {
        return LoopExited;
      }
      if |imageBuffer| < bufferSize {
        return Polled;
      }
      var images := FrameImages(imageBuffer);
      imageBuffer := [];
      var outcome := ClassifyImages(classifier, images);
      if bufferSize > 0 && |classifier.classNames| > 0 && OneRowPerImage(classifier, images) {
        ClassifyWithConformingModel(classifier, images);
      }
      if outcome.Ok? {
        lastClassificationVotes := outcome.value;
        if hasCallback {
          notified := notified + [lastClassificationVotes];
        }
      }
      step := Drained(images, outcome);
    }

    /** `exit`: ask the loop to stop. Nothing clears the flag again. */
    method Exit()
      requires Valid()
      modifies this`closed
      ensures Valid()
      ensures closed
    {
      closed := true;
    }

    /** `get_last_classification_votes`. */
    method GetLastClassificationVotes() returns (votes: Votes)
      ensures votes == lastClassificationVotes
    {
      votes := lastClassificationVotes;
    }

    /** `get_last_classification`: a most frequent ballot of the last votes. */
    method GetLastClassification() returns (r: Result<string, MajorityError>)
      ensures r == Majority(lastClassificationVotes)
      ensures r.Err? <==> Ballots(lastClassificationVotes) == []
      ensures r.Ok? ==> r.value in Ballots(lastClassificationVotes)
      ensures r.Ok? ==> forall x :: Count(Ballots(lastClassificationVotes), x) <= Count(Ballots(lastClassificationVotes), r.value)
    {
      var votes := GetLastClassificationVotes();
      r := Majority(votes);
    }
  }

  /** With target size 2, two frames added are drained, in the order added,
      by the next pass of the loop. */
  method TwoFrameScenario<I>(m: ClassifierModel<I>, a: I, b: I, t1: real, t2: real)
  {
    var v := new VideoClassifier(m, bufferSize := 2);
    v.AddImage(a, t1);
    var step := v.RunIteration();
    assert step == Polled;
    v.AddImage(b, t2);
    step := v.RunIteration();
    assert step.Drained? && step.batch == [a, b];
    assert v.imageBuffer == [];
    v.Exit();
    step := v.RunIteration();
    assert step == LoopExited;
  }

  /** With target size 0 every added frame is trimmed away at once, the loop
      classifies an empty batch, and the stored votes become the bare sentinel
      string, whose majority is its letter "n". */
  method ZeroTargetScenario<I>(m: ClassifierModel<I>, a: I, t: real)
  {
    var v := new VideoClassifier(m, bufferSize := 0);
    v.AddImage(a, t);
    assert v.imageBuffer == [];
    var step := v.RunIteration();
    assert step == Drained([], Ok(ScalarVote(NoneLabel)));
    var majority := v.GetLastClassification();
    SentinelMajority();
    assert majority == Ok("n");
  }
}
