/** The batch image classifier (`ImageClassifier.classify_images`).
    The neural network is an opaque scoring function that maps a batch of
    images to score rows; scores are integers standing in for the model's
    floating-point probabilities, since only their order matters here. */
module ImageClassification {
  import opened Outcomes

  /** Largest batch the classifier accepts; also the frame buffer's hard cap. */
  const MaxImages: nat := 32

  /** The label returned, as a bare string, for an empty batch. */
  const NoneLabel: string := "none"

  /** The message of the exception raised for an oversized batch. */
  const MaxImagesMessage: string := "max_32_images_allowed_in_buffer"

  /** What `classify_images` hands back: the scalar sentinel for an empty
      batch, otherwise one label per image. */
  datatype Votes = ScalarVote(text: string) | VoteList(labels: seq<string>)

  /** The exceptions `classify_images` can raise: its own size check, and the
      errors of `np.argmax` on an empty row and of indexing `class_names`. */
  datatype ClassifyError =
    | Raised(message: string)
    | ArgmaxOfEmptyRow
    | LabelIndexOutOfRange

  /** The loaded network (`model.predict`) and the class names read from its
      meta file, ordered by class index. */
  datatype ClassifierModel<!I> = ClassifierModel(
    classNames: seq<string>,
    predict: seq<I> -> seq<seq<int>>)

  /** `i` is the first position holding the maximum of `row`. */
  ghost predicate IsFirstMax(row: seq<int>, i: int)
  {
    0 <= i < |row| &&
    (forall j :: 0 <= j < |row| ==> row[j] <= row[i]) &&
    (forall j :: 0 <= j < i ==> row[j] < row[i])
  }

  /** `np.argmax` over one score row: the first index of the maximum. */
  function Argmax(row: seq<int>): (r: nat)
    requires |row| > 0
    ensures IsFirstMax(row, r)
  {
    if |row| == 1 then 0
    else
      var k := Argmax(row[..|row| - 1]);
      if row[|row| - 1] > row[k] then |row| - 1 else k
  }

  /** At most one index is the first maximum, so `Argmax` is determined by
      its contract. */
  lemma FirstMaxIsUnique(row: seq<int>, i: int, j: int)
    requires IsFirstMax(row, i) && IsFirstMax(row, j)
    ensures i == j
  {
    assert row[i] == row[j];  // both are maxima, so neither can precede the other
  }

  /** A score row from which a label can be read without an exception. */
  ghost predicate Labelable(row: seq<int>, classNames: seq<string>)
  {
    |row| > 0 && Argmax(row) < |classNames|
  }

  /** The exception raised by a row that is not labelable. */
  function RowError(row: seq<int>): ClassifyError
  {
    if |row| == 0 then ArgmaxOfEmptyRow else LabelIndexOutOfRange
  }

  /** `[class_names[np.argmax(r)] for r in res]`: rows are labelled in order,
      and the first row that cannot be labelled raises. */
  function LabelRows(rows: seq<seq<int>>, classNames: seq<string>): (r: Result<seq<string>, ClassifyError>)
    ensures r.Ok? <==> forall i :: 0 <= i < |rows| ==> Labelable(rows[i], classNames)
    ensures r.Ok? ==> |r.value| == |rows|
    ensures r.Ok? ==> forall i :: 0 <= i < |rows| ==> r.value[i] == classNames[Argmax(rows[i])]
    ensures r.Err? ==> exists i :: 0 <= i < |rows| && !Labelable(rows[i], classNames) &&
                                   (forall j :: 0 <= j < i ==> Labelable(rows[j], classNames)) &&
                                   r.error == RowError(rows[i])
  {
    if rows == [] then Ok([])
    else if |rows[0]| == 0 then Err(ArgmaxOfEmptyRow)
    else
      var k := Argmax(rows[0]);
      if k >= |classNames| then Err(LabelIndexOutOfRange)
      else
        match LabelRows(rows[1..], classNames)
        case Ok(rest) =>
          assert forall i :: 1 <= i < |rows| ==> rows[i] == rows[1..][i - 1];
          Ok([classNames[k]] + rest)
        case Err(e) =>
          assert forall i :: 1 <= i < |rows| ==> rows[i] == rows[1..][i - 1];
          Err(e)
  }

  /** `ImageClassifier.classify_images`. */
  function ClassifyImages<I>(m: ClassifierModel<I>, images: seq<I>): (r: Result<Votes, ClassifyError>)
    ensures |images| == 0 ==> r == Ok(ScalarVote(NoneLabel))
    ensures |images| > MaxImages ==> r == Err(Raised(MaxImagesMessage))
    ensures 0 < |images| <= MaxImages ==>
              (r.Ok? <==> forall i :: 0 <= i < |m.predict(images)| ==> Labelable(m.predict(images)[i], m.classNames))
    ensures 0 < |images| && r.Ok? ==>
              r.value.VoteList? && |r.value.labels| == |m.predict(images)| &&
              forall i :: 0 <= i < |r.value.labels| ==>
                r.value.labels[i] == m.classNames[Argmax(m.predict(images)[i])] &&
                r.value.labels[i] in m.classNames
    ensures 0 < |images| <= MaxImages && r.Err? ==> r.error != Raised(MaxImagesMessage)
  {
    if |images| == 0 then Ok(ScalarVote(NoneLabel))
    else if |images| > MaxImages then Err(Raised(MaxImagesMessage))
    else
      match LabelRows(m.predict(images), m.classNames)
      case Ok(labels) => Ok(VoteList(labels))
      case Err(e) => Err(e)
  }

  /** The network's side of the contract for one batch: one score row per
      image, each with one score per class. */
  ghost predicate OneRowPerImage<I>(m: ClassifierModel<I>, images: seq<I>)
  {
    |m.predict(images)| == |images| &&
    forall i :: 0 <= i < |images| ==> |m.predict(images)[i]| == |m.classNames|
  }

  /** With a network that keeps its contract and at least one class, a batch
      of 1 to 32 images yields one label per image, in order, each the name of
      the first highest-scoring class. */
  lemma ClassifyWithConformingModel<I>(m: ClassifierModel<I>, images: seq<I>)
    requires 0 < |images| <= MaxImages
    requires |m.classNames| > 0 && OneRowPerImage(m, images)
    ensures ClassifyImages(m, images).Ok?
    ensures ClassifyImages(m, images).value.VoteList?
    ensures |ClassifyImages(m, images).value.labels| == |images|
    ensures forall i :: 0 <= i < |images| ==>
              ClassifyImages(m, images).value.labels[i] == m.classNames[Argmax(m.predict(images)[i])]
  {
  }
}
