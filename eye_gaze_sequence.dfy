/**
 * The data generator `EyeGazeSequence`: it keeps the database rows, an
 * epoch order of row indices, and on request yields batch `idx` as the
 * decoded (and, when augmenting, shifted and rotated) eye images side by
 * side, with one 5-value label `[theta1, theta2, ox, oy, ang]` per row.
 *
 * Randomness is not generated here: the shuffle is a caller-chosen
 * sequence of transpositions, and the augmentation draws of a batch are a
 * parameter whose values are constrained to the ranges the source draws
 * from. Image decoding (base64, PIL, resize) and rotation are function
 * parameters.
 */
module EyeGazeData {
  import opened Ints
  import opened Images
  import opened DataUrls
  import opened Shuffling
  import opened Batching

  const BATCH_SIZE: nat := 64
  /** Each eye image is IMAGE_SIZE × IMAGE_SIZE after preprocessing. */
  const IMAGE_SIZE: nat := 128
  const MAX_OFFSET: int := 10
  const MAX_ROTATION: real := 15.0

  /** One database row: both eye frames as data URLs, and the two gaze angles. */
  datatype Row = Row(leftEyeFrame: string, rightEyeFrame: string, theta1: real, theta2: real)

  /** The augmentation drawn for one row: a pixel offset and a rotation in degrees. */
  datatype Draw = Draw(ox: int, oy: int, ang: real)

  /** `ox = oy = ang = 0.0`, what a row gets when augmentation is off. */
  const NoAugmentation: Draw := Draw(0, 0, 0.0)

  /**
   * `randint(-MAX_OFFSET, MAX_OFFSET + 1)` for each offset and
   * `uniform(-MAX_ROTATION, MAX_ROTATION)` for the angle; both upper bounds
   * are exclusive.
   */
  predicate DrawInRange(d: Draw)
  {
    && -MAX_OFFSET <= d.ox <= MAX_OFFSET
    && -MAX_OFFSET <= d.oy <= MAX_OFFSET
    && -MAX_ROTATION <= d.ang < MAX_ROTATION
  }

  /** The draw used for row k of a batch. */
  function RowDraw(augment: bool, draws: seq<Draw>, k: nat): Draw
  {
    if augment && k < |draws| then draws[k] else NoAugmentation
  }

  /** A pixel is its channel values; black is all zeros. */
  type Pixel = seq<real>

  const BLACK: Pixel := [0.0, 0.0, 0.0]

  type EyeImage = Image<Pixel>

  /** Decoding always yields an IMAGE_SIZE × IMAGE_SIZE image (the resize of `preprocess_eye`). */
  ghost predicate DecodesToEyeSize(decode: string -> EyeImage)
  {
    forall payload :: HasShape(decode(payload), IMAGE_SIZE, IMAGE_SIZE)
  }

  /** Rotation keeps the image's size (PIL's `rotate` without `expand`). */
  ghost predicate KeepsShape(rotate: (EyeImage, real) -> EyeImage)
  {
    forall img, ang :: Rectangular(img) ==> HasShape(rotate(img, ang), Height(img), Width(img))
  }

  /** Both frames of the row split (each has a comma), so preprocessing them does not raise. */
  predicate FramesWellFormed(row: Row)
  {
    SplitDataUrl(row.leftEyeFrame).Split? && SplitDataUrl(row.rightEyeFrame).Split?
  }

  /** A row is rejected exactly when one of its two frames has no comma. */
  lemma MalformedIffNoComma(row: Row)
    ensures !FramesWellFormed(row) <==> ',' !in row.leftEyeFrame || ',' !in row.rightEyeFrame
  {
    SplitFailsIffNoComma(row.leftEyeFrame);
    SplitFailsIffNoComma(row.rightEyeFrame);
  }

  /** `preprocess_eye`: split the data URL and decode its payload. */
  function PreprocessEye(frame: string, decode: string -> EyeImage): EyeImage
    requires SplitDataUrl(frame).Split?
  {
    decode(SplitDataUrl(frame).encoded)
  }

  /** `rotate_image(offset_image(img, ox, oy), ang)`. */
  function AugmentEye(img: EyeImage, d: Draw, rotate: (EyeImage, real) -> EyeImage): EyeImage
  {
    rotate(Offset(img, d.ox, d.oy, BLACK), d.ang)
  }

  /** One eye's input: preprocessed and, when augmenting, shifted and rotated by the draw. */
  function EyeInput(frame: string, augment: bool, d: Draw, decode: string -> EyeImage,
                    rotate: (EyeImage, real) -> EyeImage): EyeImage
    requires SplitDataUrl(frame).Split?
  {
    var eye := PreprocessEye(frame, decode);
    if augment then AugmentEye(eye, d, rotate) else eye
  }

  /** The input image of one row: both eyes prepared with the SAME draw and placed side by side. */
  function SampleImage(row: Row, augment: bool, d: Draw, decode: string -> EyeImage,
                       rotate: (EyeImage, real) -> EyeImage): EyeImage
    requires FramesWellFormed(row)
  {
    SideBySide(EyeInput(row.leftEyeFrame, augment, d, decode, rotate),
               EyeInput(row.rightEyeFrame, augment, d, decode, rotate))
  }

  /**
   * With decoding at IMAGE_SIZE × IMAGE_SIZE and a size-preserving rotation,
   * every sample image is IMAGE_SIZE × 2 * IMAGE_SIZE, the model's input
   * shape, with the left eye in the left half and the right eye in the
   * right half, both prepared with the one draw.
   */
  lemma SampleImageLayout(row: Row, augment: bool, d: Draw, decode: string -> EyeImage,
                          rotate: (EyeImage, real) -> EyeImage)
    requires FramesWellFormed(row) && DecodesToEyeSize(decode) && KeepsShape(rotate)
    ensures HasShape(SampleImage(row, augment, d, decode, rotate), IMAGE_SIZE, 2 * IMAGE_SIZE)
    ensures forall y :: 0 <= y < IMAGE_SIZE ==>
      && SampleImage(row, augment, d, decode, rotate)[y][..IMAGE_SIZE]
           == EyeInput(row.leftEyeFrame, augment, d, decode, rotate)[y]
      && SampleImage(row, augment, d, decode, rotate)[y][IMAGE_SIZE..]
           == EyeInput(row.rightEyeFrame, augment, d, decode, rotate)[y]
  {
    var left := EyeInput(row.leftEyeFrame, augment, d, decode, rotate);
    var right := EyeInput(row.rightEyeFrame, augment, d, decode, rotate);
    EyeInputShape(row.leftEyeFrame, augment, d, decode, rotate);
    EyeInputShape(row.rightEyeFrame, augment, d, decode, rotate);
    SideBySideShape(left, right, IMAGE_SIZE, IMAGE_SIZE, IMAGE_SIZE);
  }

  lemma EyeInputShape(frame: string, augment: bool, d: Draw, decode: string -> EyeImage,
                      rotate: (EyeImage, real) -> EyeImage)
    requires SplitDataUrl(frame).Split? && DecodesToEyeSize(decode) && KeepsShape(rotate)
    ensures HasShape(EyeInput(frame, augment, d, decode, rotate), IMAGE_SIZE, IMAGE_SIZE)
  {
    var eye := PreprocessEye(frame, decode);
    ShapeDeterminesDims(eye, IMAGE_SIZE, IMAGE_SIZE);
    if augment {
      ShapeDeterminesDims(Offset(eye, d.ox, d.oy, BLACK), IMAGE_SIZE, IMAGE_SIZE);
    }
  }

  /** `img` is the input image of `row` prepared with draw `d` (so the row's frames split). */
  predicate IsSampleImage(img: EyeImage, row: Row, augment: bool, d: Draw, decode: string -> EyeImage,
                          rotate: (EyeImage, real) -> EyeImage)
  {
    FramesWellFormed(row) && img == SampleImage(row, augment, d, decode, rotate)
  }

  /** `[theta1, theta2, ox, oy, ang]`. */
  function Label(row: Row, d: Draw): seq<real>
  {
    [row.theta1, row.theta2, d.ox as real, d.oy as real, d.ang]
  }

  /** `l` is the label of `row` with draw `d`. */
  predicate IsLabel(l: seq<real>, row: Row, d: Draw)
  {
    l == Label(row, d)
  }

  /** The row indices all lie within the rows. */
  predicate IndicesInRange(rows: seq<Row>, sel: seq<int>)
  {
    forall j :: 0 <= j < |sel| ==> 0 <= sel[j] < |rows|
  }

  /** Every selected row's frames split. */
  predicate AllFramesWellFormed(rows: seq<Row>, sel: seq<int>)
    requires IndicesInRange(rows, sel)
  {
    forall j :: 0 <= j < |sel| ==> FramesWellFormed(rows[sel[j]])
  }

  /**
   * Label j of a batch is `[theta1, theta2, ox, oy, ang]` of selected row j:
   * the offsets and angle are 0 when augmentation is off and lie in their
   * draw ranges when it is on.
   */
  lemma LabelFields(row: Row, augment: bool, draws: seq<Draw>, j: nat)
    requires augment ==> j < |draws| && DrawInRange(draws[j])
    ensures var l := Label(row, RowDraw(augment, draws, j));
      && |l| == 5
      && l[0] == row.theta1 && l[1] == row.theta2
      && (!augment ==> l[2..] == [0.0, 0.0, 0.0])
      && (augment ==> l[2] == draws[j].ox as real && l[3] == draws[j].oy as real && l[4] == draws[j].ang)
      && -MAX_OFFSET as real <= l[2] <= MAX_OFFSET as real
      && -MAX_OFFSET as real <= l[3] <= MAX_OFFSET as real
      && -MAX_ROTATION <= l[4] < MAX_ROTATION
  {
  }

  /**
   * What `__getitem__` returns: the input batch X, and the targets of the
   * three model outputs (X itself for the decoder, the labels, and an
   * all-zero (batch, 3) array for the unsupervised latent).
   */
  datatype Batch = Batch(x: seq<EyeImage>, decoderTarget: seq<EyeImage>,
                         supPred: seq<seq<real>>, unsupLatent: seq<seq<real>>)

  /** `np.zeros((n, 3))`, the target of the unsupervised latent output. */
  function ZeroLatent(n: nat): (z: seq<seq<real>>)
    ensures |z| == n && forall j :: 0 <= j < n ==> z[j] == [0.0, 0.0, 0.0]
  {
    seq(n, _ => [0.0, 0.0, 0.0])
  }

  /** A batch, or the row whose eye frame has no comma (where the source raises `ValueError`). */
  datatype BatchOutcome = Ok(batch: Batch) | MalformedFrame(row: int)

  /** The outcome of preparing one row: its image and label, or a frame that does not split. */
  datatype SampleOutcome = Sample(image: EyeImage, lbl: seq<real>) | BadFrame

  /**
   * The body of the loop of `__getitem__` for one row: split and decode both
   * frames (left first), augment both with the one draw when `augment` is
   * set, and build the label, whose last three entries are 0 otherwise.
   */
  method MakeSample(row: Row, augment: bool, d: Draw, decode: string -> EyeImage,
                    rotate: (EyeImage, real) -> EyeImage) returns (r: SampleOutcome)
    requires !augment ==> d == NoAugmentation
    ensures r.BadFrame? <==> !FramesWellFormed(row)
    ensures r.Sample? ==> IsSampleImage(r.image, row, augment, d, decode, rotate)
    ensures r.Sample? ==> IsLabel(r.lbl, row, d)
  {
    var leftSplit := SplitDataUrl(row.leftEyeFrame);
    if leftSplit.MissingComma? {
      return BadFrame;
    }
    var rightSplit := SplitDataUrl(row.rightEyeFrame);
    if rightSplit.MissingComma? {
      return BadFrame;
    }
    var leftImg := decode(leftSplit.encoded);
    var rightImg := decode(rightSplit.encoded);
    var ox, oy, ang := 0.0, 0.0, 0.0;
    if augment {
      leftImg := rotate(Offset(leftImg, d.ox, d.oy, BLACK), d.ang);
      rightImg := rotate(Offset(rightImg, d.ox, d.oy, BLACK), d.ang);
      ox, oy, ang := d.ox as real, d.oy as real, d.ang;
    }
    assert leftImg == EyeInput(row.leftEyeFrame, augment, d, decode, rotate);
    assert rightImg == EyeInput(row.rightEyeFrame, augment, d, decode, rotate);
    r := Sample(SideBySide(leftImg, rightImg), [row.theta1, row.theta2, ox, oy, ang]);
  }

  /** `row` is the first selected row, in batch order, whose frames do not split. */
  predicate FirstMalformed(rows: seq<Row>, sel: seq<int>, row: int)
    requires IndicesInRange(rows, sel)
  {
    exists k :: 0 <= k < |sel| && sel[k] == row && !FramesWellFormed(rows[row])
      && forall j :: 0 <= j < k ==> FramesWellFormed(rows[sel[j]])
  }

  /**
   * The batch of the selected rows: image j is the sample image of row
   * `sel[j]` with draw j, the decoder target is the input itself, label j
   * is that row's label with draw j, and the latent target is a (batch, 3)
   * array of zeros.
   */
  predicate IsBatchOf(b: Batch, rows: seq<Row>, sel: seq<int>, augment: bool, draws: seq<Draw>,
                      decode: string -> EyeImage, rotate: (EyeImage, real) -> EyeImage)
    requires IndicesInRange(rows, sel) && AllFramesWellFormed(rows, sel)
  {
    && |b.x| == |sel|
    && (forall j :: 0 <= j < |sel| ==> IsSampleImage(b.x[j], rows[sel[j]], augment, RowDraw(augment, draws, j), decode, rotate))
    && b.decoderTarget == b.x
    && |b.supPred| == |sel|
    && (forall j :: 0 <= j < |sel| ==> IsLabel(b.supPred[j], rows[sel[j]], RowDraw(augment, draws, j)))
    && b.unsupLatent == ZeroLatent(|sel|)
  }

  /**
   * The loop of `__getitem__` over the selected rows: prepare each row in
   * order, stopping at the first one whose frame does not split.
   */
  method PrepareBatch(rows: seq<Row>, sel: seq<int>, augment: bool, draws: seq<Draw>,
                      decode: string -> EyeImage, rotate: (EyeImage, real) -> EyeImage)
    returns (r: BatchOutcome)
    requires IndicesInRange(rows, sel)
    ensures r.MalformedFrame? <==> !AllFramesWellFormed(rows, sel)
    ensures r.MalformedFrame? ==> FirstMalformed(rows, sel, r.row)
    ensures r.Ok? ==> IsBatchOf(r.batch, rows, sel, augment, draws, decode, rotate)
  {
    var imgs: seq<EyeImage> := [];
    var lbls: seq<seq<real>> := [];
    var k := 0;
    while k < |sel|
      invariant 0 <= k <= |sel|
      invariant |imgs| == k && forall j :: 0 <= j < k ==>
        IsSampleImage(imgs[j], rows[sel[j]], augment, RowDraw(augment, draws, j), decode, rotate)
      invariant |lbls| == k && forall j :: 0 <= j < k ==> IsLabel(lbls[j], rows[sel[j]], RowDraw(augment, draws, j))
    {
      var sample := MakeSample(rows[sel[k]], augment, RowDraw(augment, draws, k), decode, rotate);
      if sample.BadFrame? {
        return MalformedFrame(sel[k]);
      }
      imgs := imgs + [sample.image];
      lbls := lbls + [sample.lbl];
      k := k + 1;
    }
    r := Ok(Batch(imgs, imgs, lbls, ZeroLatent(|imgs|)));
  }

  class EyeGazeSequence {
    const rows: seq<Row>
    const batchSize: nat
    const augment: bool
    const shuffle: bool
    /** The epoch order of row indices. */
    var indices: array<int>

    ghost predicate Valid()
      reads this, indices
    {
      && batchSize > 0
      && indices.Length == |rows|
      && IsPermutationOfRange(indices[..])
      && (forall k :: 0 <= k < indices.Length ==> 0 <= indices[k] < |rows|)
      && (!shuffle ==> indices[..] == Range(|rows|))
    }

    /** `__init__`, which ends by calling `on_epoch_end`. */
    constructor (rows: seq<Row>, batchSize: nat, augment: bool, shuffle: bool, swaps: seq<Transposition>)
      requires batchSize > 0
      requires TranspositionsInRange(swaps, |rows|)
      ensures this.rows == rows && this.batchSize == batchSize
      ensures this.augment == augment && this.shuffle == shuffle
      ensures Valid() && fresh(indices)
      ensures indices[..] == EpochOrder(|rows|, shuffle, swaps)
    {
      this.rows := rows;
      this.batchSize := batchSize;
      this.augment := augment;
      this.shuffle := shuffle;
      var order := NewEpochOrder(|rows|, shuffle, swaps);
      indices := order;
      EpochOrderIsPermutation(|rows|, shuffle, swaps);
      PermutationInBounds(EpochOrder(|rows|, shuffle, swaps));
    }

    /** `__len__`: the number of batches, the ceiling of |rows| / batchSize. */
    function Len(): (r: nat)
      requires batchSize > 0
      ensures r * batchSize >= |rows|
      ensures r > 0 ==> (r - 1) * batchSize < |rows|
    {
      NumBatches(|rows|, batchSize)
    }

    /** `on_epoch_end`: a fresh `arange`, shuffled in place when `shuffle` is set. */
    method OnEpochEnd(swaps: seq<Transposition>)
      requires Valid()
      requires TranspositionsInRange(swaps, |rows|)
      modifies this
      ensures Valid() && fresh(indices)
      ensures indices[..] == EpochOrder(|rows|, shuffle, swaps)
    {
      indices := NewEpochOrder(|rows|, shuffle, swaps);
      EpochOrderIsPermutation(|rows|, shuffle, swaps);
      PermutationInBounds(EpochOrder(|rows|, shuffle, swaps));
    }

    /** The row indices of batch idx: `indices[idx * b : (idx + 1) * b]`. */
    function BatchIndices(idx: nat): seq<int>
      reads this, indices
    {
      BatchSlice(indices[..], batchSize, idx)
    }

    /**
     * The batches of one epoch, concatenated in order, are the epoch order
     * itself, so every row is used exactly once per epoch.
     */
    lemma EpochCoversEachRowOnce()
      requires Valid()
      ensures Joined(indices[..], batchSize, Len()) == indices[..]
      ensures forall i :: 0 <= i < |rows| ==> multiset(Joined(indices[..], batchSize, Len()))[i] == 1
    {
      EpochPartition(indices[..], batchSize);
      forall i | 0 <= i < |rows|
        ensures multiset(indices[..])[i] == 1
      {
        PermutationCount(indices[..], i);
      }
    }

    /** Without shuffling, batch idx holds rows idx * b, idx * b + 1, ... in order. */
    lemma UnshuffledBatch(idx: nat)
      requires Valid() && !shuffle
      ensures forall k :: 0 <= k < |BatchIndices(idx)| ==> BatchIndices(idx)[k] == idx * batchSize + k
    {
      forall k | 0 <= k < |BatchIndices(idx)|
        ensures BatchIndices(idx)[k] == idx * batchSize + k
      {
        BatchElement(indices[..], batchSize, idx, k);
      }
    }

    /**
     * `__getitem__(idx)`: the rows of batch idx of the epoch order, prepared
     * by `PrepareBatch` with one draw per row.
     */
    method GetItem(idx: nat, decode: string -> EyeImage, rotate: (EyeImage, real) -> EyeImage, draws: seq<Draw>)
      returns (r: BatchOutcome)
      requires Valid()
      requires augment ==> |draws| == |BatchIndices(idx)|
      requires augment ==> forall k :: 0 <= k < |draws| ==> DrawInRange(draws[k])
      ensures IndicesInRange(rows, BatchIndices(idx))
      ensures r.MalformedFrame? <==> !AllFramesWellFormed(rows, BatchIndices(idx))
      ensures r.MalformedFrame? ==> FirstMalformed(rows, BatchIndices(idx), r.row)
      ensures r.Ok? ==> IsBatchOf(r.batch, rows, BatchIndices(idx), augment, draws, decode, rotate)
    {
      var sel := BatchIndices(idx);
      assert IndicesInRange(rows, sel) by {
        forall j | 0 <= j < |sel|
          ensures 0 <= sel[j] < |rows|
        {
          BatchElement(indices[..], batchSize, idx, j);
        }
      }
      r := PrepareBatch(rows, sel, augment, draws, decode, rotate);
    }
  }
}
