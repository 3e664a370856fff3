# Eye-gaze training data preparation

This project models the data-preparation core of the conditional eye-gaze
auto-encoder trainer (`docker/ryan9411-et-gpu/train_autoencoder_combined.py`).
It is written in Dafny and its properties are proved. The modelled code does
three things:

- **`offset_image`** shifts an eye image by an integer offset `(ox, oy)` and
  fills the uncovered pixels with zeros. It computes a clipped source window
  and a clipped destination window on each axis, then copies one block into
  a zeroed buffer of the input's shape (`images.dfy`).
- **The data-URL split** is the first step of `data_url_to_image`. It cuts a
  frame at its first comma into a header and a base64 payload. A frame with
  no comma makes the unpacking raise (`data_url.dfy`).
- **`EyeGazeSequence`** is the Keras data generator (`eye_gaze_sequence.dfy`).
  - It keeps the database rows and an epoch order of row indices.
  - The epoch order is `arange(n)`, shuffled in place when shuffling is on
    (`shuffling.dfy`).
  - It reports `ceil(n / batch_size)` batches (`batching.dfy`).
  - Batch `idx` is built from the index slice `[idx*b, (idx+1)*b)`. For each
    row it decodes both eye frames. When augmenting, it shifts and rotates
    both eyes with one random draw. It puts the two eyes side by side and
    records the label `[theta1, theta2, ox, oy, ang]`.
  - The targets are the input itself (for the decoder), the labels, and a
    `(batch, 3)` block of zeros (for the unsupervised latent).

Modelling choices:

- `offset_image` stays imperative. `Images.OffsetImage` loops over a
  two-dimensional `array2`. It is proved equal, pixel by pixel, to the value
  definition `Images.Offset`.
- A pixel is modelled as one element of a generic type, so the channel axis
  is copied whole.
- `EyeGazeSequence` is a class.
  - `rows`, `batchSize`, `augment` and `shuffle` are never reassigned, so they
    are `const` fields.
  - `indices` is an `array<int>` that `on_epoch_end` replaces with a fresh
    array and shuffles in place.
- Randomness is a parameter:
  - the shuffle is any sequence of transpositions the caller supplies;
  - the augmentation draws of a batch are a sequence of `Draw` values,
    constrained to the ranges the source draws from.
- Image decoding and rotation are library calls. They appear as function
  parameters (`decode`, `rotate`).

## Model

| member | source | states |
|---|---|---|
| DataUrls.SplitFailsIffNoComma | docker/ryan9411-et-gpu/train_autoencoder_combined.py:39 | Splitting a frame fails (the source's `ValueError` on unpacking) exactly when the frame has no comma. |
| DataUrls.SplitDataUrlParts | docker/ryan9411-et-gpu/train_autoencoder_combined.py:39 | When the split succeeds, the header has no comma and header + "," + payload is the whole URL. So the cut is at the first comma and the payload keeps every later comma. |
| DataUrls.SplitJoin | docker/ryan9411-et-gpu/train_autoencoder_combined.py:39 | Round trip: splitting a comma-free header joined to any payload by a comma gives back the header and the payload. |
| Images.Offset | docker/ryan9411-et-gpu/train_autoencoder_combined.py:49-60 | The shifted image has the input's height and width (`zeros_like`). |
| Images.OffsetAt | docker/ryan9411-et-gpu/train_autoencoder_combined.py:49-60 | Pixel (y, x) of the shifted image is input pixel (y - oy, x - ox) when that lies inside the image, and zero otherwise. |
| Images.OffsetZeroIsIdentity | docker/ryan9411-et-gpu/train_autoencoder_combined.py:49-60 | Offset (0, 0) returns the image unchanged. |
| Images.SourceWindow | docker/ryan9411-et-gpu/train_autoencoder_combined.py:53-56 | For abs(o) <= n, the source window lies inside the axis and holds n - abs(o) positions. For o > n, its end is negative. |
| Images.DestWindow | docker/ryan9411-et-gpu/train_autoencoder_combined.py:53-57 | For abs(o) <= n, the destination window has the source window's length and equals it moved by o. For any o, it contains every position whose source position is on the axis. |
| Images.InDestWindow | docker/ryan9411-et-gpu/train_autoencoder_combined.py:54-57 | A position is in the destination window if and only if both it and its source position are on the axis. |
| Images.OffsetImage | docker/ryan9411-et-gpu/train_autoencoder_combined.py:49-60 | Returns a fresh array of the input's shape and writes nothing else, so the input is unchanged. Every output pixel is the shifted input pixel or zero. The output's contents equal `Offset` of the input's contents. |
| Images.ShiftedIsOffset | docker/ryan9411-et-gpu/train_autoencoder_combined.py:59 | An array that holds the shifted pixel at every position holds `Offset` of the input. |
| Images.SideBySide | docker/ryan9411-et-gpu/train_autoencoder_combined.py:130 | `concatenate(axis=1)`: each row of the result is the row of the left image followed by the row of the right image. |
| Images.SideBySideShape | docker/ryan9411-et-gpu/train_autoencoder_combined.py:130 | An h×wa image beside an h×wb image is h×(wa+wb). |
| Shuffling.RangeCount | docker/ryan9411-et-gpu/train_autoencoder_combined.py:105 | `arange(n)` holds each of 0..n-1 exactly once and no other value. |
| Shuffling.PermutationInBounds | docker/ryan9411-et-gpu/train_autoencoder_combined.py:104-107 | Every entry of a permutation of 0..n-1 is a valid row index. |
| Shuffling.PermutationCount | docker/ryan9411-et-gpu/train_autoencoder_combined.py:104-107 | A permutation of 0..n-1 holds each row index exactly once and no other value. |
| Shuffling.ApplySwapsPermutes | docker/ryan9411-et-gpu/train_autoencoder_combined.py:107 | Any sequence of transpositions keeps the length and the multiset of elements. |
| Shuffling.EpochOrderIsPermutation | docker/ryan9411-et-gpu/train_autoencoder_combined.py:104-107 | The epoch order has n entries and is a permutation of 0..n-1. With shuffling off it is `arange(n)` itself. |
| Shuffling.Shuffle | docker/ryan9411-et-gpu/train_autoencoder_combined.py:107 | The in-place shuffle leaves the array holding the transpositions applied to its old contents. |
| Shuffling.NewEpochOrder | docker/ryan9411-et-gpu/train_autoencoder_combined.py:104-107 | Returns a fresh array holding the epoch order: `arange(n)`, shuffled when shuffling is on. |
| Batching.NumBatches | docker/ryan9411-et-gpu/train_autoencoder_combined.py:101-102 | The batch count is `ceil(n / b)`: r batches of b hold n rows, and r - 1 batches do not. |
| Batching.BatchSize | docker/ryan9411-et-gpu/train_autoencoder_combined.py:110 | Below the batch count, batch idx holds min(b, n - idx*b) > 0 rows. Every batch but the last holds exactly b. Past the count, the batch is empty. |
| Batching.BatchElement | docker/ryan9411-et-gpu/train_autoencoder_combined.py:110 | Element k of batch idx is element idx*b + k of the order. |
| Batching.JoinedIsPrefix | docker/ryan9411-et-gpu/train_autoencoder_combined.py:110 | The first k batches, concatenated, are the first min(k*b, n) entries of the order. |
| Batching.EpochPartition | docker/ryan9411-et-gpu/train_autoencoder_combined.py:101-110 | The batches of one epoch, concatenated in order, are exactly the epoch order. |
| EyeGazeData.MalformedIffNoComma | docker/ryan9411-et-gpu/train_autoencoder_combined.py:114-118 | A row is rejected exactly when one of its two eye frames has no comma. |
| EyeGazeData.EyeInputShape | docker/ryan9411-et-gpu/train_autoencoder_combined.py:117-126 | Assume decoding yields 128×128 and rotation keeps the size. Then each eye input is 128×128, whether or not it is augmented. |
| EyeGazeData.SampleImageLayout | docker/ryan9411-et-gpu/train_autoencoder_combined.py:117-130 | Under the same assumptions, each sample image is 128×256. The left half of each row is the left eye and the right half is the right eye, both prepared with the one draw. |
| EyeGazeData.LabelFields | docker/ryan9411-et-gpu/train_autoencoder_combined.py:120-131 | A label has 5 entries: theta1, theta2, then ox, oy and ang. The last three are 0 when augmentation is off and are the row's draw when it is on. abs(ox), abs(oy) <= 10 and -15 <= ang < 15. |
| EyeGazeData.ZeroLatent | docker/ryan9411-et-gpu/train_autoencoder_combined.py:135 | The latent target has one row [0, 0, 0] per sample. |
| EyeGazeData.MakeSample | docker/ryan9411-et-gpu/train_autoencoder_combined.py:114-131 | Preparing one row fails exactly when a frame does not split. Otherwise it yields the side-by-side sample image and the label for the draw. |
| EyeGazeData.PrepareBatch | docker/ryan9411-et-gpu/train_autoencoder_combined.py:112-141 | The result is an error exactly when some selected row is malformed, and the error names the first such row in batch order. Otherwise image j and label j are those of selected row j with draw j, the decoder target is the input itself, and the latent target is all zeros. |
| EyeGazeData.EyeGazeSequence.constructor | docker/ryan9411-et-gpu/train_autoencoder_combined.py:88-99 | Stores the rows and settings. It ends by setting up the first epoch order, a permutation of the row indices (the identity without shuffling). |
| EyeGazeData.EyeGazeSequence.Len | docker/ryan9411-et-gpu/train_autoencoder_combined.py:101-102 | `__len__` is the ceiling of the number of rows divided by the batch size. |
| EyeGazeData.EyeGazeSequence.OnEpochEnd | docker/ryan9411-et-gpu/train_autoencoder_combined.py:104-107 | Replaces `indices` with a fresh epoch order and keeps the invariant: a permutation of the row indices, and the identity without shuffling. |
| EyeGazeData.EyeGazeSequence.EpochCoversEachRowOnce | docker/ryan9411-et-gpu/train_autoencoder_combined.py:101-110 | The `__len__` batches of one epoch, concatenated, are the epoch order, so each row appears exactly once per epoch. |
| EyeGazeData.EyeGazeSequence.UnshuffledBatch | docker/ryan9411-et-gpu/train_autoencoder_combined.py:105-110 | Without shuffling, batch idx holds rows idx*b, idx*b + 1, ... in order. |
| EyeGazeData.EyeGazeSequence.GetItem | docker/ryan9411-et-gpu/train_autoencoder_combined.py:109-141 | The selected indices are valid row indices. The result is the batch of those rows (as `PrepareBatch` states), or the first malformed row. |

## Left out

- Model building, the `DeCorrelation` layer, the losses, training, early stopping and argument parsing (`main`) are not part of this model; they are TensorFlow and Keras calls.
- `load_rows_from_db` (SQLite I/O) and `train_test_split` are not modelled; the rows are a parameter.
- `docker/ryan9411-et-tfjs` and `trainer/` are not part of this model.
- Base64 decoding, `Image.open`, `convert("RGB")`, `resize` and the division by 255 in `preprocess_eye` are the `decode` parameter, which is total. Base64 and image-format errors are therefore not modelled; only the missing-comma error is.
- `rotate_image` is the `rotate` parameter: PIL's bilinear rotation and the uint8 round trip are library code.
- EyeGazeData.SampleImageLayout: the 128×128 decode size and the size-preserving rotation are assumptions about those parameters (`DecodesToEyeSize`, `KeepsShape`), not proved facts.
- The random draws (`np.random.shuffle`, `randint`, `uniform`) are parameters: transpositions for the shuffle and `Draw` values for augmentation. Their distribution is not modelled, only their ranges.
- float32 arithmetic is modelled with exact reals, and 0-255 pixel values are not modelled at all.
- Images.OffsetImage: requires |ox| <= width and |oy| <= height, which the source does not check. With a larger offset, numpy reads a negative slice end as counted from the end of the axis. The assignment then raises on a shape mismatch or copies nothing. The generator only uses offsets up to 10 on 128-pixel eyes.
- Images.Offset: on a ragged nested sequence, which a numpy array can never be, it reads missing pixels as zero.
- Images.SideBySide: numpy raises on images of unequal height, but the model keeps the common rows.
- The channel axis is copied whole, as one pixel value; the model does not constrain a pixel to 3 channels.
- `np.asarray` stacking the samples into one 4-D float32 array is modelled as a sequence of images, with no check that they have one shape.
- EyeGazeData.EyeGazeSequence.constructor: requires batchSize > 0. The source does not check this; a zero batch size raises `ZeroDivisionError` in `__len__`.
- EyeGazeData.EyeGazeSequence.Len: modelled as an exact integer ceiling. The source uses `math.ceil` of a float division, which agrees for row counts below 2^53 (the generator loads at most 20000 rows).
- EyeGazeData.EyeGazeSequence.GetItem: idx is a natural number. Python's negative slice indices are not modelled, and the caller supplies one draw per selected row when augmenting.
- Keras's use of the `Sequence` from worker threads is not modelled.
