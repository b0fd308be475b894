# EyeSpy core in Dafny

EyeSpy watches a microscope's output directory for new images. It fits a
circle around the fluorescent region of each image (the ROI) and reports the
mean fluorescence inside that circle. This project models the core of
EyeSpy and proves properties of the model:

- **Image queues.** The configured directory is scanned for image files.
  Each file name is enqueued at most once in the queue's lifetime.
  - The *lazy* queues (`LazyQueue`, `FileQueue`) store names. They decode a
    name only when asked for the head, and drop heads that fail to decode.
  - The *eager* queues (`EagerQueue`, `ImageQueue`) decode on enqueue and
    keep only images that decode.
  - The module `ImagesQueue` models `src/engine/images_queue.py`.
    `EngineQueue` models the older `src/engine/queue.py`, and
    `LegacyQueue` models the linked-list queue of `engine/queue.py`.
  - The pure transition functions and their lemmas live in `QueueSpec`.
    Each queue class is proved against them.
- **ROI pipeline.**
  - The module `Processing` models `src/images/processing.py`:
    percentile normalisation, thresholding, the contour and eigenvalue
    circle fitters, and the mean over an inclusive circle.
  - The module `Processor` models `src/processing/processor.py`: the
    processor built from three callables, with `process`, `binary_mask`
    and `circular_roi`.
  - `src/processing/processing_functions.py` holds the same functions as
    `src/images/processing.py`, each with an extra `**kwargs` parameter, so
    `Processing` models both.
  - Images are grids of reals (`Grid`). numpy boolean indexing is
    `Grid.Masked`.
- **Bayesian threshold training and testing** (`src/images/bayesian.py`).
  `Trainer` and `Tester` are classes whose methods update their fields as
  the source does.
- **The legacy file handler** (`modules/filehandler.py`). Its nested loops
  over numpy arrays are methods over Dafny `array2`/`array4` with loop
  invariants.
- **Configuration** (`src/engine/config.py`).
  - The INI file is a map from sections to option maps.
  - Options are read with `configparser` semantics: lower-cased option
    names, fallbacks, and `getboolean`/`getint`/`getfloat`.
  - Also modelled: the defaults `_create_default` writes, `set`, `reset`,
    `validate`, and the `create_*` factories.
- **Images** (`src/images/image.py`): TIFF images, and CZI images with
  metadata parsing and the 4-D slice.

Everything the program takes from the outside world is a parameter of the
operation that uses it:

- directory listings;
- the image factory, including the stable reader's polling;
- the OpenCV and numpy numerics: percentile, k-means, 8-bit rescale and
  morphology, ellipse fitting, and the covariance radius estimate.

## Model

| member | source | states |
|---|---|---|
| QueueSpec.SelectMembers | src/engine/images_queue.py:24-25 | A scan considers exactly the names of the entries its filter keeps. The filter is one of: files whose lower-cased suffix is the lower-cased `.format`, files, or every entry. |
| QueueSpec.Dequeued | src/engine/images_queue.py:34-36 | `dequeue` leaves an empty backlog empty. Otherwise the old backlog is the removed head followed by the result. |
| QueueSpec.EnqueueName | src/engine/images_queue.py:55-59 | The name becomes seen. The backlog grows at its end by one element exactly when the name was unseen, and that element is the name. |
| QueueSpec.EnqueueImage | src/engine/images_queue.py:71-78 | Backlog, keys and seen set only grow. A name is seen afterwards exactly when it was seen before or its image decodes, and a consistent queue stays consistent. |
| QueueSpec.EnqueueImagesKeysGrow | src/engine/images_queue.py:38-41 | An eager scan only appends keys. |
| QueueSpec.FrontName | src/engine/images_queue.py:61-68 | The lazy `front` loop leaves a suffix of the backlog, and every head it dropped failed to decode. It returns `None` exactly when nothing is left; otherwise it returns the decoded image of the remaining head, which is kept. |
| QueueSpec.HistorySnoc | src/engine/images_queue.py:55-59 | Appending an unseen name keeps the history repeat-free and seen, and keeps the backlog a suffix of it. |
| QueueSpec.EnqueueNamesEffect | src/engine/images_queue.py:38-41 | A lazy scan keeps the old backlog as a prefix. It appends distinct names of the listing that were unseen before, and appends every one of them. Afterwards every listed name is seen. |
| QueueSpec.EnqueueSeenNames | src/engine/images_queue.py:55-57 | Enqueuing names that are all seen changes nothing. |
| QueueSpec.EnqueueNamesIdempotent | src/engine/images_queue.py:38-41 | A second lazy `update` over the same listing changes nothing. |
| QueueSpec.EnqueueImagesEffect | src/engine/images_queue.py:71-78 | An eager scan keeps the old backlog and keys as prefixes. The appended images are, in order, the decoded images of the appended keys, and each has an array. The appended keys are distinct listed names that were unseen before, and every unseen listed name that decodes is among them. The seen set grows by exactly the listed names that decode. |
| QueueSpec.EnqueueSettledImages | src/engine/images_queue.py:71-78 | Enqueuing names that are seen or fail to decode changes nothing. |
| QueueSpec.EnqueueImagesIdempotent | src/engine/images_queue.py:38-41 | A second eager `update` with the same listing and factory changes nothing. |
| ImagesQueue.LazyQueue.constructor | src/engine/images_queue.py:18-29 | The queue watches the given format. With `enqueue_existing`, the state is the lazy scan of the matching entries from empty. Otherwise the backlog is empty and the seen set is exactly the matching names. |
| ImagesQueue.LazyQueue.Ignore | src/engine/images_queue.py:28-29 | Every matching name becomes seen; backlog and history are unchanged. |
| ImagesQueue.LazyQueue.IsEmpty | src/engine/images_queue.py:31-32 | True exactly when the backlog is empty, i.e. the length `__len__` reports is 0. |
| ImagesQueue.LazyQueue.Dequeue | src/engine/images_queue.py:34-36 | The backlog becomes `Dequeued` of the old one; the seen set is kept and the at-most-once invariant holds. |
| ImagesQueue.LazyQueue.Enqueue | src/engine/images_queue.py:55-59 | The new state is `EnqueueName` of the old. The history grows by the name exactly when it was unseen. |
| ImagesQueue.LazyQueue.Update | src/engine/images_queue.py:38-41 | The new state is the lazy scan of the current listing's matching names. |
| ImagesQueue.LazyQueue.Front | src/engine/images_queue.py:61-68 | The backlog and the result are those `FrontName` gives; the seen set is unchanged. |
| ImagesQueue.EagerQueue.constructor | src/engine/images_queue.py:18-29 | With `enqueue_existing`, the state is the eager scan of the matching entries. Otherwise the backlog is empty and the seen set is exactly the matching names. |
| ImagesQueue.EagerQueue.Ignore | src/engine/images_queue.py:28-29 | Every matching name becomes seen; the backlog is unchanged. |
| ImagesQueue.EagerQueue.IsEmpty | src/engine/images_queue.py:31-32 | True exactly when no image is queued. |
| ImagesQueue.EagerQueue.Dequeue | src/engine/images_queue.py:34-36 | The head image and its key are removed, or nothing changes when empty. The seen set and the history are kept, and the at-most-once invariant holds. |
| ImagesQueue.EagerQueue.Enqueue | src/engine/images_queue.py:71-78 | The new state is `EnqueueImage` of the old: an unseen name whose image decodes is appended with its image and marked seen, and nothing else changes. The history grows by the name exactly in that case. With the invariant (a repeat-free history whose latest entries are the queued images' keys), no name's image is queued twice. |
| ImagesQueue.EagerQueue.Update | src/engine/images_queue.py:38-41 | The new state is the eager scan of the current listing's matching names. The history grows by exactly the keys appended. |
| ImagesQueue.EagerQueue.Front | src/engine/images_queue.py:80-81 | Returns `None` exactly when empty, otherwise the head image; nothing changes. |
| EngineQueue.FileQueue.constructor | src/engine/queue.py:18-27 | Every listed entry, not only files, is considered. The entries are enqueued when either the configured or the argument flag is set; otherwise they are all marked seen. |
| EngineQueue.FileQueue.Ignore | src/engine/queue.py:26-27 | Every listed name becomes seen; the backlog is unchanged. |
| EngineQueue.FileQueue.IsEmpty | src/engine/queue.py:29-30 | True exactly when the backlog is empty. |
| EngineQueue.FileQueue.Dequeue | src/engine/queue.py:32-34 | The backlog becomes `Dequeued` of the old; the seen set is kept. |
| EngineQueue.FileQueue.Enqueue | src/engine/queue.py:50-54 | The new state is `EnqueueName` of the old. |
| EngineQueue.FileQueue.Update | src/engine/queue.py:36-39 | Enqueues the names of the files of the listing, in order. |
| EngineQueue.FileQueue.Scan | src/engine/queue.py:23-25 | Enqueues, in listing order, every name the filter keeps. |
| EngineQueue.FileQueue.Front | src/engine/queue.py:56-63 | The backlog and the result are those `FrontName` gives. |
| EngineQueue.ImageQueue.constructor | src/engine/queue.py:18-27 | Either flag enqueues every listed entry eagerly; otherwise every entry is marked seen. |
| EngineQueue.ImageQueue.Ignore | src/engine/queue.py:26-27 | Every listed name becomes seen. |
| EngineQueue.ImageQueue.IsEmpty | src/engine/queue.py:29-30 | True exactly when no image is queued. |
| EngineQueue.ImageQueue.Dequeue | src/engine/queue.py:32-34 | The head image and its key are removed, or nothing changes when empty. The seen set and the history are kept. |
| EngineQueue.ImageQueue.Enqueue | src/engine/queue.py:66-73 | The new state is `EnqueueImage` of the old: an unseen name whose image decodes is appended with its image and marked seen. The history grows by the name exactly in that case, so with the invariant no name's image is queued twice. |
| EngineQueue.ImageQueue.Update | src/engine/queue.py:36-39 | Eagerly enqueues the names of the files of the listing. The history grows by exactly the keys appended. |
| EngineQueue.ImageQueue.Scan | src/engine/queue.py:23-25 | Eagerly enqueues, in listing order, every name the filter keeps. The history grows by exactly the keys appended. |
| EngineQueue.ImageQueue.Front | src/engine/queue.py:75-76 | Returns `None` exactly when empty, otherwise the head image. |
| EngineQueue.CreateQueueFromConfig | src/engine/queue.py:78-81 | Builds an `ImageQueue` exactly when the queue type is `Image` (case-sensitive), otherwise a `FileQueue`, in the state its constructor promises. |
| LegacyQueue.Node.constructor | engine/queue.py:4-7 | A node holds the name and no successor. |
| LegacyQueue.FileQueue.constructor | engine/queue.py:10-19 | The chain of nodes spells out the backlog. With `enqueue_existing` it is the lazy scan of every listed name; otherwise it is empty and every name is seen. |
| LegacyQueue.FileQueue.Ignore | engine/queue.py:18-19 | Every listed name becomes seen; the chain is unchanged. |
| LegacyQueue.FileQueue.IsEmpty | engine/queue.py:21-22 | True exactly when `head` is `None`, i.e. the backlog is empty. |
| LegacyQueue.FileQueue.Append | engine/queue.py:27-32 | A fresh node is linked after the tail, or becomes head and tail; the backlog grows by the name. |
| LegacyQueue.FileQueue.Enqueue | engine/queue.py:24-33 | The backlog and seen set become `EnqueueName` of the old; the chain stays linked and acyclic. |
| LegacyQueue.FileQueue.Front | engine/queue.py:35-38 | Returns `None` exactly when empty, otherwise `directory / head.data`, the first backlog name. |
| LegacyQueue.FileQueue.Dequeue | engine/queue.py:40-45 | The backlog becomes `Dequeued` of the old. `tail` is `None` exactly when the queue became empty. |
| LegacyQueue.FileQueue.Update | engine/queue.py:47-50 | Enqueues the names of the files of the listing, in order. |
| LegacyQueue.FileQueue.Scan | engine/queue.py:15-17 | Enqueues, in listing order, every name the filter keeps. |
| Text.Lower | src/engine/config.py:22 | `str.lower` on ASCII keeps the length and lowers each upper-case letter. |
| Text.IndexOf | src/images/image.py:49 | The first index of the character, or the length when it is absent. |
| Text.RemoveFirst | src/engine/config.py:164 | `replace('.', '', 1)`: the text is unchanged without a dot; otherwise exactly the first dot is removed. |
| Text.ParseInt | src/engine/config.py:47 | `int(s)` is defined exactly for digits with an optional sign. Plain digits read as a natural number, and a negative value needs a leading minus. |
| Text.IsDecimal | src/engine/config.py:164 | `s.replace('.', '', 1).isdigit()` holds exactly when `s` has a digit and every character except the first dot is a digit. |
| Text.DecimalChars | src/engine/config.py:164 | Removing the first dot leaves digits exactly when the text has a digit and every other character is a digit. |
| Text.Suffix | src/engine/images_queue.py:25 | `PurePath.suffix`: non-empty exactly when the last dot is neither the first nor the last character, and then the name from that dot on; such a suffix has no other dot. |
| Text.NatToString | src/engine/config.py:156 | `str(n)` is a nonempty string of digits with no leading zero. |
| Text.NatToStringValue | src/engine/config.py:156 | Reading `str(n)` back gives `n`. |
| Text.IntRoundTrip | src/engine/config.py:156 | `int(str(i)) == i` for every integer, negative ones included. |
| Text.ParseDecimal | src/engine/config.py:51 | A value is defined exactly for the numerals `validate` accepts as numeric. |
| Text.DecimalParts | src/engine/config.py:164 | `digits.digits` passes the one-dot numeric test. |
| Text.ParseDecimalParts | src/engine/config.py:51 | `whole.frac` reads as `whole + frac / 10^len(frac)`. |
| Grid.RectCells | src/images/bayesian.py:96-97 | A rectangular image has rows times columns pixels. |
| Grid.CircleMask | src/images/processing.py:92-94 | The mask is true exactly on the pixels with `(y-cy)^2 + (x-cx)^2 <= r^2`. |
| Grid.EqMask | src/images/bayesian.py:56-57 | The mask is true exactly where the image equals the value. |
| Grid.And | src/images/bayesian.py:98-101 | The cellwise conjunction of two masks. |
| Grid.MaskedLength | src/images/processing.py:95 | Boolean indexing selects as many pixels as the mask has true cells. |
| Grid.MaskedSound | src/images/processing.py:95 | Every selected value is the pixel under some true cell. |
| Grid.MaskedComplete | src/images/processing.py:95 | The pixel under every true cell is selected. |
| Grid.MaskedMembers | src/images/processing.py:95 | A value is selected exactly when it lies under a true cell. |
| Grid.MeanWithin | src/images/processing.py:96 | The mean of nonempty values lies between any lower and upper bound of them. |
| Grid.CountFourBound | src/images/bayesian.py:98-101 | Four disjoint masks count at most all pixels together, and exactly all when they partition the image. |
| Image.SliceFirstPlane | src/images/image.py:55 | `[0, :, :, 0]` fails for fewer than four axes and for an empty first or last axis. Otherwise it is the y-by-x plane of `data[0][i][j][0]`. |
| Image.TiffImage | src/images/image.py:27-39 | The reader's array, with scaling and white point exactly as the caller gives them. |
| Image.ParsePixelSize | src/images/image.py:49 | Parses exactly when there is a comma and the text before it is a numeral; the value is that numeral's. |
| Image.CziImage | src/images/image.py:41-57 | A metadata failure (either tag missing or unparsable) is reported before an array failure. On success, the scaling is the first pixel-size component, the white point is `CameraPixelMaximum`, and the pixels are the first plane. |
| Image.PixelSizeTakesFirstComponent | src/images/image.py:49 | A pixel size `w.f,rest` yields `w.f`, whatever follows the comma. |
| Processing.FloorDiv | src/images/processing.py:88 | Python's float `//` is the floor of the quotient. |
| Processing.Normalize | src/images/processing.py:37-39 | The image keeps its shape. Each pixel is scaled by `white_point / ubound` and clipped from above at the white point. |
| Processing.NormalizeAtPercentile | src/images/processing.py:38-39 | The percentile value itself maps to the white point. |
| Processing.NormalizeMonotone | src/images/processing.py:39 | With a positive percentile, normalisation keeps the order of pixels. |
| Processing.NormalizeBelowPercentile | src/images/processing.py:39 | Pixels at or below the percentile are scaled linearly, not clipped. |
| Processing.Threshold | src/images/processing.py:47-48 | The image keeps its shape. A pixel becomes 1 exactly when it is strictly above the level, otherwise 0. |
| Processing.ThresholdForeground | src/images/processing.py:47-48 | A thresholded image is binary, and its foreground is exactly the pixels above the level. |
| Processing.RadiusCap | src/images/processing.py:88 | `max_radius // img_scaling` fails exactly for zero scaling. Otherwise it is the floor of the quotient. |
| Processing.CircleContour | src/images/processing.py:50-71 | Fails exactly when the OpenCV steps give no ellipse (no contour, or too few points for `fitEllipse`) or the scaling is zero. The centre comes from the ellipse's (x, y) centre. The radius is the floor-halved minor axis, capped. |
| Processing.Hits | src/images/processing.py:74 | Every listed position is a pixel above 0. |
| Processing.HitsComplete | src/images/processing.py:74 | Every pixel above 0 is listed. |
| Processing.SortInts | src/images/processing.py:76 | The result is sorted and a permutation of the input. |
| Processing.UpperMedian | src/images/processing.py:76 | `np.partition(s, n//2)[n//2]` is an element of `s`. |
| Processing.UpperMedianRank | src/images/processing.py:76-77 | The element of rank `n//2` has at least `n//2 + 1` values at or below it and at least `n - n//2` at or above it. |
| Processing.CircleEigenvalue | src/images/processing.py:73-89 | An empty foreground fails first (as `np.partition` does). A single foreground pixel fails, since its covariance is NaN and `eigvals` rejects it. It also fails when the estimate fails or the scaling is zero, and in no other case. The centre is the upper median of the foreground rows and of the foreground columns. The radius is the smaller of the estimate of the recentred coordinates and `max_radius // img_scaling`. |
| Processing.EigenvalueCentreInForeground | src/images/processing.py:74-77 | The eigenvalue centre's row holds a foreground pixel, and so does its column. |
| Processing.MeanIntensityBounds | src/images/processing.py:91-96 | The mean is exactly 0.0 when the circle covers no pixel. Otherwise it lies within any bounds of the covered pixels. |
| Processing.MeanIntensity | src/images/processing.py:91-96 | A nonzero mean needs some pixel inside the circle. |
| Processing.MaskImage | src/images/processing.py:25-28 | Fails exactly when normalising at a zero percentile. With thresholding, the mask keeps the image's shape and is binary; a pixel is 1 exactly when its normalised value (or its raw value without a normaliser) is above the level. |
| Processing.NewProcessor | src/images/processing.py:10-21 | Normalises exactly when `normalization` is set, at the given percentile. Uses k-means exactly for `K-Means`, otherwise thresholding at the level. Uses the eigenvalue fitter exactly for `Eigenvalue`, otherwise the contour fitter, with `max_radius`. |
| Processing.CircularMeanFluorescence | src/images/processing.py:24-35 | Succeeds exactly when masking and fitting succeed. The circle is fitted on the prepared mask, but the mean is over the original pixels. |
| Processing.FittedRadiusCapped | src/images/processing.py:70-88 | Whichever fitter is configured, the radius never exceeds `max_radius // img_scaling`. |
| Processor.BinaryMask | src/processing/processor.py:32-36 | The masker applied to the normalised copy when a normaliser exists, otherwise to the raw pixels, with white point and scaling. |
| Processor.Process | src/processing/processor.py:19-30 | Fails exactly when the fitter fails. Otherwise the result has the fitted (row, column) centre and radius, the mean of the original pixels in that circle, and `normalized` set exactly when there is a normaliser. |
| Processor.ProcessMeanWithin | src/processing/processor.py:27 | The reported mean lies within any bounds of the original pixels inside the reported circle. |
| Processor.RoiMaskAsWritten | src/processing/processor.py:40-44 | As written, the (row, column) centre is unpacked as `center_x, center_y`. The result is 255/0 with the centre's coordinates swapped. |
| Processor.RoiMask | src/processing/processor.py:40-44 | A 255/0 mask, 255 exactly inside the circle around (row, column). |
| Processor.RoiMatchesMeanSelection | src/processing/processor.py:43-49 | The corrected mask marks exactly the pixels `mean_intensity` averages. |
| Processor.SwappedCentreCounterexample | src/processing/processor.py:41 | On a 1x2 image with the centre at (0, 1), the averaged pixel is 255 in the corrected mask and 0 as written. |
| Processor.CircularRoiAsWritten | src/processing/processor.py:38-44 | Fails exactly when `process` fails; otherwise it is the swapped mask around the processed circle. |
| Processor.CircularRoi | src/processing/processor.py:38-44 | Fails exactly when `process` fails; otherwise it is 255 exactly on the pixels whose mean `process` reports. |
| Bayesian.ArgMin | src/images/bayesian.py:66 | `np.argmin`: the first index of a smallest element. |
| Bayesian.Concat | src/images/bayesian.py:60-61 | `np.concatenate` holds every pooled value and nothing else, and is at least as long as each pool. |
| Bayesian.Prior | src/images/bayesian.py:62-63 | `p_true` lies in [0, 1]. It is 0 exactly when the true pool is empty and 1 exactly when the false pool is. |
| Bayesian.Trainer.constructor | src/images/bayesian.py:45-50 | Both pools are empty; the settings are stored. |
| Bayesian.Trainer.Update | src/images/bayesian.py:52-57 | Appends the optionally preprocessed pixels where the truth equals the intensity to the true pools, and those where it is 0 to the false pools. |
| Bayesian.Trainer.Train | src/images/bayesian.py:59-66 | Fails without updates (`np.concatenate` of nothing), with no pooled pixel, or with fewer than one bin. When either pool has no value inside the histogram's range, its densities and so every gap are NaN, and the result is bin 0, as `np.argmin` gives. Otherwise it is the first bin below `bins` that minimises the weighted-histogram gap. |
| Bayesian.InRange | src/images/bayesian.py:64-65 | The count `np.histogram` keeps is 0 exactly when every value lies outside the closed range. |
| Bayesian.PoolMembers | src/images/bayesian.py:56-57 | A value is pooled exactly when it is the pixel at some position whose truth is the mark. |
| Bayesian.RegionMean | src/images/bayesian.py:102-103 | `np.mean` over the masked pixels is NaN exactly when no pixel of the mask has the value. |
| Bayesian.OutcomesBound | src/images/bayesian.py:97-101 | With a nonzero truth intensity, TP + FP + TN + FN never exceeds the pixel count. They count every pixel when both images hold only 0 and the intensity. |
| Bayesian.BothAtMostCells | src/images/bayesian.py:98-101 | No outcome counts more pixels than the image has. |
| Bayesian.OutcomesWithinImage | src/images/bayesian.py:96-101 | One image's outcomes each count at most its pixels; with a nonzero truth intensity, so do all four together. |
| Bayesian.IdenticalPrediction | src/images/bayesian.py:98-101 | A prediction equal to the truth has no false positive and no false negative. |
| Bayesian.Percent | src/images/bayesian.py:110-121 | A percentage is 0 exactly for no part, at most 100 for a part of the whole, and 100 exactly for the whole. |
| Bayesian.Harmonic | src/images/bayesian.py:121 | The F1 score of equal precision and sensitivity is that value. |
| Bayesian.HarmonicBetween | src/images/bayesian.py:121 | F1 lies between precision and sensitivity and is symmetric in them. |
| Bayesian.F1 | src/images/bayesian.py:121 | F1 on numpy floats is a number exactly when precision and sensitivity are numbers that are not both 0. It then lies between them. |
| Bayesian.Tester.constructor | src/images/bayesian.py:70-88 | All counters and sums start at 0; the settings are stored. |
| Bayesian.Tester.Update | src/images/bayesian.py:90-104 | Each of the four outcome counters grows by its count for this image. The totals grow by this image's pixels and by one image. Both sums grow by the region means, NaN included. No counter ever exceeds the pixel total. |
| Bayesian.Tester.Report | src/images/bayesian.py:107-125 | Fails exactly when there has been no update, because the counters are then Python ints and `0 / 0` raises. Otherwise each figure whose denominator is 0 is NaN, as numpy integers give. Precision and sensitivity are numbers exactly when their denominators are positive, and then TP over them. The true-positive rate is the sensitivity, and F1 is a number exactly when TP is positive. Correct and incorrect are the percentages of TP+TN and FP+FN among all pixels; the false positive, true negative and false negative rates are FP and TN over FP+TN and FN over TP+FN whenever those are positive. The correct and incorrect counts are TP+TN and FP+FN. The mean difference is NaN exactly when a sum is NaN, and otherwise `|actual - predicted| / total_images`, which is non-negative. |
| Bayesian.Tester.PerfectReport | src/images/bayesian.py:108-121 | With no false positive or false negative and some true positive, the report exists and precision, sensitivity and F1 are all 100 %. |
| FileHandler.PixelsMembers | modules/filehandler.py:95-96 | The flattened pixels are exactly the pixels of the array. |
| FileHandler.Percentile | modules/filehandler.py:114 | A linearly interpolated percentile lies between the smallest and the largest value. |
| FileHandler.PercentileMonotone | modules/filehandler.py:95-96 | A higher percentile of sorted values is never below a lower one. |
| FileHandler.UpperFence | modules/filehandler.py:95-97 | `median + 1.5 * iqr` is at least the 75th percentile, which is at least the median. |
| FileHandler.Unique | modules/filehandler.py:113 | `np.unique`: strictly increasing, holding exactly the values of the input, and nonempty exactly when the input is. |
| FileHandler.PercentileBelowMaximum | modules/filehandler.py:113-114 | No percentile of the distinct values exceeds the largest pixel. |
| FileHandler.ReduceDims | modules/filehandler.py:84-90 | Fails exactly when the plane is nonempty but the first or last axis is empty. Otherwise a fresh y-by-x array with `new[i][j] == czi[0][i][j][0]`. |
| FileHandler.BrightestUnique | modules/filehandler.py:98-102 | `brightest` is fixed by the array and the fence: two values meeting its definition are equal. |
| FileHandler.Brightest | modules/filehandler.py:98-102 | The loop finds the largest pixel not above the fence, or 0. |
| FileHandler.Stretch | modules/filehandler.py:105-108 | A pixel above `brightest` becomes the white point. Otherwise it is the floor of `v * 4096 / brightest`, which is at most the white point. |
| FileHandler.StretchBelowWhite | modules/filehandler.py:108 | A pixel at most `brightest` stretches to at most the white point. |
| FileHandler.StretchAll | modules/filehandler.py:103-108 | Fails exactly when `brightest` is 0 and some pixel is 0 (a division by zero). Otherwise every pixel is stretched in a fresh array. |
| FileHandler.BestFit | modules/filehandler.py:92-109 | An empty image is an error. So is a 0/0 pixel: `brightest` is 0 and some pixel is 0. Otherwise the result is the array stretched by the `brightest` of the `median + 1.5 IQR` fence, and no other error is raised. |
| FileHandler.Mark | modules/filehandler.py:118-119 | A pixel becomes 255 exactly when it is at or above the bound, otherwise 0. |
| FileHandler.MaximumReachesThreshold | modules/filehandler.py:113-119 | A largest pixel always reaches the 40th percentile of the distinct values. |
| FileHandler.MarkAll | modules/filehandler.py:115-120 | A fresh array of the same shape with each pixel marked against the bound. |
| FileHandler.ThresholdUnique | modules/filehandler.py:111-120 | Fails exactly for an empty image. Otherwise every pixel is marked against the 40th percentile of the distinct values, and every largest pixel is 255. |
| FileHandler.ClampAxisAsWritten | modules/filehandler.py:61-64 | As written, the clamps keep the circle inside the far edge, and leave a radius that fits alone. |
| FileHandler.ClampAxis | modules/filehandler.py:61-64 | The corrected clamp is at most the radius, at most the centre, and inside the far edge, and equals one of the three. |
| FileHandler.ClampCounterexample | modules/filehandler.py:61-62 | With radius 20 and centre 10, the clamp as written leaves 20, reaching above the top edge; the corrected clamp gives 10. |
| FileHandler.RoiRadiusAsWritten | modules/filehandler.py:59-69 | Fails exactly for zero scaling; the radius stays inside the bottom and right edges and below `2500 / scaling`. |
| FileHandler.RoiRadius | modules/filehandler.py:59-69 | Fails exactly for zero scaling. The radius keeps the circle inside all four edges and is below `2500 / scaling`. |
| FileHandler.RowValues | modules/filehandler.py:74-76 | The inner loop collects row `a`'s pixels inside the circle, left to right. |
| FileHandler.RoiValues | modules/filehandler.py:72-76 | The ROI list is exactly the pixels inside the circle, in row-major order. |
| FileHandler.RoundHalfEven | modules/filehandler.py:79 | The nearest integer, with ties going to the even one. |
| FileHandler.Round3 | modules/filehandler.py:79 | A multiple of 0.001 within half of it of the input, with ties going to the even multiple. |
| FileHandler.RoiMean | modules/filehandler.py:71-80 | Fails exactly when no pixel is inside the circle (`statistics.mean` of nothing). Otherwise it is the rounded mean of the ROI. |
| FileHandler.RoiMeanWithin | modules/filehandler.py:78-80 | The reported mean lies within any bounds of the ROI, up to the rounding. |
| Configuration.GetOr | src/engine/config.py:21 | `get` with a fallback: the stored text when present, the fallback otherwise. |
| Configuration.ParseBool | src/engine/config.py:30 | True exactly for `1/yes/true/on` and false exactly for `0/no/false/off`, in any case. |
| Configuration.GetBoolean | src/engine/config.py:30 | The fallback when absent; otherwise the parsed value, or an error for other text. |
| Configuration.GetInt | src/engine/config.py:47 | The fallback when absent; otherwise the value of an integer numeral, or an error. |
| Configuration.GetFloat | src/engine/config.py:51 | The fallback when absent; otherwise the value of a decimal numeral, or an error. |
| Configuration.PathValue | src/engine/config.py:20-22 | `None` exactly when the text is `none` in any case, otherwise the text as a path. |
| Configuration.Directory | src/engine/config.py:19-22 | The text of `files.directory`, or `None` when it is absent. The result is `None` exactly when that text is `none` in any case, otherwise the text itself. |
| Configuration.QueueType | src/engine/config.py:24-26 | The stored text of `files.queue_type`, or `File` when it is absent. |
| Configuration.EnqueueExisting | src/engine/config.py:28-30 | False when `files.enqueue_existing` is absent. Otherwise the value of a boolean word, or an error exactly when the text is no boolean word. |
| Configuration.WriteRoi | src/engine/config.py:32-34 | False when `files.write_roi` is absent. Otherwise the value of a boolean word, or an error exactly when the text is no boolean word. |
| Configuration.ImageFormat | src/engine/config.py:41-43 | The stored text of `images.image_format`, or `CZI` when it is absent. |
| Configuration.WhitePoint | src/engine/config.py:45-47 | 4095 when `images.white_point` is absent. Otherwise the value of the integer numeral, or an error exactly when the text is no integer numeral. |
| Configuration.Scaling | src/engine/config.py:49-51 | 3.45 when `images.scaling` is absent. Otherwise the value of the decimal numeral, or an error exactly when the text is no decimal numeral. |
| Configuration.MaxRadius | src/engine/config.py:53-55 | 2500 when `images.max_radius` is absent. Otherwise the value of the integer numeral, or an error exactly when the text is no integer numeral. |
| Configuration.MaskingMethod | src/engine/config.py:57-59 | The stored text of `processing.masking_method`, or `Thresholding` when it is absent. |
| Configuration.Normalization | src/engine/config.py:61-63 | True when `processing.normalization` is absent. Otherwise the value of a boolean word, or an error exactly when the text is no boolean word. |
| Configuration.NormalizationPercentile | src/engine/config.py:65-67 | 99.5 when `processing.normalization_percentile` is absent. Otherwise the value of the decimal numeral, or an error exactly when the text is no decimal numeral. |
| Configuration.ThresholdLevel | src/engine/config.py:69-71 | 1526 when `processing.threshold_level` is absent. Otherwise the value of the integer numeral, or an error exactly when the text is no integer numeral. |
| Configuration.CenterMethod | src/engine/config.py:73-75 | The stored text of `processing.center_method`, or `Median` when it is absent. |
| Configuration.RadiusMethod | src/engine/config.py:77-79 | The stored text of `processing.radius_method`, or `Contour` when it is absent. |
| Configuration.RequiredStable | src/engine/config.py:81-83 | 3 when `processing.required_stable` is absent. Otherwise the value of the integer numeral, or an error exactly when the text is no integer numeral. |
| Configuration.CheckDelay | src/engine/config.py:85-87 | 0.2 when `processing.check_delay` is absent. Otherwise the value of the decimal numeral, or an error exactly when the text is no decimal numeral. |
| Configuration.MaxChecks | src/engine/config.py:89-91 | 10 when `processing.max_checks` is absent. Otherwise the value of the integer numeral, or an error exactly when the text is no integer numeral. |
| Configuration.TrainingDirectoryRaw | src/engine/config.py:93-96 | The text of `bayesian.training_directory_raw`, or `./training/raw` when it is absent. The result is `None` exactly when that text is `none` in any case, otherwise the text itself. |
| Configuration.TrainingDirectoryTruth | src/engine/config.py:98-101 | The text of `bayesian.training_directory_truth`, or `./training/truth` when it is absent. The result is `None` exactly when that text is `none` in any case, otherwise the text itself. |
| Configuration.TestingDirectoryRaw | src/engine/config.py:103-106 | The text of `bayesian.testing_directory_raw`, or `./testing/raw` when it is absent. The result is `None` exactly when that text is `none` in any case, otherwise the text itself. |
| Configuration.TestingDirectoryTruth | src/engine/config.py:108-111 | The text of `bayesian.testing_directory_truth`, or `./testing/truth` when it is absent. The result is `None` exactly when that text is `none` in any case, otherwise the text itself. |
| Configuration.TruthIntensity | src/engine/config.py:113-115 | 255 when `bayesian.truth_intensity` is absent. Otherwise the value of the integer numeral, or an error exactly when the text is no integer numeral. |
| Configuration.TestingMethod | src/engine/config.py:117-119 | The stored text of `bayesian.testing_method`, or `Circle` when it is absent. |
| Configuration.OutputDirectoryAsWritten | src/engine/config.py:36-39 | As written, a missing option fails, because the fallback has no `.lower()`. |
| Configuration.OutputDirectory | src/engine/config.py:36-39 | Corrected: a missing option falls back to `directory`. It agrees with the as-written property whenever that succeeds. |
| Configuration.OutputDirectoryCounterexample | src/engine/config.py:38 | A `files` section without `Output_Directory` makes the as-written property fail. |
| Configuration.DefaultDirectories | src/engine/config.py:123-127 | A fresh configuration watches no directory and writes to none. |
| Configuration.DefaultSelections | src/engine/config.py:123-137 | Fresh defaults select the `File` queue, `CZI`, no existing files and the `Eigenvalue` radius. The radius method's fallback is `Contour`. |
| Configuration.DefaultNumbers | src/engine/config.py:128-131 | The default white point and maximum radius read as 4095 and 2500. |
| Configuration.DefaultScaling | src/engine/config.py:130 | The default scaling reads as 3.45. |
| Configuration.DefaultSections | src/engine/config.py:121-147 | `_create_default` writes exactly the sections `files`, `images`, `processing` and `bayesian`, each with exactly its own options. |
| Configuration.SetIn | src/engine/config.py:153-156 | `set` into a missing section changes nothing. Otherwise it writes `str(value)` under the lower-cased option and changes no other option. |
| Configuration.SetThenGet | src/engine/config.py:153-156 | A value written with `set` reads back through the matching getter: text with `get`, an integer with `getint`, a boolean with `getboolean`. |
| Configuration.Config.constructor | src/engine/config.py:13-17 | The defaults when there is no options file, otherwise the file's contents. |
| Configuration.Config.Set | src/engine/config.py:153-156 | The configuration becomes `SetIn` of the old one. |
| Configuration.Config.Reset | src/engine/config.py:158-159 | The four default sections are replaced by the defaults; every other section is kept. |
| Configuration.ValidateAll | src/engine/config.py:161-179 | Succeeds exactly when every check passes. Otherwise the error is the message of the first failing check. |
| Configuration.Checks | src/engine/config.py:161-179 | `validate` makes nine checks: three on `images`, five on `processing`, then one on `bayesian`. Exactly the second, fourth and seventh are numeric, and no two name the same option. |
| Configuration.Validate | src/engine/config.py:161-179 | Succeeds exactly when all nine checks pass. |
| Configuration.WhitePointCheckedFirst | src/engine/config.py:162-163 | A non-digit white point is reported first, whatever else is wrong. |
| Configuration.DefaultImagesPass | src/engine/config.py:128-131 | The default images section passes its checks. |
| Configuration.DefaultProcessingPass | src/engine/config.py:132-140 | The default processing section passes its checks. |
| Configuration.DefaultBayesianPass | src/engine/config.py:141-146 | The default bayesian section passes its check. |
| Configuration.DefaultsValidate | src/engine/config.py:121-179 | The configuration `_create_default` writes passes `validate`. |
| Configuration.DecimalExamples | src/engine/config.py:164 | `1.5`, `.5` and `5.` count as numeric. |
| Configuration.NonDecimalExamples | src/engine/config.py:164 | `1.2.3`, `-1` and the empty string do not. |
| Configuration.CreateImage | src/engine/config.py:181-184 | A CZI image exactly when the format is `CZI`. Otherwise a TIFF image with the configured scaling and white point, failing when either is unreadable. |
| Configuration.StableReaderOf | src/engine/config.py:198-200 | Uses the CZI decoder exactly for `CZI`, with the configured attempts, delay and stability count; fails when any of these is unreadable. |
| Configuration.CreateProcessor | src/engine/config.py:193-196 | The strategies `Processor.__init__` selects from the processing options. Fails when an option is unreadable. |
| Configuration.CreateTester | src/engine/config.py:207-213 | The pipeline is `circular_roi` exactly when the testing method is `circle` in any case. The testing directories and truth intensity come from the configuration. |
| Configuration.CreateQueue | src/engine/config.py:186-191 | Builds an eager queue exactly for the `Image` queue type, in the state its constructor promises. It fails when the stable reader (if needed), `enqueue_existing` or the directory is unavailable. |

## Left out

- **I/O.** Files, `options.ini` writing (`_create_default`'s file, `save`), `os.listdir`/`iterdir` and the CZI/TIFF decoders are left out. A listing is a sequence of entries, and the image factory is a function parameter.
- **`stable_read`.** Its polling loop depends on a clock and on the file changing underneath; only its configuration (`StableReaderOf`) is modelled.
- **OpenCV and numpy numerics.** `np.percentile`, k-means, the 8-bit rescale with opening and closing, `distanceTransform`, `findContours`/`fitEllipse`, the covariance eigenvalues and `np.histogram` are function parameters. The model proves what the code does around them.
- **Floating point.** Pixel values and floats are reals. NaN is modelled in the Tester, where `np.mean` of nothing produces it and where `report` divides 0 by 0, and in `Trainer.Train`, where a pool with no value in the histogram's range has NaN densities. Infinities are not modelled.
- **Integer widths.** The `uint64` and `uint8` arrays of `modules/filehandler.py` are unbounded naturals. Overflow of `cziarr[a][b] * 4096` is not modelled.
- **Paths.** Queue keys are file names, passed to the factory unchanged. In the source the keys are the paths `iterdir` yields, already prefixed with the directory, and `front`/`enqueue` open `self._directory / val` (src/engine/images_queue.py:63, 74). That is the key itself for an absolute directory but repeats a relative one (`d/d/name`). The model assumes an absolute directory.
- **Processing.NormalizeMonotone, Processing.NormalizeBelowPercentile:** these assume a positive percentile value. A zero percentile divides by zero in the source, and `Normalize` requires a nonzero one.
- **Processing.CircleEigenvalue:** each exception is an `Err`: an empty foreground (`np.partition`), a single foreground pixel (`eigvals` of a NaN covariance), a failing estimate (`math.sqrt` of a negative eigenvalue, which the `estimate` parameter reports as `None`) and zero scaling (`//` by zero). The estimate itself is a parameter.
- **Processing.CircularMeanFluorescence, Processing.MaskImage:** a zero percentile is an `Err`. numpy would instead divide by it and continue: a positive pixel times `inf` is clipped to the white point, and a 0 pixel becomes NaN. Reals cannot hold NaN.
- **Image.SliceFirstPlane, Image.CziImage:** a raw array of five or more axes is not represented. For such an array numpy's `[0, :, :, 0]` succeeds and gives an array of three or more axes, which a `Grid` cannot hold. The model covers four axes and fewer.
- **ImagesQueue.LazyQueue.Front, ImagesQueue.EagerQueue.constructor, ImagesQueue.EagerQueue.Enqueue, ImagesQueue.EagerQueue.Update, EngineQueue.FileQueue.Front, EngineQueue.ImageQueue.constructor, EngineQueue.ImageQueue.Enqueue, EngineQueue.ImageQueue.Scan, EngineQueue.ImageQueue.Update:** the image factory is a total function, so it cannot raise. In the source it can: `CziImage` raises on bad metadata or a bad array (src/images/image.py:52, 57), and the factory `create_queue` builds always raises `TypeError`. Such an exception propagates out of `front`, `enqueue`, `update` or the constructor part-way through a scan, leaving the names before it enqueued. The model does not capture that partial state.
- **Configuration.GetInt, Configuration.GetFloat, Image.ParsePixelSize, Image.CziImage:** `int()` and `float()` also accept surrounding whitespace and digit-group underscores (`1_000`), and `float()` also accepts a sign, an exponent (`3e-1`), `inf` and `nan`. The pixel size (`float(text[0:index(',')])`) and `CameraPixelMaximum` (`int(...)`) are read with the same plain-numeral readers, so metadata in those forms is a `MetadataError` in the model. The model reads plain numerals only. Values read from a file are stripped by `configparser`, but `set` stores `str(value)` unstripped.
- **Text.Lower, Text.IsDigits, Text.ParseInt, Text.IsDecimal:** only ASCII is modelled. Python's `str.lower`, `str.isdigit` and `int` are Unicode-aware: `'É'.lower()` is `'é'`, `'٣'.isdigit()` holds and `int('٣')` is 3, while the model leaves `É` unchanged and rejects `٣`. So `Configuration.Validate` rejects, and `Configuration.GetInt` fails on, option text with non-ASCII digits that the source accepts, and `Configuration.PathValue` compares only ASCII letters with `none`.
- **Configuration.SetIn:** `'DEFAULT' in config` is true for a `ConfigParser`, so `set('DEFAULT', ...)` writes to the defaults section. The model has no defaults section, and `SetIn` with `DEFAULT` is a no-op unless the map holds such a section.
- **Configuration.GetOr, Configuration.SetIn:** under `configparser`'s default `BasicInterpolation`, a value with a lone `%` raises on `get` and on `set`. The model stores and reads text verbatim.
- **The `Radius_Method` fallback.** When the option is missing, `Contour` is used, although `_create_default` writes `Eigenvalue`. The model follows the code (`DefaultSelections` states both).
- **`create_image`.** It passes `reader=` to `CziImage` and `TiffImage`, which do not accept it, so the call raises `TypeError` in the code. `Configuration.CreateImage` models the evident selection without the reader keyword.
- **`create_trainer`.** It passes `raw_dir`/`truth_dir`, which `Trainer.__init__` does not accept, so it is not modelled. `Trainer` is modelled directly.
- **`create_tester`'s pipeline.** `src/images/processing.py`'s `Processor` has neither `process` nor `circular_roi`. `Configuration.CreateTester` therefore records which pipeline is selected, not a callable. The Tester's pipeline is a `Grid -> Grid` parameter.
- **`Tester.update`'s file reading.** The raw and truth images are parameters, and the 4-D slice is `Image.SliceFirstPlane`.
- **`circular_mean_fluorescence` in `src/processing/processor.py`.** It calls `process` with two arguments where one is expected, so it always raises. The model keeps `src/images/processing.py`'s version (`Processing.CircularMeanFluorescence`).
- **Configuration.SetThenGet:** stated for text, integers and booleans, not floats. `str` of a float has exponent and repeating forms that the decimal reader does not cover.
- **Configuration.GetFloat, Text.ParseDecimal:** only the digits-and-one-dot numerals (those `validate` accepts) are read. Signs, exponents, `inf` and `nan`, which `float` also accepts, are errors in the model.
- **LegacyQueue.FileQueue.constructor:** does not state that the nodes are fresh; it states the chain and its contents.
- **The GUI, `src/engine/main.py`, `src/images/output_writer.py`, `images/flyimage.py` and `modules/eyespy.py`** are outside the core and are not part of this model.
- **K-means masking** is a parameter; only the choice of it is modelled.

## Findings

| source | as written | input that shows it | evidently intended | confidence | as-written member | corrected member |
|---|---|---|---|---|---|---|
| src/processing/processor.py:41 | `center_x, center_y = results.center` unpacks the (row, column) centre swapped, so the drawn circle is mirrored about the diagonal | a 1x2 image with the circle of radius 0 at row 0, column 1: pixel (0, 1) is averaged but left at 0 in the mask | `center_y, center_x = results.center`, so the mask marks the pixels `mean_intensity` averages | not executed | Processor.CircularRoiAsWritten, Processor.SwappedCentreCounterexample | Processor.CircularRoi |
| modules/filehandler.py:61-62 | `if yrad - cy < 0: yrad = cy` clamps only when the radius is already smaller than the centre (and likewise for `xrad` at 65-66) | radius 20 with centre 10 on a 100-pixel axis: the radius stays 20 and the circle reaches 10 pixels above the top edge | `if cy - yrad < 0: yrad = cy`, so the circle stays inside the top and left edges | not executed | FileHandler.ClampAxisAsWritten, FileHandler.RoiRadiusAsWritten, FileHandler.ClampCounterexample | FileHandler.ClampAxis, FileHandler.RoiRadius |
| src/engine/config.py:38-39 | the fallback is `self.directory`, a `Path` or `None`, and `.lower()` on it raises `AttributeError` | a `files` section without `Output_Directory` | a missing option falls back to the watched directory | not executed | Configuration.OutputDirectoryAsWritten, Configuration.OutputDirectoryCounterexample | Configuration.OutputDirectory |
