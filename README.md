# Cityscapes panoptic input pipeline, modelled in Dafny

This project models the example-construction and batching logic of
`input_pipelines/input_pipeline_cityscapes_panoptic.py`: the TensorFlow 1
input pipeline that turns a list of Cityscapes example identifiers into the
training, evaluation and inference datasets of a single-network panoptic
segmentation model. The source is a pure composition of dataset maps and
tensor expressions, so the model is a set of Dafny functions over strings,
sequences and integer rasters, with lemmas about them.

Modules, in dependency order:

- `Outcomes` (outcomes.dfy): `Option`, `Result` and the errors that end a dataset: a malformed identifier, a missing file, a bad or ragged box file, an empty resize, a batch size below one.
- `Text` (text.dfy): `tf.string_split` with empty tokens skipped, `tf.string_join`, and the int32 reading of `tf.string_to_number`.
- `Resolver` (resolver.dfy): the stripped identifier and the image, label and box-file paths.
- `BoxParser` (boxparser.dfy): the box file read as space- and newline-separated int32 values, in rows of seven, cut into class, raw box and weight columns; the box utilities are uninterpreted routines.
- `Rasters` (rasters.dfy): images (height x width x channels) and label masks (height x width ids) as integer grids, with greyscale-to-RGB, the horizontal flip and the nearest-neighbour resize.
- `Stages` (stages.dfy): the per-example stages `_parse_and_decode`, `_parse_and_decode_inference`, `_resize_images`, `_resize_images_inference`, `_preprocess_images` and `_format_inputs`.
- `Datasets` (datasets.dfy): the three datasets. Each maps the file list line by line, and a failing line ends the dataset after the elements before it. Training pads batches of `Nb` and drops the remainder; evaluation and inference use batches of one.

File contents enter the model as a `Files` value: maps from path to decoded image, decoded label and box-file text. The bilinear image resize and the three box utilities enter as function values in a `Library`. The random draw of example i is `draws(i)`.

An example identifier must have exactly four non-empty `_`-separated tokens: the code splits at `_`, drops the last token and unstacks exactly three (lines 35 and 84). `city_000001_000001` is therefore refused, and `aachen_000000_000019_leftImg8bit` strips to `aachen_000000_000019`.

## Model

| member | source | states |
|---|---|---|
| Text.Split | input_pipelines/input_pipeline_cityscapes_panoptic.py:91-92 | every token of `string_split` is non-empty and holds no delimiter |
| Text.SplitAll | input_pipelines/input_pipeline_cityscapes_panoptic.py:92 | every token of a vector split is non-empty and delimiter-free, and together they are the lines' characters without the delimiters |
| Text.FlattenAppend | input_pipelines/input_pipeline_cityscapes_panoptic.py:92 | concatenating two lists of pieces flattens to the two flattenings in order |
| Text.SplitKeepsContent | input_pipelines/input_pipeline_cityscapes_panoptic.py:91-92 | the tokens put back together are the input with exactly its delimiters removed |
| Text.SplitAppend | input_pipelines/input_pipeline_cityscapes_panoptic.py:91-92 | at a delimiter, splitting a + b is splitting a followed by splitting b |
| Text.SplitToken | input_pipelines/input_pipeline_cityscapes_panoptic.py:35 | a non-empty delimiter-free string splits into itself alone |
| Text.SplitJoin | input_pipelines/input_pipeline_cityscapes_panoptic.py:35-36 | joining non-empty delimiter-free parts with a delimiter and splitting again returns the parts |
| Text.Join | input_pipelines/input_pipeline_cityscapes_panoptic.py:36 | `string_join` begins with its first part |
| Text.JoinKeepsContent | input_pipelines/input_pipeline_cityscapes_panoptic.py:36 | joining `_`-free parts with `_` adds only separators: removing them leaves the parts concatenated |
| Text.SplitWidened | input_pipelines/input_pipeline_cityscapes_panoptic.py:91-92 | delimiters that never occur in a string do not change its split |
| Text.SplitTwice | input_pipelines/input_pipeline_cityscapes_panoptic.py:91-92 | splitting at newlines and then each line at spaces is one split at both |
| Text.ParseInt32 | input_pipelines/input_pipeline_cityscapes_panoptic.py:93 | a token read as int32 is a value within the int32 range, or nothing |
| Text.NatToString | input_pipelines/input_pipeline_cityscapes_panoptic.py:93 | the decimal spelling of a natural is a non-empty digit string |
| Text.IntToString | input_pipelines/input_pipeline_cityscapes_panoptic.py:93 | the decimal spelling of an integer uses only digits and `-` |
| Text.DigitsValueOfNatToString | input_pipelines/input_pipeline_cityscapes_panoptic.py:93 | the digits of a spelled natural read back as that natural |
| Text.ParseInt32RoundTrip | input_pipelines/input_pipeline_cityscapes_panoptic.py:93 | every int32 written in decimal reads back as itself |
| Text.ParseInt32Rejects | input_pipelines/input_pipeline_cityscapes_panoptic.py:93 | a token with any character other than digits and one leading minus is refused |
| Resolver.Root | input_pipelines/input_pipeline_cityscapes_panoptic.py:38-39 | the dataset directory as a prefix: empty or ending in `/`, extending the directory by at most one `/` |
| Resolver.PathJoin | input_pipelines/input_pipeline_cityscapes_panoptic.py:38-39 | `os.path.join` is the root followed by the relative part, or the absolute part alone |
| Resolver.StripIdentifier | input_pipelines/input_pipeline_cityscapes_panoptic.py:35-36 | succeeds exactly when the identifier has four `_` tokens; its result splits into the first three; otherwise a malformed-identifier error |
| Resolver.Under | input_pipelines/input_pipeline_cityscapes_panoptic.py:43-44 | a path built under a relative sub-directory is the root followed by the sub-directory, the name and the extension |
| Resolver.ImagePath | input_pipelines/input_pipeline_cityscapes_panoptic.py:38-43 | the image path is root + `images/` + the whole identifier + `.png` |
| Resolver.LabelPath | input_pipelines/input_pipeline_cityscapes_panoptic.py:39-44 | the label path is root + `panoptic_proc/` + the stripped identifier + `_gtFine_instanceIds.png` |
| Resolver.BoxFilePath | input_pipelines/input_pipeline_cityscapes_panoptic.py:86-88 | the box-file path is root + `panoptic_txt_weights/` + the stripped identifier + `_gtFine_instanceIds.txt` |
| Resolver.StripFourTokens | input_pipelines/input_pipeline_cityscapes_panoptic.py:35-36 | a + `_` + b + `_` + c + `_` + e with non-empty, `_`-free parts strips to a + `_` + b + `_` + c |
| Resolver.StripDropsLastToken | input_pipelines/input_pipeline_cityscapes_panoptic.py:35-36 | for an identifier without stray `_`, the stripped identifier, `_` and the last token rebuild it |
| Resolver.SiblingsShareAnnotations | input_pipelines/input_pipeline_cityscapes_panoptic.py:84-88 | identifiers that differ only in their last token share the label path and the box-file path |
| Resolver.ImagePathInjective | input_pipelines/input_pipeline_cityscapes_panoptic.py:43 | distinct identifiers give distinct image paths |
| Resolver.AnnotationPathsInjective | input_pipelines/input_pipeline_cityscapes_panoptic.py:84-88 | distinct stripped identifiers give distinct label paths and distinct box-file paths |
| Resolver.PathsDistinct | input_pipelines/input_pipeline_cityscapes_panoptic.py:38-44 | the image, label and box file of one example are three different paths |
| BoxParser.ParseInts | input_pipelines/input_pipeline_cityscapes_panoptic.py:93 | all tokens read as int32 in order, or the error names a token that is not an int32 literal |
| BoxParser.Chunk | input_pipelines/input_pipeline_cityscapes_panoptic.py:93 | a multiple of seven values cut into rows of seven whose concatenation is the input |
| BoxParser.Rows | input_pipelines/input_pipeline_cityscapes_panoptic.py:93 | the reshape to `[-1, 7]` succeeds exactly when the count is a multiple of seven, into count/7 rows of seven |
| BoxParser.Columns | input_pipelines/input_pipeline_cityscapes_panoptic.py:97-101 | one entry per row: class is column 1, the raw box columns 2-5, the weight column 6 |
| BoxParser.ParseBoxText | input_pipelines/input_pipeline_cityscapes_panoptic.py:90-101 | succeeds exactly when every token is an int32 and their count is a multiple of seven; then tokens/7 rows, with classes, boxes and weights of one length |
| BoxParser.ParseAndStoreBoxes | input_pipelines/input_pipeline_cityscapes_panoptic.py:83-103 | each error in order (identifier, missing file, parse); success exactly when the identifier strips, the box file exists and it parses; on success box i is raw box i converted and normalised by the original height and width, with classes and weights as parsed |
| BoxParser.Tokenize | input_pipelines/input_pipeline_cityscapes_panoptic.py:91-92 | the tokens of a box file are non-empty, hold no newline or space, and together are the text without its newlines and spaces |
| BoxParser.TokenizeIsOneSplit | input_pipelines/input_pipeline_cityscapes_panoptic.py:91-92 | the two splitting passes equal one split at newline and space |
| BoxParser.BlankRunsCollapse | input_pipelines/input_pipeline_cityscapes_panoptic.py:91-92 | two consecutive blanks tokenise like one, because empty tokens are skipped |
| BoxParser.TrailingBlankIgnored | input_pipelines/input_pipeline_cityscapes_panoptic.py:91-92 | a trailing newline or space adds no token |
| BoxParser.FormatLinesFree | input_pipelines/input_pipeline_cityscapes_panoptic.py:91 | every written line of a table is non-empty and newline-free |
| BoxParser.SplitFormattedLines | input_pipelines/input_pipeline_cityscapes_panoptic.py:92 | splitting the written lines at spaces gives the value strings row after row |
| BoxParser.ParseIntsAppend | input_pipelines/input_pipeline_cityscapes_panoptic.py:93 | reading two token lists in sequence reads their concatenation |
| BoxParser.ParseIntStrings | input_pipelines/input_pipeline_cityscapes_panoptic.py:93 | a row of int32 values written in decimal reads back as the row |
| BoxParser.ParseTableStrings | input_pipelines/input_pipeline_cityscapes_panoptic.py:93 | the value strings of an int32 table read back as the table flattened |
| BoxParser.ChunkFlatten | input_pipelines/input_pipeline_cityscapes_panoptic.py:93 | cutting a flattened table of seven-wide rows into sevens gives the table back |
| BoxParser.BoxTextRoundTrip | input_pipelines/input_pipeline_cityscapes_panoptic.py:90-101 | a seven-column int32 table written as lines of space-separated decimals parses to exactly its class, box and weight columns |
| BoxParser.InstanceIdIgnored | input_pipelines/input_pipeline_cityscapes_panoptic.py:95-101 | tables that differ only in column 0 (the instance id) parse alike |
| BoxParser.ColumnsIgnoreFirst | input_pipelines/input_pipeline_cityscapes_panoptic.py:95-101 | the extracted columns do not depend on column 0 |
| BoxParser.RaggedFileRejected | input_pipelines/input_pipeline_cityscapes_panoptic.py:93 | a file whose token count is not a multiple of seven is refused |
| Rasters.Channel | input_pipelines/input_pipeline_cityscapes_panoptic.py:50-51 | a helper view for the greyscale and flip lemmas: channel k of an image is the grid of every pixel's k-th value |
| Rasters.GreyscaleToRgb | input_pipelines/input_pipeline_cityscapes_panoptic.py:48-52 | a one-channel image becomes three channels each equal to the original value; any other image is unchanged; size kept |
| Rasters.GreyscaleChannelsEqual | input_pipelines/input_pipeline_cityscapes_panoptic.py:48-52 | every channel of a converted greyscale image is the original channel |
| Rasters.DecodedImageIsRgb | input_pipelines/input_pipeline_cityscapes_panoptic.py:48-52 | a decoded one- or three-channel image always has three channels after the conversion |
| Rasters.GreyscaleIdempotent | input_pipelines/input_pipeline_cityscapes_panoptic.py:73-76 | converting twice is converting once |
| Rasters.FlipLeftRight | input_pipelines/input_pipeline_cityscapes_panoptic.py:113-116 | cell (r, c) of the flipped grid is cell (r, W-1-c); height and width kept |
| Rasters.Reverse | input_pipelines/input_pipeline_cityscapes_panoptic.py:115 | reversal keeps the length |
| Rasters.ReverseIndex | input_pipelines/input_pipeline_cityscapes_panoptic.py:115 | element k of the reversal is element n-1-k |
| Rasters.FlipReversesRows | input_pipelines/input_pipeline_cityscapes_panoptic.py:115 | each row of the flipped grid is that row reversed |
| Rasters.FlipTwice | input_pipelines/input_pipeline_cityscapes_panoptic.py:113-116 | flipping twice gives the grid back |
| Rasters.FlipKeepsIds | input_pipelines/input_pipeline_cityscapes_panoptic.py:113-116 | the flipped label holds exactly the ids of the original |
| Rasters.FlipImage | input_pipelines/input_pipeline_cityscapes_panoptic.py:110-111 | the pixel grid is flipped with each pixel's channel vector kept whole |
| Rasters.FlipImageChannels | input_pipelines/input_pipeline_cityscapes_panoptic.py:110-111 | each channel of the flipped image is that channel flipped |
| Rasters.FlipImageTwice | input_pipelines/input_pipeline_cityscapes_panoptic.py:110-111 | flipping an image twice gives it back |
| Rasters.SourceIndex | input_pipelines/input_pipeline_cityscapes_panoptic.py:151-152 | the nearest-neighbour source index of an output index is a valid input index |
| Rasters.ResizeNearest | input_pipelines/input_pipeline_cityscapes_panoptic.py:151-153 | the resized mask has the target size and every cell copies its nearest-neighbour source cell |
| Rasters.ResizeNearestKeepsIds | input_pipelines/input_pipeline_cityscapes_panoptic.py:151-153 | nearest-neighbour resizing creates no id that was not in the input |
| Rasters.ResizeNearestSameSize | input_pipelines/input_pipeline_cityscapes_panoptic.py:151-152 | resizing to the mask's own size changes nothing |
| Stages.ParseAndDecode | input_pipelines/input_pipeline_cityscapes_panoptic.py:25-62 | the errors in order (identifier, image, label, boxes), each reported with its path or the box parser's error; success exactly when all four succeed; the RGB image, the label read at the label path, the boxes parsed with the image size; classes and weights as many as boxes |
| Stages.ParseAndDecodeInference | input_pipelines/input_pipeline_cityscapes_panoptic.py:64-81 | succeeds exactly when the image exists; returns the RGB image, the image path and the raw decoded image |
| Stages.ResizeImages | input_pipelines/input_pipeline_cityscapes_panoptic.py:138-158 | fails exactly on an empty source or target; the bilinear image, the mask resized by nearest neighbour to the target size (so no new ids), and the boxes, classes and weights unchanged |
| Stages.ResizeImagesInference | input_pipelines/input_pipeline_cityscapes_panoptic.py:160-175 | fails exactly on an empty source or target; the image resized, path and raw image kept |
| Stages.FlipDrawn | input_pipelines/input_pipeline_cityscapes_panoptic.py:106-108 | without the option nothing flips; with it a flip happens exactly for draws above one half |
| Stages.FlipBoxes | input_pipelines/input_pipeline_cityscapes_panoptic.py:126-128 | the box flip applied to each box in order |
| Stages.PreprocessImages | input_pipelines/input_pipeline_cityscapes_panoptic.py:105-136 | one draw above 0.5 with the option set flips image, label and boxes together; otherwise the example is unchanged; classes and weights never change |
| Stages.PreprocessTwice | input_pipelines/input_pipeline_cityscapes_panoptic.py:105-128 | with the same draw, preprocessing twice restores the example when the box flip undoes itself |
| Stages.PreprocessKeepsLabelIds | input_pipelines/input_pipeline_cityscapes_panoptic.py:122-124 | the flip keeps the label's ids and its height and width |
| Stages.SqueezeAll | input_pipelines/input_pipeline_cityscapes_panoptic.py:116 | squeeze without an axis leaves no dimension of size 1 and no more dimensions than before |
| Stages.SqueezeAllAppend | input_pipelines/input_pipeline_cityscapes_panoptic.py:116 | squeezing a concatenation squeezes each part, so the kept dimensions stay in order |
| Stages.SqueezeAllOne | input_pipelines/input_pipeline_cityscapes_panoptic.py:116 | a single dimension is kept exactly when it is not 1 |
| Stages.SqueezeAxis | input_pipelines/input_pipeline_cityscapes_panoptic.py:153 | squeezing one named unit axis removes that dimension and keeps every other one in order |
| Stages.SqueezeUnitLast | input_pipelines/input_pipeline_cityscapes_panoptic.py:116 | squeezing [a, b, 1] drops the 1 and each of a, b that is 1 |
| Stages.FlippedLabelShapeAsWritten | input_pipelines/input_pipeline_cityscapes_panoptic.py:113-116 | as written, the flipped label's shape is [H, W] with each of H and W that is 1 dropped |
| Stages.FlippedLabelShape | input_pipelines/input_pipeline_cityscapes_panoptic.py:113-116 | with only the added axis squeezed, the flipped label's shape is [H, W] |
| Stages.FlippedLabelShapeAsWrittenIff | input_pipelines/input_pipeline_cityscapes_panoptic.py:113-116 | as written, the flipped label keeps shape [H, W] exactly when neither H nor W is 1 |
| Stages.FlippedLabelShapeOneRow | input_pipelines/input_pipeline_cityscapes_panoptic.py:113-116 | as written, a 1 x 512 label comes back with shape [512] |
| Stages.FlippedLabelShapeKept | input_pipelines/input_pipeline_cityscapes_panoptic.py:113-116 | squeezing only the added axis keeps [H, W] for every size, and that is the shape of the model's flipped label |
| Stages.AddDummyBbox | input_pipelines/input_pipeline_cityscapes_panoptic.py:203-204 | exactly the one box (0, 0, 0.1, 0.1): at the origin, inside the unit square |
| Stages.Column | input_pipelines/input_pipeline_cityscapes_panoptic.py:196-197 | the reshape to `[-1, 1]` puts each value in a row of its own, in order |
| Stages.FormatInputs | input_pipelines/input_pipeline_cityscapes_panoptic.py:177-200 | no boxes: the dummy box, class -1, weight 0, count [1]; otherwise boxes unchanged, class i and weight i each in a row [value] of their own, count [N]; image and label untouched |
| Stages.FormatInputsWellFormed | input_pipelines/input_pipeline_cityscapes_panoptic.py:177-200 | formatting an example whose classes and weights match its boxes yields N >= 1 boxes, N x 1 classes and weights and the count [N] |
| Datasets.MapFrom | input_pipelines/input_pipeline_cityscapes_panoptic.py:222-224 | the results of the lines from a start index until the first failing line, whose error stops the dataset |
| Datasets.MapLines | input_pipelines/input_pipeline_cityscapes_panoptic.py:222-232 | item i is the result for line i; no failure means one item per line; a failure is the error of the line right after the last item |
| Datasets.MapLinesAllOk | input_pipelines/input_pipeline_cityscapes_panoptic.py:222-232 | when every line succeeds, the dataset is every line's result in order and has no failure |
| Datasets.MapLinesStopsAtFirstFailure | input_pipelines/input_pipeline_cityscapes_panoptic.py:222-232 | the first failing line k leaves exactly k items and its error |
| Datasets.MapSame | input_pipelines/input_pipeline_cityscapes_panoptic.py:222-232 | stage functions that agree on every line map the list alike |
| Datasets.MaxLength | input_pipelines/input_pipeline_cityscapes_panoptic.py:246-248 | the `None` padded dimension is an upper bound of every length and is reached by one of them (0 when there are none) |
| Datasets.PadTo | input_pipelines/input_pipeline_cityscapes_panoptic.py:242-249 | padding keeps the prefix and fills the rest with the pad value up to the target length |
| Datasets.PadRows | input_pipelines/input_pipeline_cityscapes_panoptic.py:246-248 | every row padded to the same length |
| Datasets.PadAll | input_pipelines/input_pipeline_cityscapes_panoptic.py:246-248 | every row padded to the longest row |
| Datasets.Stack | input_pipelines/input_pipeline_cityscapes_panoptic.py:286 | `batch` stacks the components unchanged: element k of every component is example k's |
| Datasets.PaddedBatch | input_pipelines/input_pipeline_cityscapes_panoptic.py:242-249 | images, masks and counts stacked; boxes, classes and weights of example k padded with zeros to the longest in the batch |
| Datasets.PaddedBatchAligned | input_pipelines/input_pipeline_cityscapes_panoptic.py:246-248 | for well-formed examples, boxes, classes and weights are padded to the same length |
| Datasets.PaddedToLargestCount | input_pipelines/input_pipeline_cityscapes_panoptic.py:246-248 | the padded box dimension equals the largest box count of the batch: no example exceeds it and one has exactly that count |
| Datasets.PaddedBatchShaped | input_pipelines/input_pipeline_cityscapes_panoptic.py:242-249 | a padded batch of well-formed H x W examples has H x W masks, aligned rows, and each count its example's boxes, between 1 and the padded length |
| Datasets.PaddedSingleton | input_pipelines/input_pipeline_cityscapes_panoptic.py:242-249 | a padded batch of one example is the unpadded batch of it |
| Datasets.PaddedSingletons | input_pipelines/input_pipeline_cityscapes_panoptic.py:242-249 | padding any group of one changes nothing |
| Datasets.StartIsProduct | input_pipelines/input_pipeline_cityscapes_panoptic.py:242-243 | batch j begins j x Nb elements in |
| Datasets.Chunks | input_pipelines/input_pipeline_cityscapes_panoptic.py:242-243 | as many groups of Nb as fit, with fewer than Nb elements left over |
| Datasets.ChunkAt | input_pipelines/input_pipeline_cityscapes_panoptic.py:242-243 | group j is elements j x Nb up to (j+1) x Nb, in order |
| Datasets.ChunksAll | input_pipelines/input_pipeline_cityscapes_panoptic.py:242-243 | every group is its Nb-element slice |
| Datasets.ChunksCount | input_pipelines/input_pipeline_cityscapes_panoptic.py:242-243 | there are exactly floor(n / Nb) groups |
| Datasets.Batched | input_pipelines/input_pipeline_cityscapes_panoptic.py:242-243 | batch j is the batching function applied to the j-th slice of Nb elements; the remainder is dropped; the failure passes through |
| Datasets.BatchedAtAny | input_pipelines/input_pipeline_cityscapes_panoptic.py:242-243 | batch j is the batching function applied to elements Start(j, Nb) up to Start(j, Nb) + Nb |
| Datasets.BatchedCount | input_pipelines/input_pipeline_cityscapes_panoptic.py:242-243 | batching n elements by Nb yields floor(n / Nb) batches |
| Datasets.BatchedAll | input_pipelines/input_pipeline_cityscapes_panoptic.py:242-243 | if every element is good and every full group of good elements batches to an ok batch, every batch is ok |
| Datasets.BatchedSame | input_pipelines/input_pipeline_cityscapes_panoptic.py:242-249 | batching functions that agree on every full group batch a stream alike |
| Datasets.BatchedOnes | input_pipelines/input_pipeline_cityscapes_panoptic.py:286 | batches of one: one batch per element, each the batch of that element alone |
| Datasets.TrainExample | input_pipelines/input_pipeline_cityscapes_panoptic.py:222-232 | decoding errors pass through; success exactly when decoding and resizing succeed; the result is well formed with an H x W mask |
| Datasets.TrainExampleContent | input_pipelines/input_pipeline_cityscapes_panoptic.py:222-232 | a training example is its decoded example resized, then image, mask and boxes flipped together by its draw, given the dummy box when it has none; the mask is the nearest-neighbour resize of the decoded mask, flipped or not, with no id the decoded mask lacked |
| Datasets.TrainElement | input_pipelines/input_pipeline_cityscapes_panoptic.py:222-232 | the per-line training stage applied to line i with draw i |
| Datasets.TrainExamples | input_pipelines/input_pipeline_cityscapes_panoptic.py:220-232 | item i is the training example of line i; stops at the first failing line with its error |
| Datasets.TrainExamplesShaped | input_pipelines/input_pipeline_cityscapes_panoptic.py:222-232 | every training example is well formed with an H x W mask |
| Datasets.TrainInput | input_pipelines/input_pipeline_cityscapes_panoptic.py:207-254 | refused exactly when Nb < 1; otherwise the epoch's examples in padded batches of Nb with the remainder dropped |
| Datasets.TrainBatchesShaped | input_pipelines/input_pipeline_cityscapes_panoptic.py:242-249 | every training batch holds Nb examples with H x W masks, rows aligned, each count between 1 and the padded length |
| Datasets.TrainExampleImageSized | input_pipelines/input_pipeline_cityscapes_panoptic.py:130 | with a size-respecting resize and a one- or three-channel decoder, a training image is H x W x 3 |
| Datasets.TrainImagesSized | input_pipelines/input_pipeline_cityscapes_panoptic.py:155 | under the same assumptions every training image is H x W x 3 |
| Datasets.PaddedBatchesImagesSized | input_pipelines/input_pipeline_cityscapes_panoptic.py:244 | stacking H x W x 3 images gives a batch of H x W x 3 images |
| Datasets.BatchedImagesSized | input_pipelines/input_pipeline_cityscapes_panoptic.py:242-244 | padded batches of a stream of H x W x 3 images hold H x W x 3 images |
| Datasets.TrainBatchImagesSized | input_pipelines/input_pipeline_cityscapes_panoptic.py:242-244 | under the resize and decoder assumptions, every image of every training batch is H x W x 3, the fixed padded image shape |
| Datasets.BatchedShaped | input_pipelines/input_pipeline_cityscapes_panoptic.py:242-249 | padded batches of well-formed H x W examples are all shaped batches of Nb |
| Datasets.PaddedBatchesShaped | input_pipelines/input_pipeline_cityscapes_panoptic.py:242-249 | any Nb well-formed H x W examples pad to a shaped batch |
| Datasets.EvaluateExample | input_pipelines/input_pipeline_cityscapes_panoptic.py:271-278 | the evaluation stage is the training stage with the flip off, whatever the draw |
| Datasets.EvaluateElement | input_pipelines/input_pipeline_cityscapes_panoptic.py:271-278 | the per-line evaluation stage applied to line i |
| Datasets.EvaluateExamples | input_pipelines/input_pipeline_cityscapes_panoptic.py:269-278 | item i is the evaluation example of line i; stops at the first failing line with its error |
| Datasets.EvaluateInput | input_pipelines/input_pipeline_cityscapes_panoptic.py:256-288 | one unpadded batch of one per example, in order, with the examples' failure |
| Datasets.TrainExamplesUnflipped | input_pipelines/input_pipeline_cityscapes_panoptic.py:271-278 | with the flip off, the training examples are the evaluation examples for any draws |
| Datasets.EvaluateIsUnflippedTraining | input_pipelines/input_pipeline_cityscapes_panoptic.py:256-288 | evaluation equals training with the flip off and Nb = 1 |
| Datasets.InferenceExampleOf | input_pipelines/input_pipeline_cityscapes_panoptic.py:305-310 | succeeds exactly when the image exists and source and target are non-empty; the resized RGB image, its path and the raw image |
| Datasets.InferenceImageSized | input_pipelines/input_pipeline_cityscapes_panoptic.py:173 | under the resize and decoder assumptions, an inference image is H x W x 3 |
| Datasets.InferenceElement | input_pipelines/input_pipeline_cityscapes_panoptic.py:305-310 | the per-line inference stage applied to line i |
| Datasets.InferenceExamples | input_pipelines/input_pipeline_cityscapes_panoptic.py:303-310 | item i is the inference example of line i; stops at the first failing line with its error |
| Datasets.InferenceInput | input_pipelines/input_pipeline_cityscapes_panoptic.py:290-315 | one batch of one per example, in order, holding its image, path and raw image |
| Datasets.InferenceIgnoresAnnotations | input_pipelines/input_pipeline_cityscapes_panoptic.py:64-81 | inference does not depend on label files or box files |
| Datasets.InferenceCoversEveryLine | input_pipelines/input_pipeline_cityscapes_panoptic.py:313 | with every image present and non-empty, one batch per line, in order, carrying that line's image path |

## Left out

- File reading (`TextLineDataset`, `tf.read_file`): the file list is a sequence of lines, and file contents are the maps of `Files`.
- JPEG and PNG decoding: `Files` holds images and labels as already decoded. The PNG files are decoded with the JPEG decoder (line 46); that is the codec's business and is not modelled.
- `convert_image_dtype` and `from_0_1_to_m1_1` (lines 8-23, 54-55, 78-79): floating-point rescaling. Pixels stay integers and the rescaling is not applied.
- The bilinear image resize (line 150, line 172) is the uninterpreted `Library.resizeBilinear`. A resize from or to an empty size is treated as an error.
- `convert_input_box_format`, `normalize_boxes` and `flip_normalized_boxes_left_right` live in a utilities module that is not part of this model. They are uninterpreted functions applied box by box, and boxes are four reals.
- `BoxParser.ParseInts`: accepts only an optional `-` followed by decimal digits. The library's `string_to_number` also accepts forms such as a leading `+` or surrounding whitespace that this model refuses.
- `shuffle(100)` and `repeat(None)` (lines 250-251): the model yields one epoch in file order. Shuffling reorders batches and repetition makes the stream endless.
- `num_parallel_calls=30` (lines 224, 273, 307): parallelism only. The model maps lines in order, which is the order the dataset yields.
- `tf.random_uniform` and `params.random_seed` (line 107): the draw of line i is supplied as `draws(i)`.
- `set_shape` (lines 130-131, 155-156, 173) is static graph metadata. The label shapes it would assert are proved (`ResizeImages`, `PreprocessKeepsLabelIds`, `TrainBatchesShaped`). The image shape is proved only under two assumptions: `Stages.ResizesToSize` (the bilinear resize returns the requested height and width and keeps the channels) and `Stages.RgbDecodes` (decoded images have one or three channels). See `TrainImagesSized`, `TrainBatchImagesSized` and `InferenceImageSized`.
- The fixed padded shapes of the image and the label (lines 244-245): their components are stacked unchanged. Every training mask has the target height and width (`TrainExamplesShaped`). Every training image has the target shape only under `ResizesToSize` and `RgbDecodes` (`TrainBatchImagesSized`). Without them the model does not promise that the images of a batch agree in size.
- The reshape of classes and weights to columns at lines 133-134 happens only when the flip option is set. It is left out because `_format_inputs` makes the same reshape at lines 196-197 unconditionally, so no output depends on it.
- Labels with a channel axis: a decoded label is a single-channel height x width grid. The `expand_dims` and `squeeze` around the flip and the resize appear only in the shape model of `SqueezeAll` and `SqueezeAxis`.
- `params.filelist_filepath` and `params.random_seed`: the list and the draws are parameters.
- A failing element ends the dataset: the items before it are yielded, then the error. Another line that would also fail later is not reported.
- When several checks of one example fail, the model reports the first in code order: identifier, then image, then label, then box file. A graph runtime may surface a different one.

## Findings

| source | as written | input that shows it | evidently intended | confidence | as-written member | corrected member |
|---|---|---|---|---|---|---|
| input_pipelines/input_pipeline_cityscapes_panoptic.py:116 | `_flip_label_left_right` expands the label to H x W x 1, flips it and calls `squeeze` with no axis, which removes every dimension of size 1 | a flipped label of height 1 and width 512 (`height_input = 1`) comes back with shape [512], not [1, 512], so it no longer matches the [H, W] shape declared at line 131 | squeeze only the axis added by `expand_dims` (axis 2), as `_resize_images` does at line 153, keeping [H, W] for every size | not executed | Stages.FlippedLabelShapeOneRow | Stages.FlippedLabelShapeKept |
