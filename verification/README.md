# FormRecognizerVerifier annotator, modelled in Dafny

FormRecognizerVerifier is a command-line tool that takes a scanned form
image and the JSON result of a form-recognition service. For every
key/value record on the first page it draws the detected text region on a
copy of the image as a labelled, half-transparent box and prints the
detected text. Then it writes the copy as `out-<file name of the image>`.

This project models that annotation logic as pure functions over typed
records:

- `Text` — ordinal substring containment. The tool uses it to recognise
  marker keys (text containing `_Tokens_`) and watermark values (text
  containing `thisisawatermark`).
- `Geometry` — converts a bounding box to a drawing rectangle and label
  anchor. The box has eight numbers, four corners in a bottom-left-origin
  frame. The drawing surface has its origin at the top left.
- `Paths` — the base name of a path and the output file name.
- `Annotator` — the record loop of `DrawBoxes` and the draw call of
  `WriteLabelAndBoundingBox`. Drawing and printing become an ordered trace
  of `Draw`/`Print` effects. The draw commands and the console lines are the
  two projections of that trace.
- `Cli` — the argument-count guard of `Main`, with the file system given as
  two maps (image heights, parsed results).
- `Walkthrough` — worked examples: the box from the source's comment, and a
  watermarked value.

The code takes the rectangle's bottom edge from `bb[5]`, which is corner 2's
y. The model follows the code. An alternative would take it from corner 3
(`bb[7]`), which is the bottom-left corner when the corners run top-left,
top-right, bottom-right, bottom-left. `Geometry.BoxRectMatchesBottomLeft`
proves that the two agree exactly when `bb[5] == bb[7]`. That holds for
horizontal boxes, including the example in the source's comment.

## Model

| member | source | states |
|---|---|---|
| Text.ContainsIff | FormRecognizerVerifier/Program.cs:48 | the recursive containment test holds exactly when the tag occurs at some position of the text (both directions) |
| Text.ContainsInConcat | FormRecognizerVerifier/Program.cs:70 | a tag contained in either part of a string is contained in the whole, so text that merely starts or ends with the tag still matches |
| Geometry.FlipY | FormRecognizerVerifier/Program.cs:102 | a y coordinate and its flipped value always add up to the image height |
| Geometry.FlipYInvolution | FormRecognizerVerifier/Program.cs:93-95 | moving between the bottom-left and top-left frames twice gives back the original y, so the conversion loses nothing |
| Geometry.FlipYReversesOrder | FormRecognizerVerifier/Program.cs:93-95 | flipping reverses vertical order: a point higher in the Cartesian frame is nearer the top of the drawing surface |
| Geometry.BoxRect | FormRecognizerVerifier/Program.cs:102 | the rectangle's left and right are `bb[0]` and `bb[2]`; flipping its top and bottom back to the Cartesian frame gives `bb[1]` and `bb[5]` |
| Geometry.LabelAnchor | FormRecognizerVerifier/Program.cs:102-103 | the label anchor is always the drawn rectangle's top-left corner |
| Geometry.BoxRectOrientation | FormRecognizerVerifier/Program.cs:102 | the rectangle has its top above its bottom exactly when `bb[5] <= bb[1]`, and its left before its right exactly when `bb[0] <= bb[2]` |
| Geometry.BoxRectMatchesBottomLeft | FormRecognizerVerifier/Program.cs:102 | the code's rectangle, with its bottom edge from corner 2's y, equals the alternative with its bottom edge from corner 3's y exactly when those two ys are equal |
| Geometry.ExampleBox | FormRecognizerVerifier/Program.cs:102 | the box in the source's comment, on a 500-unit image, becomes the rectangle (45, 31)-(85, 43), anchored at (45, 31) |
| Paths.Basename | FormRecognizerVerifier/Program.cs:83 | the base name is a suffix of the path, has no separator, and is either the whole path or preceded by a separator |
| Paths.BasenameUnique | FormRecognizerVerifier/Program.cs:83 | whenever a path is a directory part (empty or ending in a separator) followed by a separator-free name, that name is its base name |
| Paths.BasenameOfPlainName | FormRecognizerVerifier/Program.cs:83 | a name without separators is its own base name |
| Paths.OutputName | FormRecognizerVerifier/Program.cs:83 | the output name starts with `out-`, continues with the base name of the image path, and has no separator, so it names a file in the working directory |
| Paths.OutputNameIgnoresDirectory | FormRecognizerVerifier/Program.cs:83 | an image path and its base name give the same output name |
| Annotator.LabelAndBox | FormRecognizerVerifier/Program.cs:97-104 | one draw call strokes in the given colour, one unit wide, fills with (50,50,50,128), uses the converted rectangle, and anchors the span's text at the rectangle's top-left corner |
| Annotator.ValueColour | FormRecognizerVerifier/Program.cs:46-63 | values are drawn purple exactly when the key is a marker, blue otherwise |
| Annotator.ValueEffects | FormRecognizerVerifier/Program.cs:66-80 | in the value loop's effects, every draw is immediately followed by a print of its label |
| Annotator.RecordEffects | FormRecognizerVerifier/Program.cs:43-80 | in one record's effects, every draw is immediately followed by a print of its label |
| Annotator.RecordsEffects | FormRecognizerVerifier/Program.cs:41-81 | in the whole record loop, every draw is immediately followed by a print of its label |
| Annotator.DrawBoxes | FormRecognizerVerifier/Program.cs:31-83 | a run prints exactly one line per draw call, and line i is draw i's label; the output name starts with `out-` |
| Annotator.PairedConcat | FormRecognizerVerifier/Program.cs:55-56 | two traces in which every draw is followed by its print concatenate into one with the same property |
| Annotator.DrawsPrintsConcat | FormRecognizerVerifier/Program.cs:41-81 | the draw calls and console lines of consecutive work are those of each part, in order |
| Annotator.PairedProjections | FormRecognizerVerifier/Program.cs:77-78 | in such a trace there are as many console lines as draw calls, and line i is draw i's label |
| Annotator.Visible | FormRecognizerVerifier/Program.cs:70 | every span kept is unwatermarked and from the record, and every unwatermarked span of the record appears in the result at least once |
| Annotator.VisibleCounts | FormRecognizerVerifier/Program.cs:66-70 | filtering keeps each unwatermarked span exactly as often as it occurs among the values and drops every watermarked one |
| Annotator.VisibleConcat | FormRecognizerVerifier/Program.cs:66-70 | filtering out watermarks keeps the array order of the values |
| Annotator.EmitAllShape | FormRecognizerVerifier/Program.cs:77-78 | drawing a list of spans gives span i's draw at position 2i and its print at 2i+1 |
| Annotator.ValueEffectsIsFilterThenEmit | FormRecognizerVerifier/Program.cs:66-80 | the value loop equals dropping watermarked spans and then drawing and printing each remaining span once, in array order |
| Annotator.WatermarkSkipped | FormRecognizerVerifier/Program.cs:70 | a watermarked span adds no draw and no print, whatever its bounding box |
| Annotator.ValueColourUniform | FormRecognizerVerifier/Program.cs:77 | every value of a record is drawn in that record's single value colour |
| Annotator.RecordEffectsShape | FormRecognizerVerifier/Program.cs:48-66 | a marker key gives no key draw and no key print, and its values are purple; any other key gives one blue draw and one print of its text, before its values, which are blue |
| Annotator.MarkerKeyBoxNeverRead | FormRecognizerVerifier/Program.cs:48-53 | a marker key's bounding box is never read: replacing it, even with an incomplete one, changes nothing |
| Annotator.ValuePrints | FormRecognizerVerifier/Program.cs:66-80 | the value loop prints the texts of the unwatermarked values, in array order |
| Annotator.RecordPrints | FormRecognizerVerifier/Program.cs:43-80 | a record prints its key text (unless a marker) followed by its unwatermarked value texts |
| Annotator.ConsoleOrder | FormRecognizerVerifier/Program.cs:41-81 | the console shows, record by record in document order, the key text (unless a marker) and then the drawn value texts |
| Annotator.RecordsEffectsConcat | FormRecognizerVerifier/Program.cs:41 | records are processed one after another: the effects of two runs of records, concatenated, are the effects of the concatenation |
| Annotator.DrawBoxesLines | FormRecognizerVerifier/Program.cs:41-81 | a run's console lines equal the record-by-record reference listing of the first page |
| Annotator.OnlyFirstPage | FormRecognizerVerifier/Program.cs:41 | pages after the first never affect the result |
| Annotator.OutputNameIndependentOfResult | FormRecognizerVerifier/Program.cs:83 | the output name is `out-` plus the base name of the image path, whatever the recognition result or image height |
| Cli.Main | FormRecognizerVerifier/Program.cs:10-39 | usage exactly when fewer than two arguments; otherwise an unreadable image faults before the result file is read, an unreadable or unparseable result file faults next, and a run that gets past both files is annotated under `out-` plus the image's base name, printing the reference listing of the result's first page with one draw per line carrying that line's text |
| Cli.UsageTouchesNoFile | FormRecognizerVerifier/Program.cs:12-21 | with fewer than two arguments the outcome is the usage text whatever the file system holds, so no file is read |
| Cli.ExtraArgumentsIgnored | FormRecognizerVerifier/Program.cs:23 | arguments after the second do not change the outcome |
| Walkthrough.NameField | FormRecognizerVerifier/Program.cs:41-59 | a plain key "Name" with the comment's box on a 500-unit image gives one blue draw of (45, 31)-(85, 43) and the single console line "Name" |
| Walkthrough.ExampleOutputName | FormRecognizerVerifier/Program.cs:83 | the image `scans/form.png` is written as `out-form.png` |
| Walkthrough.WatermarkExtraSkipped | FormRecognizerVerifier/Program.cs:70 | a value "thisisawatermark_extra" is skipped even with an empty bounding box |

## Left out

- Image loading, `Clone`, `AutoOrient`, the draw call and the file write belong to the ImageMagick library. A draw becomes a `DrawCmd` value. The image height is a parameter. The height is read before `AutoOrient`, and the model does not capture how rotation would change it.
- JSON parsing and dynamic indexing are left out. The result is a typed `ResultDocument`. A missing first page, a record without a key span, and a read bounding box with fewer than eight entries make the source throw. Here they are preconditions (`DocumentReadable`, `Readable`), not modelled faults. These preconditions deliberately say nothing about the boxes of marker keys and watermarked values, because the source never reads them.
- `Double.Parse` and floating point are left out. Coordinates are exact `real`s, so `height - y` is exact subtraction with no rounding.
- Paths.Basename: the model always uses the Windows separator set, `/` and `\`. On Unix-like systems `Path.GetFileName` splits only on `/`, and `\` is an ordinary file-name character, so there `scans\form.png` would give `out-scans\form.png` where the model gives `out-form.png`. The model also does not treat a volume separator specially or reject invalid characters.
- Cli.Main: a missing image, a missing result file and a result file that does not parse all become an `Unreadable` outcome naming the path. In the source each is an unhandled exception, and the model does not record which lines were printed before it. A `null` argument array is not representable.
- Console colours, the usage text, the final status line and the closing `ReadLine` pause are console I/O only.
- The fixed stroke width (1) and fill colour (50, 50, 50, 128) are carried as constant fields of each `DrawCmd`. Their rendering is not modelled.
