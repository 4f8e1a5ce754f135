# lifka and street_ocr: a Dafny model of the two drivers

The repository holds two small command-line programs around the libcrn
imaging and OCR library. This project models the control logic the two
programs contain themselves and proves its properties. Two kinds of
library result are modelled as inputs: whether each image loads, and the
class ids of the segmented and classified document. Every other library
call is taken to return normally.

- `lifka` (`lifka.dfy`, module `Lifka`). `option` takes `argv`, checks
  for help and version, loads the image at `argv[2]`, recognises the
  option, and then converts, describes or rescales the image. It exits with
  -1 on error and 0 otherwise. `Lifka.Option` is that method: it keeps the
  source's nested tests and its mutable error flag. It is proved equal to
  `Lifka.Decide`, a flat decision table, and the lemmas state properties of
  that table. The output names that `getBuffer`, `scale` and `savePNG`
  build are functions. Each has a partner: scale names parse back to their
  path, width and height, and conversion names are injective and never
  collide with scale names. `std::to_string` is modelled as `Decimal`,
  which parses back through `ParseDecimal`.
- `street_ocr` (`street_ocr.dfy`, module `StreetOcr`). `main` checks its
  argument (exit -1). It then loads the prototypes 'A'..'Z' in order and
  stops at the first failure (exit -2). Next it opens the document (exit
  -3). Last, it appends the letter `'A' + class_id` for each character and a
  line break after each line. `StreetOcr.BuildDatabase` and
  `StreetOcr.Recognize` are the two loops. They are proved against
  `InAlphabetOrder` (entry i was extracted from letter 'A' + i) and against
  `Transcript`. `StreetOcr.Run` fixes the order of the early exits.

Inputs that stand for the library:

- `lifka`: `imageLoads` says whether `crn::NewImageFromFile(argv[2])`
  succeeds. `width` and `height` are the numbers `atoi` reads from
  `argv[3]` and `argv[4]`.
- `street_ocr`: `prototypeLoads(c)` says whether the prototype image of
  letter `c` opens, and `documentLoads` says whether the document at
  `argv[1]` opens. `lines` holds one sequence of class ids per text line,
  in line order. Within a line the ids are ordered left to right, after
  filtering. This is what segmentation, `FilterMinOr`, `SortTree` and
  `NearestNeighbor` produce.

The exit code is modelled as the value passed to `exit` or returned from
`main` (-1, -2, -3 or 0). A shell sees these as 255, 254, 253 and 0.

## Model

| member | source | states |
|---|---|---|
| `Lifka.Decimal` | examples/lifka.cpp:41-43 | the decimal text of a size is made of digits, has a single digit exactly for sizes below 10 (so 0 is "0"), and starts with '0' only for zero |
| `Lifka.DecimalRoundTrip` | examples/lifka.cpp:41-43 | reading the decimal text of n back gives n, so distinct sizes give distinct texts |
| `Lifka.PngName` | examples/lifka.cpp:25-29 | the saved file's name is the given name followed by exactly ".png" |
| `Lifka.GetBuffer` | examples/lifka.cpp:60-86 | never reports an error; saves under path + "_gray"/"_RGB"/"_BW" + ".png" for opt 0/1/2, the only values `option` passes; the name starts with the path and is longer than path + ".png" |
| `Lifka.Scale` | examples/lifka.cpp:35-50 | never reports an error; saves under path + "_" + decimal width + "x" + decimal height + ".png" |
| `Lifka.TakeNumberOfDecimal` | examples/lifka.cpp:40-43 | a separator followed by a decimal number, taken off the end of a name, gives back the prefix and the number |
| `Lifka.ScaleNameRoundTrip` | examples/lifka.cpp:39-47 | the scale output name parses back to exactly the image path, width and height it was built from |
| `Lifka.ConversionNameInjective` | examples/lifka.cpp:63-83 | two conversion outputs with the same file name come from the same image path and the same conversion |
| `Lifka.ConversionNameIsNotScaleName` | examples/lifka.cpp:35-83 | no conversion output name equals any scale output name |
| `Lifka.Option` | examples/lifka.cpp:100-176 | the nested dispatch with its error flag gives the action, load attempt, files written and exit code of the decision table `Decide` |
| `Lifka.TooFewArguments` | examples/lifka.cpp:165-172 | fewer than 2 arguments: failure with usage, no load attempted, nothing written, exit -1 |
| `Lifka.HelpAndVersionIgnoreTheRest` | examples/lifka.cpp:109-112 | `-h`/`--help` gives usage and `-v`/`--version` prints "lifka 1.0"; both exit 0 without loading anything, and nothing after argv[1] nor the image changes the outcome |
| `Lifka.OptionWithoutImage` | examples/lifka.cpp:161-163 | any other option with exactly 2 arguments exits -1 without attempting a load |
| `Lifka.LoadComesFirst` | examples/lifka.cpp:115-127 | with argc >= 3 the image is loaded before the option is recognised, even for an unknown option; if it fails to load, every option exits -1 with nothing written |
| `Lifka.OptionsAfterLoad` | examples/lifka.cpp:127-158 | after a successful load, gray/RGB/BW (short and long forms) write path_gray.png/path_RGB.png/path_BW.png and info exits 0 for any argc >= 3; scale exits 0 exactly when argc == 5 and writes path_WxH.png; an unrecognised option exits -1 |
| `Lifka.ExitCodes` | examples/lifka.cpp:169-175 | the exit code is 0 or -1; it is -1 exactly on failure, which writes nothing; it is 0 iff the option is help or version, or the image loaded and the option is recognised for that argc |
| `Lifka.ScaleExample` | examples/lifka.cpp:144-151 | `lifka -s img 100 200` writes `img_100x200.png` |
| `StreetOcr.LetterOfClassId` | examples/street_ocr.cpp:151 | the letter for class id k gives k back as its offset from 'A'; it lies in 'A'..'Z' exactly when k < 26; it is never a line break |
| `StreetOcr.BuildDatabase` | examples/street_ocr.cpp:61-88 | prototypes are opened for 'A', 'B', ... in order; it succeeds iff all 26 load, and the database then has 26 entries with entry i from letter 'A'+i and file street/font/('A'+i).png; on failure the last letter opened is the first that failed, every earlier one loaded, and no later one was tried |
| `StreetOcr.LineText` | examples/street_ocr.cpp:141-160 | a line's text has one character per component, and character j is the letter of the j-th class id, never a line break |
| `StreetOcr.Recognize` | examples/street_ocr.cpp:122-164 | the nested line and character loops build exactly `Transcript(lines)` |
| `StreetOcr.TranscriptShape` | examples/street_ocr.cpp:125-164 | the text holds exactly one '\n' per line, and its length is the number of characters plus the number of lines |
| `StreetOcr.TranscriptLayout` | examples/street_ocr.cpp:125-164 | line i's letters appear in left-to-right order starting at the end of the earlier lines and their breaks, and a '\n' follows its last letter |
| `StreetOcr.EmptyLine` | examples/street_ocr.cpp:141-163 | a line with no characters contributes only '\n' |
| `StreetOcr.TranscriptAlphabet` | examples/street_ocr.cpp:148-151 | with class ids below 26, every character of the text is in 'A'..'Z' or is '\n' |
| `StreetOcr.ClassIdMatchesDatabase` | examples/street_ocr.cpp:148-151 | with the database in alphabet order, class id k maps to the letter that entry k was extracted from |
| `StreetOcr.Run` | examples/street_ocr.cpp:26-174 | exits -1 iff there is no argument, with no prototype opened, an empty database and no document opened; exits -2 iff some prototype fails, after opening a prefix of the alphabet that ends at the first failure and without opening the document; exits -3 iff all prototypes loaded and the document failed; the document is opened only after the full 26-entry database is built in order; on exit 0 the text is `Transcript(lines)`, and otherwise it is empty; on exit -2 every letter before the failing one loaded and the partial database holds exactly those, in alphabet order; whenever the document is opened, all 26 letters 'A'..'Z' were opened in order first |
| `StreetOcr.TextNamesDatabaseEntries` | examples/street_ocr.cpp:148-151 | with the 26-entry database in alphabet order and ids below 26, the character of the text at line i, position j is the letter of the database entry that character was classified as |
| `StreetOcr.SingleCharacter` | examples/street_ocr.cpp:141-163 | one line with one character of class k < 26 is read as that letter followed by a line break |

## Left out

- Everything the imaging library does is left out. That covers image
  decoding and PNG writing, the gray, RGB and black-and-white conversions,
  `ScaleToSize`, the stroke and line-height estimates, feature extraction,
  line segmentation, connected components, `FilterMinOr`, `SortTree` and
  nearest-neighbour classification. The model sees only their outcomes,
  the load flags and the class ids per line. Feature vectors are not
  represented: a database entry records only its letter and its file.
- Apart from the image loads, every library call is assumed to return
  normally. That covers `GetGray`/`GetRGB`/`GetBW`, `SavePNG`,
  `ScaleToSize`, `Block::New`, feature extraction, segmentation and
  classification. None of them runs inside a `try`, so a throw from any
  of them would end the process through `std::terminate`. The model does
  not represent that case: there, `Decide` and `StreetOcr.Run` still
  report exit 0 and the files written.
- `atoi` on `argv[3]`/`argv[4]` is left out, together with its conversion to
  `unsigned int` and then `size_t`. Width and height are natural-number
  inputs, so `Decimal` is not bounded by 32 bits.
- For `-i`, the second load (`NewImageGrayFromFile(argv[2])`) is not
  modelled. It sits outside the `try`, so if it failed the process would
  terminate instead of exiting -1. The model assumes it succeeds whenever
  the first load did. The printed statistics are library numerics and are
  left out.
- `crn::Path` joining of "street/font/", the letter and ".png" is not
  modelled. `FontFile` is the plain concatenation "street/font/" + letter +
  ".png".
- Console output is not modelled. That covers the usage text, `perror`,
  the version line printed to the console (its text "lifka 1.0" is
  modelled), the per-character diagnostics and the verbose dump of the
  text. Verbosity settings and the `crn::Timer` stopwatch are left out too.
- Class ids are limited to values below `MaxClassId`, so that 'A' + k is a
  character. `NearestNeighbor` returns an index into the 26-entry database,
  so real ids lie far below this bound. What the C++ string does with
  larger code points is not modelled.
- `GetBuffer` is modelled only for opt 0..2, the three values `option`
  passes. For any other opt the result image stays a null `crn::SImage`,
  and `savePNG` would call `SavePNG` through that null pointer. That is
  undefined behaviour, which the model does not represent.
