# test-generator: a verified model of test-paper composition

The test generator turns a project (settings, a header and a list of
questions) into a PDF test paper. The paper has four parts:

- a header band with the title and the name and class fields;
- one numbered block per rendered question:
  - a Selection question shows its answers, shuffled, in a lettered list;
  - an Input question shows a number of dotted answer lines;
- a footer with a blank for the points total;
- the write to the output file.

This project models that composition in Dafny and proves what it produces.
It covers:

- the current generator (`src/pdf_gen.rs`);
- the older one in the `hell-core` crate (`hell-core/src/main.rs`);
- the alphabetic ordered list and the Split element (`src/pdf_elements.rs`, `hell-core/src/elements.rs`);
- the settings, language tables and question model (`src/settings.rs`, `src/data.rs`, `hell-core/src/data.rs`);
- the editor's selectable list (`src/ui_elements.rs`);
- the generation benchmark (`src/perf_test.rs`).

The PDF library's `Document` is a class holding:

- the page settings;
- an append-only sequence of element descriptors (`Elem`: Paragraph,
  Text, Break, Padded, CharRepeat, BulletPoint, Vertical, AlphaList,
  Split).

Every method that pushes into the document states the new element
sequence as a function of the old one. The lemmas speak about those
functions.

The random generator is a class (`Rng`) that reads a fixed stream of raw
draws. `Shuffle` is Fisher-Yates over an array. The contracts promise only
a permutation.

The outcomes of loading fonts, writing the file and reading the clock come
in as an `IoOutcome` parameter. The written files are a `map` in a
`FileSystem` class.

Modules:

- `Prelude`: `Option`/`Result`, the fixed-width integers, decimal printing
  (`Dec`), `ilog10` and `str::repeat`, and sequence helpers.
- `Settings`: paper size, language tables and the settings record.
- `Data`: questions, header and project.
- `Decode`: serde defaults and the order in which the untagged `Question`
  variants are tried.
- `PdfElements`: the element descriptors, Split render routing and
  `AlphabeticOrderedList`.
- `Backend`: document, files, RNG and I/O outcomes.
- `PdfGen`: the current generator.
- `HellCore`: the older generator and its `main`.
- `UiElements`: `StatefulList`.
- `PerfTest`: the benchmark.

Where a source function panics (an `unwrap`, an unsigned underflow,
`log10` of 0), the model turns that into a precondition:

- `Fits` / `ListsFit`: every bullet character of a lettered list must be a
  valid `char`.
- `FooterDefined`: the rendered questions must be worth at least one
  point. Under shuffling this is stated as: fewer zero-point questions
  than rendered slots.
- `StatefulList`: the length of an empty list is never decremented.
- `print_stats`: at least two timings.

`generate_pdf` returns a font-loading error before it composes anything, so
`ListsFit` and `FooterDefined` are demanded only when the font loads.

Facts about the code that the model keeps:

- A Split reports the right child's render result, so a taller left child's
  height is dropped (src/pdf_elements.rs:123-124, `SplitHeightIsNotMaximum`).
- The number of answers of a Selection question is limited only by the
  `unwrap` on the bullet character (src/pdf_elements.rs:29-30).
- The footer takes `log10` of the points total with no guard for a total of
  0 (src/pdf_gen.rs:133).
- Points are a `u8` and may be 0 (src/data.rs:13-14 and 21-22).
- The older generator's name/class row is `Split(name, class, 0.75)`
  (hell-core/src/main.rs:74).

## Model

| member | source | states |
|---|---|---|
| Prelude.ParseDecRoundTrip | src/pdf_gen.rs:144 | the decimal rendering `format!("{}", n)` of a number reads back as that number |
| Prelude.ILog10 | src/pdf_gen.rs:133 | `log10` of a positive total is the k with 10^k <= n < 10^(k+1) |
| Prelude.DecLength | src/pdf_gen.rs:133 | a positive total printed in decimal has exactly `ilog10(n) + 1` digits |
| Prelude.Repeat | src/pdf_gen.rs:143 | `"_".repeat(n)` is n copies of the character |
| Settings.A4Dimensions | src/settings.rs:13-29 | the default paper size is A4 and converts to 210 x 297 mm |
| Settings.LanguageTables | src/settings.rs:62-103 | English is the default language; the first bullet character is U+0061 or U+0430; the hint, name and class strings and `format_points` are the fixed per-language texts (the tables in hell-core/src/data.rs:76-117 are the same) |
| Settings.FormatPointsRoundTrip | src/settings.rs:83-88 | the points label `__/<n>pt` or `__/<n>т` reads back as exactly n |
| Settings.DefaultSettings | src/settings.rs:43-54 | `Settings::default()` writes to "out.pdf", has empty font paths, hints off, English and A4 |
| Settings.BulletsFollowAlphabet | src/settings.rs:69-74 | bullets counted up from the first character spell the language's alphabet for the first 26 (English) or 27 (Bulgarian) items |
| Settings.BulgarianBulletsLeaveAlphabet | src/pdf_elements.rs:29-31 | the 28th Bulgarian bullet is ы, which is not a Bulgarian letter |
| Data.NewInputQuestion | src/data.rs:25-33 | `InputQuestion::new` stores its three arguments unchanged |
| Data.AccessorsReturnFields | hell-core/src/data.rs:36-50 | `get_title` and `get_points` return the `question` and `points` field of whichever variant is held (`get_title` in src/data.rs:41-48 likewise) |
| Data.DefaultProject | src/data.rs:56-62 | `Project::default()` has no questions |
| Decode.PointsField | src/data.rs:13-14 | a missing `points` key reads as 1 |
| Decode.MissingPointsIsOne | hell-core/src/data.rs:4-28 | a question of either variant without `points` is worth one point |
| Decode.VariantOrder | src/data.rs:35-40 | Selection is tried first. A table becomes an Input question exactly when it is not a Selection and is an Input, and it fails to decode exactly when it is neither. |
| Decode.AmbiguousTableIsSelection | hell-core/src/data.rs:30-35 | a table with the Selection keys and `number_of_lines` decodes as a Selection |
| Decode.QuestionRoundTrip | hell-core/src/data.rs:11-35 | the table of a question decodes back to that question, variant included |
| Decode.SettingsDefaults | src/settings.rs:33-42 | missing `show_hints` reads as true and missing `language` as English, unlike `Settings::default()`, which turns hints off; a decoded `output` is the table's string, so the key is required; a missing `max_questions` or `randomize_questions` reads as the value passed in |
| Decode.DecodersAgree | hell-core/src/data.rs:120-130 | the older crate's settings decoder reads the shared keys as the newer one does: whatever the newer accepts the older accepts with the same fields; a table the older accepts is accepted by the newer exactly when `output` is a string and `max_questions` and `randomize_questions` are each absent or well-typed |
| Decode.LegacySettingsDefaults | hell-core/src/data.rs:120-127 | in the older crate too, missing `show_hints` reads as true and missing `language` as English |
| Decode.MinimalLegacyTable | hell-core/src/data.rs:120-130 | `paper_size`, `fonts_path` and `font` alone make complete older settings (hints on, English), which the newer crate refuses for want of `output` |
| PdfElements.SplitAreasTile | src/pdf_elements.rs:115-121 | with a non-zero ratio the left child gets width `w * ratio` and the right child starts where it ends; the two tile the row |
| PdfElements.FlowSplitAreas | src/pdf_elements.rs:109-114 | with ratio 0 the left child gets the whole area and the right child is offset by the width the left child measured |
| PdfElements.SplitLeftFailureShortCircuits | src/pdf_elements.rs:110 | in `Render`, the model of `SplitElement::render`, a left child's render error is the Split's result |
| PdfElements.SplitReportsRightChild | src/pdf_elements.rs:109-125 | in `Render`, once the left child succeeds, the Split returns exactly the right child's result, rendered in the area placed after the left child |
| PdfElements.SplitHeightIsNotMaximum | src/pdf_elements.rs:123-124 | a taller left child's height is discarded (concrete instance) |
| PdfElements.AlphaListRendersAsLayout | src/pdf_elements.rs:37-46 | `Render` of the list is rendering the vertical layout of its bullet points (also the copy in hell-core/src/elements.rs:37-46) |
| PdfElements.FitsAt | src/pdf_elements.rs:29-30 | under `Fits`, every counter from 0 to n - 1 gives a valid `char` for `from_u32(..).unwrap()` |
| PdfElements.LabelsDistinct | src/pdf_elements.rs:29-31 | different counters give different bullets `<c>)` |
| PdfElements.BulletsAt | src/pdf_gen.rs:108-111 | after one push per answer, item k is the k-th answer under the bullet of counter k |
| PdfElements.AlphabeticOrderedList.New | src/pdf_elements.rs:15-17 | `new(ch)` is `with_start(0, ch)`: empty layout, counter 0 |
| PdfElements.AlphabeticOrderedList.WithStart | src/pdf_elements.rs:18-24 | empty layout, counter `start`, first character `ch` |
| PdfElements.AlphabeticOrderedList.Push | src/pdf_elements.rs:26-34 | appends exactly one bullet point labelled `char(start + number)` + `)` and raises the counter by one; earlier items and the first character are unchanged; requires a valid code point (the `unwrap`); the copy in hell-core/src/elements.rs:26-34 is identical |
| Backend.FromFiles | src/pdf_gen.rs:153-157 | loading the font family fails exactly when the outside world makes it fail |
| Backend.Rng.Shuffle | src/pdf_gen.rs:89-92 | `shuffle` leaves the same elements (a permutation) and takes one draw per index above 0 |
| Backend.Document.RenderToFile | src/pdf_gen.rs:178 | on success the output path holds the document; on failure the error is returned and every other path is unchanged, while the output path's contents are left unspecified |
| PdfGen.HintGating | src/pdf_gen.rs:17-34 | the hint suffix is appended iff the question is a Selection with at least two correct answers and hints are on; Input titles never get it |
| PdfGen.TitleNumber | src/pdf_gen.rs:25-34 | the title line of question i starts with the digits of i + 1, which read back as i + 1 |
| PdfGen.GenHeader | src/pdf_gen.rs:43-81 | the header pushes exactly `HeaderElems`, after what the document already held |
| PdfGen.HeaderShape | src/pdf_gen.rs:47-80 | header: centred 18pt title, `Break(1.0)`, `Split(name, Split(class, class number, 0.5), 0.7)` in 14pt, `Break(0.5)` |
| PdfGen.DotLines | src/pdf_gen.rs:116-122 | n dotted lines are n copies of the padded `'.'` filler |
| PdfGen.InputBlockShape | src/pdf_gen.rs:114-126 | an Input block is exactly the title row, `Break(0.5)`, `number_of_lines` dotted lines and `Break(1)`, and shows no answers |
| PdfGen.SelectionBlockShape | src/pdf_gen.rs:103-126 | a Selection block is exactly the title row, the lettered list of the given answers from the language's first character (item k is answer k under label k), and `Break(1)` |
| PdfGen.BodyPrefix | src/pdf_gen.rs:94-127 | rendering fewer questions gives a prefix of the body |
| PdfGen.BlockInBody | src/pdf_gen.rs:94-127 | block j, numbered j + 1, sits right after the blocks of the questions before it |
| PdfGen.BodySnoc | src/pdf_gen.rs:94-127 | one more question appends its block and adds its points |
| PdfGen.QuestionOrder | src/pdf_gen.rs:89-92 | the order is a permutation of the declared questions, and the declared order itself when `randomize_questions` is off |
| PdfGen.CandidateFits | src/pdf_gen.rs:94-112 | under `ListsFit`, every question that can be rendered fits the alphabet, whatever the shuffle |
| PdfGen.PushSelection | src/pdf_gen.rs:103-113 | pushes one lettered list whose items are a permutation of `correct ++ incorrect`, one Text per answer |
| PdfGen.PushInput | src/pdf_gen.rs:114-123 | pushes `Break(0.5)` and then exactly `number_of_lines` dotted lines |
| PdfGen.PushQuestion | src/pdf_gen.rs:99-126 | one loop iteration pushes exactly the question's block |
| PdfGen.PushQuestions | src/pdf_gen.rs:94-127 | the loop pushes the body of the given questions and returns the sum of their points |
| PdfGen.GenQuestions | src/pdf_gen.rs:83-130 | the rendered questions are the first `min(n, max_questions)` of a permutation of the declared ones (the declared prefix when shuffling is off); the returned points are their sum; the body is their blocks; font size 12 |
| PdfGen.GenFooter | src/pdf_gen.rs:132-148 | pushes exactly the footer element; requires a positive total (`log10`) |
| PdfGen.FooterPointsLine | src/pdf_gen.rs:133-147 | the footer is `Split(Split(examiner, line, 0.0), points, 0.7)`; the blank is one underscore wider than the total has digits (`ilog10 + 2`), then `/` and the total, which reads back |
| PdfGen.ZeroCountPermutation | src/pdf_gen.rs:89-92 | shuffling does not change how many questions are worth 0 points |
| PdfGen.FewZerosPositiveSum | src/pdf_gen.rs:100 | a list with fewer zero-point questions than questions has a positive total |
| PdfGen.RenderedPointsPositive | src/pdf_gen.rs:129-133 | under `FooterDefined`, every order the shuffle can produce renders a positive total, so `log10` is defined |
| PdfGen.ComposePaper | src/pdf_gen.rs:159-169 | the document is the page settings (paper size, title, margins 10, font 12) plus header, body and footer |
| PdfGen.GeneratePdf | src/pdf_gen.rs:150-181 | a font failure is returned as the error and no file changes; a write failure is returned as the error and every path but the output path is unchanged; otherwise the output path holds the composed paper and the elapsed time is returned |
| HellCore.EndsWithPunctuation | hell-core/src/main.rs:22-29 | true iff the last character is `?`, `!` or `.`; false for the empty string |
| HellCore.LastCharDecides | hell-core/src/main.rs:22-29 | only the last character decides |
| HellCore.LegacyTitleHasNoHint | hell-core/src/main.rs:31-45 | the older title row is the current one with hints off; it equals the current row whenever no hint would apply, and it is numbered i + 1 |
| HellCore.GenHeader | hell-core/src/main.rs:47-77 | pushes exactly the older header band |
| HellCore.LegacyHeaderShape | hell-core/src/main.rs:47-77 | same title and breaks as the current header; the name/class row is one `Split(name, class, 0.75)` |
| HellCore.GenQuestions | hell-core/src/main.rs:79-113 | every question in declared order, none dropped; answers shuffled into lettered lists; dotted lines for Input; font size 12 |
| HellCore.LegacyBlockInBody | hell-core/src/main.rs:84-112 | question j's block starts with its older title row, numbered j + 1 |
| HellCore.TimingColour | hell-core/src/main.rs:146-150 | green below 12 ms, yellow from 12 to below 16 ms, red from 16 ms |
| HellCore.TimingColourMonotone | hell-core/src/main.rs:146-150 | a slower run never gets a better colour |
| HellCore.Run | hell-core/src/main.rs:118-153 | with font loading and writing succeeding (the `expect`s), "output.pdf" holds the "Demo document" paper and the colour is that of the whole milliseconds elapsed |
| UiElements.NextIndex | src/ui_elements.rs:38-50 | None goes to 0, `i + 1` when it is in range, and the last item (or anything past it) goes back to 0; the result stays in range |
| UiElements.PreviousIndex | src/ui_elements.rs:52-64 | None goes to 0, 0 goes to `len - 1`, i goes to `i - 1` |
| UiElements.PreviousStaysInRange | src/ui_elements.rs:52-64 | from a selection in range, `previous` stays in range |
| UiElements.NextPreviousInverse | src/ui_elements.rs:38-64 | on a non-empty list `previous` undoes `next` and `next` undoes `previous` |
| UiElements.NextTimesWalks | src/ui_elements.rs:38-50 | from the first item, `next` walks the items in order |
| UiElements.NextTimesWraps | src/ui_elements.rs:38-50 | pressing `next` once per item returns to the start; the walk has period `len` |
| UiElements.StatefulList.Default | src/ui_elements.rs:21-28 | no items, nothing selected |
| UiElements.StatefulList.WithItems | src/ui_elements.rs:30-36 | exactly the given items, nothing selected |
| UiElements.StatefulList.Next | src/ui_elements.rs:38-50 | the selection becomes `NextIndex` of the old one; the items are unchanged |
| UiElements.StatefulList.Previous | src/ui_elements.rs:52-64 | the selection becomes `PreviousIndex` of the old one; the items are unchanged |
| UiElements.StatefulList.Unselect | src/ui_elements.rs:66-68 | nothing selected; the items are unchanged |
| PerfTest.MinIndex | src/perf_test.rs:6 | the index of a smallest element of the unsorted part |
| PerfTest.Sort | src/perf_test.rs:6 | `times.sort()` leaves the timings ascending and a permutation of the input |
| PerfTest.SortedPermutationUnique | src/perf_test.rs:6-13 | two ascending orders of the same timings are equal, so the reported value does not depend on the sort |
| PerfTest.PrintStats | src/perf_test.rs:5-20 | sorts in place (ascending, a permutation) and reports the as-written median; requires at least two timings |
| PerfTest.MedianAsWrittenEvenIsDoubled | src/perf_test.rs:7-10 | for an even count the reported value is the two middle timings added: twice the median, up to rounding |
| PerfTest.MedianAsWrittenEvenExample | src/perf_test.rs:7-10 | timings 1 and 3 report 4, where the median is 2 |
| PerfTest.MedianAsWrittenOddExample | src/perf_test.rs:11-12 | timings 1, 2, 3 report 1, where the median is 2 |
| PerfTest.MedianIsMiddle | src/perf_test.rs:7-13 | the corrected median has at least half the sorted timings at or below it and at least half at or above it |
| PerfTest.FirstFailureUnique | src/perf_test.rs:27-29 | the run that fails first is unique |
| PerfTest.ReportMedian | src/perf_test.rs:31 | the value reported is the as-written median of the ascending order of the collected timings |
| PerfTest.Benchmark | src/perf_test.rs:22-33 | all runs succeed iff the result is a success. Then it makes exactly n calls and reports the as-written median of the sorted timings. On the first failure at run k it stops after k + 1 calls with that run's error. Only the output file changes. |
| PerfTest.TestPdfGeneration | src/perf_test.rs:22-33 | the same with `TEST_ITER` = 1000 runs |

## Left out

- Rendering by the PDF library: text layout, pagination, the page decorator
  and font metrics. Elements are descriptors, and `Leaf` stands for how the
  library renders its own elements.
- `CharRepeat::render` and `DottedLine::render`. They divide float widths
  by character advances, so they stay an opaque `CharRepeat` descriptor.
- Split geometry is over `real`, not `f64`. Rounding is not modelled.
- The random generator's distribution. `Shuffle` is Fisher-Yates over an
  arbitrary stream of draws, and only the permutation is promised, not
  which permutation `thread_rng` yields.
- Wall-clock time is the `elapsed` field of `IoOutcome`, in nanoseconds.
  The average printed by `print_stats` (`div_f64`) and the printing itself
  are not modelled. The colour codes in the older `main` are the returned
  `Colour`.
- The GUI (`src/gui.rs`, `hell-ui/src/main.rs`) and the CLI
  (`src/main.rs`) are not part of this model. The same goes for reading
  the project file and for toml parsing beyond the declared defaults and
  the variant order.
- `StatefulList`: `iter` and `get_state`, and the `ListState` scroll offset,
  are not modelled. Only the selected index is kept.
- The tables behind `input_class_num`, `get_examiner` and `get_points_sum`
  are not part of this model. They come in as the `extras` parameter
  (`ExtraStrings`).
- `max_questions` and `randomize_questions` are read at
  src/pdf_gen.rs:90-96 but have no declaration in src/settings.rs, so they
  have no known default. `DefaultSettings` and `DecodeSettings` take the
  value of a missing key as a parameter.
- Unsigned widths: the points total (`usize`) and the `Duration` sums are
  unbounded integers, so the model has no overflow. The `u8` points and the
  `u16` line counts are subset types.
- PdfGen.GeneratePdf: after a write error the output path's contents are
  not described. The file is created before the paper is rendered into it,
  so it may be missing, truncated or partly written.
- Backend.Document.RenderToFile: the same; the contract fixes only that no
  other path changes.
- PerfTest.Benchmark: after a failure the output file may be gone, partly
  written or an earlier run's paper. The contract says only that no other
  file changes.
- HellCore.Run: the `expect` panics are preconditions (`Succeeds(io)`), so
  a failing font load or write is not a modelled outcome.
- The current crate's `Project` (src/data.rs:52-54) declares only
  `questions`, while src/pdf_gen.rs:43-48 and 150-181 read its `settings`
  and `header`. The model's `Project` has all three fields. `Header` is a
  title only, as declared at hell-core/src/data.rs:132-136.
- The older crate's `Settings` (hell-core/src/data.rs:120-130) has no
  `output`, `max_questions` or `randomize_questions`; it is decoded on its
  own as `LegacySettings`. `HellCore` works on the shared project record
  and reads only the five fields the older crate declares.

## Findings

| source | as written | input that shows it | evidently intended | confidence | as-written member | corrected member |
|---|---|---|---|---|---|---|
| src/perf_test.rs:7-13 | for an even count the "median" is `times[n/2-1] + times[n/2]`, the sum of the two middle timings; for an odd count it is `times[n/2-1]`, one before the middle; a single timing underflows `n/2 - 1` | timings [1, 3] report 4 (median 2); timings [1, 2, 3] report 1 (median 2) | the middle timing for an odd count and the mean of the two middle ones for an even count | not executed | PerfTest.MedianAsWrittenOddExample | PerfTest.MedianIsMiddle |
