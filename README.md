# BBCode test generator and play-progress memory, in Dafny

This project models two small parts of the Ani/Animeko client and proves their
behaviour.

**The golden-test generator of the BBCode module**
(`bbcode_test_generator.dfy`, module `TestCodegen`).

- For every input string, `case` parses the input and adds one test function
  to the generated class.
  - The test is named `parse` plus the absolute value of the input's hash code.
  - Its body opens `BBCode.parse(...).run {`, asserts every element of the
    parsed tree, and closes with `}`.
- `generateAssertions` walks a list of elements and records one assertion call
  per element on a KotlinPoet function builder.
  - Each call passes only the fields that are not at their default.
  - A quote recurses into its contents.
  - Every list is framed by KotlinPoet's indent markers `⇥` and `⇤`.
- The builder is a class whose `code` field is the sequence of calls made on it.
  - `addCode(format, args)` becomes a `Code` piece.
  - `addStatement(format, args)` becomes a `Statement` piece.
  - The two markers get pieces of their own.
- `GenerateAssertions` is proved equal to the pure specification `Assertions`.
  Lemmas about `Assertions` then cover:
  - the size check for an empty list;
  - one assertion per element, in order, aimed at `elements.at(i)`;
  - which optional fields appear, and in what order (checked against an
    independent table, `OptionalFields`/`Emitted`);
  - balanced braces and indent markers, with the brace depth equal to the
    quote depth.
- The test name uses Kotlin's `String.hashCode` over UTF-16 code units in
  32-bit arithmetic, and `Int.absoluteValue`.
- The `contextTags` list is each base tag followed by its upper-case form.
- The sticker id and the kanmoji id are both called `id` in Kotlin. Because
  their types differ, they are `stickerId` and `kanmojiId` here.

**The play-progress extension of the player**
(`play_progress.dfy`, module `RememberPlayProgress`).

- `savePlayProgressOrRemove` reads the player. Depending on what it reads, it
  does one of three things:
  - leaves the history store alone, when the duration is unknown, the state is
    wrong, or the position is not positive;
  - removes the episode's entry, when fewer than 5000 ms remain or the
    position is past the end;
  - saves the position.
- The decision is the pure function `Decide`. Its effect on the store is the
  pure function `Apply`.
- The repository is a class holding a `map<int, Long>`. The extension's
  handlers are methods that modify it:
  - the state dispatch of `onStart`;
  - the `onBeforeSelect` listener;
  - `onBeforeSwitchEpisode`;
  - `onClose`.
- The player is passed in as a snapshot of its readings. A position reading
  may also be a thrown `Error`.

## Model

Source paths below are relative to the repository root.

| member | source | states |
|---|---|---|
| TestCodegen.FunSpecBuilder.GenerateAssertions | utils/bbcode/test-codegen/src/BBCodeTestGenerator.kt:139-200 | the builder's code grows by exactly `Assertions(elements)`: ⇥, then the size check for an empty list or one assertion per element in list order, then ⇤ on every path; annotations are untouched |
| TestCodegen.FunSpecBuilder.AddElementAssertion | utils/bbcode/test-codegen/src/BBCodeTestGenerator.kt:147-195 | the `when` branch for one element appends exactly that element's assertion, a quote's recursive assertions included |
| TestCodegen.FunSpecBuilder.AddJumpUrl | utils/bbcode/test-codegen/src/BBCodeTestGenerator.kt:150 | appends `, jumpUrl=%S` with the link when there is one, and nothing otherwise |
| TestCodegen.FunSpecBuilder.AddDimension | utils/bbcode/test-codegen/src/BBCodeTestGenerator.kt:156-157 | appends a width or height argument exactly when it is non-null |
| TestCodegen.FunSpecBuilder.AddTextArguments | utils/bbcode/test-codegen/src/BBCodeTestGenerator.kt:181-192 | appends the optional text arguments in order: jumpUrl, size, color, then the flags |
| TestCodegen.FunSpecBuilder.AddTextFlags | utils/bbcode/test-codegen/src/BBCodeTestGenerator.kt:187-192 | appends the six style flags in the order italic, underline, strikethrough, bold, mask, code |
| TestCodegen.FunSpecBuilder.AddFlag | utils/bbcode/test-codegen/src/BBCodeTestGenerator.kt:187 | appends `format` with `true` exactly when the flag is set |
| TestCodegen.FunSpecBuilder.AddCode | utils/bbcode/test-codegen/src/BBCodeTestGenerator.kt:130 | `addCode` records one `Code` piece at the end of the code and leaves the annotations alone |
| TestCodegen.FunSpecBuilder.AddStatement | utils/bbcode/test-codegen/src/BBCodeTestGenerator.kt:134 | `addStatement` records one `Statement` piece at the end of the code |
| TestCodegen.FunSpecBuilder.AddAnnotation | utils/bbcode/test-codegen/src/BBCodeTestGenerator.kt:129 | `addAnnotation` appends one annotation and leaves the code alone |
| TestCodegen.FunSpecBuilder.AddIndentMarker | utils/bbcode/test-codegen/src/BBCodeTestGenerator.kt:140 | `addCode("⇥")` records one indent marker |
| TestCodegen.FunSpecBuilder.AddUnindentMarker | utils/bbcode/test-codegen/src/BBCodeTestGenerator.kt:198 | `addCode("⇤")` records one unindent marker |
| TestCodegen.FunSpecBuilder.Build | utils/bbcode/test-codegen/src/BBCodeTestGenerator.kt:135 | the built function carries the builder's name, annotations and code |
| TestCodegen.MarkersFrame | utils/bbcode/test-codegen/src/BBCodeTestGenerator.kt:140-199 | every call's output starts with ⇥ and ends with ⇤, including the early return for an empty list |
| TestCodegen.EmptyDocument | utils/bbcode/test-codegen/src/BBCodeTestGenerator.kt:142-145 | the output is exactly ⇥, `kotlin.test.assertEquals(0, elements.size)`, ⇤ if and only if the list is empty; a non-empty list never gets its own size check (an empty quote inside it still gets one for its contents) |
| TestCodegen.OneAssertionPerElement | utils/bbcode/test-codegen/src/BBCodeTestGenerator.kt:146-178 | the output for a non-empty list is ⇥, the assertions of elements 0..i-1, the assertion of element i, those of i+1..n-1, and ⇤ |
| TestCodegen.RangeStartsWithHead | utils/bbcode/test-codegen/src/BBCodeTestGenerator.kt:146-149 | the assertions of a non-empty run of elements start with the call for its first element |
| TestCodegen.ElementShape | utils/bbcode/test-codegen/src/BBCodeTestGenerator.kt:146-195 | the i-th element's assertion opens with `assert<Kind>(elements.at(i)`, ends with a statement and is well nested for both nesting kinds |
| TestCodegen.HeadLiteral | utils/bbcode/test-codegen/src/BBCodeTestGenerator.kt:148-180 | the opening call of each kind carries its mandatory field: sticker id as `%L`, image URL, kanmoji id and text value as `%S`; a quote carries none |
| TestCodegen.DecDigits | utils/bbcode/test-codegen/src/BBCodeTestGenerator.kt:149 | the index written into `elements.at(...)` is a non-empty run of decimal digits |
| TestCodegen.DecValue | utils/bbcode/test-codegen/src/BBCodeTestGenerator.kt:149 | the digits written for an index (or an absolute hash) spell that very number: reading them back from the left gives it |
| TestCodegen.DecInjective | utils/bbcode/test-codegen/src/BBCodeTestGenerator.kt:149 | two numbers are written the same if and only if they are equal |
| TestCodegen.AtInjective | utils/bbcode/test-codegen/src/BBCodeTestGenerator.kt:149 | `elements.at(i)` and `elements.at(j)` are the same target if and only if i = j, so every assertion checks its own element |
| TestCodegen.IntToDecInjective | utils/bbcode/test-codegen/src/BBCodeTestGenerator.kt:128 | Kotlin's `Int.toString` is one-to-one, negative numbers included |
| TestCodegen.ElementLayout | utils/bbcode/test-codegen/src/BBCodeTestGenerator.kt:147-194 | each assertion is its opening call, then exactly the emitted optional fields of the independent field table, then `)`; for a quote, `) {`, its contents' assertions, and `}` |
| TestCodegen.FieldPresence | utils/bbcode/test-codegen/src/BBCodeTestGenerator.kt:150-192 | an optional field's format appears if and only if its value is not at its default (non-null, with an explicit 0 counting as present; size not DEFAULT_SIZE; flag true), and then with that value |
| TestCodegen.TextFormatsDistinct | utils/bbcode/test-codegen/src/BBCodeTestGenerator.kt:181-192 | the nine optional text arguments have pairwise different formats, so each can be found in the output by its format |
| TestCodegen.TextArgsLayout | utils/bbcode/test-codegen/src/BBCodeTestGenerator.kt:181-192 | the text arguments the builder writes coincide with the field table's emitted fields for a text |
| TestCodegen.ImageArgsLayout | utils/bbcode/test-codegen/src/BBCodeTestGenerator.kt:156-158 | the image arguments the builder writes coincide with the field table's emitted fields for an image |
| TestCodegen.EmittedFields | utils/bbcode/test-codegen/src/BBCodeTestGenerator.kt:150-192 | with distinct formats, a field's format is emitted exactly when its value is present, and then as a `Code` piece with that value |
| TestCodegen.AssertionsNesting | utils/bbcode/test-codegen/src/BBCodeTestGenerator.kt:139-200 | every call's output is balanced for braces and for indent markers; the deepest brace level is the list's quote depth, and the deepest indent level is one more |
| TestCodegen.ElementNesting | utils/bbcode/test-codegen/src/BBCodeTestGenerator.kt:168-174 | a quote's `) {` ... `}` block is balanced and goes exactly one level deeper than its contents; other assertions are flat |
| TestCodegen.TestBodyNesting | utils/bbcode/test-codegen/src/BBCodeTestGenerator.kt:130-134 | a generated test body is balanced, and its brace and indent depth is the quote depth plus one for the `run {` block |
| TestCodegen.WithUppercase | utils/bbcode/test-codegen/src/BBCodeTestGenerator.kt:28-32 | the result is twice as long as the list, and entry 2i is tag i and entry 2i+1 its upper-case form |
| TestCodegen.Uppercase | utils/bbcode/test-codegen/src/BBCodeTestGenerator.kt:31 | upper-casing keeps the length and maps every character |
| TestCodegen.ContextTags | utils/bbcode/test-codegen/src/BBCodeTestGenerator.kt:28-32 | the context tags are 24 strings, starting `b`, `B` and ending `img=,200`, `IMG=,200` |
| TestCodegen.Wrap32 | utils/bbcode/test-codegen/src/BBCodeTestGenerator.kt:128 | 32-bit wrap-around: the result is an Int congruent to the input modulo 2^32 and equal to it when it already fits |
| TestCodegen.Utf16 | utils/bbcode/test-codegen/src/BBCodeTestGenerator.kt:128 | a string has at least as many UTF-16 code units as characters, each below 0x10000 |
| TestCodegen.HashCode | utils/bbcode/test-codegen/src/BBCodeTestGenerator.kt:128 | the hash code is an Int |
| TestCodegen.AbsoluteValue | utils/bbcode/test-codegen/src/BBCodeTestGenerator.kt:128 | `absoluteValue` is the non-negative magnitude, except that Int.MIN_VALUE is its own absolute value |
| TestCodegen.TestNameShape | utils/bbcode/test-codegen/src/BBCodeTestGenerator.kt:128 | a test name is `parse` followed by decimal digits, except for inputs whose hash is Int.MIN_VALUE, which are named `parse-2147483648` |
| TestCodegen.MinimalHashCode | utils/bbcode/test-codegen/src/BBCodeTestGenerator.kt:128 | the input `GydZG_` hashes to Int.MIN_VALUE |
| TestCodegen.NegativeTestName | utils/bbcode/test-codegen/src/BBCodeTestGenerator.kt:128 | so its test name carries a minus sign |
| TestCodegen.TestNamesCollide | utils/bbcode/test-codegen/src/BBCodeTestGenerator.kt:128 | the different inputs `Aa` and `BB` get the same test name |
| TestCodegen.TestNamesEqual | utils/bbcode/test-codegen/src/BBCodeTestGenerator.kt:128 | two inputs get the same test name if and only if their hash codes have the same absolute value |
| TestCodegen.TestFunctions | utils/bbcode/test-codegen/src/BBCodeTestGenerator.kt:120 | one test function per input |
| TestCodegen.TestFunctionsInOrder | utils/bbcode/test-codegen/src/BBCodeTestGenerator.kt:119-121 | the i-th test function added is the one for the i-th input |
| TestCodegen.BBCodeTestGenerator.constructor | utils/bbcode/test-codegen/src/BBCodeTestGenerator.kt:108-113 | the class is named `GenBB<name>Test` and starts with no functions |
| TestCodegen.BBCodeTestGenerator.Case | utils/bbcode/test-codegen/src/BBCodeTestGenerator.kt:125-137 | adds exactly one function: named by the test-name rule, annotated `kotlin.test.Test`, whose body is the parse call, the assertions of the parsed elements, and `}` |
| TestCodegen.BBCodeTestGenerator.CaseEach | utils/bbcode/test-codegen/src/BBCodeTestGenerator.kt:120 | adds the test functions of the inputs, in order, after the existing ones |
| TestCodegen.BBCodeTestGenerator.CasesForEachLine | utils/bbcode/test-codegen/src/BBCodeTestGenerator.kt:119-121 | adds one test function per line of the text, in order |
| TestCodegen.Lines | utils/bbcode/test-codegen/src/BBCodeTestGenerator.kt:120 | splitting into lines gives at least one line |
| TestCodegen.LinesHaveNoBreaks | utils/bbcode/test-codegen/src/BBCodeTestGenerator.kt:120 | no line contains `\n` or `\r` |
| TestCodegen.LinesJoin | utils/bbcode/test-codegen/src/BBCodeTestGenerator.kt:120 | for a text without `\r`, joining the lines with `\n` gives the text back |
| RememberPlayProgress.RememberPlayProgressExtension.SavePlayProgressOrRemove | app/shared/app-data/src/commonMain/kotlin/domain/player/extension/RememberPlayProgressExtension.kt:98-139 | the store becomes `Apply(old store, episode, Decide(player))`: unchanged, the entry removed, or the entry set to the position |
| RememberPlayProgress.Decide | app/shared/app-data/src/commonMain/kotlin/domain/player/extension/RememberPlayProgressExtension.kt:101-135 | a position is only ever saved when it is positive |
| RememberPlayProgress.CurrentPositionMillis | app/shared/app-data/src/commonMain/kotlin/domain/player/extension/RememberPlayProgressExtension.kt:117-125 | a thrown Error while reading the position counts as position 0, and otherwise the position read is used |
| RememberPlayProgress.Apply | app/shared/app-data/src/commonMain/kotlin/domain/player/extension/RememberPlayProgressExtension.kt:131-135 | keep leaves the store equal, remove deletes the episode's key, save maps it to the position; every other key and value is unchanged |
| RememberPlayProgress.UnknownDurationKeeps | app/shared/app-data/src/commonMain/kotlin/domain/player/extension/RememberPlayProgressExtension.kt:103-107 | a missing or non-positive duration leaves the store unchanged |
| RememberPlayProgress.ReadyOrErrorKeeps | app/shared/app-data/src/commonMain/kotlin/domain/player/extension/RememberPlayProgressExtension.kt:109-111 | in state READY or ERROR the store is unchanged |
| RememberPlayProgress.NonPositivePositionKeeps | app/shared/app-data/src/commonMain/kotlin/domain/player/extension/RememberPlayProgressExtension.kt:117-129 | a position of at most 0 leaves the store unchanged |
| RememberPlayProgress.ThrownErrorKeeps | app/shared/app-data/src/commonMain/kotlin/domain/player/extension/RememberPlayProgressExtension.kt:117-129 | a position reading that threw an `Error` leaves the store unchanged, whatever the state and duration |
| RememberPlayProgress.ChangeNeedsUsableReadings | app/shared/app-data/src/commonMain/kotlin/domain/player/extension/RememberPlayProgressExtension.kt:103-129 | the decision is to remove or save (not to keep) if and only if the duration is positive, the state is FINISHED, PAUSED, PLAYING or PAUSED_BUFFERING, and the position is positive |
| RememberPlayProgress.StoreChangeNeedsUsableReadings | app/shared/app-data/src/commonMain/kotlin/domain/player/extension/RememberPlayProgressExtension.kt:103-135 | the store can only change when those three readings are usable; removing an absent entry or re-saving the stored position leaves it equal, so the converse does not hold for the store |
| RememberPlayProgress.NearEndRemoves | app/shared/app-data/src/commonMain/kotlin/domain/player/extension/RememberPlayProgressExtension.kt:131-135 | with usable readings, the entry is removed if and only if fewer than 5000 ms remain, and otherwise the position is saved |
| RememberPlayProgress.SaveExactly | app/shared/app-data/src/commonMain/kotlin/domain/player/extension/RememberPlayProgressExtension.kt:127-135 | a given position is saved if and only if the readings are usable, it is the current position, it is positive, and at least 5000 ms remain after it |
| RememberPlayProgress.SavedPositionBounds | app/shared/app-data/src/commonMain/kotlin/domain/player/extension/RememberPlayProgressExtension.kt:127-135 | every saved position satisfies 0 < position <= duration - 5000 |
| RememberPlayProgress.PastEndIsNearEnd | app/shared/app-data/src/commonMain/kotlin/domain/player/extension/RememberPlayProgressExtension.kt:131 | a position past the end already leaves fewer than 5000 ms, so the second test of the condition never decides anything |
| RememberPlayProgress.ApplyIdempotent | app/shared/app-data/src/commonMain/kotlin/domain/player/extension/RememberPlayProgressExtension.kt:131-135 | running the same decision a second time changes nothing more |
| RememberPlayProgress.DecisionKeepsPositivePositions | app/shared/app-data/src/commonMain/kotlin/domain/player/extension/RememberPlayProgressExtension.kt:127-135 | if every stored position is positive, it stays so after any save-or-remove |
| RememberPlayProgress.PlayHistoryRepository.Remove | app/shared/app-data/src/commonMain/kotlin/domain/player/extension/RememberPlayProgressExtension.kt:132 | `remove` deletes the episode's entry only |
| RememberPlayProgress.PlayHistoryRepository.SaveOrUpdate | app/shared/app-data/src/commonMain/kotlin/domain/player/extension/RememberPlayProgressExtension.kt:134 | `saveOrUpdate` maps the episode to the position and keeps the other entries |
| RememberPlayProgress.PlayHistoryRepository.GetPositionMillisByEpisodeId | app/shared/app-data/src/commonMain/kotlin/domain/player/extension/RememberPlayProgressExtension.kt:60 | returns the stored position when the episode has one, and null otherwise |
| RememberPlayProgress.React | app/shared/app-data/src/commonMain/kotlin/domain/player/extension/RememberPlayProgressExtension.kt:56-82 | READY leaves the store unchanged and seeks to the saved position if there is one; PAUSED and FINISHED save or remove; every other state does nothing |
| RememberPlayProgress.RememberPlayProgressExtension.OnPlaybackStateChange | app/shared/app-data/src/commonMain/kotlin/domain/player/extension/RememberPlayProgressExtension.kt:57-82 | the handler's new store and requested seek are those of `React` |
| RememberPlayProgress.RememberPlayProgressExtension.CollectPlaybackStates | app/shared/app-data/src/commonMain/kotlin/domain/player/extension/RememberPlayProgressExtension.kt:56-83 | after a run of emissions, the store and the seeks are those of replaying the reactions in order |
| RememberPlayProgress.ReplayTouchesOnlyItsEpisode | app/shared/app-data/src/commonMain/kotlin/domain/player/extension/RememberPlayProgressExtension.kt:56-83 | however the state changes, no entry of another episode is added, removed or changed |
| RememberPlayProgress.ReplayKeepsPositivePositions | app/shared/app-data/src/commonMain/kotlin/domain/player/extension/RememberPlayProgressExtension.kt:56-83 | stored positions stay positive, so every seek goes to a positive position |
| RememberPlayProgress.PauseThenResume | app/shared/app-data/src/commonMain/kotlin/domain/player/extension/RememberPlayProgressExtension.kt:59-79 | a pause that saves a position followed by READY seeks exactly once, to that position |
| RememberPlayProgress.RememberPlayProgressExtension.OnBeforeSelect | app/shared/app-data/src/commonMain/kotlin/domain/player/extension/RememberPlayProgressExtension.kt:45-48 | before a data-source switch, the session's episode is saved or removed |
| RememberPlayProgress.RememberPlayProgressExtension.OnBeforeSwitchEpisode | app/shared/app-data/src/commonMain/kotlin/domain/player/extension/RememberPlayProgressExtension.kt:88-91 | before an episode switch, the current episode (not the new one) is saved or removed |
| RememberPlayProgress.RememberPlayProgressExtension.OnClose | app/shared/app-data/src/commonMain/kotlin/domain/player/extension/RememberPlayProgressExtension.kt:93-96 | on close, the current episode is saved or removed |

## Left out

- The BBCode parser (`BBCode.parse`) is not part of this model.
  - It is a parameter `parse` of the generator class.
  - `RichElement` has only the fields the generator reads.
  - `DEFAULT_SIZE` is a constant whose value is left open.
- KotlinPoet is not modelled beyond the calls the generator makes:
  - the substitution of `%L` and `%S` into the format, and the escaping of
    strings by `%S`;
  - the class builder, its superclass, `FileSpec` and `writeTo`.
  The builder's code is the list of calls with their format strings and
  arguments as recorded. The generated class's functions are a sequence field.
- `main` (lines 20-105), apart from the `contextTags` list, is left out: the
  directory lookup, the fixture inputs, `writeTo` and the file rewrite are file
  I/O. Their results would only matter through the parser.
- TestCodegen.Uppercase: changes only the ASCII letters a-z. Kotlin's
  `uppercase()` maps all of Unicode, but every base tag is ASCII.
- TestCodegen.LinesJoin: the round trip is stated only for text without `\r`.
  `lines()` also splits at `\r\n` and `\r`, and joining with `\n` cannot tell
  which break was there.
- Coroutines and flows are reduced to sequential calls:
  - `launch`, `collect`/`collectLatest` cancellation, and
    `withContext(Dispatchers.Main)`;
  - the wait for the media properties before seeking (line 65);
  - logging, Koin injection and the companion factory.
  `CollectPlaybackStates` handles a finite sequence of emissions, one at a
  time.
- Throwables other than `Error` are not modelled. `getCurrentPositionMillis`
  (lines 117-125) may throw an `Exception`, and the repository calls (lines 60,
  132 and 134) may fail. Such a throwable leaves `savePlayProgressOrRemove`
  without changing the store. It then escapes `onBeforeSwitchEpisode` and
  `onClose`, and ends the `collect` loops at lines 45 and 56, so no later
  emission is handled. The position readings here are a value or a thrown
  `Error` only. The repository calls always succeed. `CollectPlaybackStates`
  and its replay therefore assume that no handler throws.
- The player is not an object. Each handler receives a snapshot of its state,
  its duration, and its position reading (a value or a thrown `Error`).
  `seekTo` is returned as the requested position.
- The media-selector listener's `fetchSelect == null` branch (line 43) and the
  session flow are not modelled. `OnBeforeSelect` receives the session's
  episode id.
- `EpisodePlayHistoryRepository` is not part of this model. It is an in-memory
  map with the three operations the extension calls.
- Episode ids are Kotlin `Int`s. They are unbounded integers here, because
  they are only compared and used as map keys.
