# Vocabulary question generator: session controller, parser and prompt builder

This project models the core of a terminal program that turns a vocabulary
list (`word = meaning1, meaning2; meaning3`, one entry per line) into
multiple-choice test questions written by a language model. It has three parts.

- **The session controller** (`src/tui.go`). This is a single-writer state
  machine: one `model` object whose handlers take one message at a time
  (a key, a tick, a status reset, a file read or written, a generation
  result, a debug-log outcome, an error). Each handler updates the object's
  fields in place and returns commands for the runtime to carry out.
  `tui.dfy` holds the `Model` class with those fields and handlers. Each
  handler is proved to take the object exactly where a pure step function
  of `session.dfy` says. `session_props.dfy` then proves what the
  controller promises about those step functions:
  - undo and redo;
  - edit recording;
  - the guard on starting a generation;
  - the selection chain;
  - escape;
  - the self-sustaining ticker;
  - generation results;
  - saving;
  - an invariant of every reachable session, which keeps the file picker
    out of reach.
- **The vocabulary parser** (`src/parser.go`). `parseVocabBlock` is a
  total, best-effort line parser. `ParseVocabBlock` is its double loop,
  proved equal to the recursive specification `ParseBlock`. The lemmas
  state the shape of every entry and how parsing composes over lines.
- **The prompt builder** (`src/prompts.go`). `buildPrompts` picks a
  system-prompt template by question type and writes the entries as
  `word = m1, m2` lines under a fixed header. `BuildPrompts` is its switch
  and loop, proved equal to `SystemPrompt` and `UserPrompt`. The central
  property is a round trip: the parser reads back, from the user prompt,
  exactly the entries it was built from.

`go_strings.dfy` models the Go library calls the core relies on:

- `strings.TrimSpace` with Unicode white space;
- `strings.Split` and the regular-expression split on `[;,]`, as splitting
  on a set of single characters;
- `strings.SplitN(s, "=", 2)`, `strings.Join` and `strings.TrimSuffix`;
- `filepath.Base` on Unix paths;
- `strconv.Atoi` on a 64-bit platform, with its error dropped. Its digit
  loop reads left to right. A value past 2^64 - 1 is a range error at once,
  even if a non-digit follows, and gives the int64 bound on the side of the
  sign. A non-digit met first is a syntax error and gives 0. A magnitude that
  fits 64 bits unsigned but not int64 is pinned to the bound;
- `%d`.

`wrappers.dfy` holds `Option` and `Result`.

Widgets are reduced to what they report. A key message carries a
`KeyEffects` record with:

- the value the focused text area or input holds after the key;
- the highlighted list index;
- the file the picker selected;
- the outcome of reading `word.txt`;
- the random draws `rand.Shuffle` consumes.

The shuffle is `rand.Shuffle`'s own loop: from the last index down to 1,
index `i` is exchanged with `draw mod (i + 1)`. When no draw is left, the
index is not moved. The status line is a `Status` value, and
`Session.Text` renders it as the exact string the source shows.

## Model

| member | source | states |
|---|---|---|
| GoStrings.SplitOn | src/parser.go:18 | A split always gives at least one piece. |
| GoStrings.SplitFirst | src/parser.go:24 | `SplitN(s, "=", 2)` gives one piece or two. |
| GoStrings.Join | src/prompts.go:93 | A join of at least one element starts with the first element. |
| GoStrings.Base | src/tui.go:335 | The base name is never empty. |
| GoStrings.Atoi | src/tui.go:551 | The result always lies within the int64 range. |
| GoStrings.TrimSpace | src/parser.go:19 | The result has no leading or trailing white space. |
| GoStrings.TrimSpaceFixpoint | src/parser.go:19 | Trimming leaves a string unchanged exactly when it is already trimmed. |
| GoStrings.TrimSpaceAvoids | src/parser.go:29-35 | Trimming never introduces a character. |
| GoStrings.SplitOnPieces | src/parser.go:32 | No piece of a split holds a separator. |
| GoStrings.SplitOnConcat | src/parser.go:18 | Splitting `a + sep + b` gives the pieces of `a` followed by those of `b`. |
| GoStrings.JoinSplitOn | src/prompts.go:99 | Joining the pieces of a split on a character with that character gives the string back. |
| GoStrings.SplitOnJoin | src/prompts.go:99 | Splitting the join of separator-free pieces gives the pieces back. |
| GoStrings.SplitFirstFacts | src/parser.go:24-27 | `SplitN(s, "=", 2)` gives one piece exactly when there is no '='; otherwise it gives the text before the first '=' and the rest. |
| GoStrings.JoinContains | src/prompts.go:93 | Every joined line occurs in the joined text. |
| GoStrings.JoinEndsWithLast | src/prompts.go:93 | The joined text ends with the last line. |
| GoStrings.TrimSuffix | src/tui.go:423 | With the suffix present, the result followed by the suffix is the input; without it, the input is unchanged. |
| GoStrings.BaseAfterSlash | src/tui.go:423 | The base name of `dir/file` is `file`. |
| GoStrings.AtoiIntToString | src/tui.go:551 | `Atoi` reads back what `%d` prints, for every 64-bit integer. |
| GoStrings.AtoiSyntaxError | src/tui.go:551 | Empty input, a lone sign, or input starting with neither a sign nor a digit reads as 0. |
| GoStrings.AtoiNumeral | src/tui.go:551 | An optional sign followed by digits alone reads as the digits' value with that sign, pinned to the int64 bounds. |
| GoStrings.AtoiOverflow | src/tui.go:551 | Once the leading digits pass 2^64 - 1, the result is the int64 bound on the side of the sign, whatever follows. |
| GoStrings.AtoiTrailing | src/tui.go:551 | Digits whose value fits 64 bits unsigned, followed by a non-digit, read as 0. |
| GoStrings.AtoiOverflowBeforeSyntaxError | src/tui.go:551 | "99999999999999999999x" reads as the int64 maximum, not as 0. |
| Parser.CleanSenses | src/parser.go:33-39 | Cleaning keeps at most as many senses as there were candidates. |
| Parser.CleanSensesKept | src/parser.go:33-39 | Every kept sense is non-empty and trimmed. |
| Parser.CleanSensesAvoid | src/parser.go:32-39 | Cleaning never introduces a character into a sense. |
| Parser.CleanSensesAppend | src/parser.go:33-39 | Cleaning keeps the order of the non-empty candidates across any split of the list. |
| Parser.CleanSensesDropsBlank | src/parser.go:34-38 | A blank candidate such as the one in `x,,y; ;z` is dropped, and the candidates around it are kept in order. |
| Parser.CleanSensesExact | src/parser.go:33-39 | Candidates that trim to given non-empty senses give exactly those senses. |
| Parser.ParseLine | src/parser.go:19-43 | A line without '=', or made only of white space, gives no entry. |
| Parser.ParseLineShaped | src/parser.go:19-43 | A line gives nothing, or an entry whose word is non-empty, trimmed and '='-free, with at least one meaning. Every meaning is non-empty, trimmed and free of ',' and ';'. A line without a line break gives an entry without one. |
| Parser.ParseBlock | src/parser.go:14-46 | A block gives at most one entry per line. |
| Parser.LineEntries | src/parser.go:41-43 | A line contributes at most one entry. |
| Parser.ParseLines | src/parser.go:18-44 | A sequence of lines gives at most one entry per line. |
| Parser.ParseVocabBlock | src/parser.go:14-46 | The double loop returns exactly `ParseBlock` of its input: every line's entry in line order, with no error case. |
| Parser.ParseBlockWellFormed | src/parser.go:14-46 | Every entry of any block is well formed: the shape above, with no line break in any field. |
| Parser.ParseLinesAppend | src/parser.go:18-44 | Parsing distributes over concatenation of line sequences. |
| Parser.ParseLinesEach | src/parser.go:18-44 | Lines that each give exactly one entry give those entries, in order. |
| Parser.ParseBlockConcat | src/parser.go:18 | Parsing `a + "\n" + b` gives the entries of `a` followed by those of `b`. |
| Parser.ParseBlockOneLine | src/parser.go:18 | A block without a line break is parsed as its one line. |
| Parser.ParseBlockEmpty | src/parser.go:18-22 | The empty block has no entries. |
| Parser.MeaningsMayContainEquals | src/parser.go:24-32 | Only the first '=' splits a line, so `w=m` with '=' inside `m` gives the word `w` with the one meaning `m`. |
| Prompts.PayloadLines | src/prompts.go:95-98 | There is one payload line per entry. |
| Prompts.BuildPrompts | src/prompts.go:8-110 | The switch and loop return exactly `SystemPrompt(questionType, numSentences)` and `UserPrompt(parsed)`. |
| Prompts.SystemPrompt | src/prompts.go:12-93 | The system prompt built from the source's own templates is empty exactly when the question type is none of the three known ones. |
| Prompts.SystemPromptEmptyIffUnknown | src/prompts.go:12-93 | The system prompt is empty if and only if the question type is none of the three known ones. |
| Prompts.SharedRules | src/prompts.go:9-91 | Every known template contains the distribution rule and ends with the self-review rule. |
| Prompts.FillInBlankStatesCount | src/prompts.go:34 | The fill-in template contains the rule asking for exactly `numSentences` context sentences. |
| Prompts.SentenceCountOnlyForFillIn | src/prompts.go:13-91 | For any type other than fill-in, the system prompt does not depend on the sentence count. |
| Prompts.PayloadLinesInOrder | src/prompts.go:95-98 | The k-th payload line is `word + " = " + Join(meanings, ", ")` of the k-th entry. |
| Prompts.UserPrompt | src/prompts.go:99-107 | The user prompt starts with the header, an empty line and "[Vocabulary List]", and ends with the payload. |
| Prompts.HeaderLinesPlain | src/prompts.go:102-104 | The header and the list heading hold neither '=' nor a line break. |
| Prompts.PlainLineParsesToNothing | src/parser.go:24-27 | A line without '=' parses to no entry. |
| Prompts.Serialise | src/prompts.go:97 | When the word holds no '=', the line splits at the '=' written after the word: the word and a space before it, a space and the joined meanings after it. |
| Prompts.SerialiseSplit | src/prompts.go:97 | A well-formed entry is written as one non-empty, trimmed line with no line break. |
| Prompts.SerialiseParses | src/prompts.go:97 | The parser reads a well-formed entry's line back as that entry. |
| Prompts.PayloadParses | src/prompts.go:95-99 | The payload text parses back to the entries. |
| Prompts.RoundTrip | src/prompts.go:95-107 | Parsing the user prompt gives back exactly the entries it was built from, whenever they are well formed. The header lines are dropped. |
| Prompts.ParsedBlockRoundTrip | src/prompts.go:95-107 | Every block's parsed entries survive a trip through the user prompt. |
| Session.Initial | src/tui.go:159-175 | The initial session is well shaped: two text areas, two stacks of each kind, and a focus index below two. The field values are defined by its body. |
| Session.Step | src/tui.go:234-378 | Every message keeps the session well shaped. |
| Session.KeyStep | src/tui.go:280-317 | Every key keeps the session well shaped. |
| Session.DefaultStep | src/tui.go:380-468 | Every key in the default state keeps the session well shaped. |
| Session.SaveName | src/tui.go:421-425 | The proposed name always ends in "_problem.txt". |
| Session.Swap | src/tui.go:522-524 | Exchanging two entries keeps the length. |
| Session.Shuffle | src/tui.go:522-524 | Whatever the draws, the shuffle is a permutation: the same length and the same entries. |
| Session.ShuffleDownPermutes | src/tui.go:522-524 | The shuffle loop from any index keeps the length and the same entries. |
| SessionProps.Undo | src/tui.go:389-396 | With a non-empty undo stack, ctrl+z pops its top into the focused area and pushes the replaced value on that area's redo stack; on an empty stack nothing but the o-counter changes. It returns no command. |
| SessionProps.Redo | src/tui.go:397-404 | ctrl+y is the exact mirror of ctrl+z. |
| SessionProps.UndoThenRedo | src/tui.go:389-404 | Undo followed by redo restores the buffer and both stacks. |
| SessionProps.RedoThenUndo | src/tui.go:389-404 | Redo followed by undo restores the buffer and both stacks. |
| SessionProps.WithFocusedAreaTwice | src/tui.go:389-404 | The focused area read back is the one put in, and replacing it twice keeps only the second. |
| SessionProps.PressEdits | src/tui.go:458-465 | In the default state, a key other than the command keys acts on the focused area alone: a changed value pushes the old one on undo and clears redo. |
| SessionProps.PressUndoes | src/tui.go:389-396 | In the default state, ctrl+z acts on the focused area alone, as one undo of it. |
| SessionProps.PressRedoes | src/tui.go:397-404 | In the default state, ctrl+y acts on the focused area alone, as one redo of it. |
| SessionProps.Typing | src/tui.go:458-465 | A run of edits keeps the session well shaped, in the default state, with the same focus. |
| SessionProps.UndoTimes | src/tui.go:389-396 | A run of ctrl+z keeps the session well shaped, in the default state, with the same focus. |
| SessionProps.RedoTimes | src/tui.go:397-404 | A run of ctrl+y keeps the session well shaped, in the default state, with the same focus. |
| SessionProps.TypingOnArea | src/tui.go:458-465 | A run of key presses is the same run of edits on the focused area, and changes nothing else except the o-counter. |
| SessionProps.UndoTimesOnArea | src/tui.go:389-396 | k presses of ctrl+z are k undos of the focused area. |
| SessionProps.RedoTimesOnArea | src/tui.go:397-404 | k presses of ctrl+y are k redos of the focused area. |
| SessionProps.AreaTypingHistory | src/tui.go:458-465 | After n edits that each change the value, the area holds the last value. Its undo stack holds the earlier values in order, and its redo stack is empty. |
| SessionProps.AreaUndoRun | src/tui.go:389-396 | k undos from the j-th value of an edit history reach the (j - k)-th, with the stacks to match. |
| SessionProps.AreaRedoRun | src/tui.go:397-404 | k redos from the j-th value reach the (j + k)-th. |
| SessionProps.UndoRedoRun | src/tui.go:389-465 | After n changing edits, k undos give the value after n - k edits. k redos then give back the area exactly as it was after the n edits. |
| SessionProps.PressUndoRedoRun | src/tui.go:389-465 | The same for key presses on a session. After n changing presses and k presses of ctrl+z, the focused area holds the value after n - k edits and its undo stack the values before it. k presses of ctrl+y then give back the session as it was after the edits. |
| SessionProps.EditThenUndo | src/tui.go:389-465 | A changing edit followed by ctrl+z restores the focused area and its undo stack. The edited value is left on its redo stack. |
| SessionProps.EditRecording | src/tui.go:458-465 | A key that changes the focused area pushes its old value on its undo stack and clears its redo stack. A key that leaves it unchanged touches neither stack. The other area and its stacks never change. |
| SessionProps.TabSwitchesFocus | src/tui.go:444-448 | tab only moves the focus to the other area and resets the o-counter. |
| SessionProps.OKeyCounter | src/tui.go:450-455 | The fifth 'o' in a row asks for the debug-log write and resets the counter; an earlier one counts and is typed. |
| SessionProps.GenerateGuard | src/tui.go:430-442 | ctrl+g with an empty input, or an empty API key, stays in the default state and only sets a status plus an error reset. Otherwise it opens the model list. |
| SessionProps.ModelChosen | src/tui.go:497-506 | enter on a model records its id and lists the question types. Only GPT-5 pro sets the high-cost warning. |
| SessionProps.QuestionTypeChosen | src/tui.go:507-529 | enter on fill-in asks for the sentence count. Either other type returns to the default state generating at second 0, with Generate (count 1, the input's entries shuffled) and Tick. |
| SessionProps.SentencesEntered | src/tui.go:545-561 | enter on the count does the same with `Atoi` of the entered text. |
| SessionProps.Escape | src/tui.go:532-536 | esc in any non-default state returns to the default state with a success reset. In the three generation states it also stops generating. |
| SessionProps.Tick | src/tui.go:320-326 | A tick while generating adds exactly one second and asks for exactly one more tick. Otherwise it changes nothing and returns no command. |
| SessionProps.TickChain | src/tui.go:320-326 | While generating, n ticks count n seconds and change nothing but the clock and the status. |
| SessionProps.GenerationResult | src/tui.go:344-354 | A result always stops generating. Text replaces the output area, with no undo entry, and returns to the default state. An error keeps the buffers and the state and asks for an error reset. |
| SessionProps.FileRead | src/tui.go:332-337 | A file read replaces the input area, with no undo entry, and names the file by its base name. |
| SessionProps.FileWritten | src/tui.go:339-342 | A written file returns to the default state and names the file by its base name. |
| SessionProps.DebugLogOutcome | src/tui.go:356-363 | The debug-log outcome is shown with the matching reset, and nothing else changes. |
| SessionProps.ResetStatus | src/tui.go:328-330 | In a reachable session, a status reset brings back the help line and changes nothing else. |
| SessionProps.ErrorRecorded | src/tui.go:365-367 | An error message is recorded and nothing else changes. |
| SessionProps.LoadWordFile | src/tui.go:405-417 | ctrl+o loads word.txt into the input area, with no undo entry, or shows the read error; nothing else changes. |
| SessionProps.CtrlCQuits | src/tui.go:291-292 | ctrl+c quits from every state and changes nothing. |
| SessionProps.MouseToggleTwice | src/tui.go:282-290 | f12 flips mouse reporting in every state. Pressed twice, it restores the flag and changes only the status. |
| SessionProps.SaveOpensPathInput | src/tui.go:419-428 | ctrl+s opens the path input, proposing `SaveName` of the loaded file. |
| SessionProps.SaveNameWithoutFile | src/tui.go:421-425 | With no file loaded, the proposal is "result_problem.txt". |
| SessionProps.SaveNameOfFile | src/tui.go:421-425 | For `dir/name.txt` the proposal is `name_problem.txt`. |
| SessionProps.SaveNameOfWordFile | src/tui.go:413-425 | After ctrl+o the proposal is "word_problem.txt". |
| SessionProps.SaveConfirmed | src/tui.go:473-478 | enter with an empty path changes nothing. With a path, it returns to the default state and writes the output area there. |
| SessionProps.InitialInv | src/tui.go:159-175 | The initial session satisfies the reachability invariant. |
| SessionProps.StepPreservesInv | src/tui.go:234-378 | Every message keeps the invariant: the list matches the selection state, the o-counter stays below 5, the clock is not negative, the default status never changes, and the file picker is not entered. |
| SessionProps.KeyPreservesInv | src/tui.go:280-317 | Every key keeps the invariant. |
| SessionProps.DefaultPreservesInv | src/tui.go:380-468 | Every key in the default state keeps the invariant. |
| SessionProps.MenuKeyPreservesInv | src/tui.go:405-442 | ctrl+o, ctrl+s and ctrl+g keep the invariant. |
| SessionProps.HistoryKeyPreservesInv | src/tui.go:389-404 | ctrl+z and ctrl+y keep the invariant. |
| SessionProps.TypingPreservesInv | src/tui.go:444-465 | tab, 'o' and plain edits keep the invariant. |
| SessionProps.ListPreservesInv | src/tui.go:488-540 | Keys in the two list states keep the invariant. |
| SessionProps.Run | src/tui.go:234-378 | Any sequence of messages from a session that satisfies the invariant ends in one that does. |
| SessionProps.FilePickerUnreachable | src/tui.go:405-417 | No sequence of messages from the initial session reaches the file picker, because ctrl+o reads word.txt itself. |
| SessionProps.GenerationRequestRoundTrip | src/tui.go:519-528 | A generation asks about the input's entries in some order. The user prompt built from them parses back to exactly them. |
| Tui.ShuffleInPlace | src/tui.go:522-524 | The in-place loop leaves the array holding `Shuffle` of its old contents. |
| Tui.GenerationEntries | src/tui.go:519-524 | Parsing into an array and shuffling it in place gives `Shuffle(ParseBlock(vocabulary), draws)`. |
| Tui.Model.constructor | src/tui.go:159-175 | The new object's snapshot is `Initial(apiKey)`. |
| Tui.Model.Update | src/tui.go:234-378 | The object moves to `Step(old, msg).next` and returns its commands. |
| Tui.Model.Tick | src/tui.go:320-326 | The object moves as `TickStep` says. |
| Tui.Model.FileRead | src/tui.go:332-337 | The object moves as `FileReadStep` says. |
| Tui.Model.FileWritten | src/tui.go:339-342 | The object moves as `FileWrittenStep` says. |
| Tui.Model.GenerationResult | src/tui.go:344-354 | The object moves as `GenerationResultStep` says. |
| Tui.Model.DebugLogFinished | src/tui.go:356-363 | The object moves as `DebugLogStep` says. |
| Tui.Model.UpdateKey | src/tui.go:280-317 | The object moves as `KeyStep` says: f12 and ctrl+c first, then the handler of the current state. |
| Tui.Model.SwitchMouse | src/tui.go:282-290 | The object moves as `ToggleMouse` says. |
| Tui.Model.UpdateFilePicker | src/tui.go:296-309 | The object moves as `FilePickerStep` says. |
| Tui.Model.UpdateDefault | src/tui.go:380-468 | The object moves as `DefaultStep` says. |
| Tui.Model.Undo | src/tui.go:389-396 | The focused area and its two stacks move as `UndoStep` says. |
| Tui.Model.Redo | src/tui.go:397-404 | The focused area and its two stacks move as `RedoStep` says. |
| Tui.Model.LoadWordFile | src/tui.go:405-417 | The object moves as `LoadStep` says. |
| Tui.Model.PromptSavePath | src/tui.go:419-428 | The object moves as `SaveStep` says. |
| Tui.Model.RequestGeneration | src/tui.go:430-442 | The object moves as `GenerateKeyStep` says. |
| Tui.Model.EditFocused | src/tui.go:458-465 | The object moves as `Edit` says. |
| Tui.Model.UpdatePathInput | src/tui.go:470-486 | The object moves as `PathInputStep` says. |
| Tui.Model.UpdateListSelection | src/tui.go:488-540 | The object moves as `ListSelectionStep` says. |
| Tui.Model.ChooseModel | src/tui.go:497-506 | The object moves as `ChooseModelStep` says. |
| Tui.Model.ChooseQuestionType | src/tui.go:507-529 | The object moves as `ChooseQTypeStep` says. |
| Tui.Model.Cancel | src/tui.go:532-536 | The object moves as `CancelGeneration` says. |
| Tui.Model.UpdateNumInput | src/tui.go:542-570 | The object moves as `NumInputStep` says. |
| Tui.Model.BeginGeneration | src/tui.go:515-528 | The object moves as `StartGeneration` says. |
| Tui.Model.SendGeneration | src/tui.go:515-528 | The object moves as `Launch` says. |

## Left out

- The `View` function, the styles and window-size layout (src/tui.go:104-112, 250-262, 574-604): presentation only.
- Mouse-wheel scrolling (src/tui.go:264-278): terminal control. The f12 switch is modelled.
- Widget internals (textarea, textinput, list, filepicker): these are foreign libraries. Each key message carries the value the widget reports and the highlighted index. The widget commands they return (cursor blink, list and input updates) are dropped. The one exception is tab, which returns a `BlinkCmd` tag. The numeric input's two-character limit is not modelled.
- Tui.Model.UpdateListSelection: a highlighted index outside the list does nothing. In the source, `SelectedItem()` then returns nil and the type assertion at src/tui.go:498 panics. `SessionProps.Inv` shows only that the list is one of the two fixed lists, not that the index is in range. The index comes from the list widget, which is not modelled. One path may reach the panic. After a choice from the five-item model list, src/tui.go:503 puts in the three question types. If the widget keeps a cursor of 3 or 4 there, enter fails the assertion. Whether it does depends on the widget's `SetItems`, which is not part of this model.
- Messages `Update` does not handle fall through to the focused text area in the default state (src/tui.go:370-375). The model has no such messages.
- The log buffer and its writes (src/tui.go:235-245, 526-527, 559-560): a side channel. The fifth 'o' returns a `WriteLogCmd` tag and the written outcome arrives as a message.
- The timer durations of the status resets and the ticker (2 s, 4 s, 1 s): timing. Only the command tags are kept.
- Concurrency: completions arrive as independent messages in any order, and the model handles one message at a time.
- `rand.Seed` and the randomness of `rand.Shuffle`: the draws are an input. A missing draw leaves its index in place.
- Prompts.BuildPrompts: `GenerateCmd` carries the entries, the question type and the count rather than the two prompt strings. Those strings are `SystemPrompt` and `UserPrompt` of them, as `BuildPrompts` proves.
- The template text is one `TemplateText` record (src/prompts.go:9-91), and long lines are written as concatenated pieces that spell the same strings. The properties of the system prompt are proved for any template text.
- The status line is a `Status` value. `Session.Text` renders it as the source's string but has no contract.
- Strings are sequences of code points. The source's byte-level UTF-8 handling is not modelled; the parser and prompt builder only split on ASCII characters.
- The Go arrays `undoHistory [2][]string` and `redoHistory [2][]string`, and the slice of two text areas, are `seq` fields of length two that the handlers reassign. Aliasing between them cannot arise in the source either.
- src/chatgpt.go (the HTTP client), src/api.go (reading the API key) and src/main.go (program start-up) are not part of this model. The key is a parameter of the constructor.
- `ioutil.ReadFile` and `ioutil.WriteFile` in `readFileCmd` and `writeFileCmd`, and the direct read of word.txt: file I/O. Their outcomes are message or key-effect inputs.
