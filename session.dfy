/**
 * The session controller of src/tui.go as a pure state machine: a
 * `Session` value holds the fields of the Go `model`, and `Step` is its
 * `Update` handler, taking one message to the next session and the
 * commands it returns.
 *
 * The terminal widgets are abstract. A key message carries what the widget
 * that handles it would report (`KeyEffects`): the new value of the text
 * widget in use, the highlighted list entry, the file a file picker
 * selects, the outcome of reading `word.txt` and the random draws of
 * `rand.Shuffle`.
 */
module Session {
  import opened Wrappers
  import opened GoStrings
  import opened Parser
  import opened Prompts

  // ---------------------------------------------------------------------
  // States, list entries, messages and commands
  // ---------------------------------------------------------------------

  /** `sessionState` (src/tui.go:24-33). */
  datatype SessionState = Default | FilePicker | SaveFilepath | SelectModel | SelectQType | EnterSentences

  /** An entry of the selection list (src/tui.go:608-610). */
  datatype Item = Item(title: string, desc: string, id: string)

  const HighCost: string := "Warning: High Cost"

  /** `getGenerationModels` (src/tui.go:616-624). */
  const GenerationModels: seq<Item> := [
    Item(title := "GPT-5 pro", desc := HighCost, id := "gpt-5-pro"),
    Item(title := "GPT-5", desc := "", id := "gpt-5"),
    Item(title := "GPT-5 mini", desc := "", id := "gpt-5-mini"),
    Item(title := "GPT-5 nano", desc := "", id := "gpt-5-nano"),
    Item(title := "GPT-4.1", desc := "Legacy", id := "gpt-4.1")
  ]

  /** `getQTypes` (src/tui.go:626-632): title and id are the question type. */
  const QTypes: seq<Item> := [
    Item(title := FillInBlank, desc := "", id := FillInBlank),
    Item(title := EnglishDefinition, desc := "", id := EnglishDefinition),
    Item(title := DefinitionJudgement, desc := "", id := DefinitionJudgement)
  ]

  /**
   * What the widgets report for one key press: the new value of the text
   * widget the key goes to, the index of the highlighted list entry, the
   * file the file picker selects (if any), the outcome of reading
   * `word.txt` (its content or the error text) and the numbers
   * `rand.Shuffle` draws.
   */
  datatype KeyEffects = KeyEffects(
    edited: string,
    highlighted: nat,
    picked: Option<string>,
    wordFile: Result<string, string>,
    draws: seq<nat>)

  /** The messages `Update` handles (src/tui.go:35-43); errors are their text. */
  datatype Msg =
    | KeyMsg(key: string, effects: KeyEffects)
    | TickMsg
    | ResetStatusMsg
    | FileReadMsg(content: string, path: string)
    | FileWriteMsg(path: string)
    | GenerationResultMsg(result: Result<string, string>)
    | DebugFileWrittenMsg(writeError: Option<string>)
    | ErrMsg(error: string)

  /**
   * The commands `Update` returns, as tags with their arguments. A
   * generation command records the request its prompts are built from:
   * its system prompt is `SystemPrompt(questionType, numSentences)` and
   * its user prompt `UserPrompt(parsed)` (src/tui.go:75-83, 519-528).
   */
  datatype Cmd =
    | GenerateCmd(apiKey: string, modelId: string, parsed: seq<VocabPair>, questionType: string, numSentences: int)
    | TickCmd
    | ResetSuccessCmd
    | ResetErrorCmd
    | WriteFileCmd(path: string, content: string)
    | ReadFileCmd(path: string)
    | WriteLogCmd
    | QuitCmd
    | BlinkCmd
    | EnableMouseCmd
    | DisableMouseCmd

  // ---------------------------------------------------------------------
  // The status line
  // ---------------------------------------------------------------------

  /**
   * The messages the status line shows, one constructor per message the
   * controller sets; `Text` renders each as the exact string of the source.
   */
  datatype Status =
    | Help
    | MouseEnabled
    | MouseDisabled
    | FileSelectionCancelled
    | GeneratingFor(seconds: int)
    | LoadedFile(name: string)
    | SavedTo(name: string)
    | GenerationError(error: string)
    | GenerationComplete
    | DebugLogError(error: string)
    | DebugLogWritten
    | WordFileError(error: string)
    | LoadedPath(path: string)
    | EnterSavePath
    | InputEmpty
    | ApiKeyMissing
    | Saving
    | SaveCancelled
    | GenerationCancelled
    | HighCostWarning
    | EnterSentenceCount
    | Generating

  /** The status line as the terminal shows it (src/tui.go:162-168, 285-565). */
  function Text(st: Status): string {
    match st
    case Help => "F12: Toggle Mouse | Ctrl+O: Load | Ctrl+S: Save | Ctrl+G: Generate | Tab: Switch Panes"
    case MouseEnabled => "Mouse support enabled."
    case MouseDisabled => "Mouse support disabled (text selection enabled)."
    case FileSelectionCancelled => "File selection cancelled."
    case GeneratingFor(seconds) => "Generating... (" + IntToString(seconds) + "s)"
    case LoadedFile(name) => "Loaded '" + name + "'"
    case SavedTo(name) => "Saved to '" + name + "'"
    case GenerationError(e) => "Generation Error: " + e
    case GenerationComplete => "Generation complete!"
    case DebugLogError(e) => "Error writing debug.log: " + e
    case DebugLogWritten => "debug.log written successfully."
    case WordFileError(e) => "Error loading word.txt: " + e
    case LoadedPath(path) => "Loaded: " + path
    case EnterSavePath => "Enter file path to save."
    case InputEmpty => "Cannot generate: Input vocabulary is empty."
    case ApiKeyMissing => "Cannot generate: API Key is not configured in api.json."
    case Saving => "Saving..."
    case SaveCancelled => "Cancelled save."
    case GenerationCancelled => "Cancelled generation."
    case HighCostWarning => "Warning: High cost model selected!"
    case EnterSentenceCount => "Enter number of sentences."
    case Generating => "Generating..."
  }

  // ---------------------------------------------------------------------
  // The session
  // ---------------------------------------------------------------------

  /** The two text areas: the vocabulary and the generated questions (src/tui.go:154-157). */
  const InputIdx: nat := 0
  const OutputIdx: nat := 1

  /**
   * The fields of `model` (src/tui.go:117-152), with each widget reduced to
   * its value: `inputs` the two text areas, `pathInput` and `numInput` the
   * two one-line inputs, `listItems` the entries of the list.
   */
  datatype Session = Session(
    state: SessionState,
    err: Option<string>,
    status: Status,
    defaultStatus: Status,
    inputs: seq<string>,
    focused: nat,
    pathInput: string,
    numInput: string,
    listItems: seq<Item>,
    inputFilePath: string,
    apiKey: string,
    selectedModel: string,
    selectedQType: string,
    numSentences: string,
    generationSeconds: int,
    isGenerating: bool,
    mouseEnabled: bool,
    oKeyPressCount: int,
    undoHistory: seq<seq<string>>,
    redoHistory: seq<seq<string>>)

  /** The fixed shape of `model`: two text areas, two history stacks each, a focus among them. */
  predicate WellShaped(s: Session) {
    && |s.inputs| == 2
    && |s.undoHistory| == 2
    && |s.redoHistory| == 2
    && s.focused < 2
  }

  /** The outcome of one message: the next session and the commands returned. */
  datatype Transition = Transition(next: Session, cmds: seq<Cmd>)


  /** `initialModel` (src/tui.go:159-175), given the key `loadAPIKey` returned. */
  function Initial(apiKey: string): (s: Session)
    ensures WellShaped(s)
  {
    Session(
      state := Default, err := None, status := Help, defaultStatus := Help,
      inputs := ["", ""], focused := 0, pathInput := "", numInput := "", listItems := [],
      inputFilePath := "", apiKey := apiKey, selectedModel := "", selectedQType := "",
      numSentences := "2", generationSeconds := 0, isGenerating := false, mouseEnabled := true,
      oKeyPressCount := 0, undoHistory := [[], []], redoHistory := [[], []])
  }

  // ---------------------------------------------------------------------
  // Update
  // ---------------------------------------------------------------------

  /** `Update` (src/tui.go:234-378) for the messages the model covers. */
  function Step(s: Session, msg: Msg): (t: Transition)
    requires WellShaped(s)
    ensures WellShaped(t.next)
  {
    match msg
    case KeyMsg(key, effects) => KeyStep(s, key, effects)
    case TickMsg => TickStep(s)
    case ResetStatusMsg => Transition(s.(status := s.defaultStatus), [])
    case FileReadMsg(content, path) => FileReadStep(s, content, path)
    case FileWriteMsg(path) => FileWrittenStep(s, path)
    case GenerationResultMsg(result) => GenerationResultStep(s, result)
    case DebugFileWrittenMsg(writeError) => DebugLogStep(s, writeError)
    case ErrMsg(error) => Transition(s.(err := Some(error)), [])
  }

  /** A key: f12 and ctrl+c in every state, then the handler of the current state (src/tui.go:281-317). */
  function KeyStep(s: Session, key: string, effects: KeyEffects): (t: Transition)
    requires WellShaped(s)
    ensures WellShaped(t.next)
  {
    if key == "f12" then ToggleMouse(s)
    else if key == "ctrl+c" then Transition(s, [QuitCmd])
    else match s.state
      case FilePicker => FilePickerStep(s, key, effects)
      case SaveFilepath => PathInputStep(s, key, effects)
      case SelectModel => ListSelectionStep(s, key, effects)
      case SelectQType => ListSelectionStep(s, key, effects)
      case EnterSentences => NumInputStep(s, key, effects)
      case Default => DefaultStep(s, key, effects)
  }

  /** f12 switches mouse reporting (src/tui.go:283-290). */
  function ToggleMouse(s: Session): Transition {
    if !s.mouseEnabled then
      Transition(s.(mouseEnabled := true, status := MouseEnabled),
                 [ResetSuccessCmd, EnableMouseCmd])
    else
      Transition(s.(mouseEnabled := false, status := MouseDisabled),
                 [ResetSuccessCmd, DisableMouseCmd])
  }

  /** The file picker: esc cancels, a selected file is read (src/tui.go:296-309). */
  function FilePickerStep(s: Session, key: string, effects: KeyEffects): Transition {
    if key == "esc" then
      Transition(s.(state := Default, status := FileSelectionCancelled), [ResetSuccessCmd])
    else if effects.picked.Some? then
      Transition(s.(state := Default), [ReadFileCmd(effects.picked.value)])
    else Transition(s, [])
  }

  /** A tick counts one more second while generating, and asks for the next tick (src/tui.go:320-326). */
  function TickStep(s: Session): Transition {
    if s.isGenerating then
      var seconds := s.generationSeconds + 1;
      Transition(s.(generationSeconds := seconds, status := GeneratingFor(seconds)),
                 [TickCmd])
    else Transition(s, [])
  }

  /** A file the picker chose has been read into the input area (src/tui.go:332-337). */
  function FileReadStep(s: Session, content: string, path: string): Transition
    requires WellShaped(s)
  {
    Transition(s.(inputs := s.inputs[InputIdx := content], inputFilePath := path,
                  status := LoadedFile(Base(path)), state := Default),
               [ResetSuccessCmd])
  }

  /** The output area has been saved (src/tui.go:339-342). */
  function FileWrittenStep(s: Session, path: string): Transition {
    Transition(s.(status := SavedTo(Base(path)), state := Default), [ResetSuccessCmd])
  }

  /** The debug log has been written, or failed to be (src/tui.go:356-363). */
  function DebugLogStep(s: Session, writeError: Option<string>): Transition {
    if writeError.Some? then Transition(s.(status := DebugLogError(writeError.value)), [ResetErrorCmd])
    else Transition(s.(status := DebugLogWritten), [ResetSuccessCmd])
  }

  /** The end of a generation (src/tui.go:344-354). */
  function GenerationResultStep(s: Session, result: Result<string, string>): Transition
    requires WellShaped(s)
  {
    match result
    case Failure(e) =>
      Transition(s.(isGenerating := false, status := GenerationError(e)), [ResetErrorCmd])
    case Success(text) =>
      Transition(s.(isGenerating := false, status := GenerationComplete,
                    inputs := s.inputs[OutputIdx := text], state := Default),
                 [ResetSuccessCmd])
  }

  /** The file that ctrl+o loads (src/tui.go:407). */
  const WordFile: string := "word.txt"

  /**
   * The name ctrl+s proposes: the loaded file's base name without one
   * trailing ".txt", or "result", followed by "_problem.txt" (src/tui.go:421-425).
   */
  function SaveName(inputFilePath: string): (r: string)
    ensures HasSuffix(r, "_problem.txt")
  {
    var originalName := if inputFilePath != "" then TrimSuffix(Base(inputFilePath), ".txt") else "result";
    originalName + "_problem.txt"
  }

  /** `updateDefault` (src/tui.go:380-472). */
  function DefaultStep(s: Session, key: string, effects: KeyEffects): (t: Transition)
    requires WellShaped(s)
    ensures WellShaped(t.next)
  {
    var r := if key != "o" then s.(oKeyPressCount := 0) else s;
    if key == "ctrl+z" then Transition(UndoStep(r), [])
    else if key == "ctrl+y" then Transition(RedoStep(r), [])
    else if key == "ctrl+o" then LoadStep(r, effects.wordFile)
    else if key == "ctrl+s" then Transition(SaveStep(r), [])
    else if key == "ctrl+g" then GenerateKeyStep(r)
    else if key == "tab" then Transition(r.(focused := (r.focused + 1) % 2), [BlinkCmd])
    else if key == "o" && s.oKeyPressCount + 1 >= 5 then
      Transition(s.(oKeyPressCount := 0), [WriteLogCmd])
    else
      var counted := if key == "o" then s.(oKeyPressCount := s.oKeyPressCount + 1) else r;
      Transition(Edit(counted, effects.edited), [])
  }

  /** ctrl+z: the top of the focused area's undo stack replaces it, and the replaced value goes on its redo stack (src/tui.go:389-396). */
  function UndoStep(s: Session): Session
    requires WellShaped(s)
  {
    var f, undo := s.focused, s.undoHistory[s.focused];
    if |undo| > 0 then
      s.(undoHistory := s.undoHistory[f := undo[..|undo| - 1]],
         redoHistory := s.redoHistory[f := s.redoHistory[f] + [s.inputs[f]]],
         inputs := s.inputs[f := undo[|undo| - 1]])
    else s
  }

  /** ctrl+y: the mirror of ctrl+z between the two stacks (src/tui.go:397-404). */
  function RedoStep(s: Session): Session
    requires WellShaped(s)
  {
    var f, redo := s.focused, s.redoHistory[s.focused];
    if |redo| > 0 then
      s.(redoHistory := s.redoHistory[f := redo[..|redo| - 1]],
         undoHistory := s.undoHistory[f := s.undoHistory[f] + [s.inputs[f]]],
         inputs := s.inputs[f := redo[|redo| - 1]])
    else s
  }

  /** ctrl+o: the content of word.txt replaces the input area, or the read error is shown (src/tui.go:405-417). */
  function LoadStep(s: Session, wordFile: Result<string, string>): Transition
    requires WellShaped(s)
  {
    match wordFile
    case Failure(e) => Transition(s.(status := WordFileError(e)), [])
    case Success(content) =>
      Transition(s.(inputFilePath := WordFile, inputs := s.inputs[InputIdx := content],
                    state := Default, status := LoadedPath(WordFile)),
                 [ResetSuccessCmd])
  }

  /** ctrl+s: ask for the path to save to, proposing `SaveName` (src/tui.go:419-428). */
  function SaveStep(s: Session): Session {
    s.(state := SaveFilepath, pathInput := SaveName(s.inputFilePath), status := EnterSavePath)
  }

  /** ctrl+g: refuse an empty vocabulary or a missing key, otherwise list the models (src/tui.go:430-442). */
  function GenerateKeyStep(s: Session): Transition
    requires WellShaped(s)
  {
    if s.inputs[InputIdx] == "" then Transition(s.(status := InputEmpty), [ResetErrorCmd])
    else if s.apiKey == "" then Transition(s.(status := ApiKeyMissing), [ResetErrorCmd])
    else Transition(s.(state := SelectModel, listItems := GenerationModels), [])
  }

  /**
   * The focused text area takes its new value; a change pushes the old
   * value on the area's undo stack and empties its redo stack
   * (src/tui.go:458-465).
   */
  function Edit(s: Session, newValue: string): Session
    requires WellShaped(s)
  {
    var f := s.focused;
    if newValue != s.inputs[f] then
      s.(inputs := s.inputs[f := newValue],
         undoHistory := s.undoHistory[f := s.undoHistory[f] + [s.inputs[f]]],
         redoHistory := s.redoHistory[f := []])
    else s
  }

  /** `updatePathInput` (src/tui.go:470-486). */
  function PathInputStep(s: Session, key: string, effects: KeyEffects): Transition
    requires WellShaped(s)
  {
    if key == "enter" then
      if s.pathInput == "" then Transition(s, [])
      else Transition(s.(state := Default, status := Saving),
                      [WriteFileCmd(s.pathInput, s.inputs[OutputIdx])])
    else if key == "esc" then
      Transition(s.(state := Default, status := SaveCancelled), [ResetSuccessCmd])
    else Transition(s.(pathInput := effects.edited), [])
  }

  /** esc while choosing how to generate (src/tui.go:532-536, 562-566). */
  function CancelGeneration(s: Session): Transition {
    Transition(s.(isGenerating := false, state := Default, status := GenerationCancelled),
               [ResetSuccessCmd])
  }

  /** `updateListSelection` (src/tui.go:488-540). */
  function ListSelectionStep(s: Session, key: string, effects: KeyEffects): Transition
    requires WellShaped(s)
  {
    if key == "w" || key == "ㅈ" || key == "s" || key == "ㄴ" then Transition(s, [])
    else if key == "enter" then
      if effects.highlighted < |s.listItems| then
        var item := s.listItems[effects.highlighted];
        if s.state == SelectModel then Transition(ChooseModelStep(s, item), [])
        else if s.state == SelectQType then ChooseQTypeStep(s, item, effects.draws)
        else Transition(s, [])
      else Transition(s, [])
    else if key == "esc" then CancelGeneration(s)
    else Transition(s, [])
  }

  /** enter on a model: record its id, warn about a costly one, and list the question types (src/tui.go:497-506). */
  function ChooseModelStep(s: Session, item: Item): Session {
    s.(selectedModel := item.id, state := SelectQType, listItems := QTypes,
       status := if item.desc == HighCost then HighCostWarning else s.status)
  }

  /**
   * enter on a question type: record it; the fill-in type asks for the
   * number of sentences, any other starts generating with a count of 1
   * (src/tui.go:507-529).
   */
  function ChooseQTypeStep(s: Session, item: Item, draws: seq<nat>): Transition
    requires WellShaped(s)
  {
    var chosen := s.(selectedQType := item.id);
    if item.id == FillInBlank then
      Transition(chosen.(state := EnterSentences, numInput := chosen.numSentences, status := EnterSentenceCount), [])
    else StartGeneration(chosen, 1, draws)
  }

  /** `updateNumInput` (src/tui.go:542-570). */
  function NumInputStep(s: Session, key: string, effects: KeyEffects): Transition
    requires WellShaped(s)
  {
    if key == "enter" then
      var entered := s.(numSentences := s.numInput);
      StartGeneration(entered, Atoi(entered.numSentences), effects.draws)
    else if key == "esc" then CancelGeneration(s)
    else Transition(s.(numInput := effects.edited), [])
  }

  /**
   * The start of a generation: the input's entries parsed and shuffled
   * are sent off (src/tui.go:507-529, 545-561).
   */
  function StartGeneration(s: Session, numSentences: int, draws: seq<nat>): Transition
    requires WellShaped(s)
  {
    Launch(s, numSentences, Shuffle(ParseBlock(s.inputs[InputIdx]), draws))
  }

  /**
   * Back to the default state with the clock at zero, and the generation
   * and ticker commands issued for `entries` (src/tui.go:515-528, 547-561).
   */
  function Launch(s: Session, numSentences: int, entries: seq<VocabPair>): Transition {
    Transition(s.(state := Default, isGenerating := true, generationSeconds := 0, status := Generating),
               [GenerateCmd(s.apiKey, s.selectedModel, entries, s.selectedQType, numSentences), TickCmd])
  }

  // ---------------------------------------------------------------------
  // rand.Shuffle
  // ---------------------------------------------------------------------

  /** `xs` with the elements at `i` and `j` exchanged. */
  function Swap<T>(xs: seq<T>, i: nat, j: nat): (r: seq<T>)
    requires i < |xs| && j < |xs|
    ensures |r| == |xs|
  {
    xs[i := xs[j]][j := xs[i]]
  }

  /**
   * `rand.Shuffle`: Fisher-Yates from the last index down to 1, exchanging
   * index `i` with the draw taken modulo `i + 1`. A draw missing from
   * `draws` leaves index `i` in place.
   */
  function Shuffle<T>(xs: seq<T>, draws: seq<nat>): (r: seq<T>)
    ensures |r| == |xs| && multiset(r) == multiset(xs)
  {
    ShuffleDownPermutes(xs, |xs| - 1, draws);
    ShuffleDown(xs, |xs| - 1, draws)
  }

  function ShuffleDown<T>(xs: seq<T>, i: int, draws: seq<nat>): seq<T>
    requires i < |xs|
    decreases i
  {
    if i <= 0 then xs
    else
      var j := if draws != [] then draws[0] % (i + 1) else i;
      ShuffleDown(Swap(xs, i, j), i - 1, if draws != [] then draws[1..] else [])
  }

  /** The shuffle loop from index `i` down keeps the length and the same entries, whatever the draws. */
  lemma {:induction false} ShuffleDownPermutes<T>(xs: seq<T>, i: int, draws: seq<nat>)
    requires i < |xs|
    ensures |ShuffleDown(xs, i, draws)| == |xs|
    ensures multiset(ShuffleDown(xs, i, draws)) == multiset(xs)
    decreases i
  {
    if i > 0 {
      var j := if draws != [] then draws[0] % (i + 1) else i;
      assert multiset(Swap(xs, i, j)) == multiset(xs);
      ShuffleDownPermutes(Swap(xs, i, j), i - 1, if draws != [] then draws[1..] else []);
    }
  }
}
