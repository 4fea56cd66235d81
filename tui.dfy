/**
 * The session controller of src/tui.go as the source writes it: a `Model`
 * object whose handlers update its fields in place. The values of the two
 * text areas and their undo and redo stacks are sequences of two, indexed
 * by the focused area, that the handlers reassign. Every handler is proved to do what the corresponding function of
 * `Session` specifies, so the properties proved there hold of the object.
 */
module Tui {
  import opened Wrappers
  import opened GoStrings
  import opened Parser
  import opened Prompts
  import opened Session

  /**
   * `rand.Shuffle` applied in place to `a`: from the last index down to 1,
   * each index is exchanged with the next draw taken modulo one more than
   * the index (src/tui.go:522-524).
   */
  method ShuffleInPlace<T>(a: array<T>, draws: seq<nat>)
    modifies a
    ensures a[..] == Shuffle(old(a[..]), draws)
  {
    var i := a.Length - 1;
    var rest := draws;
    while i > 0
      invariant -1 <= i < a.Length
      invariant ShuffleDown(a[..], i, rest) == Shuffle(old(a[..]), draws)
      decreases i
    {
      var j := if rest != [] then rest[0] % (i + 1) else i;
      assert a[..][i := a[j]][j := a[i]] == Swap(a[..], i, j);
      a[i], a[j] := a[j], a[i];
      rest := if rest != [] then rest[1..] else [];
      i := i - 1;
    }
  }

  /**
   * The entries a generation is asked for: the vocabulary block parsed,
   * then shuffled in place (src/tui.go:519-524, 552-557).
   */
  method GenerationEntries(vocabulary: string, draws: seq<nat>) returns (entries: seq<VocabPair>)
    ensures entries == Shuffle(ParseBlock(vocabulary), draws)
  {
    var parsed := ParseVocabBlock(vocabulary);
    var a := new VocabPair[|parsed|](k requires 0 <= k < |parsed| => parsed[k]);
    assert a[..] == parsed;
    ShuffleInPlace(a, draws);
    entries := a[..];
  }

  /** `model` (src/tui.go:117-152), with each widget reduced to its value. */
  class Model {
    var state: SessionState
    var err: Option<string>
    var status: Status
    var defaultStatus: Status
    /** The values of the two text areas, vocabulary first. */
    var inputs: seq<string>
    var focused: nat
    var pathInput: string
    var numInput: string
    var listItems: seq<Item>
    var inputFilePath: string
    var apiKey: string
    var selectedModel: string
    var selectedQType: string
    var numSentences: string
    var generationSeconds: int
    var isGenerating: bool
    var mouseEnabled: bool
    var oKeyPressCount: int
    /** One undo stack and one redo stack per text area, top last. */
    var undoHistory: seq<seq<string>>
    var redoHistory: seq<seq<string>>

    /** Two areas, two stacks of each kind, and a focus among the areas. */
    predicate Valid()
      reads this
    {
      && |inputs| == 2
      && |undoHistory| == 2
      && |redoHistory| == 2
      && focused < 2
    }

    /** The object's state as a `Session` value. */
    function Snapshot(): (s: Session)
      reads this
      requires Valid()
    {
      Session(
        state := state, err := err, status := status, defaultStatus := defaultStatus,
        inputs := inputs, focused := focused, pathInput := pathInput, numInput := numInput,
        listItems := listItems, inputFilePath := inputFilePath, apiKey := apiKey,
        selectedModel := selectedModel, selectedQType := selectedQType, numSentences := numSentences,
        generationSeconds := generationSeconds, isGenerating := isGenerating, mouseEnabled := mouseEnabled,
        oKeyPressCount := oKeyPressCount, undoHistory := undoHistory, redoHistory := redoHistory)
    }

    /** `initialModel` (src/tui.go:159-175), given the key `loadAPIKey` returned. */
    constructor (apiKey: string)
      ensures Valid()
      ensures Snapshot() == Initial(apiKey)
    {
      state := Default;
      err := None;
      status := Help;
      defaultStatus := Help;
      inputs := ["", ""];
      focused := 0;
      pathInput := "";
      numInput := "";
      listItems := [];
      inputFilePath := "";
      this.apiKey := apiKey;
      selectedModel := "";
      selectedQType := "";
      numSentences := "2";
      generationSeconds := 0;
      isGenerating := false;
      mouseEnabled := true;
      oKeyPressCount := 0;
      undoHistory := [[], []];
      redoHistory := [[], []];
    }

    /** `Update` (src/tui.go:234-378): each message goes to its handler. */
    method Update(msg: Msg) returns (cmds: seq<Cmd>)
      requires Valid()
      modifies this
      ensures Valid()
      ensures Snapshot() == Step(old(Snapshot()), msg).next
      ensures cmds == Step(old(Snapshot()), msg).cmds
    {
      match msg
      case KeyMsg(key, effects) =>
        cmds := UpdateKey(key, effects);
      case TickMsg =>
        cmds := Tick();
      case ResetStatusMsg =>
        status := defaultStatus;
        cmds := [];
      case FileReadMsg(content, path) =>
        cmds := FileRead(content, path);
      case FileWriteMsg(path) =>
        cmds := FileWritten(path);
      case GenerationResultMsg(result) =>
        cmds := GenerationResult(result);
      case DebugFileWrittenMsg(writeError) =>
        cmds := DebugLogFinished(writeError);
      case ErrMsg(error) =>
        err := Some(error);
        cmds := [];
    }

    /** A tick (src/tui.go:320-326). */
    method Tick() returns (cmds: seq<Cmd>)
      requires Valid()
      modifies this
      ensures Valid()
      ensures Snapshot() == TickStep(old(Snapshot())).next
      ensures cmds == TickStep(old(Snapshot())).cmds
    {
      cmds := [];
      if isGenerating {
        generationSeconds := generationSeconds + 1;
        status := GeneratingFor(generationSeconds);
        cmds := [TickCmd];
      }
    }

    /** A file has been read (src/tui.go:332-337). */
    method FileRead(content: string, path: string) returns (cmds: seq<Cmd>)
      requires Valid()
      modifies this
      ensures Valid()
      ensures Snapshot() == FileReadStep(old(Snapshot()), content, path).next
      ensures cmds == FileReadStep(old(Snapshot()), content, path).cmds
    {
      inputs := inputs[InputIdx := content];
      inputFilePath := path;
      status := LoadedFile(Base(path));
      state := Default;
      cmds := [ResetSuccessCmd];
    }

    /** The output has been saved (src/tui.go:339-342). */
    method FileWritten(path: string) returns (cmds: seq<Cmd>)
      requires Valid()
      modifies this
      ensures Valid()
      ensures Snapshot() == FileWrittenStep(old(Snapshot()), path).next
      ensures cmds == FileWrittenStep(old(Snapshot()), path).cmds
    {
      status := SavedTo(Base(path));
      state := Default;
      cmds := [ResetSuccessCmd];
    }

    /** A generation has ended (src/tui.go:344-354). */
    method GenerationResult(result: Result<string, string>) returns (cmds: seq<Cmd>)
      requires Valid()
      modifies this
      ensures Valid()
      ensures Snapshot() == GenerationResultStep(old(Snapshot()), result).next
      ensures cmds == GenerationResultStep(old(Snapshot()), result).cmds
    {
      isGenerating := false;
      match result
      case Failure(e) =>
        status := GenerationError(e);
        cmds := [ResetErrorCmd];
      case Success(text) =>
        status := GenerationComplete;
        inputs := inputs[OutputIdx := text];
        state := Default;
        cmds := [ResetSuccessCmd];
    }

    /** The debug log has been written (src/tui.go:356-363). */
    method DebugLogFinished(writeError: Option<string>) returns (cmds: seq<Cmd>)
      requires Valid()
      modifies this
      ensures Valid()
      ensures Snapshot() == DebugLogStep(old(Snapshot()), writeError).next
      ensures cmds == DebugLogStep(old(Snapshot()), writeError).cmds
    {
      if writeError.Some? {
        status := DebugLogError(writeError.value);
        cmds := [ResetErrorCmd];
      } else {
        status := DebugLogWritten;
        cmds := [ResetSuccessCmd];
      }
    }

    /** A key message: f12 and ctrl+c, then the handler of the current state (src/tui.go:281-317). */
    method UpdateKey(key: string, effects: KeyEffects) returns (cmds: seq<Cmd>)
      requires Valid()
      modifies this
      ensures Valid()
      ensures Snapshot() == KeyStep(old(Snapshot()), key, effects).next
      ensures cmds == KeyStep(old(Snapshot()), key, effects).cmds
    {
      if key == "f12" {
        cmds := SwitchMouse();
      } else if key == "ctrl+c" {
        cmds := [QuitCmd];
      } else {
        match state
        case FilePicker =>
          cmds := UpdateFilePicker(key, effects);
        case SaveFilepath =>
          cmds := UpdatePathInput(key, effects);
        case SelectModel =>
          cmds := UpdateListSelection(key, effects);
        case SelectQType =>
          cmds := UpdateListSelection(key, effects);
        case EnterSentences =>
          cmds := UpdateNumInput(key, effects);
        case Default =>
          cmds := UpdateDefault(key, effects);
      }
    }

    /** f12 (src/tui.go:283-290). */
    method SwitchMouse() returns (cmds: seq<Cmd>)
      requires Valid()
      modifies this
      ensures Valid()
      ensures Snapshot() == ToggleMouse(old(Snapshot())).next
      ensures cmds == ToggleMouse(old(Snapshot())).cmds
    {
      mouseEnabled := !mouseEnabled;
      if mouseEnabled {
        status := MouseEnabled;
        cmds := [ResetSuccessCmd, EnableMouseCmd];
      } else {
        status := MouseDisabled;
        cmds := [ResetSuccessCmd, DisableMouseCmd];
      }
    }

    /** The file picker (src/tui.go:296-309). */
    method UpdateFilePicker(key: string, effects: KeyEffects) returns (cmds: seq<Cmd>)
      requires Valid()
      modifies this
      ensures Valid()
      ensures Snapshot() == FilePickerStep(old(Snapshot()), key, effects).next
      ensures cmds == FilePickerStep(old(Snapshot()), key, effects).cmds
    {
      cmds := [];
      if key == "esc" {
        state := Default;
        status := FileSelectionCancelled;
        cmds := [ResetSuccessCmd];
      } else if effects.picked.Some? {
        state := Default;
        cmds := [ReadFileCmd(effects.picked.value)];
      }
    }

    /** `updateDefault` (src/tui.go:380-472). */
    method UpdateDefault(key: string, effects: KeyEffects) returns (cmds: seq<Cmd>)
      requires Valid() && state == Default
      modifies this
      ensures Valid()
      ensures Snapshot() == DefaultStep(old(Snapshot()), key, effects).next
      ensures cmds == DefaultStep(old(Snapshot()), key, effects).cmds
    {
      if key != "o" {
        oKeyPressCount := 0;
      }
      cmds := [];
      if key == "ctrl+z" {
        Undo();
      } else if key == "ctrl+y" {
        Redo();
      } else if key == "ctrl+o" {
        cmds := LoadWordFile(effects.wordFile);
      } else if key == "ctrl+s" {
        PromptSavePath();
      } else if key == "ctrl+g" {
        cmds := RequestGeneration();
      } else if key == "tab" {
        focused := (focused + 1) % 2;
        cmds := [BlinkCmd];
      } else {
        if key == "o" {
          oKeyPressCount := oKeyPressCount + 1;
          if oKeyPressCount >= 5 {
            oKeyPressCount := 0;
            return [WriteLogCmd];
          }
        }
        EditFocused(effects.edited);
      }
    }

    /** ctrl+z (src/tui.go:389-396). */
    method Undo()
      requires Valid()
      modifies this
      ensures Valid()
      ensures Snapshot() == UndoStep(old(Snapshot()))
    {
      var f := focused;
      var oldValue := inputs[f];
      var undo := undoHistory[f];
      if |undo| > 0 {
        var lastState := undo[|undo| - 1];
        undoHistory := undoHistory[f := undo[..|undo| - 1]];
        redoHistory := redoHistory[f := redoHistory[f] + [oldValue]];
        inputs := inputs[f := lastState];
      }
    }

    /** ctrl+y (src/tui.go:397-404). */
    method Redo()
      requires Valid()
      modifies this
      ensures Valid()
      ensures Snapshot() == RedoStep(old(Snapshot()))
    {
      var f := focused;
      var oldValue := inputs[f];
      var redo := redoHistory[f];
      if |redo| > 0 {
        var lastState := redo[|redo| - 1];
        redoHistory := redoHistory[f := redo[..|redo| - 1]];
        undoHistory := undoHistory[f := undoHistory[f] + [oldValue]];
        inputs := inputs[f := lastState];
      }
    }

    /** ctrl+o, given the outcome of reading word.txt (src/tui.go:405-417). */
    method LoadWordFile(wordFile: Result<string, string>) returns (cmds: seq<Cmd>)
      requires Valid()
      modifies this
      ensures Valid()
      ensures Snapshot() == LoadStep(old(Snapshot()), wordFile).next
      ensures cmds == LoadStep(old(Snapshot()), wordFile).cmds
    {
      match wordFile
      case Failure(e) =>
        status := WordFileError(e);
        cmds := [];
      case Success(content) =>
        inputFilePath := WordFile;
        inputs := inputs[InputIdx := content];
        state := Default;
        status := LoadedPath(WordFile);
        cmds := [ResetSuccessCmd];
    }

    /** ctrl+s (src/tui.go:419-428). */
    method PromptSavePath()
      requires Valid()
      modifies this
      ensures Valid()
      ensures Snapshot() == SaveStep(old(Snapshot()))
    {
      state := SaveFilepath;
      pathInput := SaveName(inputFilePath);
      status := EnterSavePath;
    }

    /** ctrl+g (src/tui.go:430-442). */
    method RequestGeneration() returns (cmds: seq<Cmd>)
      requires Valid()
      modifies this
      ensures Valid()
      ensures Snapshot() == GenerateKeyStep(old(Snapshot())).next
      ensures cmds == GenerateKeyStep(old(Snapshot())).cmds
    {
      if inputs[InputIdx] == "" {
        status := InputEmpty;
        return [ResetErrorCmd];
      }
      if apiKey == "" {
        status := ApiKeyMissing;
        return [ResetErrorCmd];
      }
      state := SelectModel;
      listItems := GenerationModels;
      cmds := [];
    }

    /**
     * The focused text area takes the value the widget reports; a change
     * records the old value for undo and drops the redo stack
     * (src/tui.go:458-465).
     */
    method EditFocused(newValue: string)
      requires Valid()
      modifies this
      ensures Valid()
      ensures Snapshot() == Edit(old(Snapshot()), newValue)
    {
      var f := focused;
      var oldValue := inputs[f];
      inputs := inputs[f := newValue];
      if newValue != oldValue {
        undoHistory := undoHistory[f := undoHistory[f] + [oldValue]];
        redoHistory := redoHistory[f := []];
      }
    }

    /** `updatePathInput` (src/tui.go:470-486). */
    method UpdatePathInput(key: string, effects: KeyEffects) returns (cmds: seq<Cmd>)
      requires Valid()
      modifies this
      ensures Valid()
      ensures Snapshot() == PathInputStep(old(Snapshot()), key, effects).next
      ensures cmds == PathInputStep(old(Snapshot()), key, effects).cmds
    {
      if key == "enter" {
        var path := pathInput;
        if path == "" {
          return [];
        }
        state := Default;
        status := Saving;
        return [WriteFileCmd(path, inputs[OutputIdx])];
      } else if key == "esc" {
        state := Default;
        status := SaveCancelled;
        return [ResetSuccessCmd];
      }
      pathInput := effects.edited;
      cmds := [];
    }

    /** `updateListSelection` (src/tui.go:488-540). */
    method UpdateListSelection(key: string, effects: KeyEffects) returns (cmds: seq<Cmd>)
      requires Valid() && (state == SelectModel || state == SelectQType)
      modifies this
      ensures Valid()
      ensures Snapshot() == ListSelectionStep(old(Snapshot()), key, effects).next
      ensures cmds == ListSelectionStep(old(Snapshot()), key, effects).cmds
    {
      cmds := [];
      if key == "w" || key == "ㅈ" || key == "s" || key == "ㄴ" {
        return;
      } else if key == "enter" {
        if effects.highlighted < |listItems| {
          var item := listItems[effects.highlighted];
          if state == SelectModel {
            ChooseModel(item);
          } else {
            cmds := ChooseQuestionType(item, effects.draws);
          }
        }
      } else if key == "esc" {
        cmds := Cancel();
      }
    }

    /** enter on a model (src/tui.go:497-506). */
    method ChooseModel(item: Item)
      requires Valid()
      modifies this
      ensures Valid()
      ensures Snapshot() == ChooseModelStep(old(Snapshot()), item)
    {
      selectedModel := item.id;
      state := SelectQType;
      listItems := QTypes;
      if item.desc == HighCost {
        status := HighCostWarning;
      }
    }

    /** enter on a question type (src/tui.go:507-529). */
    method ChooseQuestionType(item: Item, draws: seq<nat>) returns (cmds: seq<Cmd>)
      requires Valid()
      modifies this
      ensures Valid()
      ensures Snapshot() == ChooseQTypeStep(old(Snapshot()), item, draws).next
      ensures cmds == ChooseQTypeStep(old(Snapshot()), item, draws).cmds
    {
      selectedQType := item.id;
      if selectedQType == FillInBlank {
        state := EnterSentences;
        numInput := numSentences;
        status := EnterSentenceCount;
        cmds := [];
      } else {
        cmds := BeginGeneration(1, draws);
      }
    }

    /** esc while choosing how to generate (src/tui.go:532-536, 562-566). */
    method Cancel() returns (cmds: seq<Cmd>)
      requires Valid()
      modifies this
      ensures Valid()
      ensures Snapshot() == CancelGeneration(old(Snapshot())).next
      ensures cmds == CancelGeneration(old(Snapshot())).cmds
    {
      isGenerating, state, status := false, Default, GenerationCancelled;
      cmds := [ResetSuccessCmd];
    }

    /** `updateNumInput` (src/tui.go:542-570). */
    method UpdateNumInput(key: string, effects: KeyEffects) returns (cmds: seq<Cmd>)
      requires Valid() && state == EnterSentences
      modifies this
      ensures Valid()
      ensures Snapshot() == NumInputStep(old(Snapshot()), key, effects).next
      ensures cmds == NumInputStep(old(Snapshot()), key, effects).cmds
    {
      if key == "enter" {
        numSentences := numInput;
        cmds := BeginGeneration(Atoi(numSentences), effects.draws);
      } else if key == "esc" {
        cmds := Cancel();
      } else {
        numInput := effects.edited;
        cmds := [];
      }
    }

    /**
     * The start of a generation: the clock is reset, the vocabulary is
     * parsed and shuffled, and the generation and ticker commands are
     * returned (src/tui.go:515-528, 545-561).
     */
    method BeginGeneration(numSentences: int, draws: seq<nat>) returns (cmds: seq<Cmd>)
      requires Valid()
      modifies this
      ensures Valid()
      ensures Snapshot() == StartGeneration(old(Snapshot()), numSentences, draws).next
      ensures cmds == StartGeneration(old(Snapshot()), numSentences, draws).cmds
    {
      var entries := GenerationEntries(inputs[InputIdx], draws);
      cmds := SendGeneration(numSentences, entries);
    }

    /** The state and commands of a generation sent off for `entries` (src/tui.go:515-528, 547-561). */
    method SendGeneration(numSentences: int, entries: seq<VocabPair>) returns (cmds: seq<Cmd>)
      requires Valid()
      modifies this
      ensures Valid()
      ensures Snapshot() == Launch(old(Snapshot()), numSentences, entries).next
      ensures cmds == Launch(old(Snapshot()), numSentences, entries).cmds
    {
      cmds := [GenerateCmd(apiKey, selectedModel, entries, selectedQType, numSentences), TickCmd];
      state := Default;
      isGenerating := true;
      generationSeconds := 0;
      status := Generating;
    }
  }
}
