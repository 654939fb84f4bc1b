/** The assistant launcher `AIAssistantInterfaceV2`: a prompt box with feature
    toggles, a simulated file upload, and command categories whose
    suggestions fill the prompt. Its timers are modelled as separate
    methods that the environment calls later. */
module Launcher {
  import opened Common
  import opened Text

  /** The two kinds of simulated upload. */
  datatype FileType = AudioFile | DocumentFile

  /** An entry of the upload strip. */
  datatype LauncherFile = LauncherFile(id: string, name: string, kind: FileType, size: string)

  /** The types the simulated upload draws from. */
  const FileTypes: seq<FileType> := [AudioFile, DocumentFile]

  /** The names the simulated upload draws from. */
  const SampleNames: seq<string> := [
    "team-standup-recording.mp3",
    "client-presentation.m4a",
    "board-meeting-notes.pdf",
    "quarterly-review.wav",
    "product-demo.mp3"
  ]

  /** The file the upload timer adds. `typePick` and `namePick` stand for the
      two `Math.floor(Math.random() * length)` draws and `id` for the
      `Date.now()` stamp. */
  function SimulatedFile(id: string, typePick: nat, namePick: nat): (r: LauncherFile)
    requires typePick < |FileTypes| && namePick < |SampleNames|
    ensures r.id == id && r.name in SampleNames
    ensures r.kind == FileTypes[typePick] && r.name == SampleNames[namePick]
    ensures r.kind == AudioFile <==> r.size == "12.5 MB"
    ensures r.kind == DocumentFile <==> r.size == "2.1 MB"
  {
    var kind := FileTypes[typePick];
    LauncherFile(id, SampleNames[namePick], kind, if kind == AudioFile then "12.5 MB" else "2.1 MB")
  }

  /** `files.filter(file => file.id !== id)`. */
  function RemoveById(files: seq<LauncherFile>, id: string): (r: seq<LauncherFile>)
    ensures forall f :: f in r <==> f in files && f.id != id
    ensures |r| <= |files|
    decreases |files|
  {
    if |files| == 0 then []
    else (if files[0].id == id then [] else [files[0]]) + RemoveById(files[1..], id)
  }

  /** The filter keeps the order: it works on each part of a list separately. */
  lemma {:induction false} RemoveByIdAppend(a: seq<LauncherFile>, b: seq<LauncherFile>, id: string)
    ensures RemoveById(a + b, id) == RemoveById(a, id) + RemoveById(b, id)
    decreases |a|
  {
    if |a| > 0 {
      assert (a + b)[1..] == a[1..] + b;
      RemoveByIdAppend(a[1..], b, id);
    } else {
      assert a + b == b;
    }
  }

  /** Removing an id no file has changes nothing. */
  lemma {:induction false} RemoveByIdAbsent(files: seq<LauncherFile>, id: string)
    requires forall i :: 0 <= i < |files| ==> files[i].id != id
    ensures RemoveById(files, id) == files
    decreases |files|
  {
    if |files| > 0 {
      RemoveByIdAbsent(files[1..], id);
    }
  }

  /** Removing twice is removing once. */
  lemma RemoveByIdTwice(files: seq<LauncherFile>, id: string)
    ensures RemoveById(RemoveById(files, id), id) == RemoveById(files, id)
  {
    var r := RemoveById(files, id);
    forall i | 0 <= i < |r| ensures r[i].id != id {
      assert r[i] in r;
    }
    RemoveByIdAbsent(r, id);
  }

  /** The three command cards. */
  datatype Category = Meetings | Transcribe | Integrate

  /** A command card's click: it closes its own list when that list is open
      and opens it otherwise. */
  function ClickedCategory(active: Option<Category>, card: Category): (r: Option<Category>)
    ensures r == None <==> active == Some(card)
    ensures r != None ==> r == Some(card)
  {
    if active == Some(card) then None else Some(card)
  }

  /** Clicking the same card twice from a state where another card or no
      card is open closes the list again. */
  lemma ClickTwice(active: Option<Category>, card: Category)
    requires active != Some(card)
    ensures ClickedCategory(ClickedCategory(active, card), card) == None
  {
  }

  /** The five suggestions of each category. */
  function CategorySuggestions(c: Category): seq<string> {
    match c
    case Meetings => [
      "Upload my team standup recording",
      "Transcribe the client presentation from yesterday",
      "Generate summary for the product review meeting",
      "Extract action items from the board meeting",
      "Create meeting notes for the quarterly review"]
    case Transcribe => [
      "Convert audio to searchable text",
      "Identify speakers in the recording",
      "Generate timestamps for key topics",
      "Create a transcript with speaker labels",
      "Extract quotes and important statements"]
    case Integrate => [
      "Sync action items to Google Calendar",
      "Send summary to Slack channel",
      "Save transcript to Notion workspace",
      "Create Zapier automation workflow",
      "Schedule follow-up meetings in Teams"]
  }

  /** The three feature buttons. */
  datatype Feature = Search | AiAnalysis | SmartInsights

  /** All state of the launcher, as one value. */
  datatype LauncherState = LauncherState(
    inputValue: string,
    searchEnabled: bool,
    aiAnalysisEnabled: bool,
    smartInsightsEnabled: bool,
    uploadedFiles: seq<LauncherFile>,
    showUploadAnimation: bool,
    activeCommandCategory: Option<Category>,
    isProcessing: bool)

  /** Whether a feature button is on. */
  function Enabled(s: LauncherState, f: Feature): bool {
    match f
    case Search => s.searchEnabled
    case AiAnalysis => s.aiAnalysisEnabled
    case SmartInsights => s.smartInsightsEnabled
  }

  /** A feature button's click: its own flag flips, and no other flag or
      field changes. */
  function FlipFeature(s: LauncherState, f: Feature): (r: LauncherState)
    ensures Enabled(r, f) == !Enabled(s, f)
    ensures forall g :: g != f ==> Enabled(r, g) == Enabled(s, g)
    ensures r == s.(searchEnabled := r.searchEnabled,
                    aiAnalysisEnabled := r.aiAnalysisEnabled,
                    smartInsightsEnabled := r.smartInsightsEnabled)
  {
    match f
    case Search => s.(searchEnabled := !s.searchEnabled)
    case AiAnalysis => s.(aiAnalysisEnabled := !s.aiAnalysisEnabled)
    case SmartInsights => s.(smartInsightsEnabled := !s.smartInsightsEnabled)
  }

  /** Clicking a feature button twice restores the state. */
  lemma FlipFeatureTwice(s: LauncherState, f: Feature)
    ensures FlipFeature(FlipFeature(s, f), f) == s
  {
  }

  /** The state of the `AIAssistantInterfaceV2` component. */
  class AssistantLauncher {
    var inputValue: string
    var searchEnabled: bool
    var aiAnalysisEnabled: bool
    var smartInsightsEnabled: bool
    var uploadedFiles: seq<LauncherFile>
    var showUploadAnimation: bool
    var activeCommandCategory: Option<Category>
    var isProcessing: bool

    /** All fields as one value. */
    function State(): LauncherState
      reads this
    {
      LauncherState(inputValue, searchEnabled, aiAnalysisEnabled, smartInsightsEnabled,
                    uploadedFiles, showUploadAnimation, activeCommandCategory, isProcessing)
    }

    /** The launcher as first rendered: everything empty or off. */
    constructor ()
      ensures State() == LauncherState("", false, false, false, [], false, None, false)
    {
      inputValue := "";
      searchEnabled, aiAnalysisEnabled, smartInsightsEnabled := false, false, false;
      uploadedFiles := [];
      showUploadAnimation := false;
      activeCommandCategory := None;
      isProcessing := false;
    }

    /** The prompt box's change handler. */
    method SetInput(v: string)
      modifies this
      ensures State() == old(State()).(inputValue := v)
    {
      inputValue := v;
    }

    /** A feature button. */
    method ToggleFeature(f: Feature)
      modifies this
      ensures State() == FlipFeature(old(State()), f)
    {
      match f
      case Search => searchEnabled := !searchEnabled;
      case AiAnalysis => aiAnalysisEnabled := !aiAnalysisEnabled;
      case SmartInsights => smartInsightsEnabled := !smartInsightsEnabled;
    }

    /** `handleUploadFile`: shows the upload animation and starts the timer. */
    method StartUpload()
      modifies this
      ensures State() == old(State()).(showUploadAnimation := true)
    {
      showUploadAnimation := true;
    }

    /** The upload timer: exactly one simulated file is appended and the
        animation is hidden. */
    method FinishUpload(id: string, typePick: nat, namePick: nat)
      requires typePick < |FileTypes| && namePick < |SampleNames|
      modifies this
      ensures State() == old(State()).(uploadedFiles := old(uploadedFiles) + [SimulatedFile(id, typePick, namePick)],
                                       showUploadAnimation := false)
      ensures |uploadedFiles| == |old(uploadedFiles)| + 1
    {
      uploadedFiles := uploadedFiles + [SimulatedFile(id, typePick, namePick)];
      showUploadAnimation := false;
    }

    /** `handleRemoveFile(id)`: every file with that id goes, the rest stay in order. */
    method RemoveFile(id: string)
      modifies this
      ensures State() == old(State()).(uploadedFiles := RemoveById(old(uploadedFiles), id))
      ensures forall f :: f in uploadedFiles <==> f in old(uploadedFiles) && f.id != id
    {
      uploadedFiles := RemoveById(uploadedFiles, id);
    }

    /** A command card. */
    method ClickCategory(card: Category)
      modifies this
      ensures State() == old(State()).(activeCommandCategory := ClickedCategory(old(activeCommandCategory), card))
      ensures activeCommandCategory == None <==> old(activeCommandCategory) == Some(card)
    {
      activeCommandCategory := ClickedCategory(activeCommandCategory, card);
    }

    /** `handleCommandSelect(command)`: the prompt becomes the command and
        the category list closes. */
    method SelectCommand(command: string)
      modifies this
      ensures State() == old(State()).(inputValue := command, activeCommandCategory := None)
    {
      inputValue := command;
      activeCommandCategory := None;
    }

    /** `handleSendMessage`: a blank prompt is ignored; otherwise processing
        starts and the timer is set. `started` tells whether it was. */
    method SendMessage() returns (started: bool)
      modifies this
      ensures started <==> !IsBlank(old(inputValue))
      ensures started ==> State() == old(State()).(isProcessing := true)
      ensures !started ==> State() == old(State())
    {
      started := !IsBlank(inputValue);
      if started {
        isProcessing := true;
      }
    }

    /** The processing timer: clears the flag and the prompt. */
    method FinishProcessing()
      modifies this
      ensures State() == old(State()).(isProcessing := false, inputValue := "")
    {
      isProcessing := false;
      inputValue := "";
    }
  }
}
