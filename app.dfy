/**
 * The application's handlers as state machines. Each React component that
 * keeps state is a class whose fields are its `useState` slots; each handler
 * is a method that performs the component's state writes in order. Awaited
 * service calls are replaced by their outcomes, passed in, and the clock
 * readings that mint ids and timestamps are passed in too.
 */
module UnMuteApp {
  import opened Js
  import opened Complaints
  import opened GeminiService
  import opened AudioUtils

  datatype ViewMode = Student | Admin

  /** The four roles the login form offers. */
  datatype AdminRole = HostelWarden | FacultyMember | AntiRaggingCommittee | StudentCouncil

  datatype AdminProfile = AdminProfile(name: string, role: AdminRole, department: string)

  /** The login button is enabled, and its click handler acts, only with a name and a department. */
  predicate CanLogIn(form: AdminProfile) {
    form.name != [] && form.department != []
  }

  const DayMillis := 86400000

  /** The text of the sample complaint. */
  const SampleContent: string :=
    "Seniors in the hostel block B are forcing freshers to complete their assignments at night. It's happening every day after 11 PM."

  /** The one complaint the application starts with, dated a day before start-up. */
  function InitialComplaints(startTime: int): (list: seq<Complaint>)
  {
    [Complaint("1", SampleContent, startTime - DayMillis, ComplaintStatus.Resolved, "Exclusion", false, None, None)]
  }

  /** The top-level component: the complaint store, the signed-in admin and the view. */
  class App {
    var complaints: seq<Complaint>
    var adminProfile: Option<AdminProfile>
    var viewMode: ViewMode

    constructor (startTime: int)
      ensures complaints == InitialComplaints(startTime)
      ensures adminProfile.None? && viewMode == Student
    {
      complaints := InitialComplaints(startTime);
      adminProfile := None;
      viewMode := Student;
    }

    /** The synchronous half of `addComplaint`: build the record and prepend it. */
    method InsertComplaint(id: string, timestamp: int, draft: Draft) returns (created: Complaint)
      modifies this`complaints
      ensures created == NewComplaint(id, timestamp, draft)
      ensures complaints == Prepend(old(complaints), created)
    {
      created := NewComplaint(id, timestamp, draft);
      complaints := Prepend(complaints, created);
    }

    /** The second half of `addComplaint`: patch the category once classification settles. */
    method ApplyCategory(id: string, category: string)
      modifies this`complaints
      ensures complaints == PatchCategory(old(complaints), id, category)
    {
      complaints := PatchCategory(complaints, id, category);
    }

    /**
     * `addComplaint` run to completion with nothing in between: the new
     * record is prepended, then every entry with its id gets the category.
     */
    method AddComplaint(id: string, timestamp: int, draft: Draft, categorization: Outcome)
      modifies this`complaints
      ensures complaints == PatchCategory(Prepend(old(complaints), NewComplaint(id, timestamp, draft)),
                                          id, CategorizeComplaint(categorization))
      ensures complaints[0] == NewComplaint(id, timestamp, draft).(category := CategorizeComplaint(categorization))
    {
      var created := InsertComplaint(id, timestamp, draft);
      var category := CategorizeComplaint(categorization);
      ApplyCategory(created.id, category);
    }

    method ToggleResolution(id: string)
      modifies this`complaints
      ensures complaints == Complaints.ToggleResolution(old(complaints), id)
    {
      complaints := Complaints.ToggleResolution(complaints, id);
    }

    /**
     * `updateAnalysis`: ask for the analysis of the complaint's text (its
     * outcome is the parameter) and store it on every entry with the id.
     */
    method UpdateAnalysis(id: string, analysis: Outcome)
      modifies this`complaints
      ensures complaints == SetAnalysis(old(complaints), id, AnalyzeComplaintDeeply(analysis))
    {
      var text := AnalyzeComplaintDeeply(analysis);
      complaints := SetAnalysis(complaints, id, text);
    }

    /** `AdminLogin`'s click handler calling `setAdminProfile`. */
    method LogIn(form: AdminProfile)
      modifies this`adminProfile
      ensures adminProfile == if CanLogIn(form) then Some(form) else old(adminProfile)
    {
      if form.name != [] && form.department != [] {
        adminProfile := Some(form);
      }
    }

    method LogOut()
      modifies this`adminProfile
      ensures adminProfile.None?
    {
      adminProfile := None;
    }
  }

  const AudioFailureNotice := "Failed to process audio."

  /** The student's report form. */
  class StudentView {
    var content: string
    var submitted: bool
    var isProcessingAudio: bool
    /** The `alert` notices shown so far. */
    var alerts: seq<string>

    constructor ()
      ensures content == [] && !submitted && !isProcessingAudio && alerts == []
    {
      content := [];
      submitted := false;
      isProcessingAudio := false;
      alerts := [];
    }

    /** `handleSubmit`: blank text is ignored; otherwise it is filed as a text complaint. */
    method HandleSubmit(app: App, id: string, timestamp: int, categorization: Outcome)
      modifies this, app`complaints
      ensures IsBlank(old(content)) ==>
                app.complaints == old(app.complaints) && content == old(content) && submitted == old(submitted)
      ensures !IsBlank(old(content)) ==>
                && app.complaints == PatchCategory(
                     Prepend(old(app.complaints), NewComplaint(id, timestamp, Draft(Some(old(content)), Some(false), None))),
                     id, CategorizeComplaint(categorization))
                && submitted && content == []
      ensures isProcessingAudio == old(isProcessingAudio) && alerts == old(alerts)
    {
      if IsBlank(content) {
        return;
      }
      app.AddComplaint(id, timestamp, Draft(Some(content), Some(false), None), categorization);
      submitted := true;
      content := [];
    }

    /**
     * `handleAudio`: transcribe the recording; a failed transcription files
     * nothing and shows a notice, a successful one files the transcript as
     * an audio complaint.
     */
    method HandleAudio(app: App, read: ReadOutcome, transcription: Outcome,
                       id: string, timestamp: int, categorization: Outcome)
      modifies this, app`complaints
      ensures TranscribeAudio(read, transcription).Rejected? ==>
                && app.complaints == old(app.complaints)
                && alerts == old(alerts) + [AudioFailureNotice]
                && submitted == old(submitted)
      ensures TranscribeAudio(read, transcription).Fulfilled? ==>
                var text := TranscribeAudio(read, transcription).value;
                && app.complaints == PatchCategory(
                     Prepend(old(app.complaints), NewComplaint(id, timestamp, Draft(Some(text), Some(true), Some(text)))),
                     id, CategorizeComplaint(categorization))
                && alerts == old(alerts)
                && submitted
      ensures !isProcessingAudio && content == old(content)
    {
      isProcessingAudio := true;
      var transcript := TranscribeAudio(read, transcription);
      if transcript.Fulfilled? {
        var text := transcript.value;
        app.AddComplaint(id, timestamp, Draft(Some(text), Some(true), Some(text)), categorization);
        submitted := true;
      } else {
        alerts := alerts + [AudioFailureNotice];
      }
      isProcessingAudio := false;
    }
  }

  /** The admin dashboard's own state. */
  class AdminDashboard {
    var filter: StatusFilter
    var searchQuery: string
    var searchResults: Option<SearchResult>
    var searching: bool
    /** Complaints whose deep analysis is in flight. */
    var analyzingIds: set<string>
    /** Whether the shared playback context has been created. */
    var audioContextCreated: bool

    constructor ()
      ensures filter == All && searchQuery == [] && searchResults.None? && !searching
      ensures analyzingIds == {} && !audioContextCreated
    {
      filter := All;
      searchQuery := [];
      searchResults := None;
      searching := false;
      analyzingIds := {};
      audioContextCreated := false;
    }

    /** The complaints the list shows. */
    function Filtered(app: App): (shown: seq<Complaint>)
      reads this, app
      ensures forall c :: c in shown <==> c in app.complaints && Matches(filter, c)
    {
      FilterMembers(app.complaints, filter);
      FilterComplaints(app.complaints, filter)
    }

    /** The "Analyze Severity" button is disabled while that complaint is being analysed. */
    predicate AnalyzeDisabled(id: string)
      reads this
    {
      id in analyzingIds
    }

    /** `handleSearch`: an empty query does nothing; otherwise the results replace the old ones. */
    method HandleSearch(grounding: Outcome)
      modifies this`searching, this`searchResults
      ensures searchQuery == [] ==> searchResults == old(searchResults) && searching == old(searching)
      ensures searchQuery != [] ==> searchResults == Some(GetGroundingResources(grounding)) && !searching
    {
      if searchQuery == [] {
        return;
      }
      searching := true;
      var results := GetGroundingResources(grounding);
      searchResults := Some(results);
      searching := false;
    }

    /** The first write of `handleDeepAnalysis`: mark the complaint as in flight. */
    method BeginDeepAnalysis(id: string)
      modifies this`analyzingIds
      ensures analyzingIds == old(analyzingIds) + {id}
      ensures AnalyzeDisabled(id)
    {
      analyzingIds := analyzingIds + {id};
    }

    /** The last write of `handleDeepAnalysis`: clear the mark, whatever the analysis gave. */
    method EndDeepAnalysis(id: string)
      modifies this`analyzingIds
      ensures analyzingIds == old(analyzingIds) - {id}
      ensures !AnalyzeDisabled(id)
    {
      analyzingIds := analyzingIds - {id};
    }

    /**
     * `handleDeepAnalysis` run to completion: the complaint is marked, its
     * analysis stored, and the mark cleared, leaving other marks as they were.
     */
    method HandleDeepAnalysis(app: App, c: Complaint, analysis: Outcome)
      modifies this`analyzingIds, app`complaints
      ensures app.complaints == SetAnalysis(old(app.complaints), c.id, AnalyzeComplaintDeeply(analysis))
      ensures analyzingIds == old(analyzingIds) - {c.id}
    {
      BeginDeepAnalysis(c.id);
      app.UpdateAnalysis(c.id, analysis);
      EndDeepAnalysis(c.id);
    }

    /**
     * `handleSpeak`: create the playback context on first use, ask for the
     * speech, and play it when audio came back. The result is what
     * `playPCMData` did, or `None` when it was not called.
     */
    method HandleSpeak(speech: Outcome, atob: string -> Base64Decoding) returns (played: Option<Playback>)
      modifies this`audioContextCreated
      ensures audioContextCreated
      ensures var audio := GenerateSpeech(speech);
              played == if audio.Some? && audio.value != [] then Some(PlaybackResult(audio.value, atob)) else None
    {
      if !audioContextCreated {
        audioContextCreated := true;
      }
      var base64Audio := GenerateSpeech(speech);
      played := None;
      if base64Audio.Some? && base64Audio.value != [] {
        var playback := PlayPcmData(base64Audio.value, atob);
        played := Some(playback);
      }
    }
  }

  /** What `playPCMData` does with a base64 payload, given the browser's `atob`. */
  function PlaybackResult(base64Audio: string, atob: string -> Base64Decoding): (playback: Playback)
    ensures atob(base64Audio).InvalidBase64? ==> playback == Swallowed(InvalidCharacterError)
    ensures atob(base64Audio).Binary? ==> playback == PlaybackOf(atob(base64Audio).binary)
    ensures playback.Played? <==>
              atob(base64Audio).Binary? && |atob(base64Audio).binary| % 2 == 0 && |atob(base64Audio).binary| > 0
  {
    match atob(base64Audio)
    case InvalidBase64 => Swallowed(InvalidCharacterError)
    case Binary(binary) => PlaybackOf(binary)
  }

  datatype ChatRole = User | Model

  datatype ChatMessage = ChatMessage(id: string, role: ChatRole, text: string)

  /** The role string the SDK expects. */
  function RoleName(role: ChatRole): (name: string) {
    match role
    case User => "user"
    case Model => "model"
  }

  /** `messages.map(m => ({role: m.role, parts: [{text: m.text}]}))`. */
  function History(messages: seq<ChatMessage>): (history: seq<HistoryEntry>)
    ensures |history| == |messages|
    ensures forall i :: 0 <= i < |messages| ==>
              history[i] == HistoryEntry(RoleName(messages[i].role), [TextPart(messages[i].text)])
  {
    seq(|messages|, i requires 0 <= i < |messages| =>
      HistoryEntry(RoleName(messages[i].role), [TextPart(messages[i].text)]))
  }

  /** The history of a longer conversation extends the history of its start, entry for entry. */
  lemma HistoryAppend(a: seq<ChatMessage>, b: seq<ChatMessage>)
    ensures History(a + b) == History(a) + History(b)
  {
    var h := History(a + b);
    forall i | 0 <= i < |a + b| ensures h[i] == (History(a) + History(b))[i] {
      if i < |a| {
        assert (a + b)[i] == a[i];
      } else {
        assert (a + b)[i] == b[i - |a|];
      }
    }
  }

  /** What `getChatResponse` is called with. */
  datatype ChatRequest = ChatRequest(history: seq<HistoryEntry>, message: string)

  const Greeting := "Hi! I am here to help. Ask me about anti-ragging laws or how to stay safe."
  const ChatErrorText := "Error"

  /** The assistant's message text: the reply, or "Error" when it is missing or empty. */
  function ReplyText(outcome: Outcome): (text: string)
    ensures text != []
    ensures outcome.Threw? ==> text == ChatApology
    ensures outcome.Returned? && outcome.response.text.Some? && outcome.response.text.value != [] ==>
              text == outcome.response.text.value
    ensures outcome.Returned? && (outcome.response.text.None? || outcome.response.text.value == []) ==>
              text == ChatErrorText
  {
    OrElse(GetChatResponse(outcome), ChatErrorText)
  }

  /** The chat assistant's state. */
  class ChatBot {
    var isOpen: bool
    var messages: seq<ChatMessage>
    var input: string
    var loading: bool

    constructor ()
      ensures messages == [ChatMessage("0", Model, Greeting)]
      ensures !isOpen && input == [] && !loading
    {
      isOpen := false;
      messages := [ChatMessage("0", Model, Greeting)];
      input := [];
      loading := false;
    }

    /** The send button is disabled while a reply is awaited or the input is blank. */
    predicate SendDisabled()
      reads this
    {
      loading || IsBlank(input)
    }

    /**
     * `handleSend`: blank input is ignored. Otherwise the user's message is
     * appended, the request carries the history before it, and the reply
     * (or "Error") is appended after it.
     */
    method HandleSend(userId: string, modelId: string, reply: Outcome) returns (request: Option<ChatRequest>)
      modifies this`messages, this`input, this`loading
      ensures IsBlank(old(input)) ==>
                request.None? && messages == old(messages) && input == old(input) && loading == old(loading)
      ensures !IsBlank(old(input)) ==>
                && request == Some(ChatRequest(History(old(messages)), old(input)))
                && messages == old(messages) + [ChatMessage(userId, User, old(input)),
                                                ChatMessage(modelId, Model, ReplyText(reply))]
                && input == [] && !loading
    {
      if IsBlank(input) {
        return None;
      }
      var userMsg := ChatMessage(userId, User, input);
      var history := History(messages);
      messages := messages + [userMsg];
      input := [];
      loading := true;
      request := Some(ChatRequest(history, userMsg.text));
      var modelMsg := ChatMessage(modelId, Model, ReplyText(reply));
      messages := messages + [modelMsg];
      loading := false;
    }
  }
}
