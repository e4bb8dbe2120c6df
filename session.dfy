/** The controller of `App.js`: the state the component keeps, the loading
    routine `loadRessourcen` behind its one-shot `onnxRuntimeInitialized`
    latch, and `handlePredict`.

    The ONNX runtime, `fetch` and `session.run` are not modelled; their
    outcomes arrive as parameters.  `loadRessourcen` is cut at its two
    `await`s: `StartLoading` is the effect up to the first one, `ModelLoaded`
    resumes after the model is created, `CatalogLoaded` after the song
    library has been fetched and parsed.  A `handlePredict` call is one
    atomic step.

    Each step is a function on `AppState` (the values of the component's
    state hooks), which the lemmas speak about, and a method of
    `MoodMelodyApp` (the same state as fields, updated setter by setter,
    as the source does) proved to perform it. */
module Session {
  import opened Wrappers
  import opened Songs
  import opened Recommend
  import opened JsText

  /** Where the pending continuation of `loadRessourcen` waits. */
  datatype LoadStep = NotStarted | AwaitingModel | AwaitingCatalog | Settled

  /** What `ort.InferenceSession.create` yields; only its input and output
      names are used. */
  datatype InferenceSession = InferenceSession(inputName: string, outputName: string)

  /** Why the song library could not be had: `fetch` rejected, a status
      outside 200-299 (`!response.ok`), or a body `response.json()` could
      not parse. */
  datatype FetchFailure =
    | Rejected(message: string)
    | BadStatus(status: nat)
    | Unparsable(message: string)

  /** The outcome of `fetch(dataPath)` and `response.json()`: the request
      rejected, or a response with its status and the parsed body (or the
      parser's error). */
  datatype CatalogFetch =
    | FetchRejected(message: string)
    | Response(status: nat, body: Result<seq<Song>, string>)

  /** The outcome of `session.run`: the `data` of the requested output
      tensor (empty when the tensor or its data is missing), or an
      exception's message. */
  datatype RunOutcome = Output(data: seq<string>) | Thrown(message: string)

  /** One message the page shows in its error line.  `error` holds the
      messages in the order they were set; the text on the page is
      `ErrorText` of them. */
  datatype Notice =
    | NoSession
    | StillLoading
    | BlankInput
    | NoVibe
    | ModelLoadFailed(message: string)
    | CatalogLoadFailed(failure: FetchFailure)
    | PredictionFailed(message: string)

  /** The status line shown while loading; `NoInfo` is the empty string. */
  datatype Info =
    | NoInfo
    | Initializing
    | LoadingModel
    | ModelLoadedLoadingSongs
    | LoadingLibrary
    | ReadyToDiscover

  /** The values of the component's state hooks and of its one ref. */
  datatype AppState = AppState(
    session: Option<InferenceSession>,
    inputText: string,
    predictedMoodResult: string,
    isLoadingModel: bool,
    isLoadingSongData: bool,
    songData: seq<Song>,
    popular: seq<Song>,
    random: seq<Song>,
    error: seq<Notice>,
    infoMessage: Info,
    initialized: bool,
    loadStep: LoadStep)

  /** What `handlePredict` shows as the mood while `session.run` is
      pending. */
  const FindingVibe := "Finding your vibe..."

  /** The `Error` thrown for a response that is not ok. */
  function FetchFailureMessage(f: FetchFailure): string
  {
    match f
    case Rejected(message) => message
    case BadStatus(status) => "HTTP error! status: " + NatToString(status)
    case Unparsable(message) => message
  }

  /** The wording of each message, as the source spells it. */
  function Text(n: Notice): (r: string)
    ensures r != ""
  {
    match n
    case NoSession => "AI Session not loaded. Please wait or refresh."
    case StillLoading => "Resources are still loading. Please wait."
    case BlankInput => "Please describe your feeling first!"
    case NoVibe => "Couldn't quite catch that vibe. Try rephrasing?"
    case ModelLoadFailed(message) =>
      "Failed to load AI model: " + message
        + ". Please ensure pipeline.onnx is in public/ and wasm files are accessible."
    case CatalogLoadFailed(failure) =>
      "Failed to load song data: " + FetchFailureMessage(failure) + "."
    case PredictionFailed(message) => "Prediction error: " + message + "."
  }

  /** The error line: the messages joined by single spaces. */
  function ErrorText(notices: seq<Notice>): (r: string)
    ensures r == "" <==> notices == []
  {
    if notices == [] then ""
    else if |notices| == 1 then Text(notices[0])
    else ErrorText(notices[..|notices| - 1]) + " " + Text(notices[|notices| - 1])
  }

  function InfoText(i: Info): string {
    match i
    case NoInfo => ""
    case Initializing => "Initializing..."
    case LoadingModel => "Loading AI model..."
    case ModelLoadedLoadingSongs => "AI Model loaded. Loading song data..."
    case LoadingLibrary => "Loading song library..."
    case ReadyToDiscover => "Ready to discover your vibe!"
  }

  /** The state the hooks start with. */
  function Initial(): AppState {
    AppState(None, "", "", true, true, [], [], [], [], Initializing, false, NotStarted)
  }

  /** The page shows the text box and the button exactly in this state. */
  predicate Ready(s: AppState) {
    s.session.Some? && !s.isLoadingModel && !s.isLoadingSongData
  }

  /** What holds of every state the component can reach. */
  ghost predicate Consistent(s: AppState) {
    && (s.loadStep == NotStarted <==> !s.initialized)
    && (s.loadStep == NotStarted || s.loadStep == AwaitingModel ==>
          s.isLoadingModel && s.isLoadingSongData && s.session.None?)
    && (s.loadStep == AwaitingCatalog ==>
          !s.isLoadingModel && s.isLoadingSongData && s.session.Some?)
    && (s.loadStep == Settled ==> !s.isLoadingModel && !s.isLoadingSongData)
    && (s.loadStep != Settled ==> s.songData == [])
    && (s.session.None? ==> s.songData == [])
    && |s.popular| <= MaxPopularRecommendations
    && |s.random| <= MaxRandomRecommendations
    && SortedByPopularity(s.popular)
    && (forall x :: x in s.popular ==> x in s.songData && MoodMatches(x, s.predictedMoodResult))
    && (forall x :: x in s.random ==> x in s.songData && MoodMatches(x, s.predictedMoodResult))
  }

  // ---------------------------------------------------------------------
  // The steps
  // ---------------------------------------------------------------------

  /** The effect: start `loadRessourcen` unless the latch is already set. */
  function StartLoading(s: AppState): (t: AppState)
    ensures t.initialized
    ensures s.initialized ==> t == s
  {
    if s.initialized then s
    else s.(isLoadingModel := true, isLoadingSongData := true,
            infoMessage := LoadingModel, loadStep := AwaitingModel,
            initialized := true)
  }

  /** `loadRessourcen` after `ort.InferenceSession.create` settles.  A
      failure ends the routine: the catalogue is never requested. */
  function ModelLoaded(s: AppState, created: Result<InferenceSession, string>): AppState
    requires s.loadStep == AwaitingModel
  {
    match created
    case Success(session) =>
      s.(session := Some(session), isLoadingModel := false,
         infoMessage := LoadingLibrary, loadStep := AwaitingCatalog)
    case Failure(message) =>
      s.(error := [ModelLoadFailed(message)], isLoadingModel := false,
         isLoadingSongData := false, infoMessage := NoInfo, loadStep := Settled)
  }

  /** The songs of a fetch, or why there are none. */
  function FetchedSongs(fetched: CatalogFetch): (r: Result<seq<Song>, FetchFailure>)
    ensures r.Success? <==> fetched.Response? && 200 <= fetched.status <= 299 && fetched.body.Success?
    ensures r.Success? ==> r.value == fetched.body.value
    ensures fetched.FetchRejected? ==> r == Failure(Rejected(fetched.message))
    ensures fetched.Response? && !(200 <= fetched.status <= 299) ==> r == Failure(BadStatus(fetched.status))
    ensures fetched.Response? && 200 <= fetched.status <= 299 && fetched.body.Failure? ==>
              r == Failure(Unparsable(fetched.body.error))
  {
    match fetched
    case FetchRejected(message) => Failure(Rejected(message))
    case Response(status, body) =>
      if !(200 <= status <= 299) then Failure(BadStatus(status))
      else match body
        case Success(data) => Success(data)
        case Failure(message) => Failure(Unparsable(message))
  }

  /** `loadRessourcen` after the song library has been fetched.  The
      failure message is appended to the error already shown. */
  function CatalogLoaded(s: AppState, fetched: CatalogFetch): AppState
    requires s.loadStep == AwaitingCatalog
  {
    match FetchedSongs(fetched)
    case Success(data) =>
      s.(songData := data, infoMessage := ReadyToDiscover,
         isLoadingSongData := false, loadStep := Settled)
    case Failure(failure) =>
      s.(error := s.error + [CatalogLoadFailed(failure)], infoMessage := NoInfo,
         isLoadingSongData := false, loadStep := Settled)
  }

  /** The timer set after a successful load, three seconds on. */
  function InfoTimerFired(s: AppState): AppState {
    s.(infoMessage := NoInfo)
  }

  /** `handleInputChange`. */
  function InputChanged(s: AppState, text: string): AppState {
    s.(inputText := text)
  }

  /** `handlePredict`, with `outcome` standing for `session.run` and `draws`
      for the random numbers of the shuffle. */
  function Predict(s: AppState, outcome: RunOutcome, draws: seq<nat>): AppState
    requires |s.songData| <= |draws|
  {
    if s.session.None? then s.(error := [NoSession])
    else if s.isLoadingSongData || s.isLoadingModel then s.(error := [StillLoading])
    else if Trim(s.inputText) == [] then
      s.(error := [BlankInput], predictedMoodResult := "", popular := [], random := [])
    else Applied(Cleared(s), outcome, draws)
  }

  /** The start of the `try` block of `handlePredict`: the error, the
      message and both lists cleared, the mood showing that a prediction is
      under way. */
  function Cleared(s: AppState): AppState {
    s.(error := [], infoMessage := NoInfo, predictedMoodResult := FindingVibe,
       popular := [], random := [])
  }

  /** The rest of the `try` block once `session.run` has settled, and its
      `catch`. */
  function Applied(s: AppState, outcome: RunOutcome, draws: seq<nat>): AppState
    requires |s.songData| <= |draws|
  {
    match outcome
    case Output(data) =>
      if |data| > 0 then
        var picks := Recommendation(data[0], s.songData, draws);
        s.(predictedMoodResult := data[0], popular := picks.popular, random := picks.random)
      else
        s.(error := [NoVibe], predictedMoodResult := "")
    case Thrown(message) =>
      s.(error := [PredictionFailed(message)], predictedMoodResult := "",
         popular := [], random := [])
  }

  /** Everything that can happen to the component: the effect running
      (again on every remount), the two `await`s of `loadRessourcen`
      settling, the timer of a successful load firing, the user typing,
      and a click on the button. */
  datatype Event =
    | Mounted
    | ModelSettled(created: Result<InferenceSession, string>)
    | CatalogSettled(fetched: CatalogFetch)
    | InfoTimerExpired
    | Typed(text: string)
    | PredictClicked(outcome: RunOutcome, draws: seq<nat>)

  /** An `await` resumes only where the routine waits for it; a click
      brings one draw per catalogue song for the shuffle. */
  predicate Enabled(s: AppState, e: Event) {
    match e
    case ModelSettled(_) => s.loadStep == AwaitingModel
    case CatalogSettled(_) => s.loadStep == AwaitingCatalog
    case PredictClicked(_, draws) => |s.songData| <= |draws|
    case _ => true
  }

  function Step(s: AppState, e: Event): AppState
    requires Enabled(s, e)
  {
    match e
    case Mounted => StartLoading(s)
    case ModelSettled(created) => ModelLoaded(s, created)
    case CatalogSettled(fetched) => CatalogLoaded(s, fetched)
    case InfoTimerExpired => InfoTimerFired(s)
    case Typed(text) => InputChanged(s, text)
    case PredictClicked(outcome, draws) => Predict(s, outcome, draws)
  }

  /** The state after `events`, or `None` if one of them cannot happen
      where it comes. */
  function Run(s: AppState, events: seq<Event>): Option<AppState>
    decreases |events|
  {
    if events == [] then Some(s)
    else if Enabled(s, events[0]) then Run(Step(s, events[0]), events[1..])
    else None
  }

  // ---------------------------------------------------------------------
  // What the steps promise
  // ---------------------------------------------------------------------

  /** Appending a message to the error line is the source's functional
      update: the new text follows the old one after a space, or stands
      alone when nothing was shown. */
  lemma {:induction false} ErrorTextAppend(previous: seq<Notice>, n: Notice)
    ensures ErrorText(previous + [n])
         == if ErrorText(previous) != "" then ErrorText(previous) + " " + Text(n) else Text(n)
  {
    if previous != [] {
      assert (previous + [n])[..|previous|] == previous;
    }
  }

  /** The error line set after a failed catalogue load, in full. */
  lemma CatalogErrorText(previous: seq<Notice>, failure: FetchFailure)
    ensures var failed := "Failed to load song data: " + FetchFailureMessage(failure) + ".";
            ErrorText(previous + [CatalogLoadFailed(failure)])
              == if ErrorText(previous) != "" then ErrorText(previous) + " " + failed else failed
  {
    ErrorTextAppend(previous, CatalogLoadFailed(failure));
  }

  lemma InitialConsistent()
    ensures Consistent(Initial()) && !Ready(Initial())
  {
  }

  /** The latch: starting again changes nothing, so the resources are
      loaded once however often the effect runs. */
  lemma StartLoadingOnce(s: AppState)
    ensures StartLoading(StartLoading(s)) == StartLoading(s)
    ensures !s.initialized ==> StartLoading(s).loadStep == AwaitingModel
  {
  }

  lemma StartLoadingKeepsConsistent(s: AppState)
    requires Consistent(s)
    ensures Consistent(StartLoading(s))
  {
  }

  lemma ModelLoadedKeepsConsistent(s: AppState, created: Result<InferenceSession, string>)
    requires Consistent(s) && s.loadStep == AwaitingModel
    ensures Consistent(ModelLoaded(s, created))
  {
  }

  lemma CatalogLoadedKeepsConsistent(s: AppState, fetched: CatalogFetch)
    requires Consistent(s) && s.loadStep == AwaitingCatalog
    ensures Consistent(CatalogLoaded(s, fetched))
  {
  }

  lemma InfoTimerFiredKeepsConsistent(s: AppState)
    requires Consistent(s)
    ensures Consistent(InfoTimerFired(s))
  {
  }

  lemma InputChangedKeepsConsistent(s: AppState, text: string)
    requires Consistent(s)
    ensures Consistent(InputChanged(s, text))
  {
  }

  lemma PredictKeepsConsistent(s: AppState, outcome: RunOutcome, draws: seq<nat>)
    requires Consistent(s) && |s.songData| <= |draws|
    ensures Consistent(Predict(s, outcome, draws))
  {
    if Ready(s) && Trim(s.inputText) != [] {
      AppliedKeepsConsistent(Cleared(s), outcome, draws);
    }
  }

  lemma AppliedKeepsConsistent(s: AppState, outcome: RunOutcome, draws: seq<nat>)
    requires Consistent(s) && |s.songData| <= |draws| && s.popular == [] && s.random == []
    ensures Consistent(Applied(s, outcome, draws))
  {
  }

  lemma StepKeepsConsistent(s: AppState, e: Event)
    requires Consistent(s) && Enabled(s, e)
    ensures Consistent(Step(s, e))
  {
    match e
    case Mounted => StartLoadingKeepsConsistent(s);
    case ModelSettled(created) => ModelLoadedKeepsConsistent(s, created);
    case CatalogSettled(fetched) => CatalogLoadedKeepsConsistent(s, fetched);
    case InfoTimerExpired => InfoTimerFiredKeepsConsistent(s);
    case Typed(text) => InputChangedKeepsConsistent(s, text);
    case PredictClicked(outcome, draws) => PredictKeepsConsistent(s, outcome, draws);
  }

  lemma {:induction false} RunKeepsConsistent(s: AppState, events: seq<Event>)
    requires Consistent(s)
    ensures Run(s, events).Some? ==> Consistent(Run(s, events).value)
    decreases |events|
  {
    if events != [] && Enabled(s, events[0]) {
      StepKeepsConsistent(s, events[0]);
      RunKeepsConsistent(Step(s, events[0]), events[1..]);
    }
  }

  /** Every state the component can reach from its initial one is
      consistent; in particular the page is interactive only after both
      loads have settled, and a recommended song is always a song of the
      loaded library matching the mood shown. */
  lemma ReachableStatesConsistent(events: seq<Event>)
    ensures Run(Initial(), events).Some? ==> Consistent(Run(Initial(), events).value)
  {
    InitialConsistent();
    RunKeepsConsistent(Initial(), events);
  }

  /** The page becomes interactive only once both loads have settled and
      the model is there. */
  lemma ReadyMeansSettled(s: AppState)
    requires Consistent(s) && Ready(s)
    ensures s.loadStep == Settled && s.initialized
  {
  }

  /** A model that fails to load ends the loading: the song library is
      never requested (no step from here reaches the catalogue), nothing is
      loaded, and every prediction is refused for want of a session. */
  lemma ModelFailureStopsLoading(message: string, outcome: RunOutcome, draws: seq<nat>)
    ensures var s := ModelLoaded(StartLoading(Initial()), Failure(message));
            && s.loadStep == Settled && s.songData == [] && s.session.None? && !Ready(s)
            && s.error == [ModelLoadFailed(message)]
            && Predict(s, outcome, draws) == s.(error := [NoSession])
  {
  }

  /** Nothing retries a failed model load: once loading has settled without
      a session, no sequence of events brings one, and the page never
      becomes interactive. */
  lemma {:induction false} ModelFailureIsFinal(s: AppState, events: seq<Event>)
    requires s.initialized && s.loadStep == Settled && s.session.None?
    ensures Run(s, events).Some? ==> Run(s, events).value.session.None? && !Ready(Run(s, events).value)
    decreases |events|
  {
    if events != [] && Enabled(s, events[0]) {
      ModelFailureIsFinal(Step(s, events[0]), events[1..]);
    }
  }

  /** A catalogue that fails to load leaves the model usable: the page
      becomes interactive, the error is appended to whatever was shown, and
      every prediction then recommends nothing. */
  lemma CatalogFailureKeepsModel(s: AppState, fetched: CatalogFetch, outcome: RunOutcome, draws: seq<nat>)
    requires Consistent(s) && s.loadStep == AwaitingCatalog
    requires FetchedSongs(fetched).Failure?
    ensures var t := CatalogLoaded(s, fetched);
            && Ready(t) && t.songData == []
            && t.error == s.error + [CatalogLoadFailed(FetchedSongs(fetched).error)]
            && Predict(t, outcome, draws).popular == []
            && Predict(t, outcome, draws).random == []
  {
    var t := CatalogLoaded(s, fetched);
    if outcome.Output? && |outcome.data| > 0 {
      assert Recommendation(outcome.data[0], t.songData, draws) == Picks([], []);
    }
  }

  /** A response outside 200-299 leaves the library as it was and appends
      a catalogue failure whose reason reads `HTTP error! status: N`
      (`CatalogErrorText` gives the whole line). */
  lemma BadStatusFailure(s: AppState, status: nat, body: Result<seq<Song>, string>)
    requires s.loadStep == AwaitingCatalog && !(200 <= status <= 299)
    ensures var t := CatalogLoaded(s, Response(status, body));
            && t.songData == s.songData && t.loadStep == Settled && t.infoMessage == NoInfo
            && t.error == s.error + [CatalogLoadFailed(BadStatus(status))]
            && FetchFailureMessage(BadStatus(status)) == "HTTP error! status: " + NatToString(status)
  {
  }

  /** The song library is stored only when the request succeeded with a
      2xx status and its body parsed. */
  lemma SongDataOnlyOnSuccess(s: AppState, fetched: CatalogFetch)
    requires s.loadStep == AwaitingCatalog
    ensures var t := CatalogLoaded(s, fetched);
            t.songData == s.songData
            || (fetched.Response? && 200 <= fetched.status <= 299
                && fetched.body == Success(t.songData))
  {
  }

  /** A full, successful load makes the page interactive with the fetched
      library and no error. */
  lemma SuccessfulLoad(session: InferenceSession, data: seq<Song>)
    ensures var s := CatalogLoaded(ModelLoaded(StartLoading(Initial()), Success(session)),
                                   Response(200, Success(data)));
            && Ready(s) && s.songData == data && s.error == []
            && s.infoMessage == ReadyToDiscover
  {
  }

  /** The guards of `handlePredict`, in order: outside the ready state only
      the error changes, a missing session taking precedence over loading;
      a blank description (empty or whitespace only) also clears the mood
      and both lists. */
  lemma PredictGuards(s: AppState, outcome: RunOutcome, draws: seq<nat>)
    requires |s.songData| <= |draws|
    ensures !Ready(s) ==>
      Predict(s, outcome, draws)
        == s.(error := if s.session.None? then [NoSession] else [StillLoading])
    ensures Ready(s) && AllWhitespace(s.inputText) ==>
      Predict(s, outcome, draws)
        == s.(error := [BlankInput], predictedMoodResult := "", popular := [], random := [])
  {
    TrimEmptyIffBlank(s.inputText);
  }

  /** Past the guards, the result of a prediction depends only on the
      inference outcome: a label gives its recommendations and no error,
      an empty output or an exception gives an error and no songs. */
  lemma PredictOutcomes(s: AppState, outcome: RunOutcome, draws: seq<nat>)
    requires |s.songData| <= |draws|
    requires Ready(s) && !AllWhitespace(s.inputText)
    ensures var t := Predict(s, outcome, draws);
            && t.infoMessage == NoInfo
            && (t.error == [] <==> outcome.Output? && |outcome.data| > 0)
            && (outcome.Output? && |outcome.data| > 0 ==>
                  t.predictedMoodResult == outcome.data[0]
                  && Picks(t.popular, t.random) == Recommendation(outcome.data[0], s.songData, draws))
            && (outcome == Output([]) ==>
                  t.error == [NoVibe] && t.predictedMoodResult == "" && t.popular == [] && t.random == [])
            && (outcome.Thrown? ==>
                  t.error == [PredictionFailed(outcome.message)] && t.predictedMoodResult == ""
                  && t.popular == [] && t.random == [])
  {
    TrimEmptyIffBlank(s.inputText);
  }

  /** No stale result survives a prediction that gets past the guards: the
      new state does not depend on the mood, lists, error or message shown
      before. */
  lemma PredictForgetsPreviousResults(s: AppState, outcome: RunOutcome, draws: seq<nat>,
                                      mood: string, popular: seq<Song>, random: seq<Song>,
                                      error: seq<Notice>, info: Info)
    requires |s.songData| <= |draws|
    requires Ready(s) && !AllWhitespace(s.inputText)
    ensures Predict(s, outcome, draws)
         == Predict(s.(predictedMoodResult := mood, popular := popular, random := random,
                       error := error, infoMessage := info), outcome, draws)
  {
    TrimEmptyIffBlank(s.inputText);
  }

  // ---------------------------------------------------------------------
  // The component, as an object whose fields the handlers update
  // ---------------------------------------------------------------------

  class MoodMelodyApp {
    var session: Option<InferenceSession>
    var inputText: string
    var predictedMoodResult: string
    var isLoadingModel: bool
    var isLoadingSongData: bool
    var songData: seq<Song>
    var popularRecommendedSongs: seq<Song>
    var randomRecommendedSongs: seq<Song>
    var error: seq<Notice>
    var infoMessage: Info
    var onnxRuntimeInitialized: bool
    var loadStep: LoadStep

    /** The fields, as one value. */
    function State(): AppState
      reads this
    {
      AppState(session, inputText, predictedMoodResult, isLoadingModel, isLoadingSongData,
               songData, popularRecommendedSongs, randomRecommendedSongs, error,
               infoMessage, onnxRuntimeInitialized, loadStep)
    }

    /** The `useState`/`useRef` initial values. */
    constructor ()
      ensures State() == Initial()
    {
      session := None;
      inputText := "";
      predictedMoodResult := "";
      isLoadingModel := true;
      isLoadingSongData := true;
      songData := [];
      popularRecommendedSongs := [];
      randomRecommendedSongs := [];
      error := [];
      infoMessage := Initializing;
      onnxRuntimeInitialized := false;
      loadStep := NotStarted;
    }

    /** The effect: `loadRessourcen()` up to its first `await`, then the
        latch is set. */
    method RunLoadEffect()
      modifies this
      ensures State() == StartLoading(old(State()))
    {
      if !onnxRuntimeInitialized {
        isLoadingModel := true;
        isLoadingSongData := true;
        infoMessage := LoadingModel;
        loadStep := AwaitingModel;
        onnxRuntimeInitialized := true;
      }
    }

    /** `loadRessourcen` resumed once the model has been created or has
        failed to load; on success it goes on to request the song library. */
    method ResumeAfterModel(created: Result<InferenceSession, string>)
      requires loadStep == AwaitingModel
      modifies this
      ensures State() == ModelLoaded(old(State()), created)
    {
      match created {
        case Failure(message) =>
          error := [ModelLoadFailed(message)];
          isLoadingModel := false;
          isLoadingSongData := false;
          infoMessage := NoInfo;
          loadStep := Settled;
        case Success(newSession) =>
          session := Some(newSession);
          infoMessage := ModelLoadedLoadingSongs;
          isLoadingModel := false;
          infoMessage := LoadingLibrary;
          loadStep := AwaitingCatalog;
      }
    }

    /** `loadRessourcen` resumed once the song library has been fetched and
        parsed, or has failed to. */
    method ResumeAfterCatalog(fetched: CatalogFetch)
      requires loadStep == AwaitingCatalog
      modifies this
      ensures State() == CatalogLoaded(old(State()), fetched)
    {
      match FetchedSongs(fetched) {
        case Success(data) =>
          songData := data;
          infoMessage := ReadyToDiscover;
        case Failure(failure) =>
          error := error + [CatalogLoadFailed(failure)];
          infoMessage := NoInfo;
      }
      isLoadingSongData := false;
      loadStep := Settled;
    }

    /** The `setTimeout` callback of a successful load. */
    method FireInfoTimer()
      modifies this
      ensures State() == InfoTimerFired(old(State()))
    {
      infoMessage := NoInfo;
    }

    /** `handleInputChange`. */
    method HandleInputChange(text: string)
      modifies this
      ensures State() == InputChanged(old(State()), text)
    {
      inputText := text;
    }

    /** `handlePredict`: the guards, then the inference. */
    method HandlePredict(outcome: RunOutcome, draws: seq<nat>)
      requires |songData| <= |draws|
      modifies this
      ensures State() == Predict(old(State()), outcome, draws)
    {
      ghost var s := State();
      if session.None? {
        error := [NoSession];
        assert State() == s.(error := [NoSession]);
      } else if isLoadingSongData || isLoadingModel {
        error := [StillLoading];
        assert State() == s.(error := [StillLoading]);
      } else if Trim(inputText) == [] {
        error := [BlankInput];
        predictedMoodResult := "";
        popularRecommendedSongs := [];
        randomRecommendedSongs := [];
        assert State() == s.(error := [BlankInput], predictedMoodResult := "", popular := [], random := []);
      } else {
        ClearResults();
        ApplyOutcome(outcome, draws);
      }
    }

    /** The call `recommendSongsByMood(mood)` of `handlePredict`: the
        closure reads the song library and sets both lists. */
    method ShowRecommendations(mood: string, draws: seq<nat>)
      requires |songData| <= |draws|
      modifies this
      ensures var picks := Recommendation(mood, old(songData), draws);
              State() == old(State()).(popular := picks.popular, random := picks.random)
    {
      var popular, random := RecommendSongsByMood(mood, songData, draws);
      popularRecommendedSongs, randomRecommendedSongs := popular, random;
    }

    /** The start of the `try` block of `handlePredict`. */
    method ClearResults()
      modifies this
      ensures State() == Cleared(old(State()))
    {
      error := [];
      infoMessage := NoInfo;
      predictedMoodResult := FindingVibe;
      popularRecommendedSongs := [];
      randomRecommendedSongs := [];
    }

    /** The rest of the `try` block once `session.run` has settled with
        `outcome`, and its `catch`. */
    method ApplyOutcome(outcome: RunOutcome, draws: seq<nat>)
      requires |songData| <= |draws|
      modifies this
      ensures State() == Applied(old(State()), outcome, draws)
    {
      match outcome {
        case Output(data) =>
          if |data| > 0 {
            var mood := data[0];
            predictedMoodResult := mood;
            ShowRecommendations(mood, draws);
          } else {
            error := [NoVibe];
            predictedMoodResult := "";
          }
        case Thrown(message) =>
          error := [PredictionFailed(message)];
          predictedMoodResult := "";
          popularRecommendedSongs := [];
          randomRecommendedSongs := [];
      }
    }
  }
}
