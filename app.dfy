/**
 * The view-state controller (App.tsx): four state fields, the handler run
 * when an image is selected (split at its `await` into the step before the
 * analysis result is known and the step after), the reset handler, and the
 * choice of which branch of the page body is shown.
 */
module App {
  import opened Types
  import opened GeminiService

  const AnalysisFailedAlert: string := "鑑定失敗，請檢查網路連線或更換圖片再試一次。"

  /** A branch of the page body: the upload form, the loading screen, or the result with the chat. */
  datatype Branch = UploadBranch | AnalyzingBranch | ResultBranch(analysis: MineralAnalysis, imageSrc: string)

  /**
   * The branches of the page body that render: each is guarded by the view
   * state, and the result branch also by a present analysis and a non-empty
   * image. At most one renders; only a result without both renders none.
   */
  function Branches(state: AppState, image: Option<string>, data: Option<MineralAnalysis>): (r: seq<Branch>)
    ensures |r| <= 1
    ensures |r| == 1 <==> state != Result || (data.Some? && Truthy(image))
    ensures |r| == 1 && r[0].UploadBranch? <==> state == Upload
    ensures |r| == 1 && r[0].AnalyzingBranch? <==> state == Analyzing
    ensures |r| == 1 && r[0].ResultBranch? <==> state == Result && data.Some? && Truthy(image)
    ensures state == Result && data.Some? && Truthy(image) ==> r == [ResultBranch(data.value, image.value)]
  {
    (if state == Upload then [UploadBranch] else [])
    + (if state == Analyzing then [AnalyzingBranch] else [])
    + (if state == Result && data.Some? && Truthy(image) then [ResultBranch(data.value, image.value)] else [])
  }

  class App {
    var appState: AppState
    var imageBase64: Option<string>
    var mineralData: Option<MineralAnalysis>
    var chatSession: Option<ChatSession>

    /**
     * The invariant every handler keeps: the result state holds an analysis
     * and the chat session built from it; a chat session is held only in the
     * result state; an image is held exactly when not uploading. An analysis
     * may outlive a failed chat creation, so outside the result state it may
     * or may not be held.
     */
    ghost predicate Valid()
      reads this
    {
      && (appState == Result ==> mineralData.Some? && chatSession == Some(MineralChat(mineralData.value)))
      && (chatSession.Some? <==> appState == Result)
      && (imageBase64.Some? <==> appState != Upload)
    }

    /** The app starts on the upload form with nothing held. */
    constructor ()
      ensures Valid()
      ensures appState == Upload && imageBase64 == None && mineralData == None && chatSession == None
    {
      appState := Upload;
      imageBase64 := None;
      mineralData := None;
      chatSession := None;
    }

    /** What the page body renders in the current state. */
    function View(): seq<Branch>
      reads this
    {
      Branches(appState, imageBase64, mineralData)
    }

    /**
     * `handleImageSelected` up to its `await`: the image is stored and the
     * loading screen entered before anything about the analysis is known.
     * Images come from the upload form, or from a file read that completes
     * after an earlier one has already started an analysis.
     */
    method SelectImage(base64: string)
      requires Valid() && appState != Result
      modifies this
      ensures Valid()
      ensures appState == Analyzing && imageBase64 == Some(base64)
      ensures mineralData == old(mineralData) && chatSession == old(chatSession) == None
    {
      imageBase64 := Some(base64);
      appState := Analyzing;
    }

    /**
     * The `catch` of `handleImageSelected`: the user is alerted, the app
     * returns to the upload form and the image is dropped.
     */
    method Fail() returns (alert: Option<string>)
      requires Valid() && appState == Analyzing
      modifies this`appState, this`imageBase64
      ensures Valid()
      ensures appState == Upload && imageBase64 == None && alert == Some(AnalysisFailedAlert)
    {
      alert := Some(AnalysisFailedAlert);
      appState := Upload;
      imageBase64 := None;
    }

    /**
     * `handleImageSelected` after its `await`: on success the analysis is
     * stored, and then the chat is created from that same analysis. If both
     * succeed the result is shown. If the analysis failed nothing else is
     * written; if only the chat creation failed the analysis stays stored.
     * Either failure alerts the user, returns to the upload form and drops
     * the image.
     */
    method CompleteAnalysis(outcome: Attempt<MineralAnalysis>, chatsCreate: ChatSession -> Option<Error>)
      returns (alert: Option<string>)
      requires Valid() && appState == Analyzing
      modifies this
      ensures Valid()
      ensures outcome.Ok? ==> mineralData == Some(outcome.value)
      ensures outcome.Ok? && CreateMineralChat(outcome.value, chatsCreate).Ok? ==>
        && chatSession == Some(MineralChat(outcome.value))
        && appState == Result && imageBase64 == old(imageBase64)
        && alert == None
      ensures outcome.Threw? || CreateMineralChat(outcome.value, chatsCreate).Threw? ==>
        && appState == Upload && imageBase64 == None && chatSession == old(chatSession)
        && alert == Some(AnalysisFailedAlert)
      ensures outcome.Threw? ==> mineralData == old(mineralData)
    {
      match outcome {
        case Ok(data) =>
          mineralData := Some(data);
          var chat := CreateMineralChat(data, chatsCreate);
          match chat {
            case Ok(session) =>
              chatSession := Some(session);
              appState := Result;
              alert := None;
            case Threw(_) =>
              alert := Fail();
          }
        case Threw(_) =>
          alert := Fail();
      }
    }

    /** `handleImageSelected` as a whole, with the service, `JSON.parse` and `ai.chats.create` as oracles. */
    method HandleImageSelected(
      base64: string,
      mimeType: string,
      generate: AnalysisRequest -> AnalysisReply,
      decode: string -> Attempt<MineralAnalysis>,
      chatsCreate: ChatSession -> Option<Error>)
      returns (alert: Option<string>)
      requires Valid() && appState != Result
      modifies this
      ensures Valid()
      ensures var outcome := AnalysisOutcome(generate(AnalysisRequestFor(base64, mimeType)), decode);
        if outcome.Ok? && CreateMineralChat(outcome.value, chatsCreate).Ok? then
          && appState == Result && imageBase64 == Some(base64) && mineralData == Some(outcome.value)
          && chatSession == Some(MineralChat(outcome.value)) && alert == None
        else
          && appState == Upload && imageBase64 == None && chatSession == None
          && mineralData == (if outcome.Ok? then Some(outcome.value) else old(mineralData))
          && alert == Some(AnalysisFailedAlert)
    {
      SelectImage(base64);
      var outcome := AnalyzeMineralImage(base64, mimeType, generate, decode);
      alert := CompleteAnalysis(outcome, chatsCreate);
    }

    /**
     * `handleReset`, available from any state: all four fields return to
     * their initial values, so resetting twice is the same as resetting once.
     */
    method HandleReset()
      modifies this
      ensures Valid()
      ensures appState == Upload && imageBase64 == None && mineralData == None && chatSession == None
    {
      appState := Upload;
      imageBase64 := None;
      mineralData := None;
      chatSession := None;
    }
  }

  /**
   * In a state the handlers can reach, exactly one branch renders, except in
   * the result state with an empty image payload, where none does.
   */
  lemma ReachableViews(state: AppState, image: Option<string>, data: Option<MineralAnalysis>)
    requires state == Result ==> data.Some?
    requires image.Some? <==> state != Upload
    ensures |Branches(state, image, data)| == 1 <==> state != Result || image.value != ""
    ensures state == Result && image.value != "" ==> Branches(state, image, data) == [ResultBranch(data.value, image.value)]
  {
  }
}
