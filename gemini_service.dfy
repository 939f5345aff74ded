/**
 * The client of the hosted model (services/geminiService.ts): the analysis
 * request with its response schema, the handling of the analysis reply, and
 * the system instruction that seeds the follow-up chat. The service itself
 * and `JSON.parse` are oracles passed in as functions.
 */
module GeminiService {
  import opened Types
  import opened Strings

  const ModelName: string := "gemini-2.5-flash"

  const AnalysisPrompt: string :=
    "Analyze this image and identify the mineral. Provide the output strictly in Traditional Chinese (繁體中文) (except for English name and Formula) according to the JSON schema. Ensure historical stories includes 2-3 distinct items. Ensure you list 3 other possible minerals."

  const ResponseMimeType: string := "application/json"

  const Temperature: real := 0.4

  /**
   * `mineralSchema.required`, written out as in the schema. It repeats the
   * record's own field list (`Types.AnalysisFieldNames`) on purpose, as the
   * source keeps the two apart: the contract of `AnalysisRequestFor` checks
   * that they name the same fields.
   */
  const RequiredFields: seq<string> := [
    "nameChinese", "nameEnglish", "chemicalFormula", "confidenceLevel", "description",
    "historicalStories", "socialMediaTopics", "identificationReasons", "otherCandidates", "references"]

  const NoResponseMessage: string := "No response from AI"

  /** The part of the response schema the client relies on: which fields must be present. */
  datatype Schema = Schema(required: seq<string>)

  /** One `generateContent` call: the inline image, the instruction and the generation config. */
  datatype AnalysisRequest = AnalysisRequest(
    model: string,
    mimeType: string,
    data: string,
    prompt: string,
    responseMimeType: string,
    responseSchema: Schema,
    temperature: real)

  /** How the service answers: a response whose text may be absent, or a rejection. */
  datatype AnalysisReply = Responded(text: Option<string>) | Failed(error: Error)

  /** The request `analyzeMineralImage` sends for an encoded image. */
  function AnalysisRequestFor(base64Image: string, mimeType: string): (request: AnalysisRequest)
    ensures request.model == ModelName && request.data == base64Image && request.mimeType == mimeType
    ensures request.responseMimeType == ResponseMimeType
    ensures forall field :: field in request.responseSchema.required <==> field in AnalysisFieldNames
    ensures |request.responseSchema.required| == |AnalysisFieldNames|
  {
    AnalysisRequest(ModelName, mimeType, base64Image, AnalysisPrompt, ResponseMimeType,
                    Schema(RequiredFields), Temperature)
  }

  /** JavaScript truthiness of an optional string: present and not empty. */
  predicate Truthy(text: Option<string>)
  {
    text.Some? && text.value != ""
  }

  /**
   * What `analyzeMineralImage` resolves or rejects with once the service has
   * replied: the decoded text, or the error, passed on unchanged.
   */
  function AnalysisOutcome(reply: AnalysisReply, decode: string -> Attempt<MineralAnalysis>): (r: Attempt<MineralAnalysis>)
    ensures reply.Failed? ==> r == Threw(reply.error)
    ensures reply.Responded? && !Truthy(reply.text) ==> r == Threw(Error(NoResponseMessage))
    ensures reply.Responded? && Truthy(reply.text) ==> r == decode(reply.text.value)
    ensures r.Ok? ==> reply.Responded? && Truthy(reply.text)
  {
    match reply
    case Failed(e) => Threw(e)
    case Responded(text) => if !Truthy(text) then Threw(Error(NoResponseMessage)) else decode(text.value)
  }

  /**
   * `analyzeMineralImage`: sends one request, throws when the reply has no
   * text, decodes it otherwise; whatever is thrown inside is rethrown as it is.
   */
  method AnalyzeMineralImage(
    base64Image: string,
    mimeType: string,
    generate: AnalysisRequest -> AnalysisReply,
    decode: string -> Attempt<MineralAnalysis>)
    returns (r: Attempt<MineralAnalysis>)
    ensures r == AnalysisOutcome(generate(AnalysisRequestFor(base64Image, mimeType)), decode)
  {
    var response := generate(AnalysisRequestFor(base64Image, mimeType));
    if response.Failed? {
      return Threw(response.error);
    }
    var text := response.text;
    if !Truthy(text) {
      return Threw(Error(NoResponseMessage));
    }
    r := decode(text.value);
  }

  /** A chat session: the model and the system instruction it was created with. */
  datatype ChatSession = ChatSession(model: string, systemInstruction: string)

  /** `${c.name} (${c.confidence}%)`. */
  function CandidateLabel(c: MineralCandidate): (rendered: string)
    ensures |c.name| + 4 < |rendered| && StartsWith(rendered, c.name)
    ensures rendered[|c.name|..|c.name| + 2] == " (" && rendered[|rendered| - 2..] == "%)"
    ensures ParseInt(rendered[|c.name| + 2..|rendered| - 2]) == Some(c.confidence)
  {
    var digits := IntToString(c.confidence);
    var rendered := c.name + " (" + digits + "%)";
    assert rendered[|c.name| + 2..|rendered| - 2] == digits;
    rendered
  }

  /** The candidates rendered one by one, in list order. */
  function CandidateLabels(candidates: seq<MineralCandidate>): (labels: seq<string>)
    ensures |labels| == |candidates|
    ensures forall i :: 0 <= i < |candidates| ==> labels[i] == CandidateLabel(candidates[i])
  {
    seq(|candidates|, i requires 0 <= i < |candidates| => CandidateLabel(candidates[i]))
  }

  const IdentifiedAsLead: string :=
    "\n    You are an expert mineralogist and geologist assistant. \n    The user has just analyzed an image which was identified as "

  const ClosingLines: string :=
    "    \n    Answer the user's follow-up questions about this specific mineral clearly and concisely in Traditional Chinese (繁體中文).\n    Be helpful, educational, and friendly.\n  "

  /** "English (Chinese)": how the instruction names the mineral. */
  function MineralName(a: MineralAnalysis): string
  {
    a.nameEnglish + " (" + a.nameChinese + ")"
  }

  function HistoryLine(a: MineralAnalysis): string
  {
    "    - History: " + Join(a.historicalStories, "; ")
  }

  function SocialTopicsLine(a: MineralAnalysis): string
  {
    "    - Social Topics: " + Join(a.socialMediaTopics, "; ")
  }

  function CandidatesLine(a: MineralAnalysis): string
  {
    "    - Other Possibilities: " + Join(CandidateLabels(a.otherCandidates), ", ")
  }

  /**
   * The template literal `createMineralChat` fills in, character for
   * character, read from the left: each function below is the text from one
   * interpolation to the end.
   */
  function SystemInstruction(a: MineralAnalysis): string
  {
    IdentifiedAsLead + (MineralName(a) + FromDescription(a))
  }

  function FromDescription(a: MineralAnalysis): string
  {
    ".\n    \n    Here is the analysis context:\n    - Description: " + (a.description + FromFormula(a))
  }

  function FromFormula(a: MineralAnalysis): string
  {
    "\n    - Formula: " + (a.chemicalFormula + FromHistory(a))
  }

  function FromHistory(a: MineralAnalysis): string
  {
    "\n" + (HistoryLine(a) + FromSocialTopics(a))
  }

  function FromSocialTopics(a: MineralAnalysis): string
  {
    "\n" + (SocialTopicsLine(a) + FromCandidates(a))
  }

  function FromCandidates(a: MineralAnalysis): string
  {
    "\n" + (CandidatesLine(a) + ("\n" + ClosingLines))
  }

  /** The session `createMineralChat` asks `ai.chats.create` for: the analysis model, seeded with the instruction for `a`. */
  function MineralChat(a: MineralAnalysis): ChatSession
  {
    ChatSession(ModelName, SystemInstruction(a))
  }

  /**
   * `createMineralChat`, with `ai.chats.create` as an oracle that either
   * creates the session it is asked for (None) or throws an error: the
   * requested session, or that error passed on unchanged.
   */
  function CreateMineralChat(a: MineralAnalysis, chatsCreate: ChatSession -> Option<Error>): (r: Attempt<ChatSession>)
    ensures r.Ok? <==> chatsCreate(MineralChat(a)).None?
    ensures r.Ok? ==> r.value == MineralChat(a)
    ensures r.Threw? ==> Some(r.error) == chatsCreate(MineralChat(a))
  {
    var session := MineralChat(a);
    match chatsCreate(session)
    case None => Ok(session)
    case Some(e) => Threw(e)
  }

  /**
   * The chat created for an analysis runs on the same model, and its
   * instruction names the mineral as "English (Chinese)" and carries its
   * description, formula, stories, topics and candidates verbatim.
   */
  lemma InstructionMentions(a: MineralAnalysis)
    ensures MineralChat(a).model == ModelName
    ensures IsInfix(MineralName(a), MineralChat(a).systemInstruction)
    ensures IsInfix(a.description, MineralChat(a).systemInstruction)
    ensures IsInfix(a.chemicalFormula, MineralChat(a).systemInstruction)
    ensures IsInfix(HistoryLine(a), MineralChat(a).systemInstruction)
    ensures IsInfix(SocialTopicsLine(a), MineralChat(a).systemInstruction)
    ensures IsInfix(CandidatesLine(a), MineralChat(a).systemInstruction)
  {
    var tail := FromDescription(a);
    FromDescriptionMentions(a);
    InfixAt(IdentifiedAsLead, MineralName(a), tail);
    forall x | x in [a.description, a.chemicalFormula, HistoryLine(a), SocialTopicsLine(a), CandidatesLine(a)]
      ensures IsInfix(x, SystemInstruction(a))
    {
      InfixWithin2(x, IdentifiedAsLead, MineralName(a), tail);
    }
  }

  lemma FromDescriptionMentions(a: MineralAnalysis)
    ensures IsInfix(a.description, FromDescription(a))
    ensures IsInfix(a.chemicalFormula, FromDescription(a))
    ensures IsInfix(HistoryLine(a), FromDescription(a))
    ensures IsInfix(SocialTopicsLine(a), FromDescription(a))
    ensures IsInfix(CandidatesLine(a), FromDescription(a))
  {
    var lead := ".\n    \n    Here is the analysis context:\n    - Description: ";
    var tail := FromFormula(a);
    FromFormulaMentions(a);
    InfixAt(lead, a.description, tail);
    forall x | x in [a.chemicalFormula, HistoryLine(a), SocialTopicsLine(a), CandidatesLine(a)]
      ensures IsInfix(x, FromDescription(a))
    {
      InfixWithin2(x, lead, a.description, tail);
    }
  }

  lemma FromFormulaMentions(a: MineralAnalysis)
    ensures IsInfix(a.chemicalFormula, FromFormula(a))
    ensures IsInfix(HistoryLine(a), FromFormula(a))
    ensures IsInfix(SocialTopicsLine(a), FromFormula(a))
    ensures IsInfix(CandidatesLine(a), FromFormula(a))
  {
    var lead := "\n    - Formula: ";
    var tail := FromHistory(a);
    FromHistoryMentions(a);
    InfixAt(lead, a.chemicalFormula, tail);
    forall x | x in [HistoryLine(a), SocialTopicsLine(a), CandidatesLine(a)]
      ensures IsInfix(x, FromFormula(a))
    {
      InfixWithin2(x, lead, a.chemicalFormula, tail);
    }
  }

  lemma FromHistoryMentions(a: MineralAnalysis)
    ensures IsInfix(HistoryLine(a), FromHistory(a))
    ensures IsInfix(SocialTopicsLine(a), FromHistory(a))
    ensures IsInfix(CandidatesLine(a), FromHistory(a))
  {
    var tail := FromSocialTopics(a);
    FromSocialTopicsMentions(a);
    InfixAt("\n", HistoryLine(a), tail);
    InfixWithin2(SocialTopicsLine(a), "\n", HistoryLine(a), tail);
    InfixWithin2(CandidatesLine(a), "\n", HistoryLine(a), tail);
  }

  lemma FromSocialTopicsMentions(a: MineralAnalysis)
    ensures IsInfix(SocialTopicsLine(a), FromSocialTopics(a))
    ensures IsInfix(CandidatesLine(a), FromSocialTopics(a))
  {
    var tail := FromCandidates(a);
    InfixAt("\n", CandidatesLine(a), "\n" + ClosingLines);
    InfixAt("\n", SocialTopicsLine(a), tail);
    InfixWithin2(CandidatesLine(a), "\n", SocialTopicsLine(a), tail);
  }

  /**
   * The history line keeps the stories in order: splitting its list at ';'
   * gives the first story, then each later one behind the space of "; ".
   */
  lemma {:induction false} StoriesRecoverable(a: MineralAnalysis)
    requires |a.historicalStories| > 0
    requires forall i :: 0 <= i < |a.historicalStories| ==> ';' !in a.historicalStories[i]
    ensures SplitChar(Join(a.historicalStories, "; "), ';')
         == [a.historicalStories[0]] + Prefixed(" ", a.historicalStories[1..])
  {
    assert "; " == [';'] + " ";
    SplitJoin(a.historicalStories, ';', " ");
  }

  /** The same for the social topics. */
  lemma {:induction false} TopicsRecoverable(a: MineralAnalysis)
    requires |a.socialMediaTopics| > 0
    requires forall i :: 0 <= i < |a.socialMediaTopics| ==> ';' !in a.socialMediaTopics[i]
    ensures SplitChar(Join(a.socialMediaTopics, "; "), ';')
         == [a.socialMediaTopics[0]] + Prefixed(" ", a.socialMediaTopics[1..])
  {
    assert "; " == [';'] + " ";
    SplitJoin(a.socialMediaTopics, ';', " ");
  }

  /**
   * The candidate list keeps the candidates in order: when no name holds a
   * comma, splitting it at ',' gives each candidate's label, in list order.
   */
  lemma {:induction false} CandidatesRecoverable(candidates: seq<MineralCandidate>)
    requires |candidates| > 0
    requires forall i :: 0 <= i < |candidates| ==> ',' !in candidates[i].name
    ensures SplitChar(Join(CandidateLabels(candidates), ", "), ',')
         == [CandidateLabel(candidates[0])] + Prefixed(" ", CandidateLabels(candidates)[1..])
  {
    var labels := CandidateLabels(candidates);
    forall i | 0 <= i < |labels|
      ensures ',' !in labels[i]
    {
      CommaFreeLabel(candidates[i]);
    }
    assert ", " == [','] + " ";
    SplitJoin(labels, ',', " ");
  }

  /** A candidate whose name has no comma renders without one. */
  lemma CommaFreeLabel(c: MineralCandidate)
    requires ',' !in c.name
    ensures ',' !in CandidateLabel(c)
  {
    var digits := IntToString(c.confidence);
    assert ',' !in digits by {
      if c.confidence < 0 {
        assert digits == "-" + NatToString(-c.confidence);
      }
    }
    assert CandidateLabel(c) == c.name + " (" + digits + "%)";
  }
}
