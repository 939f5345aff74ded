/** Domain types of the mineral identification front end (types.ts). */
module Types {

  /** A value that may be absent: JavaScript's `null` / `undefined`. */
  datatype Option<+T> = None | Some(value: T) {
    function GetOr(default: T): T {
      match this
      case Some(v) => v
      case None => default
    }
  }

  /** A JavaScript `Error`; only its message is observable to the core. */
  datatype Error = Error(message: string)

  /** The outcome of a call that may throw: a returned value or a thrown error. */
  datatype Attempt<+T> = Ok(value: T) | Threw(error: Error)

  /** A reference web site listed with an identification. */
  datatype Reference = Reference(url: string, title: string, description: string)

  /** An alternative identification with its own confidence score. */
  datatype MineralCandidate = MineralCandidate(name: string, confidence: int)

  /**
   * The structured identification the AI service returns. The list
   * cardinalities (2-3 stories, exactly 3 candidates) are asked of the service
   * in the prompt and never checked locally, so they are not part of the type.
   */
  datatype MineralAnalysis = MineralAnalysis(
    nameChinese: string,
    nameEnglish: string,
    chemicalFormula: string,
    confidenceLevel: int,
    description: string,
    historicalStories: seq<string>,
    socialMediaTopics: seq<string>,
    identificationReasons: seq<string>,
    otherCandidates: seq<MineralCandidate>,
    references: seq<Reference>)

  /** The names of the fields of MineralAnalysis, in declaration order. */
  const AnalysisFieldNames: seq<string> := [
    "nameChinese", "nameEnglish", "chemicalFormula", "confidenceLevel", "description",
    "historicalStories", "socialMediaTopics", "identificationReasons", "otherCandidates", "references"]

  datatype Role = User | Model

  /** One entry of the chat transcript. */
  datatype ChatMessage = ChatMessage(role: Role, text: string)

  /** Which view the application shows. */
  datatype AppState = Upload | Analyzing | Result
}
