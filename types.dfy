/** The records shared by the report form, the public list and the profile
    page, and the result shapes of the two generative-model calls, which the
    model receives as plain inputs. */
module Types {

  datatype Option<+T> = None | Some(value: T)

  /** The ten waste categories a classification may name. */
  datatype WasteType =
    | Plastic | Organic | Electronic | Glass | Paper
    | Metal | Textile | Hazardous | Mixed | Unknown

  datatype Severity = Low | Medium | High | Critical

  /** `pending`, `in-progress` and `resolved`. */
  datatype ComplaintStatus = Pending | InProgress | Resolved

  /** Geographic coordinates as captured by the browser. */
  datatype Coords = Coords(lat: real, lng: real)

  datatype Location = Location(lat: real, lng: real, address: string)

  /** The analysis block stored with a complaint; type and severity are optional. */
  datatype AiAnalysis = AiAnalysis(
    wasteDetected: bool,
    wasteType: Option<WasteType>,
    severity: Option<Severity>,
    analysisDetails: string)

  /** A complaint as the store returns it, with the id the store assigned. */
  datatype WasteComplaint = WasteComplaint(
    id: string,
    userId: string,
    userName: string,
    imageUrl: string,
    location: Location,
    description: string,
    aiSummary: string,
    aiKeyDetails: seq<string>,
    aiAnalysis: AiAnalysis,
    status: ComplaintStatus,
    createdAt: string)

  /** The document the report form hands to the store: a complaint before the
      store has given it an id. */
  datatype NewComplaint = NewComplaint(
    userId: string,
    userName: string,
    imageUrl: string,
    location: Location,
    description: string,
    aiSummary: string,
    aiKeyDetails: seq<string>,
    aiAnalysis: AiAnalysis,
    status: ComplaintStatus,
    createdAt: string)

  /** What the classification service returns for a photo. */
  datatype ClassifierOutput = ClassifierOutput(
    wasteDetected: bool,
    wasteType: Option<WasteType>,
    severity: Option<Severity>,
    analysisDetails: string)

  /** What the summarization service returns for a description. */
  datatype SummaryOutput = SummaryOutput(summary: string, keyDetails: seq<string>)
}
