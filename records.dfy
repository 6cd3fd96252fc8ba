/** The record shapes of types.ts. */
module Records {
  import opened Wrappers

  /** One follow-up task of a visit. */
  datatype TodoItem = TodoItem(text: string, completed: bool)

  /**
   * One pastoral visit as the form collects it (`VisitLogData`). Dates and
   * times are the form's strings; `faithLevel` is a JavaScript number, of
   * which the model keeps whole numbers only.
   */
  datatype VisitLog = VisitLog(
    visiteeName: string,
    visitDate: string,
    visitTime: string,
    visitType: string,
    location: string,
    attendees: seq<string>,
    bibleVerse: string,
    topic: string,
    hymn: string,
    content: string,
    prayerRequests: seq<string>,
    context: Option<string>,
    faithLevel: int,
    interests: seq<string>,
    privateNote: string,
    todoItems: seq<TodoItem>,
    nextVisitDate: string)

  /** `SubmissionStatus`: where the form's save button is in its life cycle. */
  datatype SubmissionStatus = Idle | Loading | Success | Error
}
