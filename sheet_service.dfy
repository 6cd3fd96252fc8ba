/**
 * The client's storage adapter (services/mockSheetService.ts). Each call
 * decides afresh whether the Apps Script bridge is present; with it, the
 * call goes to the spreadsheet back end, without it to one key of the
 * browser's local storage.
 */
module SheetService {
  import opened Wrappers
  import opened Records
  import AppsScript

  /** A visit kept in local storage, with the client time of its save; the seed example has none. */
  datatype Entry = Entry(log: VisitLog, timestamp: Option<string>)

  /**
   * The value under the local storage key `pastoral_visit_logs`: missing, the empty string, text that is
   * not JSON, or a JSON array of entries, newest first.
   */
  datatype Stored = Absent | Blank | Corrupt | Entries(entries: seq<Entry>)

  /** How the bridge answered: its success handler with a value, or its failure handler. */
  datatype Reply<T> = Delivered(value: T) | Failed(error: string)

  /** How the returned promise settles. */
  datatype Outcome<T> = Resolved(value: T) | Rejected(error: string)

  /** The records a listing hands over: decoded sheet rows, or stored entries. */
  datatype LogList = SheetLogs(logs: seq<AppsScript.Listed>) | StoredLogs(entries: seq<Entry>)

  const ParseError := "SyntaxError: JSON.parse: unexpected character"

  const SeedName := "김철수 성도 (예시)"

  /** The example shown while nothing is stored, dated `today`. */
  function Seed(today: string): Entry {
    Entry(
      VisitLog(
        SeedName, today, "14:00", "구역심방", "자택",
        ["김영희 집사"], "시편 23:1", "여호와는 나의 목자시니", "301장",
        "이것은 예시 데이터입니다. 실제 구글 스프레드시트와 연동하면 실시간으로 저장된 내용을 볼 수 있습니다.",
        ["가족의 건강을 위해", "자녀의 진로를 위해"], None, 5, ["건강", "자녀"],
        "민감한 정보는 보안 영역에 저장됩니다.",
        [TodoItem("도서 선물하기", false)], ""),
      None)
  }

  /** `value ? JSON.parse(value) : []`. */
  function Parse(s: Stored): Result<seq<Entry>> {
    match s
    case Absent => Ok([])
    case Blank => Ok([])
    case Corrupt => Err(ParseError)
    case Entries(es) => Ok(es)
  }

  /** The stored value after a local save of `data` at `now`; unparseable text is left as it is. */
  function AfterSave(s: Stored, data: VisitLog, now: string): Stored {
    match Parse(s)
    case Ok(es) => Entries([Entry(data, Some(now))] + es)
    case Err(_) => s
  }

  /** What a local listing returns: the stored entries, or the seed alone while there are none. */
  function LocalListing(s: Stored, today: string): Result<seq<Entry>> {
    match Parse(s)
    case Ok(es) => if |es| == 0 then Ok([Seed(today)]) else Ok(es)
    case Err(e) => Err(e)
  }

  /** Every stored entry carries a save time stamp. */
  predicate Stamped(s: Stored) {
    s.Entries? ==> forall e <- s.entries :: e.timestamp.Some?
  }

  /**
   * A local save puts the new entry, stamped with its save time, in front
   * of the unchanged earlier entries; a listing right after shows exactly that.
   */
  lemma SaveThenList(s: Stored, data: VisitLog, now: string, today: string)
    requires !s.Corrupt?
    ensures AfterSave(s, data, now).Entries?
    ensures AfterSave(s, data, now).entries == [Entry(data, Some(now))] + Parse(s).value
    ensures LocalListing(AfterSave(s, data, now), today) == Ok(AfterSave(s, data, now).entries)
  {
  }

  /** Two saves, A then B, list as B, A, then whatever was stored before. */
  lemma LaterSaveListsFirst(s: Stored, a: VisitLog, b: VisitLog, t1: string, t2: string, today: string)
    requires !s.Corrupt?
    ensures LocalListing(AfterSave(AfterSave(s, a, t1), b, t2), today)
      == Ok([Entry(b, Some(t2)), Entry(a, Some(t1))] + Parse(s).value)
  {
    var once := [Entry(a, Some(t1))] + Parse(s).value;
    assert AfterSave(s, a, t1) == Entries(once);
    assert [Entry(b, Some(t2))] + once == [Entry(b, Some(t2)), Entry(a, Some(t1))] + Parse(s).value;
  }

  /** Unparseable storage rejects both operations, and a save does not overwrite it. */
  lemma CorruptStorageRejects(s: Stored, data: VisitLog, now: string, today: string)
    requires s.Corrupt?
    ensures AfterSave(s, data, now) == s
    ensures LocalListing(s, today).Err?
  {
  }

  /** A missing or blank key reads as the empty list, for saving and for listing alike. */
  lemma MissingKeyIsEmpty(s: Stored, data: VisitLog, now: string, today: string)
    requires s.Absent? || s.Blank?
    ensures AfterSave(s, data, now) == Entries([Entry(data, Some(now))])
    ensures LocalListing(s, today) == Ok([Seed(today)])
  {
  }

  /** Saves keep every stored entry stamped. */
  lemma SaveKeepsStamped(s: Stored, data: VisitLog, now: string)
    requires Stamped(s)
    ensures Stamped(AfterSave(s, data, now))
  {
  }

  /**
   * The seed cannot be mistaken for saved data: in a store that only saves
   * have written, an unstamped entry is listed exactly when nothing is
   * stored, and it is then the only entry, the named example.
   */
  lemma SeedOnlyWhenEmpty(s: Stored, today: string)
    requires Stamped(s) && !s.Corrupt?
    ensures var listed := LocalListing(s, today).value;
      (exists e <- listed :: e.timestamp.None?) <==> Parse(s).value == []
    ensures Parse(s).value == [] ==>
      LocalListing(s, today).value == [Seed(today)] && Seed(today).log.visiteeName == SeedName
  {
    var listed := LocalListing(s, today).value;
    if Parse(s).value == [] {
      assert Seed(today) in listed;
    }
  }

  /** The storage adapter, holding the one local storage value it uses. */
  class VisitLogService {
    /** The value under the key `pastoral_visit_logs`. */
    var stored: Stored

    constructor (initial: Stored)
      ensures stored == initial
    {
      stored := initial;
    }

    /**
     * `saveVisitLog`. With the bridge (`gasDetected`), the promise resolves
     * whenever the success handler runs, whatever the back end answered,
     * and rejects only from the failure handler. Without it, the record is
     * stamped with the client time `now` and put in front of the stored
     * list, unless the stored text cannot be parsed.
     */
    method SaveVisitLog(data: VisitLog, gasDetected: bool, reply: Reply<AppsScript.Response>, now: string)
      returns (outcome: Outcome<()>)
      modifies this
      ensures gasDetected ==> stored == old(stored)
      ensures gasDetected ==> (outcome.Resolved? <==> reply.Delivered?)
      ensures gasDetected && reply.Failed? ==> outcome == Rejected(reply.error)
      ensures !gasDetected ==> stored == AfterSave(old(stored), data, now)
      ensures !gasDetected ==> (outcome.Resolved? <==> !old(stored).Corrupt?)
    {
      if gasDetected {
        match reply {
          case Delivered(_) => outcome := Resolved(());
          case Failed(e) => outcome := Rejected(e);
        }
        return;
      }
      var existing: seq<Entry>;
      match stored {
        case Absent => existing := [];
        case Blank => existing := [];
        case Corrupt => return Rejected(ParseError);
        case Entries(es) => existing := es;
      }
      stored := Entries([Entry(data, Some(now))] + existing);
      outcome := Resolved(());
    }

    /**
     * `getVisitLogs`. With the bridge, the back end's records are passed on
     * as they arrive; without it, the stored list, or the seed dated
     * `today` while the list is empty. It never writes to storage.
     */
    method GetVisitLogs(gasDetected: bool, reply: Reply<seq<AppsScript.Listed>>, today: string)
      returns (outcome: Outcome<LogList>)
      ensures gasDetected && reply.Delivered? ==> outcome == Resolved(SheetLogs(reply.value))
      ensures gasDetected && reply.Failed? ==> outcome == Rejected(reply.error)
      ensures !gasDetected && stored.Corrupt? ==> outcome.Rejected?
      ensures !gasDetected && !stored.Corrupt? ==>
        outcome == Resolved(StoredLogs(LocalListing(stored, today).value))
    {
      if gasDetected {
        match reply {
          case Delivered(logs) => outcome := Resolved(SheetLogs(logs));
          case Failed(e) => outcome := Rejected(e);
        }
        return;
      }
      var logs: seq<Entry>;
      match stored {
        case Absent => logs := [];
        case Blank => logs := [];
        case Corrupt => return Rejected(ParseError);
        case Entries(es) => logs := es;
      }
      if |logs| == 0 {
        logs := [Seed(today)];
      }
      outcome := Resolved(StoredLogs(logs));
    }
  }
}
