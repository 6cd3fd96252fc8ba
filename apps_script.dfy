/**
 * The spreadsheet back end (GoogleAppsScript.js): the visit log sheet, the
 * flattening of a visit record into one row of 17 cells (`processForm`),
 * and the reading of all rows back into records, newest first
 * (`getVisitLogs`).
 */
module AppsScript {
  import opened Wrappers
  import opened JsText
  import opened Records

  /** The header row's titles, one per column. */
  const Header: seq<string> := [
    "성도 이름", "심방 날짜", "심방 시간", "심방 종류", "장소",
    "동석자", "성경 본문", "설교 제목", "찬송가", "대화 내용",
    "기도 제목", "신앙 단계", "관심사", "민감 메모", "할 일 리스트", "다음 심방일", "기록 생성일시"]

  // Column positions, shared by the encoder and the decoder.
  const NameCol := 0
  const DateCol := 1
  const TimeCol := 2
  const TypeCol := 3
  const LocationCol := 4
  const AttendeesCol := 5
  const BibleCol := 6
  const TopicCol := 7
  const HymnCol := 8
  const ContentCol := 9
  const PrayerCol := 10
  const FaithCol := 11
  const InterestsCol := 12
  const NoteCol := 13
  const TodoCol := 14
  const NextVisitCol := 15
  const CreatedCol := 16

  /** Separator of the attendee and interest cells. */
  const Comma := ", "
  /** Separator of the prayer request and to-do cells. */
  const NewLine := "\n"
  /** Prefix of a completed to-do line. */
  const DoneMarker := "[V] "
  /** Prefix of an open to-do line. */
  const OpenMarker := "[ ] "

  /**
   * A cell value as the spreadsheet service hands it over: a string, a
   * number, or a date, which the model carries as its ISO-8601 rendering
   * (`toISOString`).
   */
  datatype Cell = Str(s: string) | Num(n: int) | Date(iso: string)

  type Row = seq<Cell>

  const HeaderRow: Row := seq(|Header|, i requires 0 <= i < |Header| => Str(Header[i]))

  /** JavaScript truthiness of a cell value. */
  predicate Truthy(c: Cell) {
    match c
    case Str(s) => s != ""
    case Num(n) => n != 0
    case Date(_) => true
  }

  /** The four list-valued properties of a submitted record. */
  datatype ListField = Attendees | PrayerRequests | Interests | TodoItems

  /**
   * What `processForm` receives over the bridge: the record's fields, and
   * the list-valued properties that did not arrive as arrays
   * (`Array.isArray` is false for them).
   */
  datatype Payload = Payload(record: VisitLog, nonArrays: set<ListField>)

  function Column(f: ListField): nat {
    match f
    case Attendees => AttendeesCol
    case PrayerRequests => PrayerCol
    case Interests => InterestsCol
    case TodoItems => TodoCol
  }

  /** One to-do as a line of the to-do cell. */
  function EncodeTodo(t: TodoItem): string {
    (if t.completed then DoneMarker else OpenMarker) + t.text
  }

  function TodoLines(todos: seq<TodoItem>): (lines: seq<string>)
    ensures |lines| == |todos|
  {
    seq(|todos|, i requires 0 <= i < |todos| => EncodeTodo(todos[i]))
  }

  /** A list-valued property as one cell text; a property that is not an array gives "". */
  function ListText(d: Payload, f: ListField, items: seq<string>, sep: string): string {
    if f in d.nonArrays then "" else Join(items, sep)
  }

  /**
   * The row `processForm` appends for `d`, stamped with the server time
   * `now`. The optional `context` field has no column.
   */
  function EncodeRow(d: Payload, now: string): (row: Row)
    ensures |row| == |Header|
    ensures Decodable(row)
    ensures row[CreatedCol] == Date(now)
    ensures forall f <- d.nonArrays :: row[Column(f)] == Str("")
  {
    var v := d.record;
    [ Str(v.visiteeName), Str(v.visitDate), Str(v.visitTime), Str(v.visitType), Str(v.location),
      Str(ListText(d, Attendees, v.attendees, Comma)),
      Str(v.bibleVerse), Str(v.topic), Str(v.hymn), Str(v.content),
      Str(ListText(d, PrayerRequests, v.prayerRequests, NewLine)),
      Num(v.faithLevel),
      Str(ListText(d, Interests, v.interests, Comma)),
      Str(v.privateNote),
      Str(ListText(d, TodoItems, TodoLines(v.todoItems), NewLine)),
      Str(v.nextVisitDate),
      Date(now) ]
  }

  /** `c.split(sep)` would throw: the cell is truthy but not a string. */
  predicate SplitThrows(c: Cell) {
    Truthy(c) && !c.Str?
  }

  /** `c ? c.split(sep) : []`, where calling `split` on a number or a date throws. */
  function SplitCell(c: Cell, sep: string): (r: Result<seq<string>>)
    requires |sep| > 0
    ensures r.Err? <==> SplitThrows(c)
    ensures r.Ok? ==> (r.value == [] <==> !Truthy(c))
    ensures r.Ok? && c.Str? ==> Join(r.value, sep) == c.s
  {
    if !Truthy(c) then Ok([])
    else match c
      case Str(s) =>
        JoinSplit(s, sep);
        Ok(Split(s, sep))
      case _ => Err("TypeError: split is not a function")
  }

  /** One line of the to-do cell: strip a leading `[V] ` or `[ ] `; done iff it starts with `[V]`. */
  function DecodeTodo(line: string): TodoItem {
    TodoItem(
      if DoneMarker <= line || OpenMarker <= line then line[|DoneMarker|..] else line,
      "[V]" <= line)
  }

  function DecodeTodos(lines: seq<string>): (todos: seq<TodoItem>)
    ensures |todos| == |lines|
  {
    seq(|lines|, i requires 0 <= i < |lines| => DecodeTodo(lines[i]))
  }

  /**
   * A date cell becomes its calendar day, the part of the ISO rendering
   * before the first `T`; other cells pass through.
   */
  function DateCell(c: Cell): (r: Cell)
    ensures !c.Date? ==> r == c
    ensures c.Date? ==> r.Str? && r.s <= c.iso && 'T' !in r.s
    ensures c.Date? ==> r.s == c.iso || c.iso[|r.s|] == 'T'
  {
    match c
    case Date(iso) =>
      FirstPiece(iso, "T");
      InfixOfChar(Split(iso, "T")[0], 'T');
      Str(Split(iso, "T")[0])
    case _ => c
  }

  /**
   * `Number(c)` for the cells the model admits in the faith level column:
   * a number, or the empty string, which gives 0.
   */
  function FaithNumber(c: Cell): int
    requires c.Num? || c == Str("")
  {
    if c.Num? then c.n else 0
  }

  /** A row the decoder can read: wide enough, with a whole number or nothing as faith level. */
  predicate Decodable(r: Row) {
    |r| > NextVisitCol && (r[FaithCol].Num? || r[FaithCol] == Str(""))
  }

  /**
   * A record as `getVisitLogs` hands it to the client. Columns that are
   * passed through keep the cell value the sheet returned.
   */
  datatype Listed = Listed(
    visiteeName: Cell,
    visitDate: Cell,
    visitTime: Cell,
    visitType: Cell,
    location: Cell,
    attendees: seq<string>,
    bibleVerse: Cell,
    topic: Cell,
    hymn: Cell,
    content: Cell,
    prayerRequests: seq<string>,
    faithLevel: int,
    interests: seq<string>,
    privateNote: Cell,
    todoItems: seq<TodoItem>,
    nextVisitDate: Cell)

  /**
   * One data row as a record. The four list cells are split in property
   * order; the first that throws makes the whole row fail.
   */
  function DecodeRow(r: Row): (res: Result<Listed>)
    requires Decodable(r)
    ensures res.Ok? <==>
      !SplitThrows(r[AttendeesCol]) && !SplitThrows(r[PrayerCol])
      && !SplitThrows(r[InterestsCol]) && !SplitThrows(r[TodoCol])
  {
    var attendees :- SplitCell(r[AttendeesCol], Comma);
    var prayers :- SplitCell(r[PrayerCol], NewLine);
    var interests :- SplitCell(r[InterestsCol], Comma);
    var todoLines :- SplitCell(r[TodoCol], NewLine);
    Ok(Listed(
      r[NameCol], DateCell(r[DateCol]), r[TimeCol], r[TypeCol], r[LocationCol],
      attendees, r[BibleCol], r[TopicCol], r[HymnCol], r[ContentCol],
      prayers, FaithNumber(r[FaithCol]), interests, r[NoteCol],
      DecodeTodos(todoLines), DateCell(r[NextVisitCol])))
  }

  /** The record a stored visit should come back as: its fields unchanged, `context` dropped. */
  function AsListed(v: VisitLog): Listed {
    Listed(
      Str(v.visiteeName), Str(v.visitDate), Str(v.visitTime), Str(v.visitType), Str(v.location),
      v.attendees, Str(v.bibleVerse), Str(v.topic), Str(v.hymn), Str(v.content),
      v.prayerRequests, v.faithLevel, v.interests, Str(v.privateNote),
      v.todoItems, Str(v.nextVisitDate))
  }

  /** A list whose items survive a join and a split on `sep`. */
  predicate ItemsSurvive(items: seq<string>, sep: string) {
    items != [""] && forall x <- items :: !HasInfix(x, sep)
  }

  /** A record whose every list comes back from the sheet item for item. */
  predicate SurvivesSheet(v: VisitLog) {
    && ItemsSurvive(v.attendees, Comma)
    && ItemsSurvive(v.prayerRequests, NewLine)
    && ItemsSurvive(v.interests, Comma)
    && forall t <- v.todoItems :: !HasInfix(t.text, NewLine)
  }

  lemma SeparatorsUnbordered()
    ensures Unbordered(Comma) && Unbordered(NewLine)
  {
    assert Comma[..1] == [','] && Comma[1..] == [' '];
  }

  /** Each to-do line decodes back to the to-do it was made from. */
  lemma TodoRoundTrip(t: TodoItem)
    ensures DecodeTodo(EncodeTodo(t)) == t
  {
    var line := EncodeTodo(t);
    if t.completed {
      assert DoneMarker <= line && "[V]" <= line;
    } else {
      assert OpenMarker <= line && line[1] == ' ';
    }
    assert line[|DoneMarker|..] == t.text;
  }

  /** A surviving list is recovered from its joined cell; an empty list from the empty cell. */
  lemma {:induction false} ListRoundTrip(items: seq<string>, sep: string)
    requires |sep| > 0 && Unbordered(sep) && ItemsSurvive(items, sep)
    ensures SplitCell(Str(Join(items, sep)), sep) == Ok(items)
  {
    if items != [] {
      assert Join(items, sep) != "" by {
        if |items| >= 2 {
          assert Join(items, sep) == items[0] + sep + Join(items[1..], sep);
        }
      }
      SplitJoin(items, sep);
    }
  }

  /** The to-do cell gives back the to-dos, provided no to-do text holds a line break. */
  lemma {:induction false} TodosRoundTrip(todos: seq<TodoItem>)
    requires forall t <- todos :: !HasInfix(t.text, NewLine)
    ensures SplitCell(Str(Join(TodoLines(todos), NewLine)), NewLine).Ok?
    ensures DecodeTodos(SplitCell(Str(Join(TodoLines(todos), NewLine)), NewLine).value) == todos
  {
    var lines := TodoLines(todos);
    forall x <- lines ensures !HasInfix(x, NewLine) && x != "" {
      var i :| 0 <= i < |lines| && lines[i] == x;
      var t := todos[i];
      InfixOfChar(t.text, '\n');
      InfixOfChar(x, '\n');
      assert x == (if t.completed then DoneMarker else OpenMarker) + t.text;
      assert '\n' !in DoneMarker && '\n' !in OpenMarker;
    }
    if |lines| == 1 {
      assert lines[0] in lines;
    }
    SeparatorsUnbordered();
    ListRoundTrip(lines, NewLine);
    forall i | 0 <= i < |todos| ensures DecodeTodos(lines)[i] == todos[i] {
      TodoRoundTrip(todos[i]);
    }
  }

  /**
   * Writing a record to the sheet and reading the row back gives the record,
   * without its `context`, whenever its lists survive the cell encoding.
   */
  lemma RoundTrip(v: VisitLog, now: string)
    requires SurvivesSheet(v)
    ensures DecodeRow(EncodeRow(Payload(v, {}), now)) == Ok(AsListed(v))
  {
    SeparatorsUnbordered();
    ListRoundTrip(v.attendees, Comma);
    ListRoundTrip(v.prayerRequests, NewLine);
    ListRoundTrip(v.interests, Comma);
    TodosRoundTrip(v.todoItems);
  }

  /** An empty-string item is lost: `[""]` is stored as the empty cell and read back as `[]`. */
  lemma EmptyItemIsLost(v: VisitLog, now: string)
    requires v.attendees == [""]
    ensures DecodeRow(EncodeRow(Payload(v, {}), now)).Ok?
    ensures DecodeRow(EncodeRow(Payload(v, {}), now)).value.attendees == []
  {
  }

  /** An item holding the separator comes back as two items. */
  lemma SeparatorInItemSplitsIt(v: VisitLog, now: string)
    requires v.attendees == ["A, B"]
    ensures DecodeRow(EncodeRow(Payload(v, {}), now)).value.attendees == ["A", "B"]
  {
    var d := Payload(v, {});
    var row := EncodeRow(d, now);
    assert row[AttendeesCol] == Str(Join(["A, B"], Comma)) == Str("A, B");
    SplitAtComma();
    assert SplitCell(row[AttendeesCol], Comma) == Ok(["A", "B"]);
  }

  /** `"A, B".split(", ")` is `["A", "B"]`. */
  lemma SplitAtComma()
    ensures Split("A, B", Comma) == ["A", "B"]
  {
    assert Split("B", Comma) == ["B"];
    assert " B"[..2] != Comma && " B"[1..] == "B" && [' '] + "B" == " B";
    assert Split(" B", Comma) == [" B"];
    assert Split(", B", Comma) == [""] + Split("B", Comma);
    assert Split(", B", Comma) == ["", "B"];
    assert "A, B"[..2] != Comma && "A, B"[1..] == ", B" && ['A'] + "" == "A";
  }

  // ---------------------------------------------------------------------
  // Reading the whole sheet

  /** Every row after the header can be decoded. */
  predicate DataDecodable(rows: seq<Row>) {
    forall i :: 1 <= i < |rows| ==> Decodable(rows[i])
  }

  /**
   * Items decoded by `f` bottom-up, the last item first, as the descending
   * loop of `getVisitLogs` pushes them. Any item that fails makes the whole
   * result fail.
   */
  function Collect<A, B>(xs: seq<A>, f: A --> Result<B>): Result<seq<B>>
    requires forall i :: 0 <= i < |xs| ==> f.requires(xs[i])
    decreases |xs|
  {
    if xs == [] then Ok([])
    else
      var later :- Collect(xs[1..], f);
      var first :- f(xs[0]);
      Ok(later + [first])
  }

  /** Collecting succeeds exactly when each item decodes. */
  lemma {:induction false} CollectOk<A, B>(xs: seq<A>, f: A --> Result<B>)
    requires forall i :: 0 <= i < |xs| ==> f.requires(xs[i])
    ensures Collect(xs, f).Ok? <==> forall i :: 0 <= i < |xs| ==> f(xs[i]).Ok?
    decreases |xs|
  {
    if xs != [] {
      CollectOk(xs[1..], f);
      assert forall i :: 1 <= i < |xs| ==> xs[1..][i - 1] == xs[i];
    }
  }

  /** Collected value `k` is the decoded item `k` places from the end. */
  lemma {:induction false} CollectAt<A, B>(xs: seq<A>, f: A --> Result<B>, k: nat)
    requires forall i :: 0 <= i < |xs| ==> f.requires(xs[i])
    requires Collect(xs, f).Ok? && k < |xs|
    ensures |Collect(xs, f).value| == |xs|
    ensures f(xs[|xs| - 1 - k]) == Ok(Collect(xs, f).value[k])
    decreases |xs|
  {
    var later := Collect(xs[1..], f).value;
    if k < |xs| - 1 {
      CollectAt(xs[1..], f, k);
      assert xs[1..][|xs[1..]| - 1 - k] == xs[|xs| - 1 - k];
    } else if |xs| > 1 {
      CollectAt(xs[1..], f, 0);
    }
  }

  /** The collected values are the decoded items in reverse order. */
  lemma CollectReversed<A, B>(xs: seq<A>, f: A --> Result<B>)
    requires forall i :: 0 <= i < |xs| ==> f.requires(xs[i])
    requires Collect(xs, f).Ok?
    ensures var ys := Collect(xs, f).value;
      |ys| == |xs| &&
      forall k :: 0 <= k < |ys| ==> f(xs[|xs| - 1 - k]) == Ok(ys[k])
  {
    if xs != [] {
      CollectAt(xs, f, 0);
    }
    forall k | 0 <= k < |xs| ensures f(xs[|xs| - 1 - k]) == Ok(Collect(xs, f).value[k]) {
      CollectAt(xs, f, k);
    }
  }

  /** If some suffix of the items fails to decode, so do all the items. */
  lemma {:induction false} CollectFailureSpreads<A, B>(xs: seq<A>, f: A --> Result<B>, j: nat)
    requires forall i :: 0 <= i < |xs| ==> f.requires(xs[i])
    requires j <= |xs| && Collect(xs[j..], f).Err?
    ensures Collect(xs, f).Err?
    decreases j
  {
    if j > 0 {
      assert xs[1..][j - 1..] == xs[j..];
      CollectFailureSpreads(xs[1..], f, j - 1);
    }
  }

  /** An item appended at the end is collected first. */
  lemma {:induction false} CollectAppend<A, B>(xs: seq<A>, f: A --> Result<B>, x: A)
    requires forall i :: 0 <= i < |xs| ==> f.requires(xs[i])
    requires f.requires(x) && Collect(xs, f).Ok? && f(x).Ok?
    ensures forall i :: 0 <= i < |xs + [x]| ==> f.requires((xs + [x])[i])
    ensures Collect(xs + [x], f) == Ok([f(x).value] + Collect(xs, f).value)
    decreases |xs|
  {
    var all := xs + [x];
    assert forall i :: 0 <= i < |all| ==> all[i] == if i < |xs| then xs[i] else x;
    if xs == [] {
      assert all[1..] == [] && all[0] == x;
      assert Collect(all[1..], f) == Ok([]);
      assert Collect(all, f) == Ok([] + [f(x).value]);
      assert [] + [f(x).value] == [f(x).value] + [];
    } else {
      assert all[0] == xs[0] && all[1..] == xs[1..] + [x];
      CollectAppend(xs[1..], f, x);
      var y, z, l1 := f(x).value, f(xs[0]).value, Collect(xs[1..], f).value;
      assert Collect(all[1..], f) == Ok([y] + l1);
      assert [y] + l1 + [z] == [y] + (l1 + [z]);
    }
  }

  /** Data rows decoded bottom-up, the last row first; any row that fails makes the whole result fail. */
  function DecodeAll(rows: seq<Row>): Result<seq<Listed>>
    requires forall i :: 0 <= i < |rows| ==> Decodable(rows[i])
  {
    Collect(rows, DecodeRow)
  }

  /** What `getVisitLogs` returns for the sheet's rows: [] for a header-only sheet or on any error. */
  function Listing(rows: seq<Row>): seq<Listed>
    requires DataDecodable(rows)
  {
    if |rows| <= 1 then []
    else match DecodeAll(rows[1..])
      case Ok(logs) => logs
      case Err(_) => []
  }

  /**
   * The sheet lists every data row, newest (bottom) first, when each row
   * decodes; a single row that cannot be decoded empties the whole list.
   */
  lemma ListingIsNewestFirst(rows: seq<Row>)
    requires DataDecodable(rows) && |rows| >= 1
    ensures (forall i :: 1 <= i < |rows| ==> DecodeRow(rows[i]).Ok?) ==>
      |Listing(rows)| == |rows| - 1 &&
      forall k :: 0 <= k < |rows| - 1 ==> DecodeRow(rows[|rows| - 1 - k]) == Ok(Listing(rows)[k])
    ensures (exists i :: 1 <= i < |rows| && DecodeRow(rows[i]).Err?) ==> Listing(rows) == []
  {
    if forall i :: 1 <= i < |rows| ==> DecodeRow(rows[i]).Ok? {
      ListingAllRows(rows);
    }
    if exists i :: 1 <= i < |rows| && DecodeRow(rows[i]).Err? {
      var i :| 1 <= i < |rows| && DecodeRow(rows[i]).Err?;
      ListingBadRow(rows, i);
    }
  }

  /** When every data row decodes, the listing is the data rows decoded bottom-up. */
  lemma ListingAllRows(rows: seq<Row>)
    requires DataDecodable(rows) && |rows| >= 1
    requires forall i :: 1 <= i < |rows| ==> DecodeRow(rows[i]).Ok?
    ensures |Listing(rows)| == |rows| - 1
    ensures forall k :: 0 <= k < |rows| - 1 ==> DecodeRow(rows[|rows| - 1 - k]) == Ok(Listing(rows)[k])
  {
    var data := rows[1..];
    forall i | 0 <= i < |data| ensures DecodeRow(data[i]).Ok? {
      assert data[i] == rows[i + 1];
    }
    CollectOk(data, DecodeRow);
    CollectReversed(data, DecodeRow);
    forall k | 0 <= k < |rows| - 1
      ensures DecodeRow(rows[|rows| - 1 - k]) == Ok(Listing(rows)[k])
    {
      assert rows[|rows| - 1 - k] == data[|data| - 1 - k];
    }
  }

  /** One data row that cannot be decoded empties the listing. */
  lemma ListingBadRow(rows: seq<Row>, i: int)
    requires DataDecodable(rows) && 1 <= i < |rows| && DecodeRow(rows[i]).Err?
    ensures Listing(rows) == []
  {
    var data := rows[1..];
    assert data[i - 1] == rows[i];
    CollectOk(data, DecodeRow);
  }

  /**
   * Saving a record and listing again puts that record in front of
   * everything that was listed before.
   */
  lemma SavedRecordIsListedFirst(rows: seq<Row>, v: VisitLog, now: string)
    requires DataDecodable(rows) && |rows| >= 1
    requires forall i :: 1 <= i < |rows| ==> DecodeRow(rows[i]).Ok?
    requires SurvivesSheet(v)
    ensures DataDecodable(rows + [EncodeRow(Payload(v, {}), now)])
    ensures Listing(rows + [EncodeRow(Payload(v, {}), now)]) == [AsListed(v)] + Listing(rows)
  {
    var row := EncodeRow(Payload(v, {}), now);
    RoundTrip(v, now);
    ListingAppend(rows, row);
  }

  /** A decodable row added at the bottom of a sheet whose rows all decode is listed first. */
  lemma ListingAppend(rows: seq<Row>, row: Row)
    requires DataDecodable(rows) && |rows| >= 1
    requires forall i :: 1 <= i < |rows| ==> DecodeRow(rows[i]).Ok?
    requires Decodable(row) && DecodeRow(row).Ok?
    ensures DataDecodable(rows + [row])
    ensures Listing(rows + [row]) == [DecodeRow(row).value] + Listing(rows)
  {
    var data := rows[1..];
    forall i | 0 <= i < |data| ensures Decodable(data[i]) && DecodeRow(data[i]).Ok? {
      assert data[i] == rows[i + 1];
    }
    CollectOk(data, DecodeRow);
    CollectAppend(data, DecodeRow, row);
    var all := rows + [row];
    assert all[1..] == data + [row];
    forall i | 1 <= i < |all| ensures Decodable(all[i]) {
      assert all[i] == (data + [row])[i - 1];
    }
  }

  // ---------------------------------------------------------------------
  // The spreadsheet

  /** The answer of `processForm`. */
  datatype Response = Saved(message: string) | Failed(error: string)

  const SavedMessage := "성공적으로 저장되었습니다."

  /**
   * The spreadsheet bound to the script, reduced to the one sheet the
   * application uses, the sheet named "심방기록".
   */
  class Spreadsheet {
    /** The log sheet's rows, header first, or None while the sheet does not exist. */
    var sheet: Option<seq<Row>>

    ghost predicate Valid()
      reads this
    {
      sheet.Some? ==> DataDecodable(sheet.value)
    }

    constructor (existing: Option<seq<Row>>)
      requires existing.Some? ==> DataDecodable(existing.value)
      ensures Valid() && sheet == existing
    {
      sheet := existing;
    }

    /** `getOrCreateSheet`: a missing sheet is created holding the header; an existing one is left alone. */
    method GetOrCreateSheet() returns (rows: seq<Row>)
      requires Valid()
      modifies this
      ensures Valid() && sheet == Some(rows)
      ensures old(sheet).None? ==> rows == [HeaderRow]
      ensures old(sheet).Some? ==> rows == old(sheet).value
    {
      if sheet.None? {
        sheet := Some([HeaderRow]);
      }
      rows := sheet.value;
    }

    /**
     * `processForm`: append one row for `data`, stamped `now`. A spreadsheet
     * service failure while appending (`fault`) is caught and reported; the
     * sheet may have been created by then.
     */
    method ProcessForm(data: Payload, now: string, fault: Option<string>) returns (resp: Response)
      requires Valid()
      modifies this
      ensures Valid() && sheet.Some?
      ensures fault.None? ==>
        && |sheet.value| >= 1
        && sheet.value[|sheet.value| - 1] == EncodeRow(data, now)
        && sheet.value[..|sheet.value| - 1] == (if old(sheet).None? then [HeaderRow] else old(sheet).value)
        && resp == Saved(SavedMessage)
      ensures fault.Some? ==>
        && sheet.value == (if old(sheet).None? then [HeaderRow] else old(sheet).value)
        && resp == Failed(fault.value)
    {
      var rows := GetOrCreateSheet();
      if fault.Some? {
        return Failed(fault.value);
      }
      var row := EncodeRow(data, now);
      sheet := Some(rows + [row]);
      assert sheet.value[..|sheet.value| - 1] == rows;
      resp := Saved(SavedMessage);
    }

    /**
     * `getVisitLogs`: decode the data rows from the bottom up. A failure of
     * the spreadsheet service (`fault`) or of any row gives [].
     */
    method GetVisitLogs(fault: Option<string>) returns (logs: seq<Listed>)
      requires Valid()
      modifies this
      ensures Valid() && sheet.Some?
      ensures old(sheet).None? ==> sheet.value == [HeaderRow]
      ensures old(sheet).Some? ==> sheet == old(sheet)
      ensures logs == if fault.Some? then [] else Listing(sheet.value)
    {
      var rows := GetOrCreateSheet();
      if fault.Some? {
        return [];
      }
      if |rows| <= 1 {
        return [];
      }
      logs := [];
      var i := |rows| - 1;
      while i >= 1
        invariant 0 <= i < |rows|
        invariant DecodeAll(rows[i + 1..]) == Ok(logs)
      {
        var r := DecodeRow(rows[i]);
        assert rows[i..][1..] == rows[i + 1..];
        if r.Err? {
          assert rows[1..][i - 1..] == rows[i..];
          CollectFailureSpreads(rows[1..], DecodeRow, i - 1);
          return [];
        }
        logs := logs + [r.value];
        i := i - 1;
      }
      assert rows[1..] == rows[i + 1..];
    }
  }
}
