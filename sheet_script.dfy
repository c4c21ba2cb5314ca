/** The spreadsheet script that the administrator screen ships as text
    (`gasCode`, components/AdminPage.tsx:47-89): `doPost` keeps the slot list
    and the company configuration as header-plus-rows tables on two sheets
    and serves five actions on them. A sheet is a sequence of rows of cells. */
module SheetScript {
  import opened Types
  import Json

  /** A cell as the script writes and reads it: text, a boolean, or empty. */
  datatype Cell = Text(text: string) | Flag(flag: bool) | Blank

  type Row = seq<Cell>
  type Table = seq<Row>

  /** The cell in column `k` (0-based); cells past the end of a row are empty. */
  function At(row: Row, k: nat): Cell {
    if k < |row| then row[k] else Blank
  }

  function Blanks(n: nat): (r: Row)
    ensures |r| == n && forall j :: 0 <= j < n ==> r[j] == Blank
  {
    seq(n, _ => Blank)
  }

  /** Writes `v` into column `k` of a row, widening the row with empty cells
      when it is shorter. */
  function Put(row: Row, k: nat, v: Cell): (r: Row)
    ensures |r| == if k < |row| then |row| else k + 1
    ensures At(r, k) == v
    ensures forall j: nat :: j != k ==> At(r, j) == At(row, j)
  {
    if k < |row| then row[k := v] else row + Blanks(k - |row|) + [v]
  }

  /** A cell read where the record wants text. An empty cell reads as the
      empty string. */
  function AsText(c: Cell): string {
    match c
    case Text(s) => s
    case Flag(b) => if b then "true" else "false"
    case Blank => ""
  }

  /** The booker column: an empty cell means nobody booked. */
  function AsOptText(c: Cell): Option<string> {
    if c.Blank? then None else Some(AsText(c))
  }

  /** `v === true || v === "TRUE"`, the test for the two flag columns. */
  predicate IsTrue(c: Cell) {
    c == Flag(true) || c == Text("TRUE")
  }

  // ---------------------------------------------------------------- slots

  const SlotHeader: Row := [Text("id"), Text("date"), Text("startTime"), Text("endTime"),
                            Text("isBooked"), Text("bookedBy"), Text("isActive")]

  /** The row `saveSlots` appends for one slot; a missing booker leaves its cell empty. */
  function SlotRow(s: TimeSlot): Row {
    [Text(s.id), Text(s.date), Text(s.startTime), Text(s.endTime), Flag(s.isBooked),
     if s.bookedBy.Some? then Text(s.bookedBy.value) else Blank, Flag(s.isActive)]
  }

  /** The record `fetchSlots` builds from one data row. */
  function ReadSlot(row: Row): TimeSlot {
    TimeSlot(AsText(At(row, 0)), AsText(At(row, 1)), AsText(At(row, 2)), AsText(At(row, 3)),
             IsTrue(At(row, 4)), AsOptText(At(row, 5)), IsTrue(At(row, 6)))
  }

  /** The whole slot sheet after `saveSlots(slots)`: the header, then one row per slot. */
  function SlotTable(slots: seq<TimeSlot>): (t: Table)
    ensures |t| == |slots| + 1 && t[0] == SlotHeader
    ensures forall k :: 0 <= k < |slots| ==> t[k + 1] == SlotRow(slots[k])
  {
    [SlotHeader] + seq(|slots|, k requires 0 <= k < |slots| => SlotRow(slots[k]))
  }

  /** `fetchSlots`: no slots when the sheet holds at most the header;
      otherwise one record per row after the first, in sheet order. */
  function FetchSlots(data: Table): (r: seq<TimeSlot>)
    ensures |data| <= 1 ==> r == []
    ensures |data| > 1 ==> |r| == |data| - 1
    ensures forall k :: 0 <= k < |r| ==> r[k] == ReadSlot(data[k + 1])
  {
    if |data| <= 1 then []
    else seq(|data| - 1, k requires 0 <= k < |data| - 1 => ReadSlot(data[k + 1]))
  }

  /** Each field survives being written to a row and read back. */
  lemma ReadSlotRow(s: TimeSlot)
    ensures ReadSlot(SlotRow(s)) == s
  {
  }

  /** `fetchSlots` after `saveSlots(slots)` returns the same slots in the same order. */
  lemma FetchSavedSlots(slots: seq<TimeSlot>)
    ensures FetchSlots(SlotTable(slots)) == slots
  {
    var r := FetchSlots(SlotTable(slots));
    forall k | 0 <= k < |slots| ensures r[k] == slots[k] {
      ReadSlotRow(slots[k]);
    }
  }

  // --------------------------------------------------------------- config

  const ConfigHeader: Row := [Text("name"), Text("jobTitle"), Text("description"), Text("guidelines")]

  /** The row `saveConfig` appends; the guidelines go in as JSON text. */
  function ConfigRow(c: CompanyInfo): Row {
    [Text(c.name), Text(c.jobTitle), Text(c.description), Text(Json.Stringify(c.guidelines))]
  }

  /** The whole config sheet after `saveConfig(c)`. */
  function ConfigTable(c: CompanyInfo): Table {
    [ConfigHeader, ConfigRow(c)]
  }

  /** `fetchConfig`'s data: an empty object when the sheet holds at most the
      header, otherwise the record in the row after it. */
  datatype ConfigData = EmptyObject | Config(info: CompanyInfo)

  /** `fetchConfig`; None where `JSON.parse` of the guidelines cell throws. */
  function FetchConfig(data: Table): (r: Option<ConfigData>)
    ensures |data| <= 1 ==> r == Some(EmptyObject)
    ensures r.Some? && r.value.Config? ==>
              |data| > 1 &&
              r.value.info.name == AsText(At(data[1], 0)) &&
              r.value.info.jobTitle == AsText(At(data[1], 1)) &&
              r.value.info.description == AsText(At(data[1], 2)) &&
              Json.Parse(AsText(At(data[1], 3))) == Some(r.value.info.guidelines)
    ensures |data| > 1 ==> (r.None? <==> Json.Parse(AsText(At(data[1], 3))).None?)
    ensures |data| > 1 && Json.Parse(AsText(At(data[1], 3))).Some? ==> r.Some? && r.value.Config?
  {
    if |data| <= 1 then Some(EmptyObject)
    else
      var row := data[1];
      match Json.Parse(AsText(At(row, 3)))
      case None => None
      case Some(gs) => Some(Config(CompanyInfo(AsText(At(row, 0)), AsText(At(row, 1)), AsText(At(row, 2)), gs)))
  }

  /** `fetchConfig` after `saveConfig(c)` returns c. */
  lemma FetchSavedConfig(c: CompanyInfo)
    ensures FetchConfig(ConfigTable(c)) == Some(Config(c))
  {
    Json.ParseStringify(c.guidelines);
  }

  // -------------------------------------------------------------- booking

  /** The text `bookSlot` writes into the booker column. */
  function Booker(d: BookingDetails): string {
    d.candidateName + " (" + d.email + ")"
  }

  /** `data[i][0] == slotId && data[i][4] != true && data[i][4] != "TRUE"`. */
  predicate Bookable(row: Row, slotId: string) {
    !At(row, 0).Flag? && AsText(At(row, 0)) == slotId && !IsTrue(At(row, 4))
  }

  /** The first bookable data row at or after `from`, as the loop finds it. */
  function FirstBookable(data: Table, slotId: string, from: nat): (r: Option<nat>)
    ensures r.Some? ==> from <= r.value < |data| && Bookable(data[r.value], slotId)
    ensures r.Some? ==> forall j :: from <= j < r.value ==> !Bookable(data[j], slotId)
    ensures r.None? ==> forall j :: from <= j < |data| ==> !Bookable(data[j], slotId)
    decreases |data| - from
  {
    if from >= |data| then None
    else if Bookable(data[from], slotId) then Some(from)
    else FirstBookable(data, slotId, from + 1)
  }

  /** A row after `bookSlot` marked it: booked flag set, booker written. */
  function MarkBooked(row: Row, d: BookingDetails): Row {
    Put(Put(row, 4, Flag(true)), 5, Text(Booker(d)))
  }

  /** The slot sheet after `bookSlot(d)`: the first bookable row after the
      header is marked; with no such row the sheet is unchanged. */
  function BookedTable(data: Table, d: BookingDetails): Table {
    match FirstBookable(data, d.slotId, 1)
    case None => data
    case Some(i) => data[i := MarkBooked(data[i], d)]
  }

  /** `bookSlot` changes at most one row, never the header, and that row is
      the first data row whose id matches and that is not yet booked. */
  lemma BookedTableChangesOneRow(data: Table, d: BookingDetails)
    ensures |BookedTable(data, d)| == |data|
    ensures FirstBookable(data, d.slotId, 1).None? ==> BookedTable(data, d) == data
    ensures FirstBookable(data, d.slotId, 1).Some? ==>
              var i := FirstBookable(data, d.slotId, 1).value;
              1 <= i && Bookable(data[i], d.slotId) &&
              (forall j :: 1 <= j < i ==> !Bookable(data[j], d.slotId)) &&
              (forall j :: 0 <= j < |data| && j != i ==> BookedTable(data, d)[j] == data[j])
  {
  }

  /** In the row it marks, `bookSlot` sets column 5 to true and column 6 to
      the booker text (1-based, as the script counts) and leaves every other
      cell as it was. */
  lemma BookedRowCells(data: Table, d: BookingDetails)
    requires FirstBookable(data, d.slotId, 1).Some?
    ensures var i := FirstBookable(data, d.slotId, 1).value;
            var row := BookedTable(data, d)[i];
            At(row, 4) == Flag(true) && At(row, 5) == Text(Booker(d)) &&
            forall k: nat :: k != 4 && k != 5 ==> At(row, k) == At(data[i], k)
  {
  }

  /** Read back through `fetchSlots`, the booked slot keeps its id, date and
      times, shows as booked by the candidate, and no other slot changes. */
  lemma {:induction false} BookedSlotFetched(data: Table, d: BookingDetails)
    requires FirstBookable(data, d.slotId, 1).Some?
    ensures var i := FirstBookable(data, d.slotId, 1).value;
            var before, after := FetchSlots(data), FetchSlots(BookedTable(data, d));
            |after| == |before| && 0 <= i - 1 < |after| &&
            after[i - 1] == before[i - 1].(isBooked := true, bookedBy := Some(Booker(d))) &&
            after[i - 1].id == d.slotId &&
            forall k :: 0 <= k < |after| && k != i - 1 ==> after[k] == before[k]
  {
    var i := FirstBookable(data, d.slotId, 1).value;
    var t := BookedTable(data, d);
    BookedTableChangesOneRow(data, d);
    BookedRowCells(data, d);
    var after := FetchSlots(t);
    assert after[i - 1] == ReadSlot(t[i]);
    assert IsTrue(At(t[i], 4));
  }

  /** Once a row is marked it is no longer bookable: a second attempt on the
      same slot leaves the sheet as the first attempt left it when no other
      row carries that id. */
  lemma {:induction false} SecondBookingLeavesSheet(data: Table, d: BookingDetails, e: BookingDetails)
    requires e.slotId == d.slotId
    requires FirstBookable(data, d.slotId, 1).Some?
    requires forall j :: 1 <= j < |data| && j != FirstBookable(data, d.slotId, 1).value ==>
               !Bookable(data[j], d.slotId)
    ensures BookedTable(BookedTable(data, d), e) == BookedTable(data, d)
  {
    var t := BookedTable(data, d);
    BookedTableChangesOneRow(data, d);
    BookedRowCells(data, d);
    var i := FirstBookable(data, d.slotId, 1).value;
    assert !Bookable(t[i], d.slotId);
    assert FirstBookable(t, e.slotId, 1).None?;
  }

  // ---------------------------------------------------------------- doPost

  /** The five actions, with their payloads; anything else is `Unknown`. */
  datatype Request =
    | FetchSlotsReq
    | SaveSlotsReq(slots: seq<TimeSlot>)
    | FetchConfigReq
    | SaveConfigReq(config: CompanyInfo)
    | BookSlotReq(details: BookingDetails)
    | Unknown(action: string)

  datatype Data = Null | SlotList(slots: seq<TimeSlot>) | ConfigObject(config: ConfigData)

  /** `{ success, data }`; the text of a caught exception is not modelled. */
  datatype Response = Response(success: bool, data: Data)

  /** What one `doPost` call answers and leaves in the two sheets. */
  datatype Effect = Effect(response: Response, slotRows: Table, configRows: Table)

  /** `doPost` on a request, given the two sheets as they were. */
  function Handle(req: Request, slotRows: Table, configRows: Table): Effect {
    match req
    case FetchSlotsReq => Effect(Response(true, SlotList(FetchSlots(slotRows))), slotRows, configRows)
    case SaveSlotsReq(slots) => Effect(Response(true, Null), SlotTable(slots), configRows)
    case FetchConfigReq =>
      var c := FetchConfig(configRows);
      if c.None? then Effect(Response(false, Null), slotRows, configRows)
      else Effect(Response(true, ConfigObject(c.value)), slotRows, configRows)
    case SaveConfigReq(c) => Effect(Response(true, Null), slotRows, ConfigTable(c))
    case BookSlotReq(d) => Effect(BookResponseAsWritten(slotRows, d), BookedTable(slotRows, d), configRows)
    case Unknown(_) => Effect(Response(true, Null), slotRows, configRows)
  }

  /** Only `fetchConfig` can fail, when its guidelines cell does not parse;
      `bookSlot` answers success whether or not it marked a row; reads change
      neither sheet; each write rewrites only its own sheet. */
  lemma HandleFrames(req: Request, slotRows: Table, configRows: Table)
    ensures var e := Handle(req, slotRows, configRows);
            (!e.response.success <==> req.FetchConfigReq? && FetchConfig(configRows).None?) &&
            (req.BookSlotReq? ==> e.response == Response(true, Null)) &&
            (!req.SaveConfigReq? ==> e.configRows == configRows) &&
            (!req.SaveSlotsReq? && !req.BookSlotReq? ==> e.slotRows == slotRows)
  {
  }

  /** `bookSlot`'s answer as written: `result.success` starts true and
      nothing in the loop clears it. */
  function BookResponseAsWritten(data: Table, d: BookingDetails): (r: Response)
    ensures r.success && r.data == Null
  {
    Response(true, Null)
  }

  /** As written, `bookSlot` answers success whether or not a row was marked:
      asking again for a slot that is already booked changes nothing and
      still reports success. */
  lemma BookSlotReportsSuccessWithoutBooking()
    ensures var d := BookingDetails("Kim", "kim@example.com", "010", "s1");
            var sheet := [SlotHeader, [Text("s1"), Text("2025-06-01"), Text("14:00"), Text(""),
                                       Flag(true), Text("Lee (lee@example.com)"), Flag(true)]];
            BookedTable(sheet, d) == sheet && BookResponseAsWritten(sheet, d).success &&
            !IntendedBookResponse(sheet, d).success
  {
    var d := BookingDetails("Kim", "kim@example.com", "010", "s1");
    var sheet := [SlotHeader, [Text("s1"), Text("2025-06-01"), Text("14:00"), Text(""),
                               Flag(true), Text("Lee (lee@example.com)"), Flag(true)]];
    assert !Bookable(sheet[1], d.slotId);
    assert !Bookable(sheet[0], d.slotId);
  }

  /** `bookSlot` as intended: success exactly when a row was marked. */
  function IntendedBookResponse(data: Table, d: BookingDetails): (r: Response)
    ensures r.success <==> BookedTable(data, d) != data
    ensures r.success <==> FirstBookable(data, d.slotId, 1).Some?
    ensures r.data == Null
  {
    var found := FirstBookable(data, d.slotId, 1);
    if found.Some? then
      assert At(BookedTable(data, d)[found.value], 4) != At(data[found.value], 4);
      Response(true, Null)
    else
      Response(false, Null)
  }

  /** The written and the intended answers differ exactly on the requests
      that mark no row: an unknown id, or an id whose rows are all booked. */
  lemma AnswersDifferWhenNothingMarked(data: Table, d: BookingDetails)
    ensures BookResponseAsWritten(data, d) != IntendedBookResponse(data, d) <==>
            FirstBookable(data, d.slotId, 1).None?
    ensures Handle(BookSlotReq(d), data, []).response != IntendedBookResponse(data, d) <==>
            BookedTable(data, d) == data
  {
  }

  // ------------------------------------------------------------ the sheets

  /** A sheet of the spreadsheet, updated in place as the script's sheet API does. */
  class Sheet {
    var rows: Table

    constructor ()
      ensures rows == []
    {
      rows := [];
    }

    method Clear()
      modifies this
      ensures rows == []
    {
      rows := [];
    }

    method AppendRow(row: Row)
      modifies this
      ensures rows == old(rows) + [row]
    {
      rows := rows + [row];
    }

    /** `getRange(r, c).setValue(v)`, 1-based, on an existing row. */
    method SetValue(r: nat, c: nat, v: Cell)
      requires 1 <= r <= |rows| && 1 <= c
      modifies this
      ensures rows == old(rows)[r - 1 := Put(old(rows)[r - 1], c - 1, v)]
    {
      rows := rows[r - 1 := Put(rows[r - 1], c - 1, v)];
    }
  }

  /** `saveSlots`: clear, then the header, then one row per slot. */
  method SaveSlots(sheet: Sheet, slots: seq<TimeSlot>)
    modifies sheet
    ensures sheet.rows == SlotTable(slots)
  {
    sheet.Clear();
    sheet.AppendRow(SlotHeader);
    for k := 0 to |slots|
      invariant |sheet.rows| == k + 1 && sheet.rows[0] == SlotHeader
      invariant forall j :: 0 <= j < k ==> sheet.rows[j + 1] == SlotRow(slots[j])
    {
      sheet.AppendRow(SlotRow(slots[k]));
    }
  }

  /** `saveConfig`: clear, then the header, then the one config row. */
  method SaveConfig(sheet: Sheet, c: CompanyInfo)
    modifies sheet
    ensures sheet.rows == ConfigTable(c)
  {
    sheet.Clear();
    sheet.AppendRow(ConfigHeader);
    sheet.AppendRow(ConfigRow(c));
  }

  /** `bookSlot`: scan the data rows from the second sheet row on and mark the
      first one with the id that is not booked; reports whether it marked one. */
  method BookSlot(sheet: Sheet, d: BookingDetails) returns (marked: bool)
    modifies sheet
    ensures sheet.rows == BookedTable(old(sheet.rows), d)
    ensures marked <==> FirstBookable(old(sheet.rows), d.slotId, 1).Some?
  {
    var data := sheet.rows;
    marked := false;
    var i := 1;
    while i < |data|
      invariant 1 <= i
      invariant sheet.rows == data
      invariant FirstBookable(data, d.slotId, i) == FirstBookable(data, d.slotId, 1)
    {
      if Bookable(data[i], d.slotId) {
        sheet.SetValue(i + 1, 5, Flag(true));
        sheet.SetValue(i + 1, 6, Text(Booker(d)));
        marked := true;
        return;
      }
      i := i + 1;
    }
  }

  /** The slots sheet and the config sheet of one spreadsheet. */
  class Spreadsheet {
    const slotSheet: Sheet
    const configSheet: Sheet

    constructor ()
      ensures slotSheet.rows == [] && configSheet.rows == []
      ensures slotSheet != configSheet && fresh(slotSheet) && fresh(configSheet)
    {
      slotSheet := new Sheet();
      configSheet := new Sheet();
    }

    /** `doPost`: dispatch on the action and build the response. */
    method DoPost(req: Request) returns (resp: Response)
      requires slotSheet != configSheet
      modifies slotSheet, configSheet
      ensures Effect(resp, slotSheet.rows, configSheet.rows) ==
              Handle(req, old(slotSheet.rows), old(configSheet.rows))
    {
      resp := Response(true, Null);
      match req {
        case FetchSlotsReq =>
          resp := Response(true, SlotList(FetchSlots(slotSheet.rows)));
        case SaveSlotsReq(slots) =>
          SaveSlots(slotSheet, slots);
        case FetchConfigReq =>
          var c := FetchConfig(configSheet.rows);
          if c.None? {
            resp := Response(false, Null);
          } else {
            resp := Response(true, ConfigObject(c.value));
          }
        case SaveConfigReq(c) =>
          SaveConfig(configSheet, c);
        case BookSlotReq(d) =>
          var marked := BookSlot(slotSheet, d);
        case Unknown(_) =>
      }
    }
  }
}
