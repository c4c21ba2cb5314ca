/** The administrator screen (components/AdminPage.tsx): it loads the slot
    list and the company configuration once, edits both in memory, and saves
    them back (config first, then slots) through the spreadsheet script. */
module AdminPage {
  import opened Types
  import SheetScript

  /** The "add slot" form (`newSlot`). */
  datatype Draft = Draft(date: string, startTime: string, endTime: string)

  /** The screen's state: `slots`, `config`, `isLoading` and `newSlot`. */
  datatype Editor = Editor(
    slots: seq<TimeSlot>,
    config: Option<CompanyInfo>,
    isLoading: bool,
    draft: Draft)

  /** The state when the screen mounts. */
  const Mounted: Editor := Editor([], None, true, Draft("", "", ""))

  /** What a nameless fetched configuration is replaced by. */
  const NamelessDefault: CompanyInfo := CompanyInfo("회사명", "직무명", "", [])

  /** What a failed load leaves as the configuration. */
  const EmptyConfig: CompanyInfo := CompanyInfo("", "", "", [])

  // ------------------------------------------------------------------ load

  /** The mount-time `load`: both fetches, then the defaulting of the config.
      A failed fetch leaves the slots as they were and empties the config. */
  function AfterLoad(e: Editor, slots: Remote<Option<seq<TimeSlot>>>, config: Remote<Option<CompanyInfo>>): (r: Editor)
    ensures !r.isLoading && r.draft == e.draft && r.config.Some?
    ensures (slots.Threw? || config.Threw?) ==> r.slots == e.slots && r.config == Some(EmptyConfig)
    ensures slots.Returned? && config.Returned? ==> r.slots == OrEmpty(slots.value)
    ensures slots.Returned? && config.Returned? && config.value.Some? && config.value.value.name != "" ==>
              r.config == config.value
    ensures slots.Returned? && config.Returned? && (config.value.None? || config.value.value.name == "") ==>
              r.config == Some(NamelessDefault)
  {
    if slots.Threw? || config.Threw? then
      e.(config := Some(EmptyConfig), isLoading := false)
    else
      var c := if config.value.Some? && config.value.value.name != "" then config.value.value else NamelessDefault;
      e.(slots := OrEmpty(slots.value), config := Some(c), isLoading := false)
  }

  /** Loaded at mount, a failed fetch leaves no slots and the all-empty config. */
  lemma MountLoadThrown(slots: Remote<Option<seq<TimeSlot>>>, config: Remote<Option<CompanyInfo>>)
    requires slots.Threw? || config.Threw?
    ensures AfterLoad(Mounted, slots, config).slots == []
    ensures AfterLoad(Mounted, slots, config).config == Some(EmptyConfig)
  {
  }

  // ------------------------------------------------------ slot list edits

  /** The slot the "+" button creates from the form; nothing about the date
      or the start time is checked, and the end time is left empty. */
  function NewSlot(id: string, date: string, startTime: string): (s: TimeSlot)
    ensures s.id == id && s.date == date && s.startTime == startTime && s.endTime == ""
    ensures !s.isBooked && s.isActive && s.bookedBy.None?
  {
    TimeSlot(id, date, startTime, "", false, None, true)
  }

  /** `[...slots, newSlot]`: exactly one slot is appended and the earlier
      ones stay as they were. */
  function AppendSlot(slots: seq<TimeSlot>, id: string, date: string, startTime: string): (r: seq<TimeSlot>)
    ensures |r| == |slots| + 1 && r[..|slots|] == slots
    ensures r[|slots|] == NewSlot(id, date, startTime)
  {
    slots + [NewSlot(id, date, startTime)]
  }

  /** `slots.filter(x => x.id !== id)`. */
  function RemoveSlot(slots: seq<TimeSlot>, id: string): (r: seq<TimeSlot>)
    ensures |r| <= |slots|
    ensures forall x :: x in r <==> x in slots && x.id != id
  {
    if slots == [] then []
    else (if slots[0].id != id then [slots[0]] else []) + RemoveSlot(slots[1..], id)
  }

  /** Deleting works slot by slot: on a concatenation it deletes from each
      part and keeps the parts in order, so the survivors keep their order. */
  lemma {:induction false} RemoveSlotAppend(a: seq<TimeSlot>, b: seq<TimeSlot>, id: string)
    ensures RemoveSlot(a + b, id) == RemoveSlot(a, id) + RemoveSlot(b, id)
  {
    if a == [] {
      assert a + b == b;
    } else {
      assert (a + b)[1..] == a[1..] + b;
      RemoveSlotAppend(a[1..], b, id);
    }
  }

  /** A slot with another id survives deletion; one with the id does not. */
  lemma RemoveSlotSingle(s: TimeSlot, id: string)
    ensures RemoveSlot([s], id) == if s.id != id then [s] else []
  {
    assert [s][1..] == [];
  }

  /** Deleting an id no slot carries changes nothing. */
  lemma {:induction false} RemoveSlotAbsent(slots: seq<TimeSlot>, id: string)
    requires forall k :: 0 <= k < |slots| ==> slots[k].id != id
    ensures RemoveSlot(slots, id) == slots
  {
    if slots != [] {
      RemoveSlotAbsent(slots[1..], id);
      assert [slots[0]] + slots[1..] == slots;
    }
  }

  /** Deleting is idempotent. */
  lemma {:induction false} RemoveSlotTwice(slots: seq<TimeSlot>, id: string)
    ensures RemoveSlot(RemoveSlot(slots, id), id) == RemoveSlot(slots, id)
  {
    var r := RemoveSlot(slots, id);
    forall k | 0 <= k < |r| ensures r[k].id != id {
      assert r[k] in r;
    }
    RemoveSlotAbsent(r, id);
  }

  /** Deleting the id of a slot just added removes it again, together with
      any older slot that carried the same id. */
  lemma RemoveAppendedSlot(slots: seq<TimeSlot>, id: string, date: string, startTime: string)
    ensures RemoveSlot(AppendSlot(slots, id, date, startTime), id) == RemoveSlot(slots, id)
  {
    RemoveSlotAppend(slots, [NewSlot(id, date, startTime)], id);
    RemoveSlotSingle(NewSlot(id, date, startTime), id);
  }

  // ---------------------------------------------------------- config edits

  /** `setConfig({...config!, name})`: only the name changes. */
  function SetName(c: CompanyInfo, name: string): (r: CompanyInfo)
    ensures r.name == name
    ensures r.jobTitle == c.jobTitle && r.description == c.description && r.guidelines == c.guidelines
  {
    c.(name := name)
  }

  /** `setConfig({...config!, jobTitle})`: only the job title changes. */
  function SetJobTitle(c: CompanyInfo, jobTitle: string): (r: CompanyInfo)
    ensures r.jobTitle == jobTitle
    ensures r.name == c.name && r.description == c.description && r.guidelines == c.guidelines
  {
    c.(jobTitle := jobTitle)
  }

  // ------------------------------------------------------------------ save

  /** One remote write issued by "save all". */
  datatype Call = SaveConfigCall(config: CompanyInfo) | SaveSlotsCall(slots: seq<TimeSlot>)

  /** The writes `handleSaveAll` issues, in order: the config (when there is
      one), then the slots unless saving the config threw. */
  function SaveCalls(e: Editor, configThrows: bool): (r: seq<Call>)
    ensures e.config.None? ==> r == [SaveSlotsCall(e.slots)]
    ensures e.config.Some? ==> |r| >= 1 && r[0] == SaveConfigCall(e.config.value)
    ensures e.config.Some? && configThrows ==> r == [SaveConfigCall(e.config.value)]
    ensures (e.config.None? || !configThrows) ==> |r| >= 1 && r[|r| - 1] == SaveSlotsCall(e.slots)
    ensures e.config.Some? && !configThrows ==> r == [SaveConfigCall(e.config.value), SaveSlotsCall(e.slots)]
  {
    var head := if e.config.Some? then [SaveConfigCall(e.config.value)] else [];
    if e.config.Some? && configThrows then head else head + [SaveSlotsCall(e.slots)]
  }

  /** Whether the success notice is shown: neither write threw. */
  function SaveSucceeded(e: Editor, configThrows: bool, slotsThrows: bool): (ok: bool)
    ensures var r := SaveCalls(e, configThrows); ok <==> r[|r| - 1].SaveSlotsCall? && !slotsThrows
  {
    !(e.config.Some? && configThrows) && !slotsThrows
  }

  /** The script request each write becomes. */
  function ToRequest(c: Call): SheetScript.Request {
    match c
    case SaveConfigCall(config) => SheetScript.SaveConfigReq(config)
    case SaveSlotsCall(slots) => SheetScript.SaveSlotsReq(slots)
  }

  /** The two sheets after the script has handled the writes in order. */
  function Perform(calls: seq<Call>, slotRows: SheetScript.Table, configRows: SheetScript.Table):
    (SheetScript.Table, SheetScript.Table)
  {
    if calls == [] then (slotRows, configRows)
    else
      var eff := SheetScript.Handle(ToRequest(calls[0]), slotRows, configRows);
      Perform(calls[1..], eff.slotRows, eff.configRows)
  }

  /** When neither write throws, whatever the sheets held before, fetching
      afterwards gives back exactly the editor's slots and configuration. */
  lemma SaveAllThenFetch(e: Editor, slotRows: SheetScript.Table, configRows: SheetScript.Table)
    requires e.config.Some?
    ensures var (s, c) := Perform(SaveCalls(e, false), slotRows, configRows);
            SheetScript.FetchSlots(s) == e.slots &&
            SheetScript.FetchConfig(c) == Some(SheetScript.Config(e.config.value))
  {
    var calls := SaveCalls(e, false);
    assert calls == [SaveConfigCall(e.config.value), SaveSlotsCall(e.slots)];
    var eff1 := SheetScript.Handle(ToRequest(calls[0]), slotRows, configRows);
    var eff2 := SheetScript.Handle(ToRequest(calls[1]), eff1.slotRows, eff1.configRows);
    assert calls[1..][0] == calls[1] && calls[1..][1..] == [];
    assert Perform(calls[1..], eff1.slotRows, eff1.configRows) == (eff2.slotRows, eff2.configRows);
    assert Perform(calls, slotRows, configRows) == (eff2.slotRows, eff2.configRows);
    SheetScript.FetchSavedSlots(e.slots);
    SheetScript.FetchSavedConfig(e.config.value);
  }

  // ----------------------------------------------------- the screen object

  /** The screen's state, updated in place by its handlers. */
  class AdminEditor {
    var slots: seq<TimeSlot>
    var config: Option<CompanyInfo>
    var isLoading: bool
    var draft: Draft

    function State(): Editor
      reads this
    {
      Editor(slots, config, isLoading, draft)
    }

    constructor ()
      ensures State() == Mounted
    {
      slots, config, isLoading, draft := [], None, true, Draft("", "", "");
    }

    /** The mount-time `load`, given how the two fetches ended. */
    method Load(fetchedSlots: Remote<Option<seq<TimeSlot>>>, fetchedConfig: Remote<Option<CompanyInfo>>)
      modifies this
      ensures State() == AfterLoad(old(State()), fetchedSlots, fetchedConfig)
    {
      if fetchedSlots.Threw? || fetchedConfig.Threw? {
        config := Some(EmptyConfig);
      } else {
        slots := OrEmpty(fetchedSlots.value);
        if fetchedConfig.value.Some? && fetchedConfig.value.value.name != "" {
          config := fetchedConfig.value;
        } else {
          config := Some(NamelessDefault);
        }
      }
      isLoading := false;
    }

    /** Typing into the date field of the form. */
    method EditDraftDate(date: string)
      modifies this
      ensures State() == old(State()).(draft := old(draft).(date := date))
    {
      draft := draft.(date := date);
    }

    /** Typing into the start-time field of the form. */
    method EditDraftStartTime(startTime: string)
      modifies this
      ensures State() == old(State()).(draft := old(draft).(startTime := startTime))
    {
      draft := draft.(startTime := startTime);
    }

    /** The "+" button; `id` stands for `Date.now().toString()`. The form is
        not cleared. */
    method AddSlot(id: string)
      modifies this
      ensures State() == old(State()).(slots := AppendSlot(old(slots), id, old(draft).date, old(draft).startTime))
    {
      slots := slots + [NewSlot(id, draft.date, draft.startTime)];
    }

    /** A row's delete button. */
    method DeleteSlot(id: string)
      modifies this
      ensures State() == old(State()).(slots := RemoveSlot(old(slots), id))
    {
      slots := RemoveSlot(slots, id);
    }

    /** Typing into the company-name field (`config!` asserts a loaded config). */
    method EditName(name: string)
      requires config.Some?
      modifies this
      ensures State() == old(State()).(config := Some(SetName(old(config).value, name)))
    {
      config := Some(config.value.(name := name));
    }

    /** Typing into the job-title field (`config!` asserts a loaded config). */
    method EditJobTitle(jobTitle: string)
      requires config.Some?
      modifies this
      ensures State() == old(State()).(config := Some(SetJobTitle(old(config).value, jobTitle)))
    {
      config := Some(config.value.(jobTitle := jobTitle));
    }

    /** `handleSaveAll`, given whether each write throws: returns the writes
        issued and whether success was reported. The local slots and config
        are left as they were. */
    method SaveAll(configThrows: bool, slotsThrows: bool) returns (calls: seq<Call>, ok: bool)
      requires !isLoading
      modifies this
      ensures calls == SaveCalls(old(State()), configThrows)
      ensures ok == SaveSucceeded(old(State()), configThrows, slotsThrows)
      ensures State() == old(State())
    {
      isLoading := true;
      calls := [];
      var threw := false;
      if config.Some? {
        calls := calls + [SaveConfigCall(config.value)];
        threw := configThrows;
      }
      if !threw {
        calls := calls + [SaveSlotsCall(slots)];
        threw := slotsThrows;
      }
      ok := !threw;
      isLoading := false;
    }
  }
}
