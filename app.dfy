/** The candidate booking workflow (App.tsx): one session record, changed by
    the load of the initial data, the navigation buttons, the slot buttons,
    the form and the booking attempt. Each awaited remote call is an event
    parameter: how it ended (threw, or what it returned). */
module App {
  import opened Types
  import SlotItem

  /** The candidate's form (`formData`). */
  datatype Form = Form(name: string, email: string, phone: string)

  /** The session record: step, slots, config, selectedSlotId, aiGreeting,
      isLoading, connectionError and formData. */
  datatype State = State(
    step: AppStep,
    slots: seq<TimeSlot>,
    config: Option<CompanyInfo>,
    selectedSlotId: Option<string>,
    aiGreeting: string,
    isLoading: bool,
    connectionError: bool,
    form: Form)

  /** The session before the first load has finished. */
  const Initial: State := State(Welcome, [], None, None, "", true, false, Form("", "", ""))

  /** What a missing or nameless configuration is replaced by. */
  const Placeholder: CompanyInfo :=
    CompanyInfo("면접 시스템", "준비 중인 공고", "", ["안내 사항이 등록되지 않았습니다."])

  /** The greeting shown while no generated greeting has arrived. */
  const FallbackGreeting: string := "면접 시간을 선택해 주세요."

  // ----------------------------------------------------------- derivations

  /** Which screen renders: the connection-error screen first, then the
      loading screen (never over the success step), then the current step. */
  datatype Screen = ConnectionErrorScreen | LoadingScreen | StepScreen(step: AppStep)

  function ScreenOf(s: State): (r: Screen)
    ensures r == ConnectionErrorScreen <==> s.connectionError
    ensures r == LoadingScreen <==> !s.connectionError && s.isLoading && s.step != Success
    ensures r.StepScreen? ==> r.step == s.step
  {
    if s.connectionError then ConnectionErrorScreen
    else if s.isLoading && s.step != Success then LoadingScreen
    else StepScreen(s.step)
  }

  /** `!!selectedSlotId`: an empty id counts as no selection. */
  predicate HasSelection(s: State) {
    s.selectedSlotId.Some? && s.selectedSlotId.value != ""
  }

  /** `slots.filter(s => s.isActive)`: the slots offered on the selection
      step. Booked slots stay in the list. */
  function ActiveSlots(slots: seq<TimeSlot>): (r: seq<TimeSlot>)
    ensures |r| <= |slots|
    ensures forall x :: x in r <==> x in slots && x.isActive
  {
    if slots == [] then []
    else (if slots[0].isActive then [slots[0]] else []) + ActiveSlots(slots[1..])
  }

  /** The filter works slot by slot and keeps the order of what it keeps. */
  lemma {:induction false} ActiveSlotsAppend(a: seq<TimeSlot>, b: seq<TimeSlot>)
    ensures ActiveSlots(a + b) == ActiveSlots(a) + ActiveSlots(b)
  {
    if a == [] {
      assert a + b == b;
    } else {
      assert (a + b)[1..] == a[1..] + b;
      ActiveSlotsAppend(a[1..], b);
    }
  }

  /** An all-active list is offered whole, in its own order, whether or not
      its slots are booked. */
  lemma {:induction false} ActiveSlotsAllActive(slots: seq<TimeSlot>)
    requires forall k :: 0 <= k < |slots| ==> slots[k].isActive
    ensures ActiveSlots(slots) == slots
  {
    if slots != [] {
      ActiveSlotsAllActive(slots[1..]);
      assert [slots[0]] + slots[1..] == slots;
    }
  }

  /** `slots.find(s => s.id === selectedSlotId)`: the first slot with the
      selected id. */
  function SelectedSlot(slots: seq<TimeSlot>, selected: Option<string>): (r: Option<TimeSlot>)
    ensures r.Some? ==> selected == Some(r.value.id) && r.value in slots
    ensures r.None? <==> selected.None? || forall x :: x in slots ==> x.id != selected.value
    ensures r.Some? ==> exists k :: 0 <= k < |slots| && slots[k] == r.value &&
                                    forall j :: 0 <= j < k ==> slots[j].id != r.value.id
  {
    if slots == [] || selected.None? then None
    else if slots[0].id == selected.value then Some(slots[0])
    else
      var r := SelectedSlot(slots[1..], selected);
      if r.Some? then
        var k :| 0 <= k < |slots[1..]| && slots[1..][k] == r.value &&
                 forall j :: 0 <= j < k ==> slots[1..][j].id != r.value.id;
        assert slots[k + 1] == r.value;
        r
      else
        r
  }

  /** The greeting line on the welcome step. */
  function GreetingText(s: State): (r: string)
    ensures s.aiGreeting != "" ==> r == s.aiGreeting
    ensures s.aiGreeting == "" ==> r == FallbackGreeting
  {
    if s.aiGreeting == "" then FallbackGreeting else s.aiGreeting
  }

  /** What the success step echoes: the name in the form and the selected slot. */
  datatype Echo = Echo(name: string, slot: Option<TimeSlot>)

  function SuccessEcho(s: State): (r: Echo)
    ensures r.name == s.form.name
    ensures r.slot.Some? ==> r.slot.value in s.slots && s.selectedSlotId == Some(r.slot.value.id)
  {
    Echo(s.form.name, SelectedSlot(s.slots, s.selectedSlotId))
  }

  // ------------------------------------------------------------------ load

  /** The configuration kept after a successful load. */
  function LoadedConfig(fetched: Option<CompanyInfo>): (c: CompanyInfo)
    ensures fetched.Some? && fetched.value.name != "" ==> c == fetched.value
    ensures fetched.None? || fetched.value.name == "" ==> c == Placeholder
    ensures c.name != ""
  {
    if fetched.Some? && fetched.value.name != "" then fetched.value else Placeholder
  }

  /** `loadInitialData`. A throw from either fetch sets the connection error
      and keeps the old slots and config; in both cases loading ends. */
  function LoadInitialData(s: State, slots: Remote<Option<seq<TimeSlot>>>, config: Remote<Option<CompanyInfo>>): (r: State)
    ensures !r.isLoading
    ensures r.step == s.step && r.selectedSlotId == s.selectedSlotId && r.form == s.form
    ensures r.aiGreeting == s.aiGreeting
    ensures r.connectionError <==> slots.Threw? || config.Threw?
    ensures r.connectionError ==> r.slots == s.slots && r.config == s.config
    ensures !r.connectionError ==> r.slots == OrEmpty(slots.value) && r.config == Some(LoadedConfig(config.value))
  {
    if slots.Threw? || config.Threw? then
      s.(connectionError := true, isLoading := false)
    else
      s.(slots := OrEmpty(slots.value), config := Some(LoadedConfig(config.value)),
         connectionError := false, isLoading := false)
  }

  /** The configuration a greeting is requested for: only after both
      fetches returned and the fetched config has a name. */
  function GreetingRequest(slots: Remote<Option<seq<TimeSlot>>>, config: Remote<Option<CompanyInfo>>): (r: Option<CompanyInfo>)
    ensures r.Some? <==> slots.Returned? && config.Returned? && config.value.Some? && config.value.value.name != ""
    ensures r.Some? ==> r == config.value
  {
    if slots.Returned? && config.Returned? && config.value.Some? && config.value.value.name != "" then config.value
    else None
  }

  // ------------------------------------------------------------- follow-ups

  /** The booking request `handleBooking` sends, if it sends one. */
  function BookingRequest(s: State): (r: Option<BookingDetails>)
    ensures r.Some? <==> HasSelection(s)
    ensures r.Some? ==> r.value == BookingDetails(s.form.name, s.form.email, s.form.phone, s.selectedSlotId.value)
  {
    if HasSelection(s) then
      Some(BookingDetails(s.form.name, s.form.email, s.form.phone, s.selectedSlotId.value))
    else None
  }

  /** `handleBooking`, given how `bookSlot` ended and, after a `false`, how the
      re-fetch of the slots ended. */
  function HandleBooking(s: State, booked: Remote<bool>, refetched: Remote<Option<seq<TimeSlot>>>): (r: State)
    ensures !HasSelection(s) ==> r == s
    ensures HasSelection(s) ==> !r.isLoading
    ensures HasSelection(s) && booked == Returned(true) ==>
              r == s.(step := Success, isLoading := false)
    ensures HasSelection(s) && booked == Returned(false) && refetched.Returned? ==>
              r == s.(slots := OrEmpty(refetched.value), selectedSlotId := None, step := Selection, isLoading := false)
    ensures HasSelection(s) && (booked.Threw? || (booked == Returned(false) && refetched.Threw?)) ==>
              r == s.(isLoading := false)
  {
    if !HasSelection(s) then s
    else if booked.Threw? then s.(isLoading := false)
    else if booked.value then s.(step := Success, isLoading := false)
    else if refetched.Threw? then s.(isLoading := false)
    else s.(slots := OrEmpty(refetched.value), selectedSlotId := None, step := Selection, isLoading := false)
  }

  // ----------------------------------------------------------------- events

  /** Everything that can happen to the session. `Mount`, `Retry` and
      `AdminBack` all run `loadInitialData`. */
  datatype Event =
    | Mount(slots: Remote<Option<seq<TimeSlot>>>, config: Remote<Option<CompanyInfo>>)
    | Retry(slots: Remote<Option<seq<TimeSlot>>>, config: Remote<Option<CompanyInfo>>)
    | ForceAdmin
    | GreetingArrived(text: string)
    | ChooseTime
    | Previous
    | Next
    | Select(slot: TimeSlot)
    | Cancel
    | EditName(name: string)
    | EditEmail(email: string)
    | EditPhone(phone: string)
    | Submit(booked: Remote<bool>, refetched: Remote<Option<seq<TimeSlot>>>)
    | EnterAdmin
    | AdminBack(slots: Remote<Option<seq<TimeSlot>>>, config: Remote<Option<CompanyInfo>>)

  /** Whether the event can happen: its control is on the screen (the form
      is submitted only with its three required fields filled in). */
  predicate Enabled(s: State, e: Event) {
    match e
    case Mount(_, _) => ScreenOf(s) == LoadingScreen
    case Retry(_, _) => ScreenOf(s) == ConnectionErrorScreen
    case ForceAdmin => ScreenOf(s) == ConnectionErrorScreen
    case GreetingArrived(_) => true
    case ChooseTime => ScreenOf(s) == StepScreen(Welcome)
    case Previous => ScreenOf(s) == StepScreen(Selection)
    case Next => ScreenOf(s) == StepScreen(Selection)
    case Select(slot) => ScreenOf(s) == StepScreen(Selection) && slot in ActiveSlots(s.slots)
    case Cancel => ScreenOf(s) == StepScreen(Confirmation)
    case EditName(_) => ScreenOf(s) == StepScreen(Confirmation)
    case EditEmail(_) => ScreenOf(s) == StepScreen(Confirmation)
    case EditPhone(_) => ScreenOf(s) == StepScreen(Confirmation)
    case Submit(_, _) =>
      ScreenOf(s) == StepScreen(Confirmation) &&
      s.form.name != "" && s.form.email != "" && s.form.phone != ""
    case EnterAdmin => ScreenOf(s).StepScreen?
    case AdminBack(_, _) => ScreenOf(s) == StepScreen(Admin)
  }

  /** The state after an enabled event. */
  function Apply(s: State, e: Event): State
    requires Enabled(s, e)
  {
    match e
    case Mount(slots, config) => LoadInitialData(s, slots, config)
    case Retry(slots, config) => LoadInitialData(s, slots, config)
    case ForceAdmin => s.(connectionError := false, step := Admin)
    case GreetingArrived(text) => s.(aiGreeting := text)
    case ChooseTime => s.(step := Selection)
    case Previous => s.(step := Welcome)
    case Next => if HasSelection(s) then s.(step := Confirmation) else s
    case Select(slot) =>
      var clicked := SlotItem.OnClick(slot);
      if clicked.Some? then s.(selectedSlotId := clicked) else s
    case Cancel => s.(step := Selection)
    case EditName(name) => s.(form := s.form.(name := name))
    case EditEmail(email) => s.(form := s.form.(email := email))
    case EditPhone(phone) => s.(form := s.form.(phone := phone))
    case Submit(booked, refetched) => HandleBooking(s, booked, refetched)
    case EnterAdmin => s.(step := Admin)
    case AdminBack(slots, config) => LoadInitialData(s, slots, config)
  }

  /** The session after a sequence of events; an event whose control is not
      on the screen does nothing. */
  function Run(s: State, events: seq<Event>): State
    decreases |events|
  {
    if events == [] then s
    else if Enabled(s, events[0]) then Run(Apply(s, events[0]), events[1..])
    else Run(s, events[1..])
  }

  // -------------------------------------------------------------- invariant

  /** What holds of every session the events can reach:
      a config, once set, has a name; the confirmation and success steps
      always have a selection that names a listed slot; outside the admin
      step a selection always names a listed slot; loading happens only
      before anything was selected or entered; the connection-error screen
      shows over the admin step or over an untouched welcome step. */
  ghost predicate Inv(s: State) {
    (s.config.Some? ==> s.config.value.name != "") &&
    ((s.step == Confirmation || s.step == Success) ==> HasSelection(s)) &&
    (s.step != Admin && s.selectedSlotId.Some? ==> SelectedSlot(s.slots, s.selectedSlotId).Some?) &&
    (s.isLoading ==> s.step == Welcome && s.selectedSlotId.None? && !s.connectionError) &&
    (s.connectionError ==> s.step == Admin || (s.step == Welcome && s.selectedSlotId.None?))
  }

  lemma InitialInv()
    ensures Inv(Initial)
  {
  }

  /** Every enabled event keeps the invariant. */
  lemma ApplyKeepsInv(s: State, e: Event)
    requires Inv(s) && Enabled(s, e)
    ensures Inv(Apply(s, e))
  {
    match e
    case Select(slot) =>
      if SlotItem.OnClick(slot).Some? {
        assert slot in s.slots;
      }
    case _ =>
  }

  /** Every reachable session satisfies the invariant. */
  lemma {:induction false} RunKeepsInv(s: State, events: seq<Event>)
    requires Inv(s)
    ensures Inv(Run(s, events))
    decreases |events|
  {
    if events != [] {
      if Enabled(s, events[0]) {
        ApplyKeepsInv(s, events[0]);
        RunKeepsInv(Apply(s, events[0]), events[1..]);
      } else {
        RunKeepsInv(s, events[1..]);
      }
    }
  }

  /** On any reachable confirmation step the booking request is sent (the
      no-selection early return never fires there), and it names a slot
      the session lists. */
  lemma ReachableSubmitSends(events: seq<Event>)
    ensures var s := Run(Initial, events);
            s.step == Confirmation ==>
              BookingRequest(s).Some? && SelectedSlot(s.slots, s.selectedSlotId).Some?
  {
    InitialInv();
    RunKeepsInv(Initial, events);
  }

  /** On any reachable success step the echo shows the name in the form and
      the slot whose id was sent with the booking. */
  lemma ReachableSuccessEchoes(events: seq<Event>)
    ensures var s := Run(Initial, events);
            s.step == Success ==>
              SuccessEcho(s).name == s.form.name && SuccessEcho(s).slot.Some? &&
              SuccessEcho(s).slot.value.id == s.selectedSlotId.value
  {
    InitialInv();
    RunKeepsInv(Initial, events);
  }

  /** The admin step is never left: no event moves a session on the admin
      step elsewhere, and "back" reloads without changing the step. */
  lemma {:induction false} AdminIsNeverLeft(s: State, events: seq<Event>)
    requires s.step == Admin
    ensures Run(s, events).step == Admin
    decreases |events|
  {
    if events != [] {
      if Enabled(s, events[0]) {
        AdminIsNeverLeft(Apply(s, events[0]), events[1..]);
      } else {
        AdminIsNeverLeft(s, events[1..]);
      }
    }
  }

  /** Navigating back and forth between welcome, selection and confirmation
      keeps the selection and the form. */
  lemma NavigationKeepsSelection(s: State, e: Event)
    requires e == ChooseTime || e == Previous || e == Next || e == Cancel
    requires Enabled(s, e)
    ensures Apply(s, e).selectedSlotId == s.selectedSlotId && Apply(s, e).form == s.form
    ensures Apply(s, e).slots == s.slots
    ensures e == Next ==> (Apply(s, e).step == Confirmation <==> HasSelection(s))
  {
  }
}

/** The session as the component holds it: its state fields, changed in
    place by one handler per event, each proved to produce the state that
    the event function of `App` prescribes and to keep `App.Inv`. */
module AppSession {
  import opened Types
  import SlotItem
  import App

  /** The session's fields, updated in place by the handlers. */
  class Session {
    var step: AppStep
    var slots: seq<TimeSlot>
    var config: Option<CompanyInfo>
    var selectedSlotId: Option<string>
    var aiGreeting: string
    var isLoading: bool
    var connectionError: bool
    var form: App.Form

    function State(): App.State
      reads this
    {
      App.State(step, slots, config, selectedSlotId, aiGreeting, isLoading, connectionError, form)
    }

    ghost predicate Valid()
      reads this
    {
      App.Inv(State())
    }

    constructor ()
      ensures State() == App.Initial && Valid()
    {
      step, slots, config, selectedSlotId := Welcome, [], None, None;
      aiGreeting, isLoading, connectionError := "", true, false;
      form := App.Form("", "", "");
    }

    /** `loadInitialData`, run at mount, by "retry" and by the admin "back".
        Returns the config a greeting is requested for, if any. */
    method LoadInitialData(fetchedSlots: Remote<Option<seq<TimeSlot>>>, fetchedConfig: Remote<Option<CompanyInfo>>)
      returns (greetingFor: Option<CompanyInfo>)
      requires Valid()
      requires App.ScreenOf(State()) in {App.LoadingScreen, App.ConnectionErrorScreen, App.StepScreen(Admin)}
      modifies this
      ensures Valid()
      ensures State() == App.LoadInitialData(old(State()), fetchedSlots, fetchedConfig)
      ensures greetingFor == App.GreetingRequest(fetchedSlots, fetchedConfig)
    {
      ghost var before := State();
      isLoading := true;
      connectionError := false;
      greetingFor := None;
      if fetchedSlots.Threw? || fetchedConfig.Threw? {
        connectionError := true;
      } else {
        slots := OrEmpty(fetchedSlots.value);
        if fetchedConfig.value.Some? && fetchedConfig.value.value.name != "" {
          config := fetchedConfig.value;
          greetingFor := fetchedConfig.value;
        } else {
          config := Some(App.Placeholder);
        }
      }
      isLoading := false;
      App.ApplyKeepsInv(before, if App.ScreenOf(before) == App.LoadingScreen then App.Mount(fetchedSlots, fetchedConfig)
                            else if App.ScreenOf(before) == App.ConnectionErrorScreen then App.Retry(fetchedSlots, fetchedConfig)
                            else App.AdminBack(fetchedSlots, fetchedConfig));
    }

    /** The generated greeting arriving (`.then(setAiGreeting)`). */
    method ReceiveGreeting(text: string)
      requires Valid()
      modifies this
      ensures Valid() && State() == old(State()).(aiGreeting := text)
    {
      aiGreeting := text;
    }

    /** "Choose a time" on the welcome step. */
    method ChooseTime()
      requires Valid() && App.ScreenOf(State()) == App.StepScreen(Welcome)
      modifies this
      ensures Valid() && State() == App.Apply(old(State()), App.ChooseTime)
    {
      step := Selection;
    }

    /** "Previous" on the selection step. */
    method Previous()
      requires Valid() && App.ScreenOf(State()) == App.StepScreen(Selection)
      modifies this
      ensures Valid() && State() == App.Apply(old(State()), App.Previous)
    {
      step := Welcome;
    }

    /** "Next" on the selection step; disabled while nothing is selected. */
    method Next()
      requires Valid() && App.ScreenOf(State()) == App.StepScreen(Selection)
      modifies this
      ensures Valid() && State() == App.Apply(old(State()), App.Next)
    {
      if selectedSlotId.Some? && selectedSlotId.value != "" {
        step := Confirmation;
      }
    }

    /** A click on one of the offered slot buttons. */
    method Select(slot: TimeSlot)
      requires Valid() && App.ScreenOf(State()) == App.StepScreen(Selection) && slot in App.ActiveSlots(slots)
      modifies this
      ensures Valid() && State() == App.Apply(old(State()), App.Select(slot))
    {
      ghost var before := State();
      var clicked := SlotItem.OnClick(slot);
      if clicked.Some? {
        selectedSlotId := clicked;
      }
      App.ApplyKeepsInv(before, App.Select(slot));
    }

    /** "Cancel" on the confirmation step. */
    method Cancel()
      requires Valid() && App.ScreenOf(State()) == App.StepScreen(Confirmation)
      modifies this
      ensures Valid() && State() == App.Apply(old(State()), App.Cancel)
    {
      step := Selection;
    }

    /** Typing into one of the three form fields. */
    method EditName(name: string)
      requires Valid() && App.ScreenOf(State()) == App.StepScreen(Confirmation)
      modifies this
      ensures Valid() && State() == App.Apply(old(State()), App.EditName(name))
    {
      form := form.(name := name);
    }

    method EditEmail(email: string)
      requires Valid() && App.ScreenOf(State()) == App.StepScreen(Confirmation)
      modifies this
      ensures Valid() && State() == App.Apply(old(State()), App.EditEmail(email))
    {
      form := form.(email := email);
    }

    method EditPhone(phone: string)
      requires Valid() && App.ScreenOf(State()) == App.StepScreen(Confirmation)
      modifies this
      ensures Valid() && State() == App.Apply(old(State()), App.EditPhone(phone))
    {
      form := form.(phone := phone);
    }

    /** `handleBooking`: returns the request sent to `bookSlot`, if any. */
    method HandleBooking(booked: Remote<bool>, refetched: Remote<Option<seq<TimeSlot>>>)
      returns (request: Option<BookingDetails>)
      requires Valid() && App.ScreenOf(State()) == App.StepScreen(Confirmation)
      requires form.name != "" && form.email != "" && form.phone != ""
      modifies this
      ensures Valid() && State() == App.HandleBooking(old(State()), booked, refetched)
      ensures request == App.BookingRequest(old(State()))
    {
      ghost var before := State();
      request := None;
      if selectedSlotId.None? || selectedSlotId.value == "" {
        return;
      }
      isLoading := true;
      request := Some(BookingDetails(form.name, form.email, form.phone, selectedSlotId.value));
      if booked.Returned? {
        if booked.value {
          step := Success;
        } else if refetched.Returned? {
          slots := OrEmpty(refetched.value);
          selectedSlotId := None;
          step := Selection;
        }
      }
      isLoading := false;
      App.ApplyKeepsInv(before, App.Submit(booked, refetched));
    }

    /** The footer's admin link, on any step screen. */
    method EnterAdmin()
      requires Valid() && App.ScreenOf(State()).StepScreen?
      modifies this
      ensures Valid() && State() == App.Apply(old(State()), App.EnterAdmin)
    {
      step := Admin;
    }

    /** "Force admin entry" on the connection-error screen. */
    method ForceAdmin()
      requires Valid() && App.ScreenOf(State()) == App.ConnectionErrorScreen
      modifies this
      ensures Valid() && State() == App.Apply(old(State()), App.ForceAdmin)
    {
      connectionError := false;
      step := Admin;
    }
  }
}
