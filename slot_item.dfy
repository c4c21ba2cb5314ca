/** The slot button (components/SlotItem.tsx): a stateless view of one slot.
    Everything it shows and reports is a function of `slot` and `isSelected`. */
module SlotItem {
  import opened Types

  /** How the button is styled: greyed out, highlighted, or plain. */
  datatype Look = Unavailable | Highlighted | Plain

  /** What the button renders. */
  datatype SlotView = SlotView(
    badge: string,
    date: string,
    timeRange: string,
    disabled: bool,
    look: Look,
    checkmark: bool)

  const OpenBadge: string := "예약 가능"
  const ClosedBadge: string := "예약 마감"

  /** A slot can be chosen exactly when it is not booked; `isActive` plays no part. */
  predicate IsAvailable(slot: TimeSlot) {
    !slot.isBooked
  }

  /** The id handed to `onSelect` by a click, if any. */
  function OnClick(slot: TimeSlot): (r: Option<string>)
    ensures r.Some? <==> !slot.isBooked
    ensures r.Some? ==> r.value == slot.id
  {
    if IsAvailable(slot) then Some(slot.id) else None
  }

  /** The button's `disabled` attribute. */
  function Disabled(slot: TimeSlot): (r: bool)
    ensures r <==> slot.isBooked
  {
    !IsAvailable(slot)
  }

  /** The availability badge text. */
  function Badge(slot: TimeSlot): (r: string)
    ensures r == OpenBadge <==> !slot.isBooked
    ensures r == ClosedBadge <==> slot.isBooked
  {
    if IsAvailable(slot) then OpenBadge else ClosedBadge
  }

  /** The style choice: unavailability wins over selection. */
  function LookOf(slot: TimeSlot, isSelected: bool): (r: Look)
    ensures r == Unavailable <==> slot.isBooked
    ensures r == Highlighted <==> !slot.isBooked && isSelected
  {
    if !IsAvailable(slot) then Unavailable
    else if isSelected then Highlighted
    else Plain
  }

  /** The whole rendered button. The check-mark follows `isSelected` alone. */
  function Render(slot: TimeSlot, isSelected: bool): (v: SlotView)
    ensures v.disabled <==> slot.isBooked
    ensures v.badge == OpenBadge <==> !slot.isBooked
    ensures v.checkmark <==> isSelected
    ensures v.date == slot.date && v.timeRange == slot.startTime + " - " + slot.endTime
  {
    SlotView(Badge(slot), slot.date, slot.startTime + " - " + slot.endTime,
             Disabled(slot), LookOf(slot, isSelected), isSelected)
  }

  /** The view uses only the date, the two times and the booked flag of its
      slot: two slots that agree on these render alike whatever their id,
      booker or active flag. */
  lemma RenderDependsOnlyOnShownFields(a: TimeSlot, b: TimeSlot, isSelected: bool)
    requires a.date == b.date && a.startTime == b.startTime
    requires a.endTime == b.endTime && a.isBooked == b.isBooked
    ensures Render(a, isSelected) == Render(b, isSelected)
  {
  }
}
