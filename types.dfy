/** The records shared by every screen of the booking front-end (types.ts).
    Optional TypeScript properties and `| null` state become `Option`. */
module Types {

  datatype Option<+T> = None | Some(value: T)

  /** One interview time window. `bookedBy` is absent until a booking
      writes the booker's name and e-mail into the sheet. */
  datatype TimeSlot = TimeSlot(
    id: string,
    date: string,
    startTime: string,
    endTime: string,
    isBooked: bool,
    bookedBy: Option<string>,
    isActive: bool)

  /** Company name, job title, free-text description and the ordered guidelines. */
  datatype CompanyInfo = CompanyInfo(
    name: string,
    jobTitle: string,
    description: string,
    guidelines: seq<string>)

  /** What a candidate submits to book one slot. */
  datatype BookingDetails = BookingDetails(
    candidateName: string,
    email: string,
    phoneNumber: string,
    slotId: string)

  /** The workflow steps; exactly one is current. */
  datatype AppStep = Welcome | Selection | Confirmation | Success | Admin

  /** How an awaited remote call ended: it threw, or it returned a value. */
  datatype Remote<+T> = Threw | Returned(value: T)

  /** `list || []`: an absent list counts as the empty list. */
  function OrEmpty<T>(o: Option<seq<T>>): (r: seq<T>)
    ensures o.Some? ==> r == o.value
    ensures o.None? ==> r == []
  {
    if o.Some? then o.value else []
  }
}
