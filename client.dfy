/**
 * The booking form of the single-page client: a submission is checked for a
 * name and an address, then against the free seats of the chosen slot; a
 * submission that passes is recorded locally at once (optimistically) and
 * sent to the server, and the server's answer later sets the status line.
 */
module Client {
  import opened Wrappers
  import opened Text
  import opened Email
  import opened Slots
  import opened Availability

  /** The form's fields as the submit handler reads them. */
  datatype Form = Form(name: string, email: string, people: int)

  /** The booking the client records and sends. */
  datatype NewBooking = NewBooking(slot: string, slotId: string, name: string, email: string, people: int)

  /** The two gates of the submit handler, and what passes them. */
  datatype Gate = MissingFields | OverCapacity(free: nat) | Pass(booking: NewBooking)

  datatype StatusKind = Error | Loading | Success | Warning

  datatype Status = Status(kind: StatusKind, message: string)

  const FIELDS_MESSAGE := "Vyplňte prosím jméno a platný e-mail."
  const LOADING_MESSAGE := "Odesílám potvrzení..."
  const SUCCESS_MESSAGE := "Rezervace byla úspěšně vytvořena. Potvrzení bylo odesláno e-mailem."
  const WARNING_MESSAGE := "Rezervace uložena, ale odeslání e-mailu se nezdařilo."
  const SEND_ERROR_MESSAGE := "Chyba při odeslání. Zkuste to prosím později."

  /** The capacity rejection names the seats still free. */
  function CapacityMessage(free: nat): string {
    "Ve vybraném slotu zbývá " + DecimalString(free) + " míst."
  }

  /**
   * The submit handler's decision for the chosen slot. A blank name or an
   * address not matching the client pattern is refused first; then a party
   * larger than the free seats. What passes carries the trimmed name and
   * the trimmed address.
   */
  function CheckSubmission(bookings: Bookings, selected: Slot, form: Form): (g: Gate)
    ensures g.MissingFields? <==> Trim(form.name) == [] || !ClientEmail(form.email)
    ensures g.OverCapacity? <==>
      Trim(form.name) != [] && ClientEmail(form.email) && form.people > AvailableFor(bookings, selected.id)
    ensures g.OverCapacity? ==> g.free == AvailableFor(bookings, selected.id) && g.free < form.people
    ensures g.Pass? ==>
      g.booking == NewBooking(selected.time, selected.id, Trim(form.name), Trim(form.email), form.people)
      && form.people <= AvailableFor(bookings, selected.id)
  {
    if Trim(form.name) == [] || !ClientEmail(form.email) then MissingFields
    else
      var free := AvailableFor(bookings, selected.id);
      if form.people > free then OverCapacity(free)
      else Pass(NewBooking(selected.time, selected.id, Trim(form.name), Trim(form.email), form.people))
  }

  /**
   * What passes carries a non-blank name without surrounding whitespace,
   * and the address as typed: trimming a matching address changes nothing.
   */
  lemma PassedFields(bookings: Bookings, selected: Slot, form: Form)
    requires CheckSubmission(bookings, selected, form).Pass?
    ensures var nb := CheckSubmission(bookings, selected, form).booking;
      nb.name != [] && !IsSpace(nb.name[0]) && !IsSpace(nb.name[|nb.name| - 1])
      && nb.email == form.email && ClientEmail(nb.email)
  {
    TrimSpec(form.name);
    ClientEmailHasNoSpace(form.email);
  }

  /** The record stored locally for a booking sent out; `id` and `createdAt` come from the clock. */
  function Stored(nb: NewBooking, id: int, createdAt: string): Booking {
    Booking(nb.slot, nb.slotId, nb.name, nb.email, Some(nb.people), id, createdAt)
  }

  /**
   * The optimistic local update: the booking goes at the end of its slot's
   * list, which is created when missing; every other slot keeps its list.
   */
  function WithBooking(bookings: Bookings, b: Booking): (next: Bookings)
    ensures next.Keys == bookings.Keys + {b.slotId}
    ensures Taken(next, b.slotId) == Taken(bookings, b.slotId) + [b]
    ensures forall k | k != b.slotId :: Taken(next, k) == Taken(bookings, k)
  {
    bookings[b.slotId := Taken(bookings, b.slotId) + [b]]
  }

  /** The server's answer as the client sees it: a JSON body with its `ok` flag, or a failed request. */
  datatype Reply = Answered(ok: bool) | Threw

  /** Success only on a truthy `ok`, error only when the request failed, a warning otherwise. */
  function StatusForReply(reply: Reply): (s: Status)
    ensures s.kind == Success <==> reply == Answered(true)
    ensures s.kind == Warning <==> reply == Answered(false)
    ensures s.kind == Error <==> reply == Threw
    ensures s.kind != Loading
  {
    match reply
    case Answered(true) => Status(Success, SUCCESS_MESSAGE)
    case Answered(false) => Status(Warning, WARNING_MESSAGE)
    case Threw => Status(Error, SEND_ERROR_MESSAGE)
  }

  /** The component's state that submissions change: the local record and the status line. */
  class Reservations {
    var bookings: Bookings
    var status: Option<Status>

    /** Starts from the stored record, or from an empty one when none could be read. */
    constructor (stored: Option<Bookings>)
      ensures bookings == (if stored.Some? then stored.value else map[])
      ensures status == None
    {
      bookings := if stored.Some? then stored.value else map[];
      status := None;
    }

    /**
     * `submitReservation` up to the request: without a chosen slot nothing
     * happens; a refused submission sets an error and records nothing; one
     * that passes is recorded, the status shows progress, and the booking
     * to send is returned.
     */
    method SubmitReservation(selected: Option<Slot>, form: Form, id: int, createdAt: string)
      returns (sent: Option<NewBooking>)
      modifies this
      ensures selected.None? ==> sent == None && bookings == old(bookings) && status == old(status)
      ensures selected.Some? ==>
        match CheckSubmission(old(bookings), selected.value, form)
        case MissingFields =>
          sent == None && bookings == old(bookings) && status == Some(Status(Error, FIELDS_MESSAGE))
        case OverCapacity(free) =>
          sent == None && bookings == old(bookings) && status == Some(Status(Error, CapacityMessage(free)))
        case Pass(nb) =>
          sent == Some(nb) && bookings == WithBooking(old(bookings), Stored(nb, id, createdAt))
          && status == Some(Status(Loading, LOADING_MESSAGE))
    {
      if selected.None? {
        return None;
      }
      var slot := selected.value;
      if Trim(form.name) == [] || !ClientEmail(form.email) {
        status := Some(Status(Error, FIELDS_MESSAGE));
        return None;
      }
      var free := AvailableFor(bookings, slot.id);
      if form.people > free {
        status := Some(Status(Error, CapacityMessage(free)));
        return None;
      }
      var nb := NewBooking(slot.time, slot.id, Trim(form.name), Trim(form.email), form.people);
      bookings := WithBooking(bookings, Stored(nb, id, createdAt));
      status := Some(Status(Loading, LOADING_MESSAGE));
      return Some(nb);
    }

    /** The rest of `submitReservation`: the server's answer sets the status; the record stays. */
    method ReceiveReply(reply: Reply)
      modifies this
      ensures status == Some(StatusForReply(reply))
      ensures bookings == old(bookings)
    {
      match reply {
        case Answered(ok) =>
          if ok {
            status := Some(Status(Success, SUCCESS_MESSAGE));
          } else {
            status := Some(Status(Warning, WARNING_MESSAGE));
          }
        case Threw =>
          status := Some(Status(Error, SEND_ERROR_MESSAGE));
      }
    }

    /** `closeModal`, run shortly after an answer arrives: the status line is cleared; the record stays. */
    method CloseModal()
      modifies this
      ensures status == None
      ensures bookings == old(bookings)
    {
      status := None;
    }
  }

  /**
   * A booking that passes the gates takes its seats from the chosen slot:
   * the free seats drop by the party size and no other slot changes.
   */
  lemma SubmissionTakesSeats(bookings: Bookings, selected: Slot, form: Form, id: int, createdAt: string)
    requires CheckSubmission(bookings, selected, form).Pass?
    requires form.people >= 1
    ensures var next := WithBooking(bookings, Stored(CheckSubmission(bookings, selected, form).booking, id, createdAt));
      AvailableFor(next, selected.id) + form.people == AvailableFor(bookings, selected.id)
      && Occupied(Taken(next, selected.id)) == Occupied(Taken(bookings, selected.id)) + form.people
      && (forall k | k != selected.id :: AvailableFor(next, k) == AvailableFor(bookings, k))
  {
    var b := Stored(CheckSubmission(bookings, selected, form).booking, id, createdAt);
    OccupiedAppend(Taken(bookings, selected.id), b);
  }

  /**
   * The capacity gate keeps every slot within its capacity, one passing
   * submission of at least one seat at a time: if no slot held more than
   * eight seats before, none does after.
   */
  lemma SubmissionKeepsCapacity(bookings: Bookings, selected: Slot, form: Form, id: int, createdAt: string)
    requires CheckSubmission(bookings, selected, form).Pass?
    requires form.people >= 1
    requires forall k :: Occupied(Taken(bookings, k)) <= MAX_PEOPLE
    ensures var next := WithBooking(bookings, Stored(CheckSubmission(bookings, selected, form).booking, id, createdAt));
      forall k :: Occupied(Taken(next, k)) <= MAX_PEOPLE
  {
    SubmissionTakesSeats(bookings, selected, form, id, createdAt);
  }

  /**
   * The capacity gate trusts the party size: a party of zero passes on a
   * full slot, and is then counted as one seat, one over the capacity.
   * The form's number field has a minimum of one but is not required, so
   * emptying it submits such a value.
   */
  lemma ZeroPartyPassesFullSlot(bookings: Bookings, selected: Slot, form: Form, id: int, createdAt: string)
    requires Occupied(Taken(bookings, selected.id)) == MAX_PEOPLE
    requires Trim(form.name) != [] && ClientEmail(form.email) && form.people == 0
    ensures CheckSubmission(bookings, selected, form).Pass?
    ensures var next := WithBooking(bookings, Stored(CheckSubmission(bookings, selected, form).booking, id, createdAt));
      Occupied(Taken(next, selected.id)) == MAX_PEOPLE + 1
  {
    var b := Stored(CheckSubmission(bookings, selected, form).booking, id, createdAt);
    OccupiedAppend(Taken(bookings, selected.id), b);
  }
}
