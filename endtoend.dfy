/**
 * The client and the server together: what the client sends for a
 * submission it lets through, how the server judges it, and what the
 * client shows for the server's answer.
 */
module EndToEnd {
  import opened Wrappers
  import opened Availability
  import opened Client
  import Text
  import Email
  import Slots
  import Server

  /** The JSON body the client posts for a booking. */
  function ToServerBody(nb: NewBooking): Server.Body {
    Server.Body(Some(nb.name), Some(nb.email), Server.Finite(nb.people as real), Some(nb.slot))
  }

  /** The client reads the `ok` flag of whatever JSON body comes back, whatever the HTTP status. */
  function ReplyOf(resp: Server.Response): Reply {
    Answered(resp.ok)
  }

  /**
   * A submission the client lets through is one the server accepts exactly
   * when its party is at least one: the client's address pattern is
   * stricter than the server's, the name is non-blank, and a party that
   * fits a slot of at most eight seats is at most eight. The capacity gate
   * does not look at the lower end, so an emptied party field (read as 0)
   * passes the client and fails the server.
   */
  lemma PassedSubmissionIsValidOnServer(bookings: Bookings, selected: Slots.Slot, form: Form)
    requires CheckSubmission(bookings, selected, form).Pass?
    requires selected.time != []
    requires NonNegativeSizes(Taken(bookings, selected.id))
    ensures Server.ValidateBooking(ToServerBody(CheckSubmission(bookings, selected, form).booking))
      <==> form.people >= 1
  {
    var nb := CheckSubmission(bookings, selected, form).booking;
    var body := ToServerBody(nb);
    if form.people >= 1 {
      PassedFields(bookings, selected, form);
      Email.ClientEmailIsServerEmail(nb.email);
      OccupiedAtLeastCount(Taken(bookings, selected.id));
      assert 1 <= nb.people <= MAX_PEOPLE;
      assert Server.Truthy(body.name) && Server.Truthy(body.email) && Server.Truthy(body.slot);
      assert Email.ServerEmail(body.email.value);
      assert 1.0 <= body.people.value <= 8.0;
    } else {
      assert body.people.value < 1.0;
    }
  }

  /**
   * Only a 200 answer shows as success. A 400 or a 500 still carries a JSON
   * body, so the request does not fail and the client shows the warning
   * that the booking was kept but the mail was not sent.
   */
  lemma ServerOutcomeOnClient(body: Server.Body, cfg: Server.Config, timestamp: string, f: Server.Faults)
    ensures var resp := Server.Outcome(body, cfg, timestamp, f).0;
      (StatusForReply(ReplyOf(resp)).kind == Success <==> resp == Server.OK_RESPONSE)
      && (StatusForReply(ReplyOf(resp)).kind == Warning <==>
            resp == Server.INVALID_RESPONSE || resp == Server.SERVER_ERROR_RESPONSE)
  {
    Server.OutcomeCases(body, cfg, timestamp, f);
  }

  /**
   * A booking the client lets through with a party of at least one shows as
   * success exactly when no performed server step raises. One with a party
   * below one is refused by the server before any step, and the client
   * shows the warning.
   */
  lemma SubmissionRoundTrip(bookings: Bookings, selected: Slots.Slot, form: Form,
                            cfg: Server.Config, timestamp: string, f: Server.Faults)
    requires CheckSubmission(bookings, selected, form).Pass?
    requires selected.time != []
    requires NonNegativeSizes(Taken(bookings, selected.id))
    ensures var body := ToServerBody(CheckSubmission(bookings, selected, form).booking);
      var (resp, calls) := Server.Outcome(body, cfg, timestamp, f);
      (form.people >= 1 ==>
        (StatusForReply(ReplyOf(resp)).kind == Success <==> !Server.AnyRaises(calls, f))
        && (StatusForReply(ReplyOf(resp)).kind == Success ==> calls == Server.Planned(body, cfg, timestamp)))
      && (form.people < 1 ==>
        resp == Server.INVALID_RESPONSE && calls == [] && StatusForReply(ReplyOf(resp)).kind == Warning)
  {
    var body := ToServerBody(CheckSubmission(bookings, selected, form).booking);
    PassedSubmissionIsValidOnServer(bookings, selected, form);
    Server.OutcomeCases(body, cfg, timestamp, f);
  }

  /**
   * An emptied party field reaches the handler as 0: it passes both client
   * gates, even on a full slot, and is recorded locally as one seat, while
   * the server refuses it and records and sends nothing. The client still
   * says the booking was saved.
   */
  lemma EmptyPartyKeptButRefused(bookings: Bookings, selected: Slots.Slot, form: Form, id: int, createdAt: string,
                                 cfg: Server.Config, timestamp: string, f: Server.Faults)
    requires Text.Trim(form.name) != [] && Email.ClientEmail(form.email) && form.people == 0
    ensures CheckSubmission(bookings, selected, form).Pass?
    ensures var nb := CheckSubmission(bookings, selected, form).booking;
      var next := WithBooking(bookings, Stored(nb, id, createdAt));
      Occupied(Taken(next, selected.id)) == Occupied(Taken(bookings, selected.id)) + 1
      && Server.Outcome(ToServerBody(nb), cfg, timestamp, f) == (Server.INVALID_RESPONSE, [])
      && StatusForReply(ReplyOf(Server.INVALID_RESPONSE)) == Status(Warning, WARNING_MESSAGE)
  {
    var nb := CheckSubmission(bookings, selected, form).booking;
    OccupiedAppend(Taken(bookings, selected.id), Stored(nb, id, createdAt));
    assert ToServerBody(nb).people.value == 0.0;
  }

  const JAN := "jan@example.com"

  lemma JanEmail()
    ensures Email.ClientEmail(JAN)
  {
    assert Email.ClientSplit(JAN, 3, 11);
  }

  /** A slot with five seats taken refuses a party of four and names the three seats left. */
  lemma ScenarioOverCapacity()
    ensures var taken := Booking("18:30", "18-30", "Eva", "eva@example.com", Some(5), 1, "t0");
      var bookings := map["18-30" := [taken]];
      var form := Form("Jan Novák", JAN, 4);
      CheckSubmission(bookings, Slots.Slot("18:30", "18-30"), form) == OverCapacity(3)
      && CapacityMessage(3) == "Ve vybraném slotu zbývá 3 míst."
  {
    JanEmail();
    var taken := Booking("18:30", "18-30", "Eva", "eva@example.com", Some(5), 1, "t0");
    assert [taken][..0] == [];
    assert Text.Trim("Jan Novák") != [];
    assert Text.DecimalString(3) == "3";
  }

  /** A configured server records one five-cell row and sends both mails for a valid request. */
  lemma ScenarioConfirmed()
    ensures var body := Server.Body(Some("Jan Novák"), Some(JAN), Server.Finite(2.0), Some("18:30"));
      var cfg := Server.Config(Server.DEFAULT_OWNER_EMAIL, true, true);
      var (resp, calls) := Server.Outcome(body, cfg, "2025-01-01T18:00:00.000Z", Server.Faults(false, false, false));
      resp == Server.OK_RESPONSE && |calls| == 3
      && calls[0].AppendRow? && |calls[0].row| == 5
      && calls[1] == Server.SendMail(Server.Customer, Server.Mail(JAN, Server.DEFAULT_OWNER_EMAIL, "Potvrzení rezervace 18:30"))
      && calls[2].SendMail? && calls[2].recipient == Server.Owner
  {
    JanEmail();
    Email.ClientEmailIsServerEmail(JAN);
    var body := Server.Body(Some("Jan Novák"), Some(JAN), Server.Finite(2.0), Some("18:30"));
    var cfg := Server.Config(Server.DEFAULT_OWNER_EMAIL, true, true);
    var ts := "2025-01-01T18:00:00.000Z";
    var f := Server.Faults(false, false, false);
    assert Server.ValidateBooking(body);
    var p := Server.Planned(body, cfg, ts);
    Server.AnyRaisesAt(p, f);
    Server.ExecutedStopsAtFault(p, f);
    assert p[1] == Server.SendMail(Server.Customer, Server.CustomerMail(body, cfg));
  }

  /** A malformed address is refused before anything is recorded or sent. */
  lemma ScenarioBadEmail(cfg: Server.Config, timestamp: string, f: Server.Faults)
    ensures Server.Outcome(Server.Body(Some("Jan"), Some("not-an-email"), Server.Finite(2.0), Some("18:30")),
                           cfg, timestamp, f)
      == (Server.INVALID_RESPONSE, [])
  {
    Email.NotAnEmail();
  }

  /** Without a mail key the row is still recorded and the request succeeds. */
  lemma ScenarioNoMailKey(timestamp: string, f: Server.Faults)
    requires !f.ledger
    ensures var body := Server.Body(Some("Jan Novák"), Some(JAN), Server.Finite(2.0), Some("18:30"));
      Server.ValidateBooking(body)
      && Server.Outcome(body, Server.Config(Server.DEFAULT_OWNER_EMAIL, false, true), timestamp, f)
      == (Server.OK_RESPONSE, [Server.AppendRow(Server.SHEET_RANGE, Server.LedgerRow(timestamp, body))])
  {
    JanEmail();
    Email.ClientEmailIsServerEmail(JAN);
    var body := Server.Body(Some("Jan Novák"), Some(JAN), Server.Finite(2.0), Some("18:30"));
    Server.MissingMailKeyStillOk(body, Server.Config(Server.DEFAULT_OWNER_EMAIL, false, true), timestamp, f);
  }

  /** When the ledger append raises, no mail is sent and the answer is 500. */
  lemma ScenarioLedgerDown(timestamp: string)
    ensures var body := Server.Body(Some("Jan Novák"), Some(JAN), Server.Finite(2.0), Some("18:30"));
      var cfg := Server.Config(Server.DEFAULT_OWNER_EMAIL, true, true);
      Server.ValidateBooking(body)
      && Server.Outcome(body, cfg, timestamp, Server.Faults(true, false, false))
      == (Server.SERVER_ERROR_RESPONSE, [Server.AppendRow(Server.SHEET_RANGE, Server.LedgerRow(timestamp, body))])
  {
    JanEmail();
    Email.ClientEmailIsServerEmail(JAN);
    var body := Server.Body(Some("Jan Novák"), Some(JAN), Server.Finite(2.0), Some("18:30"));
    var cfg := Server.Config(Server.DEFAULT_OWNER_EMAIL, true, true);
    var f := Server.Faults(true, false, false);
    var p := Server.Planned(body, cfg, timestamp);
    assert p == [p[0]] + p[1..];
    Server.ExecutedCons(p[0], p[1..], f);
  }

  /**
   * When only the owner's copy raises, the row is written and the customer
   * confirmation has gone out, yet the answer is 500 and the client shows
   * the warning that mail was not sent.
   */
  lemma ScenarioOwnerMailDown(timestamp: string)
    ensures var body := Server.Body(Some("Jan Novák"), Some(JAN), Server.Finite(2.0), Some("18:30"));
      var cfg := Server.Config(Server.DEFAULT_OWNER_EMAIL, true, true);
      Server.ValidateBooking(body)
      && Server.Outcome(body, cfg, timestamp, Server.Faults(false, false, true))
      == (Server.SERVER_ERROR_RESPONSE,
          [Server.AppendRow(Server.SHEET_RANGE, Server.LedgerRow(timestamp, body)),
           Server.SendMail(Server.Customer, Server.CustomerMail(body, cfg)),
           Server.SendMail(Server.Owner, Server.OwnerMail(body, cfg))])
      && StatusForReply(ReplyOf(Server.SERVER_ERROR_RESPONSE)).kind == Warning
  {
    JanEmail();
    Email.ClientEmailIsServerEmail(JAN);
    var body := Server.Body(Some("Jan Novák"), Some(JAN), Server.Finite(2.0), Some("18:30"));
    var cfg := Server.Config(Server.DEFAULT_OWNER_EMAIL, true, true);
    var f := Server.Faults(false, false, true);
    var p := Server.Planned(body, cfg, timestamp);
    assert p == [p[0]] + ([p[1]] + ([p[2]] + []));
    Server.ExecutedCons(p[2], [], f);
    Server.ExecutedCons(p[1], [p[2]] + [], f);
    Server.ExecutedCons(p[0], [p[1]] + ([p[2]] + []), f);
    assert Server.Executed(p, f) == p;
    assert Server.AnyRaises(p, f);
    assert p == [Server.AppendRow(Server.SHEET_RANGE, Server.LedgerRow(timestamp, body)),
                 Server.SendMail(Server.Customer, Server.CustomerMail(body, cfg)),
                 Server.SendMail(Server.Owner, Server.OwnerMail(body, cfg))];
    assert Server.Outcome(body, cfg, timestamp, f) == (Server.SERVER_ERROR_RESPONSE, p);
    assert StatusForReply(ReplyOf(Server.SERVER_ERROR_RESPONSE)).kind == Warning;
  }
}
