/**
 * The booking intake endpoint `POST /api/reserve`: validate the body, then
 * append a ledger row (when a sheet is configured), then mail the customer
 * and the owner (when a mail key is configured). The ledger and the mail
 * service are abstract fallible steps: which of them raise is an input.
 */
module Server {
  import opened Wrappers
  import opened Text
  import opened Email

  const DEFAULT_OWNER_EMAIL := "dvorekboys@seznam.cz"
  const SHEET_RANGE := "Sheet1!A:E"

  /** `Number(people)`: a finite number, or NaN / an infinity. */
  datatype Num = Finite(value: real) | NonFinite

  /** The request body fields the server reads; a missing field is `None`. */
  datatype Body = Body(name: Option<string>, email: Option<string>, people: Num, slot: Option<string>)

  /** A string field is truthy when present and non-empty. */
  predicate Truthy(v: Option<string>) {
    v.Some? && v.value != []
  }

  /** `validateBooking`. The party size is checked for range only, so 2.5 passes. */
  predicate ValidateBooking(body: Body) {
    if !Truthy(body.name) || !Truthy(body.email) || !Truthy(body.slot) then false
    else if !ServerEmail(body.email.value) then false
    else match body.people
      case NonFinite => false
      case Finite(p) => 1.0 <= p <= 8.0
  }

  /** Server configuration: owner address, and whether the mail key and the sheet id are set. */
  datatype Config = Config(ownerEmail: string, mailKey: bool, sheetId: bool)

  /** Reads the three environment values; an unset or empty owner falls back to the default. */
  function ConfigFromEnv(owner: Option<string>, mailKey: Option<string>, sheetId: Option<string>): (cfg: Config)
    ensures cfg.ownerEmail != []
    ensures cfg.mailKey <==> Truthy(mailKey)
    ensures cfg.sheetId <==> Truthy(sheetId)
  {
    Config(if Truthy(owner) then owner.value else DEFAULT_OWNER_EMAIL, Truthy(mailKey), Truthy(sheetId))
  }

  datatype Cell = TextCell(text: string) | NumberCell(number: Num)

  datatype Mail = Mail(to: string, from: string, subject: string)

  datatype Recipient = Customer | Owner

  /** An effect the handler asks of a collaborator. */
  datatype Call = AppendRow(range: string, row: seq<Cell>) | SendMail(recipient: Recipient, mail: Mail)

  /** Which collaborator steps raise when performed. */
  datatype Faults = Faults(ledger: bool, customerMail: bool, ownerMail: bool)

  predicate Raises(c: Call, f: Faults) {
    match c
    case AppendRow(_, _) => f.ledger
    case SendMail(Customer, _) => f.customerMail
    case SendMail(Owner, _) => f.ownerMail
  }

  /** Some step of `calls` raises. */
  predicate AnyRaises(calls: seq<Call>, f: Faults)
    decreases |calls|
  {
    calls != [] && (Raises(calls[0], f) || AnyRaises(calls[1..], f))
  }

  /** The ledger row: timestamp, slot, name, e-mail, party size. */
  function LedgerRow(timestamp: string, body: Body): seq<Cell>
    requires ValidateBooking(body)
  {
    [TextCell(timestamp), TextCell(body.slot.value), TextCell(body.name.value), TextCell(body.email.value), NumberCell(body.people)]
  }

  function CustomerMail(body: Body, cfg: Config): Mail
    requires ValidateBooking(body)
  {
    Mail(body.email.value, cfg.ownerEmail, "Potvrzení rezervace " + body.slot.value)
  }

  function OwnerMail(body: Body, cfg: Config): Mail
    requires ValidateBooking(body)
  {
    Mail(cfg.ownerEmail, cfg.ownerEmail, "Nová rezervace: " + body.slot.value + " — " + body.name.value)
  }

  /** Every step a valid request asks for, in order, when none of them raises. */
  function Planned(body: Body, cfg: Config, timestamp: string): seq<Call>
    requires ValidateBooking(body)
  {
    (if cfg.sheetId then [AppendRow(SHEET_RANGE, LedgerRow(timestamp, body))] else [])
    + (if cfg.mailKey then [SendMail(Customer, CustomerMail(body, cfg)), SendMail(Owner, OwnerMail(body, cfg))] else [])
  }

  /** The steps actually performed: all of them up to and including the first that raises. */
  function Executed(calls: seq<Call>, f: Faults): (done: seq<Call>)
    ensures done <= calls
    decreases |calls|
  {
    if calls == [] then []
    else if Raises(calls[0], f) then [calls[0]]
    else [calls[0]] + Executed(calls[1..], f)
  }

  /** `AnyRaises` is "some index raises". */
  lemma {:induction false} AnyRaisesAt(calls: seq<Call>, f: Faults)
    ensures AnyRaises(calls, f) <==> exists k | 0 <= k < |calls| :: Raises(calls[k], f)
    decreases |calls|
  {
    if calls != [] {
      AnyRaisesAt(calls[1..], f);
      assert forall k | 1 <= k < |calls| :: calls[k] == calls[1..][k - 1];
      if AnyRaises(calls[1..], f) {
        var k :| 0 <= k < |calls| - 1 && Raises(calls[1..][k], f);
        assert Raises(calls[k + 1], f);
      }
    }
  }

  /**
   * The steps performed stop exactly at the first raising one: it is the
   * last step performed and none before it raised; when nothing raises,
   * every step is performed.
   */
  lemma {:induction false} ExecutedStopsAtFault(calls: seq<Call>, f: Faults)
    ensures AnyRaises(calls, f) ==>
      var done := Executed(calls, f);
      done != [] && Raises(done[|done| - 1], f) && !AnyRaises(done[..|done| - 1], f)
    ensures !AnyRaises(calls, f) ==> Executed(calls, f) == calls
    decreases |calls|
  {
    if calls != [] {
      if Raises(calls[0], f) {
        assert Executed(calls, f)[..0] == [];
      } else {
        ExecutedStopsAtFault(calls[1..], f);
        var done, rest := Executed(calls, f), Executed(calls[1..], f);
        assert done == [calls[0]] + rest;
        if AnyRaises(calls, f) {
          assert done[..|done| - 1] == [calls[0]] + rest[..|rest| - 1];
          ExecutedCons(calls[0], rest[..|rest| - 1], f);
        } else {
          assert calls == [calls[0]] + calls[1..];
        }
      }
    }
  }

  datatype Response = Response(status: nat, ok: bool, error: Option<string>)

  const OK_RESPONSE := Response(200, true, None)
  const INVALID_RESPONSE := Response(400, false, Some("Invalid data"))
  const SERVER_ERROR_RESPONSE := Response(500, false, Some("server error"))

  /** What the handler answers and which steps it performs. */
  function Outcome(body: Body, cfg: Config, timestamp: string, f: Faults): (Response, seq<Call>) {
    if !ValidateBooking(body) then (INVALID_RESPONSE, [])
    else
      var planned := Planned(body, cfg, timestamp);
      (if AnyRaises(planned, f) then SERVER_ERROR_RESPONSE else OK_RESPONSE, Executed(planned, f))
  }

  lemma ExecutedCons(c: Call, rest: seq<Call>, f: Faults)
    ensures Executed([c] + rest, f) == if Raises(c, f) then [c] else [c] + Executed(rest, f)
    ensures AnyRaises([c] + rest, f) == (Raises(c, f) || AnyRaises(rest, f))
  {
    assert ([c] + rest)[1..] == rest;
  }

  /** Steps that do not raise are all performed, and the rest proceeds as if they were not there. */
  lemma {:induction false} ExecutedAfter(pre: seq<Call>, rest: seq<Call>, f: Faults)
    requires !AnyRaises(pre, f)
    ensures Executed(pre + rest, f) == pre + Executed(rest, f)
    ensures AnyRaises(pre + rest, f) == AnyRaises(rest, f)
    decreases |pre|
  {
    if pre != [] {
      assert pre + rest == [pre[0]] + (pre[1..] + rest);
      ExecutedCons(pre[0], pre[1..] + rest, f);
      assert !Raises(pre[0], f) && !AnyRaises(pre[1..], f);
      ExecutedAfter(pre[1..], rest, f);
      assert Executed(pre + rest, f) == [pre[0]] + Executed(pre[1..] + rest, f);
      assert Executed(pre[1..] + rest, f) == pre[1..] + Executed(rest, f);
      assert [pre[0]] + (pre[1..] + Executed(rest, f)) == pre + Executed(rest, f);
    } else {
      assert pre + rest == rest;
    }
  }

  /** The `/api/reserve` handler, one awaited step after another. */
  method Reserve(body: Body, cfg: Config, timestamp: string, f: Faults) returns (resp: Response, calls: seq<Call>)
    ensures (resp, calls) == Outcome(body, cfg, timestamp, f)
  {
    if !ValidateBooking(body) {
      return INVALID_RESPONSE, [];
    }
    var row := LedgerRow(timestamp, body);
    var msgCustomer := CustomerMail(body, cfg);
    var msgOwner := OwnerMail(body, cfg);
    ghost var mails := if cfg.mailKey then [SendMail(Customer, msgCustomer), SendMail(Owner, msgOwner)] else [];
    ghost var planned := Planned(body, cfg, timestamp);
    calls := [];
    if cfg.sheetId {
      calls := [AppendRow(SHEET_RANGE, row)];
      ExecutedCons(AppendRow(SHEET_RANGE, row), mails, f);
      if f.ledger {
        assert calls == Executed(planned, f) && AnyRaises(planned, f);
        return SERVER_ERROR_RESPONSE, calls;
      }
    }
    assert planned == calls + mails;
    ExecutedAfter(calls, mails, f);
    if cfg.mailKey {
      ExecutedCons(SendMail(Customer, msgCustomer), [SendMail(Owner, msgOwner)], f);
      ExecutedCons(SendMail(Owner, msgOwner), [], f);
      assert Executed([], f) == [] && !AnyRaises([], f);
      calls := calls + [SendMail(Customer, msgCustomer)];
      if f.customerMail {
        assert calls == Executed(planned, f) && AnyRaises(planned, f);
        return SERVER_ERROR_RESPONSE, calls;
      }
      calls := calls + [SendMail(Owner, msgOwner)];
      if f.ownerMail {
        assert calls == Executed(planned, f) && AnyRaises(planned, f);
        return SERVER_ERROR_RESPONSE, calls;
      }
    }
    assert calls == Executed(planned, f) && !AnyRaises(planned, f);
    return OK_RESPONSE, calls;
  }

  /** Position of a step in the handler's fixed order: ledger, customer, owner. */
  function Rank(c: Call): nat {
    match c
    case AppendRow(_, _) => 0
    case SendMail(Customer, _) => 1
    case SendMail(Owner, _) => 2
  }

  /**
   * The three possible answers: 400 exactly for an invalid body, which
   * performs nothing; 500 exactly when a performed step raised, which is
   * then the last one performed; otherwise 200, with every planned step
   * performed. What is performed is always a prefix of the plan.
   */
  lemma OutcomeCases(body: Body, cfg: Config, timestamp: string, f: Faults)
    ensures var (resp, calls) := Outcome(body, cfg, timestamp, f);
      (resp == INVALID_RESPONSE <==> !ValidateBooking(body))
      && (resp == INVALID_RESPONSE ==> calls == [])
      && (resp == SERVER_ERROR_RESPONSE <==> ValidateBooking(body) && AnyRaises(calls, f))
      && (resp == SERVER_ERROR_RESPONSE ==>
            calls != [] && Raises(calls[|calls| - 1], f) && !AnyRaises(calls[..|calls| - 1], f))
      && (resp == OK_RESPONSE <==> ValidateBooking(body) && !AnyRaises(calls, f))
      && (resp == OK_RESPONSE ==> calls == Planned(body, cfg, timestamp))
      && (ValidateBooking(body) ==> calls <= Planned(body, cfg, timestamp))
  {
    if ValidateBooking(body) {
      var planned := Planned(body, cfg, timestamp);
      var done := Executed(planned, f);
      ExecutedStopsAtFault(planned, f);
      AnyRaisesAt(done, f);
      if AnyRaises(planned, f) {
        assert Raises(done[|done| - 1], f);
      }
    }
  }

  /**
   * The plan of a valid request: the ledger row exactly when a sheet is
   * configured, the two mails exactly when a mail key is set, in the order
   * ledger, customer, owner, each at most once.
   */
  lemma PlannedSteps(body: Body, cfg: Config, timestamp: string)
    requires ValidateBooking(body)
    ensures var p := Planned(body, cfg, timestamp);
      |p| == (if cfg.sheetId then 1 else 0) + (if cfg.mailKey then 2 else 0)
      && (forall i, j | 0 <= i < j < |p| :: Rank(p[i]) < Rank(p[j]))
      && (AppendRow(SHEET_RANGE, LedgerRow(timestamp, body)) in p <==> cfg.sheetId)
      && (SendMail(Customer, CustomerMail(body, cfg)) in p <==> cfg.mailKey)
      && (SendMail(Owner, OwnerMail(body, cfg)) in p <==> cfg.mailKey)
      && (forall c | c in p :: c.AppendRow? ==> |c.row| == 5)
  {
    var p := Planned(body, cfg, timestamp);
    if cfg.sheetId && cfg.mailKey {
      assert Rank(p[0]) == 0 && Rank(p[1]) == 1 && Rank(p[2]) == 2;
    }
  }

  /**
   * The performed steps keep the plan's order, and every one is a step the
   * configuration asks for.
   */
  lemma EffectOrder(body: Body, cfg: Config, timestamp: string, f: Faults)
    requires ValidateBooking(body)
    ensures var calls := Outcome(body, cfg, timestamp, f).1;
      (forall i, j | 0 <= i < j < |calls| :: Rank(calls[i]) < Rank(calls[j]))
      && (forall c | c in calls :: (c.AppendRow? ==> cfg.sheetId) && (c.SendMail? ==> cfg.mailKey))
      && (cfg.sheetId ==> calls != [] && calls[0] == AppendRow(SHEET_RANGE, LedgerRow(timestamp, body)))
  {
    var p := Planned(body, cfg, timestamp);
    var calls := Outcome(body, cfg, timestamp, f).1;
    PlannedSteps(body, cfg, timestamp);
    assert calls <= p;
    assert forall i | 0 <= i < |calls| :: calls[i] == p[i];
    if cfg.sheetId {
      assert p[0] == AppendRow(SHEET_RANGE, LedgerRow(timestamp, body));
    }
  }

  /**
   * Without a mail key no mail is attempted and the request still succeeds,
   * unless the ledger append itself raises.
   */
  lemma MissingMailKeyStillOk(body: Body, cfg: Config, timestamp: string, f: Faults)
    requires ValidateBooking(body) && !cfg.mailKey && !(cfg.sheetId && f.ledger)
    ensures Outcome(body, cfg, timestamp, f)
      == (OK_RESPONSE, if cfg.sheetId then [AppendRow(SHEET_RANGE, LedgerRow(timestamp, body))] else [])
  {
    var p := Planned(body, cfg, timestamp);
    if cfg.sheetId {
      var append := AppendRow(SHEET_RANGE, LedgerRow(timestamp, body));
      assert p == [append] + [];
      ExecutedCons(append, [], f);
      assert Executed([], f) == [] && !AnyRaises([], f);
      assert Executed(p, f) == [append];
      assert !AnyRaises(p, f);
    } else {
      assert p == [];
    }
  }

  /** Faults of steps that are not configured make no difference. */
  lemma UnconfiguredFaultsIrrelevant(body: Body, cfg: Config, timestamp: string, f: Faults)
    ensures Outcome(body, cfg, timestamp, f) == Outcome(body, cfg, timestamp,
      Faults(f.ledger && cfg.sheetId, f.customerMail && cfg.mailKey, f.ownerMail && cfg.mailKey))
  {
    if ValidateBooking(body) {
      var g := Faults(f.ledger && cfg.sheetId, f.customerMail && cfg.mailKey, f.ownerMail && cfg.mailKey);
      var p := Planned(body, cfg, timestamp);
      SameFaultsOnSteps(p, f, g);
    }
  }

  /** Two fault assignments that agree on every step of `calls` give the same run. */
  lemma {:induction false} SameFaultsOnSteps(calls: seq<Call>, f: Faults, g: Faults)
    requires forall c | c in calls :: Raises(c, f) == Raises(c, g)
    ensures Executed(calls, f) == Executed(calls, g)
    ensures AnyRaises(calls, f) == AnyRaises(calls, g)
    decreases |calls|
  {
    if calls != [] {
      assert forall c | c in calls[1..] :: c in calls;
      SameFaultsOnSteps(calls[1..], f, g);
    }
  }

  /** Examples of `validateBooking`'s decisions. */
  lemma ValidationExamples()
    ensures ValidateBooking(Body(Some("Jan"), Some("jan@example.com"), Finite(2.5), Some("18:30")))
    ensures ValidateBooking(Body(Some("Jan"), Some("a@b@c.d"), Finite(8.0), Some("18:30")))
    ensures !ValidateBooking(Body(Some("Jan"), Some("jan@example.com"), Finite(0.0), Some("18:30")))
    ensures !ValidateBooking(Body(Some("Jan"), Some("jan@example.com"), Finite(9.0), Some("18:30")))
    ensures !ValidateBooking(Body(Some("Jan"), Some("jan@example.com"), NonFinite, Some("18:30")))
    ensures !ValidateBooking(Body(Some(""), Some("jan@example.com"), Finite(2.0), Some("18:30")))
    ensures !ValidateBooking(Body(Some("Jan"), None, Finite(2.0), Some("18:30")))
    ensures !ValidateBooking(Body(Some("Jan"), Some("not-an-email"), Finite(2.0), Some("18:30")))
  {
    var e := "jan@example.com";
    assert ServerSplit(e, 3, 11);
    ServerAcceptsDoubleAt();
    NotAnEmail();
  }
}
