/** The bot of `cashier/telegram_bot/__init__.py`: the `/pair` command parsed
    by splitting on spaces, and the three pipelines (transactions, pairing,
    flights) working directly on the Mongo collections `transactions`,
    `membership` and `flights`.

    The collections are a value, `Store`, and each pipeline step is a
    function on it (`ProcessTransactionStep`, `PairStep`, `ProcessFlightStep`)
    about which the lemmas speak; class `Database` holds the same collections
    as fields and its methods perform the steps in the source's order, each
    proved to end in the state its step function describes. */
module LegacyBot {
  import opened Domain
  import opened PyStr

  // ---------------------------------------------------------------------
  // The `/pair <transaction id> <type> <pilot username>` command
  // ---------------------------------------------------------------------

  /** What `_parse_pair_msg` returns: the id, the type and the resolved pilot. */
  datatype PairRequest = PairRequest(transactionId: string, membershipType: MembershipType, pilot: Pilot)

  const NotNumericMessage := "Transaction ID must be numeric"

  function ArgCountMessage(got: nat): string {
    "Expected 3 arguments, got " + NatToString(got)
  }

  /** `_parse_pair_msg`: strip the text, split it on single spaces, demand
      four pieces (the command and three arguments), a numeric transaction
      id, then parse the type (`Membership.from_str`) and resolve the pilot
      (`Pilot.load_id`); both are passed in and may raise. */
  function ParsePairMsg(text: string, fromStr: string -> Outcome<MembershipType>,
                        loadId: string -> Outcome<int>): (r: Outcome<PairRequest>)
    // the reported argument count is the number of spaces in the stripped text
    ensures Count(Strip(text), ' ') != 3 ==>
              r == Raised(ValueError(ArgCountMessage(Count(Strip(text), ' '))))
    ensures var parts := Split(Strip(text));
            |parts| != 4 ==> r == Raised(ValueError(ArgCountMessage(|parts| - 1)))
    ensures var parts := Split(Strip(text));
            |parts| == 4 && !IsNumeric(Strip(parts[1])) ==> r == Raised(ValueError(NotNumericMessage))
    ensures r.Returned? ==>
              var parts := Split(Strip(text));
              && |parts| == 4
              && IsNumeric(r.value.transactionId)
              && r.value.transactionId == Strip(parts[1])
              && fromStr(Strip(parts[2])) == Returned(r.value.membershipType)
              && r.value.pilot.username == Strip(parts[3])
              && loadId(Strip(parts[3])) == Returned(r.value.pilot.id)
    // a lookup that raises makes its exception the outcome
    ensures var parts := Split(Strip(text));
            |parts| == 4 && IsNumeric(Strip(parts[1])) && fromStr(Strip(parts[2])).Raised? ==>
              r == Raised(fromStr(Strip(parts[2])).exc)
    ensures var parts := Split(Strip(text));
            (|parts| == 4 && IsNumeric(Strip(parts[1])) && fromStr(Strip(parts[2])).Returned?
             && loadId(Strip(parts[3])).Raised?) ==> r == Raised(loadId(Strip(parts[3])).exc)
  {
    SplitLength(Strip(text));
    ParseParts(Split(Strip(text)), fromStr, loadId)
  }

  /** The checks of `_parse_pair_msg` on the pieces of the split text. */
  function ParseParts(parts: seq<string>, fromStr: string -> Outcome<MembershipType>,
                      loadId: string -> Outcome<int>): (r: Outcome<PairRequest>)
    requires |parts| >= 1
    ensures |parts| != 4 ==> r == Raised(ValueError(ArgCountMessage(|parts| - 1)))
    ensures |parts| == 4 && !IsNumeric(Strip(parts[1])) ==> r == Raised(ValueError(NotNumericMessage))
    ensures r.Returned? ==>
              && |parts| == 4
              && IsNumeric(r.value.transactionId)
              && r.value.transactionId == Strip(parts[1])
              && fromStr(Strip(parts[2])) == Returned(r.value.membershipType)
              && r.value.pilot.username == Strip(parts[3])
              && loadId(Strip(parts[3])) == Returned(r.value.pilot.id)
    ensures |parts| == 4 && IsNumeric(Strip(parts[1])) && fromStr(Strip(parts[2])).Raised? ==>
              r == Raised(fromStr(Strip(parts[2])).exc)
    ensures (|parts| == 4 && IsNumeric(Strip(parts[1])) && fromStr(Strip(parts[2])).Returned?
             && loadId(Strip(parts[3])).Raised?) ==> r == Raised(loadId(Strip(parts[3])).exc)
  {
    if |parts| != 4 then
      Raised(ValueError(ArgCountMessage(|parts| - 1)))
    else
      var transactionId, typeName, username := Strip(parts[1]), Strip(parts[2]), Strip(parts[3]);
      if !IsNumeric(transactionId) then
        Raised(ValueError(NotNumericMessage))
      else
        match fromStr(typeName)
        case Raised(e) => Raised(e)
        case Returned(t) =>
          match loadId(username)
          case Raised(e) => Raised(e)
          case Returned(id) => Returned(PairRequest(transactionId, t, Pilot(username, id)))
  }

  /** A command of exactly four space-separated pieces (the command and
      its three arguments) whose lookups succeed is accepted, with the
      stripped pieces as its arguments. */
  lemma ParsePairMsgAccepts(text: string, parts: seq<string>,
                            fromStr: string -> Outcome<MembershipType>, loadId: string -> Outcome<int>,
                            t: MembershipType, pilotId: int)
    requires |parts| == 4 && Strip(text) == Join(parts)
    requires forall k :: 0 <= k < 4 ==> ' ' !in parts[k]
    requires IsNumeric(Strip(parts[1]))
    requires fromStr(Strip(parts[2])) == Returned(t)
    requires loadId(Strip(parts[3])) == Returned(pilotId)
    ensures ParsePairMsg(text, fromStr, loadId)
            == Returned(PairRequest(Strip(parts[1]), t, Pilot(Strip(parts[3]), pilotId)))
  {
    JoinSplit(parts);
  }

  /** The argument count and the numeric id are checked before the type is
      parsed or the pilot looked up: while either check fails, the outcome
      does not depend on the two lookups at all. */
  lemma ValidationPrecedesLookups(text: string,
                                  fromStr1: string -> Outcome<MembershipType>, loadId1: string -> Outcome<int>,
                                  fromStr2: string -> Outcome<MembershipType>, loadId2: string -> Outcome<int>)
    requires var parts := Split(Strip(text));
             |parts| != 4 || !IsNumeric(Strip(parts[1]))
    ensures ParsePairMsg(text, fromStr1, loadId1) == ParsePairMsg(text, fromStr2, loadId2)
    ensures ParsePairMsg(text, fromStr1, loadId1).Raised?
  {
  }

  /** The type is parsed before the pilot is looked up: when `from_str`
      raises, `load_id` has no influence and its exception is the outcome. */
  lemma TypePrecedesPilot(text: string, fromStr: string -> Outcome<MembershipType>,
                          loadId1: string -> Outcome<int>, loadId2: string -> Outcome<int>)
    requires var parts := Split(Strip(text));
             |parts| == 4 && fromStr(Strip(parts[2])).Raised?
    ensures ParsePairMsg(text, fromStr, loadId1) == ParsePairMsg(text, fromStr, loadId2)
    ensures var parts := Split(Strip(text));
            IsNumeric(Strip(parts[1])) ==>
              ParsePairMsg(text, fromStr, loadId1) == Raised(fromStr(Strip(parts[2])).exc)
  {
  }

  // ---------------------------------------------------------------------
  // The store: three collections and their unique indices
  // ---------------------------------------------------------------------

  /** `used_for` of a membership: absent, the ISO date of a daily pass's
      day, or the year of a yearly pass. The source stores the ISO string;
      `isoformat` is injective on dates, so comparing dates is comparing
      the stored strings. */
  datatype UsedFor = Unset | OnDate(date: Date) | ForYear(year: int)

  /** A document of the `membership` collection. */
  datatype MembershipDoc = MembershipDoc(transactionId: string, membershipType: MembershipType, pilot: Pilot,
                                         datePaired: Date, usedFor: UsedFor)

  /** A document of the `flights` collection. */
  datatype FlightDoc = FlightDoc(flight: Flight, processed: bool)

  /** The database together with the messages the bot has sent so far.
      `transactions` and `flights` are keyed by their `id`, the field their
      unique index is on; `memberships` keeps the collection's own order,
      which is the order in which `find_one` meets documents. */
  datatype Store = Store(transactions: map<string, Transaction>, memberships: seq<MembershipDoc>,
                         flights: map<string, FlightDoc>, sent: seq<Message>)

  predicate UniqueTransactionIds(ms: seq<MembershipDoc>) {
    forall i, j :: 0 <= i < j < |ms| ==> ms[i].transactionId != ms[j].transactionId
  }

  /** The unique indices `setup_mongo_indices` creates: `id` on flights and
      on transactions, `transaction_id` on memberships. */
  predicate IndicesHold(s: Store) {
    && (forall id :: id in s.transactions ==> s.transactions[id].id == id)
    && (forall id :: id in s.flights ==> s.flights[id].flight.id == id)
    && UniqueTransactionIds(s.memberships)
  }

  /** `find_one(filter)`: the position of the first document the filter
      accepts, if any. */
  function FindOne(docs: seq<MembershipDoc>, filter: MembershipDoc -> bool): (r: Option<nat>)
    ensures r.Some? ==> r.value < |docs| && filter(docs[r.value])
    ensures r.Some? ==> forall j :: 0 <= j < r.value ==> !filter(docs[j])
    ensures r.None? <==> forall j :: 0 <= j < |docs| ==> !filter(docs[j])
  {
    if docs == [] then None
    else if filter(docs[0]) then Some(0)
    else
      match FindOne(docs[1..], filter)
      case None => None
      case Some(k) => Some(k + 1)
  }

  /** `membership.find_one({"transaction_id": id})`. */
  function FindByTransaction(ms: seq<MembershipDoc>, transactionId: string): (r: Option<nat>)
    ensures r.Some? ==> r.value < |ms| && ms[r.value].transactionId == transactionId
    ensures r.None? <==> forall j :: 0 <= j < |ms| ==> ms[j].transactionId != transactionId
  {
    FindOne(ms, (m: MembershipDoc) => m.transactionId == transactionId)
  }

  /** The filter of the membership query in `process_flight`: the flight's
      pilot, and a daily pass used for the flight's date, a yearly pass used
      for its year, or a pass not used yet. */
  predicate Matches(m: MembershipDoc, f: Flight) {
    && m.pilot.username == f.pilot.username
    && (|| (m.membershipType == Daily && m.usedFor == OnDate(f.date))
        || (m.membershipType == Yearly && m.usedFor == ForYear(f.date.year))
        || m.usedFor == Unset)
  }

  /** The membership query of `process_flight`. */
  function FindMatch(ms: seq<MembershipDoc>, f: Flight): (r: Option<nat>)
    ensures r.Some? ==> r.value < |ms| && Matches(ms[r.value], f)
    ensures r.Some? ==> forall j :: 0 <= j < r.value ==> !Matches(ms[j], f)
    ensures r.None? <==> forall j :: 0 <= j < |ms| ==> !Matches(ms[j], f)
  {
    FindOne(ms, (m: MembershipDoc) => Matches(m, f))
  }

  /** The consuming update: a yearly pass is marked with the flight's year,
      a daily pass with its date; any other type is left as it is. */
  function Consume(m: MembershipDoc, f: Flight): MembershipDoc {
    if m.membershipType == Yearly then m.(usedFor := ForYear(f.date.year))
    else if m.membershipType == Daily then m.(usedFor := OnDate(f.date))
    else m
  }

  /** Once consumed by a flight, a daily pass matches exactly the flights of
      that pilot on that day, and a yearly pass exactly that pilot's flights
      in that year: a pass is never reused outside its period, and is
      reused freely inside it. */
  lemma ConsumedPassPeriod(m: MembershipDoc, f: Flight, g: Flight)
    requires Matches(m, f)
    requires m.membershipType == Daily || m.membershipType == Yearly
    ensures m.membershipType == Daily ==>
              (Matches(Consume(m, f), g) <==> g.pilot.username == f.pilot.username && g.date == f.date)
    ensures m.membershipType == Yearly ==>
              (Matches(Consume(m, f), g) <==> g.pilot.username == f.pilot.username && g.date.year == f.date.year)
  {
  }

  /** Consuming again for the same flight changes nothing more. */
  lemma ConsumeIdempotent(m: MembershipDoc, f: Flight)
    ensures Consume(Consume(m, f), f) == Consume(m, f)
    ensures Matches(m, f) ==> Matches(Consume(m, f), f)
  {
  }

  /** The outcome of one pipeline step: the new store and the exception, if
      any, that escapes the handler. */
  datatype Step = Step(store: Store, raised: Option<Exception>)

  // ---------------------------------------------------------------------
  // process_transaction
  // ---------------------------------------------------------------------

  /** `process_transaction`: store the transaction (a transaction already
      stored under the same id stays as it is), classify its amount
      (`Membership.from_amount`, passed in; a `ValueError` means
      "unclassified"), then post one notification. Any other exception of
      the classifier escapes after the transaction is stored. */
  function ProcessTransactionStep(s: Store, t: Transaction, fromAmount: real -> Outcome<MembershipType>): Step {
    var stored := s.(transactions := if t.id in s.transactions then s.transactions
                                     else s.transactions[t.id := t]);
    match fromAmount(t.amount)
    case Returned(ty) => Step(stored.(sent := s.sent + [NewTransaction(t, Some(ty))]), None)
    case Raised(ValueError(_)) => Step(stored.(sent := s.sent + [NewTransaction(t, None)]), None)
    case Raised(e) => Step(stored, Some(e))
  }

  /** The transaction is stored first, whatever the classifier does; an
      unknown amount is no error and yields exactly one notification
      without a suggestion; nothing but the transactions and the
      notifications changes. */
  lemma ProcessTransactionEffects(s: Store, t: Transaction, fromAmount: real -> Outcome<MembershipType>)
    requires IndicesHold(s)
    ensures var r := ProcessTransactionStep(s, t, fromAmount);
            && t.id in r.store.transactions
            && r.store.transactions.Keys == s.transactions.Keys + {t.id}
            && (forall id :: id in s.transactions ==> r.store.transactions[id] == s.transactions[id])
            && r.store.memberships == s.memberships && r.store.flights == s.flights
            && IndicesHold(r.store)
    ensures var r := ProcessTransactionStep(s, t, fromAmount);
            fromAmount(t.amount).Raised? && fromAmount(t.amount).exc.ValueError? ==>
              r.raised == None && r.store.sent == s.sent + [NewTransaction(t, None)]
    ensures var r := ProcessTransactionStep(s, t, fromAmount);
            r.raised == None <==> |r.store.sent| == |s.sent| + 1
    ensures var r := ProcessTransactionStep(s, t, fromAmount);
            r.raised.Some? ==> r.store.sent == s.sent
    ensures var r := ProcessTransactionStep(s, t, fromAmount);
            fromAmount(t.amount).Returned? ==>
              r.raised == None && r.store.sent == s.sent + [NewTransaction(t, Some(fromAmount(t.amount).value))]
    ensures var r := ProcessTransactionStep(s, t, fromAmount);
            (fromAmount(t.amount).Raised? && !fromAmount(t.amount).exc.ValueError?) ==>
              r.raised == Some(fromAmount(t.amount).exc)
  {
  }

  /** Delivering the same transaction twice stores it once: the second run
      leaves the collections as the first one did and, like the first,
      raises nothing the first did not. */
  lemma ProcessTransactionTwice(s: Store, t: Transaction, fromAmount: real -> Outcome<MembershipType>)
    ensures var once := ProcessTransactionStep(s, t, fromAmount);
            var twice := ProcessTransactionStep(once.store, t, fromAmount);
            && twice.store.transactions == once.store.transactions
            && twice.store.memberships == once.store.memberships
            && twice.store.flights == once.store.flights
            && twice.raised == once.raised
  {
  }

  // ---------------------------------------------------------------------
  // pair
  // ---------------------------------------------------------------------

  /** `pair`, given what `_parse_pair_msg` made of the command (a
      `ValueError` is answered with a hint to `/help`; any other exception
      escapes the handler): refuse a transaction id that
      already has a membership, naming that membership's type and pilot;
      otherwise insert a membership with no `used_for` and answer. */
  function PairStep(s: Store, parsed: Outcome<PairRequest>, today: Date): Step {
    match parsed
    case Raised(ValueError(msg)) => Step(s.(sent := s.sent + [Answer(HelpHint(msg))]), None)
    case Raised(e) => Step(s, Some(e))
    case Returned(req) =>
      match FindByTransaction(s.memberships, req.transactionId)
      case Some(i) =>
        var existing := s.memberships[i];
        Step(s.(sent := s.sent + [Answer(AlreadyPaired(existing.membershipType, existing.pilot.username))]), None)
      case None =>
        Step(s.(memberships := s.memberships + [MembershipDoc(req.transactionId, req.membershipType, req.pilot, today, Unset)],
                sent := s.sent + [Answer(Paired)]), None)
  }

  /** A command that does not parse writes nothing: the collections stay as
      they are and at most a hint is answered. */
  lemma PairInvalidWritesNothing(s: Store, parsed: Outcome<PairRequest>, today: Date)
    requires parsed.Raised?
    ensures var r := PairStep(s, parsed, today);
            && r.store.transactions == s.transactions
            && r.store.memberships == s.memberships
            && r.store.flights == s.flights
    ensures var r := PairStep(s, parsed, today);
            var e := parsed.exc;
            if e.ValueError? then r.raised == None && r.store.sent == s.sent + [Answer(HelpHint(e.msg))]
            else r.raised == Some(e) && r.store.sent == s.sent
  {
  }

  /** A pilot lookup that fails on a well-formed command escapes the legacy
      handler: only `ValueError` is caught, so an `aiohttp.ClientError`
      from `load_id` leaves the store and the chat as they were. */
  lemma PairLookupEscapes(s: Store, text: string, fromStr: string -> Outcome<MembershipType>,
                          loadId: string -> Outcome<int>, today: Date, msg: string)
    requires var parts := Split(Strip(text));
             && |parts| == 4 && IsNumeric(Strip(parts[1])) && fromStr(Strip(parts[2])).Returned?
             && loadId(Strip(parts[3])) == Raised(ClientError(msg))
    ensures PairStep(s, ParsePairMsg(text, fromStr, loadId), today) == Step(s, Some(ClientError(msg)))
  {
    assert ParsePairMsg(text, fromStr, loadId) == Raised(ClientError(msg));
  }

  /** Pairing an id that already has a membership changes no membership,
      and the answer names the type and pilot of the membership (the only
      one, by the unique index) that holds that id. */
  lemma PairConflict(s: Store, parsed: Outcome<PairRequest>, today: Date, i: nat)
    requires IndicesHold(s)
    requires parsed.Returned?
    requires i < |s.memberships|
    requires s.memberships[i].transactionId == parsed.value.transactionId
    ensures var r := PairStep(s, parsed, today);
            && r.store.memberships == s.memberships
            && r.store.transactions == s.transactions && r.store.flights == s.flights
            && r.raised == None
            && r.store.sent == s.sent + [Answer(AlreadyPaired(s.memberships[i].membershipType, s.memberships[i].pilot.username))]
  {
    var found := FindByTransaction(s.memberships, parsed.value.transactionId);
    assert found.Some?;
    assert found.value == i;
  }

  /** Pairing a fresh id adds exactly one membership, at the end, carrying
      the id, type and pilot of the command, today's date and no
      `used_for`; no other membership changes and the unique indices still
      hold. */
  lemma PairFresh(s: Store, parsed: Outcome<PairRequest>, today: Date)
    requires IndicesHold(s)
    requires parsed.Returned?
    requires forall j :: 0 <= j < |s.memberships| ==>
               s.memberships[j].transactionId != parsed.value.transactionId
    ensures var req := parsed.value;
            var r := PairStep(s, parsed, today);
            && r.store.memberships
               == s.memberships + [MembershipDoc(req.transactionId, req.membershipType, req.pilot, today, Unset)]
            && r.store.transactions == s.transactions && r.store.flights == s.flights
            && r.raised == None && r.store.sent == s.sent + [Answer(Paired)]
            && IndicesHold(r.store)
  {
  }

  /** Every pairing step keeps the unique indices. */
  lemma PairPreservesIndices(s: Store, parsed: Outcome<PairRequest>, today: Date)
    requires IndicesHold(s)
    ensures IndicesHold(PairStep(s, parsed, today).store)
  {
    if parsed.Returned? && FindByTransaction(s.memberships, parsed.value.transactionId).None? {
      PairFresh(s, parsed, today);
    }
  }

  /** A transaction is paired once: repeating a successful command is
      refused with the grant just made, and the memberships stay as the
      first command left them. */
  lemma PairTwice(s: Store, parsed: Outcome<PairRequest>, today: Date, later: Date)
    requires IndicesHold(s)
    requires parsed.Returned?
    requires forall j :: 0 <= j < |s.memberships| ==> s.memberships[j].transactionId != parsed.value.transactionId
    ensures var first := PairStep(s, parsed, today).store;
            var req := parsed.value;
            var second := PairStep(first, parsed, later);
            && second.store.memberships == first.memberships
            && second.store.sent == first.sent + [Answer(AlreadyPaired(req.membershipType, req.pilot.username))]
  {
    PairFresh(s, parsed, today);
    var first := PairStep(s, parsed, today).store;
    PairConflict(first, parsed, later, |s.memberships|);
  }

  // ---------------------------------------------------------------------
  // process_flight
  // ---------------------------------------------------------------------

  /** `process_flight`: store an unseen flight unprocessed; skip a flight
      already processed; otherwise consume the first matching membership or,
      when none matches, post one alert; mark the flight processed last. A
      flight stored earlier but left unprocessed is processed again without
      being stored anew. */
  function ProcessFlightStep(s: Store, f: Flight): Store {
    if f.id in s.flights && s.flights[f.id].processed then s
    else MarkProcessed(ConsumeOrAlert(InsertFlight(s, f), f), f.id)
  }

  /** The first phase: an unseen flight is inserted, unprocessed; a stored
      one stays as it is. */
  function InsertFlight(s: Store, f: Flight): (r: Store)
    ensures r.transactions == s.transactions && r.memberships == s.memberships && r.sent == s.sent
    ensures f.id in r.flights && r.flights.Keys == s.flights.Keys + {f.id}
    ensures forall id :: id in s.flights ==> r.flights[id] == s.flights[id]
    ensures f.id !in s.flights ==> r.flights[f.id] == FlightDoc(f, false)
  {
    if f.id in s.flights then s else s.(flights := s.flights[f.id := FlightDoc(f, false)])
  }

  /** The second phase: consume the first matching membership or post one
      alert. Only `used_for` of one membership can change. */
  function ConsumeOrAlert(s: Store, f: Flight): (r: Store)
    ensures r.transactions == s.transactions && r.flights == s.flights
    ensures |r.memberships| == |s.memberships|
    ensures forall j :: 0 <= j < |s.memberships| ==> r.memberships[j].transactionId == s.memberships[j].transactionId
  {
    match FindMatch(s.memberships, f)
    case None => s.(sent := s.sent + [OffendingFlight(f)])
    case Some(i) => s.(memberships := s.memberships[i := Consume(s.memberships[i], f)])
  }

  /** The last phase: the flight document is marked processed. */
  function MarkProcessed(s: Store, id: string): (r: Store)
    requires id in s.flights
    ensures r.transactions == s.transactions && r.memberships == s.memberships && r.sent == s.sent
    ensures r.flights.Keys == s.flights.Keys && r.flights[id] == s.flights[id].(processed := true)
    ensures forall k :: k in s.flights && k != id ==> r.flights[k] == s.flights[k]
  {
    s.(flights := s.flights[id := s.flights[id].(processed := true)])
  }

  /** The guard: a flight already processed changes nothing and raises no
      alert. */
  lemma ProcessedFlightSkipped(s: Store, f: Flight)
    requires f.id in s.flights && s.flights[f.id].processed
    ensures ProcessFlightStep(s, f) == s
  {
  }

  /** Afterwards the flight is stored and processed; `processed` never goes
      back from true to false; no other flight document changes; the
      transactions stay as they are and the unique indices still hold. */
  lemma ProcessFlightMarks(s: Store, f: Flight)
    requires IndicesHold(s)
    ensures var r := ProcessFlightStep(s, f);
            && f.id in r.flights && r.flights[f.id].processed
            && r.flights.Keys == s.flights.Keys + {f.id}
            && (forall id :: id in s.flights && s.flights[id].processed ==> r.flights[id].processed)
            && (forall id :: id in s.flights && id != f.id ==> r.flights[id] == s.flights[id])
            && (f.id in s.flights ==> r.flights[f.id].flight == s.flights[f.id].flight)
            && r.transactions == s.transactions
            && IndicesHold(r)
  {
    if !(f.id in s.flights && s.flights[f.id].processed) {
      var s1 := InsertFlight(s, f);
      var s2 := ConsumeOrAlert(s1, f);
      var r := MarkProcessed(s2, f.id);
      assert r.flights[f.id].flight == s1.flights[f.id].flight;
      assert r.flights[f.id].flight.id == f.id;
      assert UniqueTransactionIds(r.memberships) by {
        assert forall j :: 0 <= j < |s.memberships| ==> r.memberships[j].transactionId == s.memberships[j].transactionId;
      }
    }
  }

  /** Matching and consumption: when no membership matches, the memberships
      stay as they are and exactly one alert is posted; when one does, no
      alert is posted and only that membership changes, and only in its
      `used_for`, by the consuming update. */
  lemma ProcessFlightConsumption(s: Store, f: Flight)
    requires !(f.id in s.flights && s.flights[f.id].processed)
    ensures var r := ProcessFlightStep(s, f);
            (forall j :: 0 <= j < |s.memberships| ==> !Matches(s.memberships[j], f)) ==>
              r.memberships == s.memberships && r.sent == s.sent + [OffendingFlight(f)]
    ensures var r := ProcessFlightStep(s, f);
            (exists j :: 0 <= j < |s.memberships| && Matches(s.memberships[j], f)) ==>
              && r.sent == s.sent
              && |r.memberships| == |s.memberships|
              && exists i :: 0 <= i < |s.memberships| && Matches(s.memberships[i], f)
                             && r.memberships == s.memberships[i := Consume(s.memberships[i], f)]
  {
    var s1 := InsertFlight(s, f);
    match FindMatch(s1.memberships, f)
    case None =>
    case Some(i) =>
      assert Matches(s.memberships[i], f);
  }

  /** Processing the same flight twice leaves the store as processing it
      once: no second consumption and no second alert. */
  lemma ProcessFlightIdempotent(s: Store, f: Flight)
    ensures ProcessFlightStep(ProcessFlightStep(s, f), f) == ProcessFlightStep(s, f)
  {
  }

  /** Re-use within the period: after a flight consumed some pass, a further
      flight of the same pilot on the same day, not seen before, finds a
      pass again and raises no alert. */
  lemma SameDayFlightMatchesAgain(s: Store, f: Flight, g: Flight)
    requires !(f.id in s.flights && s.flights[f.id].processed)
    requires exists j :: 0 <= j < |s.memberships| && Matches(s.memberships[j], f)
    requires g.pilot.username == f.pilot.username && g.date == f.date
    requires g.id != f.id && g.id !in s.flights
    ensures var once := ProcessFlightStep(s, f);
            ProcessFlightStep(once, g).sent == once.sent
  {
    ProcessFlightConsumption(s, f);
    var once := ProcessFlightStep(s, f);
    var i :| 0 <= i < |s.memberships| && Matches(s.memberships[i], f)
             && once.memberships == s.memberships[i := Consume(s.memberships[i], f)];
    var m := s.memberships[i];
    assert Matches(once.memberships[i], g) by {
      if m.membershipType == Daily || m.membershipType == Yearly {
        ConsumedPassPeriod(m, f, g);
      }
    }
    ProcessFlightConsumption(once, g);
  }

  /** The life of a daily pass, from an empty database: once paired, a first
      flight of its pilot consumes it for that day without an alert, a
      second flight that day finds it again without an alert, and a flight
      of another pilot raises exactly one alert; all three flights end up
      processed. */
  lemma DailyPassScenario(req: PairRequest, today: Date, f1: Flight, f2: Flight, g: Flight)
    requires req.membershipType == Daily
    requires f1.pilot.username == req.pilot.username && f2.pilot.username == req.pilot.username
    requires f2.date == f1.date && g.pilot.username != req.pilot.username
    requires f1.id != f2.id && g.id != f1.id && g.id != f2.id
    ensures var paired := PairStep(Store(map[], [], map[], []), Returned(req), today).store;
            var s1 := ProcessFlightStep(paired, f1);
            var s2 := ProcessFlightStep(s1, f2);
            var s3 := ProcessFlightStep(s2, g);
            && paired.memberships == [MembershipDoc(req.transactionId, Daily, req.pilot, today, Unset)]
            && s1.memberships == [MembershipDoc(req.transactionId, Daily, req.pilot, today, OnDate(f1.date))]
            && s2.memberships == s1.memberships && s2.sent == paired.sent
            && s3.memberships == s1.memberships && s3.sent == paired.sent + [OffendingFlight(g)]
            && s3.flights[f1.id].processed && s3.flights[f2.id].processed && s3.flights[g.id].processed
  {
    var m0 := MembershipDoc(req.transactionId, Daily, req.pilot, today, Unset);
    var m1 := m0.(usedFor := OnDate(f1.date));
    var paired := PairStep(Store(map[], [], map[], []), Returned(req), today).store;
    assert paired.memberships == [m0] && paired.flights == map[];
    var s1 := ProcessFlightStep(paired, f1);
    assert s1.memberships == [m1] && s1.sent == paired.sent && s1.flights.Keys == {f1.id} by {
      assert FindMatch(paired.memberships, f1) == Some(0);
    }
    var s2 := ProcessFlightStep(s1, f2);
    assert s2.memberships == [m1] && s2.sent == paired.sent && s2.flights.Keys == {f1.id, f2.id} by {
      assert FindMatch(s1.memberships, f2) == Some(0);
    }
    var s3 := ProcessFlightStep(s2, g);
    assert s3.memberships == [m1] && s3.sent == paired.sent + [OffendingFlight(g)] by {
      assert !Matches(s2.memberships[0], g);
      assert FindMatch(s2.memberships, g) == None;
    }
    assert s1.flights[f1.id].processed && s2.flights[f2.id].processed;
    assert s3.flights[f1.id].processed && s3.flights[f2.id].processed && s3.flights[g.id].processed;
  }

  // ---------------------------------------------------------------------
  // The database object
  // ---------------------------------------------------------------------

  /** The Mongo database the handlers update in place, and the chat. */
  class Database {
    var transactions: map<string, Transaction>
    var memberships: seq<MembershipDoc>
    var flights: map<string, FlightDoc>
    var sent: seq<Message>

    function Contents(): Store
      reads this
    {
      Store(transactions, memberships, flights, sent)
    }

    ghost predicate Valid()
      reads this
    {
      IndicesHold(Contents())
    }

    /** An empty database after `setup_mongo_indices`. */
    constructor ()
      ensures Valid()
      ensures Contents() == Store(map[], [], map[], [])
    {
      transactions, memberships, flights, sent := map[], [], map[], [];
    }

    method ProcessTransaction(t: Transaction, fromAmount: real -> Outcome<MembershipType>)
      returns (raised: Option<Exception>)
      requires Valid()
      modifies this
      ensures Valid()
      ensures Step(Contents(), raised) == ProcessTransactionStep(old(Contents()), t, fromAmount)
    {
      ghost var before := Contents();
      ProcessTransactionEffects(before, t, fromAmount);
      if t.id !in transactions {
        transactions := transactions[t.id := t];
      }
      var suggested: Option<MembershipType>;
      match fromAmount(t.amount) {
        case Returned(ty) =>
          suggested := Some(ty);
        case Raised(ValueError(_)) =>
          suggested := None;
        case Raised(e) =>
          return Some(e);
      }
      sent := sent + [NewTransaction(t, suggested)];
      raised := None;
    }

    /** `pair`: parse the command, then answer or insert. */
    method Pair(text: string, fromStr: string -> Outcome<MembershipType>,
                loadId: string -> Outcome<int>, today: Date)
      returns (raised: Option<Exception>)
      requires Valid()
      modifies this
      ensures Valid()
      ensures Step(Contents(), raised) == PairStep(old(Contents()), ParsePairMsg(text, fromStr, loadId), today)
    {
      var parsed := ParsePairMsg(text, fromStr, loadId);
      raised := ApplyPair(parsed, today);
    }

    /** The part of `pair` after `_parse_pair_msg` has returned or raised. */
    method ApplyPair(parsed: Outcome<PairRequest>, today: Date) returns (raised: Option<Exception>)
      requires Valid()
      modifies this
      ensures Valid()
      ensures Step(Contents(), raised) == PairStep(old(Contents()), parsed, today)
    {
      PairPreservesIndices(Contents(), parsed, today);
      match parsed {
        case Raised(ValueError(msg)) =>
          sent := sent + [Answer(HelpHint(msg))];
          return None;
        case Raised(e) =>
          return Some(e);
        case Returned(req) =>
          var existing := FindByTransaction(memberships, req.transactionId);
          if existing.Some? {
            var m := memberships[existing.value];
            sent := sent + [Answer(AlreadyPaired(m.membershipType, m.pilot.username))];
            return None;
          }
          memberships := memberships + [MembershipDoc(req.transactionId, req.membershipType, req.pilot, today, Unset)];
          sent := sent + [Answer(Paired)];
          return None;
      }
    }

    method ProcessFlight(flight: Flight)
      requires Valid()
      modifies this
      ensures Valid()
      ensures Contents() == ProcessFlightStep(old(Contents()), flight)
    {
      ProcessFlightMarks(Contents(), flight);
      ghost var before := Contents();
      if flight.id !in flights {
        flights := flights[flight.id := FlightDoc(flight, false)];
      } else if flights[flight.id].processed {
        return;
      }
      assert Contents() == InsertFlight(before, flight);
      ghost var inserted := Contents();
      match FindMatch(memberships, flight) {
        case None =>
          sent := sent + [OffendingFlight(flight)];
          assert Contents() == ConsumeOrAlert(inserted, flight);
        case Some(i) =>
          var m := memberships[i];
          if m.membershipType == Yearly {
            memberships := memberships[i := m.(usedFor := ForYear(flight.date.year))];
          } else if m.membershipType == Daily {
            memberships := memberships[i := m.(usedFor := OnDate(flight.date))];
          }
          assert memberships == inserted.memberships[i := Consume(m, flight)];
          assert Contents() == ConsumeOrAlert(inserted, flight);
      }
      flights := flights[flight.id := flights[flight.id].(processed := true)];
    }
  }
}
