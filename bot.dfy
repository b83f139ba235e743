/** The bot of `cashier/telegram_bot.py`: the `/pair` arguments matched by a
    regular expression, and the three pipelines working through storage
    objects (`TransactionStorage`, `MembershipStorage`, `FlightStorage`)
    whose code is outside this model.

    Those storages are observed through the calls the bot makes on them:
    `Services` is the set of flight ids the flight storage holds (the only
    storage state the bot reads) and the log of calls made so far, chat
    messages included. Each pipeline step is a function on `Services`; class
    `Cashier` holds the same two parts as fields and its methods are proved
    to end in the state the step functions describe. */
module Bot {
  import opened Domain
  import opened PyStr

  // ---------------------------------------------------------------------
  // CMD_PAIR_REGEX
  // ---------------------------------------------------------------------

  const FormatMessage := "Pairing command doesn't match expected format"

  /** The values of `Membership.Type` the pattern alternates over are plain
      words: non-empty and without whitespace. */
  predicate PlainTypeValues(values: seq<string>) {
    forall k :: 0 <= k < |values| ==> |values[k]| > 0 && NoSpace(values[k])
  }

  predicate IsBlank(w: string) {
    |w| > 0 && AllSpace(w)
  }

  predicate IsToken(u: string) {
    |u| > 0 && NoSpace(u)
  }

  /** The strings `CMD_PAIR_REGEX` accepts, with its three named groups:
      `^(?P<transaction_id>\d+)\s+(?P<membership_type>v1|...|vn)\s+(?P<pilot_username>\S+)$`,
      where `$` also matches before one final line feed. */
  ghost predicate PairGrammar(args: string, values: seq<string>,
                              transactionId: string, typeName: string, username: string) {
    && IsNumeric(transactionId)
    && typeName in values
    && IsToken(username)
    && exists w1, w2, end ::
         && IsBlank(w1) && IsBlank(w2) && (end == "" || end == "\n")
         && args == transactionId + (w1 + (typeName + (w2 + (username + end))))
  }

  /** What a successful match captures. */
  datatype Captures = Captures(transactionId: string, typeName: string, username: string)

  predicate NotSpace(c: char) {
    !IsSpace(c)
  }

  /** A string cut in two: `head + tail` is the string that was cut. */
  datatype Cut = Cut(head: string, tail: string)

  /** The end of the run of characters satisfying `p` that starts at
      position `from` of `s`. */
  function Span(s: string, p: char -> bool, from: nat): (n: nat)
    requires from <= |s|
    ensures from <= n <= |s|
    ensures forall i :: from <= i < n ==> p(s[i])
    ensures n == |s| || !p(s[n])
    decreases |s| - from
  {
    if from == |s| || !p(s[from]) then from else Span(s, p, from + 1)
  }

  /** The longest prefix of `s` whose characters satisfy `p`, and the rest:
      what a greedy character class (`\d+`, `\s+`, `\S+`) consumes. */
  function TakeWhile(s: string, p: char -> bool): (c: Cut)
    ensures c.head + c.tail == s
    ensures forall i :: 0 <= i < |c.head| ==> p(c.head[i])
    ensures c.tail == [] || !p(c.tail[0])
  {
    var n := Span(s, p, 0);
    assert s[..n] + s[n..] == s;
    Cut(s[..n], s[n..])
  }

  /** A greedy class consumes exactly a run of its characters that is not
      followed by another one. */
  lemma TakeWhileOf(a: string, b: string, p: char -> bool)
    requires forall i :: 0 <= i < |a| ==> p(a[i])
    requires b == [] || !p(b[0])
    ensures TakeWhile(a + b, p) == Cut(a, b)
  {
    var s := a + b;
    var n := Span(s, p, 0);
    assert forall i :: 0 <= i < |a| ==> s[i] == a[i];
    assert |a| < |s| ==> s[|a|] == b[0];
    assert n == |a|;
    assert s[..n] == a && s[n..] == b;
  }

  /** What `$` leaves of the tail: a final line feed is cut off. */
  function CutEnd(rest: string): (c: Cut)
    ensures c.head + c.tail == rest
    ensures c.tail == "" || c.tail == "\n"
    ensures |rest| > 0 && rest[|rest| - 1] == '\n' ==> c == Cut(rest[..|rest| - 1], "\n")
  {
    if |rest| > 0 && rest[|rest| - 1] == '\n' then
      Cut(rest[..|rest| - 1], "\n")
    else
      assert rest + "" == rest;
      Cut(rest, "")
  }

  /** `$` after a token (which holds no line feed) leaves exactly the
      optional final line feed. */
  lemma CutEndOf(u: string, end: string)
    requires IsToken(u)
    requires end == "" || end == "\n"
    ensures CutEnd(u + end) == Cut(u, end)
  {
    var rest := u + end;
    if end == "\n" {
      assert rest[|rest| - 1] == '\n';
      assert rest[..|rest| - 1] == u;
    } else {
      assert rest == u;
      assert !IsSpace(u[|u| - 1]);
    }
  }

  /** `CMD_PAIR_REGEX.search(args)` performed left to right: the digits, the
      blank, the type token, the blank and the username, each as long as it
      can be (the pattern leaves no other choice when the type values are
      plain words). */
  function ScanPairArgs(args: string, values: seq<string>): Option<Captures> {
    var digits := TakeWhile(args, IsDigit);
    var blank1 := TakeWhile(digits.tail, IsSpace);
    var token := TakeWhile(blank1.tail, NotSpace);
    var blank2 := TakeWhile(token.tail, IsSpace);
    var user := CutEnd(blank2.tail);
    if |digits.head| > 0 && |blank1.head| > 0 && token.head in values && |blank2.head| > 0 && IsToken(user.head) then
      Some(Captures(digits.head, token.head, user.head))
    else
      None
  }

  /** Every match the scanner reports is a match of the pattern. */
  lemma ScanSound(args: string, values: seq<string>)
    requires ScanPairArgs(args, values).Some?
    ensures var c := ScanPairArgs(args, values).value;
            PairGrammar(args, values, c.transactionId, c.typeName, c.username)
  {
    var digits := TakeWhile(args, IsDigit);
    var blank1 := TakeWhile(digits.tail, IsSpace);
    var token := TakeWhile(blank1.tail, NotSpace);
    var blank2 := TakeWhile(token.tail, IsSpace);
    var user := CutEnd(blank2.tail);
    assert args == digits.head + (blank1.head + (token.head + (blank2.head + (user.head + user.tail))));
    assert IsNumeric(digits.head);
    assert IsBlank(blank1.head) && IsBlank(blank2.head);
  }

  /** Every match of the pattern is found by the scanner, with the same
      groups: with plain type values the pattern can split a string in one
      way only. */
  lemma ScanComplete(args: string, values: seq<string>, transactionId: string, w1: string,
                     typeName: string, w2: string, username: string, end: string)
    requires PlainTypeValues(values)
    requires IsNumeric(transactionId) && IsBlank(w1) && typeName in values && IsBlank(w2) && IsToken(username)
    requires end == "" || end == "\n"
    requires args == transactionId + (w1 + (typeName + (w2 + (username + end))))
    ensures ScanPairArgs(args, values) == Some(Captures(transactionId, typeName, username))
  {
    var k :| 0 <= k < |values| && values[k] == typeName;
    var tail3 := username + end;
    var tail2 := w2 + tail3;
    var tail1 := typeName + tail2;
    var tail0 := w1 + tail1;
    assert TakeWhile(args, IsDigit) == Cut(transactionId, tail0) by {
      assert tail0[0] == w1[0] && IsSpace(w1[0]);
      TakeWhileOf(transactionId, tail0, IsDigit);
    }
    assert TakeWhile(tail0, IsSpace) == Cut(w1, tail1) by {
      assert tail1[0] == typeName[0] && NoSpace(values[k]);
      TakeWhileOf(w1, tail1, IsSpace);
    }
    assert TakeWhile(tail1, NotSpace) == Cut(typeName, tail2) by {
      assert forall i :: 0 <= i < |typeName| ==> NotSpace(typeName[i]) by { assert NoSpace(values[k]); }
      assert tail2[0] == w2[0] && IsSpace(w2[0]);
      TakeWhileOf(typeName, tail2, NotSpace);
    }
    assert TakeWhile(tail2, IsSpace) == Cut(w2, tail3) by {
      assert tail3[0] == username[0];
      TakeWhileOf(w2, tail3, IsSpace);
    }
    CutEndOf(username, end);
  }

  /** The scanner and the pattern agree on every string, both ways. */
  lemma ScanIsPairGrammar(args: string, values: seq<string>, transactionId: string,
                          typeName: string, username: string)
    requires PlainTypeValues(values)
    ensures ScanPairArgs(args, values) == Some(Captures(transactionId, typeName, username))
            <==> PairGrammar(args, values, transactionId, typeName, username)
  {
    if ScanPairArgs(args, values) == Some(Captures(transactionId, typeName, username)) {
      ScanSound(args, values);
    }
    if PairGrammar(args, values, transactionId, typeName, username) {
      var w1, w2, end :| && IsBlank(w1) && IsBlank(w2) && (end == "" || end == "\n")
                         && args == transactionId + (w1 + (typeName + (w2 + (username + end))));
      ScanComplete(args, values, transactionId, w1, typeName, w2, username, end);
    }
  }

  // ---------------------------------------------------------------------
  // _parse_pair_args
  // ---------------------------------------------------------------------

  /** A membership as `_parse_pair_args` builds it. */
  datatype Membership = Membership(transactionId: string, membershipType: MembershipType, pilot: Pilot)

  /** `_parse_pair_args`: match the pattern over the type values, parse the
      captured type (`Membership.Type.from_str`) and resolve the captured
      username (`Pilot.load_id`); both are passed in and may raise. */
  function ParsePairArgs(args: string, values: seq<string>, fromStr: string -> Outcome<MembershipType>,
                         loadId: string -> Outcome<int>): (r: Outcome<Membership>)
    ensures ScanPairArgs(args, values).None? ==> r == Raised(ValueError(FormatMessage))
    ensures r.Returned? ==>
              exists typeName ::
                && PairGrammar(args, values, r.value.transactionId, typeName, r.value.pilot.username)
                && fromStr(typeName) == Returned(r.value.membershipType)
                && loadId(r.value.pilot.username) == Returned(r.value.pilot.id)
    // a lookup that raises makes its exception the outcome
    ensures var sc := ScanPairArgs(args, values);
            sc.Some? && fromStr(sc.value.typeName).Raised? ==> r == Raised(fromStr(sc.value.typeName).exc)
    ensures var sc := ScanPairArgs(args, values);
            sc.Some? && fromStr(sc.value.typeName).Returned? && loadId(sc.value.username).Raised? ==>
              r == Raised(loadId(sc.value.username).exc)
  {
    match ScanPairArgs(args, values)
    case None => Raised(ValueError(FormatMessage))
    case Some(c) =>
      ScanSound(args, values);
      var r := BuildMembership(c, fromStr, loadId);
      assert r.Returned? ==> PairGrammar(args, values, r.value.transactionId, c.typeName, r.value.pilot.username);
      r
  }

  /** The part of `_parse_pair_args` after a match: parse the captured type,
      then resolve the captured username. */
  function BuildMembership(c: Captures, fromStr: string -> Outcome<MembershipType>,
                           loadId: string -> Outcome<int>): (r: Outcome<Membership>)
    ensures r.Returned? ==>
              && r.value.transactionId == c.transactionId && r.value.pilot.username == c.username
              && fromStr(c.typeName) == Returned(r.value.membershipType)
              && loadId(c.username) == Returned(r.value.pilot.id)
    ensures fromStr(c.typeName).Raised? ==> r == Raised(fromStr(c.typeName).exc)
    ensures fromStr(c.typeName).Returned? && loadId(c.username).Raised? ==> r == Raised(loadId(c.username).exc)
  {
    match fromStr(c.typeName)
    case Raised(e) => Raised(e)
    case Returned(t) =>
      match loadId(c.username)
      case Raised(e) => Raised(e)
      case Returned(id) => Returned(Membership(c.transactionId, t, Pilot(c.username, id)))
  }

  /** Arguments the pattern does not accept are refused with the format
      message, before any lookup. */
  lemma ParsePairArgsRejects(args: string, values: seq<string>, fromStr: string -> Outcome<MembershipType>,
                             loadId: string -> Outcome<int>)
    requires forall transactionId, typeName, username ::
               !PairGrammar(args, values, transactionId, typeName, username)
    ensures ParsePairArgs(args, values, fromStr, loadId) == Raised(ValueError(FormatMessage))
  {
    if ScanPairArgs(args, values).Some? {
      ScanSound(args, values);
      assert false;
    }
  }

  /** Arguments the pattern accepts, with lookups that succeed, give exactly
      the captured id, the parsed type and the captured username. */
  lemma ParsePairArgsAccepts(args: string, values: seq<string>, fromStr: string -> Outcome<MembershipType>,
                             loadId: string -> Outcome<int>, transactionId: string, typeName: string,
                             username: string, t: MembershipType, pilotId: int)
    requires PlainTypeValues(values)
    requires PairGrammar(args, values, transactionId, typeName, username)
    requires fromStr(typeName) == Returned(t) && loadId(username) == Returned(pilotId)
    ensures ParsePairArgs(args, values, fromStr, loadId)
            == Returned(Membership(transactionId, t, Pilot(username, pilotId)))
  {
    ScanIsPairGrammar(args, values, transactionId, typeName, username);
  }

  // ---------------------------------------------------------------------
  // The storages and the chat, seen through the calls made on them
  // ---------------------------------------------------------------------

  datatype Call =
    | StoreTransaction(transaction: Transaction)        // TransactionStorage.store_transaction
    | CreateMembership(membership: Membership)          // MembershipStorage.create_membership
    | SetUsedFor(membership: Membership, flight: Flight) // MembershipStorage.set_used_for
    | StoreFlight(flight: Flight)                       // FlightStorage.store_flight
    | Send(message: Message)                            // bot.send_message, message.answer

  datatype Services = Services(storedFlights: set<string>, calls: seq<Call>)

  /** Every flight the bot has stored is known to the flight storage. */
  predicate StoredFlightsKnown(s: Services) {
    forall i :: 0 <= i < |s.calls| && s.calls[i].StoreFlight? ==> s.calls[i].flight.id in s.storedFlights
  }

  /** The outcome of one pipeline step: the new state and the exception, if
      any, that escapes the handler. */
  datatype Step = Step(services: Services, raised: Option<Exception>)

  // ---------------------------------------------------------------------
  // process_transaction
  // ---------------------------------------------------------------------

  /** `process_transaction`: store the transaction, classify its amount
      (`Membership.Type.from_amount`, passed in; a `ValueError` means
      "unclassified"), then post one notification. Any other exception of
      the classifier escapes after the transaction is stored. */
  function ProcessTransactionStep(s: Services, t: Transaction, fromAmount: real -> Outcome<MembershipType>): Step {
    var stored := s.calls + [StoreTransaction(t)];
    match fromAmount(t.amount)
    case Returned(ty) => Step(s.(calls := stored + [Send(NewTransaction(t, Some(ty)))]), None)
    case Raised(ValueError(_)) => Step(s.(calls := stored + [Send(NewTransaction(t, None))]), None)
    case Raised(e) => Step(s.(calls := stored), Some(e))
  }

  /** The transaction is always stored first; an amount the classifier does
      not know is no error and yields one notification without a
      suggestion; one notification follows unless an exception escapes. */
  lemma ProcessTransactionCalls(s: Services, t: Transaction, fromAmount: real -> Outcome<MembershipType>)
    ensures var r := ProcessTransactionStep(s, t, fromAmount);
            && |r.services.calls| > |s.calls|
            && r.services.calls[..|s.calls| + 1] == s.calls + [StoreTransaction(t)]
            && r.services.storedFlights == s.storedFlights
    ensures var r := ProcessTransactionStep(s, t, fromAmount);
            fromAmount(t.amount).Raised? && fromAmount(t.amount).exc.ValueError? ==>
              r.raised == None && r.services.calls == s.calls + [StoreTransaction(t), Send(NewTransaction(t, None))]
    ensures var r := ProcessTransactionStep(s, t, fromAmount);
            r.raised == None <==> |r.services.calls| == |s.calls| + 2
    ensures var r := ProcessTransactionStep(s, t, fromAmount);
            fromAmount(t.amount).Returned? ==>
              r.raised == None
              && r.services.calls == s.calls + [StoreTransaction(t), Send(NewTransaction(t, Some(fromAmount(t.amount).value)))]
    ensures var r := ProcessTransactionStep(s, t, fromAmount);
            (fromAmount(t.amount).Raised? && !fromAmount(t.amount).exc.ValueError?) ==>
              r.raised == Some(fromAmount(t.amount).exc) && r.services.calls == s.calls + [StoreTransaction(t)]
  {
  }

  // ---------------------------------------------------------------------
  // pair
  // ---------------------------------------------------------------------

  /** How `pair` handles an exception: a `ValueError` or `ClientError` is
      answered with a hint to `/help`; anything else escapes. */
  function Caught(s: Services, e: Exception): Step {
    if e.ValueError? || e.ClientError? then Step(s.(calls := s.calls + [Send(Answer(HelpHint(e.msg)))]), None)
    else Step(s, Some(e))
  }

  /** `pair`, given what `_parse_pair_args` made of the arguments and what
      `create_membership` does with a membership (`None`: it returned). */
  function PairStep(s: Services, parsed: Outcome<Membership>, create: Membership -> Option<Exception>): Step {
    match parsed
    case Raised(e) => Caught(s, e)
    case Returned(m) =>
      var s1 := s.(calls := s.calls + [CreateMembership(m)]);
      match create(m)
      case Some(e) => Caught(s1, e)
      case None => Step(s1.(calls := s1.calls + [Send(Answer(Paired))]), None)
  }

  /** "Okay, paired" is answered exactly when the arguments parsed and
      `create_membership` returned, right after that call; a parse or lookup
      failure creates nothing and is answered with its message. */
  lemma PairAnswers(s: Services, parsed: Outcome<Membership>, create: Membership -> Option<Exception>)
    ensures var r := PairStep(s, parsed, create);
            (parsed.Returned? && r.services.calls == s.calls + [CreateMembership(parsed.value), Send(Answer(Paired))])
            <==> (parsed.Returned? && create(parsed.value).None?)
    ensures var r := PairStep(s, parsed, create);
            parsed.Raised? && (parsed.exc.ValueError? || parsed.exc.ClientError?) ==>
              r.raised == None && r.services.calls == s.calls + [Send(Answer(HelpHint(parsed.exc.msg)))]
    ensures var r := PairStep(s, parsed, create);
            Send(Answer(Paired)) in r.services.calls[|s.calls|..] ==>
              parsed.Returned? && create(parsed.value).None?
    ensures PairStep(s, parsed, create).services.storedFlights == s.storedFlights
  {
    var r := PairStep(s, parsed, create);
    if parsed.Raised? {
      var e := parsed.exc;
      if e.ValueError? || e.ClientError? {
        assert r.services.calls[|s.calls|..] == [Send(Answer(HelpHint(e.msg)))];
      } else {
        assert r.services.calls[|s.calls|..] == [];
      }
    } else {
      var m := parsed.value;
      var s1 := s.calls + [CreateMembership(m)];
      match create(m)
      case None =>
      case Some(e) =>
        assert r.services.calls[..|s1|] == s1;
        if e.ValueError? || e.ClientError? {
          assert r.services.calls[|s.calls|..] == [CreateMembership(m), Send(Answer(HelpHint(e.msg)))];
        } else {
          assert r.services.calls[|s.calls|..] == [CreateMembership(m)];
        }
    }
  }

  /** A lookup that fails on arguments the pattern accepts is answered like
      a malformed command: a `ValueError` from `from_str` or a
      `ClientError` (or `ValueError`) from `load_id` creates no membership
      and is answered with its message and the hint to `/help`. */
  lemma PairLookupFailureAnswered(s: Services, args: string, values: seq<string>,
                                  fromStr: string -> Outcome<MembershipType>, loadId: string -> Outcome<int>,
                                  create: Membership -> Option<Exception>,
                                  transactionId: string, typeName: string, username: string, e: Exception)
    requires PlainTypeValues(values)
    requires PairGrammar(args, values, transactionId, typeName, username)
    requires e.ValueError? || e.ClientError?
    requires fromStr(typeName) == Raised(e) || (fromStr(typeName).Returned? && loadId(username) == Raised(e))
    ensures PairStep(s, ParsePairArgs(args, values, fromStr, loadId), create)
            == Step(s.(calls := s.calls + [Send(Answer(HelpHint(e.msg)))]), None)
  {
    ScanIsPairGrammar(args, values, transactionId, typeName, username);
    assert ParsePairArgs(args, values, fromStr, loadId) == Raised(e);
  }

  // ---------------------------------------------------------------------
  // process_flight
  // ---------------------------------------------------------------------

  /** `process_flight`: skip a flight the storage already holds; otherwise
      ask `get_by_flight` (passed in) for a membership, mark it used or,
      when there is none, post one alert; store the flight last. */
  function ProcessFlightStep(s: Services, f: Flight, getByFlight: Flight -> Option<Membership>): Services {
    if f.id in s.storedFlights then s
    else
      var handled := match getByFlight(f)
                     case None => [Send(OffendingFlight(f))]
                     case Some(m) => [SetUsedFor(m, f)];
      Services(s.storedFlights + {f.id}, s.calls + handled + [StoreFlight(f)])
  }

  /** The guard: a flight the storage already holds causes no membership
      update, no alert and no store. */
  lemma StoredFlightSkipped(s: Services, f: Flight, getByFlight: Flight -> Option<Membership>)
    requires f.id in s.storedFlights
    ensures ProcessFlightStep(s, f, getByFlight) == s
  {
  }

  /** A flight not yet stored gives exactly two calls: with no membership,
      one alert and no `set_used_for`; with one, one `set_used_for` and no
      alert; then, as the last call and the flight's first store, the
      flight is stored. */
  lemma ProcessFlightCalls(s: Services, f: Flight, getByFlight: Flight -> Option<Membership>)
    requires StoredFlightsKnown(s)
    requires f.id !in s.storedFlights
    ensures var r := ProcessFlightStep(s, f, getByFlight);
            && |r.calls| == |s.calls| + 2
            && r.calls[..|s.calls|] == s.calls
            && r.calls[|r.calls| - 1] == StoreFlight(f)
            && (forall i :: 0 <= i < |r.calls| - 1 && r.calls[i].StoreFlight? ==> r.calls[i].flight.id != f.id)
            && f.id in r.storedFlights
            && StoredFlightsKnown(r)
    ensures var r := ProcessFlightStep(s, f, getByFlight);
            getByFlight(f).None? <==> r.calls[|s.calls|] == Send(OffendingFlight(f))
    ensures var r := ProcessFlightStep(s, f, getByFlight);
            getByFlight(f).Some? <==> r.calls[|s.calls|].SetUsedFor?
    ensures var r := ProcessFlightStep(s, f, getByFlight);
            getByFlight(f).Some? ==> r.calls[|s.calls|] == SetUsedFor(getByFlight(f).value, f)
  {
  }

  /** Once processed, a flight is stored, so processing it again - whatever
      the membership storage would now answer - changes nothing. */
  lemma ProcessFlightTwice(s: Services, f: Flight, getByFlight1: Flight -> Option<Membership>,
                           getByFlight2: Flight -> Option<Membership>)
    ensures var once := ProcessFlightStep(s, f, getByFlight1);
            ProcessFlightStep(once, f, getByFlight2) == once
  {
  }

  // ---------------------------------------------------------------------
  // The bot object
  // ---------------------------------------------------------------------

  /** The bot's view of the storages and the chat, updated in place. */
  class Cashier {
    var storedFlights: set<string>
    var calls: seq<Call>

    function Contents(): Services
      reads this
    {
      Services(storedFlights, calls)
    }

    ghost predicate Valid()
      reads this
    {
      StoredFlightsKnown(Contents())
    }

    /** A bot whose flight storage already holds `stored`. */
    constructor (stored: set<string>)
      ensures Valid()
      ensures Contents() == Services(stored, [])
    {
      storedFlights, calls := stored, [];
    }

    method ProcessTransaction(t: Transaction, fromAmount: real -> Outcome<MembershipType>)
      returns (raised: Option<Exception>)
      requires Valid()
      modifies this
      ensures Valid()
      ensures Step(Contents(), raised) == ProcessTransactionStep(old(Contents()), t, fromAmount)
    {
      calls := calls + [StoreTransaction(t)];
      var suggested: Option<MembershipType>;
      match fromAmount(t.amount) {
        case Returned(ty) =>
          suggested := Some(ty);
        case Raised(ValueError(_)) =>
          suggested := None;
        case Raised(e) =>
          return Some(e);
      }
      calls := calls + [Send(NewTransaction(t, suggested))];
      raised := None;
    }

    /** `pair`, with `message.get_args()` as `args` and the type values of
      `Membership.Type` as `values`. */
    method Pair(args: string, values: seq<string>, fromStr: string -> Outcome<MembershipType>,
                loadId: string -> Outcome<int>, create: Membership -> Option<Exception>)
      returns (raised: Option<Exception>)
      requires Valid()
      modifies this
      ensures Valid()
      ensures Step(Contents(), raised)
              == PairStep(old(Contents()), ParsePairArgs(args, values, fromStr, loadId), create)
    {
      var parsed := ParsePairArgs(args, values, fromStr, loadId);
      raised := ApplyPair(parsed, create);
    }

    /** The part of `pair` after `_parse_pair_args` has returned or raised. */
    method ApplyPair(parsed: Outcome<Membership>, create: Membership -> Option<Exception>)
      returns (raised: Option<Exception>)
      requires Valid()
      modifies this
      ensures Valid()
      ensures Step(Contents(), raised) == PairStep(old(Contents()), parsed, create)
    {
      var failure: Option<Exception> := None;
      match parsed {
        case Raised(e) =>
          failure := Some(e);
        case Returned(m) =>
          calls := calls + [CreateMembership(m)];
          failure := create(m);
      }
      if failure.Some? {
        var e := failure.value;
        if e.ValueError? || e.ClientError? {
          calls := calls + [Send(Answer(HelpHint(e.msg)))];
          return None;
        }
        return Some(e);
      }
      calls := calls + [Send(Answer(Paired))];
      raised := None;
    }

    method ProcessFlight(flight: Flight, getByFlight: Flight -> Option<Membership>)
      requires Valid()
      modifies this
      ensures Valid()
      ensures Contents() == ProcessFlightStep(old(Contents()), flight, getByFlight)
    {
      if flight.id in storedFlights {
        return;
      }
      match getByFlight(flight) {
        case None =>
          calls := calls + [Send(OffendingFlight(flight))];
        case Some(m) =>
          calls := calls + [SetUsedFor(m, flight)];
      }
      calls := calls + [StoreFlight(flight)];
      storedFlights := storedFlights + {flight.id};
    }
  }
}
