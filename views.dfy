/**
 * The request handlers of theaters_app/views.py that carry business logic:
 * the REST API's access decision, buying a ticket, crediting funds from the
 * profile page, and listing the free tickets of a performance.
 *
 * The database is a `Store` object. Each handler that changes it is a method
 * whose new state is a pure function of the old one (`Purchase`, `Fund`);
 * the lemmas about those functions carry what the handlers promise.
 */
module Views {
  import opened Wrappers
  import opened Models
  import opened Forms

  // ---------------------------------------------------------------------
  // APIPermission.has_permission
  // ---------------------------------------------------------------------

  const ReadMethods: seq<string> := ["GET", "OPTIONS", "HEAD"]
  const WriteMethods: seq<string> := ["POST", "PUT", "DELETE"]

  /**
   * Whether a REST request may proceed: reads for any signed-in user, writes
   * only for a superuser, and nothing else for anybody.
   */
  function HasPermission(authenticated: bool, superuser: bool, httpMethod: string): (r: bool)
    ensures !authenticated ==> !r
    ensures authenticated && httpMethod in ReadMethods ==> r
    ensures authenticated && httpMethod in WriteMethods ==> (r <==> superuser)
    ensures httpMethod !in ReadMethods && httpMethod !in WriteMethods ==> !r
  {
    if authenticated then
      if httpMethod in ReadMethods then true
      else httpMethod in WriteMethods && superuser
    else false
  }

  /** A superuser may do whatever a plain user may. */
  lemma SuperuserMayDoMore(httpMethod: string)
    ensures HasPermission(true, false, httpMethod) ==> HasPermission(true, true, httpMethod)
  {
  }

  /**
   * The API tests' cases: a plain user reads but may not create, replace or
   * delete; a superuser may do all four. PATCH, listed in neither set, is
   * refused even to a superuser.
   */
  lemma PermissionExamples()
    ensures HasPermission(true, false, "GET")
    ensures !HasPermission(true, false, "POST") && !HasPermission(true, false, "PUT")
    ensures !HasPermission(true, false, "DELETE")
    ensures HasPermission(true, true, "GET") && HasPermission(true, true, "POST")
    ensures HasPermission(true, true, "PUT") && HasPermission(true, true, "DELETE")
    ensures !HasPermission(true, true, "PATCH")
  {
    assert "PATCH" !in ReadMethods && "PATCH" !in WriteMethods;
  }

  // ---------------------------------------------------------------------
  // The rows the purchase and funding handlers read and write
  // ---------------------------------------------------------------------

  datatype Ledger = Ledger(clients: map<ClientId, Client>, tickets: map<TicketId, Ticket>)

  /**
   * Every row is stored under its own id, and money and prices obey
   * check_positive and fit their numeric(10, 2) columns.
   */
  predicate LedgerValid(l: Ledger)
  {
    && (forall c :: c in l.clients ==>
          l.clients[c].id == c && 0 <= l.clients[c].money < MoneyColumnLimit)
    && (forall k :: k in l.tickets ==>
          l.tickets[k].id == k && 0 <= l.tickets[k].price < MoneyColumnLimit)
  }

  // ---------------------------------------------------------------------
  // buy(request, ticket_id)
  // ---------------------------------------------------------------------

  datatype BuyOutcome =
    | TicketNotFound           // get_object_or_404 answers 404
    | BuyerUnknown             // the caller has no client row: Client.objects.get raises
    | Bought                   // redirect to the profile page
    | BuyPage(ownsTicket: bool)  // the buy page again; its flag says whether the caller owns the ticket

  /**
   * The purchase: a POST by a client whose balance covers the price hands
   * the ticket to that client and debits the price; anything else changes
   * nothing. The ticket's current owner is not consulted.
   */
  function Purchase(l: Ledger, ticketId: TicketId, clientId: ClientId, httpMethod: string): (r: (BuyOutcome, Ledger))
    ensures r.1.clients.Keys == l.clients.Keys && r.1.tickets.Keys == l.tickets.Keys
    ensures r.0 != Bought ==> r.1 == l
    ensures r.0 == TicketNotFound <==> ticketId !in l.tickets
  {
    if ticketId !in l.tickets then (TicketNotFound, l)
    else if clientId !in l.clients then (BuyerUnknown, l)
    else
      var ticket := l.tickets[ticketId];
      var client := l.clients[clientId];
      if httpMethod == "POST" && client.money >= ticket.price then
        (Bought, Ledger(
          l.clients[clientId := client.(money := client.money - ticket.price)],
          l.tickets[ticketId := ticket.(client := Some(clientId))]))
      else (BuyPage(ticket.client == Some(clientId)), l)
  }

  /** A purchase happens exactly on a POST whose buyer can pay, and then moves the ticket and the money. */
  lemma PurchaseSucceeds(l: Ledger, ticketId: TicketId, clientId: ClientId, httpMethod: string)
    ensures var (outcome, after) := Purchase(l, ticketId, clientId, httpMethod);
      outcome == Bought <==>
        ticketId in l.tickets && clientId in l.clients && httpMethod == "POST"
        && l.clients[clientId].money >= l.tickets[ticketId].price
    ensures var (outcome, after) := Purchase(l, ticketId, clientId, httpMethod);
      outcome == Bought ==>
        && ticketId in after.tickets && clientId in after.clients
        && after.tickets[ticketId].client == Some(clientId)
        && after.clients[clientId].money == l.clients[clientId].money - l.tickets[ticketId].price
        && after.tickets[ticketId] == l.tickets[ticketId].(client := Some(clientId))
        && after.clients[clientId] == l.clients[clientId].(money := after.clients[clientId].money)
  {
  }

  /** A refused purchase (wrong method, too little money, an unknown ticket or buyer) changes nothing. */
  lemma PurchaseRefusedChangesNothing(l: Ledger, ticketId: TicketId, clientId: ClientId, httpMethod: string)
    requires httpMethod != "POST" || ticketId !in l.tickets || clientId !in l.clients
      || l.clients[clientId].money < l.tickets[ticketId].price
    ensures Purchase(l, ticketId, clientId, httpMethod).1 == l
    ensures Purchase(l, ticketId, clientId, httpMethod).0 != Bought
    ensures ticketId in l.tickets && clientId in l.clients ==>
      Purchase(l, ticketId, clientId, httpMethod).0 == BuyPage(l.tickets[ticketId].client == Some(clientId))
  {
  }

  /** No row other than the ticket and the buyer changes, and no row appears or disappears. */
  lemma PurchaseTouchesOnlyTicketAndBuyer(l: Ledger, ticketId: TicketId, clientId: ClientId, httpMethod: string)
    ensures var after := Purchase(l, ticketId, clientId, httpMethod).1;
      && after.tickets.Keys == l.tickets.Keys && after.clients.Keys == l.clients.Keys
      && (forall k :: k in l.tickets && k != ticketId ==> after.tickets[k] == l.tickets[k])
      && (forall c :: c in l.clients && c != clientId ==> after.clients[c] == l.clients[c])
  {
  }

  /** With non-negative prices, a purchase never drives a balance below zero. */
  lemma PurchaseKeepsLedgerValid(l: Ledger, ticketId: TicketId, clientId: ClientId, httpMethod: string)
    requires LedgerValid(l)
    ensures LedgerValid(Purchase(l, ticketId, clientId, httpMethod).1)
  {
  }

  /**
   * Buying a ticket another client owns succeeds like any other purchase:
   * the ticket changes hands and the previous owner is not refunded.
   */
  lemma PurchaseReassignsOwnedTicket(l: Ledger, ticketId: TicketId, clientId: ClientId, owner: ClientId)
    requires ticketId in l.tickets && clientId in l.clients && owner in l.clients
    requires l.tickets[ticketId].client == Some(owner) && owner != clientId
    requires l.clients[clientId].money >= l.tickets[ticketId].price
    ensures var (outcome, after) := Purchase(l, ticketId, clientId, "POST");
      && outcome == Bought
      && after.tickets[ticketId].client == Some(clientId)
      && after.clients[owner] == l.clients[owner]
  {
  }

  /** Buying a ticket the buyer already owns is not refused: the price is debited again. */
  lemma PurchaseOfOwnTicketDebitsAgain(l: Ledger, ticketId: TicketId, clientId: ClientId)
    requires ticketId in l.tickets && clientId in l.clients
    requires l.tickets[ticketId].client == Some(clientId)
    requires l.clients[clientId].money >= l.tickets[ticketId].price
    ensures var (outcome, after) := Purchase(l, ticketId, clientId, "POST");
      && outcome == Bought
      && after.tickets == l.tickets
      && after.clients[clientId].money == l.clients[clientId].money - l.tickets[ticketId].price
  {
    assert l.tickets[ticketId].(client := Some(clientId)) == l.tickets[ticketId];
  }

  // ---------------------------------------------------------------------
  // profile(request): the POST branch credits funds
  // ---------------------------------------------------------------------

  datatype ProfileOutcome =
    | ProfileOwnerUnknown              // the caller has no client row: Client.objects.get raises
    | ProfilePage(form: Option<FormCheck>)  // the page, with a blank form (GET) or the checked one (POST)
    | SaveRefused                      // client.save() fails: the new balance overflows its numeric(10, 2) column

  /**
   * The profile page: a POST whose form is valid credits exactly the amount
   * entered, unless the database refuses the new balance.
   */
  function Fund(l: Ledger, clientId: ClientId, httpMethod: string, input: AmountInput): (r: (ProfileOutcome, Ledger))
    ensures r.1.tickets == l.tickets && r.1.clients.Keys == l.clients.Keys
    ensures r.0 == ProfileOwnerUnknown <==> clientId !in l.clients
    ensures r.0 != ProfilePage(Some(IsValid(input))) ==> r.1 == l
  {
    if clientId !in l.clients then (ProfileOwnerUnknown, l)
    else if httpMethod != "POST" then (ProfilePage(None), l)
    else
      var check := IsValid(input);
      if check.Accepted? then
        AcceptedAmountRange(input);
        var client := l.clients[clientId];
        var balance := client.money + ToHundredths(check.money);
        if FitsMoneyColumn(balance) then
          (ProfilePage(Some(check)), l.(clients := l.clients[clientId := client.(money := balance)]))
        else (SaveRefused, l)
      else (ProfilePage(Some(check)), l)
  }

  /**
   * A valid funding POST raises the balance by exactly the amount entered,
   * which is at least one hundredth, when the new balance fits its column;
   * the client's other fields and every other row stay as they were. When
   * it does not fit, the save fails and nothing changes.
   */
  lemma FundCredits(l: Ledger, clientId: ClientId, input: AmountInput)
    requires clientId in l.clients && IsValid(input).Accepted?
    ensures IsValid(input).money.exponent >= -2
    ensures var (outcome, after) := Fund(l, clientId, "POST", input);
      var amount := IsValid(input).money;
      var balance := l.clients[clientId].money + ToHundredths(amount);
      && balance > l.clients[clientId].money
      && after.tickets == l.tickets && after.clients.Keys == l.clients.Keys
      && (forall c :: c in l.clients && c != clientId ==> after.clients[c] == l.clients[c])
      && (FitsMoneyColumn(balance) ==>
            && outcome == ProfilePage(Some(Accepted(amount)))
            && after.clients[clientId] == l.clients[clientId].(money := balance))
      && (!FitsMoneyColumn(balance) ==> outcome == SaveRefused && after == l)
  {
    AcceptedAmountRange(input);
  }

  /** A GET, or a POST whose form is invalid, leaves every row as it was. */
  lemma FundRefusedChangesNothing(l: Ledger, clientId: ClientId, httpMethod: string, input: AmountInput)
    requires httpMethod != "POST" || IsValid(input).Rejected?
    ensures Fund(l, clientId, httpMethod, input).1 == l
    ensures clientId in l.clients && httpMethod == "POST" ==>
      Fund(l, clientId, httpMethod, input).0 == ProfilePage(Some(IsValid(input)))
  {
  }

  lemma FundKeepsLedgerValid(l: Ledger, clientId: ClientId, httpMethod: string, input: AmountInput)
    requires LedgerValid(l)
    ensures LedgerValid(Fund(l, clientId, httpMethod, input).1)
  {
    if clientId in l.clients && httpMethod == "POST" && IsValid(input).Accepted? {
      FundCredits(l, clientId, input);
    }
  }

  /** The funding tests: posting -1 leaves a zero balance at zero; posting 1 makes it 1.00. */
  lemma FundExamples(l: Ledger, clientId: ClientId)
    requires clientId in l.clients && l.clients[clientId].money == 0
    ensures Fund(l, clientId, "POST", Amount(Decimal(-1, 0))).1.clients[clientId].money == 0
    ensures Fund(l, clientId, "POST", Amount(Decimal(1, 0))).1.clients[clientId].money == 100
  {
    assert IsValid(Amount(Decimal(-1, 0))) == Rejected(NotPositive);
    assert IsValid(Amount(Decimal(1, 0))) == Accepted(Decimal(1, 0));
    assert ToHundredths(Decimal(1, 0)) == 100;
  }

  // ---------------------------------------------------------------------
  // performance_view(request, performance_id): the free tickets
  // ---------------------------------------------------------------------

  predicate Listed(tickets: map<TicketId, Ticket>, order: seq<TicketId>)
  {
    forall i :: 0 <= i < |order| ==> order[i] in tickets
  }

  /**
   * TheaterPerformance.objects.filter(performance_id=p): the showings of one
   * performance, in stored order.
   */
  function ShowingsOf(showings: seq<Showing>, p: PerformanceId): (r: seq<Showing>)
    ensures |r| <= |showings|
    ensures forall i :: 0 <= i < |r| ==> r[i].performance == p
  {
    if showings == [] then []
    else
      var last := showings[|showings| - 1];
      ShowingsOf(showings[..|showings| - 1], p) + (if last.performance == p then [last] else [])
  }

  /**
   * The tickets of one showing, in the order a ticket query returns them,
   * that have no client: the filter followed by the comprehension.
   */
  function FreeAt(tickets: map<TicketId, Ticket>, order: seq<TicketId>, showingId: ShowingId): (r: seq<Ticket>)
    requires Listed(tickets, order)
    ensures |r| <= |order|
    ensures forall i :: 0 <= i < |r| ==> r[i].showing == Some(showingId) && r[i].client.None?
  {
    if order == [] then []
    else
      var k := tickets[order[0]];
      (if k.showing == Some(showingId) && k.client.None? then [k] else [])
      + FreeAt(tickets, order[1..], showingId)
  }

  /** The free tickets of several showings, one showing after another. */
  function FreeTickets(tickets: map<TicketId, Ticket>, order: seq<TicketId>, shows: seq<Showing>): (r: seq<Ticket>)
    requires Listed(tickets, order)
    ensures forall i :: 0 <= i < |r| ==> r[i].client.None?
  {
    if shows == [] then []
    else FreeTickets(tickets, order, shows[..|shows| - 1]) + FreeAt(tickets, order, shows[|shows| - 1].id)
  }

  lemma {:induction false} ShowingsOfMembers(showings: seq<Showing>, p: PerformanceId, s: Showing)
    ensures s in ShowingsOf(showings, p) <==> s in showings && s.performance == p
  {
    if showings != [] {
      var init := showings[..|showings| - 1];
      ShowingsOfMembers(init, p, s);
      assert showings == init + [showings[|showings| - 1]];
    }
  }

  lemma {:induction false} FreeAtMembers(tickets: map<TicketId, Ticket>, order: seq<TicketId>, showingId: ShowingId, k: Ticket)
    requires Listed(tickets, order)
    ensures k in FreeAt(tickets, order, showingId) <==>
      (exists i :: 0 <= i < |order| && tickets[order[i]] == k) && k.showing == Some(showingId) && k.client.None?
  {
    if order != [] {
      FreeAtMembers(tickets, order[1..], showingId, k);
      if (exists i :: 0 <= i < |order| && tickets[order[i]] == k) {
        var i :| 0 <= i < |order| && tickets[order[i]] == k;
        if i > 0 {
          assert order[1..][i - 1] == order[i];
        }
      }
      if (exists i :: 0 <= i < |order[1..]| && tickets[order[1..][i]] == k) {
        var i :| 0 <= i < |order[1..]| && tickets[order[1..][i]] == k;
        assert order[i + 1] == order[1..][i];
      }
    }
  }

  lemma {:induction false} FreeTicketsMembers(tickets: map<TicketId, Ticket>, order: seq<TicketId>, shows: seq<Showing>, k: Ticket)
    requires Listed(tickets, order)
    ensures k in FreeTickets(tickets, order, shows) <==>
      && (exists i :: 0 <= i < |order| && tickets[order[i]] == k)
      && k.client.None?
      && (exists j :: 0 <= j < |shows| && k.showing == Some(shows[j].id))
  {
    if shows != [] {
      var init := shows[..|shows| - 1];
      var last := shows[|shows| - 1];
      FreeTicketsMembers(tickets, order, init, k);
      FreeAtMembers(tickets, order, last.id, k);
      if (exists j :: 0 <= j < |shows| && k.showing == Some(shows[j].id)) {
        var j :| 0 <= j < |shows| && k.showing == Some(shows[j].id);
        if j < |shows| - 1 {
          assert init[j] == shows[j];
        }
      }
      if (exists j :: 0 <= j < |init| && k.showing == Some(init[j].id)) {
        var j :| 0 <= j < |init| && k.showing == Some(init[j].id);
        assert shows[j] == init[j];
      }
    }
  }

  /**
   * The list the performance page shows holds exactly the listed tickets
   * that have no client and belong to some showing of the performance.
   */
  lemma FreeTicketsOfPerformance(
    tickets: map<TicketId, Ticket>, order: seq<TicketId>, showings: seq<Showing>, p: PerformanceId, k: Ticket)
    requires Listed(tickets, order)
    ensures k in FreeTickets(tickets, order, ShowingsOf(showings, p)) <==>
      && (exists i :: 0 <= i < |order| && tickets[order[i]] == k)
      && k.client.None?
      && (exists s :: s in showings && s.performance == p && k.showing == Some(s.id))
  {
    var shows := ShowingsOf(showings, p);
    FreeTicketsMembers(tickets, order, shows, k);
    if (exists j :: 0 <= j < |shows| && k.showing == Some(shows[j].id)) {
      var j :| 0 <= j < |shows| && k.showing == Some(shows[j].id);
      ShowingsOfMembers(showings, p, shows[j]);
    }
    if (exists s :: s in showings && s.performance == p && k.showing == Some(s.id)) {
      var s :| s in showings && s.performance == p && k.showing == Some(s.id);
      ShowingsOfMembers(showings, p, s);
      var j :| 0 <= j < |shows| && shows[j] == s;
    }
  }

  /** The list is grouped by showing: the tickets of earlier showings come first. */
  lemma {:induction false} FreeTicketsGrouped(
    tickets: map<TicketId, Ticket>, order: seq<TicketId>, first: seq<Showing>, rest: seq<Showing>)
    requires Listed(tickets, order)
    ensures FreeTickets(tickets, order, first + rest)
         == FreeTickets(tickets, order, first) + FreeTickets(tickets, order, rest)
  {
    if rest == [] {
      assert first + rest == first;
    } else {
      var init := rest[..|rest| - 1];
      var last := rest[|rest| - 1];
      assert (first + rest)[..|first + rest| - 1] == first + init;
      assert (first + rest)[|first + rest| - 1] == last;
      assert FreeTickets(tickets, order, first + rest)
          == FreeTickets(tickets, order, first + init) + FreeAt(tickets, order, last.id);
      FreeTicketsGrouped(tickets, order, first, init);
    }
  }

  /** No ticket appears twice. */
  predicate NoRepeats(r: seq<Ticket>)
  {
    forall i, j :: 0 <= i < j < |r| ==> r[i] != r[j]
  }

  lemma NoRepeatsConcat(a: seq<Ticket>, b: seq<Ticket>)
    requires NoRepeats(a) && NoRepeats(b)
    requires forall x :: x in a ==> x !in b
    ensures NoRepeats(a + b)
  {
    forall i, j | 0 <= i < j < |a + b|
      ensures (a + b)[i] != (a + b)[j]
    {
      if i < |a| && |a| <= j {
        assert (a + b)[i] in a;
        assert (a + b)[j] == b[j - |a|];
      } else if |a| <= i {
        assert (a + b)[i] == b[i - |a|] && (a + b)[j] == b[j - |a|];
      }
    }
  }

  /** One showing's free tickets repeat nothing when the ticket order repeats no id. */
  lemma {:induction false} FreeAtNoRepeats(tickets: map<TicketId, Ticket>, order: seq<TicketId>, showingId: ShowingId)
    requires Listed(tickets, order)
    requires forall k :: k in tickets ==> tickets[k].id == k
    requires forall i, j :: 0 <= i < j < |order| ==> order[i] != order[j]
    ensures NoRepeats(FreeAt(tickets, order, showingId))
  {
    if order != [] {
      var k := tickets[order[0]];
      var head := if k.showing == Some(showingId) && k.client.None? then [k] else [];
      var rest := FreeAt(tickets, order[1..], showingId);
      FreeAtNoRepeats(tickets, order[1..], showingId);
      forall x | x in rest
        ensures x !in head
      {
        FreeAtMembers(tickets, order[1..], showingId, x);
        var i :| 0 <= i < |order[1..]| && tickets[order[1..][i]] == x;
        assert x.id == order[i + 1] != order[0];
      }
      NoRepeatsConcat(head, rest);
    }
  }

  /** The free tickets of showings with distinct ids repeat nothing. */
  lemma {:induction false} FreeTicketsNoRepeats(tickets: map<TicketId, Ticket>, order: seq<TicketId>, shows: seq<Showing>)
    requires Listed(tickets, order)
    requires forall k :: k in tickets ==> tickets[k].id == k
    requires forall i, j :: 0 <= i < j < |order| ==> order[i] != order[j]
    requires UniqueIds(shows)
    ensures NoRepeats(FreeTickets(tickets, order, shows))
  {
    if shows != [] {
      var init := shows[..|shows| - 1];
      var last := shows[|shows| - 1];
      FreeTicketsNoRepeats(tickets, order, init);
      FreeAtNoRepeats(tickets, order, last.id);
      forall x | x in FreeTickets(tickets, order, init)
        ensures x !in FreeAt(tickets, order, last.id)
      {
        FreeTicketsMembers(tickets, order, init, x);
        var j :| 0 <= j < |init| && x.showing == Some(init[j].id);
        assert init[j] == shows[j];
      }
      NoRepeatsConcat(FreeTickets(tickets, order, init), FreeAt(tickets, order, last.id));
    }
  }

  lemma {:induction false} ShowingsOfUniqueIds(showings: seq<Showing>, p: PerformanceId)
    requires UniqueIds(showings)
    ensures UniqueIds(ShowingsOf(showings, p))
  {
    if showings != [] {
      var init := showings[..|showings| - 1];
      var last := showings[|showings| - 1];
      var front := ShowingsOf(init, p);
      ShowingsOfUniqueIds(init, p);
      forall i | 0 <= i < |front|
        ensures front[i].id != last.id
      {
        ShowingsOfMembers(init, p, front[i]);
        var j :| 0 <= j < |init| && init[j] == front[i];
        assert init[j] == showings[j];
      }
    }
  }

  /**
   * With showing ids unique and every ticket listed once, the performance
   * page shows no ticket twice.
   */
  lemma PerformanceListsEachTicketOnce(
    tickets: map<TicketId, Ticket>, order: seq<TicketId>, showings: seq<Showing>, p: PerformanceId)
    requires Listed(tickets, order)
    requires forall k :: k in tickets ==> tickets[k].id == k
    requires forall i, j :: 0 <= i < j < |order| ==> order[i] != order[j]
    requires UniqueIds(showings)
    ensures NoRepeats(FreeTickets(tickets, order, ShowingsOf(showings, p)))
  {
    ShowingsOfUniqueIds(showings, p);
    FreeTicketsNoRepeats(tickets, order, ShowingsOf(showings, p));
  }

  // ---------------------------------------------------------------------
  // The database
  // ---------------------------------------------------------------------

  datatype NotFound = NotFound

  /**
   * Ticket ids in the order every ticket query returns them, each once.
   * Ticket's Meta.ordering sorts by place under the database's collation;
   * the model leaves that order unconstrained.
   */
  predicate TicketOrderValid(tickets: map<TicketId, Ticket>, order: seq<TicketId>)
  {
    && Listed(tickets, order)
    && (forall k :: k in tickets ==> k in order)
    && (forall i, j :: 0 <= i < j < |order| ==> order[i] != order[j])
  }

  class Store {
    var theaters: map<TheaterId, Theater>
    var performances: map<PerformanceId, Performance>
    var showings: seq<Showing>
    var clients: map<ClientId, Client>
    var tickets: map<TicketId, Ticket>
    var ticketOrder: seq<TicketId>

    ghost predicate Valid()
      reads this
    {
      && LedgerValid(Ledger(clients, tickets))
      && (forall t :: t in theaters ==> theaters[t].id == t)
      && (forall p :: p in performances ==> performances[p].id == p)
      && UniqueIds(showings) && UniquePairs(showings)
      && ReferencesStored(theaters.Keys, performances.Keys, showings)
      && TicketOrderValid(tickets, ticketOrder)
    }

    /** The client and ticket rows, as the purchase and funding functions see them. */
    function Rows(): Ledger
      reads this
    {
      Ledger(clients, tickets)
    }

    constructor ()
      ensures Valid()
      ensures theaters == map[] && performances == map[] && showings == []
      ensures clients == map[] && tickets == map[] && ticketOrder == []
    {
      theaters, performances, showings := map[], map[], [];
      clients, tickets, ticketOrder := map[], map[], [];
    }

    /**
     * Saving a new showing: the row is stored unless its id or its
     * (theater, performance) pair is taken, or its theater or performance is
     * not stored.
     */
    method SaveShowing(s: Showing) returns (r: Result<(), IntegrityError>)
      requires Valid()
      modifies this
      ensures Valid()
      ensures r.Failure? <==>
        (exists i :: 0 <= i < |old(showings)| && old(showings)[i].id == s.id)
        || (exists i :: 0 <= i < |old(showings)| && SamePair(old(showings)[i], s))
        || s.theater !in theaters || s.performance !in performances
      ensures showings == (if r.Success? then old(showings) + [s] else old(showings))
      ensures theaters == old(theaters) && performances == old(performances)
      ensures clients == old(clients) && tickets == old(tickets) && ticketOrder == old(ticketOrder)
    {
      var added := AddShowing(theaters.Keys, performances.Keys, showings, s);
      if added.Failure? {
        return Failure(added.error);
      }
      AddShowingKeepsIntegrity(theaters.Keys, performances.Keys, showings, s);
      showings := added.value;
      return Success(());
    }

    /** buy(request, ticket_id) for the client of the signed-in user. */
    method Buy(ticketId: TicketId, clientId: ClientId, httpMethod: string) returns (outcome: BuyOutcome)
      requires Valid()
      modifies this
      ensures Valid()
      ensures (outcome, Rows()) == Purchase(old(Rows()), ticketId, clientId, httpMethod)
      ensures theaters == old(theaters) && performances == old(performances)
      ensures showings == old(showings) && ticketOrder == old(ticketOrder)
    {
      if ticketId !in tickets {
        return TicketNotFound;
      }
      if clientId !in clients {
        return BuyerUnknown;
      }
      var ticket := tickets[ticketId];
      var client := clients[clientId];
      if httpMethod == "POST" && client.money >= ticket.price {
        PurchaseKeepsLedgerValid(Rows(), ticketId, clientId, httpMethod);
        ticket := ticket.(client := Some(clientId));
        client := client.(money := client.money - ticket.price);
        tickets := tickets[ticketId := ticket];
        clients := clients[clientId := client];
        return Bought;
      }
      return BuyPage(ticket.client == Some(clientId));
    }

    /** profile(request) for the client of the signed-in user; `input` is the posted `money` field. */
    method Profile(clientId: ClientId, httpMethod: string, input: AmountInput) returns (outcome: ProfileOutcome)
      requires Valid()
      modifies this
      ensures Valid()
      ensures (outcome, Rows()) == Fund(old(Rows()), clientId, httpMethod, input)
      ensures theaters == old(theaters) && performances == old(performances)
      ensures showings == old(showings) && ticketOrder == old(ticketOrder)
    {
      if clientId !in clients {
        return ProfileOwnerUnknown;
      }
      var client := clients[clientId];
      if httpMethod == "POST" {
        var form := IsValid(input);
        if form.Accepted? {
          FundKeepsLedgerValid(Rows(), clientId, httpMethod, input);
          AcceptedAmountRange(input);
          var money := ToHundredths(form.money);
          if !FitsMoneyColumn(client.money + money) {
            return SaveRefused;
          }
          client := client.(money := client.money + money);
          clients := clients[clientId := client];
        }
        return ProfilePage(Some(form));
      }
      return ProfilePage(None);
    }

    /** performance_view(request, performance_id): the free tickets, showing by showing. */
    method PerformanceView(performanceId: PerformanceId) returns (r: Result<seq<Ticket>, NotFound>)
      requires Valid()
      ensures performanceId !in performances ==> r == Failure(NotFound)
      ensures performanceId in performances ==>
        r == Success(FreeTickets(tickets, ticketOrder, ShowingsOf(showings, performanceId)))
      ensures r.Success? ==> NoRepeats(r.value)
    {
      if performanceId !in performances {
        return Failure(NotFound);
      }
      var shows := ShowingsOf(showings, performanceId);
      var free: seq<Ticket> := [];
      for i := 0 to |shows|
        invariant free == FreeTickets(tickets, ticketOrder, shows[..i])
      {
        assert shows[..i + 1][..i] == shows[..i];
        free := free + FreeAt(tickets, ticketOrder, shows[i].id);
      }
      assert shows[..|shows|] == shows;
      PerformanceListsEachTicketOnce(tickets, ticketOrder, showings, performanceId);
      return Success(free);
    }
  }
}
