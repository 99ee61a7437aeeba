/**
 * The record layer of the theater application (theaters_app/models.py): the
 * five field validators, the five entities with the display strings their
 * __str__ methods produce, and the uniqueness of a (theater, performance)
 * showing.
 *
 * Representation: an instant is an integer count of microseconds since
 * 1970-01-01T00:00:00 UTC (a datetime's resolution), a calendar date is an
 * integer count of days since 1970-01-01, and every decimal column
 * (decimal_places=2) holds an integer count of hundredths, the value the
 * database gives back. "Now" is always a parameter.
 */
module Models {
  import opened Wrappers
  import opened Render

  type Uuid = int
  type TheaterId = Uuid
  type PerformanceId = Uuid
  type ShowingId = Uuid
  type ClientId = Uuid
  type TicketId = Uuid

  type Instant = int
  type Day = int
  type Hundredths = int
  /** A time of day in whole seconds since midnight. */
  type TimeOfDay = t: nat | t < SecondsPerDay

  const MicrosPerDay: int := 86_400_000_000

  /**
   * A DecimalField(max_digits=10, decimal_places=2) column, as Client.money
   * and Ticket.price are, holds magnitudes below 10^8, that is below 10^10
   * hundredths. Django's DecimalValidator refuses anything larger, and so
   * does the database column.
   */
  const MoneyColumnLimit: int := 10_000_000_000

  predicate FitsMoneyColumn(h: Hundredths)
  {
    -MoneyColumnLimit < h < MoneyColumnLimit
  }

  /** The UTC calendar date of an instant. */
  function DateOf(now: Instant): (d: Day)
    ensures d * MicrosPerDay <= now < (d + 1) * MicrosPerDay
  {
    now / MicrosPerDay
  }

  // ---------------------------------------------------------------------
  // Field validators
  // ---------------------------------------------------------------------

  /** The outcome of a validator: it returns, or raises a ValidationError with a message. */
  datatype Check = Pass | Fail(message: string)

  const FutureMessage: string := "Date and time is bigger than current!"
  const NegativeMessage: string := "Value has to be greater than zero"
  const LimitsMessage: string := "Value has to be greater than zero and less than five"
  const PastMessage: string := "Date is less than current!"

  /** Validator of every `created` column: a timestamp may not lie after now. */
  function CheckCreated(dt: Instant, now: Instant): (r: Check)
    ensures r.Pass? <==> dt <= now
    ensures r.Fail? ==> r.message == FutureMessage
  {
    if dt > now then Fail(FutureMessage) else Pass
  }

  /** Validator of every `modified` column, written separately in the source. */
  function CheckModified(dt: Instant, now: Instant): (r: Check)
    ensures r.Pass? <==> dt <= now
    ensures r.Fail? ==> r.message == FutureMessage
  {
    if dt > now then Fail(FutureMessage) else Pass
  }

  /** Validator of Client.money and Ticket.price: zero passes, anything below fails. */
  function CheckPositive(number: Hundredths): (r: Check)
    ensures r.Pass? <==> number >= 0
    ensures r.Fail? ==> r.message == NegativeMessage
  {
    if number < 0 then Fail(NegativeMessage) else Pass
  }

  /** Validator of Theater.rating: the closed interval from 0 to 5 (500 hundredths). */
  function CheckLimits(number: Hundredths): (r: Check)
    ensures r.Pass? <==> 0 <= number <= 500
    ensures r.Fail? ==> r.message == LimitsMessage
  {
    if number < 0 || number > 500 then Fail(LimitsMessage) else Pass
  }

  /**
   * Validator of Performance.date: the date may not lie before today's UTC
   * date, so a date passes exactly when its day has not yet ended at now.
   */
  function CheckDate(date: Day, now: Instant): (r: Check)
    ensures r.Pass? <==> now < (date + 1) * MicrosPerDay
    ensures r.Fail? ==> r.message == PastMessage
  {
    if date < DateOf(now) then Fail(PastMessage) else Pass
  }

  lemma CheckDateAcceptsToday(now: Instant)
    ensures CheckDate(DateOf(now), now) == Pass
    ensures CheckDate(DateOf(now) - 1, now) == Fail(PastMessage)
  {
  }

  /**
   * The cases the validator tests pin down, for any clock reading from
   * 2007-01-02T00:00:00 up to, but excluding, the 3000 stamp the tests use
   * (3000-01-01T01:01:01.000001): a stamp or date in 2007 is past, one on
   * 3000-01-01 is future; 1 is non-negative and -1 is not; 4 is within the
   * rating limits and -1 is not.
   */
  lemma ValidatorExamples(now: Instant)
    requires 1_167_696_000_000_000 <= now < 32_503_683_661_000_001
    ensures CheckCreated(1_167_613_261_000_001, now).Pass?
    ensures CheckModified(1_167_613_261_000_001, now).Pass?
    ensures CheckCreated(32_503_683_661_000_001, now).Fail?
    ensures CheckModified(32_503_683_661_000_001, now).Fail?
    ensures CheckDate(376_200, now).Pass? && CheckDate(13_514, now).Fail?
    ensures CheckPositive(100).Pass? && CheckPositive(-100).Fail?
    ensures CheckLimits(400).Pass? && CheckLimits(-100).Fail?
  {
  }

  // ---------------------------------------------------------------------
  // Entities
  // ---------------------------------------------------------------------

  /** The linked authentication user; a client reads its names through it. */
  datatype User = User(username: string, firstName: string, lastName: string, email: string)

  datatype Theater = Theater(
    id: TheaterId, title: string, address: string, rating: Hundredths,
    created: Option<Instant>, modified: Option<Instant>)

  datatype Performance = Performance(
    id: PerformanceId, title: string, description: string, date: Day,
    created: Option<Instant>, modified: Option<Instant>)

  /** A TheaterPerformance row: one performance scheduled at one theater. It has no `modified`. */
  datatype Showing = Showing(
    id: ShowingId, theater: TheaterId, performance: PerformanceId, created: Option<Instant>)

  datatype Client = Client(
    id: ClientId, money: Hundredths, user: User,
    created: Option<Instant>, modified: Option<Instant>)

  /** A ticket may be unscheduled (no showing) and unsold (no client). */
  datatype Ticket = Ticket(
    id: TicketId, price: Hundredths, time: TimeOfDay, place: string,
    showing: Option<ShowingId>, client: Option<ClientId>,
    created: Option<Instant>, modified: Option<Instant>)

  /** The nullable timestamp columns: an absent value is not validated. */
  predicate StampsValid(created: Option<Instant>, modified: Option<Instant>, now: Instant)
  {
    && (created.Some? ==> CheckCreated(created.value, now).Pass?)
    && (modified.Some? ==> CheckModified(modified.value, now).Pass?)
  }

  /** What full validation of each entity demands: the validators and the non-blank text columns. */
  predicate TheaterValid(t: Theater, now: Instant): (r: bool)
    ensures r ==> 0 <= t.rating <= 500 && t.title != "" && t.address != ""
    ensures r ==> t.created.Some? ==> t.created.value <= now
  {
    StampsValid(t.created, t.modified, now) && t.title != "" && t.address != ""
    && CheckLimits(t.rating).Pass?
  }

  predicate PerformanceValid(p: Performance, now: Instant): (r: bool)
    ensures r ==> now < (p.date + 1) * MicrosPerDay
    ensures r ==> p.title != "" && p.description != ""
  {
    StampsValid(p.created, p.modified, now) && p.title != "" && p.description != ""
    && CheckDate(p.date, now).Pass?
  }

  predicate ShowingValid(s: Showing, now: Instant): (r: bool)
    ensures r <==> (s.created.Some? ==> s.created.value <= now)
  {
    StampsValid(s.created, None, now)
  }

  predicate ClientValid(c: Client, now: Instant): (r: bool)
    ensures r ==> 0 <= c.money < MoneyColumnLimit
    ensures r ==> c.modified.Some? ==> c.modified.value <= now
  {
    StampsValid(c.created, c.modified, now) && CheckPositive(c.money).Pass? && FitsMoneyColumn(c.money)
  }

  predicate TicketValid(k: Ticket, now: Instant): (r: bool)
    ensures r ==> 0 <= k.price < MoneyColumnLimit && k.place != ""
  {
    StampsValid(k.created, k.modified, now) && k.place != "" && CheckPositive(k.price).Pass?
    && FitsMoneyColumn(k.price)
  }

  /**
   * Re-validating later never rejects a theater, client, ticket or showing
   * that passed earlier: their checks only look backwards in time.
   */
  lemma ValidityPersists(t: Theater, c: Client, k: Ticket, s: Showing, now: Instant, later: Instant)
    requires now <= later
    ensures TheaterValid(t, now) ==> TheaterValid(t, later)
    ensures ClientValid(c, now) ==> ClientValid(c, later)
    ensures TicketValid(k, now) ==> TicketValid(k, later)
    ensures ShowingValid(s, now) ==> ShowingValid(s, later)
  {
  }

  /**
   * A performance is the exception: one that passes today fails validation
   * again from the first instant after its date, although nothing in it
   * changed.
   */
  lemma PerformanceValidityExpires(p: Performance, now: Instant)
    requires PerformanceValid(p, now)
    ensures now < (p.date + 1) * MicrosPerDay
    ensures !PerformanceValid(p, (p.date + 1) * MicrosPerDay)
  {
    assert DateOf((p.date + 1) * MicrosPerDay) == p.date + 1;
  }

  // ---------------------------------------------------------------------
  // Display strings (__str__)
  // ---------------------------------------------------------------------

  function TheaterText(t: Theater): (r: string)
    ensures |r| >= |t.title| + 4 && r[..|t.title| + 4] == "\"" + t.title + "\", "
    ensures |r| >= |DecimalText(t.rating)| && r[|r| - |DecimalText(t.rating)|..] == DecimalText(t.rating)
  {
    "\"" + t.title + "\", " + t.address + ", rating - " + DecimalText(t.rating)
  }

  /** The description can be recovered from the text once the title's length is known. */
  function PerformanceText(p: Performance): (r: string)
    ensures |r| == |p.title| + 4 + |p.description|
    ensures r[..|p.title| + 4] == "\"" + p.title + "\", "
    ensures r[|p.title| + 4..] == p.description
  {
    "\"" + p.title + "\", " + p.description
  }

  /** A showing displays its theater and its performance, joined by " - ". */
  function ShowingText(s: Showing, t: Theater, p: Performance): (r: string)
    requires s.theater == t.id && s.performance == p.id
    ensures |r| == |TheaterText(t)| + 3 + |PerformanceText(p)|
    ensures r[..|TheaterText(t)|] == TheaterText(t)
    ensures r[|TheaterText(t)|..|TheaterText(t)| + 3] == " - "
    ensures r[|r| - |PerformanceText(p)|..] == PerformanceText(p)
  {
    TheaterText(t) + " - " + PerformanceText(p)
  }

  function ClientText(c: Client): (r: string)
    ensures |r| == |c.user.username| + |c.user.firstName| + |c.user.lastName| + 2
    ensures r[..|c.user.username|] == c.user.username
    ensures r[|c.user.username|] == ' '
    ensures r[|r| - |c.user.lastName|..] == c.user.lastName
  {
    c.user.username + " " + c.user.firstName + " " + c.user.lastName
  }

  /**
   * The rows a ticket's text reads through its foreign key: nothing for an
   * unscheduled ticket, otherwise its showing with that showing's theater and
   * performance.
   */
  predicate ScheduledAs(k: Ticket, scheduled: Option<(Showing, Theater, Performance)>)
  {
    match scheduled
    case None => k.showing.None?
    case Some(stp) =>
      k.showing == Some(stp.0.id) && stp.0.theater == stp.1.id && stp.0.performance == stp.2.id
  }

  /**
   * A ticket displays its showing (Python's "None" when it has none), its
   * price with the rouble sign, its time and its place.
   */
  function TicketText(k: Ticket, scheduled: Option<(Showing, Theater, Performance)>): (r: string)
    requires ScheduledAs(k, scheduled)
    ensures scheduled.None? ==> |r| >= 6 && r[..6] == "None, "
    ensures scheduled.Some? ==>
      var head := ShowingText(scheduled.value.0, scheduled.value.1, scheduled.value.2);
      |r| >= |head| + 2 && r[..|head| + 2] == head + ", "
    ensures |r| >= |k.place| + 2 && r[|r| - |k.place| - 2..] == ", " + k.place
  {
    var head := match scheduled
      case None => "None"
      case Some(stp) => ShowingText(stp.0, stp.1, stp.2);
    var middle := DecimalText(k.price) + "р., " + TimeText(k.time);
    Split(head + ", ", middle + (", " + k.place));
    Split(middle, ", " + k.place);
    (head + ", ") + (middle + (", " + k.place))
  }

  /** A concatenation splits back into its two parts. */
  lemma Split(front: string, back: string)
    ensures (front + back)[..|front|] == front && (front + back)[|front|..] == back
  {
  }

  /** A theater's text opens with its quoted title and ends with its rating, which can be read back. */
  lemma TheaterTextShape(t: Theater)
    ensures var s := TheaterText(t);
      && s[..|t.title| + 4] == "\"" + t.title + "\", "
      && |s| >= |DecimalText(t.rating)|
      && ParseDecimal(s[|s| - |DecimalText(t.rating)|..]) == t.rating
  {
    var s := TheaterText(t);
    var r := DecimalText(t.rating);
    assert s == "\"" + t.title + "\", " + (t.address + ", rating - ") + r;
    assert s[|s| - |r|..] == r;
    DecimalTextRoundTrip(t.rating);
  }

  /** The text of a client runs up to its first space, so a username without spaces is its first word. */
  function FirstWord(s: string): (w: string)
    ensures w <= s && ' ' !in w
    ensures |w| < |s| ==> s[|w|] == ' '
  {
    if s == [] || s[0] == ' ' then [] else [s[0]] + FirstWord(s[1..])
  }

  lemma {:induction false} FirstWordOf(u: string, rest: string)
    requires ' ' !in u
    ensures FirstWord(u + " " + rest) == u
  {
    if u != [] {
      assert (u + " " + rest)[1..] == u[1..] + " " + rest;
      FirstWordOf(u[1..], rest);
    } else {
      assert (u + " " + rest)[0] == ' ';
    }
  }

  lemma ClientTextUsername(c: Client)
    requires ' ' !in c.user.username
    ensures FirstWord(ClientText(c)) == c.user.username
  {
    var u := c.user;
    assert ClientText(c) == u.username + " " + (u.firstName + " " + u.lastName);
    FirstWordOf(u.username, u.firstName + " " + u.lastName);
  }

  /**
   * An unscheduled ticket's text starts with "None, "; the price follows and
   * is read back exactly, then "р., ", then the eight characters of its time.
   */
  lemma TicketTextUnscheduled(k: Ticket)
    requires k.showing.None?
    ensures var s := TicketText(k, None);
      var at := 6 + |DecimalText(k.price)| + 4;
      && s[..6] == "None, "
      && at + 8 <= |s|
      && ParseDecimal(s[6..at - 4]) == k.price
      && s[at - 4..at] == "р., "
      && ParseTime(s[at..at + 8]) == k.time
  {
    var s := TicketText(k, None);
    var at := 6 + |DecimalText(k.price)| + 4;
    assert s == "None, " + DecimalText(k.price) + "р., " + TimeText(k.time) + (", " + k.place);
    assert s[6..at - 4] == DecimalText(k.price);
    assert s[at - 4..at] == "р., ";
    assert s[at..at + 8] == TimeText(k.time);
    DecimalTextRoundTrip(k.price);
    TimeTextRoundTrip(k.time);
  }

  /** The strings the display tests expect: a theater rated 4.01, its performance. */
  lemma TheaterExample()
    ensures TheaterText(Theater(0, "Название", "Анархии 12", 401, None, None))
         == "\"Название\", Анархии 12, rating - 4.01"
    ensures PerformanceText(Performance(0, "Название", "Описание", 25_620, None, None))
         == "\"Название\", Описание"
  {
    assert DecimalText(401) == "4.01";
    var opening := "\"" + "Название" + "\", ";
    assert opening == "\"Название\", ";
    var located := opening + "Анархии 12";
    assert located == "\"Название\", Анархии 12";
    var labelled := located + ", rating - ";
    assert labelled == "\"Название\", Анархии 12, rating - ";
    assert labelled + "4.01" == "\"Название\", Анархии 12, rating - 4.01";
    var t := Theater(0, "Название", "Анархии 12", 401, None, None);
    assert TheaterText(t) == labelled + DecimalText(401);
  }

  /** The link test: the showing of that performance at that theater displays both, joined by " - ". */
  lemma ShowingExample()
    ensures ShowingText(Showing(2, 0, 1, None),
                        Theater(0, "Название", "Анархии 12", 401, None, None),
                        Performance(1, "Название", "Описание", 25_620, None, None))
         == "\"Название\", Анархии 12, rating - 4.01 - \"Название\", Описание"
  {
    TheaterExample();
  }

  /** An unscheduled ticket for 100.00 at 11:36:59 in place "12". */
  lemma TicketExample()
    ensures TicketText(Ticket(0, 10_000, 11 * 3600 + 36 * 60 + 59, "12", None, None, None, None), None)
         == "None, 100.00р., 11:36:59, 12"
  {
  }

  // ---------------------------------------------------------------------
  // unique_together = (theater, performance)
  // ---------------------------------------------------------------------

  predicate SamePair(a: Showing, b: Showing)
  {
    a.theater == b.theater && a.performance == b.performance
  }

  /** No two showings schedule the same performance at the same theater. */
  predicate UniquePairs(showings: seq<Showing>)
  {
    forall i, j :: 0 <= i < j < |showings| ==> !SamePair(showings[i], showings[j])
  }

  /** The storage layer's unique-index lookup. */
  function HasPair(showings: seq<Showing>, s: Showing): (b: bool)
    ensures b <==> exists i :: 0 <= i < |showings| && SamePair(showings[i], s)
  {
    if showings == [] then false
    else HasPair(showings[..|showings| - 1], s) || SamePair(showings[|showings| - 1], s)
  }

  /** No two showings share an id, the primary key. */
  predicate UniqueIds(showings: seq<Showing>)
  {
    forall i, j :: 0 <= i < j < |showings| ==> showings[i].id != showings[j].id
  }

  /** The storage layer's primary-key lookup. */
  function HasId(showings: seq<Showing>, id: ShowingId): (b: bool)
    ensures b <==> exists i :: 0 <= i < |showings| && showings[i].id == id
  {
    if showings == [] then false
    else HasId(showings[..|showings| - 1], id) || showings[|showings| - 1].id == id
  }

  /** Every showing's theater and performance are stored rows: the two foreign keys. */
  predicate ReferencesStored(theaters: set<TheaterId>, performances: set<PerformanceId>, showings: seq<Showing>)
  {
    forall i :: 0 <= i < |showings| ==>
      showings[i].theater in theaters && showings[i].performance in performances
  }

  datatype IntegrityError = DuplicateId | DuplicatePair | MissingReference

  /**
   * Inserting a showing: the row is appended unless its id or its
   * (theater, performance) pair is already taken, or its theater or its
   * performance is not stored. The primary key is reported before the pair,
   * and both before the foreign keys, which the database checks after the
   * row is in place.
   */
  function AddShowing(theaters: set<TheaterId>, performances: set<PerformanceId>,
                      showings: seq<Showing>, s: Showing): (r: Result<seq<Showing>, IntegrityError>)
    ensures r.Failure? <==>
      (exists i :: 0 <= i < |showings| && showings[i].id == s.id)
      || (exists i :: 0 <= i < |showings| && SamePair(showings[i], s))
      || s.theater !in theaters || s.performance !in performances
    ensures r.Failure? && r.error != DuplicateId ==> forall i :: 0 <= i < |showings| ==> showings[i].id != s.id
    ensures r == Failure(MissingReference) ==> forall i :: 0 <= i < |showings| ==> !SamePair(showings[i], s)
    ensures r.Success? ==> r.value == showings + [s]
  {
    if HasId(showings, s.id) then Failure(DuplicateId)
    else if HasPair(showings, s) then Failure(DuplicatePair)
    else if s.theater !in theaters || s.performance !in performances then Failure(MissingReference)
    else Success(showings + [s])
  }

  /** On an empty database any showing is refused: its theater and performance do not exist. */
  lemma EmptyDatabaseRefusesShowing(s: Showing)
    ensures AddShowing({}, {}, [], s) == Failure(MissingReference)
  {
  }

  /** A successful insert keeps ids and pairs unique and every reference pointing at a stored row. */
  lemma AddShowingKeepsIntegrity(theaters: set<TheaterId>, performances: set<PerformanceId>,
                                 showings: seq<Showing>, s: Showing)
    requires UniquePairs(showings) && UniqueIds(showings)
    requires ReferencesStored(theaters, performances, showings)
    ensures var r := AddShowing(theaters, performances, showings, s);
      r.Success? ==>
        && UniquePairs(r.value) && UniqueIds(r.value)
        && ReferencesStored(theaters, performances, r.value)
  {
  }
}
