/** The per-slot validators of the booking dialog and `validate_book`, which
    runs them in a fixed order and reports the first rejection. */
module Validators {
  import opened Wrappers
  import opened Text
  import opened Numbers
  import opened Phone
  import opened Domain

  /** `get_movie_names()`: the static movie list, lower-cased. */
  function MovieNames(): (names: seq<string>)
    ensures |names| == 2
    ensures forall i :: 0 <= i < |names| ==> IsLowered(names[i])
  {
    [Lower("Clarie"), Lower("Wanda Vision")]
  }

  lemma MovieNamesLowered()
    ensures forall i :: 0 <= i < |MovieNames()| ==> Lower(MovieNames()[i]) == MovieNames()[i]
  {
    LowerIdempotent("Clarie");
    LowerIdempotent("Wanda Vision");
  }

  lemma ClarieLowered()
    ensures Lower("Clarie") == "clarie"
  {
    var r := Lower("Clarie");
    assert r[0] == LowerChar('C') == 'c';
    assert forall i :: 1 <= i < 6 ==> r[i] == "Clarie"[i];
  }

  lemma WandaVisionLowered()
    ensures Lower("Wanda Vision") == "wanda vision"
  {
    var r := Lower("Wanda Vision");
    assert r[0] == LowerChar('W') == 'w';
    assert r[6] == LowerChar('V') == 'v';
    assert forall i :: 0 < i < 12 && i != 6 ==> r[i] == "Wanda Vision"[i];
  }

  lemma MovieNamesValue()
    ensures MovieNames() == ["clarie", "wanda vision"]
  {
    ClarieLowered();
    WandaVisionLowered();
  }

  lemma WandaVisionHasNoSeparator()
    ensures !Contains("wanda vision", ", ")
  {
    NoCommaNoSeparator("wanda vision");
  }

  /** The list of alternatives a movie rejection offers. */
  lemma MovieListText()
    ensures LToStr(MovieNames()) == "clarie and wanda vision"
  {
    MovieNamesJoined();
    LiteralPairJoined();
  }

  lemma MovieNamesJoined()
    ensures LToStr(MovieNames()) == LToStr(["clarie", "wanda vision"])
  {
    MovieNamesValue();
  }

  lemma LiteralPairJoined()
    ensures LToStr(["clarie", "wanda vision"]) == "clarie and wanda vision"
  {
    WandaVisionHasNoSeparator();
    LToStrPair("clarie", "wanda vision");
    PairSpelled();
  }

  lemma PairSpelled()
    ensures "clarie" + " and " + "wanda vision" == "clarie and wanda vision"
  {
  }

  /** `get_theater_names(movie)`: the stored theater names for the movie,
      lower-cased. A `None` movie makes the query itself fail. */
  function GetTheaterNames(cat: Catalog, movie: Option<string>): (r: Result<seq<string>, Error>)
    ensures movie.None? ==> r == Failure(NullQueryValue(MovieName))
    ensures movie.Some? ==> r.Success? && |r.value| == |cat.theatersFor(movie.value)|
    ensures movie.Some? ==> forall i :: 0 <= i < |r.value| ==>
              IsLowered(r.value[i]) && r.value[i] == Lower(cat.theatersFor(movie.value)[i])
  {
    match movie
    case None => Failure(NullQueryValue(MovieName))
    case Some(m) =>
      var stored := cat.theatersFor(m);
      Success(seq(|stored|, i requires 0 <= i < |stored| => Lower(stored[i])))
  }

  /** The messages a validator answers with, one per way a slot can be
      rejected; `PromptText` spells each one out. */
  datatype Prompt =
    | MovieUnavailable(movie: string)
    | TheaterUnavailable(theater: string, theaters: seq<string>)
    | AtLeastOneTicket
    | MaxQuantity
    | DateNotUnderstood
    | DateInPast
    | DateWindow(earliest: string, latest: string)
    | MobileInvalid(mobile: string)

  function PromptText(p: Prompt): string {
    match p
    case MovieUnavailable(movie) =>
      "Showtime for the " + movie + " is not available. You can choose currently available movies "
      + LToStr(MovieNames()) + "."
    case TheaterUnavailable(theater, theaters) =>
      "Showtime in theater " + theater + " is not available. You can choose one from " + LToStr(theaters) + "."
    case AtLeastOneTicket =>
      "Sorry, you should book at least one ticket. How many tickets would you like to book?"
    case MaxQuantity =>
      "Sorry but the maximum order quantity for online tickets is 10. Please contact us directly for larger quantity orders. How many tickets would you like to order instead?"
    case DateNotUnderstood =>
      "I did not understand date.  When would you like to watch your movie?"
    case DateInPast =>
      "Booking must be scheduled at least one day in advance.  Can you try a different date?"
    case DateWindow(earliest, latest) =>
      "I can book only upto 1 month in advance. Can you try a date between " + earliest + " and " + latest + "?"
    case MobileInvalid(mobile) =>
      mobile + " is not a valid mobile number. Please provide a valid mobile number?"
  }

  /** The window message names today and the day 30 days ahead. */
  function DateWindowPrompt(cal: Calendar): Prompt {
    DateWindow(cal.show(cal.today), cal.show(cal.today + 30))
  }

  /** Case-insensitive membership of a movie name in the movie list. */
  ghost predicate IsKnownMovie(movie: string) {
    exists i :: 0 <= i < |MovieNames()| && Lower(MovieNames()[i]) == Lower(movie)
  }

  /** `validate_movie`: case-insensitive membership in the movie list. */
  function ValidateMovie(movie: Option<string>): (r: ValidationResult)
    ensures WellFormed(r)
    ensures movie.None? ==> r == Valid()
    ensures movie.Some? ==>
              (r.isValid <==> IsKnownMovie(movie.value))
    ensures !r.isValid ==> r == Invalid(MovieName, PromptText(MovieUnavailable(movie.value)))
  {
    match movie
    case Some(m) =>
      MovieNamesLowered();
      if Lower(m) !in MovieNames() then Invalid(MovieName, PromptText(MovieUnavailable(m))) else Valid()
    case None => Valid()
  }

  /** Case-insensitive membership of a theater name in the stored names. */
  ghost predicate OffersTheater(stored: seq<string>, theater: string) {
    exists i :: 0 <= i < |stored| && Lower(stored[i]) == Lower(theater)
  }

  /** `validate_theater`: case-insensitive membership in the theaters the
      catalog lists for the movie. */
  function ValidateTheater(cat: Catalog, movie: Option<string>, theater: Option<string>): (r: Result<ValidationResult, Error>)
    ensures theater.None? ==> r == Success(Valid())
    ensures theater.Some? && movie.None? ==> r == Failure(NullQueryValue(MovieName))
    ensures r.Success? ==> WellFormed(r.value)
    ensures theater.Some? && movie.Some? ==>
              && r.Success?
              && (r.value.isValid <==> OffersTheater(cat.theatersFor(movie.value), theater.value))
    ensures r.Success? && !r.value.isValid ==>
              r.value == Invalid(TheaterName, PromptText(TheaterUnavailable(theater.value, GetTheaterNames(cat, movie).value)))
  {
    match theater
    case None => Success(Valid())
    case Some(t) =>
      var theaters :- GetTheaterNames(cat, movie);
      if Lower(t) !in theaters then
        Success(Invalid(TheaterName, PromptText(TheaterUnavailable(t, theaters))))
      else Success(Valid())
  }

  /** `validate_tickets_quantity`: a parsed count below 0 or above 10 is
      rejected; a count that does not parse (NaN) fails both comparisons and
      passes. */
  function ValidateTicketsQuantity(quantity: Option<string>): (r: ValidationResult)
    ensures WellFormed(r)
    ensures quantity.None? ==> r == Valid()
    ensures quantity.Some? && ParseInt(quantity.value).None? ==> r == Valid()
    ensures quantity.Some? && ParseInt(quantity.value).Some? ==>
              var n := ParseInt(quantity.value).value;
              && (r.isValid <==> 0 <= n <= 10)
              && (n < 0 ==> r == Invalid(TicketCount, PromptText(AtLeastOneTicket)))
              && (n > 10 ==> r == Invalid(TicketCount, PromptText(MaxQuantity)))
  {
    match quantity
    case None => Valid()
    case Some(q) =>
      match ParseInt(q)
      case None => Valid()
      case Some(n) =>
        if n < 0 then Invalid(TicketCount, PromptText(AtLeastOneTicket))
        else if n > 10 then Invalid(TicketCount, PromptText(MaxQuantity))
        else Valid()
  }

  /** `validate_date`: an unparsable date, a date before today and a date 30
      or more days ahead are rejected, each with its own message. */
  function ValidateDate(cal: Calendar, date: Option<string>): (r: ValidationResult)
    ensures WellFormed(r)
    ensures date.None? ==> r == Valid()
    ensures date.Some? && cal.parse(date.value).None? ==> r == Invalid(MovieDate, PromptText(DateNotUnderstood))
    ensures date.Some? && cal.parse(date.value).Some? ==>
              var d := cal.parse(date.value).value;
              && (r.isValid <==> cal.today <= d < cal.today + 30)
              && (d < cal.today ==> r == Invalid(MovieDate, PromptText(DateInPast)))
              && (d >= cal.today + 30 ==> r == Invalid(MovieDate, PromptText(DateWindowPrompt(cal))))
  {
    match date
    case None => Valid()
    case Some(s) =>
      match cal.parse(s)
      case None => Invalid(MovieDate, PromptText(DateNotUnderstood))
      case Some(d) =>
        if d < cal.today then Invalid(MovieDate, PromptText(DateInPast))
        else if d >= cal.today + 30 then Invalid(MovieDate, PromptText(DateWindowPrompt(cal)))
        else Valid()
  }

  /** `validate_mobile`: the value must match the mobile-number pattern. */
  function ValidateMobile(mobile: Option<string>): (r: ValidationResult)
    ensures WellFormed(r)
    ensures r.isValid <==> mobile.None? || MobileShape(mobile.value)
    ensures !r.isValid ==> r == Invalid(Mobile, PromptText(MobileInvalid(mobile.value)))
  {
    if mobile.Some? && !IsValidMobile(mobile.value) then
      Invalid(Mobile, PromptText(MobileInvalid(mobile.value)))
    else Valid()
  }

  /** The order in which `gen_validate_res` yields its results. */
  function ValidationOrder(): seq<SlotName> {
    [MovieName, TheaterName, MovieDate, TicketCount, Mobile]
  }

  /** `gen_validate_res(data)` evaluated eagerly: the five results in order,
      or the error the theater query raises. */
  function Checks(cat: Catalog, cal: Calendar, data: Slots): (r: Result<seq<ValidationResult>, Error>)
    ensures r.Failure? <==> data.movieName.None? && data.theaterName.Some?
    ensures r.Success? ==> |r.value| == |ValidationOrder()|
  {
    var theater :- ValidateTheater(cat, data.movieName, data.theaterName);
    Success([ValidateMovie(data.movieName), theater, ValidateDate(cal, data.movieDate),
             ValidateTicketsQuantity(data.ticketCount), ValidateMobile(data.mobile)])
  }

  /** `next((v for v in results if not v['isValid']), valid)`: the first
      rejection, or a valid result when there is none. */
  function FirstInvalid(results: seq<ValidationResult>): (r: ValidationResult)
    ensures r.isValid ==> r == Valid() && forall j :: 0 <= j < |results| ==> results[j].isValid
    ensures !r.isValid ==> exists i :: 0 <= i < |results| && r == results[i]
                                         && forall j :: 0 <= j < i ==> results[j].isValid
  {
    if |results| == 0 then Valid()
    else if !results[0].isValid then results[0]
    else
      var rest := FirstInvalid(results[1..]);
      assert !rest.isValid ==> exists i :: 0 <= i < |results| && rest == results[i]
                                           && forall j :: 0 <= j < i ==> results[j].isValid by {
        if !rest.isValid {
          var k :| 0 <= k < |results| - 1 && rest == results[1..][k]
                   && forall j :: 0 <= j < k ==> results[1..][j].isValid;
          assert rest == results[k + 1];
          forall j | 0 <= j < k + 1
            ensures results[j].isValid
          {
            if j > 0 {
              assert results[1..][j - 1] == results[j];
            }
          }
        }
      }
      rest
  }

  /** `validate_book(data)`: the validators run lazily in the order movie,
      theater, date, ticket count, mobile, and the first rejection is returned;
      a `None` slot map is valid. */
  function ValidateBook(cat: Catalog, cal: Calendar, data: Option<Slots>): (r: Result<ValidationResult, Error>)
    ensures data.None? ==> r == Success(Valid())
    ensures r.Failure? <==> data.Some? && data.value.movieName.None? && data.value.theaterName.Some?
    ensures r.Success? ==> WellFormed(r.value)
  {
    match data
    case None => Success(Valid())
    case Some(d) =>
      var movie := ValidateMovie(d.movieName);
      if !movie.isValid then Success(movie)
      else
        var theater :- ValidateTheater(cat, d.movieName, d.theaterName);
        if !theater.isValid then Success(theater)
        else
          var date := ValidateDate(cal, d.movieDate);
          if !date.isValid then Success(date)
          else
            var quantity := ValidateTicketsQuantity(d.ticketCount);
            if !quantity.isValid then Success(quantity)
            else
              var mobile := ValidateMobile(d.mobile);
              if !mobile.isValid then Success(mobile)
              else Success(Valid())
  }

  /** A validator's result judges `slot`: it is well formed, and a rejection
      names that slot. */
  predicate Judges(r: ValidationResult, slot: SlotName) {
    WellFormed(r) && (r.isValid || r.violatedSlot == Some(slot))
  }

  lemma ChecksValue(cat: Catalog, cal: Calendar, data: Slots)
    ensures Checks(cat, cal, data).Success? ==>
              Checks(cat, cal, data).value ==
                [ValidateMovie(data.movieName), ValidateTheater(cat, data.movieName, data.theaterName).value,
                 ValidateDate(cal, data.movieDate), ValidateTicketsQuantity(data.ticketCount),
                 ValidateMobile(data.mobile)]
  {
  }

  lemma MovieJudged(data: Slots)
    ensures Judges(ValidateMovie(data.movieName), MovieName)
  {
  }

  lemma TheaterJudged(cat: Catalog, data: Slots)
    ensures ValidateTheater(cat, data.movieName, data.theaterName).Success? ==>
              Judges(ValidateTheater(cat, data.movieName, data.theaterName).value, TheaterName)
  {
  }

  lemma DateJudged(cal: Calendar, data: Slots)
    ensures Judges(ValidateDate(cal, data.movieDate), MovieDate)
  {
  }

  lemma QuantityJudged(data: Slots)
    ensures Judges(ValidateTicketsQuantity(data.ticketCount), TicketCount)
  {
  }

  lemma MobileJudged(data: Slots)
    ensures Judges(ValidateMobile(data.mobile), Mobile)
  {
  }

  lemma JudgedInOrder(results: seq<ValidationResult>, m: ValidationResult, t: ValidationResult,
                      d: ValidationResult, q: ValidationResult, p: ValidationResult)
    requires results == [m, t, d, q, p]
    requires Judges(m, MovieName) && Judges(t, TheaterName) && Judges(d, MovieDate)
    requires Judges(q, TicketCount) && Judges(p, Mobile)
    ensures |results| == |ValidationOrder()|
    ensures forall i :: 0 <= i < |results| ==> Judges(results[i], ValidationOrder()[i])
  {
  }

  /** Each position of the generator judges its own slot. */
  lemma ChecksJudgeTheirSlots(cat: Catalog, cal: Calendar, data: Slots)
    ensures var c := Checks(cat, cal, data);
            c.Success? ==>
              && |c.value| == |ValidationOrder()|
              && forall i :: 0 <= i < |c.value| ==> Judges(c.value[i], ValidationOrder()[i])
  {
    ChecksValue(cat, cal, data);
    var c := Checks(cat, cal, data);
    if c.Success? {
      MovieJudged(data);
      TheaterJudged(cat, data);
      DateJudged(cal, data);
      QuantityJudged(data);
      MobileJudged(data);
      JudgedInOrder(c.value, ValidateMovie(data.movieName),
                    ValidateTheater(cat, data.movieName, data.theaterName).value,
                    ValidateDate(cal, data.movieDate), ValidateTicketsQuantity(data.ticketCount),
                    ValidateMobile(data.mobile));
    }
  }

  lemma FirstInvalidCons(x: ValidationResult, rest: seq<ValidationResult>)
    ensures FirstInvalid([x] + rest) == if x.isValid then FirstInvalid(rest) else x
  {
    assert ([x] + rest)[1..] == rest;
  }

  /** The lazy chain of `validate_book` agrees with taking the first
      rejection of the eagerly evaluated generator. */
  lemma FirstInvalidOfFive(m: ValidationResult, t: ValidationResult, d: ValidationResult,
                           q: ValidationResult, p: ValidationResult)
    ensures FirstInvalid([m, t, d, q, p]) ==
              if !m.isValid then m
              else if !t.isValid then t
              else if !d.isValid then d
              else if !q.isValid then q
              else if !p.isValid then p
              else Valid()
  {
    assert [m, t, d, q, p] == [m] + [t, d, q, p];
    assert [t, d, q, p] == [t] + [d, q, p];
    assert [d, q, p] == [d] + [q, p];
    assert [q, p] == [q] + [p];
    assert [p] == [p] + [];
    FirstInvalidCons(m, [t, d, q, p]);
    FirstInvalidCons(t, [d, q, p]);
    FirstInvalidCons(d, [q, p]);
    FirstInvalidCons(q, [p]);
    FirstInvalidCons(p, []);
  }

  /** One unfolding of `validate_book` on present slots, with every
      validator's result named. */
  lemma ValidateBookSteps(cat: Catalog, cal: Calendar, data: Slots)
    ensures var m := ValidateMovie(data.movieName);
            var t := ValidateTheater(cat, data.movieName, data.theaterName);
            var d := ValidateDate(cal, data.movieDate);
            var q := ValidateTicketsQuantity(data.ticketCount);
            var p := ValidateMobile(data.mobile);
            ValidateBook(cat, cal, Some(data)) ==
              if !m.isValid then Success(m)
              else if t.Failure? then Failure(t.error)
              else if !t.value.isValid then Success(t.value)
              else if !d.isValid then Success(d)
              else if !q.isValid then Success(q)
              else if !p.isValid then Success(p)
              else Success(Valid())
  {
  }

  /** The short-circuit chain of `validate_book`, over any five results:
      it agrees with taking the first rejection of the eager list. */
  lemma ChainIsFirstInvalid(m: ValidationResult, t: Result<ValidationResult, Error>, d: ValidationResult,
                            q: ValidationResult, p: ValidationResult)
    requires t.Failure? ==> m.isValid
    ensures var chain :=
              if !m.isValid then Success(m)
              else if t.Failure? then Failure(t.error)
              else if !t.value.isValid then Success(t.value)
              else if !d.isValid then Success(d)
              else if !q.isValid then Success(q)
              else if !p.isValid then Success(p)
              else Success(Valid());
            if t.Failure? then chain == Failure(t.error)
            else chain == Success(FirstInvalid([m, t.value, d, q, p]))
  {
    if t.Success? {
      FirstInvalidOfFive(m, t.value, d, q, p);
    }
  }

  lemma ValidateBookIsFirstInvalid(cat: Catalog, cal: Calendar, data: Slots)
    ensures match Checks(cat, cal, data)
            case Failure(e) => ValidateBook(cat, cal, Some(data)) == Failure(e)
            case Success(results) => ValidateBook(cat, cal, Some(data)) == Success(FirstInvalid(results))
  {
    hide FirstInvalid;
    ChecksValue(cat, cal, data);
    ValidateBookSteps(cat, cal, data);
    ChainIsFirstInvalid(ValidateMovie(data.movieName), ValidateTheater(cat, data.movieName, data.theaterName),
                        ValidateDate(cal, data.movieDate), ValidateTicketsQuantity(data.ticketCount),
                        ValidateMobile(data.mobile));
  }

  /** First failure wins: a rejection from `validate_book` is the result of
      the validator at some position of the fixed order, names that
      position's slot, and every validator before it passed; an acceptance
      means every validator passed. */
  lemma FirstFailureWins(cat: Catalog, cal: Calendar, data: Slots)
    ensures var r := ValidateBook(cat, cal, Some(data));
            var c := Checks(cat, cal, data);
            r.Success? ==>
              && c.Success?
              && (r.value.isValid <==> forall j :: 0 <= j < |c.value| ==> c.value[j].isValid)
              && (!r.value.isValid ==>
                    exists i :: 0 <= i < |ValidationOrder()|
                                && r.value == c.value[i]
                                && r.value.violatedSlot == Some(ValidationOrder()[i])
                                && forall j :: 0 <= j < i ==> c.value[j].isValid)
  {
    ValidateBookIsFirstInvalid(cat, cal, data);
    ChecksJudgeTheirSlots(cat, cal, data);
  }

  /** Ticket-count bounds over every integer literal: 0 to 10 pass (0
      included), below 0 asks for at least one ticket, above 10 names the
      maximum of 10. */
  lemma TicketCountBounds(n: int)
    ensures ValidateTicketsQuantity(Some(ShowInt(n))).isValid <==> 0 <= n <= 10
    ensures n < 0 ==> ValidateTicketsQuantity(Some(ShowInt(n))) == Invalid(TicketCount, PromptText(AtLeastOneTicket))
    ensures n > 10 ==> ValidateTicketsQuantity(Some(ShowInt(n))) == Invalid(TicketCount, PromptText(MaxQuantity))
  {
    ParseShowInt(n);
  }

  /** The ticket-count examples, and a value that is not a number, which
      passes because NaN fails both comparisons. */
  lemma TicketCountExamples()
    ensures ValidateTicketsQuantity(Some("-1")) == Invalid(TicketCount, PromptText(AtLeastOneTicket))
    ensures ValidateTicketsQuantity(Some("11")) == Invalid(TicketCount, PromptText(MaxQuantity))
    ensures ValidateTicketsQuantity(Some("5")).isValid
    ensures ValidateTicketsQuantity(Some("two")).isValid
  {
    ParseExamples();
  }

  /** The edges of the booking window: today and today + 29 pass, today - 1
      is "in the past", today + 30 gets the window message. */
  lemma DateWindowEdges(cal: Calendar, date: string)
    ensures cal.parse(date) == Some(cal.today) ==> ValidateDate(cal, Some(date)).isValid
    ensures cal.parse(date) == Some(cal.today + 29) ==> ValidateDate(cal, Some(date)).isValid
    ensures cal.parse(date) == Some(cal.today - 1) ==>
              ValidateDate(cal, Some(date)) == Invalid(MovieDate, PromptText(DateInPast))
    ensures cal.parse(date) == Some(cal.today + 30) ==>
              ValidateDate(cal, Some(date)) == Invalid(MovieDate, PromptText(DateWindowPrompt(cal)))
  {
  }

  /** Movie validation only sees the lower-cased name. */
  lemma MovieCaseInsensitive(a: string, b: string)
    requires Lower(a) == Lower(b)
    ensures ValidateMovie(Some(a)).isValid == ValidateMovie(Some(b)).isValid
  {
  }

  /** Theater validation only sees the lower-cased name. */
  lemma TheaterCaseInsensitive(cat: Catalog, movie: string, a: string, b: string)
    requires Lower(a) == Lower(b)
    ensures ValidateTheater(cat, Some(movie), Some(a)).value.isValid
            == ValidateTheater(cat, Some(movie), Some(b)).value.isValid
  {
  }

  lemma ShoutedWandaVisionLowered()
    ensures Lower("WANDA VISION") == "wanda vision"
  {
    assert forall i :: 0 <= i < 12 && i != 5 ==> IsUpper("WANDA VISION"[i]);
  }

  /** A listed name passes in any case; a near miss does not. */
  lemma MovieExamples()
    ensures ValidateMovie(Some("Clarie")).isValid
    ensures ValidateMovie(Some("WANDA VISION")).isValid
    ensures !ValidateMovie(Some("Clarice")).isValid
  {
    MovieNamesValue();
    ClarieLowered();
    ShoutedWandaVisionLowered();
    assert |Lower("Clarice")| == 7;
  }

  /** With no theater listed for the movie, every theater is rejected and the
      message offers an empty list. */
  lemma NoTheatersListed(cat: Catalog, movie: string, theater: string)
    requires cat.theatersFor(movie) == []
    ensures ValidateTheater(cat, Some(movie), Some(theater)) ==
              Success(Invalid(TheaterName, "Showtime in theater " + theater
                                           + " is not available. You can choose one from ."))
  {
    var names := GetTheaterNames(cat, Some(movie)).value;
    assert names == [];
    assert LToStr(names) == "" by { LToStrShape(names); }
    var a := "Showtime in theater " + theater + " is not available. You can choose one from ";
    assert PromptText(TheaterUnavailable(theater, names)) == a + "" + ".";
    assert a + "" + "." == "Showtime in theater " + theater + " is not available. You can choose one from .";
  }

  /** Each rejection message quotes what the user gave: the movie; the
      theater and its alternatives; the window's two dates; the number. */
  lemma MovieRejectionQuotes(movie: string)
    ensures Contains(PromptText(MovieUnavailable(movie)), movie)
  {
    var a := "Showtime for the ";
    var b := " is not available. You can choose currently available movies ";
    var list := LToStr(MovieNames());
    ContainsWithin(a, movie, b);
    ContainsAppend(a + movie + b, list, movie);
    ContainsAppend(a + movie + b + list, ".", movie);
  }

  lemma TheaterRejectionQuotes(theater: string, theaters: seq<string>)
    ensures Contains(PromptText(TheaterUnavailable(theater, theaters)), theater)
    ensures Contains(PromptText(TheaterUnavailable(theater, theaters)), LToStr(theaters))
  {
    var a := "Showtime in theater ";
    var b := " is not available. You can choose one from ";
    var list := LToStr(theaters);
    ContainsWithin(a, theater, b);
    ContainsAppend(a + theater + b, list, theater);
    ContainsAppend(a + theater + b + list, ".", theater);
    ContainsWithin(a + theater + b, list, ".");
  }

  lemma WindowRejectionQuotes(earliest: string, latest: string)
    ensures Contains(PromptText(DateWindow(earliest, latest)), earliest)
    ensures Contains(PromptText(DateWindow(earliest, latest)), latest)
  {
    var a := "I can book only upto 1 month in advance. Can you try a date between ";
    ContainsWithin(a, earliest, " and ");
    ContainsAppend(a + earliest + " and ", latest, earliest);
    ContainsAppend(a + earliest + " and " + latest, "?", earliest);
    ContainsWithin(a + earliest + " and ", latest, "?");
  }

  lemma MobileRejectionQuotes(mobile: string)
    ensures Contains(PromptText(MobileInvalid(mobile)), mobile)
  {
    ContainsWithin("", mobile, " is not a valid mobile number. Please provide a valid mobile number?");
    assert "" + mobile == mobile;
  }
}
