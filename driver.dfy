/** The abstract currency driver: one fetch cycle (build a request, send it, parse the
    response into source records), bookkeeping of the reference date, and filtered
    iteration over the stored records. Everything a concrete provider, the HTTP client
    or PHP's date parser contributes is a function handed to the constructor. */
module ExchangeDriver {
  import opened Wrappers
  import opened Dates
  import opened PropertyStream

  /** An outbound HTTP request as the request factory builds it. */
  datatype Request = Request(verb: string, url: string)

  /** A format and a value a provider passes to `SetDate` while parsing a response. */
  datatype DateStamp = DateStamp(format: string, value: string)

  /** What a provider's `createList` produces from a response: the source records and,
      when the provider establishes the reference date, the stamp it parses. */
  datatype Listing<R> = Listing(stamp: Option<DateStamp>, records: seq<R>)

  datatype Error =
    | TransportError(reason: string)  // the client's exception, propagated unchanged
    | InvalidState(message: string)   // the reference date could not be parsed
    | Uninitialized(field: string)    // a field read before it was ever assigned

  const SourcePrefix: string := "Can not create DateTime object from source \""
  const FormatInfix: string := "\" with format \""
  const MessageEnd: string := "\"."

  /** The message of the InvalidState error raised by `SetDate`. */
  function InvalidStateMessage(value: string, format: string): string
  {
    SourcePrefix + value + FormatInfix + format + MessageEnd
  }

  /** The message carries the offending value and the format, at fixed positions. */
  lemma InvalidStateMessageCarries(value: string, format: string)
    ensures var m := InvalidStateMessage(value, format);
      var f := |SourcePrefix| + |value| + |FormatInfix|;
      |m| == f + |format| + |MessageEnd| &&
      m[|SourcePrefix|..|SourcePrefix| + |value|] == value &&
      m[f..f + |format|] == format
  {
  }

  /** The date `createRequest` hands to `prepareUrl`: none when none was given; the given
      date when it is already in the driver's zone; otherwise the same instant,
      re-expressed in the driver's zone. */
  function RequestDate(date: Option<DateTime>, timeZone: string): (r: Option<DateTime>)
    ensures r.None? <==> date.None?
    ensures date.Some? && date.value.zone == timeZone ==> r == date
    ensures r.Some? ==> r.value.timestamp == date.value.timestamp && r.value.zone == timeZone
  {
    if date.Some? && date.value.zone != timeZone then
      Some(SetTimezone(FromTimestamp(date.value.timestamp), timeZone))
    else
      date
  }

  class Driver<Response, Rec> {
    /** The reference date; None until a `SetDate` succeeds. */
    var date: Option<DateTime>
    /** The source records of the last successful fetch; None until one succeeds. */
    var list: Option<seq<Rec>>

    const timeZone: string
    /** The HTTP client: sends a request, or fails with the client's exception. */
    const client: Request -> Result<Response, string>
    /** `DateTimeImmutable::createFromFormat(format, value, zone)`; None for `false`. */
    const createFromFormat: (string, string, string) -> Option<DateTime>
    /** Provider hooks. */
    const createList: Response -> Listing<Rec>
    const createProperty: Rec -> Property
    const prepareUrl: Option<DateTime> -> string

    constructor (
      timeZone: string,
      client: Request -> Result<Response, string>,
      createFromFormat: (string, string, string) -> Option<DateTime>,
      createList: Response -> Listing<Rec>,
      createProperty: Rec -> Property,
      prepareUrl: Option<DateTime> -> string)
      ensures this.timeZone == timeZone && this.client == client
      ensures this.createFromFormat == createFromFormat && this.createList == createList
      ensures this.createProperty == createProperty && this.prepareUrl == prepareUrl
      ensures date == None && list == None
    {
      this.timeZone := timeZone;
      this.client := client;
      this.createFromFormat := createFromFormat;
      this.createList := createList;
      this.createProperty := createProperty;
      this.prepareUrl := prepareUrl;
      date := None;
      list := None;
    }

    /** What the client answers to the request built for `target`. */
    function Sent(target: Option<DateTime>): Result<Response, string>
    {
      client(Request("GET", prepareUrl(RequestDate(target, timeZone))))
    }

    /** Sends the request for `target` and stores the records parsed from the response.
        A transport failure or an unparsable reference date leaves both fields as
        they were. */
    method InitRequest(target: Option<DateTime>) returns (r: Outcome<Error>)
      modifies this
      ensures match Sent(target)
        case Failure(e) =>
          r == Fail(TransportError(e)) && date == old(date) && list == old(list)
        case Success(response) =>
          var listing := createList(response);
          match listing.stamp
          case None =>
            r == Pass && date == old(date) && list == Some(listing.records)
          case Some(stamp) =>
            match createFromFormat(stamp.format, stamp.value, timeZone)
            case None =>
              r == Fail(InvalidState(InvalidStateMessage(stamp.value, stamp.format)))
              && date == old(date) && list == old(list)
            case Some(parsed) =>
              r == Pass && date == Some(parsed) && list == Some(listing.records)
      ensures r.Fail? ==> date == old(date) && list == old(list)
      ensures r.Pass? ==> list.Some?
    {
      var request := CreateRequest(target);
      var content := client(request);
      if content.Failure? {
        return Fail(TransportError(content.error));
      }
      var listing := createList(content.value);
      if listing.stamp.Some? {
        var stamped := SetDate(listing.stamp.value.format, listing.stamp.value.value);
        if stamped.Fail? {
          return stamped;
        }
      }
      list := Some(listing.records);
      return Pass;
    }

    /** The reference date, or an error when no `SetDate` has succeeded yet. */
    method GetDate() returns (r: Result<DateTime, Error>)
      ensures date.Some? ==> r == Success(date.value)
      ensures date.None? ==> r == Failure(Uninitialized("date"))
    {
      if date.None? {
        return Failure(Uninitialized("date"));
      }
      return Success(date.value);
    }

    /** One pass over the stored records: each is turned into a property, and those with
        a zero rate or, for a non-empty allow-list, a code outside it are skipped. */
    method Properties(allowed: map<string, int>) returns (r: Result<seq<Property>, Error>)
      ensures list.None? ==> r == Failure(Uninitialized("list"))
      ensures list.Some? ==> r == Success(Select(list.value, createProperty, allowed))
    {
      if list.None? {
        return Failure(Uninitialized("list"));
      }
      var records := list.value;
      var yielded: seq<Property> := [];
      for i := 0 to |records|
        invariant yielded == Select(records[..i], createProperty, allowed)
      {
        assert records[..i + 1][..i] == records[..i];
        var property := createProperty(records[i]);
        if property.rate == 0.0 || (allowed != map[] && property.code !in allowed) {
          continue;
        }
        yielded := yielded + [property];
      }
      assert records[..|records|] == records;
      return Success(yielded);
    }

    /** Parses `value` against `format` in the driver's zone and stores the result; on
        failure raises InvalidState naming both, and the date stays as it was. */
    method SetDate(format: string, value: string) returns (r: Outcome<Error>)
      modifies this`date
      ensures match createFromFormat(format, value, timeZone)
        case None =>
          r == Fail(InvalidState(InvalidStateMessage(value, format))) && date == old(date)
        case Some(parsed) =>
          r == Pass && date == Some(parsed)
    {
      var parsed := createFromFormat(format, value, timeZone);
      if parsed.None? {
        return Fail(InvalidState(InvalidStateMessage(value, format)));
      }
      date := parsed;
      return Pass;
    }

    /** Builds the GET request whose URL the provider computes from the target date,
        re-expressed in the driver's zone when it is in another one. */
    method CreateRequest(target: Option<DateTime>) returns (request: Request)
      ensures request.verb == "GET"
      ensures request.url == prepareUrl(RequestDate(target, timeZone))
    {
      var d := target;
      if d.Some? && d.value.zone != timeZone {
        var converted := FromTimestamp(d.value.timestamp);
        converted := SetTimezone(converted, timeZone);
        d := Some(converted);
      }
      request := Request("GET", prepareUrl(d));
    }
  }

  /** Iteration is restartable: two passes with the same allow-list yield the same
      properties, because a pass changes nothing. */
  method StreamTwice<Response, Rec>(driver: Driver<Response, Rec>, allowed: map<string, int>)
    returns (first: Result<seq<Property>, Error>, second: Result<seq<Property>, Error>)
    ensures first == second
  {
    first := driver.Properties(allowed);
    second := driver.Properties(allowed);
  }

  /** A successful `SetDate` is what `GetDate` then returns; a failed one leaves
      `GetDate` answering as before. */
  method SetDateThenGetDate<Response, Rec>(driver: Driver<Response, Rec>, format: string, value: string)
    returns (r: Outcome<Error>, got: Result<DateTime, Error>)
    modifies driver
    ensures match driver.createFromFormat(format, value, driver.timeZone)
      case Some(parsed) => r == Pass && got == Success(parsed)
      case None =>
        r.Fail? && r.error.InvalidState? &&
        got == (if old(driver.date).Some? then Success(old(driver.date).value) else Failure(Uninitialized("date")))
  {
    r := driver.SetDate(format, value);
    got := driver.GetDate();
  }
}
