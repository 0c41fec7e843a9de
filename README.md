# Exchange driver model

A Dafny model of the abstract currency driver of h4kuna/Exchange
(`src/Driver/Driver.php`). A driver fetches exchange rates for one provider. It builds a
GET request for an optional target date and sends it through an HTTP client. It turns
the response into a list of provider-specific source records and keeps that list and a
reference date in two fields. On demand it walks the records, converting each into a
currency property `{code, rate}` and yielding those that pass a zero-rate and allow-list
filter.

Files:

- `wrappers.dfy`: module `Wrappers`, with `Option`, `Result` and `Outcome`.
- `dates.dfy`: module `Dates`. A date is an instant (Unix seconds) plus a zone name.
  `FromTimestamp` models `new DateTime('@' . $ts, ...)`, whose zone is "+00:00".
  `SetTimezone` keeps the instant and changes the zone.
- `stream.dfy`: module `PropertyStream`. It holds the filter `Accepted` and the
  specification `Select` of one pass of `properties`, plus the lemmas about it.
- `driver.dfy`: module `ExchangeDriver`. It holds class `Driver`, with the mutable fields
  `date` and `list` and the methods `InitRequest`, `GetDate`, `Properties`, `SetDate` and
  `CreateRequest`, plus `RequestDate` and two client methods.

Collaborators become constant function-typed fields, given to the constructor:

- The HTTP client is `client: Request -> Result<Response, string>`. A `Failure` stands
  for a `ClientExceptionInterface` thrown by `sendRequest`.
- PHP's `DateTimeImmutable::createFromFormat` is treated as an uninterpreted partial
  function `createFromFormat(format, value, zone): Option<DateTime>`. `None` stands
  for `false`.
- The provider hooks are `createList`, `createProperty` and `prepareUrl`.
- A concrete provider overrides `$timeZone`, whose default is "UTC".
  Here it is a constructor argument.

Providers call `setDate` from inside their `createList`. The model makes that call
explicit: `createList` returns a `Listing`, which holds the records and an optional
`DateStamp(format, value)`. `InitRequest` passes the stamp to `SetDate`. If parsing
fails, the InvalidState error ends the cycle before `$list` is assigned, just as the PHP
exception does.

`$date` and `$list` are typed properties without initialisers, so PHP throws an `Error`
when they are read before being assigned. The model stores them as `Option`s.
`GetDate` and `Properties` return `Failure(Uninitialized(..))` in that case, instead of
requiring the caller to avoid it.

The request that is sent carries no `X-Powered-By` header. At
`src/Driver/Driver.php:119` the request returned by the immutable `withHeader` is
discarded, so `Request` holds only the verb and the URL. The stored reference date keeps
whatever zone `createFromFormat` returns, and a format with a zone specifier can change
it. The model stores the parsed date as it is.

## Model

| member | source | states |
|---|---|---|
| `PropertyStream.Select` | src/Driver/Driver.php:63-73 | One pass yields at most as many properties as there are records, and no yielded property has a zero rate or, for a non-empty allow-list, a code outside it |
| `PropertyStream.SelectIsSubsequence` | src/Driver/Driver.php:63-73 | The output is exactly the sub-sequence of `map(createProperty, list)` at the accepted positions: positions strictly increasing (order kept, no duplicates), element k is the property of record `Kept[k]`, and a position is kept if and only if its property passes the filter |
| `PropertyStream.EmptyAllowList` | src/Driver/Driver.php:68 | With an empty allow-list, a record's property is yielded exactly when its rate is not zero |
| `PropertyStream.SelectAppend` | src/Driver/Driver.php:65-72 | Records are filtered one at a time and independently: the output for `a + b` is the output for `a` followed by the output for `b` |
| `PropertyStream.SelectAllowListKeys` | src/Driver/Driver.php:60-68 | Only the allow-list's keys matter: two allow-lists with the same keys yield the same properties |
| `PropertyStream.SelectStable` | src/Driver/Driver.php:68 | Filtering the output again with the same allow-list changes nothing |
| `PropertyStream.ExampleStream` | src/Driver/Driver.php:63-73 | Records EUR 25.0, USD 0.0, CZK 23.5 with allow-list {EUR, CZK} yield exactly EUR 25.0 then CZK 23.5 |
| `PropertyStream.Accepted` | src/Driver/Driver.php:68 | The yield test: the rate is not exactly zero, and the allow-list is empty or has the code as a key |
| `ExchangeDriver.InvalidStateMessage` | src/Driver/Driver.php:89 | The text of the InvalidState message, built from the value and the format |
| `ExchangeDriver.Driver.Sent` | src/Driver/Driver.php:48 | The client's answer to the request built for the target date |
| `Dates.FromTimestamp` | src/Driver/Driver.php:114 | A date built from `'@' . timestamp`: the same instant, in the zone "+00:00" |
| `Dates.SetTimezone` | src/Driver/Driver.php:115 | `setTimezone`: the same instant, in the new zone |
| `ExchangeDriver.InvalidStateMessageCarries` | src/Driver/Driver.php:89 | The InvalidState message contains the offending value and the format, at fixed offsets |
| `ExchangeDriver.RequestDate` | src/Driver/Driver.php:113-116 | `prepareUrl` gets no date exactly when none was given. A date already in the driver's zone is passed unchanged. Any date passed has the input's instant and the driver's zone |
| `ExchangeDriver.Driver.constructor` | src/Driver/Driver.php:23-40 | A new driver keeps its collaborators and hooks and has neither a date nor a list yet |
| `ExchangeDriver.Driver.InitRequest` | src/Driver/Driver.php:46-50 | If the send fails, the transport error is returned and neither field changes. If the response's date stamp cannot be parsed, InvalidState is returned and neither field changes. Otherwise `list` becomes the records `createList` produced, and `date` becomes the parsed stamp when there is one |
| `ExchangeDriver.Driver.GetDate` | src/Driver/Driver.php:53-56 | Returns the stored reference date, or an uninitialised-field error before any `SetDate` has succeeded |
| `ExchangeDriver.Driver.Properties` | src/Driver/Driver.php:63-76 | Returns exactly `Select(list, createProperty, allowed)`, or an uninitialised-field error before any fetch; it modifies nothing |
| `ExchangeDriver.Driver.SetDate` | src/Driver/Driver.php:85-92 | If parsing in the driver's zone fails: InvalidState with the message naming the value and the format, and `date` unchanged. Otherwise `date` becomes the parsed value. `list` is never touched |
| `ExchangeDriver.Driver.CreateRequest` | src/Driver/Driver.php:111-122 | The request is a GET whose URL is `prepareUrl` applied to `RequestDate(target, timeZone)` |
| `ExchangeDriver.StreamTwice` | src/Driver/Driver.php:63-76 | Two passes with the same allow-list give identical results |
| `ExchangeDriver.SetDateThenGetDate` | src/Driver/Driver.php:85-92 | After a successful `SetDate`, `GetDate` returns the parsed date. After a failed one, `GetDate` answers as it did before |

## Left out

- Invalid zone names: the model assumes `timeZone` names a valid zone. `new DateTimeZone($this->timeZone)` at `src/Driver/Driver.php:87` and `:115` throws for an unknown name, and that exception is not modelled. The model's `SetDate` and `CreateRequest` go on with any string.
- `getRefresh` (`src/Driver/Driver.php:79-82`) only wraps PHP's relative-date parser (`'midnight'`) and its time-zone database, neither of which is modelled. The `$refresh` field is left out with it.
- Calendar and time-zone arithmetic: parsing is an uninterpreted function, and conversion keeps the instant and renames the zone. Converting through `'@' . getTimestamp()` also drops sub-second precision; instants here are whole seconds, so that loss cannot be seen.
- The request factory and the `X-Powered-By` header: a request is the value `Request("GET", url)`, and the header is not modelled because the code discards it.
- PHP generators: `properties` is modelled as one eager pass that returns the whole sequence, and `$list` as a finite sequence. The model does not capture lazy, interleaved consumption or the one-shot nature of a `Generator` list.
- Floating point: rates are `real`, so NaN and -0.0 do not exist. The zero test is `rate == 0.0`. In PHP, `-0.0 === 0.0` holds, so the result for -0.0 would be the same.
- `isset` on the allow-list: the allow-list is typed as `array<string, int>` and its values are never null, so `isset` is treated as key membership. PHP's conversion of numeric-string keys to integers is not modelled.
- InitRequest: a provider calls `setDate` at most once per `createList` (an optional stamp). Any other exception `createList` itself might throw is not modelled.
- tests/src/Currency/FormatsTest.php tests number and currency display formatting. That code is outside the driver and is not part of this model.
