# Aggregates request builder

A Dafny model of how the command-line bars fetcher builds its requests to the
market-data aggregates endpoint. The program reads a ticker symbol, a
multiplier, a timespan, a date range, an adjustment flag and a sort order. It
renders the two enums through their `Display` impls, which write the `Debug`
name, and lowers that name. It then formats two URLs: a plain one, and one
that ends in `&apiKey=<key>`. Finally it sends two GET requests: the keyed URL
with no header, and the plain URL with an `Authorization: Bearer <key>` header.

The model has four modules:

- `Wrappers` (`wrappers.dfy`): the `Option` type used by every parse that can fail.
- `Formatting` (`formatting.dfy`): the pieces of Rust formatting the URL is made
  of. These are `Display` for `u8` (`Decimal`) and for `bool` (`BoolText`),
  `str::to_lowercase` (`ToLower`), and the kebab-case spelling clap derives for
  enum values (`KebabCase`). Two small scanners (`StripPrefix`, `Cut`) are used
  to read a URL back.
- `Aggregates` (`aggregates.dfy`): the `Timespan` and `Sort` enums, the parsed
  `Args`, the renderings, clap's value lookup, `PlainUrl`, `KeyedUrl`,
  `BearerHeader` and the two `Requests`, with lemmas on each.
- `AggregatesUrl` (`aggregates_url.dfy`): `ParseUrl`, an independent reader
  for aggregates URLs. It is the partner of the two URL builders. It accepts a
  URL as `(args, key)` exactly when the arguments are unambiguous and the URL
  is the one built from them. Unambiguous means the symbol and `from` hold no
  `/` and `to` holds no `?`. It is proved an inverse in both directions.

The API key is a plain string parameter. Reading it from the environment
happens outside the model.

## Model

| member | source | states |
|---|---|---|
| `Formatting.ToLower` | bars_aggregated_advanced/src/main.rs:106 | lowering keeps the length; each character is mapped on its own, capitals to small letters, all others unchanged |
| `Formatting.KebabCase` | bars_aggregated_advanced/src/main.rs:33 | the kebab-case spelling of a variant name contains no capital letter and is no shorter than the name |
| `Formatting.KebabCaseOfSingleWord` | bars_aggregated_advanced/src/main.rs:52 | for a one-word identifier, the kebab-case spelling is the identifier lowered |
| `Formatting.Decimal` | bars_aggregated_advanced/src/main.rs:117 | the `{multiplier}` text is a non-empty string of decimal digits with no leading zero, and it denotes the multiplier |
| `Formatting.DecimalOfDigits` | bars_aggregated_advanced/src/main.rs:117 | every canonical numeral is the `Decimal` of the value it denotes, so the rendering is a bijection onto canonical numerals |
| `Formatting.DecimalOfByte` | bars_aggregated_advanced/src/main.rs:73 | a `u8` value prints with one to three digits, and with exactly one digit iff it is below 10 |
| `Aggregates.RenderTimespan` | bars_aggregated_advanced/src/main.rs:45-49 | `Display` then `to_lowercase`: the rendering has the `Debug` name's length, and each character is that of the name or its small letter, never a capital |
| `Aggregates.RenderSort` | bars_aggregated_advanced/src/main.rs:58-62 | the same for the sort order: the `Debug` name, letter for letter, with no capital left |
| `Aggregates.RenderTimespanNames` | bars_aggregated_advanced/src/main.rs:34-49 | each of the eight timespans renders as its lowercase name, from "second" to "year" |
| `Aggregates.RenderTimespanInjective` | bars_aggregated_advanced/src/main.rs:106 | distinct timespans render as distinct strings |
| `Aggregates.RenderTimespanIsLowercase` | bars_aggregated_advanced/src/main.rs:106 | a rendered timespan consists of small letters only, so it holds no URL separator |
| `Aggregates.RenderSortNames` | bars_aggregated_advanced/src/main.rs:53-62 | `Asc` renders as "asc" and `Desc` as "desc" |
| `Aggregates.RenderSortIsLowercase` | bars_aggregated_advanced/src/main.rs:110 | a rendered sort order consists of small letters only |
| `Aggregates.FindByName` | bars_aggregated_advanced/src/main.rs:32 | a value lookup returns the first listed variant whose name is the value, or nothing when no variant has that name |
| `Aggregates.ParseTimespan` | bars_aggregated_advanced/src/main.rs:32-43 | a `--timespan` value is read as a variant spelled that way, and is refused exactly when no timespan is spelled that way |
| `Aggregates.ParseSort` | bars_aggregated_advanced/src/main.rs:51-56 | a `--sort` value is read as a variant spelled that way, and is refused exactly when no sort order is spelled that way |
| `Aggregates.TimespanCliNameIsRendering` | bars_aggregated_advanced/src/main.rs:32-49 | the command-line spelling of each timespan equals its URL rendering |
| `Aggregates.SortCliNameIsRendering` | bars_aggregated_advanced/src/main.rs:51-62 | the command-line spelling of each sort order equals its URL rendering |
| `Aggregates.ParseTimespanRoundTrip` | bars_aggregated_advanced/src/main.rs:32-49 | a `--timespan` value is read as `t` iff it is the rendering of `t`, so reading and rendering back returns the same string |
| `Aggregates.ParseSortRoundTrip` | bars_aggregated_advanced/src/main.rs:51-62 | a `--sort` value is read as `o` iff it is the rendering of `o` |
| `Aggregates.PlainUrl` | bars_aggregated_advanced/src/main.rs:117 | the URL starts with the endpoint, the symbol as typed and `/range/`; its whole layout is stated by `AggregatesUrl.UrlForLayout` |
| `Aggregates.KeyedUrl` | bars_aggregated_advanced/src/main.rs:121 | the keyed URL, though written out as its own format string, is the plain URL followed by `&apiKey=` and the key, so the plain URL is a strict prefix of it |
| `Aggregates.BearerHeader` | bars_aggregated_advanced/src/main.rs:115 | the header value is `Bearer `, one space, then exactly the key |
| `Aggregates.Requests` | bars_aggregated_advanced/src/main.rs:123-146 | two requests in order: the second goes to the plain URL of the arguments with `Bearer ` and the key in its header; the first has no header and goes to that URL plus `&apiKey=` and the key, which is the keyed URL `KeyedUrl(a, key)` |
| `Formatting.BoolText` | bars_aggregated_advanced/src/main.rs:117 | the `{adjusted}` text is "true" exactly when the flag is set and "false" exactly when it is not |
| `Aggregates.DefaultsRendering` | bars_aggregated_advanced/src/main.rs:71-89 | the default multiplier renders as "1" and the default adjustment as "true" |
| `Aggregates.MultiplierRendering` | bars_aggregated_advanced/src/main.rs:71-73 | any `u8` multiplier renders as one to three digits that denote it |
| `Aggregates.SlashMovesBetweenFromAndTo` | bars_aggregated_advanced/src/main.rs:117 | the dates are inserted without encoding: moving a `/` from `from` into `to` gives different arguments but the same URL |
| `Aggregates.AaplPlainUrl` | bars_aggregated/src/main.rs:39 | the plain URL of AAPL, 1, day, 2023-01-09 to 2023-02-10, adjusted, ascending is the fixed program's literal |
| `Aggregates.AaplKeyedUrl` | bars_aggregated/src/main.rs:41 | the keyed URL of that query is the fixed program's formatted URL with the key appended |
| `AggregatesUrl.ParseU8` | bars_aggregated_advanced/src/main.rs:117 | the URL reader's inverse of `{multiplier}`: a numeral is accepted iff it is the `Display` output of some `u8`, and it is read back as that value (this is not clap's parse, which also takes "007" and "+7") |
| `AggregatesUrl.UrlForLayout` | bars_aggregated_advanced/src/main.rs:117-121 | each URL is the endpoint, then symbol, `range`, multiplier, timespan, from and to separated by `/`, then `?` and the query string |
| `AggregatesUrl.ParseSortAndKeyOfText` | bars_aggregated_advanced/src/main.rs:121 | the text after `sort=` reads back as the sort order and, when present, the key |
| `AggregatesUrl.ParseSortAndKeySound` | bars_aggregated_advanced/src/main.rs:121 | any accepted text after `sort=` is the rendered order, followed by the key parameter when a key is reported |
| `AggregatesUrl.ParseQueryOfText` | bars_aggregated_advanced/src/main.rs:117 | the query string reads back as the adjustment flag, the sort order and the key |
| `AggregatesUrl.ParseQuerySound` | bars_aggregated_advanced/src/main.rs:117 | any accepted query string is exactly the one rendered from what it was read as |
| `AggregatesUrl.ParseUrlComplete` | bars_aggregated_advanced/src/main.rs:117 | the URL of unambiguous arguments, with or without the key, reads back as those arguments and that key |
| `AggregatesUrl.ParseUrlSound` | bars_aggregated_advanced/src/main.rs:121 | every URL the reader accepts is the URL of unambiguous arguments with the key it reports |
| `AggregatesUrl.ParseUrlInverse` | bars_aggregated_advanced/src/main.rs:117-121 | a URL is read as `(a, key)` iff `a` is unambiguous and the URL is the one built from `a` with that key |
| `AggregatesUrl.RequestsReadBack` | bars_aggregated_advanced/src/main.rs:117-146 | for unambiguous arguments both request URLs read back as the same arguments, the first with the key and the second with none |

## Left out

- HTTP transport is not modelled. This covers `reqwest::get`, the client's `get`, `header` and `send`, the awaits, and the `unwrap` that panics on a transport error. The model stops at the `Request` values. `Request.url` is the string handed to the client, not the URL on the wire: the client's own URL parsing (percent-encoding of spaces, removal of dot segments, a `#` in the symbol or a date starting a fragment that is never sent) is not modelled.
- JSON decoding of the response into `AggregatedBars` and `Bar` is not modelled. It is done by a derived deserializer, and the bar fields are floating point.
- Reading `POLYGON_API_KEY` through `dotenv` and `env::var`, and the panic when it is unset, are not modelled. The key is a parameter. The program reads the variable twice, once for the header (main.rs:115) and once for the URL (main.rs:121); nothing changes the environment in between, so `Requests` takes one key for both.
- clap's command-line parsing is not modelled beyond the enum spellings, the value lookup and the declared defaults. In particular, how clap reads the `adjusted` flag is left out, and the model takes `adjusted` as either value.
- Logging (`env_logger`, `info!`, `error!`, and the loops that log each bar) and the async runtime are not modelled.
- Formatting.ToLower: Rust's `to_lowercase` lowers any Unicode letter. The model lowers ASCII capitals only, which is all the enum names contain.
- Formatting.KebabCase: only a small letter followed by a capital starts a new word. The finer word-boundary rules of clap's case conversion (acronyms, digits) are not modelled; every variant here is one word.
- Strings are sequences of characters, not UTF-8 bytes.
- The program validates nothing: an empty symbol, a zero multiplier or an empty key still give a URL, and the model does the same. Its multiplier is a `u8`, as in the code, not an unbounded positive number.
- The fixed-query program (bars_aggregated/src/main.rs) is used only for its two URL literals; the rest of it repeats the same I/O.
