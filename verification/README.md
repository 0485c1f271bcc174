# elnk.pro client core in Dafny

This project models the core of the `ElnkProShortener` JavaScript client for the elnk.pro URL-shortening API and proves properties of it. The client lives in `src/ElnkProShortener.js`. The model covers:

- the client object: its configuration fields, the constructor, the setters and `getConfig`;
- the operations that run loops over API calls: `createShortUrlWithRetry`, `createBulkShortUrls` and `bulkDeleteLinks`;
- the request builders: the `createShortUrl` body, and the query strings of `getLinkStats`, `getAllLinks` and `searchLinks`;
- the pure helpers: `handleError`, `validateUrl`/`isValidUrl`, `constructShortUrl`, `generateAlias`, and the lookup in `findLinkByUrl`.

The network is replaced by what one call yields. A `Reply` is either a resolved response (`Ok(status, body)`) or a rejection (`Threw`). A rejection is one of three cases:

- `ServerError(status, message?)`: the server answered with an error status;
- `NoResponse`: the request went out but no response came back;
- `SetupError(message?)`: the request was never sent.

A loop receives its replies as a function. The retry loop uses `respond(attempt)`, with attempts counted from 1. A bulk loop uses `respond(i)` for input entry `i`. Every API method returns the envelope `{ success, data | message, statusCode? }`. It is the `Envelope` datatype: `Succeeded(data)` or `Failed(message, statusCode?)`.

Several other parts of the system are inputs rather than code:

- **Thrown errors.** An `Error` thrown before any request is sent is `Failure(message)`.
- **Absent values.** An absent JavaScript value is `None`.
- **Truthiness.** JavaScript truthiness of an optional string is `Truthy` (absent and `""` are falsy). `x || d` is `StringOr` for strings and `NumberOr` for numbers.
- **Parsed URLs.** What the WHATWG URL parser makes of a string is an input. This covers the parsed protocol, hostname, pathname and search, or the fact that the parser threw.
- **Random draws.** The values `Math.random` returns are an input.
- **Dates.** The `toISOString()` text of a date is an input.

Modules, one per concern:

| file | module | concern |
|---|---|---|
| `wrappers.dfy` | `Wrappers` | `Option`, `Result` |
| `text.dfy` | `Text` | truthiness, `String(n)`, `trim`, `join`, `split` |
| `http.dfy` | `Http` | replies, envelopes, `handleError`, the shared try-block |
| `payload.dfy` | `Payload` | the `createShortUrl` body and its null filter |
| `query.dfy` | `Query`, `QueryExamples` | `URLSearchParams` serialisation and the three query builders |
| `validation.dfy` | `Validation` | `validateUrl`, `isValidUrl` |
| `links.dfy` | `Links` | `constructShortUrl`, the lookup of `findLinkByUrl` |
| `alias.dfy` | `Alias` | `generateAlias` |
| `bulk.dfy` | `Bulk` | the partition of a bulk loop into successes and failures, and its report |
| `shortener.dfy` | `Shortener` | the client class, retry, bulk create, delete and bulk delete |

## Model

| member | source | states |
|---|---|---|
| Text.StringOr | src/ElnkProShortener.js:521 | `x \|\| fallback`: a truthy string is kept, and an absent or empty one gives the fallback |
| Text.NatToString | src/ElnkProShortener.js:144 | `String(n)` is a non-empty run of decimal digits with no leading zero |
| Text.NatToStringInjective | src/ElnkProShortener.js:144 | distinct numbers print differently (proved through `ParseNat`, which reads the numeral back) |
| Text.Trim | src/ElnkProShortener.js:139-140 | `trim()` returns the slice left after removing the whitespace at both ends; the result is empty exactly when the string is all whitespace |
| Text.IntToString | src/ElnkProShortener.js:367-368 | `String(i)` is non-empty and starts with `-` exactly for a negative number |
| Text.IntToStringDigits | src/ElnkProShortener.js:367-368 | the digits of `String(i)` read back as the magnitude of i |
| Text.JoinSplit | src/ElnkProShortener.js:456 | joining the pieces of `split(c)` with `c` gives the string back |
| Text.SplitJoin | src/ElnkProShortener.js:587 | splitting a join of separator-free pieces gives the pieces back |
| Http.HandleError | src/ElnkProShortener.js:515-537 | every rejection becomes a failed envelope with a non-empty message; it carries a status code exactly when the server answered. A server answer keeps its truthy `data.message` and otherwise reads `API request failed with status code: N`. A missing response has the fixed no-response message. A setup error keeps its truthy `error.message` and otherwise reads `Unknown error occurred` |
| Http.Interpret | src/ElnkProShortener.js:107-119 | an API method succeeds exactly on a resolved 2xx response, with the body as data. A resolved non-2xx response fails without a status code, with the body's truthy `message` or the status text. A rejection gives exactly what `handleError` gives |
| Payload.OptField | src/ElnkProShortener.js:60-66 | an optional key is written exactly when its setting is truthy |
| Payload.BuildCreateBody | src/ElnkProShortener.js:54-79 | the assign-then-delete construction yields exactly the filtered body, and no value in it is null |
| Payload.DropNulls | src/ElnkProShortener.js:75-79 | the delete pass keeps the non-null keys in order and removes the rest |
| Payload.WithoutNullsAppend | src/ElnkProShortener.js:75-79 | the null filter distributes over concatenation |
| Payload.DraftFiltered | src/ElnkProShortener.js:54-79 | filtering the draft, whose alias slot is null without an alias, gives the body |
| Payload.CreateBodyShape | src/ElnkProShortener.js:54-79 | `destination` and `type: 'link'` come first; `domain_id`, `project_id` and `url` appear exactly when the domain, project and alias are truthy; no key occurs twice |
| Query.FormEncode | src/ElnkProShortener.js:331 | a serialised component only holds unreserved bytes, `+` and `%`, so never `&` or `=` |
| Query.FormEncodeUnreserved | src/ElnkProShortener.js:331 | a component made of unreserved characters is written unchanged |
| Query.Serialize | src/ElnkProShortener.js:331 | `params.toString()` writes only unreserved bytes, `+`, `%`, `=` and `&` |
| Query.SerializeEmpty | src/ElnkProShortener.js:331-332 | the query string is empty exactly when no parameter was appended |
| Query.PairRoundTrip | src/ElnkProShortener.js:331 | a `key=value` piece holds no `&`, and splitting it on `=` gives the encoded key and value |
| Query.QueryRoundTrip | src/ElnkProShortener.js:382 | splitting a serialised query on `&` gives one piece per parameter, in order, and splitting a piece on `=` gives its encoded key and value |
| Query.FormRoundTrip | src/ElnkProShortener.js:331 | a serialised component reads back as itself: the percent/`+` layer is undone and then the UTF-8 layer |
| Query.FormEncodeInjective | src/ElnkProShortener.js:331 | two components are written the same exactly when they are equal |
| Query.ReadSerialized | src/ElnkProShortener.js:331-382 | reading a serialised query back gives every parameter, in order, with its own key and value; the empty query reads as no parameters |
| Query.NumberOr | src/ElnkProShortener.js:367-368 | `x \|\| d` on a number: absent and 0 give the default |
| Query.OptParam | src/ElnkProShortener.js:323-329 | an optional parameter is appended exactly when its value is truthy |
| Query.IsoDate | src/ElnkProShortener.js:456 | `split('T')[0]` is a prefix of the ISO text with no `T` in it, and is the whole text when there is no `T` |
| Query.IsoDatePrefix | src/ElnkProShortener.js:455-461 | the date part of `day + 'T' + time` is `day` |
| Query.LinkStatsPath | src/ElnkProShortener.js:315-332 | a falsy link id throws `Link ID is required`; otherwise the path is `/links/<id>/stats` plus the stats query |
| Query.WithQuery | src/ElnkProShortener.js:331-332 | a `?` and the query are appended exactly when the query is non-empty |
| Query.StatsQueryShape | src/ElnkProShortener.js:321-329 | there is a query exactly when a period or a timezone is given, with `period` first and `timezone` last |
| Query.AllLinksPath | src/ElnkProShortener.js:363-382 | the path is `/links?` followed by the serialised list parameters |
| Query.Rank | src/ElnkProShortener.js:365-380 | the position of a key in a fixed key order |
| Query.ListQueryShape | src/ElnkProShortener.js:365-380 | `page` (default 1) and `limit` (default 25) always lead, and one more parameter follows for each truthy option among `search`, `sort` and `order` |
| Query.ListParamHas | src/ElnkProShortener.js:365-380 | a list query holds a key exactly when it is `page` or `limit`, or an optional key whose option is truthy |
| Query.ListQueryKeys | src/ElnkProShortener.js:370-380 | `search`, `sort` and `order` are each present exactly when their option is truthy |
| Query.ListQueryValues | src/ElnkProShortener.js:370-380 | a truthy option is sent with its own value |
| Query.ListRanks | src/ElnkProShortener.js:365-380 | the list keys rank 0 to 4 in the order page, limit, search, sort, order |
| Query.ListParamsInOrder | src/ElnkProShortener.js:365-380 | the list parameters follow any key order that ranks page, limit, search, sort and order as 0 to 4 |
| Query.ListQueryOrder | src/ElnkProShortener.js:365-380 | the list keys appear in the order page, limit, search, sort, order, each at most once |
| Query.DateParam | src/ElnkProShortener.js:455-461 | a date filter is sent exactly when a date is given |
| Query.SearchLinksPath | src/ElnkProShortener.js:439-466 | the path is `/links/search?` followed by the serialised search parameters |
| Query.OrderedAppend | src/ElnkProShortener.js:441-464 | appending runs whose key ranks do not overlap keeps the key order |
| Query.SearchParamsInOrder | src/ElnkProShortener.js:441-464 | the search parameters follow any key order that ranks q, domain, tag, date_from, date_to, page and limit as 0 to 6 |
| Query.SearchQueryOrder | src/ElnkProShortener.js:441-464 | the search keys appear in the order q, domain, tag, date_from, date_to, page, limit, each at most once |
| Query.SearchQueryShape | src/ElnkProShortener.js:441-464 | one parameter per given filter, and `page` (default 1) and `limit` (default 25) always close the query |
| Query.SearchParamHas | src/ElnkProShortener.js:441-464 | a search query holds a key exactly when it is a truthy text filter, a given date filter, `page` or `limit` |
| Query.SearchQueryKeys | src/ElnkProShortener.js:443-461 | `q`, `domain` and `tag` are present exactly when truthy; `date_from` and `date_to` exactly when the date is given |
| Query.SearchQueryValues | src/ElnkProShortener.js:443-461 | a given filter is sent with its own value, a date as the day part of its ISO text |
| QueryExamples.PlainSerialize | src/ElnkProShortener.js:382 | parameters made of plain words serialise to `k1=v1&k2=v2…` |
| QueryExamples.StatsExample | tests/enhanced-features.test.js:121 | `getLinkStats('test-link-id', { period: 'week' })` requests `/links/test-link-id/stats?period=week` |
| QueryExamples.ListExample | tests/enhanced-features.test.js:157 | `getAllLinks({ page: 1, limit: 10 })` appends exactly `page=1` and `limit=10`, both plain words, so the query is `page=1&limit=10` |
| Validation.MergeSpread | src/ElnkProShortener.js:551-558 | with no options the defaults apply; a given option wins over its default |
| Validation.DropLast | src/ElnkProShortener.js:571 | `slice(0, -1)` drops exactly the last character |
| Validation.Check | src/ElnkProShortener.js:560-614 | a URL is valid exactly when it is a non-empty string, it parses, and it passes the protocol, localhost, IP and hostname checks; a valid result returns the parsed parts |
| Validation.ValidateUrl | src/ElnkProShortener.js:550-615 | the same verdict, with the options merged over the defaults |
| Validation.CheckOrder | src/ElnkProShortener.js:560-614 | each error is reported exactly when its check is the first one to fail, in the order string, parse, protocol, localhost, IP, hostname |
| Validation.LooserAcceptsMore | src/ElnkProShortener.js:571-592 | loosening any option never rejects a URL that was accepted, and gives the same result |
| Validation.ProtocolErrorLists | src/ElnkProShortener.js:574 | for any list of allowed protocols, the error names the first and then each further one after `, `, in the given order; an empty list names none |
| Validation.DottedQuadJoin | src/ElnkProShortener.js:587 | four non-empty digit runs joined by dots form a dotted quad, and split back into those runs |
| Validation.DottedQuadSplit | src/ElnkProShortener.js:587 | every dotted quad is such a join |
| Validation.IsValidUrl | src/ElnkProShortener.js:623-626 | `isValidUrl` holds exactly when the URL is a non-empty string that parses, with an http or https scheme and a non-empty hostname |
| Validation.ExampleAddress | src/ElnkProShortener.js:587 | `192.168.1.1` matches the IP pattern |
| Validation.RefusesIpAddress | src/ElnkProShortener.js:586-592 | `http://192.168.1.1` with `allowIP: false` is refused as an IP address |
| Validation.AcceptsIpAddressByDefault | src/ElnkProShortener.js:550-608 | the same URL is valid with the default options |
| Validation.RefusesLocalhost | src/ElnkProShortener.js:578-584 | `http://localhost:3000` with `allowLocalhost: false` is refused as localhost |
| Validation.RefusesFtp | src/ElnkProShortener.js:570-576 | `ftp://example.com` is refused with `Protocol must be one of: http, https` |
| Links.ConstructShortUrl | src/ElnkProShortener.js:491-507 | yields `false` exactly when the slug is falsy, otherwise `https://elnk.pro/` followed by the slug |
| Links.ShortUrlIgnoresDomain | src/ElnkProShortener.js:499-506 | the domain id never changes the constructed URL |
| Links.ShortUrlInjective | src/ElnkProShortener.js:491-507 | equal constructed URLs come from equal slugs |
| Links.ExtractSlug | src/ElnkProShortener.js:735 | `substring(1)` drops the leading character |
| Links.SlugRoundTrip | src/ElnkProShortener.js:735 | the slug extracted from the path of a constructed URL is the link's own slug |
| Links.FindFirst | src/ElnkProShortener.js:749-751 | `find` returns the first link that matches, or none when no link matches |
| Links.LookupQueryParams | src/ElnkProShortener.js:745 | the lookup searches for the slug alone, on page 1 with limit 25 |
| Links.FindLinkByUrl | src/ElnkProShortener.js:731-768 | a parser error goes through `handleError`; an empty slug is an invalid format; it succeeds exactly when the search returned a link that matches exactly, and then returns the first such link; a failed or empty search and a search without an exact match give `Link not found` |
| Links.FindsOwnSlug | src/ElnkProShortener.js:745-758 | a link whose slug is searched for is found, even on a custom domain |
| Alias.Span | src/ElnkProShortener.js:819 | a span holds the characters of one code-point range, in order |
| Alias.SpanMembers | src/ElnkProShortener.js:819 | a span holds exactly the characters of its range |
| Alias.Alphabet | src/ElnkProShortener.js:819-827 | the alphabet has 52, 62, 54 or 64 characters, depending on the two flags |
| Alias.AlphabetMembers | src/ElnkProShortener.js:819-827 | a character is in the alphabet exactly when it is an ASCII letter, a digit with numbers on, or `-`/`_` with special characters on |
| Alias.Pick | src/ElnkProShortener.js:831 | `Math.floor(d * n)` is an index below n for every draw in [0, 1) |
| Alias.PickReaches | src/ElnkProShortener.js:831 | every index below n is picked by some draw |
| Alias.AliasAlphabet | src/ElnkProShortener.js:818-827 | without arguments the alphabet is the letters and digits |
| Alias.GenerateAlias | src/ElnkProShortener.js:818-835 | the alias has exactly `length` characters (none when the length is not positive); character i is the one draw i picks; every character is in the alphabet; without arguments it has 8 characters, each a letter or a digit |
| Alias.DefaultAliasIsAlphanumeric | src/ElnkProShortener.js:818-835 | with the default flags every character is a letter or a digit |
| Bulk.Successes | src/ElnkProShortener.js:150 | `results` never has more entries than the input |
| Bulk.Failures | src/ElnkProShortener.js:152-155 | `errors` never has more entries than the input |
| Bulk.Snoc | src/ElnkProShortener.js:149-156 | handling one more entry appends at most one item, to the list its outcome selects |
| Bulk.PartitionCount | src/ElnkProShortener.js:137-163 | every entry is skipped, successful or failed, exactly once |
| Bulk.NoneSkipped | src/ElnkProShortener.js:784-796 | without skipped entries the two lists share out the whole input |
| Bulk.NoFailures | src/ElnkProShortener.js:166 | `errors` is empty exactly when no entry was rejected |
| Bulk.SuccessPosition | src/ElnkProShortener.js:150 | results keep input order: a passed entry's item sits after the items of the entries passed before it |
| Bulk.Summarize | src/ElnkProShortener.js:165-174 | the report lists the successes and failures, the counts are their lengths, they add up to at most the total, and `success` holds exactly when no entry failed |
| Shortener.OrNull | src/ElnkProShortener.js:25-26 | `x \|\| null` keeps a truthy string and gives null otherwise |
| Shortener.AttemptEnvelope | src/ElnkProShortener.js:872-890 | one attempt ends with `Original URL is required` for a falsy URL, and with the interpreted reply otherwise |
| Shortener.EndsRetriesOn | src/ElnkProShortener.js:874-883 | the loop stops on a 2xx reply or on a rejection with a status in 1..499; a resolved non-2xx reply has no status code and is retried |
| Shortener.AliasFor | src/ElnkProShortener.js:142-145 | an alias is sent exactly when the base alias is truthy |
| Shortener.AliasesDistinct | src/ElnkProShortener.js:144 | with several URLs, the aliases `base-1`, `base-2`, … are pairwise distinct |
| Shortener.CreateEntry | src/ElnkProShortener.js:139-156 | a blank-after-trim entry is skipped; any other entry passes exactly when its reply is 2xx, and otherwise fails with the trimmed URL and a non-empty message |
| Shortener.CreateEntriesAt | src/ElnkProShortener.js:137-163 | outcome i is entry i's own outcome |
| Shortener.CreateRunAgrees | src/ElnkProShortener.js:137-163 | the loop's three lists are the successes, the failures and the requests of the non-blank entries, in input order |
| Shortener.BulkCreateAddsUp | src/ElnkProShortener.js:129-175 | successes, failures and skipped entries add up to the total; `success` holds exactly when every non-blank URL got a 2xx reply |
| Shortener.DeleteLink | src/ElnkProShortener.js:243-264 | a falsy id throws `Link ID is required`; the result succeeds exactly on a 2xx reply, with the fixed deletion message; any other reply gives the interpreted failure |
| Shortener.DeleteEntry | src/ElnkProShortener.js:785-795 | an id is never skipped; it passes exactly when it is non-empty and its reply is 2xx; a falsy id fails with `Link ID is required` |
| Shortener.DeleteEntriesAt | src/ElnkProShortener.js:784-796 | outcome i is id i's own outcome |
| Shortener.BulkDeleteAddsUp | src/ElnkProShortener.js:776-808 | successes and failures add up to the total; `success` holds exactly when every id was non-empty and got a 2xx reply |
| Shortener.ElnkProShortener.constructor | src/ElnkProShortener.js:19-28 | the key is stored, the ids default to null, the timeout to 30000 and the base URL to `https://elnk.pro/api` |
| Shortener.ElnkProShortener.Create | src/ElnkProShortener.js:19-28 | a falsy API key throws `API key is required`; otherwise a fresh client holding the key |
| Shortener.ElnkProShortener.GetConfig | src/ElnkProShortener.js:665-672 | the view holds the current domain id, project id, timeout and base URL, and has no API key; on a valid client the timeout and base URL are truthy |
| Shortener.ElnkProShortener.SetApiKey | src/ElnkProShortener.js:633-640 | a falsy key throws and changes nothing; otherwise the key is replaced and the rest of the configuration kept |
| Shortener.ElnkProShortener.SetDomainId | src/ElnkProShortener.js:647-649 | the domain id is stored as given and nothing else changes |
| Shortener.ElnkProShortener.SetProjectId | src/ElnkProShortener.js:656-658 | the project id is stored as given and nothing else changes |
| Shortener.ElnkProShortener.CreateShortUrl | src/ElnkProShortener.js:48-119 | a falsy URL throws before any request; otherwise the filtered body for the current configuration is sent and the reply decides the envelope |
| Shortener.ElnkProShortener.CreateShortUrlWithRetry | src/ElnkProShortener.js:866-903 | with `maxRetries <= 0` nothing is called and the fixed give-up failure is returned; otherwise it makes 1 to `maxRetries` calls, every attempt but the last failed without ending retries, it stops early only on a success or a status below 500, it returns the last attempt's envelope, and it waits `retryDelay * k` after attempt k except after the last |
| Shortener.ElnkProShortener.CreateBulkShortUrls | src/ElnkProShortener.js:129-175 | a missing or empty list throws before any request; otherwise the report summarises the per-entry outcomes, and the requests are the trimmed non-blank URLs with their aliases, in order |
| Shortener.ElnkProShortener.CreateEach | src/ElnkProShortener.js:137-163 | the loop builds exactly the lists of the iteration function |
| Shortener.ElnkProShortener.BulkDeleteLinks | src/ElnkProShortener.js:776-808 | a missing or empty list throws; otherwise the report summarises the per-id outcomes of `deleteLink` |

## Left out

- HTTP traffic through axios is not modelled: each call is replaced by its `Reply`. This covers the request itself, the `Authorization` header that `setApiKey` rewrites (src/ElnkProShortener.js:639), the timeout, and async scheduling.
- The `setTimeout` sleeps of the retry loop are not performed. Their durations are returned in `waits`.
- Shortener.ElnkProShortener.CreateShortUrl: on a 2xx reply the source takes the link id from the body and, when there is one, issues a second request, `getLinkDetails` (src/ElnkProShortener.js:84-105). The model has no oracle for that second request: a 2xx create always counts as a success whose data is the response body, whatever `getLinkDetails` would return. The source differs in two ways:
  - When the details succeed it returns an enriched record with the short URL.
  - When the details answer 2xx without `data.data` (src/ElnkProShortener.js:194), `constructShortUrl(undefined)` throws a TypeError (src/ElnkProShortener.js:492). The catch at src/ElnkProShortener.js:117-118 then turns it into a failure without a status code. So in the source a 2xx create can still fail: the retry loop then posts again, and bulk creation counts the entry as failed. `Http.Interpret`, `Shortener.CreateEntry`, `Shortener.BulkCreateAddsUp` and `Shortener.ElnkProShortener.CreateShortUrlWithRetry` describe the model without this path.
- `getLinkStats`, `getAllLinks` and `searchLinks` are modelled up to the request path. Their replies are handled by the same try-block as `Http.Interpret`; the unwrapping of `response.data.data || response.data` is left out.
- The `getAllLinks`/`searchLinks` query strings with special characters are stated through `Serialize`. The long test expectations (tests/enhanced-features.test.js:172 and 219) are not restated as literal strings.
- testConnection, getUserInfo, getDomains, getDomainDetails, updateLink and getLinkDetails are not part of this model.
- `formatBytes` is left out (src/ElnkProShortener.js:844-854). It is floating-point `Math.log`, `Math.pow` and `toFixed`.
- The WHATWG URL parser is an input. Validation and `findLinkByUrl` take its output, or the fact that it threw.
- Alias.GenerateAlias: `Math.random` is modelled as a sequence of real draws in [0, 1), not as IEEE doubles.
- Query.FormEncode: a Dafny `char` is a Unicode scalar value, so a lone UTF-16 surrogate, which the URL serialiser replaces with U+FFFD, cannot occur in the model.
- `Date.prototype.toISOString` is an input: a search option carries the ISO text of its date.
- Shortener.ElnkProShortener.CreateBulkShortUrls: entries are strings, so `trim()` never throws and the source's catch branch (src/ElnkProShortener.js:157-162) is unreachable in the model. A non-string entry is not modelled.
- Shortener.ElnkProShortener.BulkDeleteLinks: a falsy id (`null`, `undefined`, `""`) is modelled as `""`.
- Destructuring defaults and object spread treat an option explicitly set to `undefined` as absent or as given, respectively. The model has a single "absent" (`None`), so that distinction is not modelled.
- Shortener.ElnkProShortener.CreateShortUrlWithRetry: `maxRetries` and `retryDelay` are integers. A fractional or non-numeric option is not modelled.
- Query.ListParams: `page` and `limit` are integers. A fractional number, which `String` prints with its fraction (`2.5`), and `NaN`, which is falsy and falls back to the default, are not modelled.
- Query.SearchParams: `page` and `limit` are integers, with the same consequence as for `Query.ListParams`.
- Alias.GenerateAlias: `length` is an integer. A fractional length, for which the loop condition `i < length` runs up to the next integer, and `NaN`, for which `i < length` fails at once and the alias is empty, are not modelled. A default parameter only replaces `undefined`, so `NaN` does not fall back to 8.
- `Links.ConstructShortUrl` ignores the domain id, like the source (src/ElnkProShortener.js:504-506).
- src/function.ts, src/type.ts, the tests, the examples and framework-tests are not part of this model.
