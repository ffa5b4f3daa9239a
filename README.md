# Search skeleton endpoints: parameter validation and page assembly

This project models the query-parameter and pagination layer of the search
service in `search/handlers.go`. It covers three HTTP handlers:
`handleSearchPostsSkeleton`, `handleStructuredSearchPostsSkeleton` and
`handleSearchActorsSkeleton`. It also covers the shared `parseCursorLimit`
and the three result builders `SearchPosts`, `StructuredSearchPosts` and
`SearchProfiles`.

A request comes in as a map from parameter names to their values. The
handlers do the following, in order:

- trim `q` and answer a blank query with a JSON 400;
- parse `cursor` and `limit` into a bounded offset and page size, or return a
  400 error;
- for the structured search, read `langs`, `actors`, `tags`, `from` and `to`;
- for the actor search, read the `typeahead` flag;
- hand the query to a builder.

A builder does the following:

- asks the search backend for one page of hits;
- turns each hit into an output item (an `at://` post URI, a `bsky.app` post
  link or an actor DID), failing the whole call at the first bad hit;
- adds a next-page cursor when the page came back full and is not too deep;
- reports the exact hit count when the backend says it is exact.

Collaborators become parameters:

- the search backend is a function from the request to the reply (hits plus a
  `(relation, value)` total, or a failure);
- JSON decoding of a hit and the DID syntax check are a `Decoders` value.

Go's own library behaviour is written out:

- `strings.TrimSpace`, with the white-space set of `unicode.IsSpace`;
- `strconv.Atoi` / `strconv.ParseInt(s, 10, 64)`, with the 64-bit range;
- `fmt.Sprintf("%d")`;
- the 64-bit wrap-around of Go's `int` addition `offset + size`.

Layout:

- `wrappers.dfy`: the `Option` and `Result` datatypes.
- `strconv.dfy`: decimal parsing and formatting, and 64-bit addition.
- `strings.dfy`: `TrimSpace` and its properties.
- `search_types.dfy`: the documents, backend replies, requests, output pages,
  errors and HTTP responses.
- `pagination.dfy`: `parseCursorLimit`, the next-page cursor and `HitsTotal`.
- `results.dfy`: the per-hit loop and the three builders.
- `handlers.dfy`: the query checks, the three handlers and the end-to-end
  cursor round trip.

The builders are imperative methods proved against the specification function
`Results.PageOutcome`. Their shared loop over the hits is the method
`Results.CollectItems`. It is proved, with loop invariants, equal to the
recursive function `Results.ItemsOf`, and the lemmas state the item rules
about that function. The parameter parsing is pure, so it is modelled as
functions.

`Strings.TrimSpace` strips one leading or trailing blank at a time. Go's
`TrimSpace` strips the left run of blanks and then the right run. Both give
the same result. `Strings.TrimSpaceSlice` proves the result is the input with
only white space cut off either end.

## Model

| member | source | states |
|---|---|---|
| Pagination.ParseOffset | search/handlers.go:23-43 | an accepted cursor gives an offset in 0..10000; the only errors are an invalid cursor and one that is too deep |
| Pagination.ParseLimit | search/handlers.go:45-63 | an accepted limit gives a page size in 0..100; the only error is an invalid limit |
| Pagination.ParseCursorLimit | search/handlers.go:22-65 | on success 0 <= offset <= 10000 and 0 <= limit <= 100; every error it returns carries status 400 |
| SearchTypes.Failure.Status | search/handlers.go:27-50 | the invalid-cursor, too-deep and invalid-limit errors carry status 400 as `echo.HTTPError`s; the other errors are plain Go errors with no status of their own; no contract of its own, used by the contract of `ParseCursorLimit` |
| Pagination.CursorRules | search/handlers.go:23-43 | a blank cursor means offset 0; a non-integer cursor fails with the cursor error; a negative one means 0; one above 10000 fails as too deep; otherwise the offset is the number given; the cursor is accepted exactly when it is blank or an integer of at most 10000 |
| Pagination.LimitRules | search/handlers.go:45-63 | once the cursor is accepted: a blank limit means 25; a non-integer limit fails; an integer limit always succeeds, with above 100 giving 100, below 0 giving 0 and anything else kept |
| Pagination.NextCursor | search/handlers.go:305-308 | a cursor is offered only for a full page whose wrapped `offset + size` is below 10000 |
| Pagination.NextCursorRule | search/handlers.go:305-308 | for parsed offsets and sizes: a cursor is offered if and only if the page is full and `offset + size < 10000`, and it is the decimal `offset + size` (with size 0 that is the offset itself) |
| Pagination.OffsetRoundTrip | search/handlers.go:24-43 | the decimal form of any offset in 0..10000, sent as the cursor, reads back as that offset |
| Pagination.PageParts | search/handlers.go:22-65 | proof step for the cursor round trip: an accepted page is made of an accepted cursor and an accepted limit |
| Pagination.PageOf | search/handlers.go:22-65 | proof step for the cursor round trip: an accepted cursor and an accepted limit make the accepted page |
| Pagination.OffsetCursorParses | search/handlers.go:22-65 | a decimal offset in bounds, sent with a limit that parses, asks for exactly that offset and size |
| Pagination.NextCursorRoundTrip | search/handlers.go:305-308 | the next-page cursor, sent back with the same limit, never trips the cursor checks and gives offset `offset + size` with the same size |
| Pagination.ReportedTotal | search/handlers.go:309-312 | `HitsTotal` is present if and only if the relation is exactly "eq", and then equals the backend's value |
| Strconv.ParseInt | search/handlers.go:25 | only an optional sign followed by one or more decimal digits is accepted (so a lone sign is rejected), the result is the signed value of those digits, and a value outside 64 bits is rejected |
| Strconv.ParseIntAccepts | search/handlers.go:25 | the converse: every "", "+" or "-" followed by one or more digits whose value fits in 64 bits is accepted (leading zeros and "-0" included) and yields that signed value |
| Strconv.FormatNat | search/handlers.go:306 | the result is non-empty, all digits, has no leading zero unless it is "0", and denotes the number |
| Strconv.FormatInt | search/handlers.go:306 | the result starts with a minus exactly for a negative number and is otherwise digits |
| Strconv.ParseFormatRoundTrip | search/handlers.go:306 | every 64-bit integer written with `%d` parses back to itself |
| Strconv.Add64 | search/handlers.go:305 | the sum is exact when it fits in 64 bits, and otherwise differs from the true sum by 2^64 |
| Strings.IsSpace | search/handlers.go:24 | on Latin-1 characters the white space is exactly tab, line feed, vertical tab, form feed, carriage return, space, NEL and no-break space, as `unicode.IsSpace` decides them; above Latin-1 the body lists Unicode's White_Space characters |
| Strings.TrimSpace | search/handlers.go:24 | the result is no longer than the input, is empty exactly when the input is all white space, and otherwise neither starts nor ends with white space |
| Strings.TrimSpaceSlice | search/handlers.go:24 | the result is a contiguous piece of the input with only white space outside it |
| Strings.TrimSpaceUnchanged | search/handlers.go:24 | a string that neither starts nor ends with white space is unchanged |
| Strings.TrimSpacePadding | search/handlers.go:24 | white space added at either end does not change the trimmed result |
| Strings.TrimsTo | search/handlers.go:24 | for a word with no white space at either end, a string trims to it exactly when it is that word with white space around it |
| Results.PostUrisIdentifyPost | search/handlers.go:256-300 | two posts with the same `at://` URI, or the same `bsky.app` link, have the same DID and record key, for DIDs without a slash |
| Results.Render | search/handlers.go:299-301 | the item is an actor exactly for the profile search |
| Results.ItemOf | search/handlers.go:289-301 | a hit yields an item exactly when it decodes and its DID is valid; a decode failure fails with the decode error; a bad DID fails with the DID error; the DID check comes after decoding |
| Results.ItemsOf | search/handlers.go:287-302 | the result of the per-hit loop, as a recursive function; no contract of its own, described by `ItemsOfSuccess`, `ItemsOfFailure` and `FailureSticks`, and implemented by `CollectItems` |
| Results.ItemsOfSuccess | search/handlers.go:287-302 | the items come out exactly when every hit is good, one item per hit and in hit order |
| Results.ItemsOfFailure | search/handlers.go:287-302 | a failing list fails with the error of its first bad hit |
| Results.FailureSticks | search/handlers.go:288-297 | once a prefix of the hits fails, the whole list fails with the same error, so returning early is the same as finishing |
| Results.CollectItems | search/handlers.go:287-302 | the loop's result equals `ItemsOf` of all the hits |
| Results.PageOutcome | search/handlers.go:282-313 | what a builder returns for a backend reply; no contract of its own, described by `PageItems`, `PageCursor` and `PageCursorAndTotal`, and implemented by `BuildPage` |
| Results.PageItems | search/handlers.go:282-302 | a builder fails with the backend's error when the backend failed; otherwise it succeeds exactly when every hit is good, with one item per hit in order, and on failure gives the first bad hit's error |
| Results.PageCursor | search/handlers.go:304-308 | proof step for the cursor round trip: a built page's cursor is the next-page cursor for its own item count |
| Results.PageCursorAndTotal | search/handlers.go:304-312 | on success there is a cursor exactly when the hit count equals the size and the wrapped `offset + size` is below 10000, and it is that sum in decimal; `HitsTotal` is set exactly for an "eq" total, to its value |
| Results.BuildPage | search/handlers.go:282-313 | the shared builder body equals `PageOutcome` of the backend's reply |
| Results.SearchPosts | search/handlers.go:272-314 | asks the backend for the plain post search at the given offset and size, and returns `PageOutcome` with `at://` URIs |
| Results.StructuredSearchPosts | search/handlers.go:225-270 | asks the backend for the structured query, and returns `PageOutcome` at the query's offset and size with `bsky.app` links |
| Results.ProfilesRequest | search/handlers.go:329-333 | the typeahead request is sent exactly in typeahead mode; both kinds carry the query and the size, and only the plain profile search carries the offset |
| Results.SearchProfiles | search/handlers.go:316-365 | asks for the typeahead search (size only) or the plain profile search, and returns `PageOutcome` with actor DIDs |
| Handlers.Values | search/handlers.go:129-139 | all values given for a parameter, in order, or none when it is absent |
| Handlers.QueryParam | search/handlers.go:144 | the first value of a parameter, or "" when it has none |
| Handlers.ParseQueryAndPage | search/handlers.go:73-85 | `CheckQuery` applied to the first values of `q`, `cursor` and `limit` (read as at lines 24, 46 and 73); no contract of its own, described by `CheckQuery`, `ResumeQuery` and `RequestCursorRoundTrip` |
| Handlers.CheckQuery | search/handlers.go:73-85 | a query that is blank after trimming gets the JSON 400 whatever the cursor and limit say; otherwise a cursor or limit error is returned as is; a non-blank query with an accepted cursor and limit always passes, giving the trimmed query and the page `ParseCursorLimit` accepted |
| Handlers.TypeaheadFlag | search/handlers.go:202-205 | the flag is on exactly when the parameter is "true", "1" or "y" with nothing but white space around it |
| Handlers.TypeaheadIgnoresPadding | search/handlers.go:202-205 | white space around the `typeahead` parameter does not change the flag |
| Handlers.OptionalList | search/handlers.go:129-142 | a list field is set exactly when the parameter has values, and then holds them all |
| Handlers.ParseMillis | search/handlers.go:144-168 | an empty `from`/`to` leaves the bound unset; a non-empty one fails with its own error exactly when it is not a 64-bit integer; otherwise the bound is that integer |
| Handlers.ParseStructuredQuery | search/handlers.go:105-168 | the common checks come first; a bad `from` is reported before `to`; a request whose common checks, `from` and `to` all pass always yields a query, whose query, offset and size are the checked ones, whose lists are set exactly when given, and whose time bounds are set exactly when given, to their parsed values |
| Handlers.Respond | search/handlers.go:89-98 | a successful page is answered as a JSON 200 carrying that page; a builder error is returned unchanged |
| Handlers.HandleSearchPostsSkeleton | search/handlers.go:67-99 | a request that fails the checks gets that answer with no search; otherwise the answer is the `SearchPosts` page for the trimmed query and parsed page |
| Handlers.HandleStructuredSearchPostsSkeleton | search/handlers.go:101-180 | a request whose structured query fails gets that answer with no search; otherwise the answer is the `StructuredSearchPosts` page for that query |
| Handlers.HandleSearchActorsSkeleton | search/handlers.go:182-223 | a request that fails the checks gets that answer with no search; otherwise the answer is the `SearchProfiles` page, in typeahead mode exactly when the flag is on |
| Handlers.ResumeQuery | search/handlers.go:73-85 | proof step for the cursor round trip: a request with a new cursor is checked as the old `q` and `limit` with that cursor |
| Handlers.QueryCursorRoundTrip | search/handlers.go:73-85 | the checks accept the next-page cursor with the same `q` and `limit`, keep the query and size, and move the offset on by one page |
| Handlers.RequestCursorRoundTrip | search/handlers.go:80-85 | repeating a valid request with `cursor` set to the next-page cursor passes the checks, with the same query and size and offset `offset + size` |
| Handlers.CursorRoundTrip | search/handlers.go:305-308 | when a builder's page carries a cursor, repeating the request with that cursor asks for the next page of the same query at the same size |

## Left out

- `cmd/hepa/main.go` and the rest of the repository are not part of this model: command-line and environment wiring, and the daemon's consumers.
- OpenTelemetry spans and attributes are left out; they do not affect any answer.
- The backend calls `DoSearchPosts`, `DoStructuredSearchPosts`, `DoSearchProfiles` and `DoSearchProfilesTypeahead` are network I/O. They are a function parameter from the request to a reply.
- `json.Unmarshal` of a hit's source and `syntax.ParseDID` are foreign calls. They are the opaque `Decoders` parameter. A DID that passes the check is output as the string it was read from.
- echo's JSON encoding of the output and its conversion of a plain returned error into an HTTP 500 are left out. A returned error is `Response.Raised`, and `Failure.Status` says which errors carry a 400.
- The texts of the strconv and wrapped error messages are left out. Errors are told apart by kind.
- Handlers.ParseStructuredQuery: keeps `from`/`to` as the parsed millisecond integers. It does not model their conversion to `time.Time`, including the 64-bit wrap of `ms * 1e6` for extreme values.
- Go strings are byte strings, while the model's strings are Unicode characters, so a parameter holding invalid UTF-8 has no counterpart here. No rule is lost: `TrimSpace` and `Atoi` treat an invalid byte like U+FFFD, which is neither white space nor a digit.
- Go's nil versus empty slices for `langs`, `actors` and `tags` are modelled as `None` versus `Some`.
- `HitsTotal` is converted with `int64(...)` from a Go `int`. The model keeps it as an unbounded integer, which is the same value on a 64-bit platform.
- In typeahead mode the backend request carries no offset, yet `SearchProfiles` still offers a cursor of `offset + size`. The model keeps this behaviour as written.
