# iTunes search proxy and search page — Dafny model

This project models the logic of a small search application. A React page
(`src/App.js`) lets a user search the public iTunes catalogue and bookmark
results. An Express server (`server.js`) proxies searches to the same
catalogue behind a bearer-token gate. The model covers three parts:

- **The favourites list** (`Favorites`). `toggleFavorite` appends an item whose
  `trackId` no favourite has, and otherwise drops every favourite with that
  `trackId`. `isFavorite` tests membership by `trackId`.
- **The search page's request step** (`App.SearchPage`). It covers the
  blank-term guard, the request URL and the `error`/`loading`/`results`
  updates for each answer the catalogue can give.
- **The server** (`Server`). It covers the `authenticateToken` gate, the
  `/api/search` handler and the final error middleware.

`fetch`, `response.json()` and `jwt.verify` are given to the model as
functions from their input to their outcome. `encodeURIComponent` is modelled
concretely, following ECMA-262 (6th edition) section 18.2.6.5 and the
percent-encoding of section 2.1 of RFC 3986. Its inverse,
`decodeURIComponent` (section 18.2.6.3), is defined as its partner, and the
round trip between the two is proved. With it the model proves two things
about the URLs that both sides build:

- read back, each URL carries exactly the intended parameters. For the
  page's URL this always holds. For the server's URL it holds when the media
  value holds no `&` or `#`, because the server writes that value unencoded;
- the `term` parameter decodes to the term typed in.

Modules: `Wrappers` (Option), `Sequences` (a shared concatenation fact), `Text` (`split`, `trim`, decimal rendering),
`UriComponent`, `QueryString` (reading a URL's query back), `JsonValue`,
`Favorites`, `App`, `Server`.

Notes on what the code does:

- The server does not check `media` against the page's categories. It writes
  the value into the URL unencoded. `Server.MediaCanAddParameters` shows what
  follows from that.
- The server rejects only a missing or empty `term`. A whitespace-only term is
  forwarded. Only the page trims the term.
- The server's default media is `music`, and its result limit is 25. The
  page's limit is 20.
- The server sends the upstream body back as it came.
- `server.js` only checks tokens. It has no route that issues them.

## Model

| member | source | states |
|---|---|---|
| `Favorites.Find` | src/App.js:46 | the found entry exists exactly when some favourite has the key, and it is the first favourite with that key |
| `Favorites.IsFavorite` | src/App.js:54-56 | true exactly when some favourite has the item's `trackId` |
| `Favorites.Without` | src/App.js:48 | the filter never grows the list, and it is the identity when no entry has the key |
| `Favorites.WithoutMembers` | src/App.js:48 | the filter keeps exactly the entries whose `trackId` differs from the removed one |
| `Favorites.WithoutConcat` | src/App.js:48 | filtering distributes over concatenation, so the survivors keep their relative order |
| `Favorites.WithoutUnique` | src/App.js:48 | filtering a list with unique keys leaves unique keys |
| `Favorites.Toggle` | src/App.js:45-51 | an absent key appends the item at the end with every earlier entry unchanged; a present key leaves exactly the entries with other keys |
| `Favorites.ToggleFlips` | src/App.js:44-56 | after a toggle, `isFavorite(item)` is the negation of its value before |
| `Favorites.ToggleKeepsOthers` | src/App.js:45-51 | a toggle leaves the favourite status of every other `trackId` unchanged |
| `Favorites.TogglePresentFilters` | src/App.js:46-48 | removing a present key filters each part of the list separately, which preserves order |
| `Favorites.ToggleKeepsUnique` | src/App.js:45-51 | from a list where no two favourites share a `trackId`, a toggle keeps that so |
| `Favorites.ToggleTwiceFromAbsent` | src/App.js:45-51 | toggling the same item twice from the absent state gives back the original list |
| `Favorites.ToggleTwiceFromPresent` | src/App.js:45-51 | toggling twice from the present state drops all entries with the key and puts the item last |
| `Text.Split` | server.js:28 | `split(' ')` gives at least one part, no part holds the separator, and joining the parts gives back the string |
| `Text.SplitJoin` | server.js:28 | splitting a join of separator-free parts gives back those parts |
| `Text.TrimEmptyIffBlank` | src/App.js:18 | `trim()` is empty exactly when every character is ECMAScript whitespace or a line terminator |
| `Text.Trim` | src/App.js:18 | `trim()` never lengthens the text, and what it keeps is empty or starts and ends with a non-whitespace character |
| `Text.TrimIsInnerSlice` | src/App.js:18 | `trim()` keeps a contiguous slice of the input: the part after the leading whitespace, cut to the trimmed length |
| `Text.Decimal` | server.js:56 | a status rendered in a template literal is decimal digits with no leading zero, and they denote the status |
| `UriComponent.EncodeURIComponent` | server.js:49 | the encoded term consists of unreserved characters and `%` only, so it holds no `&`, `=`, `?`, `#` or space |
| `UriComponent.EncodeUnreservedIdentity` | src/App.js:26 | a term made only of unreserved characters is sent as it is |
| `UriComponent.DecodeEncode` | server.js:49 | `decodeURIComponent(encodeURIComponent(s)) == s` for every string |
| `UriComponent.EncodeInjective` | src/App.js:26 | two different terms never produce the same encoded term |
| `QueryString.QueryOfBuiltUrl` | server.js:49 | a URL built as `base?p1&p2&...` reads back as exactly those parameters when no parameter holds `&` or `#` |
| `App.SearchUrl` | src/App.js:24-26 | the page's URL is the endpoint, `?`, then `term=<encoded term>`, `media=<type>` unless the type is `all`, and `limit=20`, joined by `&` |
| `App.SearchUrlParameters` | src/App.js:24-26 | the page's URL reads back as `term=<encoded term>`, then `media=<type>` exactly when the type is not `all`, then `limit=20`; the term decodes to the typed term |
| `App.SearchPage.constructor` | src/App.js:6-11 | the initial state: empty term, type `all`, no results, no favourites, no error, not loading |
| `App.SearchPage.SetSearchTerm` | src/App.js:78 | only the search term changes |
| `App.SearchPage.SetMediaType` | src/App.js:86 | only the media type changes |
| `App.SearchPage.HandleSearch` | src/App.js:16-42 | a term whose `trim()` is empty issues no request and changes nothing; otherwise the request goes to the page's URL and the page ends settled on the catalogue's answer to that URL |
| `App.SearchPage.TakeAnswer` | src/App.js:20-41 | after the request, `loading` is false; an OK answer clears `error` and sets `results` to `data.results`, or to `[]` when that is absent; a non-OK answer sets `error` to `Failed to fetch search results` and `results` to `[]`; a thrown error sets `error` to its message and `results` to `[]`; term, media type and favourites are untouched |
| `App.SearchPage.ToggleFavorite` | src/App.js:44-52 | the favourites become the toggled list, the item's favourite status flips, unique keys are kept and no other state changes |
| `JsonValue.ErrorBody` | server.js:35 | the body's `error` field holds the message |
| `JsonValue.ErrorBodyWithDetails` | server.js:64-67 | the body's `error` and `details` fields hold the two messages |
| `Server.ExtractToken` | server.js:27-28 | a token never contains a space, and a missing header gives no token |
| `Server.TokenIsSecondWord` | server.js:27-28 | the token is the word after the first space, whatever the first word is |
| `Server.DoubleSpaceLosesToken` | server.js:28-35 | two spaces after the scheme leave an empty token, which the gate treats as missing |
| `Server.OneWordHasNoToken` | server.js:28-35 | a header with no second word carries no token |
| `Server.AuthenticateToken` | server.js:26-42 | in development it calls `next()` whatever the header; otherwise a missing token gives 401 `Access denied`, a failed verification 403 `Invalid token`, and a verified token sets `req.user` to the claims and calls `next()` |
| `Server.MediaOrDefault` | server.js:49 | a present, non-empty media value is used as given; an absent or empty one gives `music` |
| `Server.SearchUrl` | server.js:49 | the upstream URL is the endpoint, `?`, then `term=<encoded term>`, `media=<media or music>` and `limit=25`, joined by `&` |
| `Server.SearchUrlParameters` | server.js:49 | when the media value (or its `music` default) holds no `&` or `#`, the upstream URL reads back as `term=<encoded term>`, `media=<media or music>`, `limit=25`; the term decodes to the received term |
| `Server.MediaCanAddParameters` | server.js:46-49 | a media value containing `&` adds parameters of its own to the upstream request, ahead of the server's limit |
| `Server.StatusMessage` | server.js:55-56 | the non-OK error message is the fixed prefix followed by the status in decimal |
| `Server.SearchHandler` | server.js:45-69 | a missing or empty term gives 400 `Search term is required` and no upstream call; otherwise it calls the upstream URL; a non-OK status, a thrown fetch or a parse failure gives 500 `Failed to fetch data` with the message as `details`; success returns the parsed body unchanged with 200 |
| `Server.ErrorHandler` | server.js:82-88 | any error reaching the last middleware becomes 500 `Something broke!` with the error's message as `details` |
| `Server.ServeSearch` | server.js:45 | outside development, nothing is fetched unless the token verified; nothing is fetched without a term; every reply is 200 or an error envelope with status 400, 401, 403 or 500 |

## Left out

- The JSX rendering of `src/App.js` and the presentation components under `src/components/`. They only display values.
- `formatDate`. It depends on `Date` parsing and locale formatting.
- `fetch`, `response.json()` and the network. They are given to the model as functions from URL to outcome.
- `jwt.verify` and the signing secret. Verification is a function from token to claims or failure, fixed for the run.
- Token issuing: `server.js` has no login route.
- Express wiring: CORS, static files, `/health`, the catch-all route and `listen`. These are plumbing.
- The `console.log` and `console.error` calls. They only log.
- Interleaving of React state updates. `HandleSearch` is one sequential step, and the intermediate `loading == true` state is not observable in the model.
- Query values that Express parses as arrays or objects (`?term=a&term=b`). `term` and `media` are either absent or strings. How Express decodes the incoming URL into those strings is not modelled.
- The `URIError` that `encodeURIComponent` throws on a lone UTF-16 surrogate. Dafny strings hold Unicode scalar values, so such a term cannot arise. In the server that throw would escape the handler's `try`.
- A truthy `data.results` that is not an array. The page's outcome carries a list or nothing.
- JSON numbers are integers. Floating point is not modelled.
- Node's handling of repeated `Authorization` headers.
- Server.ErrorHandler: modelled on its own. No path in the model throws past a handler, so it is not wired into `ServeSearch`.
- Server.ServeSearch: states what every reply has in common and when an upstream call can happen. The exact reply is the one that `AuthenticateToken` and `SearchHandler` state.
