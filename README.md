# Notion database browser: property renderer, views and OAuth session

This project models two parts of a small web application that browses a
Notion workspace, and proves properties of each.

The first part is the browser side (`public/app.js`):

- `parsePropertyValue` turns a Notion property value into the text shown in a cell or card. Every type tag it knows is a constructor of `Properties.Prop`, with one more constructor for a null value and one for an unknown tag. `Properties.Render` is the renderer. In the files case it uses the corrected file label of the Findings table, so the table and gallery views built on it model the corrected program.
- The table view collects the union of property keys in order of first appearance. It then fills one cell per column in every row (`Table`).
- The gallery view builds one card per row (`Gallery`). Each card has the first `title` property as its heading, the first image source, and every other property whose rendering is truthy.
- The data view starts as a table, and each click on the toggle flips it between table and gallery (`DataView.DataViewer`).

The loops of the source are methods with loop invariants. Each is proved equal to a specification function, and lemmas state the properties of those functions. JavaScript truthiness is modelled exactly. `parsePropertyValue` returns a number for a number property, so `Properties.Display` is a string or a number, and both `''` and `0` are falsy.

The second part is the server side (`server.js`): the OAuth 2.0 authorization-code grant (section 4.1 of RFC 6749) with PKCE (RFC 7636).

- `OAuth.Session` is the per-browser session record.
- `OAuth.Server` holds the client credentials and has one method per handler: `/auth/notion`, `/auth/notion/callback`, `/logout`, and the `ensureAuthenticated` gate.
- `OAuth.Server.Valid` is the session invariant, preserved by every handler:
  - a stored verifier is a valid RFC 7636 verifier;
  - the last challenge sent is that verifier's S256 challenge;
  - the token fields are set together, and only by a grant.
- The verifier is the lower-case hex text of 64 random bytes. The challenge is the base64url text (section 5 of RFC 4648, no padding) of the SHA-256 digest of the verifier.
- Hex and base64url are defined in full, with round-trip lemmas. The random bytes, the SHA-256 function and the token endpoint are parameters.

The code differs from an idealised login flow in three places, and the model follows the code:

- The callback does not clear the stored verifier after a successful exchange.
- A failed exchange leaves an earlier access token in place.
- The `state` value sent with the authorization request is never checked: `OAuth.Server.Callback` takes no state at all.

## Model

| member | source | states |
|---|---|---|
| Common.JoinAppend | public/app.js:306-307 | `join` of two non-empty lists is the two joins with one separator between them |
| Common.JoinNoSeparator | public/app.js:298-301 | `join('')` is the in-order concatenation of the parts |
| Common.JoinEmptyIff | public/app.js:306-307 | with a non-empty separator, `join` gives '' iff the list is empty or holds one empty string |
| Common.JoinLength | public/app.js:306-307 | the length of a join is the parts' total length plus one separator per gap |
| Properties.ToText | public/app.js:189-190 | a rendered value becomes '' as text iff it is the empty string (a number never does) |
| Properties.Render | public/app.js:290-341 | a null property and an unknown type render as ''; a checkbox is never falsy; only a (possibly wrapped) number renders as a number |
| Properties.RenderFalsyIff | public/app.js:290-341 | for every property: renders '' iff `RendersEmpty`, renders 0 iff `RendersZero`, and is falsy iff one of them holds (independent case-by-case definitions) |
| Properties.UnwrapTransparent | public/app.js:324-330 | a formula renders as its nested value and a rollup without array as the rollup value, at any depth |
| Properties.NumberPassesThrough | public/app.js:302-303 | a property renders as the number n iff, unwrapped, it is a number property holding n |
| Properties.TextRendering | public/app.js:298-301 | title and rich_text render as the concatenation of the parts' plain text, '' for no parts |
| Properties.ListRendering | public/app.js:306-307 | multi_select, people and relation render their names or ids joined by ", " in list order (split at any point) |
| Properties.ListRenderingLength | public/app.js:306-307 | a multi_select renders to the names' total length plus two characters per separator |
| Properties.FilesRendering | public/app.js:333-334 | files render their labels joined by ", " in list order |
| Properties.FileLabelAsWritten | public/app.js:334 | the label as written (the name, else `file.external.url`): it throws exactly for an unnamed hosted file |
| Properties.UnnamedHostedFileThrows | public/app.js:334 | an unnamed hosted file makes the files case throw |
| Properties.FileLabel | public/app.js:334 | the label is the name, else the file's URL; it agrees with the as-written label wherever that one is defined |
| Properties.RollupArrayRendering | public/app.js:326-328 | a rollup array keeps item order: a concatenated array renders as the two renderings with one separator |
| Properties.DateRendering | public/app.js:308-315 | a date's text is empty iff it has no start; it starts with the start; with an end too it is the start, then `" - "`, then the end; without an end it is the start alone |
| Table.Lookup | public/app.js:188 | a key no entry has gives undefined (`Missing`) |
| Table.LookupFinds | public/app.js:188 | with distinct keys, looking up the key at a position gives the value at that position |
| Table.AllKeysMembers | public/app.js:158-163 | a key is visited by the nested loops iff some row has it |
| Table.DedupMembers | public/app.js:158-164 | reading back the `Set` keeps exactly the keys that were added |
| Table.DedupDistinct | public/app.js:158-164 | reading back the `Set` yields no key twice |
| Table.DedupFirstAppearance | public/app.js:158-164 | reading back the `Set` lists keys in order of first insertion |
| Table.ColumnsProperties | public/app.js:158-164 | the columns are every key of every row exactly once and nothing else, in order of first appearance |
| Table.CollectColumns | public/app.js:158-164 | the nested `forEach` loops compute exactly `Columns(rows)` |
| Table.CellsOf | public/app.js:184-192 | one row of cells per row, one cell per column |
| Table.CellMeaning | public/app.js:184-192 | a row without the column's key gets ''; a row with it gets the rendering of its value |
| Table.BuildRow | public/app.js:184-192 | the loop over the columns computes exactly one row of `CellsOf`: each column's rendered value, in column order |
| Table.BuildCells | public/app.js:180-194 | the loop over the rows computes exactly `CellsOf(rows, columns)` |
| Table.RenderTableView | public/app.js:138-198 | no data iff there are no rows; otherwise the computed columns and cells |
| Gallery.FirstTitle | public/app.js:221-228 | the position of the first property of type title, or none iff there is none |
| Gallery.FindTitle | public/app.js:221-228 | the title loop with `break` finds exactly `FirstTitle` |
| Gallery.TitleText | public/app.js:231-232 | the heading is never empty: the first title property's rendering when that is truthy, and "Senza titolo" when there is no title property or its rendering is falsy |
| Gallery.FirstImageSource | public/app.js:236-248 | the first non-empty files list or non-empty url property, or none iff there is none |
| Gallery.FindImageUrl | public/app.js:236-248 | the image loop with `break` finds exactly `ImageUrl` |
| Gallery.CardImage | public/app.js:250-257 | a card shows an image iff some property is an image source and the first one yields a non-empty URL, and then exactly that URL; a later source is never used |
| Gallery.KeptIndicesSpec | public/app.js:268-278 | the kept positions are exactly the non-title positions with truthy rendering, ascending |
| Gallery.ContentMeaning | public/app.js:268-278 | the content lists exactly the non-title properties with truthy rendering, in key order, each with its name and text |
| Gallery.ContentSkipsFalsy | public/app.js:269-272 | a non-title property is left out of the content iff it renders '' or 0 |
| Gallery.CollectContent | public/app.js:268-278 | the content loop computes exactly `ContentOf` |
| Gallery.BuildCard | public/app.js:215-284 | the card's heading, image and content are those of `CardOf` |
| Gallery.RenderGalleryView | public/app.js:201-287 | no data iff there are no rows; otherwise one card per row, in order |
| DataView.Flip | public/app.js:128 | a click always changes the view |
| DataView.FlipTwice | public/app.js:128 | two clicks restore the view |
| DataView.DataViewer.constructor | public/app.js:117-118 | the data view starts as the table of the rows |
| DataView.DataViewer.Toggle | public/app.js:127-134 | a click flips the view and draws the screen for the new view; the view is the table iff the number of clicks is even |
| DataView.ToggleTwice | public/app.js:127-134 | the first click shows the gallery, the second the table again |
| Pkce.Hex | server.js:21 | hex text is two lower-case hex digits per byte |
| Pkce.HexRoundTrip | server.js:21 | hex text decodes back to the bytes |
| Pkce.HexInjective | server.js:21 | different bytes give different hex text |
| Pkce.CodeVerifier | server.js:20-22 | the verifier of 64 random bytes has 128 lower-case hex characters and is valid under section 4.1 of RFC 7636 |
| Pkce.VerifierIsAscii | server.js:20-22 | the verifier is ASCII, so its S256 challenge is defined |
| Pkce.Base64Url | server.js:27 | base64url text without padding: ceil(4n/3) characters from the url-safe alphabet |
| Pkce.Base64UrlRoundTrip | server.js:27 | base64url text decodes back to the bytes |
| Pkce.CodeChallenge | server.js:25-28 | the S256 challenge is 43 url-safe characters |
| Pkce.ChallengeDeterminedByDigest | server.js:25-28 | two verifiers have the same challenge iff their digests are equal |
| OAuth.AuthorizeQuery | server.js:38-46 | the authorization request carries the client id, response_type code, the callback redirect URI, scope email, the challenge, method S256 and the state |
| OAuth.Session.constructor | server.js:13-17 | a new session holds no verifier, token or workspace |
| OAuth.Server.StartAuthorization | server.js:31-49 | stores the verifier of the fresh bytes, replacing any earlier one, and redirects with exactly its S256 challenge and the hex state; token fields unchanged; invariant kept |
| OAuth.Server.Callback | server.js:52-88 | without code or stored verifier: 400, no token request, session unchanged; otherwise one authorization-code request with the code, the redirect URI, the stored verifier and the client credentials; grant: token fields set from it and redirect to '/'; failure: 500 and token fields unchanged; invariant kept |
| OAuth.Server.Logout | server.js:91-95 | every session field is cleared and the response redirects to '/' |
| OAuth.Server.EnsureAuthenticated | server.js:98-103 | passes iff the access token is truthy; otherwise 401 with error "Non autenticato" |
| OAuth.SignInAndOut | server.js:31-103 | a new session is refused; an early callback gets 400 and sends nothing; the token request carries the verifier whose challenge was sent (method S256) and the same redirect URI; then the gate admits, and after logout it refuses |
| OAuth.SupersededAuthorization | server.js:32-36 | after two authorization requests the second verifier is sent; a provider shown the first challenge refuses unless the challenges coincide, and the session stays unauthenticated |

## Left out

- DOM construction, `innerHTML`, event listeners, `fetch`, `sessionStorage` and console logging are not modelled. The views produce values (`TableView`, `GalleryView`, `Screen`) instead of elements, and the image's `alt` text is not modelled.
- Properties.Render: number values are integers. JavaScript's formatting of non-integral numbers is not modelled.
- Properties.ToText: an integer is written in plain decimal. That is what `String(n)` writes only for safe integers (magnitude at most 2^53 - 1). Larger integers are not exact in JavaScript, and from 10^21 up it writes exponent notation ("1e+21"); neither is modelled.
- Properties.Render: the files case uses the corrected `FileLabel`, so an unnamed hosted file renders as its URL, where public/app.js:334 throws (see Findings). `Properties.FileLabelAsWritten` models the throwing label.
- Properties.Render: a rollup whose value is null (`Rollup(ValueRollup(Missing))`) renders as '', where public/app.js:327 throws on `property.rollup.array`. The throw is not modelled.
- Properties.Render: a `number` field that is undefined rather than null is not modelled. The source returns `undefined` there.
- Properties.Render: names, ids and plain text that the API leaves undefined are modelled as strings (`join` writes `undefined` as '').
- Table.RenderTableView: the `!Array.isArray(data)` check and `data.results || data` (public/app.js:100) are not modelled; the rows arrive as a sequence.
- Gallery.FindTitle: requires the values the title loop reads to be present: every value before the first title property, or every value when there is none. The source throws a TypeError on `.type` of a null value it reaches, and the throw is not modelled.
- Gallery.FindImageUrl: requires the values the image loop reads to be present: every value before the first image source, or every value when there is none (same TypeError, not modelled).
- Gallery.BuildCard: requires the values both search loops read to be present (same TypeError). Null values that neither loop reaches are allowed; the content loop renders them as ''.
- Gallery.RenderGalleryView: requires the values both search loops read to be present in every row (same TypeError).
- DataView.DataViewer.Toggle: a click that draws the gallery requires the values both search loops read to be present in every row. Otherwise the source flips `currentView` and then throws during the redraw; that outcome is not modelled. A click that draws the table requires nothing.
- DataView.ToggleTwice: requires the values both search loops read to be present in every row, because its first click draws the gallery (same TypeError).
- Gallery.CollectContent: `!== titleProperty` compares objects by identity. It is modelled by position, which agrees because parsed JSON never shares one object between two keys.
- Pkce.CodeChallenge: SHA-256 is a parameter of type `seq<Byte> -> Digest` rather than the real hash. The only facts used about it are that it is a function and yields 32 bytes.
- OAuth.Server.StartAuthorization: `crypto.randomBytes` becomes the byte-sequence parameters. `URLSearchParams` percent-encoding is not modelled; the query is a list of name/value pairs.
- OAuth.Server.Callback: the axios POST is a function parameter from the request to its outcome (a grant with three strings, or a failure). Token responses that omit a field are not modelled, and neither is a `code` query value that is an array.
- OAuth.Server.Logout: express-session cookies, session ids and the `destroy` callback are not modelled. Destroying the session is modelled as emptying the record the next request sees.
- The `/api/databases` routes and the Notion client calls (server.js:106-132) are network I/O and are not modelled. Neither are Express routing, static files and `listen`.
- Concurrent requests on one session are not modelled; the model is sequential.

## Findings

| source | as written | input that shows it | evidently intended | confidence | as-written member | corrected member |
|---|---|---|---|---|---|---|
| public/app.js:334 | the label falls back to `file.external.url` for every unnamed file | a `files` entry hosted by the workspace (type "file") with an empty name, e.g. `Hosted("", "https://files.example/a.png")`: `file.external` is undefined and the renderer throws | fall back to the file's own URL (`file.file.url` for a hosted file), as the image search does at public/app.js:242 | not executed | Properties.UnnamedHostedFileThrows | Properties.FileLabel |
