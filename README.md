# HubSpot landing page duplicator — a verified model

The repository holds two small Express servers in front of the HubSpot REST
API. `index.js` creates a student's landing page by cloning a template page:
it checks that the student's email belongs to a HubSpot user, fetches the
template, builds a creation payload (name, slug, title and the template's
layout fields) and posts it, answering with the new page's editor link.
`assign.js` claims an existing page for a team: it renames the page with a
PATCH and then asks for an `EDIT_CONTENT` grant for the team.

This project models those two request flows, the user lookup, the listing
helpers with their fall-back-to-empty behaviour and the slug and payload
construction. The HTTP client is replaced by a `Client` class whose `log`
field records every remote request in order; what the remote side answers
is a `Server` value that gives, per endpoint, an `Ok(data)` or an
`Err(error)` for each request. The configuration (`HUBSPOT_PORTAL_ID`,
`DEFAULT_TEMPLATE_ID`) is a `Config` value and `Date.now()` is a `nat`
parameter.

Modules:

- `Js` (js.dfy): optional values, JSON values and their truthiness, how a
  template literal renders an unset variable (`undefined`) and a timestamp
  (its decimal numeral), with the numeral's round trip.
- `Slug` (slug.dfy): the JavaScript `\s` character set, `toLowerCase` on
  ASCII letters, `replace(/\s+/g, "-")` and the slugified name.
- `HubSpot` (hubspot.dfy): the entities, the call log entries, the recording
  client, the configuration and the editor link.
- `Index` (index.dfy): `checkUserExists`, `fetchHubSpotTeams`,
  `fetchLandingPageTemplates`, the slug and payload, and the `POST /clone`
  handler of the creation server, as a specification function `CloneRun`
  (the answer and the calls) and a method `Clone` over the client proved
  equal to it.
- `Assign` (assign.dfy): `fetchLandingPages` and the `POST /clone` handler
  of the assignment server, as `AssignRun` and the method `AssignTeam`.

Three behaviours of the code worth noting:

- On a failed template fetch or creation the answer carries the response
  body's `message`, or else the client's own error message, never a fixed
  generic text.
- `fetchLandingPageTemplates` has no `|| []` after `response.data.results`,
  so a body without `results` yields undefined, not an empty list; the model
  returns `None` there.
- The assignment handler's outer `catch` never runs: the inner one catches
  every failure of both calls.

## Model

| member | source | states |
|---|---|---|
| `Js.Truthy` | index.js:742 | the JavaScript falsy values are `undefined`, `null`, `false`, `0` and the empty string; every other value, arrays and objects included, is truthy; assign.js:292 tests form fields the same way |
| `Js.Decimal` | index.js:739 | the timestamp in the slug is a non-empty string of decimal digits without a leading zero |
| `Js.DecimalRoundTrip` | index.js:739 | reading the rendered timestamp back gives the timestamp |
| `Js.DecimalInjective` | index.js:739 | distinct timestamps render as distinct numerals |
| `Slug.IsSpace` | index.js:739 | the characters `\s` matches: tab, line feed, vertical tab, form feed, carriage return, space, U+00A0, U+1680, U+2000 to U+200A, U+2028, U+2029, U+202F, U+205F, U+3000 and U+FEFF |
| `Slug.Lower` | index.js:739 | `toLowerCase` keeps the length, turns each ASCII capital at its position into the matching small letter and keeps every other character in place, so whitespace stays where it was and a string without capitals is unchanged |
| `Slug.Hyphenate` | index.js:739 | `replace(/\s+/g, "-")` leaves no whitespace, does not lengthen the string, and adds no character other than `-` |
| `Slug.Slugify` | index.js:739 | the slugified name has no whitespace and no ASCII capital |
| `Slug.HyphenateWord` | index.js:739 | a stretch without whitespace is copied to the output unchanged and in place |
| `Slug.HyphenateRun` | index.js:739 | every maximal run of whitespace becomes exactly one `-` |
| `Slug.HyphenateNoSpace` | index.js:739 | a string without whitespace is left as it is |
| `Slug.SlugifyIdempotent` | index.js:739 | slugifying a slugified name changes nothing |
| `Slug.SlugifyWithoutSpace` | index.js:739 | a name without whitespace is only lowercased |
| `HubSpot.Client.ListUsers` | index.js:67-74 | one `GET /settings/v3/users` is logged and its reply returned |
| `HubSpot.Client.ListTeams` | index.js:19-26 | one `GET /settings/v3/users/teams` is logged and its reply returned |
| `HubSpot.Client.ListLandingPages` | index.js:45-55 | one `GET /cms/v3/pages/landing-pages` with limit 100 is logged and its reply returned |
| `HubSpot.Client.FetchLandingPage` | index.js:725-732 | one `GET` of the page with the given id is logged and its reply returned |
| `HubSpot.Client.CreateLandingPage` | index.js:749-758 | one `POST` of the payload is logged and its reply returned |
| `HubSpot.Client.UpdateLandingPage` | assign.js:300-312 | one `PATCH` of the page with the given body is logged and its reply returned |
| `HubSpot.Client.GrantTeamPermission` | assign.js:315-326 | one `POST /cms/v3/permissions/teams/{teamId}/content/{pageId}` with the grant body is logged and its reply returned |
| `HubSpot.EditUrl` | index.js:761 | the editor link is `https://app.hubspot.com/pages/`, the portal id (`undefined` when unset), `/edit/` and then the page id; assign.js:328 builds the same link |
| `HubSpot.EditUrlIdentifiesPage` | index.js:761 | within a portal two equal editor links name the same page |
| `HubSpot.ResultsOrEmpty` | index.js:27-30 | `results || []` with the catch: the list when the reply has one, `[]` when `results` is absent or the request failed; assign.js:48-51 is the same |
| `HubSpot.HasDefaultTemplate` | index.js:40 | a default template counts exactly when the variable is set to a truthy string, so an empty value counts as unset |
| `Index.FindUser` | index.js:80 | the index found is that of the first user whose email equals the input exactly; none is found only when no email equals it |
| `Index.UserLookup` | index.js:79-85 | `Found(id)` exactly when the request succeeded with a `results` list holding the email, with the first such user's id; a failed request gives the same `NotFound` as a missing user |
| `Index.CheckUserExists` | index.js:64-86 | one user list request is made and logged; the result is the lookup of the email in its reply |
| `Index.FetchHubSpotTeams` | index.js:17-32 | one teams request is logged; the result is `results`, or `[]` when `results` is absent or the request failed |
| `Index.FetchLandingPageTemplates` | index.js:38-61 | with a default template configured, no request and `[]`; otherwise one listing request, its `results` as returned (possibly undefined), and `[]` on failure |
| `Index.SlugFor` | index.js:739 | the slug matches `^student-<slugified name>-\d+$`, its digits have no leading zero unless the timestamp is 0, and they read the timestamp |
| `Index.SlugDeterminesTimestamp` | index.js:739 | two equal slugs were made at the same millisecond from names with the same slug, whatever the names |
| `Index.LanguageOr` | index.js:742 | the language is the template's when it is truthy and `"en"` otherwise, so the payload's language is never falsy |
| `Index.NewPagePayload` | index.js:737-746 | name is `studentName + " - " + newTitle`, html title is `newTitle`, the slug has the pattern above, with no zero padding, template path, page type, widgets and layout sections are the template's, and the language is the template's when truthy and `"en"` otherwise |
| `Index.ErrorText` | index.js:890 | the failure text is the response body's `message` when it is present and non-empty, otherwise the client's error message |
| `Index.CloneRun` | index.js:650-896 | the user list is asked for first; a missing user gives 400 and no further call; the template is fetched next; a create call happens only after a successful fetch and carries the payload built from it; no update or permission call ever happens; a failure of either call gives 500 with the remote `message` or else the error message; success gives 200 with the editor link of the created page's id |
| `Index.Clone` | index.js:650-896 | the handler's calls are appended to the log exactly as `CloneRun` lists them and its answer is `CloneRun`'s |
| `Index.CloneIgnoresTeamFields` | index.js:651 | `assignToTeam` and `teamId` change neither the calls nor the answer |
| `Index.RepeatedCloneUsesDistinctSlugs` | index.js:737-758 | the same form submitted at two different times posts two payloads with different slugs |
| `Assign.Given` | assign.js:292 | a field passes `!field` exactly when it is present and a truthy string: an absent or empty field fails it, any other passes |
| `Assign.TeamPatch` | assign.js:302-305 | the PATCH body's description is `Team Access Updated` and its name is `Landing Page - Team ` followed by the team id |
| `Assign.FetchLandingPages` | assign.js:35-53 | one listing request is logged; the result is `results`, or `[]` when `results` is absent or the request failed |
| `Assign.AssignRun` | assign.js:289-389 | a missing or empty `pageId` or `teamId` gives 400 and no call; otherwise the PATCH with the team name and description comes first and once, the `EDIT_CONTENT` grant to `teams/{teamId}/content/{pageId}` follows once and only after a successful PATCH; either failure gives 500 with the one grant error text; success gives 200 with the editor link of the submitted page; the outer catch's text never appears |
| `Assign.AssignTeam` | assign.js:289-389 | the handler's calls are appended to the log exactly as `AssignRun` lists them and its answer is `AssignRun`'s |
| `Assign.GrantFailureIsNotRolledBack` | assign.js:298-326 | after an accepted PATCH and a refused grant the answer is 500 and the log holds exactly that PATCH and that grant, no compensating call |
| `Assign.FailureHidesStep` | assign.js:381-384 | a failed PATCH and a failed grant after a good PATCH give the same answer |

`assign.js` repeats `fetchHubSpotTeams` (assign.js:17-32),
`fetchLandingPageTemplates` (assign.js:59-82) and `checkUserExists`
(assign.js:85-107) word for word; `Index.FetchHubSpotTeams`,
`Index.FetchLandingPageTemplates` and `Index.CheckUserExists` model both
copies.

## Left out

- All HTML: the forms, the result and error pages, their styles, the inline
  images and the browser script. The model keeps only the status and the
  data a page shows (email, name, editor link, error text).
- The `GET /` and `GET /assign` routes, which only call the listing helpers
  and render; with them goes the `templates.length` read of an undefined
  template list, which `Index.FetchLandingPageTemplates` does return as
  `None`.
- Express and body-parser set-up, the `GET /` redirect of the assignment
  server, `app.listen`, dotenv and every `console` call: plumbing and logging.
- The HTTP transport, the bearer token and content-type headers, and what
  HubSpot does with a request: the remote side is the `Server` value.
- The remote side answers each request from its arguments alone; answers
  that depend on earlier requests or on timing are not modelled. Each flow
  makes a given request at most once, so this loses nothing inside one flow.
- Slug.Lower: lowercases ASCII capitals only; JavaScript's `toLowerCase`
  also lowercases other scripts, and some characters into two.
- Response bodies of other shapes than the records here: a user email that is
  not a string, a created page without `id`, a `null` template body (which
  would make the handler throw and answer 500), a fractional JSON number
  (`Json.Num` holds integers only), and a response `message` that is not a
  string (`ApiError.responseMessage` holds strings only, though the error page
  would print any truthy value).
- Absent form fields in the creation flow: the form marks them all required;
  an absent `studentName` would throw only after the template fetch.
- Form fields submitted as arrays or objects (body-parser's extended mode);
  the assignment fields are modelled as a string or nothing.
- `Date.now()` is the `now` parameter; concurrent requests share no state and
  are not modelled.
