# Listomania core, modelled in Dafny

Listomania is a web application for ranked album lists ("best albums of
1977", "all time"...). This project models the logic at its core and proves
properties of it:

- the Discogs client (`lib/discogs.ts`). This covers:
  - the 1.1-second rate limiter;
  - the retry loop with exponential backoff on HTTP 429;
  - the three-tier search by artist and title, and the general search;
  - master and release details, and the dispatch between them;
  - the store-or-catalogue album lookup;
  - the title and artist-name helpers.
- the album-list period (`lib/periods.ts`): its text form, the parser that
  reads that text back, and the years offered in the selector;
- the period selector component (`components/period-selector.tsx`): its
  initial state, its handlers and the text it emits;
- the request guard (`proxy.ts`) that redirects to sign-in or to the lists;
- the routes:
  - the administrator's user list and role change (`app/api/admin/users/route.ts`);
  - the profile update (`app/api/user/profile/route.ts`);
  - the Discogs preview (`app/api/admin/albums/preview-discogs/route.ts`);
  - the full JSON list import with its per-row album reconciliation
    (`app/api/lists/import-full/route.ts`);
- the sign-up form's checks and submit handler (`app/auth/signup/page.tsx`);
- the `pluralize` and `showNotification` helpers (`lib/utils/helpers.ts`).

The files:

- `wrappers.dfy`: `Option` and `Result`.
- `js.dfy`: the JavaScript semantics the code relies on. This covers:
  - `trim`, `split`, `startsWith`, `includes` and `indexOf`;
  - number-to-text conversion;
  - `parseInt` with its sign, hex prefix and NaN;
  - truthiness and `||` on optional strings and numbers.
- `http.dfy`: route answers and their status codes.
- `discogs.dfy`, `periods.dfy`, `period_selector.dfy`, `proxy.dfy`,
  `admin_users.dfy`, `user_profile.dfy`, `preview_discogs.dfy`,
  `signup.dfy`, `helpers.dfy`, `import_full.dfy`: one module per source file.

The modelling choices:

- Code that changes state step by step is imperative Dafny:
  - the rate limiter's `lastRequestTime` and the retry loop;
  - `getYearRange`'s loop;
  - the selector's React state;
  - the sign-up page state;
  - the import loop over the database.
  Each such method is proved equal to a specification function, and the
  properties are proved about that function.
- The rest is functions and lemmas.
- I/O becomes parameters:
  - the network is a function from an attempt number to a status or a failed `fetch`, or from a request to an answer;
  - the clock is a function from an attempt number to a time;
  - the late wake-up of a timer is a function from an attempt number to a delay;
  - the Discogs token is a string, empty when it is not set;
  - the session is an `Option`;
  - database tables are maps and sequences.

## Model

| member | source | states |
|---|---|---|
| Js.Split | lib/periods.ts:31 | `split` on a non-empty separator: at least one piece, two or more exactly when the separator occurs, and the first piece is the text before its first occurrence (the whole text when it does not occur) |
| Js.JoinSplit | lib/discogs.ts:348-349 | joining the pieces of a split with the separator restores the original string |
| Js.ParseInt | lib/periods.ts:31-37 | `parseInt`: a string of decimal digits reads as the number it writes |
| Js.ParseIntToString | lib/periods.ts:31-39 | `parseInt` reads the decimal text of any integer back as that integer |
| Js.ParseIntNaN | lib/periods.ts:37-42 | a text that does not start with white space, a sign or a digit is NaN for `parseInt` |
| Js.Trim | lib/discogs.ts:355 | `trim` leaves no white space at either end, and removes the leading white space before the trailing white space |
| Js.OrString | lib/discogs.ts:230 | `a \|\| b` on strings: `a` when non-empty, otherwise `b` |
| Js.OrInt | lib/periods.ts:50 | `a \|\| b` on numbers: `a` when non-zero, otherwise `b` |
| Discogs.ExtractArtistFromTitle | lib/discogs.ts:341-344 | the text before the first " - ", or "Unknown Artist" when there is none |
| Discogs.ExtractAlbumTitle | lib/discogs.ts:347-350 | everything after the first " - ", keeping any later separators, or the whole title when there is none |
| Discogs.ArtistAlbumRoundTrip | lib/discogs.ts:341-350 | artist + " - " + album gives the original title back |
| Discogs.ArtistHasNoSeparator | lib/discogs.ts:341-344 | the extracted artist never contains " - " |
| Discogs.SpacesBefore | lib/discogs.ts:355 | `\s*` matched backwards: everything from the result to the given end is white space, and the character before it is not |
| Discogs.DigitsBefore | lib/discogs.ts:355 | `\d*` matched backwards: everything from the result to the given end is a digit, and the character before it is not |
| Discogs.SpacesBeforeAt | lib/discogs.ts:355 | any white-space run preceded by a non-space is exactly the run `\s*` finds |
| Discogs.DigitsBeforeAt | lib/discogs.ts:355 | any digit run preceded by a non-digit is exactly the run `\d+` finds |
| Discogs.NumericSuffixStart | lib/discogs.ts:355 | a match of the pattern starts inside the name |
| Discogs.CleanArtistName | lib/discogs.ts:353-356 | the cleaned name has no white space at either end |
| Discogs.NumericSuffixSound | lib/discogs.ts:355 | where the pattern matches, what follows is white space, "(digits)", white space and the end; the match starts at a non-space or at index 0 |
| Discogs.NumericSuffixComplete | lib/discogs.ts:355 | whenever the name ends in such a group, the pattern matches, starting where the white space in front of the group begins, so no later than the group and with only white space in between |
| Discogs.CleanKeepsOtherNames | lib/discogs.ts:353-356 | a name with no trailing numeric group is only trimmed |
| Discogs.CleanDropsNumericGroup | lib/discogs.ts:353-356 | a name ending in a numeric group loses it and the white space before it, then is trimmed |
| Discogs.CleanDropsDisambiguation | lib/discogs.ts:353-356 | "Mike Davis (2)" becomes "Mike Davis": `x (digits)` cleans to `trim(x)` |
| Discogs.CleanDropsLastGroupOnly | lib/discogs.ts:353-356 | only the last of two numeric groups is removed: `x (d) (e)` cleans to `trim(x (d))` |
| Discogs.CleanNotIdempotent | lib/discogs.ts:353-356 | cleaning is not idempotent: for a trimmed non-empty `x`, `x (d) (e)` cleans to `x (d)`, and cleaning that again gives `x`, a different name |
| Discogs.RateLimitWait | lib/discogs.ts:26-34 | the wait brings the next request to at least 1100 ms after the last one, is exactly what is missing, and is at most 1100 ms unless the clock went back |
| Discogs.RateLimiter.constructor | lib/discogs.ts:22-23 | no request made yet, `lastRequestTime` 0 |
| Discogs.RateLimiter.WaitForRateLimit | lib/discogs.ts:26-36 | waits as `RateLimitWait` says, then records the wake-up time; request starts stay 1100 ms apart (`Valid`) |
| Discogs.RateLimiter.FetchWithRetry | lib/discogs.ts:39-64 | the loop makes the fetches and backoff waits `RetryFrom` describes; its outcome is that run's outcome; each fetch is rate limited |
| Discogs.Backoff | lib/discogs.ts:54 | the wait before retry `r` is min(5000·2^(r-1), 30000), between 5000 and 30000 |
| Discogs.BackoffGrows | lib/discogs.ts:54 | each retry waits twice as long as the one before, up to the 30000 cap, and never less |
| Discogs.DefaultBackoffs | lib/discogs.ts:39-54 | with 3 retries the waits are 5000, 10000, 20000; from retry 4 on they are capped at 30000 |
| Discogs.PowMonotone | lib/discogs.ts:54 | the power of two grows with the exponent |
| Discogs.BackoffSchedule | lib/discogs.ts:53-56 | the waits before retries 1..n, in order |
| Discogs.RetryFrom | lib/discogs.ts:41-63 | the loop from a given retry count: while retries remain, between 1 and the remaining number of fetches, one backoff fewer than fetches, and the final throw is not reached |
| Discogs.RetryFromSpec | lib/discogs.ts:39-64 | from any retry count, the run's fetches, backoffs and outcome follow the answers: the 429s are retried, a failed `fetch` propagates at once, the first other response is returned |
| Discogs.RetrySpec | lib/discogs.ts:39-64 | 1 to maxRetries+1 fetches, one backoff fewer than fetches; "rate limit exceeded" exactly when every fetch got 429; otherwise the first non-429 response is returned unchanged, or the first failed `fetch` ends the call with its error; every earlier answer was 429; the final throw is never reached |
| Discogs.ErrorText | lib/discogs.ts:39-87 | the message of a failed request: "Erreur Discogs API: " followed by a status that reads back as the response's status; "Rate limit dépassé après 3 tentatives" after the retries; a failed `fetch`'s own message |
| Discogs.DetailsArtist | lib/discogs.ts:230-235 | the first credited artist's name when non-empty, otherwise the title's artist part, then cleaned |
| Discogs.DetailsArtistId | lib/discogs.ts:236 | present exactly when the first artist has an id, and reads back as that id |
| Discogs.AlbumFromMaster | lib/discogs.ts:271-280 | a master: id, title, year and artist from the payload; cover is the first image's `uri`, else its `resource_url` |
| Discogs.AlbumFromRelease | lib/discogs.ts:230-239 | a release: the cover is the first image's `uri`, else the payload's `thumb` |
| Discogs.FetchDetails | lib/discogs.ts:205-287 | no token fails before any request; otherwise one request to the kind's endpoint; success exactly on a 2xx answer, built from the body; otherwise the error is `ErrorText` of the answer |
| Discogs.GetDiscogsDetails | lib/discogs.ts:289-311 | no token fails with no request; otherwise one or two requests, the first to the release endpoint only when 'release' is asked; two only without a type, master then release; a success comes from an ok answer of the last endpoint asked |
| Discogs.GetDiscogsDetailsDispatch | lib/discogs.ts:290-311 | 'master' asks only the master endpoint and 'release' only the release endpoint; no type asks master, then release only when master failed, and returns the release result |
| Discogs.GetDiscogsDetailsFails | lib/discogs.ts:290-311 | with no type, the lookup fails exactly when the token is missing or both endpoints fail |
| Discogs.HitYear | lib/discogs.ts:95 | a search hit's year: `parseInt` of a non-empty year, otherwise absent |
| Discogs.AlbumFromHit | lib/discogs.ts:91-98 | a search hit: artist and album from the " - " title; cover is `cover_image`, else `thumb` |
| Discogs.AlbumsFromHits | lib/discogs.ts:91-99 | one album per hit, in order |
| Discogs.SearchAlbums | lib/discogs.ts:66-103 | no token fails with no request; otherwise one general query; success exactly on a 2xx answer with results; a failed answer gives its `ErrorText`, and missing results the error of calling `map` on `undefined` |
| Discogs.SearchByArtistAndTitle | lib/discogs.ts:105-203 | no token fails with no request; otherwise one to three queries, the first for masters; a failed master search ends it with that answer's error; a success comes from an ok answer of the last query |
| Discogs.SearchTiers | lib/discogs.ts:105-203 | masters first; releases only when no master matched; the general search "artist title" only when neither did; at most three queries |
| Discogs.SearchOneTier | lib/discogs.ts:140-194 | every album returned comes from a single tier and carries that tier's kind (none for the general search) |
| Discogs.KindOf | lib/discogs.ts:336-337 | 'master' and 'release' select that endpoint; anything else takes the master-then-release path |
| Discogs.GetAlbumDetails | lib/discogs.ts:313-338 | an unknown id fails with "Album non trouvé"; an answer made with no request is the stored album's id and title; a request is made only for a stored album and with a token |
| Discogs.GetAlbumDetailsShortCircuit | lib/discogs.ts:314-338 | an unknown id fails with "Album non trouvé"; a stored album with a cover and an artist id is returned as stored with no request; otherwise it is looked up with its stored kind |
| Periods.YearText | lib/periods.ts:18 | a template literal shows a year's digits, or "undefined" when there is none |
| Periods.FormatPeriod | lib/periods.ts:10-21 | all time is "Tous les temps"; a single year is its digits ("" without a year) and reads back as that year; a range is "start-end" |
| Periods.ParsePeriod | lib/periods.ts:23-43 | "" is no period; a range needs a dash and two integer pieces; a single year is the integer the text starts with; anything else is no period |
| Periods.ParseFormat | lib/periods.ts:10-43 | round trip: parsing a formatted period gives it back, for all time, any single year, and a range of non-negative years |
| Periods.ParseSingleYear | lib/periods.ts:30-40 | a written single year, negative ones included, reads back as itself |
| Periods.ParseRange | lib/periods.ts:30-35 | "a-b" for non-negative a and b reads back as that range |
| Periods.ParsePieces | lib/periods.ts:30-35 | only the first two dash-separated pieces count; any further pieces are ignored |
| Periods.ParseRejectsText | lib/periods.ts:37-42 | a text with no dash that does not start with a sign, digit or white space ("Custom Period") is no period |
| Periods.GetYearRange | lib/periods.ts:49-56 | the years from the end year (the current year when missing or 0) down to the start year (1950 when missing), strictly descending, none when the end is before the start |
| Periods.YearsCover | lib/periods.ts:49-56 | a year is offered exactly when it lies between the start and the end year |
| PeriodSelectors.InitialState | components/period-selector.tsx:15-18 | the parsed kind, or single year when the text does not parse; a missing or zero year becomes the current year |
| PeriodSelectors.PeriodText | components/period-selector.tsx:20-33 | the text emitted for each kind |
| PeriodSelectors.ReopenRestores | components/period-selector.tsx:15-36 | reopening a selector on the text it emitted restores its kind and the years that text carries |
| PeriodSelectors.PeriodSelector.constructor | components/period-selector.tsx:12-18 | the years offered run from the current year down to 1950; the state is `InitialState` |
| PeriodSelectors.PeriodSelector.SetPeriodType | components/period-selector.tsx:47-69 | the kind changes and the years stay |
| PeriodSelectors.PeriodSelector.SelectYear | components/period-selector.tsx:89 | the single-year menu sets the start year only |
| PeriodSelectors.PeriodSelector.SelectStartYear | components/period-selector.tsx:110-116 | a start after the end pulls the end up to it; afterwards start <= end |
| PeriodSelectors.PeriodSelector.SelectEndYear | components/period-selector.tsx:133-139 | an end before the start pulls the start down to it; afterwards start <= end |
| PeriodSelectors.RangeChoiceEmitsOrderedRange | components/period-selector.tsx:110-139 | after a range choice the emitted text parses back to the chosen, ordered years |
| Proxy.IsAuthPage | proxy.ts:7 | a sign-in page is exactly a path that begins with "/auth" |
| Proxy.IsProtectedRoute | proxy.ts:10-14 | protected exactly when the path is "/lists", begins with "/lists/new" or "/profile", or contains "/edit" somewhere |
| Proxy.IsProtectedApiRoute | proxy.ts:17-23 | protected exactly for a POST to "/api/lists", a path containing "/edit", "/import", "/export" or "/reorder", or a non-GET request to a path containing "/albums" |
| Proxy.Decide | proxy.ts:25-33 | a redirect only ever goes to "/auth/signin" or "/lists" |
| Proxy.DecideCases | proxy.ts:7-33 | sign-in exactly for an anonymous request to a protected page or call; lists exactly for a signed-in request to an auth page; otherwise the request goes through |
| Proxy.NoRedirectLoop | proxy.ts:25-33 | following a redirect with the same session is not redirected again |
| Proxy.SignInNotProtected | proxy.ts:10-23 | the sign-in page is neither a protected page nor a protected call |
| Proxy.ViewingAListIsPublic | proxy.ts:10-23 | an anonymous GET of someone's list ("/lists/abc") goes through |
| AdminUsers.ListUsers | app/api/admin/users/route.ts:6-49 | 401 without a session, 403 for a non-administrator, otherwise the users |
| AdminUsers.ChangeRole | app/api/admin/users/route.ts:52-112 | a failure leaves the users unchanged; a success changes only the named user's role, to the requested one |
| AdminUsers.ChangeRoleGuards | app/api/admin/users/route.ts:56-85 | 401, then 403, then 400 for missing or unknown fields, then 400 for an administrator demoting themself, checked in this order |
| AdminUsers.ChangeRoleApplies | app/api/admin/users/route.ts:87-104 | a change that passes every check is made to that user alone |
| AdminUsers.AdminKeepsOwnRole | app/api/admin/users/route.ts:79-85 | no request takes the admin role from the administrator who makes it |
| UserProfile.StoredImage | app/api/user/profile/route.ts:53 | the image is stored trimmed, or null when missing or blank |
| UserProfile.UpdateProfile | app/api/user/profile/route.ts:17-78 | a failure changes nothing; a success stores the trimmed name and image on the caller's account only |
| UserProfile.UpdateProfileGuards | app/api/user/profile/route.ts:21-46 | 401 without an e-mail, 400 for invalid data, 400 when another account has the name |
| UserProfile.BlankNameStoredEmpty | app/api/user/profile/route.ts:8-52 | the length rule is checked before trimming, so a name of three spaces is stored as "" |
| UserProfile.UpdateKeepsNamesUnique | app/api/user/profile/route.ts:31-55 | when names were unique, they stay unique after an update |
| PreviewDiscogs.Preview | app/api/admin/albums/preview-discogs/route.ts:6-56 | 403 for everyone but an administrator; a success shows the looked-up album |
| PreviewDiscogs.PreviewGuards | app/api/admin/albums/preview-discogs/route.ts:18-48 | 400 without an id, 400 for a type other than master or release, 400 when the lookup fails |
| PreviewDiscogs.PreviewShowsLookup | app/api/admin/albums/preview-discogs/route.ts:28-41 | a successful lookup is shown with the requested id and type, 'master' when none is given |
| PreviewDiscogs.PreviewReportsMasterByDefault | app/api/admin/albums/preview-discogs/route.ts:28-34 | with no type, the preview says 'master' even when the album came from the release endpoint |
| Signup.FirstFailure | app/auth/signup/page.tsx:31-49 | no failure exactly when every check passes; otherwise the failing check that comes first |
| Signup.BlankNameIsMissing | app/auth/signup/page.tsx:31-34 | a blank name is reported as missing, not as too short |
| Signup.PassingForm | app/auth/signup/page.tsx:31-49 | a form that passes has a trimmed name of at least 3 characters, matching passwords and a password of at least 6 |
| Signup.ErrorAfterRequest | app/auth/signup/page.tsx:66-88 | the error shown after registration: the server's error or the generic one; the sign-in error; none after a full success |
| Signup.SignedUpIffNoError | app/auth/signup/page.tsx:66-88 | the page moves to the lists exactly when no error is shown |
| Signup.SignupPage.HandleSubmit | app/auth/signup/page.tsx:27-91 | a failed check shows its message and sends nothing; otherwise one request is sent with the name as typed, the error is `ErrorAfterRequest`, and "/lists" is pushed only after a full success |
| Helpers.Pluralize | lib/utils/helpers.ts:24-27 | the singular up to 1; above 1, the given plural, or the singular plus "s" |
| Helpers.PluralizeTwoForms | lib/utils/helpers.ts:24-27 | the word depends only on whether the count is above 1 |
| Helpers.ShowNotification | lib/utils/helpers.ts:3-9 | the message and the type, 'info' by default |
| Helpers.NotificationIgnoresDuration | lib/utils/helpers.ts:6-8 | the duration never changes the notification |
| ImportFull.CheckRequest | app/api/lists/import-full/route.ts:11-37 | 401 without a session, 400 without a file, 400 for invalid JSON, 500 for the document `null` (reading its `list` throws), 400 without `list` or an `albums` array |
| ImportFull.NewList | app/api/lists/import-full/route.ts:42-51 | the title defaults to "Liste importée", empty texts become null, `isPublic` defaults to false |
| ImportFull.FromFile | app/api/lists/import-full/route.ts:92-116 | an album built from the file, with empty optional fields stored as null |
| ImportFull.FromDetails | app/api/lists/import-full/route.ts:78-88 | an album from catalogue details: non-empty catalogue fields win, the file fills in the rest, type 'master' |
| ImportFull.Resolve | app/api/lists/import-full/route.ts:66-118 | a stored catalogue id is reused; an unknown one is looked up as a master and created from the details, or from the file when the lookup fails; a row without a catalogue id is created with no type under its own id or a placeholder, and is refused when that id is taken |
| ImportFull.Position | app/api/lists/import-full/route.ts:125 | the rank when non-zero, otherwise the number imported so far |
| ImportFull.ImportRow | app/api/lists/import-full/route.ts:58-133 | an incomplete row adds "Album invalide: données manquantes" and changes nothing else; a refused album adds "Erreur: artist - title"; otherwise one entry is added and the row counts as imported |
| ImportFull.ResolveWithoutLookup | app/api/lists/import-full/route.ts:69-117 | reused rows and rows without a catalogue id do not depend on the catalogue and query nothing |
| ImportFull.RowStep | app/api/lists/import-full/route.ts:58-133 | a row either adds one error and leaves the entries and imported names as they were, or adds one entry for this list at the row's position, naming a stored album, and one imported name |
| ImportFull.ImportRows | app/api/lists/import-full/route.ts:57-133 | the loop over the first n rows: every one of them ends up either imported or in the errors |
| ImportFull.Leading | app/api/lists/import-full/route.ts:57-58 | the rows the loop reaches: all rows up to the first `null` one, whose destructuring throws out of the loop |
| ImportFull.ImportAccounts | app/api/lists/import-full/route.ts:53-134 | imported + errors == rows processed; one entry is added per imported row; earlier entries are kept as a prefix |
| ImportFull.ImportKeepsAlbums | app/api/lists/import-full/route.ts:66-118 | no stored album is replaced or removed; albums stay keyed by their Discogs id |
| ImportFull.RowKeepsAlbums | app/api/lists/import-full/route.ts:66-118 | one row never replaces a stored album |
| ImportFull.ImportEntriesResolve | app/api/lists/import-full/route.ts:120-127 | every entry names a stored album; new entries belong to the new list |
| ImportFull.ImportNumbersInOrder | app/api/lists/import-full/route.ts:125 | with no ranks and no errors, the entries are numbered 0, 1, 2... in file order |
| ImportFull.SummaryMessage | app/api/lists/import-full/route.ts:142 | the answer's message, with ", K erreurs" only when K > 0 |
| ImportFull.SummaryMentionsErrorsOnlyWhenSome | app/api/lists/import-full/route.ts:142 | the message ends in " albums" exactly when there are no errors; otherwise the appended count reads back as the number of errors |
| ImportFull.Database.StoreAlbum | app/api/lists/import-full/route.ts:66-118 | the store after finding or creating the row's album is as `Resolve` says, with the route's lookup of a master |
| ImportFull.Database.ImportOne | app/api/lists/import-full/route.ts:57-134 | one pass of the loop changes the store and the counts as `ImportRow` says |
| ImportFull.Database.ImportAll | app/api/lists/import-full/route.ts:57-134 | the loop imports the rows before the first `null` one, in order, as `ImportRows` says, and leaves the lists alone; it runs to the end exactly when no row is `null` |
| ImportFull.Database.ImportFull | app/api/lists/import-full/route.ts:7-143 | a rejected request changes nothing; otherwise one list is created and the rows before the first `null` one are imported in order as `ImportRows` says; the answer carries the counts and the message, or is 500 when a `null` row stopped the loop, with the list and those rows kept |

## Left out

- HTTP itself is not modelled: request parsing, JSON bodies, headers, caching hints and `NextResponse`. Route answers are `Response` values.
- `console` logging is not modelled.
- Timers are not modelled. Instead, the rate limiter's clock and the late wake-up of a timer are parameters.
- Discogs.RateLimiter: the source keeps `lastRequestTime` in one module-wide variable shared by concurrent requests. The model is sequential, so interleaved requests are not captured.
- The Discogs token comes from `process.env`. The model takes it as a string, with "" meaning not set.
- Catalogue and search endpoints are functions of the request. Their answers carry the outcome of the retry loop, not the loop's individual fetches. `FetchWithRetry` models the loop separately.
- JSON payloads are modelled by the fields the code reads. A field of the wrong JSON type (a number where a string is expected, a non-array `results`) is not modelled, except where a missing or non-array `albums` is checked explicitly.
- Database access (Prisma) is not modelled. Instead:
  - tables are maps and sequences;
  - an import album is keyed by its Discogs id, which is unique in the schema;
  - the generated row ids are not modelled;
  - `orderBy` on the user list and the `_count` of lists are not modelled;
  - an update of a missing row answers 500, as Prisma's exception does.
- The placeholder id `unknown-<Date.now()>-<random>` is a parameter per row. Its uniqueness is not assumed: a taken id makes the album creation fail, as the unique constraint does.
- ImportFull.Database.ImportFull: the outer `catch` (500 "Erreur lors de l'import") is modelled for a `null` document and a `null` row, but not for a failure of the list creation itself; that creation always succeeds here. List entries are always created, since the route checks no duplicate entry.
- `ResultsMissing` is the V8 wording of the error thrown by `data.results.map` on a missing field; other JavaScript engines word it differently.
- Years and counts are integers. A non-integer or NaN year is not modelled.
- `parseInt` of numbers beyond 2^53 loses precision in JavaScript; the model reads them exactly.
- String lengths count characters, not UTF-16 code units.
- Helpers.Pluralize: a fractional count is not modelled.
- `formatDate` (Intl date formatting) and `copyToClipboard` (browser clipboard) in `lib/utils/helpers.ts` are left out, because they only call platform APIs.
- `getCurrentYear` is not modelled; the current year is a parameter.
- React rendering, the selector's menus and the `onChange` callback are not modelled. The emitted text is `PeriodText` of the state.
- The page's `router.refresh()` after navigating is not modelled.
- The proxy `config.matcher`, which limits the paths the guard runs on, is not modelled. The decision is modelled for every path.
- Signup.SignupPage.HandleSubmit: the sign-in call's arguments (e-mail, password, `redirect: false`) are not recorded; only its answer is.
