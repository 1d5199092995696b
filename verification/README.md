# pasiar-next gateway, modelled in Dafny

pasiar-next is a Next.js front end for a WordPress-backed catalogue of cultural heritage
entries (`cagar budaya` and four other content types). Contributors sign in through Supabase.
Its server-side gateway stands between the browser and the CMS: each API route authenticates
the caller, rate-limits, sanitises and validates the payload, renames camelCase form fields into
the CMS's snake_case custom-field names, checks that the caller owns the post, and maps every
outcome to an HTTP status and a JSON envelope. This project models that gateway and proves
properties of the model.

One Dafny module corresponds to each source file of the gateway:

- `RateLimit`, `Cache`, `Validator`, `Responses` and `WpOptimizer` model `src/lib/api-utils.ts`:
  the sliding-window rate limiter, the TTL cache, the required-field check and sanitiser, the
  response builders, the service-token cache and the optimised query builder;
- `Errors` and `Health` model `src/lib/error-handler.ts`: the closed error taxonomy with
  each kind's status, code and retryable flag, the normaliser behind `ErrorHandler.handle` and
  `wrap`, and the bounded error log with its statistics;
- `FormValidation` and `Records` model the validation tables, the key-by-key sanitiser and
  the custom-field builder that the create and update routes share;
- `UpdateRoute`, `CreateRoute`, `DeleteRoute`, `GetOneRoute`, `MyPostsRoute`, `PostsRoute` and
  `SubmitRoute` model the route handlers under `src/app/api/`;
- `PostsApi` models the client-side translation in `src/lib/postsAPI.ts`: the status mapping,
  the query built by `getPosts`, pagination and error messages.

The shared modules are `Wrappers` (`Option`, `Result`), `Text` (the JavaScript string
built-ins the routes use: `trim`, `split`, `join`, `replace`, `includes`, `parseInt`, decimal
printing), `Json` (a JSON value whose objects keep their keys in insertion order, with
assignment, lookup, destructuring and truthiness) and `Http` (requests, upstream calls,
responses and bearer-token extraction).

State the source updates in place is a class: the rate limiter's store (`map` from
`userId:action` to a list of timestamps), the update route's private limiter, the API cache,
the service-token slot and the health monitor's error log. The route handlers that touch that
state are methods; the guard chains of the pure routes are functions. Everything the gateway
learns from outside is a parameter: the clock reading (milliseconds), the identity provider's
answer, the CMS token exchange and each CMS reply. Every handler also returns the list of upstream
calls it would issue, in order, so that "no write before the ownership check passes" is a
proved statement about that list.

Where the code and its documentation differ, the model follows the code:

- the generic posts route forces a contributor's post to `draft`, not `pending`
  (src/app/api/posts/route.ts:115);
- `ErrorHandler.handle` never calls `HealthMonitor.recordError`, so the error log only grows
  through `RecordError` itself;
- the cagar-budaya submission route takes the owner id from the client body's `userId` and
  performs no authentication (src/app/api/submit-cagar-budaya/route.ts:39);
- the create route's maximum-length table is smaller than the update route's (for example,
  it has no limit for `usia_bangunan`), and both apply limits to the keys as the client sent
  them, before the snake_case rename.

## Model

| member | source | states |
|---|---|---|
| RateLimit.ActionName | src/lib/api-utils.ts:42-48 | the five action names (`default`, `create`, `update`, `delete`, `auth`) contain no colon |
| RateLimit.StoreKeyInjective | src/lib/api-utils.ts:53 | two (user, action) pairs never share a `${userId}:${action}` key, whatever the user id holds |
| RateLimit.ColonSuffixInjective | src/lib/api-utils.ts:53 | a key `u:n` with a colon-free suffix determines both `u` and `n` |
| RateLimit.LastColonOf | src/lib/api-utils.ts:53 | the last colon of `u:n` (colon-free `n`) sits right after `u` |
| RateLimit.Live | src/lib/api-utils.ts:58 | the filtered list is no longer than the stored one and holds only stored times with `now - t < window` |
| RateLimit.Admit | src/lib/api-utils.ts:55-66 | a check admits exactly when fewer than `requests` stored times are live; on admission the new list is non-empty, at most `requests` long and ends with `now`; on denial the list is unchanged |
| RateLimit.RateLimiter.constructor | src/lib/api-utils.ts:35 | the store starts empty |
| RateLimit.RateLimiter.Check | src/lib/api-utils.ts:50-67 | the answer is `Admit`'s decision on the key's stored times, and the new store is the old one with only this key's list replaced on admission |
| RateLimit.RateLimiter.RemainingRequests | src/lib/api-utils.ts:69-78 | the result is never above the limit, is positive exactly when a check at the same time would be admitted, and then equals the limit minus the live count |
| RateLimit.UpTo | src/lib/api-utils.ts:58 | the times kept are all at or before `end` |
| RateLimit.LiveTwice | src/lib/api-utils.ts:58 | pruning at `t` and then at a later `now` is the same as pruning at `now` |
| RateLimit.LiveShrinks | src/lib/api-utils.ts:58 | a later `now` never leaves more times live |
| RateLimit.LiveNone | src/lib/api-utils.ts:58 | once the window has passed every stored time, nothing is live |
| RateLimit.ReplayAdmittedBounded | src/lib/api-utils.ts:50-67 | over a run of checks, every admitted time is one of the checked times |
| RateLimit.ReplayLive | src/lib/api-utils.ts:58-65 | over a run of checks in time order, the stored list and the admitted times agree on what is live |
| RateLimit.WindowCap | src/lib/api-utils.ts:42-67 | for any run of checks in time order, no window of `window` ms holds more than `requests` admitted requests |
| RateLimit.WindowCapStep | src/lib/api-utils.ts:60-65 | admitting one more request keeps every window within the limit |
| Cache.Read | src/lib/api-utils.ts:93-103 | `get` returns the data exactly when the key is stored and `now <= expiry`, leaving the store as it was; otherwise it returns null and the key is gone |
| Cache.ReadAfterWrite | src/lib/api-utils.ts:85-103 | after `set` with a time-to-live (default 300000 ms), `get` returns the data exactly until that many ms have passed, and null afterwards |
| Cache.ReadOtherKey | src/lib/api-utils.ts:85-103 | writing one key does not change what any other key reads |
| Cache.ExpiredStaysGone | src/lib/api-utils.ts:97-99 | once a read finds the entry expired, every later read misses too |
| Cache.ApiCache.constructor | src/lib/api-utils.ts:36 | the cache starts empty |
| Cache.ApiCache.Set | src/lib/api-utils.ts:85-91 | the key now holds the data with expiry `now + ttl` (300000 when omitted); the other keys are untouched |
| Cache.ApiCache.Get | src/lib/api-utils.ts:93-103 | the result and the new store are `Read`'s |
| Cache.ApiCache.Delete | src/lib/api-utils.ts:105-107 | only the key is removed |
| Cache.ApiCache.Clear | src/lib/api-utils.ts:109-111 | the store is empty |
| Cache.GenerateKeySplits | src/lib/api-utils.ts:113-115 | with colon-free pieces, splitting the key on `:` gives back the prefix and the parts (no parts reads as one empty part) |
| Cache.GenerateKeyInjective | src/lib/api-utils.ts:113-115 | with colon-free pieces and at least one part, distinct prefixes or parts give distinct keys |
| Validator.ValidateJson | src/lib/api-utils.ts:122-131 | valid exactly for an object (arrays included, as `typeof` reports them); an invalid body carries the fixed error text and a valid one none |
| Validator.MissingFields | src/lib/api-utils.ts:134 | a name is reported exactly when it is required and its value is undefined, null or whitespace only; if every field is missing the list is the required list itself |
| Validator.MissingFieldsConcat | src/lib/api-utils.ts:134 | the filter keeps input order: the missing names of `a + b` are those of `a` followed by those of `b` |
| Validator.MissingFieldsSingle | src/lib/api-utils.ts:134 | a one-name list reports that name exactly when it is missing |
| Validator.ValidateRequiredFields | src/lib/api-utils.ts:133-140 | `isValid` holds exactly when no required field is missing; `missingFields` is absent exactly when valid, and otherwise the non-empty `MissingFields` list, in input order with repeats kept |
| Validator.FindIgnoreCase | src/lib/api-utils.ts:145 | the result is the first position at or after `from` where the pattern matches ignoring case, or none when there is none |
| Validator.RemoveScripts | src/lib/api-utils.ts:145 | removing `<script>` blocks never lengthens the text or adds a character |
| Validator.RemoveTags | src/lib/api-utils.ts:146 | removing `<...>` tags never lengthens the text or adds a character |
| Validator.RemoveTagsNoTags | src/lib/api-utils.ts:146 | after tag removal no `<` is followed later by a `>` |
| Validator.SanitizeString | src/lib/api-utils.ts:142-147 | the result is no longer than the input, uses only its characters, and holds no `<` later followed by `>` |
| Validator.SanitizePlainText | src/lib/api-utils.ts:142-147 | text without `<` is only trimmed |
| Validator.RemoveScriptsPlain | src/lib/api-utils.ts:145 | text without `<` has no script block to remove |
| Validator.RemoveTagsPlain | src/lib/api-utils.ts:146 | text without `<` has no tag to remove |
| Validator.SlugIsPathSafe | src/lib/api-utils.ts:154-157 | an accepted slug holds no `/`, `?`, `#`, `.` or `%`, so it cannot change the upstream path |
| Validator.UndefinedSlugAccepted | src/lib/api-utils.ts:154-157 | a missing slug is accepted, because `RegExp.test` reads it as the text `undefined` |
| Responses.EnvelopeFields | src/lib/api-utils.ts:12-19 | the envelope body carries exactly its `success`, `data`, `message`, `code`, `errors` and `timestamp` members |
| Responses.Success | src/lib/api-utils.ts:164-172 | the status is 200 |
| Responses.SuccessFields | src/lib/api-utils.ts:164-172 | `success` is true, `message` defaults to `Success`, and `data` and `code` are the given ones, with no `errors` |
| Responses.Error | src/lib/api-utils.ts:174-185 | the status is the given one, 500 when omitted |
| Responses.ErrorFields | src/lib/api-utils.ts:174-185 | `success` is false, and `message`, `code` and `errors` are the given ones, with no `data` |
| Responses.ValidationError | src/lib/api-utils.ts:187-189 | the status is 400 |
| Responses.Unauthorized | src/lib/api-utils.ts:191-193 | the status is 401 |
| Responses.Forbidden | src/lib/api-utils.ts:195-197 | the status is 403 |
| Responses.NotFound | src/lib/api-utils.ts:199-201 | the status is 404 |
| Responses.RateLimited | src/lib/api-utils.ts:203-205 | the status is 429 |
| Responses.ShorthandFields | src/lib/api-utils.ts:187-205 | each shorthand carries its fixed code (`VALIDATION_ERROR`, `UNAUTHORIZED`, `FORBIDDEN`, `NOT_FOUND`, `RATE_LIMIT_EXCEEDED`) and its default message |
| WpOptimizer.TokenCache.constructor | src/lib/api-utils.ts:248 | the slot starts empty |
| WpOptimizer.TokenCache.GetOptimizedToken | src/lib/api-utils.ts:250-269 | the issuer is asked exactly when the cached token is missing or expired; otherwise the cached token is returned and the slot is unchanged; the issuer's answer is returned as is and cached for 55 minutes only when it is a non-empty string |
| WpOptimizer.TokenCache.ClearTokenCache | src/lib/api-utils.ts:271-273 | the slot is empty |
| WpOptimizer.RefilledServes | src/lib/api-utils.ts:252-265 | a token issued at `t` is served from the cache by every call before `t + 3300000` |
| WpOptimizer.FalsyNotCached | src/lib/api-utils.ts:260-266 | a null or empty token leaves the slot as it was |
| WpOptimizer.NameInjective | src/lib/api-utils.ts:278-304 | the seven parameters are sent under seven distinct names |
| WpOptimizer.ParamAt | src/lib/api-utils.ts:278-304 | the parameter handled at step `i` ranks `i` in the fixed order |
| WpOptimizer.StepsInOrder | src/lib/api-utils.ts:278-304 | the first `n` steps emit parameters of rank below `n`, strictly in order |
| WpOptimizer.StepsValue | src/lib/api-utils.ts:278-304 | after `n` steps, each parameter handled so far is present exactly when it is given, with its value |
| WpOptimizer.SuppliedInOrder | src/lib/api-utils.ts:275-307 | the query lists its parameters in the order `_fields, status, per_page, page, search, orderby, order`, each at most once |
| WpOptimizer.SuppliedValue | src/lib/api-utils.ts:275-307 | each parameter is sent exactly when it is given (a non-empty list, a non-zero number, a non-empty string), lists comma-joined and numbers in decimal |
| WpOptimizer.BuildOptimizedQuery | src/lib/api-utils.ts:275-307 | the appended parameters are the specified ones, in the fixed order, each exactly when given and with its value |
| Errors.TypeNameInjective | src/lib/error-handler.ts:12-23 | the ten error kinds have ten distinct names |
| Errors.ValidationError | src/lib/error-handler.ts:89-93 | status 400, code `VALIDATION_FAILED`, not retryable, the fixed user message, and the invalid fields recorded in the context |
| Errors.AuthenticationError | src/lib/error-handler.ts:95-99 | status 401, code `AUTH_REQUIRED`, not retryable, message defaulting to `Authentication required` |
| Errors.AuthorizationError | src/lib/error-handler.ts:101-105 | status 403, code `INSUFFICIENT_PERMISSIONS`, not retryable, message defaulting to `Insufficient permissions` |
| Errors.NotFoundMessage | src/lib/error-handler.ts:109 | `<resource> not found`, with ` with id '<id>'` inserted exactly when the id is non-empty |
| Errors.NotFoundError | src/lib/error-handler.ts:107-111 | status 404, code `NOT_FOUND`, not retryable, resource defaulting to `Resource`, resource and id recorded in the context |
| Errors.RateLimitError | src/lib/error-handler.ts:113-125 | status 429, code `RATE_LIMIT_EXCEEDED`, retryable, the message naming the limit and the window |
| Errors.WordPressApiError | src/lib/error-handler.ts:127-139 | status 404 exactly when the upstream status is 404, else 502; retryable exactly when the upstream status is absent, 0 or at least 500; the message is prefixed `WordPress API Error: ` |
| Errors.SupabaseError | src/lib/error-handler.ts:141-153 | status 500, code `DATABASE_ERROR`, retryable, the message prefixed `Database Error: `, the original message in the context |
| Errors.WordPressMessage | src/lib/error-handler.ts:339 | `data.message` when truthy, else `data.code` when truthy, else `HTTP <status>` |
| Errors.ErrorFromWordPressResponse | src/lib/error-handler.ts:338-341 | a WordPress error whose status is 404 exactly for a 404 reply, retryable exactly for status 0 or at least 500, carrying the chosen message and the response data |
| Errors.SupabaseMessage | src/lib/error-handler.ts:344 | `error.message` when truthy, else `Database operation failed` |
| Errors.ErrorFromSupabaseError | src/lib/error-handler.ts:343-348 | a database error (500, retryable) carrying the chosen message, with the original `message`, `code` and `details` in the context |
| Errors.Normalize | src/lib/error-handler.ts:237-244 | an `AppError` is kept as is; any other `Error` becomes `INTERNAL_ERROR`/500 with its message and name; a non-error becomes `UNKNOWN_ERROR`/500 with its string form; neither is retryable, and both get the generic user message |
| Errors.HandlerBodyFields | src/lib/error-handler.ts:255-268 | the body has `success` false, the user message (else the message), the code, the kind, `retryable`, and `stack`/`context` only in development mode |
| Errors.Handle | src/lib/error-handler.ts:233-271 | the response status is the normalised error's `statusCode`, with the body members above; no stack outside development mode and no context either |
| Errors.Wrap | src/lib/error-handler.ts:281-289 | a handler's response passes through unchanged, and a thrown failure becomes `Handle`'s response |
| Errors.HandleShowsUserMessage | src/lib/error-handler.ts:258 | an error with a non-empty user message shows that message, under its own status |
| Errors.IsRetryableError | src/lib/error-handler.ts:350-357 | an `AppError` answers with its own flag; any other error is retryable exactly when it is a `TypeError` whose message contains `fetch` |
| Health.Recorded | src/lib/error-handler.ts:297-302 | the new entry comes first, the rest is a prefix of the old log, and the log never exceeds 1000 entries |
| Health.Recent | src/lib/error-handler.ts:310-311 | the recent entries are no more than the log |
| Health.RecentMembers | src/lib/error-handler.ts:311 | an entry is recent exactly when it is in the log with a timestamp after the cutoff |
| Health.CountRetryable | src/lib/error-handler.ts:319 | the retryable count never exceeds the entries counted |
| Health.CountCritical | src/lib/error-handler.ts:320 | the critical count never exceeds the entries counted |
| Health.CountKind | src/lib/error-handler.ts:318 | a kind's count never exceeds the entries counted |
| Health.Bump | src/lib/error-handler.ts:318 | `byType[name]` goes up by one (from 0 when absent) and every other entry is unchanged |
| Health.ByTypeCounts | src/lib/error-handler.ts:313-321 | a kind appears in `byType` exactly when it occurs, and then with its number of occurrences |
| Health.ByTypeKeys | src/lib/error-handler.ts:313-321 | every `byType` key is the name of some counted entry's kind |
| Health.KindCountsSum | src/lib/error-handler.ts:313-324 | the per-kind counts sum to the number of entries |
| Health.CountStep | src/lib/error-handler.ts:317-321 | one loop iteration bumps `byType` for the entry's kind and each counter exactly when its condition holds |
| Health.StatsConsistent | src/lib/error-handler.ts:304-329 | `retryableErrors` and `criticalErrors` never exceed `total`, `total` never exceeds the log, and the `byType` counts sum to `total` |
| Health.HealthMonitor.constructor | src/lib/error-handler.ts:294-295 | the log starts empty and within its bound |
| Health.HealthMonitor.RecordError | src/lib/error-handler.ts:297-302 | the log becomes `Recorded(old log, entry)` and stays within 1000 entries |
| Health.HealthMonitor.GetErrorStats | src/lib/error-handler.ts:304-329 | the loop's counters equal the statistics of the entries after `now - window` (default one hour) |
| Health.HealthMonitor.IsHealthy | src/lib/error-handler.ts:331-334 | healthy exactly when the last hour holds fewer than 10 critical entries and fewer than 100 in all |
| FormValidation.RequiredMessages | src/app/api/posts/create/route.ts:34-37 | one `Field '<name>' is required` message per missing field, in order |
| FormValidation.OwnNames | src/app/api/posts/update/route.ts:6-43 | the table lookup finds a schema exactly for `cagar_budaya`, `kesenian` and `tokoh` (both tables), and none of these is a name `Object.prototype` provides |
| FormValidation.RequiredErrorsEmpty | src/app/api/posts/update/route.ts:51-56 | the required loop pushes nothing exactly when every required field is truthy and not whitespace only |
| FormValidation.LengthErrorsEmpty | src/app/api/posts/update/route.ts:58-63 | the length loop pushes nothing exactly when no limited field is a string whose UTF-16 length exceeds its maximum |
| FormValidation.FormErrorsEmpty | src/app/api/posts/update/route.ts:42-66 | `validateFormData` throws exactly for a name `Object.prototype` provides; otherwise it returns `{ isValid: true, errors: [] }` exactly when the slug has a schema, every required field is filled and no limited string is longer than its maximum in UTF-16 units |
| FormValidation.PostErrorsEmpty | src/app/api/posts/create/route.ts:24-47 | `validatePostData` throws exactly for a name `Object.prototype` provides; otherwise it returns `{ isValid: true, errors: [] }` exactly when the slug has a schema, `validateRequiredFields` reports nothing and no limited string is longer than its maximum in UTF-16 units |
| FormValidation.RequiredErrorsMention | src/app/api/posts/update/route.ts:52-55 | every unfilled required field has its own message among the errors |
| FormValidation.LengthErrorsMention | src/app/api/posts/update/route.ts:59-62 | every field whose string is longer than its maximum in UTF-16 units has its own message, naming that maximum, among the errors |
| FormValidation.PushLengthErrors | src/app/api/posts/update/route.ts:59-63 | the loop appends exactly the length errors (UTF-16 length over the maximum), in schema order, to the errors already found |
| FormValidation.CheckFormData | src/app/api/posts/update/route.ts:51-63 | the two loops push exactly the schema's required errors followed by its length errors, lengths counted in UTF-16 units |
| FormValidation.ValidateFormData | src/app/api/posts/update/route.ts:42-66 | the result is `FormVerdict`: a thrown `TypeError` exactly for an inherited name; otherwise `isValid` exactly when there are no errors, and an unknown slug gives exactly the one "not recognised" message |
| FormValidation.CheckPostData | src/app/api/posts/create/route.ts:33-44 | the required check and the length loop push exactly the schema's errors, in order, lengths counted in UTF-16 units |
| FormValidation.ValidatePostData | src/app/api/posts/create/route.ts:24-47 | the result is `PostVerdict`: a thrown `TypeError` (reading `filter` of `undefined`) exactly for an inherited name; otherwise `isValid` exactly when there are no errors, and an unknown slug gives exactly the one `Unsupported content type: <slug>` message |
| Records.SnakeCase | src/app/api/posts/update/route.ts:242 | the renamed key has no capital letter and is never shorter than the key |
| Records.CamelOfSnake | src/app/api/posts/update/route.ts:242 | a key without underscores is recovered from its renamed form, so the rule merges no two such keys |
| Records.SnakeCaseOfLower | src/app/api/posts/create/route.ts:132 | a key with no capital letter is left as it is |
| Records.SnakeCaseConcat | src/app/api/posts/update/route.ts:242 | the rule works letter by letter, so it distributes over concatenation |
| Records.SnakeCaseOfTwoWords | src/app/api/posts/update/route.ts:242 | a two-word key `aXb` becomes `a_xb` |
| Records.CleanValue | src/app/api/posts/update/route.ts:73-82 | strings stay strings, cleaned (tag-free and no longer); other values are copied unchanged |
| Records.SanitizedLookup | src/app/api/posts/update/route.ts:69-87 | each key of the sanitised record holds the cleaned value of the input's key; null values and absent keys are absent |
| Records.SanitizeRecord | src/app/api/posts/create/route.ts:49-63 | the loop over the entries builds exactly the sanitised record (the update route's copy of the loop is at src/app/api/posts/update/route.ts:69-87) |
| Records.SanitizedStringsClean | src/app/api/posts/create/route.ts:49-63 | every string read from the sanitised record has been through `sanitizeString`: no `<` is followed later by `>` |
| Records.SetProperty | src/app/api/posts/create/route.ts:55-57 | `o[k] = v` with `k` other than `__proto__` assigns an own key and keeps the prototype; `__proto__` leaves the own keys alone and makes an object value the prototype |
| Records.Read | src/lib/api-utils.ts:134 | `o[k]` returns the own value when there is one, and otherwise can only come from the prototype |
| Records.SanitizedAsWrittenAgrees | src/app/api/posts/create/route.ts:49-63 | without a `__proto__` entry, the loop with property-set semantics builds the own-key sanitised record and leaves the prototype alone |
| Records.SanitizerBypass | src/app/api/posts/create/route.ts:49-63 | with property-set semantics a `__proto__` entry carrying `title: "<script>x</script>"` makes `title` read that unsanitised, non-blank string, which the required check accepts; with own-key semantics the record has no `title` |
| Records.AcfFields | src/app/api/posts/update/route.ts:247-248 | the owner field `supabase_user_id` is always the caller, whatever the record held |
| Records.AcfEntriesLookup | src/app/api/posts/update/route.ts:239-245 | every non-`title`, non-null entry is copied under its snake_case key, unless another entry renames to the same key |
| Records.AcfEntriesAbsent | src/app/api/posts/update/route.ts:239-245 | a name that no entry renames to is absent from the copied fields |
| Records.AcfKeysLowercase | src/app/api/posts/update/route.ts:242-243 | no copied key contains a capital letter |
| Records.BuildAcfFields | src/app/api/posts/create/route.ts:129-136 | the loop builds exactly the copied entries followed by the owner set to the caller (the update route's copy is at src/app/api/posts/update/route.ts:239-248) |
| UpdateRoute.Refusal | src/app/api/posts/update/route.ts:127-134 | an early refusal carries its status, message, code and timestamp |
| UpdateRoute.Rejected | src/app/api/posts/update/route.ts:224-236 | a validation refusal is 400 with the error list and code `VALIDATION_FAILED` |
| UpdateRoute.Crash | src/app/api/posts/update/route.ts:330-343 | a thrown failure is 500 `INTERNAL_ERROR` with the thrown message, or the fallback message when it is empty |
| UpdateRoute.Summary | src/app/api/posts/update/route.ts:319-324 | the success data has exactly the four members `id`, `title`, `slug`, `modified` |
| UpdateRoute.Updated | src/app/api/posts/update/route.ts:316-329 | success is 200 `UPDATE_SUCCESS`, its data copying the upstream id and modification date |
| UpdateRoute.EditOwner | src/app/api/posts/update/route.ts:297-300 | the update payload's `fields.supabase_user_id` is the caller and its title the sanitised title |
| UpdateRoute.UpdateWindowCap | src/app/api/posts/update/route.ts:90-106 | for any run of calls, no 60000 ms window admits more than 10 requests for a user |
| UpdateRoute.UpdateHandler.constructor | src/app/api/posts/update/route.ts:90 | the route's own map starts empty |
| UpdateRoute.UpdateHandler.CheckRateLimit | src/app/api/posts/update/route.ts:91-106 | admitted exactly when fewer than 10 of the user's times are within 60000 ms; on admission the user's list becomes the live times followed by `now`; the new map is `Counted` (unchanged on denial) |
| UpdateRoute.UpdateHandler.Post | src/app/api/posts/update/route.ts:108-344 | the response and the upstream calls are `Respond`'s, and the map is charged exactly when the caller was resolved |
| UpdateRoute.UpdateHandler.Throttle | src/app/api/posts/update/route.ts:156-168 | after the caller is known: the map is charged and the outcome is `Throttled`'s |
| UpdateRoute.Proceed | src/app/api/posts/update/route.ts:170-329 | the outcome after the rate limit is `Proceeded` on the sanitised record and its validator verdict |
| UpdateRoute.ProceededOutcomes | src/app/api/posts/update/route.ts:187-309 | a body refusal sends nothing; the update is sent exactly when the body is acceptable, a CMS token was issued and the stored post belongs to the caller, and it is then the last call, carrying the built payload; 200 only after an ok update |
| UpdateRoute.ThrottledOutcomes | src/app/api/posts/update/route.ts:156-309 | a denial is 429 with no call; otherwise as `ProceededOutcomes`, on the sanitised body |
| UpdateRoute.RespondGuards | src/app/api/posts/update/route.ts:121-236 | the guard order: no token 401 `AUTH_MISSING_TOKEN` with no call; a token is first looked up; an unresolved user 401 `AUTH_INVALID_USER`; a denial 429; a bad or incomplete body, a foreign `userId` or failed validation refused with only the lookup made |
| UpdateRoute.RespondWrites | src/app/api/posts/update/route.ts:258-301 | an update is sent only after every guard and the ownership check have passed, and it is the last call, carrying the caller as owner |
| UpdateRoute.RespondSuccess | src/app/api/posts/update/route.ts:303-329 | 200 only when the update was sent and answered ok |
| UpdateRoute.Checked | src/app/api/posts/update/route.ts:170-236 | the body is refused exactly when it is not acceptable (bad JSON, missing `postId`/`cptSlug`/`title`, foreign `userId`, a thrown validator, validation errors); a validator that throws gives 500 with its message |
| UpdateRoute.Prepare | src/app/api/posts/update/route.ts:170-248 | the refusal is `Checked`'s on the sanitised record and `validateFormData`'s verdict on it; when none, the path is `/wp/v2/<slug>/<id>` and the payload the title with the built fields |
| UpdateRoute.Committed | src/app/api/posts/update/route.ts:250-309 | the CMS token is asked for first; no token gives 500; the verify read comes next; a non-ok read gives 404 `POST_NOT_FOUND` and a foreign owner 403, both with no write; the update is sent exactly when the post is the caller's; 200 only after an ok update |
| CreateRoute.CrashFields | src/app/api/posts/create/route.ts:181-184 | a thrown failure is 500 `INTERNAL_ERROR` with `success` false and the thrown message, or `Internal server error` when it is empty |
| CreateRoute.CreatedFields | src/app/api/posts/create/route.ts:170-180 | success is 200 `CREATE_SUCCESS` with `success` true, its data copying the upstream id, title, slug, status and date (as `created`) |
| CreateRoute.DraftFields | src/app/api/posts/create/route.ts:152-156 | the upstream payload has `status` `pending`, `fields.supabase_user_id` the caller and the sanitised title |
| CreateRoute.Checked | src/app/api/posts/create/route.ts:96-126 | the body is refused exactly when it is not acceptable (bad JSON, a slug `validateSlug` rejects, a foreign `userId`, a thrown validator, validation errors); a validator that throws gives 500 with its message |
| CreateRoute.Prepare | src/app/api/posts/create/route.ts:96-136 | the refusal is `Checked`'s on the sanitised record and `validatePostData`'s verdict on it; when none, the path is `/wp/v2/<slug>` and the payload the pending draft with the built fields |
| CreateRoute.Committed | src/app/api/posts/create/route.ts:138-180 | no CMS token gives 500 with no call; otherwise exactly one POST of the payload to the path; 200 only after an ok reply |
| CreateRoute.CommittedShowsCmsMessage | src/app/api/posts/create/route.ts:161-163 | a non-ok reply's `message` is shown in the 500 response |
| CreateRoute.Post | src/app/api/posts/create/route.ts:65-185 | the response and the upstream calls are `Respond`'s; the shared limiter is charged under `create` exactly when the caller was resolved; the token slot is refilled exactly when the issuer was asked |
| CreateRoute.Throttle | src/app/api/posts/create/route.ts:90-185 | after the caller is known: the limiter is charged and the outcome is `Throttled`'s |
| CreateRoute.Proceed | src/app/api/posts/create/route.ts:96-185 | after the rate limit: the outcome is `Proceeded`'s, and the slot is refilled exactly when the issuer was asked |
| CreateRoute.ProceededOutcomes | src/app/api/posts/create/route.ts:96-180 | a body refusal sends nothing; the issuer is asked exactly when the body is acceptable and no fresh token is cached; the create is sent exactly when the body is acceptable and a token is at hand, and it is the last call, carrying the pending draft; 200 only after an ok reply |
| CreateRoute.ThrottledOutcomes | src/app/api/posts/create/route.ts:90-180 | a `create` denial is 429 with no call; otherwise as `ProceededOutcomes` on the sanitised body |
| CreateRoute.RespondGuards | src/app/api/posts/create/route.ts:71-126 | the guard order: no token 401 with no call; a token is first looked up; an unresolved user 401; a denial 429; a refused body with only the lookup made |
| CreateRoute.RespondAsksIssuer | src/app/api/posts/create/route.ts:138-143 | the CMS token is requested exactly when every guard passed and no fresh token is cached |
| CreateRoute.RespondWrites | src/app/api/posts/create/route.ts:138-180 | a create is sent only after every guard has passed and a token is at hand, as the last call, with the caller as owner; 200 only after an ok reply |
| DeleteRoute.Checked | src/app/api/posts/delete/route.ts:47-59 | the body raises a `ValidationError` exactly when it is not JSON or lacks a truthy `postId` or `cptSlug` |
| DeleteRoute.DeletedFields | src/app/api/posts/delete/route.ts:137-149 | success is 200 `DELETE_SUCCESS` with `success` true, its data echoing `postId` and `cptSlug` |
| DeleteRoute.CommittedRefusals | src/app/api/posts/delete/route.ts:63-103 | no CMS token raises a WordPress error (502) with no call; a token first sends the verify read; a 404 raises `NotFoundError("Post", id)`; a post owned by someone else raises `AuthorizationError` (403) with no delete |
| DeleteRoute.CommittedWrites | src/app/api/posts/delete/route.ts:81-149 | the DELETE is sent exactly when a token is at hand and the stored post is the caller's, right after the verify read; the outcome is a success exactly when the DELETE is answered ok, and is then the echo envelope |
| DeleteRoute.Post | src/app/api/posts/delete/route.ts:16-150 | the response is `ErrorHandler.wrap` applied to `Respond`'s outcome, the calls are `Respond`'s, and the shared limiter is charged under `delete` exactly when the caller was resolved |
| DeleteRoute.Handler | src/app/api/posts/delete/route.ts:16-150 | the unwrapped handler's outcome (a response or a thrown error) and calls are `Respond`'s |
| DeleteRoute.Throttle | src/app/api/posts/delete/route.ts:41-150 | after the caller is known: the limiter is charged and the outcome is `Throttled`'s |
| DeleteRoute.Proceed | src/app/api/posts/delete/route.ts:47-150 | after the rate limit: the outcome is `Proceeded`'s, and the token slot is refilled exactly when the issuer was asked |
| DeleteRoute.ProceededOutcomes | src/app/api/posts/delete/route.ts:47-149 | a bad body sends nothing; the issuer is asked exactly when the body is complete and no fresh token is cached; the DELETE is sent exactly when the body is complete, a token is at hand and the post is the caller's, as the last call; success exactly after an ok DELETE |
| DeleteRoute.ThrottledOutcomes | src/app/api/posts/delete/route.ts:41-149 | a `delete` denial raises a retryable rate-limit error (429) with no call; otherwise as `ProceededOutcomes` |
| DeleteRoute.RespondGuards | src/app/api/posts/delete/route.ts:22-59 | the guard order: no token 401 with no call; a token is first looked up; a provider error becomes `createErrorFromSupabaseError` (500) whose context carries the error's `message`, `code` and `details`; a missing user 401; a denial 429; a bad body 400, each with only the lookup made |
| DeleteRoute.AuthErrorValue | src/app/api/posts/delete/route.ts:28-34 | the error object handed to `createErrorFromSupabaseError` reads back the provider's `message`, `code` and `details` |
| DeleteRoute.RespondWrites | src/app/api/posts/delete/route.ts:93-149 | a DELETE is sent only after every guard and the ownership check have passed, as the last call; success exactly after an ok DELETE |
| DeleteRoute.DeleteBudgetMatches | src/app/api/posts/delete/route.ts:42-44 | the limit and window the thrown `RateLimitError` reports (5 per 60000 ms) are the `delete` budget the limiter applies |
| GetOneRoute.FetchedOutcomes | src/app/api/posts/get-one/route.ts:21-39 | only reads: the CMS token is asked for first and the post is read exactly when a token came back; 200 exactly when the read is ok and `acf.supabase_user_id` is the caller, with the upstream post returned unchanged; 403 only for a post owned by someone else |
| GetOneRoute.RespondGuards | src/app/api/posts/get-one/route.ts:11-22 | no token 401 with no call; a token is first looked up; no resolved user 401 (the provider's error field is ignored); 400 exactly when the user is resolved but `slug` or `id` is missing; no CMS token 500 |
| GetOneRoute.RespondDisclosure | src/app/api/posts/get-one/route.ts:24-36 | the route never writes; the post is read exactly when every guard passed and a token came back; 200 exactly when the stored owner is the caller, with the post unchanged |
| MyPostsRoute.ListCalls | src/app/api/kontributor/my-posts/route.ts:15-64 | one list read per content type, in the order of the five slugs |
| MyPostsRoute.FirstRejected | src/app/api/kontributor/my-posts/route.ts:66 | the first list read that fails, after which `Promise.all` rejects; none when all settle |
| MyPostsRoute.Values | src/app/api/kontributor/my-posts/route.ts:63-66 | the parsed body of every settled read, in order |
| MyPostsRoute.OwnedMembership | src/app/api/kontributor/my-posts/route.ts:72 | a post is kept exactly when it is listed and its `acf.supabase_user_id` is the caller |
| MyPostsRoute.OwnedConcat | src/app/api/kontributor/my-posts/route.ts:72 | the owner filter distributes over concatenation, so list order is preserved |
| MyPostsRoute.OwnedIdempotent | src/app/api/kontributor/my-posts/route.ts:72 | filtering twice is filtering once |
| MyPostsRoute.FlatConcat | src/app/api/kontributor/my-posts/route.ts:69 | `flat` distributes over concatenation |
| MyPostsRoute.FlatMembership | src/app/api/kontributor/my-posts/route.ts:69 | an element of the flattened list is an element of one of the results |
| MyPostsRoute.OwnedFlatFive | src/app/api/kontributor/my-posts/route.ts:69-72 | filtering the flattened five results is filtering each in turn and concatenating |
| MyPostsRoute.ListedCalls | src/app/api/kontributor/my-posts/route.ts:45-66 | only reads; the token exchange comes first, and the five list reads follow exactly when it succeeded; a non-ok exchange is 500 |
| MyPostsRoute.RespondGuards | src/app/api/kontributor/my-posts/route.ts:20-53 | no token 401 with no call; 401 exactly when the caller is not resolved; missing credentials 500 before any CMS call; a failed exchange 500; the route never writes |
| MyPostsRoute.RespondListing | src/app/api/kontributor/my-posts/route.ts:58-74 | 200 exactly when every read settled with no null post; the body is the caller's posts from each content type in turn, and a post is in it exactly when some result lists it and it is the caller's |
| MyPostsRoute.RespondRejection | src/app/api/kontributor/my-posts/route.ts:66-78 | when a list read fails, the answer is 500 with the first failure's message |
| PostsRoute.FailureStatus | src/app/api/posts/route.ts:159-164 | the error status is never 0: the upstream status when there is one, else 500 |
| PostsRoute.Thrown | src/app/api/posts/route.ts:159-164 | a failure with no upstream answer is 500 with the fixed "creating the post" message |
| PostsRoute.GetForwarding | src/app/api/posts/route.ts:6-59 | only reads; an unconfigured base is 500 with no call; otherwise one read of `/posts` with the query string; 200 exactly when it answers, with the upstream data, and a header is forwarded exactly when it is `x-wp-totalpages` or `x-wp-total` and upstream set it non-empty; a failure carries the upstream status (else 500) and message |
| PostsRoute.Indexed | src/app/api/posts/route.ts:87 | spreading an array yields its elements under the keys `0`, `1`, … in order |
| PostsRoute.IndexedHasNoTags | src/app/api/posts/route.ts:87 | a spread array has no `tags` key |
| PostsRoute.Destructured | src/app/api/posts/route.ts:86-87 | the rest object after taking `tags` out never holds `tags` |
| PostsRoute.Outcomes | src/app/api/posts/route.ts:91-109 | one outcome per tag name, in input order, the `i`-th decided by the answers to the `i`-th search and create, so equal names get independent answers |
| PostsRoute.Shift | src/app/api/posts/route.ts:91-109 | the answers from position `k` on: answer `i` is the original answer `i + k` |
| PostsRoute.DuplicateNamesResolveApart | src/app/api/posts/route.ts:91-110 | for `["a", "a"]`, two empty searches, one created tag and a refused second create, only one id survives |
| PostsRoute.TagIdCases | src/app/api/posts/route.ts:93-107 | a name resolves to the first search hit's id; with no hit, to the created id for a non-contributor; to nothing for a contributor or when the search fails |
| PostsRoute.SurvivorsConcat | src/app/api/posts/route.ts:110 | dropping nulls distributes over concatenation, so the surviving ids keep input order |
| PostsRoute.TagIdsConcat | src/app/api/posts/route.ts:91-110 | the resolved ids of a concatenation are those of the first part followed by those of the second, the second answered at its own positions |
| PostsRoute.TagRequestsConcat | src/app/api/posts/route.ts:91-109 | the tag requests of a concatenation are those of the first part followed by those of the second, the second answered at its own positions |
| PostsRoute.ContributorCreatesNoTags | src/app/api/posts/route.ts:97-103 | for a contributor every tag request is a read |
| PostsRoute.TagIdsBound | src/app/api/posts/route.ts:91-110 | no more ids than names, and between one and two requests per name |
| PostsRoute.SurvivorsBound | src/app/api/posts/route.ts:110 | filtering keeps no more ids than it was given |
| PostsRoute.CategoryList | src/app/api/posts/route.ts:132-144 | the normalised array is no longer than the input and holds no string and no object: strings go through `parseInt`, and an element that `Number()` turns into `NaN` is dropped |
| PostsRoute.IntegerTextNumeric | src/app/api/posts/route.ts:144 | every decimal integer text, signed or not, passes `!isNaN` |
| PostsRoute.NumericTextForms | src/app/api/posts/route.ts:144 | `Number()` accepts `1e3`, `1.5`, `-Infinity` and `0x1F` and gives `NaN` for `1e`, `.` and `0x` |
| PostsRoute.CommaCategories | src/app/api/posts/route.ts:135-144 | the comma-split categories are numbers only, no more than the pieces |
| PostsRoute.CategoryListNumbers | src/app/api/posts/route.ts:132-144 | every number is kept, every parseable string is kept as its number, and every number kept comes from one of the two |
| PostsRoute.CommaCategoriesMembership | src/app/api/posts/route.ts:135-144 | a number is kept exactly when some trimmed piece parses to it |
| PostsRoute.Wrapped | src/app/api/posts/route.ts:119-125 | a non-empty string `content`/`excerpt` becomes `{raw: s}`; every other value and key is left alone |
| PostsRoute.PreparedStatus | src/app/api/posts/route.ts:114-116 | a contributor's status is forced to `draft`; anyone else's is what the body said |
| PostsRoute.PreparedTags | src/app/api/posts/route.ts:110 | `tags` becomes the surviving ids when tags were resolved, and stays absent otherwise |
| PostsRoute.PreparedText | src/app/api/posts/route.ts:119-125 | `content` and `excerpt` are sent wrapped as above |
| PostsRoute.PreparedOthers | src/app/api/posts/route.ts:86-125 | every other key of the body is sent unchanged |
| PostsRoute.PayloadCategories | src/app/api/posts/route.ts:128-147 | the payload fails to build exactly when truthy categories of an unsupported type reach `filter`; otherwise `categories` is the normalised list (or untouched when falsy) and every other key is as prepared |
| PostsRoute.Post | src/app/api/posts/route.ts:61-165 | the response and the upstream calls are `Posted`'s |
| PostsRoute.Submit | src/app/api/posts/route.ts:89-158 | after the role lookup, the response and calls are `Submitted`'s |
| PostsRoute.SubmittedOutcomes | src/app/api/posts/route.ts:89-164 | 201 exactly when the tags could be mapped, the payload built and the create answered, with the upstream data; the create is then the last call, carrying the payload; otherwise 500 or the upstream failure; no earlier call goes to `/posts` |
| PostsRoute.TagRequestsPaths | src/app/api/posts/route.ts:94-99 | every tag request goes to the tags endpoint, never to `/posts` |
| PostsRoute.PostGuards | src/app/api/posts/route.ts:61-84 | no `auth_token` cookie is 401 with no call; an unconfigured base is 500 with no call; the role lookup `/users/me` comes first; its failure is forwarded; a user without `roles` fails with 500 |
| PostsRoute.ContributorDraft | src/app/api/posts/route.ts:90-153 | for a contributor nothing is written before the create, and the created post's status is `draft` whatever the body said |
| SubmitRoute.FieldsSnakeCase | src/app/api/submit-cagar-budaya/route.ts:17-39 | the table has 23 entries; each of the first 22 names is the default rule (underscore and lowercase before each capital) applied to its key; the last maps `userId` to `supabase_user_id` |
| SubmitRoute.FieldNamesDistinct | src/app/api/submit-cagar-budaya/route.ts:17-39 | no two table entries write the same field |
| SubmitRoute.BuildFields | src/app/api/submit-cagar-budaya/route.ts:13-39 | the 23 conditional assignments build exactly the copied fields |
| SubmitRoute.CopiedAbsent | src/app/api/submit-cagar-budaya/route.ts:13-39 | a name the table does not write is absent from the fields |
| SubmitRoute.CopiedLookup | src/app/api/submit-cagar-budaya/route.ts:17-39 | each entry's field holds the body's value for its key exactly when that value is truthy, and is absent otherwise |
| SubmitRoute.FieldsCopied | src/app/api/submit-cagar-budaya/route.ts:13-39 | each listed key is copied to its fixed name only when truthy, and every other body key is dropped |
| SubmitRoute.OwnerFromBody | src/app/api/submit-cagar-budaya/route.ts:39 | the owner field is whatever the client sent as `userId` (when truthy), with no authentication |
| SubmitRoute.Post | src/app/api/submit-cagar-budaya/route.ts:6-89 | the response and the upstream calls are `Respond`'s |
| SubmitRoute.SubmissionContents | src/app/api/submit-cagar-budaya/route.ts:70-74 | the payload has exactly the members `title` (the body's title), `status` `pending` and `fields` (the copied fields) |
| SubmitRoute.CrashMessage | src/app/api/submit-cagar-budaya/route.ts:85-88 | a failure is 500 with the thrown message, or `Terjadi kesalahan pada server` when it is empty |
| SubmitRoute.RespondCalls | src/app/api/submit-cagar-budaya/route.ts:8-75 | no upstream call exactly when the body is not JSON, is null, or the credentials are missing (each a 500 with its message); otherwise the token exchange comes first, and the create follows exactly when the exchange succeeded, carrying the payload |
| SubmitRoute.RespondCreated | src/app/api/submit-cagar-budaya/route.ts:77-88 | 201 exactly when the create was sent and answered ok, with the fixed message and the upstream data; every other outcome is 500 |
| PostsApi.AppStatusOfCmsStatus | src/lib/postsAPI.ts:26-37 | `publish`, `draft` and `private` read back as published, draft and private; anything else (`pending` among them) reads as draft |
| PostsApi.DisplayedChoice | src/lib/postsAPI.ts:40-42 | title, content and excerpt take `.rendered` when truthy, else the raw value when truthy, else `""` |
| PostsApi.DisplayedOfString | src/lib/postsAPI.ts:40-42 | a plain string field is shown as it is |
| PostsApi.TransformPublication | src/lib/postsAPI.ts:25-61 | a null post cannot be transformed (reading its status throws); for a transformed post the status is published exactly for `publish`, and `publishedAt` is set only then, to the post's date |
| PostsApi.TermViews | src/lib/postsAPI.ts:54-55 | mapping a term list succeeds exactly when no element is null, with one `{id, name, slug}` per element in order; a null element throws on reading `id` |
| PostsApi.Terms | src/lib/postsAPI.ts:54-55 | a missing or null term list gives `[]`; a list that is not an array throws `... is not a function`; an array is mapped by `TermViews` |
| PostsApi.TransformOutcome | src/lib/postsAPI.ts:25-61 | a post is transformed exactly when it is not null and both embedded term lists are absent or arrays without null; the categories are then one record per embedded term, in order |
| PostsApi.EmbeddedTermsThrow | src/lib/postsAPI.ts:54 | `"wp:term": [{}]` and `"wp:term": [[null]]` make the transform throw, the second on reading `id` |
| PostsApi.BuildParams | src/lib/postsAPI.ts:70-90 | the appended parameters are exactly `Params(filters)` |
| PostsApi.ParamsStatus | src/lib/postsAPI.ts:72-82 | `_embed=true` comes first and `status` second; an absent or `all` status sends `publish,draft,private,pending`; a status named by the app reads back as that status |
| PostsApi.ParamsLookup | src/lib/postsAPI.ts:72-90 | each filter is sent under its own name (`categories`, `tags`, `author`, `search`, `orderby`, `order`, `page`, `per_page`) exactly when it is truthy, numbers in decimal; nothing else is sent |
| PostsApi.PaginateHeaders | src/lib/postsAPI.ts:96-103 | non-zero header counts are read back as sent; without headers the pages are 1 and the total is the number of posts; the page defaults to 1 and the page size to 10 |
| PostsApi.HeaderCountNonZero | src/lib/postsAPI.ts:100-101 | a header count is never 0, and differs from the fallback only when it is the header's parsed value |
| PostsApi.HandleErrorMessage | src/lib/postsAPI.ts:11-22 | the message is the response's `message`, else the error's message, else `An error occurred in <context>.`; `. Invalid parameter(s): k1, k2` is appended exactly when `details` has keys |
| PostsApi.HandleErrorWithoutAnswer | src/lib/postsAPI.ts:18-19 | with no response the message is the error's own, or the context default |
| PostsApi.DetailKeysOfObject | src/lib/postsAPI.ts:15-16 | the listed keys are the `details` object's keys, in order |
| PostsApi.TransformAll | src/lib/postsAPI.ts:94 | the mapping succeeds exactly when every element transforms, and then transforms each element in order; otherwise it fails with the first failing element's message |
| PostsApi.GetPostsOutcome | src/lib/postsAPI.ts:68-108 | success exactly for a 2xx answer whose data is an array every element of which transforms, giving the transformed posts in order and the derived pagination; a non-2xx answer fails with `handleError`'s message for `Request failed with status code <n>` |
| Text.Trim | src/lib/api-utils.ts:133-147 | `trim` is never longer than the text and uses only its characters; it is empty exactly when the text is all white space, and otherwise starts and ends with a non-blank character |
| Text.Utf16Length | src/app/api/posts/update/route.ts:60 | `.length` in UTF-16 code units: between the number of characters and twice it, equal to it exactly when no character lies beyond U+FFFF, and twice it exactly when all do |
| Text.Utf16LengthConcat | src/app/api/posts/update/route.ts:60 | the UTF-16 length of a concatenation is the sum of the parts' |
| Text.TrimSlice | src/lib/api-utils.ts:144 | the trimmed text occurs in the original |
| Text.ToLower | src/app/api/posts/update/route.ts:242 | a capital letter becomes its lower-case letter; every other character is unchanged |
| Text.NatToStringValue | src/lib/postsAPI.ts:83-90 | the decimal text of `n` reads back as `n` |
| Text.ParseIntOfIntToString | src/lib/postsAPI.ts:100-101 | `parseInt` of an integer's decimal text gives the integer back |
| Text.Split | src/app/api/posts/route.ts:137 | `split(",")` yields at least one piece and no piece contains the separator |
| Text.JoinSplit | src/app/api/posts/route.ts:137 | joining the pieces of a split with the separator gives back the text |
| Text.SplitJoin | src/lib/api-utils.ts:113-115 | splitting a join of separator-free pieces gives back the pieces |
| Text.IndexOf | src/lib/error-handler.ts:356 | the first occurrence of a pattern, or none when it does not occur, which decides `includes` |
| Text.ReplaceFirst | src/app/api/posts/update/route.ts:123 | `replace` with a string pattern leaves a text without the pattern unchanged and replaces an occurrence at the start by the replacement |
| Json.Assign | src/app/api/posts/update/route.ts:243 | `obj[k] = v` makes `k` read `v` and leaves every other key alone; a new key is appended |
| Json.AssignKeepsKeysUnique | src/app/api/posts/update/route.ts:243 | assignment never creates a duplicate key |
| Json.Without | src/app/api/posts/update/route.ts:187 | the rest object of a destructuring holds every key not taken out, with its value, and none of the taken ones |
| Json.Escape | src/app/api/submit-cagar-budaya/route.ts:79 | the characters written for a string contain no control character and are between one and six per input character |
| Json.EscapeChar | src/app/api/submit-cagar-budaya/route.ts:79 | a character is written as itself exactly when it is not `"`, `\` or a control character; otherwise behind a backslash, never as a control character |
| Json.UnescapeEscape | src/app/api/submit-cagar-budaya/route.ts:79 | reading the escaped text back as a JSON string body gives the original string |
| Json.UnescapeChar | src/app/api/submit-cagar-budaya/route.ts:79 | one escaped character reads back as itself, whatever follows it |
| Http.BearerToken | src/app/api/posts/update/route.ts:123-124 | the token is the `Authorization` header with its first `Bearer ` removed, and counts only when that is non-empty |
| Http.BearerTokenOfHeader | src/app/api/posts/update/route.ts:123 | a header `Bearer <t>` yields `t` |
| Http.NoBearerToken | src/app/api/posts/update/route.ts:124 | a bare `Bearer ` or an empty header yields no token |
| Http.Caller | src/app/api/posts/update/route.ts:137-141 | the caller is resolved exactly when there is a token and the identity lookup returned a user and no error |
| Http.NullRead | src/lib/postsAPI.ts:27 | the message of reading `k` of `null` quotes `k` |
| Http.NullDestructure | src/app/api/posts/update/route.ts:187 | the message of destructuring `k` out of a null body quotes `k` and differs from the read message |
| Http.UndefinedRead | src/lib/api-utils.ts:134 | the message of reading `k` of `undefined` quotes `k` and differs from the `null` message |
| Http.NotAFunction | src/lib/postsAPI.ts:54-55 | the message of calling a non-function starts with the callee |
| Http.NotIterable | src/app/api/posts/update/route.ts:52 | the message of iterating a non-iterable starts with the expression and differs from the not-a-function message |
| Http.NoWritesConcat | src/app/api/posts/update/route.ts:258-301 | a trace has no write exactly when neither of its parts has one |

## Findings

| source | as written | input that shows it | evidently intended | confidence | as-written member | corrected member |
|---|---|---|---|---|---|---|
| src/app/api/posts/create/route.ts:49-63 | `sanitized[key] = value` is a property set, so a `__proto__` entry whose value is an object makes that object the prototype of the sanitised record, and its strings are never sanitised | `{"cptSlug":"kesenian","userId":<caller>,"__proto__":{"title":"<script>x</script>"}}`: `sanitizedData.title` reads the raw script text, the required check passes and the POST sends it | every string read from the sanitised record has been through `sanitizeString` | medium, not executed | Records.SanitizerBypass | Records.SanitizedStringsClean |

## Left out

- `Logger` and `PerformanceMonitor` (src/lib/error-handler.ts, src/lib/api-utils.ts), and the update route's `logContext`: they only write to the console and time durations, and decide no response.
- `HealthChecker` and `DatabaseOptimizer.executeWithRetry`: network probes and timer-driven retry with back-off.
- `RequestValidator.validateEmail`: none of the modelled routes call it.
- `ErrorHandler.handleAsync`: its catch path is the one `Wrap` already models.
- `AppError.toJSON`, and stack traces: a stack is an opaque text passed in, since its contents come from the JavaScript engine.
- Dates: `new Date().toISOString()` timestamps and `Date.now()` readings are parameters (texts and millisecond counts), not computed.
- Network I/O: every identity lookup, token exchange and CMS or axios reply is a parameter; a rejected `fetch` is an abstract "unreachable" answer with a message.
- Request headers other than `Authorization` and the `auth_token` cookie, and the headers of outgoing calls: a recorded upstream call keeps its method, path and body only.
- Concurrency: the model is single-threaded like the event loop. `Promise.all` over the five content types is modelled as reads in list order.
- MyPostsRoute.RespondRejection: the first failing read in list order is the one reported, whereas a real `Promise.all` rejects with whichever read fails first in time.
- Token-cache deduplication: two requests that both find the slot empty both call the issuer, which the sequential model cannot show.
- URL encoding: `URLSearchParams` is modelled as its ordered list of name/value pairs. Percent-encoding and the serialised text are not modelled.
- Floating point: numbers are integers. `NaN` arises only where the routes parse text. For `isNaN` the model decides only whether `Number()` accepts the text, following the StringNumericLiteral grammar of section 7.1.4.1.1 of ECMA-262 (decimal digits with an optional fraction and exponent, `Infinity`, the `0x`/`0o`/`0b` prefixes, an optional sign for decimals), not the value it gives.
- `parseInt` without a radix (src/lib/postsAPI.ts:100-101) is modelled as decimal parsing. The `0x` prefix it would also accept is not modelled.
- The wording of the `TypeError`s the engine raises (reading a property of `null` or `undefined`, destructuring `null`, calling a non-function, iterating a non-iterable) follows V8's messages. Other engines word them differently, and V8 itself may change them.
- Records.SanitizedLookup: stated for objects with distinct keys, which is what `JSON.parse` produces. For an object with repeated keys only the order of assignments is modelled.
- Records.Sanitized, Records.SanitizedLookup, Records.SanitizeRecord: a `__proto__` entry is kept as an own key, as the sanitiser evidently intends. As written, `sanitized[key] = value` re-parents the record instead; `Records.SanitizedAsWritten` models that, and the row under "## Findings" records the consequence.
- Records.AcfEntriesLookup, Records.BuildAcfFields: `acfFields[snakeCaseKey] = value` is taken as an own-key assignment for every key, `__proto__` included. In JavaScript that key reaches the prototype setter and is not sent; this is the same discrepancy as the sanitiser row under "## Findings".
- Json.Assign: an own-key assignment for every key. `obj["__proto__"] = v` in JavaScript calls the prototype setter instead, which `Records.SetProperty` models where it matters.
- UpdateRoute.Prepare: built on the own-key sanitiser and custom-field builder. A `__proto__` entry in the body is sent as a field, where the route as written drops it and lets the length loop read its inherited members.
- CreateRoute.Prepare: built on the own-key sanitiser. The bypass under "## Findings", where a `__proto__` entry supplies an unsanitised `title`, is not reproduced by the route model.
- CreateRoute.Checked: a body whose `title` comes only from a `__proto__` entry is refused as missing its title, where the route as written accepts it (see "## Findings").
- CreateRoute.DraftFields: the title sent is the sanitised record's own `title`. The route as written can send an inherited, unsanitised one (see "## Findings").
- PostsRoute.Destructured: spreading a string into an object gives one key per character. JavaScript gives one key per UTF-16 code unit, so a character beyond U+FFFF becomes two keys holding surrogate halves, which a Dafny string cannot hold.
- PostsRoute.TagRequests: the requests are listed name by name, each search followed by its create. Under `Promise.all` every search is sent before any create, and the creates follow in the order the searches are answered.
- PostsApi.DetailKeysOfObject: objects keep their keys in insertion order. JavaScript lists integer-like keys (such as `"0"` or `"12"`) first, in numeric order, in `Object.keys`, `Object.entries` and `JSON.stringify`, so for such keys the listed order can differ.
- Non-JSON response bodies from axios: a reply carries a parsed JSON value.
- The `tags.length > 0` test in the posts route reads the length of an array or string, or an object's own `length` member. A `length` that is not a number counts as not positive, whereas JavaScript's `>` would coerce it.
- PostsApi.TransformPublication: the transformed post leaves out the embedded author and featured-image fields. Their optional chains cannot throw, and the gateway never inspects them. The category and tag term lists are modelled, including the `TypeError`s they can raise.
- The other `postsAPI` methods (`getPost`, `getUserPosts`, `createPost`, `updatePost`, `deletePost` and the rest) are thin axios wrappers with no logic of their own; they are not part of this model.
- The React pages, components and contexts, `src/lib/wordpress.ts`, `src/lib/api.ts`, the debug, health, metrics, login, logout, me, categories and tags routes: UI, SDK wrappers and forwarding, outside the gateway's logic.
