# Apex Tourism: the request queue and the data shaping of the web client, in Dafny

Apex Tourism is a Next.js tourism guide for the Mangystau region. This project models the client code:

- **`ApiQueue`**: the request serializer, a singleton that runs calls to the Gemini chat proxy one at a time and in arrival order.
- **Data shaping** that the hooks and cards apply to rows fetched from Supabase:
  - photo limiting
  - position ordering
  - tours-by-place filtering
  - id and category parsing
  - company logo lookup
  - image URL building
  - card image and description selection
- **The feedback statistics:** rating distribution and average.
- **The checks the signup form makes** before it calls the sign-up service.

## Files

- **`wrappers.dfy`:** `Option` and `Result`.
- **`strings.dfy`:** the JavaScript string semantics the model needs:
  - `Truthy`, the truthiness of an optional string
  - `ParseInt`, `parseInt(s, 10)` with its whitespace set, optional sign and longest digit prefix
  - `NatToString`, the decimal text of a number
  - `Join` and `Split`
- **`apiqueue.dfy`:** module `Queue`. It has two layers:
  - **The specification,** a pure state `QueueState` with its invariant `Inv`. The step functions are `Admit` (`add`), `Drain` (`process` up to its `await`), `Settle` (the awaited request finished) and `Cleared` (`clear`).
  - **The class `ApiQueue`,** whose fields are the source's `queue` and `processing`, the promise counter and the task held by the suspended `process` call. Ghost history fields record which tasks were admitted, started, settled and dropped. Each method is proved to move `State()` exactly as the matching step function does.
- **`feedback.dfy`:** `getRatingDistribution` as a method with a loop, plus `getAverageRating`. JavaScript's `undefined++` leaves `NaN` in a bucket that does not exist; the `Tally` datatype models this.
- **`rows.dfy`:** the row shapes Supabase returns (places, photos, tours, tour places) and `photos.find(photo => photo.is_logo)`.
- **`supabase.dfy`:** the pure parts of `hooks/useSupabase.ts`:
  - `getImageUrl`
  - the single-photo limit
  - the in-place position sort, as an insertion sort on an `array`
  - the id checks
  - the category filter
  - the tours-by-place filter
  - the company logo

  A query is a function parameter (`respond`) from its argument to what the data store answered.
- **`tourcard.dfy`, `placecard.dfy`:** how the two cards choose their pictures, their logo and their description preview.
- **`gemini.dfy`:** module `GeminiClient`:
  - the conversation formatting of `sendGeminiMessageWithContext`
  - the error message a failed response is turned into
  - the choice of server URL
  - the proof that each send adds exactly one request function to the queue
- **`signup.dfy`:** `handleSubmit` of the signup page, as a class over the form's state.

### How the queue is modelled

`process` is an `async` function. It runs synchronously up to `await requestFn()`, and later the microtask queue resumes it. The model makes that resumption an explicit step, `ApiQueue.Resume(outcome)`. The outcome is whatever the request produced: a resolved value or a rejection. It arrives as a parameter.

Everything `process` does synchronously — shift, start, settle, recurse — happens inside `Add` and `Resume`, as in the source. That gives the following behaviour:

- `add` on an idle queue starts the task before returning, so `length` is 0 right after it.
- A rejection settles the promise and moves on to the next task.
- `clear` drops the waiting tasks. Their promises never settle, and the in-flight task is unaffected.

`Queue.Guarantees` proves, for every sequence of `add`, completion and `clear` events from a fresh queue:

- tasks start in admission order, with at most one in flight
- no task is skipped: every task added before the current backlog was either started or discarded by `clear`, and with no `clear` the started tasks are exactly the first tasks added, in order
- settlements follow that order
- a cleared task never starts
- an idle queue has an empty backlog

The source's two sort call sites sort the fetched arrays in place. The model sorts a fresh array holding a copy and returns the ordered row (`Supabase.OrderTour`). The sort itself (`Supabase.SortByKey`) is the in-place algorithm on that array. Its comparator key is `position || 0`.

### Where the card code is inconsistent

When a tour has no photos of its own, `TourCard` falls back to the place's `image` and uses it as the `src` unchanged (components/TourCard.tsx:40-41). `PlaceCard` instead turns the same field into a storage URL through `getImageUrl` (components/PlaceCard.tsx:16-18). The model follows each file as written (`TourCard.PlaceImage`, `PlaceCard.ImageUrl`). Nothing shows which of the two is intended, so this is not listed as a finding.

## Model

| member | source | states |
|---|---|---|
| Queue.Pending | utils/apiQueue.ts:56-58 | the `length` getter of a state: the number of tasks waiting in the backlog |
| Queue.Drain | utils/apiQueue.ts:27-36 | `process()` up to its `await`: processing continues exactly when a task waits; the admitted, settled and dropped histories are untouched |
| Queue.Admit | utils/apiQueue.ts:11-24 | `add`: the queue is processing afterwards, the new task is admitted last, and nothing is settled or dropped |
| Queue.Settle | utils/apiQueue.ts:38-47 | completion: exactly the in-flight task is settled with the outcome; processing continues exactly when a task waits |
| Queue.Cleared | utils/apiQueue.ts:51-53 | `clear`: the backlog is emptied into the dropped tasks; `processing`, the in-flight task and the started tasks are untouched |
| Queue.Step | utils/apiQueue.ts:11-53 | one call of `add` or `clear`, or the completion of the awaited request |
| Queue.Run | utils/apiQueue.ts:11-53 | the state after a sequence of such events |
| Queue.Initial | utils/apiQueue.ts:3-8 | a new queue has an empty backlog, is not processing and satisfies the queue invariant |
| Queue.AdmitSpec | utils/apiQueue.ts:11-24 | `add` keeps the invariant and numbers the new promise after all earlier ones; on a busy queue the task waits at the tail and nothing else moves; on an idle queue it starts at once, so the length is 0; nothing is settled |
| Queue.SettleSpec | utils/apiQueue.ts:27-47 | completing the awaited request keeps the invariant and settles exactly the in-flight task with exactly that outcome; the next waiting task then starts (shifted from the head), or the queue goes idle when none waits |
| Queue.RejectionContinues | utils/apiQueue.ts:38-47 | after a rejection the promise is rejected with that error and the next waiting task still starts |
| Queue.ClearedSpec | utils/apiQueue.ts:51-53 | `clear` empties the backlog, keeps the invariant, leaves `processing` and the in-flight task alone, and the discarded tasks are recorded as dropped |
| Queue.AdmitAccounted | utils/apiQueue.ts:11-24 | `add` skips no task: every task before the backlog was started or cleared, and without a clear the started tasks are exactly the admitted prefix |
| Queue.SettleAccounted | utils/apiQueue.ts:36-47 | completion skips no task: the task started next is the oldest waiting one |
| Queue.ClearedAccounted | utils/apiQueue.ts:51-53 | `clear` accounts for every discarded task as dropped |
| Queue.StepSpec | utils/apiQueue.ts:11-53 | any single call or completion keeps the invariant and only extends the admitted, started, settled and dropped histories; only `clear` drops tasks |
| Queue.StepAccounted | utils/apiQueue.ts:11-53 | no single event skips a task |
| Queue.RunSpec | utils/apiQueue.ts:11-53 | any sequence of calls and completions keeps the invariant and only extends the histories; without a `clear` nothing is dropped |
| Queue.RunAccounted | utils/apiQueue.ts:11-53 | no sequence of events skips a task |
| Queue.Guarantees | utils/apiQueue.ts:11-53 | from a fresh queue, whatever happens: tasks start in admission order and none is skipped (each task before the backlog was started or cleared; with no `clear`, the started tasks are exactly the first tasks admitted, in order); the backlog is the latest admitted tasks in order; at most one is unsettled; settlements follow start order; a cleared task never starts; an idle queue has an empty backlog |
| Queue.ApiQueue.constructor | utils/apiQueue.ts:3-8 | the object starts with an empty `queue`, `processing` false and nothing issued |
| Queue.ApiQueue.Add | utils/apiQueue.ts:11-24 | the object's new state is `Admit` of its old state; it returns the new promise's number, and afterwards it is processing |
| Queue.ApiQueue.Process | utils/apiQueue.ts:27-36 | the object's new state is `Drain` of its old state: processing stops on an empty backlog, otherwise the head is shifted off and put in flight |
| Queue.ApiQueue.Resume | utils/apiQueue.ts:38-47 | the object's new state is `Settle` of its old state with the given outcome |
| Queue.ApiQueue.Clear | utils/apiQueue.ts:51-53 | the object's new state is `Cleared` of its old state |
| Queue.ApiQueue.Length | utils/apiQueue.ts:56-58 | the number of tasks waiting in the backlog |
| Strings.Truthy | hooks/useSupabase.ts:126 | JavaScript truthiness of an optional string: present and non-empty |
| Strings.ParseInt | hooks/useSupabase.ts:131 | `parseInt(s, 10)`: leading JavaScript white space skipped, an optional sign, the longest run of decimal digits, `NaN` without a digit |
| Strings.Join | utils/geminiClient.ts:94 | `parts.join(sep)` |
| Strings.NatToString | utils/geminiClient.ts:43 | the decimal text of a number: at least one character, all digits, no leading zero |
| Strings.NatToStringValue | utils/geminiClient.ts:43 | the decimal text reads back as the number it was made from |
| Strings.ParseIntOfNatToString | hooks/useSupabase.ts:131 | `parseInt(s, 10)` of decimal text, followed by anything that does not start with a digit, is that number |
| Strings.ParseIntNoDigits | hooks/useSupabase.ts:131-133 | `parseInt` of a string without digits is `NaN` |
| Strings.SplitJoin | utils/geminiClient.ts:92-94 | joining non-empty lists of parts that do not contain the separator can be undone by splitting at the separator |
| Feedback.Incremented | hooks/useFeedback.ts:145 | `distribution[rating]++`: a counting bucket goes up by one, a missing or `NaN` bucket becomes `NaN` |
| Feedback.Distribution | hooks/useFeedback.ts:141-149 | the distribution after counting the ratings one by one from the first |
| Feedback.Tabulate | hooks/useFeedback.ts:141-149 | the reference count: buckets 1 to 5 hold their multiplicity, other ratings seen map to `NaN` |
| Feedback.SumRatings | hooks/useFeedback.ts:136 | `reduce((acc, item) => acc + item.rating, 0)` |
| Feedback.InitialDistribution | hooks/useFeedback.ts:142 | the distribution starts with exactly the buckets 1 to 5, each at 0 |
| Feedback.GetRatingDistribution | hooks/useFeedback.ts:141-149 | the loop's result is the distribution of the feedback's ratings, in order |
| Feedback.DistributionTabulates | hooks/useFeedback.ts:141-149 | the distribution depends only on the multiset of ratings |
| Feedback.TabulateOneMore | hooks/useFeedback.ts:145 | one more rating in the reference count is one `distribution[r]++` |
| Feedback.DistributionIgnoresOrder | hooks/useFeedback.ts:144-146 | two feedback lists with the same ratings in any order give the same distribution |
| Feedback.DistributionCounts | hooks/useFeedback.ts:142-146 | each bucket 1 to 5 holds exactly the number of ratings equal to it |
| Feedback.DistributionKeys | hooks/useFeedback.ts:142-146 | the keys are buckets 1 to 5 plus every rating seen; a rating outside 1 to 5 leaves `NaN` under its own key |
| Feedback.CountOneMore | hooks/useFeedback.ts:145 | one more rating in 1 to 5 adds one to its own bucket and changes nothing else |
| Feedback.DistributionTotal | hooks/useFeedback.ts:141-149 | with all ratings in 1 to 5, the keys are exactly 1 to 5, every bucket is a count, and the counts add up to the number of ratings |
| Feedback.SumMatchesDistribution | hooks/useFeedback.ts:133-136 | with all ratings in 1 to 5, the sum that the average divides equals the weighted total of the distribution |
| Feedback.AverageRating | hooks/useFeedback.ts:133-137 | the average is 0 for no feedback, otherwise the sum of all ratings over the number of entries |
| Feedback.AverageWithinScale | hooks/useFeedback.ts:133-137 | for non-empty feedback with ratings in 1 to 5, the average lies between 1 and 5 |
| Rows.FirstLogoIndex | components/TourCard.tsx:23 | `find`: no index exactly when no photo is a logo, otherwise the first logo photo |
| Rows.FirstLogoUrl | components/TourCard.tsx:21-27 | the url of the first logo photo, and none exactly when no photo is a logo |
| Supabase.GetImageUrl | hooks/useSupabase.ts:194-205 | a URL exactly when the image name is non-empty and the base URL is set; it starts with the base and the public images path |
| Supabase.ImageUrlNamesImage | hooks/useSupabase.ts:204 | the image name can be read back from the built URL |
| Supabase.LimitPhotos | hooks/useSupabase.ts:85-93 | a place keeps its other fields; its photo list, when it has one, becomes that list's first element at most |
| Supabase.LimitedPlaces | hooks/useSupabase.ts:255-263 | every place is limited, in the same order, none added or removed |
| Supabase.LimitPhotosIdempotent | hooks/useSupabase.ts:85-93 | limiting twice is limiting once |
| Supabase.PositionKey | hooks/useSupabase.ts:331 | the comparator key `position \|\| 0` |
| Supabase.SortByKey | hooks/useSupabase.ts:331 | the array ends up ordered by `position or 0` and is a permutation of what it held |
| Supabase.OrderTour | hooks/useSupabase.ts:425-433 | the tour is unchanged except that its places and photos, where present, are sorted by position and are permutations of the originals |
| Supabase.OrderTours | hooks/useSupabase.ts:327-340 | every fetched tour, in the same order, is ordered as `OrderTour` states |
| Supabase.VisitsPlace | hooks/useSupabase.ts:497 | the tour has tour places and one of them has the place id |
| Supabase.ToursVisiting | hooks/useSupabase.ts:496-498 | a tour is kept exactly when it is in the data and one of its tour places has the place id; a single tour is kept exactly when it visits |
| Supabase.ToursVisitingAppend | hooks/useSupabase.ts:496-498 | the filter distributes over concatenation, so with the single-tour case it keeps the visiting tours in their order and multiplicity |
| Supabase.FilteredTours | hooks/useSupabase.ts:496-498 | no data gives no tours; otherwise exactly the tours of the data that visit the place, as `ToursVisiting` keeps them |
| Supabase.CheckedId | hooks/useSupabase.ts:126-134 | the id is accepted exactly when the client is configured and the id is present and parses; the result is the parsed value; otherwise the not-configured or invalid-id message |
| Supabase.CheckedIdDecimal | hooks/useSupabase.ts:374-382 | every decimal id is accepted as its value; an id without digits is refused with the invalid-id message |
| Supabase.FetchToursByPlace | hooks/useSupabase.ts:462-502 | a refused id yields its message; for an accepted id a query error is the result, otherwise the filtered answer for the parsed id; every tour returned visits the place |
| Supabase.RefusedIdMakesNoQuery | hooks/useSupabase.ts:468-480 | when the configuration or the id is refused, the result does not depend on the data store |
| Supabase.CategoryFilter | hooks/useSupabase.ts:72-78 | the category filter applies exactly when the category id is set and parses, and then uses the parsed value |
| Supabase.CategoryFilterCases | hooks/useSupabase.ts:72-78 | a category id without digits means no filter; a decimal one filters by its value |
| Supabase.CompanyLogo | hooks/useSupabase.ts:559-566 | with a first tour that has photos, the url of its first logo photo, none when it has no logo photo; otherwise none |
| Supabase.FetchCompany | hooks/useSupabase.ts:529-574 | not-configured and missing-name errors first; then a query error is the result; otherwise the company with the requested name and the first tour's logo |
| TourCard.NonLogoUrls | components/TourCard.tsx:14-16 | the urls of exactly the photos that are not logos, empty exactly when every photo is a logo; a single photo gives its url exactly when it is not a logo |
| TourCard.NonLogoUrlsAppend | components/TourCard.tsx:14-16 | the filter distributes over concatenation, so with the single-photo case it keeps the non-logo urls in their order and multiplicity |
| TourCard.NonLogoUrlsStart | components/TourCard.tsx:14-16 | the first url is the first non-logo photo's |
| TourCard.PhotoImages | components/TourCard.tsx:12-18 | the first three (or fewer) non-logo urls of the tour's photos, in order; none without photos; each is a non-logo photo's url |
| TourCard.HasImage | components/TourCard.tsx:33-34 | the place filter: present, with a non-empty `place_photos` or a truthy `image` |
| TourCard.PlacesWithImages | components/TourCard.tsx:31-34 | exactly the places of the tour that have a photo or an image, each taken from one of its tour places |
| TourCard.PlacesWithImagesAppend | components/TourCard.tsx:31-34 | the filter distributes over concatenation, so with the single-place case it keeps the places in their order and multiplicity |
| TourCard.PlaceImage | components/TourCard.tsx:37-44 | a place's picture: its first photo's url, otherwise its `image`, otherwise null |
| TourCard.PlaceImages | components/TourCard.tsx:37-44 | no more images than places |
| TourCard.PlaceImagesKeepsEveryPlace | components/TourCard.tsx:37-44 | when every place has a picture, each place gives exactly one image: its first photo, otherwise its `image` |
| TourCard.FallbackImages | components/TourCard.tsx:30-45 | the pictures of the first three places that have one |
| TourCard.TourImages | components/TourCard.tsx:12-45 | a card shows at most three images |
| TourCard.TourImagesFromPhotos | components/TourCard.tsx:13-18 | a tour with a non-logo photo shows its first three non-logo photos, starting with the first one |
| TourCard.TourImagesFromPlaces | components/TourCard.tsx:30-45 | a tour whose photos are all logos shows the pictures of its first three places that have one |
| TourCard.FallbackOnlyWithoutOwnImages | components/TourCard.tsx:30 | the place images are used only when the tour has no non-logo photo |
| TourCard.LogoUrl | components/TourCard.tsx:21-27 | the url of the first logo photo; none exactly when the tour has no photos or none is a logo |
| TourCard.CompanyLogoIsCardLogo | hooks/useSupabase.ts:559-566 | for the same fetched tour row, the company lookup's logo and the card's `logoUrl` agree |
| TourCard.DescriptionPreview | components/TourCard.tsx:169-170 | a description of at most 100 characters is shown whole; a longer one is cut to 100 characters followed by "..." |
| TourCard.RenderTourCard | components/TourCard.tsx:9-170 | no tour renders nothing; a card shows the tour's images (at most three); the company line exactly when `company` is non-empty; the logo exactly when both `company` and `logoUrl` are non-empty, and then it is `logoUrl`; a description preview exactly when the tour has a non-empty description |
| TourCard.NoLogoWithoutCompany | components/TourCard.tsx:104 | a tour without a company shows neither the company line nor a logo, whatever its photos |
| PlaceCard.ImageUrl | components/PlaceCard.tsx:11-19 | the first photo's url when there are photos; else the storage URL of `image` when it is set; else none |
| PlaceCard.ShowsImage | components/PlaceCard.tsx:25 | the `<img>` is rendered only for a non-empty `imageUrl` |
| PlaceCard.NoPictureWithoutImage | components/PlaceCard.tsx:11-25 | a place with neither photos nor an image shows no picture |
| PlaceCard.LimitedPhotosKeepImage | components/PlaceCard.tsx:13-15 | the single-photo limit of the list hooks does not change the picture a card shows |
| PlaceCard.DescriptionPreview | components/PlaceCard.tsx:41 | the first 100 characters of the description, always followed by "...." |
| GeminiClient.Speaker | utils/geminiClient.ts:93 | the user's label for sender `user`, the guide's label otherwise |
| GeminiClient.FormatLine | utils/geminiClient.ts:93 | one message as label, `": "`, text |
| GeminiClient.FormatContext | utils/geminiClient.ts:92-94 | the formatted lines joined with newlines |
| GeminiClient.Lines | utils/geminiClient.ts:92-93 | one formatted line per context message, in order |
| GeminiClient.FormatLineParts | utils/geminiClient.ts:93 | a line is the speaker's label, then ": ", then the message text; the label is the user's exactly for sender `user` |
| GeminiClient.FormatContextEmpty | utils/geminiClient.ts:92-94 | an empty conversation formats as the empty string |
| GeminiClient.FormatContextAppend | utils/geminiClient.ts:92-94 | one more message appends a newline and its line |
| GeminiClient.FormatContextLines | utils/geminiClient.ts:92-94 | when no text contains a newline, splitting the context at newlines gives back exactly one line per message |
| GeminiClient.ErrorMessage | utils/geminiClient.ts:43 | a non-empty message: the body's `error` if set, else its `message`, else the HTTP status text |
| GeminiClient.ErrorMessageStatus | utils/geminiClient.ts:43 | the fallback message is the prefix followed by the decimal status without leading zeros, which reads back as the status |
| GeminiClient.RequestOutcome | utils/geminiClient.ts:40-47 | a response that is not ok rejects with the chosen error message; an ok one resolves with `reply` |
| GeminiClient.ServerUrl | utils/geminiClient.ts:5 | the configured URL when set; otherwise empty on Vercel and `http://localhost:3001` elsewhere |
| GeminiClient.ChatUrl | utils/geminiClient.ts:31-56 | with a server URL the request goes to its `/api/chat`, otherwise to the app's own `/api/chat` |
| GeminiClient.SendMessage | utils/geminiClient.ts:28-73 | the queue's new state is `Admit` of its old state with one request posting the message |
| GeminiClient.SendMessageWithContext | utils/geminiClient.ts:89-143 | the queue's new state is `Admit` of its old state with one request posting the formatted context |
| GeminiClient.DeliverResponse | utils/geminiClient.ts:40-51 | the awaited request's promise settles with the outcome of its response |
| Signup.ValidationError | src/app/pages/signup/page.tsx:28-38 | "fill all fields" exactly when a field is empty; "password too short" exactly when all are filled and the password is under 6 characters; no error otherwise |
| Signup.PasswordBoundary | src/app/pages/signup/page.tsx:34-38 | a 6-character password passes and a 5-character one is refused; an empty field is reported first |
| Signup.SignupForm.constructor | src/app/pages/signup/page.tsx:12-17 | all fields empty, not loading, no error and no message |
| Signup.SignupForm.HandleSubmit | src/app/pages/signup/page.tsx:22-56 | a validation error is shown, with the fields kept and no request; otherwise the entered data is sent, and success clears the fields and shows the success message while failure shows the service's message; loading is off afterwards |

## Left out

- The JavaScript event loop and promises are left out. `await requestFn()` is the explicit `Resume` step, and `resolve` and `reject` are recorded as settlements.
- Queue.ApiQueue.Resume: requires a task in flight, because completion can occur only for a suspended request.
- What a request function does over the network is not modelled. The outcome of a request, and the `fetch` response in `GeminiClient`, are parameters.
- Whether a promise eventually settles is not proved: it depends on the network. The model proves one settlement per completed request, in start order.
- `response.json()` failing on a body that is not JSON is not modelled. Neither is an `error` or `message` field that is truthy but not a string.
- The `try`/`catch` wrappers in `sendGeminiMessage` and `sendGeminiMessageWithContext` are left out. With well-typed arguments nothing inside them throws synchronously: the queue call does not, and neither does formatting the context with `map` and `join`.
- The prompt text `AI_CONTEXT` is left out because it is never sent.
- `checkServerHealth`, the Next.js API routes and `server.js` are left out: they are HTTP handlers and I/O.
- Supabase queries are the `respond` function parameters. The join filter of `.eq("tour_places.place_id", …)` is whatever `respond` returns.
- React state (`setLoading`, `setError`, `setTours` and the rest) and rendering are not modelled beyond the values the cards compute.
- The `useFeedback` CRUD operations are left out: they are pure I/O.
- Feedback.AverageRating: states the exact ratio of the sum of the ratings to their count. The source's `toFixed(1)` rounding is left out because it is floating point.
- Feedback.GetRatingDistribution: ratings are integers. A fractional rating would get its own `NaN` key in JavaScript, just as an out-of-range integer does here.
- Strings.ParseInt: returns an unbounded integer. The loss of precision for digit strings beyond 2^53 in JavaScript numbers is not modelled.
- TourCard.CompanyLogoIsCardLogo: equates the two lookups on the same tour row only. The card's photos have been sorted by position (hooks/useSupabase.ts:335-337), while the company query (hooks/useSupabase.ts:544-555) neither sorts its photos nor orders its `.limit(1)`. So in the application the company page may show a different logo from the card.
- TourCard.DescriptionPreview: lengths and cuts count Unicode scalar values, while JavaScript counts UTF-16 code units. The same holds for `PlaceCard.DescriptionPreview` and for the password length in `Signup.ValidationError`.
- Supabase.SortByKey: does not state stability, which JavaScript's `sort` guarantees. The contract states only ordering and permutation.
- Supabase.OrderTour: the source sorts the fetched rows in place and returns the same objects. The model returns sorted copies, so aliasing of the fetched rows is not captured.
- Position comparisons with `NaN` are not modelled. A position is an optional integer, and the key is `position || 0`.
- `Array.isArray` checks on values that are neither arrays nor absent are not modelled: a missing or null array is `None`.
- `t` and `getLocalizedField` from the language context are left out. `PlaceCard` receives the localized description as a string. `TourCard` uses the raw `description` column, as the source does. `HandleSubmit` receives `t` as a parameter.
- Signup.SignupForm.HandleSubmit: the `await signUp` is collapsed into one call that takes its outcome as a parameter. The render with `loading` true while the call is pending is not observable in the model.
- The router obtained on the signup page is unused in `handleSubmit`, so it is left out.
