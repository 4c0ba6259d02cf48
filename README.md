# Phonly bookings and reviews — a verified model

Phonly is a phone-repair business. Its backend takes repair bookings and customer reviews over HTTP and
stores them in MongoDB through Mongoose. When an admin changes a booking's status, the backend
sends the customer a WhatsApp message. The browser script escapes review text, checks the
booking and review forms before posting them, and drives a five-star rating widget.

This project models the rule-bearing part of that code in Dafny:

- `BookingModel` (models/Booking.js): which creation requests the booking schema admits:
  the six required string paths, the optional `datetime`, the status `enum` with default
  `pending`, and the creation timestamp. It also states the `bookingId` uniqueness predicate.
- `ReviewModel` (models/Review.js): the review schema. `name` and `message` are required and
  `rating` must lie between 1 and 5.
- `BookingRoutes` (routes/bookings.js): a class `BookingStore` holding a map from the store's
  primary key to the booking, plus an `outbox` that logs every call to the WhatsApp sender.
  Its methods cover create, newest-first listing, lookup by `bookingId`, and the status update.
  The update lower-cases the status, writes it, picks one of three message templates and
  sends at most one message. The pure function `StatusMessage` chooses the message.
- `ReviewRoutes` (routes/reviews.js): a class `ReviewStore` over the sequence of reviews. It has
  the falsy-field guard, append on success, and newest-first listing.
- `ClientScript` (script.js): `escapeHtml` as its chain of `replaceAll` calls, proved equal to
  a per-character entity map. Also the booking and review submit checks, and a `StarRating`
  class whose `UpdateStarUI` loop sets a boolean array.
- `JsText` holds the JavaScript string built-ins the code uses (`toLowerCase`, `trim`,
  `replaceAll`, `repeat`). `Ordering` holds the newest-first order shared by both listings.
  `Common` holds request-field options, HTTP replies and JavaScript truthiness.

The database, the WhatsApp HTTP call, the clock and the DOM are outside the model. The store is
an in-memory map or sequence. The clock reading is a `now` parameter. The sender's success is a
`delivered` parameter, and each send attempt goes into the `outbox` log.

Behaviours the model makes explicit, following the code:

- Every route failure except the lookup's 404 "Invalid Booking ID" and the review guard's 400
  answers 500 with a fixed message. This covers a missing required field, a duplicate
  `bookingId`, and a review rating outside 1..5.
- No code generates a `bookingId`. The create route passes the body straight to the schema,
  so the caller must supply it. The booking popup sends no `bookingId`, so the schema refuses
  every booking the popup posts (`ClientScript.PopupBookingNeedsBookingId`).
- The WhatsApp send is awaited. If it fails, the update answers 500 "Status update failed",
  but the new status stays written.
- Suppose the update names an unknown key. A status with a template then answers 500, because
  the template reads the name of a missing booking. Any other status answers success with no
  booking. No 404 is given in either case.
- The update path runs no validators, so any lower-cased string can become a stored status.
  Only creation checks the status `enum`.
- Reviews have no listing limit.
- Lookup by `bookingId` matches exactly; case is not folded.
- script.js attaches two submit listeners to the review form. When both are attached, the
  earlier one resets the form before the posting handler reads it, so no review is posted,
  and its card shows the typed text unescaped (see "## Findings").

## Model

| member | source | states |
|---|---|---|
| `JsText.ToLower` | routes/bookings.js:49 | lower-casing keeps the length and maps each character on its own: ASCII capitals become small letters, everything else is kept |
| `JsText.ToLowerIdempotent` | routes/bookings.js:49 | a normalised status contains no ASCII capital, and normalising it again changes nothing |
| `JsText.ToLowerFixes` | routes/bookings.js:49 | a status already without capitals, such as "accepted", is stored exactly as given |
| `JsText.TrimStart` | script.js:84-89 | the result is a suffix of the input, everything dropped is white space, and the result does not start with white space |
| `JsText.TrimEnd` | script.js:84-89 | the result is a prefix of the input, everything dropped is white space, and the result does not end with white space |
| `JsText.Trim` | script.js:84-89 | `s.trim()` is defined as dropping the leading, then the trailing white space (`TrimStart`, then `TrimEnd`); no contract of its own, its properties are the two lemmas that follow |
| `JsText.TrimEmptyIffBlank` | script.js:84-92 | a trimmed field is empty if and only if the raw input is all white space |
| `JsText.TrimHasNoOuterSpace` | script.js:84-89 | a trimmed value neither starts nor ends with white space |
| `JsText.ReplaceAll` | script.js:367-372 | `s.replaceAll(c, rep)` for a one-character pattern is defined as writing `rep` for every `c` from left to right and keeping every other character; no contract of its own, its properties are the two lemmas that follow |
| `JsText.ReplaceAllConcat` | script.js:367-372 | `replaceAll` of a single character distributes over concatenation |
| `JsText.ReplaceAllAbsent` | script.js:367-372 | `replaceAll` of a character that does not occur returns the input unchanged |
| `JsText.Repeat` | script.js:346 | `"★".repeat(n)` has exactly n characters, all of them the star |
| `Ordering.Insert` | routes/reviews.js:42 | inserting into a newest-first list keeps it newest-first and adds exactly the one record |
| `Ordering.SortNewestFirst` | routes/reviews.js:42 | `sort({ createdAt: -1 })` yields a permutation of the collection with non-increasing `createdAt` |
| `BookingModel.HasRequiredFields` | models/Booking.js:5-34 | the `required: true` validators: `bookingId`, `name`, `phone`, `device`, `service` and `address` are present and non-empty; `datetime` is not required (a predicate, used in `NewBooking`'s contract) |
| `BookingModel.StatusAllowed` | models/Booking.js:40-44 | the status `enum`: an absent status takes the default, a given one must be pending, accepted, ontheway or completed (a predicate, used in `NewBooking`'s contract) |
| `BookingModel.NewBooking` | models/Booking.js:3-52 | a booking is admitted iff `bookingId`, `name`, `phone`, `device`, `service` and `address` are all present and non-empty and any given status is one of the four; an admitted booking carries the request's fields and `datetime`, the status given or `pending` when none was given, and `createdAt` equal to the creation time |
| `BookingModel.DatetimeOptional` | models/Booking.js:36-38 | leaving out `datetime` never changes whether a booking is admitted |
| `BookingModel.UniqueBookingIds` | models/Booking.js:5-9 | the `unique: true` index: no two stored bookings share a `bookingId` (a predicate; kept by `BookingStore.Valid`, `Create` and `WithStatusKeepsInvariant`) |
| `ReviewModel.NewReview` | models/Review.js:3-21 | a review is admitted iff `name` and `message` are non-empty and `rating` is present and between 1 and 5; the admitted review carries exactly those fields and the creation time |
| `ReviewModel.AdmittedRatings` | models/Review.js:9-14 | with name and message present, a rating is admitted exactly when 1 ≤ rating ≤ 5 |
| `BookingRoutes.StatusMessage` | routes/bookings.js:57-67 | a message is chosen iff the status is accepted, ontheway or completed (so none for pending or any other value), and every chosen message is that status's greeting (emoji, space, "Hi", space), then the booking's name, then the rest of the template |
| `BookingRoutes.GreetingWidths` | routes/bookings.js:60-66 | each greeting has five characters, and in JavaScript's UTF-16 units the name starts at index 5 in the accepted message and at index 6 in the on-the-way and completed messages, whose emoji take two units each |
| `BookingRoutes.TemplatesDistinct` | routes/bookings.js:59-67 | for one name, the accepted, on-the-way and completed messages are three different texts |
| `BookingRoutes.AcceptedCapitalised` | routes/bookings.js:48-60 | "Accepted" is stored as "accepted" and selects the accepted template with the customer's name |
| `BookingRoutes.WithStatus` | routes/bookings.js:51-55 | the collection after `findByIdAndUpdate(id, { status })`: the booking with that key, if any, gets the status and nothing else changes; no contract of its own, `WithStatusKeepsInvariant` and `UpdateStatus` state its effect |
| `BookingRoutes.WithStatusKeepsInvariant` | routes/bookings.js:51-55 | writing any status to one booking keeps the keys, every `bookingId`, the required fields and `bookingId` uniqueness |
| `BookingRoutes.BookingStore.constructor` | models/Booking.js:54 | the booking collection starts empty, with no message sent, and satisfies the store invariant |
| `BookingRoutes.BookingStore.FindKey` | routes/bookings.js:31-33 | the key found belongs to a booking with exactly the requested `bookingId`, and none is found iff no booking carries it |
| `BookingRoutes.BookingStore.GetByBookingId` | routes/bookings.js:29-39 | returns the one booking whose `bookingId` matches exactly, or 404 "Invalid Booking ID" iff no booking matches |
| `BookingRoutes.BookingStore.Collect` | routes/bookings.js:21 | `Booking.find()`: the stored bookings, as many as are stored and none repeated |
| `BookingRoutes.BookingStore.ListNewestFirst` | routes/bookings.js:19-22 | returns every stored booking and nothing else, each exactly once, newest first |
| `BookingRoutes.BookingStore.Create` | routes/bookings.js:8-16 | an admitted booking with a `bookingId` not yet in use is added under a fresh key and returned; otherwise the answer is 500 "Booking error" and nothing is stored; no message is sent and the invariant holds afterwards |
| `BookingRoutes.BookingStore.UpdateStatus` | routes/bookings.js:46-78 | a missing status fails with 500 before any write. Otherwise the stored status becomes the lower-cased one and nothing else changes. At most one message is logged: the template for that status, sent to the booking's phone. The answer is the updated booking, or 500 when the send fails (the write stays) or when a template needs a missing booking |
| `ReviewRoutes.GuardRejects` | routes/reviews.js:11 | the falsy-field guard: `name`, `rating` or `message` is absent or empty, or the rating is 0 (a predicate, used in `GuardThenSchema` and `Submit`) |
| `ReviewRoutes.GuardThenSchema` | routes/reviews.js:11-22 | a request that passes the guard has all three fields and a non-zero rating, and the schema then admits it exactly when the rating is 1..5 |
| `ReviewRoutes.ReviewStore.constructor` | models/Review.js:23 | the review collection starts empty and satisfies the store invariant |
| `ReviewRoutes.ReviewStore.Submit` | routes/reviews.js:7-37 | a falsy name, rating (including 0) or message answers 400 "All fields are required" and saves nothing; a rating outside 1..5 answers 500 and saves nothing; otherwise exactly one review carrying the submitted fields is appended, earlier reviews are unchanged, and every stored rating stays within 1..5 |
| `ReviewRoutes.ReviewStore.ListNewestFirst` | routes/reviews.js:40-43 | returns each stored review as often as stored, in non-increasing `createdAt` order |
| `ClientScript.EscapeHtml` | script.js:366-373 | `escapeHtml` is defined as its five `replaceAll` calls in the source's order, `&` first; no contract of its own, its properties are the lemmas that follow |
| `ClientScript.EscapeEach` | script.js:366-373 | the reference entity map never outputs `<`, `>`, `"` or `'` and never shortens its input |
| `ClientScript.EscapeHtmlConcat` | script.js:366-373 | escaping a concatenation escapes each part |
| `ClientScript.EscapeHtmlChar` | script.js:367-372 | on one character the replacement chain yields exactly that character's entity, because `&` is replaced first |
| `ClientScript.EscapeHtmlIsEntityMap` | script.js:366-373 | `escapeHtml` equals the per-character entity map |
| `ClientScript.EscapeHtmlIsSafe` | script.js:366-373 | the output of `escapeHtml` contains none of `<`, `>`, `"`, `'` and is never shorter than its input |
| `ClientScript.EscapeHtmlPlain` | script.js:366-373 | a string without any of the five special characters is returned unchanged |
| `ClientScript.AmpersandFirst` | script.js:368-369 | "<" escapes to "&lt;", while escaping `<` before `&` would have produced "&amp;lt;" |
| `ClientScript.SubmitBooking` | script.js:84-97 | a refused form shows "Please fill all booking fields."; a sent payload has `issue` as `service`, `device` and `datetime` as typed, and the trimmed name, phone, model and address; every field of it except `model` is non-empty |
| `ClientScript.SubmitBookingSends` | script.js:84-95 | the form is sent iff name, phone and address are not blank and device, issue and date/time are non-empty |
| `ClientScript.ModelNotChecked` | script.js:87-92 | the `model` input never decides whether the form is sent |
| `ClientScript.PopupBookingNeedsBookingId` | script.js:97 | the schema refuses every body the popup can send (all fields non-empty, no `bookingId`) for lack of a `bookingId`; with a non-empty `bookingId` added, it would be admitted as `pending` |
| `ClientScript.SubmitReview` | script.js:315-327 | rating 0 is refused with the star alert, and a later refusal uses the name/message alert; a sent payload carries the selected rating and the trimmed name and message |
| `ClientScript.SubmitReviewSends` | script.js:315-325 | a review is sent iff a star is selected and neither name nor message is blank |
| `ClientScript.ReviewFormAgreesWithServer` | script.js:327 | any review the form sends with a widget rating passes the server guard and is stored with exactly the sent fields |
| `ClientScript.ReviewCard` | script.js:346-350 | the card added after a successful post has as many stars as the rating and the message and name passed through the entity map, so neither can open or close markup |
| `ClientScript.EarlyReviewCard` | script.js:195-202 | the earlier listener's card: five stars whatever the rating, and the message and name exactly as typed (a definition, used by the two lemmas below) |
| `ClientScript.EarlyReviewCardKeepsMarkup` | script.js:198-202 | the name "<b>Ana</b>" reaches the earlier card's `innerHTML` with its markup, while the posting handler's card for the same input is text only |
| `ClientScript.SubmitBothListeners` | script.js:184-214 | one submit with both listeners attached, in registration order: the earlier card is built, the inputs are reset to empty, then the posting handler runs on the reset inputs (a definition, used by the lemma below) |
| `ClientScript.BothListenersNeverPost` | script.js:184-214 | with both listeners attached nothing is ever posted: the posting handler stops with the star alert or, once a star is chosen, the name/message alert, even for a form it alone would post |
| `ClientScript.CountSelectedStars` | script.js:288-293 | showing rating r on stars 1..n selects exactly r of them, with r clamped to 0..n |
| `ClientScript.StarText` | script.js:346 | the star text `"★".repeat(rating)`; no contract of its own, `Repeat` and `StarTextMatchesWidget` state its length and characters |
| `ClientScript.StarTextMatchesWidget` | script.js:346 | the star text of a posted review has as many stars as the widget shows selected |
| `ClientScript.BuildStars` | script.js:274-282 | the star loop produces data-values 1, 2, 3, 4, 5 in order |
| `ClientScript.StarRating.constructor` | script.js:271-287 | five stars valued 1..5, none selected, no rating chosen |
| `ClientScript.StarRating.UpdateStarUI` | script.js:288-294 | afterwards a star is selected iff its value is ≤ the rating |
| `ClientScript.StarRating.Click` | script.js:298-301 | a click chooses the star's value as the rating and shows it |
| `ClientScript.StarRating.Hover` | script.js:303-306 | hovering shows the star's value without changing the chosen rating |
| `ClientScript.StarRating.MouseOut` | script.js:307-309 | leaving a star shows the chosen rating again |
| `ClientScript.StarRating.Reset` | script.js:354-355 | after a posted review no rating is chosen and no star is selected |

## Findings

| source | as written | input that shows it | evidently intended | confidence | as-written member | corrected member |
|---|---|---|---|---|---|---|
| script.js:184-214 | a second submit listener on `#reviewForm` builds its own card and calls `reviewForm.reset()`; added before the posting handler (script.js:313), it runs first, so the posting handler reads the name and message already emptied | a five-star review with name "Ana" and message "Great": the alert "Please enter your name and a review message." is shown and nothing is posted | only the posting handler runs, and a complete form is posted | not executed; holds when `#reviewForm` is in the page when script.js runs | `ClientScript.BothListenersNeverPost` | `ClientScript.SubmitReview` |
| script.js:198-202 | the earlier listener writes the raw name and message into `card.innerHTML` | name "<b>Ana</b>": the markup is interpreted in the card | both parts escaped, as the posting handler does at script.js:348-349 | not executed; same condition as above | `ClientScript.EarlyReviewCardKeepsMarkup` | `ClientScript.ReviewCard` |

## Left out

- `JsText.ToLower`: maps only the ASCII capitals. JavaScript's `toLowerCase` also maps non-ASCII letters, and it can change the length. The three template statuses are ASCII, so message selection is unaffected.
- Identifier generation: the routes have no generator. `bookingId` comes from the request, and a duplicate is refused.
- Store failures such as an unreachable database ("Fetch error"). Also left out: the cast error for a malformed primary key, and Mongoose's casting of non-string or non-number values. Request fields are modelled as absent, a string, or an integer.
- A non-string `status` in the update body, which throws in `toLowerCase`, is not modelled. Only absent and string statuses are.
- `rating` is an integer. Fractional and NaN ratings are left out.
- `createdAt` always comes from the `now` parameter. A client-supplied `createdAt` and the `updatedAt` timestamp that `timestamps: true` maintains are left out.
- Tie order among records with the same `createdAt` is left open, as in MongoDB.
- The WhatsApp HTTP request (utils/whatsapp.js, whatsapp.js, routes/whatsapp.js) is not modelled. Only the call and its outcome are: the `outbox` entry and the `delivered` flag.
- server.js, a separate server with its own schemas that carry no `required`, `enum` or `unique` rules; the root bookings.js, a create-and-confirm route that sends a fixed confirmation message; and the root Review.js, a review schema without constraints. These are not part of this model.
- script.js DOM work is not modelled: popups, toasts, the navigation menu, the scroll reveal (floating point), `fetch` and the response handling, and the placement of cards in the page. Of the review cards, only their data-bearing parts are modelled (`ClientScript.Card`).
- `ClientScript.SubmitReview` models the posting handler at script.js:313-327 alone. The earlier listener at script.js:184-214 is modelled separately (`ClientScript.EarlyReviewCard`, `ClientScript.SubmitBothListeners`, see "## Findings"); `ClientScript.EscapeHtmlIsSafe` covers only the posting handler's card, not the earlier card, which is not escaped.
- `JsText.ReplaceAll`: models `replaceAll` for a one-character pattern and a replacement without `$` patterns. Those are the only forms `escapeHtml` uses.
- String lengths and indices count Unicode code points, not JavaScript's UTF-16 code units. The two differ inside the on-the-way and completed messages, whose emoji take two units each; `BookingRoutes.GreetingWidths` gives the UTF-16 offsets of the name there.
- `ClientScript.StarRating`: assumes the widget built its own five stars. Stars already present in the page markup, with other data-values, are not modelled.
- Asynchrony and concurrent requests are not modelled. Every operation runs to completion, one at a time.
