/** The pure and the state-changing helpers of the browser script script.js: `escapeHtml`,
    the checks made before a booking or a review is posted, and the star-rating widget. */
module ClientScript {
  import opened Common
  import opened JsText
  import BookingModel
  import ReviewModel
  import ReviewRoutes

  // ---------------------------------------------------------------- escapeHtml

  /** `escapeHtml(str)`: five `replaceAll` calls, `&` first. */
  function EscapeHtml(s: string): string
  {
    var amp := ReplaceAll(s, '&', "&amp;");
    var lt := ReplaceAll(amp, '<', "&lt;");
    var gt := ReplaceAll(lt, '>', "&gt;");
    var quot := ReplaceAll(gt, '"', "&quot;");
    ReplaceAll(quot, '\'', "&#039;")
  }

  /** The characters that carry meaning in HTML markup and attribute values. */
  predicate IsMarkup(c: char)
  {
    c == '<' || c == '>' || c == '"' || c == '\''
  }

  /** The character entity written for one character. */
  function Entity(c: char): string
  {
    if c == '&' then "&amp;"
    else if c == '<' then "&lt;"
    else if c == '>' then "&gt;"
    else if c == '"' then "&quot;"
    else if c == '\'' then "&#039;"
    else [c]
  }

  /** The reference escaping: each character replaced by its entity, independently. Its
      output never holds a markup character and is never shorter than its input. */
  function EscapeEach(s: string): (r: string)
    ensures forall i :: 0 <= i < |r| ==> !IsMarkup(r[i])
    ensures |r| >= |s|
  {
    if s == [] then [] else Entity(s[0]) + EscapeEach(s[1..])
  }

  /** Escaping a concatenation is escaping each part. */
  lemma EscapeHtmlConcat(a: string, b: string)
    ensures EscapeHtml(a + b) == EscapeHtml(a) + EscapeHtml(b)
  {
    var a1, b1 := ReplaceAll(a, '&', "&amp;"), ReplaceAll(b, '&', "&amp;");
    ReplaceAllConcat(a, b, '&', "&amp;");
    var a2, b2 := ReplaceAll(a1, '<', "&lt;"), ReplaceAll(b1, '<', "&lt;");
    ReplaceAllConcat(a1, b1, '<', "&lt;");
    var a3, b3 := ReplaceAll(a2, '>', "&gt;"), ReplaceAll(b2, '>', "&gt;");
    ReplaceAllConcat(a2, b2, '>', "&gt;");
    var a4, b4 := ReplaceAll(a3, '"', "&quot;"), ReplaceAll(b3, '"', "&quot;");
    ReplaceAllConcat(a3, b3, '"', "&quot;");
    ReplaceAllConcat(a4, b4, '\'', "&#039;");
  }

  /** One replacement step on a single character. */
  lemma ReplaceOne(c: char, p: char, rep: string)
    ensures ReplaceAll([c], p, rep) == if c == p then rep else [c]
  {
  }

  /** The four replacements that follow the one of `&`. */
  function Markup4(s: string): string
  {
    ReplaceAll(ReplaceAll(ReplaceAll(ReplaceAll(s, '<', "&lt;"), '>', "&gt;"), '"', "&quot;"), '\'', "&#039;")
  }

  /** A string with no markup character passes the last four replacements unchanged. */
  lemma Markup4Absent(s: string)
    requires '<' !in s && '>' !in s && '"' !in s && '\'' !in s
    ensures Markup4(s) == s
  {
    ReplaceAllAbsent(s, '<', "&lt;");
    ReplaceAllAbsent(s, '>', "&gt;");
    ReplaceAllAbsent(s, '"', "&quot;");
    ReplaceAllAbsent(s, '\'', "&#039;");
  }

  /** `&` becomes "&amp;", which holds no character a later replacement looks for. */
  lemma EscapeAmp()
    ensures EscapeHtml("&") == "&amp;"
  {
    ReplaceOne('&', '&', "&amp;");
    var e := "&amp;";
    assert '<' !in e && '>' !in e && '"' !in e && '\'' !in e;
    Markup4Absent(e);
    assert EscapeHtml("&") == Markup4(ReplaceAll("&", '&', "&amp;"));
  }

  /** `<` passes the `&` step and becomes "&lt;"; the later steps leave it. */
  lemma EscapeLt()
    ensures EscapeHtml("<") == "&lt;"
  {
    ReplaceOne('<', '&', "&amp;");
    ReplaceOne('<', '<', "&lt;");
    var e := "&lt;";
    assert '>' !in e && '"' !in e && '\'' !in e;
    ReplaceAllAbsent(e, '>', "&gt;");
    ReplaceAllAbsent(e, '"', "&quot;");
    ReplaceAllAbsent(e, '\'', "&#039;");
    assert EscapeHtml("<") == ReplaceAll(ReplaceAll(ReplaceAll(e, '>', "&gt;"), '"', "&quot;"), '\'', "&#039;");
  }

  /** `>` becomes "&gt;" at the third step. */
  lemma EscapeGt()
    ensures EscapeHtml(">") == "&gt;"
  {
    ReplaceOne('>', '&', "&amp;");
    ReplaceOne('>', '<', "&lt;");
    ReplaceOne('>', '>', "&gt;");
    ReplaceAllAbsent("&gt;", '"', "&quot;");
    ReplaceAllAbsent("&gt;", '\'', "&#039;");
  }

  /** `"` becomes "&quot;" at the fourth step. */
  lemma EscapeQuot()
    ensures EscapeHtml("\"") == "&quot;"
  {
    ReplaceOne('"', '&', "&amp;");
    ReplaceOne('"', '<', "&lt;");
    ReplaceOne('"', '>', "&gt;");
    ReplaceOne('"', '"', "&quot;");
    ReplaceAllAbsent("&quot;", '\'', "&#039;");
  }

  /** `'` becomes "&#039;" at the last step. */
  lemma EscapeApos()
    ensures EscapeHtml("'") == "&#039;"
  {
    ReplaceOne('\'', '&', "&amp;");
    ReplaceOne('\'', '<', "&lt;");
    ReplaceOne('\'', '>', "&gt;");
    ReplaceOne('\'', '"', "&quot;");
    ReplaceOne('\'', '\'', "&#039;");
  }

  /** Any other character passes every step unchanged. */
  lemma EscapeOther(c: char)
    requires c != '&' && c != '<' && c != '>' && c != '"' && c != '\''
    ensures EscapeHtml([c]) == [c]
  {
    ReplaceOne(c, '&', "&amp;");
    ReplaceOne(c, '<', "&lt;");
    ReplaceOne(c, '>', "&gt;");
    ReplaceOne(c, '"', "&quot;");
    ReplaceOne(c, '\'', "&#039;");
  }

  /** On one character the chain of replacements writes exactly that character's entity:
      because `&` is replaced first, no later step finds an `&` to re-escape, and no
      entity contains a character that a later step replaces. */
  lemma EscapeHtmlChar(c: char)
    ensures EscapeHtml([c]) == Entity(c)
  {
    if c == '&' {
      EscapeAmp();
    } else if c == '<' {
      EscapeLt();
    } else if c == '>' {
      EscapeGt();
    } else if c == '"' {
      EscapeQuot();
    } else if c == '\'' {
      EscapeApos();
    } else {
      EscapeOther(c);
    }
  }

  /** `escapeHtml` is the per-character entity map. */
  lemma {:induction false} EscapeHtmlIsEntityMap(s: string)
    ensures EscapeHtml(s) == EscapeEach(s)
  {
    if s != [] {
      assert s == [s[0]] + s[1..];
      EscapeHtmlConcat([s[0]], s[1..]);
      EscapeHtmlChar(s[0]);
      EscapeHtmlIsEntityMap(s[1..]);
    }
  }

  /** The output of `escapeHtml` holds none of `<`, `>`, `"`, `'` and is never shorter than
      its input. */
  lemma EscapeHtmlIsSafe(s: string)
    ensures forall i :: 0 <= i < |EscapeHtml(s)| ==> !IsMarkup(EscapeHtml(s)[i])
    ensures |EscapeHtml(s)| >= |s|
  {
    EscapeHtmlIsEntityMap(s);
  }

  /** A string without any of the five special characters passes through unchanged. */
  lemma {:induction false} EscapeHtmlPlain(s: string)
    requires forall i :: 0 <= i < |s| ==> s[i] != '&' && !IsMarkup(s[i])
    ensures EscapeHtml(s) == s
  {
    EscapeHtmlIsEntityMap(s);
    EscapeEachPlain(s);
  }

  lemma {:induction false} EscapeEachPlain(s: string)
    requires forall i :: 0 <= i < |s| ==> s[i] != '&' && !IsMarkup(s[i])
    ensures EscapeEach(s) == s
  {
    if s != [] {
      EscapeEachPlain(s[1..]);
    }
  }

  /** Escaping `&` in "&lt;" gives "&amp;lt;". */
  lemma AmpInLt()
    ensures ReplaceAll("&lt;", '&', "&amp;") == "&amp;lt;"
  {
    var a, b := "&", "lt;";
    assert "&lt;" == a + b;
    ReplaceAllConcat(a, b, '&', "&amp;");
    ReplaceOne('&', '&', "&amp;");
    assert '&' !in b;
    ReplaceAllAbsent(b, '&', "&amp;");
  }

  /** Why `&` goes first: escaping `<` before `&` would turn "<" into "&amp;lt;". */
  lemma AmpersandFirst()
    ensures EscapeHtml("<") == "&lt;"
    ensures ReplaceAll(ReplaceAll("<", '<', "&lt;"), '&', "&amp;") == "&amp;lt;"
  {
    EscapeLt();
    ReplaceOne('<', '<', "&lt;");
    AmpInLt();
  }

  // ---------------------------------------------------------------- booking form

  /** The raw values of the booking popup's inputs. */
  datatype BookingForm = BookingForm(
    name: string, phone: string, device: string, model: string,
    issue: string, address: string, datetime: string)

  /** The JSON body the booking popup posts. */
  datatype BookingPayload = BookingPayload(
    name: string, phone: string, device: string, model: string,
    service: string, address: string, datetime: string)

  /** What a submit handler does: post a body, or stop and show a message. */
  datatype Submission<T> = Send(payload: T) | Refuse(alert: string)

  const FillAllBookingFieldsToast: string := "Please fill all booking fields."

  /** All characters are white space (the empty string included). */
  predicate Blank(s: string)
  {
    forall i :: 0 <= i < |s| ==> IsSpace(s[i])
  }

  /** The confirm-booking handler up to the request: `name`, `phone`, `model` and `address`
      are trimmed; every field except `model` must be non-empty; `issue` is sent as
      `service`. */
  function SubmitBooking(f: BookingForm): (r: Submission<BookingPayload>)
    ensures r.Refuse? ==> r.alert == FillAllBookingFieldsToast
    ensures r.Send? ==>
      && r.payload.service == f.issue
      && r.payload.device == f.device
      && r.payload.datetime == f.datetime
      && r.payload.name == Trim(f.name) && r.payload.phone == Trim(f.phone)
      && r.payload.model == Trim(f.model) && r.payload.address == Trim(f.address)
    ensures r.Send? ==>
      && r.payload.name != "" && r.payload.phone != "" && r.payload.device != ""
      && r.payload.service != "" && r.payload.address != "" && r.payload.datetime != ""
  {
    var name := Trim(f.name);
    var phone := Trim(f.phone);
    var model := Trim(f.model);
    var address := Trim(f.address);
    if name == "" || phone == "" || f.device == "" || f.issue == "" || address == "" || f.datetime == "" then
      Refuse(FillAllBookingFieldsToast)
    else
      Send(BookingPayload(name, phone, f.device, model, f.issue, address, f.datetime))
  }

  /** The form is sent exactly when name, phone and address hold something besides white
      space and device, issue and date/time are chosen. */
  lemma SubmitBookingSends(f: BookingForm)
    ensures SubmitBooking(f).Send? <==>
      && !Blank(f.name) && !Blank(f.phone) && !Blank(f.address)
      && f.device != "" && f.issue != "" && f.datetime != ""
  {
  }

  /** The `model` input is never checked: it does not decide whether the form is sent. */
  lemma ModelNotChecked(f: BookingForm, model: string)
    ensures SubmitBooking(f.(model := model)).Send? == SubmitBooking(f).Send?
  {
  }

  /** The body as the booking schema sees it: `model` is not a schema path, and the popup
      sends no `bookingId` and no `status`. */
  function AsBookingRequest(p: BookingPayload): BookingModel.BookingRequest
  {
    BookingModel.BookingRequest(None, Some(p.name), Some(p.phone), Some(p.device),
                                Some(p.service), Some(p.address), Some(p.datetime), None)
  }

  /** A body the popup sends (all of its fields non-empty, as `SubmitBooking` ensures) lacks
      `bookingId`, which the schema requires, so the server refuses it; with any non-empty
      `bookingId` added, the schema admits it as a pending booking. */
  lemma PopupBookingNeedsBookingId(p: BookingPayload, id: nat, now: int, bookingId: string)
    requires p.name != "" && p.phone != "" && p.device != "" && p.service != "" && p.address != ""
    ensures BookingModel.NewBooking(id, AsBookingRequest(p), now).None?
    ensures bookingId != "" ==>
      var r := BookingModel.NewBooking(id, AsBookingRequest(p).(bookingId := Some(bookingId)), now);
      r.Some? && r.value.status == BookingModel.DefaultStatus
  {
  }

  // ---------------------------------------------------------------- review form

  /** The JSON body the review form posts. */
  datatype ReviewPayload = ReviewPayload(name: string, rating: int, message: string)

  const SelectRatingAlert: string := "Please select a star rating before submitting."
  const NameAndMessageAlert: string := "Please enter your name and a review message."

  /** The review submit handler up to the request: a star must be selected, then the
      trimmed name and message must be non-empty. */
  function SubmitReview(selectedRating: int, name: string, message: string): (r: Submission<ReviewPayload>)
    ensures selectedRating == 0 ==> r == Refuse(SelectRatingAlert)
    ensures selectedRating != 0 && r.Refuse? ==> r.alert == NameAndMessageAlert
    ensures r.Send? ==> r.payload == ReviewPayload(Trim(name), selectedRating, Trim(message))
  {
    if selectedRating == 0 then Refuse(SelectRatingAlert)
    else if Trim(name) == "" || Trim(message) == "" then Refuse(NameAndMessageAlert)
    else Send(ReviewPayload(Trim(name), selectedRating, Trim(message)))
  }

  /** The review is sent exactly when a star is selected and neither name nor message is
      blank. */
  lemma SubmitReviewSends(selectedRating: int, name: string, message: string)
    ensures SubmitReview(selectedRating, name, message).Send? <==>
      selectedRating != 0 && !Blank(name) && !Blank(message)
  {
  }

  /** Whatever the form sends with a rating from the star widget passes the server's guard
      and its schema, and is stored with exactly the sent fields. */
  lemma ReviewFormAgreesWithServer(selectedRating: int, name: string, message: string, now: int)
    requires 0 <= selectedRating <= StarCount
    requires SubmitReview(selectedRating, name, message).Send?
    ensures var p := SubmitReview(selectedRating, name, message).payload;
      && !ReviewRoutes.GuardRejects(ReviewRoutes.ReviewRequest(Some(p.name), Some(p.rating), Some(p.message)))
      && ReviewModel.NewReview(Some(p.name), Some(p.rating), Some(p.message), now)
         == Some(ReviewModel.Review(p.name, p.rating, p.message, now))
  {
  }

  // ---------------------------------------------------------------- review cards

  /** The parts of a review card that come from data: the star text, the quoted message and
      the author line, each placed into the card's `innerHTML` as it stands. */
  datatype Card = Card(stars: string, quote: string, author: string)

  /** A card whose message and author line can neither open nor close markup. */
  predicate TextOnly(card: Card)
  {
    && (forall i :: 0 <= i < |card.quote| ==> !IsMarkup(card.quote[i]))
    && (forall i :: 0 <= i < |card.author| ==> !IsMarkup(card.author[i]))
  }

  /** The card the posting handler adds once the server accepted the review: as many stars
      as the rating, and the message and name escaped, so the card is text only. */
  function ReviewCard(rating: nat, name: string, message: string): (card: Card)
    ensures TextOnly(card)
    ensures |card.stars| == rating
    ensures card.quote == EscapeEach(message) && card.author == EscapeEach(name)
  {
    EscapeHtmlIsEntityMap(message);
    EscapeHtmlIsEntityMap(name);
    Card(StarText(rating), EscapeHtml(message), EscapeHtml(name))
  }

  /** The raw values of the review form's name and message inputs. */
  datatype ReviewInputs = ReviewInputs(name: string, message: string)

  /** The card built by the earlier submit listener on `#reviewForm`: five stars whatever the
      rating, and the name and message exactly as typed, not escaped. */
  function EarlyReviewCard(f: ReviewInputs): Card
  {
    Card(StarText(StarCount), f.message, f.name)
  }

  /** As written, the earlier card passes markup through: a name such as "<b>Ana</b>" reaches
      `innerHTML` unchanged, while the posting handler's card escapes it. */
  lemma EarlyReviewCardKeepsMarkup()
    ensures !TextOnly(EarlyReviewCard(ReviewInputs("<b>Ana</b>", "Great")))
    ensures TextOnly(ReviewCard(5, "<b>Ana</b>", "Great"))
  {
    assert EarlyReviewCard(ReviewInputs("<b>Ana</b>", "Great")).author[0] == '<';
  }

  /** What one submit of the review form does when both listeners are attached: the card
      the earlier listener adds, and what the posting handler then does. */
  datatype SubmitOutcome = SubmitOutcome(card: Card, post: Submission<ReviewPayload>)

  /** The inputs after `reviewForm.reset()`: back to their empty defaults. */
  const ResetInputs: ReviewInputs := ReviewInputs("", "")

  /** A submit with both listeners attached, in the order they were added: the earlier one
      builds its card and resets the form, then the posting handler reads the inputs. */
  function SubmitBothListeners(selectedRating: int, f: ReviewInputs): SubmitOutcome
  {
    SubmitOutcome(EarlyReviewCard(f), SubmitReview(selectedRating, ResetInputs.name, ResetInputs.message))
  }

  /** As written, with both listeners attached no review is ever posted: the posting handler
      reads inputs already reset to empty, so it stops with an alert even for a complete
      form that it alone would post. */
  lemma BothListenersNeverPost(selectedRating: int, f: ReviewInputs)
    ensures SubmitBothListeners(selectedRating, f).post.Refuse?
    ensures selectedRating != 0 ==> SubmitBothListeners(selectedRating, f).post == Refuse(NameAndMessageAlert)
    ensures selectedRating != 0 && !Blank(f.name) && !Blank(f.message) ==>
      SubmitReview(selectedRating, f.name, f.message).Send?
  {
    SubmitReviewSends(selectedRating, f.name, f.message);
  }

  // ---------------------------------------------------------------- star widget

  const StarCount: nat := 5

  /** The `data-value`s of `n` stars built by the star loop: 1, 2, ..., n. */
  function Stars(n: nat): seq<int>
  {
    seq(n, k => k + 1)
  }

  /** Which stars carry the `selected` class when `rating` is shown. */
  function Selection(values: seq<int>, rating: int): seq<bool>
  {
    seq(|values|, k requires 0 <= k < |values| => values[k] <= rating)
  }

  /** The number of selected stars. */
  function CountSelected(sel: seq<bool>): nat
  {
    if sel == [] then 0 else CountSelected(sel[..|sel| - 1]) + (if sel[|sel| - 1] then 1 else 0)
  }

  /** Showing `rating` on the built stars selects `rating` of them, clamped to 0..n. */
  lemma {:induction false} CountSelectedStars(n: nat, rating: int)
    ensures CountSelected(Selection(Stars(n), rating)) == if rating < 0 then 0 else if rating > n then n else rating
  {
    if n > 0 {
      var sel := Selection(Stars(n), rating);
      assert sel[..n - 1] == Selection(Stars(n - 1), rating);
      CountSelectedStars(n - 1, rating);
    }
  }

  /** The star text shown with a submitted review: `"★".repeat(rating)`. */
  function StarText(rating: nat): string
  {
    Repeat('\U{2605}', rating)
  }

  /** The star text of a review has as many stars as the widget showed selected. */
  lemma StarTextMatchesWidget(rating: nat)
    requires rating <= StarCount
    ensures |StarText(rating)| == CountSelected(Selection(Stars(StarCount), rating))
    ensures forall i :: 0 <= i < |StarText(rating)| ==> StarText(rating)[i] == '\U{2605}'
  {
    CountSelectedStars(StarCount, rating);
  }

  /** The star loop: `data-value` 1 to 5, in order. */
  method BuildStars() returns (values: seq<int>)
    ensures |values| == StarCount
    ensures forall k :: 0 <= k < |values| ==> values[k] == k + 1
  {
    values := [];
    for i := 1 to StarCount + 1
      invariant |values| == i - 1
      invariant forall k :: 0 <= k < |values| ==> values[k] == k + 1
    {
      values := values + [i];
    }
  }

  /** The star-rating widget: the stars' `data-value`s, which of them carry the `selected`
      class, and the rating chosen by the last click. */
  class StarRating {
    const values: seq<int>
    const selected: array<bool>
    var selectedRating: int

    ghost predicate Valid()
      reads this
    {
      values == Stars(StarCount) && selected.Length == |values| && 0 <= selectedRating <= StarCount
    }

    /** Builds the five stars, none selected, with no rating chosen. */
    constructor ()
      ensures Valid() && fresh(selected)
      ensures selectedRating == 0 && selected[..] == Selection(values, 0)
    {
      var built := BuildStars();
      assert built == Stars(StarCount);
      values := built;
      selected := new bool[|built|](_ => false);
      selectedRating := 0;
      new;
      assert selected[..] == Selection(values, 0);
    }

    /** `updateStarUI(rating)`: a star is selected exactly when its value is at most `rating`. */
    method UpdateStarUI(rating: int)
      requires Valid()
      modifies selected
      ensures selected[..] == Selection(values, rating)
    {
      for k := 0 to selected.Length
        invariant forall j :: 0 <= j < k ==> selected[j] == (values[j] <= rating)
      {
        selected[k] := values[k] <= rating;
      }
    }

    /** A click on star `k` chooses its value as the rating and shows it. */
    method Click(k: nat)
      requires Valid() && k < |values|
      modifies this, selected
      ensures Valid()
      ensures selectedRating == values[k] && selected[..] == Selection(values, values[k])
    {
      selectedRating := values[k];
      UpdateStarUI(selectedRating);
    }

    /** Hovering over star `k` shows its value without choosing it. */
    method Hover(k: nat)
      requires Valid() && k < |values|
      modifies selected
      ensures selected[..] == Selection(values, values[k])
    {
      UpdateStarUI(values[k]);
    }

    /** Leaving a star shows the chosen rating again. */
    method MouseOut()
      requires Valid()
      modifies selected
      ensures selected[..] == Selection(values, selectedRating)
    {
      UpdateStarUI(selectedRating);
    }

    /** After a review is accepted: no rating chosen and no star selected. */
    method Reset()
      requires Valid()
      modifies this, selected
      ensures Valid()
      ensures selectedRating == 0 && selected[..] == Selection(values, 0)
      ensures forall j :: 0 <= j < selected.Length ==> !selected[j]
    {
      selectedRating := 0;
      UpdateStarUI(0);
    }
  }
}
