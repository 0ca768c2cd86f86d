/** The product-review form: star rating, comment, name and optional email; a
    validation check, the trimmed payload sent to the review service, and how
    the form state changes after the service answers. The service is outside
    the model; its answer is an input and the alert or callback an outcome. */
module Reviews {
  import opened Wrappers
  import opened Text

  /** The review the service returns. Its fields are not part of this model. */
  datatype Review = Review(id: string)

  datatype ReviewPayload = ReviewPayload(rating: int, comment: string, userName: string, userEmail: Option<string>)

  /** `rating && comment.trim() && userName.trim()`. */
  predicate CanSubmit(rating: int, comment: string, userName: string): (ok: bool)
    ensures ok ==> rating != 0 && comment != "" && userName != ""
  {
    rating != 0 && !IsBlank(comment) && !IsBlank(userName)
  }

  /** The body of `reviewAPI.create`: comment and name trimmed, email trimmed or
      left out when it trims to nothing. */
  function BuildPayload(rating: int, comment: string, userName: string, userEmail: string): (p: ReviewPayload)
    ensures p.rating == rating && p.comment == Trim(comment) && p.userName == Trim(userName)
    ensures p.userEmail.None? <==> IsBlank(userEmail)
    ensures p.userEmail.Some? ==> p.userEmail.value == Trim(userEmail)
  {
    ReviewPayload(rating, Trim(comment), Trim(userName),
      if Trim(userEmail) == "" then None else Some(Trim(userEmail)))
  }

  /** A payload that passed validation has a non-empty comment and name, an email
      that is either absent or non-empty, none of them with surrounding
      whitespace; building it again from its own fields gives the same payload. */
  lemma PayloadNormalized(rating: int, comment: string, userName: string, userEmail: string)
    requires CanSubmit(rating, comment, userName)
    ensures var p := BuildPayload(rating, comment, userName, userEmail);
      && p.comment != "" && p.userName != ""
      && (p.userEmail.Some? ==> p.userEmail.value != "")
      && BuildPayload(p.rating, p.comment, p.userName, if p.userEmail.Some? then p.userEmail.value else "") == p
  {
    TrimIdempotent(comment);
    TrimIdempotent(userName);
    TrimIdempotent(userEmail);
  }

  /** What `reviewAPI.create` did: resolved with the created review, or threw an
      error that may carry `response.data.message`. */
  datatype CreateReply = ReviewCreated(review: Review) | CreateThrew(serverMessage: Option<string>)

  const IncompleteMessage: string := "Please fill in all required fields and select a rating"
  const GenericReviewError: string := "Failed to submit review. Please try again."

  /** How a submission ends: the incomplete-form alert, the created review
      handed to `onReviewSubmitted`, or the error alert. */
  datatype ReviewOutcome = Incomplete | Submitted(review: Review) | SubmitFailed(message: string)

  datatype ReviewField = Comment | UserName | UserEmail

  class ReviewForm {
    const productId: string
    var rating: int
    var comment: string
    var userName: string
    var userEmail: string
    var loading: bool
    var submitted: bool

    /** The rating is 0 (none chosen) or a star value. */
    ghost predicate Valid()
      reads this
    {
      0 <= rating <= 5
    }

    constructor (productId: string)
      ensures Valid() && this.productId == productId
      ensures rating == 0 && comment == "" && userName == "" && userEmail == ""
      ensures !loading && !submitted
    {
      this.productId := productId;
      rating, comment, userName, userEmail := 0, "", "", "";
      loading, submitted := false, false;
    }

    /** The `disabled` condition of the submit button: a request is in flight,
        or the validation of `handleSubmit` would fail. */
    function SubmitDisabled(): (disabled: bool)
      reads this
      ensures !disabled ==> !loading && rating != 0 && Trim(comment) != [] && Trim(userName) != []
      ensures disabled ==> loading || !CanSubmit(rating, comment, userName)
    {
      loading || rating == 0 || IsBlank(comment) || IsBlank(userName)
    }

    /** A click on star number `star`. */
    method ClickStar(star: int)
      requires Valid() && 1 <= star <= 5
      modifies this
      ensures Valid() && rating == star
      ensures comment == old(comment) && userName == old(userName) && userEmail == old(userEmail)
      ensures loading == old(loading) && submitted == old(submitted)
    {
      rating := star;
    }

    /** The `onChange` handler of one text input. */
    method Edit(field: ReviewField, value: string)
      modifies this
      ensures rating == old(rating) && loading == old(loading) && submitted == old(submitted)
      ensures comment == (if field == Comment then value else old(comment))
      ensures userName == (if field == UserName then value else old(userName))
      ensures userEmail == (if field == UserEmail then value else old(userEmail))
    {
      match field {
        case Comment => comment := value;
        case UserName => userName := value;
        case UserEmail => userEmail := value;
      }
    }

    /** `handleSubmit`, with the service's answer as input. An incomplete form
        stops before anything is sent. Otherwise the trimmed payload is sent; on
        success the review is handed on, `submitted` is set and the fields are
        reset; on failure the fields are kept. `loading` ends false either way. */
    method HandleSubmit(reply: CreateReply) returns (outcome: ReviewOutcome, sent: Option<ReviewPayload>)
      requires Valid()
      modifies this
      ensures Valid()
      ensures sent.Some? ==> 1 <= sent.value.rating <= 5
      ensures !CanSubmit(old(rating), old(comment), old(userName)) ==>
        && outcome == Incomplete && sent.None?
        && rating == old(rating) && comment == old(comment) && userName == old(userName) && userEmail == old(userEmail)
        && loading == old(loading) && submitted == old(submitted)
      ensures CanSubmit(old(rating), old(comment), old(userName)) ==>
        && sent == Some(BuildPayload(old(rating), old(comment), old(userName), old(userEmail)))
        && !loading
      ensures CanSubmit(old(rating), old(comment), old(userName)) && reply.ReviewCreated? ==>
        && outcome == Submitted(reply.review) && submitted
        && rating == 0 && comment == "" && userName == "" && userEmail == ""
      ensures CanSubmit(old(rating), old(comment), old(userName)) && reply.CreateThrew? ==>
        && outcome == SubmitFailed(
             if reply.serverMessage.Some? && reply.serverMessage.value != "" then reply.serverMessage.value
             else GenericReviewError)
        && rating == old(rating) && comment == old(comment) && userName == old(userName) && userEmail == old(userEmail)
        && submitted == old(submitted)
    {
      // The payload is a value of the current fields; it is only sent once the
      // check below has passed.
      var payload := BuildPayload(rating, comment, userName, userEmail);
      if !CanSubmit(rating, comment, userName) {
        outcome, sent := Incomplete, None;
        return;
      }
      assert 1 <= payload.rating <= 5;
      loading := true;
      sent := Some(payload);
      match reply {
        case ReviewCreated(review) =>
          outcome := Submitted(review);
          submitted := true;
          rating, comment, userName, userEmail := 0, "", "", "";
        case CreateThrew(m) =>
          outcome := SubmitFailed(if m.Some? && m.value != "" then m.value else GenericReviewError);
      }
      loading := false;
    }
  }
}
