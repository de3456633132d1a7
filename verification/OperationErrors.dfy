/** The closed failure classes of a CLOB operation and how an SDK error maps to one. */
module OperationErrors {
  import opened Authority
  import opened Text
  import opened RetryHint

  datatype Kind = Status | Validation | Geoblock | Synchronization | Internal | WebSocket

  /** The typed source an SDK error may carry. */
  datatype Source =
    | StatusSource(code: nat, message: string)
    | ValidationSource(reason: string)
    | OtherSource

  datatype SdkError = SdkError(kind: Kind, source: Source)

  datatype OperationError =
    | SubmissionRevoked
    | ProtocolAuthorityRevoked
    | PostSendIndeterminate
    | InvalidRequest
    | Authentication
    | NoMatch
    | PreparedOrderMismatch
    | Rejected
    | RateLimited(retryAfter: Option<nat>)
    | Transport

  predicate IsServerError(code: nat) {
    500 <= code < 600
  }

  predicate RevokesAuthority(message: string) {
    message == "order_version_mismatch" || message == "balance_allowance_authority"
  }

  predicate SaysNoMatch(lower: string) {
    lower == "no_match" || Contains(lower, "no orders") || (Contains(lower, "fak") && Contains(lower, "match"))
  }

  function ClassifyStatus(code: nat, message: string): OperationError {
    var lower := LowerAll(message);
    if code == 401 || code == 403 then Authentication
    else if RevokesAuthority(message) then ProtocolAuthorityRevoked
    else if SaysNoMatch(lower) then NoMatch
    else if IsServerError(code) then Transport
    else Rejected
  }

  predicate IsAuthorityReason(reason: string) {
    || reason == "authenticated protocol authority is revoked"
    || reason == "authenticated protocol authority is unavailable"
    || reason == "authenticated protocol authority changed"
  }

  function ClassifyOperationError(e: SdkError): OperationError {
    if e.source.StatusSource? && e.source.code == 429
    then RateLimited(ParseRetryAfterFromBody(e.source.message))
    else if e.source.ValidationSource? && IsAuthorityReason(e.source.reason) then ProtocolAuthorityRevoked
    else
      match e.kind
      case Validation => InvalidRequest
      case Status =>
        if e.source.StatusSource? then ClassifyStatus(e.source.code, e.source.message) else Rejected
      case Geoblock => Rejected
      case _ => Transport
  }

  /** After such an error nobody can tell whether the venue took the order. */
  predicate IsAmbiguous(e: SdkError) {
    match e.kind
    case Status => !e.source.StatusSource? || IsServerError(e.source.code)
    case Validation => false
    case Geoblock => false
    case _ => true
  }

  // ---- the answer to one POST ---------------------------------------------------------------

  datatype PostResponse = PostResponse(success: bool, orderId: string)

  datatype PostOutcome =
    | Accepted(orderId: string)
    | NotAccepted
    | Failed(error: OperationError)

  function ClassifyPost(posted: Result<PostResponse, SdkError>): PostOutcome {
    match posted
    case Ok(response) =>
      if response.success then
        if VenueIdentifierIsValid(response.orderId) then Accepted(response.orderId) else Failed(PostSendIndeterminate)
      else if response.orderId == "" then NotAccepted
      else Failed(PostSendIndeterminate)
    case Err(e) =>
      if IsAmbiguous(e) then Failed(PostSendIndeterminate) else Failed(ClassifyOperationError(e))
  }

  /** A POST is reported rate limited exactly when the venue's own 429 came back in an
      error that is not ambiguous; nothing that may have been accepted ever is. */
  lemma RateLimitedIffDefinite429(posted: Result<PostResponse, SdkError>)
    ensures var outcome := ClassifyPost(posted);
            (outcome.Failed? && outcome.error.RateLimited?) <==>
            (posted.Err? && !IsAmbiguous(posted.error)
             && posted.error.source.StatusSource? && posted.error.source.code == 429)
  {
  }

  // ---- the errors the SDK builds ------------------------------------------------------------

  datatype Loss = LoggedOut | Internally | OnSocket

  /** Why a request failed, before the SDK makes an error of it: an answer with a raw body, a
      request refused locally, a blocked region, or no usable answer at all. */
  datatype Failure =
    | Answered(code: nat, raw: string)
    | Invalid(reason: string)
    | Blocked
    | Lost(loss: Loss)

  function Built(f: Failure): SdkError {
    match f
    case Answered(code, raw) => SdkError(Status, StatusSource(code, RedactedMessage(code == 429, raw)))
    case Invalid(reason) => SdkError(Validation, ValidationSource(reason))
    case Blocked => SdkError(Geoblock, OtherSource)
    case Lost(LoggedOut) => SdkError(Synchronization, OtherSource)
    case Lost(Internally) => SdkError(Internal, OtherSource)
    case Lost(OnSocket) => SdkError(WebSocket, OtherSource)
  }

  /** Status sources come with the status kind only, and validation sources with theirs. */
  predicate Paired(e: SdkError) {
    (e.kind.Status? <==> e.source.StatusSource?) && (e.kind.Validation? <==> e.source.ValidationSource?)
  }

  /** The classifier looks for a 429 in the source before it looks at the kind; because the
      SDK pairs the two, an ambiguous error is still never called rate limited. */
  lemma AmbiguousIsNeverRateLimited(f: Failure)
    ensures Paired(Built(f))
    ensures forall e :: Paired(e) && IsAmbiguous(e) ==> !ClassifyOperationError(e).RateLimited?
    ensures IsAmbiguous(Built(f)) <==> f.Lost? || (f.Answered? && f.code / 100 == 5)
  {
  }

  /** What a failed POST is reported as, read off the raw failure. */
  function Reported(f: Failure): OperationError {
    match f
    case Lost(_) => PostSendIndeterminate
    case Blocked => Rejected
    case Invalid(reason) =>
      if reason in {"authenticated protocol authority is revoked", "authenticated protocol authority is unavailable",
                    "authenticated protocol authority changed"}
      then ProtocolAuthorityRevoked else InvalidRequest
    case Answered(code, raw) =>
      var body := EarlierClass(LowerAll(raw));
      if code / 100 == 5 then PostSendIndeterminate
      else if code == 429 then RateLimited(if body.Some? then None else Clamped(ParseRetryAfterFromBody(raw)))
      else if code == 401 || code == 403 then Authentication
      else if body == Some("no_match") then NoMatch
      else if body.Some? then ProtocolAuthorityRevoked
      else Rejected
  }

  /** From the raw failure to the reported class, through the SDK's redaction, the ambiguity
      test and the classifier: redaction loses nothing that reporting needs. */
  lemma FailureIsReportedFromItsBody(f: Failure)
    ensures ClassifyPost(Err(Built(f))) == Failed(Reported(f))
  {
    hide RedactedMessage, ParseRetryAfterFromBody, EarlierClass;
    if f.Answered? {
      if f.code == 429 {
        HintSurvivesRedaction(f.raw);
      } else {
        StatusIsReportedFromItsBody(f.code, f.raw);
      }
    }
  }

  lemma StatusIsReportedFromItsBody(code: nat, raw: string)
    requires code != 429
    ensures ClassifyPost(Err(Built(Answered(code, raw)))) == Failed(Reported(Answered(code, raw)))
  {
    hide ParseRetryAfterFromBody, SaysNoMatch, LowerAll;
    RedactedSaysNothing();
  }

  lemma RedactedSaysNothing()
    ensures !SaysNoMatch(LowerAll("redacted")) && SaysNoMatch(LowerAll("no_match"))
  {
    var lower := LowerAll("redacted");
    assert lower == "redacted";
    assert LowerAll("no_match") == "no_match";
    forall i: nat ensures !OccursAt(lower, "no orders", i) && !OccursAt(lower, "fak", i) {
      if i + 3 <= |lower| { assert lower[i..i + 3][2] == lower[i + 2] != 'k'; }
    }
  }

  /** Every POST is settled or indeterminate: accepted under the venue's own valid identifier,
      not accepted on an empty refusal, and otherwise, for an answer, indeterminate; for an
      error, indeterminate exactly when it is ambiguous. It is never a plain transport failure. */
  lemma EveryPostIsSettledOrIndeterminate(posted: Result<PostResponse, SdkError>)
    ensures var outcome := ClassifyPost(posted);
            && (outcome.Accepted? <==> posted.Ok? && posted.value.success && VenueIdentifierIsValid(posted.value.orderId))
            && (outcome.Accepted? ==> outcome.orderId == posted.value.orderId)
            && (outcome.NotAccepted? <==> posted.Ok? && !posted.value.success && posted.value.orderId == "")
            && (posted.Ok? && outcome.Failed? ==> outcome.error == PostSendIndeterminate)
            && (posted.Err? ==> (outcome == Failed(PostSendIndeterminate) <==> IsAmbiguous(posted.error)))
            && outcome != Failed(Transport)
  {
  }

  /** The revoking classes of the SDK's redaction, and only they, revoke the authority when
      the redacted body arrives under any status but 401, 403 and 429. */
  lemma RedactedBodyRevokesIff(code: nat, raw: string)
    requires code !in {401, 403, 429}
    ensures ClassifyOperationError(SdkError(Status, StatusSource(code, RedactedMessage(false, raw))))
              == ProtocolAuthorityRevoked
       <==> EarlierClass(LowerAll(raw)) in {Some("order_version_mismatch"), Some("balance_allowance_authority")}
  {
  }

  /** Of the failures, those that revoke the authority: three reasons of the SDK's own, and two
      things an answer can say in its body, under any status that is not read first. */
  lemma BodyRevokesIff(f: Failure)
    ensures Reported(f) == ProtocolAuthorityRevoked <==>
            || (f.Invalid? && f.reason in {"authenticated protocol authority is revoked",
                                           "authenticated protocol authority is unavailable",
                                           "authenticated protocol authority changed"})
            || (f.Answered? && f.code / 100 != 5 && f.code !in {401, 403, 429}
                && (Says(f.raw, "order_version_mismatch")
                    || (Says(f.raw, "not enough balance / allowance") && Says(f.raw, "balance: 0"))))
  {
    hide Says, EarlierClass, LowerAll, ParseRetryAfterFromBody;
    if f.Answered? { EarlierClassIs(f.raw); }
  }

  /** What a failure of any other operation is reported as, read off the raw failure: as for a
      POST, except that what a POST leaves in doubt is a transport failure here, and that a body
      which says more is heard under a server error too. */
  function ReportedElsewhere(f: Failure): OperationError {
    match f
    case Lost(_) => Transport
    case Answered(code, raw) =>
      if code / 100 != 5 then Reported(f)
      else if EarlierClass(LowerAll(raw)) == Some("no_match") then NoMatch
      else if EarlierClass(LowerAll(raw)).Some? then ProtocolAuthorityRevoked
      else Transport
    case _ => Reported(f)
  }

  lemma OtherFailuresAreReportedToo(f: Failure)
    ensures ClassifyOperationError(Built(f)) == ReportedElsewhere(f)
  {
    hide RedactedMessage, ParseRetryAfterFromBody, EarlierClass, LowerAll, SaysNoMatch;
    FailureIsReportedFromItsBody(f);
    if f.Answered? && f.code / 100 == 5 {
      ServerErrorIsHeard(f.code, f.raw);
    }
  }

  lemma ServerErrorIsHeard(code: nat, raw: string)
    requires code / 100 == 5
    ensures ClassifyOperationError(Built(Answered(code, raw))) == ReportedElsewhere(Answered(code, raw))
  {
    hide ParseRetryAfterFromBody, SaysNoMatch, LowerAll;
    RedactedSaysNothing();
  }
}
