/**
 The rate-limit hint across two crates: the SDK reduces a 429 body to a closed
 message, and the retry layer reads the hint back out of that message.
 */
module RetryHint {
  import opened Authority
  import opened Text

  const MAX_RETRY_AFTER_SECONDS: nat := 86_400
  const UNDERSCORED := "retry_after"
  const HYPHENATED := "retry-after"

  // ---- the SDK's side -------------------------------------------------------------------

  function Marker(raw: string): (m: Option<nat>)
    ensures m.Some? ==> m.value <= |raw|
  {
    if Find(raw, UNDERSCORED).Some? then Find(raw, UNDERSCORED) else Find(raw, HYPHENATED)
  }

  function BoundedRetryAfter(raw: string): Option<nat> {
    var marker := Marker(raw);
    if marker.None? then None
    else
      var hint := ScannedHint(raw[marker.value..]);
      if hint.None? then None else Some(Min(hint.value, MAX_RETRY_AFTER_SECONDS))
  }

  method ComputeBoundedRetryAfter(raw: string) returns (seconds: Option<nat>)
    ensures seconds == BoundedRetryAfter(raw)
  {
    var marker := Marker(raw);
    if marker.None? { return None; }
    var hint := ScanHint(raw[marker.value..]);
    return if hint.None? then None else Some(Min(hint.value, MAX_RETRY_AFTER_SECONDS));
  }

  /** The classes that are recognised before a rate limit is. */
  function EarlierClass(normalized: string): Option<string> {
    if Contains(normalized, "order_version_mismatch") then Some("order_version_mismatch")
    else if Contains(normalized, "not enough balance / allowance") && Contains(normalized, "balance: 0")
    then Some("balance_allowance_authority")
    else if Contains(normalized, "no orders") || (Contains(normalized, "fak") && Contains(normalized, "match"))
    then Some("no_match")
    else None
  }

  function RedactedMessage(tooManyRequests: bool, raw: string): string {
    var normalized := LowerAll(raw);
    if EarlierClass(normalized).Some? then EarlierClass(normalized).value
    else if !tooManyRequests then "redacted"
    else
      var seconds := BoundedRetryAfter(normalized);
      if seconds.Some? then "retry_after=" + Decimal(seconds.value) else "rate_limited"
  }

  // ---- the retry layer's side --------------------------------------------------------------

  function CiMarker(body: string): (m: Option<nat>) {
    if FindCi(body, UNDERSCORED).Some? then FindCi(body, UNDERSCORED) else FindCi(body, HYPHENATED)
  }

  lemma CiMarkerIsMarker(body: string)
    ensures CiMarker(body) == Marker(LowerAll(body))
  {
    assert LowerAll(UNDERSCORED) == UNDERSCORED;
    assert LowerAll(HYPHENATED) == HYPHENATED;
    FindCiIsFindLower(body, UNDERSCORED);
    FindCiIsFindLower(body, HYPHENATED);
  }

  function ParseRetryAfterFromBody(body: string): Option<nat> {
    CiMarkerIsMarker(body);
    if CiMarker(body).None? then None else ScannedHint(body[CiMarker(body).value..])
  }

  method ComputeRetryAfterFromBody(body: string) returns (seconds: Option<nat>)
    ensures seconds == ParseRetryAfterFromBody(body)
  {
    CiMarkerIsMarker(body);
    var marker := CiMarker(body);
    if marker.None? { return None; }
    seconds := ScanHint(body[marker.value..]);
  }

  // ---- the round trip ------------------------------------------------------------------------

  function Clamped(hint: Option<nat>): Option<nat> {
    if hint.None? then None else Some(Min(hint.value, MAX_RETRY_AFTER_SECONDS))
  }

  /** Both layers find the same number in the same body. */
  lemma BothScannersAgree(raw: string)
    ensures BoundedRetryAfter(LowerAll(raw)) == Clamped(ParseRetryAfterFromBody(raw))
  {
    CiMarkerIsMarker(raw);
    var m := Marker(LowerAll(raw));
    if m.Some? {
      assert LowerAll(raw)[m.value..] == LowerAll(raw[m.value..]);
      LowerKeepsHint(raw[m.value..]);
    }
  }

  /** Reading back a printed hint. */
  lemma PrintedHintParses(n: nat)
    requires n <= U64_MAX
    ensures ParseRetryAfterFromBody("retry_after=" + Decimal(n)) == Some(n)
  {
    var message := "retry_after=" + Decimal(n);
    assert OccursAt(LowerAll(message), UNDERSCORED, 0);
    CiMarkerIsMarker(message);
    assert message[0..] == message;
    SkipOver("retry_after=", Decimal(n));
    DigitsLead(Decimal(n));
  }

  /** Both markers hold a `y` as their fifth byte; a message without one there to match
      has nothing to parse. */
  lemma NoMarkerWithoutY(message: string)
    requires forall i :: 4 <= i < |message| - 6 ==> Lower(message[i]) != 'y'
    ensures ParseRetryAfterFromBody(message) == None
  {
    CiMarkerIsMarker(message);
    var lower := LowerAll(message);
    forall m: nat ensures !OccursAt(lower, UNDERSCORED, m) && !OccursAt(lower, HYPHENATED, m) {
      if m + 11 <= |lower| {
        assert lower[m..m + 11][4] == lower[m + 4];
        assert UNDERSCORED[4] == HYPHENATED[4] == 'y';
      }
    }
  }

  lemma RateLimitedCarriesNoHint()
    ensures ParseRetryAfterFromBody("rate_limited") == None
  {
    NoMarkerWithoutY("rate_limited");
  }

  lemma ShortWordsCarryNoHint()
    ensures ParseRetryAfterFromBody("no_match") == None
    ensures ParseRetryAfterFromBody("redacted") == None
  {
    NoMarkerWithoutY("no_match");
    NoMarkerWithoutY("redacted");
  }

  lemma VersionMismatchCarriesNoHint()
    ensures ParseRetryAfterFromBody("order_version_mismatch") == None
  {
    NoMarkerWithoutY("order_version_mismatch");
  }

  lemma BalanceAuthorityCarriesNoHint()
    ensures ParseRetryAfterFromBody("balance_allowance_authority") == None
  {
    NoMarkerWithoutY("balance_allowance_authority");
  }

  /** For every 429 body: the hint that survives redaction is exactly the hint in the raw
      body, clamped to a day; bodies of the earlier classes carry none. */
  lemma HintSurvivesRedaction(raw: string)
    ensures ParseRetryAfterFromBody(RedactedMessage(true, raw)) ==
            if EarlierClass(LowerAll(raw)).Some? then None else Clamped(ParseRetryAfterFromBody(raw))
  {
    RateLimitedCarriesNoHint();
    ShortWordsCarryNoHint();
    VersionMismatchCarriesNoHint();
    BalanceAuthorityCarriesNoHint();
    BothScannersAgree(raw);
    var seconds := BoundedRetryAfter(LowerAll(raw));
    if seconds.Some? { PrintedHintParses(seconds.value); }
  }

  predicate IsFixedWord(message: string) {
    || message == "order_version_mismatch" || message == "balance_allowance_authority"
    || message == "no_match" || message == "redacted" || message == "rate_limited"
  }

  predicate IsHint(message: string, n: nat) {
    n <= MAX_RETRY_AFTER_SECONDS && message == "retry_after=" + Decimal(n)
  }

  /** Redaction is closed: whatever the body, the message is one of five fixed words or,
      for a rate limit only, a hint of at most a day. */
  lemma RedactionIsClosed(tooManyRequests: bool, raw: string)
    ensures IsFixedWord(RedactedMessage(tooManyRequests, raw))
            || (tooManyRequests && exists n: nat :: IsHint(RedactedMessage(true, raw), n))
  {
    var normalized := LowerAll(raw);
    if EarlierClass(normalized).None? && tooManyRequests && BoundedRetryAfter(normalized).Some? {
      assert IsHint(RedactedMessage(true, raw), BoundedRetryAfter(normalized).value);
    }
  }


  // ---- where a hint is looked for, and what the classes mean -----------------------------------

  /** `word` stands in `raw`, in any case. */
  ghost predicate Says(raw: string, word: string) {
    exists i: nat :: OccursAt(LowerAll(raw), word, i)
  }

  /** `m` is the first place where `word` stands in `raw`. */
  ghost predicate SaysFirstAt(raw: string, word: string, m: nat) {
    OccursAt(LowerAll(raw), word, m) && forall i: nat :: i < m ==> !OccursAt(LowerAll(raw), word, i)
  }

  /** The hint of a body is what is scanned from its first `retry_after` on, or, only without
      one, from its first `retry-after`; without either there is none. */
  lemma HintIsAfterItsMarker(raw: string, m: nat)
    ensures SaysFirstAt(raw, "retry_after", m) ==>
              m <= |raw| && ParseRetryAfterFromBody(raw) == ScannedHint(raw[m..])
    ensures !Says(raw, "retry_after") && SaysFirstAt(raw, "retry-after", m) ==>
              m <= |raw| && ParseRetryAfterFromBody(raw) == ScannedHint(raw[m..])
    ensures !Says(raw, "retry_after") && !Says(raw, "retry-after") ==> ParseRetryAfterFromBody(raw) == None
  {
    CiMarkerIsMarker(raw);
    FoundIffSaid(raw, "retry_after");
    FoundIffSaid(raw, "retry-after");
  }

  lemma FoundIffSaid(raw: string, word: string)
    ensures Find(LowerAll(raw), word).Some? <==> Says(raw, word)
    ensures forall m: nat :: SaysFirstAt(raw, word, m) ==> Find(LowerAll(raw), word) == Some(m)
  {
    var found := Find(LowerAll(raw), word);
    if found.Some? { assert OccursAt(LowerAll(raw), word, found.value); }
  }

  /** The three classes recognised before a rate limit is, in their order. */
  lemma EarlierClassIs(raw: string)
    ensures var kind := EarlierClass(LowerAll(raw));
            var stale := Says(raw, "order_version_mismatch");
            var empty := Says(raw, "not enough balance / allowance") && Says(raw, "balance: 0");
            var unmatched := Says(raw, "no orders") || (Says(raw, "fak") && Says(raw, "match"));
            && (kind == Some("order_version_mismatch") <==> stale)
            && (kind == Some("balance_allowance_authority") <==> !stale && empty)
            && (kind == Some("no_match") <==> !stale && !empty && unmatched)
            && (kind == None <==> !stale && !empty && !unmatched)
  {
    FoundIffSaid(raw, "order_version_mismatch");
    FoundIffSaid(raw, "not enough balance / allowance");
    FoundIffSaid(raw, "balance: 0");
    FoundIffSaid(raw, "no orders");
    FoundIffSaid(raw, "fak");
    FoundIffSaid(raw, "match");
    ClassesDiffer();
  }

  lemma ClassesDiffer()
    ensures "order_version_mismatch" != "balance_allowance_authority"
    ensures "order_version_mismatch" != "no_match" && "balance_allowance_authority" != "no_match"
  {
    assert |"order_version_mismatch"| == 22 && |"balance_allowance_authority"| == 27 && |"no_match"| == 8;
  }

  /** A day is the most any redacted hint asks for, in seconds. */
  lemma HintIsAtMostADay(raw: string)
    requires EarlierClass(LowerAll(raw)).None? && ParseRetryAfterFromBody(raw).Some?
    ensures ParseRetryAfterFromBody(RedactedMessage(true, raw)) == Some(Min(ParseRetryAfterFromBody(raw).value, 86_400))
  {
    HintSurvivesRedaction(raw);
  }

  /** The redacted message, by what the raw body says: the three classes first, then, for a 429
      only, its hint or that it was rate limited, and otherwise nothing. */
  lemma MessageIs(tooManyRequests: bool, raw: string)
    ensures var message := RedactedMessage(tooManyRequests, raw);
            var stale := Says(raw, "order_version_mismatch");
            var empty := Says(raw, "not enough balance / allowance") && Says(raw, "balance: 0");
            var unmatched := Says(raw, "no orders") || (Says(raw, "fak") && Says(raw, "match"));
            var hint := ParseRetryAfterFromBody(raw);
            && (stale ==> message == "order_version_mismatch")
            && (!stale && empty ==> message == "balance_allowance_authority")
            && (!stale && !empty && unmatched ==> message == "no_match")
            && (!stale && !empty && !unmatched && !tooManyRequests ==> message == "redacted")
            && (!stale && !empty && !unmatched && tooManyRequests && hint.None? ==> message == "rate_limited")
            && (!stale && !empty && !unmatched && tooManyRequests && hint.Some? ==>
                  message == "retry_after=" + Decimal(Min(hint.value, 86_400)))
  {
    hide Says, EarlierClass, ParseRetryAfterFromBody, BoundedRetryAfter, Decimal, LowerAll;
    EarlierClassIs(raw);
    BothScannersAgree(raw);
  }
}
