/** Byte strings as the source scans them: one `char` stands for one byte. */
module Text {
  import opened Authority

  predicate IsDigit(c: char) {
    '0' <= c <= '9'
  }

  function DigitValue(c: char): nat
    requires IsDigit(c)
  {
    c as int - '0' as int
  }

  function DigitChar(n: nat): (c: char)
    requires n < 10
    ensures IsDigit(c) && DigitValue(c) == n
  {
    ('0' as int + n) as char
  }

  predicate AllDigits(s: string) {
    forall i :: 0 <= i < |s| ==> IsDigit(s[i])
  }

  /** The number a digit string writes in base ten. */
  function Value(digits: string): nat
    requires AllDigits(digits)
  {
    if digits == "" then 0
    else 10 * Value(digits[..|digits| - 1]) + DigitValue(digits[|digits| - 1])
  }

  lemma ValueAppend(front: string, c: char)
    requires AllDigits(front) && IsDigit(c)
    ensures AllDigits(front + [c]) && Value(front + [c]) == 10 * Value(front) + DigitValue(c)
  {
    var s := front + [c];
    assert s[..|s| - 1] == front;
  }

  lemma ValueOfOne(c: char)
    requires IsDigit(c)
    ensures AllDigits([c]) && Value([c]) == DigitValue(c)
  {
    hide Value;
    ValueOfNone();
    ValueAppend("", c);
    assert "" + [c] == [c];
  }

  lemma ValueOfNone()
    ensures Value("") == 0
  {
  }

  /** Decimal rendering without leading zeros. */
  function Decimal(n: nat): (s: string)
    ensures s != "" && AllDigits(s) && Value(s) == n
  {
    hide Value, AllDigits;
    var last := DigitChar(n % 10);
    if n < 10 then
      ValueOfOne(last);
      [last]
    else
      var front := Decimal(n / 10);
      ValueAppend(front, last);
      front + [last]
  }

  /** Where `c` first stands in `s`, or the end of `s`. */
  function FirstOf(s: string, c: char): (n: nat)
    ensures n <= |s| && c !in s[..n]
    ensures n < |s| ==> s[n] == c
  {
    if s == "" || s[0] == c then 0
    else
      var n := FirstOf(s[1..], c);
      assert s[..n + 1] == [s[0]] + s[1..][..n];
      n + 1
  }

  lemma {:induction false} FirstOfIs(s: string, c: char, n: nat)
    requires n <= |s| && c !in s[..n]
    requires n < |s| ==> s[n] == c
    ensures FirstOf(s, c) == n
    decreases n
  {
    if n > 0 {
      assert s[..n] == [s[0]] + s[1..][..n - 1];
      FirstOfIs(s[1..], c, n - 1);
    }
  }

  function Lower(c: char): (l: char)
    ensures IsDigit(l) <==> IsDigit(c)
    ensures !('A' <= l <= 'Z')
  {
    if 'A' <= c <= 'Z' then (c as int + 32) as char else c
  }

  /** `to_ascii_lowercase`. */
  function LowerAll(s: string): (l: string)
    ensures |l| == |s|
  {
    seq(|s|, i requires 0 <= i < |s| => Lower(s[i]))
  }

  const MAX_VENUE_IDENTIFIER_BYTES: nat := 512

  /** The closed alphabet of trade and order identifiers. */
  predicate VenueIdentifierIsValid(value: string) {
    && 1 <= |value| <= MAX_VENUE_IDENTIFIER_BYTES
    && forall i :: 0 <= i < |value| ==> InAlphabet(value[i])
  }

  predicate InAlphabet(c: char) {
    'a' <= c <= 'z' || 'A' <= c <= 'Z' || IsDigit(c) || c == '-' || c == '_'
  }

  predicate OccursAt(s: string, needle: string, i: nat) {
    i + |needle| <= |s| && s[i..i + |needle|] == needle
  }

  function FindFrom(s: string, needle: string, i: nat): (r: Option<nat>)
    ensures r.Some? ==> i <= r.value && OccursAt(s, needle, r.value)
    ensures forall j: nat :: i <= j && OccursAt(s, needle, j) ==> r.Some? && r.value <= j
    decreases |s| - i
  {
    if i + |needle| > |s| then None
    else if s[i..i + |needle|] == needle then Some(i)
    else FindFrom(s, needle, i + 1)
  }

  /** First occurrence, as `str::find`. */
  function Find(s: string, needle: string): Option<nat> {
    FindFrom(s, needle, 0)
  }

  predicate Contains(s: string, needle: string) {
    Find(s, needle).Some?
  }

  /** First occurrence ignoring ASCII case, window by window. */
  function FindCiFrom(s: string, needle: string, i: nat): (r: Option<nat>)
    decreases |s| - i
  {
    if i + |needle| > |s| then None
    else if LowerAll(s[i..i + |needle|]) == LowerAll(needle) then Some(i)
    else FindCiFrom(s, needle, i + 1)
  }

  function FindCi(s: string, needle: string): Option<nat> {
    if needle == "" || |needle| > |s| then None else FindCiFrom(s, needle, 0)
  }

  lemma {:induction false} FindCiFromIsFindLower(s: string, needle: string, i: nat)
    requires LowerAll(needle) == needle
    ensures FindCiFrom(s, needle, i) == FindFrom(LowerAll(s), needle, i)
    decreases |s| - i
  {
    if i + |needle| <= |s| {
      assert LowerAll(s[i..i + |needle|]) == LowerAll(s)[i..i + |needle|];
      FindCiFromIsFindLower(s, needle, i + 1);
    }
  }

  /** Searching without case is searching the lower-cased text. */
  lemma FindCiIsFindLower(s: string, needle: string)
    requires needle != "" && LowerAll(needle) == needle
    ensures FindCi(s, needle) == Find(LowerAll(s), needle)
  {
    FindCiFromIsFindLower(s, needle, 0);
  }

  // ---- the first run of digits ----------------------------------------------------------

  function SkipToDigit(s: string): string {
    if s == "" || IsDigit(s[0]) then s else SkipToDigit(s[1..])
  }

  function LeadingDigits(s: string): (d: string)
    ensures AllDigits(d)
  {
    if s == "" || !IsDigit(s[0]) then "" else [s[0]] + LeadingDigits(s[1..])
  }

  function FirstRun(s: string): (d: string)
    ensures AllDigits(d)
  {
    LeadingDigits(SkipToDigit(s))
  }

  function Min(a: nat, b: nat): nat { if a < b then a else b }

  function SaturatingAppend(value: nat, digit: nat): nat {
    Min(Min(value * 10, U64_MAX) + digit, U64_MAX)
  }

  lemma SaturatingValue(pre: string, c: char)
    requires AllDigits(pre) && IsDigit(c)
    ensures SaturatingAppend(Min(Value(pre), U64_MAX), DigitValue(c)) == Min(Value(pre + [c]), U64_MAX)
  {
    ValueAppend(pre, c);
  }

  /** What both hint scanners compute: the first run of digits, saturated. */
  function ScannedHint(tail: string): Option<nat> {
    if FirstRun(tail) == "" then None else Some(Min(Value(FirstRun(tail)), U64_MAX))
  }

  /** The scanning loop, byte by byte. */
  method ScanHint(tail: string) returns (hint: Option<nat>)
    ensures hint == ScannedHint(tail)
  {
    var value: nat, foundDigit := 0, false;
    ghost var pre := "";
    var i := 0;
    while i < |tail|
      invariant 0 <= i <= |tail| && AllDigits(pre)
      invariant !foundDigit ==> pre == "" && value == 0 && SkipToDigit(tail) == SkipToDigit(tail[i..])
      invariant foundDigit ==> pre != "" && FirstRun(tail) == pre + LeadingDigits(tail[i..])
                               && value == Min(Value(pre), U64_MAX)
    {
      var b := tail[i];
      if IsDigit(b) {
        SaturatingValue(pre, b);
        assert tail[i..][1..] == tail[i + 1..];
        assert pre + LeadingDigits(tail[i..]) == (pre + [b]) + LeadingDigits(tail[i + 1..]);
        foundDigit := true;
        value := SaturatingAppend(value, DigitValue(b));
        pre := pre + [b];
      } else if foundDigit {
        break;
      } else {
        assert tail[i..][1..] == tail[i + 1..];
      }
      i := i + 1;
    }
    assert foundDigit ==> FirstRun(tail) == pre;
    return if foundDigit then Some(value) else None;
  }

  lemma {:induction false} SkipOver(prefix: string, s: string)
    requires forall i :: 0 <= i < |prefix| ==> !IsDigit(prefix[i])
    ensures SkipToDigit(prefix + s) == SkipToDigit(s)
  {
    if prefix == "" {
      assert prefix + s == s;
    } else {
      assert (prefix + s)[1..] == prefix[1..] + s;
      SkipOver(prefix[1..], s);
    }
  }

  lemma {:induction false} DigitsLead(d: string)
    requires AllDigits(d)
    ensures LeadingDigits(d) == d
  {
    if d != "" { DigitsLead(d[1..]); }
  }

  lemma {:induction false} LowerKeepsSkip(s: string)
    ensures SkipToDigit(LowerAll(s)) == LowerAll(SkipToDigit(s))
  {
    if s != "" && !IsDigit(s[0]) {
      assert LowerAll(s)[1..] == LowerAll(s[1..]);
      LowerKeepsSkip(s[1..]);
    }
  }

  lemma {:induction false} LowerKeepsDigits(s: string)
    ensures LeadingDigits(LowerAll(s)) == LeadingDigits(s)
  {
    if s != "" && IsDigit(s[0]) {
      assert LowerAll(s)[1..] == LowerAll(s[1..]);
      LowerKeepsDigits(s[1..]);
    }
  }

  /** Lower-casing a text does not change the number scanned in it. */
  lemma LowerKeepsHint(s: string)
    ensures ScannedHint(LowerAll(s)) == ScannedHint(s)
  {
    LowerKeepsSkip(s);
    LowerKeepsDigits(SkipToDigit(s));
  }


  /** What a scan finds: the first run of digits, whatever stands before it and whatever but a
      digit stands after it, as a number that sticks at the largest 64-bit one. */
  lemma {:induction false} ScanFindsFirstRun(before: string, digits: string, rest: string)
    requires forall i :: 0 <= i < |before| ==> !IsDigit(before[i])
    requires digits != "" && AllDigits(digits) && (rest == "" || !IsDigit(rest[0]))
    ensures ScannedHint(before + digits + rest) == Some(Min(Value(digits), 18_446_744_073_709_551_615))
  {
    assert before + digits + rest == before + (digits + rest);
    SkipOver(before, digits + rest);
    RunLeads(digits, rest);
    assert (digits + rest)[0] == digits[0];
  }

  lemma {:induction false} RunLeads(digits: string, rest: string)
    requires AllDigits(digits) && (rest == "" || !IsDigit(rest[0]))
    ensures LeadingDigits(digits + rest) == digits
  {
    if digits == "" {
      assert digits + rest == rest;
    } else {
      assert (digits + rest)[1..] == digits[1..] + rest;
      RunLeads(digits[1..], rest);
      assert digits == [digits[0]] + digits[1..];
    }
  }

  lemma {:induction false} NothingToScan(s: string)
    requires forall i :: 0 <= i < |s| ==> !IsDigit(s[i])
    ensures ScannedHint(s) == None
  {
    SkipOver(s, "");
    assert s + "" == s;
  }

  /** An identifier is valid exactly when it has 1 to 512 characters, each an ASCII digit (48 to
      57), capital (65 to 90), small letter (97 to 122), hyphen (45) or underscore (95). */
  lemma IdentifierIsValidIff(value: string)
    ensures VenueIdentifierIsValid(value) <==>
            1 <= |value| <= 512
            && forall i :: 0 <= i < |value| ==>
                 var code := value[i] as int;
                 48 <= code <= 57 || 65 <= code <= 90 || 97 <= code <= 122 || code == 45 || code == 95
  {
  }

  /** Lowering identifies exactly the two cases of each ASCII letter, in favour of the small one,
      and changes nothing else. */
  lemma LowerIdentifiesIff(c: char, d: char)
    ensures Lower(c) == Lower(d) <==>
            || c == d || (65 <= c as int <= 90 && d as int == c as int + 32) || (65 <= d as int <= 90 && c as int == d as int + 32)
    ensures !(65 <= c as int <= 90) ==> Lower(c) == c
    ensures LowerAll([c]) == [Lower(c)]
  {
  }
}
