/** Paths into JSON values: parsing, printing and following them. */
module JsonPath {
  import opened Authority
  import opened Text

  datatype Json = Object(fields: map<string, Json>) | Array(items: seq<Json>) | Scalar(token: string)

  predicate Special(c: char) {
    c == '.' || c == '[' || c == ']'
  }

  predicate Plain(s: string) {
    forall i :: 0 <= i < |s| ==> !Special(s[i])
  }

  // ---- parsing -----------------------------------------------------------------------------

  function Flush(current: string): seq<string> {
    if current == "" then [] else [current]
  }

  /** What a bracket opened just before `s` holds. */
  function InBracket(s: string): string {
    s[..FirstOf(s, ']')]
  }

  /** What follows the bracket opened just before `s`. */
  function AfterBracket(s: string): string {
    var n := FirstOf(s, ']');
    if n == |s| then "" else s[n + 1..]
  }

  /** The segments of `path` when `current` has been collected already. */
  function Segments(path: string, current: string): seq<string>
    decreases |path|
  {
    if path == "" then Flush(current)
    else
      var rest := path[1..];
      match path[0]
      case '.' => Flush(current) + Segments(rest, "")
      case '[' => Flush(current) + (Flush(InBracket(rest)) + Segments(AfterBracket(rest), ""))
      case ']' => Segments(rest, current)
      case ch => Segments(rest, current + [ch])
  }

  method ParsePathSegments(path: string) returns (segments: seq<string>)
    ensures segments == Segments(path, "")
  {
    hide Segments, FirstOf, InBracket, AfterBracket, Flush, Collected;
    segments := [];
    var current := "";
    var i := 0;
    assert path[0..] == path;
    while i < |path|
      invariant i <= |path|
      invariant segments + Segments(path[i..], current) == Segments(path, "")
    {
      SegmentsStep(path, i, current);
      var ch := path[i];
      i := i + 1;
      ghost var rest := path[i..];
      if ch == '.' {
        FlushAppends(segments, current, Segments(rest, ""));
        if current != "" { segments, current := segments + [current], ""; }
      } else if ch == '[' {
        ghost var after := Segments(AfterBracket(rest), "");
        TwoFlushesAppend(segments, current, InBracket(rest), after);
        if current != "" { segments, current := segments + [current], ""; }
        ghost var start := i;
        NothingCollected(path, start);
        while i < |path|
          invariant start <= i <= |path| && Collected(path, start, i, current)
        {
          CollectOne(path, start, i, current);
          var inner := path[i];
          i := i + 1;
          if inner == ']' { break; }
          current := current + [inner];
        }
        BracketIsRead(path, start, current, i);
        if current != "" { segments, current := segments + [current], ""; }
      } else if ch == ']' {
      } else {
        current := current + [ch];
      }
    }
    SegmentsEnd(path[i..], current);
    FlushAppends(segments, current, []);
    assert Flush(current) + [] == Flush(current);
    if current != "" { segments := segments + [current]; }
    assert segments + [] == segments;
  }

  /** What has been read of a bracket that is still open. */
  predicate Collected(path: string, start: nat, i: nat, inner: string) {
    start <= i <= |path| && inner == path[start..i] && ']' !in inner
  }

  lemma NothingCollected(path: string, start: nat)
    requires start <= |path|
    ensures Collected(path, start, start, "")
  {
  }

  lemma CollectOne(path: string, start: nat, i: nat, inner: string)
    requires Collected(path, start, i, inner) && i < |path|
    ensures path[i] != ']' ==> Collected(path, start, i + 1, inner + [path[i]])
  {
    assert path[start..i + 1] == path[start..i] + [path[i]];
  }

  lemma BracketIsRead(path: string, start: nat, inner: string, i: nat)
    requires start <= i <= |path|
    requires (Collected(path, start, i, inner) && i == |path|)
             || (i > start && Collected(path, start, i - 1, inner) && path[i - 1] == ']')
    ensures inner == InBracket(path[start..]) && path[i..] == AfterBracket(path[start..])
  {
    BracketEnds(path, start, inner, i);
  }

  lemma FlushAppends(segments: seq<string>, current: string, rest: seq<string>)
    ensures segments + (Flush(current) + rest) == (if current != "" then segments + [current] else segments) + rest
  {
  }

  lemma TwoFlushesAppend(segments: seq<string>, current: string, inner: string, rest: seq<string>)
    ensures var once := if current != "" then segments + [current] else segments;
            segments + (Flush(current) + (Flush(inner) + rest)) == (if inner != "" then once + [inner] else once) + rest
  {
  }

  lemma SegmentsEnd(path: string, current: string)
    requires path == ""
    ensures Segments(path, current) == Flush(current)
  {
  }

  /** What one character does to the segments that remain. */
  lemma SegmentsStep(path: string, i: nat, current: string)
    requires i < |path|
    ensures var rest := path[i + 1..];
            Segments(path[i..], current) == (
              match path[i]
              case '.' => Flush(current) + Segments(rest, "")
              case '[' => Flush(current) + (Flush(InBracket(rest)) + Segments(AfterBracket(rest), ""))
              case ']' => Segments(rest, current)
              case ch => Segments(rest, current + [ch]))
  {
    assert path[i..][1..] == path[i + 1..];
  }

  lemma BracketEnds(path: string, start: nat, inner: string, i: nat)
    requires start <= i <= |path| && ']' !in inner
    requires (inner == path[start..i] && i == |path|) || (i > start && inner == path[start..i - 1] && path[i - 1] == ']')
    ensures inner == InBracket(path[start..]) && path[i..] == AfterBracket(path[start..])
  {
    var rest := path[start..];
    assert rest[..|inner|] == inner;
    FirstOfIs(rest, ']', |inner|);
  }

  /** No segment is empty and none holds a closing bracket; each is shorter than a path that
      holds a special character. */
  lemma {:induction false} SegmentShape(path: string, current: string)
    requires ']' !in current
    ensures forall s :: s in Segments(path, current) ==> s != "" && ']' !in s && |s| <= |path| + |current|
    ensures !Plain(path) ==> forall s :: s in Segments(path, current) ==> |s| < |path| + |current|
    decreases |path|
  {
    if path != "" {
      var rest := path[1..];
      match path[0] {
        case '.' => SegmentShape(rest, "");
        case '[' => SegmentShape(AfterBracket(rest), "");
        case ']' => SegmentShape(rest, current);
        case ch =>
          SegmentShape(rest, current + [ch]);
          if !Plain(path) {
            var i :| 0 <= i < |path| && Special(path[i]);
            assert Special(rest[i - 1]);
          }
      }
    }
  }

  // ---- printing ----------------------------------------------------------------------------

  datatype Style = Dotted | Bracketed

  datatype Step = Step(name: string, style: Style)

  predicate Printable(step: Step) {
    step.name != "" && if step.style.Dotted? then Plain(step.name) else ']' !in step.name
  }

  function Names(steps: seq<Step>): (names: seq<string>)
    ensures |names| == |steps| && forall i :: 0 <= i < |steps| ==> names[i] == steps[i].name
  {
    seq(|steps|, i requires 0 <= i < |steps| => steps[i].name)
  }

  /** A dot separates a dotted step from what precedes it. */
  function Render(steps: seq<Step>, first: bool): string {
    if steps == [] then ""
    else RenderStep(steps[0], first) + Render(steps[1..], false)
  }

  function RenderStep(step: Step, first: bool): string {
    if step.style.Bracketed? then "[" + step.name + "]"
    else if first then step.name
    else "." + step.name
  }

  lemma {:induction false} CollectPlain(name: string, tail: string, current: string)
    requires Plain(name)
    ensures Segments(name + tail, current) == Segments(tail, current + name)
    decreases |name|
  {
    if name == "" {
      assert name + tail == tail && current + name == current;
    } else {
      assert (name + tail)[1..] == name[1..] + tail;
      assert current + [name[0]] + name[1..] == current + name;
      CollectPlain(name[1..], tail, current + [name[0]]);
    }
  }

  lemma CollectBracket(name: string, tail: string, current: string)
    requires ']' !in name
    ensures Segments("[" + name + "]" + tail, current) == Flush(current) + (Flush(name) + Segments(tail, ""))
  {
    var path := "[" + name + "]" + tail;
    var rest := name + "]" + tail;
    assert path[1..] == rest;
    BracketEnds(rest, 0, name, |name| + 1);
    assert rest[0..] == rest && rest[|name| + 1..] == tail;
  }

  lemma SegmentsAtDot(rest: string, current: string)
    ensures Segments("." + rest, current) == Flush(current) + Segments(rest, "")
  {
    assert ("." + rest)[1..] == rest;
  }

  /** A dotted name from its first character on. */
  lemma ParseName(name: string, tail: string)
    requires Plain(name)
    ensures Segments(name + tail, "") == Segments(tail, name)
  {
    hide Segments;
    CollectPlain(name, tail, "");
    assert "" + name == name;
  }

  lemma ParseStep(step: Step, tail: string, first: bool, current: string)
    requires Printable(step) && (first ==> current == "")
    ensures Segments(RenderStep(step, first) + tail, current)
         == Flush(current) + if step.style.Dotted? then Segments(tail, step.name) else [step.name] + Segments(tail, "")
  {
    hide Segments, Plain;
    var name := step.name;
    if step.style.Bracketed? {
      CollectBracket(name, tail, current);
    } else if first {
      ParseName(name, tail);
      assert [] + Segments(tail, name) == Segments(tail, name);
    } else {
      ParseName(name, tail);
      SegmentsAtDot(name + tail, current);
      assert "." + name + tail == "." + (name + tail);
    }
  }

  lemma {:induction false} ParseRendered(steps: seq<Step>, first: bool, current: string)
    requires forall i :: 0 <= i < |steps| ==> Printable(steps[i])
    requires first ==> current == ""
    ensures Segments(Render(steps, first), current) == Flush(current) + Names(steps)
    decreases |steps|
  {
    hide Segments, RenderStep, Printable, Flush;
    if steps == [] {
      SegmentsEnd("", current);
      assert Names(steps) == [];
    } else {
      var step, rest := steps[0], steps[1..];
      var tail := Render(rest, false);
      assert Printable(step);
      ParseStep(step, tail, first, current);
      FlushName(step);
      ParseRendered(rest, false, if step.style.Dotted? then step.name else "");
      NamesSplit(steps);
      assert [] + Names(rest) == Names(rest);
    }
  }

  lemma NamesSplit(steps: seq<Step>)
    requires steps != []
    ensures Names(steps) == [steps[0].name] + Names(steps[1..])
  {
  }

  lemma FlushName(step: Step)
    requires Printable(step)
    ensures Flush(step.name) == [step.name] && Flush("") == []
  {
  }

  /** Parsing undoes printing, whichever style each segment is printed in: dotted segments
      must be free of `.`, `[` and `]`, bracketed ones of `]` only. */
  lemma ParsingUndoesPrinting(steps: seq<Step>)
    requires forall i :: 0 <= i < |steps| ==> Printable(steps[i])
    ensures Segments(Render(steps, true), "") == Names(steps)
  {
    ParseRendered(steps, true, "");
  }

  /** The segment lists some path parses to are exactly those without empty segments and
      without closing brackets. */
  lemma ParsedIffPrintable(segments: seq<string>)
    ensures (exists path :: Segments(path, "") == segments)
       <==> forall i :: 0 <= i < |segments| ==> segments[i] != "" && ']' !in segments[i]
  {
    forall path | Segments(path, "") == segments
      ensures forall i :: 0 <= i < |segments| ==> segments[i] != "" && ']' !in segments[i]
    {
      SegmentShape(path, "");
    }
    if forall i :: 0 <= i < |segments| ==> segments[i] != "" && ']' !in segments[i] {
      var steps := seq(|segments|, i requires 0 <= i < |segments| => Step(segments[i], Bracketed));
      ParsingUndoesPrinting(steps);
      assert Names(steps) == segments;
    }
  }

  // ---- following -----------------------------------------------------------------------------

  /** Rust's `usize` parser on a 64-bit target: an optional plus sign, then digits. */
  function ParseUsize(s: string): Option<nat> {
    var digits := if s != "" && s[0] == '+' then s[1..] else s;
    if digits == "" || !AllDigits(digits) || Value(digits) > U64_MAX then None else Some(Value(digits))
  }

  /** One segment further down; the container decides what the segment means. */
  function Descend(value: Json, segment: string): Option<Json> {
    match value
    case Object(fields) => if segment in fields then Some(fields[segment]) else None
    case Array(items) =>
      var index := ParseUsize(segment);
      if index.Some? && index.value < |items| then Some(items[index.value]) else None
    case Scalar(_) => None
  }

  function Follow(value: Json, segments: seq<string>): Option<Json>
    decreases |segments|
  {
    if segments == [] then Some(value)
    else if segments[0] == "?" then Follow(value, segments[1..])
    else
      var next := Descend(value, segments[0]);
      if next.None? then None else Follow(next.value, segments[1..])
  }

  method LookupValue(value: Json, path: string) returns (found: Option<Json>)
    ensures found == Follow(value, Segments(path, ""))
  {
    if path == "" { return Some(value); }
    var current := value;
    var segments := ParsePathSegments(path);
    SegmentShape(path, "");
    for i := 0 to |segments|
      invariant Follow(current, segments[i..]) == Follow(value, segments)
    {
      var segment := segments[i];
      assert segments[i..][1..] == segments[i + 1..];
      if segment == "" || segment == "?" { continue; }
      match current
      case Object(fields) =>
        if segment !in fields { return None; }
        current := fields[segment];
      case Array(items) =>
        var index := ParseUsize(segment);
        if index.None? || index.value >= |items| { return None; }
        current := items[index.value];
      case Scalar(_) => return None;
    }
    return Some(current);
  }

  // ---- the paths deserializers print ------------------------------------------------------------

  /** A step of a deserializer: into a field, into an array element, or through an optional. */
  datatype Access = Field(name: string) | Index(index: nat) | Wrapper

  function Reach(value: Json, accesses: seq<Access>): Option<Json>
    decreases |accesses|
  {
    if accesses == [] then Some(value)
    else
      match accesses[0]
      case Wrapper => Reach(value, accesses[1..])
      case Field(name) =>
        if value.Object? && name in value.fields then Reach(value.fields[name], accesses[1..]) else None
      case Index(index) =>
        if value.Array? && index < |value.items| then Reach(value.items[index], accesses[1..]) else None
  }

  function Printed(access: Access): string {
    match access
    case Field(name) => name
    case Index(index) => Decimal(index)
    case Wrapper => "?"
  }

  predicate PrintableAccess(access: Access, style: Style) {
    match access
    case Field(name) => name != "?" && Printable(Step(name, style))
    case Index(index) => index <= U64_MAX
    case Wrapper => true
  }

  function Steps(accesses: seq<Access>, styles: seq<Style>): (steps: seq<Step>)
    requires |styles| == |accesses|
    ensures |steps| == |accesses|
    ensures forall i :: 0 <= i < |steps| ==> steps[i] == Step(Printed(accesses[i]), styles[i])
  {
    seq(|accesses|, i requires 0 <= i < |accesses| => Step(Printed(accesses[i]), styles[i]))
  }

  lemma DecimalParses(n: nat)
    requires n <= U64_MAX
    ensures Plain(Decimal(n)) && ']' !in Decimal(n) && Decimal(n) != "?"
    ensures ParseUsize(Decimal(n)) == Some(n)
  {
    hide Decimal, Value;
    var s := Decimal(n);
    assert IsDigit(s[0]);
    assert forall i :: 0 <= i < |s| ==> IsDigit(s[i]);
  }

  lemma {:induction false} FollowReaches(value: Json, accesses: seq<Access>, styles: seq<Style>)
    requires |styles| == |accesses|
    requires forall i :: 0 <= i < |accesses| ==> PrintableAccess(accesses[i], styles[i])
    requires Reach(value, accesses).Some?
    ensures Follow(value, Names(Steps(accesses, styles))) == Reach(value, accesses)
    decreases |accesses|
  {
    hide Decimal, ParseUsize, Plain, Printable;
    if accesses != [] {
      var names := Names(Steps(accesses, styles));
      assert names[1..] == Names(Steps(accesses[1..], styles[1..]));
      match accesses[0] {
        case Wrapper => FollowReaches(value, accesses[1..], styles[1..]);
        case Field(name) => FollowReaches(value.fields[name], accesses[1..], styles[1..]);
        case Index(index) =>
          DecimalParses(index);
          FollowReaches(value.items[index], accesses[1..], styles[1..]);
      }
    }
  }

  /** A printed path leads back to the value it was printed for: through objects, arrays and
      optionals, with every index and field in either style. */
  lemma PrintedPathFindsItsValue(value: Json, accesses: seq<Access>, styles: seq<Style>)
    requires |styles| == |accesses|
    requires forall i :: 0 <= i < |accesses| ==> PrintableAccess(accesses[i], styles[i])
    requires Reach(value, accesses).Some?
    ensures Follow(value, Segments(Render(Steps(accesses, styles), true), "")) == Reach(value, accesses)
  {
    hide Decimal, ParseUsize;
    var steps := Steps(accesses, styles);
    forall i | 0 <= i < |steps| ensures Printable(steps[i]) {
      if accesses[i].Index? { DecimalParses(accesses[i].index); }
    }
    ParsingUndoesPrinting(steps);
    FollowReaches(value, accesses, styles);
  }

  /** One segment survives printing and parsing exactly when it is printable. */
  lemma SegmentSurvivesIff(step: Step)
    ensures Segments(RenderStep(step, true), "") == [step.name] <==> Printable(step)
  {
    var path := RenderStep(step, true);
    assert Render([step], true) == path;
    SegmentShape(path, "");
    if Printable(step) {
      ParsingUndoesPrinting([step]);
      assert Names([step]) == [step.name];
    } else {
      assert step.name !in Segments(path, "");
      assert step.name in [step.name];
    }
  }

  /** A key is found in every object that has it exactly when it is printable in the chosen
      style and is not the `?` that stands for an optional. */
  lemma KeyIsFoundIff(key: string, style: Style)
    ensures (forall fields: map<string, Json> | key in fields ::
               Follow(Object(fields), Segments(Render([Step(key, style)], true), "")) == Some(fields[key]))
       <==> PrintableAccess(Field(key), style)
  {
    var step := Step(key, style);
    var path := Render([step], true);
    assert path == RenderStep(step, true);
    if PrintableAccess(Field(key), style) {
      ParsingUndoesPrinting([step]);
      assert Names([step]) == [key];
    } else {
      var only := Object(map[key := Scalar("")]);
      KeyIsMissed(key, style);
      assert Follow(only, Segments(path, "")) != Some(only.fields[key]);
    }
  }

  lemma KeyIsMissed(key: string, style: Style)
    requires !PrintableAccess(Field(key), style)
    ensures Follow(Object(map[key := Scalar("")]), Segments(RenderStep(Step(key, style), true), "")) != Some(Scalar(""))
  {
    var path := RenderStep(Step(key, style), true);
    SegmentShape(path, "");
    var segments := Segments(path, "");
    if key == "?" {
      ParseRendered([Step(key, style)], true, "");
      assert Render([Step(key, style)], true) == path;
    } else {
      forall s | s in segments ensures s != key {
        if style.Dotted? && key != "" { assert path == key && !Plain(path); }
      }
    }
    NeverLeaves(key, segments);
  }

  /** Segments that are all `?` or different from the only key lead nowhere. */
  lemma {:induction false} NeverLeaves(key: string, segments: seq<string>)
    requires forall s :: s in segments ==> s == "?" || s != key
    ensures var only := Object(map[key := Scalar("")]);
            Follow(only, segments) in {None, Some(only)}
    decreases |segments|
  {
    if segments != [] {
      assert segments[0] in segments;
      if segments[0] == "?" {
        assert forall s :: s in segments[1..] ==> s in segments;
        NeverLeaves(key, segments[1..]);
      }
    }
  }


  /** Which texts are array indexes: digits, with or without one plus sign, up to 64 bits. */
  lemma IndexTextIs(digits: string)
    requires digits != "" && AllDigits(digits)
    ensures ParseUsize(digits) == ParseUsize("+" + digits)
    ensures ParseUsize(digits) == if Value(digits) <= 18_446_744_073_709_551_615 then Some(Value(digits)) else None
  {
    assert ("+" + digits)[1..] == digits;
    assert IsDigit(digits[0]);
  }

  /** Anything else is not: no sign alone, no second sign, nothing but digits. */
  lemma OtherTextIsNoIndex(s: string)
    requires forall digits :: digits != "" && AllDigits(digits) ==> s != digits && s != "+" + digits
    ensures ParseUsize(s).None?
  {
    if s != "" && s[0] == '+' {
      assert s == "+" + s[1..];
    }
  }

  /** Where a lookup stops with nothing: below a scalar, at a missing key, at an index out of
      range or a text that is no index. */
  lemma LookupStops(value: Json, segment: string, rest: seq<string>)
    requires segment != "?"
    ensures value.Scalar? ==> Follow(value, [segment] + rest) == None
    ensures value.Object? && segment !in value.fields ==> Follow(value, [segment] + rest) == None
    ensures value.Array? && (ParseUsize(segment).None? || ParseUsize(segment).value >= |value.items|) ==>
              Follow(value, [segment] + rest) == None
  {
    assert ([segment] + rest)[1..] == rest;
  }

  // ---- the parser on any path at all -----------------------------------------------------------

  /** Whether `path`, read from inside a bracket or not, ends inside one. */
  predicate EndsInside(path: string, inside: bool) {
    if path == "" then inside
    else EndsInside(path[1..], if inside then path[0] != ']' else path[0] == '[')
  }

  /** The segments finished by the end of `path`, and what has been collected since. */
  function Finished(path: string, current: string): (seq<string>, string)
    decreases |path|
  {
    if path == "" then ([], current)
    else
      var rest := path[1..];
      match path[0]
      case '.' => Before(Flush(current), Finished(rest, ""))
      case '[' => Before(Flush(current) + Flush(InBracket(rest)), Finished(AfterBracket(rest), ""))
      case ']' => Finished(rest, current)
      case ch => Finished(rest, current + [ch])
  }

  function Before(front: seq<string>, rest: (seq<string>, string)): (seq<string>, string) {
    (front + rest.0, rest.1)
  }

  lemma {:induction false} InsideUntilBracket(path: string)
    ensures EndsInside(path, true) == if FirstOf(path, ']') == |path| then true else EndsInside(AfterBracket(path), false)
    decreases |path|
  {
    if path != "" && path[0] != ']' {
      InsideUntilBracket(path[1..]);
      var n := FirstOf(path[1..], ']');
      if n < |path| - 1 { assert path[1..][n + 1..] == path[n + 2..]; }
    }
  }

  lemma SlicesOfConcat(path: string, tail: string, n: nat)
    requires n < |path|
    ensures (path + tail)[..n] == path[..n] && (path + tail)[n + 1..] == path[n + 1..] + tail
  {
  }

  lemma FirstOfContinues(path: string, tail: string)
    requires FirstOf(path, ']') < |path|
    ensures FirstOf(path + tail, ']') == FirstOf(path, ']')
  {
    hide FirstOf;
    var n := FirstOf(path, ']');
    SlicesOfConcat(path, tail, n);
    FirstOfIs(path + tail, ']', n);
  }

  lemma ClosedBracketContinues(path: string, tail: string)
    requires FirstOf(path, ']') < |path|
    ensures InBracket(path + tail) == InBracket(path) && AfterBracket(path + tail) == AfterBracket(path) + tail
  {
    hide FirstOf;
    FirstOfContinues(path, tail);
    SlicesOfConcat(path, tail, FirstOf(path, ']'));
  }

  /** A part that ends outside a bracket is parsed the same whatever follows it. */
  lemma {:induction false} PartIsParsed(path: string, tail: string, current: string)
    requires !EndsInside(path, false)
    ensures Segments(path + tail, current)
         == Finished(path, current).0 + Segments(tail, Finished(path, current).1)
    decreases |path|
  {
    hide InBracket, Flush, FirstOf;
    if path == "" {
      assert path + tail == tail;
    } else {
      var rest := path[1..];
      assert (path + tail)[1..] == rest + tail;
      match path[0] {
        case '.' => PartIsParsed(rest, tail, "");
        case '[' =>
          InsideUntilBracket(rest);
          ClosedBracketContinues(rest, tail);
          PartIsParsed(AfterBracket(rest), tail, "");
        case ']' => PartIsParsed(rest, tail, current);
        case ch => PartIsParsed(rest, tail, current + [ch]);
      }
    }
  }

  lemma PartAlone(path: string)
    requires !EndsInside(path, false)
    ensures Segments(path, "") == Finished(path, "").0 + Flush(Finished(path, "").1)
  {
    PartIsParsed(path, "", "");
    assert path + "" == path;
  }

  /** A dot outside a bracket separates what stands on its two sides. */
  lemma DotSeparates(path: string, tail: string)
    requires !EndsInside(path, false)
    ensures Segments(path + "." + tail, "") == Segments(path, "") + Segments(tail, "")
  {
    hide Finished, Flush;
    PartAlone(path);
    PartIsParsed(path, "." + tail, "");
    SegmentsAtDot(tail, Finished(path, "").1);
    assert path + "." + tail == path + ("." + tail);
  }

  /** A bracket separates too, and what it holds is one segment, punctuation included, unless
      it is empty; one that is never closed holds all that follows. */
  lemma BracketSeparates(path: string, name: string, tail: string)
    requires !EndsInside(path, false) && ']' !in name
    ensures Segments(path + "[" + name + "]" + tail, "")
         == Segments(path, "") + (if name == "" then [] else [name]) + Segments(tail, "")
    ensures Segments(path + "[" + name, "") == Segments(path, "") + (if name == "" then [] else [name])
  {
    hide Finished, Segments;
    PartAlone(path);
    var left := Finished(path, "").1;
    PartIsParsed(path, "[" + name + "]" + tail, "");
    CollectBracket(name, tail, left);
    assert path + "[" + name + "]" + tail == path + ("[" + name + "]" + tail);
    PartIsParsed(path, "[" + name, "");
    UnclosedBracket(name, left);
    assert path + "[" + name == path + ("[" + name);
  }

  lemma UnclosedBracket(name: string, current: string)
    requires ']' !in name
    ensures Segments("[" + name, current) == Flush(current) + Flush(name)
  {
    assert ("[" + name)[1..] == name;
    FirstOfIs(name, ']', |name|);
    assert InBracket(name) == name && AfterBracket(name) == "";
    assert Flush(name) + [] == Flush(name);
  }

  /** A closing bracket that closes nothing is ignored, and separates nothing. */
  lemma StrayBracketIsIgnored(path: string, tail: string)
    requires !EndsInside(path, false)
    ensures Segments(path + "]" + tail, "") == Segments(path + tail, "")
  {
    hide Finished;
    PartIsParsed(path, "]" + tail, "");
    PartIsParsed(path, tail, "");
    assert ("]" + tail)[1..] == tail;
    assert path + "]" + tail == path + ("]" + tail);
  }

  /** Without punctuation a path is one segment, unless it is empty. */
  lemma PlainPathIsOneSegment(path: string)
    requires Plain(path)
    ensures Segments(path, "") == if path == "" then [] else [path]
  {
    ParseName(path, "");
    assert path + "" == path;
    SegmentsEnd("", path);
  }
}
