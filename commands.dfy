/**
 * The command parsers of main.go: parseTap, parseSwipe and parseKey. Each
 * trims the body, splits it into white-space separated fields, checks the
 * field count, converts fields with Atoi, applies the defaults and
 * range-checks amount, delay and duration. As in Go, a parser returns all of
 * its values together with an error; on a conversion error of a coordinate
 * the values converted so far are returned as they stand.
 */
module Commands {
  import opened Wrappers
  import opened Strings
  import opened Strconv

  const TapUsage: string := "invalid tap command format, expected: <x> <y> [amount] [delay]"
  const SwipeUsage: string :=
    "invalid swipe command format, expected: <x1> <y1> <x2> <y2> <duration> [amount] [delay]"
  const KeyUsage: string := "invalid key command format, expected: <keycode> [amount] [delay]"

  /** The error values the parsers return. */
  datatype Error =
    | Usage(text: string)   // the field count is wrong
    | Num(e: NumError)      // Atoi's own error, passed on unchanged
    | Invalid(name: string) // a count or a duration out of range, or not a number
  {
    /** err.Error() */
    function Message(): string {
      match this
      case Usage(t) => t
      case Num(e) => e.Message()
      case Invalid(n) => "invalid " + n
    }
  }

  datatype Tap = Tap(x: int, y: int, amount: int, delay: int)
  datatype Swipe = Swipe(x1: int, y1: int, x2: int, y2: int, duration: int, amount: int, delay: int)
  datatype Key = Key(keycode: string, amount: int, delay: int)

  /** A parser's results: its values and its error, returned together. */
  datatype Result<T> = Result(values: T, err: Option<Error>)

  /** A Go call that either returns or panics with "index out of range [index] with length length". */
  datatype Outcome<T> = Returned(result: T) | IndexOutOfRange(index: int, length: int)

  const NoTap: Tap := Tap(0, 0, 0, 0)
  const NoSwipe: Swipe := Swipe(0, 0, 0, 0, 0, 0, 0)
  const NoKey: Key := Key("", 0, 0)

  /** A count field: Atoi accepts it and it is at least 1. */
  predicate IsCount(f: string) {
    Atoi(f).err.None? && Atoi(f).value >= 1
  }

  /** A delay or duration field: Atoi accepts it and it is not negative. */
  predicate IsNonNegative(f: string) {
    Atoi(f).err.None? && Atoi(f).value >= 0
  }

  /** A count field as the decimal reference reads it: a 64-bit decimal of at least 1. */
  predicate CountField(f: string) {
    Accepts(f) && DecimalValue(f) >= 1
  }

  /** A delay or duration field as the decimal reference reads it: a 64-bit decimal of at least 0. */
  predicate NonNegativeField(f: string) {
    Accepts(f) && DecimalValue(f) >= 0
  }

  /** Atoi's error on a field, as the parsers pass it on. */
  function AtoiError(f: string): Option<Error> {
    if Atoi(f).err.Some? then Some(Num(Atoi(f).err.value)) else None
  }

  // ---------------------------------------------------------------------
  // parseTap

  /** The fields parseTap accepts, stated without Go's control flow. */
  predicate TapFieldsOk(f: seq<string>) {
    (|f| == 2 || |f| == 4) && Accepts(f[0]) && Accepts(f[1])
    && (|f| == 4 ==> CountField(f[2]) && NonNegativeField(f[3]))
  }

  /** The tap those fields denote, with the defaults amount=1 and delay=0 for two fields. */
  function TapOf(f: seq<string>): Tap
    requires TapFieldsOk(f)
  {
    if |f| == 2 then Tap(DecimalValue(f[0]), DecimalValue(f[1]), 1, 0)
    else Tap(DecimalValue(f[0]), DecimalValue(f[1]), DecimalValue(f[2]), DecimalValue(f[3]))
  }

  /**
   * parseTap's answer on a field list, read through the decimal reference.
   * The checks come in the code's order and the first that fails decides:
   * a wrong count is the usage error; a coordinate Atoi rejects is Atoi's
   * error, with what Atoi returned for the coordinates so far; a bad amount
   * or delay is "invalid amount" or "invalid delay" with all values zero.
   */
  predicate TapAnswer(f: seq<string>, r: Result<Tap>) {
    if |f| != 2 && |f| != 4 then r == Result(NoTap, Some(Usage(TapUsage)))
    else if !Accepts(f[0]) then r == Result(Tap(Atoi(f[0]).value, 0, 0, 0), AtoiError(f[0]))
    else if !Accepts(f[1]) then r == Result(Tap(DecimalValue(f[0]), Atoi(f[1]).value, 0, 0), AtoiError(f[1]))
    else if |f| == 4 && !CountField(f[2]) then r == Result(NoTap, Some(Invalid("amount")))
    else if |f| == 4 && !NonNegativeField(f[3]) then r == Result(NoTap, Some(Invalid("delay")))
    else r == Result(TapOf(f), None)
  }

  /** parseTap: "<x> <y>" or "<x> <y> <amount> <delay>". */
  function ParseTap(cmd: string): (r: Result<Tap>)
    ensures TapAnswer(Fields(cmd), r)
    ensures r.err.None? <==> TapFieldsOk(Fields(cmd))
    ensures r.err.None? ==> ValidTap(r.values)
  {
    FieldsTrimSpace(cmd);
    TapFromFields(Fields(TrimSpace(cmd)))
  }

  /** parseTap from the field count on. */
  function TapFromFields(parts: seq<string>): (r: Result<Tap>)
    ensures TapAnswer(parts, r)
    ensures r.err.None? <==> TapFieldsOk(parts)
    ensures r.err.None? ==> ValidTap(r.values)
  {
    AtoiAgreesAll(parts);
    if |parts| != 2 && |parts| != 4 then Result(NoTap, Some(Usage(TapUsage)))
    else
      var x := Atoi(parts[0]);
      if x.err.Some? then Result(Tap(x.value, 0, 0, 0), Some(Num(x.err.value)))
      else
        var y := Atoi(parts[1]);
        if y.err.Some? then Result(Tap(x.value, y.value, 0, 0), Some(Num(y.err.value)))
        else if |parts| > 2 && !IsCount(parts[2]) then Result(NoTap, Some(Invalid("amount")))
        else if |parts| > 3 && !IsNonNegative(parts[3]) then Result(NoTap, Some(Invalid("delay")))
        else
          var amount := if |parts| > 2 then Atoi(parts[2]).value else 1;
          var delay := if |parts| > 3 then Atoi(parts[3]).value else 0;
          Result(Tap(x.value, y.value, amount, delay), None)
  }

  /** The text of a tap as the handler prints it after "OK|tapped ". */
  function FormatTap(t: Tap): string {
    Join([Itoa(t.x), Itoa(t.y), Itoa(t.amount), Itoa(t.delay)])
  }

  /** The 64-bit values parseTap can return without error. */
  predicate ValidTap(t: Tap) {
    IsInt64(t.x) && IsInt64(t.y) && 1 <= t.amount <= MaxInt64 && 0 <= t.delay <= MaxInt64
  }

  // ---------------------------------------------------------------------
  // parseSwipe

  /** The first five fields pass: four coordinates and a non-negative duration. */
  predicate HeadFieldsOk(f: seq<string>)
    requires |f| >= 5
  {
    Accepts(f[0]) && Accepts(f[1]) && Accepts(f[2]) && Accepts(f[3]) && NonNegativeField(f[4])
  }

  /** The fields the corrected parseSwipe accepts, stated without Go's control flow. */
  predicate SwipeFieldsOk(f: seq<string>) {
    (|f| == 5 || |f| == 7) && HeadFieldsOk(f) && (|f| == 7 ==> CountField(f[5]) && NonNegativeField(f[6]))
  }

  /** The swipe those fields denote, with the defaults amount=1 and delay=0 for five fields. */
  function SwipeOf(f: seq<string>): Swipe
    requires SwipeFieldsOk(f)
  {
    Swipe(DecimalValue(f[0]), DecimalValue(f[1]), DecimalValue(f[2]), DecimalValue(f[3]), DecimalValue(f[4]),
          if |f| == 5 then 1 else DecimalValue(f[5]), if |f| == 5 then 0 else DecimalValue(f[6]))
  }

  /**
   * The first five checks of parseSwipe, read through the decimal reference:
   * a coordinate Atoi rejects is Atoi's error with what Atoi returned for the
   * coordinates so far; a bad duration is "invalid duration" with all values
   * zero; otherwise the four coordinates and the duration, amount and delay 0.
   */
  predicate HeadAnswer(f: seq<string>, r: Result<Swipe>)
    requires |f| >= 5
  {
    if !Accepts(f[0]) then r == Result(Swipe(Atoi(f[0]).value, 0, 0, 0, 0, 0, 0), AtoiError(f[0]))
    else if !Accepts(f[1]) then
      r == Result(Swipe(DecimalValue(f[0]), Atoi(f[1]).value, 0, 0, 0, 0, 0), AtoiError(f[1]))
    else if !Accepts(f[2]) then
      r == Result(Swipe(DecimalValue(f[0]), DecimalValue(f[1]), Atoi(f[2]).value, 0, 0, 0, 0), AtoiError(f[2]))
    else if !Accepts(f[3]) then
      r == Result(Swipe(DecimalValue(f[0]), DecimalValue(f[1]), DecimalValue(f[2]), Atoi(f[3]).value, 0, 0, 0),
                  AtoiError(f[3]))
    else if !NonNegativeField(f[4]) then r == Result(NoSwipe, Some(Invalid("duration")))
    else
      r == Result(Swipe(DecimalValue(f[0]), DecimalValue(f[1]), DecimalValue(f[2]), DecimalValue(f[3]),
                        DecimalValue(f[4]), 0, 0), None)
  }

  /**
   * The corrected parseSwipe's answer on a field list: a wrong count is the
   * usage error, then the first five checks, then "invalid amount" and
   * "invalid delay" with all values zero for seven fields.
   */
  predicate SwipeAnswer(f: seq<string>, r: Result<Swipe>) {
    if |f| != 5 && |f| != 7 then r == Result(NoSwipe, Some(Usage(SwipeUsage)))
    else if !HeadFieldsOk(f) then HeadAnswer(f, r)
    else if |f| == 7 && !CountField(f[5]) then r == Result(NoSwipe, Some(Invalid("amount")))
    else if |f| == 7 && !NonNegativeField(f[6]) then r == Result(NoSwipe, Some(Invalid("delay")))
    else r == Result(SwipeOf(f), None)
  }

  /** The first five checks of parseSwipe: x1, y1, x2, y2 and duration. */
  function SwipeHead(parts: seq<string>): (r: Result<Swipe>)
    requires |parts| >= 5
    ensures HeadAnswer(parts, r)
    ensures r.err.None? <==> HeadFieldsOk(parts)
    ensures r.err.None? ==> ValidSwipe(r.values.(amount := 1))
  {
    AtoiAgreesAll(parts);
    var x1 := Atoi(parts[0]);
    if x1.err.Some? then Result(Swipe(x1.value, 0, 0, 0, 0, 0, 0), Some(Num(x1.err.value)))
    else
      var y1 := Atoi(parts[1]);
      if y1.err.Some? then Result(Swipe(x1.value, y1.value, 0, 0, 0, 0, 0), Some(Num(y1.err.value)))
      else
        var x2 := Atoi(parts[2]);
        if x2.err.Some? then Result(Swipe(x1.value, y1.value, x2.value, 0, 0, 0, 0), Some(Num(x2.err.value)))
        else
          var y2 := Atoi(parts[3]);
          if y2.err.Some? then
            Result(Swipe(x1.value, y1.value, x2.value, y2.value, 0, 0, 0), Some(Num(y2.err.value)))
          else if !IsNonNegative(parts[4]) then Result(NoSwipe, Some(Invalid("duration")))
          else Result(Swipe(x1.value, y1.value, x2.value, y2.value, Atoi(parts[4]).value, 0, 0), None)
  }

  /** The last two checks of parseSwipe: amount and delay, read from fields 5 and 6. */
  function SwipeTail(head: Swipe, amount: string, delay: string): (r: Result<Swipe>)
    ensures !CountField(amount) ==> r == Result(NoSwipe, Some(Invalid("amount")))
    ensures CountField(amount) && !NonNegativeField(delay) ==> r == Result(NoSwipe, Some(Invalid("delay")))
    ensures CountField(amount) && NonNegativeField(delay) ==>
      r == Result(head.(amount := DecimalValue(amount), delay := DecimalValue(delay)), None)
    ensures r.err.None? ==> 1 <= r.values.amount <= MaxInt64 && 0 <= r.values.delay <= MaxInt64
  {
    AtoiAccepts(amount);
    AtoiAccepts(delay);
    if !IsCount(amount) then Result(NoSwipe, Some(Invalid("amount")))
    else if !IsNonNegative(delay) then Result(NoSwipe, Some(Invalid("delay")))
    else Result(head.(amount := Atoi(amount).value, delay := Atoi(delay).value), None)
  }

  /**
   * parseSwipe as main.go writes it: the length check admits 5 or 7 fields,
   * but parts[5] and parts[6] are read whatever the count. It panics only on
   * five fields, and it succeeds only on seven.
   */
  function ParseSwipeAsWritten(cmd: string): (r: Outcome<Result<Swipe>>)
    ensures r.IndexOutOfRange? ==> r == IndexOutOfRange(5, 5) && |Fields(cmd)| == 5
    ensures r.Returned? && r.result.err.None? ==> |Fields(cmd)| == 7
    ensures |Fields(cmd)| == 5 && !HeadFieldsOk(Fields(cmd)) ==> r == Returned(ParseSwipe(cmd))
  {
    FieldsTrimSpace(cmd);
    var parts := Fields(TrimSpace(cmd));
    if |parts| != 7 && |parts| != 5 then Returned(Result(NoSwipe, Some(Usage(SwipeUsage))))
    else
      var head := SwipeHead(parts);
      if head.err.Some? then Returned(head)
      else if |parts| <= 5 then IndexOutOfRange(5, |parts|)
      else Returned(SwipeTail(head.values, parts[5], parts[6]))
  }

  /**
   * parseSwipe as its usage line and comments intend: five fields take the
   * defaults amount=1 and delay=0, seven fields give them explicitly.
   */
  function ParseSwipe(cmd: string): (r: Result<Swipe>)
    ensures SwipeAnswer(Fields(cmd), r)
    ensures r.err.None? <==> SwipeFieldsOk(Fields(cmd))
    ensures r.err.None? ==> ValidSwipe(r.values)
  {
    FieldsTrimSpace(cmd);
    SwipeFromFields(Fields(TrimSpace(cmd)))
  }

  /** The corrected parseSwipe from the field count on. */
  function SwipeFromFields(parts: seq<string>): (r: Result<Swipe>)
    ensures SwipeAnswer(parts, r)
    ensures r.err.None? <==> SwipeFieldsOk(parts)
    ensures r.err.None? ==> ValidSwipe(r.values)
  {
    if |parts| != 7 && |parts| != 5 then Result(NoSwipe, Some(Usage(SwipeUsage)))
    else
      var head := SwipeHead(parts);
      if head.err.Some? then head
      else if |parts| == 5 then Result(head.values.(amount := 1, delay := 0), None)
      else SwipeTail(head.values, parts[5], parts[6])
  }

  /** The text of a swipe as the handler prints it after "OK|swiped ". */
  function FormatSwipe(s: Swipe): string {
    Join([Itoa(s.x1), Itoa(s.y1), Itoa(s.x2), Itoa(s.y2), Itoa(s.duration), Itoa(s.amount), Itoa(s.delay)])
  }

  predicate ValidSwipe(s: Swipe) {
    IsInt64(s.x1) && IsInt64(s.y1) && IsInt64(s.x2) && IsInt64(s.y2)
    && 0 <= s.duration <= MaxInt64 && 1 <= s.amount <= MaxInt64 && 0 <= s.delay <= MaxInt64
  }

  // ---------------------------------------------------------------------
  // parseKey

  /** The fields parseKey accepts, stated without Go's control flow. */
  predicate KeyFieldsOk(f: seq<string>) {
    (|f| == 1 || |f| == 3) && (|f| == 3 ==> CountField(f[1]) && NonNegativeField(f[2]))
  }

  /** The key those fields denote, with the defaults amount=1 and delay=0 for a lone key code. */
  function KeyOf(f: seq<string>): Key
    requires KeyFieldsOk(f)
  {
    if |f| == 1 then Key(f[0], 1, 0) else Key(f[0], DecimalValue(f[1]), DecimalValue(f[2]))
  }

  /**
   * parseKey's answer on a field list: a wrong count is the usage error, a
   * bad amount or delay is "invalid amount" or "invalid delay", each with an
   * empty key code and zeros; otherwise the key the fields denote.
   */
  predicate KeyAnswer(f: seq<string>, r: Result<Key>) {
    if |f| != 1 && |f| != 3 then r == Result(NoKey, Some(Usage(KeyUsage)))
    else if |f| == 3 && !CountField(f[1]) then r == Result(NoKey, Some(Invalid("amount")))
    else if |f| == 3 && !NonNegativeField(f[2]) then r == Result(NoKey, Some(Invalid("delay")))
    else r == Result(KeyOf(f), None)
  }

  /** parseKey: "<keycode>" or "<keycode> <amount> <delay>"; the keycode is not interpreted. */
  function ParseKey(cmd: string): (r: Result<Key>)
    ensures KeyAnswer(Fields(cmd), r)
    ensures r.err.None? <==> KeyFieldsOk(Fields(cmd))
    ensures r.err.None? ==> 1 <= r.values.amount <= MaxInt64 && 0 <= r.values.delay <= MaxInt64
  {
    var trimmed := TrimSpace(cmd);
    SendKeyFallbackInert(cmd);
    FieldsTrimSpace(cmd);
    var coords := if trimmed == "" then TrimSpace(TrimPrefix(cmd, "sendKey")) else trimmed;
    KeyFromFields(Fields(coords))
  }

  /** parseKey from the field count on. */
  function KeyFromFields(parts: seq<string>): (r: Result<Key>)
    ensures KeyAnswer(parts, r)
    ensures r.err.None? <==> KeyFieldsOk(parts)
    ensures r.err.None? ==> 1 <= r.values.amount <= MaxInt64 && 0 <= r.values.delay <= MaxInt64
  {
    AtoiAgreesAll(parts);
    if |parts| != 1 && |parts| != 3 then Result(NoKey, Some(Usage(KeyUsage)))
    else if |parts| > 1 && !IsCount(parts[1]) then Result(NoKey, Some(Invalid("amount")))
    else if |parts| > 2 && !IsNonNegative(parts[2]) then Result(NoKey, Some(Invalid("delay")))
    else
      var amount := if |parts| > 1 then Atoi(parts[1]).value else 1;
      var delay := if |parts| > 2 then Atoi(parts[2]).value else 0;
      Result(Key(parts[0], amount, delay), None)
  }

  // ---------------------------------------------------------------------
  // Lemmas

  /** The "sendKey" fallback of parseKey never changes anything: it runs only on all-space input, which cannot start with "sendKey". */
  lemma SendKeyFallbackInert(cmd: string)
    ensures TrimSpace(cmd) == "" ==> TrimSpace(TrimPrefix(cmd, "sendKey")) == ""
  {
    TrimSpaceEmpty(cmd);
    if "sendKey" <= cmd {
      assert cmd[0] == 's';
      assert !AllSpace(cmd);
    }
  }

  /** A white-space-only key command is a format error. */
  lemma BlankKeyRejected(cmd: string)
    requires AllSpace(cmd)
    ensures ParseKey(cmd) == Result(NoKey, Some(Usage(KeyUsage)))
  {
    FieldsEmpty(cmd);
  }

  lemma ItoaIsField(n: int)
    ensures IsField(Itoa(n))
  {
    ItoaShape(n);
  }

  /** What Atoi makes of each of the fields, in terms of the reference reading of a decimal. */
  predicate AtoiAgrees(f: seq<string>) {
    forall i | 0 <= i < |f| ::
      (Atoi(f[i]).err.None? <==> Accepts(f[i])) && (Atoi(f[i]).err.None? ==> Atoi(f[i]).value == DecimalValue(f[i]))
  }

  lemma AtoiAgreesAll(f: seq<string>)
    ensures AtoiAgrees(f)
  {
    forall i | 0 <= i < |f|
      ensures (Atoi(f[i]).err.None? <==> Accepts(f[i])) && (Atoi(f[i]).err.None? ==> Atoi(f[i]).value == DecimalValue(f[i]))
    {
      AtoiAccepts(f[i]);
    }
  }

  /** parseTap on fields Atoi reads as the tap's values. */
  lemma TapFromFieldsOf(parts: seq<string>, t: Tap)
    requires |parts| == 4 && 1 <= t.amount && 0 <= t.delay
    requires Atoi(parts[0]) == Converted(t.x, None) && Atoi(parts[1]) == Converted(t.y, None)
    requires Atoi(parts[2]) == Converted(t.amount, None) && Atoi(parts[3]) == Converted(t.delay, None)
    ensures TapFromFields(parts) == Result(t, None)
  {
  }

  /** Splitting the single-space join of printed integers gives back the printed integers. */
  lemma FieldsOfPrinted(ws: seq<string>, cmd: string)
    requires forall i | 0 <= i < |ws| :: IsField(ws[i])
    requires cmd == Join(ws)
    ensures Fields(TrimSpace(cmd)) == ws
  {
    FieldsJoin(ws);
    FieldsTrimSpace(cmd);
  }

  /** Parsing the printed form of a tap gives the tap back. */
  lemma TapRoundTrip(t: Tap)
    requires ValidTap(t)
    ensures ParseTap(FormatTap(t)) == Result(t, None)
  {
    var ws := [Itoa(t.x), Itoa(t.y), Itoa(t.amount), Itoa(t.delay)];
    ItoaIsField(t.x); ItoaIsField(t.y); ItoaIsField(t.amount); ItoaIsField(t.delay);
    FieldsOfPrinted(ws, FormatTap(t));
    AtoiItoa(t.x); AtoiItoa(t.y); AtoiItoa(t.amount); AtoiItoa(t.delay);
    TapFromFieldsOf(ws, t);
  }

  /** The two-field form takes amount=1 and delay=0. */
  lemma TapShortForm(x: int, y: int)
    requires IsInt64(x) && IsInt64(y)
    ensures ParseTap(Join([Itoa(x), Itoa(y)])) == Result(Tap(x, y, 1, 0), None)
  {
    var ws := [Itoa(x), Itoa(y)];
    ItoaIsField(x); ItoaIsField(y);
    FieldsOfPrinted(ws, Join(ws));
    AtoiItoa(x); AtoiItoa(y);
    TapFromFieldsShort(ws, x, y);
  }

  lemma TapFromFieldsShort(parts: seq<string>, x: int, y: int)
    requires |parts| == 2
    requires Atoi(parts[0]) == Converted(x, None) && Atoi(parts[1]) == Converted(y, None)
    ensures TapFromFields(parts) == Result(Tap(x, y, 1, 0), None)
  {
  }

  /** The first five checks pass on fields Atoi reads as the swipe's values. */
  lemma SwipeHeadOf(parts: seq<string>, s: Swipe)
    requires |parts| >= 5 && 0 <= s.duration
    requires Atoi(parts[0]) == Converted(s.x1, None) && Atoi(parts[1]) == Converted(s.y1, None)
    requires Atoi(parts[2]) == Converted(s.x2, None) && Atoi(parts[3]) == Converted(s.y2, None)
    requires Atoi(parts[4]) == Converted(s.duration, None)
    ensures SwipeHead(parts) == Result(s.(amount := 0, delay := 0), None)
  {
  }

  /** Parsing the printed seven-field form of a swipe gives the swipe back. */
  lemma SwipeRoundTrip(s: Swipe)
    requires ValidSwipe(s)
    ensures ParseSwipe(FormatSwipe(s)) == Result(s, None)
  {
    var ws := [Itoa(s.x1), Itoa(s.y1), Itoa(s.x2), Itoa(s.y2), Itoa(s.duration), Itoa(s.amount), Itoa(s.delay)];
    ItoaIsField(s.x1); ItoaIsField(s.y1); ItoaIsField(s.x2); ItoaIsField(s.y2);
    ItoaIsField(s.duration); ItoaIsField(s.amount); ItoaIsField(s.delay);
    FieldsOfPrinted(ws, FormatSwipe(s));
    AtoiItoa(s.x1); AtoiItoa(s.y1); AtoiItoa(s.x2); AtoiItoa(s.y2);
    AtoiItoa(s.duration); AtoiItoa(s.amount); AtoiItoa(s.delay);
    SwipeFromFieldsOf(ws, s);
  }

  /** The corrected parser on seven fields Atoi reads as the swipe's values. */
  lemma SwipeFromFieldsOf(parts: seq<string>, s: Swipe)
    requires |parts| == 7 && 0 <= s.duration && 1 <= s.amount && 0 <= s.delay
    requires Atoi(parts[0]) == Converted(s.x1, None) && Atoi(parts[1]) == Converted(s.y1, None)
    requires Atoi(parts[2]) == Converted(s.x2, None) && Atoi(parts[3]) == Converted(s.y2, None)
    requires Atoi(parts[4]) == Converted(s.duration, None)
    requires Atoi(parts[5]) == Converted(s.amount, None) && Atoi(parts[6]) == Converted(s.delay, None)
    ensures SwipeFromFields(parts) == Result(s, None)
  {
    SwipeHeadOf(parts, s);
    assert SwipeTail(s.(amount := 0, delay := 0), parts[5], parts[6]) == Result(s, None);
  }

  /** The five-field form of a swipe takes amount=1 and delay=0. */
  lemma SwipeShortForm(x1: int, y1: int, x2: int, y2: int, duration: int)
    requires IsInt64(x1) && IsInt64(y1) && IsInt64(x2) && IsInt64(y2) && 0 <= duration <= MaxInt64
    ensures ParseSwipe(Join([Itoa(x1), Itoa(y1), Itoa(x2), Itoa(y2), Itoa(duration)]))
         == Result(Swipe(x1, y1, x2, y2, duration, 1, 0), None)
  {
    var ws := [Itoa(x1), Itoa(y1), Itoa(x2), Itoa(y2), Itoa(duration)];
    ItoaIsField(x1); ItoaIsField(y1); ItoaIsField(x2); ItoaIsField(y2); ItoaIsField(duration);
    FieldsOfPrinted(ws, Join(ws));
    AtoiItoa(x1); AtoiItoa(y1); AtoiItoa(x2); AtoiItoa(y2); AtoiItoa(duration);
    SwipeFromFieldsShort(ws, Swipe(x1, y1, x2, y2, duration, 1, 0));
  }

  /** The corrected parser on five fields Atoi reads as the swipe's values. */
  lemma SwipeFromFieldsShort(parts: seq<string>, s: Swipe)
    requires |parts| == 5 && 0 <= s.duration && s.amount == 1 && s.delay == 0
    requires Atoi(parts[0]) == Converted(s.x1, None) && Atoi(parts[1]) == Converted(s.y1, None)
    requires Atoi(parts[2]) == Converted(s.x2, None) && Atoi(parts[3]) == Converted(s.y2, None)
    requires Atoi(parts[4]) == Converted(s.duration, None)
    ensures SwipeFromFields(parts) == Result(s, None)
  {
    SwipeHeadOf(parts, s);
  }

  /** Where the field count is not 5, the written parser and the corrected one agree. */
  lemma SwipeAsWrittenAgrees(cmd: string)
    requires |Fields(cmd)| != 5
    ensures ParseSwipeAsWritten(cmd) == Returned(ParseSwipe(cmd))
  {
    FieldsTrimSpace(cmd);
  }

  /**
   * The written parser never accepts five fields: five fields whose first
   * five checks pass make it index parts[5] of a slice of length 5, and
   * five fields that fail one of those checks return the head's error.
   */
  lemma SwipeAsWrittenFiveFields(cmd: string)
    requires |Fields(cmd)| == 5
    ensures ParseSwipeAsWritten(cmd).Returned? ==> ParseSwipeAsWritten(cmd).result.err.Some?
    ensures SwipeHead(Fields(cmd)).err.None? <==> ParseSwipeAsWritten(cmd) == IndexOutOfRange(5, 5)
    ensures !HeadFieldsOk(Fields(cmd)) ==> ParseSwipeAsWritten(cmd) == Returned(SwipeHead(Fields(cmd)))
  {
    FieldsTrimSpace(cmd);
  }

  /** Any five printed fields that parse make the written parser panic. */
  lemma SwipeAsWrittenPanics(x1: int, y1: int, x2: int, y2: int, duration: int)
    requires IsInt64(x1) && IsInt64(y1) && IsInt64(x2) && IsInt64(y2) && 0 <= duration <= MaxInt64
    ensures ParseSwipeAsWritten(Join([Itoa(x1), Itoa(y1), Itoa(x2), Itoa(y2), Itoa(duration)]))
         == IndexOutOfRange(5, 5)
  {
    var ws := [Itoa(x1), Itoa(y1), Itoa(x2), Itoa(y2), Itoa(duration)];
    ItoaIsField(x1); ItoaIsField(y1); ItoaIsField(x2); ItoaIsField(y2); ItoaIsField(duration);
    FieldsOfPrinted(ws, Join(ws));
    FieldsTrimSpace(Join(ws));
    AtoiItoa(x1); AtoiItoa(y1); AtoiItoa(x2); AtoiItoa(y2); AtoiItoa(duration);
    SwipeHeadOf(ws, Swipe(x1, y1, x2, y2, duration, 1, 0));
    SwipeAsWrittenFiveFields(Join(ws));
  }

  /** "0 0 10 10 300": the corrected parser takes the defaults; the written one panics. */
  lemma SwipeFiveFieldWitness()
    ensures ParseSwipe("0 0 10 10 300") == Result(Swipe(0, 0, 10, 10, 300, 1, 0), None)
    ensures ParseSwipeAsWritten("0 0 10 10 300") == IndexOutOfRange(5, 5)
  {
    PrintedWitness();
    SwipeShortForm(0, 0, 10, 10, 300);
    SwipeAsWrittenPanics(0, 0, 10, 10, 300);
  }

  lemma PrintedWitness()
    ensures Join([Itoa(0), Itoa(0), Itoa(10), Itoa(10), Itoa(300)]) == "0 0 10 10 300"
  {
    PrintedSmall();
    var ws: seq<string> := ["0", "0", "10", "10", "300"];
    JoinStep(ws, 3);
    JoinStep(ws, 2);
    JoinStep(ws, 1);
    JoinStep(ws, 0);
  }

  /** Join takes one field off the front at a time. */
  lemma JoinStep(ws: seq<string>, i: nat)
    requires i + 1 < |ws|
    ensures Join(ws[i..]) == ws[i] + " " + Join(ws[i + 1..])
  {
    assert ws[i..][1..] == ws[i + 1..];
  }

  lemma PrintedSmall()
    ensures Itoa(0) == "0" && Itoa(10) == "10" && Itoa(300) == "300"
  {
    assert NatToString(0) == "0";
    assert NatToString(1) == "1";
    assert NatToString(3) == "3";
    assert NatToString(30) == "30";
  }

  /** A lone field is a key code with amount=1 and delay=0. */
  lemma KeyShortForm(k: string)
    requires IsField(k)
    ensures ParseKey(k) == Result(Key(k, 1, 0), None)
  {
    FieldsJoin([k]);
    TrimSpaceEmpty(k);
    FieldsTrimSpace(k);
  }

  /** The three-field key form gives back its key code, amount and delay. */
  lemma KeyRoundTrip(k: string, amount: int, delay: int)
    requires IsField(k) && 1 <= amount <= MaxInt64 && 0 <= delay <= MaxInt64
    ensures ParseKey(Join([k, Itoa(amount), Itoa(delay)])) == Result(Key(k, amount, delay), None)
  {
    var ws := [k, Itoa(amount), Itoa(delay)];
    ItoaIsField(amount); ItoaIsField(delay);
    FieldsOfPrinted(ws, Join(ws));
    TrimSpaceEmpty(Join(ws));
    FieldsEmpty(Join(ws));
    AtoiItoa(amount); AtoiItoa(delay);
    KeyFromFieldsOf(ws, k, amount, delay);
  }

  lemma KeyFromFieldsOf(parts: seq<string>, k: string, amount: int, delay: int)
    requires |parts| == 3 && parts[0] == k && 1 <= amount && 0 <= delay
    requires Atoi(parts[1]) == Converted(amount, None) && Atoi(parts[2]) == Converted(delay, None)
    ensures KeyFromFields(parts) == Result(Key(k, amount, delay), None)
  {
  }
}
