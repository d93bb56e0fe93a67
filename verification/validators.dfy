/** The leaf validators of trace_projection.py: what a string, number or flag must look like to survive. */
module Validators {
  import opened Json

  const REDACTED_PREFIX := "[redacted"
  const REDACTED_FIELD := REDACTED_PREFIX + " — raw-trace grant required]"
  const REDACTED_TRIGGER := "raw " + "trigger payload withheld (raw-trace privilege only)"
  const REDACTED_TOOL := "raw " + "tool input/result withheld (admin-tier only)"
  const GENERATED_MARKERS: set<string> := {REDACTED_FIELD, REDACTED_TRIGGER, REDACTED_TOOL}

  predicate AlphaNumeric(c: char) {
    'A' <= c <= 'Z' || 'a' <= c <= 'z' || '0' <= c <= '9'
  }

  predicate TokenChar(c: char) {
    AlphaNumeric(c) || c in "._:/=-"
  }

  predicate OpaqueChar(c: char) {
    TokenChar(c) || c in "@|"
  }

  /** The part of `s` a pattern `^…$` constrains: Python's `$` also matches just before one final newline. */
  function Body(s: string): string {
    if s != "" && s[|s| - 1] == '\n' then s[..|s| - 1] else s
  }

  predicate TokenText(s: string) {
    var body := Body(s);
    1 <= |body| <= 120 && forall i :: 0 <= i < |body| ==> TokenChar(body[i])
  }

  predicate ShortToken(v: Json) {
    v.Str? && TokenText(v.s)
  }

  /** `_safe_key`: a key that may be emitted although it is not a schema literal. */
  predicate SafeKey(k: string) {
    TokenText(k)
  }

  predicate OpaqueId(v: Json) {
    v.Str? &&
    var body := Body(v.s);
    1 <= |body| <= 200 && forall i :: 0 <= i < |body| ==> OpaqueChar(body[i])
  }

  predicate Boolean(v: Json) {
    v.Bool?
  }

  predicate Count(v: Json) {
    v.Int? && 0 <= v.n <= 1_000_000_000_000
  }

  predicate Amount(v: Json) {
    || (v.Int? && 0 <= v.n <= 1_000_000_000)
    || (v.Real? && 0.0 <= v.r <= 1_000_000_000.0)
  }

  function Pow2(e: nat): nat {
    if e == 0 then 1 else 2 * Pow2(e - 1)
  }

  /** From here on `float(n)` rounds beyond the largest double, which is 2^1024 - 2^971. */
  const FLOAT_LIMIT: int := Pow2(970) * (Pow2(54) - 1)

  /** `float(n)` raises `OverflowError`. */
  predicate FloatOverflows(n: int) {
    n >= FLOAT_LIMIT || n <= -FLOAT_LIMIT
  }

  predicate Score(v: Json) {
    || (v.Int? && -1 <= v.n <= 100)
    || (v.Real? && -1.0 <= v.r <= 100.0)
  }

  predicate GeneratedMarker(v: Json) {
    v.Str? && v.s in GENERATED_MARKERS
  }

  /** `str.isspace` of one character, and the class `\s` of a regular expression. */
  predicate White(c: char) {
    || '\U{9}' <= c <= '\U{D}' || '\U{1C}' <= c <= '\U{20}' || c == '\U{85}' || c == '\U{A0}' || c == '\U{1680}'
    || '\U{2000}' <= c <= '\U{200A}' || c == '\U{2028}' || c == '\U{2029}' || c == '\U{202F}'
    || c == '\U{205F}' || c == '\U{3000}'
  }

  /** The characters Python counts as white space. */
  const WHITE_CHARS: string := "\t\n\U{B}\U{C}\r\U{1C}\U{1D}\U{1E}\U{1F} \U{85}\U{A0}\U{1680}\U{2000}\U{2001}" +
    "\U{2002}\U{2003}\U{2004}\U{2005}\U{2006}\U{2007}\U{2008}\U{2009}\U{200A}\U{2028}\U{2029}\U{202F}\U{205F}\U{3000}"

  lemma WhiteIsListed(c: char)
    ensures White(c) <==> c in WHITE_CHARS
  {
  }

  predicate Digit(c: char) {
    '0' <= c <= '9'
  }

  predicate TimestampText(s: string) {
    && 11 <= |s| <= 37
    && (forall i :: 0 <= i < 10 && i != 4 && i != 7 ==> Digit(s[i]))
    && s[4] == s[7] == '-'
    && (s[10] == 'T' || s[10] == ' ')
    && (forall i :: 11 <= i < |s| ==> Digit(s[i]) || s[i] in ":.+Z-")
  }

  predicate Timestamp(v: Json) {
    v.Str? && |v.s| <= 40 && TimestampText(Body(v.s))
  }

  const MAX_VOCAB_FIELDS := 8
  const MAX_VOCAB_VALUES := 32

  /** `_vocab_member`: a declared value, or a bounded list made only of declared values. */
  predicate VocabMember(allowed: set<string>, v: Json) {
    match v
    case Str(s) => s in allowed
    case Arr(items) =>
      |items| <= MAX_VOCAB_VALUES && forall i :: 0 <= i < |items| ==> items[i].Str? && items[i].s in allowed
    case _ => false
  }

  function CharsFrom(first: char, n: nat): string
    requires first as int + n <= 0xD800
  {
    seq(n, i requires 0 <= i < n => (first as int + i) as char)
  }

  /** The character class `A-Za-z0-9` followed by some punctuation. */
  function ClassOf(punctuation: string): string {
    CharsFrom('A', 26) + CharsFrom('a', 26) + CharsFrom('0', 10) + punctuation
  }

  /** `^[…]{1,max}$` on `re.match`: between one and `max` characters of the class, then perhaps one newline. */
  ghost predicate Matches(letters: string, max: nat, s: string) {
    exists body: string ::
      (s == body || s == body + "\n") && 1 <= |body| <= max && forall c :: c in body ==> c in letters
  }

  lemma ClassHolds(punctuation: string, c: char)
    ensures c in ClassOf(punctuation) <==>
      'A' <= c <= 'Z' || 'a' <= c <= 'z' || '0' <= c <= '9' || c in punctuation
  {
    CharsAre('A', 26, c);
    CharsAre('a', 26, c);
    CharsAre('0', 10, c);
  }

  lemma CharsAre(first: char, n: nat, c: char)
    requires first as int + n <= 0xD800
    ensures c in CharsFrom(first, n) <==> first as int <= c as int < first as int + n
  {
    if first as int <= c as int < first as int + n {
      assert CharsFrom(first, n)[c as int - first as int] == c;
    }
  }

  lemma MatchesThroughBody(punctuation: string, max: nat, s: string)
    requires '\n' !in punctuation
    ensures Matches(ClassOf(punctuation), max, s) <==>
      1 <= |Body(s)| <= max && forall c :: c in Body(s) ==> c in ClassOf(punctuation)
  {
    ClassHolds(punctuation, '\n');
    hide ClassOf, Body;
    if Matches(ClassOf(punctuation), max, s) {
      var body: string :| (s == body || s == body + "\n") && 1 <= |body| <= max
        && forall c :: c in body ==> c in ClassOf(punctuation);
      assert body[|body| - 1] in body;
      BodyOf(s, body);
    }
    BodyIsAPart(s);
  }

  lemma BodyOf(s: string, body: string)
    requires (s == body || s == body + "\n") && body != "" && body[|body| - 1] != '\n'
    ensures Body(s) == body
  {
  }

  lemma BodyIsAPart(s: string)
    ensures s == Body(s) || s == Body(s) + "\n"
  {
  }

  /** The two name patterns of the projector: a token, and an identifier, which may also name an address. */
  lemma NamePatterns(s: string)
    ensures ShortToken(Str(s)) <==> Matches(ClassOf("._:/=-"), 120, s)
    ensures OpaqueId(Str(s)) <==> Matches(ClassOf("._:@|/=-"), 200, s)
  {
    MatchesThroughBody("._:/=-", 120, s);
    MatchesThroughBody("._:@|/=-", 200, s);
    forall c ensures TokenChar(c) <==> c in ClassOf("._:/=-") {
      ClassHolds("._:/=-", c);
    }
    forall c ensures OpaqueChar(c) <==> c in ClassOf("._:@|/=-") {
      ClassHolds("._:@|/=-", c);
    }
    var body := Body(s);
    assert forall i :: 0 <= i < |body| ==> body[i] in body;
  }

  predicate Digits(s: string, n: nat) {
    |s| == n && forall c :: c in s ==> Digit(c)
  }

  /** A date, a separator and at most 26 characters of a time. */
  predicate DateTimeOf(s: string, y: string, m: string, d: string, sep: char, tail: string) {
    && s == y + "-" + m + "-" + d + [sep] + tail
    && Digits(y, 4) && Digits(m, 2) && Digits(d, 2) && (sep == 'T' || sep == ' ')
    && |tail| <= 26 && forall c :: c in tail ==> Digit(c) || c in ":.+Z-"
  }

  ghost predicate DateTime(s: string) {
    exists y: string, m: string, d: string, sep: char, tail: string :: DateTimeOf(s, y, m, d, sep, tail)
  }

  lemma TimestampIsDateTime(s: string)
    requires TimestampText(s)
    ensures DateTime(s)
  {
    var y, m, d, tail := s[..4], s[5..7], s[8..10], s[11..];
    assert s == y + "-" + m + "-" + d + [s[10]] + tail;
    assert forall c :: c in tail ==> Digit(c) || c in ":.+Z-";
    assert DateTimeOf(s, y, m, d, s[10], tail);
  }

  lemma DateTimeIsTimestamp(s: string, y: string, m: string, d: string, sep: char, tail: string)
    requires DateTimeOf(s, y, m, d, sep, tail)
    ensures TimestampText(s)
  {
    assert forall i :: 0 <= i < 4 ==> s[i] == y[i] && y[i] in y;
    assert forall i :: 5 <= i < 7 ==> s[i] == m[i - 5] && m[i - 5] in m;
    assert forall i :: 8 <= i < 10 ==> s[i] == d[i - 8] && d[i - 8] in d;
    assert forall i :: 11 <= i < |s| ==> s[i] == tail[i - 11] && tail[i - 11] in tail;
  }

  lemma DateTimeIff(s: string)
    ensures TimestampText(s) <==> DateTime(s)
  {
    hide TimestampText, DateTimeOf;
    if TimestampText(s) {
      TimestampIsDateTime(s);
    }
    if DateTime(s) {
      var y, m, d, sep, tail :| DateTimeOf(s, y, m, d, sep, tail);
      DateTimeIsTimestamp(s, y, m, d, sep, tail);
    }
  }

  /** A timestamp: at most forty characters, a date and time, perhaps with one newline after it. */
  lemma TimestampPattern(s: string)
    ensures Timestamp(Str(s)) <==>
      |s| <= 40 && (DateTime(s) || (s != "" && s[|s| - 1] == '\n' && DateTime(s[..|s| - 1])))
  {
    DateTimeIff(Body(s));
    if s != "" && s[|s| - 1] == '\n' {
      DateTimeIff(s);
    }
  }

  /** The numbers of the projector: a count, an amount and a score, each within its bounds, as an integer or, but for
      counts, as a float. */
  lemma NumberPatterns(n: int, r: real)
    ensures Count(Int(n)) <==> 0 <= n <= 1000 * 1000 * 1000 * 1000
    ensures Amount(Int(n)) <==> 0 <= n <= 1000 * 1000 * 1000
    ensures Score(Int(n)) <==> -1 <= n <= 100
    ensures !Count(Real(r))
    ensures Amount(Real(r)) <==> 0.0 <= r <= 1000000000.0
    ensures Score(Real(r)) <==> -1.0 <= r <= 100.0
  {
  }

  /** A value of a released vocabulary says nothing that was not declared: it is a declared word, or a list of at most
      32 of them. */
  lemma ReleasedValues(allowed: set<string>, v: Json)
    ensures VocabMember(allowed, v) <==>
      || (exists s :: s in allowed && v == Str(s))
      || (v.Arr? && |v.items| <= 32 && forall item :: item in v.items ==> exists s :: s in allowed && item == Str(s))
  {
    if v.Arr? {
      assert forall i :: 0 <= i < |v.items| ==> v.items[i] in v.items;
    }
  }

  /** A token holds white space exactly when it ends in the one newline that `$` lets by. */
  lemma TokenWhiteSpace(s: string)
    requires TokenText(s)
    ensures (exists i :: 0 <= i < |s| && White(s[i])) <==> s[|s| - 1] == '\n'
  {
    var body := Body(s);
    forall i | 0 <= i < |body| ensures s[i] == body[i] && !White(s[i]) && s[i] != '\n' {
      assert TokenChar(body[i]);
    }
    if s[|s| - 1] == '\n' {
      assert White(s[|s| - 1]);
    }
  }

  /** There is such a token. */
  lemma TokenMayEndInNewline()
    ensures TokenText("a\n")
  {
    assert Body("a\n") == "a";
  }

  /** Nor can an opaque id be mistaken for a redaction marker. */
  lemma IdIsNoMarker(s: string)
    requires OpaqueId(Str(s))
    ensures s[0] != '[' && s !in GENERATED_MARKERS
  {
    assert Body(s)[0] == s[0];
    assert OpaqueChar(s[0]);
    assert REDACTED_TRIGGER[3] == ' ' && REDACTED_TOOL[3] == ' ';
    if |s| > 4 {
      assert Body(s)[3] == s[3];
    }
  }

  /** A token, like every opaque id, starts with a letter, a digit or one of its punctuation marks:
      it can never be mistaken for a redaction marker. */
  lemma TokenIsNoMarker(s: string)
    requires TokenText(s)
    ensures s[0] != '[' && s !in GENERATED_MARKERS
  {
    assert Body(s)[0] == s[0];
    assert TokenChar(s[0]);
    assert REDACTED_TRIGGER[3] == ' ';
    assert REDACTED_TOOL[3] == ' ';
    if |s| > 4 {
      assert Body(s)[3] == s[3];
    }
  }
}
