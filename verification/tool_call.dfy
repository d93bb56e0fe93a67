/** `safe_tool_call` and the two number-bounding functions it relies on. */
module ToolCall {
  import opened Wrappers
  import opened Json
  import opened Validators

  const MAX_ARITY := 32
  const SIZE_LIMIT: int := 10_000_000_000_000

  function Pow10(e: nat): nat {
    if e == 0 then 1 else 10 * Pow10(e - 1)
  }

  /** `len(str(n))` */
  function Digits(n: nat): (d: nat)
    ensures d >= 1
  {
    if n < 10 then 1 else 1 + Digits(n / 10)
  }

  function BoundedArity(v: Json): nat {
    if !v.Int? || v.n < 0 then 0 else if v.n < MAX_ARITY then v.n else MAX_ARITY
  }

  function BoundedSize(v: Json): nat {
    if !v.Int? || v.n <= 0 then 0 else Pow10(Digits(v.n) - 1)
  }

  /** A size that survives re-projection: zero or a power of ten the `Count` validator accepts. */
  predicate SizeBucket(n: int) {
    n == 0 || exists e: nat :: e <= 12 && n == Pow10(e)
  }

  lemma {:induction false} Pow10Monotone(a: nat, b: nat)
    requires a <= b
    ensures 1 <= Pow10(a) <= Pow10(b)
    ensures a < b ==> 10 * Pow10(a) <= Pow10(b)
  {
    if b == 0 {
    } else if a < b {
      Pow10Monotone(a, b - 1);
    } else {
      Pow10Monotone(a - 1, b - 1);
    }
  }

  lemma {:induction false} DigitsOfPow10(e: nat)
    ensures Digits(Pow10(e)) == e + 1
  {
    if e > 0 {
      DigitsOfPow10(e - 1);
      Pow10Monotone(0, e - 1);
      assert Pow10(e) / 10 == Pow10(e - 1);
    }
  }

  lemma {:induction false} DigitsBracket(n: nat)
    requires n > 0
    ensures Pow10(Digits(n) - 1) <= n < 10 * Pow10(Digits(n) - 1)
  {
    if n >= 10 {
      DigitsBracket(n / 10);
    }
  }

  lemma TenToTheTwelve()
    ensures Pow10(12) == 1_000_000_000_000
  {
    assert Pow10(4) == 10_000;
    assert Pow10(8) == 100_000_000;
  }

  /** Rounding a size down to its order of magnitude: the bucket is within a factor ten of the size,
      is its own bucket, and is still an acceptable count exactly while the size is below 10^13. */
  lemma SizeBucketing(n: nat)
    requires n > 0
    ensures BoundedSize(Int(n)) <= n < 10 * BoundedSize(Int(n))
    ensures BoundedSize(Int(BoundedSize(Int(n)))) == BoundedSize(Int(n))
    ensures Count(Int(BoundedSize(Int(n)))) <==> n < SIZE_LIMIT
    ensures SizeBucket(BoundedSize(Int(n))) <==> n < SIZE_LIMIT
  {
    var e := Digits(n) - 1;
    DigitsBracket(n);
    DigitsOfPow10(e);
    TenToTheTwelve();
    Pow10Monotone(0, e);
    if e <= 12 {
      Pow10Monotone(e, 12);
    } else {
      Pow10Monotone(12, e);
      forall f: nat | f <= 12 ensures Pow10(f) != Pow10(e) {
        Pow10Monotone(f, 12);
      }
    }
  }

  /** The buckets are exactly the counts that bucketing leaves alone. */
  lemma BucketsAreFixed(n: int)
    ensures SizeBucket(n) <==> Count(Int(n)) && BoundedSize(Int(n)) == n
  {
    TenToTheTwelve();
    if n > 0 {
      SizeBucketing(n);
      DigitsBracket(n);
      if SizeBucket(n) {
        var e: nat :| e <= 12 && n == Pow10(e);
        DigitsOfPow10(e);
        Pow10Monotone(e, 12);
      }
    } else {
      forall e: nat | e <= 12 ensures Pow10(e) > 0 {
        Pow10Monotone(0, e);
      }
    }
  }

  predicate HasToken(v: Json) {
    v.Arr? && exists i :: 0 <= i < |v.items| && ShortToken(v.items[i])
  }

  predicate AlreadyProjected(tc: map<string, Json>) {
    "input" !in tc && "result" !in tc && "input_key_count" in tc
  }

  /** `tc.get("result") or {}` followed by `.get(…)`, and `len(tc.get("input") or {})`, raise on these. */
  predicate Malformed(tc: map<string, Json>) {
    !AlreadyProjected(tc) &&
    var result, input := Get(tc, "result"), Get(tc, "input");
    || (result.Truthy() && !result.Obj?)
    || (input.Truthy() && (input.Bool? || input.Int? || input.Real?))
  }

  function OrEmpty(v: Json): map<string, Json> {
    if v.Obj? then v.fields else map[]
  }

  function Length(v: Json): nat {
    match v
    case Str(s) => |s|
    case Arr(items) => |items|
    case Obj(fields) => |fields|
    case _ => 0
  }

  function ResolvedName(name: Json, known: Option<set<string>>): Json {
    if name.Str? && known.Some? && name.s in known.value then name else Str(REDACTED_FIELD)
  }

  /** The content whose serialized length is recorded, when the call is not yet projected. */
  function Content(tc: map<string, Json>): Json {
    Get(OrEmpty(Get(tc, "result")), "content")
  }

  /** `dumped` is the byte length of `json.dumps(content, sort_keys=True, default=str)`. */
  function ContentBytes(tc: map<string, Json>, dumped: Json -> nat): Option<nat> {
    if AlreadyProjected(tc) then
      var cb := Get(tc, "content_bytes");
      if Count(cb) then Some(BoundedSize(cb)) else None
    else if Content(tc).Null? then None
    else Some(BoundedSize(Int(dumped(Content(tc)))))
  }

  /** The reconstructed record before it is written out as a dictionary. */
  datatype Call = Call(
    name: Json, arity: nat, resultOk: bool, errorPresent: bool, pinned: bool, overridden: bool, size: Option<nat>)

  function CallOf(tc: map<string, Json>, known: Option<set<string>>, dumped: Json -> nat): Call {
    var projected := AlreadyProjected(tc);
    var error := Get(OrEmpty(Get(tc, "result")), "error");
    Call(
      ResolvedName(Get(tc, "name"), known),
      if projected then BoundedArity(Get(tc, "input_key_count")) else BoundedArity(Int(Length(Get(tc, "input")))),
      if projected then Get(tc, "result_ok").Truthy() else !error.Truthy(),
      if projected then Get(tc, "error_present").Truthy() else error.Truthy(),
      HasToken(Get(tc, "pinned")) || Get(tc, "pinned_present") == Bool(true),
      HasToken(Get(tc, "pin_overrides")) || Get(tc, "pin_overrides_present") == Bool(true),
      ContentBytes(tc, dumped))
  }

  function Render(c: Call): map<string, Json> {
    var safe := map[
      "name" := c.name,
      "input_key_count" := Int(c.arity),
      "result_ok" := Bool(c.resultOk),
      "error_present" := Bool(c.errorPresent),
      "pinned_present" := Bool(c.pinned),
      "pin_overrides_present" := Bool(c.overridden),
      "_redacted" := Str(REDACTED_TOOL)];
    match c.size
    case None => safe
    case Some(size) => safe["content_bytes" := Int(size)]
  }

  function SafeToolCall(tc: map<string, Json>, known: Option<set<string>>, dumped: Json -> nat): map<string, Json> {
    Render(CallOf(tc, known, dumped))
  }

  const SAFE_CALL_KEYS: set<string> :=
    {"name", "input_key_count", "result_ok", "error_present", "pinned_present", "pin_overrides_present", "_redacted"}

  /** The records a grant-less reader may see: a fixed key set, a resolved or withheld name, a bounded
      arity, four flags, our own marker and at most one size bucket. */
  predicate SafeCall(tc: map<string, Json>, known: Option<set<string>>) {
    && SAFE_CALL_KEYS <= tc.Keys <= SAFE_CALL_KEYS + {"content_bytes"}
    && (tc["name"] == Str(REDACTED_FIELD) || (tc["name"].Str? && known.Some? && tc["name"].s in known.value))
    && tc["input_key_count"].Int? && 0 <= tc["input_key_count"].n <= 32
    && tc["result_ok"].Bool? && tc["error_present"].Bool?
    && tc["pinned_present"].Bool? && tc["pin_overrides_present"].Bool?
    && tc["_redacted"] == Str(REDACTED_TOOL)
    && ("content_bytes" in tc ==> tc["content_bytes"].Int? && SizeBucket(tc["content_bytes"].n))
  }

  /** The serialized content stays under ten to the thirteenth bytes. */
  predicate CallFits(tc: map<string, Json>, dumped: Json -> nat) {
    AlreadyProjected(tc) || Content(tc).Null? || dumped(Content(tc)) < SIZE_LIMIT
  }

  lemma KeysDiffer()
    ensures "result_ok" != "_redacted"
    ensures "error_present" != "content_bytes"
  {
    assert "result_ok"[0] == 'r' && "_redacted"[0] == '_';
    assert "error_present"[0] == 'e' && "content_bytes"[0] == 'c';
  }

  /** `p` has exactly the fields of the record `c`. */
  predicate ReadsAs(p: map<string, Json>, c: Call) {
    && p.Keys == SAFE_CALL_KEYS + (if c.size.Some? then {"content_bytes"} else {})
    && p["name"] == c.name && p["input_key_count"] == Int(c.arity)
    && p["result_ok"] == Bool(c.resultOk) && p["error_present"] == Bool(c.errorPresent)
    && p["pinned_present"] == Bool(c.pinned) && p["pin_overrides_present"] == Bool(c.overridden)
    && p["_redacted"] == Str(REDACTED_TOOL)
    && (c.size.Some? ==> p["content_bytes"] == Int(c.size.value))
  }

  lemma RenderReads(c: Call)
    ensures ReadsAs(Render(c), c)
  {
    KeysDiffer();
  }

  lemma RenderedOnce(c: Call, p: map<string, Json>)
    ensures ReadsAs(p, c) <==> p == Render(c)
  {
    RenderReads(c);
    if ReadsAs(p, c) {
      forall k | k in p ensures p[k] == Render(c)[k] {
        assert k in SAFE_CALL_KEYS || k == "content_bytes";
      }
    }
  }

  /** `len` of an input: its parameters, items or characters. */
  function Parts(input: Json): nat {
    match input
    case Obj(fields) => |fields|
    case Arr(items) => |items|
    case Str(s) => |s|
    case _ => 0
  }

  predicate NamesToken(list: Json) {
    list.Arr? && exists v :: v in list.items && ShortToken(v)
  }

  /** The error and the content of a call's result. */
  predicate ResultFailed(result: Json) {
    result.Obj? && "error" in result.fields && result.fields["error"].Truthy()
  }

  predicate HasContent(result: Json) {
    result.Obj? && "content" in result.fields && !result.fields["content"].Null?
  }

  /** What the record of a raw call says: it failed exactly when its result carries an error; the arity is the number
      of parts of its input, at most 32; a size is recorded exactly when there is content, within a factor ten
      below the real one; the pin flags say whether a pin is named; and a name only shows when the catalog has it. */
  lemma RawCallRecord(tc: map<string, Json>, known: Option<set<string>>, dumped: Json -> nat)
    requires "input" in tc || "result" in tc || "input_key_count" !in tc
    requires !Malformed(tc)
    ensures var out := SafeToolCall(tc, known, dumped);
      var result, input, name := Get(tc, "result"), Get(tc, "input"), Get(tc, "name");
      && Get(out, "error_present") == Bool(ResultFailed(result))
      && Get(out, "result_ok") == Bool(!ResultFailed(result))
      && Get(out, "input_key_count") == Int(if Parts(input) < 32 then Parts(input) else 32)
      && Get(out, "pinned_present") == Bool(NamesToken(Get(tc, "pinned")) || Get(tc, "pinned_present") == Bool(true))
      && Get(out, "pin_overrides_present") ==
           Bool(NamesToken(Get(tc, "pin_overrides")) || Get(tc, "pin_overrides_present") == Bool(true))
      && Get(out, "name") ==
           (if name.Str? && known.Some? && name.s in known.value then name else Str(REDACTED_FIELD))
      && ("content_bytes" in out <==> HasContent(result))
      && (HasContent(result) ==> SizeTells(Get(out, "content_bytes"), dumped(result.fields["content"])))
  {
    hide ContentBytes, BoundedSize, ShortToken, SafeCall;
    var c := CallOf(tc, known, dumped);
    RenderReads(c);
    RawContent(tc, dumped);
    TokensAreNamed(Get(tc, "pinned"));
    TokensAreNamed(Get(tc, "pin_overrides"));
  }

  /** The recorded size is zero for nothing, and otherwise within a factor ten below the real one. */
  predicate SizeTells(recorded: Json, size: nat) {
    recorded.Int? && if size == 0 then recorded.n == 0 else recorded.n <= size < 10 * recorded.n
  }

  lemma RawContent(tc: map<string, Json>, dumped: Json -> nat)
    requires "input" in tc || "result" in tc || "input_key_count" !in tc
    ensures ContentBytes(tc, dumped).Some? <==> HasContent(Get(tc, "result"))
    ensures HasContent(Get(tc, "result")) ==>
      SizeTells(Int(ContentBytes(tc, dumped).value), dumped(Get(tc, "result").fields["content"]))
  {
    if HasContent(Get(tc, "result")) {
      var size := dumped(Get(tc, "result").fields["content"]);
      if size > 0 {
        SizeBucketing(size);
      }
    }
  }

  lemma TokensAreNamed(list: Json)
    ensures HasToken(list) <==> NamesToken(list)
  {
    if HasToken(list) {
      var i :| 0 <= i < |list.items| && ShortToken(list.items[i]);
      assert list.items[i] in list.items;
    }
  }

  /** A record that was projected before speaks for itself: its flags by their truth, its arity and its size within
      their bounds. */
  lemma ProjectedCallRecord(tc: map<string, Json>, known: Option<set<string>>, dumped: Json -> nat)
    requires "input" !in tc && "result" !in tc && "input_key_count" in tc
    ensures var out := SafeToolCall(tc, known, dumped); var arity := tc["input_key_count"];
      && Get(out, "error_present") == Bool(Get(tc, "error_present").Truthy())
      && Get(out, "result_ok") == Bool(Get(tc, "result_ok").Truthy())
      && Get(out, "input_key_count") ==
           Int(if !arity.Int? || arity.n < 0 then 0 else if arity.n < 32 then arity.n else 32)
      && ("content_bytes" in out <==> Count(Get(tc, "content_bytes")))
      && (Count(Get(tc, "content_bytes")) ==> SizeTells(Get(out, "content_bytes"), Get(tc, "content_bytes").n))
  {
    hide HasToken, SafeCall;
    RenderReads(CallOf(tc, known, dumped));
    if Count(Get(tc, "content_bytes")) && Get(tc, "content_bytes").n > 0 {
      SizeBucketing(Get(tc, "content_bytes").n);
    }
  }

  /** Which raw calls cannot be read: a result that is a non-empty list or string, a non-zero number or true, which
      has no fields; or an input that is such a number or true, which has no length. */
  lemma MalformedIff(tc: map<string, Json>)
    ensures Malformed(tc) <==>
      && ("input" in tc || "result" in tc || "input_key_count" !in tc)
      && ((match Get(tc, "result")
           case Str(s) => |s| > 0
           case Arr(items) => |items| > 0
           case Int(n) => n > 0 || n < 0
           case Real(x) => x > 0.0 || x < 0.0
           case Bool(b) => b
           case _ => false)
          || (match Get(tc, "input")
              case Int(n) => n > 0 || n < 0
              case Real(x) => x > 0.0 || x < 0.0
              case Bool(b) => b
              case _ => false))
  {
  }

  /** A projected call is in the safe form exactly when its content fitted. */
  lemma CallLandsIffFits(tc: map<string, Json>, known: Option<set<string>>, dumped: Json -> nat)
    ensures SafeCall(SafeToolCall(tc, known, dumped), known) <==> CallFits(tc, dumped)
  {
    var c := CallOf(tc, known, dumped);
    RenderReads(c);
    SizeLandsIffFits(tc, dumped);
    assert c.size == ContentBytes(tc, dumped);
  }

  lemma SizeLandsIffFits(tc: map<string, Json>, dumped: Json -> nat)
    ensures var size := ContentBytes(tc, dumped);
      size.None? || SizeBucket(size.value) <==> CallFits(tc, dumped)
  {
    if AlreadyProjected(tc) {
      var cb := Get(tc, "content_bytes");
      if Count(cb) && cb.n > 0 {
        SizeBucketing(cb.n);
      }
    } else if !Content(tc).Null? && dumped(Content(tc)) > 0 {
      SizeBucketing(dumped(Content(tc)));
    }
  }

  /** Only keys of the safe form are present, so the record takes the already-projected branch. */
  lemma SafeKeysAreProjected(tc: map<string, Json>)
    requires SAFE_CALL_KEYS <= tc.Keys <= SAFE_CALL_KEYS + {"content_bytes"}
    ensures AlreadyProjected(tc)
    ensures "pinned" !in tc && "pin_overrides" !in tc
  {
  }

  lemma SafeReadsAsItself(tc: map<string, Json>, known: Option<set<string>>, dumped: Json -> nat)
    requires SafeCall(tc, known)
    ensures ReadsAs(tc, CallOf(tc, known, dumped))
  {
    SafeKeysAreProjected(tc);
    if "content_bytes" in tc {
      BucketsAreFixed(tc["content_bytes"].n);
    }
  }

  lemma ReadsAsItselfIsSafe(tc: map<string, Json>, known: Option<set<string>>, dumped: Json -> nat)
    requires ReadsAs(tc, CallOf(tc, known, dumped))
    ensures SafeCall(tc, known)
  {
    SafeKeysAreProjected(tc);
    SizeLandsIffFits(tc, dumped);
  }

  /** A call is left exactly as it is when, and only when, it is already in the safe form. */
  lemma CallFixedIffSafe(tc: map<string, Json>, known: Option<set<string>>, dumped: Json -> nat)
    ensures SafeToolCall(tc, known, dumped) == tc <==> SafeCall(tc, known)
  {
    RenderedOnce(CallOf(tc, known, dumped), tc);
    if SafeCall(tc, known) {
      SafeReadsAsItself(tc, known, dumped);
    }
    if ReadsAs(tc, CallOf(tc, known, dumped)) {
      ReadsAsItselfIsSafe(tc, known, dumped);
    }
  }
}
