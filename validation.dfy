/** Input sanitising and the request schemas (src/lib/validation.ts). A schema
    is a total function from the decoded request to `Success(data)` or
    `Failure`; the text of the schema library's messages is not modelled. */
module Validation {
  import opened Wrappers
  import opened Strings
  import opened Types

  // ---------------------------------------------------------------------
  // sanitizeString

  predicate IsAngle(c: char) {
    c == '<' || c == '>'
  }

  /** `replace(/[<>]/g, '')`. */
  function StripAngles(s: string): (r: string)
    ensures |r| <= |s|
    ensures forall i :: 0 <= i < |r| ==> !IsAngle(r[i])
    ensures (forall i :: 0 <= i < |s| ==> !IsAngle(s[i])) ==> r == s
  {
    if s == [] then [] else (if IsAngle(s[0]) then "" else [s[0]]) + StripAngles(s[1..])
  }

  /** Stripping works character by character: it splits over concatenation,
      so every other character survives, in its original order. */
  lemma {:induction false} StripAnglesConcat(a: string, b: string)
    ensures StripAngles(a + b) == StripAngles(a) + StripAngles(b)
  {
    if a == [] {
      assert a + b == b;
    } else {
      assert (a + b)[0] == a[0];
      assert (a + b)[1..] == a[1..] + b;
      StripAnglesConcat(a[1..], b);
      assert StripAngles(a + b) == (if IsAngle(a[0]) then "" else [a[0]]) + StripAngles(a[1..] + b);
    }
  }

  /** The white space and line terminators that `String.prototype.trim`
      removes (ECMAScript WhiteSpace and LineTerminator). */
  predicate IsWhitespace(c: char) {
    c == '\t' || c == '\n' || c == '\U{000B}' || c == '\U{000C}' || c == '\r' || c == ' ' ||
    c == '\U{00A0}' || c == '\U{1680}' || ('\U{2000}' <= c <= '\U{200A}') ||
    c == '\U{2028}' || c == '\U{2029}' || c == '\U{202F}' || c == '\U{205F}' ||
    c == '\U{3000}' || c == '\U{FEFF}'
  }

  /** The first index at or after `i` that does not hold white space. */
  function SkipLeading(s: string, i: nat): (n: nat)
    requires i <= |s|
    ensures i <= n <= |s|
    ensures forall k :: i <= k < n ==> IsWhitespace(s[k])
    ensures n == |s| || !IsWhitespace(s[n])
    decreases |s| - i
  {
    if i < |s| && IsWhitespace(s[i]) then SkipLeading(s, i + 1) else i
  }

  /** The end of the text once white space before `j`, down to `lo`, is
      dropped. */
  function SkipTrailing(s: string, lo: nat, j: nat): (m: nat)
    requires lo <= j <= |s|
    ensures lo <= m <= j
    ensures forall k :: m <= k < j ==> IsWhitespace(s[k])
    ensures m == lo || !IsWhitespace(s[m - 1])
    decreases j
  {
    if lo < j && IsWhitespace(s[j - 1]) then SkipTrailing(s, lo, j - 1) else j
  }

  /** The number of white-space characters `trim` removes at the front. */
  function LeadingWhitespace(s: string): (n: nat)
    ensures n <= |s|
  {
    SkipLeading(s, 0)
  }

  /** `trim()`: the infix left after removing white space at both ends; it
      starts and ends with a character that is not white space. */
  function Trim(s: string): (r: string)
    ensures LeadingWhitespace(s) + |r| <= |s|
    ensures r == s[LeadingWhitespace(s)..LeadingWhitespace(s) + |r|]
    ensures forall k :: 0 <= k < LeadingWhitespace(s) ==> IsWhitespace(s[k])
    ensures forall k :: LeadingWhitespace(s) + |r| <= k < |s| ==> IsWhitespace(s[k])
    ensures r == [] || (!IsWhitespace(r[0]) && !IsWhitespace(r[|r| - 1]))
  {
    var n := SkipLeading(s, 0);
    s[n..SkipTrailing(s, n, |s|)]
  }

  /** Trimming text that neither starts nor ends with white space changes
      nothing. */
  lemma TrimNoOp(s: string)
    requires s == [] || (!IsWhitespace(s[0]) && !IsWhitespace(s[|s| - 1]))
    ensures Trim(s) == s
  {
  }

  const MaxSanitizedLength: nat := 10000

  /** What `sanitizeString` guarantees of its result. Trailing white space
      is ruled out only below the cap, because the cut runs after `trim`. */
  predicate Sanitized(s: string) {
    && |s| <= MaxSanitizedLength
    && (forall i :: 0 <= i < |s| ==> !IsAngle(s[i]))
    && (s == [] || !IsWhitespace(s[0]))
    && (|s| < MaxSanitizedLength ==> s == [] || !IsWhitespace(s[|s| - 1]))
  }

  /** Strip `<` and `>`, then trim, then keep the first 10000 characters. */
  function SanitizeString(s: string): (r: string)
    ensures Sanitized(r)
    ensures |r| <= |s|
  {
    var stripped := StripAngles(s);
    var trimmed := Trim(stripped);
    var r := Take(trimmed, MaxSanitizedLength);
    assert forall i :: 0 <= i < |r| ==> r[i] in trimmed;
    r
  }

  lemma StripAnglesOpenTag()
    ensures StripAngles("<b>") == "b"
  {
    assert "<b>"[1..] == "b>";
    assert "b>"[1..] == ">";
  }

  lemma StripAnglesCloseTag()
    ensures StripAngles("</b>") == "/b"
  {
    assert "</b>"[1..] == "/b>";
    assert "/b>"[1..] == "b>";
    assert "b>"[1..] == ">";
  }

  lemma StripAnglesExample()
    ensures StripAngles("<b>Hello</b>") == "bHello/b"
  {
    StripAnglesConcat("<b>", "Hello" + "</b>");
    StripAnglesConcat("Hello", "</b>");
    StripAnglesOpenTag();
    StripAnglesCloseTag();
    StripAnglesPlain();
    ExampleParts();
  }

  lemma StripAnglesPlain()
    ensures StripAngles("Hello") == "Hello"
  {
    assert forall i :: 0 <= i < |"Hello"| ==> !IsAngle("Hello"[i]);
  }

  lemma ExampleParts()
    ensures "<b>Hello</b>" == "<b>" + ("Hello" + "</b>")
    ensures "b" + ("Hello" + "/b") == "bHello/b"
  {
  }

  /** The markup example: the angle brackets go, everything else stays. */
  lemma SanitizeExample()
    ensures SanitizeString("<b>Hello</b>") == "bHello/b"
  {
    StripAnglesExample();
    TrimExample();
  }

  lemma TrimExample()
    ensures Trim("bHello/b") == "bHello/b"
  {
  }

  /** Below the cap, sanitising a sanitised string changes nothing. */
  lemma SanitizeIdempotentBelowCap(s: string)
    requires |SanitizeString(s)| < MaxSanitizedLength
    ensures SanitizeString(SanitizeString(s)) == SanitizeString(s)
  {
    var r := SanitizeString(s);
    assert StripAngles(r) == r;
    TrimNoOp(r);
  }

  /** At the cap sanitising is not idempotent: the cut can expose trailing
      white space that a second pass trims away. */
  lemma SanitizeNotIdempotentAtCap()
    ensures var s := seq(9999, _ => 'a') + " b";
      SanitizeString(SanitizeString(s)) != SanitizeString(s)
  {
    var a := seq(9999, _ => 'a');
    var s := a + " b";
    assert StripAngles(s) == s;
    assert s[0] == 'a' && s[|s| - 1] == 'b';
    TrimNoOp(s);
    var once := SanitizeString(s);
    assert once == a + " ";
    assert StripAngles(once) == once;
    var r := Trim(once);
    assert once[0] == 'a' && once[9998] == 'a' && once[9999] == ' ';
    assert LeadingWhitespace(once) == 0;
    assert |r| == 9999;
    assert |SanitizeString(once)| == 9999;
  }

  /** Trimming white space, then `m`, then white space, where `m` neither
      starts nor ends with white space, gives exactly `m`. */
  lemma TrimDecomposed(w1: string, m: string, w2: string)
    requires forall k :: 0 <= k < |w1| ==> IsWhitespace(w1[k])
    requires forall k :: 0 <= k < |w2| ==> IsWhitespace(w2[k])
    requires m == [] || (!IsWhitespace(m[0]) && !IsWhitespace(m[|m| - 1]))
    ensures Trim(w1 + m + w2) == m
  {
    var t := w1 + m + w2;
    var a := |w1|;
    var b := |w1| + |m|;
    assert forall k :: 0 <= k < a ==> t[k] == w1[k];
    assert forall k :: a <= k < b ==> t[k] == m[k - a];
    assert forall k :: b <= k < |t| ==> t[k] == w2[k - b];
    var n := SkipLeading(t, 0);
    if m == [] {
      assert forall k :: 0 <= k < |t| ==> IsWhitespace(t[k]);
      assert n == |t|;
    } else {
      assert !IsWhitespace(t[a]) && !IsWhitespace(t[b - 1]);
      assert n == a;
      var e := SkipTrailing(t, n, |t|);
      assert e == b;
      assert t[a..b] == m;
    }
  }

  /** Sanitising strips first, trims second and cuts last: when stripping
      leaves white space, then `m`, then white space, the result is the
      first 10000 characters of `m`. */
  lemma SanitizeDecomposed(s: string, w1: string, m: string, w2: string)
    requires StripAngles(s) == w1 + m + w2
    requires forall k :: 0 <= k < |w1| ==> IsWhitespace(w1[k])
    requires forall k :: 0 <= k < |w2| ==> IsWhitespace(w2[k])
    requires m == [] || (!IsWhitespace(m[0]) && !IsWhitespace(m[|m| - 1]))
    ensures SanitizeString(s) == Take(m, MaxSanitizedLength)
  {
    TrimDecomposed(w1, m, w2);
  }

  /** Clean text under the cap comes back unchanged. */
  lemma SanitizeCleanText(m: string)
    requires |m| <= MaxSanitizedLength
    requires forall k :: 0 <= k < |m| ==> !IsAngle(m[k])
    requires m == [] || (!IsWhitespace(m[0]) && !IsWhitespace(m[|m| - 1]))
    ensures SanitizeString(m) == m
  {
    assert StripAngles(m) == m;
    TrimNoOp(m);
  }

  // ---------------------------------------------------------------------
  // Field rules shared by the schemas

  /** The message a route reports when a schema rejects its input. */
  const InvalidInput: string := "Invalid input"

  /** The outcome of `schema.safeParse(input)`. */
  datatype SafeParse<+T> = Success(data: T) | Failure

  predicate Within(v: Option<string>, max: nat) {
    v.None? || |v.value| <= max
  }

  predicate NullableWithin(v: Option<Option<string>>, max: nat) {
    v.None? || v.value.None? || |v.value.value| <= max
  }

  const MaxPrice: real := 1000000.0

  predicate PriceInRange(p: real) {
    0.0 <= p <= MaxPrice
  }

  predicate ListWithin(v: Option<seq<string>>, itemMax: nat, countMax: nat) {
    v.None? || (|v.value| <= countMax && forall i :: 0 <= i < |v.value| ==> |v.value[i]| <= itemMax)
  }

  predicate StatusWithin(v: Option<string>) {
    v.None? || ParseStatus(v.value).Some?
  }

  function SanitizeOpt(v: Option<string>): Option<string> {
    if v.Some? then Some(SanitizeString(v.value)) else None
  }

  function SanitizeAll(xs: seq<string>): (r: seq<string>)
    ensures |r| == |xs| && forall i :: 0 <= i < |xs| ==> r[i] == SanitizeString(xs[i])
  {
    seq(|xs|, i requires 0 <= i < |xs| => SanitizeString(xs[i]))
  }

  /** `z.string().max(max).optional().transform(v => v ? sanitizeString(v) : v)`:
      the length is checked on the raw text; the empty string is passed on
      as it is, which is what sanitising would give anyway. */
  function OptionalText(v: Option<string>, max: nat): (r: SafeParse<Option<string>>)
    ensures r.Success? <==> Within(v, max)
    ensures r.Success? ==> r.data == SanitizeOpt(v)
    ensures r.Success? && r.data.Some? ==> |r.data.value| <= max && Sanitized(r.data.value)
  {
    match v
    case None => Success(None)
    case Some(s) =>
      if |s| > max then Failure
      else Success(Some(if s == "" then s else SanitizeString(s)))
  }

  /** The same with `.nullable()`: `null` is passed on. */
  function NullableText(v: Option<Option<string>>, max: nat): (r: SafeParse<Option<Option<string>>>)
    ensures r.Success? <==> NullableWithin(v, max)
    ensures r.Success? ==> (r.data.Some? <==> v.Some?)
    ensures r.Success? && v.Some? ==> r.data.value == SanitizeOpt(v.value)
  {
    match v
    case None => Success(None)
    case Some(None) => Success(Some(None))
    case Some(Some(s)) =>
      if |s| > max then Failure
      else Success(Some(Some(if s == "" then s else SanitizeString(s))))
  }

  /** `z.array(z.string().max(itemMax).transform(sanitizeString)).max(countMax).optional()`. */
  function OptionalTextList(v: Option<seq<string>>, itemMax: nat, countMax: nat): (r: SafeParse<Option<seq<string>>>)
    ensures r.Success? <==> ListWithin(v, itemMax, countMax)
    ensures r.Success? ==> (r.data.Some? <==> v.Some?)
    ensures r.Success? && v.Some? ==> r.data.value == SanitizeAll(v.value)
  {
    match v
    case None => Success(None)
    case Some(xs) =>
      if |xs| <= countMax && forall i :: 0 <= i < |xs| ==> |xs[i]| <= itemMax
      then Success(Some(SanitizeAll(xs)))
      else Failure
  }

  function OptionalStatus(v: Option<string>): (r: SafeParse<Option<Status>>)
    ensures r.Success? <==> StatusWithin(v)
    ensures r.Success? ==> (r.data.Some? <==> v.Some?)
    ensures r.Success? && v.Some? ==> StatusName(r.data.value) == v.value
  {
    match v
    case None => Success(None)
    case Some(s) => if ParseStatus(s).Some? then Success(ParseStatus(s)) else Failure
  }

  // ---------------------------------------------------------------------
  // artworkCreateSchema and artworkUpdateSchema

  /** The decoded request body for creating an artwork. */
  datatype ArtworkCreateInput = ArtworkCreateInput(
    title: Option<string>,
    description: Option<string>,
    artistNotes: Option<string>,
    price: Option<real>,
    status: Option<string>)

  function ArtworkCreateSchema(input: ArtworkCreateInput): (r: SafeParse<ArtworkCreate>)
    ensures r.Success? <==>
      && Within(input.title, 200) && Within(input.description, 5000) && Within(input.artistNotes, 2000)
      && (input.price.Some? ==> PriceInRange(input.price.value))
      && StatusWithin(input.status)
    ensures r.Success? ==>
      && r.data.title == SanitizeOpt(input.title)
      && r.data.description == SanitizeOpt(input.description)
      && r.data.artistNotes == SanitizeOpt(input.artistNotes)
      && r.data.price == input.price
      && (r.data.status.Some? <==> input.status.Some?)
      && (r.data.status.Some? ==> StatusName(r.data.status.value) == input.status.value)
    ensures r.Success? && r.data.title.Some? ==> |r.data.title.value| <= 200
  {
    var title := OptionalText(input.title, 200);
    var description := OptionalText(input.description, 5000);
    var notes := OptionalText(input.artistNotes, 2000);
    var status := OptionalStatus(input.status);
    if title.Success? && description.Success? && notes.Success? && status.Success?
       && (input.price.Some? ==> PriceInRange(input.price.value))
    then Success(ArtworkCreate(title.data, description.data, notes.data, input.price, status.data))
    else Failure
  }

  /** The decoded request body for updating an artwork. */
  datatype ArtworkUpdateInput = ArtworkUpdateInput(
    title: Option<string>,
    description: Option<string>,
    seoTitle: Option<string>,
    seoDescription: Option<string>,
    tags: Option<seq<string>>,
    colors: Option<seq<string>>,
    mood: Option<string>,
    personality: Option<string>,
    price: Option<Option<real>>,
    status: Option<string>,
    artistNotes: Option<Option<string>>)

  predicate UpdateInputWithinLimits(input: ArtworkUpdateInput) {
    && Within(input.title, 200) && Within(input.description, 5000)
    && Within(input.seoTitle, 70) && Within(input.seoDescription, 160)
    && ListWithin(input.tags, 50, 20) && ListWithin(input.colors, 20, 10)
    && Within(input.mood, 100) && Within(input.personality, 2000)
    && (input.price.Some? && input.price.value.Some? ==> PriceInRange(input.price.value.value))
    && StatusWithin(input.status)
    && NullableWithin(input.artistNotes, 2000)
  }

  function ArtworkUpdateSchema(input: ArtworkUpdateInput): (r: SafeParse<ArtworkUpdate>)
    ensures r.Success? <==> UpdateInputWithinLimits(input)
    ensures r.Success? ==>
      && r.data.title == SanitizeOpt(input.title)
      && r.data.description == SanitizeOpt(input.description)
      && r.data.seoTitle == SanitizeOpt(input.seoTitle)
      && r.data.seoDescription == SanitizeOpt(input.seoDescription)
      && (r.data.tags.Some? <==> input.tags.Some?)
      && (input.tags.Some? ==> r.data.tags.value == SanitizeAll(input.tags.value))
      && (r.data.colors.Some? <==> input.colors.Some?)
      && (input.colors.Some? ==> r.data.colors.value == SanitizeAll(input.colors.value))
      && r.data.mood == SanitizeOpt(input.mood)
      && r.data.personality == SanitizeOpt(input.personality)
      && r.data.price == input.price
      && (r.data.status.Some? <==> input.status.Some?)
      && (r.data.status.Some? ==> StatusName(r.data.status.value) == input.status.value)
      && (r.data.artistNotes.Some? <==> input.artistNotes.Some?)
      && (input.artistNotes.Some? ==> r.data.artistNotes.value == SanitizeOpt(input.artistNotes.value))
  {
    var title := OptionalText(input.title, 200);
    var description := OptionalText(input.description, 5000);
    var seoTitle := OptionalText(input.seoTitle, 70);
    var seoDescription := OptionalText(input.seoDescription, 160);
    var tags := OptionalTextList(input.tags, 50, 20);
    var colors := OptionalTextList(input.colors, 20, 10);
    var mood := OptionalText(input.mood, 100);
    var personality := OptionalText(input.personality, 2000);
    var status := OptionalStatus(input.status);
    var notes := NullableText(input.artistNotes, 2000);
    if && title.Success? && description.Success? && seoTitle.Success? && seoDescription.Success?
       && tags.Success? && colors.Success? && mood.Success? && personality.Success?
       && (input.price.Some? && input.price.value.Some? ==> PriceInRange(input.price.value.value))
       && status.Success? && notes.Success?
    then Success(ArtworkUpdate(title.data, description.data, seoTitle.data, seoDescription.data,
                               tags.data, colors.data, mood.data, personality.data,
                               input.price, status.data, notes.data))
    else Failure
  }

  // ---------------------------------------------------------------------
  // Identifiers: uuidSchema

  predicate IsHexDigit(c: char) {
    ('0' <= c <= '9') || ('a' <= c <= 'f') || ('A' <= c <= 'F')
  }

  predicate IsHyphenPosition(i: int) {
    i == 8 || i == 13 || i == 18 || i == 23
  }

  /** The textual form of a UUID (section 3 of RFC 4122): hex digits in
      groups of 8, 4, 4, 4 and 12, separated by hyphens, either case. */
  predicate IsUuid(s: string) {
    |s| == 36 &&
    forall i :: 0 <= i < 36 ==> if IsHyphenPosition(i) then s[i] == '-' else IsHexDigit(s[i])
  }

  predicate AllHex(s: string) {
    forall i :: 0 <= i < |s| ==> IsHexDigit(s[i])
  }

  function UuidFromGroups(a: string, b: string, c: string, d: string, e: string): string {
    a + "-" + b + "-" + c + "-" + d + "-" + e
  }

  /** Every five-group hyphenated hex string of the right group lengths is
      accepted. */
  lemma UuidFromGroupsIsUuid(a: string, b: string, c: string, d: string, e: string)
    requires |a| == 8 && |b| == 4 && |c| == 4 && |d| == 4 && |e| == 12
    requires AllHex(a) && AllHex(b) && AllHex(c) && AllHex(d) && AllHex(e)
    ensures IsUuid(UuidFromGroups(a, b, c, d, e))
  {
    var u := UuidFromGroups(a, b, c, d, e);
    assert |u| == 36;
    forall i | 0 <= i < 36 ensures if IsHyphenPosition(i) then u[i] == '-' else IsHexDigit(u[i]) {
      if i < 8 { assert u[i] == a[i]; }
      else if i == 8 { assert u[i] == '-'; }
      else if i < 13 { assert u[i] == b[i - 9]; }
      else if i == 13 { assert u[i] == '-'; }
      else if i < 18 { assert u[i] == c[i - 14]; }
      else if i == 18 { assert u[i] == '-'; }
      else if i < 23 { assert u[i] == d[i - 19]; }
      else if i == 23 { assert u[i] == '-'; }
      else { assert u[i] == e[i - 24]; }
    }
  }

  /** Every accepted identifier is five hex groups of lengths 8, 4, 4, 4
      and 12 joined by hyphens. */
  lemma UuidHasGroups(s: string)
    requires IsUuid(s)
    ensures s == UuidFromGroups(s[..8], s[9..13], s[14..18], s[19..23], s[24..])
    ensures AllHex(s[..8]) && AllHex(s[9..13]) && AllHex(s[14..18]) && AllHex(s[19..23]) && AllHex(s[24..])
  {
    forall i | 0 <= i < 36 && !IsHyphenPosition(i) ensures IsHexDigit(s[i]) { }
    assert AllHex(s[..8]) by { forall i | 0 <= i < 8 ensures IsHexDigit(s[..8][i]) { assert s[..8][i] == s[i]; } }
    assert AllHex(s[9..13]) by { forall i | 0 <= i < 4 ensures IsHexDigit(s[9..13][i]) { assert s[9..13][i] == s[9 + i]; } }
    assert AllHex(s[14..18]) by { forall i | 0 <= i < 4 ensures IsHexDigit(s[14..18][i]) { assert s[14..18][i] == s[14 + i]; } }
    assert AllHex(s[19..23]) by { forall i | 0 <= i < 4 ensures IsHexDigit(s[19..23][i]) { assert s[19..23][i] == s[19 + i]; } }
    assert AllHex(s[24..]) by { forall i | 0 <= i < 12 ensures IsHexDigit(s[24..][i]) { assert s[24..][i] == s[24 + i]; } }
    var u := UuidFromGroups(s[..8], s[9..13], s[14..18], s[19..23], s[24..]);
    assert |u| == 36;
    forall i | 0 <= i < 36 ensures u[i] == s[i] {
      if i < 8 { } else if i == 8 { } else if i < 13 { } else if i == 13 { }
      else if i < 18 { } else if i == 18 { } else if i < 23 { } else if i == 23 { } else { }
    }
  }

  /** `uuidSchema = z.string().uuid()`. */
  function UuidSchema(s: string): (r: SafeParse<string>)
    ensures r.Success? <==> IsUuid(s)
    ensures r.Success? ==> r.data == s
  {
    if IsUuid(s) then Success(s) else Failure
  }

  predicate AllUuids(ids: seq<string>) {
    forall i :: 0 <= i < |ids| ==> IsUuid(ids[i])
  }

  // ---------------------------------------------------------------------
  // chatMessageSchema

  datatype ChatMessageInput = ChatMessageInput(role: string, content: string)

  datatype ChatRequestInput = ChatRequestInput(artworkId: string, message: string, history: Option<seq<ChatMessageInput>>)

  datatype ChatRequest = ChatRequest(artworkId: string, message: string, history: Option<seq<ChatMessage>>)

  function ParseRole(s: string): (r: Option<Role>)
    ensures r.Some? <==> s in ["user", "assistant"]
    ensures r == Some(User) <==> s == "user"
  {
    if s == "user" then Some(User) else if s == "assistant" then Some(Assistant) else None
  }

  predicate HistoryWithinLimits(h: Option<seq<ChatMessageInput>>) {
    h.None? ||
    (|h.value| <= 50 &&
     forall i :: 0 <= i < |h.value| ==> ParseRole(h.value[i].role).Some? && |h.value[i].content| <= 5000)
  }

  function ChatMessageSchema(input: ChatRequestInput): (r: SafeParse<ChatRequest>)
    ensures r.Success? <==>
      IsUuid(input.artworkId) && 1 <= |input.message| <= 2000 && HistoryWithinLimits(input.history)
    ensures r.Success? ==>
      && r.data.artworkId == input.artworkId
      && r.data.message == SanitizeString(input.message)
      && (r.data.history.Some? <==> input.history.Some?)
      && (input.history.Some? ==>
            |r.data.history.value| == |input.history.value| &&
            forall i :: 0 <= i < |input.history.value| ==>
              Some(r.data.history.value[i].role) == ParseRole(input.history.value[i].role) &&
              r.data.history.value[i].content == input.history.value[i].content)
  {
    if IsUuid(input.artworkId) && 1 <= |input.message| <= 2000 && HistoryWithinLimits(input.history) then
      var history := match input.history
        case None => None
        case Some(h) => Some(seq(|h|, i requires 0 <= i < |h| && ParseRole(h[i].role).Some? =>
                                   ChatMessage(ParseRole(h[i].role).value, h[i].content)));
      Success(ChatRequest(input.artworkId, SanitizeString(input.message), history))
    else Failure
  }

  /** The length floor is checked on the raw message, so a message made only
      of angle brackets passes and becomes empty. */
  lemma ChatMessageMayBecomeEmpty(artworkId: string)
    requires IsUuid(artworkId)
    ensures var r := ChatMessageSchema(ChatRequestInput(artworkId, "<>", None));
      r.Success? && r.data.message == ""
  {
    assert StripAngles("<>") == "";
  }

  // ---------------------------------------------------------------------
  // exportSchema and printfulSchema

  function ParseExportType(s: string): (r: Option<ExportType>)
    ensures r.Some? <==> s in ["csv", "json", "velo"]
  {
    if s == "csv" then Some(Csv) else if s == "json" then Some(Json) else if s == "velo" then Some(Velo) else None
  }

  datatype ExportRequestInput = ExportRequestInput(format: string, artworkIds: Option<seq<string>>, status: Option<string>)

  datatype ExportRequest = ExportRequest(format: ExportType, artworkIds: Option<seq<string>>, status: Option<Status>)

  function ExportSchema(input: ExportRequestInput): (r: SafeParse<ExportRequest>)
    ensures r.Success? <==>
      && ParseExportType(input.format).Some?
      && (input.artworkIds.Some? ==> 1 <= |input.artworkIds.value| <= 100 && AllUuids(input.artworkIds.value))
      && StatusWithin(input.status)
    ensures r.Success? ==>
      && Some(r.data.format) == ParseExportType(input.format)
      && r.data.artworkIds == input.artworkIds
      && (r.data.status.Some? <==> input.status.Some?)
      && (r.data.status.Some? ==> StatusName(r.data.status.value) == input.status.value)
  {
    var format := ParseExportType(input.format);
    var status := OptionalStatus(input.status);
    if format.Some? && status.Success?
       && (input.artworkIds.Some? ==> 1 <= |input.artworkIds.value| <= 100 && AllUuids(input.artworkIds.value))
    then Success(ExportRequest(format.value, input.artworkIds, status.data))
    else Failure
  }

  datatype PrintfulRequest = PrintfulRequest(artworkId: string, productTypes: seq<string>)

  /** `printfulSchema`: nothing is transformed, so on success the data is
      the input itself. */
  function PrintfulSchema(input: PrintfulRequest): (r: SafeParse<PrintfulRequest>)
    ensures r.Success? <==>
      IsUuid(input.artworkId) && 1 <= |input.productTypes| <= 20 &&
      forall i :: 0 <= i < |input.productTypes| ==> |input.productTypes[i]| <= 50
    ensures r.Success? ==> r.data == input
  {
    if IsUuid(input.artworkId) && 1 <= |input.productTypes| <= 20 &&
       forall i :: 0 <= i < |input.productTypes| ==> |input.productTypes[i]| <= 50
    then Success(input)
    else Failure
  }

  // ---------------------------------------------------------------------
  // validateImageFile

  const MaxFileSize: int := 10 * 1024 * 1024
  const AllowedImageTypes: seq<string> := ["image/jpeg", "image/png", "image/webp", "image/gif"]

  /** The parts of an uploaded `File` that the application looks at. */
  datatype FileInfo = FileInfo(name: string, size: int, mediaType: string)

  /** `{ valid, error? }`. */
  datatype FileCheck = FileCheck(valid: bool, error: Option<string>)

  /** The size limit in the message is written in whole megabytes. */
  lemma SizeLimitText()
    ensures NatToString(MaxFileSize / 1024 / 1024) == "10"
  {
    assert MaxFileSize / 1024 / 1024 == 10;
    assert NatToString(1) == "1";
  }

  /** The allow-list as the type message spells it out. */
  lemma AllowedTypesText()
    ensures Join(", ", AllowedImageTypes) ==
      "image/jpeg" + ", " + ("image/png" + ", " + ("image/webp" + ", " + "image/gif"))
  {
    var t := AllowedImageTypes;
    assert t[1..] == ["image/png", "image/webp", "image/gif"];
    assert t[1..][1..] == ["image/webp", "image/gif"];
    assert t[1..][1..][1..] == ["image/gif"];
  }

  /** The size ceiling is checked first, then the media type allow-list. */
  function ValidateImageFile(file: FileInfo): (r: FileCheck)
    ensures r.valid <==> file.size <= MaxFileSize && file.mediaType in AllowedImageTypes
    ensures r.valid <==> r.error.None?
    ensures file.size > MaxFileSize ==> r.error == Some("File size exceeds 10MB limit")
    ensures file.size <= MaxFileSize && file.mediaType !in AllowedImageTypes ==>
      r.error == Some("Invalid file type. Allowed: " + Join(", ", AllowedImageTypes))
  {
    SizeLimitText();
    if file.size > MaxFileSize then
      var message := "File size exceeds " + NatToString(MaxFileSize / 1024 / 1024) + "MB limit";
      assert message == "File size exceeds 10MB limit";
      FileCheck(false, Some(message))
    else if file.mediaType !in AllowedImageTypes then
      var message := "Invalid file type. Allowed: " + Join(", ", AllowedImageTypes);
      FileCheck(false, Some(message))
    else
      FileCheck(true, None)
  }
}
