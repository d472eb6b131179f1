/**
 The tool-content envelope (tool-content.ts) and its base64 gate, against the encoding
 of RFC 4648 section 4 and the canonical-form rule of its section 3.5.
 */
module ToolContent {
  import opened Prelude

  type Byte = b: int | 0 <= b < 256
  type Sextet = v: int | 0 <= v < 64
  type Bytes = seq<Byte>

  // ----- the alphabet -----

  function Symbol(v: Sextet): char {
    if v < 26 then ('A' as int + v) as char
    else if v < 52 then ('a' as int + v - 26) as char
    else if v < 62 then ('0' as int + v - 52) as char
    else if v == 62 then '+' else '/'
  }

  predicate IsSymbol(c: char) {
    'A' <= c <= 'Z' || 'a' <= c <= 'z' || '0' <= c <= '9' || c == '+' || c == '/'
  }

  function Value(c: char): Sextet
    requires IsSymbol(c)
  {
    if 'A' <= c <= 'Z' then c as int - 'A' as int
    else if 'a' <= c <= 'z' then c as int - 'a' as int + 26
    else if '0' <= c <= '9' then c as int - '0' as int + 52
    else if c == '+' then 62 else 63
  }

  lemma SymbolOfValue(c: char)
    requires IsSymbol(c)
    ensures Symbol(Value(c)) == c
  {
  }

  lemma ValueOfSymbol(v: Sextet)
    ensures IsSymbol(Symbol(v)) && Symbol(v) != '=' && Value(Symbol(v)) == v
  {
  }

  // ----- encoding (RFC 4648 section 4) -----

  function EncodeOne(a: Byte): string {
    [Symbol(a / 4), Symbol(a % 4 * 16), '=', '=']
  }

  function EncodeTwo(a: Byte, b: Byte): string {
    [Symbol(a / 4), Symbol(a % 4 * 16 + b / 16), Symbol(b % 16 * 4), '=']
  }

  function EncodeThree(a: Byte, b: Byte, c: Byte): string {
    [Symbol(a / 4), Symbol(a % 4 * 16 + b / 16), Symbol(b % 16 * 4 + c / 64), Symbol(c % 64)]
  }

  function Encode(bytes: Bytes): string
    decreases bytes
  {
    if bytes == [] then ""
    else if |bytes| == 1 then EncodeOne(bytes[0])
    else if |bytes| == 2 then EncodeTwo(bytes[0], bytes[1])
    else EncodeThree(bytes[0], bytes[1], bytes[2]) + Encode(bytes[3..])
  }

  /** Table 1 of RFC 4648. */
  const ALPHABET := "ABCDEFGHIJKLMNOPQRSTUVWXYZ" + "abcdefghijklmnopqrstuvwxyz" + "0123456789" + "+/"

  lemma SymbolsAreTheAlphabet(v: Sextet)
    ensures |ALPHABET| == 64 && Symbol(v) == ALPHABET[v]
  {
  }

  /** A group of three bytes is one 24-bit number, most significant byte first, written in four digits of six bits. */
  lemma GroupIsOneNumber(a: Byte, b: Byte, c: Byte)
    ensures var s := EncodeThree(a, b, c);
            && |s| == 4 && (forall i :: 0 <= i < 4 ==> IsSymbol(s[i]))
            && ((Value(s[0]) * 64 + Value(s[1])) * 64 + Value(s[2])) * 64 + Value(s[3]) == (a * 256 + b) * 256 + c
  {
    ValueOfSymbol(a / 4);
    ValueOfSymbol(a % 4 * 16 + b / 16);
    ValueOfSymbol(b % 16 * 4 + c / 64);
    ValueOfSymbol(c % 64);
  }

  /** A last group of one or two bytes is padded with zero bits to whole digits, and with '=' to four characters. */
  lemma LastGroupIsPadded(a: Byte, b: Byte)
    ensures EncodeOne(a) == EncodeThree(a, 0, 0)[..2] + "=="
    ensures EncodeTwo(a, b) == EncodeThree(a, b, 0)[..3] + "="
  {
  }

  // ----- the shape check and the lenient decoder -----

  /** `/^[A-Za-z0-9+/]+={0,2}$/`. */
  ghost predicate SymbolsThenPadding(s: string) {
    exists k :: 0 <= k <= 2 && k < |s| && PaddedBy(s, k)
  }

  predicate PaddedBy(s: string, k: nat)
    requires k < |s|
  {
    && (forall i :: 0 <= i < |s| - k ==> IsSymbol(s[i]))
    && (forall i :: |s| - k <= i < |s| ==> s[i] == '=')
  }

  /** `isStructuralBase64`. */
  ghost predicate IsStructuralBase64(s: string) {
    |s| > 0 && |s| % 4 == 0 && SymbolsThenPadding(s)
  }

  /** A last group of four as the shape check admits it. */
  predicate IsLastGroup(s: string) {
    && |s| == 4
    && IsSymbol(s[0]) && IsSymbol(s[1])
    && ((s[2] == '=' && s[3] == '=') || (IsSymbol(s[2]) && (s[3] == '=' || IsSymbol(s[3]))))
  }

  predicate IsFullGroup(s: string) {
    |s| == 4 && IsSymbol(s[0]) && IsSymbol(s[1]) && IsSymbol(s[2]) && IsSymbol(s[3])
  }

  /** The same shape, group by group. */
  predicate Grouped(s: string)
    decreases s
  {
    if |s| <= 4 then IsLastGroup(s) else IsFullGroup(s[..4]) && Grouped(s[4..])
  }

  lemma {:induction false} StructuralIsGrouped(s: string)
    ensures IsStructuralBase64(s) <==> Grouped(s)
    decreases s
  {
    if |s| == 4 {
      assert PaddedBy(s, 0) <==> IsFullGroup(s);
      assert PaddedBy(s, 1) <==> IsSymbol(s[0]) && IsSymbol(s[1]) && IsSymbol(s[2]) && s[3] == '=';
      assert PaddedBy(s, 2) <==> IsSymbol(s[0]) && IsSymbol(s[1]) && s[2] == '=' && s[3] == '=';
    } else if |s| > 4 {
      StructuralIsGrouped(s[4..]);
      if IsStructuralBase64(s) {
        var k :| 0 <= k <= 2 && k < |s| && PaddedBy(s, k);
        assert |s| >= 8;
        assert PaddedBy(s[4..], k);
      }
      if Grouped(s) {
        var k :| 0 <= k <= 2 && k < |s[4..]| && PaddedBy(s[4..], k);
        forall i | 0 <= i < |s| - k ensures IsSymbol(s[i]) {
          assert i < 4 ==> s[i] == s[..4][i];
          assert i >= 4 ==> s[i] == s[4..][i - 4];
        }
        forall i | |s| - k <= i < |s| ensures s[i] == '=' {
          assert s[i] == s[4..][i - 4];
        }
        assert PaddedBy(s, k);
      }
    }
  }

  /** `Buffer.from(s, 'base64')`: unused low bits of the last group are dropped. */
  function DecodeGroup(s: string): Bytes
    requires IsLastGroup(s)
  {
    var a, b := Value(s[0]), Value(s[1]);
    if s[2] == '=' then [a * 4 + b / 16]
    else
      var c := Value(s[2]);
      if s[3] == '=' then [a * 4 + b / 16, b % 16 * 16 + c / 4]
      else [a * 4 + b / 16, b % 16 * 16 + c / 4, c % 4 * 64 + Value(s[3])]
  }

  function Decode(s: string): Bytes
    requires Grouped(s)
    decreases s
  {
    if |s| <= 4 then DecodeGroup(s) else DecodeGroup(s[..4]) + Decode(s[4..])
  }

  /** `isCanonicalBase64`. */
  ghost predicate IsCanonicalBase64(s: string) {
    StructuralIsGrouped(s);
    IsStructuralBase64(s) && Encode(Decode(s)) == s
  }

  /** `decodedBase64Size`. */
  function DecodedBase64Size(s: string): int {
    |s| / 4 * 3 - Padding(s)
  }

  function Padding(s: string): int {
    if |s| >= 2 && s[|s| - 2..] == "==" then 2 else if |s| >= 1 && s[|s| - 1] == '=' then 1 else 0
  }

  // ----- encode and decode are inverse -----

  /** Three bytes are cut into sextets and joined again. */
  lemma CutAndJoin(a: Byte, b: Byte, c: Byte)
    ensures a / 4 * 4 + (a % 4 * 16 + b / 16) / 16 == a
    ensures (a % 4 * 16 + b / 16) % 16 * 16 + (b % 16 * 4 + c / 64) / 4 == b
    ensures (b % 16 * 4 + c / 64) % 4 * 64 + c % 64 == c
  {
    assert (a % 4 * 16 + b / 16) / 16 == a % 4 && (a % 4 * 16 + b / 16) % 16 == b / 16;
    assert (b % 16 * 4 + c / 64) / 4 == b % 16 && (b % 16 * 4 + c / 64) % 4 == c / 64;
  }

  lemma DecodeEncodedThree(a: Byte, b: Byte, c: Byte)
    ensures IsFullGroup(EncodeThree(a, b, c)) && IsLastGroup(EncodeThree(a, b, c))
    ensures DecodeGroup(EncodeThree(a, b, c)) == [a, b, c]
  {
    CutAndJoin(a, b, c);
    ValueOfSymbol(a / 4);
    ValueOfSymbol(a % 4 * 16 + b / 16);
    ValueOfSymbol(b % 16 * 4 + c / 64);
    ValueOfSymbol(c % 64);
  }

  lemma DecodeEncodedTwo(a: Byte, b: Byte)
    ensures IsLastGroup(EncodeTwo(a, b)) && DecodeGroup(EncodeTwo(a, b)) == [a, b]
  {
    CutAndJoin(a, b, 0);
    ValueOfSymbol(a / 4);
    ValueOfSymbol(a % 4 * 16 + b / 16);
    ValueOfSymbol(b % 16 * 4);
  }

  lemma DecodeEncodedOne(a: Byte)
    ensures IsLastGroup(EncodeOne(a)) && DecodeGroup(EncodeOne(a)) == [a]
  {
    CutAndJoin(a, 0, 0);
    ValueOfSymbol(a / 4);
    ValueOfSymbol(a % 4 * 16);
  }

  lemma {:induction false} DecodeOfEncode(bytes: Bytes)
    requires bytes != []
    ensures Grouped(Encode(bytes)) && Decode(Encode(bytes)) == bytes
    decreases bytes
  {
    if |bytes| == 1 {
      DecodeEncodedOne(bytes[0]);
    } else if |bytes| == 2 {
      DecodeEncodedTwo(bytes[0], bytes[1]);
    } else {
      var group, rest := EncodeThree(bytes[0], bytes[1], bytes[2]), Encode(bytes[3..]);
      DecodeEncodedThree(bytes[0], bytes[1], bytes[2]);
      assert Encode(bytes)[..4] == group && Encode(bytes)[4..] == rest;
      assert bytes == [bytes[0], bytes[1], bytes[2]] + bytes[3..];
      if |bytes| == 3 {
        assert Encode(bytes) == group;
      } else {
        DecodeOfEncode(bytes[3..]);
        assert |rest| > 0;
      }
    }
  }

  lemma PaddingOfTail(group: string, rest: string)
    requires |rest| >= 2 && |group| == 4
    ensures Padding(group + rest) == Padding(rest)
  {
    var s := group + rest;
    assert s[|s| - 2..] == rest[|rest| - 2..] && s[|s| - 1] == rest[|rest| - 1];
  }

  lemma {:induction false} EncodedSize(bytes: Bytes)
    requires bytes != []
    ensures |Encode(bytes)| % 4 == 0 && |Encode(bytes)| >= 4
    ensures |Encode(bytes)| / 4 * 3 - Padding(Encode(bytes)) == |bytes|
    decreases bytes
  {
    if |bytes| == 1 {
      assert Encode(bytes)[2..] == "==";
    } else if |bytes| == 2 {
      ValueOfSymbol(bytes[1] % 16 * 4);
      assert Encode(bytes)[2..][0] != '=';
    } else {
      var group, rest := EncodeThree(bytes[0], bytes[1], bytes[2]), Encode(bytes[3..]);
      if |bytes| == 3 {
        ValueOfSymbol(bytes[2] % 64);
        assert group + rest == group;
        assert group[2..][1] != '=';
      } else {
        EncodedSize(bytes[3..]);
        PaddingOfTail(group, rest);
        assert |group + rest| / 4 == |rest| / 4 + 1;
      }
    }
  }

  lemma {:induction false} DecodeIsNotEmpty(s: string)
    requires Grouped(s)
    ensures Decode(s) != []
    decreases s
  {
  }

  /** `s` is the base64 text of `bytes`. */
  ghost predicate Encodes(bytes: Bytes, s: string) {
    bytes != [] && Encode(bytes) == s
  }

  lemma EncodedIsCanonical(bytes: Bytes, s: string)
    requires Encodes(bytes, s)
    ensures IsStructuralBase64(s) && IsCanonicalBase64(s) && DecodedBase64Size(s) == |bytes|
  {
    DecodeOfEncode(bytes);
    EncodedSize(bytes);
    StructuralIsGrouped(s);
  }

  lemma CanonicalIsEncoded(s: string) returns (bytes: Bytes)
    requires IsCanonicalBase64(s)
    ensures Encodes(bytes, s)
  {
    StructuralIsGrouped(s);
    DecodeIsNotEmpty(s);
    bytes := Decode(s);
  }

  /**
   The gate is exact: a string passes exactly when it is the encoding of some non-empty
   byte string, and then the size computed from its length is the length of that string.
   */
  lemma CanonicalExactlyWhenEncoded(s: string)
    ensures IsCanonicalBase64(s) <==> exists bytes :: Encodes(bytes, s)
    ensures forall bytes :: Encodes(bytes, s) ==> DecodedBase64Size(s) == |bytes|
  {
    if IsCanonicalBase64(s) {
      var bytes := CanonicalIsEncoded(s);
    }
    forall bytes | Encodes(bytes, s) ensures IsCanonicalBase64(s) && DecodedBase64Size(s) == |bytes| {
      EncodedIsCanonical(bytes, s);
    }
  }

  /** The bits of the last group that no byte uses (RFC 4648 section 3.5). */
  predicate PaddingBitsClear(s: string)
    requires IsLastGroup(s)
  {
    && (s[2] == '=' ==> Value(s[1]) % 16 == 0)
    && (s[2] != '=' && s[3] == '=' ==> Value(s[2]) % 4 == 0)
  }

  /** Four sextets are joined to bytes and cut again. */
  lemma JoinAndCut(v: Sextet, w: Sextet, x: Sextet, y: Sextet)
    ensures var a, b, c := v * 4 + w / 16, w % 16 * 16 + x / 4, x % 4 * 64 + y;
            && 0 <= a < 256 && 0 <= b < 256 && 0 <= c < 256
            && a / 4 == v && a % 4 == w / 16 && b / 16 == w % 16 && b % 16 == x / 4 && c / 64 == x % 4 && c % 64 == y
  {
  }

  lemma EncodeJoined(v: Sextet, w: Sextet, x: Sextet, y: Sextet, a: Byte, b: Byte, c: Byte)
    requires a == v * 4 + w / 16 && b == w % 16 * 16 + x / 4 && c == x % 4 * 64 + y
    ensures EncodeThree(a, b, c) == [Symbol(v), Symbol(w), Symbol(x), Symbol(y)]
  {
    JoinAndCut(v, w, x, y);
  }

  lemma EncodeDecodedFull(s: string)
    requires IsFullGroup(s)
    ensures IsLastGroup(s) && |DecodeGroup(s)| == 3
    ensures var d := DecodeGroup(s); EncodeThree(d[0], d[1], d[2]) == s
  {
    var d := DecodeGroup(s);
    EncodeJoined(Value(s[0]), Value(s[1]), Value(s[2]), Value(s[3]), d[0], d[1], d[2]);
    SymbolOfValue(s[0]);
    SymbolOfValue(s[1]);
    SymbolOfValue(s[2]);
    SymbolOfValue(s[3]);
  }

  lemma EncodeDecodedOne(s: string)
    requires IsLastGroup(s) && s[2] == '='
    ensures Encode(DecodeGroup(s)) == s <==> Value(s[1]) % 16 == 0
  {
    var v: int, w: int := Value(s[0]), Value(s[1]);
    JoinAndCut(v, w, 0, 0);
    SymbolOfValue(s[0]);
    SymbolOfValue(s[1]);
    ValueOfSymbol(w / 16 * 16);
    assert Encode(DecodeGroup(s)) == EncodeOne(v * 4 + w / 16);
    assert EncodeOne(v * 4 + w / 16) == [s[0], Symbol(w / 16 * 16), '=', '='];
  }

  lemma EncodeDecodedTwoIs(s: string)
    requires IsLastGroup(s) && s[2] != '=' && s[3] == '='
    ensures Encode(DecodeGroup(s)) == [s[0], s[1], Symbol(Value(s[2]) / 4 * 4), '=']
  {
    var v: int, w: int, x: int := Value(s[0]), Value(s[1]), Value(s[2]);
    JoinAndCut(v, w, x, 0);
    SymbolOfValue(s[0]);
    SymbolOfValue(s[1]);
    assert Encode(DecodeGroup(s)) == EncodeTwo(v * 4 + w / 16, w % 16 * 16 + x / 4);
  }

  lemma EncodeDecodedTwo(s: string)
    requires IsLastGroup(s) && s[2] != '=' && s[3] == '='
    ensures Encode(DecodeGroup(s)) == s <==> Value(s[2]) % 4 == 0
  {
    EncodeDecodedTwoIs(s);
    SymbolOfValue(s[2]);
    ValueOfSymbol(Value(s[2]) / 4 * 4);
  }

  function LastGroup(s: string): string
    requires Grouped(s)
    ensures IsLastGroup(LastGroup(s))
    decreases s
  {
    if |s| <= 4 then s else LastGroup(s[4..])
  }

  /** Of the well-shaped strings the gate refuses exactly those with dirty padding bits. */
  lemma {:induction false} RefusesExactlyDirtyPadding(s: string)
    requires IsStructuralBase64(s)
    ensures Grouped(s) && (IsCanonicalBase64(s) <==> PaddingBitsClear(LastGroup(s)))
    decreases s
  {
    StructuralIsGrouped(s);
    if |s| <= 4 {
      if s[2] == '=' {
        EncodeDecodedOne(s);
      } else if s[3] == '=' {
        EncodeDecodedTwo(s);
      } else {
        EncodeDecodedFull(s);
        assert DecodeGroup(s)[3..] == [];
        assert Encode(DecodeGroup(s)) == s + "" == s;
      }
    } else {
      StructuralIsGrouped(s[4..]);
      RefusesExactlyDirtyPadding(s[4..]);
      EncodeDecodedFull(s[..4]);
      PrefixedGroup(s);
    }
  }

  lemma PrefixedGroup(s: string)
    requires |s| > 4 && Grouped(s)
    ensures Encode(Decode(s)) == s <==> Encode(Decode(s[4..])) == s[4..]
  {
    EncodeDecodedFull(s[..4]);
    DecodeIsNotEmpty(s[4..]);
    var first, rest := DecodeGroup(s[..4]), Decode(s[4..]);
    assert (first + rest)[3..] == rest;
    assert Encode(first + rest) == s[..4] + Encode(rest);
    assert s == s[..4] + s[4..];
    assert (s[..4] + Encode(rest))[4..] == Encode(rest);
  }

  // ----- toolContent and isToolContent -----

  const MAX_IMAGE_BYTES := 5 * 1024 * 1024

  datatype ImageData = Raw(bytes: Bytes) | Text64(text: string) | OtherData

  datatype PartInput = TextInput(text: string) | ImageInput(data: ImageData, mediaType: string) | OtherInput

  datatype ContentPart = TextPart(text: string) | ImagePart(data: string, mediaType: string) | OtherPart

  datatype Envelope = Envelope(tag: string, version: int, content: seq<ContentPart>) | NotAnEnvelope

  datatype Problem = NoParts | BadPart(index: nat) | TooLarge(index: nat)

  predicate IsImageType(s: string) {
    s == "image/png" || s == "image/jpeg" || s == "image/gif" || s == "image/webp"
  }

  /** `normalizeMediaType`. */
  function NormalizeMediaType(raw: string): Option<string> {
    var normalized := if Lower(raw) == "image/jpg" then "image/jpeg" else Lower(raw);
    if IsImageType(normalized) then Some(normalized) else None
  }

  ghost function NormalizeImage(data: ImageData, mediaType: string, index: nat): Result<ContentPart, Problem> {
    var normalized := NormalizeMediaType(mediaType);
    if normalized.None? then Err(BadPart(index))
    else match data
      case Raw(bytes) =>
        if bytes == [] then Err(BadPart(index))
        else if |bytes| > MAX_IMAGE_BYTES then Err(TooLarge(index))
        else Ok(ImagePart(Encode(bytes), normalized.value))
      case Text64(text) =>
        if !IsStructuralBase64(text) then Err(BadPart(index))
        else if DecodedBase64Size(text) > MAX_IMAGE_BYTES then Err(TooLarge(index))
        else if !IsCanonicalBase64(text) then Err(BadPart(index))
        else Ok(ImagePart(text, normalized.value))
      case OtherData => Err(BadPart(index))
  }

  ghost function NormalizePart(part: PartInput, index: nat): Result<ContentPart, Problem> {
    match part
    case TextInput(text) => Ok(TextPart(text))
    case ImageInput(data, mediaType) => NormalizeImage(data, mediaType, index)
    case OtherInput => Err(BadPart(index))
  }

  /** `parts.map(normalizePart)`, which throws at the first bad part. */
  ghost function NormalizeParts(parts: seq<PartInput>, index: nat): Result<seq<ContentPart>, Problem>
    decreases parts
  {
    if parts == [] then Ok([])
    else
      var first := NormalizePart(parts[0], index);
      if first.Err? then Err(first.error)
      else
        var rest := NormalizeParts(parts[1..], index + 1);
        if rest.Err? then rest else Ok([first.value] + rest.value)
  }

  const TOOL_CONTENT_TYPE := "runcell.tool-content"

  /** `toolContent`. */
  ghost function BuildToolContent(parts: seq<PartInput>): Result<Envelope, Problem> {
    if parts == [] then Err(NoParts)
    else
      var content := NormalizeParts(parts, 0);
      if content.Err? then Err(content.error) else Ok(Envelope(TOOL_CONTENT_TYPE, 1, content.value))
  }

  ghost predicate IsGoodPart(part: ContentPart) {
    match part
    case TextPart(_) => true
    case ImagePart(data, mediaType) =>
      IsImageType(mediaType) && IsStructuralBase64(data) && DecodedBase64Size(data) <= MAX_IMAGE_BYTES &&
      IsCanonicalBase64(data)
    case OtherPart => false
  }

  /** `isToolContent`. */
  ghost predicate IsToolContent(value: Envelope) {
    && value.Envelope? && value.tag == TOOL_CONTENT_TYPE && value.version == 1 && value.content != []
    && forall i :: 0 <= i < |value.content| ==> IsGoodPart(value.content[i])
  }

  /** What the documentation asks of a part. */
  ghost predicate Acceptable(part: PartInput) {
    match part
    case TextInput(_) => true
    case ImageInput(data, mediaType) =>
      && NormalizeMediaType(mediaType).Some?
      && (match data
          case Raw(bytes) => 0 < |bytes| <= MAX_IMAGE_BYTES
          case Text64(text) => IsCanonicalBase64(text) && DecodedBase64Size(text) <= MAX_IMAGE_BYTES
          case OtherData => false)
    case OtherInput => false
  }

  lemma TypesAreImageTypes(raw: string)
    ensures NormalizeMediaType(raw).Some? ==> IsImageType(NormalizeMediaType(raw).value)
  {
  }

  lemma NormalizedImageIsGood(data: ImageData, mediaType: string, index: nat)
    ensures NormalizeImage(data, mediaType, index).Ok? <==> Acceptable(ImageInput(data, mediaType))
    ensures Acceptable(ImageInput(data, mediaType)) ==> IsGoodPart(NormalizeImage(data, mediaType, index).value)
  {
    TypesAreImageTypes(mediaType);
    if data.Raw? && data.bytes != [] {
      EncodedIsCanonical(data.bytes, Encode(data.bytes));
    }
  }

  lemma NormalizedIsGood(part: PartInput, index: nat)
    ensures NormalizePart(part, index).Ok? <==> Acceptable(part)
    ensures Acceptable(part) ==> NormalizePart(part, index) == NormalizePart(part, 0)
    ensures Acceptable(part) ==> IsGoodPart(NormalizePart(part, index).value)
  {
    if part.ImageInput? {
      NormalizedImageIsGood(part.data, part.mediaType, index);
      NormalizedImageIsGood(part.data, part.mediaType, 0);
    }
  }

  ghost predicate AllAcceptable(parts: seq<PartInput>) {
    forall i :: 0 <= i < |parts| ==> Acceptable(parts[i])
  }

  /** Each part became the good one it stands for. */
  ghost predicate BecameGood(parts: seq<PartInput>, content: seq<ContentPart>) {
    |content| == |parts| && forall i :: 0 <= i < |parts| ==> Became(parts[i], content[i])
  }

  ghost predicate Became(part: PartInput, content: ContentPart) {
    NormalizePart(part, 0) == Ok(content) && IsGoodPart(content)
  }

  lemma {:induction false} NormalizedAreGood(parts: seq<PartInput>, index: nat)
    ensures NormalizeParts(parts, index).Ok? <==> AllAcceptable(parts)
    ensures NormalizeParts(parts, index).Ok? ==> BecameGood(parts, NormalizeParts(parts, index).value)
    decreases parts
  {
    if parts != [] {
      NormalizedIsGood(parts[0], index);
      NormalizedAreGood(parts[1..], index + 1);
      assert parts == [parts[0]] + parts[1..];
      assert AllAcceptable(parts) <==> Acceptable(parts[0]) && AllAcceptable(parts[1..]);
    }
  }

  /** `toolContent` accepts exactly the documented inputs, and its guard accepts everything it builds. */
  lemma BuiltEnvelopesPassTheGuard(parts: seq<PartInput>)
    ensures BuildToolContent(parts).Ok? <==> parts != [] && forall i :: 0 <= i < |parts| ==> Acceptable(parts[i])
    ensures BuildToolContent(parts).Ok? ==> IsToolContent(BuildToolContent(parts).value)
  {
    NormalizedAreGood(parts, 0);
    if AllAcceptable(parts) {
      var content := NormalizeParts(parts, 0).value;
      forall i | 0 <= i < |content| ensures IsGoodPart(content[i]) {
        assert Became(parts[i], content[i]);
      }
    }
  }

  /** The media type an image ends up with. */
  function WrittenType(mediaType: string): string {
    if Lower(mediaType) == "image/jpg" then "image/jpeg" else Lower(mediaType)
  }

  /** PNG, JPEG, GIF and WebP are supported, in any case and with the short name of JPEG. */
  lemma SupportedTypes(mediaType: string)
    ensures var written := WrittenType(mediaType);
            if written == "image/png" || written == "image/jpeg" || written == "image/gif" || written == "image/webp"
            then NormalizeMediaType(mediaType) == Some(written) && IsImageType(written)
            else NormalizeMediaType(mediaType) == None && !IsImageType(written)
  {
  }

  /** The part carries the text, or the image's own bytes under its type. */
  ghost predicate Carries(part: PartInput, content: ContentPart) {
    match part
    case TextInput(text) => content == TextPart(text)
    case ImageInput(data, mediaType) =>
      && content.ImagePart? && content.mediaType == WrittenType(mediaType)
      && (match data
          case Raw(bytes) => Grouped(content.data) && Decode(content.data) == bytes
          case Text64(text) => content.data == text
          case OtherData => false)
    case OtherInput => false
  }

  lemma NormalizedCarries(part: PartInput)
    requires Acceptable(part)
    ensures NormalizePart(part, 0).Ok? && Carries(part, NormalizePart(part, 0).value)
  {
    NormalizedIsGood(part, 0);
    if part.ImageInput? && part.data.Raw? {
      DecodeOfEncode(part.data.bytes);
    }
  }

  /** What `toolContent` builds has one part for each it was given, in order, with the same text or the same image. */
  lemma BuiltContentCarriesTheParts(parts: seq<PartInput>)
    requires BuildToolContent(parts).Ok?
    ensures BuildToolContent(parts).value.tag == "runcell.tool-content" && BuildToolContent(parts).value.version == 1
    ensures var content := BuildToolContent(parts).value.content;
            |content| == |parts| && forall i :: 0 <= i < |parts| ==> Carries(parts[i], content[i])
  {
    NormalizedAreGood(parts, 0);
    var content := NormalizeParts(parts, 0).value;
    forall i | 0 <= i < |parts| ensures Carries(parts[i], content[i]) {
      assert Became(parts[i], content[i]);
      NormalizedCarries(parts[i]);
    }
  }

  /** The image is of a supported type and well-shaped, but too large. */
  ghost predicate IsTooLarge(part: PartInput) {
    && part.ImageInput? && IsImageType(WrittenType(part.mediaType))
    && match part.data
       case Raw(bytes) => |bytes| > 5242880
       case Text64(text) => IsStructuralBase64(text) && DecodedBase64Size(text) > 5242880
       case OtherData => false
  }

  /** The error names the first part that is not acceptable, and whether it is only too large. */
  lemma {:induction false} ErrorsNameTheFirstBadPart(parts: seq<PartInput>, index: nat)
    requires NormalizeParts(parts, index).Err?
    ensures var problem := NormalizeParts(parts, index).error;
            && !problem.NoParts? && index <= problem.index < index + |parts|
            && !Acceptable(parts[problem.index - index])
            && (forall i :: 0 <= i < problem.index - index ==> Acceptable(parts[i]))
            && (problem.TooLarge? <==> IsTooLarge(parts[problem.index - index]))
    decreases parts
  {
    var first := NormalizePart(parts[0], index);
    NormalizedIsGood(parts[0], index);
    if first.Ok? {
      ErrorsNameTheFirstBadPart(parts[1..], index + 1);
      var k := NormalizeParts(parts[1..], index + 1).error.index;
      assert parts[k - index] == parts[1..][k - index - 1];
      forall i | 0 <= i < k - index ensures Acceptable(parts[i]) {
        assert i > 0 ==> parts[i] == parts[1..][i - 1];
      }
    } else {
      FirstBadPart(parts[0], index);
    }
  }

  lemma FirstBadPart(part: PartInput, index: nat)
    requires NormalizePart(part, index).Err?
    ensures NormalizePart(part, index).error == if IsTooLarge(part) then TooLarge(index) else BadPart(index)
  {
  }

  /** Whatever its origin, an accepted envelope holds only images that decode to at most 5 MiB. */
  lemma AcceptedImagesAreBounded(value: Envelope, i: nat)
    requires IsToolContent(value) && i < |value.content| && value.content[i].ImagePart?
    ensures exists bytes :: Encodes(bytes, value.content[i].data) && |bytes| <= MAX_IMAGE_BYTES
  {
    assert IsGoodPart(value.content[i]);
    var bytes := CanonicalIsEncoded(value.content[i].data);
    EncodedIsCanonical(bytes, value.content[i].data);
  }

  function AsInput(part: ContentPart): PartInput {
    match part
    case TextPart(text) => TextInput(text)
    case ImagePart(data, mediaType) => ImageInput(Text64(data), mediaType)
    case OtherPart => OtherInput
  }

  lemma LowerImageTypes(s: string)
    requires IsImageType(s)
    ensures NormalizeMediaType(s) == Some(s)
  {
    assert Lower(s) == s;
  }

  /** Building again from an accepted envelope gives the same envelope. */
  lemma RebuildingIsIdentity(value: Envelope)
    requires IsToolContent(value)
    ensures BuildToolContent(seq(|value.content|, i requires 0 <= i < |value.content| => AsInput(value.content[i]))) ==
            Ok(value)
  {
    var parts := seq(|value.content|, i requires 0 <= i < |value.content| => AsInput(value.content[i]));
    forall i | 0 <= i < |parts| ensures Acceptable(parts[i]) && NormalizePart(parts[i], i).value == value.content[i] {
      assert IsGoodPart(value.content[i]);
      if value.content[i].ImagePart? {
        LowerImageTypes(value.content[i].mediaType);
      }
    }
    NormalizedAreGood(parts, 0);
    assert AllAcceptable(parts);
    var content := NormalizeParts(parts, 0).value;
    forall i | 0 <= i < |parts| ensures content[i] == value.content[i] {
      assert Became(parts[i], content[i]);
    }
    assert content == value.content;
  }
}
