/** Content validation: the MIME allow-list, the signature table and the text policy. */
module FileValidation {
  import opened Wrappers
  import opened Strings

  type byte = x: int | 0 <= x < 256
  type Bytes = seq<byte>

  const SNIFF_BYTES: nat := 16

  datatype ValidationError =
    | MimeTypeNotAllowed(contentType: string)
    | MimeTypeMismatch(declared: string)
    | TruncatedFile(declared: string)
    | UndecodableContent

  /** One required byte pattern at a fixed offset. */
  datatype Pattern = Pattern(prefix: Bytes, offset: nat)

  predicate Matches(p: Pattern, sniffed: Bytes) {
    && |sniffed| >= p.offset + |p.prefix|
    && sniffed[p.offset..p.offset + |p.prefix|] == p.prefix
  }

  const PDF: Bytes := [0x25, 0x50, 0x44, 0x46, 0x2D]
  const PNG: Bytes := [0x89, 0x50, 0x4E, 0x47, 0x0D, 0x0A, 0x1A, 0x0A]
  const JPEG: Bytes := [0xFF, 0xD8, 0xFF]
  const GIF87A: Bytes := [0x47, 0x49, 0x46, 0x38, 0x37, 0x61]
  const GIF89A: Bytes := [0x47, 0x49, 0x46, 0x38, 0x39, 0x61]
  const RIFF: Bytes := [0x52, 0x49, 0x46, 0x46]
  const WEBP: Bytes := [0x57, 0x45, 0x42, 0x50]
  const ZIP_ENTRY: Bytes := [0x50, 0x4B, 0x03, 0x04]
  const ZIP_EMPTY: Bytes := [0x50, 0x4B, 0x05, 0x06]
  const ZIP_SPANNED: Bytes := [0x50, 0x4B, 0x07, 0x08]

  const OFFICE := "application/vnd.openxmlformats-officedocument."

  /** The types of the signature table; the three office types share one entry. */
  datatype BinaryType = Pdf | Png | Jpeg | Gif | Webp | Zip | Office

  function TypeOf(mime: string): Option<BinaryType> {
    if mime == "application/pdf" then Some(Pdf)
    else if mime == "image/png" then Some(Png)
    else if mime == "image/jpeg" then Some(Jpeg)
    else if mime == "image/gif" then Some(Gif)
    else if mime == "image/webp" then Some(Webp)
    else if mime == "application/zip" then Some(Zip)
    else if mime == OFFICE + "wordprocessingml.document"
         || mime == OFFICE + "spreadsheetml.sheet"
         || mime == OFFICE + "presentationml.presentation" then
      Some(Office)
    else None
  }

  function Patterns(t: BinaryType): (r: seq<Pattern>)
    ensures r != []
    ensures forall i | 0 <= i < |r| :: r[i].offset + |r[i].prefix| <= 12
  {
    match t
    case Pdf => [Pattern(PDF, 0)]
    case Png => [Pattern(PNG, 0)]
    case Jpeg => [Pattern(JPEG, 0)]
    case Gif => [Pattern(GIF87A, 0), Pattern(GIF89A, 0)]
    case Webp => [Pattern(RIFF, 0), Pattern(WEBP, 8)]
    case Zip => [Pattern(ZIP_ENTRY, 0), Pattern(ZIP_EMPTY, 0), Pattern(ZIP_SPANNED, 0)]
    case Office => [Pattern(ZIP_ENTRY, 0)]
  }

  /** The required patterns of a type; the empty sequence for types outside the table. */
  function Signatures(mime: string): seq<Pattern> {
    var t := TypeOf(mime);
    if t.Some? then Patterns(t.value) else []
  }

  predicate AnyOfType(mime: string) {
    TypeOf(mime) == Some(Gif) || TypeOf(mime) == Some(Zip)
  }

  predicate SignatureMatches(sniffed: Bytes, mime: string) {
    var patterns := Signatures(mime);
    if AnyOfType(mime) then exists i | 0 <= i < |patterns| :: Matches(patterns[i], sniffed)
    else forall i | 0 <= i < |patterns| :: Matches(patterns[i], sniffed)
  }

  /** The bytes that the longest pattern reaches. */
  function Required(patterns: seq<Pattern>): nat {
    if patterns == [] then 0
    else
      var first := patterns[0].offset + |patterns[0].prefix|;
      var others := Required(patterns[1..]);
      if first > others then first else others
  }

  // ----- Text

  predicate Continuation(b: byte) {
    0x80 <= b < 0xC0
  }

  /** The length of the UTF-8 sequence that a byte starts; 0 when no sequence starts with it. */
  function SequenceLength(b: byte): nat {
    if b < 0x80 then 1
    else if 0xC2 <= b <= 0xDF then 2
    else if 0xE0 <= b <= 0xEF then 3
    else if 0xF0 <= b <= 0xF4 then 4
    else 0
  }

  /** The second-byte ranges that exclude overlong forms, surrogates and values past U+10FFFF. */
  predicate SecondByteOk(first: byte, second: byte) {
    && (first == 0xE0 ==> second >= 0xA0)
    && (first == 0xED ==> second < 0xA0)
    && (first == 0xF0 ==> second >= 0x90)
    && (first == 0xF4 ==> second < 0x90)
  }

  predicate StartsSequence(s: Bytes) {
    s != [] &&
    var n := SequenceLength(s[0]);
    && 0 < n <= |s|
    && (forall i | 1 <= i < n :: Continuation(s[i]))
    && (n > 1 ==> SecondByteOk(s[0], s[1]))
  }

  /** `bytes.decode("utf-8", errors="strict")` succeeds. */
  predicate Utf8(s: Bytes)
    decreases |s|
  {
    s == [] || (StartsSequence(s) && Utf8(s[SequenceLength(s[0])..]))
  }

  predicate TextByte(b: byte) {
    (b >= 0x20 || b == 0x09 || b == 0x0A || b == 0x0D) && b != 0x7F
  }

  predicate IsDecodableText(s: Bytes) {
    Utf8(s) && forall i | 0 <= i < |s| :: TextByte(s[i])
  }

  // ----- Validation

  /** Strips parameters and surrounding white space, and lowers the case. */
  function NormalizeContentType(contentType: string): string {
    Lower(Strip(contentType[..IndexOf(contentType, ';')]))
  }

  predicate Allowed(declared: string, allowed: seq<string>) {
    exists i | 0 <= i < |allowed| :: NormalizeContentType(allowed[i]) == NormalizeContentType(declared)
  }

  function ValidateMagicBytes(sniffed: Bytes, declared: string, exhausted: bool): Option<ValidationError> {
    var expected := NormalizeContentType(declared);
    if expected == "text/plain" then
      if sniffed != [] && !IsDecodableText(sniffed) then Some(UndecodableContent) else None
    else
      var patterns := Signatures(expected);
      if patterns == [] then Some(MimeTypeMismatch(expected))
      else if exhausted && |sniffed| < Required(patterns) then Some(TruncatedFile(expected))
      else if !SignatureMatches(sniffed, expected) then Some(MimeTypeMismatch(expected))
      else None
  }

  /** The first bytes of a content, up to the sniff window. */
  function Window(content: Bytes): Bytes {
    if |content| <= SNIFF_BYTES then content else content[..SNIFF_BYTES]
  }

  /** What validation says of a content as a whole. */
  function ValidateContent(content: Bytes, declared: string, allowed: seq<string>): Option<ValidationError> {
    if !Allowed(declared, allowed) then Some(MimeTypeNotAllowed(NormalizeContentType(declared)))
    else ValidateMagicBytes(Window(content), NormalizeContentType(declared), |content| < SNIFF_BYTES)
  }

  // ----- The window decides

  lemma LoweringKeepsTrimmed(s: string)
    requires Trimmed(s)
    ensures Trimmed(Lower(s)) && Lower(Lower(s)) == Lower(s)
  {
    assert forall c: char :: IsSpace(LowerChar(c)) == IsSpace(c);
  }

  lemma LoweringAddsNoSemicolon(s: string)
    requires ';' !in s
    ensures ';' !in Lower(s)
  {
    forall i | 0 <= i < |s| ensures Lower(s)[i] != ';' {
      assert s[i] in s;
    }
  }

  lemma NormalizingTwice(contentType: string)
    ensures NormalizeContentType(NormalizeContentType(contentType)) == NormalizeContentType(contentType)
  {
    var cut := contentType[..IndexOf(contentType, ';')];
    var lowered := Lower(Strip(cut));
    LoweringKeepsTrimmed(Strip(cut));
    LoweringAddsNoSemicolon(Strip(cut));
    assert lowered[..IndexOf(lowered, ';')] == lowered;
  }

  lemma {:induction false} RequiredIsTheMaximum(patterns: seq<Pattern>, bound: nat)
    requires forall i | 0 <= i < |patterns| :: patterns[i].offset + |patterns[i].prefix| <= bound
    ensures Required(patterns) <= bound
    ensures forall i | 0 <= i < |patterns| :: patterns[i].offset + |patterns[i].prefix| <= Required(patterns)
  {
    if patterns != [] {
      RequiredIsTheMaximum(patterns[1..], bound);
      forall i | 0 <= i < |patterns| ensures patterns[i].offset + |patterns[i].prefix| <= Required(patterns) {
        assert i > 0 ==> patterns[i] == patterns[1..][i - 1];
      }
    }
  }

  lemma PatternsFitTheWindow(mime: string)
    ensures Required(Signatures(mime)) <= 12
    ensures forall i | 0 <= i < |Signatures(mime)| ::
              Signatures(mime)[i].offset + |Signatures(mime)[i].prefix| <= Required(Signatures(mime))
  {
    RequiredIsTheMaximum(Signatures(mime), 12);
  }

  lemma WindowKeepsPattern(content: Bytes, p: Pattern)
    requires p.offset + |p.prefix| <= SNIFF_BYTES
    ensures Matches(p, Window(content)) == Matches(p, content)
  {
    if |content| > SNIFF_BYTES {
      assert Window(content)[p.offset..p.offset + |p.prefix|] == content[p.offset..p.offset + |p.prefix|];
    }
  }

  lemma WindowKeepsSignature(content: Bytes, mime: string)
    ensures SignatureMatches(Window(content), mime) == SignatureMatches(content, mime)
  {
    var patterns := Signatures(mime);
    PatternsFitTheWindow(mime);
    forall i | 0 <= i < |patterns| ensures Matches(patterns[i], Window(content)) == Matches(patterns[i], content) {
      WindowKeepsPattern(content, patterns[i]);
    }
  }

  /** What the whole content says of a normalised binary type. */
  function BinaryVerdict(content: Bytes, expected: string): Option<ValidationError> {
    var patterns := Signatures(expected);
    if patterns == [] then Some(MimeTypeMismatch(expected))
    else if |content| < Required(patterns) then Some(TruncatedFile(expected))
    else if SignatureMatches(content, expected) then None
    else Some(MimeTypeMismatch(expected))
  }

  lemma WindowVerdict(content: Bytes, expected: string)
    requires NormalizeContentType(expected) == expected != "text/plain"
    ensures ValidateMagicBytes(Window(content), expected, |content| < SNIFF_BYTES) == BinaryVerdict(content, expected)
  {
    PatternsFitTheWindow(expected);
    WindowKeepsSignature(content, expected);
  }

  /**
   * For every binary type, sniffing 16 bytes decides as if the whole content had been read: the content is
   * accepted exactly when it carries the signature, and is called truncated exactly when it is too short for it.
   */
  lemma WindowDecidesBinaryTypes(content: Bytes, declared: string, allowed: seq<string>)
    requires Allowed(declared, allowed) && NormalizeContentType(declared) != "text/plain"
    ensures ValidateContent(content, declared, allowed) == BinaryVerdict(content, NormalizeContentType(declared))
  {
    NormalizingTwice(declared);
    WindowVerdict(content, NormalizeContentType(declared));
  }

  /** A prefix of well-formed UTF-8 is well formed exactly when it is not cut inside a sequence. */
  lemma {:induction false} CutUtf8(s: Bytes, k: nat)
    requires Utf8(s) && k < |s|
    ensures Utf8(s[..k]) <==> !Continuation(s[k])
    decreases |s|
  {
    var n := SequenceLength(s[0]);
    var cut := s[..k];
    if k >= n {
      CutUtf8(s[n..], k - n);
      assert cut[n..] == s[n..][..k - n];
      assert forall i | 0 <= i < n :: cut[i] == s[i];
      assert StartsSequence(cut);
    } else if k > 0 {
      assert cut[0] == s[0];
      assert Continuation(s[k]);
      assert !StartsSequence(cut);
    }
  }

  lemma WindowKeepsTextBytes(content: Bytes)
    requires IsDecodableText(content)
    ensures IsDecodableText(Window(content)) <==> |content| <= SNIFF_BYTES || !Continuation(content[SNIFF_BYTES])
  {
    if |content| > SNIFF_BYTES {
      CutUtf8(content, SNIFF_BYTES);
    }
  }

  lemma TextVerdict(declared: string, content: Bytes, allowed: seq<string>)
    requires Allowed(declared, allowed) && NormalizeContentType(declared) == "text/plain"
    ensures ValidateContent(content, declared, allowed) ==
              if Window(content) == [] || IsDecodableText(Window(content)) then None else Some(UndecodableContent)
  {
    NormalizingTwice(declared);
  }

  /**
   * A valid text is accepted exactly when it ends within the window or the window does not cut a character;
   * so the policy refuses some valid texts, and only those.
   */
  lemma WindowOfValidText(content: Bytes, declared: string, allowed: seq<string>)
    requires Allowed(declared, allowed) && NormalizeContentType(declared) == "text/plain"
    requires IsDecodableText(content)
    ensures ValidateContent(content, declared, allowed).None? <==>
              |content| <= SNIFF_BYTES || !Continuation(content[SNIFF_BYTES])
  {
    TextVerdict(declared, content, allowed);
    WindowKeepsTextBytes(content);
  }

  lemma {:induction false} LettersAreText(n: nat, rest: Bytes)
    requires IsDecodableText(rest)
    ensures IsDecodableText(seq(n, _ => 0x61) + rest)
  {
    var s: Bytes := seq(n, _ => 0x61) + rest;
    if n == 0 {
      assert s == rest;
    } else {
      LettersAreText(n - 1, rest);
      assert s[1..] == seq(n - 1, _ => 0x61) + rest;
      assert StartsSequence(s);
    }
  }

  lemma AccentIsText()
    ensures IsDecodableText([0xC3, 0xA9])
  {
    var accent: Bytes := [0xC3, 0xA9];
    assert accent[2..] == [];
    assert Utf8(accent[2..]) && StartsSequence(accent);
  }

  lemma SomeValidTextIsRefused(declared: string, allowed: seq<string>) returns (content: Bytes)
    requires Allowed(declared, allowed) && NormalizeContentType(declared) == "text/plain"
    ensures IsDecodableText(content)
    ensures ValidateContent(content, declared, allowed) == Some(UndecodableContent)
  {
    AccentIsText();
    content := seq(15, _ => 0x61) + [0xC3, 0xA9];
    LettersAreText(15, [0xC3, 0xA9]);
    WindowKeepsTextBytes(content);
    TextVerdict(declared, content, allowed);
  }
}
