/**
 Workspace paths for chat attachments (ui-message-stream.ts) and the path check that
 guards the workspace (paths.ts).
 */
module Attachments {
  import opened Prelude

  // ----- assertSafeWorkspacePath -----

  /** `s.split('/')`. */
  function Split(s: string): seq<string>
    ensures |Split(s)| > 0
    decreases s
  {
    if s == "" then [""]
    else
      var rest := Split(s[1..]);
      if s[0] == '/' then [""] + rest else [[s[0]] + rest[0]] + rest[1..]
  }

  /** `segments.join('/')`. */
  function Join(segments: seq<string>): string
    decreases segments
  {
    if segments == [] then ""
    else if |segments| == 1 then segments[0]
    else segments[0] + "/" + Join(segments[1..])
  }

  predicate Plain(segment: string) {
    forall i :: 0 <= i < |segment| ==> segment[i] != '/'
  }

  lemma {:induction false} SplitSegment(a: string, rest: string)
    requires Plain(a)
    ensures Split(a) == [a]
    ensures Split(a + "/" + rest) == [a] + Split(rest)
    decreases a
  {
    if a == "" {
      assert (a + "/" + rest)[1..] == rest;
    } else {
      SplitSegment(a[1..], rest);
      assert (a + "/" + rest)[1..] == a[1..] + "/" + rest;
      assert a == [a[0]] + a[1..];
    }
  }

  lemma {:induction false} SplitOfJoin(segments: seq<string>)
    requires segments != [] && forall i :: 0 <= i < |segments| ==> Plain(segments[i])
    ensures Split(Join(segments)) == segments
    decreases segments
  {
    if |segments| == 1 {
      SplitSegment(segments[0], "");
    } else {
      SplitOfJoin(segments[1..]);
      SplitSegment(segments[0], Join(segments[1..]));
      assert segments == [segments[0]] + segments[1..];
    }
  }

  lemma {:induction false} SplitIsPlain(s: string)
    ensures forall i :: 0 <= i < |Split(s)| ==> Plain(Split(s)[i])
    decreases s
  {
    if s != "" {
      SplitIsPlain(s[1..]);
    }
  }

  predicate Skipped(segment: string) {
    segment == "" || segment == "."
  }

  /** The segments that are kept; None when one of them is "..". */
  function Cleaned(segments: seq<string>): Option<seq<string>>
    decreases segments
  {
    if segments == [] then Some([])
    else if Skipped(segments[0]) then Cleaned(segments[1..])
    else if segments[0] == ".." then None
    else
      var rest := Cleaned(segments[1..]);
      if rest.None? then None else Some([segments[0]] + rest.value)
  }

  datatype Problem = EmptyPath | NullByte | Backslash | AbsolutePath | DriveLetter | Traversal | NoFile

  predicate HasDriveLetter(s: string) {
    |s| >= 2 && ('a' <= s[0] <= 'z' || 'A' <= s[0] <= 'Z') && s[1] == ':'
  }

  function SafePath(raw: string): Result<string, Problem> {
    if raw == "" then Err(EmptyPath)
    else if '\0' in raw then Err(NullByte)
    else if '\\' in raw then Err(Backslash)
    else if raw[0] == '/' then Err(AbsolutePath)
    else if HasDriveLetter(raw) then Err(DriveLetter)
    else
      var cleaned := Cleaned(Split(raw));
      if cleaned.None? then Err(Traversal)
      else if cleaned.value == [] then Err(NoFile)
      else Ok(Join(cleaned.value))
  }

  /** `assertSafeWorkspacePath`. */
  method AssertSafeWorkspacePath(raw: string) returns (r: Result<string, Problem>)
    ensures r == SafePath(raw)
  {
    if |raw| == 0 {
      return Err(EmptyPath);
    }
    if '\0' in raw {
      return Err(NullByte);
    }
    if '\\' in raw {
      return Err(Backslash);
    }
    if raw[0] == '/' {
      return Err(AbsolutePath);
    }
    if HasDriveLetter(raw) {
      return Err(DriveLetter);
    }
    var segments := Split(raw);
    var cleaned: seq<string> := [];
    assert segments[0..] == segments;
    PrefixedNothing(Cleaned(segments));
    for i := 0 to |segments|
      invariant Prefixed(cleaned, Cleaned(segments[i..])) == Cleaned(segments)
    {
      var segment := segments[i];
      assert segments[i..][0] == segment && segments[i..][1..] == segments[i + 1..];
      if Skipped(segment) {
        continue;
      }
      if segment == ".." {
        return Err(Traversal);
      }
      PrefixedPush(cleaned, segment, Cleaned(segments[i + 1..]));
      cleaned := cleaned + [segment];
    }
    assert cleaned + [] == cleaned;
    if |cleaned| == 0 {
      return Err(NoFile);
    }
    return Ok(Join(cleaned));
  }

  function Prefixed(done: seq<string>, rest: Option<seq<string>>): Option<seq<string>> {
    if rest.None? then None else Some(done + rest.value)
  }

  lemma PrefixedNothing(rest: Option<seq<string>>)
    ensures Prefixed([], rest) == rest
  {
    if rest.Some? {
      assert [] + rest.value == rest.value;
    }
  }

  lemma PrefixedPush(done: seq<string>, segment: string, rest: Option<seq<string>>)
    ensures Prefixed(done + [segment], rest) == Prefixed(done, Prefixed([segment], rest))
  {
    if rest.Some? {
      assert done + [segment] + rest.value == done + ([segment] + rest.value);
    }
  }

  /** A segment that a cleaned path may contain. */
  predicate Kept(segment: string) {
    Plain(segment) && !Skipped(segment) && segment != ".."
  }

  lemma {:induction false} CleanedAreKept(segments: seq<string>)
    requires forall i :: 0 <= i < |segments| ==> Plain(segments[i])
    ensures Cleaned(segments).Some? ==> forall i :: 0 <= i < |Cleaned(segments).value| ==>
            Kept(Cleaned(segments).value[i])
    decreases segments
  {
    if segments != [] {
      CleanedAreKept(segments[1..]);
    }
  }

  lemma {:induction false} KeptStay(segments: seq<string>)
    requires forall i :: 0 <= i < |segments| ==> Kept(segments[i])
    ensures Cleaned(segments) == Some(segments)
    decreases segments
  {
    if segments != [] {
      KeptStay(segments[1..]);
      assert segments == [segments[0]] + segments[1..];
    }
  }

  lemma {:induction false} JoinAdds(segments: seq<string>, c: char)
    requires c != '/' && forall i :: 0 <= i < |segments| ==> c !in segments[i]
    ensures c !in Join(segments)
    decreases segments
  {
    if |segments| > 1 {
      JoinAdds(segments[1..], c);
    }
  }

  /** A path made of kept segments is returned as it is, unless it looks like a drive. */
  lemma KeptPathsAreSafe(segments: seq<string>)
    requires segments != [] && forall i :: 0 <= i < |segments| ==> Kept(segments[i])
    requires forall i :: 0 <= i < |segments| ==> '\0' !in segments[i] && '\\' !in segments[i]
    ensures SafePath(Join(segments)) == if HasDriveLetter(Join(segments)) then Err(DriveLetter) else Ok(Join(segments))
  {
    SplitOfJoin(segments);
    KeptStay(segments);
    JoinAdds(segments, '\0');
    JoinAdds(segments, '\\');
    assert segments[0] != "" && Join(segments)[0] == segments[0][0];
  }

  lemma {:induction false} SplitOnlyCuts(s: string, c: char)
    requires c !in s
    ensures forall i :: 0 <= i < |Split(s)| ==> c !in Split(s)[i]
    decreases s
  {
    if s != "" {
      SplitOnlyCuts(s[1..], c);
    }
  }

  lemma {:induction false} CleanedOnlyDrops(segments: seq<string>, c: char)
    requires forall i :: 0 <= i < |segments| ==> c !in segments[i]
    ensures Cleaned(segments).Some? ==> forall i :: 0 <= i < |Cleaned(segments).value| ==>
            c !in Cleaned(segments).value[i]
    decreases segments
  {
    if segments != [] {
      CleanedOnlyDrops(segments[1..], c);
    }
  }

  /** The first segment that is neither empty nor ".". */
  function FirstSegment(segments: seq<string>): string
    decreases segments
  {
    if segments == [] then "" else if Skipped(segments[0]) then FirstSegment(segments[1..]) else segments[0]
  }

  lemma {:induction false} CleanedStartsThere(segments: seq<string>)
    requires Cleaned(segments).Some? && Cleaned(segments).value != []
    ensures Cleaned(segments).value[0] == FirstSegment(segments)
    decreases segments
  {
    if Skipped(segments[0]) {
      CleanedStartsThere(segments[1..]);
    }
  }

  lemma DriveLetterIsInTheFirst(segments: seq<string>)
    requires segments != [] && segments[0] != ""
    ensures HasDriveLetter(Join(segments)) <==> HasDriveLetter(segments[0])
  {
  }

  /**
   An accepted path is made of segments that are neither empty nor "." nor "..". Checking
   the result again changes nothing exactly when the first such segment of the raw path
   has no drive letter: the check for one looks at the start of the raw path only, before
   leading "./" segments are dropped.
   */
  lemma AcceptedPathsAreStable(raw: string)
    requires SafePath(raw).Ok?
    ensures Cleaned(Split(SafePath(raw).value)) == Some(Split(SafePath(raw).value))
    ensures SafePath(SafePath(raw).value) == SafePath(raw) <==> !HasDriveLetter(FirstSegment(Split(raw)))
  {
    var segments := Cleaned(Split(raw)).value;
    SplitIsPlain(raw);
    CleanedAreKept(Split(raw));
    SplitOnlyCuts(raw, '\0');
    SplitOnlyCuts(raw, '\\');
    CleanedOnlyDrops(Split(raw), '\0');
    CleanedOnlyDrops(Split(raw), '\\');
    KeptPathsAreSafe(segments);
    SplitOfJoin(segments);
    KeptStay(segments);
    CleanedStartsThere(Split(raw));
    DriveLetterIsInTheFirst(segments);
  }

  /** A leading "./" is dropped. */
  lemma DotIsDropped(path: string)
    requires '\0' !in path && '\\' !in path && Cleaned(Split(path)).Some? && Cleaned(Split(path)).value != []
    ensures SafePath("." + "/" + path) == Ok(Join(Cleaned(Split(path)).value))
  {
    SplitSegment(".", path);
    assert (["."] + Split(path))[1..] == Split(path);
  }

  /** "./" in front hides the drive letter: such a path is accepted and becomes one that is not. */
  lemma DotHidesTheDrive(segments: seq<string>)
    requires segments != [] && forall i :: 0 <= i < |segments| ==> Kept(segments[i])
    requires forall i :: 0 <= i < |segments| ==> '\0' !in segments[i] && '\\' !in segments[i]
    requires HasDriveLetter(segments[0])
    ensures SafePath("." + "/" + Join(segments)) == Ok(Join(segments))
    ensures SafePath(Join(segments)) == Err(DriveLetter)
  {
    KeptPathsAreSafe(segments);
    DriveLetterIsInTheFirst(segments);
    JoinAdds(segments, '\0');
    JoinAdds(segments, '\\');
    SplitOfJoin(segments);
    KeptStay(segments);
    DotIsDropped(Join(segments));
  }

  /** "./C:/x" is accepted and becomes "C:/x", which would not be. */
  lemma DriveLetterCanSurface()
    ensures SafePath("./C:/x") == Ok("C:/x") && SafePath("C:/x") == Err(DriveLetter)
  {
    var segments := ["C:", "x"];
    assert segments[1..] == ["x"];
    assert Join(segments) == "C:/x";
    assert "." + "/" + "C:/x" == "./C:/x";
    DotHidesTheDrive(segments);
  }

  // ----- attachmentPath -----

  predicate IsNameChar(c: char) {
    'A' <= c <= 'Z' || 'a' <= c <= 'z' || '0' <= c <= '9' || c == '.' || c == '_' || c == '-'
  }

  /** `split(/[/\\\\]/).at(-1)`. */
  function LastSegment(s: string): string
    decreases s
  {
    if s == "" then ""
    else if s[|s| - 1] == '/' || s[|s| - 1] == '\\' then ""
    else LastSegment(s[..|s| - 1]) + [s[|s| - 1]]
  }

  function SanitizedChar(c: char): string {
    if IsNameChar(c) then [c] else if c as int >= 0x10000 then "__" else "_"
  }

  /** `replace(/[^A-Za-z0-9._-]/g, '_')`, per UTF-16 code unit. */
  function Sanitized(s: string): string
    decreases s
  {
    if s == "" then ""
    else SanitizedChar(s[0]) + Sanitized(s[1..])
  }

  function WithoutLeadingDots(s: string): string
    decreases s
  {
    if s != "" && s[0] == '.' then WithoutLeadingDots(s[1..]) else s
  }

  function ImageExtension(key: string): Option<string> {
    if key == "image/png" then Some("png")
    else if key == "image/jpeg" then Some("jpg")
    else if key == "image/gif" then Some("gif")
    else if key == "image/webp" then Some("webp")
    else None
  }

  function TextExtension(key: string): Option<string> {
    if key == "application/pdf" then Some("pdf")
    else if key == "text/plain" then Some("txt")
    else if key == "text/markdown" then Some("md")
    else if key == "application/json" then Some("json")
    else if key == "text/csv" then Some("csv")
    else None
  }

  /** The table is a plain object: two keys that it inherits are found as well, and their values end up in the name. */
  function InheritedExtension(key: string): Option<string> {
    if key == "constructor" then Some("function " + "Object() " + "{ [native " + "code] }")
    else if key == "__proto__" then Some("[object Object]")
    else None
  }

  function ExtensionOf(mediaType: string): Option<string> {
    var key := Lower(mediaType);
    if ImageExtension(key).Some? then ImageExtension(key)
    else if TextExtension(key).Some? then TextExtension(key)
    else InheritedExtension(key)
  }

  /** Decimal digits. */
  function Decimal(n: nat): (s: string)
    ensures |s| >= 1 && (n >= 10 ==> |s| >= 2)
    decreases n
  {
    var digit := [(n % 10 + 48) as char];
    if n < 10 then digit else Decimal(n / 10) + digit
  }

  lemma {:induction false} DecimalInjective(m: nat, n: nat)
    requires Decimal(m) == Decimal(n)
    ensures m == n
    decreases m
  {
    var a, b := Decimal(m), Decimal(n);
    assert a[|a| - 1] == (m % 10 + 48) as char && b[|b| - 1] == (n % 10 + 48) as char;
    if m >= 10 && n >= 10 {
      assert a[..|a| - 1] == Decimal(m / 10) && b[..|b| - 1] == Decimal(n / 10);
      DecimalInjective(m / 10, n / 10);
    }
  }

  function BaseName(filename: Option<string>): string {
    WithoutLeadingDots(Sanitized(LastSegment(if filename.Some? then filename.value else "")))
  }

  function NameOf(filename: Option<string>, mediaType: Option<string>, index: nat): string {
    var base := BaseName(filename);
    var extension := if mediaType.Some? then ExtensionOf(mediaType.value) else None;
    if base != "" then base
    else "attachment-" + Decimal(index + 1) + if extension.Some? then "." + extension.value else ""
  }

  /** `name.lastIndexOf('.')`. */
  function LastDot(name: string): int
    ensures -1 <= LastDot(name) < |name|
    decreases name
  {
    if name == "" then -1
    else if name[|name| - 1] == '.' then |name| - 1
    else LastDot(name[..|name| - 1])
  }

  function Stem(name: string): string {
    if LastDot(name) > 0 then name[..LastDot(name)] else name
  }

  function Ext(name: string): string {
    if LastDot(name) > 0 then name[LastDot(name)..] else ""
  }

  function Suffixed(name: string, suffix: nat): string {
    "attachments/" + (Stem(name) + "-" + Decimal(suffix) + Ext(name))
  }

  /** The first candidate is the name itself, the next ones carry the numbers 2, 3, ... */
  function Candidate(name: string, k: nat): string {
    if k < 2 then "attachments/" + name else Suffixed(name, k)
  }

  /** The number can be read back from a candidate. */
  lemma NumberOf(folder: string, stem: string, number: string, ext: string)
    ensures var s := folder + (stem + "-" + number + ext);
            |folder| + |stem| + 1 <= |s| - |ext| && s[|folder| + |stem| + 1..|s| - |ext|] == number
  {
  }

  lemma SuffixedInjective(name: string, m: nat, n: nat)
    requires Suffixed(name, m) == Suffixed(name, n)
    ensures m == n
  {
    NumberOf("attachments/", Stem(name), Decimal(m), Ext(name));
    NumberOf("attachments/", Stem(name), Decimal(n), Ext(name));
    DecimalInjective(m, n);
  }

  /** The candidates with numbers from 2 up to, not including, `k`. */
  function Tried(name: string, k: nat): set<string> {
    set i | 2 <= i < k :: Suffixed(name, i)
  }

  lemma {:induction false} TriedSize(name: string, k: nat)
    requires k >= 2
    ensures |Tried(name, k)| == k - 2
    decreases k
  {
    if k == 2 {
      assert Tried(name, k) == {};
    } else {
      TriedSize(name, k - 1);
      assert Tried(name, k) == Tried(name, k - 1) + {Suffixed(name, k - 1)};
      if Suffixed(name, k - 1) in Tried(name, k - 1) {
        var i :| 2 <= i < k - 1 && Suffixed(name, i) == Suffixed(name, k - 1);
        SuffixedInjective(name, i, k - 1);
      }
    }
  }

  lemma TriedFits(name: string, k: nat, used: set<string>)
    requires k >= 2 && forall i :: 2 <= i < k ==> Suffixed(name, i) in used
    ensures k - 2 <= |used|
  {
    TriedSize(name, k);
    assert Tried(name, k) <= used;
    assert used == Tried(name, k) + (used - Tried(name, k));
  }

  /** `path` is the first candidate that is not in use. */
  ghost predicate IsFirstFree(name: string, used: set<string>, path: string) {
    && path !in used
    && (path == Candidate(name, 0)
        || (Candidate(name, 0) in used
            && exists k :: k >= 2 && path == Suffixed(name, k) && forall i :: 2 <= i < k ==> Suffixed(name, i) in used))
  }

  lemma FirstFreeIsUnique(name: string, used: set<string>, a: string, b: string)
    requires IsFirstFree(name, used, a) && IsFirstFree(name, used, b)
    ensures a == b
  {
    if a != Candidate(name, 0) && b != Candidate(name, 0) {
      var k :| k >= 2 && a == Suffixed(name, k) && forall i :: 2 <= i < k ==> Suffixed(name, i) in used;
      var m :| m >= 2 && b == Suffixed(name, m) && forall i :: 2 <= i < m ==> Suffixed(name, i) in used;
      assert !(k < m) && !(m < k);
    }
  }

  /** `attachmentPath`; the loop ends because its candidates differ and `used` is finite. */
  method AttachmentPath(filename: Option<string>, mediaType: Option<string>, index: nat, used: set<string>)
    returns (candidate: string, nowUsed: set<string>)
    ensures IsFirstFree(NameOf(filename, mediaType, index), used, candidate)
    ensures nowUsed == used + {candidate}
  {
    var name := NameOf(filename, mediaType, index);
    candidate := "attachments/" + name;
    var suffix: nat := 2;
    while candidate in used
      invariant suffix >= 2
      invariant forall i :: 2 <= i < suffix - 1 ==> Suffixed(name, i) in used
      invariant suffix == 2 ==> candidate == Candidate(name, 0)
      invariant suffix > 2 ==> candidate == Suffixed(name, suffix - 1) && Candidate(name, 0) in used
      decreases |used| + 3 - suffix
    {
      if suffix > 2 {
        TriedFits(name, suffix, used);
      }
      candidate := "attachments/" + (Stem(name) + "-" + Decimal(suffix) + Ext(name));
      suffix := suffix + 1;
    }
    nowUsed := used + {candidate};
  }

  // ----- the names are safe -----

  /** A name that cannot leave the attachments directory. */
  predicate GoodName(name: string) {
    && name != "" && name[0] != '.'
    && '/' !in name && '\\' !in name && '\0' !in name
  }

  predicate SafeChars(s: string) {
    '/' !in s && '\\' !in s && '\0' !in s
  }

  lemma {:induction false} SanitizedIsSafe(s: string)
    ensures SafeChars(Sanitized(s))
    decreases s
  {
    if s != "" {
      SanitizedIsSafe(s[1..]);
    }
  }

  lemma {:induction false} WithoutDotsIsSafe(s: string)
    requires SafeChars(s)
    ensures SafeChars(WithoutLeadingDots(s))
    ensures WithoutLeadingDots(s) != "" ==> WithoutLeadingDots(s)[0] != '.'
    decreases s
  {
    if s != "" && s[0] == '.' {
      WithoutDotsIsSafe(s[1..]);
    }
  }

  lemma {:induction false} DecimalIsSafe(n: nat)
    ensures SafeChars(Decimal(n))
    decreases n
  {
    var c := (n % 10 + 48) as char;
    assert '0' <= c <= '9';
    if n >= 10 {
      DecimalIsSafe(n / 10);
    }
  }

  lemma ImageExtensionIsSafe(key: string)
    ensures ImageExtension(key).Some? ==> SafeChars(ImageExtension(key).value)
  {
  }

  lemma TextExtensionIsSafe(key: string)
    ensures TextExtension(key).Some? ==> SafeChars(TextExtension(key).value)
  {
  }

  lemma InheritedExtensionIsSafe(key: string)
    ensures InheritedExtension(key).Some? ==> SafeChars(InheritedExtension(key).value)
  {
    assert SafeChars("function ") && SafeChars("Object() ") && SafeChars("{ [native ") && SafeChars("code] }");
    assert SafeChars("[object Object]");
  }

  lemma ExtensionIsSafe(mediaType: string)
    ensures ExtensionOf(mediaType).Some? ==> SafeChars(ExtensionOf(mediaType).value)
  {
    ImageExtensionIsSafe(Lower(mediaType));
    TextExtensionIsSafe(Lower(mediaType));
    InheritedExtensionIsSafe(Lower(mediaType));
  }

  lemma NameIsGood(filename: Option<string>, mediaType: Option<string>, index: nat)
    ensures GoodName(NameOf(filename, mediaType, index))
  {
    var raw := LastSegment(if filename.Some? then filename.value else "");
    SanitizedIsSafe(raw);
    WithoutDotsIsSafe(Sanitized(raw));
    DecimalIsSafe(index + 1);
    if mediaType.Some? {
      ExtensionIsSafe(mediaType.value);
    }
    if BaseName(filename) == "" {
      assert NameOf(filename, mediaType, index)[0] == 'a';
    }
  }

  /** The last component of a candidate. */
  function LastComponent(name: string, k: nat): string {
    if k < 2 then name else Stem(name) + "-" + Decimal(k) + Ext(name)
  }

  lemma LastComponentIsGood(name: string, k: nat)
    requires GoodName(name)
    ensures GoodName(LastComponent(name, k))
  {
    DecimalIsSafe(k);
    assert LastComponent(name, k)[0] == name[0];
  }

  lemma TwoSegments(dir: string, last: string)
    ensures Join([dir, last]) == dir + "/" + last
  {
    assert [dir, last][1..] == [last];
  }

  /** A good name under the attachments directory passes the check unchanged. */
  lemma UnderAttachmentsIsSafe(last: string)
    requires GoodName(last)
    ensures SafePath("attachments/" + last) == Ok("attachments/" + last)
  {
    var dir := "attachments";
    assert SafeChars(dir) && Kept(dir) && Kept(last);
    TwoSegments(dir, last);
    assert dir + "/" == "attachments/";
    KeptPathsAreSafe([dir, last]);
    assert ("attachments/" + last)[1] == 't';
  }

  lemma CandidateIsSafe(name: string, k: nat)
    requires GoodName(name)
    ensures SafePath(Candidate(name, k)) == Ok(Candidate(name, k))
  {
    LastComponentIsGood(name, k);
    UnderAttachmentsIsSafe(LastComponent(name, k));
  }

  lemma FreePathIsSafe(filename: Option<string>, mediaType: Option<string>, index: nat, used: set<string>, path: string)
    requires IsFirstFree(NameOf(filename, mediaType, index), used, path)
    ensures SafePath(path) == Ok(path)
  {
    var name := NameOf(filename, mediaType, index);
    NameIsGood(filename, mediaType, index);
    CandidateIsSafe(name, 0);
    if path != Candidate(name, 0) {
      var k :| k >= 2 && path == Suffixed(name, k) && forall i :: 2 <= i < k ==> Suffixed(name, i) in used;
      CandidateIsSafe(name, k);
    }
  }

  // ----- collectAttachments -----

  /** What a data URL holds. */
  datatype Decoded = Decoded(mediaType: Option<string>, bytes: seq<int>)

  /** A file part; `decoded` is what decoding its data URL gives, or an error. */
  datatype FilePart = FilePart(filename: Option<string>, mediaType: Option<string>, decoded: Result<Decoded, string>)

  datatype Message = Message(user: bool, files: seq<FilePart>)

  datatype Attachment = Attachment(
    messageIndex: nat, path: string, filename: Option<string>, mediaType: Option<string>, bytes: seq<int>)

  function FindFree(name: string, used: set<string>, k: nat): (path: string)
    requires k >= 2 && forall i :: 2 <= i < k ==> Suffixed(name, i) in used
    ensures Candidate(name, 0) in used ==> IsFirstFree(name, used, path)
    decreases |used| + 2 - k
  {
    TriedFits(name, k, used);
    if Suffixed(name, k) in used then
      TriedFits(name, k + 1, used);
      FindFree(name, used, k + 1)
    else Suffixed(name, k)
  }

  function FirstFree(name: string, used: set<string>): (path: string)
    ensures IsFirstFree(name, used, path)
  {
    if Candidate(name, 0) !in used then Candidate(name, 0) else FindFree(name, used, 2)
  }

  /** A file part with the index of its message. */
  datatype Item = Item(messageIndex: nat, file: FilePart)

  function ItemsOf(messageIndex: nat, files: seq<FilePart>): seq<Item> {
    seq(|files|, i requires 0 <= i < |files| => Item(messageIndex, files[i]))
  }

  /** The file parts of the user messages from `from` on, in order. */
  function ItemsFrom(messages: seq<Message>, from: nat): seq<Item>
    requires from <= |messages|
    decreases |messages| - from
  {
    if from == |messages| then []
    else (if messages[from].user then ItemsOf(from, messages[from].files) else []) + ItemsFrom(messages, from + 1)
  }

  function MediaTypeOf(file: FilePart): Option<string>
    requires file.decoded.Ok?
  {
    if file.mediaType.Some? then file.mediaType else file.decoded.value.mediaType
  }

  function AttachmentFor(item: Item, path: string): Attachment
    requires item.file.decoded.Ok?
  {
    Attachment(item.messageIndex, path, item.file.filename, MediaTypeOf(item.file), item.file.decoded.value.bytes)
  }

  /** The attachments for the items, given how many there are already and the paths in use. */
  function Attach(items: seq<Item>, index: nat, used: set<string>): Result<seq<Attachment>, string>
    decreases items
  {
    if items == [] then Ok([])
    else
      var file := items[0].file;
      if file.decoded.Err? then Err(file.decoded.error)
      else
        var path := FirstFree(NameOf(file.filename, MediaTypeOf(file), index), used);
        Prepend([AttachmentFor(items[0], path)], Attach(items[1..], index + 1, used + {path}))
  }

  function Prepend(done: seq<Attachment>, rest: Result<seq<Attachment>, string>): Result<seq<Attachment>, string> {
    if rest.Err? then rest else Ok(done + rest.value)
  }

  lemma PrependTwice(a: seq<Attachment>, b: seq<Attachment>, rest: Result<seq<Attachment>, string>)
    ensures Prepend(a + b, rest) == Prepend(a, Prepend(b, rest))
  {
    if rest.Ok? {
      assert (a + b) + rest.value == a + (b + rest.value);
    }
  }

  lemma PrependNothing(rest: Result<seq<Attachment>, string>)
    ensures Prepend([], rest) == rest
  {
    if rest.Ok? {
      assert [] + rest.value == rest.value;
    }
  }

  lemma AttachOneMore(items: seq<Item>, done: seq<Attachment>, used: set<string>, path: string)
    requires items != [] && items[0].file.decoded.Ok?
    requires IsFirstFree(NameOf(items[0].file.filename, MediaTypeOf(items[0].file), |done|), used, path)
    ensures Prepend(done, Attach(items, |done|, used))
         == Prepend(done + [AttachmentFor(items[0], path)], Attach(items[1..], |done| + 1, used + {path}))
  {
    var name := NameOf(items[0].file.filename, MediaTypeOf(items[0].file), |done|);
    FirstFreeIsUnique(name, used, path, FirstFree(name, used));
    PrependTwice(done, [AttachmentFor(items[0], path)], Attach(items[1..], |done| + 1, used + {path}));
  }

  lemma ItemsOfTail(messageIndex: nat, files: seq<FilePart>, j: nat, later: seq<Item>)
    requires j < |files|
    ensures var items := ItemsOf(messageIndex, files[j..]) + later;
            items != [] && items[0] == Item(messageIndex, files[j]) &&
            items[1..] == ItemsOf(messageIndex, files[j + 1..]) + later
  {
  }

  /** The file parts of one message; `later` stands for the items of the messages after it. */
  method AttachFiles(messageIndex: nat, files: seq<FilePart>, ghost later: seq<Item>, before: seq<Attachment>,
                     usedBefore: set<string>)
    returns (problem: Option<string>, attachments: seq<Attachment>, used: set<string>)
    ensures var whole := Prepend(before, Attach(ItemsOf(messageIndex, files) + later, |before|, usedBefore));
            if problem.Some? then whole == Err(problem.value)
            else whole == Prepend(attachments, Attach(later, |attachments|, used))
  {
    attachments, used := before, usedBefore;
    ghost var whole := Prepend(before, Attach(ItemsOf(messageIndex, files) + later, |before|, usedBefore));
    assert files[0..] == files;
    for j := 0 to |files|
      invariant Prepend(attachments, Attach(ItemsOf(messageIndex, files[j..]) + later, |attachments|, used)) == whole
    {
      var file := files[j];
      ItemsOfTail(messageIndex, files, j, later);
      if file.decoded.Err? {
        return Some(file.decoded.error), attachments, used;
      }
      var path, nowUsed := AttachmentPath(file.filename, MediaTypeOf(file), |attachments|, used);
      AttachOneMore(ItemsOf(messageIndex, files[j..]) + later, attachments, used, path);
      used := nowUsed;
      attachments := attachments +
        [Attachment(messageIndex, path, file.filename, MediaTypeOf(file), file.decoded.value.bytes)];
    }
    assert ItemsOf(messageIndex, files[|files|..]) + later == later;
    problem := None;
  }

  /** `collectAttachments`. */
  method CollectAttachments(messages: seq<Message>) returns (r: Result<seq<Attachment>, string>)
    ensures r == Attach(ItemsFrom(messages, 0), 0, {})
  {
    var used: set<string>, attachments: seq<Attachment> := {}, [];
    ghost var goal := Attach(ItemsFrom(messages, 0), 0, {});
    PrependNothing(goal);
    for i := 0 to |messages|
      invariant Prepend(attachments, Attach(ItemsFrom(messages, i), |attachments|, used)) == goal
    {
      var message := messages[i];
      if !message.user {
        assert [] + ItemsFrom(messages, i + 1) == ItemsFrom(messages, i + 1);
        continue;
      }
      var problem: Option<string>;
      problem, attachments, used := AttachFiles(i, message.files, ItemsFrom(messages, i + 1), attachments, used);
      if problem.Some? {
        return Err(problem.value);
      }
    }
    assert attachments + [] == attachments;
    return Ok(attachments);
  }

  // ----- what the paths are good for -----

  lemma {:induction false} AttachedPaths(items: seq<Item>, index: nat, used: set<string>)
    requires Attach(items, index, used).Ok?
    ensures var all := Attach(items, index, used).value;
            && (forall i :: 0 <= i < |all| ==> all[i].path !in used && SafePath(all[i].path) == Ok(all[i].path))
            && (forall i, j :: 0 <= i < j < |all| ==> all[i].path != all[j].path)
    decreases items
  {
    if items != [] {
      var file := items[0].file;
      var path := FirstFree(NameOf(file.filename, MediaTypeOf(file), index), used);
      FreePathIsSafe(file.filename, MediaTypeOf(file), index, used, path);
      AttachedPaths(items[1..], index + 1, used + {path});
    }
  }

  /** Every attachment of a history has a path of its own, and the workspace check returns it unchanged. */
  lemma AttachmentsHaveOwnSafePaths(messages: seq<Message>)
    requires Attach(ItemsFrom(messages, 0), 0, {}).Ok?
    ensures var all := Attach(ItemsFrom(messages, 0), 0, {}).value;
            && (forall i :: 0 <= i < |all| ==> SafePath(all[i].path) == Ok(all[i].path))
            && (forall i, j :: 0 <= i < j < |all| ==> all[i].path != all[j].path)
  {
    AttachedPaths(ItemsFrom(messages, 0), 0, {});
  }

  lemma {:induction false} AttachPrefix(a: seq<Item>, b: seq<Item>, index: nat, used: set<string>)
    requires Attach(a + b, index, used).Ok?
    ensures Attach(a, index, used).Ok? && Attach(a, index, used).value <= Attach(a + b, index, used).value
    decreases a
  {
    if a != [] {
      ConcatTail(a, b);
      var file := a[0].file;
      var path := FirstFree(NameOf(file.filename, MediaTypeOf(file), index), used);
      AttachPrefix(a[1..], b, index + 1, used + {path});
    }
  }

  lemma Regroup(a: seq<Item>, b: seq<Item>, c: seq<Item>)
    ensures a + (b + c) == (a + b) + c && [] + c == c
  {
  }

  lemma {:induction false} ItemsOfLonger(messages: seq<Message>, whole: seq<Message>, from: nat)
    requires messages <= whole && from <= |messages|
    ensures ItemsFrom(whole, from) == ItemsFrom(messages, from) + ItemsFrom(whole, |messages|)
    decreases |messages| - from
  {
    var later := ItemsFrom(whole, |messages|);
    if from < |messages| {
      ItemsOfLonger(messages, whole, from + 1);
      var here := if messages[from].user then ItemsOf(from, messages[from].files) else [];
      assert whole[from] == messages[from];
      Regroup(here, ItemsFrom(messages, from + 1), later);
    } else {
      Regroup([], [], later);
    }
  }

  /** A longer history keeps every path of the shorter one. */
  lemma EarlierPathsAreStable(messages: seq<Message>, more: seq<Message>)
    requires Attach(ItemsFrom(messages + more, 0), 0, {}).Ok?
    ensures Attach(ItemsFrom(messages, 0), 0, {}).Ok?
    ensures Attach(ItemsFrom(messages, 0), 0, {}).value <= Attach(ItemsFrom(messages + more, 0), 0, {}).value
  {
    ItemsOfLonger(messages, messages + more, 0);
    AttachPrefix(ItemsFrom(messages, 0), ItemsFrom(messages + more, |messages|), 0, {});
  }

  // ----- what the attachments are -----

  /** The attachment is the file: its message, name, type and bytes; the part's own type comes before the URL's. */
  predicate IsFile(a: Attachment, messageIndex: nat, file: FilePart) {
    && file.decoded.Ok?
    && a.messageIndex == messageIndex && a.filename == file.filename && a.bytes == file.decoded.value.bytes
    && a.mediaType == (if file.mediaType.Some? then file.mediaType else file.decoded.value.mediaType)
  }

  lemma {:induction false} AttachmentsAreTheItems(items: seq<Item>, index: nat, used: set<string>)
    requires Attach(items, index, used).Ok?
    ensures var all := Attach(items, index, used).value;
            |all| == |items| && forall i :: 0 <= i < |all| ==> IsFile(all[i], items[i].messageIndex, items[i].file)
    decreases items
  {
    if items != [] {
      var file := items[0].file;
      var path := FirstFree(NameOf(file.filename, MediaTypeOf(file), index), used);
      AttachmentsAreTheItems(items[1..], index + 1, used + {path});
    }
  }

  /** Where the files of message `i` begin among all files of user messages. */
  function FilesBefore(messages: seq<Message>, i: nat): nat
    requires i <= |messages|
  {
    if i == 0 then 0
    else FilesBefore(messages, i - 1) + (if messages[i - 1].user then |messages[i - 1].files| else 0)
  }

  lemma {:induction false} ItemAt(messages: seq<Message>, from: nat, i: nat, j: nat)
    requires from <= i < |messages| && messages[i].user && j < |messages[i].files|
    ensures FilesBefore(messages, from) <= FilesBefore(messages, i)
    ensures var k := FilesBefore(messages, i) + j - FilesBefore(messages, from);
            k < |ItemsFrom(messages, from)| && ItemsFrom(messages, from)[k] == Item(i, messages[i].files[j])
    decreases i - from
  {
    if from < i {
      ItemAt(messages, from + 1, i, j);
    }
  }

  lemma {:induction false} ItemCount(messages: seq<Message>, from: nat)
    requires from <= |messages|
    ensures |ItemsFrom(messages, from)| == FilesBefore(messages, |messages|) - FilesBefore(messages, from)
    decreases |messages| - from
  {
    if from < |messages| {
      ItemCount(messages, from + 1);
    }
  }

  /** Every file of every user message becomes one attachment, in order, and nothing else does. */
  lemma AttachmentsAreTheFiles(messages: seq<Message>, i: nat, j: nat)
    requires Attach(ItemsFrom(messages, 0), 0, {}).Ok?
    requires i < |messages| && messages[i].user && j < |messages[i].files|
    ensures var all := Attach(ItemsFrom(messages, 0), 0, {}).value;
            && |all| == FilesBefore(messages, |messages|)
            && FilesBefore(messages, i) + j < |all|
            && IsFile(all[FilesBefore(messages, i) + j], i, messages[i].files[j])
  {
    AttachmentsAreTheItems(ItemsFrom(messages, 0), 0, {});
    ItemAt(messages, 0, i, j);
    ItemCount(messages, 0);
  }

  /** None of the first attachments has this path. */
  predicate IsFreeAmong(all: seq<Attachment>, i: nat, path: string)
    requires i <= |all|
  {
    forall j :: 0 <= j < i ==> all[j].path != path
  }

  lemma AttachFirst(items: seq<Item>, index: nat, used: set<string>) returns (path: string)
    requires items != [] && Attach(items, index, used).Ok?
    ensures items[0].file.decoded.Ok? && Attach(items[1..], index + 1, used + {path}).Ok?
    ensures Attach(items, index, used).value ==
            [AttachmentFor(items[0], path)] + Attach(items[1..], index + 1, used + {path}).value
    ensures IsFirstFree(NameOf(items[0].file.filename, MediaTypeOf(items[0].file), index), used, path)
  {
    path := FirstFree(NameOf(items[0].file.filename, MediaTypeOf(items[0].file), index), used);
  }

  lemma FreeAmongTail(first: Attachment, rest: seq<Attachment>, i: nat, path: string)
    requires 0 < i <= |rest| && IsFreeAmong([first] + rest, i, path)
    ensures IsFreeAmong(rest, i - 1, path) && first.path != path && ([first] + rest)[i] == rest[i - 1]
  {
    var all := [first] + rest;
    assert all[0].path != path;
    forall j | 0 <= j < i - 1 ensures rest[j].path != path {
      assert all[j + 1] == rest[j];
    }
  }

  /** A name that is not taken is used as it is. */
  lemma {:induction false} FreeNamesAreKept(items: seq<Item>, index: nat, used: set<string>, i: nat, name: string,
                                            all: seq<Attachment>)
    requires Attach(items, index, used) == Ok(all) && i < |items| == |all| && items[i].file.decoded.Ok?
    requires name == NameOf(items[i].file.filename, MediaTypeOf(items[i].file), index + i)
    requires "attachments/" + name !in used && IsFreeAmong(all, i, "attachments/" + name)
    ensures all[i].path == "attachments/" + name
    decreases items
  {
    var path := AttachFirst(items, index, used);
    if i > 0 {
      var first, rest := AttachmentFor(items[0], path), Attach(items[1..], index + 1, used + {path}).value;
      FreeAmongTail(first, rest, i, "attachments/" + name);
      FreeNamesAreKept(items[1..], index + 1, used + {path}, i - 1, name, rest);
    }
  }

  // ----- what they are called -----

  /** A name of letters, digits, dots, underscores and hyphens that does not start with a dot. */
  predicate IsCleanName(name: string) {
    && name != "" && name[0] != '.'
    && forall i :: 0 <= i < |name| ==>
         'a' <= name[i] <= 'z' || 'A' <= name[i] <= 'Z' || '0' <= name[i] <= '9' || name[i] in "._-"
  }

  lemma {:induction false} CleanIsOneSegment(name: string)
    requires forall i :: 0 <= i < |name| ==> IsNameChar(name[i])
    ensures LastSegment(name) == name && Sanitized(name) == name
    decreases name
  {
    if name != "" {
      CleanIsOneSegment(name[..|name| - 1]);
      CleanIsOneSegment(name[1..]);
    }
  }

  lemma {:induction false} LastSegmentOf(dir: string, name: string)
    requires forall i :: 0 <= i < |name| ==> name[i] != '/' && name[i] != '\\'
    ensures LastSegment(dir + "/" + name) == name && LastSegment(dir + "\\" + name) == name
    decreases name
  {
    if name != "" {
      LastSegmentOf(dir, name[..|name| - 1]);
      var a, b := dir + "/" + name, dir + "\\" + name;
      assert a[..|a| - 1] == dir + "/" + name[..|name| - 1] && b[..|b| - 1] == dir + "\\" + name[..|name| - 1];
    }
  }

  lemma Associates(a: string, b: string, c: string)
    ensures a + (b + c) == (a + b) + c
  {
  }

  lemma {:induction false} SanitizedConcat(a: string, b: string)
    ensures Sanitized(a + b) == Sanitized(a) + Sanitized(b)
    decreases a
  {
    if a == "" {
      assert a + b == b;
    } else {
      SanitizedConcat(a[1..], b);
      ConcatTail(a, b);
      Associates(SanitizedChar(a[0]), Sanitized(a[1..]), Sanitized(b));
    }
  }

  /** Any other character, one UTF-16 unit long, becomes an underscore, wherever it stands. */
  lemma OtherCharactersBecomeUnderscores(before: string, c: char, after: string)
    requires c as int < 0x10000
    ensures Sanitized([c]) == if 'a' <= c <= 'z' || 'A' <= c <= 'Z' || '0' <= c <= '9' || c in "._-" then [c] else "_"
    ensures Sanitized(before + [c] + after) == Sanitized(before) + Sanitized([c]) + Sanitized(after)
  {
    assert [c][1..] == "";
    SanitizedConcat(before + [c], after);
    SanitizedConcat(before, [c]);
  }

  /** Such a name is kept as it is, whatever directories stand before it. */
  lemma CleanNamesAreKept(dir: string, name: string, mediaType: Option<string>, index: nat)
    requires IsCleanName(name)
    ensures NameOf(Some(name), mediaType, index) == name
    ensures NameOf(Some(dir + "/" + name), mediaType, index) == name
    ensures NameOf(Some(dir + "\\" + name), mediaType, index) == name
  {
    assert forall i :: 0 <= i < |name| ==> name[i] != '/' && name[i] != '\\';
    LastSegmentOf(dir, name);
    BaseOfClean(name, name);
    BaseOfClean(dir + "/" + name, name);
    BaseOfClean(dir + "\\" + name, name);
  }

  lemma BaseOfClean(filename: string, name: string)
    requires IsCleanName(name) && (filename == name || LastSegment(filename) == name)
    ensures BaseName(Some(filename)) == name
  {
    CleanIsOneSegment(name);
  }

  /** The number a text of decimal digits stands for. */
  function NumberIn(digits: string): int
    decreases digits
  {
    if digits == "" then 0 else NumberIn(digits[..|digits| - 1]) * 10 + (digits[|digits| - 1] as int - '0' as int)
  }

  lemma {:induction false} DecimalReads(n: nat)
    ensures NumberIn(Decimal(n)) == n
    decreases n
  {
    if n < 10 {
      assert Decimal(n)[..0] == "";
    } else {
      DecimalReads(n / 10);
      assert Decimal(n)[..|Decimal(n)| - 1] == Decimal(n / 10);
    }
  }

  /** A file without a usable name is numbered from 1, with the extension of its media type if that is known. */
  lemma NamelessFilesAreNumbered(mediaType: Option<string>, index: nat)
    ensures NumberIn(Decimal(index + 1)) == index + 1
    ensures mediaType.None? ==> NameOf(None, mediaType, index) == "attachment-" + Decimal(index + 1) + ""
    ensures mediaType.Some? && ExtensionOf(mediaType.value).Some? ==>
              NameOf(None, mediaType, index) ==
                "attachment-" + Decimal(index + 1) + ("." + ExtensionOf(mediaType.value).value)
  {
    DecimalReads(index + 1);
  }

  lemma LowerCaseStays(key: string)
    requires forall i :: 0 <= i < |key| ==> key[i] < 'A' || 'Z' < key[i] <= 'z'
    ensures Lower(key) == key
  {
  }

  /** The extensions of the images. */
  lemma ImageExtensions()
    ensures ExtensionOf("image/png") == Some("png") && ExtensionOf("image/jpeg") == Some("jpg")
    ensures ExtensionOf("image/gif") == Some("gif") && ExtensionOf("image/webp") == Some("webp")
  {
    LowerCaseStays("image/png");
    LowerCaseStays("image/jpeg");
    LowerCaseStays("image/gif");
    LowerCaseStays("image/webp");
  }

  /** The extensions of the documents. */
  lemma DocumentExtensions()
    ensures ExtensionOf("application/pdf") == Some("pdf") && ExtensionOf("application/json") == Some("json")
    ensures ExtensionOf("text/plain") == Some("txt") && ExtensionOf("text/markdown") == Some("md")
    ensures ExtensionOf("text/csv") == Some("csv")
  {
    LowerCaseStays("application/pdf");
    LowerCaseStays("application/json");
    LowerCaseStays("text/plain");
    LowerCaseStays("text/markdown");
    LowerCaseStays("text/csv");
  }

  lemma {:induction false} LastDotIs(stem: string, ext: string)
    requires '.' !in ext
    ensures LastDot(stem + "." + ext) == |stem|
    decreases ext
  {
    var name := stem + "." + ext;
    if ext != "" {
      LastDotIs(stem, ext[..|ext| - 1]);
      assert name[..|name| - 1] == stem + "." + ext[..|ext| - 1];
    }
  }

  lemma {:induction false} NoDot(name: string)
    requires '.' !in name
    ensures LastDot(name) == -1
    decreases name
  {
    if name != "" {
      NoDot(name[..|name| - 1]);
    }
  }

  /** A second file of the same name gets its number before the extension. */
  lemma NumberGoesBeforeTheExtension(stem: string, ext: string, k: nat)
    requires '.' !in ext && stem != ""
    ensures Suffixed(stem + "." + ext, k) == "attachments/" + (stem + "-" + Decimal(k) + ("." + ext))
    ensures '.' !in stem ==> Suffixed(stem, k) == "attachments/" + (stem + "-" + Decimal(k) + "")
  {
    LastDotIs(stem, ext);
    var name := stem + "." + ext;
    assert name[..|stem|] == stem && name[|stem|..] == "." + ext;
    if '.' !in stem {
      NoDot(stem);
    }
  }

  // ----- which workspace paths are accepted -----

  lemma {:induction false} CleanedWhenNoTraversal(segments: seq<string>)
    ensures Cleaned(segments).Some? <==> ".." !in segments
    ensures Cleaned(segments) == Some([]) <==> forall i :: 0 <= i < |segments| ==>
            segments[i] == "" || segments[i] == "."
    decreases segments
  {
    if segments != [] {
      CleanedWhenNoTraversal(segments[1..]);
      assert segments == [segments[0]] + segments[1..];
    }
  }

  /** The first reason, in the order of the checks, for which a path is refused. */
  lemma PathsAreRefusedFor(raw: string)
    ensures SafePath(raw).Err? ==>
              match SafePath(raw).error
              case EmptyPath => raw == ""
              case NullByte => '\0' in raw
              case Backslash => '\\' in raw
              case AbsolutePath => raw != "" && raw[0] == '/'
              case DriveLetter => |raw| >= 2 && ('a' <= raw[0] <= 'z' || 'A' <= raw[0] <= 'Z') && raw[1] == ':'
              case Traversal => ".." in Split(raw)
              case NoFile => forall i :: 0 <= i < |Split(raw)| ==> Split(raw)[i] == "" || Split(raw)[i] == "."
  {
    CleanedWhenNoTraversal(Split(raw));
  }

  /** A path is accepted exactly when none of these reasons applies; what is accepted is relative and never climbs. */
  lemma PathsAreAcceptedExactlyWhen(raw: string)
    ensures SafePath(raw).Ok? <==>
              && raw != "" && '\0' !in raw && '\\' !in raw && raw[0] != '/'
              && !(|raw| >= 2 && ('a' <= raw[0] <= 'z' || 'A' <= raw[0] <= 'Z') && raw[1] == ':')
              && ".." !in Split(raw)
              && exists i :: 0 <= i < |Split(raw)| && Split(raw)[i] != "" && Split(raw)[i] != "."
    ensures SafePath(raw).Ok? ==>
              var path := SafePath(raw).value;
              path != "" && path[0] != '/' && forall i :: 0 <= i < |Split(path)| ==>
                Split(path)[i] != "" && Split(path)[i] != "." && Split(path)[i] != ".."
  {
    CleanedWhenNoTraversal(Split(raw));
    if SafePath(raw).Ok? {
      var segments := Cleaned(Split(raw)).value;
      SplitIsPlain(raw);
      CleanedAreKept(Split(raw));
      SplitOfJoin(segments);
      assert Join(segments)[0] == segments[0][0];
    }
  }
}
