/**
  Host file transfers: what a transfer path may name, and the bounded loops that read a
  downloaded response and an uploaded file.
 */
module FileTransfers {
  import opened Wrappers
  import opened PosixPaths

  type Byte = x: int | 0 <= x < 256

  const MEBIBYTE := 1024 * 1024
  const MAX_SAFE_INTEGER := 9007199254740991

  // A number as the host language has it: an integer, or anything else.
  datatype Number = Integer(value: int) | NotAnInteger

  datatype Limits = Limits(maxBytes: int, mediaTypes: seq<string>)

  datatype TransferError =
    | BadAccess | BadPath | BadFilename | Unresolvable | Escapes
    | TooLarge | BadMediaType
    | DownloadFailed | NoByteStream | StreamExceeded | StreamBroke | CountDiffers
    | SourceChanged

  // ---- Names and metadata ------------------------------------------------------------

  predicate AlphaNumeric(c: char) {
    'a' <= c <= 'z' || 'A' <= c <= 'Z' || '0' <= c <= '9'
  }

  predicate PortableChar(c: char) {
    AlphaNumeric(c) || c == '.' || c == '_' || c == '-'
  }

  predicate PortableFilename(name: string) {
    && 1 <= |name| <= 128 && AlphaNumeric(name[0]) && (forall i :: 1 <= i < |name| ==> PortableChar(name[i]))
    && name != "." && name != ".."
  }

  // A portable name is one plain path segment, and not a hidden file. The two names excluded by
  // themselves are excluded already by how a name has to begin.
  lemma PortableIsPlain(name: string)
    ensures PortableFilename(name) ==> Plain(name) && name[0] != '.'
    ensures PortableFilename(name) <==>
              && 1 <= |name| <= 128 && name[0] != '.' && name[0] != '_' && name[0] != '-'
              && forall i :: 0 <= i < |name| ==>
                   'a' <= name[i] <= 'z' || 'A' <= name[i] <= 'Z' || '0' <= name[i] <= '9' || name[i] in "._-"
  {
  }

  function CheckFileMetadata(size: Number, mediaType: string, limits: Limits): Option<TransferError> {
    if size.NotAnInteger? || !(-MAX_SAFE_INTEGER <= size.value <= MAX_SAFE_INTEGER) || size.value < 0 || size.value > limits.maxBytes
    then Some(TooLarge)
    else if mediaType !in limits.mediaTypes then Some(BadMediaType)
    else None
  }

  // ---- Transfer paths ----------------------------------------------------------------

  datatype Access = Access(root: string, maxBytes: Option<int>, mediaTypes: seq<string>)

  predicate MediaTypeChar(c: char) {
    'a' <= c <= 'z' || '0' <= c <= '9' || c == '.' || c == '+' || c == '-'
  }

  predicate IsMediaType(mediaType: string) {
    var parts := Split(mediaType);
    |parts| == 2 && forall p :: p in parts ==> p != "" && forall c :: c in p ==> MediaTypeChar(c)
  }

  function ByteBound(access: Access, policyBound: Option<int>): int {
    var own := if access.maxBytes.Some? then access.maxBytes.value else MEBIBYTE;
    var policy := if policyBound.Some? then policyBound.value else 16 * MEBIBYTE;
    if own < policy then own else policy
  }

  predicate ValidAccess(access: Access, policyBound: Option<int>) {
    && IsAbsolute(access.root) && 1 <= ByteBound(access, policyBound) <= 16 * MEBIBYTE
    && access.mediaTypes != [] && forall t :: t in access.mediaTypes ==> IsMediaType(t)
  }

  predicate ValidRelative(relative: string) {
    && relative != "" && !IsAbsolute(relative) && '\\' !in relative
    && forall part :: part in Split(relative) ==> part != ".." && part != "." && part != ""
  }

  predicate StartsWith(s: string, prefix: string) {
    prefix <= s
  }

  // `realpath` resolves every symbolic link, or fails.
  function Target(access: Access, policyBound: Option<int>, relative: string, realpath: string -> Option<string>)
    : Result<(string, Limits), TransferError>
  {
    if !ValidAccess(access, policyBound) then Err(BadAccess)
    else if !ValidRelative(relative) then Err(BadPath)
    else if !PortableFilename(BaseName(relative)) then Err(BadFilename)
    else
      var root := realpath(access.root);
      if root.None? then Err(Unresolvable)
      else
        var target := JoinPaths(root.value, relative);
        var parent := realpath(DirName(target));
        if parent.None? then Err(Unresolvable)
        else if parent.value != DirName(target) || (parent.value != root.value && !StartsWith(parent.value, root.value + "/"))
        then Err(Escapes)
        else Ok((target, Limits(ByteBound(access, policyBound), access.mediaTypes)))
  }

  ghost predicate AnswersCanonically(realpath: string -> Option<string>) {
    forall p :: realpath(p).Some? ==> Canonical(realpath(p).value)
  }

  lemma ValidRelativeIsPlain(relative: string)
    requires ValidRelative(relative)
    ensures PlainRelative(relative)
  {
  }

  // A transfer path is one or more segments between single slashes, none of them empty, `.` or
  // `..`, and none with a backslash.
  lemma ValidRelativeExactly(relative: string)
    ensures ValidRelative(relative) <==>
              exists parts :: && parts != [] && relative == Join(parts)
                              && forall p :: p in parts ==> p != "" && p != "." && p != ".." && '/' !in p && '\\' !in p
  {
    if ValidRelative(relative) {
      JoinSplit(relative);
      forall p | p in Split(relative) ensures '\\' !in p {
        if '\\' in p {
          JoinHasChar(Split(relative), p, '\\');
        }
      }
    }
    if parts :| parts != [] && relative == Join(parts)
                && forall p :: p in parts ==> p != "" && p != "." && p != ".." && '/' !in p && '\\' !in p {
      SplitJoin(parts);
      assert parts[0] in parts && parts[0][0] in parts[0];
      JoinStartsWith(parts);
      if '\\' in relative {
        var p := CharOfJoin(parts, '\\');
      }
    }
  }

  lemma {:induction false} JoinHasChar(parts: seq<string>, p: string, c: char)
    requires p in parts && c in p
    ensures c in Join(parts)
  {
    if |parts| > 1 && p != parts[0] {
      assert parts == [parts[0]] + parts[1..];
      JoinHasChar(parts[1..], p, c);
    }
  }

  lemma {:induction false} CharOfJoin(parts: seq<string>, c: char) returns (p: string)
    requires c in Join(parts) && c != '/'
    ensures p in parts && c in p
  {
    if |parts| == 1 || c in parts[0] {
      p := parts[0];
    } else {
      p := CharOfJoin(parts[1..], c);
    }
  }

  // A media type is two words of the permitted characters around its one slash.
  predicate TwoWords(mediaType: string, i: nat) {
    && 0 < i < |mediaType| - 1 && mediaType[i] == '/'
    && forall k :: 0 <= k < |mediaType| && k != i ==>
         'a' <= mediaType[k] <= 'z' || '0' <= mediaType[k] <= '9' || mediaType[k] in ".+-"
  }

  lemma MediaTypeExactly(mediaType: string)
    ensures IsMediaType(mediaType) <==> exists i :: TwoWords(mediaType, i)
  {
    hide TwoWords, IsMediaType;
    if IsMediaType(mediaType) {
      MediaTypeIsTwoWords(mediaType);
    }
    if i :| TwoWords(mediaType, i) {
      TwoWordsAreMediaType(mediaType, i);
    }
  }

  lemma MediaTypeIsTwoWords(mediaType: string)
    requires IsMediaType(mediaType)
    ensures TwoWords(mediaType, |Split(mediaType)[0]|)
  {
    JoinSplit(mediaType);
    var parts := Split(mediaType);
    var a, b := parts[0], parts[1];
    assert parts == [a, b] && Join([b]) == b;
    assert a in parts && b in parts;
    hide Split, Join;
    assert mediaType == a + "/" + b;
    forall k | 0 <= k < |mediaType| && k != |a| ensures MediaTypeChar(mediaType[k]) {
      if k < |a| {
        assert mediaType[k] == a[k];
      } else {
        assert mediaType[k] == b[k - |a| - 1];
      }
    }
  }

  lemma TwoWordsAreMediaType(mediaType: string, i: nat)
    requires TwoWords(mediaType, i)
    ensures IsMediaType(mediaType)
  {
    var a, b := mediaType[..i], mediaType[i + 1..];
    assert mediaType == a + "/" + b;
    forall c | c in a || c in b ensures MediaTypeChar(c) && c != '/' {
      if c in a {
        var k :| 0 <= k < |a| && a[k] == c;
        assert mediaType[k] == c;
      } else {
        var k :| 0 <= k < |b| && b[k] == c;
        assert mediaType[i + 1 + k] == c;
      }
    }
    SplitConcat(a, b);
    SplitSegment(a);
    SplitSegment(b);
    hide Split, TwoWords;
  }

  // An accepted transfer names a file strictly below the resolved root, by the very segments
  // asked for, in a directory that no symbolic link leads to.
  lemma TargetIsContained(access: Access, policyBound: Option<int>, relative: string, realpath: string -> Option<string>)
    requires AnswersCanonically(realpath) && Target(access, policyBound, relative, realpath).Ok?
    ensures var root := realpath(access.root).value;
            var target := Target(access, policyBound, relative, realpath).value.0;
            target == Prefix(root) + relative && Below(target, root) && realpath(DirName(target)) == Some(DirName(target))
    ensures PortableFilename(BaseName(relative))
    // under the smaller of both bounds, which default to 1 MiB and 16 MiB, and with the access's types
    ensures var limits := Target(access, policyBound, relative, realpath).value.1;
            && limits.mediaTypes == access.mediaTypes != []
            && 1 <= limits.maxBytes <= 16 * 1048576
            && limits.maxBytes <= (if access.maxBytes.Some? then access.maxBytes.value else 1048576)
            && (policyBound.Some? ==> limits.maxBytes <= policyBound.value)
            && (|| Some(limits.maxBytes) == access.maxBytes || Some(limits.maxBytes) == policyBound
                || limits.maxBytes == if access.maxBytes.None? then 1048576 else 16 * 1048576)
  {
    ValidRelativeIsPlain(relative);
    JoinOfPlain(realpath(access.root).value, relative);
    JoinSplit(relative);
  }

  // The directory a path asks for, below a resolved root.
  function DirectoryAsked(root: string, relative: string): string {
    var parts := Split(relative);
    if |parts| == 1 then root else Prefix(root) + Join(parts[..|parts| - 1])
  }

  // Which transfers are accepted: those with a usable root, bound and media types, a path of
  // plain segments with a portable last one, and a directory that resolves to itself. Under
  // the root directory only files directly in it are.
  lemma TargetAcceptsExactly(access: Access, policyBound: Option<int>, relative: string, realpath: string -> Option<string>)
    requires AnswersCanonically(realpath)
    ensures Target(access, policyBound, relative, realpath).Ok? <==>
              && access.root != "" && access.root[0] == '/'
              && 1 <= ByteBound(access, policyBound) <= 16 * 1048576
              && access.mediaTypes != [] && (forall t :: t in access.mediaTypes ==> IsMediaType(t))
              && ValidRelative(relative)
              && PortableFilename(Split(relative)[|Split(relative)| - 1])
              && realpath(access.root).Some?
              && (var dir := DirectoryAsked(realpath(access.root).value, relative); realpath(dir) == Some(dir))
              && (realpath(access.root).value == "/" ==> |Split(relative)| == 1)
  {
    if ValidRelative(relative) {
      BaseOfPlain(relative);
      if realpath(access.root).Some? {
        ValidRelativeIsPlain(relative);
        DirNameOfJoin(realpath(access.root).value, relative);
        PrefixTestDecides(realpath(access.root).value, relative);
      }
    }
    hide Split, Join, DirName, BaseName, JoinPaths, ValidRelative, PortableFilename, IsMediaType, Canonical;
  }

  lemma BaseOfPlain(relative: string)
    requires ValidRelative(relative)
    ensures BaseName(relative) == Split(relative)[|Split(relative)| - 1]
  {
    ValidRelativeIsPlain(relative);
    EndsPlain(relative);
  }

  // For a path that passed the syntactic checks, the directory of the joined path lies under
  // the root by itself. So under any root but `/` the prefix test decides nothing, while
  // under `/` it refuses exactly the paths with more than one segment.
  lemma PrefixTestDecides(root: string, relative: string)
    requires Canonical(root) && ValidRelative(relative)
    ensures root == "/" || DirName(JoinPaths(root, relative)) == root || Below(DirName(JoinPaths(root, relative)), root)
    ensures DirName(JoinPaths(root, relative)) == root || StartsWith(DirName(JoinPaths(root, relative)), root + "/")
            <==> root != "/" || |Split(relative)| == 1
  {
    hide DirName, JoinPaths, Split, Canonical, Join, AllPlain, Prefix, ValidRelative, Below;
    ValidRelativeIsPlain(relative);
    DirNameOfJoin(root, relative);
    CanonicalIsAbsolute(root);
    var parts := Split(relative);
    if |parts| > 1 {
      SegmentsAbove(root, parts);
      StartsBelow(root, Join(parts[..|parts| - 1]));
    }
  }

  lemma SegmentsAbove(root: string, parts: seq<string>)
    requires |parts| > 1 && AllPlain(parts)
    ensures var up := Join(parts[..|parts| - 1]); up != "" && up[0] != '/' && Below(Prefix(root) + up, root)
  {
    var up := parts[..|parts| - 1];
    assert Plain(up[0]) && up[0][0] != '/';
    JoinStartsWith(up);
    hide Join, Prefix;
    assert AllPlain(up);
  }

  lemma StartsBelow(root: string, rest: string)
    requires root != "" && root[0] == '/' && (|root| == 1 ==> root == "/") && rest != "" && rest[0] != '/'
    ensures Prefix(root) + rest != root
    ensures StartsWith(Prefix(root) + rest, root + "/") <==> root != "/"
  {
    assert |Prefix(root) + rest| > |root|;
    if root == "/" {
      assert (Prefix(root) + rest)[1] == rest[0];
    }
  }

  lemma JoinStartsWith(parts: seq<string>)
    requires parts != [] && parts[0] != ""
    ensures Join(parts) != "" && Join(parts)[0] == parts[0][0]
  {
  }

  // ---- Reading a response ------------------------------------------------------------

  // The chunks a body delivers, and whether it then breaks instead of ending.
  datatype Body = Body(chunks: seq<seq<Byte>>, breaks: bool)

  datatype Response = Response(
    ok: bool, redirected: bool, status: int, mediaType: string, contentLength: Option<Number>, body: Option<Body>)

  datatype Download = Download(data: seq<Byte>, mediaType: string)

  function Concat(chunks: seq<seq<Byte>>): seq<Byte> {
    if chunks == [] then [] else Concat(chunks[..|chunks| - 1]) + chunks[|chunks| - 1]
  }

  // How many bytes the chunks hold together.
  function Lengths(chunks: seq<seq<Byte>>): nat {
    if chunks == [] then 0 else |chunks[0]| + Lengths(chunks[1..])
  }

  lemma {:induction false} LengthsSnoc(chunks: seq<seq<Byte>>, chunk: seq<Byte>)
    ensures Lengths(chunks + [chunk]) == Lengths(chunks) + |chunk|
  {
    if chunks == [] {
      assert chunks + [chunk] == [chunk];
    } else {
      LengthsSnoc(chunks[1..], chunk);
      assert (chunks + [chunk])[1..] == chunks[1..] + [chunk];
    }
  }

  // Concatenation keeps every byte: each chunk stands behind all earlier ones, and nothing else
  // is there.
  lemma EveryChunkHasItsPlace(chunks: seq<seq<Byte>>)
    ensures |Concat(chunks)| == Lengths(chunks)
    ensures forall j :: 0 <= j < |chunks| ==>
              && Lengths(chunks[..j]) + |chunks[j]| <= |Concat(chunks)|
              && Concat(chunks)[Lengths(chunks[..j])..Lengths(chunks[..j]) + |chunks[j]|] == chunks[j]
  {
    ConcatLength(chunks);
    forall j | 0 <= j < |chunks|
      ensures Lengths(chunks[..j]) + |chunks[j]| <= |Concat(chunks)|
      ensures Concat(chunks)[Lengths(chunks[..j])..Lengths(chunks[..j]) + |chunks[j]|] == chunks[j]
    {
      ChunkHasItsPlace(chunks, j);
    }
  }

  lemma {:induction false} ConcatLength(chunks: seq<seq<Byte>>)
    ensures |Concat(chunks)| == Lengths(chunks)
  {
    if chunks != [] {
      var init, last := chunks[..|chunks| - 1], chunks[|chunks| - 1];
      ConcatLength(init);
      assert chunks == init + [last];
      LengthsSnoc(init, last);
    }
  }

  lemma {:induction false} ChunkHasItsPlace(chunks: seq<seq<Byte>>, j: nat)
    requires j < |chunks|
    ensures Lengths(chunks[..j]) + |chunks[j]| <= |Concat(chunks)|
    ensures Concat(chunks)[Lengths(chunks[..j])..Lengths(chunks[..j]) + |chunks[j]|] == chunks[j]
  {
    var init, last := chunks[..|chunks| - 1], chunks[|chunks| - 1];
    assert Concat(chunks) == Concat(init) + last;
    hide Concat, Lengths;
    if j == |init| {
      assert chunks[..j] == init;
      ConcatLength(init);
    } else {
      assert chunks[..j] == init[..j] && chunks[j] == init[j];
      ChunkHasItsPlace(init, j);
      WithinFirst(Concat(init), last, Lengths(init[..j]), Lengths(init[..j]) + |init[j]|);
    }
  }

  lemma WithinFirst<T>(a: seq<T>, b: seq<T>, i: nat, k: nat)
    requires i <= k <= |a|
    ensures (a + b)[i..k] == a[i..k]
  {
  }

  function DeclaredSize(response: Response): Number {
    if response.contentLength.None? then Integer(0) else response.contentLength.value
  }

  // What reading a response comes to: the first thing wrong with it, or all its bytes.
  function Outcome(response: Response, limits: Limits): Result<Download, TransferError> {
    var metadata := CheckFileMetadata(DeclaredSize(response), response.mediaType, limits);
    if metadata.Some? then Err(metadata.value)
    else if !response.ok || response.redirected || response.status >= 300 then Err(DownloadFailed)
    else if response.body.None? then Err(NoByteStream)
    else
      var data := Concat(response.body.value.chunks);
      if |data| > limits.maxBytes then Err(StreamExceeded)
      else if response.body.value.breaks then Err(StreamBroke)
      else if response.contentLength.Some? && response.contentLength.value != Integer(|data|) then Err(CountDiffers)
      else Ok(Download(data, response.mediaType))
  }

  // The first thing wrong with a response, told from its fields: its declared length, its
  // type, its status, its body, the bytes that arrive, and their count. Otherwise every chunk
  // in its place, and nothing else.
  lemma ResponseVerdict(response: Response, limits: Limits)
    ensures var result := Outcome(response, limits);
            var declaredFits :=
              if response.contentLength.None? then 0 <= limits.maxBytes
              else && response.contentLength.value.Integer?
                   && 0 <= response.contentLength.value.value <= limits.maxBytes
                   && response.contentLength.value.value <= 9007199254740991;
            var typeFits := declaredFits && response.mediaType in limits.mediaTypes;
            var answered := typeFits && response.ok && !response.redirected && response.status < 300;
            var streams := answered && response.body.Some?;
            var bytes := if response.body.Some? then Lengths(response.body.value.chunks) else 0;
            var whole := streams && bytes <= limits.maxBytes && !response.body.value.breaks;
            && (result == Err(TooLarge) <==> !declaredFits)
            && (result == Err(BadMediaType) <==> declaredFits && !typeFits)
            && (result == Err(DownloadFailed) <==> typeFits && !answered)
            && (result == Err(NoByteStream) <==> answered && !streams)
            && (result == Err(StreamExceeded) <==> streams && bytes > limits.maxBytes)
            && (result == Err(StreamBroke) <==> streams && bytes <= limits.maxBytes && !whole)
            && (result == Err(CountDiffers) <==> whole && response.contentLength.Some? && response.contentLength.value != Integer(bytes))
            && (result.Ok? <==> whole && (response.contentLength.Some? ==> response.contentLength.value == Integer(bytes)))
  {
    if response.body.Some? {
      ConcatLength(response.body.value.chunks);
    }
    hide Concat, Lengths;
  }

  lemma NextChunk(chunks: seq<seq<Byte>>, n: nat)
    requires n < |chunks|
    ensures chunks[..n + 1] == chunks[..n] + [chunks[n]]
    ensures Lengths(chunks[..n + 1]) == Lengths(chunks[..n]) + |chunks[n]| <= Lengths(chunks)
  {
    hide Lengths;
    assert chunks[..n + 1] == chunks[..n] + [chunks[n]];
    LengthsSnoc(chunks[..n], chunks[n]);
    LengthsGrow(chunks, n + 1);
  }

  lemma {:induction false} LengthsGrow(chunks: seq<seq<Byte>>, n: nat)
    requires n <= |chunks|
    ensures Lengths(chunks[..n]) <= Lengths(chunks)
  {
    if n > 0 {
      LengthsGrow(chunks[1..], n - 1);
      assert chunks[..n][1..] == chunks[1..][..n - 1];
    }
  }

  // Takes chunks off a body while they keep to the bound.
  method ReadBody(body: Body, maxBytes: int) returns (result: Result<seq<Byte>, TransferError>, read: nat)
    requires 0 <= maxBytes
    ensures read <= |body.chunks|
    // before each read, what is held is within the bound
    ensures forall j :: 0 <= j < read ==> Lengths(body.chunks[..j]) <= maxBytes
    ensures result.Ok? <==> Lengths(body.chunks) <= maxBytes && !body.breaks
    ensures result.Ok? ==> result.value == Concat(body.chunks) && read == |body.chunks|
    ensures result.Err? ==> result.error == if Lengths(body.chunks) > maxBytes then StreamExceeded else StreamBroke
    ensures result == Err(StreamExceeded) ==> Lengths(body.chunks[..read]) > maxBytes
    ensures result == Err(StreamBroke) ==> read == |body.chunks|
  {
    read := 0;
    var chunks: seq<seq<Byte>>, bytes := [], 0;
    assert Lengths(chunks) == 0;
    hide Concat, Lengths;
    while read < |body.chunks|
      invariant read <= |body.chunks| && chunks == body.chunks[..read]
      invariant bytes == Lengths(chunks) <= maxBytes
      invariant forall j :: 0 <= j < read ==> Lengths(body.chunks[..j]) <= maxBytes
    {
      NextChunk(body.chunks, read);
      var value := body.chunks[read];
      bytes := bytes + |value|;
      read := read + 1;
      if bytes > maxBytes {
        result := Err(StreamExceeded);
        return;
      }
      chunks := chunks + [value];
    }
    assert chunks == body.chunks;
    if body.breaks {
      result := Err(StreamBroke);
      return;
    }
    result := Ok(Concat(chunks));
  }

  // `read` chunks were taken off the body; a body that is not read to its end is cancelled.
  method ReadFileResponse(response: Response, limits: Limits)
    returns (result: Result<Download, TransferError>, read: nat, cancelled: bool)
    ensures result == Outcome(response, limits)
    ensures result.Ok? <==>
              && response.mediaType in limits.mediaTypes
              && response.ok && !response.redirected && response.status < 300
              && response.body.Some? && !response.body.value.breaks
              && Lengths(response.body.value.chunks) <= limits.maxBytes
              && (response.contentLength.Some? ==>
                    && response.contentLength.value == Integer(Lengths(response.body.value.chunks))
                    && Lengths(response.body.value.chunks) <= 9007199254740991)
    ensures result.Ok? ==>
              var chunks, data := response.body.value.chunks, result.value.data;
              && result.value.mediaType == response.mediaType
              && |data| == Lengths(chunks)
              && forall j :: 0 <= j < |chunks| ==>
                   && Lengths(chunks[..j]) + |chunks[j]| <= |data|
                   && data[Lengths(chunks[..j])..Lengths(chunks[..j]) + |chunks[j]|] == chunks[j]
    ensures response.body.None? ==> read == 0
    ensures response.body.Some? ==>
              && read <= |response.body.value.chunks|
              && (forall j :: 0 <= j < read ==> Lengths(response.body.value.chunks[..j]) <= limits.maxBytes)
              && (cancelled || (read == |response.body.value.chunks| && !response.body.value.breaks))
    ensures cancelled <==> response.body.Some? && result.Err? && result.error != CountDiffers
  {
    ResponseVerdict(response, limits);
    read, cancelled := 0, false;
    var metadata := CheckFileMetadata(DeclaredSize(response), response.mediaType, limits);
    if metadata.Some? {
      cancelled := response.body.Some?;
      result := Err(metadata.value);
      return;
    }
    if !response.ok || response.redirected || response.status >= 300 {
      cancelled := response.body.Some?;
      result := Err(DownloadFailed);
      return;
    }
    if response.body.None? {
      result := Err(NoByteStream);
      return;
    }
    EveryChunkHasItsPlace(response.body.value.chunks);
    hide Concat, Lengths;
    var data;
    data, read := ReadBody(response.body.value, limits.maxBytes);
    if data.Err? {
      cancelled := true;
      result := Err(data.error);
      return;
    }
    if response.contentLength.Some? && response.contentLength.value != Integer(|data.value|) {
      result := Err(CountDiffers);
      return;
    }
    result := Ok(Download(data.value, response.mediaType));
  }

  // ---- Reading an upload -------------------------------------------------------------

  // The source file at one moment.
  datatype File = File(content: seq<Byte>, modified: int)

  // One operating-system read: at most `count` bytes at `position`, possibly fewer.
  function BytesRead(content: seq<Byte>, position: nat, count: nat, granted: nat): (n: nat)
    ensures n <= count && n <= |content|
    ensures n > 0 ==> position + n <= |content|
  {
    var available := if position < |content| then |content| - position else 0;
    var n := if count < available then count else available;
    if granted < n then granted else n
  }

  // A file whose modification time stays put has not been written to in between.
  ghost predicate TimesTell(file: nat -> File) {
    forall i: nat, j: nat, k: nat :: i <= j <= k && file(i).modified == file(k).modified ==> file(j).content == file(i).content
  }

  // Fills a buffer of the size seen first, then checks that the file is still the one seen.
  // `file(k)` is the file at the k-th access, `granted(k)` what that read is willing to give.
  method ReadUpload(file: nat -> File, granted: nat -> nat, mediaType: string, limits: Limits)
    returns (result: Result<seq<Byte>, TransferError>, accesses: nat)
    ensures accesses <= |file(0).content| + 2
    ensures result == Err(TooLarge) <==> |file(0).content| > limits.maxBytes || |file(0).content| > 9007199254740991
    ensures result == Err(BadMediaType) <==>
              |file(0).content| <= limits.maxBytes && |file(0).content| <= 9007199254740991 && mediaType !in limits.mediaTypes
    ensures result.Err? ==> result.error in {TooLarge, BadMediaType, SourceChanged}
    ensures result.Ok? ==> |result.value| == |file(0).content| <= limits.maxBytes
    ensures result.Ok? ==>
              |file(accesses).content| == |file(0).content| && file(accesses).modified == file(0).modified
    ensures result.Ok? && TimesTell(file) ==> result.value == file(0).content == file(accesses).content
    ensures (forall k: nat :: granted(k) > 0) && (forall k: nat :: file(k) == file(0)) ==>
              result != Err(SourceChanged)
  {
    accesses := 0;
    var stat := file(0);
    var size := |stat.content|;
    var metadata := CheckFileMetadata(Integer(size), mediaType, limits);
    if metadata.Some? {
      result := Err(metadata.value);
      return;
    }
    var data := new Byte[size](_ => 0);
    var position := 0;
    while position < data.Length
      invariant 0 <= position <= data.Length == size
      invariant accesses <= position
      invariant forall i :: 0 <= i < position ==>
                  exists k: nat :: k <= accesses && i < |file(k).content| && data[i] == file(k).content[i]
      decreases size - position
    {
      accesses := accesses + 1;
      var content := file(accesses).content;
      var bytesRead := BytesRead(content, position, data.Length - position, granted(accesses));
      if bytesRead == 0 {
        result := Err(SourceChanged);
        return;
      }
      ghost var before := data[..];
      forall i | position <= i < position + bytesRead {
        data[i] := content[i];
      }
      assert forall i :: 0 <= i < position ==> data[i] == before[i];
      position := position + bytesRead;
    }
    accesses := accesses + 1;
    var after := file(accesses);
    if |after.content| != size || after.modified != stat.modified {
      result := Err(SourceChanged);
      return;
    }
    result := Ok(data[..]);
  }
}
