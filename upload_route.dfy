/**
 * The image upload endpoint of src/app/api/upload/route.ts.
 *
 * `POST` reads the `file` part of the form, builds a unique name from the
 * current time and the sanitised original name, re-encodes the image as
 * JPEG and writes it under `public/uploads`, with the name's extension
 * rewritten to `.jpg`; it answers with the public URL of that file. The
 * clock is the parameter `now`; whether the image library can decode and
 * re-encode the bytes and the write succeeds is the parameter `converted`.
 */
module UploadRoute {
  import opened Wrappers
  import opened Strings

  /** The characters `[a-zA-Z0-9.-]` the sanitiser keeps. */
  predicate Allowed(c: char) {
    ('a' <= c <= 'z') || ('A' <= c <= 'Z') || ('0' <= c <= '9') || c == '.' || c == '-'
  }

  /** `name.replace(/[^a-zA-Z0-9.-]/g, '_')`. */
  function Sanitize(name: string): (r: string)
    ensures |r| == |name|
    ensures forall i :: 0 <= i < |r| ==> Allowed(r[i]) || r[i] == '_'
    ensures forall i :: 0 <= i < |name| && Allowed(name[i]) ==> r[i] == name[i]
    ensures forall i :: 0 <= i < |name| && !Allowed(name[i]) ==> r[i] == '_'
    decreases |name|
  {
    if name == [] then []
    else [if Allowed(name[0]) then name[0] else '_'] + Sanitize(name[1..])
  }

  /** Sanitising a sanitised name changes nothing. */
  lemma SanitizeIdempotent(name: string)
    ensures Sanitize(Sanitize(name)) == Sanitize(name)
  {
    var once := Sanitize(name);
    var twice := Sanitize(once);
    assert forall i :: 0 <= i < |twice| ==> twice[i] == once[i];
  }

  /** The unique name: the timestamp, a dash, then the sanitised original name. */
  function UniqueName(timestamp: nat, name: string): (r: string)
    ensures |r| == |NatToString(timestamp)| + 1 + |name|
    ensures r[..|NatToString(timestamp)|] == NatToString(timestamp)
    ensures r[|NatToString(timestamp)|] == '-'
    ensures r[|NatToString(timestamp)| + 1..] == Sanitize(name)
  {
    NatToString(timestamp) + "-" + Sanitize(name)
  }

  /**
   * Whether the `.` at `k` starts what `/\.[^/.]+$/` matches: at least one
   * character follows it, and none of those is a `.` or a `/`.
   */
  predicate ExtensionAt(s: string, k: int) {
    0 <= k < |s| - 1 && s[k] == '.'
    && forall j :: k < j < |s| ==> s[j] != '.' && s[j] != '/'
  }

  /** At most one position starts an extension. */
  lemma ExtensionAtUnique(s: string, k1: int, k2: int)
    requires ExtensionAt(s, k1) && ExtensionAt(s, k2)
    ensures k1 == k2
  {
  }

  /** Scans backwards from `j` for the extension's dot, over a tail free of `.` and `/`. */
  function FindExtension(s: string, j: nat): (r: Option<nat>)
    requires j <= |s|
    requires forall i :: j <= i < |s| ==> s[i] != '.' && s[i] != '/'
    ensures r.Some? ==> ExtensionAt(s, r.value)
    ensures r.None? ==> forall k :: 0 <= k < j ==> !ExtensionAt(s, k)
    decreases j
  {
    if j == 0 then None
    else if s[j - 1] == '/' then None
    else if s[j - 1] == '.' then (if j < |s| then Some(j - 1) else None)
    else FindExtension(s, j - 1)
  }

  /** Where the name's extension starts, if it has one. */
  function ExtensionStart(s: string): (r: Option<nat>)
    ensures r.Some? ==> ExtensionAt(s, r.value)
    ensures r.None? ==> forall k :: !ExtensionAt(s, k)
  {
    FindExtension(s, |s|)
  }

  /** `s.replace(/\.[^/.]+$/, '.jpg')`. */
  function AsJpeg(s: string): (r: string)
    ensures forall k :: ExtensionAt(s, k) ==> r == s[..k] + ".jpg"
    ensures (forall k :: !ExtensionAt(s, k)) ==> r == s
  {
    match ExtensionStart(s)
    case None => s
    case Some(k) =>
      forall k' | ExtensionAt(s, k') ensures k' == k {
        ExtensionAtUnique(s, k, k');
      }
      s[..k] + ".jpg"
  }

  /** A name with an extension keeps its stem and ends in `.jpg`; one without is left as it is. */
  lemma AsJpegShape(s: string)
    ensures ExtensionStart(s).Some? ==>
      var r := AsJpeg(s); |r| >= 4 && r[|r| - 4..] == ".jpg"
    ensures ExtensionStart(s).None? ==> AsJpeg(s) == s
  {
    if ExtensionStart(s).Some? {
      var k := ExtensionStart(s).value;
      assert AsJpeg(s) == s[..k] + ".jpg";
      assert (s[..k] + ".jpg")[k..] == ".jpg";
    }
  }

  /** Rewriting the extension twice is the same as rewriting it once. */
  lemma AsJpegIdempotent(s: string)
    ensures AsJpeg(AsJpeg(s)) == AsJpeg(s)
  {
    match ExtensionStart(s)
    case None =>
    case Some(k) =>
      var r := s[..k] + ".jpg";
      assert AsJpeg(s) == r;
      assert ExtensionAt(r, k);
  }

  /** The rewrite adds no `/`. */
  lemma AsJpegNoSlash(s: string)
    requires NoneIn(s, '/')
    ensures NoneIn(AsJpeg(s), '/')
  {
    match ExtensionStart(s)
    case None =>
    case Some(k) =>
      var r := s[..k] + ".jpg";
      assert AsJpeg(s) == r;
      assert forall i :: 0 <= i < |r| ==> (i < k ==> r[i] == s[i]) && (i >= k ==> r[i] in ".jpg");
  }

  /**
   * The stored file name contains no `/` whatever the client sends, so the
   * file is written directly inside the uploads directory.
   */
  lemma StoredNameStaysInDirectory(timestamp: nat, name: string)
    ensures NoneIn(AsJpeg(UniqueName(timestamp, name)), '/')
  {
    var u := UniqueName(timestamp, name);
    var digits := NatToString(timestamp);
    assert forall i :: 0 <= i < |u| ==> u[i] != '/' by {
      forall i | 0 <= i < |u| ensures u[i] != '/' {
        if i < |digits| {
          assert u[i] == digits[i];
        } else if i > |digits| {
          assert u[i] == Sanitize(name)[i - |digits| - 1];
        }
      }
    }
    AsJpegNoSlash(u);
  }

  /** The value under the form's `file` key. */
  datatype FormValue = Absent | TextPart(text: string) | FilePart(name: string)

  /** The answer, with the path written relative to the working directory. */
  datatype UploadResponse =
    | Uploaded(savedTo: string, url: string)
    | JsonError(status: nat, error: string)

  /**
   * `POST /api/upload`. A missing or empty value is refused with 400; a text
   * value has no `name`, so reading it throws and lands in the 500 branch,
   * as does an image that cannot be converted or written.
   */
  function Post(file: FormValue, now: nat, converted: bool): (r: UploadResponse)
    ensures (file.Absent? || file == TextPart("")) <==> r == JsonError(400, "No file uploaded")
    ensures r.Uploaded? <==> file.FilePart? && converted
  {
    match file
    case Absent => JsonError(400, "No file uploaded")
    case TextPart(text) =>
      if text == "" then JsonError(400, "No file uploaded") else JsonError(500, "Failed to upload file")
    case FilePart(name) =>
      var filename := UniqueName(now, name);
      if !converted then JsonError(500, "Failed to upload file")
      else Uploaded("public/uploads/" + AsJpeg(filename), "/uploads/" + AsJpeg(filename))
  }

  /**
   * The public URL names the file that was written: both end in the same
   * rewritten name, which holds no `/`.
   */
  lemma UrlMatchesSavedFile(name: string, now: nat)
    ensures var r := Post(FilePart(name), now, true);
      r.Uploaded?
      && r.savedTo == "public/uploads/" + AsJpeg(UniqueName(now, name))
      && r.url == "/uploads/" + AsJpeg(UniqueName(now, name))
      && NoneIn(AsJpeg(UniqueName(now, name)), '/')
  {
    StoredNameStaysInDirectory(now, name);
  }
}
