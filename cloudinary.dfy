/**
 * `getPublicIdFromUrl`, which both `src/lib/cloudinary-utils.js` and `src/lib/cloudinary.js` define with
 * the same body: the path after the `upload` segment of a Cloudinary delivery URL, without the version
 * folder and without the file extension.
 */
module CloudinaryPublicId {
  import opened Wrappers
  import opened Text

  predicate IsDigit(c: char) { '0' <= c <= '9' }

  /** The length of the run of decimal digits that starts `s`. */
  function LeadingDigits(s: string): (n: nat)
    ensures n <= |s| && (forall i :: 0 <= i < n ==> IsDigit(s[i])) && (n < |s| ==> !IsDigit(s[n]))
  {
    if s != [] && IsDigit(s[0]) then 1 + LeadingDigits(s[1..]) else 0
  }

  /** `s.replace(/^v\d+\//, "")`. */
  function StripVersion(s: string): (r: string)
    ensures |r| <= |s| && r == s[|s| - |r|..]
  {
    if s != [] && s[0] == 'v' && LeadingDigits(s[1..]) > 0 && LeadingDigits(s[1..]) + 1 < |s|
       && s[LeadingDigits(s[1..]) + 1] == '/'
    then s[LeadingDigits(s[1..]) + 2..]
    else s
  }

  /** The index of the last occurrence of `c` in `s`, or -1. */
  function LastIndex(s: string, c: char): (i: int)
    ensures -1 <= i < |s|
    ensures i >= 0 ==> s[i] == c
    ensures forall j :: i < j < |s| ==> s[j] != c
  {
    if s == [] then -1
    else if s[|s| - 1] == c then |s| - 1
    else LastIndex(s[..|s| - 1], c)
  }

  /**
   * `s.replace(/\.[^/.]+$/, "")`: a match must start at a dot that no other dot follows, so the only
   * candidate is the last dot, and it matches when a non-empty run without "/" follows it.
   */
  function StripExtension(s: string): (r: string)
    ensures |r| <= |s| && r == s[..|r|]
  {
    var k := LastIndex(s, '.');
    if k >= 0 && k + 1 < |s| && '/' !in s[k + 1..] then s[..k] else s
  }

  function PublicIdFromUrl(url: Option<string>): (r: Option<string>)
    ensures r.Some? <==> Truthy(url) && Contains(url.value, "cloudinary.com") && "upload" in Split(url.value, '/')
  {
    if !Truthy(url) then None
    else if !Contains(url.value, "cloudinary.com") then None
    else
      var parts := Split(url.value, '/');
      var k := IndexOf(parts, "upload");
      if k == -1 then None
      else Some(StripExtension(StripVersion(Join(parts[k + 1..], '/'))))
  }

  // ---- properties ----

  /** The version folder `v<digits>/` is removed, and nothing after it. */
  lemma StripVersionRemovesFolder(digits: string, rest: string)
    requires digits != [] && forall i :: 0 <= i < |digits| ==> IsDigit(digits[i])
    ensures StripVersion("v" + digits + "/" + rest) == rest
  {
    var s := "v" + digits + "/" + rest;
    assert s[1..] == digits + "/" + rest;
    assert ("/" + rest)[0] == '/';
    LeadingDigitsOf(digits, "/" + rest);
    assert s[1..] == digits + ("/" + rest);
    assert s[|digits| + 2..] == rest;
  }

  lemma {:induction false} LeadingDigitsOf(digits: string, rest: string)
    requires forall i :: 0 <= i < |digits| ==> IsDigit(digits[i])
    requires rest == [] || !IsDigit(rest[0])
    ensures LeadingDigits(digits + rest) == |digits|
  {
    if digits != [] {
      assert (digits + rest)[1..] == digits[1..] + rest;
      LeadingDigitsOf(digits[1..], rest);
    }
  }

  /** A path that does not start with a version folder is left alone. */
  lemma StripVersionKeepsPlainPath(s: string)
    requires s == [] || s[0] != 'v'
    ensures StripVersion(s) == s
  {
  }

  /** Exactly one extension is removed: appending `.ext` and stripping gives the base back, dots and all. */
  lemma StripExtensionRemovesOne(base: string, ext: string)
    requires ext != [] && '/' !in ext && '.' !in ext
    ensures StripExtension(base + "." + ext) == base
  {
    var s := base + "." + ext;
    assert s[|base|] == '.';
    assert s[|base| + 1..] == ext;
    assert LastIndex(s, '.') == |base|;
    assert s[..|base|] == base;
  }

  /** A name whose last dot is followed by a "/" (or nothing) keeps everything. */
  lemma StripExtensionNeedsAName(s: string)
    requires LastIndex(s, '.') == -1 || LastIndex(s, '.') == |s| - 1 || '/' in s[LastIndex(s, '.') + 1..]
    ensures StripExtension(s) == s
  {
  }

  /**
   * For a Cloudinary URL whose first "upload" segment is the one after `prefix`, the public id is the
   * rest of the path without the version folder and the extension.
   */
  lemma PublicIdAfterUpload(prefix: string, rest: string)
    requires Contains(prefix, "cloudinary.com")
    requires "upload" !in Split(prefix, '/')
    ensures PublicIdFromUrl(Some(prefix + "/upload/" + rest)) == Some(StripExtension(StripVersion(rest)))
  {
    var url := prefix + "/upload/" + rest;
    assert url[..|prefix|] == prefix;
    ContainsPrefix(url, prefix, "cloudinary.com");
    UploadSegment(prefix, rest);
    var parts := Split(url, '/');
    var k := |Split(prefix, '/')|;
    IndexOfAfter(Split(prefix, '/'), "upload", Split(rest, '/'));
    assert parts[k + 1..] == Split(rest, '/');
    JoinSplit(rest, '/');
  }

  /** The path splits into the pieces before "/upload/", the "upload" segment, and the pieces after. */
  lemma UploadSegment(prefix: string, rest: string)
    ensures Split(prefix + "/upload/" + rest, '/') == Split(prefix, '/') + ["upload"] + Split(rest, '/')
  {
    var tail := "upload" + ['/'] + rest;
    assert prefix + "/upload/" + rest == prefix + ['/'] + tail;
    SplitConcat(prefix, tail, '/');
    SplitConcat("upload", rest, '/');
    assert Split("upload", '/') == ["upload"] by {
      assert '/' !in "upload";
    }
    SeqAssoc(Split(prefix, '/'), ["upload"], Split(rest, '/'));
  }

  lemma {:induction false} ContainsPrefix(s: string, prefix: string, t: string)
    requires |prefix| <= |s| && s[..|prefix|] == prefix && Contains(prefix, t)
    ensures Contains(s, t)
    decreases |prefix|
  {
    if prefix[..|t|] != t {
      assert s[1..][..|prefix| - 1] == prefix[1..];
      ContainsPrefix(s[1..], prefix[1..], t);
    }
  }

  /**
   * The documented URL format, `<prefix>/upload/v<digits>/<folder>/<id>.<ext>`, gives `<folder>/<id>`;
   * for instance `…/image/upload/v123/folder/id.jpg` gives `folder/id`.
   */
  lemma DocumentedFormat(prefix: string, digits: string, folder: string, id: string, ext: string)
    requires Contains(prefix, "cloudinary.com") && "upload" !in Split(prefix, '/')
    requires digits != [] && forall i :: 0 <= i < |digits| ==> IsDigit(digits[i])
    requires ext != [] && '/' !in ext && '.' !in ext
    ensures PublicIdFromUrl(Some(prefix + "/upload/v" + digits + "/" + folder + "/" + id + "." + ext))
         == Some(folder + "/" + id)
  {
    var path := folder + "/" + id + "." + ext;
    var rest := "v" + digits + "/" + path;
    assert prefix + "/upload/v" + digits + "/" + folder + "/" + id + "." + ext == prefix + "/upload/" + rest;
    PublicIdAfterUpload(prefix, rest);
    StripVersionRemovesFolder(digits, path);
    assert path == (folder + "/" + id) + "." + ext;
    StripExtensionRemovesOne(folder + "/" + id, ext);
  }
}
