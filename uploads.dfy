/** The two upload configurations of the API server: `utils/upload.js`
    (exact extension check) and `middleware/uploadMiddleware.js` (regular
    expression on the extension and the MIME type, used for profile images).
    Both cap a file at 5 MB and name the stored file from the original name. */
module Uploads {
  import opened Common

  /** `5 * 1024 * 1024` bytes. */
  const MaxFileSize: nat := 5 * 1024 * 1024

  const ExactFilterError: string := "Only .jpg, .jpeg, and .png files are allowed"
  const PatternFilterError: string := "Only images (jpg, jpeg, png) are allowed"

  const ImageExtensions: set<string> := {".jpg", ".jpeg", ".png"}

  // ---------------------------------------------------------------------------
  // Node's path.extname (POSIX)
  // ---------------------------------------------------------------------------

  /** The last path segment once trailing slashes are dropped. */
  function Basename(path: string): (b: string)
    ensures '/' !in b && IsSuffix(b, RStripSlash(path))
  {
    var p := RStripSlash(path);
    match LastIndexOf(p, '/')
    case None => p
    case Some(k) => p[k + 1..]
  }

  /** The extension of a slash-free name: from its last '.' to the end, or ""
      when there is no '.', when the '.' is the first character (".bashrc"),
      or when the name is "..". */
  function ExtOfBase(b: string): (ext: string)
    ensures ext == [] || (ext[0] == '.' && '.' !in ext[1..] && IsSuffix(ext, b) && |ext| < |b|)
  {
    match LastIndexOf(b, '.')
    case None => ""
    case Some(d) => if d == 0 || b == ".." then "" else b[d..]
  }

  /** `path.extname(p)`. */
  function ExtName(path: string): (ext: string)
    ensures ext == [] || (ext[0] == '.' && '.' !in ext[1..] && '/' !in ext && IsSuffix(ext, RStripSlash(path)))
  {
    var b := Basename(path);
    var ext := ExtOfBase(b);
    assert ext != [] ==> ext == b[|b| - |ext|..];
    ext
  }

  /** A name without slashes is its own base name. */
  lemma ExtNameOfPlainName(s: string)
    requires '/' !in s
    ensures ExtName(s) == ExtOfBase(s)
  {
    assert s == [] || s[|s| - 1] != '/';
  }

  /** The last occurrence of `c` in `p + s` is in `s` when `s` has one. */
  lemma LastIndexOfAppendHit(p: string, s: string, c: char)
    requires c in s
    ensures LastIndexOf(p + s, c).Some? && LastIndexOf(p + s, c).value == |p| + LastIndexOf(s, c).value
  {
    var ps := p + s;
    var j: nat := LastIndexOf(s, c).value;
    var k: nat := |p| + j;
    assert k < |ps| && ps[k] == c;
    assert ps[k + 1..] == s[j + 1..];
    assert c !in ps[k + 1..];
    LastIndexOfUnique(ps, c, k);
  }

  /** With no `c` in `s`, the last occurrence of `c` in `p + s` is the one in `p`. */
  lemma LastIndexOfAppendMiss(p: string, s: string, c: char)
    requires c !in s
    ensures LastIndexOf(p + s, c) == LastIndexOf(p, c)
  {
    var ps := p + s;
    var r := LastIndexOf(p, c);
    if r.None? {
      forall i | 0 <= i < |ps| ensures ps[i] != c {
        if i < |p| {
          assert ps[i] == p[i];
        } else {
          assert ps[i] == s[i - |p|];
        }
      }
    } else {
      var j := r.value;
      assert ps[j] == p[j];
      assert ps[j + 1..] == p[j + 1..] + s;
      LastIndexOfUnique(ps, c, j);
    }
  }

  /** A name longer than two characters whose last '.' is not its first
      character has the extension from that '.'. */
  lemma ExtOfBaseAt(b: string, d: nat)
    requires LastIndexOf(b, '.').Some? && LastIndexOf(b, '.').value == d
    requires d != 0 && |b| > 2
    ensures ExtOfBase(b) == b[d..]
  {
    assert b != "..";
  }

  /** Prefixing a name that has an extension keeps that extension. */
  lemma ExtOfBaseKeptUnderPrefix(prefix: string, name: string)
    requires prefix != [] && ExtOfBase(name) != ""
    ensures ExtOfBase(prefix + name) == ExtOfBase(name)
  {
    var full := prefix + name;
    var d: nat := LastIndexOf(name, '.').value;
    assert ExtOfBase(name) == name[d..] && d != 0;
    LastIndexOfAppendHit(prefix, name, '.');
    var e: nat := |prefix| + d;
    ExtOfBaseAt(full, e);
    DropAppend(prefix, name, d);
  }

  /** Prefixing a slash-free name with a non-empty slash-free text keeps its
      extension, provided the name has one. */
  lemma ExtNameKeptUnderPrefix(prefix: string, name: string)
    requires '/' !in prefix && '/' !in name && prefix != []
    requires ExtName(name) != ""
    ensures ExtName(prefix + name) == ExtName(name)
  {
    ExtNameOfPlainName(name);
    assert '/' !in prefix + name;
    ExtNameOfPlainName(prefix + name);
    ExtOfBaseKeptUnderPrefix(prefix, name);
  }

  /** Appending a slash-free extension to a slash-free, dot-free text gives a
      name with exactly that extension. */
  lemma ExtNameOfAppendedExt(stem: string, ext: string)
    requires '/' !in stem && '.' !in stem && stem != []
    requires ext == [] || (ext[0] == '.' && '.' !in ext[1..] && '/' !in ext)
    ensures ExtName(stem + ext) == ext
  {
    assert '/' !in stem + ext;
    ExtNameOfPlainName(stem + ext);
    ExtOfBaseOfAppendedExt(stem, ext);
  }

  /** The same for a slash-free name: a dot-free stem contributes no '.'. */
  lemma ExtOfBaseOfAppendedExt(stem: string, ext: string)
    requires '.' !in stem && stem != []
    requires ext == [] || (ext[0] == '.' && '.' !in ext[1..])
    ensures ExtOfBase(stem + ext) == ext
  {
    if ext == [] {
      assert stem + ext == stem;
    } else {
      LastIndexOfUnique(ext, '.', 0);
      LastIndexOfAppendHit(stem, ext, '.');
      assert (stem + ext)[|stem|..] == ext;
      assert (stem + ext)[0] == stem[0];
    }
  }

  // ---------------------------------------------------------------------------
  // The two filters
  // ---------------------------------------------------------------------------

  /** `fileFilter` of `utils/upload.js`: the lower-cased extension is exactly
      ".jpg", ".jpeg" or ".png". Every name it accepts has an extension that
      the pattern of the other filter matches. */
  predicate ExactFilter(originalName: string): (ok: bool)
    ensures ok <==> Lower(ExtName(originalName)) in ImageExtensions
    ensures ok ==> ExtName(originalName) != "" && MatchesImagePattern(Lower(ExtName(originalName)))
  {
    var e := Lower(ExtName(originalName));
    if e in ImageExtensions then
      ImageExtensionMatchesPattern(e);
      true
    else false
  }

  /** `/jpg|jpeg|png/.test(s)`: an unanchored regular expression matches when
      one of the alternatives occurs anywhere in `s`. */
  predicate MatchesImagePattern(s: string)
  {
    Contains(s, "jpg") || Contains(s, "jpeg") || Contains(s, "png")
  }

  /** `checkFileType` of `middleware/uploadMiddleware.js` as written: the
      pattern must occur in the lower-cased extension and in the MIME type as
      sent (not lower-cased). A name without an extension of at least three
      characters is refused, and every name the exact filter accepts passes
      when the MIME type matches. */
  predicate PatternFilter(originalName: string, mimeType: string): (ok: bool)
    ensures ok ==> |ExtName(originalName)| >= 3
    ensures ExactFilter(originalName) && MatchesImagePattern(mimeType) ==> ok
  {
    MatchesImagePattern(Lower(ExtName(originalName))) && MatchesImagePattern(mimeType)
  }

  /** Each of the three image extensions contains a match of the pattern. */
  lemma ImageExtensionMatchesPattern(e: string)
    requires e in ImageExtensions
    ensures MatchesImagePattern(e)
  {
    if e == ".jpg" {
      assert OccursAt(e, "jpg", 1);
    } else if e == ".jpeg" {
      assert OccursAt(e, "jpeg", 1);
    } else {
      assert OccursAt(e, "png", 1);
    }
  }

  /** The pattern is a substring test: ".pngx" with MIME type "image/png" is
      accepted by `checkFileType`, though it is no image extension, and the
      exact filter refuses it. */
  lemma PatternFilterAcceptsPngx()
    ensures PatternFilter("photo.pngx", "image/png")
    ensures !ExactFilter("photo.pngx")
  {
    PngxExtension();
    PngxMatchesPattern();
  }

  lemma PngxExtension()
    ensures ExtName("photo.pngx") == ".pngx"
  {
    assert "photo.pngx" == "photo" + ".pngx";
    ExtNameOfAppendedExt("photo", ".pngx");
  }

  lemma PngxMatchesPattern()
    ensures Lower(".pngx") == ".pngx" && ".pngx" !in ImageExtensions
    ensures MatchesImagePattern(".pngx") && MatchesImagePattern("image/png")
  {
    LowerOfLowerCase(".pngx");
    var e := ".pngx";
    assert e[1..4] == "png";
    assert OccursAt(e, "png", 1);
    var m := "image/png";
    assert m[6..9] == "png";
    assert OccursAt(m, "png", 6);
  }

  // ---------------------------------------------------------------------------
  // Accepting a file
  // ---------------------------------------------------------------------------

  /** What multer does with one file. */
  datatype UploadResult = Stored(filename: string) | Refused(error: string) | TooLarge

  /** `utils/upload.js`: the filter runs first, then the size limit; an
      accepted file is stored as "<timestamp>-<random>-<original name>". */
  function GeneralUpload(originalName: string, size: nat, now: nat, random: nat): (r: UploadResult)
    ensures r.Stored? <==> ExactFilter(originalName) && size <= MaxFileSize
    ensures r.Refused? <==> !ExactFilter(originalName)
    ensures r.Refused? ==> r.error == ExactFilterError
    ensures r.Stored? ==> r.filename == GeneralStoredName(originalName, now, random)
  {
    if !ExactFilter(originalName) then Refused(ExactFilterError)
    else if size > MaxFileSize then TooLarge
    else Stored(GeneralStoredName(originalName, now, random))
  }

  /** A decimal rendering holds neither '/' nor '.'. */
  lemma DigitsHaveNoSeparator(digits: string)
    requires forall i :: 0 <= i < |digits| ==> '0' <= digits[i] <= '9'
    ensures '/' !in digits && '.' !in digits
  {
  }

  /** The `filename` callback of `utils/upload.js`: the timestamp, a dash,
      and the whole original name at the end. */
  function GeneralStoredName(originalName: string, now: nat, random: nat): (r: string)
    ensures IsPrefix(NatToString(now) + "-", r)
    ensures IsSuffix(originalName, r)
  {
    NatToString(now) + "-" + NatToString(random) + "-" + originalName
  }

  /** The stored name keeps the extension of the original name (so it still
      passes the filter) when the original name is a plain file name. */
  lemma GeneralStoredNameKeepsOriginal(originalName: string, now: nat, random: nat)
    ensures '/' !in originalName && ExtName(originalName) != "" ==>
      ExtName(GeneralStoredName(originalName, now, random)) == ExtName(originalName)
  {
    if '/' !in originalName && ExtName(originalName) != "" {
      var a := NatToString(now);
      var b := NatToString(random);
      DigitsHaveNoSeparator(a);
      DigitsHaveNoSeparator(b);
      var prefix := a + "-" + b + "-";
      assert '/' !in prefix by {
        assert forall c :: c in prefix ==> c in a || c == '-' || c in b;
      }
      assert GeneralStoredName(originalName, now, random) == prefix + originalName;
      ExtNameKeptUnderPrefix(prefix, originalName);
    }
  }

  /** `middleware/uploadMiddleware.js`: `checkFileType` runs first, then the
      size limit; an accepted file is stored as "<field>-<timestamp><ext>". */
  function ProfileUpload(fieldName: string, originalName: string, mimeType: string, size: nat, now: nat)
    : (r: UploadResult)
    ensures r.Stored? <==> PatternFilter(originalName, mimeType) && size <= MaxFileSize
    ensures r.Refused? <==> !PatternFilter(originalName, mimeType)
    ensures r.Refused? ==> r.error == PatternFilterError
    ensures r.Stored? ==> r.filename == ProfileStoredName(fieldName, originalName, now)
  {
    if !PatternFilter(originalName, mimeType) then Refused(PatternFilterError)
    else if size > MaxFileSize then TooLarge
    else Stored(ProfileStoredName(fieldName, originalName, now))
  }

  /** The `filename` callback of `middleware/uploadMiddleware.js`: the field
      name and a dash first, the original extension last. */
  function ProfileStoredName(fieldName: string, originalName: string, now: nat): (r: string)
    ensures IsPrefix(fieldName + "-", r)
    ensures IsSuffix(ExtName(originalName), r)
  {
    fieldName + "-" + NatToString(now) + ExtName(originalName)
  }

  /** The stored profile image keeps the original extension, in its original
      case, for a field name without '.' or '/' (such as "profileImage"). */
  lemma ProfileStoredNameKeepsExtension(fieldName: string, originalName: string, now: nat)
    requires '/' !in fieldName && '.' !in fieldName
    ensures ExtName(ProfileStoredName(fieldName, originalName, now)) == ExtName(originalName)
  {
    var stem := fieldName + "-" + NatToString(now);
    assert ProfileStoredName(fieldName, originalName, now) == stem + ExtName(originalName);
    DigitsHaveNoSeparator(NatToString(now));
    assert '/' !in stem && '.' !in stem;
    ExtNameOfAppendedExt(stem, ExtName(originalName));
  }
}
