/** The upload helpers of the backend: the extension of a file name, whether it may be
    uploaded, the stored name of an upload, and the file name an image URL points to. */
module FileUtils {
  import opened Wrappers
  import opened Text
  import Config
  import ImageRef

  // ---------------------------------------------------------------------------
  // Searching in strings

  /** The position of the last `c` in `s`, or -1. */
  function LastIndex(s: string, c: char): (i: int)
    ensures -1 <= i < |s|
    ensures i >= 0 ==> s[i] == c
    ensures forall j :: i < j < |s| ==> s[j] != c
  {
    if s == [] then -1
    else if s[|s| - 1] == c then |s| - 1
    else LastIndex(s[..|s| - 1], c)
  }

  /** The position of the first `c` in `s`, or `|s|`. */
  function IndexOf(s: string, c: char): (i: nat)
    ensures i <= |s|
    ensures i < |s| ==> s[i] == c
    ensures forall j :: 0 <= j < i ==> s[j] != c
  {
    if s == [] then 0
    else if s[0] == c then 0
    else 1 + IndexOf(s[1..], c)
  }

  /** `c` does not occur in `s`. */
  predicate Without(s: string, c: char) {
    forall i :: 0 <= i < |s| ==> s[i] != c
  }

  // ---------------------------------------------------------------------------
  // Extensions

  /** `s` ends in something pathlib ignores: a '/', or a '.' that is a whole component. */
  predicate EndsInEmpty(s: string) {
    s != [] && (s[|s| - 1] == '/' || (s[|s| - 1] == '.' && (|s| == 1 || s[|s| - 2] == '/')))
  }

  /** `s` without what pathlib ignores at its end: trailing '/' characters and '.'
      components, down to nothing for a path that is only '.'. */
  function DropTrailingEmpty(s: string): (r: string)
    ensures |r| <= |s| && r == s[..|r|] && !EndsInEmpty(r)
  {
    if EndsInEmpty(s) then DropTrailingEmpty(s[..|s| - 1]) else s
  }

  /** `Path(p).name`: the last component of the path that is not '.', or empty when there
      is none. */
  function BaseName(p: string): (name: string)
    ensures Without(name, '/')
    ensures name != "."
  {
    var t := DropTrailingEmpty(p);
    LastComponentNotDot(t);
    t[LastIndex(t, '/') + 1..]
  }

  /** The last component of a path that does not end in an ignored part is not '.'. */
  lemma LastComponentNotDot(t: string)
    requires !EndsInEmpty(t)
    ensures t[LastIndex(t, '/') + 1..] != "."
  {
    var i := LastIndex(t, '/');
    if i >= 0 && |t| == i + 2 {
      assert t[|t| - 2] == '/';
    }
  }

  /** A trailing '/' or '/.' does not change the name, as pathlib drops both. */
  lemma TrailingEmptyIgnored(p: string)
    ensures BaseName(p + "/") == BaseName(p)
    ensures BaseName(p + "/.") == BaseName(p)
  {
    var q, r := p + "/", p + "/.";
    assert EndsInEmpty(q) && q[..|q| - 1] == p;
    assert EndsInEmpty(r) && r[..|r| - 1] == q;
  }

  /** The extension of a path is that of its last component that is not '.': a trailing
      '/' or '/.' leaves it as it is, so 'a.png/.' has the extension of 'a.png'. */
  lemma TrailingEmptyKeepsExtension(p: string)
    ensures GetFileExtension(p + "/") == GetFileExtension(p)
    ensures GetFileExtension(p + "/.") == GetFileExtension(p)
  {
    TrailingEmptyIgnored(p);
  }

  /** `Path(p).suffix` of a name: from its last '.' on, when that dot is neither the first
      nor the last character; otherwise empty. */
  function Suffix(name: string): (r: string)
    ensures r == [] || (|r| >= 2 && r[0] == '.' && Without(r[1..], '.'))
    ensures Without(name, '/') ==> Without(r, '/')
  {
    var i := LastIndex(name, '.');
    if 0 < i < |name| - 1 then name[i..] else ""
  }

  /** `s.lstrip(".")`. */
  function StripLeadingDots(s: string): (r: string)
    ensures |r| <= |s| && r == s[|s| - |r|..] && (r == [] || r[0] != '.')
  {
    if s != [] && s[0] == '.' then StripLeadingDots(s[1..]) else s
  }

  /** `get_file_extension(filename)`: the suffix of the file name without its dot, in lower
      case; empty when the name has none. */
  function GetFileExtension(filename: string): (ext: string)
    ensures Without(ext, '.') && Without(ext, '/')
    ensures Lower(ext) == ext
  {
    var bare := StripLeadingDots(Suffix(BaseName(filename)));
    BareSuffixChars(BaseName(filename));
    LowerKeepsPunctuation(bare);
    Lower(bare)
  }

  /** The suffix of a name without its dot holds neither '.' nor '/'. */
  lemma BareSuffixChars(name: string)
    requires Without(name, '/')
    ensures Without(StripLeadingDots(Suffix(name)), '.') && Without(StripLeadingDots(Suffix(name)), '/')
  {
    BareChars(Suffix(name), StripLeadingDots(Suffix(name)));
  }

  /** A tail of a suffix that does not start with a dot holds neither '.' nor '/'. */
  lemma BareChars(suffix: string, bare: string)
    requires suffix == [] || (|suffix| >= 2 && suffix[0] == '.' && Without(suffix[1..], '.'))
    requires Without(suffix, '/')
    requires |bare| <= |suffix| && bare == suffix[|suffix| - |bare|..] && (bare == [] || bare[0] != '.')
    ensures Without(bare, '.') && Without(bare, '/')
  {
    var k := |suffix| - |bare|;
    forall j | 0 <= j < |bare| ensures bare[j] != '.' && bare[j] != '/' {
      assert bare[j] == suffix[k + j];
      if j > 0 {
        assert suffix[k + j] == suffix[1..][k + j - 1];
      }
    }
  }

  /** Lower-casing keeps '.' and '/' out, and lower-cases for good. */
  lemma LowerKeepsPunctuation(s: string)
    requires Without(s, '.') && Without(s, '/')
    ensures Without(Lower(s), '.') && Without(Lower(s), '/') && Lower(Lower(s)) == Lower(s)
  {
    LowerIdempotent(s);
  }

  /** A file has an extension exactly when the last '.' of its name is neither the name's
      first nor its last character, and the extension is what follows that dot. */
  lemma ExtensionCases(filename: string)
    ensures var name := BaseName(filename); var i := LastIndex(name, '.');
      && (GetFileExtension(filename) != "" <==> 0 < i < |name| - 1)
      && (0 < i < |name| - 1 ==> GetFileExtension(filename) == Lower(name[i + 1..]))
  {
    var name := BaseName(filename);
    var i := LastIndex(name, '.');
    if 0 < i < |name| - 1 {
      ExtensionAfterDot(filename, name, i);
    } else {
      assert Suffix(name) == "";
    }
  }

  /** The extension after the last dot of the name. */
  lemma ExtensionAfterDot(filename: string, name: string, i: int)
    requires name == BaseName(filename) && i == LastIndex(name, '.') && 0 < i < |name| - 1
    ensures GetFileExtension(filename) == Lower(name[i + 1..])
  {
    var suffix := Suffix(name);
    assert suffix == name[i..];
    assert suffix[1..] == name[i + 1..];
    assert suffix[1..][0] != '.';
    assert StripLeadingDots(suffix) == suffix[1..];
  }

  /** A name of the form `stem.e`, with a non-empty stem component and `e` free of '.' and
      '/', has the extension `e` in lower case. */
  lemma ExtensionOfName(stem: string, e: string)
    requires stem != [] && stem[|stem| - 1] != '/'
    requires e != [] && Without(e, '.') && Without(e, '/')
    ensures GetFileExtension(stem + "." + e) == Lower(e)
  {
    var f := stem + "." + e;
    assert f[|f| - 1] == e[|e| - 1];
    NoTrailingSlash(f);
    SlashFreeAfterStem(stem, e);
    var j := LastIndex(f, '/');
    var a := stem[j + 1..];
    assert f[j + 1..] == a + "." + e;
    assert BaseName(f) == a + "." + e;
    LastDot(a, e);
    ExtensionAfterDot(f, a + "." + e, |a|);
    assert (a + "." + e)[|a| + 1..] == e;
  }

  /** Nothing from the last character of the stem on is a '/'. */
  lemma SlashFreeAfterStem(stem: string, e: string)
    requires stem != [] && stem[|stem| - 1] != '/' && Without(e, '/')
    ensures forall k :: |stem| - 1 <= k < |stem + "." + e| ==> (stem + "." + e)[k] != '/'
  {
    var f := stem + "." + e;
    forall k | |stem| - 1 <= k < |f| ensures f[k] != '/' {
      if k > |stem| {
        assert f[k] == e[k - |stem| - 1];
      }
    }
  }

  /** A path ending in neither '/' nor '.' keeps all its characters. */
  lemma NoTrailingSlash(s: string)
    requires s != [] && s[|s| - 1] != '/' && s[|s| - 1] != '.'
    ensures DropTrailingEmpty(s) == s
  {
  }

  /** The last dot of `a.e` is the one before `e` when `e` has none. */
  lemma LastDot(a: string, e: string)
    requires e != [] && Without(e, '.')
    ensures LastIndex(a + "." + e, '.') == |a|
  {
    DotOnlyBefore(a, e);
    LastIndexAt(a + "." + e, '.', |a|);
  }

  /** The only dot of `a.e` after `a` is the separating one. */
  lemma DotOnlyBefore(a: string, e: string)
    requires Without(e, '.')
    ensures forall k :: |a| < k < |a + "." + e| ==> (a + "." + e)[k] != '.'
  {
    var name := a + "." + e;
    forall k | |a| < k < |name| ensures name[k] != '.' {
      assert name[k] == e[k - |a| - 1];
    }
  }

  /** An occurrence with none after it is the last one. */
  lemma LastIndexAt(s: string, c: char, i: int)
    requires 0 <= i < |s| && s[i] == c && forall j :: i < j < |s| ==> s[j] != c
    ensures LastIndex(s, c) == i
  {
  }

  /** A name without a dot has no extension. */
  lemma NoDotNoExtension(filename: string)
    requires Without(filename, '.')
    ensures GetFileExtension(filename) == ""
  {
    var name := BaseName(filename);
    assert Without(name, '.') by {
      var t := DropTrailingEmpty(filename);
      assert name == t[LastIndex(t, '/') + 1..];
      forall k | 0 <= k < |name| ensures name[k] != '.' {
        assert name[k] == filename[LastIndex(t, '/') + 1 + k];
      }
    }
    assert Suffix(name) == "" by {
      assert LastIndex(name, '.') == -1;
    }
  }

  // ---------------------------------------------------------------------------
  // Allowed files and stored names

  /** `is_allowed_file(filename)`: its extension is one of the configured ones. */
  predicate IsAllowedFile(filename: string, settings: Config.Settings) {
    GetFileExtension(filename) in Config.AllowedExtensionsList(settings)
  }

  /** A file without an extension is never allowed, whatever the configuration: the
      configured list holds no empty entry. */
  lemma AllowedHasExtension(filename: string, settings: Config.Settings)
    ensures IsAllowedFile(filename, settings) ==> GetFileExtension(filename) != ""
  {
    if IsAllowedFile(filename, settings) {
      var list := Config.AllowedExtensionsList(settings);
      var k :| 0 <= k < |list| && list[k] == GetFileExtension(filename);
      assert Config.Clean(list[k]);
    }
  }

  /** With the default configuration a file is allowed exactly when its extension is one of
      the six image types. */
  lemma DefaultAllowedFiles(filename: string)
    ensures IsAllowedFile(filename, Config.Defaults)
            <==> GetFileExtension(filename) in ["jpg", "jpeg", "png", "gif", "webp", "svg"]
  {
    Config.DefaultExtensions();
  }

  /** `generate_unique_filename(original)` with `uniqueId` standing for `str(uuid.uuid4())`:
      the identifier followed by the original's extension, or the bare identifier. */
  function GenerateUniqueFilename(original: string, uniqueId: string): (r: string)
    ensures GetFileExtension(original) != "" ==> r == uniqueId + "." + GetFileExtension(original)
    ensures GetFileExtension(original) == "" ==> r == uniqueId
  {
    var ext := GetFileExtension(original);
    if ext != "" then uniqueId + "." + ext else uniqueId
  }

  /** The stored name has the extension of the uploaded one, so it is allowed exactly when
      the upload was: the identifier is a UUID string, with neither '.' nor '/'. */
  lemma UniqueFilenameKeepsExtension(original: string, uniqueId: string, settings: Config.Settings)
    requires uniqueId != [] && Without(uniqueId, '.') && Without(uniqueId, '/')
    ensures GetFileExtension(GenerateUniqueFilename(original, uniqueId)) == GetFileExtension(original)
    ensures IsAllowedFile(GenerateUniqueFilename(original, uniqueId), settings)
            <==> IsAllowedFile(original, settings)
  {
    var ext := GetFileExtension(original);
    if ext != "" {
      ExtensionOfName(uniqueId, ext);
    } else {
      NoDotNoExtension(uniqueId);
    }
  }

  // ---------------------------------------------------------------------------
  // The path of an absolute URL

  /** Whether `get_file_path_from_url` treats the reference as an absolute URL. */
  predicate IsAbsolute(url: string) {
    StartsWith(url, "http://") || StartsWith(url, "https://")
  }

  /** The characters `urlparse` deletes before parsing: tab, carriage return, line feed. */
  predicate Unsafe(c: char) {
    c == '\t' || c == '\r' || c == '\n'
  }

  /** `url` without its unsafe characters. */
  function DropUnsafe(s: string): (r: string)
    ensures |r| <= |s|
    ensures forall i :: 0 <= i < |r| ==> !Unsafe(r[i])
  {
    if s == [] then [] else (if Unsafe(s[0]) then [] else [s[0]]) + DropUnsafe(s[1..])
  }

  /** Where the network location ends: at the first '/', '?' or '#'. */
  function NetlocEnd(s: string): (i: nat)
    ensures i <= |s|
    ensures i < |s| ==> s[i] == '/' || s[i] == '?' || s[i] == '#'
  {
    if s == [] || s[0] == '/' || s[0] == '?' || s[0] == '#' then 0 else 1 + NetlocEnd(s[1..])
  }

  /** Where the path ends: at the first '?' (the query) or '#' (the fragment). */
  function PathEnd(s: string): (i: nat)
    ensures i <= |s|
    ensures i < |s| ==> s[i] == '?' || s[i] == '#'
  {
    if s == [] || s[0] == '?' || s[0] == '#' then 0 else 1 + PathEnd(s[1..])
  }

  /** The path without the parameters of its last segment: cut at the first ';' after the
      last '/'; without a '/', at the first ';'. */
  function StripParams(p: string): (r: string)
    ensures |r| <= |p| && r == p[..|r|]
  {
    var start := if LastIndex(p, '/') < 0 then 0 else LastIndex(p, '/');
    p[..start + IndexOf(p[start..], ';')]
  }

  /** `urlparse(url).path` for an 'http://' or 'https://' URL. */
  function UrlPath(url: string): string
    requires IsAbsolute(url)
  {
    var clean := DropUnsafe(url);
    var afterScheme := if IndexOf(clean, ':') + 3 <= |clean| then clean[IndexOf(clean, ':') + 3..] else "";
    var afterNetloc := afterScheme[NetlocEnd(afterScheme)..];
    StripParams(afterNetloc[..PathEnd(afterNetloc)])
  }

  // ---------------------------------------------------------------------------
  // The file name a URL points to

  /** `s[n:]` in Python: empty when `n` is past the end. */
  function DropFirst(s: string, n: nat): (r: string)
    ensures n <= |s| ==> r == s[n..]
    ensures n > |s| ==> r == ""
  {
    if n <= |s| then s[n..] else ""
  }

  /** The prefix stripping of `get_file_path_from_url` as written: '/data/upload/' loses its
      13 characters, and so does '/data/upload' without the slash, which is one character
      more than that prefix; '/data/' loses 6 and any other leading '/' one. */
  function StripPrefixAsWritten(u: string): string {
    if StartsWith(u, "/data/upload/") then DropFirst(u, 13)
    else if StartsWith(u, "/data/upload") then DropFirst(u, 13)
    else if StartsWith(u, "/data/") then DropFirst(u, 6)
    else if StartsWith(u, "/") then DropFirst(u, 1)
    else u
  }

  /** The stripping the comments describe: '/data/upload' loses exactly its 12 characters. */
  function StripPrefix(u: string): string {
    if StartsWith(u, "/data/upload/") then DropFirst(u, 13)
    else if StartsWith(u, "/data/upload") then DropFirst(u, 12)
    else if StartsWith(u, "/data/") then DropFirst(u, 6)
    else if StartsWith(u, "/") then DropFirst(u, 1)
    else u
  }

  /** The name below the upload directory for a reference, once its prefix is stripped: a
      leading 'upload/' goes too, and nothing left means no file. */
  function NameAfter(stripped: string): (r: Option<string>)
    ensures r.Some? ==> r.value != []
  {
    var name := if StartsWith(stripped, "upload/") then DropFirst(stripped, 7) else stripped;
    if name == "" then None else Some(name)
  }

  /** A reference starting with '/' is not an absolute URL. */
  lemma SlashNotAbsolute(u: string)
    requires u != [] && u[0] == '/'
    ensures !IsAbsolute(u)
  {
    assert u[..1] == "/";
  }

  /** The path an absolute URL names, any other reference as it is. */
  function Reference(url: string): string {
    if IsAbsolute(url) then UrlPath(url) else url
  }

  /** The file name `get_file_path_from_url(url)` looks up below the upload directory, as the
      code is written; `None` where the function returns `None` before the lookup. */
  function RelativeUploadNameAsWritten(url: string): Option<string> {
    if url == "" then None else NameAfter(StripPrefixAsWritten(Reference(url)))
  }

  /** The same with the prefix stripping the comments describe. */
  function RelativeUploadName(url: string): Option<string> {
    if url == "" then None else NameAfter(StripPrefix(Reference(url)))
  }

  /** `get_file_path_from_url` up to the lookup: `url` is rebound by each step in turn. */
  method GetFilePathFromUrl(url: string) returns (name: Option<string>)
    ensures name == RelativeUploadNameAsWritten(url)
  {
    if url == "" {
      return None;
    }
    var u := url;
    if StartsWith(u, "http://") || StartsWith(u, "https://") {
      u := UrlPath(u);
    }
    if StartsWith(u, "/data/upload/") {
      u := DropFirst(u, 13);
    } else if StartsWith(u, "/data/upload") {
      u := DropFirst(u, 13);
    } else if StartsWith(u, "/data/") {
      u := DropFirst(u, 6);
    } else if StartsWith(u, "/") {
      u := DropFirst(u, 1);
    }
    if StartsWith(u, "upload/") {
      u := DropFirst(u, 7);
    }
    if u == "" {
      return None;
    }
    return Some(u);
  }

  /** The two strippings differ only on references that start with '/data/upload' but not
      with '/data/upload/'. */
  lemma StrippingsAgree(u: string)
    requires !StartsWith(u, "/data/upload") || StartsWith(u, "/data/upload/")
    ensures StripPrefixAsWritten(u) == StripPrefix(u)
  {
  }

  /** As written, the first character after a bare '/data/upload' is lost. */
  lemma BareUploadPrefixAsWritten(rest: string)
    requires rest != [] && rest[0] != '/'
    ensures RelativeUploadNameAsWritten("/data/upload" + rest) == NameAfter(rest[1..])
  {
    var u := "/data/upload" + rest;
    SlashNotAbsolute(u);
    assert !StartsWith(u, "/data/upload/") by {
      assert u[12] == rest[0];
    }
    assert u[..12] == "/data/upload";
    assert u[13..] == rest[1..];
  }

  /** With the corrected stripping, everything after a bare '/data/upload' is kept. */
  lemma BareUploadPrefixKeepsName(rest: string)
    requires rest != [] && rest[0] != '/'
    ensures RelativeUploadName("/data/upload" + rest) == NameAfter(rest)
  {
    var u := "/data/upload" + rest;
    SlashNotAbsolute(u);
    assert !StartsWith(u, "/data/upload/") by {
      assert u[12] == rest[0];
    }
    assert u[..12] == "/data/upload";
    assert u[12..] == rest;
  }

  /** '/data/uploadx.png' names '.png' as written, 'x.png' once corrected. */
  lemma BareUploadPrefixLosesCharacter()
    ensures RelativeUploadNameAsWritten("/data/uploadx.png") == Some(".png")
    ensures RelativeUploadName("/data/uploadx.png") == Some("x.png")
  {
    var rest := "x.png";
    assert "/data/upload" + rest == "/data/uploadx.png";
    BareUploadPrefixAsWritten(rest);
    BareUploadPrefixKeepsName(rest);
    assert rest[1..] == ".png";
    assert NameAfter(".png") == Some(".png");
    assert NameAfter(rest) == Some("x.png");
  }

  // ---------------------------------------------------------------------------
  // Round trip with the frontend

  /** A plain stored file name: not empty, without separators, query, fragment, parameter
      or unsafe characters, and not ending in whitespace. */
  predicate PlainName(n: string) {
    && n != [] && !IsJsSpace(n[|n| - 1])
    && forall i :: 0 <= i < |n| ==> n[i] != '/' && n[i] != '?' && n[i] != '#' && n[i] != ';' && !Unsafe(n[i])
  }

  /** The frontend resolves the stored URL of an upload to the absolute URL of the file. */
  lemma ResolveStoredUrl(n: string)
    requires PlainName(n)
    ensures ImageRef.Resolve(Some("/data/upload/" + n)) == Some(ImageRef.UploadBase + "/" + n)
  {
    var u := "/data/upload/" + n;
    ImageRef.SlashIsPath(u);
    StoredPathTrimmed(n);
    StoredPathKept(n);
    assert ImageRef.Collapse(u) == ImageRef.UploadDir + ("/" + n) by {
      assert u == ImageRef.UploadDir + ("/" + n);
      StoredPathCollapsed(n);
    }
    assert ImageRef.Resolve(Some(u)) == Some(ImageRef.Host + ImageRef.Collapse(u));
    assert ImageRef.UploadDir + ("/" + n) == ImageRef.UploadDir + "/" + n;
    ImageRef.Regroup(ImageRef.Host, ImageRef.UploadDir, "/", n);
  }

  /** The stored path of a plain name has no surrounding whitespace. */
  lemma StoredPathTrimmed(n: string)
    requires n != [] && !IsJsSpace(n[|n| - 1])
    ensures JsTrim("/data/upload/" + n) == "/data/upload/" + n
  {
    var u := "/data/upload/" + n;
    assert !IsJsSpace(u[0]) && u[|u| - 1] == n[|n| - 1];
    TrimUnchanged(u, IsJsSpace);
  }

  /** The stored path is already an upload path. */
  lemma StoredPathKept(n: string)
    ensures ImageRef.UploadPath("/data/upload/" + n) == "/data/upload/" + n
  {
    var u := "/data/upload/" + n;
    assert u[..13] == "/data/upload/";
  }

  /** The stored path of a plain name has no double slash. */
  lemma StoredPathCollapsed(n: string)
    requires n != [] && forall i :: 0 <= i < |n| ==> n[i] != '/'
    ensures ImageRef.Collapse(ImageRef.UploadDir + ("/" + n)) == ImageRef.UploadDir + ("/" + n)
  {
    var q := "/" + n;
    assert ImageRef.Collapse(ImageRef.UploadDir + q) == ImageRef.UploadDir + ImageRef.Collapse(q) by {
      ImageRef.UploadDirClean();
      ImageRef.CollapseAfter(ImageRef.UploadDir, q);
    }
    assert ImageRef.Collapse(q) == q by {
      ImageRef.SlashBeforeWord(n);
      ImageRef.CollapseFixed(n);
    }
  }

  /** The backend finds the file again from the URL the frontend loads. */
  lemma StoredUrlRoundTrip(n: string)
    requires PlainName(n)
    ensures RelativeUploadName(ImageRef.Resolve(Some("/data/upload/" + n)).value) == Some(n)
    ensures RelativeUploadNameAsWritten(ImageRef.Resolve(Some("/data/upload/" + n)).value) == Some(n)
  {
    ResolveStoredUrl(n);
    StoredUrlName(n);
  }

  /** The file name the absolute URL of a stored file names. */
  lemma StoredUrlName(n: string)
    requires PlainName(n)
    ensures RelativeUploadName(ImageRef.UploadBase + "/" + n) == Some(n)
    ensures RelativeUploadNameAsWritten(ImageRef.UploadBase + "/" + n) == Some(n)
  {
    AbsoluteUrlPath(n);
    NameFromStoredPath(ImageRef.UploadBase + "/" + n, n);
  }

  /** A reference whose path is the stored path of a file names that file. */
  lemma NameFromStoredPath(url: string, n: string)
    requires PlainName(n) && url != "" && Reference(url) == "/data/upload/" + n
    ensures RelativeUploadName(url) == Some(n)
    ensures RelativeUploadNameAsWritten(url) == Some(n)
  {
    var path := "/data/upload/" + n;
    assert StripPrefix(path) == n && StripPrefixAsWritten(path) == n by {
      assert path[..13] == "/data/upload/";
      assert path[13..] == n;
    }
    assert NameAfter(n) == Some(n) by {
      if |n| >= 7 {
        assert n[6] != '/';
      }
    }
  }

  /** The path of the absolute URL of a stored file. */
  lemma AbsoluteUrlPath(n: string)
    requires PlainName(n)
    ensures IsAbsolute(ImageRef.UploadBase + "/" + n)
    ensures UrlPath(ImageRef.UploadBase + "/" + n) == "/data/upload/" + n
  {
    var path := "/data/upload/" + n;
    assert ImageRef.UploadBase + "/" + n == ImageRef.Host + path by {
      ImageRef.Regroup(ImageRef.Host, ImageRef.UploadDir, "/", n);
    }
    HostParts();
    assert forall i :: 0 <= i < |path| ==> path[i] != '?' && path[i] != '#' && !Unsafe(path[i]) by {
      forall i | 0 <= i < |path| ensures path[i] != '?' && path[i] != '#' && !Unsafe(path[i]) {
        if i >= 13 {
          assert path[i] == n[i - 13];
        }
      }
    }
    UrlPathOf(HostName, path);
    NoParams(path, n);
  }

  /** The network location of the development host. */
  const HostName := "localhost:8000"

  /** A network location: no separator, query, fragment or unsafe character. */
  predicate NetlocChars(host: string) {
    forall i :: 0 <= i < |host| ==> host[i] != '/' && host[i] != '?' && host[i] != '#' && !Unsafe(host[i])
  }

  /** The host the frontend loads images from is 'http://' and a network location. */
  lemma HostParts()
    ensures ImageRef.Host == "http://" + HostName && NetlocChars(HostName)
  {
  }

  /** The path of 'http://' + host + path, for a path without query, fragment or unsafe
      characters, is that path without its parameters. */
  lemma UrlPathOf(host: string, path: string)
    requires NetlocChars(host)
    requires path != [] && path[0] == '/'
    requires forall i :: 0 <= i < |path| ==> path[i] != '?' && path[i] != '#' && !Unsafe(path[i])
    ensures IsAbsolute("http://" + host + path)
    ensures UrlPath("http://" + host + path) == StripParams(path)
  {
    var url := "http://" + host + path;
    assert url[..7] == "http://";
    assert DropUnsafe(url) == url by {
      forall i | 0 <= i < |url| ensures !Unsafe(url[i]) {
        if i < 7 {
          assert url[i] == "http://"[i];
        } else if i < 7 + |host| {
          assert url[i] == host[i - 7];
        } else {
          assert url[i] == path[i - 7 - |host|];
        }
      }
      DropUnsafeKeeps(url);
    }
    assert IndexOf(url, ':') == 4 by {
      assert url[..5] == "http:";
      assert url[4] == ':';
      assert forall j :: 0 <= j < 4 ==> url[j] != ':';
    }
    var afterScheme := DropUnsafe(url)[IndexOf(DropUnsafe(url), ':') + 3..];
    assert afterScheme == host + path;
    NetlocEndAt(host, path);
    var afterNetloc := afterScheme[|host|..];
    assert afterNetloc == path;
    NoQueryOrFragment(path);
    assert afterNetloc[..PathEnd(afterNetloc)] == path;
  }

  /** Nothing is deleted from a URL without unsafe characters. */
  lemma {:induction false} DropUnsafeKeeps(s: string)
    requires forall i :: 0 <= i < |s| ==> !Unsafe(s[i])
    ensures DropUnsafe(s) == s
  {
    if s != [] {
      DropUnsafeKeeps(s[1..]);
      assert s == [s[0]] + s[1..];
    }
  }

  /** The network location ends at the first '/'. */
  lemma {:induction false} NetlocEndAt(host: string, path: string)
    requires NetlocChars(host)
    requires path != [] && path[0] == '/'
    ensures NetlocEnd(host + path) == |host|
  {
    if host != [] {
      assert (host + path)[1..] == host[1..] + path;
      NetlocEndAt(host[1..], path);
    }
  }

  /** A path without '?' and '#' has neither query nor fragment. */
  lemma {:induction false} NoQueryOrFragment(p: string)
    requires forall i :: 0 <= i < |p| ==> p[i] != '?' && p[i] != '#'
    ensures PathEnd(p) == |p|
  {
    if p != [] {
      NoQueryOrFragment(p[1..]);
    }
  }

  /** A stored file's path has no parameters. */
  lemma NoParams(path: string, n: string)
    requires PlainName(n) && path == "/data/upload/" + n
    ensures StripParams(path) == path
  {
    var l := LastIndex(path, '/');
    assert path[12] == '/';
    assert l == 12 by {
      forall k | 12 < k < |path| ensures path[k] != '/' {
        assert path[k] == n[k - 13];
      }
    }
    var tail := path[12..];
    assert forall k :: 0 <= k < |tail| ==> tail[k] != ';' by {
      forall k | 0 <= k < |tail| ensures tail[k] != ';' {
        if k > 0 {
          assert tail[k] == n[k - 1];
        }
      }
    }
    assert IndexOf(tail, ';') == |tail|;
  }
}
