/** How the admin pages turn a stored image reference into the URL an `<img>` loads: inline
    data and absolute URLs are used as they are, every other reference is taken to be a file
    under the backend's upload directory, served from the development host. */
module ImageRef {
  import opened Wrappers
  import opened Text
  import opened Card

  /** The backend origin the pages hard-code. */
  const Host := "http://localhost:8000"

  /** The path under which the backend serves uploaded files. */
  const UploadDir := "/data/upload"

  /** Every URL made from a path starts with this. */
  const UploadBase := Host + UploadDir

  // ---------------------------------------------------------------------------
  // Collapsing runs of slashes

  /** No two consecutive '/' in `s`. */
  predicate NoDoubleSlash(s: string) {
    forall i :: 0 <= i < |s| - 1 ==> !(s[i] == '/' && s[i + 1] == '/')
  }

  /** `s` with every slash removed: what collapsing must keep. */
  function Unslashed(s: string): string {
    if s == [] then [] else (if s[0] == '/' then [] else [s[0]]) + Unslashed(s[1..])
  }

  /** `s.replace(/\/+/g, '/')`: every run of '/' becomes a single '/'. */
  function Collapse(s: string): (r: string)
    ensures |r| <= |s|
    ensures s != [] ==> r != [] && r[0] == s[0]
    ensures NoDoubleSlash(r)
    decreases |s|
  {
    if |s| <= 1 then s
    else if s[0] == '/' && s[1] == '/' then Collapse(s[1..])
    else [s[0]] + Collapse(s[1..])
  }

  /** Collapsing removes slashes only: every other character survives, in order. */
  lemma {:induction false} CollapseKeepsOthers(s: string)
    ensures Unslashed(Collapse(s)) == Unslashed(s)
    decreases |s|
  {
    if |s| <= 1 {
    } else if s[0] == '/' && s[1] == '/' {
      CollapseKeepsOthers(s[1..]);
      assert Unslashed(s) == Unslashed(s[1..]);
    } else {
      CollapseKeepsOthers(s[1..]);
      var t := Collapse(s[1..]);
      assert ([s[0]] + t)[1..] == t;
    }
  }

  /** A string without a double slash is left as it is. */
  lemma {:induction false} CollapseFixed(s: string)
    requires NoDoubleSlash(s)
    ensures Collapse(s) == s
    decreases |s|
  {
    if |s| > 1 {
      assert !(s[0] == '/' && s[1] == '/');
      CollapseFixed(s[1..]);
      assert s == [s[0]] + s[1..];
    }
  }

  /** Collapsing twice is collapsing once. */
  lemma CollapseIdempotent(s: string)
    ensures Collapse(Collapse(s)) == Collapse(s)
  {
    CollapseFixed(Collapse(s));
  }

  /** A prefix without a double slash and not ending in '/' is kept in front of the collapsed
      rest. */
  lemma {:induction false} CollapseAfter(p: string, q: string)
    requires p != [] && p[|p| - 1] != '/' && NoDoubleSlash(p)
    ensures Collapse(p + q) == p + Collapse(q)
    decreases |p|
  {
    if |p| == 1 {
      if q != [] {
        assert (p + q)[1..] == q;
      }
    } else {
      assert !(p[0] == '/' && p[1] == '/');
      assert (p + q)[1..] == p[1..] + q;
      CollapseAfter(p[1..], q);
      assert p == [p[0]] + p[1..];
    }
  }

  // ---------------------------------------------------------------------------
  // Resolving a reference

  /** References used as they are: inline base64 images and absolute URLs. */
  predicate PassesThrough(u: string) {
    StartsWith(u, "data:image/") || StartsWith(u, "http://") || StartsWith(u, "https://")
  }

  /** A reference starting with '/' is a path, never inline data or an absolute URL. */
  lemma SlashIsPath(u: string)
    requires u != [] && u[0] == '/'
    ensures !PassesThrough(u)
  {
    assert u[..1] == "/";
  }

  /** The path below the host for a trimmed relative reference, before slashes are
      collapsed: '/data/upload…' is kept, legacy '/upload…' gets '/data' in front, any other
      path is placed below '/data/upload' with a leading '/' added when missing. */
  function UploadPath(path: string): (p: string)
    ensures StartsWith(p, UploadDir)
  {
    if StartsWith(path, "/data/upload/") || StartsWith(path, "/data/upload") then path
    else if StartsWith(path, "/upload/") || StartsWith(path, "/upload") then
      assert path[..7] == "/upload" by {
        if StartsWith(path, "/upload/") {
          assert path[..7] == path[..8][..7];
        }
      }
      assert ("/data" + path)[..|UploadDir|] == "/data" + path[..7];
      "/data" + path
    else UploadDir + (if StartsWith(path, "/") then path else "/" + path)
  }

  /** The URL for a trimmed relative path: the host followed by the collapsed upload path. */
  function PathUrl(path: string): (r: string)
    ensures StartsWith(r, UploadBase)
    ensures NoDoubleSlash(r[|Host|..])
  {
    var p := UploadPath(path);
    assert p == UploadDir + p[|UploadDir|..];
    CollapseAfter(UploadDir, p[|UploadDir|..]);
    assert (Host + Collapse(p))[|Host|..] == Collapse(p);
    Host + Collapse(p)
  }

  /** `getImageUrl(url)`: no URL for an absent or empty reference, inline data and absolute
      URLs unchanged, and for everything else the trimmed path placed under the upload
      directory. */
  function Resolve(url: Option<string>): (r: Option<string>)
    ensures r.None? <==> !Truthy(url)
    ensures Truthy(url) && PassesThrough(url.value) ==> r == url
    ensures Truthy(url) && !PassesThrough(url.value) ==>
              StartsWith(r.value, UploadBase) && NoDoubleSlash(r.value[|Host|..])
  {
    if !Truthy(url) then None
    else if PassesThrough(url.value) then url
    else Some(PathUrl(JsTrim(url.value)))
  }

  /** A resolved URL resolves to itself: every result is absolute or inline data. */
  lemma ResolveIdempotent(url: Option<string>)
    ensures Resolve(Resolve(url)) == Resolve(url)
  {
    var r := Resolve(url);
    if Truthy(url) && !PassesThrough(url.value) {
      UnderUploadBaseIsAbsolute(r.value);
    }
  }

  /** Every URL under the upload base is an absolute 'http://' URL. */
  lemma UnderUploadBaseIsAbsolute(s: string)
    requires StartsWith(s, UploadBase)
    ensures s != [] && PassesThrough(s)
  {
    assert s[..7] == UploadBase[..7];
  }

  /** The legacy form '/upload…' resolves to the same URL as '/data/upload…'. */
  lemma UploadAliasResolves(rest: string)
    ensures Resolve(Some("/upload" + rest)) == Resolve(Some("/data/upload" + rest))
  {
    var t := TrimEnd(rest, IsJsSpace);
    TrimmedPath("/upload", rest);
    TrimmedPath("/data/upload", rest);
    LegacyUploadPath(t);
  }

  /** A trimmed reference starting with '/' resolves to the host followed by its collapsed
      upload path. */
  lemma RootedPathResolves(path: string)
    requires path != [] && JsTrim(path) == path && path[0] == '/'
    ensures Resolve(Some(path)) == Some(Host + Collapse(UploadPath(path)))
  {
    SlashIsPath(path);
  }

  /** A trimmed reference already under '/data/upload' keeps its path: only runs of slashes
      are collapsed before the host is put in front. */
  lemma DataUploadPathResolves(path: string)
    requires path != [] && JsTrim(path) == path
    requires StartsWith(path, UploadDir)
    ensures Resolve(Some(path)) == Some(Host + Collapse(path))
  {
    assert path[0] == path[..|UploadDir|][0];
    RootedPathResolves(path);
  }

  /** A trimmed legacy reference under '/upload' gets '/data' in front, then is collapsed. */
  lemma LegacyPathResolves(path: string)
    requires path != [] && JsTrim(path) == path
    requires StartsWith(path, "/upload") && !StartsWith(path, UploadDir)
    ensures Resolve(Some(path)) == Some(Host + Collapse("/data" + path))
  {
    assert path[0] == path[..7][0];
    PrefixOfLonger(path, UploadDir, "/");
    RootedPathResolves(path);
  }

  /** Any other trimmed reference starting with '/' is placed directly below '/data/upload'
      and collapsed; the upload directory itself is left as it is. */
  lemma OtherRootedPathResolves(path: string)
    requires path != [] && JsTrim(path) == path && path[0] == '/'
    requires !StartsWith(path, UploadDir) && !StartsWith(path, "/upload")
    ensures Resolve(Some(path)) == Some(Host + Collapse(UploadDir + path))
    ensures Resolve(Some(path)) == Some(UploadBase + Collapse(path))
  {
    RootedPathResolves(path);
    OtherRootedUploadPath(path);
    CollapseBelowUploadDir(path);
  }

  /** Collapsing a path placed below the upload directory leaves the directory alone. */
  lemma CollapseBelowUploadDir(path: string)
    ensures Host + Collapse(UploadDir + path) == UploadBase + Collapse(path)
  {
    UploadDirClean();
    CollapseAfterPrefix(Host, UploadDir, path);
  }

  /** `CollapseAfter` with a prefix that is not collapsed in front. */
  lemma CollapseAfterPrefix(h: string, p: string, q: string)
    requires p != [] && p[|p| - 1] != '/' && NoDoubleSlash(p)
    ensures h + Collapse(p + q) == (h + p) + Collapse(q)
  {
    CollapseAfter(p, q);
  }

  /** The upload path of a rooted path outside the two upload forms. */
  lemma OtherRootedUploadPath(path: string)
    requires path != [] && path[0] == '/'
    requires !StartsWith(path, UploadDir) && !StartsWith(path, "/upload")
    ensures UploadPath(path) == UploadDir + path
  {
    assert path[..1] == [path[0]];
    PrefixOfLonger(path, UploadDir, "/");
    PrefixOfLonger(path, "/upload", "/");
  }

  /** A reference made of a path word and a rest resolves through the word followed by the
      rest with its trailing whitespace trimmed. */
  lemma TrimmedPath(word: string, rest: string)
    requires word != [] && word[0] == '/' && word[|word| - 1] != ' ' && !IsJsSpace(word[|word| - 1])
    ensures Resolve(Some(word + rest)) == Some(PathUrl(word + TrimEnd(rest, IsJsSpace)))
  {
    var u := word + rest;
    assert u[0] == '/';
    SlashIsPath(u);
    assert !IsJsSpace('/');
    TrimAfterWord(word, rest, IsJsSpace);
  }

  /** Both upload forms give the same path below the host. */
  lemma LegacyUploadPath(t: string)
    ensures UploadPath("/upload" + t) == UploadPath("/data/upload" + t)
  {
    var legacy := "/upload" + t;
    var current := "/data/upload" + t;
    assert current[..12] == "/data/upload";
    assert legacy[..7] == "/upload";
    assert legacy[1] == 'u';
    assert !StartsWith(legacy, "/data/upload");
    assert "/data" + legacy == current;
  }

  /** A relative path that does not start with '/' nor with the upload forms ends up directly
      below the upload directory, separated by exactly one slash. */
  lemma RelativePathUnderUpload(path: string)
    requires path != [] && !IsJsSpace(path[0]) && !IsJsSpace(path[|path| - 1])
    requires path[0] != '/' && !PassesThrough(path)
    ensures Resolve(Some(path)) == Some(UploadBase + "/" + Collapse(path))
  {
    assert JsTrim(path) == path by {
      TrimUnchanged(path, IsJsSpace);
    }
    assert Resolve(Some(path)) == Some(PathUrl(path));
    RelativePathUrl(path);
  }

  /** The URL of a path that does not start with '/'. */
  lemma RelativePathUrl(path: string)
    requires path != [] && path[0] != '/'
    ensures PathUrl(path) == UploadBase + "/" + Collapse(path)
  {
    RelativeUploadPath(path);
    var p := UploadPath(path);
    assert Collapse(p) == UploadDir + "/" + Collapse(path) by {
      UploadDirClean();
      CollapseAfter(UploadDir, "/" + path);
      SlashBeforeWord(path);
    }
    Regroup(Host, UploadDir, "/", Collapse(path));
  }

  /** The upload directory ends in a letter and has no double slash. */
  lemma UploadDirClean()
    ensures UploadDir != [] && UploadDir[|UploadDir| - 1] != '/' && NoDoubleSlash(UploadDir)
  {
  }

  /** One '/' before a path that does not start with '/' survives collapsing. */
  lemma SlashBeforeWord(q: string)
    requires q != [] && q[0] != '/'
    ensures Collapse("/" + q) == "/" + Collapse(q)
  {
    assert ("/" + q)[1..] == q;
  }

  lemma Regroup(a: string, b: string, c: string, d: string)
    ensures (a + b) + c + d == a + (b + c + d)
  {
  }

  /** A path not starting with '/' is placed below the upload directory after one '/'. */
  lemma RelativeUploadPath(path: string)
    requires path != [] && path[0] != '/'
    ensures UploadPath(path) == UploadDir + ("/" + path)
  {
    assert path[..1] != "/";
  }

  // ---------------------------------------------------------------------------
  // Which image a card shows

  /** `card.generatedImageUrl || card.characterImageUrl || card.backgroundImageUrl`. */
  function DisplayedSource(card: StoredCard): Option<string> {
    Or(Or(card.generatedImageUrl, card.characterImageUrl), card.backgroundImageUrl)
  }

  /** The generated image wins over the character image, which wins over the background;
      an empty reference counts as missing, and a card with none of the three shows nothing. */
  lemma DisplayedImagePrecedence(card: StoredCard)
    ensures Truthy(card.generatedImageUrl) ==> Resolve(DisplayedSource(card)) == Resolve(card.generatedImageUrl)
    ensures !Truthy(card.generatedImageUrl) && Truthy(card.characterImageUrl) ==>
              Resolve(DisplayedSource(card)) == Resolve(card.characterImageUrl)
    ensures !Truthy(card.generatedImageUrl) && !Truthy(card.characterImageUrl) ==>
              Resolve(DisplayedSource(card)) == Resolve(card.backgroundImageUrl)
    ensures Resolve(DisplayedSource(card)).None? <==>
              !Truthy(card.generatedImageUrl) && !Truthy(card.characterImageUrl) && !Truthy(card.backgroundImageUrl)
  {
  }
}
