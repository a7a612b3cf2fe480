/** The backend's settings and the values derived from them: the comma-separated lists of
    CORS origins and allowed upload extensions, and the database URL. */
module Config {
  import opened Text

  /** The settings the derived values read. Each field can be overridden from the
      environment; `Defaults` holds the declared defaults. */
  datatype Settings = Settings(
    corsOrigins: string,
    databaseDir: string,
    databaseName: string,
    uploadDir: string,
    maxUploadSize: int,
    allowedExtensions: string)

  /** The declared defaults. The two list strings are written as their entries joined by
      commas: "http://localhost:3000,http://127.0.0.1:3000" and
      "jpg,jpeg,png,gif,webp,svg". */
  const Defaults := Settings(
    Join(DefaultOriginNames, ","),
    "data/database",
    "cards.db",
    "data/upload",
    10485760,
    Join(DefaultExtensionNames, ","))

  /** The two local frontend origins. */
  const DefaultOriginNames := ["http://localhost:3000", "http://127.0.0.1:3000"]

  /** The six default extension names. */
  const DefaultExtensionNames := ["jpg", "jpeg", "png", "gif", "webp", "svg"]

  // ---------------------------------------------------------------------------
  // Comma-separated lists

  /** An entry as the lists hold it: not empty and not padded with whitespace. */
  predicate Clean(e: string) {
    e != [] && !IsPySpace(e[0]) && !IsPySpace(e[|e| - 1])
  }

  /** What one piece contributes: its stripped form, unless that is empty. */
  function Kept(piece: string): (r: seq<string>)
    ensures |r| <= 1 && forall k :: 0 <= k < |r| ==> Clean(r[k])
  {
    var stripped := PyStrip(piece);
    if stripped != [] then [stripped] else []
  }

  /** `[p.strip() for p in pieces if p.strip()]`. */
  function Stripped(pieces: seq<string>): (r: seq<string>)
    ensures |r| <= |pieces|
    ensures forall k :: 0 <= k < |r| ==> Clean(r[k])
  {
    if pieces == [] then [] else Kept(pieces[0]) + Stripped(pieces[1..])
  }

  /** Stripping a list of pieces strips its two halves. */
  lemma {:induction false} StrippedAppend(a: seq<string>, b: seq<string>)
    ensures Stripped(a + b) == Stripped(a) + Stripped(b)
  {
    if a == [] {
      assert a + b == b;
    } else {
      assert (a + b)[0] == a[0];
      assert (a + b)[1..] == a[1..] + b;
      StrippedAppend(a[1..], b);
    }
  }

  /** `s.split(",")`, each piece stripped, the empty ones dropped. */
  function ParseList(s: string): (r: seq<string>)
    ensures forall k :: 0 <= k < |r| ==> Clean(r[k])
  {
    Stripped(Split(s, ","))
  }

  /** The entries of `a + "," + b` are those of `a` followed by those of `b`: the list keeps
      the order of the input. */
  lemma ParseListAppend(a: string, b: string)
    ensures ParseList(a + "," + b) == ParseList(a) + ParseList(b)
  {
    SplitAround(a, ",", b);
    StrippedAppend(Split(a, ","), Split(b, ","));
  }

  /** A string without a comma is one piece. */
  lemma ParseListPiece(s: string)
    requires forall i :: 0 <= i < |s| ==> s[i] != ','
    ensures ParseList(s) == if PyStrip(s) == [] then [] else [PyStrip(s)]
  {
    forall i | 0 <= i <= |s| ensures !OccursAt(s, ",", i) {
      if i + 1 <= |s| {
        assert s[i..i + 1] == [s[i]];
      }
    }
    SplitAbsent(s, ",");
  }

  /** A clean entry without a comma comes out as it is. */
  lemma ParseListWord(s: string)
    requires Clean(s) && forall i :: 0 <= i < |s| ==> s[i] != ','
    ensures ParseList(s) == [s]
  {
    ParseListPiece(s);
    TrimUnchanged(s, IsPySpace);
  }

  /** `cors_origins_list`. */
  function CorsOriginsList(settings: Settings): (r: seq<string>)
    ensures forall k :: 0 <= k < |r| ==> Clean(r[k])
  {
    ParseList(settings.corsOrigins)
  }

  /** Lower-casing keeps an entry clean: only letters change. */
  lemma LowerKeepsClean(e: string)
    requires Clean(e)
    ensures Clean(Lower(e))
  {
  }

  /** Each entry lower-cased. */
  function LowerAll(xs: seq<string>): (r: seq<string>)
    ensures |r| == |xs| && forall k :: 0 <= k < |xs| ==> r[k] == Lower(xs[k])
  {
    seq(|xs|, k requires 0 <= k < |xs| => Lower(xs[k]))
  }

  /** `allowed_extensions_list`: the parsed entries, lower-cased. */
  function AllowedExtensionsList(settings: Settings): (r: seq<string>)
    ensures forall k :: 0 <= k < |r| ==> Clean(r[k]) && Lower(r[k]) == r[k]
  {
    var parsed := ParseList(settings.allowedExtensions);
    assert forall k :: 0 <= k < |parsed| ==> Clean(Lower(parsed[k])) by {
      forall k | 0 <= k < |parsed| ensures Clean(Lower(parsed[k])) {
        LowerKeepsClean(parsed[k]);
      }
    }
    assert forall k :: 0 <= k < |parsed| ==> Lower(Lower(parsed[k])) == Lower(parsed[k]) by {
      forall k | 0 <= k < |parsed| ensures Lower(Lower(parsed[k])) == Lower(parsed[k]) {
        LowerIdempotent(parsed[k]);
      }
    }
    LowerAll(parsed)
  }

  /** Clean entries without commas, joined with commas, parse back to themselves. */
  lemma {:induction false} ParseListJoin(words: seq<string>)
    requires |words| >= 1
    requires forall k :: 0 <= k < |words| ==> Clean(words[k])
    requires forall k, i :: 0 <= k < |words| && 0 <= i < |words[k]| ==> words[k][i] != ','
    ensures ParseList(Join(words, ",")) == words
  {
    ParseListWord(words[0]);
    if |words| > 1 {
      var rest := words[1..];
      assert forall k :: 0 <= k < |rest| ==> rest[k] == words[k + 1];
      assert Join(words, ",") == words[0] + "," + Join(rest, ",");
      ParseListAppend(words[0], Join(rest, ","));
      ParseListJoin(rest);
      assert [words[0]] + rest == words;
    }
  }

  /** A word of lower-case ASCII letters. */
  predicate LowerWord(w: string) {
    forall i :: 0 <= i < |w| ==> 'a' <= w[i] <= 'z'
  }

  /** Words of lower-case letters are their own lower case. */
  lemma LowerAllLetters(words: seq<string>)
    requires forall k :: 0 <= k < |words| ==> LowerWord(words[k])
    ensures LowerAll(words) == words
  {
    forall k | 0 <= k < |words| ensures Lower(words[k]) == words[k] {
    }
  }

  /** The default extensions parse to the six image types, in order. */
  lemma DefaultExtensions()
    ensures AllowedExtensionsList(Defaults) == DefaultExtensionNames
    ensures DefaultExtensionNames == ["jpg", "jpeg", "png", "gif", "webp", "svg"]
  {
    DefaultNamesLetters();
    LowerWordsClean(DefaultExtensionNames);
    ParseListJoin(DefaultExtensionNames);
    LowerAllLetters(DefaultExtensionNames);
  }

  /** The six names are words of lower-case letters. */
  lemma DefaultNamesLetters()
    ensures forall k :: 0 <= k < |DefaultExtensionNames| ==>
              LowerWord(DefaultExtensionNames[k]) && DefaultExtensionNames[k] != []
  {
    assert LowerWord("jpg") && LowerWord("jpeg") && LowerWord("png");
    assert LowerWord("gif") && LowerWord("webp") && LowerWord("svg");
  }

  /** Non-empty words of lower-case letters are clean entries without commas. */
  lemma LowerWordsClean(words: seq<string>)
    requires forall k :: 0 <= k < |words| ==> LowerWord(words[k]) && words[k] != []
    ensures forall k :: 0 <= k < |words| ==> Clean(words[k])
    ensures forall k, i :: 0 <= k < |words| && 0 <= i < |words[k]| ==> words[k][i] != ','
  {
    forall k | 0 <= k < |words| ensures Clean(words[k]) {
      var w := words[k];
      assert 'a' <= w[0] <= 'z' && 'a' <= w[|w| - 1] <= 'z';
    }
  }

  /** The default origins parse to the two local frontend origins. */
  lemma DefaultOrigins()
    ensures CorsOriginsList(Defaults) == DefaultOriginNames
    ensures DefaultOriginNames == ["http://localhost:3000", "http://127.0.0.1:3000"]
  {
    var w0, w1 := DefaultOriginNames[0], DefaultOriginNames[1];
    assert Clean(w0) by {
      assert w0[0] == 'h' && w0[|w0| - 1] == '0';
    }
    assert Clean(w1) by {
      assert w1[0] == 'h' && w1[|w1| - 1] == '0';
    }
    ParseListJoin(DefaultOriginNames);
  }

  // ---------------------------------------------------------------------------
  // Database URL

  /** The separator pathlib writes between a directory and a relative name: none after an
      empty directory ('.') or one that already ends in '/', such as the root. */
  function Sep(dir: string): (r: string)
    ensures r == [] <==> dir == [] || dir[|dir| - 1] == '/'
  {
    if dir == [] || dir[|dir| - 1] == '/' then "" else "/"
  }

  /** `str(Path(dir) / name)` for paths already in normal form: an absolute name replaces
      the directory, an empty name leaves the directory, and a relative name follows the
      directory after the separator. */
  function JoinPath(dir: string, name: string): string {
    if name != [] && name[0] == '/' then name
    else if name == [] then dir
    else dir + Sep(dir) + name
  }

  /** The joined path ends with the name; an absolute name replaces the directory, an empty
      one leaves it, and a relative one keeps the directory in front. */
  lemma JoinPathShape(dir: string, name: string)
    ensures EndsWith(JoinPath(dir, name), name)
    ensures StartsWith(name, "/") ==> JoinPath(dir, name) == name
    ensures name == [] ==> JoinPath(dir, name) == dir
    ensures !StartsWith(name, "/") && name != [] ==>
              StartsWith(JoinPath(dir, name), dir) && |JoinPath(dir, name)| <= |dir| + 1 + |name|
  {
    if name != [] && name[0] == '/' {
      assert StartsWith(name, "/");
    } else if name != [] {
      assert !StartsWith(name, "/");
      var r := dir + Sep(dir) + name;
      assert r[..|dir|] == dir;
      assert r[|r| - |name|..] == name;
    }
  }

  /** Joining is associative, as pathlib's `/` is: `(a / b) / c` names the same path as
      `a / (b / c)`, whatever the three parts are. */
  lemma JoinPathAssociative(a: string, b: string, c: string)
    ensures JoinPath(JoinPath(a, b), c) == JoinPath(a, JoinPath(b, c))
  {
    if c == [] || c[0] == '/' {
    } else if b == [] {
    } else if b[0] == '/' {
      assert JoinPath(b, c)[0] == '/';
    } else {
      JoinRelativeParts(a, b, c);
    }
  }

  /** The case of associativity where neither `b` nor `c` is empty or absolute. */
  lemma JoinRelativeParts(a: string, b: string, c: string)
    requires b != [] && b[0] != '/' && c != [] && c[0] != '/'
    ensures JoinPath(JoinPath(a, b), c) == JoinPath(a, JoinPath(b, c))
  {
    var ab, bc := a + Sep(a) + b, b + Sep(b) + c;
    assert ab[|ab| - 1] == b[|b| - 1];
    assert Sep(ab) == Sep(b);
    assert bc[0] == b[0];
    assert ab + Sep(b) + c == a + Sep(a) + bc;
  }

  /** `database_url`: the SQLite scheme followed by the database file under the database
      directory, which lies below `base`, the backend's root directory. */
  function DatabaseUrl(settings: Settings, base: string): (r: string)
    ensures StartsWith(r, "sqlite:///") && EndsWith(r, settings.databaseName)
  {
    var file := JoinPath(JoinPath(base, settings.databaseDir), settings.databaseName);
    JoinPathShape(JoinPath(base, settings.databaseDir), settings.databaseName);
    PrefixKeepsSuffix("sqlite:///", file, settings.databaseName);
    "sqlite:///" + file
  }

  /** A relative part in normal form: not empty, no '/' at either end. */
  predicate RelativePart(p: string) {
    p != [] && p[0] != '/' && p[|p| - 1] != '/'
  }

  /** For a relative directory and file name, the database file is `dir/name` below the
      backend's root. */
  lemma DatabaseUrlRelative(settings: Settings, base: string)
    requires base != [] && base[|base| - 1] != '/'
    requires RelativePart(settings.databaseDir) && RelativePart(settings.databaseName)
    ensures DatabaseUrl(settings, base) ==
              "sqlite:///" + base + "/" + settings.databaseDir + "/" + settings.databaseName
  {
    var dir := base + "/" + settings.databaseDir;
    assert dir[|dir| - 1] == settings.databaseDir[|settings.databaseDir| - 1];
  }

  /** An absolute database directory replaces the backend's root: the URL then holds four
      slashes in a row. */
  lemma DatabaseUrlAbsoluteDir(settings: Settings, base: string)
    requires StartsWith(settings.databaseDir, "/")
    requires settings.databaseDir[|settings.databaseDir| - 1] != '/'
    requires RelativePart(settings.databaseName)
    ensures DatabaseUrl(settings, base) ==
              "sqlite:///" + settings.databaseDir + "/" + settings.databaseName
  {
    var d, name := settings.databaseDir, settings.databaseName;
    assert d[0] == d[..1][0];
    assert JoinPath(base, d) == d;
    assert JoinPath(d, name) == d + "/" + name;
  }

  /** With the defaults, the database is `data/database/cards.db` below the backend's root. */
  lemma DefaultDatabaseUrl(base: string)
    requires base != [] && base[|base| - 1] != '/'
    ensures DatabaseUrl(Defaults, base) == "sqlite:///" + base + "/" + "data/database" + "/" + "cards.db"
  {
    var dir, name := Defaults.databaseDir, Defaults.databaseName;
    assert dir == "data/database" && name == "cards.db";
    assert RelativePart(dir) && RelativePart(name);
    DatabaseUrlRelative(Defaults, base);
  }
}
