/**
 * How a token store turns its options into the paths it uses (the
 * constructor of TokenStore in index.js): defaults, home expansion, the
 * file name with its optional signature digest, and the refresh path.
 * The MD5 digest and the home directory are parameters.
 */
module TokenPaths {
  import opened Wrappers
  import opened Text

  /** The options object handed to the constructor; None is a field the caller left out. */
  datatype Options = Options(
    mkdir: Option<bool>,
    signature: Option<seq<string>>,
    filename: Option<string>,
    ext: Option<string>,
    path: Option<string>)

  /** `new TokenStore()` with no options at all. */
  const NoOptions := Options(None, None, None, None, None)

  /** The options after defaults are filled in (`this.opts`). */
  datatype Config = Config(
    mkdir: bool,
    signature: seq<string>,
    filename: string,
    ext: string,
    path: string)

  const Defaults := Config(true, [], "token", "json", "$HOME/.credentials")

  function Override<T>(given: Option<T>, default: T): T {
    match given
    case Some(v) => v
    case None => default
  }

  /** Shallow merge of the caller's options over the defaults. */
  function WithDefaults(o: Options): (c: Config)
    ensures o == NoOptions ==> c == Defaults
    ensures o.mkdir.Some? ==> c.mkdir == o.mkdir.value
    ensures o.mkdir.None? ==> c.mkdir
    ensures o.signature.Some? ==> c.signature == o.signature.value
    ensures o.signature.None? ==> c.signature == []
    ensures o.filename.Some? ==> c.filename == o.filename.value
    ensures o.filename.None? ==> c.filename == "token"
    ensures o.ext.Some? ==> c.ext == o.ext.value
    ensures o.ext.None? ==> c.ext == "json"
    ensures o.path.Some? ==> c.path == o.path.value
    ensures o.path.None? ==> c.path == "$HOME/.credentials"
  {
    Config(
      Override(o.mkdir, Defaults.mkdir),
      Override(o.signature, Defaults.signature),
      Override(o.filename, Defaults.filename),
      Override(o.ext, Defaults.ext),
      Override(o.path, Defaults.path))
  }

  /** Length of the leading `~` or `$HOME` that is expanded, or 0 when the path starts with neither. */
  function HomeMarkerLength(p: string): (k: nat)
    ensures k == 0 <==> !StartsWith(p, "~") && !StartsWith(p, "$HOME")
    ensures k > 0 ==> k <= |p| && (p[..k] == "~" || p[..k] == "$HOME")
  {
    if StartsWith(p, "~") then 1
    else if StartsWith(p, "$HOME") then 5
    else 0
  }

  /**
   * Expansion of a leading `~` or `$HOME` to the home directory: the marker
   * is replaced once, the rest of the path is kept verbatim, and a path
   * without a leading marker is returned unchanged.
   */
  function ExpandHome(p: string, home: string): (r: string)
    ensures HomeMarkerLength(p) > 0 ==> StartsWith(r, home) && r[|home|..] == p[HomeMarkerLength(p)..]
    ensures HomeMarkerLength(p) == 0 ==> r == p
  {
    var k := HomeMarkerLength(p);
    if k == 0 then p else home + p[k..]
  }

  /**
   * The anchored expansion agrees with a first-occurrence replace of the
   * leading marker (`~` or `$HOME`) by the home directory.
   */
  lemma ExpandHomeIsLeadingReplace(p: string, home: string)
    requires HomeMarkerLength(p) > 0
    ensures p[..HomeMarkerLength(p)] == "~" || p[..HomeMarkerLength(p)] == "$HOME"
    ensures ExpandHome(p, home) == ReplaceFirst(p, p[..HomeMarkerLength(p)], home)
  {
    var k := HomeMarkerLength(p);
    var marker := p[..k];
    assert OccursAt(p, marker, 0);
    assert FirstOccurrence(p, marker, 0);
    ReplaceFirstAt(p, marker, home, 0);
    assert p[..0] + home + p[k..] == home + p[k..];
  }

  /**
   * The token file's name: `filename.ext`, or `filename-H.ext` where H is the
   * digest of the signature joined with commas when the signature is not empty.
   */
  function FileName(filename: string, signature: seq<string>, ext: string, md5: string -> string): (r: string)
    ensures |signature| == 0 ==> r == filename + "." + ext
    ensures |signature| > 0 ==> r == filename + "-" + md5(Join(signature, ",")) + "." + ext
  {
    var parts := if |signature| > 0 then [filename, md5(Join(signature, ","))] else [filename];
    assert |parts| == 2 ==> Join(parts, "-") == filename + "-" + parts[1] by {
      if |parts| == 2 {
        assert parts[1..] == [parts[1]];
      }
    }
    Join(parts, "-") + "." + ext
  }

  /** With the default options the file is `token.json`. */
  lemma DefaultFileName(md5: string -> string)
    ensures FileName(Defaults.filename, Defaults.signature, Defaults.ext, md5) == "token.json"
  {
  }

  /**
   * A signed name determines the digest it carries: two non-empty signatures
   * give the same file name exactly when their digests are equal.
   */
  lemma SignedNameDeterminesDigest(filename: string, s1: seq<string>, s2: seq<string>, ext: string, md5: string -> string)
    requires |s1| > 0 && |s2| > 0
    ensures FileName(filename, s1, ext, md5) == FileName(filename, s2, ext, md5)
        <==> md5(Join(s1, ",")) == md5(Join(s2, ","))
  {
    var h1, h2 := md5(Join(s1, ",")), md5(Join(s2, ","));
    var n1, n2 := FileName(filename, s1, ext, md5), FileName(filename, s2, ext, md5);
    if n1 == n2 {
      var a := |filename| + 1;
      assert |h1| == |h2|;
      assert n1[a..a + |h1|] == h1;
      assert n2[a..a + |h2|] == h2;
    }
  }

  /** A name without signature never equals a signed name. */
  lemma UnsignedDiffersFromSigned(filename: string, signature: seq<string>, ext: string, md5: string -> string)
    requires |signature| > 0
    ensures FileName(filename, [], ext, md5) != FileName(filename, signature, ext, md5)
  {
  }

  /**
   * The signature is hashed after joining, so element boundaries are lost:
   * two signatures with the same joined text name the same file.
   */
  lemma SignatureJoinCollision(filename: string, s1: seq<string>, s2: seq<string>, ext: string, md5: string -> string)
    requires |s1| > 0 && |s2| > 0 && Join(s1, ",") == Join(s2, ",")
    ensures FileName(filename, s1, ext, md5) == FileName(filename, s2, ext, md5)
  {
  }

  /** A witness of the collision: two different signatures with the same joined text. */
  lemma CommaSignatureCollides(filename: string, ext: string, md5: string -> string)
    ensures ["a,b"] != ["a", "b"]
    ensures FileName(filename, ["a,b"], ext, md5) == FileName(filename, ["a", "b"], ext, md5)
  {
    assert Join(["a", "b"], ",") == "a,b";
    SignatureJoinCollision(filename, ["a,b"], ["a", "b"], ext, md5);
  }

  /**
   * The name index.js gives to the result of line 22 (its local `path`):
   * the expansion of the configured directory, under the store's options.
   */
  function StorageDir(c: Config, home: string): (d: string)
    ensures HomeMarkerLength(c.path) > 0 ==> StartsWith(d, home)
    ensures HomeMarkerLength(c.path) == 0 ==> d == c.path
  {
    ExpandHome(c.path, home)
  }

  /** The resolved token path, `path.resolve(dir, name)` for an absolute normalised directory. */
  function TokenPath(c: Config, home: string, md5: string -> string): (p: string)
    ensures StartsWith(p, StorageDir(c, home) + "/")
    ensures p[|StorageDir(c, home)| + 1..] == FileName(c.filename, c.signature, c.ext, md5)
  {
    StorageDir(c, home) + "/" + FileName(c.filename, c.signature, c.ext, md5)
  }

  /** A configured path starting with `~` or `$HOME` resolves to a path under the home directory. */
  lemma TokenPathUnderHome(c: Config, home: string, md5: string -> string)
    requires StartsWith(c.path, "~") || StartsWith(c.path, "$HOME")
    ensures StartsWith(TokenPath(c, home, md5), home)
  {
  }

  /** With the default options the token lives at `<home>/.credentials/token.json`. */
  lemma DefaultTokenPath(home: string, md5: string -> string)
    ensures TokenPath(Defaults, home, md5) == home + "/.credentials/token.json"
  {
    assert Defaults.path[0] == '$' && Defaults.path[..5] == "$HOME";
    assert Defaults.path[5..] == "/.credentials";
    DefaultFileName(md5);
  }

  /** The refresh path: the first `token` anywhere in the path becomes `token.refresh`. */
  function RefreshPath(p: string): (r: string)
    ensures !Contains(p, "token") ==> r == p
    ensures forall i: nat :: FirstOccurrence(p, "token", i) ==> r == p[..i] + "token.refresh" + p[i + 5..]
  {
    ReplaceFirst(p, "token", "token.refresh")
  }

  /** Without `token` in the path, the refresh path is the token path itself. */
  lemma RefreshPathWithoutToken(p: string)
    requires !Contains(p, "token")
    ensures RefreshPath(p) == p
  {
  }

  /** With `token` in the path, the refresh path differs from it and carries `token.refresh` at the first occurrence. */
  lemma RefreshPathWithToken(p: string, i: nat)
    requires FirstOccurrence(p, "token", i)
    ensures RefreshPath(p) != p
    ensures OccursAt(RefreshPath(p), "token.refresh", i)
    ensures RefreshPath(p)[..i] == p[..i] && RefreshPath(p)[i + 13..] == p[i + 5..]
  {
  }

  /** The default file sits after a directory part with no `token` in it. */
  lemma DefaultTailFirstToken()
    ensures FirstOccurrence("/.credentials/token.json", "token", 14)
  {
    var tail := "/.credentials/token.json";
    forall j: nat | j < 14
      ensures !OccursAt(tail, "token", j)
    {
      assert tail[j..j + 5] != "token" by {
        assert tail[j..j + 5][0] == tail[j];
        assert tail[j..j + 5][1] == tail[j + 1];
      }
    }
  }

  lemma DefaultTailRefresh()
    ensures var tail := "/.credentials/token.json";
      tail[..14] + "token.refresh" + tail[19..] == "/.credentials/token.refresh.json"
  {
  }

  /**
   * If `a` has no occurrence of `pat` and `b` starts with a character that
   * is not in `pat`, the first occurrence in `a + b` is the first one in `b`.
   */
  lemma FirstOccurrenceAfter(a: string, b: string, pat: string, k: nat)
    requires !Contains(a, pat)
    requires |b| > 0 && forall c :: c in pat ==> c != b[0]
    requires FirstOccurrence(b, pat, k)
    ensures FirstOccurrence(a + b, pat, |a| + k)
  {
    var s := a + b;
    OccursInRight(a, b, pat, |a| + k);
    forall j: nat | j < |a| + k
      ensures !OccursAt(s, pat, j)
    {
      if j + |pat| <= |a| {
        OccursInLeft(a, b, pat, j);
      } else if j < |a| {
        if j + |pat| <= |s| {
          var w := s[j..j + |pat|];
          assert w[|a| - j] == b[0];
          assert pat[|a| - j] in pat;
          assert w != pat;
        }
      } else {
        var i: nat := j - |a|;
        assert i < k;
        assert !OccursAt(b, pat, i);
        OccursInRight(a, b, pat, j);
      }
    }
  }

  /**
   * With the default options and a home directory free of `token`, the
   * refresh file is `<home>/.credentials/token.refresh.json`.
   */
  lemma DefaultRefreshPath(home: string, md5: string -> string)
    requires !Contains(home, "token")
    ensures RefreshPath(TokenPath(Defaults, home, md5)) == home + "/.credentials/token.refresh.json"
  {
    var tail := "/.credentials/token.json";
    var p := home + tail;
    DefaultTailFirstToken();
    FirstOccurrenceAfter(home, tail, "token", 14);
    ReplaceFirstAt(p, "token", "token.refresh", |home| + 14);
    Splice(home, tail, "token.refresh", 14, 5);
    DefaultTailRefresh();
    DefaultTokenPath(home, md5);
  }
}
