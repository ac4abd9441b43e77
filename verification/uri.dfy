/** Parsing of the resource URI `macos://dir/{path}` under which the directory
    listing is registered (pkg/tool/macos/macos.go:147-154). */
module ResourceUri {

  /** The fixed prefix every directory resource URI starts with. */
  const Prefix: string := "macos://dir/"

  predicate StartsWith(s: string, p: string) {
    |p| <= |s| && s[..|p|] == p
  }

  /** The path named by a resource URI, or "" when the URI is not of the
      form `macos://dir/<something non-empty>`.  The remainder after the
      prefix is returned verbatim: nothing is trimmed or decoded. */
  function ExtractPathFromUri(uri: string): (path: string)
    ensures path != "" <==> |uri| > |Prefix| && StartsWith(uri, Prefix)
    ensures path != "" ==> Prefix + path == uri
    ensures uri == Prefix || |uri| < |Prefix| || !StartsWith(uri, Prefix) ==> path == ""
  {
    if |uri| > |Prefix| && uri[..|Prefix|] == Prefix then uri[|Prefix|..] else ""
  }

  /** Building a URI from a non-empty path and extracting it again gives the
      path back, whatever characters the path holds. */
  lemma ExtractOfPrefixed(path: string)
    requires path != ""
    ensures ExtractPathFromUri(Prefix + path) == path
  {
  }

  /** Extraction keeps the leading separator of the remainder:
      `macos://dir//etc` names `/etc`, and `macos://dir/` names nothing. */
  lemma ExtractExamples()
    ensures ExtractPathFromUri("macos://dir//etc") == "/etc"
    ensures ExtractPathFromUri("macos://dir/") == ""
    ensures ExtractPathFromUri("file://dir/etc") == ""
  {
    ExtractOfPrefixed("/etc");
    assert "macos://dir//etc" == Prefix + "/etc";
    assert "file://dir/etc"[..|Prefix|] != Prefix by {
      assert "file://dir/etc"[0] != Prefix[0];
    }
  }
}
