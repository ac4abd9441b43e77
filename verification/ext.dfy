/** The file-name extension rule of Go's `filepath.Ext`, as applied to each
    directory entry name (pkg/tool/macos/macos.go:45, :121): the suffix
    starting at the last `.` of the final path element, or "" when that
    element has no `.`.  The separator is the Unix `/`. */
module FilePathExt {

  const Separator: char := '/'

  predicate IsSuffix(suffix: string, s: string) {
    |suffix| <= |s| && s[|s| - |suffix|..] == suffix
  }

  /** Some separator lies strictly between positions `lo` and `hi`. */
  predicate SeparatorBetween(s: string, lo: nat, hi: nat)
    requires hi <= |s|
  {
    exists j :: lo < j < hi && s[j] == Separator
  }

  /** `k` is the position of the last `.` in `name`. */
  predicate IsLastDot(name: string, k: int) {
    && 0 <= k < |name|
    && name[k] == '.'
    && forall j :: k < j < |name| ==> name[j] != '.'
  }

  /** The backwards scan over `path[..i]`: it stops with "" at a separator or
      at the start, and with the rest of `path` at the first `.` it meets. */
  function ExtBefore(path: string, i: nat): (r: string)
    requires i <= |path|
    ensures r == "" || (r[0] == '.' && IsSuffix(r, path) && |path| - |r| < i)
    ensures r != "" ==> forall k :: |path| - |r| < k < i ==> path[k] != '.' && path[k] != Separator
    ensures r == "" ==> forall k :: 0 <= k < i && path[k] == '.' ==> SeparatorBetween(path, k, i)
    decreases i
  {
    if i == 0 || path[i - 1] == Separator then
      ""
    else if path[i - 1] == '.' then
      path[i - 1..]
    else
      ExtBefore(path, i - 1)
  }

  /** The extension of `path`: a suffix of it that is either empty or starts
      with the last `.` after the last separator. */
  function Ext(path: string): (r: string)
    ensures IsSuffix(r, path)
    ensures r != "" ==> r[0] == '.'
    ensures forall k :: |path| - |r| < k < |path| ==> path[k] != '.' && path[k] != Separator
    ensures r == "" ==> forall k :: 0 <= k < |path| && path[k] == '.' ==> SeparatorBetween(path, k, |path|)
  {
    ExtBefore(path, |path|)
  }

  /** For a bare entry name (no separator), the extension is "" exactly when
      the name has no `.`, and otherwise starts at the name's last `.`. */
  lemma ExtOfBareName(name: string)
    requires Separator !in name
    ensures Ext(name) == "" <==> '.' !in name
    ensures Ext(name) != "" ==> IsLastDot(name, |name| - |Ext(name)|)
    ensures Ext(name) != "" ==> Ext(name) == name[|name| - |Ext(name)|..]
  {
  }

  /** The last `.` determines the extension: if `k` is the last `.` of a bare
      name, the extension is exactly `name[k..]`. */
  lemma ExtFromLastDot(name: string, k: int)
    requires Separator !in name
    requires IsLastDot(name, k)
    ensures Ext(name) == name[k..]
  {
  }

  lemma ExtExamples()
    ensures Ext("archive.tar.gz") == ".gz"
    ensures Ext("README") == ""
    ensures Ext(".bashrc") == ".bashrc"
    ensures Ext("dir.d/file") == ""
  {
    ExtFromLastDot("archive.tar.gz", 11);
    ExtFromLastDot(".bashrc", 0);
    ExtOfBareName("README");
    var path := "dir.d/file";
    assert path[3] == '.' && path[5] == Separator;
  }
}
