/**
 * The PHP built-ins that ContainerField.php relies on, on strings:
 * `empty()` on a string entry, `strpos` with a one-character needle and
 * `basename` (with '/' as the only separator).
 */
module Php {
  import opened Wrappers

  /**
   * `empty($array[$key])` for an entry holding a string: true when the key is
   * absent, or the string is "" or "0".
   */
  predicate Empty(entry: Option<string>)
    ensures Empty(entry) ==> entry.None? || |entry.value| <= 1
    ensures Empty(entry) && entry.Some? && entry.value != "" ==> entry.value[0] == '0'
  {
    entry.None? || entry.value == "" || entry.value == "0"
  }

  /**
   * `strpos($haystack, $needle, $offset)` for a one-character needle: the
   * first index at or after `offset` holding `needle`, or `None` for PHP's
   * false.
   */
  function StrPos(haystack: string, needle: char, offset: nat): (r: Option<nat>)
    requires offset <= |haystack|
    ensures r.None? <==> forall i :: offset <= i < |haystack| ==> haystack[i] != needle
    ensures r.Some? ==> offset <= r.value < |haystack| && haystack[r.value] == needle
    ensures r.Some? ==> forall i :: offset <= i < r.value ==> haystack[i] != needle
    decreases |haystack| - offset
  {
    if offset == |haystack| then None
    else if haystack[offset] == needle then Some(offset)
    else StrPos(haystack, needle, offset + 1)
  }

  /** The length of `path[..end]` without its trailing slashes (the first step of `basename`). */
  function TrimmedLength(path: string, end: nat): (n: nat)
    requires end <= |path|
    ensures n <= end
    ensures n == 0 || path[n - 1] != '/'
    ensures forall i :: n <= i < end ==> path[i] == '/'
  {
    if end > 0 && path[end - 1] == '/' then TrimmedLength(path, end - 1) else end
  }

  /** The index of the last '/' in `path[..end]`, if any. */
  function LastSlash(path: string, end: nat): (r: Option<nat>)
    requires end <= |path|
    ensures r.None? ==> forall i :: 0 <= i < end ==> path[i] != '/'
    ensures r.Some? ==> r.value < end && path[r.value] == '/'
    ensures r.Some? ==> forall i :: r.value < i < end ==> path[i] != '/'
  {
    if end == 0 then None
    else if path[end - 1] == '/' then Some(end - 1)
    else LastSlash(path, end - 1)
  }

  /**
   * `basename($path)`: trailing slashes are ignored, then the part after the
   * last '/' is returned; "" and "/" give "".
   */
  function Basename(path: string): (r: string)
    ensures '/' !in r
    ensures '/' !in path ==> r == path
  {
    var n := TrimmedLength(path, |path|);
    match LastSlash(path, n)
    case None => path[..n]
    case Some(i) => path[i + 1..n]
  }

  /** Only "" and "0" are empty strings: "00", "0.0" and " " are not. */
  lemma EmptyStrings()
    ensures Empty(None) && Empty(Some("")) && Empty(Some("0"))
    ensures !Empty(Some("00")) && !Empty(Some("0.0")) && !Empty(Some(" ")) && !Empty(Some("false"))
  {
  }

  /** The basename of `dir + "/" + name` is `name` when `name` is a non-empty segment. */
  lemma BasenameOfJoin(dir: string, name: string)
    requires name != [] && '/' !in name
    ensures Basename(dir + "/" + name) == name
  {
    var path := dir + "/" + name;
    assert path[|path| - 1] == name[|name| - 1];
    assert TrimmedLength(path, |path|) == |path|;
    assert path[|dir|] == '/';
    assert forall i :: |dir| < i < |path| ==> path[i] == name[i - |dir| - 1] != '/';
    assert LastSlash(path, |path|) == Some(|dir|);
    assert path[|dir| + 1..] == name;
  }

  /** `TrimmedLength` looks only at `path[..end]`. */
  lemma {:induction false} TrimmedLengthOfSamePrefix(p: string, q: string, end: nat)
    requires end <= |p| && end <= |q|
    requires forall i :: 0 <= i < end ==> p[i] == q[i]
    ensures TrimmedLength(p, end) == TrimmedLength(q, end)
  {
    if end > 0 && p[end - 1] == '/' {
      TrimmedLengthOfSamePrefix(p, q, end - 1);
    }
  }

  /** `LastSlash` looks only at `path[..end]`. */
  lemma {:induction false} LastSlashOfSamePrefix(p: string, q: string, end: nat)
    requires end <= |p| && end <= |q|
    requires forall i :: 0 <= i < end ==> p[i] == q[i]
    ensures LastSlash(p, end) == LastSlash(q, end)
  {
    if end > 0 && p[end - 1] != '/' {
      LastSlashOfSamePrefix(p, q, end - 1);
    }
  }

  /** Appending '/' leaves the trimmed length of the whole path unchanged. */
  lemma TrimmedLengthWithSlash(path: string)
    ensures TrimmedLength(path + "/", |path| + 1) == TrimmedLength(path, |path|)
  {
    var q := path + "/";
    assert q[|path|] == '/';
    assert forall i :: 0 <= i < |path| ==> q[i] == path[i];
    TrimmedLengthOfSamePrefix(path, q, |path|);
  }

  /** `Basename` is the slice between the last '/' before the trimmed end and that end. */
  lemma BasenameAsSlice(path: string, start: nat, n: nat)
    requires n == TrimmedLength(path, |path|)
    requires start == match LastSlash(path, n) case None => 0 case Some(i) => i + 1
    ensures start <= n && Basename(path) == path[start..n]
  {
  }

  /** A trailing '/' does not change the basename: `basename("a/b/")` is `basename("a/b")`. */
  lemma BasenameIgnoresTrailingSlash(path: string)
    ensures Basename(path + "/") == Basename(path)
  {
    var q := path + "/";
    TrimmedLengthWithSlash(path);
    var n := TrimmedLength(path, |path|);
    assert forall i :: 0 <= i < n ==> q[i] == path[i];
    LastSlashOfSamePrefix(path, q, n);
    var start := match LastSlash(path, n) case None => 0 case Some(i) => i + 1;
    BasenameAsSlice(path, start, n);
    BasenameAsSlice(q, start, n);
    assert q[start..n] == path[start..n];
  }

  lemma BasenameOfDirectoryExample()
    ensures Basename("a/b/") == "b"
  {
    assert "a/b/" == "a/b" + "/";
    BasenameIgnoresTrailingSlash("a/b");
    assert "a/b" == "a" + "/" + "b";
    BasenameOfJoin("a", "b");
  }
}
