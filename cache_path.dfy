/** The naming scheme of the package cache: a pure function of the store
    directory, the package name and the version,
    `storeDir/_<name with its first '/' turned into '_'>@<version>@<name>`. */
module CacheNaming {
  import opened Environment

  /** `String.prototype.indexOf` for one character: the first index, or -1. */
  function IndexOf(s: string, c: char): (i: int)
    ensures -1 <= i < |s|
    ensures i == -1 <==> c !in s
    ensures 0 <= i ==> s[i] == c && c !in s[..i]
  {
    if s == [] then -1
    else if s[0] == c then 0
    else
      var j := IndexOf(s[1..], c);
      if j < 0 then -1
      else
        assert s[..j + 1] == [s[0]] + s[1..][..j];
        j + 1
  }

  /** `s.replace(from, to)` with a one-character string pattern: only the
      first occurrence is replaced (see `ReplaceFirstReplacesFirst`). */
  function ReplaceFirst(s: string, from: char, to: char): (r: string)
    ensures |r| == |s|
  {
    if s == [] then []
    else if s[0] == from then [to] + s[1..]
    else [s[0]] + ReplaceFirst(s[1..], from, to)
  }

  /** Without an occurrence of `from` the string is unchanged. */
  lemma {:induction false} ReplaceFirstAbsent(s: string, from: char, to: char)
    requires from !in s
    ensures ReplaceFirst(s, from, to) == s
    decreases |s|
  {
    if s != [] {
      assert forall c :: c in s[1..] ==> c in s;
      ReplaceFirstAbsent(s[1..], from, to);
    }
  }

  /** When the first occurrence of `from` is at `i`, exactly that character becomes `to`. */
  lemma {:induction false} ReplaceFirstAt(s: string, from: char, to: char, i: nat)
    requires i < |s| && s[i] == from && from !in s[..i]
    ensures ReplaceFirst(s, from, to) == s[..i] + [to] + s[i + 1..]
    decreases i
  {
    if i > 0 {
      assert s[0] == s[..i][0];
      var t := s[1..];
      assert t[..i - 1] == s[1..i];
      assert forall c :: c in s[1..i] ==> c in s[..i];
      ReplaceFirstAt(t, from, to, i - 1);
      assert [s[0]] + t[..i - 1] == s[..i];
      assert t[i..] == s[i + 1..];
    }
  }

  /** Only the first occurrence is replaced, located by `IndexOf`. */
  lemma ReplaceFirstReplacesFirst(s: string, from: char, to: char)
    ensures var i := IndexOf(s, from);
      if i < 0 then ReplaceFirst(s, from, to) == s
      else ReplaceFirst(s, from, to) == s[..i] + [to] + s[i + 1..]
  {
    var i := IndexOf(s, from);
    if i < 0 {
      ReplaceFirstAbsent(s, from, to);
    } else {
      ReplaceFirstAt(s, from, to, i);
    }
  }

  /** `cacheFilePathPrefix`: the package name with its first '/' replaced by '_'. */
  function CacheFilePathPrefix(packageName: string): string {
    ReplaceFirst(packageName, '/', '_')
  }

  /** The directory name of one cached version: `_<prefix>@<version>@<name>`. */
  function CacheDirName(prefix: string, version: string, packageName: string): string {
    "_" + prefix + "@" + version + "@" + packageName
  }

  /** The cache path of `packageName` at `version` under `storeDir`. */
  function CachePath(storeDir: Path, packageName: string, version: string): Path {
    Join(storeDir, CacheDirName(CacheFilePathPrefix(packageName), version, packageName))
  }

  /** Only the first '/' is replaced: everything before it has none, everything after it is kept. */
  lemma ReplaceFirstSlash(scope: string, rest: string)
    requires '/' !in scope
    ensures CacheFilePathPrefix(scope + "/" + rest) == scope + "_" + rest
  {
    var s := scope + "/" + rest;
    assert s[|scope|] == '/';
    assert s[..|scope|] == scope;
    ReplaceFirstAt(s, '/', '_', |scope|);
    assert s[|scope| + 1..] == rest;
  }

  /** A scoped name keeps its scope and loses only the first '/':
      `@jpon-cli/core` becomes `@jpon-cli_core`. */
  lemma ScopedPrefixExample()
    ensures CacheFilePathPrefix("@jpon-cli" + "/" + "core") == "@jpon-cli" + "_" + "core"
  {
    ReplaceFirstSlash("@jpon-cli", "core");
  }

  /** A name without '/' is its own prefix. */
  lemma PrefixOfPlainName(packageName: string)
    requires '/' !in packageName
    ensures CacheFilePathPrefix(packageName) == packageName
  {
    ReplaceFirstAbsent(packageName, '/', '_');
  }

  /** The prefix has exactly as many characters as the name. */
  lemma PrefixLength(packageName: string)
    ensures |CacheFilePathPrefix(packageName)| == |packageName|
  {
  }

  /** The length of a cache path: the name appears twice, once as the prefix. */
  lemma CachePathLength(storeDir: Path, packageName: string, version: string)
    ensures |CachePath(storeDir, packageName, version)| == |storeDir| + 4 + 2 * |packageName| + |version|
  {
    PrefixLength(packageName);
  }

  /** A cache path, cut around the version. */
  lemma CachePathAroundVersion(storeDir: Path, packageName: string, version: string)
    ensures CachePath(storeDir, packageName, version)
         == (storeDir + "/_" + CacheFilePathPrefix(packageName) + "@") + version + ("@" + packageName)
  {
  }

  /** A cache path, cut before the trailing name. */
  lemma CachePathBeforeName(storeDir: Path, packageName: string, version: string)
    ensures CachePath(storeDir, packageName, version)
         == (storeDir + "/_" + CacheFilePathPrefix(packageName) + "@" + version + "@") + packageName
  {
  }

  /** For a fixed store directory and package, distinct versions have distinct cache paths. */
  lemma {:induction false} CachePathInjectiveInVersion(storeDir: Path, packageName: string, v1: string, v2: string)
    requires CachePath(storeDir, packageName, v1) == CachePath(storeDir, packageName, v2)
    ensures v1 == v2
  {
    var head := storeDir + "/_" + CacheFilePathPrefix(packageName) + "@";
    var tail := "@" + packageName;
    CachePathAroundVersion(storeDir, packageName, v1);
    CachePathAroundVersion(storeDir, packageName, v2);
    CachePathLength(storeDir, packageName, v1);
    CachePathLength(storeDir, packageName, v2);
    assert v1 == (head + v1 + tail)[|head|..|head| + |v1|];
    assert v2 == (head + v2 + tail)[|head|..|head| + |v2|];
  }

  /** For a fixed store directory and version, distinct package names have distinct cache paths. */
  lemma {:induction false} CachePathInjectiveInName(storeDir: Path, n1: string, n2: string, version: string)
    requires CachePath(storeDir, n1, version) == CachePath(storeDir, n2, version)
    ensures n1 == n2
  {
    var p := CachePath(storeDir, n1, version);
    CachePathBeforeName(storeDir, n1, version);
    CachePathBeforeName(storeDir, n2, version);
    CachePathLength(storeDir, n1, version);
    CachePathLength(storeDir, n2, version);
    var h1 := storeDir + "/_" + CacheFilePathPrefix(n1) + "@" + version + "@";
    var h2 := storeDir + "/_" + CacheFilePathPrefix(n2) + "@" + version + "@";
    assert p == h1 + n1 && p == h2 + n2;
    assert |n1| == |n2|;
    assert n1 == p[|h1|..];
    assert n2 == p[|h2|..];
  }

  /** For a fixed package and version, distinct store directories give distinct cache paths. */
  lemma {:induction false} CachePathInjectiveInStoreDir(d1: Path, d2: Path, packageName: string, version: string)
    requires CachePath(d1, packageName, version) == CachePath(d2, packageName, version)
    ensures d1 == d2
  {
    var p := CachePath(d1, packageName, version);
    var seg := "/" + CacheDirName(CacheFilePathPrefix(packageName), version, packageName);
    assert p == d1 + seg;
    assert CachePath(d2, packageName, version) == d2 + seg;
    assert d1 == p[..|d1|];
    assert d2 == p[..|d2|];
  }

  /** A cache path always lies strictly below its store directory, so it is never the store directory itself. */
  lemma CachePathIsNotStoreDir(storeDir: Path, packageName: string, version: string)
    ensures CachePath(storeDir, packageName, version) != storeDir
  {
  }

  /** The scheme is not injective over (name, version) pairs taken together when
      names and versions may contain '@': two different pairs share a path. */
  lemma NameVersionCollision(storeDir: Path)
    ensures CachePath(storeDir, "a@a", "x") == CachePath(storeDir, "a", "a@x@a")
  {
    PrefixOfPlainName("a@a");
    PrefixOfPlainName("a");
  }
}
