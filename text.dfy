/** String tests the server uses to classify a request: the suffix test on the raw
    request URL (the upgrade handler) and the pathname Express routes on (the URL up
    to its query string). */
module Text {

  predicate StartsWith(s: string, prefix: string) {
    |prefix| <= |s| && s[..|prefix|] == prefix
  }

  /** JavaScript's `String.prototype.endsWith`: a test on the whole string. */
  predicate EndsWith(s: string, suffix: string)
    ensures EndsWith(s, suffix) ==> |suffix| <= |s| && s == s[..|s| - |suffix|] + suffix
  {
    |suffix| <= |s| && s[|s| - |suffix|..] == suffix
  }

  /** `s` ends with `suffix` exactly when `s` is something followed by `suffix`. */
  lemma EndsWithIffSplit(s: string, suffix: string)
    ensures EndsWith(s, suffix) <==> exists p: string :: s == p + suffix
  {
    if EndsWith(s, suffix) {
      var p := s[..|s| - |suffix|];
      assert s == p + suffix;
    }
    if exists p: string :: s == p + suffix {
      var p: string :| s == p + suffix;
      assert s[|s| - |suffix|..] == suffix;
    }
  }

  /** The pathname of a request target in origin form, as Express reads
      `req.path`: everything before the first '?' or '#'. The result is the
      longest prefix of `url` holding neither. */
  function PathOf(url: string): (path: string)
    ensures StartsWith(url, path)
    ensures '?' !in path && '#' !in path
    ensures path == url || url[|path|] == '?' || url[|path|] == '#'
  {
    if url == [] || url[0] == '?' || url[0] == '#' then []
    else [url[0]] + PathOf(url[1..])
  }

  /** A prefix free of '?' and '#' is part of the pathname, whatever follows it. */
  lemma {:induction false} PathOfPrefix(prefix: string, rest: string)
    requires '?' !in prefix && '#' !in prefix
    ensures PathOf(prefix + rest) == prefix + PathOf(rest)
  {
    if prefix != [] {
      assert (prefix + rest)[0] == prefix[0] && prefix[0] in prefix;
      assert (prefix + rest)[1..] == prefix[1..] + rest;
      PathOfPrefix(prefix[1..], rest);
      assert PathOf(prefix + rest) == [prefix[0]] + PathOf((prefix + rest)[1..]);
      assert prefix == [prefix[0]] + prefix[1..];
    } else {
      assert prefix + rest == rest;
    }
  }

  /** Adding '/' right after the pathname adds it to the pathname. */
  lemma SlashedPath(url: string)
    ensures PathOf(PathOf(url) + "/" + url[|PathOf(url)|..]) == PathOf(url) + "/"
  {
    var path := PathOf(url);
    var rest := url[|path|..];
    assert path + "/" + rest == path + ("/" + rest);
    PathOfPrefix(path, "/" + rest);
    assert ("/" + rest)[1..] == rest;
  }

  /** A query string never takes part in the pathname. */
  lemma {:induction false} PathOfDropsQuery(path: string, query: string)
    requires '?' !in path && '#' !in path
    ensures PathOf(path + "?" + query) == path
  {
    if path == [] {
      assert (path + "?" + query)[0] == '?';
    } else {
      assert (path + "?" + query)[1..] == path[1..] + "?" + query;
      PathOfDropsQuery(path[1..], query);
    }
  }
}
