/** Matching committed source URIs to listed files, and the prefix of them a watermark may skip. */
module Adoption {
  import opened Files

  // ---- `_normalize_source_path` ---------------------------------------------------------------

  predicate IsLetter(c: char) { 'a' <= c <= 'z' || 'A' <= c <= 'Z' }

  predicate IsSchemeChar(c: char) { IsLetter(c) || '0' <= c <= '9' || c == '+' || c == '.' || c == '-' }

  function SchemeRun(s: string): (n: nat)
    ensures n <= |s|
  {
    if s != "" && IsSchemeChar(s[0]) then 1 + SchemeRun(s[1..]) else 0
  }

  function AfterHost(s: string): string {
    if s == "" || s[0] == '/' then s else AfterHost(s[1..])
  }

  /** Drop a leading `scheme://host`. */
  function StripSchemeHost(s: string): string {
    var n := SchemeRun(s);
    if n > 0 && IsLetter(s[0]) && "://" <= s[n..] then AfterHost(s[n + 3..]) else s
  }

  function BeforeQuery(s: string): string {
    if s == "" || s[0] == '?' then "" else [s[0]] + BeforeQuery(s[1..])
  }

  function CollapseSlashes(s: string): string {
    if |s| >= 2 && s[0] == '/' && s[1] == '/' then CollapseSlashes(s[1..])
    else if s == "" then ""
    else [s[0]] + CollapseSlashes(s[1..])
  }

  function StripLeadingSlashes(s: string): string {
    if s != "" && s[0] == '/' then StripLeadingSlashes(s[1..]) else s
  }

  /** A listed path or `FILE.URI()` value, already trimmed and percent-decoded, as a `/`-rooted path. */
  function NormalizeSourcePath(decoded: string): string {
    "/" + StripLeadingSlashes(CollapseSlashes(BeforeQuery(StripSchemeHost(decoded))))
  }

  ghost predicate NoDoubleSlash(s: string) {
    forall i :: 0 <= i < |s| - 1 ==> !(s[i] == '/' && s[i + 1] == '/')
  }

  lemma {:induction false} CollapseLeavesNoDoubleSlash(s: string)
    ensures NoDoubleSlash(CollapseSlashes(s))
    ensures s != "" ==> CollapseSlashes(s) != "" && CollapseSlashes(s)[0] == s[0]
  {
    if |s| >= 2 && s[0] == '/' && s[1] == '/' {
      CollapseLeavesNoDoubleSlash(s[1..]);
    } else if s != "" {
      CollapseLeavesNoDoubleSlash(s[1..]);
      var rest := CollapseSlashes(s[1..]);
      var whole := CollapseSlashes(s);
      assert whole == [s[0]] + rest;
      forall i | 0 <= i < |whole| - 1 ensures !(whole[i] == '/' && whole[i + 1] == '/') {
        if i == 0 {
          assert whole[1] == rest[0] == s[1..][0];
        } else {
          assert whole[i] == rest[i - 1] && whole[i + 1] == rest[i];
        }
      }
    }
  }

  lemma {:induction false} StripLeavesNoDoubleSlash(s: string)
    requires NoDoubleSlash(s)
    ensures NoDoubleSlash(StripLeadingSlashes(s))
    ensures StripLeadingSlashes(s) != "" ==> StripLeadingSlashes(s)[0] != '/'
  {
    if s != "" && s[0] == '/' {
      assert forall i :: 0 <= i < |s[1..]| ==> s[1..][i] == s[i + 1];
      StripLeavesNoDoubleSlash(s[1..]);
    }
  }

  /** Normalized paths start with a single slash and never repeat one. */
  lemma NormalizedShape(decoded: string)
    ensures
      var path := NormalizeSourcePath(decoded);
      path != "" && path[0] == '/' && NoDoubleSlash(path)
  {
    var s := CollapseSlashes(BeforeQuery(StripSchemeHost(decoded)));
    CollapseLeavesNoDoubleSlash(BeforeQuery(StripSchemeHost(decoded)));
    StripLeavesNoDoubleSlash(s);
    var rest := StripLeadingSlashes(s);
    var path := NormalizeSourcePath(decoded);
    assert path == "/" + rest;
    forall i | 0 <= i < |path| - 1 ensures !(path[i] == '/' && path[i + 1] == '/') {
      assert path[i + 1] == rest[i];
      if i > 0 {
        assert path[i] == rest[i - 1];
      }
    }
  }

  // What the normal form forgets: scheme and host, a query, repeated slashes and a missing root.

  /** `s` starts with a scheme of `k` characters and "://". */
  ghost predicate HasScheme(s: string, k: nat) {
    && 0 < k && k + 3 <= |s| && s[k..k + 3] == "://"
    && ('a' <= s[0] <= 'z' || 'A' <= s[0] <= 'Z')
    && forall i :: 0 <= i < k ==>
         'a' <= s[i] <= 'z' || 'A' <= s[i] <= 'Z' || '0' <= s[i] <= '9' || s[i] == '+' || s[i] == '.' || s[i] == '-'
  }

  lemma {:induction false} SchemeRunIs(s: string, k: nat)
    requires k <= |s| && forall i :: 0 <= i < k ==> IsSchemeChar(s[i])
    requires k < |s| ==> !IsSchemeChar(s[k])
    ensures SchemeRun(s) == k
  {
    if k > 0 {
      SchemeRunIs(s[1..], k - 1);
    }
  }

  lemma {:induction false} SchemeRunShape(s: string)
    ensures forall i :: 0 <= i < SchemeRun(s) ==> IsSchemeChar(s[i])
  {
    if s != "" && IsSchemeChar(s[0]) {
      SchemeRunShape(s[1..]);
      forall i | 0 <= i < SchemeRun(s) ensures IsSchemeChar(s[i]) {
        if i > 0 {
          assert s[i] == s[1..][i - 1];
        }
      }
    }
  }

  lemma {:induction false} AfterHostIs(host: string, path: string)
    requires '/' !in host && (path == "" || path[0] == '/')
    ensures AfterHost(host + path) == path
  {
    if host == "" {
      assert host + path == path;
    } else {
      assert (host + path)[1..] == host[1..] + path;
      AfterHostIs(host[1..], path);
    }
  }

  lemma StripsSchemeHost(s: string, k: nat, host: string, path: string)
    requires HasScheme(s, k) && s[k + 3..] == host + path && '/' !in host && (path == "" || path[0] == '/')
    ensures StripSchemeHost(s) == path
  {
    hide AfterHost;
    assert s[k] == s[k..k + 3][0] == ':';
    SchemeRunIs(s, k);
    assert s[k..][..3] == s[k..k + 3];
    AfterHostIs(host, path);
  }

  lemma OnlySchemesAreStripped(s: string)
    ensures StripSchemeHost(s) == s || HasScheme(s, SchemeRun(s))
  {
    var n := SchemeRun(s);
    SchemeRunShape(s);
    if n > 0 && IsLetter(s[0]) && "://" <= s[n..] {
      assert s[n..n + 3] == s[n..][..3];
    }
  }

  lemma RootedHasNoScheme(s: string)
    requires s == "" || s[0] == '/'
    ensures StripSchemeHost(s) == s
  {}

  /** A URI has the normal form of the path after its scheme and host. */
  lemma SchemeAndHostAreDropped(scheme: string, host: string, path: string)
    requires HasScheme(scheme + "://", |scheme|) && '/' !in host && (path == "" || path[0] == '/')
    ensures NormalizeSourcePath(scheme + "://" + host + path) == NormalizeSourcePath(path)
  {
    hide StripSchemeHost, BeforeQuery, CollapseSlashes, StripLeadingSlashes;
    var uri := scheme + "://" + host + path;
    assert forall i :: 0 <= i < |scheme| ==> uri[i] == (scheme + "://")[i];
    assert uri[|scheme|..|scheme| + 3] == "://";
    assert uri[|scheme| + 3..] == host + path;
    StripsSchemeHost(uri, |scheme|, host, path);
    RootedHasNoScheme(path);
  }

  /** Without a scheme a path is taken from the root. */
  lemma RelativeIsRooted(path: string)
    requires forall k: nat :: !HasScheme(path, k)
    ensures NormalizeSourcePath("/" + path) == NormalizeSourcePath(path)
  {
    OnlySchemesAreStripped(path);
    RootedHasNoScheme("/" + path);
    var s := BeforeQuery(path);
    assert ("/" + path)[1..] == path;
    assert BeforeQuery("/" + path) == "/" + s;
    assert ("/" + s)[1..] == s;
    if s != "" && s[0] == '/' {
      assert CollapseSlashes("/" + s) == CollapseSlashes(s);
    } else {
      assert CollapseSlashes("/" + s) == "/" + CollapseSlashes(s);
      assert ("/" + CollapseSlashes(s))[1..] == CollapseSlashes(s);
    }
  }

  lemma {:induction false} BeforeQueryIs(s: string, rest: string)
    requires rest == "" || rest[0] == '?'
    ensures BeforeQuery(s + rest) == BeforeQuery(s)
    ensures '?' !in s ==> BeforeQuery(s) == s
  {
    if s == "" {
      assert s + rest == rest;
    } else {
      assert (s + rest)[1..] == s[1..] + rest;
      BeforeQueryIs(s[1..], rest);
      assert s == [s[0]] + s[1..];
    }
  }

  /** What follows a question mark after the path changes nothing. */
  lemma QueryIsDropped(path: string, query: string)
    requires path != "" && path[0] == '/'
    ensures NormalizeSourcePath(path + "?" + query) == NormalizeSourcePath(path)
  {
    hide BeforeQuery, CollapseSlashes, StripLeadingSlashes;
    RootedHasNoScheme(path);
    RootedHasNoScheme(path + "?" + query);
    assert path + "?" + query == path + ("?" + query);
    BeforeQueryIs(path, "?" + query);
  }

  lemma {:induction false} CollapseDouble(a: string, b: string)
    ensures CollapseSlashes(a + "//" + b) == CollapseSlashes(a + "/" + b)
    decreases |a|
  {
    var twice, once := a + "//" + b, a + "/" + b;
    if a == "" {
      assert twice[1..] == once;
    } else {
      CollapseDouble(a[1..], b);
      assert twice[1..] == a[1..] + "//" + b && once[1..] == a[1..] + "/" + b;
    }
  }

  lemma QueryAfterSlashes(a: string, b: string)
    requires '?' !in a
    ensures BeforeQuery(a + "/" + b) == a + "/" + BeforeQuery(b)
    ensures BeforeQuery(a + "//" + b) == a + "//" + BeforeQuery(b)
  {
    hide BeforeQuery;
    BeforeQuerySplits(a + "/", b);
    BeforeQuerySplits(a + "//", b);
  }

  /** Slashes in a row count as one. */
  lemma RepeatedSlashIsOne(a: string, b: string)
    requires (a == "" || a[0] == '/') && '?' !in a
    ensures NormalizeSourcePath(a + "//" + b) == NormalizeSourcePath(a + "/" + b)
  {
    hide CollapseSlashes, StripLeadingSlashes, BeforeQuery;
    RootedHasNoScheme(a + "//" + b);
    RootedHasNoScheme(a + "/" + b);
    QueryAfterSlashes(a, b);
    CollapseDouble(a, BeforeQuery(b));
  }

  lemma {:induction false} BeforeQuerySplits(a: string, b: string)
    requires '?' !in a
    ensures BeforeQuery(a + b) == a + BeforeQuery(b)
  {
    if a == "" {
      assert a + b == b;
    } else {
      assert (a + b)[1..] == a[1..] + b;
      BeforeQuerySplits(a[1..], b);
    }
  }

  lemma {:induction false} NothingToCollapse(s: string)
    requires NoDoubleSlash(s)
    ensures CollapseSlashes(s) == s
  {
    if s != "" {
      assert forall i :: 0 <= i < |s[1..]| ==> s[1..][i] == s[i + 1];
      NothingToCollapse(s[1..]);
      assert s == [s[0]] + s[1..];
      assert |s| >= 2 ==> !(s[0] == '/' && s[0 + 1] == '/');
    }
  }

  /** A rooted path without a question mark and without double slashes is its own normal form. */
  lemma RootedPathIsNormal(path: string)
    requires path != "" && path[0] == '/' && '?' !in path && NoDoubleSlash(path)
    ensures NormalizeSourcePath(path) == path
  {
    hide BeforeQuery, CollapseSlashes;
    RootedHasNoScheme(path);
    BeforeQueryIs(path, "");
    assert path + "" == path;
    NothingToCollapse(path);
    assert |path| > 1 ==> path[0 + 1] != '/';
    assert "/" + path[1..] == path;
    assert StripLeadingSlashes(path) == path[1..];
  }

  // ---- `_match_source_files` ------------------------------------------------------------------

  /** Python's `s.endswith(suffix)`. */
  predicate EndsWith(s: string, suffix: string) {
    |suffix| <= |s| && s[|s| - |suffix|..] == suffix
  }

  /** Python's `s.rsplit("/", 1)[-1]`. */
  function LastSegment(s: string): string {
    if s == "" || s[|s| - 1] == '/' then "" else LastSegment(s[..|s| - 1]) + [s[|s| - 1]]
  }

  /** Two normalized paths, one a suffix of the other. */
  predicate SuffixRelated(a: string, b: string) {
    EndsWith(a, b) || EndsWith(b, a)
  }

  lemma EndsWithIff(s: string, suffix: string)
    ensures EndsWith(s, suffix) <==> exists before :: s == before + suffix
  {
    if EndsWith(s, suffix) {
      assert s == s[..|s| - |suffix|] + suffix;
    }
  }

  /** The last segment is what follows the last slash. */
  lemma {:induction false} LastSegmentIs(before: string, name: string)
    requires '/' !in name
    ensures LastSegment(before + "/" + name) == name && LastSegment(name) == name
  {
    if name != "" {
      var n := |name| - 1;
      LastSegmentIs(before, name[..n]);
      assert (before + "/" + name)[..|before + "/" + name| - 1] == before + "/" + name[..n];
      assert name == name[..n] + [name[n]];
    }
  }

  /** The quadratic comparison: every URI against every file. */
  ghost function NaiveMatches(uris: set<string>, files: seq<FileInfo>): set<string> {
    set f, uri | f in files && uri in uris && SuffixRelated(NormalizeSourcePath(uri), NormalizeSourcePath(f.path)) ::
      f.path
  }

  lemma {:induction false} SuffixSharesLastSegment(s: string, suffix: string)
    requires EndsWith(s, suffix) && suffix != "" && suffix[0] == '/'
    ensures LastSegment(s) == LastSegment(suffix)
    decreases |suffix|
  {
    var n := |suffix|;
    assert s[|s| - n..][n - 1] == suffix[n - 1] == s[|s| - 1];
    if suffix[n - 1] != '/' {
      assert s[..|s| - 1][|s| - n..] == suffix[..n - 1];
      SuffixSharesLastSegment(s[..|s| - 1], suffix[..n - 1]);
    }
  }

  lemma RelatedPathsShareLastSegment(a: string, b: string)
    requires SuffixRelated(NormalizeSourcePath(a), NormalizeSourcePath(b))
    ensures LastSegment(NormalizeSourcePath(a)) == LastSegment(NormalizeSourcePath(b))
  {
    hide NormalizeSourcePath;
    NormalizedShape(a);
    NormalizedShape(b);
    if EndsWith(NormalizeSourcePath(a), NormalizeSourcePath(b)) {
      SuffixSharesLastSegment(NormalizeSourcePath(a), NormalizeSourcePath(b));
    } else {
      SuffixSharesLastSegment(NormalizeSourcePath(b), NormalizeSourcePath(a));
    }
  }

  type Index = map<string, seq<(string, string)>>

  function Entry(f: FileInfo): (string, string) { (NormalizeSourcePath(f.path), f.path) }

  function Bucket(byName: Index, name: string): seq<(string, string)> {
    if name in byName then byName[name] else []
  }

  /** Every file is in the bucket of its last path segment, and buckets hold nothing else. */
  ghost predicate Indexes(byName: Index, files: seq<FileInfo>) {
    && (forall f :: f in files ==> Entry(f) in Bucket(byName, LastSegment(Entry(f).0)))
    && (forall name, e :: e in Bucket(byName, name) ==> exists f :: f in files && Entry(f) == e)
  }

  lemma IndexSnoc(byName: Index, files: seq<FileInfo>, f: FileInfo)
    requires Indexes(byName, files)
    ensures
      var name := LastSegment(Entry(f).0);
      Indexes(byName[name := Bucket(byName, name) + [Entry(f)]], files + [f])
  {
    hide Entry, LastSegment;
    var name := LastSegment(Entry(f).0);
    var next := byName[name := Bucket(byName, name) + [Entry(f)]];
    forall g | g in files + [f] ensures Entry(g) in Bucket(next, LastSegment(Entry(g).0)) {
      if g != f {
        assert g in files;
      }
    }
    forall n, e | e in Bucket(next, n) ensures exists g :: g in files + [f] && Entry(g) == e {
      if e in Bucket(byName, n) {
        var g :| g in files && Entry(g) == e;
        assert g in files + [f];
      } else {
        assert e == Entry(f) && f in files + [f];
      }
    }
  }

  /** The first loop: files grouped by last path segment. */
  method IndexByName(files: seq<FileInfo>) returns (byName: Index)
    ensures Indexes(byName, files)
  {
    byName := map[];
    assert Indexes(byName, files[..0]);
    hide *;
    for i := 0 to |files|
      invariant Indexes(byName, files[..i])
    {
      var f := files[i];
      IndexSnoc(byName, files[..i], f);
      assert files[..i + 1] == files[..i] + [f];
      var name := LastSegment(Entry(f).0);
      byName := byName[name := Bucket(byName, name) + [Entry(f)]];
    }
    assert files[..|files|] == files;
  }

  /** The inner loop of the second phase: one URI against its bucket. */
  method MatchBucket(uri: string, bucket: seq<(string, string)>) returns (matched: set<string>)
    ensures forall path :: path in matched <==>
      exists e :: e in bucket && e.1 == path && SuffixRelated(NormalizeSourcePath(uri), e.0)
  {
    hide NormalizeSourcePath, SuffixRelated;
    matched := {};
    var normalizedUri := NormalizeSourcePath(uri);
    for i := 0 to |bucket|
      invariant forall path :: path in matched <==>
        exists e :: e in bucket[..i] && e.1 == path && SuffixRelated(normalizedUri, e.0)
    {
      assert bucket[..i + 1] == bucket[..i] + [bucket[i]];
      if SuffixRelated(normalizedUri, bucket[i].0) {
        matched := matched + {bucket[i].1};
      }
    }
    assert bucket[..|bucket|] == bucket;
  }

  /** The bucket of a URI holds every file related to it. */
  lemma BucketMatchesAll(byName: Index, files: seq<FileInfo>, uri: string, path: string)
    requires Indexes(byName, files)
    ensures path in NaiveMatches({uri}, files) <==>
      exists e :: e in Bucket(byName, LastSegment(NormalizeSourcePath(uri))) && e.1 == path
                  && SuffixRelated(NormalizeSourcePath(uri), e.0)
  {
    hide NormalizeSourcePath, SuffixRelated, LastSegment, Bucket;
    var bucket := Bucket(byName, LastSegment(NormalizeSourcePath(uri)));
    if path in NaiveMatches({uri}, files) {
      var f :| f in files && f.path == path && SuffixRelated(NormalizeSourcePath(uri), NormalizeSourcePath(f.path));
      RelatedPathsShareLastSegment(uri, f.path);
      assert Entry(f) in bucket;
    }
    if e :| e in bucket && e.1 == path && SuffixRelated(NormalizeSourcePath(uri), e.0) {
      var f :| f in files && Entry(f) == e;
      assert f.path == path;
    }
  }

  /** One of two normal forms ends in the other. */
  ghost predicate OneEndsInOther(a: string, b: string) {
    exists before: string :: a == before + b || b == before + a
  }

  /** A path is matched exactly when a file has it and its normal form and that of some URI end one in the other. */
  lemma MatchedIff(uris: set<string>, files: seq<FileInfo>, path: string)
    ensures path in NaiveMatches(uris, files) <==>
      exists f, uri :: f in files && f.path == path && uri in uris
                       && OneEndsInOther(NormalizeSourcePath(uri), NormalizeSourcePath(path))
  {
    hide NormalizeSourcePath, EndsWith;
    forall uri ensures SuffixRelated(NormalizeSourcePath(uri), NormalizeSourcePath(path)) <==>
                       OneEndsInOther(NormalizeSourcePath(uri), NormalizeSourcePath(path))
    {
      SuffixRelatedIff(NormalizeSourcePath(uri), NormalizeSourcePath(path));
    }
  }

  lemma SuffixRelatedIff(a: string, b: string)
    ensures SuffixRelated(a, b) <==> OneEndsInOther(a, b)
  {
    hide EndsWith;
    EndsWithIff(a, b);
    EndsWithIff(b, a);
  }

  /** `uri` is `scheme://host`, further leading directories or none, the path, and a query or none. */
  ghost predicate Locates(uri: string, scheme: string, host: string, lead: string, path: string, query: string) {
    && HasScheme(scheme + "://", |scheme|) && '/' !in host
    && path != "" && path[0] == '/' && (lead == "" || lead[0] == '/')
    && '?' !in lead + path && NoDoubleSlash(lead + path)
    && (uri == scheme + "://" + host + (lead + path) || uri == scheme + "://" + host + (lead + path + "?" + query))
  }

  /** A listed file is matched by every URI that names its path after scheme and host. */
  lemma LocatedFileIsMatched(
    uris: set<string>, files: seq<FileInfo>, f: FileInfo, uri: string, scheme: string, host: string, lead: string, query: string)
    requires f in files && uri in uris && Locates(uri, scheme, host, lead, f.path, query)
    ensures f.path in NaiveMatches(uris, files)
  {
    hide NormalizeSourcePath, HasScheme;
    var whole := lead + f.path;
    assert whole[0] == '/';
    forall i | 0 <= i < |f.path| ensures f.path[i] == whole[|lead| + i] {}
    assert NoDoubleSlash(f.path) by {
      forall i | 0 <= i < |f.path| - 1 ensures !(f.path[i] == '/' && f.path[i + 1] == '/') {
        assert f.path[i] == whole[|lead| + i] && f.path[i + 1] == whole[(|lead| + i) + 1];
      }
    }
    RootedPathIsNormal(f.path);
    RootedPathIsNormal(whole);
    QueryIsDropped(whole, query);
    assert whole[0] == (whole + "?" + query)[0];
    SchemeAndHostAreDropped(scheme, host, whole);
    SchemeAndHostAreDropped(scheme, host, whole + "?" + query);
    assert OneEndsInOther(NormalizeSourcePath(uri), NormalizeSourcePath(f.path)) by {
      assert NormalizeSourcePath(uri) == lead + NormalizeSourcePath(f.path);
    }
    MatchedIff(uris, files, f.path);
  }

  /** `_match_source_files`: the bucketed matcher returns what the quadratic comparison returns. */
  method MatchSourceFiles(uris: set<string>, files: seq<FileInfo>) returns (matched: set<string>)
    ensures matched == NaiveMatches(uris, files)
    ensures forall f, uri, scheme, host, lead, query ::
      f in files && uri in uris && Locates(uri, scheme, host, lead, f.path, query) ==> f.path in matched
  {
    hide Locates;
    forall f, uri, scheme, host, lead, query |
      f in files && uri in uris && Locates(uri, scheme, host, lead, f.path, query)
      ensures f.path in NaiveMatches(uris, files)
    {
      LocatedFileIsMatched(uris, files, f, uri, scheme, host, lead, query);
    }
    var byName := IndexByName(files);
    matched := {};
    var remaining := uris;
    assert matched == NaiveMatches(uris - remaining, files);
    hide NormalizeSourcePath, SuffixRelated, LastSegment, Bucket, Indexes;
    while remaining != {}
      invariant remaining <= uris
      invariant matched == NaiveMatches(uris - remaining, files)
      decreases |remaining|
    {
      var uri :| uri in remaining;
      var found := MatchBucket(uri, Bucket(byName, LastSegment(NormalizeSourcePath(uri))));
      forall path ensures path in found <==> path in NaiveMatches({uri}, files) {
        BucketMatchesAll(byName, files, uri, path);
      }
      remaining := remaining - {uri};
      assert uris - remaining == (uris - (remaining + {uri})) + {uri};
      matched := matched + found;
    }
    assert uris - remaining == uris;
  }

  // ---- `_adoptable_prefix` --------------------------------------------------------------------

  function OlderThan(files: seq<FileInfo>, t: int): seq<FileInfo> {
    if files == [] then []
    else
      var n := |files| - 1;
      OlderThan(files[..n], t) + (if files[n].modificationTime < t then [files[n]] else [])
  }

  /** How many leading files are adopted. */
  function AdoptedRun(files: seq<FileInfo>, adopted: set<string>): (n: nat)
    ensures n <= |files|
  {
    if files != [] && files[0].path in adopted then 1 + AdoptedRun(files[1..], adopted) else 0
  }

  function AdoptablePrefix(files: seq<FileInfo>, adopted: set<string>): seq<FileInfo> {
    var n := AdoptedRun(files, adopted);
    if n == |files| then files else OlderThan(files[..n], files[n].modificationTime)
  }

  lemma {:induction false} AdoptedRunIs(files: seq<FileInfo>, adopted: set<string>, n: nat)
    requires n <= |files|
    requires forall i :: 0 <= i < n ==> files[i].path in adopted
    requires n < |files| ==> files[n].path !in adopted
    ensures AdoptedRun(files, adopted) == n
    decreases n
  {
    if n > 0 {
      AdoptedRunIs(files[1..], adopted, n - 1);
    }
  }

  /** The loop with its early return at the first file that was not adopted. */
  method ComputeAdoptablePrefix(files: seq<FileInfo>, adopted: set<string>) returns (prefix: seq<FileInfo>)
    ensures prefix == AdoptablePrefix(files, adopted)
  {
    hide OlderThan;
    prefix := [];
    for i := 0 to |files|
      invariant prefix == files[..i]
      invariant forall j :: 0 <= j < i ==> files[j].path in adopted
    {
      var f := files[i];
      if f.path !in adopted {
        AdoptedRunIs(files, adopted, i);
        return OlderThan(prefix, f.modificationTime);
      }
      prefix := prefix + [f];
    }
    AdoptedRunIs(files, adopted, |files|);
  }

  lemma {:induction false} AdoptedRunMembers(files: seq<FileInfo>, adopted: set<string>)
    ensures
      var n := AdoptedRun(files, adopted);
      && (forall i :: 0 <= i < n ==> files[i].path in adopted)
      && (n < |files| ==> files[n].path !in adopted)
  {
    if files != [] && files[0].path in adopted {
      AdoptedRunMembers(files[1..], adopted);
      var n := AdoptedRun(files[1..], adopted);
      forall i | 0 <= i < n + 1 ensures files[i].path in adopted {
        if i > 0 {
          assert files[i] == files[1..][i - 1];
        }
      }
    }
  }

  lemma {:induction false} OlderThanMembers(files: seq<FileInfo>, t: int)
    ensures forall f :: f in OlderThan(files, t) <==> f in files && f.modificationTime < t
  {
    if files != [] {
      var n := |files| - 1;
      OlderThanMembers(files[..n], t);
      assert files == files[..n] + [files[n]];
    }
  }

  lemma {:induction false} AllKept(files: seq<FileInfo>, t: int)
    requires forall i :: 0 <= i < |files| ==> files[i].modificationTime < t
    ensures OlderThan(files, t) == files
  {
    if files != [] {
      AllKept(files[..|files| - 1], t);
    }
  }

  lemma {:induction false} OlderThanIsPrefix(files: seq<FileInfo>, t: int)
    requires Sorted(files)
    ensures OlderThan(files, t) <= files
  {
    if files != [] {
      var n := |files| - 1;
      if files[n].modificationTime < t {
        AllKept(files, t);
      } else {
        OlderThanIsPrefix(files[..n], t);
      }
    }
  }

  /** Every file that was not adopted is younger than `t`. */
  ghost predicate BeforeEveryGap(files: seq<FileInfo>, adopted: set<string>, t: int) {
    forall g :: g in files && g.path !in adopted ==> t < g.modificationTime
  }

  lemma FirstGapIsEarliest(files: seq<FileInfo>, adopted: set<string>, t: int)
    requires Sorted(files) && AdoptedRun(files, adopted) < |files|
    ensures BeforeEveryGap(files, adopted, t) <==> t < files[AdoptedRun(files, adopted)].modificationTime
  {
    hide AdoptedRun;
    var n := AdoptedRun(files, adopted);
    AdoptedRunMembers(files, adopted);
    assert files[n] in files;
    forall g | g in files && g.path !in adopted ensures files[n].modificationTime <= g.modificationTime {
      var j :| 0 <= j < |files| && files[j] == g;
    }
  }

  /** On a sorted list the prefix is exactly the files strictly older than every file not adopted. */
  lemma AdoptablePrefixIsOlderThanGap(files: seq<FileInfo>, adopted: set<string>)
    requires Sorted(files)
    ensures
      var prefix := AdoptablePrefix(files, adopted);
      && prefix <= files
      && (forall f :: f in prefix <==> f in files && BeforeEveryGap(files, adopted, f.modificationTime))
  {
    hide OlderThan, BeforeEveryGap, AdoptedRun;
    var n := AdoptedRun(files, adopted);
    AdoptedRunMembers(files, adopted);
    if n == |files| {
      forall f | f in files ensures BeforeEveryGap(files, adopted, f.modificationTime) {
        NoGap(files, adopted, f.modificationTime);
      }
    } else {
      OlderThanMembers(files[..n], files[n].modificationTime);
      OlderThanIsPrefix(files[..n], files[n].modificationTime);
      forall f | f in files ensures BeforeEveryGap(files, adopted, f.modificationTime) <==> f in AdoptablePrefix(files, adopted) {
        FirstGapIsEarliest(files, adopted, f.modificationTime);
        var i :| 0 <= i < |files| && files[i] == f;
        assert i < n ==> f in files[..n];
      }
      forall f | f in files[..n] ensures f in files {}
    }
  }

  lemma NoGap(files: seq<FileInfo>, adopted: set<string>, t: int)
    requires forall i :: 0 <= i < |files| ==> files[i].path in adopted
    ensures BeforeEveryGap(files, adopted, t)
  {}

  /** A watermark at `t` would skip adopted files only. */
  ghost predicate SkipsOnlyAdopted(files: seq<FileInfo>, adopted: set<string>, t: int) {
    forall g :: g in files && g.modificationTime <= t ==> g.path in adopted
  }

  /**
   * The watermark computed from the prefix skips adopted files only, all of them in the prefix,
   * and a watermark at any time that skips adopted files only skips no file beyond the prefix.
   */
  lemma AdoptionIsLargestSafeCut(files: seq<FileInfo>, adopted: set<string>, t: int)
    requires Sorted(files)
    ensures
      var prefix := AdoptablePrefix(files, adopted);
      && (prefix != [] ==>
            && SkipsOnlyAdopted(files, adopted, MaxTime(prefix))
            && forall f :: f in prefix <==> f in files && f.modificationTime <= MaxTime(prefix))
      && (SkipsOnlyAdopted(files, adopted, t) ==>
            forall f :: f in files && f.modificationTime <= t ==> f in prefix)
  {
    hide AdoptablePrefix, MaxTime;
    var prefix := AdoptablePrefix(files, adopted);
    AdoptablePrefixIsOlderThanGap(files, adopted);
    if prefix != [] {
      MaxTimeIsMaximum(prefix);
      var last :| last in prefix && last.modificationTime == MaxTime(prefix);
      assert BeforeEveryGap(files, adopted, last.modificationTime);
      forall f | f in files && f.modificationTime <= MaxTime(prefix) ensures f in prefix && f.path in adopted {
        assert BeforeEveryGap(files, adopted, f.modificationTime);
      }
    }
    if SkipsOnlyAdopted(files, adopted, t) {
      forall f | f in files && f.modificationTime <= t ensures f in prefix {
        assert BeforeEveryGap(files, adopted, f.modificationTime);
      }
    }
  }
}
