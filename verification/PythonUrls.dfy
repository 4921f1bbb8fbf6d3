/**
  Python's urllib.parse.urlparse, as far as scheme, host and path go, and what it makes of the two kinds
  of strings the executor gives it: S3 URLs and file names.
 */
module PythonUrls {
  import opened Wrappers

  datatype Url = Url(scheme: string, netloc: string, path: string)

  // The schemes whose last path segment may carry parameters after a semicolon.
  const USES_PARAMS :=
    ["", "ftp", "hdl", "prospero", "http", "https", "shttp", "rtsp", "rtsps", "rtspu", "sip", "sips", "mms", "sftp", "tel"]

  predicate IsUnsafe(c: char) {
    c == '\t' || c == '\r' || c == '\n'
  }

  predicate IsControlOrSpace(c: char) {
    c <= ' '
  }

  function WithoutUnsafe(s: string): (r: string)
    ensures |r| <= |s|
  {
    if s == "" then "" else (if IsUnsafe(s[0]) then [] else [s[0]]) + WithoutUnsafe(s[1..])
  }

  function LeftStripped(s: string): string {
    if s != "" && IsControlOrSpace(s[0]) then LeftStripped(s[1..]) else s
  }

  // s.lstrip("/")
  function WithoutLeadingSlashes(s: string): string {
    if s != "" && s[0] == '/' then WithoutLeadingSlashes(s[1..]) else s
  }

  function WithoutTrailingSlashes(s: string): string {
    if s != "" && s[|s| - 1] == '/' then WithoutTrailingSlashes(s[..|s| - 1]) else s
  }

  // s.find(c), or the length.
  function Find(s: string, c: char): (i: nat)
    ensures i <= |s| && c !in s[..i]
    ensures i < |s| ==> s[i] == c
    ensures c in s <==> i < |s|
  {
    if s == "" || s[0] == c then 0 else 1 + Find(s[1..], c)
  }

  // s.rfind(c) + 1
  function AfterLast(s: string, c: char): (i: nat)
    ensures i <= |s| && c !in s[i..]
    ensures i > 0 ==> s[i - 1] == c
  {
    if s == "" then 0
    else if s[|s| - 1] == c then |s|
    else AfterLast(s[..|s| - 1], c)
  }

  predicate IsLetter(c: char) {
    'a' <= c <= 'z' || 'A' <= c <= 'Z'
  }

  predicate IsSchemeChar(c: char) {
    IsLetter(c) || '0' <= c <= '9' || c == '+' || c == '-' || c == '.'
  }

  function Lower(s: string): (r: string)
    ensures |r| == |s|
  {
    seq(|s|, i requires 0 <= i < |s| => if 'A' <= s[i] <= 'Z' then s[i] - 'A' + 'a' else s[i])
  }

  predicate HasScheme(s: string) {
    var i := Find(s, ':');
    0 < i < |s| && IsLetter(s[0]) && forall k :: 0 <= k < i ==> IsSchemeChar(s[k])
  }

  // Where the authority after a leading double slash ends.
  function NetlocEnd(s: string): (i: nat)
    ensures i <= |s|
  {
    if s == "" || s[0] == '/' || s[0] == '?' || s[0] == '#' then 0 else 1 + NetlocEnd(s[1..])
  }

  function Before(s: string, c: char): string {
    s[..Find(s, c)]
  }

  // _splitparams: the semicolon counts in the last segment only.
  function WithoutParams(s: string): string {
    var last := AfterLast(s, '/');
    s[..last + Find(s[last..], ';')]
  }

  function Cleaned(url: string): string {
    WithoutUnsafe(LeftStripped(url))
  }

  function SplitScheme(u: string): (string, string) {
    var i := Find(u, ':');
    if HasScheme(u) then (Lower(u[..i]), u[i + 1..]) else ("", u)
  }

  function SplitNetloc(u: string): (string, string) {
    if |u| >= 2 && u[0] == '/' && u[1] == '/' then
      var n := 2 + NetlocEnd(u[2..]);
      (u[2..n], u[n..])
    else ("", u)
  }

  function PathOf(scheme: string, rest: string, allowFragments: bool): string {
    var path := Before(if allowFragments then Before(rest, '#') else rest, '?');
    if scheme in USES_PARAMS then WithoutParams(path) else path
  }

  function UrlParse(url: string, allowFragments: bool): Url {
    var (scheme, afterScheme) := SplitScheme(Cleaned(url));
    var (netloc, rest) := SplitNetloc(afterScheme);
    Url(scheme, netloc, PathOf(scheme, rest, allowFragments))
  }

  // What every part of a URL loses.
  predicate IsPlain(s: string) {
    '?' !in s && forall c :: c in s ==> !IsUnsafe(c)
  }

  lemma {:induction false} PlainIsKept(s: string)
    ensures WithoutUnsafe(s) == s <==> forall c :: c in s ==> !IsUnsafe(c)
    ensures |WithoutUnsafe(s)| == |s| <==> WithoutUnsafe(s) == s
  {
    if s != "" {
      assert s == [s[0]] + s[1..];
      PlainIsKept(s[1..]);
    }
  }

  lemma {:induction false} UnsafeConcat(a: string, b: string)
    ensures WithoutUnsafe(a + b) == WithoutUnsafe(a) + WithoutUnsafe(b)
  {
    if a == "" {
      assert a + b == b;
    } else {
      assert (a + b)[1..] == a[1..] + b;
      UnsafeConcat(a[1..], b);
    }
  }

  /* S3 URLs */

  predicate IsBucketName(bucket: string) {
    bucket != "" && forall c :: c in bucket ==> 'a' <= c <= 'z' || '0' <= c <= '9' || c == '.' || c == '-'
  }

  function S3Url(bucket: string, key: string): string {
    "s3://" + bucket + "/" + key
  }

  lemma {:induction false} NetlocEndsAtSlash(bucket: string, rest: string)
    requires forall c :: c in bucket ==> c != '/' && c != '?' && c != '#'
    ensures NetlocEnd(bucket + "/" + rest) == |bucket|
  {
    if bucket != "" {
      assert (bucket + "/" + rest)[1..] == bucket[1..] + "/" + rest;
      assert bucket[0] in bucket;
      assert forall c :: c in bucket[1..] ==> c in bucket;
      NetlocEndsAtSlash(bucket[1..], rest);
    }
  }

  lemma S3Cleaned(bucket: string, key: string)
    requires IsBucketName(bucket)
    ensures Cleaned(S3Url(bucket, key)) == "s3:" + ("//" + (bucket + "/" + WithoutUnsafe(key)))
  {
    var head := "s3://" + bucket + "/";
    assert S3Url(bucket, key) == head + key;
    assert LeftStripped(S3Url(bucket, key)) == S3Url(bucket, key);
    UnsafeConcat(head, key);
    assert forall c :: c in head ==> c in "s3://" || c in bucket || c == '/';
    PlainIsKept(head);
    Reassociated(bucket, WithoutUnsafe(key));
  }

  lemma Reassociated(bucket: string, rest: string)
    ensures "s3://" + bucket + "/" + rest == "s3:" + ("//" + (bucket + "/" + rest))
  {
  }

  lemma S3Scheme(rest: string)
    ensures SplitScheme("s3:" + rest) == ("s3", rest)
  {
    var u := "s3:" + rest;
    assert u == "s3" + (":" + rest);
    FindConcat("s3", ":" + rest, ':');
    assert u[..2] == "s3" && u[3..] == rest;
    assert Lower("s3") == "s3";
  }

  lemma S3Netloc(bucket: string, rest: string)
    requires IsBucketName(bucket)
    ensures SplitNetloc("//" + (bucket + "/" + rest)) == (bucket, "/" + rest)
  {
    var u := "//" + (bucket + "/" + rest);
    assert u[2..] == bucket + "/" + rest;
    NetlocEndsAtSlash(bucket, rest);
    assert u[2..2 + |bucket|] == bucket && u[2 + |bucket|..] == "/" + rest;
  }

  lemma S3UrlSplit(bucket: string, key: string, allowFragments: bool)
    requires IsBucketName(bucket)
    ensures UrlParse(S3Url(bucket, key), allowFragments)
            == Url("s3", bucket, PathOf("s3", "/" + WithoutUnsafe(key), allowFragments))
  {
    var rest, url := WithoutUnsafe(key), S3Url(bucket, key);
    var tail := "//" + (bucket + "/" + rest);
    S3Cleaned(bucket, key);
    S3Scheme(tail);
    S3Netloc(bucket, rest);
    ParsedInStages(url, allowFragments, "s3", tail, bucket, "/" + rest);
  }

  lemma ParsedInStages(url: string, allowFragments: bool, scheme: string, tail: string, netloc: string, rest: string)
    requires SplitScheme(Cleaned(url)) == (scheme, tail) && SplitNetloc(tail) == (netloc, rest)
    ensures UrlParse(url, allowFragments) == Url(scheme, netloc, PathOf(scheme, rest, allowFragments))
  {
  }

  lemma {:induction false} FindConcat(a: string, b: string, c: char)
    requires c !in a
    ensures Find(a + b, c) == |a| + Find(b, c)
  {
    if a == "" {
      assert a + b == b;
    } else {
      assert (a + b)[1..] == a[1..] + b;
      assert a[0] in a && forall x :: x in a[1..] ==> x in a;
      FindConcat(a[1..], b, c);
    }
  }

  lemma UsesOfParams()
    ensures "s3" !in USES_PARAMS && "" in USES_PARAMS
  {
    assert USES_PARAMS[0] == "";
  }

  lemma PathOfScheme(scheme: string, rest: string)
    ensures PathOf(scheme, rest, false) ==
            if scheme in USES_PARAMS then WithoutParams(Before(rest, '?')) else Before(rest, '?')
  {
  }

  lemma BeforeInRest(head: string, rest: string, c: char)
    requires c !in head
    ensures Before(head + rest, c) == head + Before(rest, c)
  {
    FindConcat(head, rest, c);
  }

  // The key read back from an S3 URL, without fragments, is the key exactly when nothing in it is cut
  // off or taken out.
  lemma S3KeyReadsBackIff(bucket: string, key: string)
    requires IsBucketName(bucket) && key != "" && key[0] != '/' && key[0] != '?' && !IsUnsafe(key[0])
    ensures UrlParse(S3Url(bucket, key), false).netloc == bucket
    ensures WithoutLeadingSlashes(UrlParse(S3Url(bucket, key), false).path) == key <==> IsPlain(key)
  {
    S3UrlSplit(bucket, key, false);
    UsesOfParams();
    PathOfScheme("s3", "/" + WithoutUnsafe(key));
    BeforeInRest("/", WithoutUnsafe(key), '?');
    KeyKeptIff(UrlParse(S3Url(bucket, key), false).path, key);
  }

  lemma KeyKeptIff(path: string, key: string)
    requires path == "/" + Before(WithoutUnsafe(key), '?')
    requires key != "" && key[0] != '/' && key[0] != '?' && !IsUnsafe(key[0])
    ensures WithoutLeadingSlashes(path) == key <==> IsPlain(key)
  {
    var clean := WithoutUnsafe(key);
    PlainIsKept(key);
    assert clean[0] == key[0];
    assert path[1..] == Before(clean, '?');
    assert WithoutLeadingSlashes(path) == Before(clean, '?');
  }

  /* File names */

  // The names of environment variables.
  predicate IsEnvVar(name: string) {
    name != "" && forall c :: c in name ==> IsLetter(c) || '0' <= c <= '9' || c == '_'
  }

  // Nothing of the last path segment is taken for a parameter.
  predicate HasNoParams(s: string) {
    ';' !in s[AfterLast(s, '/')..]
  }

  lemma {:induction false} AfterLastConcat(a: string, b: string, c: char)
    ensures AfterLast(a + b, c) == if AfterLast(b, c) > 0 then |a| + AfterLast(b, c) else AfterLast(a, c)
  {
    if b == "" {
      assert a + b == a;
    } else if b[|b| - 1] != c {
      assert (a + b)[..|a + b| - 1] == a + b[..|b| - 1];
      AfterLastConcat(a, b[..|b| - 1], c);
    }
  }

  lemma AbsentHasNoLast(s: string, c: char)
    requires c !in s
    ensures AfterLast(s, c) == 0
  {
  }

  // The last segment of a name that starts with `head`.
  lemma LastSegment(head: string, name: string)
    requires '/' !in head
    ensures var s, last := head + name, AfterLast(head + name, '/');
            s[last..] == (if AfterLast(name, '/') > 0 then [] else head) + name[AfterLast(name, '/')..]
  {
    AfterLastConcat(head, name, '/');
    AbsentHasNoLast(head, '/');
  }

  lemma ParamsKeptIff(s: string)
    ensures WithoutParams(s) == s <==> HasNoParams(s)
  {
    var last := AfterLast(s, '/');
    assert |WithoutParams(s)| == last + Find(s[last..], ';');
    assert s[..|s|] == s;
  }

  lemma ParamsOfFileName(head: string, name: string)
    requires ';' !in head && '/' !in head
    ensures HasNoParams(head + name) <==> HasNoParams(name)
    ensures WithoutParams(head + name) == head + name <==> HasNoParams(name)
  {
    LastSegment(head, name);
    ParamsKeptIff(head + name);
  }

  lemma FileNameHasNoScheme(key: string, rest: string)
    requires IsEnvVar(key)
    ensures SplitScheme(key + "__" + rest) == ("", key + "__" + rest)
    ensures SplitNetloc(key + "__" + rest) == ("", key + "__" + rest)
  {
    var u := key + "__" + rest;
    assert u == (key + "__") + rest;
    FindConcat(key + "__", rest, ':');
    assert u[|key|] == '_' && key[0] in key && u[0] == key[0];
  }

  lemma FileNameCleaned(key: string, name: string)
    requires IsEnvVar(key)
    ensures Cleaned(key + "__" + name) == key + "__" + WithoutUnsafe(name)
  {
    var head := key + "__";
    assert head + name == key + "__" + name && key[0] in key;
    UnsafeConcat(head, name);
    PlainIsKept(head);
  }

  // The path of an uploaded file's name is that name exactly when the user's part of it holds nothing
  // that a URL gives a meaning to: no question mark, tab or line break, and no semicolon after its last
  // slash.
  lemma FileNameReadsBackIff(key: string, name: string)
    requires IsEnvVar(key)
    ensures WithoutLeadingSlashes(UrlParse(key + "__" + name, false).path) == key + "__" + name
       <==> IsPlain(name) && HasNoParams(name)
  {
    var head := KeyIsHead(key);
    FileNamePath(key, name);
    PathReadsBackIff(UrlParse(key + "__" + name, false).path, head, name);
  }

  lemma KeyIsHead(key: string) returns (head: string)
    requires IsEnvVar(key)
    ensures head == key + "__" && head != "" && forall c :: c in head ==> c != ';' && c != '/' && c != '?'
  {
    head := key + "__";
    assert forall c :: c in head ==> c in key || c == '_';
  }

  lemma PathReadsBackIff(path: string, head: string, name: string)
    requires head != "" && forall c :: c in head ==> c != ';' && c != '/'
    requires path == WithoutParams(head + Before(WithoutUnsafe(name), '?'))
    ensures WithoutLeadingSlashes(path) == head + name <==> IsPlain(name) && HasNoParams(name)
  {
    HeadIsKept(head, Before(WithoutUnsafe(name), '?'));
    NothingIsLostIff(head, name);
  }

  lemma FileNamePath(key: string, name: string)
    requires IsEnvVar(key)
    ensures UrlParse(key + "__" + name, false).path
            == WithoutParams(key + "__" + Before(WithoutUnsafe(name), '?'))
  {
    var head := KeyIsHead(key);
    var clean := WithoutUnsafe(name);
    FileNameCleaned(key, name);
    FileNameHasNoScheme(key, clean);
    UsesOfParams();
    PathInStages(head + name, head, clean);
  }

  lemma PathInStages(url: string, head: string, clean: string)
    requires Cleaned(url) == head + clean && '?' !in head && "" in USES_PARAMS
    requires SplitScheme(head + clean) == ("", head + clean) && SplitNetloc(head + clean) == ("", head + clean)
    ensures UrlParse(url, false).path == WithoutParams(head + Before(clean, '?'))
  {
    ParsedInStages(url, false, "", head + clean, "", head + clean);
    PathOfScheme("", head + clean);
    BeforeInRest(head, clean, '?');
  }

  lemma NothingIsLostIff(head: string, name: string)
    requires forall c :: c in head ==> c != ';' && c != '/'
    ensures WithoutParams(head + Before(WithoutUnsafe(name), '?')) == head + name <==> IsPlain(name) && HasNoParams(name)
  {
    var kept := Before(WithoutUnsafe(name), '?');
    PlainIsKept(name);
    ParamsOfFileName(head, kept);
    if IsPlain(name) {
      assert kept == name;
    } else {
      assert |kept| < |name|;
    }
  }

  lemma HeadIsKept(head: string, rest: string)
    requires head != "" && forall c :: c in head ==> c != ';' && c != '/'
    ensures |WithoutParams(head + rest)| <= |head + rest|
    ensures WithoutLeadingSlashes(WithoutParams(head + rest)) == WithoutParams(head + rest)
  {
    AfterLastConcat(head, rest, '/');
    AbsentHasNoLast(head, '/');
    var last := AfterLast(head + rest, '/');
    assert head[0] in head;
    if last == 0 {
      assert (head + rest)[last..] == head + rest;
      FindConcat(head, rest, ';');
    }
    assert WithoutParams(head + rest)[0] == head[0];
  }
}
