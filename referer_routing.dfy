/** Caller origin (the Referer header) -> source queue table. */
module RefererRouting {
  import opened Wrappers
  import opened Strings
  import QueueTableNames

  /** The static, read-only origin table. */
  const RefererToQueueMap: map<string, string> := map[
    "http://localhost:5258" := QueueTableNames.UnprocessedNotifications,
    "http://localhost:5298" := QueueTableNames.EmailsToBePopulated,
    "http://localhost:5089" := QueueTableNames.EmailsToBeSent
  ]

  /** The two parts of an absolute URI that make up its origin. */
  datatype Uri = Uri(scheme: string, authority: string)

  predicate IsLetter(c: char) { 'a' <= c <= 'z' || 'A' <= c <= 'Z' }

  predicate IsSchemeChar(c: char)
  {
    IsLetter(c) || '0' <= c <= '9' || c == '+' || c == '-' || c == '.'
  }

  /** Characters that end the authority part of a URI. */
  predicate IsAuthorityEnd(c: char) { c == '/' || c == '?' || c == '#' }

  function SchemeLength(s: string): (n: nat)
    ensures n <= |s|
    ensures forall i :: 0 <= i < n ==> IsSchemeChar(s[i])
    ensures n < |s| ==> !IsSchemeChar(s[n])
  {
    if s == [] || !IsSchemeChar(s[0]) then 0 else 1 + SchemeLength(s[1..])
  }

  function AuthorityLength(s: string): (n: nat)
    ensures n <= |s|
    ensures forall i :: 0 <= i < n ==> !IsAuthorityEnd(s[i])
    ensures n < |s| ==> IsAuthorityEnd(s[n])
  {
    if s == [] || IsAuthorityEnd(s[0]) then 0 else 1 + AuthorityLength(s[1..])
  }

  /** `new Uri(s)` reduced to what the origin needs: a scheme (a letter, then
      letters, digits, '+', '-' or '.'), then "://", then a non-empty
      authority that runs to the first '/', '?' or '#'. Scheme and authority
      come back lower-cased, as `Uri.Scheme` and `Uri.Authority` do. */
  function ParseUri(s: string): Option<Uri>
  {
    var k := SchemeLength(s);
    if k == 0 || !IsLetter(s[0]) || !OccursAt(s, "://", k) then None
    else
      var rest := s[k + 3..];
      var n := AuthorityLength(rest);
      if n == 0 then None else Some(Uri(Lower(s[..k]), Lower(rest[..n])))
  }

  function Origin(u: Uri): string
  {
    u.scheme + "://" + u.authority
  }

  /** `RefererToQueueTableMapper.GetQueueTableName`. */
  function GetQueueTableName(refererUrl: string): (r: Result<string>)
    ensures refererUrl == [] ==> r == Err(ArgumentException("Referer URL cannot be null or empty"))
    ensures refererUrl != [] && ParseUri(refererUrl).None? ==>
              r == Err(ArgumentException("Invalid referer URL format: " + refererUrl))
    ensures r.Ok? <==> ParseUri(refererUrl).Some? && Origin(ParseUri(refererUrl).value) in RefererToQueueMap
    ensures r.Ok? ==> r.value == RefererToQueueMap[Origin(ParseUri(refererUrl).value)]
  {
    if refererUrl == [] then Err(ArgumentException("Referer URL cannot be null or empty"))
    else match ParseUri(refererUrl)
      case None => Err(ArgumentException("Invalid referer URL format: " + refererUrl))
      case Some(uri) =>
        var origin := Origin(uri);
        if origin in RefererToQueueMap then Ok(RefererToQueueMap[origin])
        else Err(ArgumentException("No queue table mapped for referer: " + origin))
  }

  predicate ValidScheme(scheme: string)
  {
    scheme != [] && IsLetter(scheme[0]) && forall i :: 0 <= i < |scheme| ==> IsSchemeChar(scheme[i])
  }

  predicate ValidAuthority(authority: string)
  {
    authority != [] && forall i :: 0 <= i < |authority| ==> !IsAuthorityEnd(authority[i])
  }

  /** A path, when present, starts with '/'. */
  predicate IsPath(path: string) { path == [] || path[0] == '/' }

  lemma {:induction false} SchemeLengthOf(scheme: string, tail: string)
    requires forall i :: 0 <= i < |scheme| ==> IsSchemeChar(scheme[i])
    requires tail != [] && !IsSchemeChar(tail[0])
    ensures SchemeLength(scheme + tail) == |scheme|
  {
    if scheme != [] {
      assert (scheme + tail)[1..] == scheme[1..] + tail;
      SchemeLengthOf(scheme[1..], tail);
    }
  }

  lemma {:induction false} AuthorityLengthOf(authority: string, path: string)
    requires forall i :: 0 <= i < |authority| ==> !IsAuthorityEnd(authority[i])
    requires IsPath(path)
    ensures AuthorityLength(authority + path) == |authority|
  {
    if authority != [] {
      assert (authority + path)[1..] == authority[1..] + path;
      AuthorityLengthOf(authority[1..], path);
    }
  }

  /** A referer built from a scheme, an authority and an optional path parses
      to the lower-cased scheme and authority, whatever the path. */
  lemma ParseWithPath(scheme: string, authority: string, path: string)
    requires ValidScheme(scheme) && ValidAuthority(authority) && IsPath(path)
    ensures ParseUri(scheme + "://" + authority + path) == Some(Uri(Lower(scheme), Lower(authority)))
  {
    var tail := "://" + authority + path;
    var s := scheme + tail;
    assert s == scheme + "://" + authority + path;
    SchemeLengthOf(scheme, tail);
    var k := |scheme|;
    assert s[0] == scheme[0];
    assert s[k..k + 3] == tail[..3] == "://";
    assert s[..k] == scheme;
    var rest := s[k + 3..];
    assert rest == tail[3..];
    assert tail[3..] == authority + path;
    AuthorityLengthOf(authority, path);
    assert rest[..|authority|] == authority;
  }

  /** Only `scheme://authority` selects the queue: the path, and so a
      trailing slash, never changes the result. */
  lemma PathIgnored(scheme: string, authority: string, path: string)
    requires ValidScheme(scheme) && ValidAuthority(authority) && IsPath(path)
    ensures GetQueueTableName(scheme + "://" + authority + path) == GetQueueTableName(scheme + "://" + authority)
  {
    ParseWithPath(scheme, authority, path);
    ParseWithPath(scheme, authority, []);
    assert scheme + "://" + authority + [] == scheme + "://" + authority;
  }

  /** A lower-case origin with a path routes through the table under its own name. */
  lemma OriginRoutes(scheme: string, authority: string, path: string)
    requires ValidScheme(scheme) && ValidAuthority(authority) && IsPath(path)
    requires Lower(scheme) == scheme && Lower(authority) == authority
    ensures var origin := scheme + "://" + authority;
            GetQueueTableName(origin + path) ==
              if origin in RefererToQueueMap then Ok(RefererToQueueMap[origin])
              else Err(ArgumentException("No queue table mapped for referer: " + origin))
  {
    ParseWithPath(scheme, authority, path);
  }

  lemma LowerOfLowerCase(s: string)
    requires forall i :: 0 <= i < |s| ==> !('A' <= s[i] <= 'Z')
    ensures Lower(s) == s
  {
  }

  /** A lower-case authority without delimiters behind "http://". */
  predicate PlainHttpAuthority(authority: string)
  {
    ValidAuthority(authority) && forall i :: 0 <= i < |authority| ==> !('A' <= authority[i] <= 'Z')
  }

  /** A registered origin of the form "http://" + authority, followed by a path. */
  lemma RegisteredHttpOrigin(authority: string, path: string)
    requires PlainHttpAuthority(authority) && IsPath(path)
    requires "http://" + authority in RefererToQueueMap
    ensures GetQueueTableName("http://" + authority + path) == Ok(RefererToQueueMap["http://" + authority])
  {
    LowerOfLowerCase("http");
    LowerOfLowerCase(authority);
    ParseWithPath("http", authority, path);
    assert "http" + "://" + authority == "http://" + authority;
  }

  /** An unregistered origin of the form "http://" + authority, followed by a path. */
  lemma UnregisteredHttpOrigin(authority: string, path: string)
    requires PlainHttpAuthority(authority) && IsPath(path)
    requires "http://" + authority !in RefererToQueueMap
    ensures GetQueueTableName("http://" + authority + path) ==
              Err(ArgumentException("No queue table mapped for referer: " + "http://" + authority))
  {
    LowerOfLowerCase("http");
    LowerOfLowerCase(authority);
    ParseWithPath("http", authority, path);
    assert "http" + "://" + authority == "http://" + authority;
    assert Origin(Uri("http", authority)) == "http://" + authority;
    assert "No queue table mapped for referer: " + ("http://" + authority)
        == "No queue table mapped for referer: " + "http://" + authority;
  }

  /** The notification stage's origin, with or without a path, drains the
      unprocessed-notifications queue. */
  lemma NotificationOriginRoutes(path: string)
    requires IsPath(path)
    ensures GetQueueTableName("http://localhost:5258" + path) == Ok(QueueTableNames.UnprocessedNotifications)
  {
    var authority := "localhost:5258";
    assert PlainHttpAuthority(authority);
    assert "http://" + authority == "http://localhost:5258";
    RegisteredHttpOrigin(authority, path);
  }

  /** The template stage's registered origin drains the emails-to-be-populated queue. */
  lemma TemplateOriginRoutes(path: string)
    requires IsPath(path)
    ensures GetQueueTableName("http://localhost:5298" + path) == Ok(QueueTableNames.EmailsToBePopulated)
  {
    var authority := "localhost:5298";
    assert PlainHttpAuthority(authority);
    assert "http://" + authority == "http://localhost:5298";
    RegisteredHttpOrigin(authority, path);
  }

  /** The sender stage's origin drains the emails-to-be-sent queue. */
  lemma SenderOriginRoutes(path: string)
    requires IsPath(path)
    ensures GetQueueTableName("http://localhost:5089" + path) == Ok(QueueTableNames.EmailsToBeSent)
  {
    var authority := "localhost:5089";
    assert PlainHttpAuthority(authority);
    assert "http://" + authority == "http://localhost:5089";
    RegisteredHttpOrigin(authority, path);
  }

  /** The referer the template poller actually sends is not registered, so
      its poll fails with an `ArgumentException`. */
  lemma TemplatePollerOriginRejected(path: string)
    requires IsPath(path)
    ensures GetQueueTableName("http://email-template-api:8080" + path).Err?
  {
    var authority := "email-template-api:8080";
    assert PlainHttpAuthority(authority);
    var origin := "http://" + authority;
    assert origin == "http://email-template-api:8080";
    assert |origin| == 30;
    assert origin !in RefererToQueueMap;
    UnregisteredHttpOrigin(authority, path);
  }

  /** Distinct registered origins drain distinct queues. */
  lemma RefererRoutingInjective(o1: string, o2: string)
    requires o1 in RefererToQueueMap && o2 in RefererToQueueMap
    requires RefererToQueueMap[o1] == RefererToQueueMap[o2]
    ensures o1 == o2
  {
  }
}
