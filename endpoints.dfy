/**
 * Endpoint resolution of the publisher (publisher/Publisher.php, setReceiverURL
 * and setAuthenticationURL). The component array that parse_url produces is a
 * record of optional components; "is a valid IP address" (filter_var with
 * FILTER_VALIDATE_IP) is a predicate passed in by the caller.
 */
module Endpoints {
  import opened Wrappers
  import Php

  /** The keys parse_url may set; an absent key is None. Port is an integer, as parse_url returns it. */
  datatype UrlParts = UrlParts(
    scheme: Option<string>,
    host: Option<string>,
    port: Option<int>,
    user: Option<string>,
    pass: Option<string>,
    path: Option<string>,
    query: Option<string>,
    fragment: Option<string>)

  /** The array with no key at all; it also stands for parse_url's `false` on a seriously malformed URL. */
  const NoParts := UrlParts(None, None, None, None, None, None, None, None)

  /** PublisherConstants::DEFAULT_THRIFT_RECEIVER_PORT, the Thrift receiver port (tcp://host:7611). */
  const DEFAULT_THRIFT_RECEIVER_PORT := 7611
  /** PublisherConstants::DEFAULT_BAM_SECURE_PORT, the secure authentication port (https://host:9443). */
  const DEFAULT_BAM_SECURE_PORT := 9443

  /** An endpoint the connector can use: scheme, host and port are all set. */
  predicate IsEndpoint(u: UrlParts) {
    u.scheme.Some? && u.host.Some? && u.port.Some?
  }

  // ---------------------------------------------------------------------
  // Receiver URL
  // ---------------------------------------------------------------------

  /** A path-only receiver URL such as "192.168.1.1" whose path is an IP address names its host. */
  function PromoteReceiverPath(url: UrlParts, isIp: string -> bool): UrlParts {
    if url.path.Some? && url.host.None? && isIp(url.path.value) then url.(host := url.path) else url
  }

  /**
   * The array setReceiverURL stores, or None when it throws because no host
   * can be found. The path is kept even when it was promoted to host.
   */
  function ResolveReceiverURL(url: UrlParts, isIp: string -> bool): (r: Option<UrlParts>)
    ensures r.Some? <==> url.host.Some? || (url.path.Some? && isIp(url.path.value))
    ensures r.Some? ==> IsEndpoint(r.value)
    ensures r.Some? ==> r.value.host == (if url.host.Some? then url.host else url.path)
    ensures r.Some? ==> r.value.scheme == Some(url.scheme.GetOr("tcp"))
    ensures r.Some? ==> r.value.port == Some(url.port.GetOr(DEFAULT_THRIFT_RECEIVER_PORT))
    ensures r.Some? ==> r.value.(scheme := url.scheme, host := url.host, port := url.port) == url
  {
    var promoted := PromoteReceiverPath(url, isIp);
    if promoted.host.None? then None
    else
      var withScheme := if promoted.scheme.None? then promoted.(scheme := Some("tcp")) else promoted;
      var withPort := if withScheme.port.None? then withScheme.(port := Some(DEFAULT_THRIFT_RECEIVER_PORT)) else withScheme;
      Some(withPort)
  }

  /** Resolving a receiver URL that was already resolved changes nothing. */
  lemma ReceiverResolutionIdempotent(url: UrlParts, isIp: string -> bool)
    requires ResolveReceiverURL(url, isIp).Some?
    ensures ResolveReceiverURL(ResolveReceiverURL(url, isIp).value, isIp) == ResolveReceiverURL(url, isIp)
  {
  }

  /**
   * The "localhost" rewrite is never applied: a receiver URL whose host
   * parses as "localhost" keeps that host, not the loopback address.
   */
  lemma ReceiverLocalhostKept(url: UrlParts, isIp: string -> bool)
    requires url.host == Some("localhost")
    ensures ResolveReceiverURL(url, isIp).Some?
    ensures ResolveReceiverURL(url, isIp).value.host == Some("localhost")
  {
  }

  // ---------------------------------------------------------------------
  // Authentication URL
  // ---------------------------------------------------------------------

  /** The guard for promoting an authentication path to host: an IP address or "localhost". */
  predicate AuthPathPromoted(path: string, isIp: string -> bool) {
    isIp(path) || path == "localhost"
  }

  /**
   * The same guard as the source writes it, with a bitwise `|`: filter_var
   * yields the address itself or false, the comparison yields a boolean, and
   * `|` converts both to integers (false and true to 0 and 1, the address to
   * the integer its leading digits denote). A bitwise or of two non-negative
   * integers is non-zero exactly when one of them is. It accepts no path the
   * corrected guard rejects.
   */
  predicate AuthPathPromotedAsWritten(path: string, isIp: string -> bool)
    ensures AuthPathPromotedAsWritten(path, isIp) ==> AuthPathPromoted(path, isIp)
  {
    var filtered: nat := if isIp(path) then Php.ToInt(path) else 0;
    var isLocalhost: nat := if path == "localhost" then 1 else 0;
    filtered != 0 || isLocalhost != 0
  }

  /** The as-written guard accepts an IP address only when its leading digits are not all zero. */
  lemma AsWrittenPromotionIff(path: string, isIp: string -> bool)
    ensures AuthPathPromotedAsWritten(path, isIp) <==>
      path == "localhost" ||
      (isIp(path) && exists i :: 0 <= i < |Php.LeadingDigits(path)| && Php.LeadingDigits(path)[i] != '0')
  {
    var d := Php.LeadingDigits(path);
    Php.DecimalValueZeroIff(d);
    if isIp(path) && Php.ToInt(path) != 0 {
      var i :| 0 <= i < |d| && d[i] != '0';
      assert exists j :: 0 <= j < |Php.LeadingDigits(path)| && Php.LeadingDigits(path)[j] != '0';
    }
  }

  /** On every address starting with a non-zero digit the two guards agree. */
  lemma AsWrittenAgreesOnNonZeroLead(path: string, isIp: string -> bool)
    requires |path| > 0 && '1' <= path[0] <= '9'
    ensures AuthPathPromotedAsWritten(path, isIp) == AuthPathPromoted(path, isIp)
  {
    Php.NonZeroLeadConvertsNonZero(path);
  }

  /** A path-only authentication URL whose path passes the guard names its host; the path key is removed. */
  function PromoteAuthPath(url: UrlParts, isIp: string -> bool): UrlParts {
    if url.path.Some? && url.host.None? && AuthPathPromoted(url.path.value, isIp)
    then url.(host := url.path, path := None)
    else url
  }

  /** The same promotion under the guard as written. */
  function PromoteAuthPathAsWritten(url: UrlParts, isIp: string -> bool): UrlParts {
    if url.path.Some? && url.host.None? && AuthPathPromotedAsWritten(url.path.value, isIp)
    then url.(host := url.path, path := None)
    else url
  }

  /** Once the path has been promoted: None without a host, else the secure port and https filled in where missing. */
  function FillAuthDefaults(promoted: UrlParts): Option<UrlParts> {
    if promoted.host.None? then None
    else
      var withPort := if promoted.port.None? then promoted.(port := Some(DEFAULT_BAM_SECURE_PORT)) else promoted;
      var withScheme := if withPort.scheme.None? then withPort.(scheme := Some("https")) else withPort;
      Some(withScheme)
  }

  /**
   * The array setAuthenticationURL stores for a given URL, or None when it
   * throws MalformedURLException, with the corrected promotion guard. A
   * scheme other than https that was given is kept; the source only logs it.
   */
  function ResolveAuthenticationURL(url: UrlParts, isIp: string -> bool): (r: Option<UrlParts>)
    ensures r.Some? <==> url.host.Some? || (url.path.Some? && AuthPathPromoted(url.path.value, isIp))
    ensures r.Some? ==> IsEndpoint(r.value)
    ensures r.Some? && url.host.Some? ==> r.value.host == url.host && r.value.path == url.path
    ensures r.Some? && url.host.None? ==> r.value.host == url.path && r.value.path == None
    ensures r.Some? ==> r.value.scheme == Some(url.scheme.GetOr("https"))
    ensures r.Some? ==> r.value.port == Some(url.port.GetOr(DEFAULT_BAM_SECURE_PORT))
    ensures r.Some? ==> r.value.(scheme := url.scheme, host := url.host, port := url.port, path := url.path) == url
  {
    FillAuthDefaults(PromoteAuthPath(url, isIp))
  }

  /**
   * setAuthenticationURL for a given URL exactly as the source is written.
   * Wherever it stores an array, that array is the corrected resolution.
   */
  function ResolveAuthenticationURLAsWritten(url: UrlParts, isIp: string -> bool): (r: Option<UrlParts>)
    ensures r.Some? <==> url.host.Some? || (url.path.Some? && AuthPathPromotedAsWritten(url.path.value, isIp))
    ensures r.Some? ==> r == ResolveAuthenticationURL(url, isIp)
  {
    FillAuthDefaults(PromoteAuthPathAsWritten(url, isIp))
  }

  /** The leading digits of `path` (possibly none) are all '0', so PHP converts it to 0. */
  predicate ZeroLeadingDigits(path: string) {
    forall i :: 0 <= i < |Php.LeadingDigits(path)| ==> Php.LeadingDigits(path)[i] == '0'
  }

  /**
   * The source and the corrected resolution differ exactly on a URL without
   * host whose path is an IP address with all-zero leading digits: there the
   * source throws MalformedURLException and the corrected one stores the URL.
   */
  lemma AsWrittenResolutionDiffersOnlyOnZeroLead(url: UrlParts, isIp: string -> bool)
    ensures ResolveAuthenticationURLAsWritten(url, isIp) != ResolveAuthenticationURL(url, isIp) <==>
      && url.host.None? && url.path.Some? && url.path.value != "localhost"
      && isIp(url.path.value) && ZeroLeadingDigits(url.path.value)
    ensures ResolveAuthenticationURLAsWritten(url, isIp) != ResolveAuthenticationURL(url, isIp) ==>
      ResolveAuthenticationURLAsWritten(url, isIp).None?
  {
    if url.path.Some? {
      AsWrittenPromotionIff(url.path.value, isIp);
    }
  }

  /**
   * The inputs that show the difference: the authentication URLs "0.0.0.0"
   * and "::1", parsed as a path only, are rejected as written (their leading
   * digits are "0" and none) and accepted by the corrected resolution.
   */
  lemma ZeroAddressRejectedAsWritten(isIp: string -> bool)
    requires isIp("0.0.0.0") && isIp("::1")
    ensures ResolveAuthenticationURLAsWritten(NoParts.(path := Some("0.0.0.0")), isIp).None?
    ensures ResolveAuthenticationURL(NoParts.(path := Some("0.0.0.0")), isIp).Some?
    ensures ResolveAuthenticationURLAsWritten(NoParts.(path := Some("::1")), isIp).None?
    ensures ResolveAuthenticationURL(NoParts.(path := Some("::1")), isIp).Some?
  {
  }

  /** Resolving an authentication URL that was already resolved changes nothing. */
  lemma AuthResolutionIdempotent(url: UrlParts, isIp: string -> bool)
    requires ResolveAuthenticationURL(url, isIp).Some?
    ensures ResolveAuthenticationURL(ResolveAuthenticationURL(url, isIp).value, isIp) == ResolveAuthenticationURL(url, isIp)
  {
  }

  /** The authentication URL used when none is given: https on the receiver's host and the secure port. */
  function DerivedAuthenticationURL(receiverHost: string): (r: UrlParts)
    ensures IsEndpoint(r)
  {
    NoParts.(scheme := Some("https"), host := Some(receiverHost), port := Some(DEFAULT_BAM_SECURE_PORT))
  }

  /** Omitting the authentication URL is the same as giving one that names only the receiver's host. */
  lemma DerivedIsResolutionOfHost(receiverHost: string, isIp: string -> bool)
    ensures ResolveAuthenticationURL(NoParts.(host := Some(receiverHost)), isIp) == Some(DerivedAuthenticationURL(receiverHost))
  {
  }

  /** What setAuthenticationURL stores: the derived URL for a falsy argument, else the resolution of its parse. */
  function AuthenticationURLFor(raw: Option<string>, receiverHost: string,
                                parseUrl: string -> UrlParts, isIp: string -> bool): (r: Option<UrlParts>)
    ensures r.None? <==>
      && !Php.IsFalsy(raw) && parseUrl(raw.value).host.None?
      && !(parseUrl(raw.value).path.Some? && AuthPathPromoted(parseUrl(raw.value).path.value, isIp))
    ensures r.Some? ==> IsEndpoint(r.value)
    ensures Php.IsFalsy(raw) ==>
      r.value.host == Some(receiverHost) && r.value.scheme == Some("https") && r.value.port == Some(DEFAULT_BAM_SECURE_PORT)
    ensures Php.IsFalsy(raw) ==> r == Some(DerivedAuthenticationURL(receiverHost))
    ensures Php.IsFalsy(raw) ==>
      r.value.user.None? && r.value.pass.None? && r.value.path.None? && r.value.query.None? && r.value.fragment.None?
    ensures !Php.IsFalsy(raw) ==> r == ResolveAuthenticationURL(parseUrl(raw.value), isIp)
    ensures !Php.IsFalsy(raw) && r.Some? ==>
      r.value.host == (if parseUrl(raw.value).host.Some? then parseUrl(raw.value).host else parseUrl(raw.value).path)
    ensures !Php.IsFalsy(raw) && r.Some? ==>
      && r.value.path == (if parseUrl(raw.value).host.Some? then parseUrl(raw.value).path else None)
      && r.value.scheme == Some(parseUrl(raw.value).scheme.GetOr("https"))
      && r.value.port == Some(parseUrl(raw.value).port.GetOr(DEFAULT_BAM_SECURE_PORT))
      && r.value.(scheme := parseUrl(raw.value).scheme, host := parseUrl(raw.value).host,
                  port := parseUrl(raw.value).port, path := parseUrl(raw.value).path) == parseUrl(raw.value)
  {
    if Php.IsFalsy(raw) then Some(DerivedAuthenticationURL(receiverHost))
    else ResolveAuthenticationURL(parseUrl(raw.value), isIp)
  }
}
