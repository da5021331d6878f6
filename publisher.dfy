/**
 * The Publisher object (publisher/Publisher.php): its constructor resolves
 * the receiver and authentication URLs into arrays, keeps the credentials and
 * creates the connector from them. parse_url and filter_var's IP check are
 * supplied when the object is allocated.
 */
module Publishing {
  import opened Wrappers
  import opened Php
  import opened Endpoints
  import opened Exceptions

  /** The arguments the PubllisherConnector is created with. */
  datatype Connector = PubllisherConnector(
    receiverURL: UrlParts, authenticationURL: UrlParts, username: string, password: string)

  const NullReceiverMessage := "Receiver URL cannot be NULL"

  function InvalidReceiverMessage(receiverURL: string): string {
    "Invalid Receiver URL '" + receiverURL + "'. Receiver URL should be in the form of [tcp|ssl]://[host]:[port]"
  }

  function InvalidAuthenticationMessage(authenticationURL: string): string {
    "Invalid BAM secure server URL: " + authenticationURL + ". The URL should be in the form of https://[host]:[port]"
  }

  class Publisher {
    // Private properties; PHP leaves each NULL (None) until the constructor assigns it.
    var receiverURL: Option<UrlParts>
    var authenticationURL: Option<UrlParts>
    var username: Option<string>
    var password: Option<string>
    var connector: Option<Connector>

    /** parse_url: the component array of a URL string. */
    const parseUrl: string -> UrlParts
    /** filter_var($s, FILTER_VALIDATE_IP) succeeds. */
    const isIp: string -> bool

    /** No property has been assigned yet. */
    predicate Unconstructed()
      reads this
    {
      receiverURL.None? && authenticationURL.None? && username.None? && password.None? && connector.None?
    }

    /** Every property is assigned, both URLs are endpoints and the connector was built from them. */
    predicate Constructed()
      reads this
    {
      && receiverURL.Some? && authenticationURL.Some? && username.Some? && password.Some?
      && IsEndpoint(receiverURL.value) && IsEndpoint(authenticationURL.value)
      && connector == Some(PubllisherConnector(receiverURL.value, authenticationURL.value, username.value, password.value))
    }

    /** The object as `new` allocates it, before the body of __construct runs. */
    constructor Allocate(parseUrl: string -> UrlParts, isIp: string -> bool)
      ensures Unconstructed()
      ensures this.parseUrl == parseUrl && this.isIp == isIp
    {
      this.parseUrl := parseUrl;
      this.isIp := isIp;
      receiverURL, authenticationURL, username, password, connector := None, None, None, None, None;
    }

    /**
     * The body of __construct. It returns the exception it throws, if any;
     * on a throw the properties assigned so far keep their values and the
     * connector is not created.
     */
    method Construct(receiverURLText: Option<string>, username: string, password: string,
                     authenticationURLText: Option<string>) returns (thrown: Option<Exception>)
      requires Unconstructed()
      modifies this
      ensures IsFalsy(receiverURLText) ==>
        thrown == Some(NullPointerException(NullReceiverMessage)) && Unconstructed()
      ensures !IsFalsy(receiverURLText) && ResolveReceiverURL(parseUrl(receiverURLText.value), isIp).None? ==>
        thrown == Some(NullPointerException(InvalidReceiverMessage(receiverURLText.value))) && Unconstructed()
      ensures !IsFalsy(receiverURLText) && ResolveReceiverURL(parseUrl(receiverURLText.value), isIp).Some? ==>
        var receiver := ResolveReceiverURL(parseUrl(receiverURLText.value), isIp).value;
        var authentication := AuthenticationURLFor(authenticationURLText, receiver.host.value, parseUrl, isIp);
        && this.receiverURL == Some(receiver)
        && (authentication.None? ==>
              && thrown == Some(MalformedURLException(InvalidAuthenticationMessage(authenticationURLText.value)))
              && this.authenticationURL.None? && this.username.None? && this.password.None? && connector.None?)
        && (authentication.Some? ==>
              && thrown.None? && Constructed()
              && this.authenticationURL == authentication
              && this.username == Some(username) && this.password == Some(password))
    {
      if IsFalsy(receiverURLText) {
        return Some(NullPointerException(NullReceiverMessage));
      }
      thrown := SetReceiverURL(receiverURLText.value);
      if thrown.Some? {
        return;
      }
      thrown := SetAuthenticationURL(authenticationURLText);
      if thrown.Some? {
        return;
      }
      this.username := Some(username);
      this.password := Some(password);
      connector := Some(PubllisherConnector(receiverURL.value, authenticationURL.value, username, password));
    }

    /**
     * setReceiverURL. The "localhost" to 127.0.0.1 rewrite of the source
     * discards its result, so parse_url sees the string as given.
     */
    method SetReceiverURL(receiverURLText: string) returns (thrown: Option<Exception>)
      modifies this`receiverURL
      ensures var resolved := ResolveReceiverURL(parseUrl(receiverURLText), isIp);
        && (resolved.Some? ==> thrown.None? && receiverURL == resolved)
        && (parseUrl(receiverURLText).host == Some("localhost") ==> thrown.None? && receiverURL.value.host == Some("localhost"))
        && (resolved.None? ==>
              thrown == Some(NullPointerException(InvalidReceiverMessage(receiverURLText)))
              && receiverURL == old(receiverURL))
    {
      var url := parseUrl(receiverURLText);
      if url.path.Some? && url.host.None? {
        if isIp(url.path.value) {
          url := url.(host := url.path);
        }
      }
      if url.host.Some? {
        if url.scheme.None? {
          url := url.(scheme := Some("tcp"));
        }
        if url.port.None? {
          url := url.(port := Some(DEFAULT_THRIFT_RECEIVER_PORT));
        }
        receiverURL := Some(url);
        thrown := None;
      } else {
        thrown := Some(NullPointerException(InvalidReceiverMessage(receiverURLText)));
      }
    }

    /**
     * setAuthenticationURL. A falsy argument derives the URL from the
     * receiver's host; otherwise the given URL is resolved, and a given
     * scheme other than https is kept. The path is promoted under the
     * corrected guard; Endpoints.ResolveAuthenticationURLAsWritten is the
     * source's own guard, which rejects IP addresses whose leading digits
     * are all zero.
     */
    method SetAuthenticationURL(authenticationURLText: Option<string>) returns (thrown: Option<Exception>)
      requires receiverURL.Some? && receiverURL.value.host.Some?
      modifies this`authenticationURL
      ensures var resolved := AuthenticationURLFor(authenticationURLText, receiverURL.value.host.value, parseUrl, isIp);
        && (resolved.Some? ==> thrown.None? && authenticationURL == resolved)
        && (resolved.None? ==>
              thrown == Some(MalformedURLException(InvalidAuthenticationMessage(authenticationURLText.value)))
              && authenticationURL == old(authenticationURL))
    {
      if !IsFalsy(authenticationURLText) {
        var url := parseUrl(authenticationURLText.value);
        if url.path.Some? && url.host.None? {
          if AuthPathPromoted(url.path.value, isIp) {
            url := url.(host := url.path, path := None);
          }
        }
        if url.host.Some? {
          if url.port.None? {
            url := url.(port := Some(DEFAULT_BAM_SECURE_PORT));
          }
          // A scheme other than https is only logged, and kept.
          if url.scheme.None? {
            url := url.(scheme := Some("https"));
          }
          authenticationURL := Some(url);
          thrown := None;
        } else {
          thrown := Some(MalformedURLException(InvalidAuthenticationMessage(authenticationURLText.value)));
        }
      } else {
        authenticationURL := Some(DerivedAuthenticationURL(receiverURL.value.host.value));
        thrown := None;
      }
    }
  }
}
