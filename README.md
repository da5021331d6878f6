# Publisher endpoint resolution and fault mapping

A Dafny model of the `Publisher` façade of a PHP client that sends events to a
WSO2 BAM / data-bridge server over Thrift (`publisher/Publisher.php`). The
model covers two parts of it.

- **Endpoint resolution.** This is what the constructor does with the receiver URL and
  the optional authentication URL. A falsy receiver URL (NULL, `""` or `"0"`)
  throws `NullPointerException`. Otherwise the URL is parsed. A path-only URL
  whose path is an IP address gets that path as its host. A missing scheme
  becomes `tcp` and a missing port the Thrift receiver port. A URL with no host
  throws `NullPointerException`. The authentication URL gets the same treatment,
  with these differences:
  - the literal `localhost` is also promoted from path to host, and the path
    key is then removed;
  - the defaults are `https` and the secure port;
  - a scheme other than https that was given is kept;
  - a given URL with no host throws `MalformedURLException`;
  - a falsy authentication URL is derived from the receiver's host.

  Only then are the credentials stored and the connector created.
- **Remote-fault mapping.** `findStream`, `addStreamDefinition` and `publish`
  each send at most one request to the Thrift client under the connector's
  current session id: `publish` sends none when its event cannot be converted,
  and the other two always send exactly one. Each maps the faults it catches to a local outcome:
  - `findStream`: a missing definition throws `StreamDefinitionException`,
    and an expired session returns null;
  - `addStreamDefinition`: each of the three definition faults throws
    `StreamDefinitionException` with its own message;
  - every other fault propagates unchanged, and nothing is retried.

Modules:
- `Wrappers`: `Option` and `Result`.
- `Php`: the PHP semantics the code relies on, namely string falsiness and the
  integer a string becomes under a bitwise operator.
- `Endpoints`: the parsed-URL record and the resolution functions, with their
  lemmas.
- `Exceptions`: the Thrift faults and the thrown exceptions.
- `Remote`: the three client-calling operations, as pure functions that return
  the requests they sent and their outcome.
- `Publishing`: the `Publisher` class. Its constructor and setters update the
  object's properties in place, and their contracts tie each new property
  value to the `Endpoints` functions.

Places where the model follows the code rather than its comments and log
messages:
- The `localhost` → `127.0.0.1` rewrite of the receiver URL discards its result
  (publisher/Publisher.php:96-99). `parse_url` therefore sees the string as
  given, and a host `localhost` stays `localhost`
  (`Endpoints.ReceiverLocalhostKept`, `Publishing.Publisher.SetReceiverURL`).
- The authentication URL logs "Switching to https" when its scheme is not
  https (publisher/Publisher.php:159-162), but only a missing scheme becomes
  `https`; a given one such as `ssl` is kept
  (`Endpoints.ResolveAuthenticationURL`).
- The doc comment of `findStream` promises the stream id or FALSE
  (publisher/Publisher.php:184). The code never returns FALSE: a missing
  definition throws `StreamDefinitionException`, and an expired session returns
  null (`Remote.FindStream`).
- The expired-session handling is what the code does and no more: `findStream`
  returns null, `addStreamDefinition` and `publish` let the fault propagate,
  and no operation re-authenticates or retries.

In one place, the path-to-host guard of the authentication URL
(publisher/Publisher.php:143), the class uses a corrected guard instead of the
code's. The code's own behaviour is modelled beside it
(`Endpoints.ResolveAuthenticationURLAsWritten`); see "## Findings".

## Model

| member | source | states |
|---|---|---|
| `Endpoints.ResolveReceiverURL` | publisher/Publisher.php:101-126 | A receiver URL resolves exactly when it has a host, or has a path that is an IP address. The host is the given host, else the path. The scheme is the given one, else `tcp`. The port is the given one, else 7611. Every other component is unchanged, and the result is a full endpoint. |
| `Endpoints.ReceiverResolutionIdempotent` | publisher/Publisher.php:110-122 | Defaults are filled only where a component is missing, so resolving a resolved receiver URL changes nothing. |
| `Endpoints.ReceiverLocalhostKept` | publisher/Publisher.php:96-101 | Resolution never rewrites a host: a parsed host `localhost` resolves and is stored as `localhost`. |
| `Endpoints.ResolveAuthenticationURL` | publisher/Publisher.php:139-168 | A given authentication URL resolves exactly when it has a host, or has a path that is an IP address or `localhost`. A promoted path becomes the host and the path key is removed; otherwise host and path are unchanged. The port defaults to 9443 and the scheme to `https`, and a given scheme, https or not, is kept. No other component changes. |
| `Endpoints.AuthResolutionIdempotent` | publisher/Publisher.php:149-164 | Resolving a resolved authentication URL changes nothing. |
| `Endpoints.DerivedAuthenticationURL` | publisher/Publisher.php:169-174 | The URL used when no authentication URL is given is a full endpoint. |
| `Endpoints.DerivedIsResolutionOfHost` | publisher/Publisher.php:169-174 | The derived URL is exactly `{https, receiver host, 9443}`. That is what a given URL naming only the receiver's host resolves to. |
| `Endpoints.AuthenticationURLFor` | publisher/Publisher.php:137-176 | The stored authentication URL is missing (the setter throws) exactly when the argument is truthy and its parse has no host and no path that is an IP address or `localhost`. Whatever is stored is a full endpoint. A falsy argument gives the derived URL `{https, receiver host, 9443}` with no other component. A truthy one gives the resolution of its parse: the parsed host, else the promoted path (which is then removed); the given scheme, else `https`; the given port, else 9443; every other component as parsed. |
| `Endpoints.AsWrittenPromotionIff` | publisher/Publisher.php:143 | As written, the guard accepts `localhost`. It accepts an IP address only when the address's leading digits are not all zero. |
| `Endpoints.AsWrittenAgreesOnNonZeroLead` | publisher/Publisher.php:143 | For every path that starts with a digit 1-9, the as-written guard and the corrected guard agree. |
| `Endpoints.AuthPathPromotedAsWritten` | publisher/Publisher.php:143 | The guard as written, with PHP's conversion of both operands of the bitwise or to integers. It accepts no path that the corrected guard rejects. |
| `Endpoints.ResolveAuthenticationURLAsWritten` | publisher/Publisher.php:139-168 | Resolution of a given authentication URL with the guard as written. It succeeds exactly when there is a host, or a path the as-written guard accepts. Whenever it succeeds, its result is the corrected resolution's. |
| `Endpoints.AsWrittenResolutionDiffersOnlyOnZeroLead` | publisher/Publisher.php:141-167 | The code's resolution and the corrected one differ exactly on a URL without a host whose path is an IP address, other than `localhost`, with all-zero leading digits. There the code throws `MalformedURLException` and the corrected resolution stores the URL. |
| `Endpoints.ZeroAddressRejectedAsWritten` | publisher/Publisher.php:141-167 | The authentication URLs `0.0.0.0` and `::1`, parsed as a path only, are rejected by the code's resolution and accepted by the corrected one. |
| `Remote.FindStream` | publisher/Publisher.php:188-197 | Sends exactly one lookup, stamped with the current session id. A returned id is returned. A missing definition throws `StreamDefinitionException` with the not-found message. The call returns null exactly when the session expired. It succeeds exactly when the client returns or the session expired. Any other fault propagates unchanged, as the cause of the thrown exception. |
| `Remote.AddStreamDefinition` | publisher/Publisher.php:207-218 | Sends exactly one definition request under the current session id. It succeeds exactly when the client returns, with the returned id. It throws `StreamDefinitionException` exactly for the three definition faults, with that fault's message and the fault as cause. Other faults propagate unchanged. |
| `Remote.PublishEvent` | publisher/Publisher.php:220-231 | If the converter throws `UnknownAttributeException` for the event, that exception, with the converter's message, propagates and no request is sent. Otherwise it submits exactly one bundle, stamped with the current session id and carrying the event. It succeeds exactly when the client returns; otherwise the client's fault propagates. |
| `Remote.DefinitionMessagesDistinct` | publisher/Publisher.php:211-216 | The three definition faults map to pairwise distinct messages. |
| `Remote.SessionExpiryHandling` | publisher/Publisher.php:188-231 | On an expired session, findStream returns null. addStreamDefinition and publish (for a convertible event) throw the session-expired fault. Each sends one request only. |
| `Publishing.Publisher.Allocate` | publisher/Publisher.php:21-48 | A new publisher has every property unassigned. |
| `Publishing.Publisher.Construct` | publisher/Publisher.php:71-86 | A falsy receiver URL throws `NullPointerException` and assigns nothing. A receiver URL without a host throws `NullPointerException` and assigns nothing. An unresolvable authentication URL throws `MalformedURLException` after only the receiver URL is stored. Otherwise both URLs, the credentials and a connector built from exactly them are stored. |
| `Publishing.Publisher.SetReceiverURL` | publisher/Publisher.php:94-127 | Stores the resolution of the unrewritten input, so an input whose host parses as `localhost` is stored with host `localhost`. If the input has no host, it throws `NullPointerException` with the invalid-URL message and leaves the property as it was. |
| `Publishing.Publisher.SetAuthenticationURL` | publisher/Publisher.php:135-177 | Stores the derived or resolved authentication URL, with the corrected path guard. If the given URL has no host, it throws `MalformedURLException` and leaves the property as it was. |

## Left out

- Logging and logger configuration (publisher/Publisher.php:73-74 and every `info`/`error` call). These are diagnostic output with no effect on results.
- `parse_url` and `filter_var(..., FILTER_VALIDATE_IP)` are not modelled internally. They are parameters of the publisher: a function from a string to its component record, and a predicate on strings.
- A `parse_url` failure (PHP `false`) is represented by the record with no components. Under PHP 5 and 7 that behaves the same way: no host, so an exception. PHP 8's `TypeError` on that path is not modelled.
- `Php.ToInt` is exact about whether PHP converts a string to zero, which is all that line 143 depends on. Its value matches PHP 5 only: PHP 7.1 and later also read an exponent, so `1e5::1` becomes 100000. Leading white space, signs and overflow are not modelled.
- PHP 8 throws `TypeError` for a non-numeric operand of the bitwise or, such as `"::1" | false` at line 143. That exception is not modelled; the model follows PHP 5 and 7, where such an operand is 0.
- `PubllisherConnector` is not part of this model. The connector is represented by the four arguments it is created with. It may authenticate or fail in its own constructor; that is not modelled.
- `getSessionId()` and `getPublisherClient()` of the connector are replaced by parameters of the `Remote` functions: the session id, and the client as a function from request to reply. Those functions therefore do not read the publisher's `connector` property.
- `ThriftEventConverter::covertToThriftBundle` is not part of this model. A bundle is represented by the event it carries and the session id it is stamped with. Whether the converter throws `UnknownAttributeException` for an event, and with which message, is a parameter of `Remote.PublishEvent`, taken to depend on the event only.
- The Thrift exception classes are represented as distinct fault kinds. The source catches the specific definition faults before the generic one; with distinct kinds that order has no effect.
- `PublisherConstants` is not part of this model. The default ports 7611 and 9443 are taken from the examples in the constructor's documentation (publisher/Publisher.php:59, 64).
- Key order in PHP arrays is not modelled; only which keys are present and their values.
- Publishing.Publisher.SetAuthenticationURL: promotes an authentication path with the corrected guard. For a path-only URL that is an IP address with all-zero leading digits, such as `0.0.0.0` or `::1`, the code throws `MalformedURLException` and the model stores `{https, <path>, 9443}`. The code's behaviour is `Endpoints.ResolveAuthenticationURLAsWritten`, and `Endpoints.AsWrittenResolutionDiffersOnlyOnZeroLead` proves this is the only difference.
- Publishing.Publisher.Construct: inherits that correction from `SetAuthenticationURL`. For those authentication URLs the code's constructor throws `MalformedURLException`, while the model constructs the publisher.
- Re-authentication, retry on session expiry and concurrent session refresh are not modelled, because the source has none of them.

## Findings

| source | as written | input that shows it | evidently intended | confidence | as-written member | corrected member |
|---|---|---|---|---|---|---|
| publisher/Publisher.php:143 | The path-to-host guard for the authentication URL joins the IP check and the `localhost` comparison with a bitwise or. An accepted address is then converted to the integer of its leading digits, so an address whose leading digits are all zero counts as false. | An authentication URL `0.0.0.0` (a valid IPv4 address) or `::1` (IPv6 loopback), each parsed as a path only. Neither is promoted, so the constructor throws `MalformedURLException`. | A logical or: every valid IP address, and `localhost`, becomes the host. | not executed; medium (PHP 5/7 conversion rules) | `Endpoints.ResolveAuthenticationURLAsWritten` | `Endpoints.ResolveAuthenticationURL` |

The class `Publishing.Publisher` uses the corrected guard (`Endpoints.AuthPathPromoted`).
The as-written guard is `Endpoints.AuthPathPromotedAsWritten`.
`Endpoints.ZeroAddressRejectedAsWritten` exhibits the two inputs.
`Endpoints.AsWrittenResolutionDiffersOnlyOnZeroLead` shows that the two resolutions differ only on addresses whose leading digits are all zero.
