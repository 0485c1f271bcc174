/** `validateUrl` and `isValidUrl` (src/ElnkProShortener.js:550-626): the
    options object is merged over the defaults, then four checks run in a
    fixed order and the first that fails names the error.

    The WHATWG URL parser is not part of this model. What `new URL(url)`
    makes of the text is an input: `None` when it throws, otherwise the
    parsed protocol (with its trailing `:`), hostname, pathname and search. */
module Validation {
  import opened Wrappers
  import opened Text

  datatype ParsedUrl = ParsedUrl(protocol: string, hostname: string, pathname: string, search: string)

  /** The caller's options object: an absent key takes its default. */
  datatype UrlOptions = UrlOptions(requireProtocol: Option<bool>, allowLocalhost: Option<bool>,
                                   allowIP: Option<bool>, allowedProtocols: Option<seq<string>>)

  /** The options after `{ ...defaultOptions, ...options }`. */
  datatype Settings = Settings(requireProtocol: bool, allowLocalhost: bool, allowIP: bool,
                               allowedProtocols: seq<string>)

  const Defaults := Settings(true, true, true, ["http", "https"])
  const NoOptions := UrlOptions(None, None, None, None)

  function Merge(o: UrlOptions): Settings {
    Settings(o.requireProtocol.GetOr(Defaults.requireProtocol),
             o.allowLocalhost.GetOr(Defaults.allowLocalhost),
             o.allowIP.GetOr(Defaults.allowIP),
             o.allowedProtocols.GetOr(Defaults.allowedProtocols))
  }

  /** A given option wins over its default, an absent one keeps it. */
  lemma MergeSpread(o: UrlOptions)
    ensures Merge(NoOptions) == Defaults
    ensures var s := Merge(o);
      && (o.requireProtocol.Some? ==> s.requireProtocol == o.requireProtocol.value)
      && (o.requireProtocol.None? ==> s.requireProtocol)
      && (o.allowLocalhost.Some? ==> s.allowLocalhost == o.allowLocalhost.value)
      && (o.allowLocalhost.None? ==> s.allowLocalhost)
      && (o.allowIP.Some? ==> s.allowIP == o.allowIP.value)
      && (o.allowIP.None? ==> s.allowIP)
      && (o.allowedProtocols.Some? ==> s.allowedProtocols == o.allowedProtocols.value)
      && (o.allowedProtocols.None? ==> s.allowedProtocols == ["http", "https"])
  {
  }

  /** What the method returns: the parsed parts, or the first error. */
  datatype Verdict =
    | Valid(protocol: string, hostname: string, pathname: string, search: string)
    | Invalid(error: string)

  /** `s.slice(0, -1)`: everything but the last character. */
  function DropLast(s: string): (r: string)
    ensures s == [] ==> r == []
    ensures s != [] ==> r + [s[|s| - 1]] == s
  {
    if s == [] then [] else s[..|s| - 1]
  }

  /** The hostnames the localhost check refuses. */
  predicate IsLocalhost(h: string) {
    h == "localhost" || h == "127.0.0.1"
  }

  /** The regular expression `^\d+\.\d+\.\d+\.\d+$`: four non-empty runs of
      ASCII digits separated by dots. */
  predicate IsDottedQuad(h: string) {
    var parts := Split(h, '.');
    |parts| == 4 && forall k :: 0 <= k < 4 ==> parts[k] != [] && AllDigits(parts[k])
  }

  const NotAStringError := "URL must be a non-empty string"
  const FormatError := "Invalid URL format"
  const LocalhostError := "Localhost URLs are not allowed"
  const IpError := "IP addresses are not allowed"
  const HostnameError := "URL must have a valid hostname"

  function ProtocolError(allowed: seq<string>): string {
    "Protocol must be one of: " + Join(allowed, ", ")
  }

  /** The protocol check passes when it is off or the scheme is allowed. */
  predicate ProtocolOk(s: Settings, p: ParsedUrl) {
    !s.requireProtocol || DropLast(p.protocol) in s.allowedProtocols
  }

  predicate LocalhostOk(s: Settings, p: ParsedUrl) {
    s.allowLocalhost || !IsLocalhost(p.hostname)
  }

  predicate IpOk(s: Settings, p: ParsedUrl) {
    s.allowIP || !IsDottedQuad(p.hostname)
  }

  /** The checks in source order on merged settings. `url` is `None` when
      the argument is not a string. */
  function Check(url: Option<string>, s: Settings, parsed: Option<ParsedUrl>): (r: Verdict)
    ensures r.Valid? <==>
      && Truthy(url) && parsed.Some?
      && ProtocolOk(s, parsed.value) && LocalhostOk(s, parsed.value) && IpOk(s, parsed.value)
      && parsed.value.hostname != ""
    ensures r.Valid? ==> r == Valid(parsed.value.protocol, parsed.value.hostname,
                                    parsed.value.pathname, parsed.value.search)
  {
    if !Truthy(url) then Invalid(NotAStringError)
    else if parsed.None? then Invalid(FormatError)
    else
      var p := parsed.value;
      if !ProtocolOk(s, p) then Invalid(ProtocolError(s.allowedProtocols))
      else if !LocalhostOk(s, p) then Invalid(LocalhostError)
      else if !IpOk(s, p) then Invalid(IpError)
      else if p.hostname == "" then Invalid(HostnameError)
      else Valid(p.protocol, p.hostname, p.pathname, p.search)
  }

  /** `ElnkProShortener.validateUrl(url, options)`. */
  function ValidateUrl(url: Option<string>, options: UrlOptions, parsed: Option<ParsedUrl>): (r: Verdict)
    ensures r.Valid? <==>
      && Truthy(url) && parsed.Some?
      && ProtocolOk(Merge(options), parsed.value) && LocalhostOk(Merge(options), parsed.value)
      && IpOk(Merge(options), parsed.value) && parsed.value.hostname != ""
  {
    Check(url, Merge(options), parsed)
  }

  /** Each error is reported exactly when its check is the first to fail. */
  lemma CheckOrder(url: Option<string>, s: Settings, parsed: Option<ParsedUrl>)
    ensures Check(url, s, parsed) == Invalid(NotAStringError) <==> !Truthy(url)
    ensures Check(url, s, parsed) == Invalid(FormatError) <==> Truthy(url) && parsed.None?
    ensures Check(url, s, parsed) == Invalid(ProtocolError(s.allowedProtocols)) <==>
      Truthy(url) && parsed.Some? && !ProtocolOk(s, parsed.value)
    ensures Check(url, s, parsed) == Invalid(LocalhostError) <==>
      Truthy(url) && parsed.Some? && ProtocolOk(s, parsed.value) && !LocalhostOk(s, parsed.value)
    ensures Check(url, s, parsed) == Invalid(IpError) <==>
      Truthy(url) && parsed.Some? && ProtocolOk(s, parsed.value) && LocalhostOk(s, parsed.value)
      && !IpOk(s, parsed.value)
    ensures Check(url, s, parsed) == Invalid(HostnameError) <==>
      Truthy(url) && parsed.Some? && ProtocolOk(s, parsed.value) && LocalhostOk(s, parsed.value)
      && IpOk(s, parsed.value) && parsed.value.hostname == ""
  {
    var allowed := s.allowedProtocols;
    assert ProtocolError(allowed)[0] == 'P';
    assert NotAStringError[0] == 'U' && FormatError[0] == 'I' && LocalhostError[0] == 'L';
    assert IpError[0] == 'I' && HostnameError[0] == 'U';
    assert NotAStringError[1] == 'R' && HostnameError[1] == 'R' && NotAStringError[9] != HostnameError[9];
    assert FormatError[1] == 'n' && IpError[1] == 'P';
  }

  /** Settings `loose` accept at least what `strict` accepts. */
  predicate AtLeastAsLoose(loose: Settings, strict: Settings) {
    && (loose.requireProtocol ==> strict.requireProtocol)
    && (strict.allowLocalhost ==> loose.allowLocalhost)
    && (strict.allowIP ==> loose.allowIP)
    && (loose.requireProtocol ==> forall p :: p in strict.allowedProtocols ==> p in loose.allowedProtocols)
  }

  /** Loosening any option never rejects a URL that was accepted. */
  lemma LooserAcceptsMore(url: Option<string>, loose: Settings, strict: Settings, parsed: Option<ParsedUrl>)
    requires AtLeastAsLoose(loose, strict)
    ensures Check(url, strict, parsed).Valid? ==> Check(url, loose, parsed) == Check(url, strict, parsed)
  {
  }

  /** The protocols after the first, each preceded by `, `. */
  function ThenListed(rest: seq<string>): string {
    if rest == [] then "" else ", " + rest[0] + ThenListed(rest[1..])
  }

  lemma {:induction false} JoinThenListed(pieces: seq<string>)
    requires pieces != []
    ensures Join(pieces, ", ") == pieces[0] + ThenListed(pieces[1..])
  {
    var rest := pieces[1..];
    if rest == [] {
      assert pieces[0] + ThenListed(rest) == pieces[0];
    } else {
      JoinThenListed(rest);
      calc {
        Join(pieces, ", ");
        pieces[0] + ", " + Join(rest, ", ");
        pieces[0] + ", " + (rest[0] + ThenListed(rest[1..]));
        pieces[0] + (", " + rest[0] + ThenListed(rest[1..]));
        pieces[0] + ThenListed(rest);
      }
    }
  }

  /** The protocol error lists the allowed protocols in their given order:
      the first one, then each further one after `, `. */
  lemma ProtocolErrorLists(allowed: seq<string>)
    ensures allowed == [] ==> ProtocolError(allowed) == "Protocol must be one of: "
    ensures allowed != [] ==>
      ProtocolError(allowed) == "Protocol must be one of: " + allowed[0] + ThenListed(allowed[1..])
  {
    if allowed != [] {
      JoinThenListed(allowed);
    }
  }

  /** A hostname is a dotted quad exactly when it is four non-empty digit
      runs joined by dots. */
  lemma DottedQuadJoin(parts: seq<string>)
    requires |parts| == 4 && forall k :: 0 <= k < 4 ==> parts[k] != [] && AllDigits(parts[k])
    ensures IsDottedQuad(Join(parts, "."))
    ensures Split(Join(parts, "."), '.') == parts
  {
    forall k | 0 <= k < 4
      ensures '.' !in parts[k]
    {
      assert !IsDigit('.');
    }
    SplitJoin(parts, '.');
  }

  lemma DottedQuadSplit(h: string)
    requires IsDottedQuad(h)
    ensures var parts := Split(h, '.');
      && |parts| == 4 && Join(parts, ".") == h
      && forall k :: 0 <= k < 4 ==> parts[k] != [] && AllDigits(parts[k])
  {
    JoinSplit(h, '.');
  }

  /** `ElnkProShortener.isValidUrl(url)`: validation with the default
      options, reduced to its verdict. */
  function IsValidUrl(url: Option<string>, parsed: Option<ParsedUrl>): (ok: bool)
    ensures ok <==>
      && Truthy(url) && parsed.Some?
      && DropLast(parsed.value.protocol) in ["http", "https"]
      && parsed.value.hostname != ""
  {
    ValidateUrl(url, NoOptions, parsed).Valid?
  }

  /** `192.168.1.1` is a dotted quad. */
  lemma ExampleAddress(h: string)
    requires h == "192.168.1.1"
    ensures IsDottedQuad(h)
  {
    assert h == Join(["192", "168", "1", "1"], ".");
    DottedQuadJoin(["192", "168", "1", "1"]);
  }

  /** `validateUrl('http://192.168.1.1', { allowIP: false })` is refused as
      an IP address. */
  lemma RefusesIpAddress(url: Option<string>, parsed: Option<ParsedUrl>)
    requires url == Some("http://192.168.1.1")
    requires parsed == Some(ParsedUrl("http:", "192.168.1.1", "/", ""))
    ensures ValidateUrl(url, UrlOptions(None, None, Some(false), None), parsed) == Invalid(IpError)
  {
    ExampleAddress(parsed.value.hostname);
    assert DropLast("http:") == "http";
  }

  /** The same address passes with the default options. */
  lemma AcceptsIpAddressByDefault(url: Option<string>, parsed: Option<ParsedUrl>)
    requires url == Some("http://192.168.1.1")
    requires parsed == Some(ParsedUrl("http:", "192.168.1.1", "/", ""))
    ensures ValidateUrl(url, NoOptions, parsed).Valid?
  {
    assert DropLast("http:") == "http";
  }

  /** `validateUrl('http://localhost:3000', { allowLocalhost: false })`. */
  lemma RefusesLocalhost(url: Option<string>, parsed: Option<ParsedUrl>)
    requires url == Some("http://localhost:3000")
    requires parsed == Some(ParsedUrl("http:", "localhost", "/", ""))
    ensures ValidateUrl(url, UrlOptions(None, Some(false), None, None), parsed) == Invalid(LocalhostError)
  {
    assert DropLast("http:") == "http";
  }

  /** `validateUrl('ftp://example.com', { allowedProtocols: ['http', 'https'] })`. */
  lemma RefusesFtp(url: Option<string>, parsed: Option<ParsedUrl>)
    requires url == Some("ftp://example.com")
    requires parsed == Some(ParsedUrl("ftp:", "example.com", "/", ""))
    ensures ValidateUrl(url, UrlOptions(None, None, None, Some(["http", "https"])), parsed)
      == Invalid("Protocol must be one of: http, https")
  {
    assert DropLast("ftp:") == "ftp";
  }
}
