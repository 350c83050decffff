/** `ParseLoggerUrl`: turns the configured destination string into the
    protocol, host and port of the log destination. Three forms are tried in
    order: a bare keyword, the port form `scheme://host:digits`, and the host
    form `scheme://host`; anything else is a parse error. */
module LoggerUrl {
  import opened Wrappers
  import opened Decimal
  import opened UrlPattern

  datatype LoggerParameters = LoggerParameters(protocol: string, port: int, host: string)

  /** Go's zero value of `LoggerParameters`. */
  const ZeroParameters := LoggerParameters("", 0, "")

  /** Go returns the parameters and the error side by side. */
  datatype ParseResult = ParseResult(params: LoggerParameters, err: Option<string>)

  /** Port assumed for an `rsyslog` destination written without a port. */
  const DefaultRsyslogPort := 514

  predicate IsKeyword(url: string) {
    url == "debug" || url == "stdout" || url == "stderr" || url == "dummy" || url == "sink"
  }

  /** A non-empty run of `\S`, as a `(\S+)` group captures. */
  predicate IsToken(s: string) {
    |s| > 0 && NoSpaceIn(s, 0, |s|)
  }

  /** `x` occurs in `u` at index `a`. */
  predicate OccursAt(x: string, u: string, a: int) {
    0 <= a && a + |x| <= |u| && u[a..a + |x|] == x
  }

  /** `x` occurs somewhere in `u`. */
  ghost predicate Occurs(x: string, u: string) {
    exists a :: OccursAt(x, u, a)
  }

  /** Some `://` in `url` has a non-space character on each side. */
  ghost predicate HasSchemeSeparator(url: string) {
    exists i :: 1 <= i && SepAt(url, i) && i + 3 < |url| && !IsSpace(url[i - 1]) && !IsSpace(url[i + 3])
  }

  function PortParameters(url: string, m: PortSpan): LoggerParameters
    requires IsPortMatch(url, m)
  {
    LoggerParameters(url[m.start..m.sep], Atoi(url[m.colon + 1..m.end]), url[m.sep + 3..m.colon])
  }

  function HostParameters(url: string, m: HostSpan): LoggerParameters
    requires IsHostMatch(url, m)
  {
    var protocol := url[m.start..m.sep];
    LoggerParameters(protocol, if protocol == "rsyslog" then DefaultRsyslogPort else 0, url[m.sep + 3..m.end])
  }

  function ParseLoggerUrl(url: string): (r: ParseResult)
    ensures IsKeyword(url) ==> r == ParseResult(LoggerParameters(url, 0, "localhost"), None)
    ensures r.err.Some? ==> r.params == ZeroParameters && r.err.value == "Failed to parse " + url
    ensures r.err.None? ==> 0 <= r.params.port
    ensures !IsKeyword(url) && r.err.None? ==> IsToken(r.params.protocol) && IsToken(r.params.host)
  {
    if IsKeyword(url) then
      ParseResult(LoggerParameters(url, 0, "localhost"), None)
    else match FindPortMatch(url)
      case Some(m) => ParseResult(PortParameters(url, m), None)
      case None =>
        match FindHostMatch(url)
        case Some(m) => ParseResult(HostParameters(url, m), None)
        case None => ParseResult(ZeroParameters, Some("Failed to parse " + url))
  }

  /** The leftmost-first match is unique, so the regex semantics determine
      the groups independently of how they are searched for. */
  lemma LeftmostFirstPortUnique(u: string, m1: PortSpan, m2: PortSpan)
    requires IsLeftmostFirstPort(u, m1) && IsLeftmostFirstPort(u, m2)
    ensures m1 == m2
  {
    assert PortPreferred(m1, m2.start, m2.sep, m2.colon, m2.end);
    assert PortPreferred(m2, m1.start, m1.sep, m1.colon, m1.end);
  }

  lemma LeftmostFirstHostUnique(u: string, m1: HostSpan, m2: HostSpan)
    requires IsLeftmostFirstHost(u, m1) && IsLeftmostFirstHost(u, m2)
    ensures m1 == m2
  {
    assert HostPreferred(m1, m2.start, m2.sep, m2.end);
    assert HostPreferred(m2, m1.start, m1.sep, m1.end);
  }

  /** Whatever the search strategy, the parser reports the groups of the
      leftmost-first port-form match when there is one. */
  lemma ParsePortMatch(url: string, m: PortSpan)
    requires !IsKeyword(url) && IsLeftmostFirstPort(url, m)
    ensures ParseLoggerUrl(url) == ParseResult(PortParameters(url, m), None)
  {
    assert FindPortMatch(url).Some?;
    LeftmostFirstPortUnique(url, m, FindPortMatch(url).value);
  }

  /** Likewise for the host form, when the port form does not match. */
  lemma ParseHostMatch(url: string, m: HostSpan)
    requires !IsKeyword(url) && !HasPortMatch(url) && IsLeftmostFirstHost(url, m)
    ensures ParseLoggerUrl(url) == ParseResult(HostParameters(url, m), None)
  {
    assert FindPortMatch(url).None?;
    assert FindHostMatch(url).Some?;
    LeftmostFirstHostUnique(url, m, FindHostMatch(url).value);
  }

  /** The text a port-form match covers is exactly protocol, `://`, host,
      `:` and the digit run. */
  lemma PortMatchText(url: string, m: PortSpan)
    requires IsPortMatch(url, m)
    ensures url[m.start..m.end]
         == url[m.start..m.sep] + "://" + url[m.sep + 3..m.colon] + ":" + url[m.colon + 1..m.end]
  {
    var a, i, j, e := m.start, m.sep, m.colon, m.end;
    assert url[i..i + 3] == "://";
    assert url[j..j + 1] == ":";
    assert url[a..e] == url[a..i] + url[i..e];
    assert url[i..e] == url[i..i + 3] + url[i + 3..e];
    assert url[i + 3..e] == url[i + 3..j] + url[j..e];
    assert url[j..e] == url[j..j + 1] + url[j + 1..e];
  }

  lemma HostMatchText(url: string, m: HostSpan)
    requires IsHostMatch(url, m)
    ensures url[m.start..m.end] == url[m.start..m.sep] + "://" + url[m.sep + 3..m.end]
  {
    var a, i, e := m.start, m.sep, m.end;
    assert url[i..i + 3] == "://";
    assert url[a..e] == url[a..i] + url[i..i + 3] + url[i + 3..e];
  }

  /** The port group of a match is a non-empty digit run. */
  lemma PortGroupDigits(url: string, m: PortSpan)
    requires IsPortMatch(url, m)
    ensures var d := url[m.colon + 1..m.end]; |d| > 0 && IsDigits(d)
  {
    var d := url[m.colon + 1..m.end];
    forall k | 0 <= k < |d| ensures IsDigit(d[k]) {
      assert d[k] == url[m.colon + 1 + k];
    }
  }

  /** The groups of a port-form match appear in the input as one piece,
      and the port is the value of a non-empty digit run. */
  lemma PortGroupsOccur(url: string, m: PortSpan)
    requires IsPortMatch(url, m)
    ensures var p := PortParameters(url, m);
      exists d :: |d| > 0 && IsDigits(d) && p.port == Atoi(d) && Occurs(p.protocol + "://" + p.host + ":" + d, url)
  {
    var d := url[m.colon + 1..m.end];
    PortGroupDigits(url, m);
    PortMatchText(url, m);
    var p := PortParameters(url, m);
    assert p == LoggerParameters(url[m.start..m.sep], Atoi(d), url[m.sep + 3..m.colon]);
    var x := p.protocol + "://" + p.host + ":" + d;
    assert x == url[m.start..m.end];
    assert OccursAt(x, url, m.start);
  }

  /** The groups of a host-form match appear in the input as one piece. */
  lemma HostGroupsOccur(url: string, m: HostSpan)
    requires IsHostMatch(url, m)
    ensures var p := HostParameters(url, m); Occurs(p.protocol + "://" + p.host, url)
  {
    var p := HostParameters(url, m);
    HostMatchText(url, m);
    var x := p.protocol + "://" + p.host;
    assert x == url[m.start..m.end];
    assert OccursAt(x, url, m.start);
  }

  /** When the port form matches, the result comes from it: protocol and
      host are the first two groups of the leftmost-first match, the port is
      the value of its digit run, and protocol, `://`, host, `:` and those
      digits occur in the input as one piece. */
  lemma ParsePortForm(url: string)
    requires !IsKeyword(url) && HasPortMatch(url)
    ensures ParseLoggerUrl(url).err.None?
    ensures exists m :: IsLeftmostFirstPort(url, m) && ParseLoggerUrl(url).params == PortParameters(url, m)
    ensures var p := ParseLoggerUrl(url).params;
      exists d :: |d| > 0 && IsDigits(d) && p.port == Atoi(d) && Occurs(p.protocol + "://" + p.host + ":" + d, url)
  {
    assert FindPortMatch(url).Some?;
    var m := FindPortMatch(url).value;
    ParsePortMatch(url, m);
    PortGroupsOccur(url, m);
  }

  /** When only the host form matches, the result comes from it, and the
      port is 514 exactly for `rsyslog` and 0 for every other protocol. */
  lemma ParseHostForm(url: string)
    requires !IsKeyword(url) && !HasPortMatch(url) && HasHostMatch(url)
    ensures ParseLoggerUrl(url).err.None?
    ensures exists m :: IsLeftmostFirstHost(url, m) && ParseLoggerUrl(url).params == HostParameters(url, m)
    ensures var p := ParseLoggerUrl(url).params;
      && Occurs(p.protocol + "://" + p.host, url)
      && (p.port == DefaultRsyslogPort <==> p.protocol == "rsyslog")
      && (p.port == 0 <==> p.protocol != "rsyslog")
  {
    assert FindHostMatch(url).Some?;
    var m := FindHostMatch(url).value;
    ParseHostMatch(url, m);
    HostGroupsOccur(url, m);
  }

  /** Every port-form match contains a host-form match. */
  lemma PortMatchIsHostMatch(url: string, s: int, i: int, j: int, e: int)
    ensures PortMatch(url, s, i, j, e) ==> HostMatch(url, s, i, e)
  {
  }

  /** The host form matches exactly when some `://` has a non-space
      character on each side. */
  lemma HostMatchIffSeparator(url: string)
    ensures HasHostMatch(url) <==> HasSchemeSeparator(url)
  {
    if HasHostMatch(url) {
      var s, i, e :| HostMatch(url, s, i, e);
      assert !IsSpace(url[i - 1]) && !IsSpace(url[i + 3]);
    }
    if HasSchemeSeparator(url) {
      var i :| 1 <= i && SepAt(url, i) && i + 3 < |url| && !IsSpace(url[i - 1]) && !IsSpace(url[i + 3]);
      assert HostMatch(url, i - 1, i, i + 4);
    }
  }

  /** Parsing fails exactly when the input is no keyword and contains no
      `://` with a non-space character on each side. */
  lemma ParseFailsIff(url: string)
    ensures ParseLoggerUrl(url).err.Some? <==> !IsKeyword(url) && !HasSchemeSeparator(url)
  {
    HostMatchIffSeparator(url);
    if !IsKeyword(url) && FindPortMatch(url).Some? {
      var m := FindPortMatch(url).value;
      PortMatchIsHostMatch(url, m.start, m.sep, m.colon, m.end);
    }
  }
}
