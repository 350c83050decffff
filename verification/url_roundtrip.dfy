/** Round trips of the URL parser: writing a destination out in the port
    form or the host form and parsing the text gives the destination back,
    and a few example destinations parse as the code reads them. */
module UrlRoundTrip {
  import opened Wrappers
  import opened Decimal
  import opened UrlPattern
  import opened LoggerUrl

  /** A scheme never contains a colon. */
  predicate NoColon(p: string) {
    forall k :: 0 <= k < |p| ==> p[k] != ':'
  }

  /** The text contains no `://`. */
  predicate NoSeparator(h: string) {
    forall k :: 0 <= k < |h| ==> !SepAt(h, k)
  }

  /** No colon in the text is followed by a digit, so a host written this way
      cannot be read as carrying a port. */
  predicate NoPortSuffix(h: string) {
    forall k :: 0 <= k < |h| - 1 && h[k] == ':' ==> !IsDigit(h[k + 1])
  }

  /** In `p + "://" + h + rest`, with no `/` in `rest`, the only
      `://` is the one after the scheme. */
  lemma OnlySeparator(p: string, h: string, rest: string)
    requires NoColon(p) && NoSeparator(h)
    requires forall k :: 0 <= k < |rest| ==> rest[k] != '/'
    ensures forall k :: SepAt(p + "://" + h + rest, k) ==> k == |p|
  {
    var u := p + "://" + h + rest;
    var J := |p| + 3 + |h|;
    assert forall k :: 0 <= k < |p| ==> u[k] == p[k];
    assert u[|p| + 1] == '/' && u[|p| + 2] == '/';
    assert forall k :: |p| + 3 <= k < J ==> u[k] == h[k - |p| - 3];
    assert forall k :: J <= k < |u| ==> u[k] == rest[k - J];
    forall k
      ensures SepAt(u, k) ==> k == |p|
    {
      if |p| + 3 <= k && k + 3 <= J {
        assert SepAt(u, k) ==> SepAt(h, k - |p| - 3);
      }
    }
  }

  /** The text contains no `/`. */
  predicate NoSlash(r: string) {
    forall k :: 0 <= k < |r| ==> r[k] != '/'
  }

  /** Text that may follow the digits of the port form without changing the
      match: no colon, no slash, and not starting with a digit. */
  predicate PlainTail(rest: string) {
    NoColon(rest) && NoSlash(rest) && (|rest| > 0 ==> !IsDigit(rest[0]))
  }

  /** In `p://h:d` followed by a plain tail, the leftmost-first port-form
      match runs from the start to the end of the digits. */
  lemma PortRoundTripSpan(u: string, p: string, h: string, d: string, rest: string)
    requires IsToken(p) && IsToken(h) && NoColon(p) && NoSeparator(h)
    requires |d| > 0 && IsDigits(d) && PlainTail(rest)
    requires u == p + "://" + h + ":" + d + rest
    ensures IsLeftmostFirstPort(u, PortSpan(0, |p|, |p| + 3 + |h|, |p| + 3 + |h| + 1 + |d|))
  {
    var J := |p| + 3 + |h|;
    var E := J + 1 + |d|;
    var m := PortSpan(0, |p|, J, E);
    assert u == p + "://" + h + (":" + d + rest);
    OnlySeparator(p, h, ":" + d + rest);
    assert forall k :: 0 <= k < |p| ==> u[k] == p[k];
    assert forall k :: |p| + 3 <= k < J ==> u[k] == h[k - |p| - 3];
    assert forall k :: J < k < E ==> u[k] == d[k - J - 1];
    assert forall k :: E <= k < |u| ==> u[k] == rest[k - E];
    assert u[J] == ':';
    assert PortMatch(u, 0, |p|, J, E);
    forall s, i, j, e
      ensures PortMatch(u, s, i, j, e) ==> PortPreferred(m, s, i, j, e)
    {
      if E < e <= |u| {
        var c := u[E];
        assert DigitsIn(u, J + 1, e) ==> IsDigit(c);
      }
    }
  }

  /** No keyword contains a colon. */
  lemma ColonIsNoKeyword(u: string, k: int)
    requires 0 <= k < |u| && u[k] == ':'
    ensures !IsKeyword(u)
  {
  }

  /** Where the pieces of `p://h:d` followed by a tail sit in the text. */
  lemma PortTextPieces(url: string, p: string, h: string, d: string, rest: string)
    requires url == p + "://" + h + ":" + d + rest
    ensures var J := |p| + 3 + |h|;
      && url[0..|p|] == p && url[|p|] == ':'
      && url[|p| + 3..J] == h && url[J + 1..J + 1 + |d|] == d
  {
  }

  /** `p://h:d` followed by a plain tail parses to protocol p, host h and
      the value of the digits d; the tail is ignored. */
  lemma ParsePortText(url: string, p: string, h: string, d: string, rest: string)
    requires IsToken(p) && IsToken(h) && NoColon(p) && NoSeparator(h)
    requires |d| > 0 && IsDigits(d) && PlainTail(rest)
    requires url == p + "://" + h + ":" + d + rest
    ensures ParseLoggerUrl(url) == ParseResult(LoggerParameters(p, Atoi(d), h), None)
  {
    PortTextPieces(url, p, h, d, rest);
    PortRoundTripSpan(url, p, h, d, rest);
    ColonIsNoKeyword(url, |p|);
    ParsePortMatch(url, PortSpan(0, |p|, |p| + 3 + |h|, |p| + 3 + |h| + 1 + |d|));
  }

  /** Port form: `p://h:n` parses to protocol p, host h and port n. */
  lemma ParsePortRoundTrip(url: string, p: string, h: string, n: nat)
    requires IsToken(p) && IsToken(h) && NoColon(p) && NoSeparator(h)
    requires n <= MaxInt
    requires url == p + "://" + h + ":" + Itoa(n)
    ensures ParseLoggerUrl(url) == ParseResult(LoggerParameters(p, n, h), None)
  {
    ParsePortText(url, p, h, Itoa(n), "");
    AtoiItoa(n);
  }

  /** In `p://h`, with no colon-digit pair in h, the port form finds
      nothing and the whole text is the leftmost-first host-form match. */
  lemma HostRoundTripSpan(u: string, p: string, h: string)
    requires IsToken(p) && IsToken(h) && NoColon(p) && NoSeparator(h) && NoPortSuffix(h)
    requires u == p + "://" + h
    ensures !HasPortMatch(u)
    ensures IsLeftmostFirstHost(u, HostSpan(0, |p|, |u|))
  {
    assert u == p + "://" + h + "";
    OnlySeparator(p, h, "");
    assert forall k :: 0 <= k < |p| ==> u[k] == p[k];
    assert forall k :: |p| + 3 <= k < |u| ==> u[k] == h[k - |p| - 3];
    forall s, i, j, e
      ensures !PortMatch(u, s, i, j, e)
    {
      if |p| + 3 <= j && j + 1 < |u| {
        assert u[j] == h[j - |p| - 3] && u[j + 1] == h[j + 1 - |p| - 3];
      }
    }
    assert HostMatch(u, 0, |p|, |u|);
  }

  /** Where the pieces of `p://h` sit in the text. */
  lemma HostTextPieces(url: string, p: string, h: string)
    requires url == p + "://" + h
    ensures url[0..|p|] == p && url[|p|] == ':' && url[|p| + 3..|url|] == h
  {
  }

  /** Host form: `p://h` parses to protocol p and host h, with port 514 for
      `rsyslog` and 0 otherwise. */
  lemma ParseHostRoundTrip(url: string, p: string, h: string)
    requires IsToken(p) && IsToken(h) && NoColon(p) && NoSeparator(h) && NoPortSuffix(h)
    requires url == p + "://" + h
    ensures ParseLoggerUrl(url)
         == ParseResult(LoggerParameters(p, if p == "rsyslog" then DefaultRsyslogPort else 0, h), None)
  {
    HostTextPieces(url, p, h);
    HostRoundTripSpan(url, p, h);
    ColonIsNoKeyword(url, |p|);
    ParseHostMatch(url, HostSpan(0, |p|, |url|));
  }

  // Example destinations. Facts about their literal pieces are proved
  // once, apart from the parse.

  lemma SchemeWord(p: string)
    requires p == "rsyslog" || p == "rsync" || p == "file"
    ensures IsToken(p) && NoColon(p)
  {
    assert NoSpaceIn(p, 0, |p|);
  }

  lemma PlainHost(h: string)
    requires h == "127.0.0.1" || h == "/var/log/x.log"
    ensures IsToken(h) && NoSeparator(h) && NoPortSuffix(h)
  {
    assert NoSpaceIn(h, 0, |h|);
  }

  lemma PortDigits()
    ensures Itoa(514) == "514" && Itoa(3306) == "3306" && Itoa(1) == "1"
  {
  }

  lemma RsyslogPortText()
    ensures "rsyslog://127.0.0.1:514" == "rsyslog" + "://" + "127.0.0.1" + ":" + "514"
  {
  }

  lemma RsyncPortText()
    ensures "rsync://127.0.0.1:3306" == "rsync" + "://" + "127.0.0.1" + ":" + "3306"
  {
  }

  lemma RsyslogHostText()
    ensures "rsyslog://127.0.0.1" == "rsyslog" + "://" + "127.0.0.1"
  {
  }

  lemma FileHostText()
    ensures "file:///var/log/x.log" == "file" + "://" + "/var/log/x.log"
  {
  }

  lemma FilePathText()
    ensures "file:///var/log/app:1.log" == "file" + "://" + "/var/log/app" + ":" + "1" + ".log"
  {
  }

  lemma ExampleRsyslogWithPort()
    ensures ParseLoggerUrl("rsyslog://127.0.0.1:514") == ParseResult(LoggerParameters("rsyslog", 514, "127.0.0.1"), None)
  {
    SchemeWord("rsyslog");
    PlainHost("127.0.0.1");
    PortDigits();
    RsyslogPortText();
    ParsePortRoundTrip("rsyslog://127.0.0.1:514", "rsyslog", "127.0.0.1", 514);
  }

  lemma ExampleRsyncWithPort()
    ensures ParseLoggerUrl("rsync://127.0.0.1:3306") == ParseResult(LoggerParameters("rsync", 3306, "127.0.0.1"), None)
  {
    SchemeWord("rsync");
    PlainHost("127.0.0.1");
    PortDigits();
    RsyncPortText();
    ParsePortRoundTrip("rsync://127.0.0.1:3306", "rsync", "127.0.0.1", 3306);
  }

  lemma ExampleRsyslogDefaultPort()
    ensures ParseLoggerUrl("rsyslog://127.0.0.1") == ParseResult(LoggerParameters("rsyslog", 514, "127.0.0.1"), None)
  {
    SchemeWord("rsyslog");
    PlainHost("127.0.0.1");
    RsyslogHostText();
    ParseHostRoundTrip("rsyslog://127.0.0.1", "rsyslog", "127.0.0.1");
  }

  lemma ExampleFile()
    ensures ParseLoggerUrl("file:///var/log/x.log") == ParseResult(LoggerParameters("file", 0, "/var/log/x.log"), None)
  {
    SchemeWord("file");
    PlainHost("/var/log/x.log");
    FileHostText();
    ParseHostRoundTrip("file:///var/log/x.log", "file", "/var/log/x.log");
  }

  /** The tail after the port digits of the path example. */
  lemma LogSuffix()
    ensures IsToken("/var/log/app") && NoSeparator("/var/log/app") && PlainTail(".log")
  {
    assert NoSpaceIn("/var/log/app", 0, 12);
  }

  /** The port form is not anchored at the end: a file path with a colon
      followed by a digit loses everything from that colon on. */
  lemma ExampleFilePathWithColonDigit()
    ensures ParseLoggerUrl("file:///var/log/app:1.log") == ParseResult(LoggerParameters("file", 1, "/var/log/app"), None)
  {
    SchemeWord("file");
    LogSuffix();
    FilePathText();
    assert IsDigits("1");
    ParsePortText("file:///var/log/app:1.log", "file", "/var/log/app", "1", ".log");
    PortDigits();
    AtoiItoa(1);
  }

  lemma NotAUrlText()
    ensures !IsKeyword("not-a-url") && !HasSchemeSeparator("not-a-url")
    ensures "Failed to parse " + "not-a-url" == "Failed to parse not-a-url"
  {
    var u := "not-a-url";
    assert forall i :: 0 <= i < |u| ==> u[i] != ':';
  }

  lemma ExampleNotAUrl()
    ensures ParseLoggerUrl("not-a-url") == ParseResult(ZeroParameters, Some("Failed to parse not-a-url"))
  {
    NotAUrlText();
    ParseFailsIff("not-a-url");
  }

  /** The port form takes priority: a trailing port is never swallowed into
      the host. */
  lemma PortNotSwallowed()
    ensures ParseLoggerUrl("rsyslog://127.0.0.1:514").params.host != "127.0.0.1:514"
  {
    ExampleRsyslogWithPort();
  }
}
