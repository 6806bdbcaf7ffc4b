/**
 * The stunnel server configuration: the fixed template with its two
 * placeholders, the text rendered from it, and a reader for that text that
 * recovers the settings of the `[rsync]` service the way the proxy sees them.
 */
module StunnelConf {
  import opened Wrappers
  import opened Decimal

  const KeyPath := "/etc/stunnel/certs/tls.key"
  const CertPath := "/etc/stunnel/certs/tls.crt"

  // The template's text, line by line.
  const ForegroundLine := "foreground = yes"
  const PidLine := "pid ="
  const LocalSocketLine := "socket = l:TCP_NODELAY=1"
  const RemoteSocketLine := "socket = r:TCP_NODELAY=1"
  const DebugLine := "debug = 7"
  const SslVersionLine := "sslVersion = TLSv1.2"
  const ServiceHeader := "[rsync]"
  const AcceptLead := "accept = "
  const ConnectLead := "connect = "
  const KeyLine := "key = " + KeyPath
  const CertLine := "cert = " + CertPath
  const TimeoutCloseLine := "TIMEOUTclose = 0"

  /** The values substituted for the two placeholders, already in decimal. */
  datatype Ports = Ports(stunnelPort: string, transferPort: string)

  /** The template's lines with the two placeholders filled in. */
  function ServerConfLines(ports: Ports): (r: seq<string>) {
    [ ForegroundLine, PidLine, LocalSocketLine, RemoteSocketLine, DebugLine, SslVersionLine,
      ServiceHeader,
      AcceptLead + ports.stunnelPort,
      ConnectLead + ports.transferPort,
      KeyLine, CertLine, TimeoutCloseLine ]
  }

  /** Joins lines, terminating each with a newline. */
  function Unlines(ls: seq<string>): (r: string) {
    if ls == [] then "" else ls[0] + "\n" + Unlines(ls[1..])
  }

  /** The configuration text for an accept port and a connect port. */
  function Render(acceptPort: int, connectPort: int): (r: string) {
    Unlines(ServerConfLines(Ports(Itoa(acceptPort), Itoa(connectPort))))
  }

  // ---------------------------------------------------------------------------
  // Reading the text back

  /** Index of the first `c` in `s`, or `|s|` when there is none. */
  function IndexOf(s: string, c: char): (i: nat)
    ensures i <= |s|
    ensures i < |s| ==> s[i] == c
    ensures forall j :: 0 <= j < i ==> s[j] != c
  {
    if s == [] then 0
    else if s[0] == c then 0
    else 1 + IndexOf(s[1..], c)
  }

  /** Splits text into newline-terminated lines; a final unterminated piece is a line too. */
  function Lines(s: string): (r: seq<string>)
    decreases |s|
  {
    if s == [] then []
    else
      var i := IndexOf(s, '\n');
      if i == |s| then [s] else [s[..i]] + Lines(s[i + 1..])
  }

  predicate HasPrefix(s: string, p: string) {
    |p| <= |s| && s[..|p|] == p
  }

  /** The value of the first line `name = value`. */
  function Setting(lines: seq<string>, name: string): (r: Option<string>) {
    if lines == [] then None
    else if HasPrefix(lines[0], name + " = ") then Some(lines[0][|name| + 3..])
    else Setting(lines[1..], name)
  }

  /** The lines after the first line equal to `header`. */
  function Section(lines: seq<string>, header: string): (r: Option<seq<string>>) {
    if lines == [] then None
    else if lines[0] == header then Some(lines[1..])
    else Section(lines[1..], header)
  }

  /** What the proxy takes from the `[rsync]` service of a configuration. */
  datatype ServiceConf = ServiceConf(accept: int, connect: int, key: string, cert: string)

  function ParseConfig(text: string): (r: Option<ServiceConf>) {
    match Section(Lines(text), ServiceHeader)
    case None => None
    case Some(service) =>
      match (Setting(service, "accept"), Setting(service, "connect"),
             Setting(service, "key"), Setting(service, "cert"))
      case (Some(a), Some(c), Some(k), Some(crt)) =>
        (match (ParseDecimal(a), ParseDecimal(c))
         case (Some(accept), Some(connect)) => Some(ServiceConf(accept, connect, k, crt))
         case _ => None)
      case _ => None
  }

  // ---------------------------------------------------------------------------
  // Properties

  lemma {:induction false} LinesOfUnlines(ls: seq<string>)
    requires forall i :: 0 <= i < |ls| ==> '\n' !in ls[i]
    ensures Lines(Unlines(ls)) == ls
  {
    if ls != [] {
      var s := Unlines(ls);
      assert s == ls[0] + ("\n" + Unlines(ls[1..]));
      assert s[|ls[0]|] == '\n';
      assert IndexOf(s, '\n') == |ls[0]|;
      assert s[|ls[0]| + 1..] == Unlines(ls[1..]);
      assert s[..|ls[0]|] == ls[0];
      LinesOfUnlines(ls[1..]);
    }
  }

  /** Joining a non-empty list of lines ends in the last line's newline. */
  lemma {:induction false} UnlinesEndsInNewline(ls: seq<string>)
    requires ls != []
    ensures var s := Unlines(ls); |s| > 0 && s[|s| - 1] == '\n'
  {
    if |ls| > 1 {
      UnlinesEndsInNewline(ls[1..]);
    }
  }

  lemma {:induction false} SectionAt(lines: seq<string>, header: string, k: nat)
    requires k < |lines| && lines[k] == header
    requires forall j :: 0 <= j < k ==> lines[j] != header
    ensures Section(lines, header) == Some(lines[k + 1..])
  {
    if k > 0 {
      SectionAt(lines[1..], header, k - 1);
    }
  }

  lemma {:induction false} SettingAt(lines: seq<string>, name: string, k: nat)
    requires k < |lines| && HasPrefix(lines[k], name + " = ")
    requires forall j :: 0 <= j < k ==> !HasPrefix(lines[j], name + " = ")
    ensures Setting(lines, name) == Some(lines[k][|name| + 3..])
  {
    if k > 0 {
      SettingAt(lines[1..], name, k - 1);
    }
  }

  lemma GlobalLinesSingleLine()
    ensures '\n' !in ForegroundLine && '\n' !in PidLine && '\n' !in LocalSocketLine
    ensures '\n' !in RemoteSocketLine && '\n' !in DebugLine && '\n' !in SslVersionLine
  {
  }

  lemma ServiceLinesSingleLine()
    ensures '\n' !in ServiceHeader && '\n' !in AcceptLead && '\n' !in ConnectLead
    ensures '\n' !in KeyLine && '\n' !in CertLine && '\n' !in TimeoutCloseLine
  {
  }

  /** The lines of the rendered text are the template's lines verbatim,
      except that the `accept` and `connect` lines end in the two decimal ports. */
  lemma RenderedLines(acceptPort: int, connectPort: int)
    ensures Lines(Render(acceptPort, connectPort))
         == ServerConfLines(Ports(Itoa(acceptPort), Itoa(connectPort)))
  {
    var ls := ServerConfLines(Ports(Itoa(acceptPort), Itoa(connectPort)));
    GlobalLinesSingleLine();
    ServiceLinesSingleLine();
    assert forall i :: 0 <= i < |ls| ==> '\n' !in ls[i];
    LinesOfUnlines(ls);
  }

  /** Every line of the rendered text, the last one included, ends in a
      newline: joining its lines back gives the text byte for byte. */
  lemma RenderedTextVerbatim(acceptPort: int, connectPort: int)
    ensures Unlines(Lines(Render(acceptPort, connectPort))) == Render(acceptPort, connectPort)
    ensures var r := Render(acceptPort, connectPort); |r| > 0 && r[|r| - 1] == '\n'
  {
    RenderedLines(acceptPort, connectPort);
    UnlinesEndsInNewline(ServerConfLines(Ports(Itoa(acceptPort), Itoa(connectPort))));
  }

  /** The `[rsync]` service of the rendered text: its four settings, then the timeout line. */
  lemma RenderedService(acceptPort: int, connectPort: int)
    ensures Section(Lines(Render(acceptPort, connectPort)), ServiceHeader)
         == Some([AcceptLead + Itoa(acceptPort), ConnectLead + Itoa(connectPort),
                  KeyLine, CertLine, TimeoutCloseLine])
  {
    RenderedLines(acceptPort, connectPort);
    var ls := Lines(Render(acceptPort, connectPort));
    assert |ForegroundLine| != |ServiceHeader| && |PidLine| != |ServiceHeader|;
    assert |LocalSocketLine| != |ServiceHeader| && |RemoteSocketLine| != |ServiceHeader|;
    assert |DebugLine| != |ServiceHeader| && |SslVersionLine| != |ServiceHeader|;
    SectionAt(ls, ServiceHeader, 6);
  }

  lemma AcceptSetting(service: seq<string>, accept: string)
    requires |service| >= 1 && service[0] == AcceptLead + accept
    ensures Setting(service, "accept") == Some(accept)
  {
    SettingAt(service, "accept", 0);
  }

  lemma ConnectSetting(service: seq<string>, accept: string, connect: string)
    requires |service| >= 2 && service[0] == AcceptLead + accept && service[1] == ConnectLead + connect
    ensures Setting(service, "connect") == Some(connect)
  {
    assert service[0][0] == 'a';
    SettingAt(service, "connect", 1);
  }

  lemma KeySetting(service: seq<string>, accept: string, connect: string)
    requires |service| >= 3 && service[0] == AcceptLead + accept && service[1] == ConnectLead + connect
    requires service[2] == KeyLine
    ensures Setting(service, "key") == Some(KeyPath)
  {
    var lead := "key" + " = ";
    assert lead[0] == 'k';
    assert service[0][0] == 'a' && service[1][0] == 'c';
    assert !HasPrefix(service[0], lead) && !HasPrefix(service[1], lead);
    SettingAt(service, "key", 2);
  }

  lemma CertSetting(service: seq<string>, accept: string, connect: string)
    requires |service| >= 4 && service[0] == AcceptLead + accept && service[1] == ConnectLead + connect
    requires service[2] == KeyLine && service[3] == CertLine
    ensures Setting(service, "cert") == Some(CertPath)
  {
    var lead := "cert" + " = ";
    assert lead[0] == 'c' && lead[1] == 'e';
    assert service[0][0] == 'a' && service[1][1] == 'o' && service[2][0] == 'k';
    assert !HasPrefix(service[0], lead) && !HasPrefix(service[1], lead) && !HasPrefix(service[2], lead);
    SettingAt(service, "cert", 3);
  }

  /** Reading the rendered text yields exactly the two ports and the
      certificate and key paths of the template. */
  lemma ParseRender(acceptPort: int, connectPort: int)
    ensures ParseConfig(Render(acceptPort, connectPort))
         == Some(ServiceConf(acceptPort, connectPort, KeyPath, CertPath))
  {
    RenderedService(acceptPort, connectPort);
    var a, c := Itoa(acceptPort), Itoa(connectPort);
    var service := [AcceptLead + a, ConnectLead + c, KeyLine, CertLine, TimeoutCloseLine];
    AcceptSetting(service, a);
    ConnectSetting(service, a, c);
    KeySetting(service, a, c);
    CertSetting(service, a, c);
    ParseItoa(acceptPort);
    ParseItoa(connectPort);
  }

  /** The rendered text is determined by, and determines, the two ports. */
  lemma RenderInjective(a1: int, c1: int, a2: int, c2: int)
    ensures Render(a1, c1) == Render(a2, c2) <==> a1 == a2 && c1 == c2
  {
    ParseRender(a1, c1);
    ParseRender(a2, c2);
  }
}
