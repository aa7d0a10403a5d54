/** The shell scripts that proxy pods run: how the two generators write them, and decoders that read a
    script back as a list of TCP forwarders: first as texts, then as words of the shell and of socat. */
module ProxyScript {
  import opened Kube
  import opened Text

  /** One `socat` process: listen on a port, forward to a port of a target host. */
  datatype Forwarder = Forwarder(listen: int, target: string, remote: int)

  const HEAD := "socat TCP-LISTEN:"
  const EGRESS_OPTIONS := ",fork,reuseaddr TCP:"
  const INGRESS_OPTIONS := ",bind=$WG_IP,fork,reuseaddr TCP:"
  const TAIL := " &"
  const WAIT := "wait\n"
  const BIND := "WG_IP="
  const CONFIGURED := "echo \"Using configured bind IP: $WG_IP\"\n"

  // ---------- What the scripts look like ----------

  function Line(options: string, f: Forwarder): string {
    HEAD + Itoa(f.listen) + options + f.target + ":" + Itoa(f.remote) + TAIL
  }

  function EchoLine(f: Forwarder): string {
    "echo \"Starting socat proxy: $WG_IP:" + Itoa(f.listen) + " -> " + f.target + ":" + Itoa(f.remote) + "\""
  }

  /** One line for each forwarder, preceded by its echo when `echoed`, then the final wait. */
  function Script(options: string, echoed: bool, fs: seq<Forwarder>): string {
    if fs == [] then WAIT
    else (if echoed then EchoLine(fs[0]) + "\n" else "") + (Line(options, fs[0]) + "\n" + Script(options, echoed, fs[1..]))
  }

  function BindPart(prelude: string, bindIP: string): string {
    if bindIP == "" then prelude else BIND + bindIP + "\n" + CONFIGURED
  }

  function IngressScript(prelude: string, bindIP: string, fs: seq<Forwarder>): string {
    BindPart(prelude, bindIP) + Script(INGRESS_OPTIONS, true, fs)
  }

  // ---------- Decoders ----------

  /** The target and port of a forwarder: everything before and after the last colon. */
  function DecodeRemote(listen: int, s: string): Option<Forwarder> {
    match CutLast(s, ':')
    case None => None
    case Some((target, port)) =>
      match ParseInt(port)
      case Some(remote) => if NoSpace(target) then Some(Forwarder(listen, target, remote)) else None
      case None => None
  }

  /** The forwarder a line spells out. A blank ends a word, so no target contains one. */
  function DecodeLine(options: string, l: string): Option<Forwarder>
    requires options != ""
  {
    match StripPrefix(l, HEAD)
    case None => None
    case Some(afterHead) =>
      match Cut(afterHead, ',')
      case None => None
      case Some((port, rest)) =>
        match (ParseInt(port), StripPrefix(rest, options[1..]))
        case (Some(listen), Some(remote)) =>
          (match StripSuffix(remote, TAIL)
           case Some(s) => DecodeRemote(listen, s)
           case None => None)
        case _ => None
  }

  /** Reads a script line by line. With `echoed`, each forwarder must be preceded by its own echo. */
  function DecodeScript(options: string, echoed: bool, text: string): Option<seq<Forwarder>>
    requires options != ""
    decreases |text|
  {
    if text == WAIT then Some([])
    else
      match (if echoed then Cut(text, '\n') else Some(("", text)))
      case None => None
      case Some((echo, body)) =>
        match Cut(body, '\n')
        case None => None
        case Some((line, rest)) =>
          CutExact(body, '\n', line, rest);
          CutExact(text, '\n', echo, body);
          match (DecodeLine(options, line), DecodeScript(options, echoed, rest))
          case (Some(f), Some(fs)) => if echoed && echo != EchoLine(f) then None else Some([f] + fs)
          case _ => None
  }

  function DecodeIngress(prelude: string, text: string): Option<(string, seq<Forwarder>)> {
    match StripPrefix(text, prelude)
    case Some(body) => WithBind("", DecodeScript(INGRESS_OPTIONS, true, body))
    case None =>
      match StripPrefix(text, BIND)
      case None => None
      case Some(rest) =>
        match Cut(rest, '\n')
        case None => None
        case Some((bindIP, afterBind)) =>
          match StripPrefix(afterBind, CONFIGURED)
          case None => None
          case Some(body) => if bindIP == "" then None else WithBind(bindIP, DecodeScript(INGRESS_OPTIONS, true, body))
  }

  function WithBind(bindIP: string, fs: Option<seq<Forwarder>>): Option<(string, seq<Forwarder>)> {
    match fs
    case Some(x) => Some((bindIP, x))
    case None => None
  }

  // ---------- The decoders accept exactly the generated texts ----------

  predicate Clean(fs: seq<Forwarder>) {
    forall f | f in fs :: NoSpace(f.target)
  }

  lemma DecodeRemoteExact(listen: int, s: string, f: Forwarder)
    ensures DecodeRemote(listen, s) == Some(f)
       <==> f.listen == listen && s == f.target + ":" + Itoa(f.remote) && NoSpace(f.target)
  {
    ItoaChars(f.remote);
    CutLastExact(s, ':', f.target, Itoa(f.remote));
    match CutLast(s, ':')
    case None =>
    case Some((target, port)) =>
      CutLastExact(s, ':', target, port);
      ItoaParse(f.remote, port);
  }

  lemma LineShape(options: string, f: Forwarder)
    requires options != "" && options[0] == ','
    ensures Line(options, f)
         == HEAD + (Itoa(f.listen) + [','] + (options[1..] + ((f.target + ":" + Itoa(f.remote)) + TAIL)))
  {
    assert options == [','] + options[1..];
  }

  lemma DecodeLineExact(options: string, l: string, f: Forwarder)
    requires options != "" && options[0] == ','
    ensures DecodeLine(options, l) == Some(f) <==> l == Line(options, f) && NoSpace(f.target)
  {
    var s := f.target + ":" + Itoa(f.remote);
    var rest := options[1..] + (s + TAIL);
    LineShape(options, f);
    if l == Line(options, f) && NoSpace(f.target) {
      StripPrefixExact(l, HEAD, Itoa(f.listen) + [','] + rest);
      ItoaChars(f.listen);
      CutExact(Itoa(f.listen) + [','] + rest, ',', Itoa(f.listen), rest);
      ItoaParse(f.listen, Itoa(f.listen));
      StripPrefixExact(rest, options[1..], s + TAIL);
      StripSuffixExact(s + TAIL, TAIL, s);
      DecodeRemoteExact(f.listen, s, f);
    }
    if DecodeLine(options, l) == Some(f) {
      var afterHead := StripPrefix(l, HEAD).value;
      StripPrefixExact(l, HEAD, afterHead);
      var (port, rest') := Cut(afterHead, ',').value;
      CutExact(afterHead, ',', port, rest');
      var listen := ParseInt(port).value;
      ItoaParse(listen, port);
      var remote := StripPrefix(rest', options[1..]).value;
      StripPrefixExact(rest', options[1..], remote);
      var s' := StripSuffix(remote, TAIL).value;
      StripSuffixExact(remote, TAIL, s');
      DecodeRemoteExact(listen, s', f);
    }
  }

  lemma SpaceFree(options: string, f: Forwarder)
    requires NoSpace(f.target) && '\n' !in options
    ensures '\n' !in Line(options, f) && '\n' !in EchoLine(f)
  {
    ItoaChars(f.listen);
    ItoaChars(f.remote);
    assert IsSpace('\n');
  }

  /** The script of a non-empty list, cut into its first lines and the rest. */
  lemma ScriptCuts(options: string, echoed: bool, fs: seq<Forwarder>)
    requires fs != [] && Clean(fs) && '\n' !in options
    ensures
      var tail := Script(options, echoed, fs[1..]);
      var body := Line(options, fs[0]) + "\n" + tail;
      var text := Script(options, echoed, fs);
      && text != WAIT
      && Cut(body, '\n') == Some((Line(options, fs[0]), tail))
      && (if echoed then Cut(text, '\n') == Some((EchoLine(fs[0]), body)) else text == body)
  {
    var tail := Script(options, echoed, fs[1..]);
    var body := Line(options, fs[0]) + "\n" + tail;
    var text := Script(options, echoed, fs);
    assert text[0] == if echoed then 'e' else 's';
    assert text[0] != WAIT[0];
    SpaceFree(options, fs[0]);
    CutExact(body, '\n', Line(options, fs[0]), tail);
    if echoed {
      assert text == EchoLine(fs[0]) + ['\n'] + body;
      CutExact(text, '\n', EchoLine(fs[0]), body);
    }
  }

  lemma DecodeStep(options: string, echoed: bool, text: string, echo: string, body: string, line: string,
                   rest: string, f: Forwarder, fs: seq<Forwarder>)
    requires options != "" && text != WAIT
    requires if echoed then Cut(text, '\n') == Some((echo, body)) && echo == EchoLine(f) else text == body
    requires Cut(body, '\n') == Some((line, rest))
    requires DecodeLine(options, line) == Some(f) && DecodeScript(options, echoed, rest) == Some(fs)
    ensures DecodeScript(options, echoed, text) == Some([f] + fs)
  {
  }

  lemma ScriptDecodesStep(options: string, echoed: bool, fs: seq<Forwarder>)
    requires options != "" && options[0] == ',' && '\n' !in options && fs != [] && Clean(fs)
    requires DecodeScript(options, echoed, Script(options, echoed, fs[1..])) == Some(fs[1..])
    ensures DecodeScript(options, echoed, Script(options, echoed, fs)) == Some(fs)
  {
    var f, tail := fs[0], Script(options, echoed, fs[1..]);
    var line := Line(options, f);
    assert DecodeLine(options, line) == Some(f) by { DecodeLineExact(options, line, f); }
    ScriptCuts(options, echoed, fs);
    DecodeStep(options, echoed, Script(options, echoed, fs), EchoLine(f), line + "\n" + tail, line, tail, f, fs[1..]);
    assert fs == [f] + fs[1..];
  }

  lemma {:induction false} ScriptDecodes(options: string, echoed: bool, fs: seq<Forwarder>)
    requires options != "" && options[0] == ',' && '\n' !in options && Clean(fs)
    ensures DecodeScript(options, echoed, Script(options, echoed, fs)) == Some(fs)
  {
    if fs != [] {
      ScriptDecodes(options, echoed, fs[1..]);
      ScriptDecodesStep(options, echoed, fs);
    }
  }

  lemma {:induction false} DecodedIsScript(options: string, echoed: bool, text: string, fs: seq<Forwarder>)
    requires options != "" && options[0] == ',' && DecodeScript(options, echoed, text) == Some(fs)
    ensures text == Script(options, echoed, fs) && Clean(fs)
    decreases |text|
  {
    if text != WAIT {
      var (echo, body) := (if echoed then Cut(text, '\n') else Some(("", text))).value;
      if echoed { CutExact(text, '\n', echo, body); }
      var (line, rest) := Cut(body, '\n').value;
      CutExact(body, '\n', line, rest);
      DecodeLineExact(options, line, fs[0]);
      assert fs[1..] == DecodeScript(options, echoed, rest).value;
      DecodedIsScript(options, echoed, rest, fs[1..]);
    }
  }

  /** A text decodes to a forwarder list exactly when it is the script generated for that list and
      every target is free of white space; so decoding is unique and generation is injective. */
  lemma DecodeScriptExact(options: string, echoed: bool, text: string, fs: seq<Forwarder>)
    requires options != "" && options[0] == ',' && '\n' !in options
    ensures DecodeScript(options, echoed, text) == Some(fs) <==> text == Script(options, echoed, fs) && Clean(fs)
  {
    if text == Script(options, echoed, fs) && Clean(fs) {
      ScriptDecodes(options, echoed, fs);
    }
    if DecodeScript(options, echoed, text) == Some(fs) {
      DecodedIsScript(options, echoed, text, fs);
    }
  }

  /** The automatic prelude is told apart from a configured bind address by its first character: it
      starts with a shell comment. */
  predicate IsPrelude(prelude: string) {
    prelude != "" && prelude[0] == '#'
  }

  lemma BoundDecodes(prelude: string, text: string, bindIP: string, body: string)
    requires IsPrelude(prelude) && bindIP != "" && '\n' !in bindIP
    requires text == BIND + (bindIP + ['\n'] + (CONFIGURED + body))
    ensures DecodeIngress(prelude, text) == WithBind(bindIP, DecodeScript(INGRESS_OPTIONS, true, body))
  {
    var rest := bindIP + ['\n'] + (CONFIGURED + body);
    assert text[0] == 'W';
    StripPrefixExact(text, BIND, rest);
    CutExact(rest, '\n', bindIP, CONFIGURED + body);
    StripPrefixExact(CONFIGURED + body, CONFIGURED, body);
  }

  lemma AutomaticDecodes(prelude: string, fs: seq<Forwarder>)
    requires IsPrelude(prelude) && Clean(fs)
    ensures DecodeIngress(prelude, IngressScript(prelude, "", fs)) == Some(("", fs))
  {
    var body := Script(INGRESS_OPTIONS, true, fs);
    ScriptDecodes(INGRESS_OPTIONS, true, fs);
    StripPrefixExact(prelude + body, prelude, body);
  }

  lemma ConfiguredDecodes(prelude: string, bindIP: string, fs: seq<Forwarder>)
    requires IsPrelude(prelude) && Clean(fs) && bindIP != "" && '\n' !in bindIP
    ensures DecodeIngress(prelude, IngressScript(prelude, bindIP, fs)) == Some((bindIP, fs))
  {
    var body := Script(INGRESS_OPTIONS, true, fs);
    ScriptDecodes(INGRESS_OPTIONS, true, fs);
    Regroup(BIND, bindIP, CONFIGURED, body);
    BoundDecodes(prelude, IngressScript(prelude, bindIP, fs), bindIP, body);
  }

  lemma Regroup(a: string, b: string, c: string, d: string)
    ensures (a + b + "\n" + c) + d == a + (b + ['\n'] + (c + d))
  {
  }

  lemma DecodedIsIngress(prelude: string, text: string, bindIP: string, fs: seq<Forwarder>)
    requires DecodeIngress(prelude, text) == Some((bindIP, fs))
    ensures text == IngressScript(prelude, bindIP, fs) && Clean(fs) && '\n' !in bindIP
  {
    if prelude <= text {
      var body := StripPrefix(text, prelude).value;
      StripPrefixExact(text, prelude, body);
      DecodedIsScript(INGRESS_OPTIONS, true, body, fs);
    } else {
      var rest := StripPrefix(text, BIND).value;
      StripPrefixExact(text, BIND, rest);
      var (b, afterBind) := Cut(rest, '\n').value;
      CutExact(rest, '\n', b, afterBind);
      var body := StripPrefix(afterBind, CONFIGURED).value;
      StripPrefixExact(afterBind, CONFIGURED, body);
      DecodedIsScript(INGRESS_OPTIONS, true, body, fs);
      assert text == BIND + (b + ['\n'] + (CONFIGURED + body)) == BIND + b + "\n" + CONFIGURED + body;
    }
  }

  /** The same for the ingress script: behind its bind part, with or without a configured address. */
  lemma DecodeIngressExact(prelude: string, text: string, bindIP: string, fs: seq<Forwarder>)
    requires IsPrelude(prelude)
    ensures DecodeIngress(prelude, text) == Some((bindIP, fs))
       <==> text == IngressScript(prelude, bindIP, fs) && Clean(fs) && '\n' !in bindIP
  {
    if text == IngressScript(prelude, bindIP, fs) && Clean(fs) && '\n' !in bindIP {
      if bindIP == "" {
        AutomaticDecodes(prelude, fs);
      } else {
        ConfiguredDecodes(prelude, bindIP, fs);
      }
    }
    if DecodeIngress(prelude, text) == Some((bindIP, fs)) {
      DecodedIsIngress(prelude, text, bindIP, fs);
    }
  }

  // ---------- What the shell and socat make of a script ----------

  predicate HostChar(c: char) {
    'a' <= c <= 'z' || 'A' <= c <= 'Z' || IsDigit(c) || c == '.' || c == '-' || c == '_'
  }

  predicate HexChar(c: char) {
    'a' <= c <= 'f' || 'A' <= c <= 'F' || IsDigit(c) || c == ':' || c == '.'
  }

  /** A text that socat takes as one host: a host name or IPv4 address, or an IPv6 address in brackets,
      without a zone identifier. It holds no blank, quote, separator or expansion sign of the shell and
      no comma or bare colon of socat. Brackets are a pattern to the shell, which leaves the word as it
      stands as long as no file is called like that. */
  predicate HostWord(s: string) {
    || (s != "" && forall c | c in s :: HostChar(c))
    || (|s| > 2 && s[0] == '[' && s[|s| - 1] == ']' && forall c | c in s[1..|s| - 1] :: HexChar(c))
  }

  /** The forwarders that a script is sure to run: it is a list of forwarder lines, each with a host. */
  function ReadScript(options: string, echoed: bool, text: string): Option<seq<Forwarder>>
    requires options != ""
  {
    match DecodeScript(options, echoed, text)
    case None => None
    case Some(fs) => if forall f | f in fs :: HostWord(f.target) then Some(fs) else None
  }

  /** The same for an ingress script, whose bind address must be a host too if one is configured. */
  function ReadIngress(prelude: string, text: string): Option<(string, seq<Forwarder>)> {
    match DecodeIngress(prelude, text)
    case None => None
    case Some((bindIP, fs)) =>
      if (bindIP == "" || HostWord(bindIP)) && forall f | f in fs :: HostWord(f.target) then Some((bindIP, fs)) else None
  }

  lemma HostWordHasNoSpace(s: string)
    requires HostWord(s)
    ensures NoSpace(s) && '\n' !in s
  {
    forall c | c in s ensures !IsSpace(c) {
      if !HostChar(c) && c != '[' && c != ']' {
        var i :| 0 <= i < |s| && s[i] == c;
        assert s[1..|s| - 1][i - 1] == c;
        assert HexChar(c);
      }
    }
    assert IsSpace('\n');
  }

  lemma ReadScriptExact(options: string, echoed: bool, text: string, fs: seq<Forwarder>)
    requires options != "" && options[0] == ',' && '\n' !in options
    ensures ReadScript(options, echoed, text) == Some(fs)
       <==> text == Script(options, echoed, fs) && forall f | f in fs :: HostWord(f.target)
  {
    DecodeScriptExact(options, echoed, text, fs);
    if forall f | f in fs :: HostWord(f.target) {
      forall f | f in fs ensures NoSpace(f.target) {
        HostWordHasNoSpace(f.target);
      }
    }
  }

  lemma ReadIngressExact(prelude: string, text: string, bindIP: string, fs: seq<Forwarder>)
    requires IsPrelude(prelude)
    ensures ReadIngress(prelude, text) == Some((bindIP, fs))
       <==> && text == IngressScript(prelude, bindIP, fs)
            && (bindIP == "" || HostWord(bindIP)) && forall f | f in fs :: HostWord(f.target)
  {
    DecodeIngressExact(prelude, text, bindIP, fs);
    if bindIP != "" && HostWord(bindIP) {
      HostWordHasNoSpace(bindIP);
    }
    if forall f | f in fs :: HostWord(f.target) {
      forall f | f in fs ensures NoSpace(f.target) {
        HostWordHasNoSpace(f.target);
      }
    }
  }
}
