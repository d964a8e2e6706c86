/** The client's side of the DNS handoff: what it builds is accepted by the daemon, and
    apply followed by remove leaves the configuration store as it was. */
module DnsHandoff {
  import opened Wrappers
  import opened Scutil

  // ---------------------------------------------------------------- building

  // Words separated by single blanks.
  function Render(words: seq<string>): string {
    if words == [] then "" else if |words| == 1 then words[0] else words[0] + " " + Render(words[1..])
  }

  function RenderAll(lines: seq<seq<string>>): string {
    if lines == [] then "" else Render(lines[0]) + "\n" + RenderAll(lines[1..])
  }

  function DnsLines(id: string, iface: string, servers: seq<string>): seq<seq<string>> {
    [["d.init"], ["d.add", "ConfirmedServiceID", id], ["d.add", "InterfaceName", iface],
     ["d.add", "ServerAddresses", "*"] + servers, ["set", DnsKey(id)]]
  }

  function Ipv4Lines(id: string, iface: string, tunnel: string): seq<seq<string>> {
    [["d.init"], ["d.add", "Addresses", "*", tunnel], ["d.add", "InterfaceName", iface],
     ["d.add", "Router", tunnel], ["set", Ipv4Key(id)]]
  }

  function ApplyLines(id: string, iface: string, tunnel: string, servers: seq<string>): seq<seq<string>> {
    DnsLines(id, iface, servers) + if tunnel == "" then [] else Ipv4Lines(id, iface, tunnel)
  }

  function RemoveLines(id: string): seq<seq<string>> { [["remove", DnsKey(id)], ["remove", Ipv4Key(id)]] }

  lemma {:induction false} RenderAppend(words: seq<string>, word: string)
    requires words != []
    ensures Render(words + [word]) == Render(words) + " " + word
  {
    if |words| > 1 {
      assert (words + [word])[1..] == words[1..] + [word];
      RenderAppend(words[1..], word);
      assert Render(words + [word]) == words[0] + " " + (Render(words[1..]) + " " + word);
    } else {
      assert (words + [word])[1..] == [word];
    }
  }

  method ServerLine(servers: seq<string>) returns (b: string)
    ensures b == Render(["d.add", "ServerAddresses", "*"] + servers)
  {
    b := "d.add ServerAddresses *";
    var head := ["d.add", "ServerAddresses", "*"];
    HeadRendered();
    assert head + servers[..0] == head;
    for i := 0 to |servers|
      invariant b == Render(head + servers[..i])
    {
      RenderAppend(head + servers[..i], servers[i]);
      assert head + servers[..i] + [servers[i]] == head + servers[..i + 1];
      b := b + " " + servers[i];
    }
    assert servers[..|servers|] == servers;
  }

  lemma HeadRendered()
    ensures Render(["d.add", "ServerAddresses", "*"]) == "d.add ServerAddresses *"
  {
  }

  lemma Render2(a: string, b: string)
    ensures Render([a, b]) == a + " " + b
  {
  }

  lemma Render3(a: string, b: string, c: string)
    ensures Render([a, b, c]) == a + " " + b + " " + c
  {
    assert [a, b, c][1..] == [b, c];
    Render2(b, c);
  }

  lemma Render4(a: string, b: string, c: string, d: string)
    ensures Render([a, b, c, d]) == a + " " + b + " " + c + " " + d
  {
    assert [a, b, c, d][1..] == [b, c, d];
    Render3(b, c, d);
  }

  lemma {:induction false} RenderAllConcat(xs: seq<seq<string>>, ys: seq<seq<string>>)
    ensures RenderAll(xs + ys) == RenderAll(xs) + RenderAll(ys)
  {
    if xs == [] {
      assert xs + ys == ys;
    } else {
      assert (xs + ys)[1..] == xs[1..] + ys;
      RenderAllConcat(xs[1..], ys);
    }
  }

  lemma RenderOne(line: seq<string>)
    ensures RenderAll([line]) == Render(line) + "\n"
  {
  }

  // b.WriteString(line + "\n")
  method WriteLine(b: string, ghost lines: seq<seq<string>>, line: string, ghost words: seq<string>) returns (b': string, ghost lines': seq<seq<string>>)
    requires b == RenderAll(lines) && line == Render(words)
    ensures lines' == lines + [words] && b' == RenderAll(lines')
  {
    RenderAllConcat(lines, [words]);
    RenderOne(words);
    b' := b + line + "\n";
    lines' := lines + [words];
  }

  method DnsText(id: string, iface: string, servers: seq<string>) returns (b: string)
    ensures b == RenderAll(DnsLines(id, iface, servers))
  {
    b := "";
    ghost var lines: seq<seq<string>> := [];
    b, lines := WriteLine(b, lines, "d.init", ["d.init"]);
    Render3("d.add", "ConfirmedServiceID", id);
    b, lines := WriteLine(b, lines, "d.add" + " " + "ConfirmedServiceID" + " " + id, ["d.add", "ConfirmedServiceID", id]);
    Render3("d.add", "InterfaceName", iface);
    b, lines := WriteLine(b, lines, "d.add" + " " + "InterfaceName" + " " + iface, ["d.add", "InterfaceName", iface]);
    var servers' := ServerLine(servers);
    b, lines := WriteLine(b, lines, servers', ["d.add", "ServerAddresses", "*"] + servers);
    Render2("set", DnsKey(id));
    b, lines := WriteLine(b, lines, "set" + " " + DnsKey(id), ["set", DnsKey(id)]);
    assert lines == DnsLines(id, iface, servers);
  }

  method Ipv4Text(id: string, iface: string, tunnel: string) returns (b: string)
    ensures b == RenderAll(Ipv4Lines(id, iface, tunnel))
  {
    b := "";
    ghost var lines: seq<seq<string>> := [];
    b, lines := WriteLine(b, lines, "d.init", ["d.init"]);
    Render4("d.add", "Addresses", "*", tunnel);
    b, lines := WriteLine(b, lines, "d.add" + " " + "Addresses" + " " + "*" + " " + tunnel, ["d.add", "Addresses", "*", tunnel]);
    Render3("d.add", "InterfaceName", iface);
    b, lines := WriteLine(b, lines, "d.add" + " " + "InterfaceName" + " " + iface, ["d.add", "InterfaceName", iface]);
    Render3("d.add", "Router", tunnel);
    b, lines := WriteLine(b, lines, "d.add" + " " + "Router" + " " + tunnel, ["d.add", "Router", tunnel]);
    Render2("set", Ipv4Key(id));
    b, lines := WriteLine(b, lines, "set" + " " + Ipv4Key(id), ["set", Ipv4Key(id)]);
    assert lines == Ipv4Lines(id, iface, tunnel);
  }

  method BuildScutilApplyInput(id: string, iface: string, tunnel: string, servers: seq<string>) returns (b: string)
    ensures b == RenderAll(ApplyLines(id, iface, tunnel, servers))
  {
    b := DnsText(id, iface, servers);
    if tunnel != "" {
      var more := Ipv4Text(id, iface, tunnel);
      RenderAllConcat(DnsLines(id, iface, servers), Ipv4Lines(id, iface, tunnel));
      b := b + more;
    } else {
      assert DnsLines(id, iface, servers) + [] == DnsLines(id, iface, servers);
    }
  }

  method BuildScutilRemoveInput(id: string) returns (b: string)
    ensures b == RenderAll(RemoveLines(id))
  {
    b := "";
    ghost var lines: seq<seq<string>> := [];
    Render2("remove", DnsKey(id));
    b, lines := WriteLine(b, lines, "remove" + " " + DnsKey(id), ["remove", DnsKey(id)]);
    Render2("remove", Ipv4Key(id));
    b, lines := WriteLine(b, lines, "remove" + " " + Ipv4Key(id), ["remove", Ipv4Key(id)]);
    assert lines == RemoveLines(id);
  }

  // ---------------------------------------------------------------- reading back

  predicate AllWords(words: seq<string>) { |words| > 0 && forall i :: 0 <= i < |words| ==> Word(words[i]) }

  lemma {:induction false} RenderIsPlain(words: seq<string>)
    requires AllWords(words)
    ensures |Render(words)| > 0 && Graphic(Render(words)[|Render(words)| - 1])
    ensures forall i :: 0 <= i < |Render(words)| ==> Graphic(Render(words)[i]) || Render(words)[i] == ' '
  {
    if |words| > 1 {
      RenderIsPlain(words[1..]);
    }
  }

  // A line starting with a word and then a blank or the end: that word is its first field.
  lemma {:induction false} WordEndStops(env: Env, word: string, rest: string)
    requires Sane(env) && (forall i :: 0 <= i < |word| ==> Graphic(word[i])) && (rest == "" || rest[0] == ' ')
    ensures WordEnd(env, word + rest) == |word|
  {
    if word == [] {
      assert word + rest == rest;
    } else {
      assert (word + rest)[1..] == word[1..] + rest;
      WordEndStops(env, word[1..], rest);
    }
  }

  lemma FirstField(env: Env, word: string, rest: string)
    requires Sane(env) && Word(word) && (rest == "" || rest[0] == ' ')
    ensures Fields(env, word + rest) == [word] + Fields(env, rest)
  {
    WordEndStops(env, word, rest);
    assert (word + rest)[..|word|] == word && (word + rest)[|word|..] == rest;
  }

  lemma {:induction false} FieldsOfRender(env: Env, words: seq<string>)
    requires Sane(env) && AllWords(words)
    ensures Fields(env, Render(words)) == words
    decreases |words|
  {
    if |words| == 1 {
      FirstField(env, words[0], "");
      assert words[0] + "" == words[0] && words == [words[0]];
    } else {
      var rest := " " + Render(words[1..]);
      FirstField(env, words[0], rest);
      assert words[0] + rest == Render(words);
      assert rest[1..] == Render(words[1..]);
      FieldsOfRender(env, words[1..]);
      assert words == [words[0]] + words[1..];
    }
  }

  lemma {:induction false} LineEndAt(line: string, rest: string)
    requires '\n' !in line && rest != "" && rest[0] == '\n'
    ensures LineEnd(line + rest) == |line|
  {
    if line == [] {
      assert line + rest == rest;
    } else {
      assert (line + rest)[1..] == line[1..] + rest;
      LineEndAt(line[1..], rest);
    }
  }

  function Rendered(lines: seq<seq<string>>): seq<string> {
    if lines == [] then [] else [Render(lines[0])] + Rendered(lines[1..])
  }

  lemma {:induction false} LinesOfRender(lines: seq<seq<string>>)
    requires forall i :: 0 <= i < |lines| ==> AllWords(lines[i])
    ensures RawLines(RenderAll(lines)) == Rendered(lines)
    decreases |lines|
  {
    if lines != [] {
      var first, rest := Render(lines[0]), RenderAll(lines[1..]);
      RenderIsPlain(lines[0]);
      var text := first + ("\n" + rest);
      assert RenderAll(lines) == text;
      LineEndAt(first, "\n" + rest);
      assert text[..|first|] == first && text[|first| + 1..] == rest;
      LinesOfRender(lines[1..]);
    }
  }

  lemma {:induction false} RenderAllIsPlain(lines: seq<seq<string>>)
    requires forall i :: 0 <= i < |lines| ==> AllWords(lines[i])
    ensures forall i :: 0 <= i < |RenderAll(lines)| ==> Plain(RenderAll(lines)[i])
    decreases |lines|
  {
    if lines != [] {
      RenderIsPlain(lines[0]);
      RenderAllIsPlain(lines[1..]);
    }
  }

  // Built texts are ASCII, so their length in bytes is their length.
  lemma BuiltSize(env: Env, lines: seq<seq<string>>)
    requires Sane(env) && forall i :: 0 <= i < |lines| ==> AllWords(lines[i])
    ensures Size(env, RenderAll(lines)) == |RenderAll(lines)|
  {
    RenderAllIsPlain(lines);
    PlainSize(env, RenderAll(lines));
  }

  /** What the daemon makes of a rendered line is the words it was rendered from. */
  lemma RenderedLineIsGood(env: Env, words: seq<string>)
    requires Sane(env) && AllWords(words) && |Render(words)| < MAX_LINE
    ensures GoodRawLine(env, Render(words)) <==> GoodLine(env, words)
  {
    RenderIsPlain(words);
    PlainSize(env, Render(words));
    FieldsOfRender(env, words);
    assert DropReturn(Render(words)) == Render(words);
  }

  ghost predicate GoodWords(env: Env, lines: seq<seq<string>>) {
    forall i :: 0 <= i < |lines| ==> AllWords(lines[i]) && |Render(lines[i])| < MAX_LINE && GoodLine(env, lines[i])
  }

  lemma {:induction false} RenderedAreGood(env: Env, lines: seq<seq<string>>)
    requires Sane(env) && GoodWords(env, lines)
    ensures AllGood(env, Rendered(lines))
    decreases |lines|
  {
    if lines != [] {
      RenderedLineIsGood(env, lines[0]);
      RenderedAreGood(env, lines[1..]);
      AllGoodCons(env, Render(lines[0]), Rendered(lines[1..]));
    }
  }

  lemma AcceptsGoodWords(env: Env, lines: seq<seq<string>>)
    requires Sane(env) && lines != [] && GoodWords(env, lines) && |RenderAll(lines)| <= MAX_INPUT
    ensures GoodInput(env, RenderAll(lines))
  {
    LinesOfRender(lines);
    RenderedAreGood(env, lines);
    BuiltSize(env, lines);
  }

  // ---------------------------------------------------------------- acceptance

  lemma SlashAt(a: string, b: string)
    requires '/' !in a
    ensures '/' in a + "/" + b && Slash(a + "/" + b) == |a|
  {
    var s := a + "/" + b;
    assert s[|a|] == '/';
    assert s[..|a|] == a;
    assert forall i :: 0 <= i < |a| ==> s[i] == a[i];
  }

  lemma PartsOfTwo(a: string, b: string)
    requires '/' !in a && '/' !in b
    ensures Parts(a + "/" + b) == [a, b]
  {
    var s := a + "/" + b;
    SlashAt(a, b);
    assert s[..|a|] == a && s[|a| + 1..] == b;
  }

  lemma UuidIsAToken(id: string)
    requires Uuid(id)
    ensures TokenWord(id) && Word(id) && '/' !in id
  {
  }

  lemma TokenIsAWord(s: string)
    requires TokenWord(s)
    ensures Word(s)
  {
  }

  lemma KeyIsAccepted(id: string, leaf: string)
    requires Uuid(id) && leaf in {"DNS", "IPv4"}
    ensures StateKey(KEY_PREFIX + id + "/" + leaf) && Word(KEY_PREFIX + id + "/" + leaf)
    ensures |KEY_PREFIX + id + "/" + leaf| < 100
  {
    UuidIsAToken(id);
    var value := KEY_PREFIX + id + "/" + leaf;
    assert value[|KEY_PREFIX|..] == id + "/" + leaf;
    PartsOfTwo(id, leaf);
  }

  lemma KeysAreAccepted(id: string)
    requires Uuid(id)
    ensures StateKey(DnsKey(id)) && Word(DnsKey(id)) && |DnsKey(id)| < 100
    ensures StateKey(Ipv4Key(id)) && Word(Ipv4Key(id)) && |Ipv4Key(id)| < 100
    ensures DnsKey(id) != Ipv4Key(id)
  {
    KeyIsAccepted(id, "DNS");
    KeyIsAccepted(id, "IPv4");
    assert KEY_PREFIX + id + "/" + "DNS" == DnsKey(id);
    assert KEY_PREFIX + id + "/" + "IPv4" == Ipv4Key(id);
    assert |DnsKey(id)| != |Ipv4Key(id)|;
  }

  ghost predicate GoodWordLine(env: Env, words: seq<string>) {
    AllWords(words) && |Render(words)| < MAX_LINE && GoodLine(env, words)
  }

  lemma FixedLinesGood(env: Env, id: string, iface: string)
    requires Sane(env) && Uuid(id) && TokenWord(iface)
    ensures GoodWordLine(env, ["d.init"])
    ensures GoodWordLine(env, ["d.add", "ConfirmedServiceID", id])
    ensures GoodWordLine(env, ["d.add", "InterfaceName", iface])
  {
    UuidIsAToken(id);
    TokenIsAWord(iface);
    Render3("d.add", "ConfirmedServiceID", id);
    Render3("d.add", "InterfaceName", iface);
  }

  lemma KeyLinesGood(env: Env, id: string, verb: string)
    requires Sane(env) && Uuid(id) && verb in {"set", "remove"}
    ensures GoodWordLine(env, [verb, DnsKey(id)]) && GoodWordLine(env, [verb, Ipv4Key(id)])
  {
    KeysAreAccepted(id);
    Render2(verb, DnsKey(id));
    Render2(verb, Ipv4Key(id));
  }

  lemma TunnelLinesGood(env: Env, tunnel: IPv4)
    requires Sane(env)
    ensures GoodWordLine(env, ["d.add", "Addresses", "*", Dotted(tunnel)])
    ensures GoodWordLine(env, ["d.add", "Router", Dotted(tunnel)])
  {
    DottedIsAWord(tunnel);
    var t := Dotted(tunnel);
    Render4("d.add", "Addresses", "*", t);
    Render3("d.add", "Router", t);
    assert ["d.add", "Addresses", "*", t][3..] == [t];
    assert ["d.add", "Router", t][2..] == [t];
  }

  function DottedAll(ips: seq<IPv4>): (texts: seq<string>)
    ensures |texts| == |ips| && forall i :: 0 <= i < |ips| ==> texts[i] == Dotted(ips[i])
  {
    seq(|ips|, i requires 0 <= i < |ips| => Dotted(ips[i]))
  }

  function ServersLine(servers: seq<string>): seq<string> { ["d.add", "ServerAddresses", "*"] + servers }

  lemma ServersAreWords(ips: seq<IPv4>)
    ensures forall i :: 0 <= i < |ips| ==> Word(DottedAll(ips)[i])
  {
  }

  lemma ServersLineOfWords(servers: seq<string>)
    requires forall i :: 0 <= i < |servers| ==> Word(servers[i])
    ensures AllWords(ServersLine(servers))
  {
  }

  // The server line is in the grammar exactly when there is a server.
  lemma ServersLineInGrammar(env: Env, servers: seq<string>)
    requires forall i :: 0 <= i < |servers| ==> env.address(servers[i])
    ensures GoodLine(env, ServersLine(servers)) <==> servers != []
  {
  }

  lemma ServerLineGood(env: Env, ips: seq<IPv4>)
    requires Sane(env)
    ensures AllWords(ServersLine(DottedAll(ips)))
    ensures GoodLine(env, ServersLine(DottedAll(ips))) <==> ips != []
  {
    ServersAreWords(ips);
    ServersLineOfWords(DottedAll(ips));
    ServersLineInGrammar(env, DottedAll(ips));
  }

  // The size limits the daemon and its line scanner set.
  predicate WithinLimits(lines: seq<seq<string>>, servers: seq<string>) {
    |RenderAll(lines)| <= MAX_INPUT && |Render(ServersLine(servers))| < MAX_LINE
  }

  function TunnelText(tunnel: Option<IPv4>): string { if tunnel.Some? then Dotted(tunnel.value) else "" }

  /** Every apply input built from a service id, a token interface name, an optional tunnel
      address and IPv4 servers is accepted by the daemon exactly when there is a server and
      the text stays within the size limits. */
  lemma ApplyInputAccepted(env: Env, id: string, iface: string, tunnel: Option<IPv4>, ips: seq<IPv4>)
    requires Sane(env) && Uuid(id) && TokenWord(iface)
    ensures var lines := ApplyLines(id, iface, TunnelText(tunnel), DottedAll(ips));
            GoodInput(env, RenderAll(lines)) <==> ips != [] && WithinLimits(lines, DottedAll(ips))
  {
    var lines := ApplyLines(id, iface, TunnelText(tunnel), DottedAll(ips));
    if ips != [] && WithinLimits(lines, DottedAll(ips)) {
      ApplyLinesGood(env, id, iface, tunnel, ips);
      AcceptsGoodWords(env, lines);
    } else {
      AllWordsInApply(env, id, iface, tunnel, ips);
      BuiltSize(env, lines);
      if |RenderAll(lines)| <= MAX_INPUT {
        BadServerLineRefused(env, lines, ips);
      }
    }
  }

  lemma ApplyLinesGood(env: Env, id: string, iface: string, tunnel: Option<IPv4>, ips: seq<IPv4>)
    requires Sane(env) && Uuid(id) && TokenWord(iface) && ips != []
    requires |Render(ServersLine(DottedAll(ips)))| < MAX_LINE
    ensures GoodWords(env, ApplyLines(id, iface, TunnelText(tunnel), DottedAll(ips)))
  {
    DnsLinesGood(env, id, iface, ips);
    if tunnel.Some? {
      DottedIsAWord(tunnel.value);
      Ipv4LinesGood(env, id, iface, tunnel.value);
      GoodConcat(env, DnsLines(id, iface, DottedAll(ips)), Ipv4Lines(id, iface, Dotted(tunnel.value)));
    }
  }

  lemma GoodConcat(env: Env, xs: seq<seq<string>>, ys: seq<seq<string>>)
    requires GoodWords(env, xs) && GoodWords(env, ys)
    ensures GoodWords(env, xs + ys)
  {
  }

  lemma DnsLinesGood(env: Env, id: string, iface: string, ips: seq<IPv4>)
    requires Sane(env) && Uuid(id) && TokenWord(iface) && ips != []
    requires |Render(ServersLine(DottedAll(ips)))| < MAX_LINE
    ensures GoodWords(env, DnsLines(id, iface, DottedAll(ips)))
  {
    FixedLinesGood(env, id, iface);
    KeyLinesGood(env, id, "set");
    ServerLineGood(env, ips);
    var dns := DnsLines(id, iface, DottedAll(ips));
    assert forall i :: 0 <= i < |dns| ==> GoodWordLine(env, dns[i]);
  }

  lemma Ipv4LinesGood(env: Env, id: string, iface: string, tunnel: IPv4)
    requires Sane(env) && Uuid(id) && TokenWord(iface)
    ensures GoodWords(env, Ipv4Lines(id, iface, Dotted(tunnel)))
  {
    FixedLinesGood(env, id, iface);
    KeyLinesGood(env, id, "set");
    TunnelLinesGood(env, tunnel);
    var v4 := Ipv4Lines(id, iface, Dotted(tunnel));
    assert forall i :: 0 <= i < |v4| ==> GoodWordLine(env, v4[i]);
  }

  // A server line that is too long, or empty of servers, turns the whole text away.
  lemma BadServerLineRefused(env: Env, lines: seq<seq<string>>, ips: seq<IPv4>)
    requires Sane(env) && |lines| > 3 && lines[3] == ServersLine(DottedAll(ips))
    requires forall i :: 0 <= i < |lines| ==> AllWords(lines[i])
    requires ips == [] || |Render(ServersLine(DottedAll(ips)))| >= MAX_LINE
    ensures !GoodInput(env, RenderAll(lines))
  {
    LinesOfRender(lines);
    RenderedAt(lines, 3);
    if ips == [] {
      ServerLineGood(env, ips);
      assert ServersLine(DottedAll(ips)) == ["d.add", "ServerAddresses", "*"];
      HeadRendered();
      RenderedLineIsGood(env, lines[3]);
    } else {
      RenderIsPlain(lines[3]);
      PlainSize(env, Render(lines[3]));
    }
    assert !GoodRawLine(env, Rendered(lines)[3]);
  }

  lemma AllWordsInApply(env: Env, id: string, iface: string, tunnel: Option<IPv4>, ips: seq<IPv4>)
    requires Sane(env) && Uuid(id) && TokenWord(iface)
    ensures var lines := ApplyLines(id, iface, TunnelText(tunnel), DottedAll(ips));
            |lines| > 3 && forall i :: 0 <= i < |lines| ==> AllWords(lines[i])
  {
    WordsInDns(env, id, iface, ips);
    if tunnel.Some? {
      WordsInIpv4(env, id, iface, tunnel.value);
    }
  }

  lemma WordsInDns(env: Env, id: string, iface: string, ips: seq<IPv4>)
    requires Sane(env) && Uuid(id) && TokenWord(iface)
    ensures var dns := DnsLines(id, iface, DottedAll(ips)); forall i :: 0 <= i < |dns| ==> AllWords(dns[i])
  {
    FixedLinesGood(env, id, iface);
    KeyLinesGood(env, id, "set");
    ServerLineGood(env, ips);
  }

  lemma WordsInIpv4(env: Env, id: string, iface: string, tunnel: IPv4)
    requires Sane(env) && Uuid(id) && TokenWord(iface)
    ensures var v4 := Ipv4Lines(id, iface, Dotted(tunnel)); forall i :: 0 <= i < |v4| ==> AllWords(v4[i])
  {
    FixedLinesGood(env, id, iface);
    KeyLinesGood(env, id, "set");
    TunnelLinesGood(env, tunnel);
  }

  lemma {:induction false} RenderedAt(lines: seq<seq<string>>, k: nat)
    requires k < |lines|
    ensures |Rendered(lines)| == |lines| && Rendered(lines)[k] == Render(lines[k])
    decreases |lines|
  {
    if |lines| > 1 {
      RenderedAt(lines[1..], if k > 0 then k - 1 else 0);
    }
  }

  /** The remove input is accepted for every service id. */
  lemma RemoveInputAccepted(env: Env, id: string)
    requires Sane(env) && Uuid(id)
    ensures GoodInput(env, RenderAll(RemoveLines(id)))
  {
    KeyLinesGood(env, id, "remove");
    KeysAreAccepted(id);
    var lines := RemoveLines(id);
    assert forall i :: 0 <= i < |lines| ==> GoodWordLine(env, lines[i]);
    Render2("remove", DnsKey(id));
    Render2("remove", Ipv4Key(id));
    assert lines == [lines[0]] + [lines[1]];
    RenderAllConcat([lines[0]], [lines[1]]);
    RenderOne(lines[0]);
    RenderOne(lines[1]);
    AcceptsGoodWords(env, lines);
  }

  // dnsHandoffServiceID: 32 upper-case hex characters, hyphenated.
  function ServiceID(digest: string): string
    requires |digest| == 32
  {
    digest[0..8] + "-" + digest[8..12] + "-" + digest[12..16] + "-" + digest[16..20] + "-" + digest[20..32]
  }

  lemma ServiceIDIsAUuid(digest: string)
    requires |digest| == 32 && forall i :: 0 <= i < 32 ==> HexDigit(digest[i])
    ensures Uuid(ServiceID(digest))
  {
  }

  // ---------------------------------------------------------------- normalising servers

  // Trimming and parsing are parameters; a parsed IPv4 address prints in dotted form.
  datatype Resolver = Resolver(trim: string -> string, parse4: string -> Option<IPv4>)

  function Canonical(r: Resolver, value: string): Option<string> {
    var trimmed := r.trim(value);
    if trimmed == "" || r.parse4(trimmed).None? then None else Some(Dotted(r.parse4(trimmed).value))
  }

  // Value number `k` stands for server `s`, and no earlier value does.
  ghost predicate FirstAt(r: Resolver, values: seq<string>, k: nat, s: string) {
    && k < |values| && Canonical(r, values[k]) == Some(s)
    && forall j :: 0 <= j < k ==> Canonical(r, values[j]) != Some(s)
  }

  // `at` tells where each server of the result first stood.
  ghost predicate NormalizedFrom(r: Resolver, values: seq<string>, result: seq<string>, at: seq<nat>) {
    && |at| == |result| && (forall i :: 0 <= i < |result| ==> FirstAt(r, values, at[i], result[i]))
    && (forall i, j :: 0 <= i < j < |at| ==> at[i] < at[j])
    && (forall k :: 0 <= k < |values| && Canonical(r, values[k]).Some? ==> Canonical(r, values[k]).value in result)
  }

  ghost predicate Normalized(r: Resolver, values: seq<string>, result: seq<string>) {
    exists at :: NormalizedFrom(r, values, result, at)
  }

  /** The servers that parse, in dotted form: each once, none lost, in the order of their
      first appearance. */
  method NormalizeDNSServerList(r: Resolver, values: seq<string>) returns (result: seq<string>)
    ensures Normalized(r, values, result)
  {
    var seen: set<string> := {};
    result := [];
    ghost var at: seq<nat> := [];
    for i := 0 to |values|
      invariant forall s :: s in seen <==> s in result
      invariant NormalizedFrom(r, values[..i], result, at)
    {
      assert values[..i + 1] == values[..i] + [values[i]];
      OneMore(r, values[..i], values[i], result, at);
      var trimmed := r.trim(values[i]);
      if trimmed == "" {
        continue;
      }
      var ip := r.parse4(trimmed);
      if ip.None? {
        continue;
      }
      var value := Dotted(ip.value);
      if value in seen {
        continue;
      }
      seen := seen + {value};
      result, at := result + [value], at + [i];
    }
    assert values[..|values|] == values;
  }

  lemma OneMore(r: Resolver, values: seq<string>, value: string, result: seq<string>, at: seq<nat>)
    requires NormalizedFrom(r, values, result, at)
    ensures var c := Canonical(r, value);
            if c.None? || c.value in result then NormalizedFrom(r, values + [value], result, at)
            else NormalizedFrom(r, values + [value], result + [c.value], at + [|values|])
  {
  }

  /** Each server once, and every one of them a dotted address. */
  lemma NormalizedAreDistinctAddresses(r: Resolver, values: seq<string>, result: seq<string>) returns (ips: seq<IPv4>)
    requires Normalized(r, values, result)
    ensures forall i, j :: 0 <= i < j < |result| ==> result[i] != result[j]
    ensures result == DottedAll(ips)
  {
    var at :| NormalizedFrom(r, values, result, at);
    ips := seq(|result|, i requires 0 <= i < |result| => r.parse4(r.trim(values[at[i]])).value);
  }

  // ---------------------------------------------------------------- what the commands do

  type Dict = map<string, seq<string>>

  datatype Session = Session(dict: Dict, store: map<string, Dict>)

  // A key-value reading of the grammar.
  function Execute(s: Session, words: seq<string>): Session {
    if words == ["d.init"] then s.(dict := map[])
    else if |words| >= 3 && words[0] == "d.add" then s.(dict := s.dict[words[1] := words[2..]])
    else if |words| == 2 && words[0] == "set" then s.(store := s.store[words[1] := s.dict])
    else if |words| == 2 && words[0] == "remove" then s.(store := s.store - {words[1]})
    else s
  }

  function ExecuteAll(s: Session, lines: seq<seq<string>>): Session
    decreases |lines|
  {
    if lines == [] then s else ExecuteAll(Execute(s, lines[0]), lines[1..])
  }

  lemma {:induction false} ExecuteConcat(s: Session, xs: seq<seq<string>>, ys: seq<seq<string>>)
    ensures ExecuteAll(s, xs + ys) == ExecuteAll(ExecuteAll(s, xs), ys)
    decreases |xs|
  {
    if xs == [] {
      assert xs + ys == ys;
    } else {
      assert (xs + ys)[1..] == xs[1..] + ys;
      ExecuteConcat(Execute(s, xs[0]), xs[1..], ys);
    }
  }

  lemma ExecuteStep(s: Session, line: seq<string>, rest: seq<seq<string>>)
    ensures ExecuteAll(s, [line] + rest) == ExecuteAll(Execute(s, line), rest)
  {
  }

  lemma FiveLines(s: Session, a: seq<string>, b: seq<string>, c: seq<string>, d: seq<string>, e: seq<string>)
    ensures ExecuteAll(s, [a, b, c, d, e]) == Execute(Execute(Execute(Execute(Execute(s, a), b), c), d), e)
  {
    assert [a, b, c, d, e] == [a] + ([b] + ([c] + ([d] + ([e] + []))));
    var sa := Execute(s, a);
    var sb := Execute(sa, b);
    var sc := Execute(sb, c);
    ExecuteStep(s, a, [b] + ([c] + ([d] + ([e] + []))));
    ExecuteStep(sa, b, [c] + ([d] + ([e] + [])));
    ExecuteStep(sb, c, [d] + ([e] + []));
    ExecuteStep(sc, d, [e] + []);
    ExecuteStep(Execute(sc, d), e, []);
  }

  lemma DnsPartWrites(s: Session, id: string, iface: string, servers: seq<string>)
    ensures ExecuteAll(s, DnsLines(id, iface, servers)).store
            == s.store[DnsKey(id) := map["ConfirmedServiceID" := [id], "InterfaceName" := [iface], "ServerAddresses" := ["*"] + servers]]
  {
    FiveLines(s, ["d.init"], ["d.add", "ConfirmedServiceID", id], ["d.add", "InterfaceName", iface],
              ["d.add", "ServerAddresses", "*"] + servers, ["set", DnsKey(id)]);
    assert ["d.add", "ConfirmedServiceID", id][2..] == [id];
    assert ["d.add", "InterfaceName", iface][2..] == [iface];
    assert (["d.add", "ServerAddresses", "*"] + servers)[2..] == ["*"] + servers;
  }

  lemma Ipv4PartWrites(s: Session, id: string, iface: string, tunnel: string)
    ensures ExecuteAll(s, Ipv4Lines(id, iface, tunnel)).store
            == s.store[Ipv4Key(id) := map["Addresses" := ["*", tunnel], "InterfaceName" := [iface], "Router" := [tunnel]]]
  {
    FiveLines(s, ["d.init"], ["d.add", "Addresses", "*", tunnel], ["d.add", "InterfaceName", iface],
              ["d.add", "Router", tunnel], ["set", Ipv4Key(id)]);
    assert ["d.add", "Addresses", "*", tunnel][2..] == ["*", tunnel];
    assert ["d.add", "InterfaceName", iface][2..] == [iface];
    assert ["d.add", "Router", tunnel][2..] == [tunnel];
  }

  lemma RemoveDeletesBoth(s: Session, id: string)
    ensures ExecuteAll(s, RemoveLines(id)).store == s.store - {DnsKey(id)} - {Ipv4Key(id)}
  {
    var a, b := ["remove", DnsKey(id)], ["remove", Ipv4Key(id)];
    assert RemoveLines(id) == [a] + ([b] + []);
    ExecuteStep(s, a, [b] + []);
    ExecuteStep(Execute(s, a), b, []);
  }

  // The words of apply, then those of remove: exactly the two keys of the service are gone.
  lemma ApplyThenRemoveWords(s: Session, id: string, iface: string, tunnel: string, servers: seq<string>)
    ensures var applied := ExecuteAll(s, ApplyLines(id, iface, tunnel, servers));
            var removed := ExecuteAll(applied, RemoveLines(id));
            removed.store == s.store - {DnsKey(id), Ipv4Key(id)}
  {
    var dns := ExecuteAll(s, DnsLines(id, iface, servers));
    var applied := ExecuteAll(s, ApplyLines(id, iface, tunnel, servers));
    DnsPartWrites(s, id, iface, servers);
    if tunnel == "" {
      assert DnsLines(id, iface, servers) + [] == DnsLines(id, iface, servers);
    } else {
      ExecuteConcat(s, DnsLines(id, iface, servers), Ipv4Lines(id, iface, tunnel));
      Ipv4PartWrites(dns, id, iface, tunnel);
    }
    assert forall k :: k !in {DnsKey(id), Ipv4Key(id)} ==> (k in applied.store <==> k in s.store) && (k in s.store ==> applied.store[k] == s.store[k]);
    RemoveDeletesBoth(applied, id);
  }
  // Running a text: each line is split into words as the daemon splits it.
  function RunLines(env: Env, s: Session, lines: seq<string>): Session
    decreases |lines|
  {
    if lines == [] then s else RunLines(env, Execute(s, Fields(env, DropReturn(lines[0]))), lines[1..])
  }

  function RunText(env: Env, s: Session, text: string): Session { RunLines(env, s, RawLines(text)) }

  lemma {:induction false} RunRendered(env: Env, s: Session, lines: seq<seq<string>>)
    requires Sane(env) && forall i :: 0 <= i < |lines| ==> AllWords(lines[i])
    ensures RunLines(env, s, Rendered(lines)) == ExecuteAll(s, lines)
    decreases |lines|
  {
    if lines != [] {
      RenderIsPlain(lines[0]);
      FieldsOfRender(env, lines[0]);
      RunRendered(env, Execute(s, lines[0]), lines[1..]);
      assert Rendered(lines)[1..] == Rendered(lines[1..]);
    }
  }

  lemma RunTextOfWords(env: Env, s: Session, lines: seq<seq<string>>)
    requires Sane(env) && forall i :: 0 <= i < |lines| ==> AllWords(lines[i])
    ensures RunText(env, s, RenderAll(lines)) == ExecuteAll(s, lines)
  {
    LinesOfRender(lines);
    RunRendered(env, s, lines);
  }

  lemma RemoveTextOfWords(env: Env, s: Session, id: string)
    requires Sane(env) && Uuid(id)
    ensures RunText(env, s, RenderAll(RemoveLines(id))) == ExecuteAll(s, RemoveLines(id))
  {
    KeyLinesGood(env, id, "remove");
    var gone := RemoveLines(id);
    assert forall i :: 0 <= i < |gone| ==> GoodWordLine(env, gone[i]);
    RunTextOfWords(env, s, gone);
  }

  lemma WithoutIsSameExactlyWhenAbsent(store: map<string, Dict>, a: string, b: string)
    ensures store - {a, b} == store <==> a !in store && b !in store
  {
  }

  /** The text of apply followed by the text of remove, from any store: exactly the two keys of
      this service are gone, so the store is as before exactly when neither was there. */
  lemma ApplyThenRemove(env: Env, s: Session, id: string, iface: string, tunnel: Option<IPv4>, ips: seq<IPv4>)
    requires Sane(env) && Uuid(id) && TokenWord(iface)
    ensures var applied := RunText(env, s, RenderAll(ApplyLines(id, iface, TunnelText(tunnel), DottedAll(ips))));
            var removed := RunText(env, applied, RenderAll(RemoveLines(id)));
            && removed.store == s.store - {DnsKey(id), Ipv4Key(id)}
            && (removed.store == s.store <==> DnsKey(id) !in s.store && Ipv4Key(id) !in s.store)
  {
    var lines := ApplyLines(id, iface, TunnelText(tunnel), DottedAll(ips));
    AllWordsInApply(env, id, iface, tunnel, ips);
    RunTextOfWords(env, s, lines);
    RemoveTextOfWords(env, ExecuteAll(s, lines), id);
    ApplyThenRemoveWords(s, id, iface, TunnelText(tunnel), DottedAll(ips));
    WithoutIsSameExactlyWhenAbsent(s.store, DnsKey(id), Ipv4Key(id));
  }

  /** In between, the store holds what the session asked for: its servers on its interface
      under the DNS key, its tunnel address under the IPv4 key, and nothing else changed. */
  lemma ApplyWrites(env: Env, s: Session, id: string, iface: string, tunnel: Option<IPv4>, ips: seq<IPv4>)
    requires Sane(env) && Uuid(id) && TokenWord(iface)
    ensures var store := RunText(env, s, RenderAll(ApplyLines(id, iface, TunnelText(tunnel), DottedAll(ips)))).store;
            var dns := s.store[DnsKey(id) := map["ConfirmedServiceID" := [id], "InterfaceName" := [iface], "ServerAddresses" := ["*"] + DottedAll(ips)]];
            store == match tunnel
              case None => dns
              case Some(t) => dns[Ipv4Key(id) := map["Addresses" := ["*", Dotted(t)], "InterfaceName" := [iface], "Router" := [Dotted(t)]]]
  {
    var lines := ApplyLines(id, iface, TunnelText(tunnel), DottedAll(ips));
    AllWordsInApply(env, id, iface, tunnel, ips);
    RunTextOfWords(env, s, lines);
    var dns := DnsLines(id, iface, DottedAll(ips));
    DnsPartWrites(s, id, iface, DottedAll(ips));
    if tunnel.Some? {
      DottedIsAWord(tunnel.value);
      ExecuteConcat(s, dns, Ipv4Lines(id, iface, Dotted(tunnel.value)));
      Ipv4PartWrites(ExecuteAll(s, dns), id, iface, Dotted(tunnel.value));
    } else {
      assert lines == dns;
    }
  }
}
