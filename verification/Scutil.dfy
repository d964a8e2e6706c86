/** DNS handoff through scutil: the client builds a command text, the daemon checks it
    line by line before running it as root.

    White space and address parsing are parameters; what is assumed of them is stated in
    `Sane`. */
module Scutil {
  const MAX_INPUT: nat := 524288        // half of the request limit
  const MAX_LINE: nat := 65536          // bufio.MaxScanTokenSize

  // `width` is the number of bytes a character takes, `space` is unicode.IsSpace; `address` and
  // `address4` say what netip.ParseAddr accepts.
  datatype Env = Env(width: char -> nat, space: char -> bool, address: string -> bool, address4: string -> bool)

  // The length of a text in bytes.
  function Size(env: Env, s: string): nat { if s == [] then 0 else env.width(s[0]) + Size(env, s[1..]) }

  predicate Graphic(c: char) { '!' <= c <= '~' }

  predicate Plain(c: char) { Graphic(c) || c == ' ' || c == '\n' }

  ghost predicate Sane(env: Env) {
    && env.space(' ') && (forall c :: Graphic(c) ==> !env.space(c))
    && (forall c :: Plain(c) ==> env.width(c) == 1)
    && (forall ip: IPv4 :: env.address(Dotted(ip)) && env.address4(Dotted(ip)))
  }

  lemma {:induction false} PlainSize(env: Env, s: string)
    requires Sane(env) && forall i :: 0 <= i < |s| ==> Plain(s[i])
    ensures Size(env, s) == |s|
  {
    if s != [] {
      PlainSize(env, s[1..]);
    }
  }

  // ---------------------------------------------------------------- addresses

  type Octet = n: int | 0 <= n < 256

  datatype IPv4 = IPv4(a: Octet, b: Octet, c: Octet, d: Octet)

  function Digit(n: int): (c: char)
    requires 0 <= n < 10
    ensures '0' <= c <= '9'
  {
    '0' + n as char
  }

  function Decimal(n: Octet): string {
    if n < 10 then [Digit(n)]
    else if n < 100 then [Digit(n / 10), Digit(n % 10)]
    else [Digit(n / 100), Digit(n / 10 % 10), Digit(n % 10)]
  }

  function Dotted(ip: IPv4): string {
    Decimal(ip.a) + "." + Decimal(ip.b) + "." + Decimal(ip.c) + "." + Decimal(ip.d)
  }

  // A word has no white space in it and is not empty.
  predicate Word(s: string) { |s| > 0 && forall i :: 0 <= i < |s| ==> Graphic(s[i]) }

  lemma DottedIsAWord(ip: IPv4)
    ensures Word(Dotted(ip)) && |Dotted(ip)| <= 15
  {
  }

  // ---------------------------------------------------------------- lines and fields

  // The index of the first newline, or the length.
  function LineEnd(s: string): (n: nat)
    ensures n <= |s| && forall i :: 0 <= i < n ==> s[i] != '\n'
    ensures n < |s| ==> s[n] == '\n'
  {
    if s == [] || s[0] == '\n' then 0 else 1 + LineEnd(s[1..])
  }

  function DropReturn(s: string): string {
    if s != [] && s[|s| - 1] == '\r' then s[..|s| - 1] else s
  }

  // bufio.ScanLines, with the length of the raw line that the scanner must buffer.
  function RawLines(s: string): seq<string> {
    if s == [] then []
    else
      var n := LineEnd(s);
      [s[..n]] + (if n < |s| then RawLines(s[n + 1..]) else [])
  }

  function WordEnd(env: Env, s: string): (n: nat)
    ensures n <= |s| && forall i :: 0 <= i < n ==> !env.space(s[i])
    ensures n < |s| ==> env.space(s[n])
  {
    if s == [] || env.space(s[0]) then 0 else 1 + WordEnd(env, s[1..])
  }

  // strings.Fields
  function Fields(env: Env, s: string): seq<string>
    decreases |s|
  {
    if s == [] then []
    else if env.space(s[0]) then Fields(env, s[1..])
    else [s[..WordEnd(env, s)]] + Fields(env, s[WordEnd(env, s)..])
  }

  // ---------------------------------------------------------------- the daemon's grammar

  predicate Alphanumeric(c: char) { '0' <= c <= '9' || 'A' <= c <= 'Z' || 'a' <= c <= 'z' }

  predicate HexDigit(c: char) { '0' <= c <= '9' || 'A' <= c <= 'F' || 'a' <= c <= 'f' }

  predicate TokenChar(c: char) { Alphanumeric(c) || c == '.' || c == '_' || c == '-' }

  predicate TokenWord(s: string) { 1 <= |s| <= 64 && forall i :: 0 <= i < |s| ==> TokenChar(s[i]) }

  predicate Uuid(s: string) {
    |s| == 36 && forall i :: 0 <= i < |s| ==> if i == 8 || i == 13 || i == 18 || i == 23 then s[i] == '-' else HexDigit(s[i])
  }

  const KEY_PREFIX: string := "State:/Network/Service/"

  function DnsKey(id: string): string { KEY_PREFIX + id + "/DNS" }

  function Ipv4Key(id: string): string { KEY_PREFIX + id + "/IPv4" }

  // Split at '/'.
  function Parts(s: string): seq<string> {
    if '/' !in s then [s] else [s[..Slash(s)]] + Parts(s[Slash(s) + 1..])
  }

  function Slash(s: string): (n: nat)
    requires '/' in s
    ensures n < |s| && s[n] == '/' && '/' !in s[..n]
  {
    if s[0] == '/' then 0 else 1 + Slash(s[1..])
  }

  predicate StateKey(value: string) {
    KEY_PREFIX <= value &&
    var parts := Parts(value[|KEY_PREFIX|..]);
    |parts| == 2 && Uuid(parts[0]) && (parts[1] == "DNS" || parts[1] == "IPv4")
  }

  ghost predicate AllAddresses(env: Env, values: seq<string>, only4: bool) {
    |values| > 0 && forall i :: 0 <= i < |values| ==> env.address(values[i]) && (only4 ==> env.address4(values[i]))
  }

  method AllIPs(env: Env, values: seq<string>, only4: bool) returns (ok: bool)
    ensures ok <==> AllAddresses(env, values, only4)
  {
    if |values| == 0 {
      return false;
    }
    for i := 0 to |values|
      invariant forall j :: 0 <= j < i ==> env.address(values[j]) && (only4 ==> env.address4(values[j]))
    {
      if !env.address(values[i]) || (only4 && !env.address4(values[i])) {
        return false;
      }
    }
    return true;
  }

  // One line of the grammar, as words.
  ghost predicate GoodLine(env: Env, f: seq<string>) {
    || (|f| == 1 && (f[0] == "d.init" || f[0] == "quit"))
    || (|f| == 3 && f[0] == "d.add" && (f[1] == "ConfirmedServiceID" || f[1] == "InterfaceName") && TokenWord(f[2]))
    || (|f| >= 4 && f[0] == "d.add" && f[1] == "ServerAddresses" && f[2] == "*" && AllAddresses(env, f[3..], false))
    || (|f| == 4 && f[0] == "d.add" && f[1] == "Addresses" && f[2] == "*" && AllAddresses(env, f[3..], true))
    || (|f| == 3 && f[0] == "d.add" && f[1] == "Router" && AllAddresses(env, f[2..], true))
    || (|f| == 2 && (f[0] == "set" || f[0] == "remove") && StateKey(f[1]))
  }

  ghost predicate GoodRawLine(env: Env, raw: string) {
    Size(env, raw) < MAX_LINE && GoodLine(env, Fields(env, DropReturn(raw)))
  }

  ghost predicate AllGood(env: Env, lines: seq<string>) {
    forall i :: 0 <= i < |lines| ==> GoodRawLine(env, lines[i])
  }

  ghost predicate GoodInput(env: Env, stdin: string) {
    stdin != "" && Size(env, stdin) <= MAX_INPUT && AllGood(env, RawLines(stdin))
  }

  lemma AllGoodCons(env: Env, line: string, lines: seq<string>)
    ensures AllGood(env, [line] + lines) <==> GoodRawLine(env, line) && AllGood(env, lines)
  {
    var all := [line] + lines;
    if AllGood(env, all) {
      assert GoodRawLine(env, all[0]);
      forall i | 0 <= i < |lines| ensures GoodRawLine(env, lines[i]) {
        assert all[i + 1] == lines[i];
      }
    }
  }

  method ValidLine(env: Env, f: seq<string>) returns (valid: bool)
    ensures valid <==> GoodLine(env, f)
  {
    valid := false;
    if |f| == 1 && (f[0] == "d.init" || f[0] == "quit") {
      valid := true;
    } else if |f| == 3 && f[0] == "d.add" && (f[1] == "ConfirmedServiceID" || f[1] == "InterfaceName") {
      valid := TokenWord(f[2]);
    } else if |f| >= 4 && f[0] == "d.add" && f[1] == "ServerAddresses" && f[2] == "*" {
      valid := AllIPs(env, f[3..], false);
    } else if |f| == 4 && f[0] == "d.add" && f[1] == "Addresses" && f[2] == "*" {
      valid := AllIPs(env, f[3..], true);
    } else if |f| == 3 && f[0] == "d.add" && f[1] == "Router" {
      valid := AllIPs(env, f[2..], true);
    } else if |f| == 2 && (f[0] == "set" || f[0] == "remove") {
      valid := StateKey(f[1]);
    }
  }

  // validateSCUtilInput
  method ValidateSCUtilInput(env: Env, stdin: string) returns (ok: bool)
    ensures ok <==> GoodInput(env, stdin)
  {
    if stdin == "" || Size(env, stdin) > MAX_INPUT {
      return false;
    }
    var rest := stdin;
    while rest != []
      invariant AllGood(env, RawLines(rest)) <==> AllGood(env, RawLines(stdin))
      decreases |rest|
    {
      var end := LineEnd(rest);
      var raw := rest[..end];
      var next := if end < |rest| then rest[end + 1..] else [];
      assert RawLines(rest) == [raw] + RawLines(next);
      AllGoodCons(env, raw, RawLines(next));
      if Size(env, raw) >= MAX_LINE {
        return false;
      }
      var valid := ValidLine(env, Fields(env, DropReturn(raw)));
      if !valid {
        return false;
      }
      rest := next;
    }
    return true;
  }
}
