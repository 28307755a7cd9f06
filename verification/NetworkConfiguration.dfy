/** The command line: options with a value, address and port pairs, and "-r", after which the pairs
    are remotes. */
module NetworkConfigurations {
  import opened Sockets
  import opened IpSockets

  const MAX_IP_SOCKET_COUNT: nat := 4

  // ---------------------------------------------------------------- text

  function Lower(c: char): char {
    if 'A' <= c <= 'Z' then c - 'A' + 'a' else c
  }

  function StringToLower(text: string): string {
    seq(|text|, i requires 0 <= i < |text| => Lower(text[i]))
  }

  function GetProtocol(text: string): Protocol {
    var low := StringToLower(text);
    if low == "tcp" then TCP
    else if low == "udp" then UDP
    else if low == "udp_lite" then UDP_Lite
    else if low == "dccp" then DCCP
    else if low == "unix" then Unix
    else if low == "fork" then UnixForked
    else SCTP
  }

  /** The text is the lower-case word, with any of its letters in upper case. */
  predicate SameIgnoringCase(text: string, word: string) {
    && |text| == |word|
    && forall i :: 0 <= i < |word| ==>
         text[i] == word[i] || ('a' <= word[i] <= 'z' && text[i] as int == word[i] as int - 32)
  }

  lemma LowerIgnoresCase(text: string, word: string)
    requires forall i :: 0 <= i < |word| ==> !('A' <= word[i] <= 'Z')
    ensures StringToLower(text) == word <==> SameIgnoringCase(text, word)
  {
    forall i | 0 <= i < |text|
      ensures StringToLower(text)[i] == Lower(text[i])
    {
    }
    if SameIgnoringCase(text, word) {
      assert StringToLower(text) == word;
    }
  }

  /** The six names select their protocols, in any mixture of cases, and every other text selects SCTP. */
  lemma NamesSelectProtocols(text: string)
    ensures GetProtocol(text) == TCP <==> SameIgnoringCase(text, "tcp")
    ensures GetProtocol(text) == UDP <==> SameIgnoringCase(text, "udp")
    ensures GetProtocol(text) == UDP_Lite <==> SameIgnoringCase(text, "udp_lite")
    ensures GetProtocol(text) == DCCP <==> SameIgnoringCase(text, "dccp")
    ensures GetProtocol(text) == Unix <==> SameIgnoringCase(text, "unix")
    ensures GetProtocol(text) == UnixForked <==> SameIgnoringCase(text, "fork")
    ensures GetProtocol(text) == SCTP
            <==> forall name :: name in {"tcp", "udp", "udp_lite", "dccp", "unix", "fork"} ==> !SameIgnoringCase(text, name)
  {
    LowerIgnoresCase(text, "tcp");
    LowerIgnoresCase(text, "udp");
    LowerIgnoresCase(text, "udp_lite");
    LowerIgnoresCase(text, "dccp");
    LowerIgnoresCase(text, "unix");
    LowerIgnoresCase(text, "fork");
    Apart();
  }

  /** No two of the names are the same. */
  lemma Apart()
    ensures "tcp"[0] != "udp"[0] && "dccp"[0] != "unix"[0] && "dccp"[0] != "fork"[0] && "unix"[0] != "fork"[0]
    ensures |"tcp"| == |"udp"| == 3 && |"dccp"| == |"unix"| == |"fork"| == 4 && |"udp_lite"| == 8
  {
  }

  predicate IsDigit(c: char) { '0' <= c <= '9' }

  function DigitsFrom(text: string, acc: nat): nat {
    if text == "" || !IsDigit(text[0]) then acc
    else DigitsFrom(text[1..], acc * 10 + (text[0] - '0') as nat)
  }

  /** The C library's atoi: blanks, a sign, and digits up to the first other character. */
  function Atoi(text: string): int {
    if text == "" then 0
    else if text[0] in " \t\n\r" || text[0] == 11 as char || text[0] == 12 as char then Atoi(text[1..])
    else if text[0] == '-' then 0 - DigitsFrom(text[1..], 0)
    else if text[0] == '+' then DigitsFrom(text[1..], 0)
    else DigitsFrom(text, 0)
  }

  function ToPort(n: int): Port {
    n % 0x1_0000
  }

  // ---------------------------------------------------------------- the parser

  datatype Config = Config(
    locals: seq<IPSocket>,
    remotes: seq<IPSocket>,
    protocol: Protocol,
    pathMtu: int,
    maxSeg: int,
    bigMsgSize: int)

  const ZERO_CONFIG := Config([], [], SCTP, 0, 0, 0)

  /** The configuration so far, and whether the pairs are remotes by now. */
  datatype Parsing = Parsing(config: Config, remote: bool)

  function AddSocket(p: Parsing, x: IPSocket): Parsing {
    if p.remote then p.(config := p.config.(remotes := p.config.remotes + [x]))
    else p.(config := p.config.(locals := p.config.locals + [x]))
  }

  function SetOption(p: Parsing, arg: string, value: string): Parsing {
    if arg == "-p" then p.(config := p.config.(protocol := GetProtocol(value)))
    else if arg == "-mtu" then p.(config := p.config.(pathMtu := Atoi(value)))
    else if arg == "-seg" then p.(config := p.config.(maxSeg := Atoi(value)))
    else p.(config := p.config.(bigMsgSize := Atoi(value)))
  }

  predicate TakesValue(arg: string) {
    arg == "-p" || arg == "-mtu" || arg == "-seg" || arg == "-msg"
  }

  predicate IsOption(arg: string) {
    arg != "" && arg[0] == '-'
  }

  /** From argument i on; the last argument is only ever read as a value. */
  function Parse(inet: Inet, argv: seq<string>, i: nat, p: Parsing): Parsing
    decreases |argv| - i
  {
    if i + 1 >= |argv| then p
    else if IsOption(argv[i]) then
      if TakesValue(argv[i]) then Parse(inet, argv, i + 2, SetOption(p, argv[i], argv[i + 1]))
      else Parse(inet, argv, i + 1, if argv[i] == "-r" then p.(remote := true) else p)
    else Parse(inet, argv, i + 2, AddSocket(p, CreateIPSocket(inet, argv[i], ToPort(Atoi(argv[i + 1])))))
  }

  /** The list that is being filled. */
  function Filling(p: Parsing): seq<IPSocket> {
    if p.remote then p.config.remotes else p.config.locals
  }

  /** Every socket from argument i on is stored within the array of its list. */
  predicate StoresFit(inet: Inet, argv: seq<string>, i: nat, p: Parsing)
    decreases |argv| - i
  {
    if i + 1 >= |argv| then true
    else if IsOption(argv[i]) then
      if TakesValue(argv[i]) then StoresFit(inet, argv, i + 2, SetOption(p, argv[i], argv[i + 1]))
      else StoresFit(inet, argv, i + 1, if argv[i] == "-r" then p.(remote := true) else p)
    else
      && |Filling(p)| < MAX_IP_SOCKET_COUNT
      && StoresFit(inet, argv, i + 2, AddSocket(p, CreateIPSocket(inet, argv[i], ToPort(Atoi(argv[i + 1])))))
  }

  predicate WithinArrays(c: Config) {
    |c.locals| <= MAX_IP_SOCKET_COUNT && |c.remotes| <= MAX_IP_SOCKET_COUNT
  }

  lemma {:induction false} ParseOnlyAdds(inet: Inet, argv: seq<string>, i: nat, p: Parsing)
    ensures var c := Parse(inet, argv, i, p).config;
            p.config.locals <= c.locals && p.config.remotes <= c.remotes
    decreases |argv| - i
  {
    if i + 1 < |argv| {
      if IsOption(argv[i]) {
        if TakesValue(argv[i]) {
          ParseOnlyAdds(inet, argv, i + 2, SetOption(p, argv[i], argv[i + 1]));
        } else {
          ParseOnlyAdds(inet, argv, i + 1, if argv[i] == "-r" then p.(remote := true) else p);
        }
      } else {
        ParseOnlyAdds(inet, argv, i + 2, AddSocket(p, CreateIPSocket(inet, argv[i], ToPort(Atoi(argv[i + 1])))));
      }
    }
  }

  /** On any argv, all stores are within the arrays if and only if both lists come out no longer than the arrays. */
  lemma {:induction false} StoresFitExactly(inet: Inet, argv: seq<string>, i: nat, p: Parsing)
    requires WithinArrays(p.config)
    ensures StoresFit(inet, argv, i, p) <==> WithinArrays(Parse(inet, argv, i, p).config)
    decreases |argv| - i
  {
    if i + 1 < |argv| {
      if IsOption(argv[i]) {
        if TakesValue(argv[i]) {
          StoresFitExactly(inet, argv, i + 2, SetOption(p, argv[i], argv[i + 1]));
        } else {
          StoresFitExactly(inet, argv, i + 1, if argv[i] == "-r" then p.(remote := true) else p);
        }
      } else {
        var q := AddSocket(p, CreateIPSocket(inet, argv[i], ToPort(Atoi(argv[i + 1]))));
        if |Filling(p)| < MAX_IP_SOCKET_COUNT {
          StoresFitExactly(inet, argv, i + 2, q);
        } else {
          ParseOnlyAdds(inet, argv, i + 2, q);
        }
      }
    }
  }

  /** The loop terminates on every argv, and every index it reads is below argc. fit: it also wrote only within
      the arrays of the configuration; the lists go on where the arrays end. */
  method CreateNetworkConfiguration(inet: Inet, argv: seq<string>) returns (config: Config, fit: bool)
    ensures config == Parse(inet, argv, 1, Parsing(ZERO_CONFIG, false)).config
    ensures fit <==> StoresFit(inet, argv, 1, Parsing(ZERO_CONFIG, false))
  {
    fit := true;
    var p := Parsing(ZERO_CONFIG, false);
    var i := 1;
    while i < |argv| - 1
      invariant i >= 1
      invariant Parse(inet, argv, i, p) == Parse(inet, argv, 1, Parsing(ZERO_CONFIG, false))
      invariant fit && StoresFit(inet, argv, i, p) <==> StoresFit(inet, argv, 1, Parsing(ZERO_CONFIG, false))
      decreases |argv| - i
    {
      var arg := argv[i];
      if IsOption(arg) {
        if TakesValue(arg) {
          i := i + 1;
          p := SetOption(p, arg, argv[i]);
        } else if arg == "-r" {
          p := p.(remote := true);
        }
      } else {
        i := i + 1;
        fit := fit && |Filling(p)| < MAX_IP_SOCKET_COUNT;
        p := AddSocket(p, CreateIPSocket(inet, arg, ToPort(Atoi(argv[i]))));
      }
      i := i + 1;
    }
    config := p.config;
  }

  // ---------------------------------------------------------------- rendering

  /** What a user can mean by one, two words of a command line. */
  datatype Item =
    | UseProtocol(name: string)
    | PathMtu(n: nat)
    | MaxSeg(n: nat)
    | BigMsgSize(n: nat)
    | Address(addr: string, port: nat)
    | RemotesFollow
    | Ignored(word: string)

  function Digits(n: nat): string {
    if n < 10 then [n as char + '0'] else Digits(n / 10) + [(n % 10) as char + '0']
  }

  function Words(x: Item): seq<string> {
    match x
    case UseProtocol(name) => ["-p", name]
    case PathMtu(n) => ["-mtu", Digits(n)]
    case MaxSeg(n) => ["-seg", Digits(n)]
    case BigMsgSize(n) => ["-msg", Digits(n)]
    case Address(addr, port) => [addr, Digits(port)]
    case RemotesFollow => ["-r"]
    case Ignored(word) => [word]
  }

  function Render(items: seq<Item>): seq<string> {
    if items == [] then [] else Words(items[0]) + Render(items[1..])
  }

  // ---------------------------------------------------------------- meaning

  /** The pairs among these items. */
  function Pairs(items: seq<Item>): seq<(string, nat)> {
    if items == [] then []
    else (if items[0].Address? then [(items[0].addr, items[0].port)] else []) + Pairs(items[1..])
  }

  /** The sockets of these pairs. */
  function Addresses(inet: Inet, items: seq<Item>): seq<IPSocket> {
    if items == [] then []
    else (if items[0].Address? then [CreateIPSocket(inet, items[0].addr, ToPort(items[0].port))] else []) + Addresses(inet, items[1..])
  }

  /** The socket has the address as it was given, the port in sixteen bits, and the family as which the address parses:
      2 is AF_INET, 10 is AF_INET6, 1 is AF_UNIX. */
  predicate IsSocketOf(inet: Inet, x: IPSocket, pair: (string, nat)) {
    && x.addr == pair.0 && x.port == pair.1 % 65536
    && x.family == if inet.pton(2, pair.0).Some? then 2 else if inet.pton(10, pair.0).Some? then 10 else 1
  }

  /** The sockets are those of the pairs, one by one and in order. */
  ghost predicate AreSocketsOf(inet: Inet, xs: seq<IPSocket>, pairs: seq<(string, nat)>) {
    |xs| == |pairs| && forall k :: 0 <= k < |xs| ==> IsSocketOf(inet, xs[k], pairs[k])
  }

  lemma {:induction false} AddressesOfPairs(inet: Inet, items: seq<Item>)
    ensures AreSocketsOf(inet, Addresses(inet, items), Pairs(items))
  {
    if items != [] {
      AddressesOfPairs(inet, items[1..]);
    }
  }

  function BeforeRemotes(items: seq<Item>): seq<Item> {
    if items == [] || items[0].RemotesFollow? then [] else [items[0]] + BeforeRemotes(items[1..])
  }

  function Named(name: string): Protocol {
    if SameIgnoringCase(name, "tcp") then TCP
    else if SameIgnoringCase(name, "udp") then UDP
    else if SameIgnoringCase(name, "udp_lite") then UDP_Lite
    else if SameIgnoringCase(name, "dccp") then DCCP
    else if SameIgnoringCase(name, "unix") then Unix
    else if SameIgnoringCase(name, "fork") then UnixForked
    else SCTP
  }

  function LastProtocol(items: seq<Item>, default: Protocol): Protocol {
    if items == [] then default
    else LastProtocol(items[1..], if items[0].UseProtocol? then Named(items[0].name) else default)
  }

  datatype Setting = Mtu | Seg | Msg

  function Value(x: Item, setting: Setting): Option<int> {
    match setting
    case Mtu => if x.PathMtu? then Some(x.n) else None
    case Seg => if x.MaxSeg? then Some(x.n) else None
    case Msg => if x.BigMsgSize? then Some(x.n) else None
  }

  function LastValue(items: seq<Item>, setting: Setting, default: int): int {
    if items == [] then default
    else LastValue(items[1..], setting, if Value(items[0], setting).Some? then Value(items[0], setting).value else default)
  }

  // ---------------------------------------------------------------- round trip

  lemma {:induction false} DigitsAreDigits(n: nat)
    ensures Digits(n) != "" && forall i :: 0 <= i < |Digits(n)| ==> IsDigit(Digits(n)[i])
  {
    if n >= 10 {
      DigitsAreDigits(n / 10);
    }
  }

  lemma {:induction false} DigitsFromAppend(text: string, c: char, acc: nat)
    requires IsDigit(c) && forall i :: 0 <= i < |text| ==> IsDigit(text[i])
    ensures DigitsFrom(text + [c], acc) == DigitsFrom(text, acc) * 10 + (c - '0') as nat
    decreases |text|
  {
    if text != "" {
      assert (text + [c])[1..] == text[1..] + [c];
      DigitsFromAppend(text[1..], c, acc * 10 + (text[0] - '0') as nat);
    } else {
      assert ([c])[1..] == "";
      assert text + [c] == [c];
    }
  }

  lemma {:induction false} DigitsReadBack(n: nat)
    ensures DigitsFrom(Digits(n), 0) == n
  {
    if n >= 10 {
      DigitsReadBack(n / 10);
      DigitsAreDigits(n / 10);
      DigitsFromAppend(Digits(n / 10), (n % 10) as char + '0', 0);
    } else {
      assert Digits(n)[1..] == "";
    }
  }

  predicate IsBlank(c: char) {
    c as int == 32 || 9 <= c as int <= 13
  }

  predicate NoDigitNext(text: string) {
    text == "" || !('0' <= text[0] <= '9')
  }

  lemma {:induction false} DigitsEnd(text: string, rest: string, acc: nat)
    requires (forall i :: 0 <= i < |text| ==> IsDigit(text[i])) && NoDigitNext(rest)
    ensures DigitsFrom(text + rest, acc) == DigitsFrom(text, acc)
    decreases |text|
  {
    if text == "" {
      assert text + rest == rest;
    } else {
      assert (text + rest)[1..] == text[1..] + rest;
      DigitsEnd(text[1..], rest, acc * 10 + (text[0] - '0') as nat);
    }
  }

  lemma {:induction false} AtoiSkipsBlanks(blanks: string, text: string)
    requires forall i :: 0 <= i < |blanks| ==> IsBlank(blanks[i])
    ensures Atoi(blanks + text) == Atoi(text)
    decreases |blanks|
  {
    if blanks == "" {
      assert blanks + text == text;
    } else {
      var all := blanks + text;
      assert all[1..] == blanks[1..] + text && all[0] == blanks[0];
      AtoiSkipsBlanks(blanks[1..], text);
    }
  }

  lemma NumberReads(n: nat, rest: string)
    requires NoDigitNext(rest)
    ensures Digits(n) + rest != "" && IsDigit((Digits(n) + rest)[0]) && DigitsFrom(Digits(n) + rest, 0) == n
  {
    DigitsAreDigits(n);
    DigitsReadBack(n);
    DigitsEnd(Digits(n), rest, 0);
  }

  lemma AtoiOfSigned(sign: string, number: string)
    requires sign in {"", "+", "-"} && number != "" && IsDigit(number[0])
    ensures Atoi(sign + number) == if sign == "-" then 0 - DigitsFrom(number, 0) else DigitsFrom(number, 0)
  {
    if sign == "" {
      assert sign + number == number;
    } else {
      assert (sign + number)[1..] == number;
    }
  }

  /** Blanks, a sign, digits and anything else behind them: the number that the digits write, with the sign. */
  lemma AtoiReadsNumber(blanks: string, sign: string, n: nat, rest: string)
    requires (forall i :: 0 <= i < |blanks| ==> IsBlank(blanks[i])) && sign in {"", "+", "-"} && NoDigitNext(rest)
    ensures Atoi(blanks + (sign + (Digits(n) + rest))) == (if sign == "-" then -1 else 1) * n
  {
    AtoiSkipsBlanks(blanks, sign + (Digits(n) + rest));
    NumberReads(n, rest);
    AtoiOfSigned(sign, Digits(n) + rest);
  }

  /** No digits, no number. */
  lemma AtoiReadsNothing(blanks: string, sign: string, rest: string)
    requires (forall i :: 0 <= i < |blanks| ==> IsBlank(blanks[i])) && sign in {"", "+", "-"} && NoDigitNext(rest)
    requires sign == "" && rest != "" ==> !IsBlank(rest[0]) && rest[0] != '+' && rest[0] != '-'
    ensures Atoi(blanks + (sign + rest)) == 0
  {
    AtoiSkipsBlanks(blanks, sign + rest);
    if sign == "" {
      assert sign + rest == rest;
    } else {
      assert (sign + rest)[1..] == rest;
    }
  }

  lemma AtoiReadsBack(n: nat)
    ensures Atoi(Digits(n)) == n
  {
    DigitsAreDigits(n);
    DigitsReadBack(n);
    assert IsDigit(Digits(n)[0]);
  }

  lemma AtoiOfDigits(text: string)
    requires forall i :: 0 <= i < |text| ==> IsDigit(text[i])
    ensures Atoi(text) == DigitsFrom(text, 0)
  {
    if text != "" {
      assert IsDigit(text[0]);
    }
  }

  /** The digits are decimal: one more at the end makes ten times the number and that digit. */
  lemma AtoiIsDecimal(text: string, c: char)
    requires IsDigit(c) && forall i :: 0 <= i < |text| ==> IsDigit(text[i])
    ensures Atoi(text + [c]) == Atoi(text) * 10 + (c as int - 48)
  {
    DigitsFromAppend(text, c, 0);
    AtoiOfDigits(text);
    AtoiOfDigits(text + [c]);
  }

  /** An address does not begin with '-'; what is ignored does, and is none of the five options. */
  predicate PlainItem(x: Item) {
    && (x.Address? && x.addr != "" ==> x.addr[0] != '-')
    && (x.Ignored? ==> x.word != "" && x.word[0] == '-' && x.word !in ["-p", "-mtu", "-seg", "-msg", "-r"])
  }

  predicate Plain(items: seq<Item>) {
    forall i :: 0 <= i < |items| ==> PlainItem(items[i])
  }

  function Effect(inet: Inet, x: Item, p: Parsing): Parsing {
    match x
    case UseProtocol(name) => p.(config := p.config.(protocol := Named(name)))
    case PathMtu(n) => p.(config := p.config.(pathMtu := n))
    case MaxSeg(n) => p.(config := p.config.(maxSeg := n))
    case BigMsgSize(n) => p.(config := p.config.(bigMsgSize := n))
    case Address(addr, port) => AddSocket(p, CreateIPSocket(inet, addr, ToPort(port)))
    case RemotesFollow => p.(remote := true)
    case Ignored(word) => p
  }

  function Effects(inet: Inet, items: seq<Item>, p: Parsing): Parsing
    decreases |items|
  {
    if items == [] then p else Effects(inet, items[1..], Effect(inet, items[0], p))
  }

  /** The parser takes the words of one item off the command line. */
  lemma ParseItem(inet: Inet, pre: seq<string>, x: Item, post: seq<string>, p: Parsing)
    requires PlainItem(x)
    requires x.RemotesFollow? || x.Ignored? ==> post != []
    ensures Parse(inet, pre + Words(x) + post, |pre|, p) == Parse(inet, pre + Words(x) + post, |pre| + |Words(x)|, Effect(inet, x, p))
  {
    var argv, i := pre + Words(x) + post, |pre|;
    assert argv[i] == Words(x)[0];
    if !x.RemotesFollow? && !x.Ignored? {
      assert argv[i + 1] == Words(x)[1];
    }
    match x {
      case UseProtocol(name) => NamesSelectProtocols(name);
      case PathMtu(n) => AtoiReadsBack(n);
      case MaxSeg(n) => AtoiReadsBack(n);
      case BigMsgSize(n) => AtoiReadsBack(n);
      case Address(addr, port) => AtoiReadsBack(port);
      case RemotesFollow =>
      case Ignored(word) =>
    }
  }

  lemma {:induction false} ParseRendered(inet: Inet, pre: seq<string>, items: seq<Item>, p: Parsing)
    requires Plain(items)
    ensures Parse(inet, pre + Render(items), |pre|, p).config == Effects(inet, items, p).config
    decreases |items|
  {
    if items != [] {
      var x, rest := items[0], items[1..];
      var done := pre + Words(x);
      assert pre + Render(items) == done + Render(rest);
      assert PlainItem(x);
      if (x.RemotesFollow? || x.Ignored?) && rest == [] {
        assert done + Render(rest) == pre + Words(x);
      } else {
        if rest != [] {
          SomethingRendered(rest);
        }
        ParseItem(inet, pre, x, Render(rest), p);
        ParseRendered(inet, done, rest, Effect(inet, x, p));
      }
    }
  }

  lemma SomethingRendered(items: seq<Item>)
    requires items != []
    ensures Render(items) != []
  {
    assert |Render(items)| == |Words(items[0])| + |Render(items[1..])|;
  }

  /** The items from the first "-r" on. */
  function FromRemotes(items: seq<Item>): seq<Item> {
    if items == [] || items[0].RemotesFollow? then items else FromRemotes(items[1..])
  }

  lemma {:induction false} EffectsOnSettings(inet: Inet, items: seq<Item>, p: Parsing)
    ensures var c, d := Effects(inet, items, p).config, p.config;
            && c.protocol == LastProtocol(items, d.protocol)
            && c.pathMtu == LastValue(items, Mtu, d.pathMtu)
            && c.maxSeg == LastValue(items, Seg, d.maxSeg)
            && c.bigMsgSize == LastValue(items, Msg, d.bigMsgSize)
    decreases |items|
  {
    if items != [] {
      EffectsOnSettings(inet, items[1..], Effect(inet, items[0], p));
    }
  }

  lemma {:induction false} EffectsAfterR(inet: Inet, items: seq<Item>, p: Parsing)
    requires p.remote
    ensures var c := Effects(inet, items, p).config;
            c.locals == p.config.locals && c.remotes == p.config.remotes + Addresses(inet, items)
    decreases |items|
  {
    if items != [] {
      EffectsAfterR(inet, items[1..], Effect(inet, items[0], p));
      assert [items[0]] + items[1..] == items;
      Regroup(p.config.remotes, items[0], inet, items[1..]);
    }
  }

  /** Appending one by one, or all at once. */
  lemma Regroup(xs: seq<IPSocket>, x: Item, inet: Inet, items: seq<Item>)
    ensures xs + Addresses(inet, [x] + items)
            == (if x.Address? then xs + [CreateIPSocket(inet, x.addr, ToPort(x.port))] else xs) + Addresses(inet, items)
  {
    assert ([x] + items)[1..] == items;
  }

  lemma {:induction false} EffectsBeforeR(inet: Inet, items: seq<Item>, p: Parsing)
    requires !p.remote
    ensures var c := Effects(inet, items, p).config;
            && c.locals == p.config.locals + Addresses(inet, BeforeRemotes(items))
            && c.remotes == p.config.remotes + Addresses(inet, FromRemotes(items))
    decreases |items|
  {
    if items != [] {
      var q := Effect(inet, items[0], p);
      if items[0].RemotesFollow? {
        EffectsAfterR(inet, items[1..], q);
      } else {
        EffectsBeforeR(inet, items[1..], q);
        Regroup(p.config.locals, items[0], inet, BeforeRemotes(items[1..]));
      }
    }
  }

  /** Parsing inverts rendering: however options and pairs are interleaved, the locals are the pairs before
      "-r", the remotes those after it, in order, each with its text, port and family; of each option the last value counts,
      a protocol by its name in any case; unknown options are passed over. */
  lemma ParseInvertsRender(inet: Inet, program: string, items: seq<Item>)
    requires Plain(items)
    ensures var c := Parse(inet, [program] + Render(items), 1, Parsing(ZERO_CONFIG, false)).config;
            && AreSocketsOf(inet, c.locals, Pairs(BeforeRemotes(items)))
            && AreSocketsOf(inet, c.remotes, Pairs(FromRemotes(items)))
            && c.protocol == LastProtocol(items, SCTP)
            && c.pathMtu == LastValue(items, Mtu, 0) && c.maxSeg == LastValue(items, Seg, 0) && c.bigMsgSize == LastValue(items, Msg, 0)
  {
    AddressesOfPairs(inet, BeforeRemotes(items));
    AddressesOfPairs(inet, FromRemotes(items));
    ParseRendered(inet, [program], items, Parsing(ZERO_CONFIG, false));
    EffectsOnSettings(inet, items, Parsing(ZERO_CONFIG, false));
    EffectsBeforeR(inet, items, Parsing(ZERO_CONFIG, false));
  }

  /** On a rendered command line the stores stay within the arrays if and only if at most four pairs stand before
      "-r" and at most four after it. */
  lemma RenderedFits(inet: Inet, program: string, items: seq<Item>)
    requires Plain(items)
    ensures StoresFit(inet, [program] + Render(items), 1, Parsing(ZERO_CONFIG, false))
            <==> |Pairs(BeforeRemotes(items))| <= 4 && |Pairs(FromRemotes(items))| <= 4
  {
    StoresFitExactly(inet, [program] + Render(items), 1, Parsing(ZERO_CONFIG, false));
    ParseInvertsRender(inet, program, items);
  }
}
