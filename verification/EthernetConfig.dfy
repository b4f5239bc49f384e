/** The Ethernet configuration file: its printer and its line-by-line reader. */
module EthernetConfig {
  import opened Decimal
  import opened JsonText
  import opened KeyValueText

  datatype Config = Config(iface: string, method_: string, ip4: string, netmask4: string,
                           gateway4: string, dns4: string, metric: int, dnsEnabled: bool)

  const STATIC := "static"
  const DHCP := "dhcp"

  // ---------------------------------------------------------------- numbers and blanks

  /** Leading digits of a text behind optional white space and a sign; 0 without any. */
  function AtoI(s: string): int {
    var p := SkipWs(s, 0);
    var signed := p < |s| && (s[p] == '-' || s[p] == '+');
    var q := if signed then p + 1 else p;
    var v: int := Value(s[q..DigitsEnd(s, q)]);
    if signed && s[p] == '-' then -v else v
  }

  lemma IntReadsBack(n: int)
    ensures AtoI(PrintInt(n)) == n
  {
    var s := PrintInt(n);
    var digits := Print(if n < 0 then -n else n);
    var q := if n < 0 then 1 else 0;
    assert s[q..] == digits && s[q..|s|] == digits;
    assert n >= 0 ==> IsDigit(s[0]);
    assert SkipWs(s, 0) == 0;
    RunEnds(s, q, |s|);
    ValueOfPrint(if n < 0 then -n else n);
  }

  predicate Blank(c: char) { c == ' ' || c == '\t' || c == '\r' || c == '\n' }

  function TrimStart(s: string): (r: string)
    ensures |r| <= |s| && r == s[|s| - |r|..]
    ensures r != "" ==> !Blank(r[0]) && r[|r| - 1] == s[|s| - 1]
  {
    if s != "" && Blank(s[0]) then TrimStart(s[1..]) else s
  }

  function TrimEnd(s: string): (r: string)
    ensures r <= s
    ensures r != "" ==> !Blank(r[|r| - 1]) && r[0] == s[0]
  {
    if s != "" && Blank(s[|s| - 1]) then TrimEnd(s[..|s| - 1]) else s
  }

  function Trim(s: string): string { TrimEnd(TrimStart(s)) }

  predicate Trimmed(s: string) { s != "" ==> !Blank(s[0]) && !Blank(s[|s| - 1]) }

  /** Trimming leaves exactly the trimmed texts alone and never adds a line. */
  lemma TrimMeans(s: string)
    ensures Trimmed(Trim(s)) && (Trim(s) == s <==> Trimmed(s)) && (OneLine(s) ==> OneLine(Trim(s)))
  {
  }

  lemma TrimStartStep(s: string, i: nat)
    requires i <= |s|
    ensures TrimStart(s[i..]) == if i < |s| && Blank(s[i]) then TrimStart(s[i + 1..]) else s[i..]
  {
    assert i < |s| ==> s[i..][1..] == s[i + 1..];
  }

  lemma TrimEndStep(s: string, i: nat, j: nat)
    requires i <= j <= |s|
    ensures TrimEnd(s[i..j]) == if i < j && Blank(s[j - 1]) then TrimEnd(s[i..j - 1]) else s[i..j]
  {
    assert i < j ==> s[i..j][..j - i - 1] == s[i..j - 1];
  }

  /** The reader's two index loops. */
  method SkipBlanks(value: string) returns (begin: nat)
    ensures begin <= |value| && TrimStart(value) == value[begin..]
  {
    hide TrimStart;
    begin := 0;
    assert value[0..] == value;
    while begin < |value| && Blank(value[begin])
      invariant begin <= |value| && TrimStart(value[begin..]) == TrimStart(value)
    {
      TrimStartStep(value, begin);
      begin := begin + 1;
    }
    TrimStartStep(value, begin);
  }

  method TrimText(value: string) returns (out: string)
    ensures out == Trim(value)
  {
    hide TrimStart, TrimEnd;
    var begin := SkipBlanks(value);
    var end := |value|;
    assert value[begin..end] == value[begin..];
    while end > begin && Blank(value[end - 1])
      invariant begin <= end <= |value| && TrimEnd(value[begin..end]) == Trim(value)
    {
      TrimEndStep(value, begin, end);
      end := end - 1;
    }
    TrimEndStep(value, begin, end);
    out := value[begin..end];
  }

  // ---------------------------------------------------------------- printing

  function Serialize(c: Config): string {
    Line("iface", c.iface) + (Line("method", c.method_) + (Line("ip4", c.ip4) + (Line("netmask4", c.netmask4) +
      (Line("gateway4", c.gateway4) + (Line("dns4", c.dns4) + (Line("route_metric", PrintInt(c.metric)) +
        (Line("dns_enabled", if c.dnsEnabled then "1" else "0") + "")))))))
  }

  /** The file's lines, in order. */
  lemma SerializeLayout(c: Config)
    ensures Serialize(c) ==
            Row("iface=", c.iface) + (Row("method=", c.method_) + (Row("ip4=", c.ip4) + (Row("netmask4=", c.netmask4) +
              (Row("gateway4=", c.gateway4) + (Row("dns4=", c.dns4) + (Row("route_metric=", PrintInt(c.metric)) +
                (Row("dns_enabled=", if c.dnsEnabled then "1" else "0") + "")))))))
  {
    hide PrintInt, Line, Row;
    RowIs("iface", "iface=", c.iface);
    RowIs("method", "method=", c.method_);
    RowIs("ip4", "ip4=", c.ip4);
    RowIs("netmask4", "netmask4=", c.netmask4);
    RowIs("gateway4", "gateway4=", c.gateway4);
    RowIs("dns4", "dns4=", c.dns4);
    RowIs("route_metric", "route_metric=", PrintInt(c.metric));
    RowIs("dns_enabled", "dns_enabled=", if c.dnsEnabled then "1" else "0");
  }

  // ---------------------------------------------------------------- reading

  function DefaultIface(iface: string): string { if iface == "" then "eth0" else iface }

  function Defaults(iface: string): Config { Config(DefaultIface(iface), DHCP, "", "", "", "", 10, true) }

  function Set(c: Config, key: string, value: string): Config {
    if key == "iface" then c.(iface := value)
    else if key == "method" then c.(method_ := value)
    else if key == "ip4" then c.(ip4 := value)
    else if key == "netmask4" then c.(netmask4 := value)
    else if key == "gateway4" then c.(gateway4 := value)
    else if key == "dns4" then c.(dns4 := value)
    else if key == "route_metric" then c.(metric := AtoI(value))
    else if key == "dns_enabled" then c.(dnsEnabled := value != "0")
    else c
  }

  function Absorb(c: Config, line: string): Config {
    match EntryOf(line) case NoEntry => c case Entry(key, value) => Set(c, Trim(key), Trim(value))
  }

  function Lines(t: string, c: Config): Config
    decreases |t|
  {
    if t == "" then c else Lines(OtherLines(t), Absorb(c, FirstLine(t)))
  }

  /** An empty interface falls back to the default, any other method than static to dhcp. */
  function Normalize(c: Config, iface: string): Config {
    c.(iface := if c.iface == "" then DefaultIface(iface) else c.iface,
       method_ := if c.method_ != STATIC then DHCP else c.method_)
  }

  /** What loading a file gives; without one, the defaults. */
  datatype File = Missing | Text(content: string)

  function Load(f: File, iface: string): Config {
    match f case Missing => Defaults(iface) case Text(t) => Normalize(Lines(t, Defaults(iface)), iface)
  }

  method LoadConfig(f: File, iface: string) returns (c: Config)
    ensures c == Load(f, iface)
  {
    c := Defaults(iface);
    if f.Missing? { return; }
    var rest := f.content;
    while rest != ""
      invariant Lines(rest, c) == Lines(f.content, Defaults(iface))
      decreases |rest|
    {
      var entry := EntryOf(FirstLine(rest));
      if entry.Entry? {
        var key := TrimText(entry.key);
        var value := TrimText(entry.value);
        c := Set(c, key, value);
      }
      rest := OtherLines(rest);
    }
    if c.iface == "" { c := c.(iface := DefaultIface(iface)); }
    if c.method_ != STATIC { c := c.(method_ := DHCP); }
  }

  // ---------------------------------------------------------------- the round trip

  predicate Clean(s: string) { OneLine(s) && Trimmed(s) }

  /** What a configuration file can hold. */
  predicate Storable(c: Config) {
    && c.iface != "" && (c.method_ == STATIC || c.method_ == DHCP)
    && Clean(c.iface) && Clean(c.ip4) && Clean(c.netmask4) && Clean(c.gateway4) && Clean(c.dns4)
  }

  /** A clean value on a line of its own is set. */
  lemma LineSets(c: Config, key: string, value: string, rest: string)
    requires PlainKey(key) && Trimmed(key) && Clean(value)
    ensures Lines(Line(key, value) + rest, c) == Lines(rest, Set(c, key, value))
  {
    hide Set, FirstLine, OtherLines, EntryOf, Trim;
    LineReads(key, value, rest);
    TrimMeans(key);
    TrimMeans(value);
  }

  lemma NothingLeft(c: Config)
    ensures Lines("", c) == c
  {
  }

  lemma KeysArePlain()
    ensures PlainKey("iface") && PlainKey("method") && PlainKey("ip4") && PlainKey("netmask4")
    ensures Trimmed("iface") && Trimmed("method") && Trimmed("ip4") && Trimmed("netmask4")
    ensures PlainKey("gateway4") && PlainKey("dns4") && PlainKey("route_metric") && PlainKey("dns_enabled")
    ensures Trimmed("gateway4") && Trimmed("dns4") && Trimmed("route_metric") && Trimmed("dns_enabled")
  {
  }

  lemma WordsAreClean(n: int)
    ensures Clean(PrintInt(n)) && Clean("1") && Clean("0") && Clean(STATIC) && Clean(DHCP)
  {
  }

  lemma StorableReadsBack(c: Config, iface: string)
    requires Storable(c)
    ensures Load(Text(Serialize(c)), iface) == c
  {
    hide Line, Lines, Clean, PlainKey, Trimmed, PrintInt, AtoI;
    KeysArePlain();
    WordsAreClean(c.metric);
    var flag := if c.dnsEnabled then "1" else "0";
    var e7 := Line("dns_enabled", flag) + "";
    var e6 := Line("route_metric", PrintInt(c.metric)) + e7;
    var e5 := Line("dns4", c.dns4) + e6;
    var e4 := Line("gateway4", c.gateway4) + e5;
    var e3 := Line("netmask4", c.netmask4) + e4;
    var e2 := Line("ip4", c.ip4) + e3;
    var e1 := Line("method", c.method_) + e2;
    var c0 := Defaults(iface);
    var c1 := Set(c0, "iface", c.iface);
    var c2 := Set(c1, "method", c.method_);
    var c3 := Set(c2, "ip4", c.ip4);
    var c4 := Set(c3, "netmask4", c.netmask4);
    var c5 := Set(c4, "gateway4", c.gateway4);
    var c6 := Set(c5, "dns4", c.dns4);
    var c7 := Set(c6, "route_metric", PrintInt(c.metric));
    LineSets(c0, "iface", c.iface, e1);
    LineSets(c1, "method", c.method_, e2);
    LineSets(c2, "ip4", c.ip4, e3);
    LineSets(c3, "netmask4", c.netmask4, e4);
    LineSets(c4, "gateway4", c.gateway4, e5);
    LineSets(c5, "dns4", c.dns4, e6);
    LineSets(c6, "route_metric", PrintInt(c.metric), e7);
    LineSets(c7, "dns_enabled", flag, "");
    NothingLeft(Set(c7, "dns_enabled", flag));
    IntReadsBack(c.metric);
    SetAll(c, iface);
  }

  /** Setting every key to a configuration's own values gives that configuration. */
  lemma SetAll(c: Config, iface: string)
    requires AtoI(PrintInt(c.metric)) == c.metric
    ensures var c2 := Set(Set(Defaults(iface), "iface", c.iface), "method", c.method_);
            var c4 := Set(Set(c2, "ip4", c.ip4), "netmask4", c.netmask4);
            var c6 := Set(Set(c4, "gateway4", c.gateway4), "dns4", c.dns4);
            var flag := if c.dnsEnabled then "1" else "0";
            Set(Set(c6, "route_metric", PrintInt(c.metric)), "dns_enabled", flag) == c
  {
  }

  lemma LineValueClean(line: string)
    requires OneLine(line) && EntryOf(line).Entry?
    ensures Clean(Trim(EntryOf(line).value))
  {
    TrimMeans(EntryOf(line).value);
  }

  predicate AllClean(c: Config) {
    Clean(c.iface) && Clean(c.ip4) && Clean(c.netmask4) && Clean(c.gateway4) && Clean(c.dns4)
  }

  lemma {:induction false} LinesClean(t: string, c: Config)
    requires AllClean(c)
    ensures AllClean(Lines(t, c))
    decreases |t|
  {
    hide Clean, Trim, EntryOf, AtoI;
    if t != "" {
      FirstIsOneLine(t);
      var line := FirstLine(t);
      if EntryOf(line).Entry? { LineValueClean(line); }
      LinesClean(OtherLines(t), Absorb(c, line));
    }
  }

  lemma FirstIsOneLine(t: string)
    ensures OneLine(FirstLine(t))
  {
  }

  // ---------------------------------------------------------------- the last line counts

  datatype Setting = Unset | SetTo(value: string)

  /** What one line says about a key. */
  function SettingOf(line: string, key: string): Setting {
    match EntryOf(line) case Entry(k, v) => (if Trim(k) == key then SetTo(Trim(v)) else Unset) case NoEntry => Unset
  }

  /** What the last line with this key says. */
  function LastSetting(t: string, key: string): Setting
    decreases |t|
  {
    if t == "" then Unset
    else if LastSetting(OtherLines(t), key).SetTo? then LastSetting(OtherLines(t), key)
    else SettingOf(FirstLine(t), key)
  }

  function OrDefault(s: Setting, default: string): string { if s.SetTo? then s.value else default }

  predicate Follows(setting: string -> Setting, c: Config, d: Config) {
    && d.iface == OrDefault(setting("iface"), c.iface) && d.method_ == OrDefault(setting("method"), c.method_)
    && d.ip4 == OrDefault(setting("ip4"), c.ip4) && d.netmask4 == OrDefault(setting("netmask4"), c.netmask4)
    && d.gateway4 == OrDefault(setting("gateway4"), c.gateway4) && d.dns4 == OrDefault(setting("dns4"), c.dns4)
    && d.metric == (match setting("route_metric") case Unset => c.metric case SetTo(v) => AtoI(v))
    && d.dnsEnabled == (match setting("dns_enabled") case Unset => c.dnsEnabled case SetTo(v) => v != "0")
  }

  lemma AbsorbFollows(line: string, c: Config)
    ensures Follows(key => SettingOf(line, key), c, Absorb(c, line))
  {
    hide Trim, EntryOf, AtoI;
  }

  lemma FollowsTwice(a: string -> Setting, b: string -> Setting, both: string -> Setting, c: Config, d: Config, e: Config)
    requires Follows(a, c, d) && Follows(b, d, e) && forall key :: both(key) == if b(key).SetTo? then b(key) else a(key)
    ensures Follows(both, c, e)
  {
    hide AtoI;
  }

  lemma {:induction false} LinesFollow(t: string, c: Config)
    ensures Follows(key => LastSetting(t, key), c, Lines(t, c))
    decreases |t|
  {
    hide FirstLine, OtherLines, Follows, Absorb, SettingOf;
    if t == "" {
      NothingFollows(c);
    } else {
      var line, rest := FirstLine(t), OtherLines(t);
      ShorterRest(t);
      AbsorbFollows(line, c);
      LinesFollow(rest, Absorb(c, line));
      FollowsTwice(key => SettingOf(line, key), key => LastSetting(rest, key), key => LastSetting(t, key),
                   c, Absorb(c, line), Lines(t, c));
    }
  }

  lemma NothingFollows(c: Config)
    ensures Follows(key => LastSetting("", key), c, Lines("", c))
  {
    hide AtoI;
  }

  lemma ShorterRest(t: string)
    requires t != ""
    ensures |OtherLines(t)| < |t|
  {
  }

  /** Whatever a file holds, each setting is that of the last line with its key, trimmed.
      Missing settings are: DHCP on the given interface, or on eth0, with metric 10 and DNS
      enabled. Any method but "static" is DHCP, and any flag but "0" enables DNS. */
  lemma LoadMeans(t: string, iface: string)
    ensures var c := Load(Text(t), iface);
            && c.iface == (match LastSetting(t, "iface")
                           case SetTo(v) => if v != "" then v else if iface != "" then iface else "eth0"
                           case Unset => if iface != "" then iface else "eth0")
            && c.method_ == (if LastSetting(t, "method") == SetTo("static") then "static" else "dhcp")
            && c.ip4 == OrDefault(LastSetting(t, "ip4"), "") && c.netmask4 == OrDefault(LastSetting(t, "netmask4"), "")
            && c.gateway4 == OrDefault(LastSetting(t, "gateway4"), "") && c.dns4 == OrDefault(LastSetting(t, "dns4"), "")
            && c.metric == (match LastSetting(t, "route_metric") case Unset => 10 case SetTo(v) => AtoI(v))
            && (c.dnsEnabled <==> LastSetting(t, "dns_enabled") != SetTo("0"))
    ensures Load(Missing, iface) == Load(Text(""), iface)
  {
    hide Lines, LastSetting, AtoI;
    LinesFollow(t, Defaults(iface));
    NothingLeft(Defaults(iface));
  }

  /** A number is read from its sign and digits, whatever stands behind them. */
  lemma NumberMeans(digits: string, rest: string)
    requires digits != "" && AllDigits(digits) && (rest != "" ==> !IsDigit(rest[0]))
    ensures AtoI(digits + rest) == Value(digits) && AtoI("+" + digits + rest) == Value(digits)
    ensures AtoI("-" + digits + rest) + Value(digits) == 0
  {
    hide Value, AtoI;
    UnsignedAt(digits + rest, digits, rest);
    SignedAt("+" + digits + rest, digits, rest);
    SignedAt("-" + digits + rest, digits, rest);
  }

  lemma UnsignedAt(s: string, digits: string, rest: string)
    requires digits != "" && AllDigits(digits) && (rest != "" ==> !IsDigit(rest[0])) && s == digits + rest
    ensures AtoI(s) == Value(digits)
  {
    hide Value;
    assert s[0..] == s && IsDigit(s[0]);
    assert SkipWs(s, 0) == 0;
    DigitsAt(s, 0, digits, rest);
  }

  lemma SignedAt(s: string, digits: string, rest: string)
    requires AllDigits(digits) && (rest != "" ==> !IsDigit(rest[0]))
    requires s != "" && (s[0] == '-' || s[0] == '+') && s[1..] == digits + rest
    ensures s[0] == '+' ==> AtoI(s) == Value(digits)
    ensures s[0] == '-' ==> AtoI(s) + Value(digits) == 0
  {
    hide Value;
    assert SkipWs(s, 0) == 0;
    DigitsAt(s, 1, digits, rest);
  }

  lemma DigitsAt(s: string, q: nat, digits: string, rest: string)
    requires AllDigits(digits) && (rest != "" ==> !IsDigit(rest[0]))
    requires q <= |s| && s[q..] == digits + rest
    ensures s[q..DigitsEnd(s, q)] == digits
  {
    var e := q + |digits|;
    assert forall k :: q <= k < e ==> s[k] == s[q..][k - q];
    assert e < |s| ==> s[e] == s[q..][|digits|];
    RunEnds(s, q, e);
    assert s[q..e] == s[q..][..|digits|];
  }

  // ---------------------------------------------------------------- the exact round trip

  /** Loading inverts printing exactly for the configurations a file can hold: the
      interface has a name, the method is one of the two, and no text field begins or
      ends with a blank or spans lines. */
  lemma LoadInvertsSerialize(c: Config, iface: string)
    requires Clean(iface)
    ensures Load(Text(Serialize(c)), iface) == c <==> Storable(c)
  {
    if Storable(c) {
      StorableReadsBack(c, iface);
    } else {
      hide Lines, Serialize;
      LinesClean(Serialize(c), Defaults(iface));
    }
  }
}
