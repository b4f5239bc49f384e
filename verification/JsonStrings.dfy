/** Strings through the dispatcher's reader: escaping by the service's own printer and
    reading back is the identity on every byte string; any mixture of characters and
    escapes is read, with every Unicode scalar in `\u` escapes as its UTF-8 octets
    (section 3 of RFC 3629); and no string with a lone surrogate is accepted. */
module JsonStrings {
  import opened Decimal
  import opened JsonText
  import opened DispatchReader

  // ---------------------------------------------------------------- escaping

  function HexDigit(d: nat): (c: char)
    requires d < 16
    ensures IsHex(c) && HexValue(c) == d
  {
    if d < 10 then ('0' as int + d) as char else ('a' as int + d - 10) as char
  }

  function EscapeChar(c: char): (s: string)
    ensures s != ""
  {
    if c == '\\' then "\\\\" else if c == '"' then "\\\""
    else if c == 8 as char then "\\b" else if c == 12 as char then "\\f"
    else if c == '\n' then "\\n" else if c == '\r' then "\\r" else if c == '\t' then "\\t"
    else if c as int < 0x20 then ['\\', 'u', '0', '0', HexDigit(c as int / 16), HexDigit(c as int % 16)]
    else [c]
  }

  function Escape(s: string): string {
    if s == "" then "" else EscapeChar(s[0]) + Escape(s[1..])
  }

  function Quoted(s: string): string { ['"'] + Escape(s) + ['"'] }

  lemma {:induction false} EscapeAppend(s: string, c: char)
    ensures Escape(s + [c]) == Escape(s) + EscapeChar(c)
  {
    if s == "" {
      assert s + [c] == [c];
      assert EscapeChar(c) + Escape([c][1..]) == EscapeChar(c);
    } else {
      assert (s + [c])[1..] == s[1..] + [c];
      EscapeAppend(s[1..], c);
    }
  }

  lemma {:induction false} QuotedLength(s: string)
    ensures |Escape(s)| <= 6 * |s| && |Quoted(s)| == |Escape(s)| + 2
  {
    if s != "" { QuotedLength(s[1..]); }
  }

  /** The printer's loop. */
  method EscapeText(value: string) returns (out: string)
    ensures out == Escape(value)
  {
    out := "";
    for i := 0 to |value|
      invariant out == Escape(value[..i])
    {
      EscapeAppend(value[..i], value[i]);
      assert value[..i + 1] == value[..i] + [value[i]];
      out := out + EscapeChar(value[i]);
    }
    assert value[..|value|] == value;
  }

  lemma ControlReads(t: string, pos: nat, c: char)
    requires c as int < 0x20 && |EscapeChar(c)| == 6 && StandsAt(t, pos, EscapeChar(c))
    ensures t[pos] == '\\' && t[pos + 1] == 'u' && EscapedUnit(t, pos + 2) == Text([c], pos + 6)
  {
    var e := EscapeChar(c);
    CharOf(t, pos, e, 0); CharOf(t, pos, e, 1); CharOf(t, pos, e, 2);
    CharOf(t, pos, e, 3); CharOf(t, pos, e, 4); CharOf(t, pos, e, 5);
    assert Hex4At(t, pos + 2) && Hex4(t, pos + 2) == c as int;
  }

  /** One escaped character is read as one character, whatever follows. */
  lemma EscapeCharReads(t: string, pos: nat, c: char)
    requires StandsAt(t, pos, EscapeChar(c))
    ensures StringRest(t, pos) == Joined([c], StringRest(t, pos + |EscapeChar(c)|))
  {
    var e := EscapeChar(c);
    CharOf(t, pos, e, 0);
    if |e| == 6 {
      ControlReads(t, pos, c);
    } else if |e| == 2 {
      CharOf(t, pos, e, 1);
    }
  }

  lemma {:induction false} EscapeReads(t: string, pos: nat, s: string)
    requires StandsAt(t, pos, Escape(s) + ['"'])
    ensures StringRest(t, pos) == Text(s, pos + |Escape(s)| + 1)
    decreases |s|
  {
    hide StringRest, StandsAt, EscapeChar;
    if s == "" {
      StandsSplit(t, pos, Escape(s), ['"']);
      CharOf(t, pos, ['"'], 0);
      StandsInside(t, pos, ['"']);
      QuoteEnds(t, pos);
    } else {
      StandsInside(t, pos, Escape(s) + ['"']);
      var c, tail := EscapeChar(s[0]), Escape(s[1..]) + ['"'];
      assert Escape(s) + ['"'] == c + tail;
      StandsSplit(t, pos, c, tail);
      EscapeCharReads(t, pos, s[0]);
      EscapeReads(t, pos + |c|, s[1..]);
      assert [s[0]] + s[1..] == s;
    }
  }

  lemma StandsInside(t: string, pos: nat, s: string)
    requires StandsAt(t, pos, s)
    ensures pos + |s| <= |t|
  {
  }

  lemma QuoteEnds(t: string, pos: nat)
    requires pos < |t| && t[pos] == '"'
    ensures StringRest(t, pos) == Text("", pos + 1)
  {
  }

  /** Every string survives being escaped, quoted and read in full. */
  lemma EscapeRoundTrip(s: string)
    ensures FullString(Quoted(s)) == Text(s, |Quoted(s)|)
  {
    var t := Quoted(s);
    assert t[1..1 + |Escape(s) + ['"']|] == Escape(s) + ['"'];
    EscapeReads(t, 1, s);
    assert SkipWs(t, 0) == 0 && SkipWs(t, |t|) == |t|;
  }

  // ---------------------------------------------------------------- code points

  predicate Continuation(c: char) { 0x80 <= c as int <= 0xBF }

  datatype Decoded = Bad | Decoded(cp: nat)

  /** A decoder written from the octet table of section 3 of RFC 3629: shortest forms
      only, no surrogates, nothing above 10FFFF. */
  function DecodeUtf8(s: string): Decoded {
    if |s| == 1 && s[0] as int <= 0x7F then Decoded(s[0] as int)
    else if |s| == 2 && 0xC2 <= s[0] as int <= 0xDF && Continuation(s[1]) then
      Decoded((s[0] as int - 0xC0) * 64 + (s[1] as int - 0x80))
    else if |s| == 3 && 0xE0 <= s[0] as int <= 0xEF && Continuation(s[1]) && Continuation(s[2]) &&
            (s[0] as int == 0xE0 ==> s[1] as int >= 0xA0) && (s[0] as int == 0xED ==> s[1] as int <= 0x9F) then
      Decoded((s[0] as int - 0xE0) * 4096 + (s[1] as int - 0x80) * 64 + (s[2] as int - 0x80))
    else if |s| == 4 && 0xF0 <= s[0] as int <= 0xF4 && Continuation(s[1]) && Continuation(s[2]) &&
            Continuation(s[3]) && (s[0] as int == 0xF0 ==> s[1] as int >= 0x90) &&
            (s[0] as int == 0xF4 ==> s[1] as int <= 0x8F) then
      Decoded((s[0] as int - 0xF0) * 262144 + (s[1] as int - 0x80) * 4096 +
              (s[2] as int - 0x80) * 64 + (s[3] as int - 0x80))
    else Bad
  }

  /** Splitting a number into 64-ary digits. */
  lemma Sextets(cp: nat)
    ensures cp == cp / 64 * 64 + cp % 64
    ensures cp / 64 == cp / 4096 * 64 + cp / 64 % 64
    ensures cp / 4096 == cp / 262144 * 64 + cp / 4096 % 64
  {
    assert cp / 4096 == cp / 64 / 64;
    assert cp / 262144 == cp / 4096 / 64;
  }

  lemma Utf8RoundTrip(cp: nat)
    requires IsScalar(cp)
    ensures DecodeUtf8(Utf8(cp)) == Decoded(cp)
  {
    Sextets(cp);
  }

  function HexText(v: nat): (s: string)
    requires v < 0x1_0000
    ensures |s| == 4
  {
    var a := v / 16;
    var b := a / 16;
    [HexDigit(b / 16), HexDigit(b % 16), HexDigit(a % 16), HexDigit(v % 16)]
  }

  /** A scalar as one escape, or as a surrogate pair above U+FFFF. */
  function UnitEscapes(cp: nat): string
    requires IsScalar(cp)
  {
    if cp <= 0xFFFF then "\\u" + HexText(cp)
    else "\\u" + HexText(0xD800 + (cp - 0x10000) / 0x400) + "\\u" + HexText(0xDC00 + (cp - 0x10000) % 0x400)
  }

  lemma HexTextReads(t: string, pos: nat, v: nat)
    requires v < 0x1_0000 && StandsAt(t, pos, HexText(v))
    ensures Hex4At(t, pos) && Hex4(t, pos) == v
  {
    var h := HexText(v);
    CharOf(t, pos, h, 0); CharOf(t, pos, h, 1); CharOf(t, pos, h, 2); CharOf(t, pos, h, 3);
  }

  lemma BasicEscapeReads(t: string, pos: nat, cp: nat)
    requires IsScalar(cp) && cp <= 0xFFFF && StandsAt(t, pos, HexText(cp))
    ensures EscapedUnit(t, pos) == Text(Utf8(cp), pos + 4)
  {
    HexTextReads(t, pos, cp);
  }

  lemma PairEscapeReads(t: string, pos: nat, high: nat, low: nat)
    requires 0xD800 <= high <= 0xDBFF && 0xDC00 <= low <= 0xDFFF
    requires StandsAt(t, pos, HexText(high)) && StandsAt(t, pos + 4, "\\u") && StandsAt(t, pos + 6, HexText(low))
    ensures EscapedUnit(t, pos) == Text(Utf8(Paired(high, low)), pos + 10)
  {
    HexTextReads(t, pos, high);
    HexTextReads(t, pos + 6, low);
    CharOf(t, pos + 4, "\\u", 0);
    CharOf(t, pos + 4, "\\u", 1);
  }

  lemma PairIsScalar(cp: nat)
    requires 0x1_0000 <= cp <= 0x10FFFF
    ensures Paired(0xD800 + (cp - 0x10000) / 0x400, 0xDC00 + (cp - 0x10000) % 0x400) == cp
  {
  }

  // ---------------------------------------------------------------- whole strings

  /** What may stand in a string: a character as it is, a one-letter escape, or a Unicode
      scalar in `\u` escapes. */
  datatype Item = Plain(c: char) | Letter(c: char) | Scalar(cp: nat)

  predicate ValidItem(i: Item) {
    match i
    case Plain(c) => c != '"' && c != '\\' && c as int >= 0x20
    case Letter(c) => SimpleEscape(c)
    case Scalar(cp) => IsScalar(cp)
  }

  function ItemText(i: Item): string
    requires ValidItem(i)
  {
    match i case Plain(c) => [c] case Letter(c) => ['\\', c] case Scalar(cp) => UnitEscapes(cp)
  }

  function ItemOctets(i: Item): string
    requires ValidItem(i)
  {
    match i case Plain(c) => [c] case Letter(c) => [Unescaped(c)] case Scalar(cp) => Utf8(cp)
  }

  predicate ValidItems(items: seq<Item>) { forall i :: 0 <= i < |items| ==> ValidItem(items[i]) }

  function ItemsText(items: seq<Item>): string
    requires ValidItems(items)
  {
    if items == [] then "" else ItemText(items[0]) + ItemsText(items[1..])
  }

  function ItemsOctets(items: seq<Item>): string
    requires ValidItems(items)
  {
    if items == [] then "" else ItemOctets(items[0]) + ItemsOctets(items[1..])
  }

  lemma UnitReads(t: string, pos: nat, octets: string, e: nat)
    requires pos + 1 < |t| && t[pos] == '\\' && t[pos + 1] == 'u' && EscapedUnit(t, pos + 2) == Text(octets, e)
    ensures e <= |t| && StringRest(t, pos) == Joined(octets, StringRest(t, e))
  {
    hide EscapedUnit;
  }

  lemma ScalarReads(t: string, pos: nat, cp: nat)
    requires IsScalar(cp) && StandsAt(t, pos, UnitEscapes(cp))
    ensures pos + |UnitEscapes(cp)| <= |t|
    ensures StringRest(t, pos) == Joined(Utf8(cp), StringRest(t, pos + |UnitEscapes(cp)|))
  {
    hide HexText, Utf8, EscapedUnit, StringRest, StandsAt, Paired;
    StandsInside(t, pos, UnitEscapes(cp));
    if cp <= 0xFFFF {
      StandsSplit(t, pos, "\\u", HexText(cp));
      CharOf(t, pos, "\\u", 0);
      CharOf(t, pos, "\\u", 1);
      BasicEscapeReads(t, pos + 2, cp);
      UnitReads(t, pos, Utf8(cp), pos + 6);
    } else {
      var high, low := 0xD800 + (cp - 0x10000) / 0x400, 0xDC00 + (cp - 0x10000) % 0x400;
      StandsSplit(t, pos, "\\u" + HexText(high) + "\\u", HexText(low));
      StandsSplit(t, pos, "\\u" + HexText(high), "\\u");
      StandsSplit(t, pos, "\\u", HexText(high));
      CharOf(t, pos, "\\u", 0);
      CharOf(t, pos, "\\u", 1);
      PairEscapeReads(t, pos + 2, high, low);
      PairIsScalar(cp);
      UnitReads(t, pos, Utf8(cp), pos + 12);
    }
  }

  lemma ItemReads(t: string, pos: nat, i: Item)
    requires ValidItem(i) && StandsAt(t, pos, ItemText(i))
    ensures pos + |ItemText(i)| <= |t|
    ensures StringRest(t, pos) == Joined(ItemOctets(i), StringRest(t, pos + |ItemText(i)|))
  {
    hide EscapedUnit, UnitEscapes, Utf8;
    if i.Scalar? {
      ScalarReads(t, pos, i.cp);
    } else {
      CharOf(t, pos, ItemText(i), 0);
      if i.Letter? { CharOf(t, pos, ItemText(i), 1); }
    }
  }

  /** Whatever follows, a run of items is read as the octets it stands for. */
  lemma {:induction false} ItemsRead(t: string, pos: nat, items: seq<Item>)
    requires ValidItems(items) && StandsAt(t, pos, ItemsText(items))
    ensures pos + |ItemsText(items)| <= |t|
    ensures StringRest(t, pos) == Joined(ItemsOctets(items), StringRest(t, pos + |ItemsText(items)|))
    decreases |items|
  {
    hide StringRest, StandsAt, ItemText, ItemOctets;
    if items == [] {
      StandsInside(t, pos, "");
      var r := StringRest(t, pos);
      if r.Text? { assert "" + r.value == r.value; }
    } else {
      var first, rest := ItemText(items[0]), ItemsText(items[1..]);
      StandsSplit(t, pos, first, rest);
      ItemReads(t, pos, items[0]);
      ItemsRead(t, pos + |first|, items[1..]);
      JoinTwice(ItemOctets(items[0]), ItemsOctets(items[1..]), StringRest(t, pos + |first| + |rest|));
    }
  }

  /** Every string of characters, letter escapes and scalars in `\u` escapes is read as
      its octets: each scalar, as a surrogate pair above U+FFFF, as its UTF-8 form. */
  lemma ItemsReadBack(items: seq<Item>)
    requires ValidItems(items)
    ensures var t := ['"'] + ItemsText(items) + ['"'];
            FullString(t) == Text(ItemsOctets(items), |t|)
  {
    hide StringRest, ItemsText, ItemsOctets;
    var u := ItemsText(items);
    var t := ['"'] + u + ['"'];
    assert t[1..1 + |u|] == u;
    ItemsRead(t, 1, items);
    QuoteEnds(t, |t| - 1);
    JoinEmpty(ItemsOctets(items), |t|);
    assert SkipWs(t, 0) == 0 && SkipWs(t, |t|) == |t|;
  }

  // ---------------------------------------------------------------- lone surrogates

  /** A surrogate escape that is not the first half of a pair. */
  predicate LoneSurrogate(t: string, pos: nat) {
    && pos + 1 < |t| && t[pos] == '\\' && t[pos + 1] == 'u' && Hex4At(t, pos + 2)
    && 0xD800 <= Hex4(t, pos + 2) <= 0xDFFF
    && !(Hex4(t, pos + 2) <= 0xDBFF && StandsAt(t, pos + 6, "\\u") && Hex4At(t, pos + 8) &&
         0xDC00 <= Hex4(t, pos + 8) <= 0xDFFF)
  }

  /** What the reader does at one place: it passes a character or an escape, or not. */
  datatype Passage = Stops | On(octets: string, next: nat)

  function Next(t: string, pos: nat): (p: Passage)
    requires pos <= |t|
    ensures p.On? ==> pos < p.next <= |t|
  {
    if pos >= |t| || t[pos] == '"' || t[pos] as int < 0x20 then Stops
    else if t[pos] != '\\' then On([t[pos]], pos + 1)
    else if pos + 1 >= |t| then Stops
    else if SimpleEscape(t[pos + 1]) then On([Unescaped(t[pos + 1])], pos + 2)
    else if t[pos + 1] != 'u' then Stops
    else match EscapedUnit(t, pos + 2) case NoText => Stops case Text(octets, e) => On(octets, e)
  }

  /** The reader comes from `start` to `pos` inside one string. */
  predicate Passes(t: string, start: nat, pos: nat)
    requires start <= |t|
    decreases |t| - start
  {
    start == pos || (Next(t, start).On? && Passes(t, Next(t, start).next, pos))
  }

  lemma NextJoins(t: string, pos: nat)
    requires pos <= |t| && Next(t, pos).On?
    ensures StringRest(t, pos) == Joined(Next(t, pos).octets, StringRest(t, Next(t, pos).next))
  {
    hide StringRest, EscapedUnit;
    RestIs(t, pos);
  }

  /** A string that goes wrong further on goes wrong. */
  lemma {:induction false} FailsBefore(t: string, start: nat, pos: nat)
    requires start <= |t| && pos <= |t| && Passes(t, start, pos) && StringRest(t, pos).NoText?
    ensures StringRest(t, start).NoText?
    decreases |t| - start
  {
    hide StringRest, Next;
    if start != pos {
      NextJoins(t, start);
      FailsBefore(t, Next(t, start).next, pos);
    }
  }

  lemma LoneSurrogateStops(t: string, pos: nat)
    requires LoneSurrogate(t, pos)
    ensures pos <= |t| && StringRest(t, pos) == NoText
  {
    if pos + 8 <= |t| && t[pos + 6] == '\\' && t[pos + 7] == 'u' {
      assert t[pos + 6..pos + 8] == "\\u";
    }
  }

  /** A string in which the reader comes upon a lone surrogate escape is refused, whatever
      it passed before, pairs and other escapes included, and whatever follows; so is the
      text of which it is the string. */
  lemma LoneSurrogateRejected(t: string, quote: nat, pos: nat)
    requires quote < |t| && t[quote] == '"' && pos <= |t| && Passes(t, quote + 1, pos) && LoneSurrogate(t, pos)
    ensures StringAt(t, quote) == NoText
    ensures SkipWs(t, 0) == quote ==> FullString(t) == NoText
  {
    hide StringRest, Passes, LoneSurrogate;
    LoneSurrogateStops(t, pos);
    FailsBefore(t, quote + 1, pos);
  }

  /** The same for texts: any items, a lone surrogate, and anything behind it. */
  lemma LoneSurrogateInText(items: seq<Item>, rest: string)
    requires ValidItems(items) && LoneSurrogate(['"'] + ItemsText(items) + rest, 1 + |ItemsText(items)|)
    ensures FullString(['"'] + ItemsText(items) + rest) == NoText
  {
    hide StringRest, ItemsText, ItemsOctets, LoneSurrogate;
    var u := ItemsText(items);
    var t := ['"'] + u + rest;
    assert t[1..1 + |u|] == u;
    ItemsRead(t, 1, items);
    LoneSurrogateStops(t, 1 + |u|);
    assert SkipWs(t, 0) == 0;
  }
}
