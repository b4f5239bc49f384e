/** Files of `key=value` lines, as both the lease store and the Ethernet configuration
    read them. */
module KeyValueText {

  function IndexOf(t: string, c: char): (i: nat)
    ensures i <= |t| && (i < |t| ==> t[i] == c) && forall j :: 0 <= j < i ==> t[j] != c
  {
    if t == "" || t[0] == c then 0 else IndexOf(t[1..], c) + 1
  }

  predicate Without(t: string, c: char) { forall i :: 0 <= i < |t| ==> t[i] != c }
  predicate OneLine(t: string) { Without(t, '\n') }
  predicate PlainKey(t: string) { Without(t, '\n') && Without(t, '=') }

  function FirstLine(t: string): string { t[..IndexOf(t, '\n')] }

  /** What is left behind the first line. */
  function OtherLines(t: string): (r: string)
    ensures t != "" ==> |r| < |t|
  {
    if IndexOf(t, '\n') < |t| then t[IndexOf(t, '\n') + 1..] else ""
  }

  /** A line without an equals sign is no entry. */
  datatype Entry = NoEntry | Entry(key: string, value: string)

  function EntryOf(line: string): Entry {
    var i := IndexOf(line, '=');
    if i == |line| then NoEntry else Entry(line[..i], line[i + 1..])
  }

  function Line(key: string, value: string): string { key + "=" + value + "\n" }

  /** A line from its literal beginning, its value and the newline. */
  function Row(prefix: string, value: string): string { prefix + value + "\n" }

  lemma RowIs(key: string, prefix: string, value: string)
    requires prefix == key + "="
    ensures Line(key, value) == Row(prefix, value)
  {
  }

  lemma FoundAt(a: string, c: char, b: string)
    requires Without(a, c)
    ensures IndexOf(a + [c] + b, c) == |a|
    ensures (a + [c] + b)[..|a|] == a && (a + [c] + b)[|a| + 1..] == b
  {
    var t := a + [c] + b;
    assert t[|a|] == c;
    assert forall j :: 0 <= j < |a| ==> t[j] == a[j];
  }

  /** A printed line reads back as its entry, and what follows it is untouched. */
  lemma LineReads(key: string, value: string, rest: string)
    requires PlainKey(key) && OneLine(value)
    ensures var t := Line(key, value) + rest;
            t != "" && EntryOf(FirstLine(t)) == Entry(key, value) && OtherLines(t) == rest
  {
    var line := key + "=" + value;
    var t := Line(key, value) + rest;
    assert t == line + ['\n'] + rest;
    FoundAt(line, '\n', rest);
    FoundAt(key, '=', value);
    assert line == key + ['='] + value;
  }
}
