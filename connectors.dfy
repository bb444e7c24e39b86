/**
 * Connector registry and pin references. A connector is a named header whose pin string
 * splits into an ordered pin list (index 0 is the first listed pin). An identifier
 * `conn:i` of a `Pins(...)` refers to pin `i` of connector `conn`; any identifier without
 * a colon is a physical pin name and passes through unchanged.
 */
module Connectors {
  import opened Results
  import opened PinText

  /** `Pins("A3 B4", "C5")`: the pin strings as written; the identifiers are their splits. */
  datatype Pins = Pins(strings: seq<string>)

  /** The identifiers of a `Pins(...)`: each string split on whitespace, in order. */
  function Identifiers(p: Pins): seq<string>
    decreases |p.strings|
  {
    if p.strings == [] then []
    else Split(p.strings[0]) + Identifiers(Pins(p.strings[1..]))
  }

  /** Every identifier is a word: non-empty, with no whitespace in it. */
  lemma {:induction false} IdentifiersAreWords(p: Pins)
    ensures Words(Identifiers(p))
    decreases |p.strings|
  {
    if p.strings != [] {
      var head, rest := Split(p.strings[0]), Identifiers(Pins(p.strings[1..]));
      IdentifiersAreWords(Pins(p.strings[1..]));
      forall i | 0 <= i < |head + rest| ensures IsWord((head + rest)[i]) {
        if i >= |head| { assert (head + rest)[i] == rest[i - |head|]; }
      }
    }
  }

  /** The identifiers of `Pins(s, rest...)` are those of `s` followed by those of the rest. */
  lemma IdentifiersCons(s: string, rest: seq<string>)
    ensures Identifiers(Pins([s] + rest)) == Split(s) + Identifiers(Pins(rest))
  {
    assert ([s] + rest)[1..] == rest;
  }

  /** A pin group of two strings names the pins of each, in order. */
  lemma TwoStrings(a: string, b: string)
    ensures Identifiers(Pins([a, b])) == Split(a) + Split(b)
  {
    IdentifiersCons(a, [b]);
    IdentifiersCons(b, []);
    assert [a] + [b] == [a, b];
    assert [b] + [] == [b];
  }

  /** A pin group of three strings names the pins of each, in order. */
  lemma ThreeStrings(a: string, b: string, c: string)
    ensures Identifiers(Pins([a, b, c])) == Split(a) + (Split(b) + Split(c))
  {
    IdentifiersCons(a, [b, c]);
    TwoStrings(b, c);
    assert [a] + [b, c] == [a, b, c];
  }

  /** A connector registry: connector name to its pin list. */
  type ConnectorTable = map<string, seq<string>>

  /** The registry built from `(name, pin string)` pairs. It is meant for lists whose names
   *  are distinct (`DistinctNames`), the only lists LiteX's connector manager accepts; on
   *  such a list the order of insertion does not matter (`BuildTableDistinct`). */
  function BuildTable(conns: seq<(string, string)>): ConnectorTable {
    if conns == [] then map[]
    else
      var last := conns[|conns| - 1];
      BuildTable(conns[..|conns| - 1])[last.0 := Split(last.1)]
  }

  /** Every listed connector is registered, and every registered connector is registered
   *  with the split of the pin string of one of its listings. */
  lemma {:induction false} BuildTableFacts(conns: seq<(string, string)>)
    ensures forall i | 0 <= i < |conns| :: conns[i].0 in BuildTable(conns)
    ensures forall name | name in BuildTable(conns) ::
              exists i | 0 <= i < |conns| :: conns[i].0 == name && BuildTable(conns)[name] == Split(conns[i].1)
  {
    if conns != [] {
      var init := conns[..|conns| - 1];
      BuildTableFacts(init);
      assert forall i | 0 <= i < |init| :: init[i] == conns[i];
    }
  }

  /** Connector names that occur once each. */
  predicate DistinctNames(conns: seq<(string, string)>) {
    forall i, j | 0 <= i < j < |conns| :: conns[i].0 != conns[j].0
  }

  /** With distinct names, each connector's registry entry is the split of its pin string. */
  lemma BuildTableDistinct(conns: seq<(string, string)>)
    requires DistinctNames(conns)
    ensures (BuildTable(conns)).Keys == set i | 0 <= i < |conns| :: conns[i].0
    ensures forall i | 0 <= i < |conns| :: BuildTable(conns)[conns[i].0] == Split(conns[i].1)
  {
    var t := BuildTable(conns);
    BuildTableFacts(conns);
    forall i | 0 <= i < |conns| ensures t[conns[i].0] == Split(conns[i].1) {
      var j :| 0 <= j < |conns| && conns[j].0 == conns[i].0 && t[conns[i].0] == Split(conns[j].1);
      assert i == j;
    }
  }

  /** How an identifier reads: a pin name, a `connector:position` reference, or text that
   *  has more than one colon and so does not unpack into a connector and a position. */
  datatype PinToken =
    | Literal(pin: string)
    | Reference(connector: string, position: string)
    | Malformed(token: string)

  /** The index of the first occurrence of `c` in `s`. */
  function FirstIndexOf(s: string, c: char): (k: nat)
    requires c in s
    ensures k < |s| && s[k] == c && c !in s[..k]
  {
    if s[0] == c then 0
    else
      assert c in s[1..] by { var j :| 0 <= j < |s| && s[j] == c; assert s[1..][j - 1] == c; }
      var k := FirstIndexOf(s[1..], c);
      assert s[..k + 1] == [s[0]] + s[1..][..k];
      k + 1
  }

  /** The first occurrence is the one with no earlier occurrence. */
  lemma FirstIndexOfIs(s: string, c: char, k: nat)
    requires k < |s| && s[k] == c && c !in s[..k]
    ensures c in s && FirstIndexOf(s, c) == k
  {
    if k > 0 {
      assert s[0] in s[..k];
      assert s[1..][k - 1] == c;
      assert s[1..][..k - 1] == s[..k][1..];
      FirstIndexOfIs(s[1..], c, k - 1);
    }
  }

  /** Classifies one identifier the way `identifier.split(":")` unpacked into two names does. */
  function Classify(tok: string): (t: PinToken)
    ensures t.Literal? <==> ':' !in tok
    ensures t.Literal? ==> t.pin == tok
    ensures t.Reference? ==> (tok == t.connector + ":" + t.position
                              && ':' !in t.connector && ':' !in t.position)
    ensures t.Malformed? ==> t.token == tok
  {
    if ':' !in tok then Literal(tok)
    else
      var k := FirstIndexOf(tok, ':');
      var conn, pos := tok[..k], tok[k + 1..];
      if ':' in pos then Malformed(tok)
      else
        assert tok == conn + ":" + pos;
        Reference(conn, pos)
  }

  /** `a:b` with no other colon reads as a reference from `a` to `b`. */
  lemma ClassifyPair(a: string, b: string)
    requires ':' !in a && ':' !in b
    ensures Classify(a + ":" + b) == Reference(a, b)
  {
    var tok := a + ":" + b;
    assert tok[|a|] == ':';
    assert tok[..|a|] == a;
    FirstIndexOfIs(tok, ':', |a|);
    assert tok[|a| + 1..] == b;
  }

  /** The text of a reference to pin `i` of connector `conn`: `f"{conn}:{i}"`. */
  function RefText(conn: string, i: nat): string {
    conn + ":" + DecimalText(i)
  }

  /** The text of a reference reads back as that reference. */
  lemma ClassifyRefText(conn: string, i: nat)
    requires ':' !in conn
    ensures Classify(RefText(conn, i)) == Reference(conn, DecimalText(i))
    ensures ParseIndex(DecimalText(i)) == Some(i)
  {
    var d := DecimalText(i);
    assert ':' !in d by {
      forall j | 0 <= j < |d| ensures d[j] != ':' { assert IsDigit(d[j]); }
    }
    ClassifyPair(conn, d);
    ParseDecimalText(i);
  }

  datatype PinError =
    | MalformedIdentifier(token: string)
    | UnknownConnector(connector: string)
    | NonNumericIndex(token: string)
    | IndexOutOfRange(connector: string, index: nat)

  /** Resolves one identifier against a registry: a pin name stands for itself, `conn:i`
   *  for the i-th pin of `conn`. The connector is looked up before the position is read. */
  function ResolveIdentifier(table: ConnectorTable, tok: string): (r: Result<string, PinError>)
    ensures ':' !in tok ==> r == Ok(tok)
    ensures r.Ok? && ':' in tok ==>
              (var t := Classify(tok);
               t.Reference? && t.connector in table && ParseIndex(t.position).Some?
               && ParseIndex(t.position).value < |table[t.connector]|
               && r.value == table[t.connector][ParseIndex(t.position).value])
  {
    match Classify(tok)
    case Literal(pin) => Ok(pin)
    case Malformed(_) => Err(MalformedIdentifier(tok))
    case Reference(conn, pos) =>
      if conn !in table then Err(UnknownConnector(conn))
      else
        match ParseIndex(pos)
        case None => Err(NonNumericIndex(tok))
        case Some(i) =>
          if i < |table[conn]| then Ok(table[conn][i]) else Err(IndexOutOfRange(conn, i))
  }

  /** Resolving `conn:i`: the i-th listed pin when `i` is below the pin count, and an error
   *  naming the connector otherwise (`i == |pins|` is the first index out of range). */
  lemma ResolveReference(table: ConnectorTable, conn: string, i: nat)
    requires ':' !in conn
    ensures conn !in table ==> ResolveIdentifier(table, RefText(conn, i)) == Err(UnknownConnector(conn))
    ensures conn in table && i < |table[conn]| ==>
              ResolveIdentifier(table, RefText(conn, i)) == Ok(table[conn][i])
    ensures conn in table && |table[conn]| <= i ==>
              ResolveIdentifier(table, RefText(conn, i)) == Err(IndexOutOfRange(conn, i))
  {
    ClassifyRefText(conn, i);
  }

  /** Resolves every identifier in order; the first failure is the result. */
  function ResolveAll(table: ConnectorTable, toks: seq<string>): (r: Result<seq<string>, PinError>)
    ensures r.Ok? <==> forall i | 0 <= i < |toks| :: ResolveIdentifier(table, toks[i]).Ok?
    ensures r.Ok? ==> |r.value| == |toks|
                      && forall i | 0 <= i < |toks| :: ResolveIdentifier(table, toks[i]) == Ok(r.value[i])
    ensures r.Err? ==> exists i | 0 <= i < |toks| :: ResolveIdentifier(table, toks[i]) == Err(r.error)
                                                    && forall j | 0 <= j < i :: ResolveIdentifier(table, toks[j]).Ok?
  {
    if toks == [] then Ok([])
    else
      var head := ResolveIdentifier(table, toks[0]);
      if head.Err? then Err(head.error)
      else
        var rest := ResolveAll(table, toks[1..]);
        assert forall j | 0 <= j < |toks| - 1 :: toks[1..][j] == toks[j + 1];
        if rest.Err? then Err(rest.error) else Ok([head.value] + rest.value)
  }

  /** The references `conn:i` for the positions `idx`, in order. */
  function Refs(conn: string, idx: seq<nat>): (ids: seq<string>)
    ensures |ids| == |idx|
  {
    seq(|idx|, k requires 0 <= k < |idx| => RefText(conn, idx[k]))
  }

  /** The pins at positions `idx` of a pin list, in order. */
  function Pick(pins: seq<string>, idx: seq<nat>): seq<string>
    requires forall k | 0 <= k < |idx| :: idx[k] < |pins|
  {
    seq(|idx|, k requires 0 <= k < |idx| => pins[idx[k]])
  }

  /** References into a registered connector, all within its pin count, resolve to the
   *  pins at those positions, in order. */
  lemma ResolveRefs(table: ConnectorTable, conn: string, idx: seq<nat>)
    requires ':' !in conn && conn in table
    requires forall k | 0 <= k < |idx| :: idx[k] < |table[conn]|
    ensures ResolveAll(table, Refs(conn, idx)) == Ok(Pick(table[conn], idx))
  {
    var toks := Refs(conn, idx);
    forall k | 0 <= k < |idx|
      ensures ResolveIdentifier(table, toks[k]) == Ok(table[conn][idx[k]])
    {
      ResolveReference(table, conn, idx[k]);
    }
    var r := ResolveAll(table, toks);
    assert r.Ok?;
    assert forall k | 0 <= k < |idx| :: r.value[k] == table[conn][idx[k]];
    assert r.value == Pick(table[conn], idx);
  }

  /** A list of identifiers with no colon resolves to itself, whatever the registry. */
  lemma {:induction false} ResolvePhysicalPins(table: ConnectorTable, toks: seq<string>)
    requires forall i | 0 <= i < |toks| :: ':' !in toks[i]
    ensures ResolveAll(table, toks) == Ok(toks)
  {
    if toks != [] {
      ResolvePhysicalPins(table, toks[1..]);
      assert [toks[0]] + toks[1..] == toks;
    }
  }
}
