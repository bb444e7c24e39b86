/**
 * Resource records of a board description and the lookups a platform makes in a table
 * of them: a resource is found by name, and by index when one is given, the first match
 * in table order winning; `name:sub` asks for the sub-signal `sub` of a compound resource.
 */
module Resources {
  import opened Results
  import opened PinText
  import opened Connectors

  /** An electrical attribute attached to a resource or to one of its sub-signals. */
  datatype Attribute = IOStandard(standard: string) | Misc(setting: string)

  /** One named line group of a compound resource. */
  datatype Subsignal = Subsignal(name: string, pins: Pins, attributes: seq<Attribute>)

  /** A named, indexed board function: either one pin group, or named sub-signals. */
  datatype Resource =
    | Simple(name: string, index: nat, pins: Pins, attributes: seq<Attribute>)
    | Compound(name: string, index: nat, subsignals: seq<Subsignal>, attributes: seq<Attribute>)

  /** The `(name, index)` pair that identifies a resource. */
  function Key(r: Resource): (string, nat) {
    (r.name, r.index)
  }

  /** No two entries share a `(name, index)` pair. */
  predicate UniqueKeys(rs: seq<Resource>) {
    forall i, j | 0 <= i < j < |rs| :: Key(rs[i]) != Key(rs[j])
  }

  /** Every entry of the table is named from `names`. */
  predicate NamedFrom(rs: seq<Resource>, names: set<string>) {
    forall i | 0 <= i < |rs| :: rs[i].name in names
  }

  /** A section of a table that is one name numbered 0, 1, 2, ... in order. */
  predicate Run(rs: seq<Resource>, name: string) {
    forall i | 0 <= i < |rs| :: rs[i].name == name && rs[i].index == i
  }

  /** The numbers `0, 1, ..., n - 1`, in order. */
  function Upto(n: nat): seq<nat> {
    seq(n, i requires 0 <= i < n => i)
  }

  /** The sections of a table, one after the other. */
  function Flatten(parts: seq<seq<Resource>>): seq<Resource> {
    if parts == [] then [] else parts[0] + Flatten(parts[1..])
  }

  /** The union of a sequence of name sets. */
  function Union(names: seq<set<string>>): set<string> {
    if names == [] then {} else names[0] + Union(names[1..])
  }

  /** The indices of the entries named `name`, in table order. */
  function IndicesOf(rs: seq<Resource>, name: string): seq<nat> {
    if rs == [] then []
    else if rs[0].name == name then [rs[0].index] + IndicesOf(rs[1..], name)
    else IndicesOf(rs[1..], name)
  }

  /** `IndicesOf` lists exactly the indices that entries named `name` carry. */
  lemma {:induction false} IndicesOfMembers(rs: seq<Resource>, name: string, k: nat)
    ensures k in IndicesOf(rs, name) <==> exists i | 0 <= i < |rs| :: rs[i].name == name && rs[i].index == k
  {
    if rs != [] {
      IndicesOfMembers(rs[1..], name, k);
      assert forall i | 0 <= i < |rs| - 1 :: rs[1..][i] == rs[i + 1];
      if rs[0].name == name && rs[0].index == k {
        assert k in IndicesOf(rs, name);
      }
    }
  }

  /** Whether entry `r` answers a request for `name` (and for index `number`, if given). */
  predicate Matches(r: Resource, name: string, number: Option<nat>) {
    r.name == name && (number.None? || r.index == number.value)
  }

  /** The first entry answering the request, if any. */
  function FindResource(rs: seq<Resource>, name: string, number: Option<nat>): (r: Option<Resource>)
    ensures r.None? <==> forall i | 0 <= i < |rs| :: !Matches(rs[i], name, number)
    ensures r.Some? ==> exists i | 0 <= i < |rs| :: rs[i] == r.value && Matches(rs[i], name, number)
                          && forall j | 0 <= j < i :: !Matches(rs[j], name, number)
  {
    if rs == [] then None
    else if Matches(rs[0], name, number) then Some(rs[0])
    else
      var r := FindResource(rs[1..], name, number);
      assert forall i | 0 <= i < |rs| - 1 :: rs[1..][i] == rs[i + 1];
      r
  }

  /** The first sub-signal called `name`, if any. */
  function FindSubsignal(ss: seq<Subsignal>, name: string): (r: Option<Subsignal>)
    ensures r.None? <==> forall i | 0 <= i < |ss| :: ss[i].name != name
    ensures r.Some? ==> exists i | 0 <= i < |ss| :: ss[i] == r.value && ss[i].name == name
                          && forall j | 0 <= j < i :: ss[j].name != name
  {
    if ss == [] then None
    else if ss[0].name == name then Some(ss[0])
    else
      var r := FindSubsignal(ss[1..], name);
      assert forall i | 0 <= i < |ss| - 1 :: ss[1..][i] == ss[i + 1];
      r
  }

  /** What a request returns: a whole resource, or one sub-signal of a compound one. */
  datatype Signal = Whole(resource: Resource) | Part(resource: Resource, subsignal: Subsignal)

  /** The pin group of a signal; a whole compound resource has none of its own. */
  function SignalPins(s: Signal): Option<Pins> {
    match s
    case Whole(r) => if r.Simple? then Some(r.pins) else None
    case Part(_, sub) => Some(sub.pins)
  }

  /** A request `name` or `name:sub`, answered from the table (`None` when nothing matches). */
  function LookupRequest(rs: seq<Resource>, path: string, number: Option<nat>): (r: Option<Signal>)
    ensures ':' !in path ==> r == (match FindResource(rs, path, number)
                                  case None => None
                                  case Some(res) => Some(Whole(res)))
    ensures r.Some? && r.value.Part? ==>
              path == r.value.resource.name + ":" + r.value.subsignal.name
              && FindResource(rs, r.value.resource.name, number) == Some(r.value.resource)
              && r.value.resource.Compound?
              && FindSubsignal(r.value.resource.subsignals, r.value.subsignal.name) == Some(r.value.subsignal)
  {
    match Classify(path)
    case Literal(name) =>
      (match FindResource(rs, name, number)
       case None => None
       case Some(res) => Some(Whole(res)))
    case Malformed(_) => None
    case Reference(name, sub) =>
      match FindResource(rs, name, number)
      case None => None
      case Some(res) =>
        if res.Simple? then None
        else
          match FindSubsignal(res.subsignals, sub)
          case None => None
          case Some(s) => Some(Part(res, s))
  }

  // ---------------------------------------------------------------------------------------
  // Lemmas about tables

  /** Two tables without key clashes whose names come from disjoint sets concatenate to a
   *  table without key clashes. */
  lemma UniqueAppend(a: seq<Resource>, b: seq<Resource>, na: set<string>, nb: set<string>)
    requires UniqueKeys(a) && UniqueKeys(b)
    requires NamedFrom(a, na) && NamedFrom(b, nb) && na !! nb
    ensures UniqueKeys(a + b) && NamedFrom(a + b, na + nb)
  {
    forall i, j | 0 <= i < j < |a + b| ensures Key((a + b)[i]) != Key((a + b)[j]) {
      if i < |a| && j >= |a| {
        assert (a + b)[i].name in na;
        assert (a + b)[j] == b[j - |a|];
      } else if i >= |a| {
        assert (a + b)[i] == b[i - |a|] && (a + b)[j] == b[j - |a|];
      }
    }
    forall i | 0 <= i < |a + b| ensures (a + b)[i].name in na + nb {
      if i >= |a| { assert (a + b)[i] == b[i - |a|]; }
    }
  }

  /** A numbered run has unique keys. */
  lemma RunUnique(rs: seq<Resource>, name: string)
    requires Run(rs, name)
    ensures UniqueKeys(rs) && NamedFrom(rs, {name})
  {
  }

  lemma IndicesOfAppend(a: seq<Resource>, b: seq<Resource>, name: string)
    ensures IndicesOf(a + b, name) == IndicesOf(a, name) + IndicesOf(b, name)
  {
    if a != [] {
      assert (a + b)[1..] == a[1..] + b;
      IndicesOfAppend(a[1..], b, name);
    } else {
      assert a + b == b;
    }
  }

  /** A table that does not use `name` has no indices for it. */
  lemma IndicesOfAbsent(rs: seq<Resource>, names: set<string>, name: string)
    requires NamedFrom(rs, names) && name !in names
    ensures IndicesOf(rs, name) == []
  {
    if rs != [] {
      IndicesOfAbsent(rs[1..], names, name);
    }
  }

  /** In a run starting at `base`, the indices of its name are `base, base + 1, ...`. */
  lemma {:induction false} IndicesOfRun(rs: seq<Resource>, name: string, base: nat)
    requires forall i | 0 <= i < |rs| :: rs[i].name == name && rs[i].index == base + i
    ensures IndicesOf(rs, name) == seq(|rs|, i requires 0 <= i < |rs| => base + i)
  {
    if rs != [] {
      var rest := rs[1..];
      assert forall i | 0 <= i < |rest| :: rest[i] == rs[i + 1];
      IndicesOfRun(rest, name, base + 1);
      assert IndicesOf(rs, name) == [base] + IndicesOf(rest, name);
    }
  }

  /** Under unique keys, asking for an entry's own name and index finds that entry. */
  lemma FindUnique(rs: seq<Resource>, k: nat)
    requires UniqueKeys(rs) && k < |rs|
    ensures FindResource(rs, rs[k].name, Some(rs[k].index)) == Some(rs[k])
  {
    var r := FindResource(rs, rs[k].name, Some(rs[k].index));
    assert Matches(rs[k], rs[k].name, Some(rs[k].index));
    var i :| 0 <= i < |rs| && rs[i] == r.value && Matches(rs[i], rs[k].name, Some(rs[k].index))
             && forall j | 0 <= j < i :: !Matches(rs[j], rs[k].name, Some(rs[k].index));
    assert k >= i;
    assert Key(rs[i]) == Key(rs[k]);
  }

  /** The identifiers a request resolves to, when it names a pin group. */
  function RequestIdentifiers(rs: seq<Resource>, path: string, number: Option<nat>): Option<seq<string>> {
    match LookupRequest(rs, path, number)
    case None => None
    case Some(sig) =>
      match SignalPins(sig)
      case None => None
      case Some(p) => Some(Identifiers(p))
  }

  /** The first matching entry is the answer. */
  lemma FindAt(rs: seq<Resource>, k: nat, name: string, number: Option<nat>)
    requires k < |rs| && Matches(rs[k], name, number)
    requires forall j | 0 <= j < k :: !Matches(rs[j], name, number)
    ensures FindResource(rs, name, number) == Some(rs[k])
  {
    var r := FindResource(rs, name, number);
    var i :| 0 <= i < |rs| && rs[i] == r.value && Matches(rs[i], name, number)
             && forall j | 0 <= j < i :: !Matches(rs[j], name, number);
    assert i == k;
  }

  /** The first sub-signal with the name is the answer. */
  lemma FindSubsignalAt(ss: seq<Subsignal>, k: nat, name: string)
    requires k < |ss| && ss[k].name == name
    requires forall j | 0 <= j < k :: ss[j].name != name
    ensures FindSubsignal(ss, name) == Some(ss[k])
  {
    var r := FindSubsignal(ss, name);
    var i :| 0 <= i < |ss| && ss[i] == r.value && ss[i].name == name
             && forall j | 0 <= j < i :: ss[j].name != name;
    assert i == k;
  }

  /** The identifiers of a request for a simple entry are those of its pins. */
  lemma RequestWhole(rs: seq<Resource>, name: string, number: Option<nat>)
    requires ':' !in name
    requires FindResource(rs, name, number).Some? && FindResource(rs, name, number).value.Simple?
    ensures RequestIdentifiers(rs, name, number) == Some(Identifiers(FindResource(rs, name, number).value.pins))
  {
  }

  /** A request `name:sub` for a compound entry found under `name` answers with its first
   *  sub-signal called `sub`, and so with that sub-signal's identifiers. */
  lemma LookupPart(rs: seq<Resource>, path: string, name: string, sub: string, number: Option<nat>, k: nat)
    requires Classify(path) == Reference(name, sub)
    requires FindResource(rs, name, number).Some? && FindResource(rs, name, number).value.Compound?
    requires var r := FindResource(rs, name, number).value;
             k < |r.subsignals| && r.subsignals[k].name == sub
             && forall j | 0 <= j < k :: r.subsignals[j].name != sub
    ensures var r := FindResource(rs, name, number).value;
            LookupRequest(rs, path, number) == Some(Part(r, r.subsignals[k]))
            && RequestIdentifiers(rs, path, number) == Some(Identifiers(r.subsignals[k].pins))
  {
    var r := FindResource(rs, name, number).value;
    FindSubsignalAt(r.subsignals, k, sub);
  }

  /** Looking up in `a + b` answers from `a` when `a` has a match, and from `b` otherwise. */
  lemma {:induction false} FindResourceAppend(a: seq<Resource>, b: seq<Resource>, name: string, number: Option<nat>)
    ensures FindResource(a + b, name, number) ==
              if FindResource(a, name, number).Some? then FindResource(a, name, number)
              else FindResource(b, name, number)
  {
    if a == [] {
      assert a + b == b;
    } else {
      assert (a + b)[1..] == a[1..] + b;
      FindResourceAppend(a[1..], b, name, number);
    }
  }

  /** A lookup in `a + b` that `a` answers is answered by `a`. */
  lemma FindAppendLeft(a: seq<Resource>, b: seq<Resource>, name: string, number: Option<nat>)
    requires FindResource(a, name, number).Some?
    ensures FindResource(a + b, name, number) == FindResource(a, name, number)
  {
    FindResourceAppend(a, b, name, number);
  }

  /** A lookup in `a + b` that `a` does not answer is answered by `b`. */
  lemma FindAppendRight(a: seq<Resource>, b: seq<Resource>, name: string, number: Option<nat>)
    requires FindResource(a, name, number).None?
    ensures FindResource(a + b, name, number) == FindResource(b, name, number)
  {
    FindResourceAppend(a, b, name, number);
  }

  /** A table that does not use `name` has no match for it. */
  lemma FindAbsent(rs: seq<Resource>, names: set<string>, name: string, number: Option<nat>)
    requires NamedFrom(rs, names) && name !in names
    ensures FindResource(rs, name, number) == None
  {
  }

  /** Sections with unique keys and pairwise disjoint name sets form a table with unique keys. */
  lemma {:induction false} FlattenUnique(parts: seq<seq<Resource>>, names: seq<set<string>>)
    requires |names| == |parts|
    requires forall j | 0 <= j < |parts| :: UniqueKeys(parts[j]) && NamedFrom(parts[j], names[j])
    requires forall i, j | 0 <= i < j < |names| :: names[i] !! names[j]
    ensures UniqueKeys(Flatten(parts)) && NamedFrom(Flatten(parts), Union(names))
  {
    if parts != [] {
      FlattenUnique(parts[1..], names[1..]);
      forall x | x in Union(names[1..]) ensures x !in names[0] {
        UnionMember(names[1..], x);
        var j :| 0 <= j < |names[1..]| && x in names[1..][j];
        assert names[0] !! names[j + 1];
      }
      UniqueAppend(parts[0], Flatten(parts[1..]), names[0], Union(names[1..]));
    }
  }

  lemma {:induction false} UnionMember(names: seq<set<string>>, x: string)
    ensures x in Union(names) <==> exists j | 0 <= j < |names| :: x in names[j]
  {
    if names != [] {
      UnionMember(names[1..], x);
      if x in names[0] {
        assert x in names[0];
      } else if x in Union(names[1..]) {
        var j :| 0 <= j < |names[1..]| && x in names[1..][j];
        assert x in names[j + 1];
      } else {
        forall j | 0 <= j < |names| ensures x !in names[j] {
          if j > 0 { assert names[j] == names[1..][j - 1]; }
        }
      }
    }
  }

  /** When every section but section `k` avoids `name`, the indices of `name` in the whole
   *  table are those in section `k`. */
  lemma {:induction false} FlattenIndices(parts: seq<seq<Resource>>, names: seq<set<string>>, k: nat, name: string)
    requires |names| == |parts| && k < |parts|
    requires forall j | 0 <= j < |parts| :: NamedFrom(parts[j], names[j])
    requires forall j | 0 <= j < |parts| && j != k :: name !in names[j]
    ensures IndicesOf(Flatten(parts), name) == IndicesOf(parts[k], name)
  {
    IndicesOfAppend(parts[0], Flatten(parts[1..]), name);
    if k == 0 {
      FlattenAbsent(parts[1..], names[1..], name);
    } else {
      IndicesOfAbsent(parts[0], names[0], name);
      FlattenIndices(parts[1..], names[1..], k - 1, name);
    }
  }

  lemma {:induction false} FlattenAbsent(parts: seq<seq<Resource>>, names: seq<set<string>>, name: string)
    requires |names| == |parts|
    requires forall j | 0 <= j < |parts| :: NamedFrom(parts[j], names[j]) && name !in names[j]
    ensures IndicesOf(Flatten(parts), name) == []
  {
    if parts != [] {
      IndicesOfAppend(parts[0], Flatten(parts[1..]), name);
      IndicesOfAbsent(parts[0], names[0], name);
      FlattenAbsent(parts[1..], names[1..], name);
    }
  }

  /** A first section that does not use `name` does not change the answer for it. */
  lemma FlattenSkip(parts: seq<seq<Resource>>, names: seq<set<string>>, name: string, number: Option<nat>)
    requires parts != [] && names != [] && NamedFrom(parts[0], names[0]) && name !in names[0]
    ensures FindResource(Flatten(parts), name, number) == FindResource(Flatten(parts[1..]), name, number)
  {
    assert Flatten(parts) == parts[0] + Flatten(parts[1..]);
    FindAbsent(parts[0], names[0], name, number);
    FindAppendRight(parts[0], Flatten(parts[1..]), name, number);
  }

  /** When the sections before section `k` avoid `name`, a request that section `k` answers
   *  is answered the same way by the whole table. */
  lemma {:induction false} FlattenFind(parts: seq<seq<Resource>>, names: seq<set<string>>, k: nat, name: string,
                                      number: Option<nat>)
    requires |names| == |parts| && k < |parts|
    requires forall j | 0 <= j < k :: NamedFrom(parts[j], names[j]) && name !in names[j]
    requires FindResource(parts[k], name, number).Some?
    ensures FindResource(Flatten(parts), name, number) == FindResource(parts[k], name, number)
  {
    if k == 0 {
      assert Flatten(parts) == parts[0] + Flatten(parts[1..]);
      FindAppendLeft(parts[0], Flatten(parts[1..]), name, number);
    } else {
      FlattenSkip(parts, names, name, number);
      var ps, ns := parts[1..], names[1..];
      assert ps[k - 1] == parts[k];
      forall j | 0 <= j < k - 1 ensures NamedFrom(ps[j], ns[j]) && name !in ns[j] {
        assert ps[j] == parts[j + 1] && ns[j] == names[j + 1];
      }
      FlattenFind(ps, ns, k - 1, name, number);
    }
  }
}
