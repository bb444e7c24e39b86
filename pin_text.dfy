/**
 * The text conventions of pin strings in a board description: a pin string is split
 * on runs of whitespace into identifiers (as Python's argument-less `str.split()` does),
 * so that `"T9 "` names one pin and `"C2 E1 F1 D2"` four; a connector index is a run
 * of decimal digits.
 */
module PinText {
  import opened Results

  /** The characters on which `str.split()` separates words, those of Python's
   *  `str.isspace()`: tab to carriage return, the four separators U+001C to U+001F, space,
   *  and the Unicode spaces and line or paragraph separators. */
  predicate IsSpace(c: char) {
    || '\t' <= c <= '\r' || '\U{001C}' <= c <= ' '
    || c == '\U{0085}' || c == '\U{00A0}' || c == '\U{1680}' || '\U{2000}' <= c <= '\U{200A}'
    || c == '\U{2028}' || c == '\U{2029}' || c == '\U{202F}' || c == '\U{205F}' || c == '\U{3000}'
  }

  /** A non-empty string without whitespace: what one identifier of a split looks like. */
  predicate IsWord(w: string) {
    w != [] && forall i | 0 <= i < |w| :: !IsSpace(w[i])
  }

  /** A list of identifiers, each a word. */
  predicate Words(ws: seq<string>) {
    forall i | 0 <= i < |ws| :: IsWord(ws[i])
  }

  /** The length of the longest whitespace-free prefix of `s`. */
  function WordLength(s: string): (n: nat)
    ensures n <= |s|
    ensures forall i | 0 <= i < n :: !IsSpace(s[i])
    ensures n < |s| ==> IsSpace(s[n])
  {
    if s == [] || IsSpace(s[0]) then 0 else 1 + WordLength(s[1..])
  }

  /** `s.split()`: the maximal whitespace-free runs of `s`, in order. */
  function Split(s: string): (ws: seq<string>)
    ensures forall i | 0 <= i < |ws| :: IsWord(ws[i])
    decreases |s|
  {
    if s == [] then []
    else if IsSpace(s[0]) then Split(s[1..])
    else
      var n := WordLength(s);
      [s[..n]] + Split(s[n..])
  }

  /** `" ".join(ws)`: the words separated by single spaces. */
  function Join(ws: seq<string>): string {
    if ws == [] then ""
    else if |ws| == 1 then ws[0]
    else ws[0] + " " + Join(ws[1..])
  }

  /** The characters of `s` that are not whitespace, in order. */
  function Visible(s: string): (v: string)
    ensures |v| <= |s|
    ensures forall i | 0 <= i < |v| :: !IsSpace(v[i])
  {
    if s == [] then ""
    else if IsSpace(s[0]) then Visible(s[1..])
    else [s[0]] + Visible(s[1..])
  }

  /** The concatenation of a sequence of strings. */
  function Concat(ws: seq<string>): string {
    if ws == [] then "" else ws[0] + Concat(ws[1..])
  }

  // ---------------------------------------------------------------------------------------
  // Properties of the split

  /** `WordLength` is determined by its postcondition. */
  lemma WordLengthIs(s: string, k: nat)
    requires k <= |s|
    requires forall i | 0 <= i < k :: !IsSpace(s[i])
    requires k < |s| ==> IsSpace(s[k])
    ensures WordLength(s) == k
  {
    if k > 0 {
      WordLengthIs(s[1..], k - 1);
    }
  }

  /** A word followed by whitespace or by nothing splits off as one identifier. */
  lemma SplitWordThen(w: string, rest: string)
    requires IsWord(w)
    requires rest == [] || IsSpace(rest[0])
    ensures Split(w + rest) == [w] + Split(rest)
  {
    var s := w + rest;
    WordLengthIs(s, |w|);
    assert s[..|w|] == w;
    assert s[|w|..] == rest;
  }

  /** Splitting words joined by single spaces gives the words back. */
  lemma {:induction false} SplitJoin(ws: seq<string>)
    requires forall i | 0 <= i < |ws| :: IsWord(ws[i])
    ensures Split(Join(ws)) == ws
  {
    if ws == [] {
    } else if |ws| == 1 {
      SplitWordThen(ws[0], "");
      assert ws[0] + "" == ws[0];
    } else {
      var rest := Join(ws[1..]);
      SplitWordThen(ws[0], " " + rest);
      assert ws[0] + " " + rest == ws[0] + (" " + rest);
      assert (" " + rest)[1..] == rest;
      SplitJoin(ws[1..]);
      assert [ws[0]] + ws[1..] == ws;
    }
  }

  /** Joining two non-empty word lists joins their joins with one space. */
  lemma {:induction false} JoinAppend(a: seq<string>, b: seq<string>)
    requires a != [] && b != []
    ensures Join(a + b) == Join(a) + " " + Join(b)
  {
    if |a| == 1 {
      assert (a + b)[1..] == b;
    } else {
      assert (a + b)[1..] == a[1..] + b;
      JoinAppend(a[1..], b);
    }
  }

  /** A pin string made of two space-separated halves splits into the words of both. */
  lemma SplitHalves(s: string, a: seq<string>, b: seq<string>)
    requires a != [] && b != []
    requires Words(a) && Words(b)
    requires s == Join(a) + " " + Join(b)
    ensures Split(s) == a + b
  {
    JoinAppend(a, b);
    SplitJoin(a + b);
  }

  /** Leading whitespace is skipped. */
  lemma SplitSpaceFirst(c: char, t: string)
    requires IsSpace(c)
    ensures Split([c] + t) == Split(t)
  {
    assert ([c] + t)[1..] == t;
  }

  /** A leading run of `n` non-blank characters, ended by a blank or by the end of the
   *  text, splits off as the first identifier. */
  lemma SplitWordFirst(s: string, n: nat)
    requires 0 < n <= |s| && forall i | 0 <= i < n :: !IsSpace(s[i])
    requires n < |s| ==> IsSpace(s[n])
    ensures Split(s) == [s[..n]] + Split(s[n..])
  {
    WordLengthIs(s, n);
  }

  /** `SplitSeparated` when `a` starts with whitespace: the blank is skipped on both sides. */
  lemma SplitSeparatedSpace(a: string, c: char, b: string)
    requires a != [] && IsSpace(a[0])
    ensures Split(a + [c] + b) == Split(a[1..] + [c] + b) && Split(a) == Split(a[1..])
  {
    var t := a[1..];
    assert a + [c] + b == [a[0]] + (t + [c] + b);
    assert a == [a[0]] + t;
    SplitSpaceFirst(a[0], t + [c] + b);
    SplitSpaceFirst(a[0], t);
  }

  /** `SplitSeparated` when `a` starts with a word that ends inside `a`: the word splits
   *  off on both sides. */
  lemma SplitSeparatedPrefix(a: string, c: char, b: string, n: nat)
    requires a != [] && !IsSpace(a[0]) && n == WordLength(a) && n < |a|
    ensures Split(a + [c] + b) == [a[..n]] + Split(a[n..] + [c] + b)
    ensures Split(a) == [a[..n]] + Split(a[n..])
  {
    var s := a + [c] + b;
    assert forall i | 0 <= i < |a| :: s[i] == a[i];
    SplitWordFirst(a, n);
    SplitWordFirst(s, n);
    assert s[..n] == a[..n];
    assert s[n..] == a[n..] + [c] + b;
  }

  /** `SplitSeparated` when `a` is one word: it splits off, and the split of `b` follows. */
  lemma SplitSeparatedWord(a: string, c: char, b: string)
    requires a != [] && WordLength(a) == |a| && IsSpace(c)
    ensures Split(a + [c] + b) == Split(a) + Split(b)
  {
    var s := a + [c] + b;
    assert forall i | 0 <= i < |a| :: s[i] == a[i];
    SplitWordFirst(s, |a|);
    assert s[..|a|] == a;
    assert s[|a|..] == [c] + b;
    SplitSpaceFirst(c, b);
    SplitWordFirst(a, |a|);
    assert a[..|a|] == a && a[|a|..] == [];
  }

  /** Splitting off a first word on both sides keeps a separation: from `whole == [w] + rest`,
   *  `rest == x + y` and `left == [w] + x` follows `whole == left + y`. */
  lemma ConsSeparation(whole: seq<string>, rest: seq<string>, left: seq<string>, w: string,
                       x: seq<string>, y: seq<string>)
    requires whole == [w] + rest && rest == x + y && left == [w] + x
    ensures whole == left + y
  {
    assert [w] + (x + y) == ([w] + x) + y;
  }

  /** A whitespace character separates: the split of `a c b` is the split of `a` then of `b`. */
  lemma {:induction false} SplitSeparated(a: string, c: char, b: string)
    requires IsSpace(c)
    ensures Split(a + [c] + b) == Split(a) + Split(b)
    decreases |a|
  {
    if a == [] {
      assert a + [c] + b == [c] + b;
      SplitSpaceFirst(c, b);
    } else if IsSpace(a[0]) {
      SplitSeparatedSpace(a, c, b);
      SplitSeparated(a[1..], c, b);
    } else if WordLength(a) < |a| {
      var n := WordLength(a);
      SplitSeparatedPrefix(a, c, b, n);
      SplitSeparated(a[n..], c, b);
      ConsSeparation(Split(a + [c] + b), Split(a[n..] + [c] + b), Split(a), a[..n], Split(a[n..]), Split(b));
    } else {
      SplitSeparatedWord(a, c, b);
    }
  }

  /** Trailing whitespace inside a pin string adds no identifier (`"T9 "` names one pin). */
  lemma SplitTrailingSpace(s: string)
    ensures Split(s + " ") == Split(s)
  {
    SplitSeparated(s, ' ', "");
    assert s + [' '] + "" == s + " ";
  }

  lemma VisibleAppend(a: string, b: string)
    ensures Visible(a + b) == Visible(a) + Visible(b)
  {
    if a != [] {
      assert (a + b)[1..] == a[1..] + b;
      VisibleAppend(a[1..], b);
    } else {
      assert a + b == b;
    }
  }

  lemma VisibleWord(w: string)
    requires forall i | 0 <= i < |w| :: !IsSpace(w[i])
    ensures Visible(w) == w
  {
    if w != [] {
      VisibleWord(w[1..]);
    }
  }

  /** The split drops the whitespace and nothing else: its identifiers, concatenated, are
   *  the visible characters of the string. */
  lemma {:induction false} SplitKeepsText(s: string)
    ensures Concat(Split(s)) == Visible(s)
    decreases |s|
  {
    if s == [] {
    } else if IsSpace(s[0]) {
      SplitKeepsText(s[1..]);
    } else {
      var n := WordLength(s);
      SplitKeepsText(s[n..]);
      assert s == s[..n] + s[n..];
      VisibleAppend(s[..n], s[n..]);
      VisibleWord(s[..n]);
      assert ([s[..n]] + Split(s[n..]))[1..] == Split(s[n..]);
    }
  }

  /** Normalising a pin string (split, then join with single spaces) is idempotent. */
  lemma NormalizeIdempotent(s: string)
    ensures Split(Join(Split(s))) == Split(s)
    ensures Join(Split(Join(Split(s)))) == Join(Split(s))
  {
    SplitJoin(Split(s));
  }

  /** Two words glued together form a word. */
  lemma WordAppend(a: string, b: string)
    requires IsWord(a) && (b == [] || IsWord(b))
    ensures IsWord(a + b)
  {
    assert forall i | 0 <= i < |a + b| :: (a + b)[i] == if i < |a| then a[i] else b[i - |a|];
  }

  // ---------------------------------------------------------------------------------------
  // Decimal indices

  predicate IsDigit(c: char) {
    '0' <= c <= '9'
  }

  predicate AllDigits(s: string) {
    forall i | 0 <= i < |s| :: IsDigit(s[i])
  }

  /** The value of a string of decimal digits, most significant first. */
  function DigitsValue(s: string): nat
    requires AllDigits(s)
  {
    if s == [] then 0
    else 10 * DigitsValue(s[..|s| - 1]) + (s[|s| - 1] - '0') as nat
  }

  /** `int(pn)` guarded by `pn.isdigit()`: a non-empty run of digits is an index. */
  function ParseIndex(s: string): (r: Option<nat>)
    ensures r.Some? <==> s != [] && AllDigits(s)
  {
    if s != [] && AllDigits(s) then Some(DigitsValue(s)) else None
  }

  /** The decimal text of a number, as `str(n)` writes it. */
  function DecimalText(n: nat): (s: string)
    ensures s != [] && AllDigits(s)
    ensures |s| > 1 ==> s[0] != '0'
  {
    var d := ['0' + (n % 10) as char];
    if n < 10 then d else DecimalText(n / 10) + d
  }

  /** Reading back the decimal text of a number gives the number. */
  lemma {:induction false} ParseDecimalText(n: nat)
    ensures ParseIndex(DecimalText(n)) == Some(n)
  {
    var s := DecimalText(n);
    var d := '0' + (n % 10) as char;
    assert (d - '0') as nat == n % 10;
    if n < 10 {
      assert s == [d] && s[..0] == [];
      assert DigitsValue(s) == 10 * DigitsValue([]) + (d - '0') as nat;
    } else {
      ParseDecimalText(n / 10);
      assert s[..|s| - 1] == DecimalText(n / 10);
      assert s[|s| - 1] == d;
    }
  }
}
