/**
  The names `create_tests` gives to the cases of the sweep:
  `"r_{}.w_{}.l_{}.c_{}".format(read_rate, write_rate, latency, capacity)`,
  and a parser that reads a name back into its coordinates.
 */
module CaseNames {
  import opened Wrappers
  import opened Decimal

  /** One point of the design space: the four connection settings of a case. */
  datatype Case = Case(readRate: int, writeRate: int, latency: int, capacity: int)

  function CaseName(c: Case): string
  {
    "r_" + DecimalText(c.readRate) + ".w_" + DecimalText(c.writeRate)
      + ".l_" + DecimalText(c.latency) + ".c_" + DecimalText(c.capacity)
  }

  /** Position of the first `sep` in `s`, or `|s|` when there is none. */
  function IndexOf(s: string, sep: char): (k: nat)
    ensures k <= |s|
    ensures forall j | 0 <= j < k :: s[j] != sep
    ensures k < |s| ==> s[k] == sep
  {
    if s == [] || s[0] == sep then 0 else 1 + IndexOf(s[1..], sep)
  }

  /** The pieces of `s` between occurrences of `sep`, as Python's `str.split(sep)`. */
  function Split(s: string, sep: char): seq<string>
    decreases |s|
  {
    var k := IndexOf(s, sep);
    if k == |s| then [s] else [s[..k]] + Split(s[k + 1..], sep)
  }

  /** The integer after `prefix` in `token`. */
  function Field(token: string, prefix: string): Option<int>
  {
    if |prefix| <= |token| && token[..|prefix|] == prefix then ParseDecimal(token[|prefix|..]) else None
  }

  /** Reads a case name back into the coordinates it was made from. */
  function ParseCaseName(name: string): Option<Case>
  {
    var parts := Split(name, '.');
    if |parts| != 4 then None
    else
      match (Field(parts[0], "r_"), Field(parts[1], "w_"), Field(parts[2], "l_"), Field(parts[3], "c_"))
      case (Some(r), Some(w), Some(l), Some(c)) => Some(Case(r, w, l, c))
      case _ => None
  }

  lemma SplitWithout(a: string, sep: char)
    requires sep !in a
    ensures Split(a, sep) == [a]
  {
  }

  lemma SplitFirst(a: string, b: string, sep: char)
    requires sep !in a
    ensures Split(a + [sep] + b, sep) == [a] + Split(b, sep)
  {
    var s := a + [sep] + b;
    assert s[|a|] == sep;
    assert IndexOf(s, sep) == |a|;
    assert s[..|a|] == a;
    assert s[|a| + 1..] == b;
  }

  lemma FieldOf(prefix: string, i: int)
    ensures Field(prefix + DecimalText(i), prefix) == Some(i)
  {
    var t := prefix + DecimalText(i);
    assert t[..|prefix|] == prefix;
    assert t[|prefix|..] == DecimalText(i);
    DecimalRoundTrip(i);
  }

  /** A piece without `sep` followed by `sep` adds that piece in front of the pieces of the rest. */
  lemma SplitPrepend(a: string, b: string, sep: char, pieces: seq<string>)
    requires sep !in a && Split(b, sep) == pieces
    ensures Split(a + [sep] + b, sep) == [a] + pieces
  {
    SplitFirst(a, b, sep);
  }

  lemma SplitFour(t0: string, t1: string, t2: string, t3: string)
    requires '.' !in t0 && '.' !in t1 && '.' !in t2 && '.' !in t3
    ensures Split(t0 + ['.'] + (t1 + ['.'] + (t2 + ['.'] + t3)), '.') == [t0, t1, t2, t3]
  {
    SplitWithout(t3, '.');
    SplitPrepend(t2, t3, '.', [t3]);
    SplitPrepend(t1, t2 + ['.'] + t3, '.', [t2, t3]);
    SplitPrepend(t0, t1 + ['.'] + (t2 + ['.'] + t3), '.', [t1, t2, t3]);
  }

  lemma PrefixedAvoidsDot(prefix: string, i: int)
    requires '.' !in prefix
    ensures '.' !in prefix + DecimalText(i)
  {
    DecimalAvoids(i, '.');
  }

  /** A case name is its four "prefix and number" pieces joined by dots. */
  lemma CaseNamePieces(c: Case)
    ensures CaseName(c) == ("r_" + DecimalText(c.readRate)) + ['.'] + (("w_" + DecimalText(c.writeRate)) + ['.'] +
      (("l_" + DecimalText(c.latency)) + ['.'] + ("c_" + DecimalText(c.capacity))))
  {
    var r, w, l, k := DecimalText(c.readRate), DecimalText(c.writeRate), DecimalText(c.latency), DecimalText(c.capacity);
    assert ".w_" == ['.'] + "w_" && ".l_" == ['.'] + "l_" && ".c_" == ['.'] + "c_";
    assert CaseName(c) == "r_" + r + ".w_" + w + ".l_" + l + ".c_" + k;
  }

  /** Parsing a case name recovers exactly the coordinates it was built from. */
  lemma CaseNameRoundTrip(c: Case)
    ensures ParseCaseName(CaseName(c)) == Some(c)
  {
    var t0, t1 := "r_" + DecimalText(c.readRate), "w_" + DecimalText(c.writeRate);
    var t2, t3 := "l_" + DecimalText(c.latency), "c_" + DecimalText(c.capacity);
    PrefixedAvoidsDot("r_", c.readRate);
    PrefixedAvoidsDot("w_", c.writeRate);
    PrefixedAvoidsDot("l_", c.latency);
    PrefixedAvoidsDot("c_", c.capacity);
    CaseNamePieces(c);
    SplitFour(t0, t1, t2, t3);
    assert Split(CaseName(c), '.') == [t0, t1, t2, t3];
    FieldOf("r_", c.readRate);
    FieldOf("w_", c.writeRate);
    FieldOf("l_", c.latency);
    FieldOf("c_", c.capacity);
  }

  /** Distinct coordinate tuples get distinct names. */
  lemma CaseNameInjective(c1: Case, c2: Case)
    ensures CaseName(c1) == CaseName(c2) ==> c1 == c2
  {
    CaseNameRoundTrip(c1);
    CaseNameRoundTrip(c2);
  }
}
