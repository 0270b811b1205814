/**
 * The two string renderings written into the stored record: vectorToStr for integer
 * vectors and gatesToStr for gate sequences, both built on Go's strings.Join.
 */
module Render {
  import opened Opt
  import opened Strconv
  import opened Circuit

  /** strings.Join: the parts in order, with sep between neighbours. */
  function Join(parts: seq<string>, sep: string): string {
    if |parts| == 0 then ""
    else if |parts| == 1 then parts[0]
    else parts[0] + sep + Join(parts[1..], sep)
  }

  /** The decimal rendering of each element, in order. */
  function Decimals(v: seq<int>): seq<string> {
    seq(|v|, i requires 0 <= i < |v| => Itoa(v[i]))
  }

  /** What vectorToStr returns: "[", the decimals separated by ", ", then "]". */
  function VectorText(v: seq<int>): string {
    "[" + Join(Decimals(v), ", ") + "]"
  }

  /** Worked renderings: the empty vector and a 0/1 vector. */
  lemma VectorTextExample()
    ensures VectorText([]) == "[]"
    ensures VectorText([1, 0, 1]) == "[1, 0, 1]"
  {
    assert Itoa(1) == "1" && Itoa(0) == "0";
    assert Decimals([1, 0, 1]) == ["1", "0", "1"];
    assert Join(["1", "0", "1"], ", ") == "1, 0, 1";
  }

  /** A worked rendering: negative and multi-digit elements keep their sign and digits. */
  lemma VectorTextSignedExample()
    ensures VectorText([-12, 7]) == "[-12, 7]"
  {
    assert NatToDecimal(12) == NatToDecimal(1) + [DigitChar(2)] == "12";
    assert Itoa(-12) == "-12" && Itoa(7) == "7";
    assert Decimals([-12, 7]) == ["-12", "7"];
    assert Join(["-12", "7"], ", ") == "-12, 7";
  }

  /** vectorToStr: append each element's decimal to a list, then join and bracket it. */
  method VectorToStr(v: seq<int>) returns (s: string)
    ensures s == VectorText(v)
  {
    var vss: seq<string> := [];
    for i := 0 to |v|
      invariant |vss| == i
      invariant forall k :: 0 <= k < i ==> vss[k] == Itoa(v[k])
    {
      vss := vss + [Itoa(v[i])];
    }
    assert vss == Decimals(v);
    s := "[" + Join(vss, ", ") + "]";
  }

  /** One entry of gatesToStr: TypeName(targets, controls). */
  function GateText(g: Gate): string {
    g.typeName + "(" + VectorText(g.targetBits) + ", " + VectorText(g.controlBits) + ")"
  }

  /** f applied to each element, from the last element to the first. */
  function MapLastFirst<T, U>(f: T -> U, xs: seq<T>): (ys: seq<U>)
    ensures |ys| == |xs|
  {
    if xs == [] then [] else MapLastFirst(f, xs[1..]) + [f(xs[0])]
  }

  /** The k-th result comes from the k-th element counted from the end. */
  lemma {:induction false} MapLastFirstAt<T, U>(f: T -> U, xs: seq<T>, k: nat)
    requires k < |xs|
    ensures MapLastFirst(f, xs)[k] == f(xs[|xs| - 1 - k])
  {
    if k < |xs| - 1 {
      MapLastFirstAt(f, xs[1..], k);
      assert xs[1..][|xs| - 2 - k] == xs[|xs| - 1 - k];
    }
  }

  /** Appending an element puts its result first. */
  lemma {:induction false} MapLastFirstSnoc<T, U>(f: T -> U, xs: seq<T>, x: T)
    ensures MapLastFirst(f, xs + [x]) == [f(x)] + MapLastFirst(f, xs)
  {
    if xs != [] {
      assert (xs + [x])[1..] == xs[1..] + [x];
      MapLastFirstSnoc(f, xs[1..], x);
    }
  }

  /** The gate entries from the last gate to the first. */
  function EntriesLastFirst(gates: seq<Gate>): seq<string> {
    MapLastFirst(GateText, gates)
  }

  /** What gatesToStr returns: the entries, last gate first, separated by ", ". */
  function GatesText(gates: seq<Gate>): string {
    Join(EntriesLastFirst(gates), ", ")
  }

  /** The k-th rendered entry comes from the k-th gate counted from the end. */
  lemma EntriesLastFirstAt(gates: seq<Gate>, k: nat)
    requires k < |gates|
    ensures |EntriesLastFirst(gates)| == |gates|
    ensures EntriesLastFirst(gates)[k] == GateText(gates[|gates| - 1 - k])
  {
    MapLastFirstAt(GateText, gates, k);
  }

  /** No gates render as ""; appending a gate to the synthesizer's list puts its entry first. */
  lemma GatesTextSnoc(gates: seq<Gate>, g: Gate)
    ensures GatesText([]) == ""
    ensures gates == [] ==> GatesText(gates + [g]) == GateText(g)
    ensures gates != [] ==> GatesText(gates + [g]) == GateText(g) + ", " + GatesText(gates)
  {
    MapLastFirstSnoc(GateText, gates, g);
    if gates != [] {
      EntriesLastFirstAt(gates, 0);
    }
  }

  /** Three gates g0, g1, g2 from the synthesizer render as g2, g1, g0. */
  lemma GatesTextThree(g0: Gate, g1: Gate, g2: Gate)
    ensures GatesText([g0, g1, g2]) == GateText(g2) + ", " + GateText(g1) + ", " + GateText(g0)
  {
    var gates := [g0, g1, g2];
    MapLastFirstAt(GateText, gates, 0);
    MapLastFirstAt(GateText, gates, 1);
    MapLastFirstAt(GateText, gates, 2);
    JoinThree(EntriesLastFirst(gates), ", ");
  }

  lemma JoinThree(parts: seq<string>, sep: string)
    requires |parts| == 3
    ensures Join(parts, sep) == parts[0] + sep + parts[1] + sep + parts[2]
  {
    JoinCons(parts, sep);
    JoinCons(parts[1..], sep);
    JoinSingle(parts[1..][1..], sep);
    assert parts[1..][1..][0] == parts[2];
  }

  /** gatesToStr: walk the gates from the last index down to 0, rendering each. */
  method GatesToStr(gates: seq<Gate>) returns (s: string)
    ensures s == GatesText(gates)
  {
    var gatesSS: seq<string> := [];
    var i := |gates| - 1;
    while i >= 0
      invariant -1 <= i < |gates|
      invariant gatesSS == EntriesLastFirst(gates[i + 1..])
    {
      var targets := VectorToStr(gates[i].targetBits);
      var controls := VectorToStr(gates[i].controlBits);
      var gateS := gates[i].typeName + "(" + targets + ", " + controls + ")";
      assert gates[i..][1..] == gates[i + 1..];
      gatesSS := gatesSS + [gateS];
      i := i - 1;
    }
    assert gates[0..] == gates;
    s := Join(gatesSS, ", ");
  }

  /** The position of the first ',' in t, or |t| when there is none. */
  function FirstComma(t: string): (k: nat)
    ensures k <= |t|
    ensures k < |t| ==> t[k] == ','
    ensures forall j :: 0 <= j < k ==> t[j] != ','
  {
    if t == [] then 0 else if t[0] == ',' then 0 else 1 + FirstComma(t[1..])
  }

  /** Parses "d, d, ..., d" (at least one element) where each d is a canonical integer. */
  function ParseList(t: string): Option<seq<int>>
    decreases |t|
  {
    var k := FirstComma(t);
    match ParseInt(t[..k])
    case None => None
    case Some(x) =>
      if k == |t| then Some([x])
      else if k + 1 < |t| && t[k + 1] == ' ' then
        match ParseList(t[k + 2..])
        case None => None
        case Some(rest) => Some([x] + rest)
      else None
  }

  /** Parses a rendered vector back into its elements; None when s is not such a rendering. */
  function ParseVector(s: string): Option<seq<int>> {
    if |s| < 2 || s[0] != '[' || s[|s| - 1] != ']' then None
    else if |s| == 2 then Some([])
    else ParseList(s[1..|s| - 1])
  }

  lemma ParseListSingle(x: int)
    ensures ParseList(Itoa(x)) == Some([x])
  {
    var t := Itoa(x);
    ItoaParseInt(x, t);
    assert FirstComma(t) == |t|;
    assert t[..|t|] == t;
  }

  lemma ParseListCons(x: int, rest: string)
    ensures ParseList(Itoa(x) + ", " + rest) ==
      match ParseList(rest)
      case None => None
      case Some(r) => Some([x] + r)
  {
    var head := Itoa(x);
    var t := head + ", " + rest;
    ItoaParseInt(x, head);
    assert t[|head|] == ',';
    assert FirstComma(t) == |head|;
    assert t[..|head|] == head;
    assert t[|head| + 2..] == rest;
  }

  lemma JoinSingle(parts: seq<string>, sep: string)
    requires |parts| == 1
    ensures Join(parts, sep) == parts[0]
  {
  }

  lemma JoinCons(parts: seq<string>, sep: string)
    requires |parts| >= 2
    ensures Join(parts, sep) == parts[0] + sep + Join(parts[1..], sep)
  {
  }

  lemma DecimalsCons(x: int, rest: seq<int>)
    ensures Decimals([x] + rest) == [Itoa(x)] + Decimals(rest)
  {
    assert forall i :: 0 <= i < |rest| ==> ([x] + rest)[i + 1] == rest[i];
  }

  lemma JoinDecimalsCons(x: int, rest: seq<int>)
    requires |rest| >= 1
    ensures Join(Decimals([x] + rest), ", ") == Itoa(x) + ", " + Join(Decimals(rest), ", ")
  {
    DecimalsCons(x, rest);
    JoinCons([Itoa(x)] + Decimals(rest), ", ");
    assert ([Itoa(x)] + Decimals(rest))[1..] == Decimals(rest);
  }

  lemma {:induction false} ParseListJoin(v: seq<int>)
    requires |v| >= 1
    ensures ParseList(Join(Decimals(v), ", ")) == Some(v)
  {
    if |v| == 1 {
      assert Join(Decimals(v), ", ") == Itoa(v[0]);
      ParseListSingle(v[0]);
      assert v == [v[0]];
    } else {
      JoinCons(Decimals(v), ", ");
      assert Decimals(v)[1..] == Decimals(v[1..]);
      ParseListJoin(v[1..]);
      ParseListCons(v[0], Join(Decimals(v[1..]), ", "));
      assert [v[0]] + v[1..] == v;
    }
  }

  lemma JoinDecimalsSingle(x: int, t: string)
    requires ParseInt(t) == Some(x)
    ensures Join(Decimals([x]), ", ") == t
  {
    ItoaParseInt(x, t);
    JoinSingle(Decimals([x]), ", ");
  }

  /** What a successful ParseList tells about its input: a first literal, then either the
   * end of the string or ", " and a further successful parse. */
  lemma ParseListCases(t: string, v: seq<int>)
    requires ParseList(t) == Some(v)
    ensures var k := FirstComma(t);
      && |v| >= 1 && ParseInt(t[..k]) == Some(v[0])
      && (k == |t| ==> v == [v[0]])
      && (k < |t| ==> k + 1 < |t| && t[k + 1] == ' ' && ParseList(t[k + 2..]) == Some(v[1..]))
  {
    var k := FirstComma(t);
    var x := ParseInt(t[..k]).value;
    if k < |t| {
      var rest := ParseList(t[k + 2..]).value;
      assert v == [x] + rest;
    }
  }

  lemma SeparatorSplit(t: string, k: nat)
    requires k + 1 < |t| && t[k] == ',' && t[k + 1] == ' '
    ensures t == t[..k] + ", " + t[k + 2..]
  {
    assert t[k..k + 2] == ", ";
    assert t == t[..k] + t[k..k + 2] + t[k + 2..];
  }

  lemma {:induction false} JoinParseList(t: string, v: seq<int>)
    requires ParseList(t) == Some(v)
    ensures |v| >= 1 && Join(Decimals(v), ", ") == t
    decreases |t|
  {
    ParseListCases(t, v);
    var k := FirstComma(t);
    if k == |t| {
      assert t[..k] == t;
      JoinDecimalsSingle(v[0], t);
    } else {
      var tail := t[k + 2..];
      SeparatorSplit(t, k);
      JoinParseList(tail, v[1..]);
      JoinDecimalsCons(v[0], v[1..]);
      ItoaParseInt(v[0], t[..k]);
      assert v == [v[0]] + v[1..];
    }
  }

  lemma JoinStartsWith(parts: seq<string>, sep: string)
    requires |parts| >= 1
    ensures |Join(parts, sep)| >= |parts[0]|
  {
  }

  lemma VectorTextRoundTrip(v: seq<int>)
    ensures ParseVector(VectorText(v)) == Some(v)
  {
    var inner := Join(Decimals(v), ", ");
    var s := VectorText(v);
    assert s[1..|s| - 1] == inner;
    if |v| >= 1 {
      JoinStartsWith(Decimals(v), ", ");
      ParseListJoin(v);
    }
  }

  lemma Bracketed(s: string)
    requires |s| >= 2 && s[0] == '[' && s[|s| - 1] == ']'
    ensures s == "[" + s[1..|s| - 1] + "]"
  {
    assert s == s[..1] + s[1..|s| - 1] + s[|s| - 1..];
  }

  lemma VectorTextOfParse(s: string, v: seq<int>)
    requires ParseVector(s) == Some(v)
    ensures s == VectorText(v)
  {
    Bracketed(s);
    if |s| > 2 {
      JoinParseList(s[1..|s| - 1], v);
    }
  }

  /** ParseVector is the exact inverse of the vector rendering: the stored truth-vector
   * string determines the vector, and nothing else parses. */
  lemma VectorTextParse(v: seq<int>, s: string)
    ensures ParseVector(s) == Some(v) <==> s == VectorText(v)
  {
    if s == VectorText(v) {
      VectorTextRoundTrip(v);
    }
    if ParseVector(s) == Some(v) {
      VectorTextOfParse(s, v);
    }
  }

  /** Two vectors with the same rendering are equal. */
  lemma VectorTextInjective(v: seq<int>, w: seq<int>)
    ensures VectorText(v) == VectorText(w) ==> v == w
  {
    VectorTextParse(v, VectorText(v));
    VectorTextParse(w, VectorText(w));
  }
}
