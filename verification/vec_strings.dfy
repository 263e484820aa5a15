/** The coordinate parser `splitVecStr` and the vector formatter `vecToStr`
    of guitools.js, over an uninterpreted number formatter (`toFixed`) and
    number parser (`parseFloat`). */
module VecStrings {
  import opened Wrappers

  /** The precision `vecToStr` uses when its second argument is undefined. */
  const DefaultPrecision: nat := 2

  /** The tokens of `s.split(",")` in JavaScript: there is always at least
      one, and the empty string gives the single empty token. */
  function Split(s: string): (r: seq<string>)
    ensures |r| >= 1
    decreases |s|
  {
    if s == [] then [[]]
    else
      var rest := Split(s[1..]);
      if s[0] == ',' then [[]] + rest
      else [[s[0]] + rest[0]] + rest[1..]
  }

  /** The tokens separated by single commas (`Array.prototype.join(",")`). */
  function Join(ts: seq<string>): string
  {
    if |ts| == 0 then []
    else if |ts| == 1 then ts[0]
    else Join(ts[..|ts| - 1]) + "," + ts[|ts| - 1]
  }

  /** The number of commas in `s`. */
  function CommaCount(s: string): nat
  {
    if s == [] then 0 else (if s[0] == ',' then 1 else 0) + CommaCount(s[1..])
  }

  predicate NoCommas(ts: seq<string>)
  {
    forall i :: 0 <= i < |ts| ==> ',' !in ts[i]
  }

  /** Splitting at one comma splits each side independently. */
  lemma {:induction false} SplitAtComma(a: string, b: string)
    ensures Split(a + "," + b) == Split(a) + Split(b)
    decreases |a|
  {
    if a == [] {
      assert a + "," + b == [','] + b;
      assert ([','] + b)[1..] == b;
    } else {
      assert (a + "," + b)[1..] == a[1..] + "," + b;
      SplitAtComma(a[1..], b);
    }
  }

  /** A string without commas is a single token. */
  lemma {:induction false} SplitNoComma(t: string)
    requires ',' !in t
    ensures Split(t) == [t]
    decreases |t|
  {
    if t != [] {
      SplitNoComma(t[1..]);
      assert [t[0]] + t[1..] == t;
    }
  }

  /** Splitting on commas undoes joining with commas, for comma-free tokens. */
  lemma {:induction false} SplitJoin(ts: seq<string>)
    requires |ts| >= 1 && NoCommas(ts)
    ensures Split(Join(ts)) == ts
    decreases |ts|
  {
    var n := |ts|;
    SplitNoComma(ts[n - 1]);
    if n > 1 {
      SplitJoin(ts[..n - 1]);
      SplitAtComma(Join(ts[..n - 1]), ts[n - 1]);
      assert ts[..n - 1] + [ts[n - 1]] == ts;
    }
  }

  /** `s.split(",")` has one token more than `s` has commas. */
  lemma {:induction false} SplitLength(s: string)
    ensures |Split(s)| == CommaCount(s) + 1
    decreases |s|
  {
    if s != [] {
      SplitLength(s[1..]);
    }
  }

  /** The formatted elements of `v`, each with `k` fraction digits. */
  function Tokens(v: seq<real>, toFixed: (real, nat) -> string, k: nat): seq<string>
  {
    seq(|v|, i requires 0 <= i < |v| => toFixed(v[i], k))
  }

  lemma JoinSnoc(ts: seq<string>, i: nat)
    requires 1 <= i < |ts|
    ensures Join(ts[..i + 1]) == Join(ts[..i]) + "," + ts[i]
  {
    assert ts[..i + 1][..i] == ts[..i];
  }

  /** `vecToStr(v, k)`: every element of `v` formatted with `k` fraction
      digits (2 when `k` is undefined), separated by commas, with no comma
      after the last one. */
  method VecToStr(v: seq<real>, k: Option<nat>, toFixed: (real, nat) -> string) returns (s: string)
    ensures s == Join(Tokens(v, toFixed, if k.None? then DefaultPrecision else k.value))
    ensures v == [] ==> s == ""
    ensures v != [] ==>
      var last := toFixed(v[|v| - 1], if k.None? then DefaultPrecision else k.value);
      |last| <= |s| && s[|s| - |last|..] == last
    ensures v != [] && NoCommas(Tokens(v, toFixed, if k.None? then DefaultPrecision else k.value)) ==>
      Split(s) == Tokens(v, toFixed, if k.None? then DefaultPrecision else k.value) &&
      CommaCount(s) == |v| - 1
  {
    var d := if k.None? then DefaultPrecision else k.value;
    ghost var ts := Tokens(v, toFixed, d);
    s := "";
    for i := 0 to |v|
      invariant s == if i == 0 then "" else if i < |v| then Join(ts[..i]) + "," else Join(ts[..i])
    {
      if i > 0 {
        JoinSnoc(ts, i);
      }
      s := s + toFixed(v[i], d);
      if i < |v| - 1 {
        s := s + ",";
      }
    }
    assert ts[..|v|] == ts;
    if v != [] && NoCommas(ts) {
      SplitJoin(ts);
      SplitLength(s);
    }
  }

  /** A number as `parseFloat` yields it: a value or not-a-number. */
  datatype Num = Finite(value: real) | NaN

  /** What `splitVecStr` produces: whether it raised the arity alert, and
      the three components of the vector it returns anyway. */
  datatype ParsedVec = ParsedVec(arityAlert: bool, comps: seq<Num>)

  /** `splitVecStr(s)`: parse each comma-separated token; alert unless there
      are exactly three; build the vector from the first three tokens, a
      missing one giving not-a-number. */
  function SplitVecStr(s: string, parseFloat: string -> Num): (r: ParsedVec)
    ensures r.arityAlert <==> CommaCount(s) != 2
    ensures |r.comps| == 3
    ensures forall j :: 0 <= j < 3 && j < |Split(s)| ==> r.comps[j] == parseFloat(Split(s)[j])
    ensures forall j :: |Split(s)| <= j < 3 ==> r.comps[j] == NaN
  {
    SplitLength(s);
    var toks := Split(s);
    var ret := seq(|toks|, i requires 0 <= i < |toks| => parseFloat(toks[i]));
    ParsedVec(|ret| != 3, seq(3, j requires 0 <= j < 3 => if j < |ret| then ret[j] else NaN))
  }

  /** Formatting a three-component vector and parsing the text back never
      raises the arity alert, and gives back the parse of each formatted
      component in order. */
  lemma FormatThenParse(x: real, y: real, z: real, k: nat, toFixed: (real, nat) -> string, parseFloat: string -> Num)
    requires NoCommas(Tokens([x, y, z], toFixed, k))
    ensures SplitVecStr(Join(Tokens([x, y, z], toFixed, k)), parseFloat)
         == ParsedVec(false, [parseFloat(toFixed(x, k)), parseFloat(toFixed(y, k)), parseFloat(toFixed(z, k))])
  {
    var ts := Tokens([x, y, z], toFixed, k);
    SplitJoin(ts);
  }
}
