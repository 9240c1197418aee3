/** Vocabulary shared by every component: optional values, raised errors, enumerations, finite sums. */
module Common {

  datatype Option<+T> = None | Some(value: T) {
    function GetOr(default: T): T {
      match this
      case Some(v) => v
      case None => default
    }
  }

  /** The outcome of a call that may raise; a raised error carries its message. */
  datatype Result<+T> = Ok(value: T) | Raised(error: string) {
    predicate IsFailure() {
      Raised?
    }

    function PropagateFailure<U>(): Result<U>
      requires Raised?
    {
      Raised(error)
    }

    function Extract(): T
      requires Ok?
    {
      value
    }
  }

  datatype Market = INDIA | US

  datatype OrderSide = BUY | SELL

  const MICROSECONDS_PER_DAY := 86_400_000_000

  function Max(x: real, y: real): real {
    if x < y then y else x
  }

  function Min(x: real, y: real): real {
    if y < x then y else x
  }

  function Abs(x: real): real {
    if x < 0.0 then -x else x
  }

  function MaxInt(x: int, y: int): int {
    if x < y then y else x
  }

  function MinInt(x: int, y: int): int {
    if y < x then y else x
  }

  // ---------- signs of products ----------

  lemma NonNegativeProduct(x: real, y: real)
    requires x >= 0.0 && y >= 0.0
    ensures x * y >= 0.0
  {
  }

  lemma PositiveProduct(x: real, y: real)
    requires x > 0.0 && y > 0.0
    ensures x * y > 0.0
  {
  }

  lemma ProductMonotone(x: real, y: real, k: real)
    requires x <= y && k >= 0.0
    ensures x * k <= y * k
  {
    NonNegativeProduct(y - x, k);
  }

  /** Scaling by a positive factor keeps the order, strict or not. */
  lemma ScaleKeepsOrder(x: real, y: real, k: real)
    requires k > 0.0
    ensures x <= y <==> x * k <= y * k
    ensures x < y <==> x * k < y * k
  {
    if x < y {
      PositiveProduct(y - x, k);
    } else {
      NonNegativeProduct(x - y, k);
      if y < x {
        PositiveProduct(x - y, k);
      }
    }
  }

  lemma ScaleKeepsSign(x: real, k: real)
    requires k > 0.0
    ensures x >= 0.0 <==> x * k >= 0.0
    ensures x > 0.0 <==> x * k > 0.0
  {
    ScaleKeepsOrder(0.0, x, k);
  }

  function GetOr<K, V>(m: map<K, V>, k: K, default: V): V {
    if k in m then m[k] else default
  }

  // ---------- sums over a dictionary, in no particular order ----------

  ghost function Pick<K>(s: set<K>): (k: K)
    requires s != {}
    ensures k in s
  {
    var k :| k in s; k
  }

  ghost function Sum<K>(m: map<K, real>): real {
    if m.Keys == {} then 0.0 else var k := Pick(m.Keys); m[k] + Sum(m - {k})
  }

  /** Any key may be taken out first. */
  lemma {:induction false} SumSplit<K>(m: map<K, real>, k: K)
    requires k in m
    ensures Sum(m) == m[k] + Sum(m - {k})
    decreases |m|
  {
    var j := Pick(m.Keys);
    assert Sum(m) == m[j] + Sum(m - {j});
    if j != k {
      SumSplit(m - {j}, k);
      SumSplit(m - {k}, j);
      hide Sum;
      assert m - {j} - {k} == m - {k} - {j};
    }
  }

  lemma SumUpdate<K>(m: map<K, real>, k: K, v: real)
    ensures Sum(m[k := v]) == Sum(m - {k}) + v
  {
    SumSplit(m[k := v], k);
    assert m[k := v] - {k} == m - {k};
  }

  /** The entries of a sequence that satisfy a test, in order. */
  function Filter<T>(s: seq<T>, p: T -> bool): (r: seq<T>) {
    if s == [] then [] else Filter(s[..|s| - 1], p) + if p(s[|s| - 1]) then [s[|s| - 1]] else []
  }

  function Total<T>(s: seq<T>, f: T -> real): real {
    if s == [] then 0.0 else Total(s[..|s| - 1], f) + f(s[|s| - 1])
  }

  function Count<T>(s: seq<T>, p: T -> bool): nat {
    if s == [] then 0 else Count(s[..|s| - 1], p) + if p(s[|s| - 1]) then 1 else 0
  }

  lemma FoldsAppend<T>(s: seq<T>, x: T, p: T -> bool, f: T -> real)
    ensures Filter(s + [x], p) == Filter(s, p) + if p(x) then [x] else []
    ensures Count(s + [x], p) == Count(s, p) + if p(x) then 1 else 0
    ensures Total(s + [x], f) == Total(s, f) + f(x)
  {
    assert (s + [x])[..|s|] == s;
  }

  /** The elements of a sequence, each at its first place only. */
  function Dedup<T(==)>(s: seq<T>): (r: seq<T>)
    ensures forall k :: 0 <= k < |s| ==> s[k] in r
    ensures forall k :: 0 <= k < |r| ==> r[k] in s
    ensures forall i, j :: 0 <= i < j < |r| ==> r[i] != r[j]
  {
    if s == [] then [] else
    var before := Dedup(s[..|s| - 1]);
    if s[|s| - 1] in before then before else before + [s[|s| - 1]]
  }

  predicate Distinct<T(==)>(s: seq<T>) {
    forall i, j :: 0 <= i < j < |s| ==> s[i] != s[j]
  }

  /** A list without repetitions stays in front of whatever is appended to it. */
  lemma {:induction false} DedupKeepsPrefix<T>(before: seq<T>, all: seq<T>)
    requires Distinct(before) && before <= all
    ensures before <= Dedup(all)
    decreases |all|
  {
    if |all| == |before| {
      assert all == before;
      DedupOfDistinct(before);
    } else {
      DedupKeepsPrefix(before, all[..|all| - 1]);
      assert Dedup(all[..|all| - 1]) <= Dedup(all);
    }
  }

  lemma {:induction false} DedupOfDistinct<T>(s: seq<T>)
    requires Distinct(s)
    ensures Dedup(s) == s
  {
    if s != [] {
      DedupOfDistinct(s[..|s| - 1]);
    }
  }

  lemma DedupKeepsElements<T>(s: seq<T>, x: T)
    ensures x in Dedup(s) <==> x in s
  {
  }

  lemma NothingCollected<T>(early: seq<T>, late: seq<T>)
    ensures Dedup(early + late) == [] <==> early == [] && late == []
  {
    assert early + late != [] ==> (early + late)[0] in Dedup(early + late);
  }
}
