/** Vocabulary shared by every module of the model: optional values, the values a
    Python dict can hold as far as the modelled code tells them apart, IEEE-754
    infinities, ASCII case mapping, and sums over sequences. */
module Common {

  datatype Option<+T> = None | Some(value: T)

  /** What a raised (and not caught) Python exception leaves: the name of its class. */
  datatype Outcome<+T> = Returned(value: T) | Raised(exception: string)

  /** A value read from a Python dict. `PyOther` stands for any other object
      (a list, a nested dict, ...); the modelled code only ever asks whether it is
      truthy or numeric. */
  datatype PyValue =
    | PyNone
    | PyBool(b: bool)
    | PyInt(i: int)
    | PyFloat(f: real)
    | PyStr(s: string)
    | PyOther(tag: nat)

  /** `isinstance(v, (int, float))`; a bool passes, since bool is a subclass of int. */
  predicate IsNumeric(v: PyValue) {
    v.PyBool? || v.PyInt? || v.PyFloat?
  }

  function AsReal(v: PyValue): real
    requires IsNumeric(v)
  {
    match v
    case PyBool(b) => if b then 1.0 else 0.0
    case PyInt(i) => i as real
    case PyFloat(f) => f
  }

  /** Python truthiness; an "other" object is taken to be a non-empty container. */
  predicate Truthy(v: PyValue) {
    match v
    case PyNone => false
    case PyBool(b) => b
    case PyInt(i) => i != 0
    case PyFloat(f) => f != 0.0
    case PyStr(s) => s != ""
    case PyOther(_) => true
  }

  /** `d.get(k)` when the caller then checks `isinstance(_, (int, float))`. */
  function NumberAt(d: map<string, PyValue>, k: string): (r: Option<real>)
    ensures r.Some? <==> k in d && IsNumeric(d[k])
  {
    if k in d && IsNumeric(d[k]) then Some(AsReal(d[k])) else None
  }

  /** A double that may be infinite or not a number. */
  datatype ExtReal = Finite(r: real) | PosInf | NegInf | NaN

  // ASCII case mapping (Python's str.upper/str.lower restricted to ASCII letters).

  function UpperChar(c: char): char {
    if 'a' <= c <= 'z' then (c as int - 32) as char else c
  }

  function LowerChar(c: char): char {
    if 'A' <= c <= 'Z' then (c as int + 32) as char else c
  }

  function Upper(s: string): (r: string)
    ensures |r| == |s|
    ensures forall i :: 0 <= i < |s| ==> r[i] == UpperChar(s[i])
  {
    seq(|s|, i requires 0 <= i < |s| => UpperChar(s[i]))
  }

  function Lower(s: string): (r: string)
    ensures |r| == |s|
    ensures forall i :: 0 <= i < |s| ==> r[i] == LowerChar(s[i])
  {
    seq(|s|, i requires 0 <= i < |s| => LowerChar(s[i]))
  }

  predicate EndsWith(s: string, suffix: string) {
    |suffix| <= |s| && s[|s| - |suffix|..] == suffix
  }

  /** Upper-casing a string twice changes nothing more. */
  lemma UpperIdempotent(s: string)
    ensures Upper(Upper(s)) == Upper(s)
  {
    assert forall i :: 0 <= i < |s| ==> UpperChar(UpperChar(s[i])) == UpperChar(s[i]);
  }

  /** Upper-casing distributes over concatenation. */
  lemma UpperAppend(a: string, b: string)
    ensures Upper(a + b) == Upper(a) + Upper(b)
  {
  }

  // Sums, taken from the front.

  function SumOf<T>(s: seq<T>, f: T -> real): real {
    if s == [] then 0.0 else f(s[0]) + SumOf(s[1..], f)
  }

  lemma {:induction false} SumOfAppend<T>(a: seq<T>, b: seq<T>, f: T -> real)
    ensures SumOf(a + b, f) == SumOf(a, f) + SumOf(b, f)
  {
    if a == [] {
      assert a + b == b;
    } else {
      assert (a + b)[1..] == a[1..] + b;
      SumOfAppend(a[1..], b, f);
    }
  }

  /** The step a loop that accumulates from the front needs. */
  lemma SumOfSnoc<T>(s: seq<T>, x: T, f: T -> real)
    ensures SumOf(s + [x], f) == SumOf(s, f) + f(x)
  {
    SumOfAppend(s, [x], f);
  }

  /** Taking one element out of a sequence takes its term out of the sum. */
  lemma SumOfRemove<T>(b: seq<T>, i: nat, f: T -> real)
    requires i < |b|
    ensures SumOf(b, f) == f(b[i]) + SumOf(b[..i] + b[i + 1..], f)
  {
    assert b == (b[..i] + [b[i]]) + b[i + 1..];
    SumOfAppend(b[..i] + [b[i]], b[i + 1..], f);
    SumOfAppend(b[..i], [b[i]], f);
    SumOfAppend(b[..i], b[i + 1..], f);
  }

  lemma MultisetRemove<T>(b: seq<T>, i: nat)
    requires i < |b|
    ensures multiset(b[..i] + b[i + 1..]) == multiset(b) - multiset{b[i]}
  {
    assert b == b[..i] + [b[i]] + b[i + 1..];
  }

  /** Reordering a sequence does not change its sum. */
  lemma {:induction false} SumOfPermutation<T>(a: seq<T>, b: seq<T>, f: T -> real)
    requires multiset(a) == multiset(b)
    ensures SumOf(a, f) == SumOf(b, f)
  {
    if a == [] {
      assert |b| == |multiset(b)| == 0;
    } else {
      var x := a[0];
      assert x in multiset(b);
      var i :| 0 <= i < |b| && b[i] == x;
      var rest := b[..i] + b[i + 1..];
      MultisetRemove(b, i);
      assert a == [x] + a[1..];
      assert multiset(a[1..]) == multiset(a) - multiset{x};
      SumOfPermutation(a[1..], rest, f);
      SumOfRemove(b, i, f);
    }
  }

  /** Two sequences whose terms agree position by position have the same sum. */
  lemma {:induction false} SumOfPointwise<T, U>(a: seq<T>, f: T -> real, b: seq<U>, g: U -> real)
    requires |a| == |b|
    requires forall i :: 0 <= i < |a| ==> f(a[i]) == g(b[i])
    ensures SumOf(a, f) == SumOf(b, g)
  {
    if a != [] {
      assert forall i :: 0 <= i < |a[1..]| ==> a[1..][i] == a[i + 1] && b[1..][i] == b[i + 1];
      SumOfPointwise(a[1..], f, b[1..], g);
    }
  }

  /** A sum of equal terms. */
  lemma {:induction false} SumOfConstant<T>(s: seq<T>, f: T -> real, c: real)
    requires forall x :: x in s ==> f(x) == c
    ensures SumOf(s, f) == |s| as real * c
  {
    if s != [] {
      SumOfConstant(s[1..], f, c);
    }
  }

  /** Dividing every term by the same non-zero amount divides the sum. */
  lemma {:induction false} SumOfScaled<T>(s: seq<T>, f: T -> real, g: T -> real, d: real)
    requires d != 0.0
    requires forall x :: x in s ==> g(x) == f(x) / d
    ensures SumOf(s, g) == SumOf(s, f) / d
  {
    if s != [] {
      SumOfScaled(s[1..], f, g, d);
    }
  }

  // Duplicates.

  predicate NoDuplicates<T(==)>(s: seq<T>) {
    forall i, j :: 0 <= i < j < |s| ==> s[i] != s[j]
  }

  /** `unique()`: the distinct elements, in the order of their first appearance. */
  function Distinct<T(==,!new)>(s: seq<T>): (r: seq<T>)
    ensures forall x :: x in r <==> x in s
    ensures NoDuplicates(r)
    ensures |r| <= |s|
    ensures NoDuplicates(s) ==> r == s
  {
    if s == [] then []
    else
      var r := Distinct(s[..|s| - 1]);
      assert s == s[..|s| - 1] + [s[|s| - 1]];
      if s[|s| - 1] in r then r else r + [s[|s| - 1]]
  }

  /** A sequence without duplicates holds each element at most once. */
  lemma {:induction false} NoDuplicatesMultiplicity<T>(s: seq<T>)
    requires NoDuplicates(s)
    ensures forall x :: multiset(s)[x] <= 1
  {
    if s != [] {
      assert s == [s[0]] + s[1..];
      assert s[0] !in s[1..];
      NoDuplicatesMultiplicity(s[1..]);
    }
  }

  /** Reordering a sequence without duplicates gives one without duplicates. */
  lemma PermutationNoDuplicates<T>(a: seq<T>, b: seq<T>)
    requires NoDuplicates(a) && multiset(a) == multiset(b)
    ensures NoDuplicates(b)
  {
    NoDuplicatesMultiplicity(a);
    forall i, j | 0 <= i < j < |b| ensures b[i] != b[j] {
      RepeatMultiplicity(b, i, j);
    }
  }

  lemma RepeatMultiplicity<T>(b: seq<T>, i: nat, j: nat)
    requires i < j < |b|
    ensures b[i] == b[j] ==> multiset(b)[b[i]] >= 2
  {
    assert b == b[..j] + b[j..];
    assert b[i] in b[..j] && b[j] in b[j..];
  }
}
