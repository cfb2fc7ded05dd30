/** Option and Result, the failure-carrying datatypes used throughout the model. */
module Wrappers {

  datatype Option<+T> = None | Some(value: T)

  datatype Result<+T, +E> = Ok(value: T) | Err(error: E)
}

/** Sequence operations shared by the model: JavaScript's `filter`, `take`, counting,
    and the `.unique()` lookup of the document store. */
module Seqs {

  /** `s.filter(p)`: the elements satisfying `p`, in their original order. */
  function Filter<T>(s: seq<T>, p: T -> bool): seq<T>
  {
    if s == [] then [] else (if p(s[0]) then [s[0]] else []) + Filter(s[1..], p)
  }

  /** `s.filter(p).length`. */
  function Count<T>(s: seq<T>, p: T -> bool): nat
  {
    if s == [] then 0 else (if p(s[0]) then 1 else 0) + Count(s[1..], p)
  }

  /** `query.take(n)` and `s.slice(0, n)`: the first `n` elements, or all of them when there are fewer. */
  function Take<T>(s: seq<T>, n: nat): (r: seq<T>)
  {
    if |s| <= n then s else s[..n]
  }

  function Min(a: int, b: int): int { if a <= b then a else b }

  /** `a` is `b` with some elements removed and the rest kept in order. */
  predicate IsSubsequence<T(==)>(a: seq<T>, b: seq<T>)
    decreases |b|
  {
    if a == [] then true
    else if b == [] then false
    else if a[0] == b[0] && IsSubsequence(a[1..], b[1..]) then true
    else IsSubsequence(a, b[1..])
  }

  lemma TakeProperties<T>(s: seq<T>, n: nat)
    ensures |Take(s, n)| == Min(|s|, n)
    ensures Take(s, n) == s[..|Take(s, n)|]
  {
  }

  lemma {:induction false} FilterMembers<T>(s: seq<T>, p: T -> bool)
    ensures forall x :: x in Filter(s, p) <==> x in s && p(x)
  {
    if s != [] {
      FilterMembers(s[1..], p);
      assert s == [s[0]] + s[1..];
    }
  }

  lemma FilterSatisfies<T>(s: seq<T>, p: T -> bool)
    ensures forall i :: 0 <= i < |Filter(s, p)| ==> p(Filter(s, p)[i])
  {
    FilterMembers(s, p);
    forall i | 0 <= i < |Filter(s, p)| ensures p(Filter(s, p)[i]) {
      assert Filter(s, p)[i] in Filter(s, p);
    }
  }

  /** Filtering one more element at the end adds it when it passes. */
  lemma {:induction false} FilterSnoc<T>(s: seq<T>, x: T, p: T -> bool)
    ensures Filter(s + [x], p) == Filter(s, p) + (if p(x) then [x] else [])
  {
    if s == [] {
      assert [] + [x] == [x];
    } else {
      FilterSnoc(s[1..], x, p);
      assert (s + [x])[1..] == s[1..] + [x];
    }
  }

  lemma {:induction false} FilterLength<T>(s: seq<T>, p: T -> bool)
    ensures |Filter(s, p)| == Count(s, p) <= |s|
  {
    if s != [] {
      FilterLength(s[1..], p);
    }
  }

  lemma {:induction false} FilterIsSubsequence<T>(s: seq<T>, p: T -> bool)
    ensures IsSubsequence(Filter(s, p), s)
  {
    if s != [] {
      FilterIsSubsequence(s[1..], p);
      var f := Filter(s[1..], p);
      if p(s[0]) {
        assert Filter(s, p) == [s[0]] + f;
        assert ([s[0]] + f)[1..] == f;
      } else {
        assert Filter(s, p) == f;
        if f != [] {
          SubsequenceOfTail(f, s);
        }
      }
    }
  }

  lemma {:induction false} FilterAppend<T>(a: seq<T>, b: seq<T>, p: T -> bool)
    ensures Filter(a + b, p) == Filter(a, p) + Filter(b, p)
  {
    if a != [] {
      FilterAppend(a[1..], b, p);
      assert (a + b)[1..] == a[1..] + b;
    } else {
      assert a + b == b;
    }
  }

  lemma {:induction false} SubsequenceTransitive<T>(a: seq<T>, b: seq<T>, c: seq<T>)
    requires IsSubsequence(a, b) && IsSubsequence(b, c)
    ensures IsSubsequence(a, c)
    decreases |c|
  {
    if a != [] && b != [] && c != [] {
      if b[0] == c[0] && IsSubsequence(b[1..], c[1..]) {
        if a[0] == b[0] && IsSubsequence(a[1..], b[1..]) {
          SubsequenceTransitive(a[1..], b[1..], c[1..]);
        } else {
          SubsequenceTransitive(a, b[1..], c[1..]);
        }
      } else {
        SubsequenceTransitive(a, b, c[1..]);
      }
    }
  }

  /** A subsequence of a sequence's tail is a subsequence of the sequence. */
  lemma SubsequenceOfTail<T>(a: seq<T>, b: seq<T>)
    requires b != [] && IsSubsequence(a, b[1..])
    ensures IsSubsequence(a, b)
  {
  }

  /** Filtering with a predicate that holds everywhere keeps everything. */
  lemma {:induction false} FilterAll<T>(s: seq<T>, p: T -> bool)
    requires forall x :: x in s ==> p(x)
    ensures Filter(s, p) == s
  {
    if s != [] {
      FilterAll(s[1..], p);
    }
  }

  /** The elements satisfying `p` and those satisfying its complement `q` together are all of them. */
  lemma {:induction false} CountComplement<T>(s: seq<T>, p: T -> bool, q: T -> bool)
    requires forall x :: q(x) == !p(x)
    ensures Count(s, p) + Count(s, q) == |s|
  {
    if s != [] {
      CountComplement(s[1..], p, q);
    }
  }

  /** Counting with a weaker predicate counts at least as many elements. */
  lemma {:induction false} CountMonotone<T>(s: seq<T>, p: T -> bool, q: T -> bool)
    requires forall x :: p(x) ==> q(x)
    ensures Count(s, p) <= Count(s, q)
  {
    if s != [] {
      CountMonotone(s[1..], p, q);
    }
  }

  /** Three predicates of which at most one holds of any element split off at most all elements;
      `rest` counts exactly the ones none of them catches. */
  lemma {:induction false} CountPartition<T>(s: seq<T>, p: T -> bool, q: T -> bool, r: T -> bool, rest: T -> bool)
    requires forall x :: !(p(x) && q(x)) && !(p(x) && r(x)) && !(q(x) && r(x))
    requires forall x :: rest(x) == !(p(x) || q(x) || r(x))
    ensures Count(s, p) + Count(s, q) + Count(s, r) + Count(s, rest) == |s|
  {
    if s != [] {
      CountPartition(s[1..], p, q, r, rest);
    }
  }

  /** The outcome of a `.unique()` query: no match, one match at an index, or several matches
      (in which case the store throws). */
  datatype Lookup = Absent | At(index: nat) | Ambiguous

  function FindUnique<T>(s: seq<T>, key: T -> bool): (r: Lookup)
    ensures r.Absent? <==> forall i :: 0 <= i < |s| ==> !key(s[i])
    ensures r.At? ==> r.index < |s| && key(s[r.index])
    ensures r.At? ==> forall j :: 0 <= j < |s| && j != r.index ==> !key(s[j])
    ensures r.Ambiguous? <==> exists i, j :: 0 <= i < j < |s| && key(s[i]) && key(s[j])
  {
    if s == [] then Absent
    else
      match FindUnique(s[1..], key)
      case Absent => if key(s[0]) then At(0) else Absent
      case At(j) =>
        assert key(s[1..][j]);
        if key(s[0]) then Ambiguous else At(j + 1)
      case Ambiguous =>
        assert exists i, j :: 0 < i < j < |s| && key(s[i]) && key(s[j]) by {
          var i, j :| 0 <= i < j < |s[1..]| && key(s[1..][i]) && key(s[1..][j]);
          assert key(s[i + 1]) && key(s[j + 1]);
        }
        Ambiguous
  }

  /** Replacing the element that a unique lookup found by one with the same key leaves the
      lookup where it was: a patch that keeps the key keeps the record findable. */
  lemma FindUniqueAfterReplace<T>(s: seq<T>, key: T -> bool, v: T)
    requires FindUnique(s, key).At?
    requires key(v)
    ensures FindUnique(s[FindUnique(s, key).index := v], key) == FindUnique(s, key)
  {
    var i := FindUnique(s, key).index;
    var t := s[i := v];
    assert key(t[i]);
    forall j | 0 <= j < |t| && j != i ensures !key(t[j]) {
      assert t[j] == s[j];
    }
  }
}
