/** Shared vocabulary: optional values, results, and the few sequence
    combinators the route handlers are built from (filter, map, flatten). */
module Base {

  /** A value that may be absent: a missing request field, a NULL column. */
  datatype Option<+T> = None | Some(value: T)

  /** The outcome of a handler: a success value or a stable error kind. */
  datatype Result<+T, +E> = Ok(value: T) | Err(error: E)

  /** JavaScript truthiness of an optional string: absent and "" are falsy. */
  predicate Present(s: Option<string>)
  {
    s.Some? && s.value != ""
  }

  /** The smaller of two integers. */
  function Min(a: int, b: int): (m: int)
    ensures m <= a && m <= b
    ensures m == a || m == b
  {
    if a <= b then a else b
  }

  /** The elements of `s` that satisfy `p`, in their original order
      (`Array.prototype.filter`, or a SQL `WHERE` over a table scan). */
  function Filter<T(!new)>(p: T -> bool, s: seq<T>): (r: seq<T>)
    ensures |r| <= |s|
    ensures forall x :: x in r <==> x in s && p(x)
  {
    if s == [] then []
    else (if p(s[0]) then [s[0]] else []) + Filter(p, s[1..])
  }

  /** Applies `f` to every element, keeping positions (`Array.prototype.map`). */
  function MapSeq<T, U>(f: T -> U, s: seq<T>): (r: seq<U>)
    ensures |r| == |s|
    ensures forall i :: 0 <= i < |s| ==> r[i] == f(s[i])
  {
    seq(|s|, i requires 0 <= i < |s| => f(s[i]))
  }

  /** The in-order concatenation of a sequence of sequences. */
  function Flatten<T>(xss: seq<seq<T>>): (r: seq<T>)
    ensures forall i :: 0 <= i < |xss| ==> |xss[i]| <= |r|
    ensures r == [] <==> forall i :: 0 <= i < |xss| ==> xss[i] == []
  {
    if xss == [] then [] else xss[0] + Flatten(xss[1..])
  }

  /** Flattening distributes over appending one more sequence at the end. */
  lemma {:induction false} FlattenSnoc<T>(xss: seq<seq<T>>, xs: seq<T>)
    ensures Flatten(xss + [xs]) == Flatten(xss) + xs
  {
    if xss == [] {
      assert xss + [xs] == [xs];
    } else {
      assert (xss + [xs])[1..] == xss[1..] + [xs];
      FlattenSnoc(xss[1..], xs);
    }
  }

  /** Mapping each inner sequence and then flattening is the same as
      flattening first and mapping the result. */
  lemma {:induction false} FlattenMapSeq<T, U>(f: T -> U, xss: seq<seq<T>>)
    ensures Flatten(MapSeq((xs: seq<T>) => MapSeq(f, xs), xss)) == MapSeq(f, Flatten(xss))
  {
    var g := (xs: seq<T>) => MapSeq(f, xs);
    if xss != [] {
      assert MapSeq(g, xss)[1..] == MapSeq(g, xss[1..]);
      FlattenMapSeq(f, xss[1..]);
      assert MapSeq(f, xss[0] + Flatten(xss[1..])) == MapSeq(f, xss[0]) + MapSeq(f, Flatten(xss[1..]));
    }
  }

  /** The length of a flattened sequence is the sum of the inner lengths,
      so inner sequences of matching lengths flatten to matching lengths. */
  lemma {:induction false} FlattenSameLength<T, U>(xss: seq<seq<T>>, yss: seq<seq<U>>)
    requires |xss| == |yss|
    requires forall i :: 0 <= i < |xss| ==> |xss[i]| == |yss[i]|
    ensures |Flatten(xss)| == |Flatten(yss)|
  {
    if xss != [] {
      FlattenSameLength(xss[1..], yss[1..]);
    }
  }

  /** Filtering distributes over concatenation. */
  lemma {:induction false} FilterAppend<T(!new)>(p: T -> bool, a: seq<T>, b: seq<T>)
    ensures Filter(p, a + b) == Filter(p, a) + Filter(p, b)
  {
    if a == [] {
      assert a + b == b;
    } else {
      assert (a + b)[1..] == a[1..] + b;
      FilterAppend(p, a[1..], b);
    }
  }

  /** Mapping distributes over concatenation. */
  lemma MapSeqAppend<T, U>(f: T -> U, a: seq<T>, b: seq<T>)
    ensures MapSeq(f, a + b) == MapSeq(f, a) + MapSeq(f, b)
  {
  }

  /** In a sequence strictly increasing in `key`, every later element is
      above the first. */
  lemma HeadBelowTail<T>(s: seq<T>, key: T -> int)
    requires s != []
    requires forall i, j :: 0 <= i < j < |s| ==> key(s[i]) < key(s[j])
    ensures forall x :: x in s[1..] ==> key(s[0]) < key(x)
  {
    forall x | x in s[1..]
      ensures key(s[0]) < key(x)
    {
      var k :| 0 <= k < |s[1..]| && s[1..][k] == x;
      assert s[k + 1] == x;
    }
  }

  /** Putting an element below all of an increasing sequence in front of
      it keeps the sequence increasing. */
  lemma ConsKeepsOrder<T>(h: T, rest: seq<T>, key: T -> int)
    requires forall i, j :: 0 <= i < j < |rest| ==> key(rest[i]) < key(rest[j])
    requires forall x :: x in rest ==> key(h) < key(x)
    ensures forall i, j :: 0 <= i < j < |[h] + rest| ==> key(([h] + rest)[i]) < key(([h] + rest)[j])
  {
    var r := [h] + rest;
    forall i, j | 0 <= i < j < |r|
      ensures key(r[i]) < key(r[j])
    {
      assert r[j] == rest[j - 1] && rest[j - 1] in rest;
      if i > 0 {
        assert r[i] == rest[i - 1];
      }
    }
  }

  /** Filtering keeps the relative order of what it keeps: a sequence that
      is strictly increasing in `key` stays so. */
  lemma {:induction false} FilterKeepsOrder<T(!new)>(p: T -> bool, s: seq<T>, key: T -> int)
    requires forall i, j :: 0 <= i < j < |s| ==> key(s[i]) < key(s[j])
    ensures forall i, j :: 0 <= i < j < |Filter(p, s)| ==> key(Filter(p, s)[i]) < key(Filter(p, s)[j])
  {
    if s != [] {
      var rest := Filter(p, s[1..]);
      FilterKeepsOrder(p, s[1..], key);
      if p(s[0]) {
        HeadBelowTail(s, key);
        ConsKeepsOrder(s[0], rest, key);
        assert Filter(p, s) == [s[0]] + rest;
      } else {
        assert Filter(p, s) == rest;
      }
    }
  }

  /** The length of `s` in UTF-16 code units, as JavaScript's `.length`
      counts it: a character outside the Basic Multilingual Plane takes a
      surrogate pair. */
  function Utf16Length(s: string): (n: nat)
    ensures |s| <= n <= 2 * |s|
  {
    if s == [] then 0
    else (if (s[0] as int) < 0x1_0000 then 1 else 2) + Utf16Length(s[1..])
  }

  /** A string's UTF-16 length is its character count exactly when every
      character lies in the Basic Multilingual Plane. */
  lemma {:induction false} Utf16LengthIsCount(s: string)
    ensures Utf16Length(s) == |s| <==> forall i :: 0 <= i < |s| ==> (s[i] as int) < 0x1_0000
  {
    if s != [] {
      Utf16LengthIsCount(s[1..]);
      assert forall i :: 1 <= i < |s| ==> s[i] == s[1..][i - 1];
    }
  }

  /** The UTF-16 length of a concatenation is the sum of the lengths. */
  lemma {:induction false} Utf16LengthAppend(a: string, b: string)
    ensures Utf16Length(a + b) == Utf16Length(a) + Utf16Length(b)
  {
    if a == [] {
      assert a + b == b;
    } else {
      assert (a + b)[1..] == a[1..] + b;
      Utf16LengthAppend(a[1..], b);
    }
  }

  /** The elements of `s`, last first. */
  function Reverse<T>(s: seq<T>): (r: seq<T>)
    ensures |r| == |s|
    ensures forall i :: 0 <= i < |s| ==> r[i] == s[|s| - 1 - i]
  {
    seq(|s|, i requires 0 <= i < |s| => s[|s| - 1 - i])
  }

  /** Filtering drops nothing exactly when every element passes. */
  lemma {:induction false} FilterKeepsAll<T(!new)>(p: T -> bool, s: seq<T>)
    ensures |Filter(p, s)| == |s| <==> forall x :: x in s ==> p(x)
  {
    if s != [] {
      FilterKeepsAll(p, s[1..]);
      assert forall x :: x in s <==> x == s[0] || x in s[1..];
    }
  }
}
