/** Small generic helpers shared by the other modules. */
module Base {

  datatype Option<T> = None | Some(value: T)

  /** A value read from a byte sequence, together with the cursor just after it. */
  datatype Parsed<T> = Parsed(value: T, next: nat)

  predicate NoDup<T(==)>(s: seq<T>)
  {
    forall i, j :: 0 <= i < j < |s| ==> s[i] != s[j]
  }

  /** Linear search from the front, as std::find does: the position of the first
      occurrence of x in s, or |s| when x does not occur. */
  function Find<T(==)>(s: seq<T>, x: T): (i: nat)
    ensures i <= |s|
    ensures i < |s| ==> s[i] == x
    ensures forall j :: 0 <= j < i ==> s[j] != x
  {
    if s == [] then 0
    else if s[0] == x then 0
    else 1 + Find(s[1..], x)
  }

  lemma FindAbsent<T>(s: seq<T>, x: T)
    ensures Find(s, x) == |s| <==> x !in s
  {
  }

  /** Find on a longer sequence: an element already present keeps its position, and
      an element that was absent is found at the appended end. */
  lemma FindAppend<T>(s: seq<T>, y: T, x: T)
    ensures x in s ==> Find(s + [y], x) == Find(s, x)
    ensures x !in s && x == y ==> Find(s + [y], x) == |s|
  {
    var t := s + [y];
    var i, k := Find(t, x), Find(s, x);
    if x in s {
      FindAbsent(s, x);
      assert t[k] == x;
      assert forall j :: 0 <= j < k ==> t[j] == s[j];
    } else if x == y {
      assert t[|s|] == x;
      assert forall j :: 0 <= j < |s| ==> t[j] == s[j];
    }
  }

  /** The elements of xs that are not in known, each once, in the order in which they
      first occur in xs. Defined by extending a prefix, the way a loop builds it. */
  function Firsts<T(==)>(known: seq<T>, xs: seq<T>): seq<T>
  {
    if xs == [] then []
    else
      var f := Firsts(known, xs[..|xs| - 1]);
      var x := xs[|xs| - 1];
      if x in known || x in f then f else f + [x]
  }

  /** Firsts holds every element of xs outside known exactly once, and lists them in
      the order of their first occurrences in xs. */
  lemma {:induction false} FirstsSpec<T>(known: seq<T>, xs: seq<T>)
    ensures forall y :: y in Firsts(known, xs) ==> y in xs && y !in known
    ensures forall y :: y in xs && y !in known ==> y in Firsts(known, xs)
    ensures NoDup(known) ==> NoDup(known + Firsts(known, xs))
    ensures NoDup(Firsts(known, xs))
    ensures forall i, j :: 0 <= i < j < |Firsts(known, xs)| ==>
              Find(xs, Firsts(known, xs)[i]) < Find(xs, Firsts(known, xs)[j])
  {
    if xs != [] {
      var ys, x := xs[..|xs| - 1], xs[|xs| - 1];
      assert xs == ys + [x];
      FirstsSpec(known, ys);
      var f := Firsts(known, ys);
      forall y | y in f
        ensures Find(xs, y) == Find(ys, y) < |ys|
      {
        assert y in Firsts(known, ys);
        assert y in ys;
        FindAppend(ys, x, y);
        FindAbsent(ys, y);
      }
      if !(x in known || x in f) {
        assert x !in ys;
        FindAppend(ys, x, x);
        var g := f + [x];
        forall i, j | 0 <= i < j < |g|
          ensures Find(xs, g[i]) < Find(xs, g[j])
        {
          assert g[i] in f;
          if j < |f| {
            assert g[j] in f;
          }
        }
        assert NoDup(g) by {
          forall i, j | 0 <= i < j < |g| ensures g[i] != g[j] {
            assert g[i] in f;
          }
        }
        if NoDup(known) {
          var h := known + g;
          assert h == (known + f) + [x];
          forall i, j | 0 <= i < j < |h| ensures h[i] != h[j] {
            if j == |h| - 1 {
              assert h[i] in known + f;
            } else {
              assert h[i] == (known + f)[i] && h[j] == (known + f)[j];
            }
          }
        }
      }
    }
  }

  /** Entry i of Firsts occurs in xs before entry j when i < j. */
  lemma {:induction false} FirstsOrder<T>(known: seq<T>, xs: seq<T>, i: nat, j: nat)
    requires i < j < |Firsts(known, xs)|
    ensures Find(xs, Firsts(known, xs)[i]) < Find(xs, Firsts(known, xs)[j])
  {
    FirstsSpec(known, xs);
  }

  /** Collecting first occurrences over xs then ys is collecting over xs, then over
      ys with the first batch counted as known. */
  lemma {:induction false} FirstsConcat<T>(known: seq<T>, xs: seq<T>, ys: seq<T>)
    ensures Firsts(known, xs + ys) == Firsts(known, xs) + Firsts(known + Firsts(known, xs), ys)
  {
    if ys == [] {
      assert xs + ys == xs;
    } else {
      var zs, y := ys[..|ys| - 1], ys[|ys| - 1];
      assert (xs + ys)[..|xs + ys| - 1] == xs + zs;
      assert (xs + ys)[|xs + ys| - 1] == y;
      FirstsConcat(known, xs, zs);
    }
  }

  /** The first occurrences in a one-element sequence. */
  lemma FirstsSingle<T>(known: seq<T>, x: T)
    ensures Firsts(known, [x]) == if x in known then [] else [x]
  {
    assert [x][..0] == [];
  }

  /** Nothing is new when every element is already known. */
  lemma {:induction false} FirstsAllKnown<T>(known: seq<T>, xs: seq<T>)
    requires forall y :: y in xs ==> y in known
    ensures Firsts(known, xs) == []
  {
    if xs != [] {
      var ys := xs[..|xs| - 1];
      assert forall y :: y in ys ==> y in xs;
      FirstsAllKnown(known, ys);
      assert xs[|xs| - 1] in xs;
    }
  }
}
