/** Kotlin's `mutableSetOf()` is a LinkedHashSet: a set that remembers the order in
    which its elements were first added, and iterates in that order. Here it is a
    sequence without duplicates; adding an element already present leaves it where
    it is, removing an element keeps the order of the others. The functions carry no
    contracts, so that a proof about a loop over them sees only their definitions;
    what they guarantee is stated by the lemmas below them. */
module LinkedSets {

  predicate NoDup<T(==,!new)>(s: seq<T>) {
    forall i, j :: 0 <= i < j < |s| ==> s[i] != s[j]
  }

  /** `set.add(x)` */
  function Add<T(==)>(s: seq<T>, x: T): seq<T> {
    if x in s then s else s + [x]
  }

  /** Adds the elements of `xs` one after another, as a loop of `add` calls does. */
  function AddAll<T(==)>(s: seq<T>, xs: seq<T>): seq<T>
    decreases xs
  {
    if xs == [] then s else AddAll(Add(s, xs[0]), xs[1..])
  }

  /** `set -= x` */
  function Remove<T(==)>(s: seq<T>, x: T): seq<T> {
    if s == [] then []
    else if s[0] == x then Remove(s[1..], x)
    else [s[0]] + Remove(s[1..], x)
  }

  /** Removes the elements of `xs` one after another. */
  function RemoveAll<T(==)>(s: seq<T>, xs: seq<T>): seq<T>
    decreases xs
  {
    if xs == [] then s else RemoveAll(Remove(s, xs[0]), xs[1..])
  }

  lemma AddProperties<T(!new)>(s: seq<T>, x: T)
    ensures NoDup(s) ==> NoDup(Add(s, x))
    ensures forall y :: y in Add(s, x) <==> y in s || y == x
  {
  }

  lemma {:induction false} AddAllProperties<T(!new)>(s: seq<T>, xs: seq<T>)
    ensures NoDup(s) ==> NoDup(AddAll(s, xs))
    ensures forall y :: y in AddAll(s, xs) <==> y in s || y in xs
    decreases xs
  {
    if xs != [] {
      AddProperties(s, xs[0]);
      AddAllProperties(Add(s, xs[0]), xs[1..]);
      assert forall y :: y in xs <==> y == xs[0] || y in xs[1..];
    }
  }

  lemma {:induction false} AddAllAppend<T(!new)>(s: seq<T>, xs: seq<T>, ys: seq<T>)
    ensures AddAll(s, xs + ys) == AddAll(AddAll(s, xs), ys)
    decreases xs
  {
    if xs == [] {
      assert xs + ys == ys;
    } else {
      assert (xs + ys)[0] == xs[0];
      assert (xs + ys)[1..] == xs[1..] + ys;
      AddAllAppend(Add(s, xs[0]), xs[1..], ys);
    }
  }

  lemma {:induction false} RemoveProperties<T(!new)>(s: seq<T>, x: T)
    ensures NoDup(s) ==> NoDup(Remove(s, x))
    ensures forall y :: y in Remove(s, x) <==> y in s && y != x
  {
    if s != [] {
      RemoveProperties(s[1..], x);
      assert forall y :: y in s <==> y == s[0] || y in s[1..];
      if NoDup(s) {
        assert NoDup(s[1..]) by {
          forall i, j | 0 <= i < j < |s| - 1 ensures s[1..][i] != s[1..][j] {
            assert s[1..][i] == s[i + 1] && s[1..][j] == s[j + 1];
          }
        }
        assert s[0] !in s[1..] by {
          forall k | 0 <= k < |s| - 1 ensures s[1..][k] != s[0] {
            assert s[1..][k] == s[k + 1];
          }
        }
        var rest := Remove(s[1..], x);
        if s[0] != x {
          forall i, j | 0 <= i < j < |[s[0]] + rest| ensures ([s[0]] + rest)[i] != ([s[0]] + rest)[j] {
            if i == 0 {
              assert ([s[0]] + rest)[j] == rest[j - 1];
            } else {
              assert ([s[0]] + rest)[i] == rest[i - 1] && ([s[0]] + rest)[j] == rest[j - 1];
            }
          }
        }
      }
    }
  }

  lemma {:induction false} RemoveAllProperties<T(!new)>(s: seq<T>, xs: seq<T>)
    ensures NoDup(s) ==> NoDup(RemoveAll(s, xs))
    ensures forall y :: y in RemoveAll(s, xs) <==> y in s && y !in xs
    decreases xs
  {
    if xs != [] {
      RemoveProperties(s, xs[0]);
      RemoveAllProperties(Remove(s, xs[0]), xs[1..]);
      assert forall y :: y in xs <==> y == xs[0] || y in xs[1..];
    }
  }

  lemma {:induction false} RemoveAllAppend<T(!new)>(s: seq<T>, xs: seq<T>, ys: seq<T>)
    ensures RemoveAll(s, xs + ys) == RemoveAll(RemoveAll(s, xs), ys)
    decreases xs
  {
    if xs == [] {
      assert xs + ys == ys;
    } else {
      assert (xs + ys)[0] == xs[0];
      assert (xs + ys)[1..] == xs[1..] + ys;
      RemoveAllAppend(Remove(s, xs[0]), xs[1..], ys);
    }
  }
}
