/**
 * List operations shared by several components: `Array.prototype.filter`
 * and the add-or-remove toggle that both `Athletes.handleFollow` and
 * `ReminderModal.handleDayToggle` write as
 * `list.includes(x) ? list.filter(y => y !== x) : [...list, x]`.
 */
module Lists {
  /** `s.filter(p)`: the elements satisfying `p`, each as often as in `s`, in order. */
  function Filter<T(==,!new)>(s: seq<T>, p: T -> bool): (r: seq<T>)
    ensures |r| <= |s|
    ensures forall i :: 0 <= i < |r| ==> p(r[i])
    ensures forall x :: multiset(r)[x] == if p(x) then multiset(s)[x] else 0
  {
    KeepLength(s, p);
    KeepCounts(s, p);
    Keep(s, p)
  }

  /** The recursion that computes `Filter`, without its contract. */
  function Keep<T>(s: seq<T>, p: T -> bool): seq<T> {
    if s == [] then [] else (if p(s[0]) then [s[0]] else []) + Keep(s[1..], p)
  }

  lemma {:induction false} KeepLength<T>(s: seq<T>, p: T -> bool)
    ensures |Keep(s, p)| <= |s|
    decreases |s|
  {
    if s != [] {
      KeepLength(s[1..], p);
    }
  }

  lemma {:induction false} KeepCounts<T(!new)>(s: seq<T>, p: T -> bool)
    ensures forall i :: 0 <= i < |Keep(s, p)| ==> p(Keep(s, p)[i])
    ensures forall x :: multiset(Keep(s, p))[x] == if p(x) then multiset(s)[x] else 0
    decreases |s|
  {
    if s != [] {
      var x, t := s[0], s[1..];
      var h := if p(x) then [x] else [];
      assert s == [x] + t;
      KeepCons(x, t, p);
      KeepCounts(t, p);
      assert multiset(s) == multiset([x]) + multiset(t);
      assert multiset(Keep(s, p)) == multiset(h) + multiset(Keep(t, p));
    }
  }

  lemma {:induction false} KeepAppend<T>(a: seq<T>, b: seq<T>, p: T -> bool)
    ensures Keep(a + b, p) == Keep(a, p) + Keep(b, p)
    decreases |a|
  {
    if a == [] {
      assert a + b == b;
    } else {
      var x, t := a[0], a[1..];
      var h := if p(x) then [x] else [];
      assert a == [x] + t && a + b == [x] + (t + b);
      KeepCons(x, t, p);
      KeepCons(x, t + b, p);
      KeepAppend(t, b, p);
      Associative(h, Keep(t, p), Keep(b, p));
    }
  }

  lemma KeepCons<T>(x: T, s: seq<T>, p: T -> bool)
    ensures Keep([x] + s, p) == (if p(x) then [x] else []) + Keep(s, p)
  {
    assert ([x] + s)[0] == x && ([x] + s)[1..] == s;
  }

  lemma Associative<T>(a: seq<T>, b: seq<T>, c: seq<T>)
    ensures a + (b + c) == (a + b) + c
  {
  }

  /** Filtering distributes over concatenation, so the order of the kept elements is the order in `s`. */
  lemma FilterAppend<T(!new)>(a: seq<T>, b: seq<T>, p: T -> bool)
    ensures Filter(a + b, p) == Filter(a, p) + Filter(b, p)
  {
    KeepAppend(a, b, p);
  }

  /** A filter that keeps as many elements as it was given keeps all of them. */
  lemma FilterCountsAll<T(!new)>(s: seq<T>, p: T -> bool)
    requires |Filter(s, p)| == |s|
    ensures forall i :: 0 <= i < |s| ==> p(s[i])
  {
    KeepCountsAll(s, p);
  }

  lemma {:induction false} KeepCountsAll<T>(s: seq<T>, p: T -> bool)
    requires |Keep(s, p)| == |s|
    ensures forall i :: 0 <= i < |s| ==> p(s[i])
    decreases |s|
  {
    if s != [] {
      var x, t := s[0], s[1..];
      assert s == [x] + t;
      KeepCons(x, t, p);
      KeepLength(t, p);
      KeepCountsAll(t, p);
      forall i | 0 <= i < |s|
        ensures p(s[i])
      {
        if i > 0 {
          assert s[i] == t[i - 1];
        }
      }
    }
  }

  /** Filtering a list grown by one element. */
  lemma FilterSnoc<T(!new)>(a: seq<T>, x: T, p: T -> bool)
    ensures Filter(a + [x], p) == if p(x) then Filter(a, p) + [x] else Filter(a, p)
  {
    KeepAppend(a, [x], p);
    KeepCons(x, [], p);
    assert [x] + [] == [x];
  }

  lemma PrefixSnoc<T>(s: seq<T>, i: nat)
    requires i < |s|
    ensures s[..i + 1] == s[..i] + [s[i]]
  {
  }

  /** A filter that keeps every element is the identity. */
  lemma {:induction false} FilterAll<T(!new)>(s: seq<T>, p: T -> bool)
    requires forall i :: 0 <= i < |s| ==> p(s[i])
    ensures Filter(s, p) == s
    decreases |s|
  {
    if s != [] {
      FilterAll(s[1..], p);
    }
  }

  /** `s.filter(y => y !== x)`. */
  function Remove<T(==,!new)>(s: seq<T>, x: T): (r: seq<T>)
    ensures x !in r
    ensures forall y :: y != x ==> multiset(r)[y] == multiset(s)[y]
  {
    Filter(s, y => y != x)
  }

  /** No element occurs twice. */
  ghost predicate NoDuplicates<T(!new)>(s: seq<T>) {
    forall x :: multiset(s)[x] <= 1
  }

  /** Remove `x` when present, otherwise append it at the end. */
  function Toggle<T(==,!new)>(s: seq<T>, x: T): (r: seq<T>)
    ensures x in r <==> x !in s
    ensures forall y :: y != x ==> (y in r <==> y in s)
  {
    if x in s then
      Remove(s, x)
    else
      var r := s + [x];
      assert forall y :: multiset(r)[y] == multiset(s)[y] + (if y == x then 1 else 0);
      r
  }

  /** A toggle never creates a duplicate. */
  lemma ToggleKeepsNoDuplicates<T(!new)>(s: seq<T>, x: T)
    requires NoDuplicates(s)
    ensures NoDuplicates(Toggle(s, x))
  {
    if x !in s {
      assert forall y :: multiset(s + [x])[y] == multiset(s)[y] + (if y == x then 1 else 0);
    }
  }

  /**
   * Every other element stays where it was relative to the rest: apart
   * from `x` itself the list is unchanged.
   */
  lemma ToggleKeepsOthers<T(!new)>(s: seq<T>, x: T)
    ensures Remove(Toggle(s, x), x) == Remove(s, x)
  {
    var p := (y: T) => y != x;
    if x in s {
      FilterAll(Remove(s, x), p);
    } else {
      FilterAppend(s, [x], p);
      assert Filter([x], p) == [];
    }
  }

  /** Toggling an absent element twice gives back the original list. */
  lemma ToggleTwiceAbsent<T(!new)>(s: seq<T>, x: T)
    requires x !in s
    ensures Toggle(Toggle(s, x), x) == s
  {
    var p := (y: T) => y != x;
    FilterAppend(s, [x], p);
    assert Filter([x], p) == [];
    FilterAll(s, p);
  }

  /**
   * Toggling a present element twice restores membership of every
   * element; the element itself moves to the end.
   */
  lemma ToggleTwicePresent<T(!new)>(s: seq<T>, x: T)
    requires x in s
    ensures Toggle(Toggle(s, x), x) == Remove(s, x) + [x]
    ensures forall y :: y in Toggle(Toggle(s, x), x) <==> y in s
  {
  }

  /** `s.map((x, i) => f(x, i))`. */
  function MapIndexed<A, B>(s: seq<A>, f: (A, nat) -> B): (r: seq<B>)
    ensures |r| == |s| && forall i :: 0 <= i < |s| ==> r[i] == f(s[i], i)
  {
    seq(|s|, i requires 0 <= i < |s| => f(s[i], i))
  }

  /** Mapping one more element of a prefix appends its image. */
  lemma MapIndexedSnoc<A, B>(s: seq<A>, i: nat, f: (A, nat) -> B)
    requires i < |s|
    ensures MapIndexed(s[..i + 1], f) == MapIndexed(s[..i], f) + [f(s[i], i)]
  {
  }
}
