/**
 * ORDER BY with LIMIT over a set of rows. A row is represented by the columns it is ordered by:
 * a time and up to two identifiers, the last ones breaking ties.
 */
module Ordering {
  import opened Prelude

  datatype SortKey = SortKey(at: int, id: string, sub: string)

  /** Text order. On canonical identifiers it is the database's identifier order. */
  predicate TextLess(a: string, b: string) {
    |b| > 0 && (|a| == 0 || a[0] < b[0] || (a[0] == b[0] && TextLess(a[1..], b[1..])))
  }

  lemma SameStart(a: string, b: string, i: nat)
    requires i <= |a| && i < |b| && a[..i] == b[..i]
    ensures i > 0 ==> a[0] == b[0]
  {
    if i > 0 { assert a[0] == a[..i][0] && b[0] == b[..i][0]; }
  }

  /** One text sorts before another when it is a proper beginning of it, or smaller where they first differ. */
  lemma {:induction false} TextLessIsDictionaryOrder(a: string, b: string)
    ensures TextLess(a, b) <==> exists i :: 0 <= i <= |a| && i < |b| && a[..i] == b[..i] && (i == |a| || a[i] < b[i])
  {
    if a != [] && b != [] && a[0] == b[0] {
      var c, d := a[1..], b[1..];
      TextLessIsDictionaryOrder(c, d);
      if i :| 0 <= i <= |c| && i < |d| && c[..i] == d[..i] && (i == |c| || c[i] < d[i]) {
        assert a[..i + 1] == [a[0]] + c[..i] && b[..i + 1] == [b[0]] + d[..i];
      }
      if i :| 0 <= i <= |a| && i < |b| && a[..i] == b[..i] && (i == |a| || a[i] < b[i]) {
        assert i > 0 && c[..i - 1] == a[..i][1..] && d[..i - 1] == b[..i][1..];
      }
    } else if b != [] {
      assert a[..0] == b[..0];
      if i :| 0 <= i <= |a| && i < |b| && a[..i] == b[..i] && (i == |a| || a[i] < b[i]) {
        SameStart(a, b, i);
      }
    }
  }

  predicate Before(a: SortKey, b: SortKey) {
    || a.at < b.at
    || (a.at == b.at && (TextLess(a.id, b.id) || (a.id == b.id && TextLess(a.sub, b.sub))))
  }

  /** The time decides first, then the first identifier, then the second. */
  lemma BeforeIsByColumns(a: SortKey, b: SortKey)
    ensures a.at != b.at ==> (Before(a, b) <==> a.at < b.at)
    ensures a.at == b.at && a.id != b.id ==> (Before(a, b) <==> TextLess(a.id, b.id))
    ensures a.at == b.at && a.id == b.id ==> (Before(a, b) <==> TextLess(a.sub, b.sub))
  {
    TextLessTotal(a.id, b.id);
  }

  lemma {:induction false} TextLessTotal(a: string, b: string)
    ensures a == b ==> !TextLess(a, b)
    ensures !(TextLess(a, b) && TextLess(b, a))
    ensures a != b ==> TextLess(a, b) || TextLess(b, a)
  {
    if a != [] && b != [] && a[0] == b[0] {
      TextLessTotal(a[1..], b[1..]);
      assert a == [a[0]] + a[1..] && b == [b[0]] + b[1..];
    }
  }

  lemma {:induction false} TextLessTransitive(a: string, b: string, c: string)
    requires TextLess(a, b) && TextLess(b, c)
    ensures TextLess(a, c)
  {
    if a != [] && a[0] == b[0] && b[0] == c[0] {
      TextLessTransitive(a[1..], b[1..], c[1..]);
    }
  }

  lemma BeforeTotal(a: SortKey, b: SortKey)
    ensures a == b ==> !Before(a, b)
    ensures !(Before(a, b) && Before(b, a))
    ensures a != b ==> Before(a, b) || Before(b, a)
  {
    TextLessTotal(a.id, b.id);
    TextLessTotal(a.sub, b.sub);
  }

  lemma BeforeTransitive(a: SortKey, b: SortKey, c: SortKey)
    requires Before(a, b) && Before(b, c)
    ensures Before(a, c)
  {
    if TextLess(a.id, b.id) && TextLess(b.id, c.id) { TextLessTransitive(a.id, b.id, c.id); }
    if TextLess(a.sub, b.sub) && TextLess(b.sub, c.sub) { TextLessTransitive(a.sub, b.sub, c.sub); }
  }

  predicate IsLeast(m: SortKey, keys: set<SortKey>) {
    m in keys && forall k :: k in keys ==> k == m || Before(m, k)
  }

  lemma {:induction false} LeastExists(keys: set<SortKey>)
    requires keys != {}
    ensures exists m :: IsLeast(m, keys)
  {
    var x :| x in keys;
    if keys == {x} {
      assert IsLeast(x, keys);
    } else {
      var rest := keys - {x};
      LeastExists(rest);
      var m :| IsLeast(m, rest);
      BeforeTotal(x, m);
      if Before(x, m) {
        forall k | k in keys ensures k == x || Before(x, k) {
          if k != x && k != m { BeforeTransitive(x, m, k); }
        }
        assert IsLeast(x, keys);
      } else {
        assert IsLeast(m, keys);
      }
    }
  }

  predicate IsGreatest(m: SortKey, keys: set<SortKey>) {
    m in keys && forall k :: k in keys ==> k == m || Before(k, m)
  }

  lemma {:induction false} GreatestExists(keys: set<SortKey>)
    requires keys != {}
    ensures exists m :: IsGreatest(m, keys)
  {
    hide Before;
    var x :| x in keys;
    if keys == {x} {
      assert IsGreatest(x, keys);
    } else {
      var rest := keys - {x};
      GreatestExists(rest);
      var m :| IsGreatest(m, rest);
      BeforeTotal(x, m);
      if Before(m, x) {
        forall k | k in keys ensures k == x || Before(k, x) {
          if k != x && k != m { BeforeTransitive(k, m, x); }
        }
        assert IsGreatest(x, keys);
      } else {
        assert IsGreatest(m, keys);
      }
    }
  }

  lemma LeastUnique(a: SortKey, b: SortKey, keys: set<SortKey>)
    requires IsLeast(a, keys) && IsLeast(b, keys)
    ensures a == b
  {
    BeforeTotal(a, b);
  }

  function Least(keys: set<SortKey>): (m: SortKey)
    requires keys != {}
    ensures IsLeast(m, keys)
  {
    LeastExists(keys);
    assert forall a, b :: IsLeast(a, keys) && IsLeast(b, keys) ==> a == b by {
      forall a, b | IsLeast(a, keys) && IsLeast(b, keys) ensures a == b { LeastUnique(a, b, keys); }
    }
    var m :| IsLeast(m, keys);
    m
  }

  /** ORDER BY ... LIMIT n: take the least row, then order the rest. */
  function First(keys: set<SortKey>, n: nat): (r: set<SortKey>)
    ensures r <= keys
  {
    if n == 0 || keys == {} then {}
    else {Least(keys)} + First(keys - {Least(keys)}, n - 1)
  }

  lemma OneMore(part: set<SortKey>, k: SortKey, keys: set<SortKey>)
    requires k in keys && keys - {k} == part
    ensures |keys| == |part| + 1
  {}

  lemma OneLess(keys: set<SortKey>, k: SortKey)
    requires k in keys
    ensures |keys| == |keys - {k}| + 1
  {}

  lemma FirstStep(keys: set<SortKey>, n: nat)
    requires n > 0 && keys != {}
    ensures var rest := keys - {Least(keys)};
      && Least(keys) in keys && Least(keys) in First(keys, n)
      && First(keys, n) - {Least(keys)} == First(rest, n - 1)
      && keys - First(keys, n) == rest - First(rest, n - 1)
  {}

  /** The size of the first n rows of a set, and of the rest, told by numbers alone. */
  predicate Counted(keys: set<SortKey>, n: nat, size: nat, taken: nat) {
    |keys| == size && |First(keys, n)| == taken && taken == Min(n, size)
  }

  lemma CountMore(keys: set<SortKey>, n: nat, size: nat, taken: nat)
    requires n > 0 && keys != {} && Counted(keys - {Least(keys)}, n - 1, size, taken)
    ensures Counted(keys, n, size + 1, taken + 1)
  {
    hide First, Least;
    FirstStep(keys, n);
    OneMore(keys - {Least(keys)}, Least(keys), keys);
    OneMore(First(keys - {Least(keys)}, n - 1), Least(keys), First(keys, n));
  }

  lemma {:induction false} FirstCount(keys: set<SortKey>, n: nat) returns (size: nat, taken: nat)
    ensures Counted(keys, n, size, taken)
    decreases n
  {
    if n == 0 || keys == {} {
      FirstOfNone(keys, n);
      size, taken := |keys|, 0;
    } else {
      hide First, Least, Counted;
      size, taken := FirstCount(keys - {Least(keys)}, n - 1);
      CountMore(keys, n, size, taken);
      size, taken := size + 1, taken + 1;
    }
  }

  /** LIMIT returns n rows, or all of them when there are fewer. */
  lemma FirstSize(keys: set<SortKey>, n: nat)
    ensures |First(keys, n)| == Min(n, |keys|)
    ensures |keys| <= n ==> First(keys, n) == keys
    ensures |keys - First(keys, n)| == |keys| - Min(n, |keys|)
  {
    var size, taken := FirstCount(keys, n);
    FirstPart(keys, n);
    SizeOfPart(First(keys, n), keys);
  }

  lemma FirstPart(keys: set<SortKey>, n: nat)
    ensures First(keys, n) <= keys
  {}

  /** LIMIT never passes over a row that sorts before one it returns. */
  lemma {:induction false} FirstSortBeforeRest(keys: set<SortKey>, n: nat, taken: SortKey, left: SortKey)
    requires taken in First(keys, n) && left in keys && left !in First(keys, n)
    ensures Before(taken, left)
  {
    if taken != Least(keys) {
      FirstSortBeforeRest(keys - {Least(keys)}, n - 1, taken, left);
    }
  }

  /** Taking m rows and then n of what is left is taking m + n rows at once. */
  lemma {:induction false} FirstThenNext(keys: set<SortKey>, m: nat, n: nat)
    ensures First(keys, m) + First(keys - First(keys, m), n) == First(keys, m + n)
  {
    if m == 0 || keys == {} {
      assert keys - {} == keys;
    } else {
      var rest := keys - {Least(keys)};
      FirstThenNext(rest, m - 1, n);
      assert keys - First(keys, m) == rest - First(rest, m - 1);
    }
  }

  /** The rows that sort before this one. */
  function Earlier(keys: set<SortKey>, key: SortKey): set<SortKey> {
    set k | k in keys && Before(k, key)
  }

  lemma NothingBeforeLeast(keys: set<SortKey>)
    requires keys != {}
    ensures Earlier(keys, Least(keys)) == {}
  {
    forall k | k in keys ensures !Before(k, Least(keys)) { BeforeTotal(k, Least(keys)); }
  }

  lemma EarlierStep(keys: set<SortKey>, key: SortKey)
    requires key in keys && key != Least(keys)
    ensures |Earlier(keys, key)| == |Earlier(keys - {Least(keys)}, key)| + 1
  {
    var m := Least(keys);
    BeforeTotal(key, m);
    OneLess(Earlier(keys, key), m);
    assert Earlier(keys, key) - {m} == Earlier(keys - {m}, key);
  }

  /** LIMIT n returns exactly the rows with fewer than n rows before them. */
  lemma {:induction false} FirstIsRankBelow(keys: set<SortKey>, n: nat, key: SortKey)
    requires key in keys
    ensures key in First(keys, n) <==> |Earlier(keys, key)| < n
  {
    hide First, Least, Earlier;
    if n == 0 {
      FirstOfNone(keys, n);
    } else {
      FirstStep(keys, n);
      if key == Least(keys) {
        NothingBeforeLeast(keys);
      } else {
        EarlierStep(keys, key);
        FirstIsRankBelow(keys - {Least(keys)}, n - 1, key);
      }
    }
  }

  lemma FirstOfNone(keys: set<SortKey>, n: nat)
    requires n == 0 || keys == {}
    ensures First(keys, n) == {} && |First(keys, n)| == 0
  {}

  /** A part picked by rank is what LIMIT returns. */
  lemma PickedByRank(keys: set<SortKey>, n: nat, part: set<SortKey>)
    requires part <= keys && forall k :: k in keys ==> (k in part <==> |Earlier(keys, k)| < n)
    ensures part == First(keys, n)
  {
    hide First, Earlier;
    FirstIsPart(keys, n);
    forall k | k in keys ensures k in part <==> k in First(keys, n) { FirstIsRankBelow(keys, n, k); }
  }

  lemma FirstIsPart(keys: set<SortKey>, n: nat)
    ensures First(keys, n) <= keys && |First(keys, n)| <= n
  {
    FirstSize(keys, n);
  }

  lemma SizeOfPart(part: set<SortKey>, keys: set<SortKey>)
    requires part <= keys
    ensures |keys - part| == |keys| - |part|
    ensures |part| <= |keys|
    ensures |part| == |keys| <==> part == keys
  {
    if |keys - part| == 0 { assert part == keys; }
  }

  /** Whoever LIMIT leaves out sees exactly n rows fewer before it once the first n are gone. */
  lemma LeftOutMovesUp(keys: set<SortKey>, n: nat, key: SortKey)
    requires key in keys && key !in First(keys, n)
    ensures First(keys, n) <= Earlier(keys, key) && |First(keys, n)| == n
    ensures |Earlier(keys - First(keys, n), key)| == |Earlier(keys, key)| - n
  {
    forall k | k in First(keys, n) ensures Before(k, key) { FirstSortBeforeRest(keys, n, k, key); }
    FirstSize(keys, n);
    SizeOfPart(First(keys, n), Earlier(keys, key));
    assert Earlier(keys - First(keys, n), key) == Earlier(keys, key) - First(keys, n);
  }

  /** A row that LIMIT leaves out may as well be absent. */
  lemma FirstWithout(keys: set<SortKey>, n: nat, key: SortKey)
    requires key in keys && key !in First(keys, n)
    ensures First(keys - {key}, n) == First(keys, n)
  {
    hide First, Before;
    var first := First(keys, n);
    FirstIsPart(keys, n);
    forall k | k in keys - {key} ensures k in first <==> |Earlier(keys - {key}, k)| < n {
      FirstIsRankBelow(keys, n, k);
      if k in first {
        FirstSortBeforeRest(keys, n, k, key);
        BeforeTotal(k, key);
        assert Earlier(keys - {key}, k) == Earlier(keys, k);
      } else {
        LeftOutMovesUp(keys, n, k);
        SizeOfPart(first, Earlier(keys - {key}, k));
      }
    }
    PickedByRank(keys - {key}, n, first);
  }
}
