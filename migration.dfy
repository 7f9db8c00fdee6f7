/**
 * The floating-button order migration: a five-entry order without `refresh`
 * gets `refresh` inserted right after `forward`. The settings store runs it on
 * the raw document read from disk and on every normalised snapshot, so it is
 * written once for any element type.
 */
module ButtonOrderMigration {
  import opened SettingsSchema

  /** `Array.prototype.indexOf`: the first position of `x`, or -1. */
  function IndexOf<T(==)>(s: seq<T>, x: T): (i: int)
    ensures -1 <= i < |s|
    ensures i == -1 <==> x !in s
    ensures 0 <= i ==> s[i] == x && x !in s[..i]
  {
    if s == [] then -1
    else if s[0] == x then 0
    else
      var j := IndexOf(s[1..], x);
      assert j >= 0 ==> s[1..][..j] == s[1..j + 1] && s[..j + 1] == [s[0]] + s[1..j + 1];
      if j == -1 then -1 else j + 1
  }

  /** The migration has work to do. */
  predicate Applies<T(==)>(order: seq<T>, forward: T, refresh: T)
  {
    |order| == 5 && refresh !in order && forward in order
  }

  function Migrate<T(==)>(order: seq<T>, forward: T, refresh: T): (r: seq<T>)
    ensures |r| == if Applies(order, forward, refresh) then 6 else |order|
  {
    if |order| == 5 && refresh !in order then
      var i := IndexOf(order, forward);
      if i != -1 then order[..i + 1] + [refresh] + order[i + 1..] else order
    else
      order
  }

  /**
   * Where it applies, `refresh` lands right after the first `forward` and
   * every other entry keeps its place relative to the others.
   */
  lemma MigrateInserts<T>(order: seq<T>, forward: T, refresh: T)
    requires Applies(order, forward, refresh)
    ensures var r := Migrate(order, forward, refresh); var i := IndexOf(order, forward);
      && |r| == 6
      && r[i] == forward && r[i + 1] == refresh
      && r[..i + 1] == order[..i + 1]
      && r[i + 2..] == order[i + 1..]
      && multiset(r) == multiset(order) + multiset{refresh}
  {
    var i := IndexOf(order, forward);
    var r := Migrate(order, forward, refresh);
    assert r == order[..i + 1] + [refresh] + order[i + 1..];
    assert order == order[..i + 1] + order[i + 1..];
  }

  /** A length other than five, `refresh` already present, or no `forward`: the order is untouched. */
  lemma MigrateLeavesOthers<T>(order: seq<T>, forward: T, refresh: T)
    requires !Applies(order, forward, refresh)
    ensures Migrate(order, forward, refresh) == order
  {
  }

  /** Migrating a migrated order changes nothing. */
  lemma MigrateIdempotent<T>(order: seq<T>, forward: T, refresh: T)
    ensures Migrate(Migrate(order, forward, refresh), forward, refresh) == Migrate(order, forward, refresh)
  {
    if Applies(order, forward, refresh) {
      MigrateInserts(order, forward, refresh);
    }
  }

  /** On floating-button orders the migration keeps the order valid. */
  lemma MigratePreservesValidity(order: seq<FabAction>)
    ensures ValidButtonOrder(order) ==> ValidButtonOrder(Migrate(order, ForwardAction, RefreshAction))
    ensures Migrate(order, ForwardAction, RefreshAction) != order ==> RefreshAction in Migrate(order, ForwardAction, RefreshAction)
  {
    if Applies(order, ForwardAction, RefreshAction) {
      MigrateInserts(order, ForwardAction, RefreshAction);
    }
  }

  /** `order.includes(x)`. */
  method Includes<T(==)>(order: seq<T>, x: T) returns (found: bool)
    ensures found <==> x in order
  {
    var j := 0;
    while j < |order| && order[j] != x
      invariant 0 <= j <= |order|
      invariant x !in order[..j]
    {
      j := j + 1;
    }
    found := j < |order|;
    assert !found ==> order[..j] == order;
  }

  /** `order.indexOf(x)`. */
  method FindIndex<T(==)>(order: seq<T>, x: T) returns (idx: int)
    ensures idx == IndexOf(order, x)
  {
    var j := 0;
    while j < |order| && order[j] != x
      invariant 0 <= j <= |order|
      invariant x !in order[..j]
    {
      j := j + 1;
    }
    if j == |order| {
      assert order[..j] == order;
      idx := -1;
    } else {
      idx := j;
    }
  }

  /** `order.splice(pos, 0, x)` on a copy: grow by one and shift the tail right. */
  method InsertAt<T>(order: seq<T>, pos: nat, x: T) returns (r: seq<T>)
    requires pos <= |order|
    ensures r == order[..pos] + [x] + order[pos..]
  {
    var a := new T[|order| + 1](i requires 0 <= i <= |order| => if i < |order| then order[i] else x);
    var k := |order|;
    while k > pos
      invariant pos <= k <= |order|
      invariant a[..k] == order[..k]
      invariant a[k + 1..] == order[k..]
    {
      a[k] := a[k - 1];
      k := k - 1;
    }
    a[pos] := x;
    assert a[..] == a[..pos] + [a[pos]] + a[pos + 1..];
    r := a[..];
  }

  /**
   * The migration as the store performs it: copy the order, look for
   * `refresh` and `forward`, and splice `refresh` in after `forward`.
   */
  method SpliceRefresh<T(==)>(order: seq<T>, forward: T, refresh: T) returns (r: seq<T>)
    ensures r == Migrate(order, forward, refresh)
  {
    r := order;
    if |order| == 5 {
      var hasRefresh := Includes(order, refresh);
      if !hasRefresh {
        var forwardIdx := FindIndex(order, forward);
        if forwardIdx != -1 {
          r := InsertAt(order, forwardIdx + 1, refresh);
        }
      }
    }
  }
}
