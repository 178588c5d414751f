/** The append-only table of strings behind the compact identifiers. */
module AppendTables {
  import opened Domain

  // ---- the table as the sequence of its strings ----

  predicate Distinct(strings: seq<string>) {
    forall i, j :: 0 <= i < j < |strings| ==> strings[i] != strings[j]
  }

  /** The table afterwards; a string that is new and finds no room panics and changes nothing. */
  function Interned(strings: seq<string>, capacity: nat, value: string): seq<string> {
    if value in strings || |strings| >= capacity then strings else strings + [value]
  }

  function InternAll(strings: seq<string>, capacity: nat, values: seq<string>): seq<string> {
    if values == [] then strings
    else Interned(InternAll(strings, capacity, values[..|values| - 1]), capacity, values[|values| - 1])
  }

  /** Where a string is in the table: the id handed out for it. */
  function IdOf(strings: seq<string>, value: string): (id: Option<nat>)
    ensures id.Some? ==> id.value < |strings| && strings[id.value] == value
    ensures id.None? <==> value !in strings
  {
    if strings == [] then None
    else if strings[|strings| - 1] == value then Some(|strings| - 1)
    else
      assert strings == strings[..|strings| - 1] + [strings[|strings| - 1]];
      IdOf(strings[..|strings| - 1], value)
  }

  /** The id `add_or_get` returns for the k-th of the values; `None` is a panic. */
  function Returned(strings: seq<string>, capacity: nat, values: seq<string>, k: nat): Option<nat>
    requires k < |values|
  {
    IdOf(InternAll(strings, capacity, values[..k + 1]), values[k])
  }

  lemma IdIsUnique(strings: seq<string>, id: nat)
    requires Distinct(strings) && id < |strings|
    ensures IdOf(strings, strings[id]) == Some(id)
  {
    assert strings[id] in strings;
  }

  lemma InternedKeeps(strings: seq<string>, capacity: nat, value: string)
    requires Distinct(strings)
    ensures Distinct(Interned(strings, capacity, value)) && strings <= Interned(strings, capacity, value)
    ensures |strings| <= capacity ==> |Interned(strings, capacity, value)| <= capacity
  {
  }

  /** A later table extends every earlier one: what an index stands for never changes. */
  lemma {:induction false} TableOnlyGrows(strings: seq<string>, capacity: nat, values: seq<string>, k: nat)
    requires Distinct(strings) && k <= |values|
    ensures Distinct(InternAll(strings, capacity, values))
    ensures InternAll(strings, capacity, values[..k]) <= InternAll(strings, capacity, values)
    ensures |strings| <= capacity ==> |InternAll(strings, capacity, values)| <= capacity
    decreases |values|
  {
    if values != [] {
      var n := |values| - 1;
      InternedSteps(strings, capacity, values, if k <= n then k else n);
      if k == |values| {
        assert values[..k] == values;
      }
    }
  }

  lemma InternedSteps(strings: seq<string>, capacity: nat, values: seq<string>, k: nat)
    requires Distinct(strings) && values != [] && k < |values|
    ensures Distinct(InternAll(strings, capacity, values))
    ensures InternAll(strings, capacity, values[..k]) <= InternAll(strings, capacity, values)
    ensures |strings| <= capacity ==> |InternAll(strings, capacity, values)| <= capacity
    decreases |values|, 0
  {
    var n := |values| - 1;
    TableOnlyGrows(strings, capacity, values[..n], k);
    assert values[..n][..k] == values[..k];
    InternedKeeps(InternAll(strings, capacity, values[..n]), capacity, values[n]);
  }

  /** A returned id stands for its string, then and in every later table. */
  lemma IdsAreStable(capacity: nat, values: seq<string>, k: nat)
    requires k < |values| && Returned([], capacity, values, k).Some?
    ensures var id, end := Returned([], capacity, values, k).value, InternAll([], capacity, values);
            id < |end| && end[id] == values[k] && IdOf(end, values[k]) == Some(id)
  {
    TableOnlyGrows([], capacity, values, k + 1);
    IdIsUnique(InternAll([], capacity, values), Returned([], capacity, values, k).value);
  }

  /** Two returned ids are equal exactly when their strings are. */
  lemma IdsEqualIffStringsEqual(capacity: nat, values: seq<string>, i: nat, j: nat)
    requires i < |values| && j < |values|
    requires Returned([], capacity, values, i).Some? && Returned([], capacity, values, j).Some?
    ensures Returned([], capacity, values, i) == Returned([], capacity, values, j) <==> values[i] == values[j]
  {
    IdsAreStable(capacity, values, i);
    IdsAreStable(capacity, values, j);
  }

  lemma Added(strings: seq<string>, capacity: nat, values: seq<string>, n: nat)
    requires n < |values|
    ensures InternAll(strings, capacity, values[..n + 1]) ==
            Interned(InternAll(strings, capacity, values[..n]), capacity, values[n])
  {
    assert values[..n + 1][..n] == values[..n];
  }

  /** Indexes are used from 0 on without gaps: each was returned for one of the values. */
  lemma {:induction false} IndexesAreUsed(capacity: nat, values: seq<string>, id: nat)
    requires id < |InternAll([], capacity, values)|
    ensures exists k :: 0 <= k < |values| && Returned([], capacity, values, k) == Some(id)
    decreases |values|
  {
    var n := |values| - 1;
    var before, end := InternAll([], capacity, values[..n]), InternAll([], capacity, values);
    if id < |before| {
      IndexesAreUsed(capacity, values[..n], id);
      var k :| 0 <= k < n && Returned([], capacity, values[..n], k) == Some(id);
      assert values[..n][..k + 1] == values[..k + 1];
      assert Returned([], capacity, values, k) == Some(id);
    } else {
      assert values[..n + 1] == values;
      TableOnlyGrows([], capacity, values, n);
      IdIsUnique(end, id);
      assert end == before + [values[n]];
      assert Returned([], capacity, values, n) == Some(id);
    }
  }

  // ---- capacity ----

  function Values(values: seq<string>): set<string> {
    set v | v in values
  }

  lemma {:induction false} TableHolds(capacity: nat, values: seq<string>)
    ensures Values(InternAll([], capacity, values)) <= Values(values)
    ensures |InternAll([], capacity, values)| < capacity ==> Values(InternAll([], capacity, values)) == Values(values)
    decreases |values|
  {
    if values != [] {
      var n := |values| - 1;
      assert values == values[..n] + [values[n]];
      TableHolds(capacity, values[..n]);
      var before := InternAll([], capacity, values[..n]);
      assert Values(before + [values[n]]) == Values(before) + {values[n]};
      assert Values(values) == Values(values[..n]) + {values[n]};
    }
  }

  lemma {:induction false} DistinctSize(strings: seq<string>)
    requires Distinct(strings)
    ensures |Values(strings)| == |strings|
    decreases |strings|
  {
    if strings != [] {
      var n := |strings| - 1;
      var rest, last := strings[..n], strings[n];
      assert strings == rest + [last];
      assert last !in rest;
      DistinctSize(rest);
      assert Values(strings) == Values(rest) + {last} && last !in Values(rest);
    }
  }

  lemma SubsetSize(a: set<string>, b: set<string>)
    requires a <= b
    ensures |a| <= |b|
    decreases b
  {
    if a != {} {
      var x :| x in a;
      SubsetSize(a - {x}, b - {x});
    }
  }

  /** No call panics exactly when there is room for all the different strings. */
  lemma NoPanicIffRoom(capacity: nat, values: seq<string>)
    ensures (forall k :: 0 <= k < |values| ==> Returned([], capacity, values, k).Some?) <==>
            |Values(values)| <= capacity
  {
    var end := InternAll([], capacity, values);
    TableOnlyGrows([], capacity, values, 0);
    TableHolds(capacity, values);
    DistinctSize(end);
    SubsetSize(Values(end), Values(values));
    if forall k :: 0 <= k < |values| ==> Returned([], capacity, values, k).Some? {
      forall v | v in values ensures v in end {
        var k :| 0 <= k < |values| && values[k] == v;
        IdsAreStable(capacity, values, k);
      }
      SubsetSize(Values(values), Values(end));
    }
    if |Values(values)| <= capacity {
      forall k | 0 <= k < |values| ensures Returned([], capacity, values, k).Some? {
        EachFinds(capacity, values, k);
      }
    }
  }

  lemma EachFinds(capacity: nat, values: seq<string>, k: nat)
    requires k < |values| && |Values(values)| <= capacity
    ensures Returned([], capacity, values, k).Some?
  {
    var before, after := InternAll([], capacity, values[..k]), InternAll([], capacity, values[..k + 1]);
    Added([], capacity, values, k);
    TableHolds(capacity, values[..k]);
    TableOnlyGrows([], capacity, values[..k], 0);
    DistinctSize(before);
    if values[k] !in before && |before| >= capacity {
      assert Values(before) <= Values(values) - {values[k]};
      SubsetSize(Values(before), Values(values) - {values[k]});
      assert false;
    }
  }

  // ---- the table itself ----

  class AppendTable {
    var ids: map<string, nat>
    const buffer: array<Option<string>>

    ghost predicate Valid()
      reads this, buffer
    {
      && |ids| <= buffer.Length
      && (forall value :: value in ids ==> ids[value] < |ids| && buffer[ids[value]] == Some(value))
      && (forall i :: 0 <= i < |ids| ==> buffer[i].Some? && buffer[i].value in ids && ids[buffer[i].value] == i)
      && (forall i :: |ids| <= i < buffer.Length ==> buffer[i] == None)
    }

    /** The strings in the order of their indexes. */
    ghost function Strings(): (strings: seq<string>)
      reads this, buffer
      requires Valid()
      ensures |strings| == |ids|
    {
      seq(|ids|, i requires 0 <= i < |ids| && Valid() reads this, buffer => buffer[i].value)
    }

    constructor (capacity: nat)
      ensures Valid() && fresh(buffer) && buffer.Length == capacity && Strings() == []
    {
      ids := map[];
      buffer := new Option<string>[capacity](_ => None);
    }

    lemma StringsAreIds()
      requires Valid()
      ensures Distinct(Strings())
      ensures forall value :: value in Strings() <==> value in ids
      ensures forall value :: value in ids ==> IdOf(Strings(), value) == Some(ids[value])
    {
      var strings := Strings();
      forall value | value in ids ensures value in strings && IdOf(strings, value) == Some(ids[value]) {
        assert strings[ids[value]] == value;
        IdIsUnique(strings, ids[value]);
      }
    }

    /** The id of the string, which is added if it is new; `None` is the panic on a full table. */
    method AddOrGet(value: string) returns (id: Option<nat>)
      requires Valid()
      modifies this, buffer
      ensures Valid() && Strings() == Interned(old(Strings()), buffer.Length, value)
      ensures id == IdOf(Strings(), value)
    {
      ghost var before := Strings();
      if value in ids {
        assert value in before && IdOf(before, value) == Some(ids[value]) by {
          StringsAreIds();
        }
        return Some(ids[value]);
      }
      assert value !in before by {
        StringsAreIds();
      }
      var index := |ids|;
      if index >= buffer.Length {
        return None;
      }
      Append(value);
      assert IdOf(before + [value], value) == Some(index);
      id := Some(index);
    }

    method Append(value: string)
      requires Valid() && value !in ids && |ids| < buffer.Length
      modifies this, buffer
      ensures Valid() && Strings() == old(Strings()) + [value]
    {
      var index := |ids|;
      ids := ids[value := index];
      buffer[index] := Some(value);
    }

    /** Reading an index that was handed out. */
    method GetStr(index: nat) returns (value: Option<string>)
      requires Valid()
      ensures value == if index < |Strings()| then Some(Strings()[index]) else None
    {
      if index < buffer.Length {
        value := buffer[index];
      } else {
        value := None;
      }
    }
  }
}
