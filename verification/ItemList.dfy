/** Editing a vault's list of item envelopes, which is kept sorted by identifier. */
module ItemList {
  import opened Common
  import opened Policy

  datatype Envelope = Envelope(item: Id, content: nat)

  predicate SortedById(items: seq<Envelope>) {
    forall i, j :: 0 <= i < j < |items| ==> items[i].item < items[j].item
  }

  /** No two envelopes carry one identifier. */
  predicate Unrepeated(items: seq<Envelope>) {
    forall i, j :: 0 <= i < j < |items| ==> items[i].item != items[j].item
  }

  /** The list read as a table from identifier to envelope. */
  ghost function Table(items: seq<Envelope>): (t: map<Id, Envelope>)
    requires Unrepeated(items)
    ensures forall k :: 0 <= k < |items| ==> items[k].item in t && t[items[k].item] == items[k]
    ensures forall i :: i in t ==> t[i] in items && t[i].item == i
  {
    assert forall a, b :: a in items && b in items && a.item == b.item ==> a == b;
    map e | e in items :: e.item := e
  }

  /** Two tables agree when each entry of one is an entry of the other. */
  lemma SameTable(items: seq<Envelope>, t: map<Id, Envelope>)
    requires Unrepeated(items)
    requires forall k :: 0 <= k < |items| ==> items[k].item in t && t[items[k].item] == items[k]
    requires forall i :: i in t ==> t[i] in items && t[i].item == i
    ensures Table(items) == t
  {
    forall i | i in t ensures i in Table(items) && Table(items)[i] == t[i] {
      var k :| 0 <= k < |items| && items[k] == t[i];
    }
  }

  /** The list without some identifiers. */
  function Without(items: seq<Envelope>, deleted: set<Id>): (r: seq<Envelope>) {
    if items == [] then [] else
      (if items[0].item in deleted then [] else [items[0]]) + Without(items[1..], deleted)
  }

  lemma {:induction false} WithoutMembers(items: seq<Envelope>, deleted: set<Id>)
    ensures forall e :: e in Without(items, deleted) <==> e in items && e.item !in deleted
  {
    if items == [] {
    } else {
      WithoutMembers(items[1..], deleted);
      assert items == [items[0]] + items[1..];
    }
  }

  lemma {:induction false} WithoutSorted(items: seq<Envelope>, deleted: set<Id>)
    requires SortedById(items)
    ensures SortedById(Without(items, deleted))
  {
    if items == [] {
    } else {
      var rest := Without(items[1..], deleted);
      WithoutSorted(items[1..], deleted);
      WithoutMembers(items[1..], deleted);
      assert forall e :: e in items[1..] ==> items[0].item < e.item;
      assert forall k :: 0 <= k < |rest| ==> rest[k] in items[1..];
    }
  }

  lemma WithoutTable(items: seq<Envelope>, deleted: set<Id>)
    requires SortedById(items)
    ensures SortedById(Without(items, deleted))
    ensures Table(Without(items, deleted)) == Table(items) - deleted
  {
    hide Without, Table;
    WithoutSorted(items, deleted);
    WithoutMembers(items, deleted);
    var kept, t := Without(items, deleted), Table(items) - deleted;
    forall k | 0 <= k < |kept| ensures kept[k].item in t && t[kept[k].item] == kept[k] {
      assert kept[k] in items;
    }
    SameTable(kept, t);
  }

  /** Where an identifier is, or belongs. */
  method Search(items: seq<Envelope>, id: Id) returns (found: bool, at: nat)
    requires SortedById(items)
    ensures at <= |items|
    ensures forall k :: 0 <= k < at ==> items[k].item < id
    ensures found ==> at < |items| && items[at].item == id
    ensures !found ==> forall k :: at <= k < |items| ==> id < items[k].item
  {
    var low, high := 0, |items|;
    while low < high
      invariant 0 <= low <= high <= |items|
      invariant forall k :: 0 <= k < low ==> items[k].item < id
      invariant forall k :: high <= k < |items| ==> id < items[k].item
    {
      var mid := low + (high - low) / 2;
      if items[mid].item == id { return true, mid; }
      if items[mid].item < id { low := mid + 1; } else { high := mid; }
    }
    return false, low;
  }

  lemma ReplacedSorted(items: seq<Envelope>, at: nat, e: Envelope)
    requires SortedById(items) && at < |items| && items[at].item == e.item
    ensures SortedById(items[at := e])
  {
    var edited := items[at := e];
    assert forall k :: 0 <= k < |items| ==> edited[k].item == items[k].item;
  }

  lemma ReplacedListed(items: seq<Envelope>, at: nat, e: Envelope, k: nat)
    requires Unrepeated(items) && at < |items| && items[at].item == e.item && k < |items|
    ensures var t, x := Table(items)[e.item := e], items[at := e][k]; x.item in t && t[x.item] == x
  {
    hide Table;
    if k < at { assert items[k].item != items[at].item; }
    if at < k { assert items[at].item != items[k].item; }
  }

  lemma ListedReplaced(items: seq<Envelope>, at: nat, e: Envelope, i: Id)
    requires Unrepeated(items) && at < |items| && items[at].item == e.item && i in Table(items)[e.item := e]
    ensures var t := Table(items)[e.item := e]; t[i] in items[at := e] && t[i].item == i
  {
    hide Table;
    var edited := items[at := e];
    if i == e.item {
      assert edited[at] == e;
    } else {
      var k :| 0 <= k < |items| && items[k] == Table(items)[i];
      assert edited[k] == items[k];
    }
  }

  lemma ReplacedAt(items: seq<Envelope>, at: nat, e: Envelope)
    requires SortedById(items) && at < |items| && items[at].item == e.item
    ensures SortedById(items[at := e]) && Table(items[at := e]) == Table(items)[e.item := e]
  {
    hide Table;
    var edited, t := items[at := e], Table(items)[e.item := e];
    ReplacedSorted(items, at, e);
    forall k | 0 <= k < |edited| ensures edited[k].item in t && t[edited[k].item] == edited[k] {
      ReplacedListed(items, at, e, k);
    }
    forall i | i in t ensures t[i] in edited && t[i].item == i {
      ListedReplaced(items, at, e, i);
    }
    SameTable(edited, t);
  }

  function Inserted(items: seq<Envelope>, at: nat, e: Envelope): (r: seq<Envelope>)
    requires at <= |items|
    ensures |r| == |items| + 1
    ensures forall k :: 0 <= k < |r| ==> r[k] == if k < at then items[k] else if k == at then e else items[k - 1]
  {
    items[..at] + [e] + items[at..]
  }

  lemma InsertedSorted(items: seq<Envelope>, at: nat, e: Envelope)
    requires SortedById(items) && at <= |items|
    requires forall k :: 0 <= k < at ==> items[k].item < e.item
    requires forall k :: at <= k < |items| ==> e.item < items[k].item
    ensures SortedById(Inserted(items, at, e))
  {
  }

  lemma InsertedListed(items: seq<Envelope>, at: nat, e: Envelope, k: nat)
    requires Unrepeated(items) && at <= |items| && Unrepeated(Inserted(items, at, e)) && k <= |items|
    ensures var t, x := Table(items)[e.item := e], Inserted(items, at, e)[k]; x.item in t && t[x.item] == x
  {
    hide Table;
    var edited := Inserted(items, at, e);
    if k < at {
      assert edited[k] == items[k] && edited[k].item != edited[at].item;
    } else if k > at {
      assert edited[k] == items[k - 1] && edited[at].item != edited[k].item;
    }
  }

  lemma ListedInserted(items: seq<Envelope>, at: nat, e: Envelope, i: Id)
    requires Unrepeated(items) && at <= |items| && i in Table(items)[e.item := e]
    ensures var t := Table(items)[e.item := e]; t[i] in Inserted(items, at, e) && t[i].item == i
  {
    hide Table;
    var edited := Inserted(items, at, e);
    if i == e.item {
      assert edited[at] == e;
    } else {
      var k :| 0 <= k < |items| && items[k] == Table(items)[i];
      assert edited[if k < at then k else k + 1] == items[k];
    }
  }

  lemma InsertedTable(items: seq<Envelope>, at: nat, e: Envelope)
    requires Unrepeated(items) && at <= |items| && Unrepeated(Inserted(items, at, e))
    ensures Table(Inserted(items, at, e)) == Table(items)[e.item := e]
  {
    hide Table, Inserted, Unrepeated;
    var edited, t := Inserted(items, at, e), Table(items)[e.item := e];
    forall k | 0 <= k < |edited| ensures edited[k].item in t && t[edited[k].item] == edited[k] {
      InsertedLength(items, at, e);
      InsertedListed(items, at, e, k);
    }
    forall i | i in t ensures t[i] in edited && t[i].item == i {
      ListedInserted(items, at, e, i);
    }
    SameTable(edited, t);
  }

  lemma InsertedLength(items: seq<Envelope>, at: nat, e: Envelope)
    requires at <= |items|
    ensures |Inserted(items, at, e)| == |items| + 1
  {
  }

  class VaultItems {
    var items: seq<Envelope>

    constructor (current: seq<Envelope>)
      ensures items == current
    {
      items := current;
    }

    /** Replaces the envelope with this identifier, or inserts it where it belongs. */
    method Put(e: Envelope)
      requires SortedById(items)
      modifies this
      ensures SortedById(items) && Table(items) == Table(old(items))[e.item := e]
    {
      var found, at := Search(items, e.item);
      if found {
        ReplacedAt(items, at, e);
        items := items[at := e];
      } else {
        InsertedSorted(items, at, e);
        InsertedTable(items, at, e);
        items := Inserted(items, at, e);
      }
    }

    method Retain(deleted: set<Id>)
      modifies this
      ensures items == Without(old(items), deleted)
    {
      var kept: seq<Envelope> := [];
      var k := 0;
      while k < |items|
        invariant 0 <= k <= |items|
        invariant items == old(items)
        invariant kept + Without(items[k..], deleted) == Without(items, deleted)
      {
        assert items[k..][0] == items[k] && items[k..][1..] == items[k + 1..];
        if items[k].item !in deleted { kept := kept + [items[k]]; }
        k := k + 1;
      }
      items := kept;
    }
  }

  /** The replacements keyed by identifier, or none when an identifier repeats. */
  method Keyed(replacements: seq<Envelope>) returns (r: Option<map<Id, Envelope>>)
    ensures r.Some? <==> Unrepeated(replacements)
    ensures r.Some? ==> r.value == Table(replacements)
  {
    hide Table;
    var m: map<Id, Envelope> := map[];
    var k := 0;
    SameTable([], m);
    while k < |replacements|
      invariant 0 <= k <= |replacements|
      invariant Unrepeated(replacements[..k])
      invariant m == Table(replacements[..k])
    {
      var e := replacements[k];
      if e.item in m {
        assert m[e.item] in replacements[..k];
        return None;
      }
      Appended(replacements[..k], e);
      assert replacements[..k + 1] == replacements[..k] + [e];
      m := m[e.item := e];
      k := k + 1;
    }
    assert replacements[..k] == replacements;
    r := Some(m);
  }

  lemma Appended(items: seq<Envelope>, e: Envelope)
    requires Unrepeated(items) && e.item !in Table(items)
    ensures Unrepeated(items + [e]) && Table(items + [e]) == Table(items)[e.item := e]
  {
    hide Table;
    var more, t := items + [e], Table(items)[e.item := e];
    assert forall k :: 0 <= k < |items| ==> items[k].item in Table(items);
    SameTable(more, t);
  }

  /** The entries of some identifiers. */
  ghost function Part(m: map<Id, Envelope>, ids: seq<Id>): (r: map<Id, Envelope>) {
    map i | i in m && i in ids :: m[i]
  }

  lemma Overlaid(base: map<Id, Envelope>, m: map<Id, Envelope>, ids: seq<Id>, k: nat)
    requires k < |ids| && ids[k] in m
    ensures (base + Part(m, ids[..k]))[ids[k] := m[ids[k]]] == base + Part(m, ids[..k + 1])
  {
    assert ids[..k + 1] == ids[..k] + [ids[k]];
  }

  lemma AllParts(m: map<Id, Envelope>, ids: seq<Id>)
    ensures Part(m, []) == map[]
    ensures (forall i :: i in m ==> i in ids) ==> Part(m, ids) == m
  {
  }

  /** Deletes, then inserts or replaces: the result is sorted and, as a table, is the current items without the
      deleted ones overlaid by the replacements. A repeated replacement is refused. */
  method EditItems(current: seq<Envelope>, deleted: set<Id>, replacements: seq<Envelope>)
    returns (r: Option<seq<Envelope>>)
    requires SortedById(current)
    ensures r.Some? <==> Unrepeated(replacements)
    ensures r.Some? ==> SortedById(r.value)
    ensures r.Some? ==> Table(r.value) == (Table(current) - deleted) + Table(replacements)
  {
    hide Table, Without, Sorted, Part;
    var keyed := Keyed(replacements);
    if keyed.None? { return None; }
    var m := keyed.value;
    var list := new VaultItems(current);
    list.Retain(deleted);
    WithoutTable(current, deleted);
    ghost var base := Table(current) - deleted;
    var ids := Sorted(m.Keys);
    AllParts(m, ids);
    var k := 0;
    while k < |ids|
      invariant 0 <= k <= |ids|
      invariant SortedById(list.items)
      invariant Table(list.items) == base + Part(m, ids[..k])
    {
      assert ids[k] in m;
      list.Put(m[ids[k]]);
      Overlaid(base, m, ids, k);
      k := k + 1;
    }
    assert ids[..k] == ids;
    r := Some(list.items);
  }

}
