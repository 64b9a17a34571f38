/** The inventory mapping: hostgroup name to the names of its hosts, in the
    order the API returned them, and the "append or create list" step that
    builds it. */
module Grouping {
  import opened Records

  type Inventory = map<string, seq<string>>

  /** The list stored under `key`, or the empty list when there is none. */
  function Hosts(d: Inventory, key: string): seq<string>
  {
    if key in d then d[key] else []
  }

  /** `push`: append `element` to the list under `key`, creating `[element]`
      when the key is absent; no other key is touched. */
  function Push(d: Inventory, key: string, element: string): (r: Inventory)
    ensures r.Keys == d.Keys + {key}
    ensures key in d ==> r[key] == d[key] + [element]
    ensures key !in d ==> r[key] == [element]
    ensures forall k :: k in d && k != key ==> r[k] == d[k]
  {
    if key in d then d[key := d[key] + [element]] else d[key := [element]]
  }

  /** The grouping loop of `update_cache`: every record, in order, pushes its
      name onto the list of its hostgroup, starting from the mapping `inv`
      that is already in memory. */
  function Group(inv: Inventory, records: seq<HostRecord>): Inventory
  {
    if records == [] then inv
    else
      var last := records[|records| - 1];
      Push(Group(inv, records[..|records| - 1]), last.hostgroupName, last.name)
  }

  /** Reference definition: the names of the records of hostgroup `g`, in order. */
  function NamesIn(records: seq<HostRecord>, g: string): seq<string>
  {
    if records == [] then []
    else if records[0].hostgroupName == g then [records[0].name] + NamesIn(records[1..], g)
    else NamesIn(records[1..], g)
  }

  /** The hostgroup names the records mention. */
  function GroupsOf(records: seq<HostRecord>): set<string>
  {
    set r | r in records :: r.hostgroupName
  }

  lemma {:induction false} NamesInSnoc(records: seq<HostRecord>, h: HostRecord, g: string)
    ensures NamesIn(records + [h], g)
         == NamesIn(records, g) + (if h.hostgroupName == g then [h.name] else [])
  {
    if records == [] {
      assert records + [h] == [h];
    } else {
      assert (records + [h])[1..] == records[1..] + [h];
      NamesInSnoc(records[1..], h, g);
    }
  }

  /** A group has names from the records exactly when some record names it. */
  lemma {:induction false} NamesInEmpty(records: seq<HostRecord>, g: string)
    ensures NamesIn(records, g) != [] <==> g in GroupsOf(records)
  {
    if records != [] {
      NamesInEmpty(records[1..], g);
      assert GroupsOf(records) == {records[0].hostgroupName} + GroupsOf(records[1..]) by {
        assert records == [records[0]] + records[1..];
      }
    }
  }

  /** After the loop, group `g` holds exactly its previous list followed by
      the names of the records of group `g` in API order. */
  lemma {:induction false} GroupHosts(inv: Inventory, records: seq<HostRecord>, g: string)
    ensures g in Group(inv, records) <==> g in inv || NamesIn(records, g) != []
    ensures Hosts(Group(inv, records), g) == Hosts(inv, g) + NamesIn(records, g)
    decreases |records|
  {
    if records != [] {
      var init, last := records[..|records| - 1], records[|records| - 1];
      assert records == init + [last];
      GroupHosts(inv, init, g);
      NamesInSnoc(init, last, g);
    }
  }

  /** Key set and contents after the loop: a key exists iff it existed before
      or some record names it (a key is created only for a hostgroup met in
      the answer), and its list is the old list followed by that group's names. */
  lemma GroupAt(inv: Inventory, records: seq<HostRecord>, g: string)
    ensures g in Group(inv, records) <==> g in inv || g in GroupsOf(records)
    ensures Hosts(Group(inv, records), g) == Hosts(inv, g) + NamesIn(records, g)
  {
    GroupHosts(inv, records, g);
    NamesInEmpty(records, g);
  }

  /** Existing keys are kept: every list already in the mapping is a prefix of
      its list after the loop (nothing is cleared or reordered). */
  lemma GroupKeepsExisting(inv: Inventory, records: seq<HostRecord>, g: string)
    requires g in inv
    ensures g in Group(inv, records) && |inv[g]| <= |Group(inv, records)[g]|
    ensures Group(inv, records)[g][..|inv[g]|] == inv[g]
  {
    GroupHosts(inv, records, g);
  }

  /** The example grouping: hosts a and b in G1, c in G2, from an empty mapping. */
  lemma GroupExample()
    ensures Group(map[], [HostRecord("a", "G1"), HostRecord("b", "G1"), HostRecord("c", "G2")])
         == map["G1" := ["a", "b"], "G2" := ["c"]]
  {
    var a, b, c := HostRecord("a", "G1"), HostRecord("b", "G1"), HostRecord("c", "G2");
    var rs := [a, b, c];
    assert rs[..2] == [a, b] && [a, b][..1] == [a] && [a][..0] == [];
    assert Group(map[], [a]) == map["G1" := ["a"]];
    assert Group(map[], [a, b]) == Push(map["G1" := ["a"]], "G1", "b");
    assert Push(map["G1" := ["a"]], "G1", "b") == map["G1" := ["a"] + ["b"]];
    assert ["a"] + ["b"] == ["a", "b"];
  }

  /** Running the grouping a second time over the same records, without
      clearing the mapping, lists every name of the group twice. */
  lemma GroupTwiceDuplicates(inv: Inventory, records: seq<HostRecord>, g: string)
    ensures Hosts(Group(Group(inv, records), records), g)
         == Hosts(inv, g) + NamesIn(records, g) + NamesIn(records, g)
  {
    GroupHosts(inv, records, g);
    GroupHosts(Group(inv, records), records, g);
  }

  /** The total number of names held in a mapping, over all groups. */
  ghost function Size(m: Inventory): nat
    decreases |m|
  {
    if m == map[] then 0
    else
      var k :| k in m;
      assert |m - {k}| < |m| by { assert m.Keys - {k} < m.Keys; }
      |m[k]| + Size(m - {k})
  }

  lemma {:induction false} SizeRemove(m: Inventory, k: string)
    requires k in m
    ensures Size(m) == |m[k]| + Size(m - {k})
    decreases |m|
  {
    var j :| j in m && Size(m) == |m[j]| + Size(m - {j});
    if j != k {
      assert |m - {j}| < |m| by { assert (m - {j}).Keys < m.Keys; }
      assert |m - {k}| < |m| by { assert (m - {k}).Keys < m.Keys; }
      SizeRemove(m - {j}, k);
      SizeRemove(m - {k}, j);
      assert m - {j} - {k} == m - {k} - {j};
    }
  }

  /** Each push adds exactly one name. */
  lemma PushSize(d: Inventory, key: string, element: string)
    ensures Size(Push(d, key, element)) == Size(d) + 1
  {
    var r := Push(d, key, element);
    SizeRemove(r, key);
    assert r - {key} == d - {key};
    if key in d {
      SizeRemove(d, key);
    } else {
      assert d - {key} == d;
    }
  }

  /** The loop adds exactly one name per record, whatever the mapping held. */
  lemma {:induction false} GroupSize(inv: Inventory, records: seq<HostRecord>)
    ensures Size(Group(inv, records)) == Size(inv) + |records|
    decreases |records|
  {
    if records != [] {
      var init, last := records[..|records| - 1], records[|records| - 1];
      GroupSize(inv, init);
      PushSize(Group(inv, init), last.hostgroupName, last.name);
    }
  }

  /** Hence grouping is not idempotent: a second pass over a non-empty answer
      changes the mapping. */
  lemma GroupTwiceChanges(inv: Inventory, records: seq<HostRecord>)
    requires records != []
    ensures Group(Group(inv, records), records) != Group(inv, records)
  {
    GroupSize(inv, records);
    GroupSize(Group(inv, records), records);
  }
}
