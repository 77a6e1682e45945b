/** The client's list of servers: a vector of identities and an index from their keys to positions. */
module ServerLists {
  import opened Identities

  /** get_hashmap_string. */
  function Key(id: Identity): string {
    id.address + (":" + (Decimal(id.port) + (":" + id.hash)))
  }

  function KeysOf(ids: seq<Identity>): (keys: seq<string>)
    ensures |keys| == |ids|
  {
    if ids == [] then [] else KeysOf(ids[..|ids| - 1]) + [Key(ids[|ids| - 1])]
  }

  lemma {:induction false} KeyAt(ids: seq<Identity>, i: nat)
    requires i < |ids|
    ensures KeysOf(ids)[i] == Key(ids[i])
  {
    if i < |ids| - 1 {
      KeyAt(ids[..|ids| - 1], i);
    }
  }

  /** Each position is found under its own key, and nothing else is found. */
  ghost predicate Indexes(keys: seq<string>, index: map<string, nat>) {
    && (forall i :: 0 <= i < |keys| ==> keys[i] in index && index[keys[i]] == i)
    && (forall k :: k in index ==> index[k] < |keys| && keys[index[k]] == k)
  }

  /** The index and the vector agree. */
  ghost predicate Bijective(ids: seq<Identity>, index: map<string, nat>) {
    Indexes(KeysOf(ids), index)
  }

  /** The index that is left when a key is taken out and the positions behind it move up. */
  ghost predicate MovedUp(index: map<string, nat>, removed: nat, key: string, index': map<string, nat>) {
    && index'.Keys == index.Keys - {key}
    && forall k :: k in index' ==> index'[k] == if index[k] > removed then index[k] - 1 else index[k]
  }

  lemma RemovalKeepsIndex(keys: seq<string>, index: map<string, nat>, removed: nat, index': map<string, nat>)
    requires Indexes(keys, index) && removed < |keys| && MovedUp(index, removed, keys[removed], index')
    ensures Indexes(keys[..removed] + keys[removed + 1..], index')
  {
    var keys' := keys[..removed] + keys[removed + 1..];
    forall i | 0 <= i < |keys'|
      ensures keys'[i] in index' && index'[keys'[i]] == i
    {
      var j := if i < removed then i else i + 1;
      assert keys'[i] == keys[j] && index[keys[j]] == j;
    }
    forall k | k in index'
      ensures index'[k] < |keys'| && keys'[index'[k]] == k
    {
      assert keys[index[k]] == k && index[k] != removed;
    }
  }

  lemma {:induction false} KeysWithout(ids: seq<Identity>, i: nat)
    requires i < |ids|
    ensures KeysOf(Without(ids, i)) == KeysOf(ids)[..i] + KeysOf(ids)[i + 1..]
    decreases |ids|
  {
    var n := |ids| - 1;
    if i == n {
      assert Without(ids, i) == ids[..n];
    } else {
      assert Without(ids, i) == Without(ids[..n], i) + [ids[n]];
      KeysWithout(ids[..n], i);
      KeysAndOne(Without(ids[..n], i), ids[n]);
    }
  }

  lemma KeysAndOne(ids: seq<Identity>, id: Identity)
    ensures KeysOf(ids + [id]) == KeysOf(ids) + [Key(id)]
  {
    assert (ids + [id])[..|ids|] == ids;
  }

  lemma AdditionKeepsIndex(keys: seq<string>, index: map<string, nat>, key: string)
    requires Indexes(keys, index) && key !in index
    ensures Indexes(keys + [key], index[key := |keys|]) && index[key := |keys|] - {key} == index
  {
  }

  lemma ListedIffIndexed(ids: seq<Identity>, index: map<string, nat>, key: string)
    requires Bijective(ids, index)
    ensures Listed(ids, key) <==> key in index
  {
    if key in index {
      KeyAt(ids, index[key]);
    }
    if Listed(ids, key) {
      var i :| 0 <= i < |ids| && Key(ids[i]) == key;
      KeyAt(ids, i);
    }
  }

  /** So no two servers share a key, and the vector determines the index. */
  lemma BijectiveIsOneToOne(ids: seq<Identity>, index: map<string, nat>, i: nat, j: nat)
    requires Bijective(ids, index) && i < |ids| && j < |ids| && Key(ids[i]) == Key(ids[j])
    ensures i == j
  {
    KeyAt(ids, i);
    KeyAt(ids, j);
  }

  lemma IndexIsDetermined(keys: seq<string>, index: map<string, nat>, index': map<string, nat>)
    requires Indexes(keys, index) && Indexes(keys, index')
    ensures index == index'
  {
    forall k | k in index
      ensures k in index' && index'[k] == index[k]
    {
      assert keys[index[k]] == k;
    }
    forall k | k in index'
      ensures k in index
    {
      assert keys[index'[k]] == k;
    }
  }

  predicate Listed(ids: seq<Identity>, key: string) {
    exists i :: 0 <= i < |ids| && Key(ids[i]) == key
  }

  /** The first identity of each key, in order. */
  function FirstOfEach(ids: seq<Identity>): seq<Identity> {
    if ids == [] then []
    else
      var init, last := FirstOfEach(ids[..|ids| - 1]), ids[|ids| - 1];
      if Listed(init, Key(last)) then init else init + [last]
  }

  lemma ListedMore(ids: seq<Identity>, id: Identity, key: string)
    ensures Listed(ids + [id], key) <==> Listed(ids, key) || Key(id) == key
  {
    if Listed(ids, key) {
      var k :| 0 <= k < |ids| && Key(ids[k]) == key;
      assert Key((ids + [id])[k]) == key;
    }
    if Key(id) == key {
      assert Key((ids + [id])[|ids|]) == key;
    }
  }

  /** The same keys stay listed. */
  lemma {:induction false} FirstOfEachKeepsKeys(ids: seq<Identity>, key: string)
    ensures Listed(FirstOfEach(ids), key) <==> Listed(ids, key)
  {
    if ids != [] {
      var n := |ids| - 1;
      FirstOfEachKeepsKeys(ids[..n], key);
      FirstOfEachKeepsKeys(ids[..n], Key(ids[n]));
      ListedMore(FirstOfEach(ids[..n]), ids[n], key);
      ListedMore(ids[..n], ids[n], key);
      assert ids == ids[..n] + [ids[n]];
    }
  }

  /** And is listed once. */
  lemma {:induction false} FirstOfEachIsDistinct(ids: seq<Identity>, i: nat, j: nat)
    requires i < j < |FirstOfEach(ids)|
    ensures Key(FirstOfEach(ids)[i]) != Key(FirstOfEach(ids)[j])
  {
    var n := |ids| - 1;
    var init := FirstOfEach(ids[..n]);
    if j < |init| {
      FirstOfEachIsDistinct(ids[..n], i, j);
    } else {
      assert !Listed(init, Key(ids[n]));
    }
  }

  function Without(ids: seq<Identity>, i: nat): seq<Identity>
    requires i < |ids|
  {
    ids[..i] + ids[i + 1..]
  }

  class ServerList {
    var identities: seq<Identity>
    var index: map<string, nat>

    ghost predicate Valid()
      reads this
    {
      Bijective(identities, index)
    }

    constructor ()
      ensures Valid() && identities == []
    {
      identities, index := [], map[];
    }

    method InitializeServerList(ids: seq<Identity>)
      modifies this
      ensures Valid() && identities == FirstOfEach(ids)
    {
      identities, index := [], map[];
      for i := 0 to |ids|
        invariant Valid() && identities == FirstOfEach(ids[..i])
      {
        var key := Key(ids[i]);
        assert ids[..i + 1][..i] == ids[..i];
        ListedIffIndexed(identities, index, key);
        if key !in index {
          AdditionKeepsIndex(KeysOf(identities), index, key);
          KeysAndOne(identities, ids[i]);
          index := index[key := |identities|];
          identities := identities + [ids[i]];
        }
      }
      assert ids[..|ids|] == ids;
    }

    /** A fingerprint of the wrong length is replaced by zeros.  `saved` says whether the list could
        be written to disk; if not, the addition is taken back. */
    method AddServerIdentity(id: Identity, saved: bool)
      requires Valid()
      modifies this
      ensures Valid()
      ensures var named := if |id.hash| == HASH_LENGTH then id else id.(hash := Zeros(HASH_LENGTH));
              identities == if saved && !Listed(old(identities), Key(named)) then old(identities) + [named]
                            else old(identities)
    {
      var named := if |id.hash| == HASH_LENGTH then id else id.(hash := Zeros(HASH_LENGTH));
      var key := Key(named);
      ListedIffIndexed(identities, index, key);
      if key in index {
        return;
      }
      AdditionKeepsIndex(KeysOf(identities), index, key);
      KeysAndOne(identities, named);
      index := index[key := |identities|];
      identities := identities + [named];
      if !saved {
        index := index - {key};
        identities := identities[..|identities| - 1];
      }
    }

    /** The positions behind the removed one move up, in whatever order the index is walked. */
    method Reindex(removed: nat)
      modifies `index
      ensures index.Keys == old(index).Keys
      ensures forall k :: k in index ==>
                index[k] == if old(index)[k] > removed then old(index)[k] - 1 else old(index)[k]
    {
      var rest := index.Keys;
      while rest != {}
        invariant rest <= index.Keys == old(index).Keys
        invariant forall k :: k in index ==>
                    index[k] == if k !in rest && old(index)[k] > removed then old(index)[k] - 1 else old(index)[k]
        decreases |rest|
      {
        var k :| k in rest;
        if index[k] > removed {
          index := index[k := index[k] - 1];
        }
        rest := rest - {k};
      }
    }

    method RemoveServerIdentity(id: Identity)
      requires Valid()
      modifies this
      ensures Valid()
      ensures Key(id) !in old(index) ==> identities == old(identities)
      ensures Key(id) in old(index) ==> identities == Without(old(identities), old(index)[Key(id)])
    {
      var key := Key(id);
      if key !in index {
        return;
      }
      var removed := index[key];
      ghost var was := index;
      index := index - {key};
      Reindex(removed);
      RemovalKeepsIndex(KeysOf(identities), was, removed, index);
      KeysWithout(identities, removed);
      identities := identities[..removed] + identities[removed + 1..];
    }
  }

  function Zeros(n: nat): string {
    seq(n, _ => '0')
  }
}
