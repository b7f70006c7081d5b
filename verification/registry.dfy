/** The subscription registry: a JavaScript `Map` from channel to the frame
    that established the subscription and its callback. A `Map` iterates in
    insertion order, so it is modelled as a sequence of entries with
    distinct keys. */
module Registry {
  import opened Wrappers
  import opened JsValues
  import opened Frames

  /** Callbacks are opaque; an entry remembers which one was given. */
  type CallbackId = nat

  datatype Entry = Entry(key: Value, frame: OutFrame, callback: Option<CallbackId>)

  type Registry = seq<Entry>

  /** `messages.has(key)`. */
  predicate Has(reg: Registry, key: Value)
    decreases |reg|
  {
    reg != [] && (reg[0].key == key || Has(reg[1..], key))
  }

  /** No key occurs twice. */
  ghost predicate Distinct(reg: Registry) {
    forall i, j :: 0 <= i < j < |reg| ==> reg[i].key != reg[j].key
  }

  /** Every entry was made by an addChannel request for its own key, which is
      how `send` creates entries; together with `Distinct` this is the
      registry invariant. */
  ghost predicate Valid(reg: Registry) {
    && Distinct(reg)
    && forall i :: 0 <= i < |reg| ==> reg[i].frame.channel == reg[i].key && KindOf(reg[i].frame) == AddRequest
  }

  /** `has` agrees with "some entry carries the key". */
  lemma {:induction false} HasIff(reg: Registry, key: Value)
    ensures Has(reg, key) <==> exists i :: 0 <= i < |reg| && reg[i].key == key
    decreases |reg|
  {
    if reg != [] {
      HasIff(reg[1..], key);
      if Has(reg[1..], key) {
        var i :| 0 <= i < |reg[1..]| && reg[1..][i].key == key;
        assert reg[i + 1].key == key;
      }
      if exists i :: 0 <= i < |reg| && reg[i].key == key {
        var i :| 0 <= i < |reg| && reg[i].key == key;
        if i > 0 {
          assert reg[1..][i - 1].key == key;
        }
      }
    }
  }

  /** The entry at any position is found by `has`. */
  lemma HasAt(reg: Registry, i: int)
    requires 0 <= i < |reg|
    ensures Has(reg, reg[i].key)
  {
    HasIff(reg, reg[i].key);
  }

  /** After appending an entry, exactly the old keys and the new one are
      present. */
  lemma HasAppend(reg: Registry, e: Entry, key: Value)
    ensures Has(reg + [e], key) <==> Has(reg, key) || e.key == key
  {
    HasIff(reg, key);
    HasIff(reg + [e], key);
    if Has(reg, key) {
      var i :| 0 <= i < |reg| && reg[i].key == key;
      assert (reg + [e])[i] == reg[i];
    }
    if e.key == key {
      assert (reg + [e])[|reg|] == e;
    }
    if Has(reg + [e], key) && e.key != key {
      var i :| 0 <= i < |reg + [e]| && (reg + [e])[i].key == key;
      assert i < |reg| && reg[i] == (reg + [e])[i];
    }
  }

  /** `messages.get(key)`: the first entry with that key, if any. */
  function Lookup(reg: Registry, key: Value): (r: Option<Entry>)
    ensures r.Some? <==> Has(reg, key)
    ensures r.Some? ==> r.value.key == key && r.value in reg
    decreases |reg|
  {
    if reg == [] then None
    else if reg[0].key == key then Some(reg[0])
    else Lookup(reg[1..], key)
  }

  /** In a registry with distinct keys the entry found is the one stored at
      the key's position. */
  lemma {:induction false} LookupAt(reg: Registry, i: int)
    requires Distinct(reg)
    requires 0 <= i < |reg|
    ensures Lookup(reg, reg[i].key) == Some(reg[i])
    decreases i
  {
    if i > 0 {
      assert reg[0].key != reg[i].key;
      assert reg[1..][i - 1] == reg[i];
      LookupAt(reg[1..], i - 1);
    }
  }

  /** `messages.delete(key)`: every entry with that key removed, the rest
      kept in order. */
  function Delete(reg: Registry, key: Value): (r: Registry)
    ensures !Has(r, key)
    ensures |r| <= |reg|
    decreases |reg|
  {
    if reg == [] then []
    else if reg[0].key == key then Delete(reg[1..], key)
    else [reg[0]] + Delete(reg[1..], key)
  }

  /** Deleting an absent key changes nothing. */
  lemma {:induction false} DeleteAbsent(reg: Registry, key: Value)
    requires !Has(reg, key)
    ensures Delete(reg, key) == reg
    decreases |reg|
  {
    if reg != [] {
      DeleteAbsent(reg[1..], key);
      assert reg == [reg[0]] + reg[1..];
    }
  }

  /** Deletion distributes over concatenation. */
  lemma {:induction false} DeleteConcat(a: Registry, b: Registry, key: Value)
    ensures Delete(a + b, key) == Delete(a, key) + Delete(b, key)
    decreases |a|
  {
    if a != [] {
      assert (a + b)[1..] == a[1..] + b;
      DeleteConcat(a[1..], b, key);
    } else {
      assert a + b == b;
    }
  }

  /** In a registry with distinct keys, the key at position `i` occurs
      neither before nor after it. */
  lemma AbsentAround(reg: Registry, i: int)
    requires Distinct(reg)
    requires 0 <= i < |reg|
    ensures !Has(reg[..i], reg[i].key) && !Has(reg[i + 1..], reg[i].key)
  {
    var before, after := reg[..i], reg[i + 1..];
    HasIff(before, reg[i].key);
    HasIff(after, reg[i].key);
    forall j | 0 <= j < |before| ensures before[j].key != reg[i].key {
      assert before[j] == reg[j];
    }
    forall j | 0 <= j < |after| ensures after[j].key != reg[i].key {
      assert after[j] == reg[i + 1 + j];
    }
  }

  /** Deleting a present key from a registry with distinct keys removes
      exactly the entry at its position and keeps the others in order. */
  lemma DeleteAt(reg: Registry, i: int)
    requires Distinct(reg)
    requires 0 <= i < |reg|
    ensures Delete(reg, reg[i].key) == reg[..i] + reg[i + 1..]
  {
    AbsentAround(reg, i);
    DeleteOnlyOccurrence(reg[..i], reg[i], reg[i + 1..]);
    assert reg == reg[..i] + [reg[i]] + reg[i + 1..];
  }

  /** Deleting a key that occurs once removes that one entry. */
  lemma DeleteOnlyOccurrence(before: Registry, e: Entry, after: Registry)
    requires !Has(before, e.key) && !Has(after, e.key)
    ensures Delete(before + [e] + after, e.key) == before + after
  {
    var key := e.key;
    assert before + [e] + after == before + ([e] + after);
    DeleteConcat(before, [e] + after, key);
    assert Delete([e] + after, key) == Delete(after, key) by {
      assert ([e] + after)[0] == e;
      assert ([e] + after)[1..] == after;
    }
    DeleteAbsent(before, key);
    DeleteAbsent(after, key);
  }

  /** Removing the entry at one position of a valid registry keeps it valid. */
  lemma RemoveAtValid(reg: Registry, i: int)
    requires Valid(reg)
    requires 0 <= i < |reg|
    ensures Valid(reg[..i] + reg[i + 1..])
  {
    var r := reg[..i] + reg[i + 1..];
    forall a, b | 0 <= a < b < |r| ensures r[a].key != r[b].key {
      var a' := if a < i then a else a + 1;
      var b' := if b < i then b else b + 1;
      assert r[a] == reg[a'] && r[b] == reg[b'];
    }
    forall a | 0 <= a < |r|
      ensures r[a].frame.channel == r[a].key && KindOf(r[a].frame) == AddRequest
    {
      var a' := if a < i then a else a + 1;
      assert r[a] == reg[a'];
    }
  }

  /** Deleting a key keeps a valid registry valid. */
  lemma DeleteValid(reg: Registry, key: Value)
    requires Valid(reg)
    ensures Valid(Delete(reg, key))
  {
    HasIff(reg, key);
    if Has(reg, key) {
      var i :| 0 <= i < |reg| && reg[i].key == key;
      DeleteAt(reg, i);
      RemoveAtValid(reg, i);
    } else {
      DeleteAbsent(reg, key);
    }
  }

  /** Appending an addChannel entry under an absent key keeps a registry
      valid. */
  lemma AppendValid(reg: Registry, e: Entry)
    requires Valid(reg)
    requires !Has(reg, e.key)
    requires e.frame.channel == e.key && KindOf(e.frame) == AddRequest
    ensures Valid(reg + [e])
  {
    HasIff(reg, e.key);
    var r := reg + [e];
    forall a, b | 0 <= a < b < |r| ensures r[a].key != r[b].key {
      if b == |reg| {
        assert r[a] == reg[a];
      } else {
        assert r[a] == reg[a] && r[b] == reg[b];
      }
    }
  }

  /** The frames of the entries in insertion order: what a replay sends. */
  function Requests(reg: Registry): seq<OutFrame> {
    seq(|reg|, i requires 0 <= i < |reg| => reg[i].frame)
  }
}
