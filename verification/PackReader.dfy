/** The export's read cache: a few whole packs, the least recently added dropped first. */
module PackReading {
  import opened PackProtocol

  const READER_CAP := 8

  datatype Read = Data(bytes: seq<Byte>) | Missing | BadRange | Panic

  // data[off : off+n] behind slice's own check.
  function Cut(data: seq<Byte>, off: int, n: int): Read {
    if off < 0 || off + n > |data| then BadRange
    else if n < 0 then Panic
    else Data(data[off..off + n])
  }

  // Memory.GetRange.
  function Direct(objects: Objects, key: BlobKey, off: int, n: int): Read {
    if key !in objects then Missing
    else if off < 0 || n < 0 || off + n > |objects[key]| then BadRange
    else Data(objects[key][off..off + n])
  }

  datatype Cache = Cache(packs: map<nat, seq<Byte>>, order: seq<nat>)

  ghost predicate CacheOk(c: Cache) {
    && |c.order| <= READER_CAP
    && (forall i, j :: 0 <= i < j < |c.order| ==> c.order[i] != c.order[j])
    && (forall id :: id in c.order <==> id in c.packs)
  }

  function Admit(c: Cache, id: nat, data: seq<Byte>): Cache {
    var full := |c.order| == READER_CAP;
    var packs := if full then c.packs - {c.order[0]} else c.packs;
    Cache(packs[id := data], (if full then c.order[1..] else c.order) + [id])
  }

  function Look(c: Cache, objects: Objects, id: nat, key: BlobKey, off: int, n: int): (Cache, Read) {
    if id in c.packs then (c, Cut(c.packs[id], off, n))
    else if key !in objects then (c, Missing)
    else (Admit(c, id, objects[key]), Cut(objects[key], off, n))
  }

  class PackReader {
    var packs: map<nat, seq<Byte>>
    var order: seq<nat>

    function Contents(): Cache
      reads this
    {
      Cache(packs, order)
    }

    constructor ()
      ensures Contents() == Cache(map[], [])
    {
      packs, order := map[], [];
    }

    method Slice(objects: Objects, id: nat, key: BlobKey, off: int, n: int) returns (r: Read)
      requires CacheOk(Contents())
      modifies this
      ensures (Contents(), r) == Look(old(Contents()), objects, id, key, off, n)
      ensures CacheOk(Contents())
    {
      LookKeepsCache(Contents(), objects, id, key, off, n);
      if id !in packs {
        if key !in objects {
          return Missing;
        }
        if |order| == READER_CAP {
          packs := packs - {order[0]};
          order := order[1..];
        }
        packs := packs[id := objects[key]];
        order := order + [id];
      }
      var data := packs[id];
      if off < 0 || off + n > |data| {
        return BadRange;
      }
      if n < 0 {
        return Panic;
      }
      return Data(data[off..off + n]);
    }
  }

  // At most READER_CAP packs, and the eviction list is the map's keys, each once.
  lemma LookKeepsCache(c: Cache, objects: Objects, id: nat, key: BlobKey, off: int, n: int)
    requires CacheOk(c)
    ensures CacheOk(Look(c, objects, id, key, off, n).0)
    ensures |Look(c, objects, id, key, off, n).0.packs| <= READER_CAP
  {
    var c' := Look(c, objects, id, key, off, n).0;
    if id !in c.packs && key in objects {
      AdmitKeepsCache(c, id, objects[key]);
    }
    KeysOfOrder(c'.packs.Keys, c'.order);
  }

  lemma AdmitKeepsCache(c: Cache, id: nat, data: seq<Byte>)
    requires CacheOk(c) && id !in c.packs
    ensures CacheOk(Admit(c, id, data))
  {
    var left := if |c.order| == READER_CAP then c.order[1..] else c.order;
    assert id !in c.order && forall i :: i in left ==> i in c.order;
    forall i | i in c.order
      ensures i in left || (|c.order| == READER_CAP && i == c.order[0])
    {
      var j :| 0 <= j < |c.order| && c.order[j] == i;
      assert |c.order| == READER_CAP && j > 0 ==> left[j - 1] == i;
    }
    assert |c.order| == READER_CAP ==> c.order[0] !in left;
  }

  lemma {:induction false} KeysOfOrder(keys: set<nat>, order: seq<nat>)
    requires forall id :: id in keys ==> id in order
    ensures |keys| <= |order|
    decreases |order|
  {
    if order == [] {
      assert keys == {};
    } else {
      KeysOfOrder(keys - {order[0]}, order[1..]);
      assert keys <= (keys - {order[0]}) + {order[0]};
      assert |keys| <= |(keys - {order[0]}) + {order[0]}| <= |keys - {order[0]}| + 1 by {
        if order[0] in keys {
          assert keys == (keys - {order[0]}) + {order[0]};
        } else {
          assert keys == keys - {order[0]};
        }
      }
    }
  }

  datatype Request = Request(objects: Objects, id: nat, key: BlobKey, off: int, n: int)

  function Reads(c: Cache, requests: seq<Request>): seq<Read>
    decreases |requests|
  {
    if requests == [] then []
    else
      var q := requests[0];
      var (c', r) := Look(c, q.objects, q.id, q.key, q.off, q.n);
      [r] + Reads(c', requests[1..])
  }

  // The cache when request i is made.
  function CacheAt(c: Cache, requests: seq<Request>, i: nat): Cache
    requires i < |requests|
    decreases i
  {
    if i == 0 then c
    else
      var q := requests[0];
      CacheAt(Look(c, q.objects, q.id, q.key, q.off, q.n).0, requests[1..], i - 1)
  }

  // The objects of a moment hold what was written under each pack id, once.
  ghost predicate WrittenOnce(objects: Objects, written: map<nat, seq<Byte>>) {
    forall key :: key in objects ==> key.pack in written && objects[key] == written[key.pack]
  }

  ghost predicate CacheHolds(c: Cache, written: map<nat, seq<Byte>>) {
    forall id :: id in c.packs ==> id in written && c.packs[id] == written[id]
  }

  // Through any sequence of reads, with packs expiring in between, the cache
  // answers as a direct read would, or with the same bytes after the object is
  // gone. A negative length is where they part: the direct read reports the
  // range, the slice panics (unless the end is past the data).
  lemma {:induction false} CachedReadsAreDirect(c: Cache, requests: seq<Request>, written: map<nat, seq<Byte>>, i: nat)
    requires CacheOk(c) && CacheHolds(c, written) && i < |requests|
    requires forall q :: q in requests ==> WrittenOnce(q.objects, written) && q.key.pack == q.id
    ensures |Reads(c, requests)| == |requests|
    ensures var q := requests[i]; var r := Reads(c, requests)[i]; var direct := Direct(q.objects, q.key, q.off, q.n);
      && (r == direct || (direct == Missing && q.id in written && r == Cut(written[q.id], q.off, q.n))
          || (r == Panic && direct == BadRange))
      && (r == Panic <==>
            && (q.id in CacheAt(c, requests, i).packs || q.key in q.objects)
            && q.n < 0 <= q.off && q.id in written && q.off + q.n <= |written[q.id]|)
    decreases |requests|
  {
    var q := requests[0];
    var (c', r) := Look(c, q.objects, q.id, q.key, q.off, q.n);
    LookKeepsCache(c, q.objects, q.id, q.key, q.off, q.n);
    if |requests| > 1 {
      CachedReadsAreDirect(c', requests[1..], written, if i == 0 then 0 else i - 1);
    }
  }
}
