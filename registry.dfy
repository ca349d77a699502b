/** The stream registry that each stream-bearing chunk handler runs first: a
    linear search of the stream ids seen so far, with a fresh default stream for
    an id not seen before. */
module Registry {
  import opened Base
  import opened Model

  /** The index a stream id resolves to, and the id list and stream list after. */
  datatype Registration = Registration(index: nat, idmap: seq<int>, streams: seq<Stream>)

  /** Resolving id against idmap. The source keeps idmap and streams in step
      (|idmap| streams belong to ids, any older ones come before); the difference
      |streams| - |idmap| never changes. */
  function Resolve(idmap: seq<int>, streams: seq<Stream>, id: int): (r: Registration)
    requires |idmap| <= |streams|
    ensures r.index < |r.idmap| <= |r.streams| && r.idmap[r.index] == id
    ensures |r.streams| - |r.idmap| == |streams| - |idmap|
    ensures NoDup(idmap) ==> NoDup(r.idmap)
    ensures id in idmap ==>
      r.idmap == idmap && r.streams == streams && r.index == Find(idmap, id)
    ensures id !in idmap ==>
      r.index == |idmap| && r.idmap == idmap + [id] && r.streams == streams + [DefaultStream]
  {
    var i := Find(idmap, id);
    FindAbsent(idmap, id);
    if i < |idmap| then Registration(i, idmap, streams)
    else
      assert NoDup(idmap) ==> NoDup(idmap + [id]) by {
        if NoDup(idmap) {
          forall a, b | 0 <= a < b < |idmap| + 1 ensures (idmap + [id])[a] != (idmap + [id])[b] {
            if b == |idmap| {
              assert (idmap + [id])[a] in idmap;
            }
          }
        }
      }
      Registration(|idmap|, idmap + [id], streams + [DefaultStream])
  }

  /** Resolving the same id twice in a row: the second time finds the stream the
      first one set up, and changes nothing. */
  lemma ResolveIdempotent(idmap: seq<int>, streams: seq<Stream>, id: int)
    requires |idmap| <= |streams| && NoDup(idmap)
    ensures
      var r := Resolve(idmap, streams, id);
      Resolve(r.idmap, r.streams, id) == r
  {
    var r := Resolve(idmap, streams, id);
    assert id in r.idmap;
    if r.index < Find(r.idmap, id) {
      assert false;
    }
    if id !in idmap {
      assert r.index == |idmap|;
      assert forall j :: 0 <= j < |idmap| ==> r.idmap[j] == idmap[j] && idmap[j] != id;
    }
  }
}
