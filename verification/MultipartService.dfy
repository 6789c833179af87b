/** The multipart service itself: its calls update the record store and the part cache in place. */
module MultipartService {
  import opened Basics
  import M = Multipart

  datatype CreateReply = Created | ConflictedHash(holder: M.MetaId) | ConflictedId

  class MultipartService {
    const hasher: seq<byte> -> string
    var records: map<string, M.Record>
    var cache: map<(M.MetaId, nat), seq<byte>>
    var files: map<M.MetaId, seq<byte>>

    ghost function View(): M.Store
      reads this
    {
      M.Store(records, cache, files)
    }

    ghost predicate Valid()
      reads this
    {
      M.Valid(View(), hasher)
    }

    constructor (hasher: seq<byte> -> string)
      ensures Valid() && View() == M.Store(map[], map[], map[]) && this.hasher == hasher
    {
      this.hasher := hasher;
      records, cache, files := map[], map[], map[];
    }

    /** `get_one_by_key_regex`: the first key the store lists, in no particular order. */
    method FirstKey(pattern: string) returns (key: Option<string>)
      ensures key.Some? ==> key.value in records && M.Glob(pattern, key.value)
      ensures key.None? ==> forall k :: k in records ==> !M.Glob(pattern, k)
    {
      if exists k :: k in records && M.Glob(pattern, k) {
        var k :| k in records && M.Glob(pattern, k);
        return Some(k);
      }
      return None;
    }

    method FirstKeyOfId(id: M.MetaId) returns (key: Option<string>)
      requires Valid()
      ensures key == M.LookUp(records, id)
    {
      key := FirstKey(M.IdPattern(id));
      M.LookUpIsExact(records, id);
      if key.Some? {
        M.IdPatternIsExact(id, records[key.value].metaId, records[key.value].hash);
      }
    }

    method Create(id: M.MetaId, hash: string, count: nat) returns (reply: CreateReply)
      requires Valid()
      modifies this
      ensures Valid()
      ensures View() == M.Create(old(View()), id, hash, count)
      ensures reply == Created <==> !M.HashTaken(old(records), hash) && M.LookUp(old(records), id).None?
      ensures reply == ConflictedId <==> !M.HashTaken(old(records), hash) && M.LookUp(old(records), id).Some?
      ensures reply.ConflictedHash? ==> exists k :: k in old(records) && M.Glob(M.HashPattern(hash), k)
                                                    && old(records)[k].metaId == reply.holder
    {
      M.CreateKeeps(View(), hasher, id, hash, count);
      var sameHash := FirstKey(M.HashPattern(hash));
      if sameHash.Some? {
        return ConflictedHash(records[sameHash.value].metaId);
      }
      var sameId := FirstKeyOfId(id);
      if sameId.Some? {
        return ConflictedId;
      }
      records := records[M.Key(id, hash) := M.Record(id, hash, seq(count, i => false))];
      return Created;
    }

    /** The merge loop: read the cached parts in index order. */
    method ReadParts(id: M.MetaId, count: nat) returns (content: Option<seq<byte>>)
      ensures content == M.CachedParts(cache, id, count)
    {
      var read: seq<byte> := [];
      for nth := 0 to count
        invariant M.CachedParts(cache, id, nth) == Some(read)
      {
        if (id, nth) !in cache {
          M.CachedPartsPresent(cache, id, count);
          return None;
        }
        read := read + cache[(id, nth)];
      }
      return Some(read);
    }

    method CompletePart(id: M.MetaId, nth: nat, bytes: seq<byte>) returns (reply: M.Reply)
      requires Valid()
      modifies this
      ensures Valid()
      ensures (View(), reply) == M.CompletePart(old(View()), hasher, id, nth, bytes)
    {
      M.CompletePartKeeps(View(), hasher, id, nth, bytes);
      M.LookUpIsExact(records, id);
      var key := FirstKeyOfId(id);
      cache := cache[(id, nth) := bytes];
      if key.None? {
        return M.NotFound;
      }
      var record := records[key.value];
      if nth >= |record.parts| {
        return M.NoSuchPart;
      }
      var parts := record.parts[nth := true];
      var missing := M.Missing(parts);
      records := records[M.Key(id, record.hash) := record.(parts := parts)];
      if missing != [] {
        return M.Unfinished(missing);
      }
      var content := ReadParts(id, |parts|);
      if content.None? {
        return M.PartUnreadable;
      }
      if hasher(content.value) != record.hash {
        return M.DifferentHash;
      }
      files := files[id := content.value];
      cache := M.DropDir(cache, id);
      return M.Unfinished([]);
    }

    method Remove(id: M.MetaId) returns (found: bool)
      requires Valid()
      modifies this
      ensures Valid()
      ensures View() == M.Remove(old(View()), id)
      ensures found <==> exists k :: k in old(records) && old(records)[k].metaId == id
    {
      M.RemoveKeeps(View(), hasher, id);
      M.LookUpIsExact(records, id);
      var key := FirstKeyOfId(id);
      if key.None? {
        return false;
      }
      records := records - {key.value};
      cache := M.DropDir(cache, id);
      return true;
    }
  }
}
