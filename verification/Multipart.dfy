/** Server-side multipart upload: a leased record of which parts have arrived, a cache of the parts,
    and the merge that runs when the last one is in. */
module Multipart {
  import opened Basics

  /** The printed form of a UUID: fixed length, and none of the characters the keys give a meaning. */
  type MetaId = s: string | |s| == 36 && '_' !in s && '*' !in s
    witness seq(36, i => '0')

  datatype Record = Record(metaId: MetaId, hash: string, parts: seq<bool>)

  /** The record store by key, the part cache by (id, part), and the merged files by id. */
  datatype Store = Store(records: map<string, Record>,
                         cache: map<(MetaId, nat), seq<byte>>,
                         files: map<MetaId, seq<byte>>)

  datatype Reply = Unfinished(missing: seq<nat>) // `Ok`; the upload is complete when nothing is missing
                 | NotFound
                 | NoSuchPart
                 | PartUnreadable
                 | DifferentHash

  // ---------------------------------------------------------------- the key scheme

  const PREFIX := "multipart_"

  function Key(id: MetaId, hash: string): string { PREFIX + id + "_" + hash }

  function IdPattern(id: MetaId): string { PREFIX + id + "_" + "*" }

  function HashPattern(hash: string): string { PREFIX + ("*" + ("_" + hash)) }

  /** A key glob in which '*' matches any text and every other character itself. */
  predicate Glob(pattern: string, key: string)
    decreases |pattern| + |key|
  {
    if pattern == "" then key == ""
    else if pattern[0] == '*' then Glob(pattern[1..], key) || (key != "" && Glob(pattern, key[1..]))
    else key != "" && key[0] == pattern[0] && Glob(pattern[1..], key[1..])
  }

  lemma {:induction false} GlobLiteral(p: string, rest: string, key: string)
    requires '*' !in p
    ensures Glob(p + rest, key) <==> p <= key && Glob(rest, key[|p|..])
  {
    if p == "" {
      assert p + rest == rest && key[0..] == key;
    } else {
      assert (p + rest)[0] == p[0] && (p + rest)[1..] == p[1..] + rest;
      if key != "" && key[0] == p[0] {
        GlobLiteral(p[1..], rest, key[1..]);
        if p[1..] <= key[1..] { assert key[1..][|p| - 1..] == key[|p|..]; }
      }
    }
  }

  lemma {:induction false} StarMatchesAll(key: string)
    ensures Glob("*", key)
  {
    if key != "" { StarMatchesAll(key[1..]); }
  }

  /** A star absorbs any text in front of what the rest of the pattern matches. */
  lemma {:induction false} StarAbsorbs(front: string, rest: string, key: string)
    requires Glob(rest, key)
    ensures Glob("*" + rest, front + key)
  {
    assert ("*" + rest)[1..] == rest;
    if front == "" {
      assert front + key == key;
    } else {
      assert (front + key)[1..] == front[1..] + key;
      StarAbsorbs(front[1..], rest, key);
    }
  }

  lemma {:induction false} GlobReflexive(s: string)
    ensures Glob(s, s)
  {
    if s != "" {
      GlobReflexive(s[1..]);
      if s[0] == '*' {
        StarAbsorbs(['*'], s[1..], s[1..]);
        assert s == "*" + s[1..] == ['*'] + s[1..];
      }
    }
  }

  /** The pattern for an id finds exactly the keys of that id. */
  lemma IdPatternIsExact(id: MetaId, other: MetaId, hash: string)
    ensures Glob(IdPattern(id), Key(other, hash)) <==> id == other
  {
    var p := PREFIX + id + "_";
    var key := Key(other, hash);
    GlobLiteral(p, "*", key);
    StarMatchesAll(key[46..]);
    assert key[10..46] == other;
    assert p[10..46] == id;
    if p <= key { assert key[..47] == p; assert key[..47][10..46] == other; }
    if id == other { assert key == p + hash; }
  }

  /** The pattern for a hash finds every key of that hash, whatever its characters. */
  lemma HashPatternFindsItself(id: MetaId, hash: string)
    ensures Glob(HashPattern(hash), Key(id, hash))
  {
    var tail := "_" + hash;
    GlobReflexive(tail);
    StarAbsorbs(id, tail, tail);
    var key := Key(id, hash);
    GlobLiteral(PREFIX, "*" + tail, key);
    assert key[10..] == id + tail;
  }

  /** A text has another at its end. */
  predicate EndsWith(s: string, end: string) {
    |end| <= |s| && s[|s| - |end|..] == end
  }

  /** A star in front of a literal asks for that end. */
  lemma {:induction false} StarThenLiteral(p: string, key: string)
    requires '*' !in p
    ensures Glob("*" + p, key) <==> EndsWith(key, p)
  {
    assert ("*" + p)[0] == '*' && ("*" + p)[1..] == p && p + "" == p;
    GlobLiteral(p, "", key);
    assert p <= key && key[|p|..] == "" ==> key == p;
    if key == "" {
      assert p == "" <==> p <= key;
    } else {
      StarThenLiteral(p, key[1..]);
      EndsLater(key, p);
    }
  }

  lemma EndsLater(s: string, end: string)
    requires s != ""
    ensures EndsWith(s, end) <==> s == end || EndsWith(s[1..], end)
  {
    if |end| == |s| {
      assert s[0..] == s;
    } else if |end| < |s| {
      assert s[1..][|s[1..]| - |end|..] == s[|s| - |end|..];
    }
  }

  /** What ends an id, an underscore and a hash, when the id has no underscore. */
  lemma HashAtEnd(id: string, hash: string, other: string)
    requires '_' !in id
    ensures EndsWith(id + "_" + other, "_" + hash) <==> hash == other || EndsWith(other, "_" + hash)
  {
    var s, end := id + "_" + other, "_" + hash;
    var n := |s| - |end|;
    if |end| > |other| + 1 {
      if n >= 0 {
        assert s[n] == id[n];
        assert s[n..][0] == id[n] && end[0] == '_';
      }
    } else if |end| == |other| + 1 {
      assert s[n..] == "_" + other;
      assert ("_" + other)[1..] == other && end[1..] == hash;
    } else {
      assert s[n..] == other[|other| - |end|..];
    }
  }

  /** The pattern of a hash without a star finds the keys of that hash and those of a hash that ends with it
      behind an underscore, and no others. */
  lemma HashPatternFinds(id: MetaId, hash: string, other: string)
    requires '*' !in hash
    ensures Glob(HashPattern(hash), Key(id, other)) <==> hash == other || EndsWith(other, "_" + hash)
  {
    var key := Key(id, other);
    GlobLiteral(PREFIX, "*" + ("_" + hash), key);
    assert key[10..] == id + "_" + other;
    StarThenLiteral("_" + hash, key[10..]);
    HashAtEnd(id, hash, other);
  }

  /** A printed digest has neither: its pattern finds the keys of that hash only. */
  lemma HashPatternIsExact(id: MetaId, hash: string, other: string)
    requires '*' !in hash && '_' !in other
    ensures Glob(HashPattern(hash), Key(id, other)) <==> hash == other
  {
    HashPatternFinds(id, hash, other);
    EndIsIn(other, "_" + hash);
  }

  lemma EndIsIn(s: string, end: string)
    requires end != ""
    ensures EndsWith(s, end) ==> end[0] in s
  {
    if EndsWith(s, end) { assert s[|s| - |end|] == end[0]; }
  }

  // ---------------------------------------------------------------- the operations on the store

  /** `get_one_by_key_regex` with the pattern of an id. */
  ghost function LookUp(records: map<string, Record>, id: MetaId): (key: Option<string>)
    ensures key.Some? ==> key.value in records && Glob(IdPattern(id), key.value)
    ensures key.None? ==> forall k :: k in records ==> !Glob(IdPattern(id), k)
  {
    if exists k :: k in records && Glob(IdPattern(id), k) then
      var k :| k in records && Glob(IdPattern(id), k);
      Some(k)
    else None
  }

  ghost predicate HashTaken(records: map<string, Record>, hash: string) {
    exists k :: k in records && Glob(HashPattern(hash), k)
  }

  ghost function Create(st: Store, id: MetaId, hash: string, count: nat): Store {
    if HashTaken(st.records, hash) || LookUp(st.records, id).Some? then st
    else st.(records := st.records[Key(id, hash) := Record(id, hash, seq(count, i => false))])
  }

  /** The indexes of the parts that have not arrived, in increasing order, counting from `from`. */
  function Missing(parts: seq<bool>, from: nat := 0): seq<nat> {
    if parts == [] then []
    else (if parts[0] then [] else [from]) + Missing(parts[1..], from + 1)
  }

  lemma {:induction false} MissingIsExact(parts: seq<bool>, from: nat)
    ensures forall i :: i in Missing(parts, from) <==> from <= i < from + |parts| && !parts[i - from]
    ensures forall a, b :: 0 <= a < b < |Missing(parts, from)| ==> Missing(parts, from)[a] < Missing(parts, from)[b]
  {
    if parts != [] {
      MissingIsExact(parts[1..], from + 1);
      var rest := Missing(parts[1..], from + 1);
      assert forall i :: 0 <= i < |rest| ==> rest[i] in rest;
    }
  }

  lemma {:induction false} NothingMissing(parts: seq<bool>, from: nat)
    ensures Missing(parts, from) == [] <==> forall i :: 0 <= i < |parts| ==> parts[i]
  {
    if parts != [] {
      NothingMissing(parts[1..], from + 1);
      assert forall i :: 1 <= i < |parts| ==> parts[i] == parts[1..][i - 1];
    }
  }

  function CachedParts(cache: map<(MetaId, nat), seq<byte>>, id: MetaId, count: nat): Option<seq<byte>> {
    if count == 0 then Some([])
    else
      var front := CachedParts(cache, id, count - 1);
      if front.None? || (id, count - 1) !in cache then None
      else Some(front.value + cache[(id, count - 1)])
  }

  function DropDir(cache: map<(MetaId, nat), seq<byte>>, id: MetaId): map<(MetaId, nat), seq<byte>> {
    map k | k in cache && k.0 != id :: cache[k]
  }

  /** The end of a completed part: the merge when no part is missing. */
  ghost function MergeIfWhole(st: Store, hasher: seq<byte> -> string, id: MetaId, hash: string,
                              parts: seq<bool>): (Store, Reply) {
    if Missing(parts) != [] then (st, Unfinished(Missing(parts)))
    else
      var content := CachedParts(st.cache, id, |parts|);
      if content.None? then (st, PartUnreadable)
      else if hasher(content.value) != hash then (st, DifferentHash)
      else (st.(files := st.files[id := content.value], cache := DropDir(st.cache, id)), Unfinished([]))
  }

  ghost function CompletePart(st: Store, hasher: seq<byte> -> string, id: MetaId, nth: nat,
                              bytes: seq<byte>): (Store, Reply) {
    var cached := st.(cache := st.cache[(id, nth) := bytes]);
    var key := LookUp(st.records, id);
    if key.None? then (cached, NotFound)
    else
      var record := st.records[key.value];
      if nth >= |record.parts| then (cached, NoSuchPart)
      else
        var parts := record.parts[nth := true];
        var marked := cached.(records := st.records[Key(id, record.hash) := record.(parts := parts)]);
        MergeIfWhole(marked, hasher, id, record.hash, parts)
  }

  ghost function Remove(st: Store, id: MetaId): Store {
    var key := LookUp(st.records, id);
    if key.None? then st else st.(records := st.records - {key.value}, cache := DropDir(st.cache, id))
  }

  /** A lease runs out. */
  function Expire(st: Store, key: string): Store {
    st.(records := st.records - {key})
  }

  // ---------------------------------------------------------------- what every step keeps

  ghost predicate WellKeyed(records: map<string, Record>) {
    forall k :: k in records ==> k == Key(records[k].metaId, records[k].hash)
  }

  ghost predicate OnePerId(records: map<string, Record>) {
    forall k, l :: k in records && l in records && records[k].metaId == records[l].metaId ==> k == l
  }

  ghost predicate OnePerHash(records: map<string, Record>) {
    forall k, l :: k in records && l in records && records[k].hash == records[l].hash ==> k == l
  }

  ghost predicate MarkedAreCached(st: Store, r: Record) {
    forall i :: 0 <= i < |r.parts| && r.parts[i] ==> (r.metaId, i) in st.cache
  }

  /** The merge of this record has succeeded. */
  ghost predicate Merged(st: Store, hasher: seq<byte> -> string, r: Record) {
    && (forall i :: 0 <= i < |r.parts| ==> r.parts[i])
    && r.metaId in st.files && hasher(st.files[r.metaId]) == r.hash
  }

  ghost predicate Valid(st: Store, hasher: seq<byte> -> string) {
    && WellKeyed(st.records)
    && OnePerId(st.records)
    && OnePerHash(st.records)
    && forall k :: k in st.records ==> MarkedAreCached(st, st.records[k]) || Merged(st, hasher, st.records[k])
  }

  /** In a well-keyed store the lookup by id finds the record of that id and no other. */
  lemma LookUpIsExact(records: map<string, Record>, id: MetaId)
    requires WellKeyed(records)
    ensures var key := LookUp(records, id);
            if key.Some? then records[key.value].metaId == id
            else forall k :: k in records ==> records[k].metaId != id
  {
    var key := LookUp(records, id);
    if key.Some? {
      IdPatternIsExact(id, records[key.value].metaId, records[key.value].hash);
    } else {
      forall k | k in records ensures records[k].metaId != id {
        IdPatternIsExact(id, records[k].metaId, records[k].hash);
      }
    }
  }

  lemma CreatedIsNew(st: Store, id: MetaId, hash: string)
    requires WellKeyed(st.records) && !HashTaken(st.records, hash) && LookUp(st.records, id).None?
    ensures forall k :: k in st.records ==> st.records[k].metaId != id && st.records[k].hash != hash
  {
    LookUpIsExact(st.records, id);
    forall k | k in st.records ensures st.records[k].hash != hash {
      HashPatternFindsItself(st.records[k].metaId, hash);
    }
  }

  lemma CreatedKeyed(st: Store, hasher: seq<byte> -> string, id: MetaId, hash: string, count: nat)
    requires Valid(st, hasher)
    requires forall k :: k in st.records ==> st.records[k].metaId != id && st.records[k].hash != hash
    ensures var records := st.records[Key(id, hash) := Record(id, hash, seq(count, i => false))];
            WellKeyed(records) && OnePerId(records) && OnePerHash(records)
  {
  }

  lemma CreatedCached(st: Store, hasher: seq<byte> -> string, id: MetaId, hash: string, count: nat, k: string)
    requires Valid(st, hasher) && (k in st.records || k == Key(id, hash))
    ensures var r := Record(id, hash, seq(count, i => false));
            var st' := st.(records := st.records[Key(id, hash) := r]);
            MarkedAreCached(st', st'.records[k]) || Merged(st', hasher, st'.records[k])
  {
    assert k in st.records ==> MarkedAreCached(st, st.records[k]) || Merged(st, hasher, st.records[k]);
  }

  lemma CreateKeeps(st: Store, hasher: seq<byte> -> string, id: MetaId, hash: string, count: nat)
    requires Valid(st, hasher)
    ensures Valid(Create(st, id, hash, count), hasher)
  {
    if !HashTaken(st.records, hash) && LookUp(st.records, id).None? {
      CreatedIsNew(st, id, hash);
      CreatedKeyed(st, hasher, id, hash, count);
      var st' := Create(st, id, hash, count);
      forall k | k in st'.records ensures MarkedAreCached(st', st'.records[k]) || Merged(st', hasher, st'.records[k]) {
        CreatedCached(st, hasher, id, hash, count, k);
      }
    }
  }

  lemma ExpireKeeps(st: Store, hasher: seq<byte> -> string, key: string)
    requires Valid(st, hasher)
    ensures Valid(Expire(st, key), hasher)
  {
    var st' := Expire(st, key);
    forall k | k in st'.records
      ensures MarkedAreCached(st', st'.records[k]) || Merged(st', hasher, st'.records[k])
    {
      assert MarkedAreCached(st, st.records[k]) || Merged(st, hasher, st.records[k]);
    }
  }

  lemma RemoveKeeps(st: Store, hasher: seq<byte> -> string, id: MetaId)
    requires Valid(st, hasher)
    ensures Valid(Remove(st, id), hasher)
  {
    LookUpIsExact(st.records, id);
    var st' := Remove(st, id);
    forall k | k in st'.records
      ensures MarkedAreCached(st', st'.records[k]) || Merged(st', hasher, st'.records[k])
    {
      assert MarkedAreCached(st, st.records[k]) || Merged(st, hasher, st.records[k]);
    }
  }

  ghost predicate HasRecord(st: Store, id: MetaId) {
    exists k :: k in st.records && st.records[k].metaId == id
  }

  /** What cancelling takes away: the record of the id and, when there was one, its cached parts. Records,
      parts and merged files of other ids stay as they are, and so does the merged file of the id. */
  lemma RemoveMeaning(st: Store, hasher: seq<byte> -> string, id: MetaId)
    requires Valid(st, hasher)
    ensures var st' := Remove(st, id);
            && !HasRecord(st', id)
            && (forall k :: k in st'.records <==> k in st.records && st.records[k].metaId != id)
            && (forall k :: k in st'.records ==> st'.records[k] == st.records[k])
            && (forall i: nat :: (id, i) in st'.cache <==> (id, i) in st.cache && !HasRecord(st, id))
            && (forall other, i: nat :: other != id ==> ((other, i) in st'.cache <==> (other, i) in st.cache))
            && (forall c :: c in st'.cache ==> st'.cache[c] == st.cache[c])
            && st'.files == st.files
  {
    LookUpIsExact(st.records, id);
    var key := LookUp(st.records, id);
    if key.Some? { assert key.value in st.records && st.records[key.value].metaId == id; }
  }

  /** A lease that runs out takes its record away and nothing else: the cached parts stay. */
  lemma ExpireMeaning(st: Store, key: string)
    ensures var st' := Expire(st, key);
            && (forall k :: k in st'.records <==> k in st.records && k != key)
            && (forall k :: k in st'.records ==> st'.records[k] == st.records[k])
            && st'.cache == st.cache && st'.files == st.files
  {
  }

  /** A creation that is accepted enters a record with no part in, and no creation changes anything else. */
  lemma CreateMeaning(st: Store, hasher: seq<byte> -> string, id: MetaId, hash: string, count: nat)
    requires Valid(st, hasher)
    ensures var st' := Create(st, id, hash, count);
            var accepted := !HashTaken(st.records, hash) && !HasRecord(st, id);
            && (forall k :: k in st'.records <==> k in st.records || (accepted && k == Key(id, hash)))
            && (forall k :: k in st.records ==> st'.records[k] == st.records[k])
            && (accepted ==>
                  var r := st'.records[Key(id, hash)];
                  r.metaId == id && r.hash == hash && |r.parts| == count && forall i :: 0 <= i < count ==> !r.parts[i])
            && st'.cache == st.cache && st'.files == st.files
  {
    LookUpIsExact(st.records, id);
    HashPatternFindsItself(id, hash);
  }

  /** A part the service turns down is cached all the same, and nothing else happens. */
  lemma PartRefused(st: Store, hasher: seq<byte> -> string, id: MetaId, nth: nat, bytes: seq<byte>)
    requires Valid(st, hasher)
    ensures var r := CompletePart(st, hasher, id, nth, bytes);
            && (r.1 == NotFound <==> !HasRecord(st, id))
            && (r.1 == NoSuchPart <==> exists k :: k in st.records && st.records[k].metaId == id
                                                   && nth >= |st.records[k].parts|)
            && (r.1 == NotFound || r.1 == NoSuchPart ==>
                  r.0.records == st.records && r.0.files == st.files && r.0.cache == st.cache[(id, nth) := bytes])
  {
    LookUpIsExact(st.records, id);
    var key := LookUp(st.records, id);
    if key.Some? { assert key.value in st.records && st.records[key.value].metaId == id; }
  }

  lemma {:induction false} CachedPartsPresent(cache: map<(MetaId, nat), seq<byte>>, id: MetaId, count: nat)
    ensures CachedParts(cache, id, count).Some? <==> forall i :: 0 <= i < count ==> (id, i) in cache
  {
    if count > 0 { CachedPartsPresent(cache, id, count - 1); }
  }

  /** A merge touches no record, and no part or file of another id. */
  lemma MergeFrame(st: Store, hasher: seq<byte> -> string, id: MetaId, hash: string, parts: seq<bool>)
    ensures var st' := MergeIfWhole(st, hasher, id, hash, parts).0;
            && st'.records == st.records
            && (forall other, i :: other != id && (other, i) in st.cache ==> (other, i) in st'.cache)
            && (forall other :: other != id && other in st.files ==>
                  other in st'.files && st'.files[other] == st.files[other])
  {
  }

  /** A completed part touches nothing that belongs to another id, and no record's id or hash. */
  lemma CompletePartFrame(st: Store, hasher: seq<byte> -> string, id: MetaId, nth: nat, bytes: seq<byte>)
    requires WellKeyed(st.records)
    ensures var st' := CompletePart(st, hasher, id, nth, bytes).0;
            && st'.records.Keys == st.records.Keys
            && (forall k :: k in st.records ==> st'.records[k].metaId == st.records[k].metaId
                                                && st'.records[k].hash == st.records[k].hash)
            && (forall k :: k in st.records && st.records[k].metaId != id ==> st'.records[k] == st.records[k])
            && (forall other, i :: other != id && (other, i) in st.cache ==> (other, i) in st'.cache)
            && (forall other :: other != id && other in st.files ==>
                  other in st'.files && st'.files[other] == st.files[other])
  {
    LookUpIsExact(st.records, id);
    var key := LookUp(st.records, id);
    if key.Some? {
      var record := st.records[key.value];
      assert Key(id, record.hash) == key.value;
      if nth < |record.parts| {
        var parts := record.parts[nth := true];
        var marked := Store(st.records[key.value := record.(parts := parts)], st.cache[(id, nth) := bytes], st.files);
        MergeFrame(marked, hasher, id, record.hash, parts);
      }
    }
  }

  lemma CompletePartKeeps(st: Store, hasher: seq<byte> -> string, id: MetaId, nth: nat, bytes: seq<byte>)
    requires Valid(st, hasher)
    ensures Valid(CompletePart(st, hasher, id, nth, bytes).0, hasher)
  {
    CompletePartFrame(st, hasher, id, nth, bytes);
    var st' := CompletePart(st, hasher, id, nth, bytes).0;
    forall k | k in st'.records
      ensures MarkedAreCached(st', st'.records[k]) || Merged(st', hasher, st'.records[k])
    {
      assert MarkedAreCached(st, st.records[k]) || Merged(st, hasher, st.records[k]);
      if st.records[k].metaId == id { CompletedRecord(st, hasher, id, nth, bytes, k); }
    }
  }

  /** The store once a part is cached and its record marked, before any merge. */
  ghost function Mark(st: Store, k: string, id: MetaId, nth: nat, bytes: seq<byte>): Store
    requires k in st.records && nth < |st.records[k].parts|
  {
    var r := st.records[k];
    st.(cache := st.cache[(id, nth) := bytes], records := st.records[k := r.(parts := r.parts[nth := true])])
  }

  lemma MarkKeeps(st: Store, hasher: seq<byte> -> string, k: string, id: MetaId, nth: nat, bytes: seq<byte>)
    requires k in st.records && st.records[k].metaId == id && nth < |st.records[k].parts|
    requires MarkedAreCached(st, st.records[k]) || Merged(st, hasher, st.records[k])
    ensures var st' := Mark(st, k, id, nth, bytes);
            MarkedAreCached(st', st'.records[k]) || Merged(st', hasher, st'.records[k])
  {
  }

  lemma CompletedRecord(st: Store, hasher: seq<byte> -> string, id: MetaId, nth: nat, bytes: seq<byte>, k: string)
    requires Valid(st, hasher) && k in st.records && st.records[k].metaId == id
    ensures var st' := CompletePart(st, hasher, id, nth, bytes).0;
            k in st'.records && (MarkedAreCached(st', st'.records[k]) || Merged(st', hasher, st'.records[k]))
  {
    LookUpIsExact(st.records, id);
    var record := st.records[k];
    assert LookUp(st.records, id) == Some(k);
    assert Key(id, record.hash) == k;
    assert MarkedAreCached(st, record) || Merged(st, hasher, record);
    if nth < |record.parts| {
      NothingMissing(record.parts[nth := true], 0);
      MarkKeeps(st, hasher, k, id, nth, bytes);
      CompletePartFromMark(st, hasher, id, nth, bytes, k);
    }
  }

  lemma CompletePartFromMark(st: Store, hasher: seq<byte> -> string, id: MetaId, nth: nat, bytes: seq<byte>, k: string)
    requires LookUp(st.records, id) == Some(k) && k == Key(id, st.records[k].hash) && nth < |st.records[k].parts|
    ensures var marked := Mark(st, k, id, nth, bytes);
            var st' := CompletePart(st, hasher, id, nth, bytes).0;
            || st' == marked
            || (&& Missing(marked.records[k].parts) == []
                && st'.records == marked.records
                && id in st'.files && hasher(st'.files[id]) == st.records[k].hash)
  {
  }
}
