/** Whole histories of the multipart service: what every interleaving keeps, and what one upload
    amounts to when its parts arrive in any order, repeated, and mixed with other uploads. */
module MultipartRuns {
  import opened Basics
  import opened Multipart

  datatype Step = CreateStep(id: MetaId, hash: string, count: nat)
                | PartStep(id: MetaId, nth: nat, bytes: seq<byte>)
                | RemoveStep(id: MetaId)
                | ExpireStep(key: string)

  ghost function Apply(st: Store, hasher: seq<byte> -> string, step: Step): Store {
    match step
    case CreateStep(id, hash, count) => Create(st, id, hash, count)
    case PartStep(id, nth, bytes) => CompletePart(st, hasher, id, nth, bytes).0
    case RemoveStep(id) => Remove(st, id)
    case ExpireStep(key) => Expire(st, key)
  }

  ghost function Run(st: Store, hasher: seq<byte> -> string, steps: seq<Step>): Store {
    if steps == [] then st else Apply(Run(st, hasher, steps[..|steps| - 1]), hasher, steps[|steps| - 1])
  }

  const EMPTY := Store(map[], map[], map[])

  // ---------------------------------------------------------------- every interleaving

  lemma ApplyKeeps(st: Store, hasher: seq<byte> -> string, step: Step)
    requires Valid(st, hasher)
    ensures Valid(Apply(st, hasher, step), hasher)
  {
    match step
    case CreateStep(id, hash, count) => CreateKeeps(st, hasher, id, hash, count);
    case PartStep(id, nth, bytes) => CompletePartKeeps(st, hasher, id, nth, bytes);
    case RemoveStep(id) => RemoveKeeps(st, hasher, id);
    case ExpireStep(key) => ExpireKeeps(st, hasher, key);
  }

  lemma {:induction false} RunKeeps(st: Store, hasher: seq<byte> -> string, steps: seq<Step>)
    requires Valid(st, hasher)
    ensures Valid(Run(st, hasher, steps), hasher)
  {
    if steps != [] {
      RunKeeps(st, hasher, steps[..|steps| - 1]);
      ApplyKeeps(Run(st, hasher, steps[..|steps| - 1]), hasher, steps[|steps| - 1]);
    }
  }

  /** A creation is accepted when neither the hash nor the id is registered. */
  ghost predicate Accepts(st: Store, id: MetaId, hash: string) {
    !HashTaken(st.records, hash) && LookUp(st.records, id).None?
  }

  /** A cancelled id can be created again, under any hash whose pattern finds no record of another id. */
  lemma AcceptedAfterRemove(st: Store, hasher: seq<byte> -> string, id: MetaId, hash: string)
    requires Valid(st, hasher)
    ensures Accepts(Remove(st, id), id, hash) <==>
            forall k :: k in st.records && st.records[k].metaId != id ==> !Glob(HashPattern(hash), k)
  {
    RemoveMeaning(st, hasher, id);
    RemoveKeeps(st, hasher, id);
    LookUpIsExact(Remove(st, id).records, id);
  }

  /** Some step created an upload of this id with this hash, and the service accepted it. */
  ghost predicate Registered(hasher: seq<byte> -> string, steps: seq<Step>, id: MetaId, hash: string) {
    exists i :: 0 <= i < |steps| && Registers(hasher, steps, i, id, hash)
  }

  ghost predicate Registers(hasher: seq<byte> -> string, steps: seq<Step>, i: nat, id: MetaId, hash: string)
    requires i < |steps|
  {
    && steps[i].CreateStep? && steps[i].id == id && steps[i].hash == hash
    && Accepts(Run(EMPTY, hasher, steps[..i]), id, hash)
  }

  ghost predicate AllRegistered(st: Store, hasher: seq<byte> -> string, steps: seq<Step>) {
    && (forall k :: k in st.records ==> Registered(hasher, steps, st.records[k].metaId, st.records[k].hash))
    && (forall id :: id in st.files ==> Registered(hasher, steps, id, hasher(st.files[id])))
  }

  lemma RegisteredGrows(hasher: seq<byte> -> string, steps: seq<Step>, id: MetaId, hash: string)
    requires steps != []
    ensures Registered(hasher, steps[..|steps| - 1], id, hash) ==> Registered(hasher, steps, id, hash)
  {
    var front := steps[..|steps| - 1];
    if i :| 0 <= i < |front| && Registers(hasher, front, i, id, hash) {
      assert front[..i] == steps[..i];
      assert Registers(hasher, steps, i, id, hash);
    }
  }

  /** Where a record or a merged file of the next store comes from. */
  ghost predicate Provenance(st: Store, hasher: seq<byte> -> string, step: Step) {
    RecordsFrom(st, step, Apply(st, hasher, step).records) && FilesFrom(st, hasher, Apply(st, hasher, step).files)
  }

  /** Each record was there with that id and hash, or the step creates it. */
  ghost predicate RecordsFrom(st: Store, step: Step, records: map<string, Record>) {
    forall k :: k in records ==>
      || (k in st.records && records[k].metaId == st.records[k].metaId && records[k].hash == st.records[k].hash)
      || (&& step.CreateStep? && records[k].metaId == step.id && records[k].hash == step.hash
          && Accepts(st, step.id, step.hash))
  }

  /** Each file was there, or a record of its id has its hash. */
  ghost predicate FilesFrom(st: Store, hasher: seq<byte> -> string, files: map<MetaId, seq<byte>>) {
    forall id :: id in files ==>
      || (id in st.files && files[id] == st.files[id])
      || exists k :: k in st.records && st.records[k].metaId == id && st.records[k].hash == hasher(files[id])
  }

  lemma PartProvenance(st: Store, hasher: seq<byte> -> string, step: Step)
    requires Valid(st, hasher) && step.PartStep?
    ensures Provenance(st, hasher, step)
  {
    CompletePartFrame(st, hasher, step.id, step.nth, step.bytes);
    MergedHash(st, hasher, step.id, step.nth, step.bytes);
  }

  /** The file a completed part merges is the one registered for its id. */
  lemma MergedHash(st: Store, hasher: seq<byte> -> string, id: MetaId, nth: nat, bytes: seq<byte>)
    requires WellKeyed(st.records)
    ensures var files := CompletePart(st, hasher, id, nth, bytes).0.files;
            && files.Keys <= st.files.Keys + {id}
            && (id in files ==>
                  || (id in st.files && files[id] == st.files[id])
                  || exists k | k in st.records ::
                       st.records[k].metaId == id && st.records[k].hash == hasher(files[id]))
  {
    LookUpIsExact(st.records, id);
    var key := LookUp(st.records, id);
    if key.Some? { assert key.value in st.records && st.records[key.value].metaId == id; }
  }

  lemma StepProvenance(st: Store, hasher: seq<byte> -> string, step: Step)
    requires Valid(st, hasher)
    ensures Provenance(st, hasher, step)
  {
    if step.PartStep? { PartProvenance(st, hasher, step); }
  }

  lemma StepRegistered(hasher: seq<byte> -> string, steps: seq<Step>)
    requires steps != []
    requires var st := Run(EMPTY, hasher, steps[..|steps| - 1]);
             Valid(st, hasher) && AllRegistered(st, hasher, steps[..|steps| - 1])
    ensures AllRegistered(Run(EMPTY, hasher, steps), hasher, steps)
  {
    var n := |steps| - 1;
    var st, st' := Run(EMPTY, hasher, steps[..n]), Run(EMPTY, hasher, steps);
    StepProvenance(st, hasher, steps[n]);
    forall k | k in st'.records ensures Registered(hasher, steps, st'.records[k].metaId, st'.records[k].hash) {
      var id, hash := st'.records[k].metaId, st'.records[k].hash;
      RegisteredGrows(hasher, steps, id, hash);
      if !Registered(hasher, steps[..n], id, hash) { assert Registers(hasher, steps, n, id, hash); }
    }
    forall id | id in st'.files ensures Registered(hasher, steps, id, hasher(st'.files[id])) {
      RegisteredGrows(hasher, steps, id, hasher(st'.files[id]));
    }
  }

  /** In every history: at most one record per id and per hash, every part marked as arrived is
      cached until its merge has succeeded, and every merged file hashes to a hash that the service
      accepted for its id. */
  lemma {:induction false} EveryHistory(hasher: seq<byte> -> string, steps: seq<Step>)
    ensures Valid(Run(EMPTY, hasher, steps), hasher)
    ensures AllRegistered(Run(EMPTY, hasher, steps), hasher, steps)
  {
    if steps != [] {
      EveryHistory(hasher, steps[..|steps| - 1]);
      RunKeeps(EMPTY, hasher, steps);
      StepRegistered(hasher, steps);
    }
  }

  // ---------------------------------------------------------------- one upload

  /** An upload: its id, its registered hash and its number of parts. */
  datatype Upload = Upload(id: MetaId, hash: string, count: nat)

  /** The bytes last sent for a part. */
  function Latest(steps: seq<Step>, id: MetaId, i: nat): Option<seq<byte>> {
    if steps == [] then None
    else
      var step := steps[|steps| - 1];
      if step.PartStep? && step.id == id && step.nth == i then Some(step.bytes)
      else Latest(steps[..|steps| - 1], id, i)
  }

  predicate AllSent(steps: seq<Step>, id: MetaId, count: nat) {
    forall i :: 0 <= i < count ==> Latest(steps, id, i).Some?
  }

  /** The latest bytes of the parts, in part order. */
  function Assembled(steps: seq<Step>, id: MetaId, count: nat): seq<byte>
    requires AllSent(steps, id, count)
  {
    if count == 0 then [] else Assembled(steps, id, count - 1) + Latest(steps, id, count - 1).value
  }

  /** The last step sends a part of the upload, every part is in, and the hash fits. */
  ghost predicate Completes(steps: seq<Step>, u: Upload, hasher: seq<byte> -> string) {
    && steps != [] && IsPartOf(steps[|steps| - 1], u)
    && AllSent(steps, u.id, u.count) && hasher(Assembled(steps, u.id, u.count)) == u.hash
  }

  predicate IsPartOf(step: Step, u: Upload) {
    step.PartStep? && step.id == u.id && step.nth < u.count
  }

  /** The upload is neither removed nor expires, and no prefix of the history completes it. Hash
      mismatches, repeated parts, parts out of range and steps of other uploads are all allowed. */
  ghost predicate Pending(steps: seq<Step>, u: Upload, hasher: seq<byte> -> string) {
    steps == [] ||
    (&& Pending(steps[..|steps| - 1], u, hasher)
     && Undisturbed(steps[|steps| - 1], u)
     && !Completes(steps, u, hasher))
  }

  predicate Undisturbed(step: Step, u: Upload) {
    step != RemoveStep(u.id) && step != ExpireStep(Key(u.id, u.hash))
  }

  /** The store tracks the upload: its record marks the parts that were sent, its cache holds the
      latest bytes of each. */
  ghost predicate Tracks(st: Store, steps: seq<Step>, u: Upload) {
    var k := Key(u.id, u.hash);
    && k in st.records
    && st.records[k] == Record(u.id, u.hash, Arrived(steps, u))
    && forall i :: 0 <= i < u.count && Latest(steps, u.id, i).Some? ==>
                     (u.id, i) in st.cache && st.cache[(u.id, i)] == Latest(steps, u.id, i).value
  }

  function Arrived(steps: seq<Step>, u: Upload): seq<bool> {
    seq(u.count, i requires 0 <= i < u.count => Latest(steps, u.id, i).Some?)
  }

  lemma {:induction false} CacheAssembles(st: Store, steps: seq<Step>, u: Upload, count: nat)
    requires count <= u.count && AllSent(steps, u.id, count)
    requires forall i :: 0 <= i < count ==>
                           (u.id, i) in st.cache && st.cache[(u.id, i)] == Latest(steps, u.id, i).value
    ensures CachedParts(st.cache, u.id, count) == Some(Assembled(steps, u.id, count))
  {
    if count > 0 { CacheAssembles(st, steps, u, count - 1); }
  }

  /** What the service answers to a part of a tracked upload. */
  ghost function ExpectedReply(steps: seq<Step>, u: Upload, hasher: seq<byte> -> string): Reply {
    if Missing(Arrived(steps, u)) != [] then Unfinished(Missing(Arrived(steps, u)))
    else if Completes(steps, u, hasher) then Unfinished([])
    else DifferentHash
  }

  lemma NoneMissing(steps: seq<Step>, u: Upload)
    ensures Missing(Arrived(steps, u)) == [] <==> AllSent(steps, u.id, u.count)
  {
    NothingMissing(Arrived(steps, u), 0);
    assert forall i :: 0 <= i < u.count ==> Arrived(steps, u)[i] == Latest(steps, u.id, i).Some?;
  }

  /** The store once the part is cached and its record marked, before any merge. */
  ghost function Marked(st: Store, steps: seq<Step>, u: Upload): Store
    requires steps != [] && steps[|steps| - 1].PartStep?
  {
    var step := steps[|steps| - 1];
    st.(cache := st.cache[(u.id, step.nth) := step.bytes],
        records := st.records[Key(u.id, u.hash) := Record(u.id, u.hash, Arrived(steps, u))])
  }

  lemma PartIsMarked(st: Store, steps: seq<Step>, u: Upload)
    requires steps != [] && IsPartOf(steps[|steps| - 1], u)
    requires Tracks(st, steps[..|steps| - 1], u)
    ensures st.records[Key(u.id, u.hash)].parts[steps[|steps| - 1].nth := true] == Arrived(steps, u)
    ensures Tracks(Marked(st, steps, u), steps, u)
  {
  }

  lemma TrackedLookUp(st: Store, steps: seq<Step>, u: Upload, hasher: seq<byte> -> string)
    requires Valid(st, hasher) && Tracks(st, steps, u)
    ensures LookUp(st.records, u.id) == Some(Key(u.id, u.hash))
  {
    LookUpIsExact(st.records, u.id);
    IdPatternIsExact(u.id, u.id, u.hash);
  }

  lemma PartReachesMerge(st: Store, steps: seq<Step>, u: Upload, hasher: seq<byte> -> string)
    requires Valid(st, hasher) && steps != [] && IsPartOf(steps[|steps| - 1], u)
    requires Tracks(st, steps[..|steps| - 1], u)
    ensures var step := steps[|steps| - 1];
            CompletePart(st, hasher, u.id, step.nth, step.bytes) ==
            MergeIfWhole(Marked(st, steps, u), hasher, u.id, u.hash, Arrived(steps, u))
  {
    TrackedLookUp(st, steps[..|steps| - 1], u, hasher);
    PartIsMarked(st, steps, u);
  }

  lemma MergeOfTracked(marked: Store, steps: seq<Step>, u: Upload, hasher: seq<byte> -> string)
    requires Tracks(marked, steps, u) && steps != [] && IsPartOf(steps[|steps| - 1], u)
    ensures MergeIfWhole(marked, hasher, u.id, u.hash, Arrived(steps, u)) ==
            (if Completes(steps, u, hasher)
             then marked.(files := marked.files[u.id := Assembled(steps, u.id, u.count)],
                          cache := DropDir(marked.cache, u.id))
             else marked,
             ExpectedReply(steps, u, hasher))
  {
    NoneMissing(steps, u);
    if AllSent(steps, u.id, u.count) {
      CacheAssembles(marked, steps, u, u.count);
    }
  }

  /** One part of the upload, sent to a store that tracks what came before it. */
  lemma PartOfUpload(st: Store, steps: seq<Step>, u: Upload, hasher: seq<byte> -> string)
    requires Valid(st, hasher) && steps != [] && IsPartOf(steps[|steps| - 1], u)
    requires Tracks(st, steps[..|steps| - 1], u)
    ensures var step := steps[|steps| - 1];
            var marked := Marked(st, steps, u);
            CompletePart(st, hasher, u.id, step.nth, step.bytes) ==
            (if Completes(steps, u, hasher)
             then marked.(files := st.files[u.id := Assembled(steps, u.id, u.count)],
                          cache := DropDir(marked.cache, u.id))
             else marked,
             ExpectedReply(steps, u, hasher))
    ensures Tracks(Marked(st, steps, u), steps, u)
  {
    PartReachesMerge(st, steps, u, hasher);
    PartIsMarked(st, steps, u);
    MergeOfTracked(Marked(st, steps, u), steps, u, hasher);
  }

  lemma CreateElsewhere(st: Store, u: Upload, id: MetaId, hash: string, count: nat)
    requires WellKeyed(st.records) && Key(u.id, u.hash) in st.records && st.records[Key(u.id, u.hash)].metaId == u.id
    ensures var st' := Create(st, id, hash, count);
            var k := Key(u.id, u.hash);
            st'.cache == st.cache && k in st'.records && st'.records[k] == st.records[k]
  {
    IdPatternIsExact(u.id, id, hash);
    IdPatternIsExact(u.id, u.id, u.hash);
    LookUpIsExact(st.records, id);
  }

  /** A step that is not a part of the upload and does not disturb it leaves it tracked. */
  lemma OtherStep(st: Store, steps: seq<Step>, u: Upload, hasher: seq<byte> -> string)
    requires Valid(st, hasher) && steps != []
    requires !IsPartOf(steps[|steps| - 1], u) && Undisturbed(steps[|steps| - 1], u)
    requires Tracks(st, steps[..|steps| - 1], u)
    ensures Tracks(Apply(st, hasher, steps[|steps| - 1]), steps, u)
  {
    var front, step := steps[..|steps| - 1], steps[|steps| - 1];
    assert Arrived(steps, u) == Arrived(front, u);
    TrackedLookUp(st, front, u, hasher);
    assert |Arrived(front, u)| == u.count;
    StepSpares(st, step, u, hasher);
  }

  /** The record of the upload and its cached parts are still there. */
  ghost predicate Spared(st: Store, st': Store, u: Upload) {
    var k := Key(u.id, u.hash);
    && (k in st.records ==> k in st'.records && st'.records[k] == st.records[k])
    && forall i :: 0 <= i < u.count && (u.id, i) in st.cache ==>
                     (u.id, i) in st'.cache && st'.cache[(u.id, i)] == st.cache[(u.id, i)]
  }

  /** The store holds the record of the upload. */
  ghost predicate Holds(st: Store, u: Upload) {
    var k := Key(u.id, u.hash);
    && LookUp(st.records, u.id) == Some(k) && k in st.records && st.records[k].metaId == u.id
    && |st.records[k].parts| == u.count
  }

  lemma StepSpares(st: Store, step: Step, u: Upload, hasher: seq<byte> -> string)
    requires Valid(st, hasher) && Holds(st, u) && !IsPartOf(step, u) && Undisturbed(step, u)
    ensures Spared(st, Apply(st, hasher, step), u)
  {
    match step
    case CreateStep(id, hash, count) => CreateElsewhere(st, u, id, hash, count);
    case PartStep(id, nth, bytes) =>
      if id != u.id {
        CompletePartFrame(st, hasher, id, nth, bytes);
        CompletePartKeepsOthers(st, hasher, id, nth, bytes, u.id);
      } else {
        PartOutOfRange(st, u, nth, bytes, hasher);
      }
    case RemoveStep(id) =>
      LookUpIsExact(st.records, id);
    case ExpireStep(key) =>
  }

  lemma PartOutOfRange(st: Store, u: Upload, nth: nat, bytes: seq<byte>, hasher: seq<byte> -> string)
    requires Holds(st, u) && nth >= u.count
    ensures Spared(st, CompletePart(st, hasher, u.id, nth, bytes).0, u)
  {
  }

  lemma CompletePartKeepsOthers(st: Store, hasher: seq<byte> -> string, id: MetaId, nth: nat, bytes: seq<byte>,
                                other: MetaId)
    requires id != other
    ensures forall i :: (other, i) in st.cache ==>
                          var st' := CompletePart(st, hasher, id, nth, bytes).0;
                          (other, i) in st'.cache && st'.cache[(other, i)] == st.cache[(other, i)]
  {
  }

  lemma {:induction false} PendingTracks(st: Store, steps: seq<Step>, u: Upload, hasher: seq<byte> -> string)
    requires Valid(st, hasher) && Tracks(st, [], u) && Pending(steps, u, hasher)
    ensures Tracks(Run(st, hasher, steps), steps, u)
  {
    if steps != [] {
      var front, step := steps[..|steps| - 1], steps[|steps| - 1];
      PendingTracks(st, front, u, hasher);
      RunKeeps(st, hasher, front);
      var mid := Run(st, hasher, front);
      if IsPartOf(step, u) {
        PartOfUpload(mid, steps, u, hasher);
      } else {
        OtherStep(mid, steps, u, hasher);
      }
    }
  }

  /** Reassembly. Once an upload is created, every part sent before it completes is answered with
      exactly the indexes still missing, in order. The call that leaves none missing completes the
      upload if and only if the latest bytes of the parts, joined in part order, have the registered
      hash, and then the file is that content; otherwise it reports the mismatch, and the upload
      stays open for parts to be sent again. */
  lemma Reassembly(st: Store, hash: string, steps: seq<Step>, u: Upload, hasher: seq<byte> -> string)
    requires Valid(st, hasher) && u.hash == hash
    requires Accepts(st, u.id, hash)
    requires steps != [] && IsPartOf(steps[|steps| - 1], u) && Pending(steps[..|steps| - 1], u, hasher)
    ensures var created := Create(st, u.id, hash, u.count);
            var before := Run(created, hasher, steps[..|steps| - 1]);
            var step := steps[|steps| - 1];
            var (after, reply) := CompletePart(before, hasher, u.id, step.nth, step.bytes);
            && reply == ExpectedReply(steps, u, hasher)
            && (Completes(steps, u, hasher) <==> reply == Unfinished([]))
            && (Completes(steps, u, hasher) ==> after.files == before.files[u.id := Assembled(steps, u.id, u.count)])
            && (!Completes(steps, u, hasher) ==> after.files == before.files && Tracks(after, steps, u))
  {
    var created := Create(st, u.id, hash, u.count);
    CreateKeeps(st, hasher, u.id, hash, u.count);
    assert Arrived([], u) == seq(u.count, i => false);
    assert Tracks(created, [], u);
    var front := steps[..|steps| - 1];
    PendingTracks(created, front, u, hasher);
    RunKeeps(created, hasher, front);
    PartOfUpload(Run(created, hasher, front), steps, u, hasher);
    NoneMissing(steps, u);
  }

  // ---------------------------------------------------------------- order independence

  function Flatten(pieces: seq<seq<byte>>): seq<byte> {
    if pieces == [] then [] else Flatten(pieces[..|pieces| - 1]) + pieces[|pieces| - 1]
  }

  /** Whatever the order and the repeats, and whatever was sent before, once the latest bytes of
      every part are the file's pieces, the assembled content is the file. */
  lemma {:induction false} OrderIndependent(steps: seq<Step>, id: MetaId, pieces: seq<seq<byte>>)
    requires forall i :: 0 <= i < |pieces| ==> Latest(steps, id, i) == Some(pieces[i])
    ensures Assembled(steps, id, |pieces|) == Flatten(pieces)
  {
    if pieces != [] {
      var front := pieces[..|pieces| - 1];
      OrderIndependent(steps, id, front);
    }
  }

  /** If every call for a part carries that part's piece, the latest bytes are the piece. */
  lemma {:induction false} ConsistentParts(steps: seq<Step>, id: MetaId, i: nat, piece: seq<byte>)
    requires forall s :: s in steps && s.PartStep? && s.id == id && s.nth == i ==> s.bytes == piece
    requires exists s :: s in steps && s.PartStep? && s.id == id && s.nth == i
    ensures Latest(steps, id, i) == Some(piece)
  {
    var front, step := steps[..|steps| - 1], steps[|steps| - 1];
    if !(step.PartStep? && step.id == id && step.nth == i) {
      var s :| s in steps && s.PartStep? && s.id == id && s.nth == i;
      assert s in front;
      ConsistentParts(front, id, i, piece);
    }
  }

  lemma {:induction false} LatestConcat(steps: seq<Step>, more: seq<Step>, id: MetaId, i: nat)
    ensures Latest(steps + more, id, i) ==
            if Latest(more, id, i).Some? then Latest(more, id, i) else Latest(steps, id, i)
  {
    if more == [] {
      assert steps + more == steps;
    } else {
      var n := |more| - 1;
      assert (steps + more)[..|steps| + n] == steps + more[..n];
      LatestConcat(steps, more[..n], id, i);
    }
  }

  lemma {:induction false} LatestSent(steps: seq<Step>, id: MetaId, i: nat)
    ensures Latest(steps, id, i).Some? <==> exists s :: s in steps && s.PartStep? && s.id == id && s.nth == i
  {
    if steps != [] {
      var front, step := steps[..|steps| - 1], steps[|steps| - 1];
      assert steps == front + [step];
      LatestSent(front, id, i);
    }
  }

  /** Sending again only the parts that were wrong completes the upload: whatever the earlier history
      left, once each part is the file's piece or is sent again as that piece, the last of those calls
      finds every part in and the hash right. */
  lemma ResendCompletes(steps: seq<Step>, more: seq<Step>, u: Upload, hasher: seq<byte> -> string,
                        pieces: seq<seq<byte>>)
    requires |pieces| == u.count && hasher(Flatten(pieces)) == u.hash
    requires more != [] && IsPartOf(more[|more| - 1], u)
    requires forall s :: s in more && IsPartOf(s, u) ==> s.bytes == pieces[s.nth]
    requires forall i :: 0 <= i < u.count && Latest(steps, u.id, i) != Some(pieces[i]) ==>
                           exists s :: s in more && s.PartStep? && s.id == u.id && s.nth == i
    ensures Completes(steps + more, u, hasher)
  {
    var all := steps + more;
    forall i | 0 <= i < u.count ensures Latest(all, u.id, i) == Some(pieces[i]) {
      LatestConcat(steps, more, u.id, i);
      LatestSent(more, u.id, i);
      if exists s :: s in more && s.PartStep? && s.id == u.id && s.nth == i {
        ConsistentParts(more, u.id, i, pieces[i]);
      }
    }
    OrderIndependent(all, u.id, pieces);
  }

  // ---------------------------------------------------------------- after the merge

  /** The record stays with every part marked, and the parts are gone: a repeated part of an upload of
      two or more parts can then only fail. With a single part it is merged afresh. */
  lemma RepeatWhenMerged(st: Store, hasher: seq<byte> -> string, u: Upload, nth: nat, bytes: seq<byte>)
    requires Valid(st, hasher) && nth < u.count
    requires Key(u.id, u.hash) in st.records
    requires st.records[Key(u.id, u.hash)] == Record(u.id, u.hash, seq(u.count, i => true))
    requires st.cache == DropDir(st.cache, u.id)
    ensures CompletePart(st, hasher, u.id, nth, bytes).1 == RepeatReply(hasher, u, bytes)
  {
    var k := Key(u.id, u.hash);
    LookUpIsExact(st.records, u.id);
    IdPatternIsExact(u.id, u.id, u.hash);
    assert LookUp(st.records, u.id) == Some(k);
    var parts := seq(u.count, i => true)[nth := true];
    NothingMissing(parts, 0);
    var cache := st.cache[(u.id, nth) := bytes];
    CachedPartsPresent(cache, u.id, u.count);
    if u.count > 1 {
      var other := if nth == 0 then 1 else 0;
      assert (u.id, other) !in cache;
    } else {
      assert CachedParts(cache, u.id, 0) == Some([]);
      assert [] + bytes == bytes;
    }
  }

  function RepeatReply(hasher: seq<byte> -> string, u: Upload, bytes: seq<byte>): Reply {
    if u.count > 1 then PartUnreadable else if hasher(bytes) == u.hash then Unfinished([]) else DifferentHash
  }

  /** What the completing call leaves. */
  lemma DroppedTwice(cache: map<(MetaId, nat), seq<byte>>, id: MetaId)
    ensures DropDir(DropDir(cache, id), id) == DropDir(cache, id)
  {
  }

  lemma AllArrived(steps: seq<Step>, u: Upload)
    requires AllSent(steps, u.id, u.count)
    ensures Arrived(steps, u) == seq(u.count, i => true)
  {
  }

  lemma MergeLeaves(st: Store, steps: seq<Step>, u: Upload, hasher: seq<byte> -> string)
    requires Valid(st, hasher) && Completes(steps, u, hasher) && Tracks(st, steps[..|steps| - 1], u)
    ensures var step := steps[|steps| - 1];
            var after := CompletePart(st, hasher, u.id, step.nth, step.bytes).0;
            && Valid(after, hasher)
            && Key(u.id, u.hash) in after.records
            && after.records[Key(u.id, u.hash)] == Record(u.id, u.hash, seq(u.count, i => true))
            && after.cache == DropDir(after.cache, u.id)
  {
    var step := steps[|steps| - 1];
    PartOfUpload(st, steps, u, hasher);
    CompletePartKeeps(st, hasher, u.id, step.nth, step.bytes);
    AllArrived(steps, u);
    DroppedTwice(Marked(st, steps, u).cache, u.id);
  }

  /** Once a call has completed an upload, a part sent again is refused as unreadable when the upload has
      two or more parts, and merged afresh when it has one. */
  lemma RepeatAfterMerge(st: Store, steps: seq<Step>, u: Upload, hasher: seq<byte> -> string, nth: nat,
                         bytes: seq<byte>)
    requires Valid(st, hasher) && Accepts(st, u.id, u.hash) && nth < u.count
    requires steps != [] && Pending(steps[..|steps| - 1], u, hasher) && Completes(steps, u, hasher)
    ensures var after := Run(Create(st, u.id, u.hash, u.count), hasher, steps);
            CompletePart(after, hasher, u.id, nth, bytes).1 == RepeatReply(hasher, u, bytes)
  {
    var front := steps[..|steps| - 1];
    var created := Create(st, u.id, u.hash, u.count);
    CreateKeeps(st, hasher, u.id, u.hash, u.count);
    assert Arrived([], u) == seq(u.count, i => false);
    assert Tracks(created, [], u);
    PendingTracks(created, front, u, hasher);
    RunKeeps(created, hasher, front);
    MergeLeaves(Run(created, hasher, front), steps, u, hasher);
    RepeatWhenMerged(Run(created, hasher, steps), hasher, u, nth, bytes);
  }
}
