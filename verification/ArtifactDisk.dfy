/** The disk under an artifact store: blobs by content hash, checkpoints beside them, and
    everything other processes may do to both.

    Modelled on src/orchestrator/artifacts/store.py and src/orchestrator/artifacts/gc.py.
    The hash is any function.  A file identity is the number of the write that made the
    file, so no two contents ever share one.  */
module ArtifactDisk {
  import opened Common

  type Byte = b: int | 0 <= b < 256
  type Bytes = seq<Byte>
  type Hash = string
  type Digest = Bytes -> Hash

  datatype Ref = Ref(artifactId: Hash, hash: Hash, size: nat)

  datatype Checkpoint = Checkpoint(hash: Hash, size: nat, identity: Identity)

  datatype Identity = Identity(version: nat, size: nat)

  /** `written[v]` is the content of version `v`. */
  datatype Disk = Disk(written: seq<Bytes>, blobs: map<Hash, nat>, checkpoints: map<Hash, Checkpoint>)

  predicate Fits(digest: Digest, bytes: Bytes, hash: Hash, size: nat) {
    |bytes| == size && digest(bytes) == hash
  }

  predicate Honest(digest: Digest, d: Disk, c: Checkpoint) {
    c.identity.version < |d.written| && Fits(digest, d.written[c.identity.version], c.hash, c.size)
  }

  /** Checkpoints vouch only for versions that do hash to what they say. */
  ghost predicate Valid(digest: Digest, d: Disk) {
    && (forall h :: h in d.blobs ==> d.blobs[h] < |d.written|)
    && (forall h :: h in d.checkpoints ==> Honest(digest, d, d.checkpoints[h]))
  }

  // ---------------------------------------------------------------------------
  // Single steps
  // ---------------------------------------------------------------------------

  function Stat(d: Disk, h: Hash): Option<Identity>
    requires h in d.blobs ==> d.blobs[h] < |d.written|
  {
    if h in d.blobs then Some(Identity(d.blobs[h], |d.written[d.blobs[h]]|)) else None
  }

  function Write(d: Disk, h: Hash, bytes: Bytes): Disk {
    d.(written := d.written + [bytes], blobs := d.blobs[h := |d.written|])
  }

  predicate Intact(digest: Digest, d: Disk, h: Hash, size: nat) {
    h in d.blobs && d.blobs[h] < |d.written| && Fits(digest, d.written[d.blobs[h]], h, size)
  }

  function Vouch(d: Disk, h: Hash, size: nat): Disk
    requires h in d.blobs && d.blobs[h] < |d.written|
  {
    d.(checkpoints := d.checkpoints[h := Checkpoint(h, size, Stat(d, h).value)])
  }

  /** What anyone sharing the disk may do: publish, verify, delete, sweep, and damage. */
  datatype Action =
    | Put(bytes: Bytes)
    | Verify(hash: Hash, size: nat)
    | Delete(hash: Hash)
    | Sweep(hashes: set<Hash>)
    | Overwrite(hash: Hash, bytes: Bytes)
    | LoseCheckpoint(hash: Hash)

  function Act(digest: Digest, d: Disk, a: Action): Disk {
    match a
    case Put(bytes) =>
      var h := digest(bytes);
      if Intact(digest, d, h, |bytes|) then Vouch(d, h, |bytes|) else Vouch(Write(d, h, bytes), h, |bytes|)
    case Verify(h, size) => if Intact(digest, d, h, size) then Vouch(d, h, size) else d
    case Delete(h) => if h in d.blobs then d.(blobs := d.blobs - {h}, checkpoints := d.checkpoints - {h}) else d
    case Sweep(hs) => d.(blobs := d.blobs - hs)
    case Overwrite(h, bytes) => Write(d, h, bytes)
    case LoseCheckpoint(h) => d.(checkpoints := d.checkpoints - {h})
  }

  function Run(digest: Digest, d: Disk, actions: seq<Action>): Disk
    decreases actions
  {
    if actions == [] then d else Run(digest, Act(digest, d, actions[0]), actions[1..])
  }

  // ---------------------------------------------------------------------------
  // What no action can break
  // ---------------------------------------------------------------------------

  /** Contents of versions stay, and a version that left a path never comes back to it. */
  ghost predicate Evolves(before: Disk, after: Disk) {
    && before.written <= after.written
    && forall h :: h in after.blobs ==>
         (h in before.blobs && after.blobs[h] == before.blobs[h]) || after.blobs[h] >= |before.written|
  }

  lemma EvolvesOn(a: Disk, b: Disk, c: Disk)
    requires Evolves(a, b) && Evolves(b, c)
    ensures Evolves(a, c)
  {
  }

  lemma HonestyLasts(digest: Digest, before: Disk, after: Disk, c: Checkpoint)
    requires before.written <= after.written && Honest(digest, before, c)
    ensures Honest(digest, after, c)
  {
  }

  lemma ActIsSafe(digest: Digest, d: Disk, a: Action)
    requires Valid(digest, d)
    ensures Valid(digest, Act(digest, d, a)) && Evolves(d, Act(digest, d, a))
  {
    var after := Act(digest, d, a);
    forall h | h in d.checkpoints ensures Honest(digest, after, d.checkpoints[h]) {
      HonestyLasts(digest, d, after, d.checkpoints[h]);
    }
  }

  /** Whatever others do, checkpoints stay honest and versions are never reused. */
  lemma {:induction false} RunIsSafe(digest: Digest, d: Disk, actions: seq<Action>)
    requires Valid(digest, d)
    ensures Valid(digest, Run(digest, d, actions)) && Evolves(d, Run(digest, d, actions))
    decreases actions
  {
    if actions != [] {
      ActIsSafe(digest, d, actions[0]);
      RunIsSafe(digest, Act(digest, d, actions[0]), actions[1..]);
      EvolvesOn(d, Act(digest, d, actions[0]), Run(digest, d, actions));
    }
  }

  /** Two stats that agree: the file was that very version all the time in between. */
  lemma SameAtBothEnds(a: Disk, b: Disk, c: Disk, h: Hash)
    requires Evolves(a, b) && Evolves(b, c)
    requires h in a.blobs && h in b.blobs && h in c.blobs && a.blobs[h] == c.blobs[h] < |a.written|
    ensures b.blobs[h] == a.blobs[h]
  {
  }

  // ---------------------------------------------------------------------------
  // Full verification
  // ---------------------------------------------------------------------------

  datatype Outcome =
    | Content(bytes: Bytes)
    | Missing
    | Damaged
    | BadRange
    | BadRef
    | Changed

  /** Read the whole blob and hash it. */
  function FullRead(digest: Digest, d: Disk, ref: Ref): Outcome
    requires ref.hash in d.blobs ==> d.blobs[ref.hash] < |d.written|
  {
    if ref.artifactId != ref.hash then BadRef
    else if ref.hash !in d.blobs then Missing
    else if Fits(digest, d.written[d.blobs[ref.hash]], ref.hash, ref.size) then Content(d.written[d.blobs[ref.hash]])
    else Damaged
  }

  function Min(a: int, b: int): int { if a <= b then a else b }

  /** Seeking past the end is fine and reads nothing. */
  function Slice(bytes: Bytes, offset: nat, limit: nat): Bytes {
    bytes[Min(offset, |bytes|)..Min(offset + limit, |bytes|)]
  }

  function RangeOf(whole: Outcome, offset: int, limit: int): Outcome {
    if offset < 0 || limit < 1 then BadRange
    else if whole.Content? then Content(Slice(whole.bytes, offset, limit))
    else whole
  }

  /** `bytes` are those of `blob` from `offset` on, `limit` of them or what there is. */
  predicate IsRange(bytes: Bytes, blob: Bytes, offset: int, limit: int) {
    && offset >= 0 && limit >= 1
    && |bytes| == (if offset >= |blob| then 0 else Min(limit, |blob| - offset))
    && forall k :: 0 <= k < |bytes| ==> bytes[k] == blob[offset + k]
  }

  lemma SliceIsRange(blob: Bytes, offset: nat, limit: nat)
    requires limit >= 1
    ensures IsRange(Slice(blob, offset, limit), blob, offset, limit)
  {
  }

  /** The blob, read range by range from `offset` on, until nothing comes any more. */
  function InRanges(blob: Bytes, offset: nat, limit: nat): Bytes
    requires limit >= 1
    decreases |blob| - offset
  {
    var range := Slice(blob, offset, limit);
    if range == [] then [] else range + InRanges(blob, offset + limit, limit)
  }

  /** Ranges that follow each other make up what is left of the blob, from the start all of it. */
  lemma {:induction false} RangesMakeTheBlob(blob: Bytes, offset: nat, limit: nat)
    requires limit >= 1 && offset <= |blob|
    ensures InRanges(blob, offset, limit) == blob[offset..]
    decreases |blob| - offset
  {
    if offset < |blob| {
      if offset + limit <= |blob| {
        RangesMakeTheBlob(blob, offset + limit, limit);
        assert blob[offset..] == blob[offset..offset + limit] + blob[offset + limit..];
      } else {
        assert Slice(blob, offset + limit, limit) == [];
        assert Slice(blob, offset, limit) == blob[offset..];
      }
    }
  }

  predicate Matches(c: Checkpoint, identity: Identity, ref: Ref) {
    c.hash == ref.hash && c.size == ref.size && identity.size == ref.size && c.identity == identity
  }

  /** A matching checkpoint stands for a full verification. */
  lemma CheckpointStandsForVerification(digest: Digest, d: Disk, c: Checkpoint, ref: Ref)
    requires Valid(digest, d) && Honest(digest, d, c) && ref.artifactId == ref.hash && ref.hash in d.blobs
    requires Matches(c, Stat(d, ref.hash).value, ref)
    ensures FullRead(digest, d, ref) == Content(d.written[d.blobs[ref.hash]])
  {
  }

  /** What was put can be read: bytes of the same hash and length. */
  lemma ReadAfterPut(digest: Digest, d: Disk, bytes: Bytes)
    requires Valid(digest, d)
    ensures Valid(digest, Act(digest, d, Put(bytes)))
    ensures var h := digest(bytes);
      var read := FullRead(digest, Act(digest, d, Put(bytes)), Ref(h, h, |bytes|));
      read.Content? && Fits(digest, read.bytes, h, |bytes|)
  {
    ActIsSafe(digest, d, Put(bytes));
  }

  /** A deleted blob is missing, and the checkpoint a sweep leaves behind changes nothing:
      full verification does not look at checkpoints. */
  lemma GoneAfterSweep(digest: Digest, d: Disk, ref: Ref, swept: set<Hash>)
    requires Valid(digest, d) && ref.artifactId == ref.hash
    ensures Valid(digest, Act(digest, d, Sweep(swept)))
    ensures FullRead(digest, Act(digest, d, Sweep(swept)), ref)
         == if ref.hash in swept then Missing else FullRead(digest, d, ref)
    ensures Act(digest, d, Sweep(swept)).checkpoints == d.checkpoints
  {
    ActIsSafe(digest, d, Sweep(swept));
  }

  /** What is deleted is missing, and has no checkpoint; all else reads as before. */
  lemma GoneAfterDelete(digest: Digest, d: Disk, hash: Hash, ref: Ref)
    requires Valid(digest, d) && ref.artifactId == ref.hash
    ensures var after := Act(digest, d, Delete(hash));
      && Valid(digest, after)
      && FullRead(digest, after, ref) == (if ref.hash == hash then Missing else FullRead(digest, d, ref))
      && (hash in d.blobs ==> hash !in after.checkpoints)
  {
    ActIsSafe(digest, d, Delete(hash));
  }

  /** Were the checkpoint's stat a step of its own, what it vouches for would be whatever
      is there by then: the checkpoint is honest exactly if that still fits. */
  lemma LateStatIsHonestExactly(digest: Digest, verified: Disk, later: Disk, h: Hash, size: nat)
    requires Valid(digest, later) && Evolves(verified, later)
    requires Intact(digest, verified, h, size) && h in later.blobs
    ensures Valid(digest, Vouch(later, h, size)) <==> Intact(digest, later, h, size)
  {
    var vouched := Vouch(later, h, size);
    assert Honest(digest, vouched, vouched.checkpoints[h]) <==> Intact(digest, later, h, size);
    forall g | g in vouched.checkpoints && g != h ensures Honest(digest, vouched, vouched.checkpoints[g]) {
      HonestyLasts(digest, later, vouched, later.checkpoints[g]);
    }
  }

  /** Such a replacement, and the wrong bytes it would let through. */
  lemma LateStatBlessesAnything(digest: Digest, h: Hash, good: Bytes, bad: Bytes)
    requires digest(good) == h && digest(bad) != h && |bad| == |good|
    ensures var d := Act(digest, Disk([], map[], map[]), Put(good));
      var later := Act(digest, d, Overwrite(h, bad));
      var vouched := Vouch(later, h, |good|);
      && Intact(digest, d, h, |good|)
      && Matches(vouched.checkpoints[h], Stat(vouched, h).value, Ref(h, h, |good|))
      && FullRead(digest, vouched, Ref(h, h, |good|)) == Damaged
  {
    var d := Act(digest, Disk([], map[], map[]), Put(good));
    assert d.written == [good] && d.blobs[h] == 0;
    var later := Act(digest, d, Overwrite(h, bad));
    assert later.written[1] == bad && later.blobs[h] == 1;
  }
}
