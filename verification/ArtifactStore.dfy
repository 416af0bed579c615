/** The content-addressed store: put, read, read_range and delete, while others act on the
    same disk between any two of its file operations.

    Modelled on src/orchestrator/artifacts/store.py.  */
module ArtifactStore {
  import opened Common
  import opened ArtifactDisk

  class FilesystemArtifactStore {
    const digest: Digest
    /** What others do to the disk before this store's k-th file operation. */
    const others: nat -> seq<Action>
    var disk: Disk
    var gap: nat
    /** The disks it has seen: at the start, and after each gap and each write of its own. */
    ghost var past: seq<Disk>

    constructor (digest: Digest, others: nat -> seq<Action>, disk: Disk)
      requires ArtifactDisk.Valid(digest, disk)
      ensures Valid() && this.digest == digest && this.others == others && this.disk == disk && gap == 0
      ensures past == [disk]
    {
      this.digest, this.others, this.disk, gap, past := digest, others, disk, 0, [disk];
    }

    ghost predicate Valid()
      reads this
    {
      ArtifactDisk.Valid(digest, disk) && past != [] && past[|past| - 1] == disk
    }

    /** The disk was this one at some moment since `start` disks had been seen. */
    ghost predicate WasSince(start: nat, d: Disk)
      requires start >= 1
      reads this
    {
      exists k :: start - 1 <= k < |past| && past[k] == d
    }

    /** Nobody else touches the disk from now on. */
    ghost predicate Alone()
      reads this
    {
      forall k :: k >= gap ==> others(k) == []
    }

    method Meanwhile()
      requires Valid()
      modifies this
      ensures Valid() && Evolves(old(disk), disk)
      ensures disk == Run(digest, old(disk), others(old(gap))) && gap == old(gap) + 1
      ensures past == old(past) + [disk]
    {
      RunIsSafe(digest, disk, others(gap));
      disk := Run(digest, disk, others(gap));
      gap, past := gap + 1, past + [disk];
    }

    // -------------------------------------------------------------------------
    // Single file operations
    // -------------------------------------------------------------------------

    method FileIdentity(hash: Hash) returns (identity: Option<Identity>)
      requires Valid()
      modifies this
      ensures Valid() && Evolves(old(disk), disk)
      ensures identity == Stat(disk, hash)
      ensures disk == Run(digest, old(disk), others(old(gap))) && gap == old(gap) + 1
      ensures past == old(past) + [disk]
    {
      Meanwhile();
      identity := if hash in disk.blobs then Some(Identity(disk.blobs[hash], |disk.written[disk.blobs[hash]]|))
        else None;
    }

    method ReadCheckpoint(hash: Hash) returns (checkpoint: Option<Checkpoint>)
      requires Valid()
      modifies this
      ensures Valid() && Evolves(old(disk), disk)
      ensures checkpoint == if hash in disk.checkpoints then Some(disk.checkpoints[hash]) else None
      ensures disk == Run(digest, old(disk), others(old(gap))) && gap == old(gap) + 1
      ensures past == old(past) + [disk]
    {
      Meanwhile();
      checkpoint := if hash in disk.checkpoints then Some(disk.checkpoints[hash]) else None;
    }

    method ReadSlice(hash: Hash, offset: nat, limit: nat) returns (content: Option<Bytes>)
      requires Valid()
      modifies this
      ensures Valid() && Evolves(old(disk), disk)
      ensures content == if hash in disk.blobs then Some(Slice(disk.written[disk.blobs[hash]], offset, limit)) else None
      ensures disk == Run(digest, old(disk), others(old(gap))) && gap == old(gap) + 1
      ensures past == old(past) + [disk]
    {
      Meanwhile();
      content := if hash in disk.blobs then Some(Slice(disk.written[disk.blobs[hash]], offset, limit)) else None;
    }

    /** The stat and the checkpoint file written from it. */
    method WriteCheckpoint(hash: Hash, size: nat) returns (checkpoint: Checkpoint)
      requires Valid() && Intact(digest, disk, hash, size)
      modifies this`disk, this`past
      ensures Valid() && disk == Vouch(old(disk), hash, size) && past == old(past) + [disk]
      ensures checkpoint == disk.checkpoints[hash]
    {
      var version := disk.blobs[hash];
      checkpoint := Checkpoint(hash, size, Identity(version, |disk.written[version]|));
      disk := disk.(checkpoints := disk.checkpoints[hash := checkpoint]);
      past := past + [disk];
    }

    method ReplaceBlob(hash: Hash, content: Bytes)
      requires Valid()
      modifies this`disk, this`past
      ensures Valid() && Evolves(old(disk), disk) && disk == Write(old(disk), hash, content)
        && past == old(past) + [disk]
    {
      ActIsSafe(digest, disk, Overwrite(hash, content));
      disk := disk.(written := disk.written + [content], blobs := disk.blobs[hash := |disk.written|]);
      past := past + [disk];
    }

    method UnlinkBlob(hash: Hash)
      requires Valid()
      modifies this`disk, this`past
      ensures Valid() && Evolves(old(disk), disk) && past == old(past) + [disk]
      ensures disk == old(disk).(blobs := old(disk).blobs - {hash})
    {
      ActIsSafe(digest, disk, Sweep({hash}));
      disk := disk.(blobs := disk.blobs - {hash});
      past := past + [disk];
    }

    method UnlinkCheckpoint(hash: Hash)
      requires Valid()
      modifies this`disk, this`past
      ensures Valid() && Evolves(old(disk), disk) && past == old(past) + [disk]
      ensures disk == old(disk).(checkpoints := old(disk).checkpoints - {hash})
    {
      ActIsSafe(digest, disk, LoseCheckpoint(hash));
      disk := disk.(checkpoints := disk.checkpoints - {hash});
      past := past + [disk];
    }

    // -------------------------------------------------------------------------
    // Publishing, reading and deleting whole blobs
    // -------------------------------------------------------------------------

    method PutBytes(content: Bytes) returns (ref: Ref)
      requires Valid()
      modifies this
      ensures Valid() && Evolves(old(disk), disk) && gap == old(gap) + 1 && old(past) <= past
      ensures disk == Act(digest, Run(digest, old(disk), others(old(gap))), Put(content))
      ensures ref == Ref(digest(content), digest(content), |content|)
      ensures Intact(digest, disk, ref.hash, ref.size)
      ensures
        var reached := Run(digest, old(disk), others(old(gap)));
        Intact(digest, reached, ref.hash, ref.size) ==> disk.blobs == reached.blobs && disk.written == reached.written
    {
      var hash := digest(content);
      ref := Ref(hash, hash, |content|);
      Meanwhile();
      ghost var before := disk;
      var valid := false;
      if hash in disk.blobs {
        var present := disk.written[disk.blobs[hash]];
        valid := |present| == |content| && digest(present) == hash;
      }
      if !valid {
        ReplaceBlob(hash, content);
      }
      var checkpoint := WriteCheckpoint(hash, |content|);
      ActIsSafe(digest, before, Put(content));
      EvolvesOn(old(disk), before, disk);
    }

    method ReadWhole(ref: Ref) returns (outcome: Outcome)
      requires Valid()
      modifies this
      ensures Valid() && Evolves(old(disk), disk) && old(past) <= past
      ensures outcome == FullRead(digest, disk, ref)
      ensures ref.artifactId == ref.hash ==> disk.blobs == Run(digest, old(disk), others(old(gap))).blobs
      ensures ref.artifactId == ref.hash ==> disk.written == Run(digest, old(disk), others(old(gap))).written
      ensures outcome.Content?
          ==> ref.hash in disk.checkpoints && Matches(disk.checkpoints[ref.hash], Stat(disk, ref.hash).value, ref)
    {
      if ref.artifactId != ref.hash { return BadRef; }
      Meanwhile();
      if ref.hash !in disk.blobs { return Missing; }
      var content := disk.written[disk.blobs[ref.hash]];
      if |content| != ref.size || digest(content) != ref.hash { return Damaged; }
      ghost var before := disk;
      var checkpoint := WriteCheckpoint(ref.hash, ref.size);
      EvolvesOn(old(disk), before, disk);
      outcome := Content(content);
    }

    /** Blob first, then its checkpoint; others may act in between.  What is there afterwards
        was written later. */
    method DeleteBlob(ref: Ref) returns (outcome: Outcome)
      requires Valid()
      modifies this
      ensures Valid() && Evolves(old(disk), disk) && old(past) <= past
      ensures var reached := Run(digest, old(disk), others(old(gap)));
        outcome == if ref.artifactId != ref.hash then BadRef
                   else if ref.hash in reached.blobs then Content([]) else Missing
      ensures outcome.Content? && ref.hash in disk.blobs
          ==> disk.blobs[ref.hash] >= |Run(digest, old(disk), others(old(gap))).written|
      ensures outcome.Content? && others(old(gap) + 1) == []
          ==> disk == Act(digest, Run(digest, old(disk), others(old(gap))), Delete(ref.hash))
    {
      if ref.artifactId != ref.hash { return BadRef; }
      Meanwhile();
      if ref.hash !in disk.blobs { return Missing; }
      ghost var before := disk;
      UnlinkBlob(ref.hash);
      EvolvesOn(old(disk), before, disk);
      ghost var unlinked := disk;
      Meanwhile();
      EvolvesOn(old(disk), unlinked, disk);
      ghost var left := disk;
      UnlinkCheckpoint(ref.hash);
      EvolvesOn(old(disk), left, disk);
      outcome := Content([]);
    }

    // -------------------------------------------------------------------------
    // Reading a range
    // -------------------------------------------------------------------------

    /** Read the whole blob, hash it, and write a checkpoint for what was read. */
    method VerifyAndCheckpoint(ref: Ref) returns (failure: Outcome, checkpoint: Checkpoint)
      requires Valid() && ref.artifactId == ref.hash
      modifies this
      ensures Valid() && Evolves(old(disk), disk) && gap == old(gap) + 1 && old(past) <= past
      ensures disk.blobs == Run(digest, old(disk), others(old(gap))).blobs
      ensures disk.written == Run(digest, old(disk), others(old(gap))).written
      ensures failure == FullRead(digest, disk, ref)
      ensures failure.Content? ==>
        Honest(digest, disk, checkpoint) && Matches(checkpoint, Stat(disk, ref.hash).value, ref)
    {
      checkpoint := Checkpoint(ref.hash, ref.size, Identity(0, 0));
      Meanwhile();
      if ref.hash !in disk.blobs { return Missing, checkpoint; }
      var content := disk.written[disk.blobs[ref.hash]];
      if |content| != ref.size || digest(content) != ref.hash { return Damaged, checkpoint; }
      ghost var before := disk;
      checkpoint := WriteCheckpoint(ref.hash, ref.size);
      EvolvesOn(old(disk), before, disk);
      failure := Content(content);
    }

    /** Nothing happened but checkpoints being written. */
    ghost predicate Still(was: Disk)
      reads this
    {
      disk.blobs == was.blobs && disk.written == was.written && Alone()
    }

    /** The checkpoint on disk if it matches, or a new one. */
    method VerifiedCheckpoint(ref: Ref) returns (failure: Outcome, checkpoint: Checkpoint)
      requires Valid() && ref.artifactId == ref.hash
      modifies this
      ensures Valid() && Evolves(old(disk), disk) && old(past) <= past
      ensures failure.Content? ==> Honest(digest, disk, checkpoint)
      ensures failure in {Missing, Damaged} || failure.Content?
      ensures old(Alone()) ==> Still(old(disk))
      ensures old(Alone()) ==> (failure.Content? <==> FullRead(digest, old(disk), ref).Content?)
      ensures old(Alone()) && !failure.Content? ==> failure == FullRead(digest, old(disk), ref)
    {
      var found := ReadCheckpoint(ref.hash);
      ghost var before := disk;
      if found.Some? {
        var identity := FileIdentity(ref.hash);
        EvolvesOn(old(disk), before, disk);
        before := disk;
        if identity.None? { return Missing, found.value; }
        if Matches(found.value, identity.value, ref) { return Content([]), found.value; }
      }
      failure, checkpoint := VerifyAndCheckpoint(ref);
      EvolvesOn(old(disk), before, disk);
    }

    /** The first stat of a round, after a new verification if the checkpoint does not match. */
    method FirstStat(ref: Ref, known: Checkpoint) returns (failure: Outcome, checkpoint: Checkpoint, before: Identity)
      requires Valid() && ref.artifactId == ref.hash && Honest(digest, disk, known)
      modifies this
      ensures Valid() && Evolves(old(disk), disk) && old(past) <= past && Honest(digest, disk, checkpoint)
      ensures failure in {Missing, Damaged} || failure.Content?
      ensures failure.Content? ==> Stat(disk, ref.hash) == Some(before)
      ensures old(Alone()) ==> Still(old(disk))
      ensures old(Alone()) && failure.Content? ==> Matches(checkpoint, before, ref)
      ensures old(Alone()) && !failure.Content? ==> failure == FullRead(digest, old(disk), ref)
    {
      failure, checkpoint, before := Missing, known, Identity(0, 0);
      var identity := FileIdentity(ref.hash);
      if identity.None? { return; }
      if Matches(checkpoint, identity.value, ref) {
        return Content([]), checkpoint, identity.value;
      }
      ghost var d0 := disk;
      var renewed;
      failure, renewed := VerifyAndCheckpoint(ref);
      EvolvesOn(old(disk), d0, disk);
      if !failure.Content? { return; }
      checkpoint := renewed;
      ghost var d1 := disk;
      identity := FileIdentity(ref.hash);
      EvolvesOn(old(disk), d1, disk);
      if identity.None? { return Missing, checkpoint, before; }
      before := identity.value;
    }

    /** The bytes and the second stat, which must agree with the first. */
    method ReadBetween(ref: Ref, offset: nat, limit: nat, checkpoint: Checkpoint, before: Identity)
      returns (outcome: Outcome, ghost at: Disk)
      requires Valid() && ref.artifactId == ref.hash && Honest(digest, disk, checkpoint) && limit >= 1
      requires Stat(disk, ref.hash) == Some(before)
      modifies this
      ensures Valid() && Evolves(old(disk), at) && Evolves(at, disk) && ArtifactDisk.Valid(digest, at)
      ensures old(past) <= past && WasSince(|old(past)|, at)
      ensures outcome.Content? ==> outcome == RangeOf(FullRead(digest, at, ref), offset, limit)
      ensures outcome in {Missing, Changed} || outcome.Content?
      ensures old(Alone()) && Matches(checkpoint, before, ref)
        ==> outcome == RangeOf(FullRead(digest, old(disk), ref), offset, limit)
    {
      ghost var d0 := disk;
      var content := ReadSlice(ref.hash, offset, limit);
      at := disk;
      assert past[|past| - 1] == at;
      if content.None? { return Missing, at; }
      var after := FileIdentity(ref.hash);
      assert past[|past| - 2] == at;
      if after.None? { return Missing, at; }
      outcome := Changed;
      if before == after.value && Matches(checkpoint, after.value, ref) {
        SameAtBothEnds(d0, at, disk, ref.hash);
        outcome := Content(content.value);
      }
    }

    /** One round: a matching stat, the bytes, a stat that agrees with the first. */
    method Round(ref: Ref, offset: nat, limit: nat, known: Checkpoint)
      returns (outcome: Outcome, checkpoint: Checkpoint, ghost at: Disk)
      requires Valid() && ref.artifactId == ref.hash && Honest(digest, disk, known) && limit >= 1
      modifies this
      ensures Valid() && Evolves(old(disk), disk) && Honest(digest, disk, checkpoint)
      ensures old(past) <= past && WasSince(|old(past)|, at)
      ensures Evolves(old(disk), at) && Evolves(at, disk) && ArtifactDisk.Valid(digest, at)
      ensures outcome.Content? ==> outcome == RangeOf(FullRead(digest, at, ref), offset, limit)
      ensures outcome in {Missing, Damaged, Changed} || outcome.Content?
      ensures old(Alone()) ==> outcome == RangeOf(FullRead(digest, old(disk), ref), offset, limit)
    {
      var before;
      outcome, checkpoint, before := FirstStat(ref, known);
      at := disk;
      assert past[|past| - 1] == at;
      if outcome.Content? {
        ghost var d0, seen := disk, |past|;
        outcome, at := ReadBetween(ref, offset, limit, checkpoint, before);
        EvolvesOn(old(disk), d0, disk);
        EvolvesOn(old(disk), d0, at);
        SeenLater(|old(past)|, seen, at);
      }
    }

    lemma SeenLater(start: nat, later: nat, d: Disk)
      requires 1 <= start <= later && WasSince(later, d)
      ensures WasSince(start, d)
    {
    }

    /** Full verification accepts the blob of `ref`. */
    ghost predicate Holds(d: Disk, ref: Ref)
      reads this
    {
      ref.artifactId == ref.hash && Intact(digest, d, ref.hash, ref.size)
    }

    ghost function BlobOf(d: Disk, ref: Ref): Bytes
      reads this
      requires Holds(d, ref)
    {
      d.written[d.blobs[ref.hash]]
    }

    lemma RangeIsOfBlob(d: Disk, ref: Ref, offset: nat, limit: nat)
      requires ArtifactDisk.Valid(digest, d) && limit >= 1
      requires RangeOf(FullRead(digest, d, ref), offset, limit).Content?
      ensures Holds(d, ref)
      ensures IsRange(RangeOf(FullRead(digest, d, ref), offset, limit).bytes, BlobOf(d, ref), offset, limit)
    {
      SliceIsRange(BlobOf(d, ref), offset, limit);
    }

    /** A range that is returned is that range of the blob as full verification would have
        accepted it on `at`, a disk the call passed through, whatever others did meanwhile;
        and when nobody else acts, the call answers exactly what full verification answers. */
    method ReadRange(ref: Ref, offset: int, limit: int) returns (outcome: Outcome, ghost at: Disk)
      requires Valid()
      modifies this
      ensures Valid() && Evolves(old(disk), at) && Evolves(at, disk) && ArtifactDisk.Valid(digest, at)
      ensures old(past) <= past && WasSince(|old(past)|, at)
      ensures outcome.Content? ==> Holds(at, ref) && IsRange(outcome.bytes, BlobOf(at, ref), offset, limit)
      ensures outcome == BadRange <==> offset < 0 || limit < 1
      ensures outcome == BadRef <==> offset >= 0 && limit >= 1 && ref.artifactId != ref.hash
      ensures old(Alone()) ==> outcome == RangeOf(FullRead(digest, old(disk), ref), offset, limit)
    {
      at := disk;
      if offset < 0 || limit < 1 { return BadRange, at; }
      if ref.artifactId != ref.hash { return BadRef, at; }
      var failure, checkpoint := VerifiedCheckpoint(ref);
      at := disk;
      if !failure.Content? { return failure, at; }
      outcome := Changed;
      var round := 0;
      while round < 2 && outcome == Changed
        invariant Valid() && Evolves(old(disk), at) && Evolves(at, disk) && Evolves(old(disk), disk)
        invariant old(past) <= past && WasSince(|old(past)|, at)
        invariant ArtifactDisk.Valid(digest, at) && Honest(digest, disk, checkpoint)
        invariant outcome.Content? ==> Holds(at, ref) && IsRange(outcome.bytes, BlobOf(at, ref), offset, limit)
        invariant outcome in {Missing, Damaged, Changed} || outcome.Content?
        invariant old(Alone()) && round == 0 ==> Still(old(disk)) && outcome == Changed
        invariant old(Alone()) && round > 0 ==> outcome == RangeOf(FullRead(digest, old(disk), ref), offset, limit)
      {
        ghost var before := disk;
        outcome, checkpoint, at := Round(ref, offset, limit, checkpoint);
        EvolvesOn(old(disk), before, disk);
        EvolvesOn(old(disk), before, at);
        if outcome.Content? { RangeIsOfBlob(at, ref, offset, limit); }
        round := round + 1;
      }
    }
  }
}
