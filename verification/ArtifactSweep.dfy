/** The mark and the sweep themselves: collecting references out of event values, and
    walking the store's directories.

    Modelled on src/orchestrator/artifacts/gc.py, `_collect_from_value` and `_sweep_sync`.  */
module ArtifactSweep {
  import opened Common
  import opened ArtifactProtocol

  // ---------------------------------------------------------------------------
  // Marking
  // ---------------------------------------------------------------------------

  /** An event value: envelopes, whose payload is the validated model of a known event type,
      artifact references, models and mappings (by their field values), collections, and
      anything else. */
  datatype Value =
    | Envelope(known: bool, payload: Value)
    | ArtifactRef(hash: Hash)
    | Model(fields: seq<Value>)
    | Mapping(values: seq<Value>)
    | Items(items: seq<Value>)
    | Scalar

  function Parts(v: Value): seq<Value> {
    match v
    case Envelope(_, payload) => [payload]
    case Model(fields) => fields
    case Mapping(values) => values
    case Items(items) => items
    case _ => []
  }

  /** The value at a path of child numbers. */
  function At(v: Value, path: seq<nat>): Option<Value>
    decreases path
  {
    if path == [] then Some(v)
    else if path[0] < |Parts(v)| then At(Parts(v)[path[0]], path[1..])
    else None
  }

  ghost predicate Mentions(v: Value, h: Hash) {
    exists path :: At(v, path) == Some(ArtifactRef(h))
  }

  ghost predicate HasUnknown(v: Value) {
    exists path :: At(v, path).Some? && At(v, path).value.Envelope? && !At(v, path).value.known
  }

  /** The same for the values of a list from a position on. */
  ghost predicate MentionedIn(vs: seq<Value>, h: Hash) {
    exists i :: 0 <= i < |vs| && Mentions(vs[i], h)
  }

  ghost predicate UnknownIn(vs: seq<Value>) {
    exists i :: 0 <= i < |vs| && HasUnknown(vs[i])
  }

  lemma MentionsParts(v: Value, h: Hash)
    ensures Mentions(v, h) <==> v == ArtifactRef(h) || MentionedIn(Parts(v), h)
  {
    if Mentions(v, h) && v != ArtifactRef(h) {
      var path :| At(v, path) == Some(ArtifactRef(h));
      assert At(v, path) == At(Parts(v)[path[0]], path[1..]);
    }
    if v == ArtifactRef(h) { assert At(v, []) == Some(v); }
    forall i | 0 <= i < |Parts(v)| && Mentions(Parts(v)[i], h) ensures Mentions(v, h) {
      var path :| At(Parts(v)[i], path) == Some(ArtifactRef(h));
      assert ([i] + path)[1..] == path;
      assert At(v, [i] + path) == Some(ArtifactRef(h));
    }
  }

  lemma UnknownParts(v: Value)
    ensures HasUnknown(v) <==> (v.Envelope? && !v.known) || UnknownIn(Parts(v))
  {
    if HasUnknown(v) && !(v.Envelope? && !v.known) {
      var path :| At(v, path).Some? && At(v, path).value.Envelope? && !At(v, path).value.known;
      assert At(v, path) == At(Parts(v)[path[0]], path[1..]);
    }
    if v.Envelope? && !v.known { assert At(v, []) == Some(v); }
    forall i | 0 <= i < |Parts(v)| && HasUnknown(Parts(v)[i]) ensures HasUnknown(v) {
      var path :| At(Parts(v)[i], path).Some? && At(Parts(v)[i], path).value.Envelope?
        && !At(Parts(v)[i], path).value.known;
      assert ([i] + path)[1..] == path;
      assert At(v, [i] + path) == At(Parts(v)[i], path);
    }
  }

  /** The set that the recursion adds hashes to. */
  class Marker {
    var refs: set<Hash>

    constructor ()
      ensures refs == {}
    {
      refs := {};
    }

    /** Fails exactly if there is an event of unknown type; otherwise adds exactly the hashes
        mentioned anywhere in the value. */
    method CollectFromValue(v: Value) returns (ok: bool)
      modifies this
      ensures ok <==> !HasUnknown(v)
      ensures old(refs) <= refs
      ensures ok ==> forall h :: h in refs <==> h in old(refs) || Mentions(v, h)
      decreases v, 1
    {
      UnknownParts(v);
      forall h ensures Mentions(v, h) <==> v == ArtifactRef(h) || MentionedIn(Parts(v), h) {
        MentionsParts(v, h);
      }
      match v {
        case Envelope(known, payload) =>
          if !known { return false; }
          ok := CollectFromValue(payload);
          assert Parts(v)[0] == payload;
        case ArtifactRef(hash) =>
          refs := refs + {hash};
          ok := true;
        case Model(fields) => ok := CollectFromAll(fields);
        case Mapping(values) => ok := CollectFromAll(values);
        case Items(items) => ok := CollectFromAll(items);
        case Scalar => ok := true;
      }
    }

    method CollectFromAll(vs: seq<Value>) returns (ok: bool)
      modifies this
      ensures ok <==> !UnknownIn(vs)
      ensures old(refs) <= refs
      ensures ok ==> forall h :: h in refs <==> h in old(refs) || MentionedIn(vs, h)
      decreases vs, 0
    {
      ok := true;
      var i := 0;
      while i < |vs| && ok
        invariant 0 <= i <= |vs| && old(refs) <= refs
        invariant ok ==> forall k :: 0 <= k < i ==> !HasUnknown(vs[k])
        invariant ok ==> forall h :: h in refs <==> h in old(refs) || exists k :: 0 <= k < i && Mentions(vs[k], h)
        invariant !ok ==> UnknownIn(vs)
      {
        ok := CollectFromValue(vs[i]);
        i := i + 1;
      }
    }
  }

  /** All hashes referenced in the events, or a failure at an unknown event. */
  method CollectArtifactRefs(events: seq<Value>) returns (marks: Option<set<Hash>>)
    ensures marks.None? <==> UnknownIn(events)
    ensures marks.Some? ==> forall h :: h in marks.value <==> MentionedIn(events, h)
  {
    var marker := new Marker();
    var ok := marker.CollectFromAll(events);
    if ok { return Some(marker.refs); }
    marks := None;
  }

  /** So marking the events of the surviving runs marks all that is referenced. */
  lemma MarkingCovers(w: World, events: seq<Value>, marks: set<Hash>)
    requires forall h :: Referenced(w, h) ==> MentionedIn(events, h)
    requires forall h :: h in marks <==> MentionedIn(events, h)
    ensures MarksAll(w, marks)
  {
  }

  // ---------------------------------------------------------------------------
  // Sweeping
  // ---------------------------------------------------------------------------

  datatype Entry = File(mtime: int) | Other

  datatype Node = Directory(entries: map<string, Entry>) | NoDirectory

  predicate IsHex(s: string) {
    forall c :: c in s ==> '0' <= c <= '9' || 'a' <= c <= 'f'
  }

  predicate IsPrefix(s: string) {
    |s| == 2 && IsHex(s)
  }

  predicate IsDigest(s: string) {
    |s| == 64 && IsHex(s)
  }

  function HashOf(prefix: string, name: string): Hash {
    "sha256:" + prefix + name
  }

  /** Where the store keeps the blob of a hash: the directory, and the file in it. */
  function KeptAt(h: Hash): (string, string)
    requires |h| >= 9
  {
    (h[7..9], h[9..])
  }

  /** A file counts for the hash whose blob the store keeps there, and for no other. */
  lemma HashOfIsKept(prefix: string, name: string, h: Hash)
    requires IsPrefix(prefix)
    ensures |HashOf(prefix, name)| >= 9 && KeptAt(HashOf(prefix, name)) == (prefix, name)
    ensures |h| >= 9 && h[..7] == "sha256:" ==> (HashOf(prefix, name) == h <==> KeptAt(h) == (prefix, name))
  {
    var hash := HashOf(prefix, name);
    assert hash[7..9] == prefix && hash[9..] == name && hash[..7] == "sha256:";
    if |h| >= 9 && h[..7] == "sha256:" { assert h == h[..7] + h[7..9] + h[9..]; }
  }

  /** A regular file named by a digest, unmarked, and older than the cutoff. */
  predicate Doomed(prefix: string, name: string, e: Entry, retained: set<Hash>, cutoff: int) {
    IsDigest(prefix + name) && e.File? && HashOf(prefix, name) !in retained && e.mtime < cutoff
  }

  /** The entries left when only `names` have been looked at. */
  function Kept(
    prefix: string, entries: map<string, Entry>, names: set<string>, retained: set<Hash>, cutoff: int)
    : map<string, Entry>
  {
    map n | n in entries && !(n in names && Doomed(prefix, n, entries[n], retained, cutoff)) :: entries[n]
  }

  ghost predicate DeletedFrom(
    h: Hash, prefix: string, entries: map<string, Entry>, names: set<string>, retained: set<Hash>, cutoff: int)
  {
    exists n :: n in names && n in entries && Doomed(prefix, n, entries[n], retained, cutoff) && h == HashOf(prefix, n)
  }

  class Root {
    var nodes: map<string, Node>

    method SweepDirectory(prefix: string, retained: set<Hash>, cutoff: int, sofar: set<Hash>)
      returns (deleted: set<Hash>)
      requires prefix in nodes && nodes[prefix].Directory?
      modifies this
      ensures var entries := old(nodes)[prefix].entries;
        && nodes == old(nodes)[prefix := Directory(Kept(prefix, entries, entries.Keys, retained, cutoff))]
        && forall h :: h in deleted <==> h in sofar || DeletedFrom(h, prefix, entries, entries.Keys, retained, cutoff)
    {
      deleted := sofar;
      ghost var entries := nodes[prefix].entries;
      ghost var seen: set<string> := {};
      var names := nodes[prefix].entries.Keys;
      assert Kept(prefix, entries, {}, retained, cutoff) == entries;
      while names != {}
        invariant prefix in nodes && nodes[prefix].Directory?
        invariant names + seen == entries.Keys && names !! seen
        invariant nodes == old(nodes)[prefix := Directory(Kept(prefix, entries, seen, retained, cutoff))]
        invariant forall h :: h in deleted <==> h in sofar || DeletedFrom(h, prefix, entries, seen, retained, cutoff)
        decreases names
      {
        var name :| name in names;
        var e := nodes[prefix].entries[name];
        if IsDigest(prefix + name) && e.File? && HashOf(prefix, name) !in retained && e.mtime < cutoff {
          nodes := nodes[prefix := Directory(nodes[prefix].entries - {name})];
          deleted := deleted + {HashOf(prefix, name)};
        }
        DeletedOneMore(prefix, entries, seen, name, retained, cutoff);
        assert Kept(prefix, entries, seen + {name}, retained, cutoff)
            == if Doomed(prefix, name, entries[name], retained, cutoff)
               then Kept(prefix, entries, seen, retained, cutoff) - {name}
               else Kept(prefix, entries, seen, retained, cutoff);
        names, seen := names - {name}, seen + {name};
      }
      assert seen == entries.Keys;
    }

    /** A sweep removes exactly the doomed files of the two-digit directories, nothing else,
        and returns their hashes. */
    method Sweep(now: int, retained: set<Hash>, grace: int) returns (deleted: Option<set<Hash>>)
      modifies this
      ensures deleted.None? <==> grace < 0
      ensures deleted.None? ==> nodes == old(nodes)
      ensures deleted.Some? ==> nodes == Swept(old(nodes), old(nodes).Keys, retained, now - grace)
      ensures deleted.Some?
          ==> forall h :: h in deleted.value <==> DeletedIn(h, old(nodes), old(nodes).Keys, retained, now - grace)
    {
      if grace < 0 { return None; }
      var cutoff := now - grace;
      var gone: set<Hash> := {};
      ghost var all := nodes;
      ghost var seen: set<string> := {};
      var prefixes := nodes.Keys;
      assert Swept(all, {}, retained, cutoff) == all;
      while prefixes != {}
        invariant prefixes + seen == all.Keys && prefixes !! seen
        invariant nodes == Swept(all, seen, retained, cutoff)
        invariant forall h :: h in gone <==> DeletedIn(h, all, seen, retained, cutoff)
        decreases prefixes
      {
        var prefix :| prefix in prefixes;
        if IsPrefix(prefix) && nodes[prefix].Directory? {
          gone := SweepDirectory(prefix, retained, cutoff, gone);
        }
        DeletedOneDirectoryMore(all, seen, prefix, retained, cutoff);
        SweptOneMore(all, seen, prefix, retained, cutoff);
        prefixes, seen := prefixes - {prefix}, seen + {prefix};
      }
      assert seen == all.Keys;
      deleted := Some(gone);
    }
  }

  lemma DeletedOneMore(
    prefix: string, entries: map<string, Entry>, seen: set<string>, name: string, retained: set<Hash>, cutoff: int)
    requires name in entries
    ensures forall h ::
      DeletedFrom(h, prefix, entries, seen + {name}, retained, cutoff)
      <==> DeletedFrom(h, prefix, entries, seen, retained, cutoff)
           || (Doomed(prefix, name, entries[name], retained, cutoff) && h == HashOf(prefix, name))
  {
  }

  predicate Sweepable(prefix: string, node: Node) {
    IsPrefix(prefix) && node.Directory?
  }

  /** The tree when only the directories in `seen` have been swept. */
  function Swept(nodes: map<string, Node>, seen: set<string>, retained: set<Hash>, cutoff: int): map<string, Node> {
    map p | p in nodes ::
      if p in seen && Sweepable(p, nodes[p])
      then Directory(Kept(p, nodes[p].entries, nodes[p].entries.Keys, retained, cutoff))
      else nodes[p]
  }

  ghost predicate DeletedIn(h: Hash, nodes: map<string, Node>, seen: set<string>, retained: set<Hash>, cutoff: int) {
    exists p :: p in seen && p in nodes && Sweepable(p, nodes[p])
      && DeletedFrom(h, p, nodes[p].entries, nodes[p].entries.Keys, retained, cutoff)
  }

  lemma SweptOneMore(nodes: map<string, Node>, seen: set<string>, prefix: string, retained: set<Hash>, cutoff: int)
    requires prefix in nodes
    ensures Swept(nodes, seen + {prefix}, retained, cutoff)
         == if Sweepable(prefix, nodes[prefix])
            then Swept(nodes, seen, retained, cutoff)
                   [prefix := Directory(Kept(prefix, nodes[prefix].entries, nodes[prefix].entries.Keys, retained,
                     cutoff))]
            else Swept(nodes, seen, retained, cutoff)
  {
  }

  lemma DeletedOneDirectoryMore(nodes: map<string, Node>, seen: set<string>, prefix: string, retained: set<Hash>,
    cutoff: int)
    requires prefix in nodes
    ensures forall h ::
      DeletedIn(h, nodes, seen + {prefix}, retained, cutoff)
      <==> DeletedIn(h, nodes, seen, retained, cutoff)
           || (Sweepable(prefix, nodes[prefix])
               && DeletedFrom(h, prefix, nodes[prefix].entries, nodes[prefix].entries.Keys, retained, cutoff))
  {
  }

  // ---------------------------------------------------------------------------
  // A sweep is a run of protocol steps
  // ---------------------------------------------------------------------------

  function Unlinks(p: Process, hs: seq<Hash>): seq<Step> {
    if hs == [] then [] else [Unlink(p, hs[0])] + Unlinks(p, hs[1..])
  }

  /** The protocol allows the holder of the marks to remove, in any order, any blobs that
      the sweep may remove, and that leaves exactly the others. */
  lemma {:induction false} SweepIsARun(projects: Run -> Project, w: World, p: Process, hs: seq<Hash>)
    requires Holds(w, p) && JobOf(w, p).Sweeping?
    requires forall i, j :: 0 <= i < j < |hs| ==> hs[i] != hs[j]
    requires forall h :: h in hs ==> h in w.blobs && h !in JobOf(w, p).retained && w.blobs[h] < JobOf(w, p).cutoff
    ensures CanRun(projects, w, Unlinks(p, hs)) && Disciplined(Unlinks(p, hs))
    ensures After(w, Unlinks(p, hs)) == w.(blobs := w.blobs - (set h | h in hs))
    decreases hs
  {
    if hs == [] {
      assert w.blobs - (set h | h in hs) == w.blobs;
    } else {
      var next := Next(w, Unlink(p, hs[0]));
      assert hs[0] in hs;
      SweepIsARun(projects, next, p, hs[1..]);
      assert Unlinks(p, hs)[1..] == Unlinks(p, hs[1..]);
      assert w.blobs - {hs[0]} - (set h | h in hs[1..]) == w.blobs - (set h | h in hs);
    }
  }

  /** The blobs in a tree, seen the way the protocol sees them. */
  ghost predicate Shows(nodes: map<string, Node>, blobs: map<Hash, int>) {
    && (forall p, n ::
          IsBlob(nodes, p, n) ==> HashOf(p, n) in blobs && blobs[HashOf(p, n)] == nodes[p].entries[n].mtime)
    && (forall h :: h in blobs ==> exists p, n :: IsBlob(nodes, p, n) && h == HashOf(p, n))
  }

  predicate IsBlob(nodes: map<string, Node>, p: string, n: string) {
    p in nodes && Sweepable(p, nodes[p]) && n in nodes[p].entries && nodes[p].entries[n].File? && IsDigest(p + n)
  }

  /** What a sweep deletes is exactly what the protocol would let it unlink, and what it
      leaves shows exactly the other blobs. */
  lemma SweepShows(nodes: map<string, Node>, blobs: map<Hash, int>, deleted: set<Hash>, retained: set<Hash>,
    cutoff: int)
    requires Shows(nodes, blobs)
    requires forall h :: h in deleted <==> DeletedIn(h, nodes, nodes.Keys, retained, cutoff)
    ensures forall h :: h in deleted <==> h in blobs && h !in retained && blobs[h] < cutoff
    ensures Shows(Swept(nodes, nodes.Keys, retained, cutoff), blobs - deleted)
  {
    var after := Swept(nodes, nodes.Keys, retained, cutoff);
    forall h ensures h in deleted <==> h in blobs && h !in retained && blobs[h] < cutoff {
      DeletedIsOld(nodes, blobs, h, retained, cutoff);
    }
    forall p, n | IsBlob(after, p, n)
      ensures HashOf(p, n) in blobs - deleted && (blobs - deleted)[HashOf(p, n)] == after[p].entries[n].mtime
    {
      assert IsBlob(nodes, p, n);
    }
    forall h | h in blobs - deleted ensures exists p, n :: IsBlob(after, p, n) && h == HashOf(p, n) {
      var p, n :| IsBlob(nodes, p, n) && h == HashOf(p, n);
      assert IsBlob(after, p, n);
    }
  }

  lemma DeletedIsOld(nodes: map<string, Node>, blobs: map<Hash, int>, h: Hash, retained: set<Hash>, cutoff: int)
    requires Shows(nodes, blobs)
    ensures DeletedIn(h, nodes, nodes.Keys, retained, cutoff) <==> h in blobs && h !in retained && blobs[h] < cutoff
  {
    if DeletedIn(h, nodes, nodes.Keys, retained, cutoff) {
      var p :| p in nodes.Keys && p in nodes && Sweepable(p, nodes[p])
        && DeletedFrom(h, p, nodes[p].entries, nodes[p].entries.Keys, retained, cutoff);
      var n :| n in nodes[p].entries && Doomed(p, n, nodes[p].entries[n], retained, cutoff) && h == HashOf(p, n);
      assert IsBlob(nodes, p, n);
    }
    if h in blobs && h !in retained && blobs[h] < cutoff {
      var p, n :| IsBlob(nodes, p, n) && h == HashOf(p, n);
      assert DeletedFrom(h, p, nodes[p].entries, nodes[p].entries.Keys, retained, cutoff);
    }
  }
}
