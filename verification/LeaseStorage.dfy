/** The directory that holds the lease file, and the operations by which the daemon replaces it:
    create a temporary file, write it, sync it, rename it over the lease, remove what is left.

    Any of them may fail, the daemon may be killed after any of them, and a power loss may ruin
    every file that was not synced and bring back an earlier directory entry, since the
    directory itself is never synced.  `moments` keeps the directory after each operation, so
    that a contract can speak of all the points where that may happen. */
module LeaseStorage {
  import opened Wrappers
  import opened Lease

  const LEASE_NAME: string := "maintenance.lease"
  const TEMP_PREFIX: string := ".maintenance-"

  // What a file holds: a whole encoded lease, or bytes that are none.
  datatype File = File(lease: Option<Lease>, synced: bool)

  type Dir = map<string, File>

  function LeaseIn(d: Dir): Option<Lease> { if LEASE_NAME in d then d[LEASE_NAME].lease else None }

  // What startup finds: it opens the lease by name and looks at no other file.
  function FindIn(d: Dir): Found {
    if LEASE_NAME !in d then Absent
    else match d[LEASE_NAME].lease
      case None => Malformed
      case Some(lease) => Decoded(lease)
  }

  // The lease file, if there is one, is whole and on disk.
  predicate Sound(d: Dir) { LEASE_NAME in d ==> d[LEASE_NAME].lease.Some? && d[LEASE_NAME].synced }

  predicate SameLeaseFile(d: Dir, d': Dir) {
    (LEASE_NAME in d <==> LEASE_NAME in d') && (LEASE_NAME in d ==> d'[LEASE_NAME] == d[LEASE_NAME])
  }

  predicate NewLeaseFile(d: Dir, lease: Lease) { LEASE_NAME in d && d[LEASE_NAME] == File(Some(lease), true) }

  // The lease file is the old one or the new one, whole.
  predicate OldOrNew(before: Dir, d: Dir, lease: Lease) { Sound(d) && (SameLeaseFile(before, d) || NewLeaseFile(d, lease)) }

  // The lease entry is the one of directory `d`; its file survives if it was synced and may
  // hold anything otherwise.
  predicate LostFrom(d: Dir, d': Dir) {
    (LEASE_NAME in d <==> LEASE_NAME in d') && (LEASE_NAME in d && d[LEASE_NAME].synced ==> d'[LEASE_NAME] == d[LEASE_NAME])
  }

  // After a power loss at a moment, the lease entry is one of those the directory has had so far.
  ghost predicate PowerLoss(history: seq<Dir>, moment: nat, d': Dir) {
    moment < |history| && exists j :: 0 <= j <= moment && LostFrom(history[j], d')
  }

  // Startup finds, whole, a lease the file held at one of these moments, or none as then.
  ghost predicate FoundBefore(history: seq<Dir>, found: Found) {
    exists j :: 0 <= j < |history| && found == Find(LeaseIn(history[j]))
  }

  lemma LossFindsWhole(d: Dir, d': Dir)
    requires Sound(d) && LostFrom(d, d')
    ensures FindIn(d') == Find(LeaseIn(d))
  {
  }

  // A power loss during a replacement, with every moment before it sound.
  lemma LossDuringReplacement(moments: seq<Dir>, earlier: seq<Dir>, moment: nat, lease: Lease, d': Dir)
    requires earlier != [] && earlier <= moments && PowerLoss(moments, moment, d')
    requires forall i :: 0 <= i < |moments| ==> Sound(moments[i])
    requires forall i :: |earlier| <= i < |moments| ==> OldOrNew(earlier[|earlier| - 1], moments[i], lease)
    ensures FindIn(d') == Find(Some(lease)) || FoundBefore(earlier, FindIn(d'))
  {
    var j :| 0 <= j <= moment && LostFrom(moments[j], d');
    LossFindsWhole(moments[j], d');
    if j < |earlier| {
      assert earlier[j] == moments[j];
    } else if SameLeaseFile(earlier[|earlier| - 1], moments[j]) {
      assert LeaseIn(moments[j]) == LeaseIn(earlier[|earlier| - 1]);
    }
  }

  // How each operation of one replacement turns out; `suffix` is the random part of the name.
  datatype Outcomes = Outcomes(
    reached: bool, suffix: Option<string>, created: bool, prepared: bool, written: bool,
    synced: bool, closed: bool, renamed: bool, unlinked: bool)

  function TempName(o: Outcomes): string
    requires o.suffix.Some?
  {
    TEMP_PREFIX + o.suffix.value
  }

  // Every operation up to the rename succeeds; creation is exclusive.
  predicate Succeeds(d: Dir, o: Outcomes) {
    && o.reached && o.suffix.Some? && o.created && TempName(o) !in d
    && o.prepared && o.written && o.synced && o.closed && o.renamed
  }

  lemma TempIsNotTheLease(o: Outcomes)
    requires o.suffix.Some?
    ensures TempName(o) != LEASE_NAME
  {
    assert TempName(o)[0] == TEMP_PREFIX[0] && TEMP_PREFIX[0] != LEASE_NAME[0];
  }

  lemma WhatIsFound(moments: seq<Dir>, earlier: seq<Dir>, before: Dir, lease: Lease)
    requires earlier <= moments && |earlier| > 0 && earlier[|earlier| - 1] == before && forall i :: 0 <= i < |moments| ==> Sound(moments[i])
    requires forall i :: |earlier| <= i < |moments| ==> OldOrNew(before, moments[i], lease)
    ensures forall i :: |earlier| <= i < |moments| ==> FindIn(moments[i]) == Find(LeaseIn(before)) || FindIn(moments[i]) == Find(Some(lease))
    ensures forall i, d' :: i >= |earlier| && PowerLoss(moments, i, d') ==> FindIn(d') == Find(Some(lease)) || FoundBefore(earlier, FindIn(d'))
  {
    forall i, d' | i >= |earlier| && PowerLoss(moments, i, d') ensures FindIn(d') == Find(Some(lease)) || FoundBefore(earlier, FindIn(d')) {
      LossDuringReplacement(moments, earlier, i, lease, d');
    }
  }

  class LeaseDirectory {
    var entries: Dir
    ghost var moments: seq<Dir>

    ghost predicate Valid()
      reads this
    {
      |moments| > 0 && moments[|moments| - 1] == entries && forall i :: 0 <= i < |moments| ==> Sound(moments[i])
    }

    constructor ()
      ensures Valid() && entries == map[]
    {
      entries := map[];
      moments := [map[]];
    }

    method Become(next: Dir)
      requires Valid() && Sound(next)
      modifies this
      ensures Valid() && entries == next && moments == old(moments) + [next]
    {
      entries := next;
      moments := moments + [next];
    }

    // O_CREAT | O_EXCL
    method Create(name: string, permitted: bool) returns (ok: bool)
      requires Valid() && name != LEASE_NAME
      modifies this
      ensures Valid() && ok == (permitted && name !in old(entries))
      ensures entries == if ok then old(entries)[name := File(None, false)] else old(entries)
      ensures moments == if ok then old(moments) + [entries] else old(moments)
    {
      ok := permitted && name !in entries;
      if ok {
        Become(entries[name := File(None, false)]);
      }
    }

    // A write that fails may have left any part of the bytes.
    method Write(name: string, lease: Lease, ok: bool)
      requires Valid() && name != LEASE_NAME
      modifies this
      ensures Valid() && entries == old(entries)[name := File(if ok then Some(lease) else None, false)] && moments == old(moments) + [entries]
    {
      Become(entries[name := File(if ok then Some(lease) else None, false)]);
    }

    method Sync(name: string)
      requires Valid() && name in entries && name != LEASE_NAME
      modifies this
      ensures Valid() && entries == old(entries)[name := old(entries)[name].(synced := true)] && moments == old(moments) + [entries]
    {
      Become(entries[name := entries[name].(synced := true)]);
    }

    // The step that makes the new lease the lease: only a whole and synced file may take it.
    method Rename(name: string)
      requires Valid() && name in entries && name != LEASE_NAME && entries[name].lease.Some? && entries[name].synced
      modifies this
      ensures Valid() && entries == (old(entries) - {name})[LEASE_NAME := old(entries)[name]] && moments == old(moments) + [entries]
    {
      Become((entries - {name})[LEASE_NAME := entries[name]]);
    }

    // A missing file is no error.
    method Unlink(name: string, ok: bool)
      requires Valid()
      modifies this
      ensures Valid() && entries == (if ok then old(entries) - {name} else old(entries)) && moments == old(moments) + [entries]
    {
      Become(if ok then entries - {name} else entries);
    }

    /** persistMaintenanceLease: it succeeds exactly when every operation does; at every moment on
        the way, and afterwards, the lease file is the old one or the new one whole; a failure
        leaves the old one; and no other file is touched but the temporary one, which is gone
        unless removing it failed.  A daemon killed at any of these moments finds the old lease
        or the new one at its next start; after a power loss it finds the new one or one the
        file held before, always whole. */
    method Persist(lease: Lease, o: Outcomes) returns (ok: bool)
      requires Valid()
      modifies this
      ensures Valid() && old(moments) <= moments && ok == old(Succeeds(entries, o))
      ensures forall i :: |old(moments)| <= i < |moments| ==> OldOrNew(old(entries), moments[i], lease)
      ensures if ok then NewLeaseFile(entries, lease) else SameLeaseFile(old(entries), entries)
      ensures forall i :: |old(moments)| <= i < |moments| ==>
                FindIn(moments[i]) == Find(old(LeaseIn(entries))) || FindIn(moments[i]) == Find(Some(lease))
      ensures forall i, d' :: i >= |old(moments)| && PowerLoss(moments, i, d') ==>
                FindIn(d') == Find(Some(lease)) || FoundBefore(old(moments), FindIn(d'))
      ensures forall n :: n != LEASE_NAME && (o.suffix.Some? ==> n != TempName(o)) ==>
                (n in entries <==> n in old(entries)) && (n in entries ==> entries[n] == old(entries)[n])
      ensures o.suffix.Some? && o.unlinked && TempName(o) !in old(entries) ==> TempName(o) !in entries
    {
      ok := Replace(lease, o);
      WhatIsFound(moments, old(moments), old(entries), lease);
    }

    method Replace(lease: Lease, o: Outcomes) returns (ok: bool)
      requires Valid()
      modifies this
      ensures Valid() && old(moments) <= moments && ok == old(Succeeds(entries, o))
      ensures forall i :: |old(moments)| <= i < |moments| ==> OldOrNew(old(entries), moments[i], lease)
      ensures if ok then NewLeaseFile(entries, lease) else SameLeaseFile(old(entries), entries)
      ensures forall n :: n != LEASE_NAME && (o.suffix.Some? ==> n != TempName(o)) ==>
                (n in entries <==> n in old(entries)) && (n in entries ==> entries[n] == old(entries)[n])
      ensures o.suffix.Some? && o.unlinked && TempName(o) !in old(entries) ==> TempName(o) !in entries
    {
      if !o.reached || o.suffix.None? {
        return false;
      }
      var name := TempName(o);
      TempIsNotTheLease(o);
      ok := Create(name, o.created);
      if !ok {
        return;
      }
      ok := Fill(name, lease, o);
      Unlink(name, o.unlinked);
    }

    // From the created file to the rename.
    method Fill(name: string, lease: Lease, o: Outcomes) returns (ok: bool)
      requires Valid() && name in entries && name != LEASE_NAME
      modifies this
      ensures Valid() && old(moments) <= moments && ok == (o.prepared && o.written && o.synced && o.closed && o.renamed)
      ensures forall i :: |old(moments)| <= i < |moments| ==> OldOrNew(old(entries), moments[i], lease)
      ensures if ok then NewLeaseFile(entries, lease) && name !in entries else SameLeaseFile(old(entries), entries)
      ensures forall n :: n != LEASE_NAME && n != name ==>
                (n in entries <==> n in old(entries)) && (n in entries ==> entries[n] == old(entries)[n])
    {
      if !o.prepared {
        return false;
      }
      Write(name, lease, o.written);
      if !o.written {
        return false;
      }
      if !o.synced {
        return false;
      }
      Sync(name);
      if !o.closed || !o.renamed {
        return false;
      }
      Rename(name);
      return true;
    }

    // removeMaintenanceLease
    method Remove(unlinked: bool) returns (ok: bool)
      requires Valid()
      modifies this
      ensures Valid() && ok == unlinked && entries == if ok then old(entries) - {LEASE_NAME} else old(entries)
    {
      Unlink(LEASE_NAME, unlinked);
      ok := unlinked;
    }
  }
}
