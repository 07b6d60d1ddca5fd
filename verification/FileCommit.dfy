/** Compare-and-replace writes, deletions and moves as sequences of system calls on a
    directory that other processes change between any two of them.

    A file's contents never change under its inode: writing in place through an open
    descriptor is outside this model. A SHA-256 stands for the contents it was taken of. */
module FileCommit {
  import opened Wrappers

  type Name = string

  datatype Entry = File(inode: nat, content: string, links: nat) | Symlink | Folder(empty: bool)

  type Entries = map<Name, Entry>

  /** What others do just before one of our system calls: nothing, or anything. */
  datatype Interference = Keep | Become(entries: Entries)

  /** Others leave our private name alone. */
  function Meddle(i: Interference, entries: Entries, private: Option<Name>): Entries {
    match i
    case Keep => entries
    case Become(new') =>
      if private.None? then new'
      else if private.value in entries then new'[private.value := entries[private.value]]
      else new' - {private.value}
  }

  function Theirs(entries: Entries, private: Option<Name>): Entries {
    if private.None? then entries else entries - {private.value}
  }

  predicate SamePrivate(a: Entries, b: Entries, private: Option<Name>) {
    private.None? || ((private.value in a <==> private.value in b) && (private.value in a ==> a[private.value] == b[private.value]))
  }

  predicate Plain(e: Entry) {
    e.File? && e.links <= 1
  }

  /** An entry is the single-link regular file with the expected contents. */
  predicate Matches(entries: Entries, name: Name, expected: string) {
    name in entries && entries[name].File? && entries[name].links <= 1 && entries[name].content == expected
  }

  datatype Outcome = Done | Failed | RollbackFailed

  /** A directory as we see it. `env` and `faults` say what others do and which of our
      system calls fail at each moment; on a `reliable` disk unlink and fsync never do.
      `left` is how others last left the directory before our commit. */
  class Directory {
    const env: nat -> Interference
    const faults: nat -> bool
    const reliable: bool
    const private: Option<Name>
    var time: nat
    var entries: Entries
    ghost var committed: bool
    ghost var left: Entries

    constructor (entries: Entries, env: nat -> Interference, faults: nat -> bool, reliable: bool, private: Option<Name>)
      requires private.Some? ==> private.value !in entries
      ensures this.entries == left == entries && !committed && this.env == env && this.faults == faults
      ensures this.reliable == reliable && this.private == private
    {
      this.entries, this.left, this.committed, this.time := entries, entries, false, 0;
      this.env, this.faults, this.reliable, this.private := env, faults, reliable, private;
    }

    /** Nobody else acts from now on. */
    ghost predicate Quiet()
      reads this
    {
      forall t :: t > time ==> env(t).Keep?
    }

    /** From now on nobody else acts and none of our calls fails. */
    ghost predicate Smooth()
      reads this
    {
      forall t :: t > time ==> env(t).Keep? && !faults(t)
    }

    /** What the directory looks like to others, before our commit. */
    ghost predicate Tracked()
      reads this
    {
      !committed ==> left == Theirs(entries, private)
    }

    /** Only others have acted. */
    twostate predicate OnlyOthers()
      reads this
    {
      committed == old(committed) && (committed ==> left == old(left)) && time >= old(time) &&
      SamePrivate(old(entries), entries, private) &&
      (old(Quiet()) ==> Quiet() && entries == old(entries))
    }

    method Tick()
      requires Tracked()
      modifies this
      ensures Tracked() && OnlyOthers() && time == old(time) + 1
    {
      time := time + 1;
      entries := Meddle(env(time), entries, private);
      if !committed {
        left := Theirs(entries, private);
      }
    }

    // ------------------------------------------------------------ system calls

    method Stat(name: Name) returns (r: Option<Entry>)
      requires Tracked()
      modifies this
      ensures Tracked() && OnlyOthers()
      ensures r == if name in entries then Some(entries[name]) else None
    {
      Tick();
      r := if name in entries then Some(entries[name]) else None;
    }

    /** `openRegularAt`: stat the name, open it, stat the descriptor. Others may act in between. */
    method OpenRegular(name: Name) returns (r: Option<Entry>)
      requires Tracked()
      modifies this
      ensures Tracked() && OnlyOthers()
      ensures r.Some? ==> name in entries && entries[name] == r.value && Plain(r.value)
      ensures old(Smooth()) ==> (r.Some? <==> name in old(entries) && Plain(old(entries)[name]))
    {
      var before := Stat(name);
      if before.None? || !Plain(before.value) {
        return None;
      }
      Tick();
      if faults(time) || name !in entries || !Plain(entries[name]) {
        return None;
      }
      r := Some(entries[name]);
    }

    /** `verifyRegularAt`. The end of its context, like a failed read, is a fault of the last
        step of `OpenRegular`: all three end it without an answer. */
    method Verify(name: Name, expected: string) returns (ok: bool)
      requires Tracked()
      modifies this
      ensures Tracked() && OnlyOthers()
      ensures ok ==> Matches(entries, name, expected)
      ensures old(Smooth()) ==> (ok <==> Matches(old(entries), name, expected))
    {
      var file := OpenRegular(name);
      if file.None? {
        return false;
      }
      ok := file.value.content == expected;
    }

    /** Creates, fills and syncs our private file; cleans up when any of that fails. */
    method CreatePrivate(data: string, inode: nat) returns (ok: bool)
      requires Tracked() && private.Some? && !committed && private.value !in entries
      modifies this
      ensures Tracked() && !committed && time >= old(time)
      ensures ok ==> private.value in entries && entries[private.value] == File(inode, data, 1)
      ensures !ok && reliable ==> private.value !in entries
      ensures old(Smooth()) ==> ok && entries == old(entries)[private.value := File(inode, data, 1)]
    {
      Tick();
      if faults(time) {
        return false;
      }
      entries := entries[private.value := File(inode, data, 1)];
      Tick();
      if faults(time) {
        var removed := Unlink(private.value);
        return false;
      }
      return true;
    }

    method Unlink(name: Name) returns (ok: bool)
      requires Tracked() && (committed || private == Some(name))
      modifies this
      ensures Tracked() && committed == old(committed) && time >= old(time)
      ensures ok ==> name !in entries
      ensures reliable && private == Some(name) ==> name !in entries
      ensures reliable && old(Quiet()) ==> entries == old(entries) - {name} && ok == (name in old(entries))
      ensures !reliable && !ok && old(Quiet()) ==> entries == old(entries)
      ensures !ok ==> SamePrivate(old(entries), entries, private)
      ensures old(Quiet()) ==> Quiet()
      ensures committed ==> left == old(left)
      ensures old(Smooth()) ==> ok == (name in old(entries)) && entries == old(entries) - {name}
    {
      Tick();
      if (!reliable && faults(time)) || name !in entries {
        return false;
      }
      entries := entries - {name};
      return true;
    }

    /** `renameat2` with RENAME_EXCHANGE. The first one that succeeds is our commit. */
    method Exchange(a: Name, b: Name) returns (ok: bool, ghost before: Entries)
      requires Tracked() && a != b && (committed || private == Some(a) || private.None?)
      modifies this
      ensures time == old(time) + 1 && SamePrivate(old(entries), before, private) && (old(Quiet()) ==> Quiet() && before == old(entries))
      ensures Tracked() && committed == (ok || old(committed))
      ensures ok ==> a in before && b in before && entries == before[a := before[b]][b := before[a]]
      ensures !ok ==> entries == before && (faults(time) || a !in before || b !in before)
      ensures left == if old(committed) then old(left) else Theirs(before, private)
    {
      Tick();
      before := entries;
      if faults(time) || a !in entries || b !in entries {
        return false, before;
      }
      entries := entries[a := entries[b]][b := entries[a]];
      committed := true;
      return true, before;
    }

    /** `renameat2` with RENAME_NOREPLACE. */
    method MoveNoReplace(a: Name, b: Name) returns (ok: bool, ghost before: Entries)
      requires Tracked() && a != b
      modifies this
      ensures time == old(time) + 1 && SamePrivate(old(entries), before, private) && (old(Quiet()) ==> Quiet() && before == old(entries))
      ensures Tracked() && committed == (ok || old(committed))
      ensures ok ==> a in before && b !in before && entries == (before - {a})[b := before[a]]
      ensures !ok ==> entries == before && (faults(time) || a !in before || b in before)
      ensures left == if old(committed) then old(left) else Theirs(before, private)
    {
      Tick();
      before := entries;
      if faults(time) || a !in entries || b in entries {
        return false, before;
      }
      entries := (entries - {a})[b := entries[a]];
      committed := true;
      return true, before;
    }

    method Fsync() returns (ok: bool)
      requires Tracked()
      modifies this
      ensures Tracked() && OnlyOthers() && (reliable ==> ok) && (old(Smooth()) ==> ok)
    {
      Tick();
      ok := reliable || !faults(time);
    }

    /** Others acted only before our commit, if there was one. */
    ghost predicate QuietSince(commit: nat)
      reads this
    {
      committed ==> forall t :: t > commit ==> env(t).Keep?
    }

    // -------------------------------------------------------------------- write

    /** Everything before the exchange: the private file is ready and the target verified, or nothing of ours is left. */
    method Prepare(base: Name, data: string, inode: nat, expected: string) returns (ok: bool)
      requires Tracked() && !committed && private.Some? && base != private.value && private.value !in entries
      modifies this
      ensures Tracked() && !committed && time >= old(time)
      ensures ok ==> private.value in entries && entries[private.value] == File(inode, data, 1)
      ensures !ok && reliable ==> private.value !in entries
      ensures old(Smooth()) ==> (ok <==> Matches(old(entries), base, expected))
      ensures old(Smooth()) ==> entries == if ok then old(entries)[private.value := File(inode, data, 1)] else old(entries)
    {
      var existing := Stat(base);
      if existing.Some? && !Plain(existing.value) {
        return false;
      }
      ok := CreatePrivate(data, inode);
      if !ok {
        return false;
      }
      Tick();
      if !faults(time) {
        var verified := Verify(base, expected);
        if verified {
          Tick();
          if !faults(time) {
            return true;
          }
        }
      }
      var removed := Unlink(private.value);
      return false;
    }

    /** The second exchange, which puts the displaced entry back, and the removal of our file. */
    method RollBack(base: Name) returns (r: Outcome)
      requires Tracked() && committed && private.Some? && base != private.value
      modifies this
      ensures r.Failed? || r.RollbackFailed?
      ensures Tracked() && committed && left == old(left)
      ensures old(Quiet()) && r.RollbackFailed? ==> faults(time) || base !in old(entries) || private.value !in old(entries)
      ensures reliable && old(Quiet()) && r.Failed? ==>
                base in old(entries) && private.value in old(entries) && entries == (old(entries) - {private.value})[base := old(entries)[private.value]]
    {
      ghost var was := entries;
      ghost var before: Entries;
      var back: bool;
      back, before := Exchange(private.value, base);
      if !back {
        return RollbackFailed;
      }
      var synced := Fsync();
      var removed := Unlink(private.value);
      if reliable && old(Quiet()) {
        SwapAny(was, private.value, base);
      }
      return Failed;
    }

    /** `secureAtomicWriteIfUnchanged`. Without an expected hash it does nothing and says it is done. */
    method WriteIfUnchanged(base: Name, data: string, inode: nat, expected: Option<string>)
      returns (r: Outcome, ghost displaced: Option<Entry>, ghost commit: nat)
      requires Tracked() && !committed && private.Some? && base != private.value && private.value !in entries
      modifies this
      // The entry our file displaced was exactly the one the caller had read, whatever others did to other names.
      ensures r.Done? && expected.Some? ==>
                displaced.Some? && displaced.value.File? && displaced.value.links <= 1 && displaced.value.content == expected.value
      // If others acted only before the exchange and unlink and fsync work, a failure leaves
      // the directory exactly as they last left it, and success changes the target alone.
      ensures reliable && QuietSince(commit) && r.Failed? ==> entries == left
      ensures reliable && QuietSince(commit) && r.Done? && expected.Some? ==> entries == left[base := File(inode, data, 1)]
      // A rollback fails only if the kernel refuses the second exchange.
      ensures QuietSince(commit) && r.RollbackFailed? ==> faults(time)
      ensures expected.None? ==> r.Done? && !committed && entries == old(entries)
      // If nobody else acts and no call fails, the write happens exactly when the target is a
      // single-link regular file with the expected contents, and changes nothing otherwise.
      ensures old(Smooth()) && expected.Some? ==>
                if Matches(old(entries), base, expected.value) then r.Done? && entries == old(entries)[base := File(inode, data, 1)]
                else r.Failed? && entries == old(entries)
    {
      displaced, commit := None, time;
      if expected.None? {
        return Done, displaced, commit;
      }
      var prepared := Prepare(base, data, inode, expected.value);
      if !prepared {
        return Failed, displaced, commit;
      }
      ghost var before: Entries;
      var swapped: bool;
      swapped, before := Exchange(private.value, base);
      if !swapped {
        var removed := Unlink(private.value);
        return Failed, displaced, commit;
      }
      commit := time;
      displaced := Some(before[base]);
      r := Settle(base, expected.value);
      if reliable && QuietSince(commit) {
        SwappedBack(before, private.value, base, left);
      }
    }

    /** After the exchange: check what was displaced, then remove it or put it back. */
    method Settle(base: Name, expected: string) returns (r: Outcome)
      requires Tracked() && committed && private.Some? && base != private.value && private.value in entries && base in entries
      modifies this
      ensures committed && left == old(left)
      ensures r.Done? ==> Matches(old(entries), private.value, expected)
      ensures reliable && old(Quiet()) && r.Failed? ==> entries == (old(entries) - {private.value})[base := old(entries)[private.value]]
      ensures reliable && old(Quiet()) && r.Done? ==> entries == old(entries) - {private.value}
      ensures old(Quiet()) && r.RollbackFailed? ==> faults(time)
      ensures old(Smooth()) && Matches(old(entries), private.value, expected) ==> r.Done? && entries == old(entries) - {private.value}
    {
      var held := OpenRegular(private.value);
      Tick();
      if held.None? || faults(time) || held.value.content != expected {
        r := RollBack(base);
        return;
      }
      var removed := Unlink(private.value);
      if !removed {
        return Failed;
      }
      var synced := Fsync();
      r := if synced then Done else Failed;
    }

    // ------------------------------------------------------------------- delete

    /** `unlinkat` with AT_REMOVEDIR: only an empty directory goes. */
    method RemoveFolder(name: Name) returns (ok: bool)
      requires Tracked() && committed && private == Some(name)
      modifies this
      ensures Tracked() && committed && left == old(left) && (old(Quiet()) ==> Quiet())
      ensures !ok ==> SamePrivate(old(entries), entries, private)
      ensures ok ==> name in old(entries) && old(entries)[name] == Folder(true) && name !in entries
      ensures old(Quiet()) ==> entries == if ok then old(entries) - {name} else old(entries)
      ensures time >= old(time) && (old(Smooth()) ==> (ok <==> name in old(entries) && old(entries)[name] == Folder(true)))
    {
      Tick();
      if (!reliable && faults(time)) || name !in entries || entries[name] != Folder(true) {
        return false;
      }
      entries := entries - {name};
      return true;
    }

    /** Puts a staged entry back where it was, if the place is still free. */
    method Restore(base: Name) returns (r: Outcome)
      requires Tracked() && committed && private.Some? && base != private.value && private.value in entries
      modifies this
      ensures committed && left == old(left) && (r.Failed? || r.RollbackFailed?)
      ensures Seen(if r.Failed? then base else private.value, old(entries)[private.value])
      ensures old(Quiet()) && base !in old(entries) ==>
                if r.Failed? then entries == (old(entries) - {private.value})[base := old(entries)[private.value]] else faults(time)
      ensures old(Smooth()) && base !in old(entries) ==> r.Failed?
    {
      ghost var before: Entries;
      var back: bool;
      back, before := MoveNoReplace(private.value, base);
      r := if back then Failed else RollbackFailed;
    }

    ghost predicate Seen(name: Name, e: Entry)
      reads this
    {
      name in entries && entries[name] == e
    }

    /** What may be unlinked: the file the caller named by its hash, or an empty directory. */
    ghost predicate MayUnlink(e: Entry, directory: bool, expected: string) {
      if directory then e == Folder(true) else Plain(e) && e.content == expected
    }

    /** What the caller may delete: a file by its hash, or an empty directory if asked for. */
    ghost predicate Deletable(e: Entry, expected: Option<string>, allowEmptyDir: bool) {
      (e.File? && e.links <= 1 && expected == Some(e.content)) || (e == Folder(true) && allowEmptyDir && expected.None?)
    }

    /** `deleteAtWithSnapshot` */
    method DeleteStaged(base: Name, directory: bool, expected: string)
      returns (r: Outcome, ghost staged: Option<Entry>, ghost unlinked: bool, ghost commit: nat)
      requires Tracked() && !committed && private.Some? && base != private.value && private.value !in entries
      modifies this
      ensures unlinked ==> staged.Some? && MayUnlink(staged.value, directory, expected)
      ensures r.Done? ==> unlinked
      ensures staged.Some? && !unlinked ==> Seen(base, staged.value) || Seen(private.value, staged.value)
      ensures reliable && QuietSince(commit) && r.Failed? ==> entries == left
      ensures reliable && QuietSince(commit) && r.Done? ==> base in left && entries == left - {base}
      ensures QuietSince(commit) && r.RollbackFailed? ==> faults(time)
      ensures old(Smooth()) ==>
                if base in old(entries) && MayUnlink(old(entries)[base], directory, expected) then r.Done? && entries == old(entries) - {base}
                else r.Failed? && entries == old(entries)
    {
      staged, unlinked, commit := None, false, time;
      Tick();
      if faults(time) {
        return Failed, staged, unlinked, commit;
      }
      ghost var before: Entries;
      var moved: bool;
      moved, before := MoveNoReplace(base, private.value);
      if !moved {
        return Failed, staged, unlinked, commit;
      }
      commit, staged := time, Some(before[base]);
      Staged(before, base, private.value);
      r, unlinked := FinishDelete(base, directory, expected);
    }

    /** Checks what was staged, then removes it or puts it back. */
    method FinishDelete(base: Name, directory: bool, expected: string) returns (r: Outcome, ghost unlinked: bool)
      requires Tracked() && committed && private.Some? && base != private.value && private.value in entries
      modifies this
      ensures committed && left == old(left)
      ensures unlinked ==> MayUnlink(old(entries)[private.value], directory, expected)
      ensures r.Done? ==> unlinked
      ensures !unlinked ==> Seen(base, old(entries)[private.value]) || Seen(private.value, old(entries)[private.value])
      ensures reliable && old(Quiet()) && base !in old(entries) && r.Failed? ==>
                entries == (old(entries) - {private.value})[base := old(entries)[private.value]]
      ensures reliable && old(Quiet()) && r.Done? ==> entries == old(entries) - {private.value}
      ensures old(Quiet()) && base !in old(entries) && r.RollbackFailed? ==> faults(time)
      ensures old(Smooth()) && base !in old(entries) ==>
                if MayUnlink(old(entries)[private.value], directory, expected) then r.Done? && entries == old(entries) - {private.value}
                else r.Failed? && entries == (old(entries) - {private.value})[base := old(entries)[private.value]]
    {
      unlinked := false;
      var good: bool;
      if directory {
        var entry := Stat(private.value);
        good := entry.Some? && entry.value.Folder?;
      } else {
        good := Verify(private.value, expected);
      }
      if !good {
        r := Restore(base);
        return;
      }
      Tick();
      if faults(time) {
        r := Restore(base);
        return;
      }
      r, unlinked := Remove(base, directory);
    }

    method Remove(base: Name, directory: bool) returns (r: Outcome, ghost unlinked: bool)
      requires Tracked() && committed && private.Some? && base != private.value && private.value in entries
      modifies this
      ensures committed && left == old(left)
      ensures unlinked && directory ==> old(entries)[private.value] == Folder(true)
      ensures r.Done? ==> unlinked
      ensures !unlinked ==> Seen(base, old(entries)[private.value]) || Seen(private.value, old(entries)[private.value])
      ensures reliable && old(Quiet()) && base !in old(entries) && r.Failed? ==>
                entries == (old(entries) - {private.value})[base := old(entries)[private.value]]
      ensures reliable && old(Quiet()) && r.Done? ==> entries == old(entries) - {private.value}
      ensures old(Quiet()) && base !in old(entries) && r.RollbackFailed? ==> faults(time)
      ensures old(Smooth()) && base !in old(entries) ==>
                if directory ==> old(entries)[private.value] == Folder(true) then r.Done? && entries == old(entries) - {private.value}
                else r.Failed? && entries == (old(entries) - {private.value})[base := old(entries)[private.value]]
    {
      unlinked := false;
      var removed: bool;
      if directory {
        removed := RemoveFolder(private.value);
      } else {
        removed := Unlink(private.value);
      }
      if !removed {
        r := Restore(base);
        return;
      }
      unlinked := true;
      var synced := Fsync();
      r := if synced then Done else Failed;
    }

    /** `secureDelete`: whatever others do to names other than the tombstone, a regular
        file is unlinked only if its contents are the expected ones, and an entry that was
        staged but not unlinked is still there under one of the two names. */
    method Delete(base: Name, expected: Option<string>, allowEmptyDir: bool)
      returns (r: Outcome, ghost staged: Option<Entry>, ghost unlinked: bool, ghost commit: nat)
      requires Tracked() && !committed && private.Some? && base != private.value && private.value !in entries
      modifies this
      ensures unlinked ==> staged.Some? && ((staged.value == Folder(true) && allowEmptyDir && expected.None?) ||
                                            (staged.value.File? && staged.value.links <= 1 && expected == Some(staged.value.content)))
      ensures r.Done? ==> unlinked
      ensures staged.Some? && !unlinked ==> Seen(base, staged.value) || Seen(private.value, staged.value)
      ensures reliable && QuietSince(commit) && r.Failed? ==> entries == left
      ensures reliable && QuietSince(commit) && r.Done? ==> base in left && entries == left - {base}
      ensures QuietSince(commit) && r.RollbackFailed? ==> faults(time)
      // If nobody else acts and no call fails, it deletes exactly what the caller may delete.
      ensures old(Smooth()) ==>
                if base in old(entries) && Deletable(old(entries)[base], expected, allowEmptyDir) then r.Done? && entries == old(entries) - {base}
                else r.Failed? && entries == old(entries)
    {
      staged, unlinked, commit := None, false, time;
      var entry := Stat(base);
      if entry.None? || entry.value.Symlink? {
        return Failed, staged, unlinked, commit;
      }
      if entry.value.Folder? {
        if expected.Some? || !allowEmptyDir {
          return Failed, staged, unlinked, commit;
        }
        Tick();
        if faults(time) {
          return Failed, staged, unlinked, commit;
        }
        r, staged, unlinked, commit := DeleteStaged(base, true, "");
        return;
      }
      if expected.None? {
        return Failed, staged, unlinked, commit;
      }
      var verified := Verify(base, expected.value);
      if !verified {
        return Failed, staged, unlinked, commit;
      }
      Tick();
      if faults(time) {
        return Failed, staged, unlinked, commit;
      }
      r, staged, unlinked, commit := DeleteStaged(base, false, expected.value);
    }

    // --------------------------------------------------------------------- move

    /** What the caller may move: a file named by its hash, to a free name if no hash is given for
        it, or over a file named by its hash if it may be overwritten. */
    ghost predicate Movable(es: Entries, source: Name, destination: Name, expectedSource: Option<string>, expectedDestination: Option<string>,
                            overwrite: bool) {
      source != destination && expectedSource.Some? && Matches(es, source, expectedSource.value) &&
      if destination !in es then expectedDestination.None?
      else overwrite && expectedDestination.Some? && Matches(es, destination, expectedDestination.value)
    }

    /** `secureMove`: if others act only before the commit rename, either exactly the
        expected source has arrived in place of nothing or of exactly the expected
        destination, or both names are as others left them. */
    method Move(source: Name, destination: Name, expectedSource: Option<string>, expectedDestination: Option<string>, overwrite: bool)
      returns (r: Outcome, ghost commit: nat)
      requires Tracked() && !committed && private.None?
      modifies this
      ensures reliable && QuietSince(commit) && r.Failed? ==> entries == left
      ensures reliable && QuietSince(commit) && r.Done? ==>
                expectedSource.Some? && Matches(left, source, expectedSource.value) && entries == (left - {source})[destination := left[source]] &&
                if expectedDestination.None? then destination !in left
                else overwrite && Matches(left, destination, expectedDestination.value)
      ensures QuietSince(commit) && r.RollbackFailed? ==> faults(time)
      // If nobody else acts and no call fails, it moves exactly what the caller may move.
      ensures old(Smooth()) ==>
                if Movable(old(entries), source, destination, expectedSource, expectedDestination, overwrite) then
                  r.Done? && entries == (old(entries) - {source})[destination := old(entries)[source]]
                else r.Failed? && entries == old(entries)
    {
      commit := time;
      if expectedSource.None? || source == destination {
        return Failed, commit;
      }
      var verified := Verify(source, expectedSource.value);
      if !verified {
        return Failed, commit;
      }
      var target := Stat(destination);
      if target.None? {
        if expectedDestination.Some? {
          return Failed, commit;
        }
      } else {
        if !target.value.File? {
          return Failed, commit;
        }
        if !overwrite || expectedDestination.None? {
          return Failed, commit;
        }
        verified := Verify(destination, expectedDestination.value);
        if !verified {
          return Failed, commit;
        }
      }
      Tick();
      if faults(time) {
        return Failed, commit;
      }
      if target.None? {
        r, commit := MoveToNothing(source, destination, expectedSource.value);
      } else {
        r, commit := MoveOver(source, destination, expectedSource.value, expectedDestination.value);
      }
    }

    /** The move to a free name: rename without replacing, verify, or rename back. */
    method MoveToNothing(source: Name, destination: Name, expected: string) returns (r: Outcome, ghost commit: nat)
      requires Tracked() && !committed && private.None? && source != destination
      modifies this
      ensures reliable && QuietSince(commit) && r.Failed? ==> entries == left
      ensures reliable && QuietSince(commit) && r.Done? ==>
                Matches(left, source, expected) && destination !in left && entries == (left - {source})[destination := left[source]]
      ensures QuietSince(commit) && r.RollbackFailed? ==> faults(time)
      ensures old(Smooth()) && Matches(old(entries), source, expected) && destination !in old(entries) ==>
                r.Done? && entries == (old(entries) - {source})[destination := old(entries)[source]]
    {
      commit := time;
      ghost var before: Entries;
      var moved: bool;
      moved, before := MoveNoReplace(source, destination);
      if !moved {
        return Failed, commit;
      }
      commit := time;
      Staged(before, source, destination);
      var verified := Verify(destination, expected);
      if !verified {
        var back: bool;
        back, before := MoveNoReplace(destination, source);
        if !back {
          return RollbackFailed, commit;
        }
        var synced := Fsync();
        synced := Fsync();
        return Failed, commit;
      }
      r := SyncBoth();
    }

    method SyncBoth() returns (r: Outcome)
      requires Tracked()
      modifies this
      ensures OnlyOthers() && !r.RollbackFailed? && (reliable ==> r.Done?) && (old(Smooth()) ==> r.Done?)
    {
      var synced := Fsync();
      if !synced {
        return Failed;
      }
      synced := Fsync();
      r := if synced then Done else Failed;
    }

    /** The move over an expected destination: exchange, verify both, unlink what was replaced, or exchange back. */
    method MoveOver(source: Name, destination: Name, expected: string, replaced: string) returns (r: Outcome, ghost commit: nat)
      requires Tracked() && !committed && private.None? && source != destination
      modifies this
      ensures reliable && QuietSince(commit) && r.Failed? ==> entries == left
      ensures reliable && QuietSince(commit) && r.Done? ==>
                Matches(left, source, expected) && Matches(left, destination, replaced) && entries == (left - {source})[destination := left[source]]
      ensures QuietSince(commit) && r.RollbackFailed? ==> faults(time)
      ensures old(Smooth()) && Matches(old(entries), source, expected) && Matches(old(entries), destination, replaced) ==>
                r.Done? && entries == (old(entries) - {source})[destination := old(entries)[source]]
    {
      commit := time;
      ghost var before: Entries;
      var swapped: bool;
      swapped, before := Exchange(source, destination);
      if !swapped {
        return Failed, commit;
      }
      commit := time;
      r := FinishMoveOver(source, destination, expected, replaced);
    }

    method FinishMoveOver(source: Name, destination: Name, expected: string, replaced: string) returns (r: Outcome)
      requires Tracked() && committed && private.None? && source != destination && source in entries && destination in entries
      modifies this
      ensures committed && left == old(left)
      ensures reliable && old(Quiet()) && r.Failed? ==>
                entries == old(entries)[source := old(entries)[destination]][destination := old(entries)[source]]
      ensures reliable && old(Quiet()) && r.Done? ==>
                Matches(old(entries), destination, expected) && Matches(old(entries), source, replaced) && entries == old(entries) - {source}
      ensures old(Quiet()) && r.RollbackFailed? ==> faults(time)
      ensures old(Smooth()) && Matches(old(entries), destination, expected) && Matches(old(entries), source, replaced) ==>
                r.Done? && entries == old(entries) - {source}
    {
      var arrived := Verify(destination, expected);
      if !arrived {
        r := ExchangeBack(source, destination);
        return;
      }
      var displaced := Verify(source, replaced);
      if !displaced {
        r := ExchangeBack(source, destination);
        return;
      }
      Tick();
      if faults(time) {
        r := ExchangeBack(source, destination);
        return;
      }
      var removed := Unlink(source);
      if !removed {
        r := ExchangeBack(source, destination);
        return;
      }
      r := SyncBoth();
    }

    method ExchangeBack(source: Name, destination: Name) returns (r: Outcome)
      requires Tracked() && committed && private.None? && source != destination
      modifies this
      ensures committed && left == old(left) && (r.Failed? || r.RollbackFailed?)
      ensures old(Quiet()) && r.Failed? ==>
                source in old(entries) && destination in old(entries) &&
                entries == old(entries)[source := old(entries)[destination]][destination := old(entries)[source]]
      ensures old(Quiet()) && r.RollbackFailed? ==> faults(time) || source !in old(entries) || destination !in old(entries)
    {
      ghost var before: Entries;
      var back: bool;
      back, before := Exchange(source, destination);
      if !back {
        return RollbackFailed;
      }
      var synced := Fsync();
      synced := Fsync();
      return Failed;
    }
  }

  /** Moving an entry aside and back changes nothing; moving it aside and dropping it removes it. */
  lemma Staged(before: Entries, a: Name, b: Name)
    requires a != b && a in before && b !in before
    ensures var after := (before - {a})[b := before[a]];
            (after - {b})[a := after[b]] == before && after - {b} == before - {a}
  {
  }

  /** Swapping two entries twice and dropping one is replacing the other by it. */
  lemma SwapAny(m: Entries, a: Name, b: Name)
    requires a != b && a in m && b in m
    ensures m[a := m[b]][b := m[a]] - {a} == (m - {a})[b := m[a]]
  {
  }

  lemma SwappedBack(before: Entries, private: Name, base: Name, left: Entries)
    requires private != base && private in before && base in before && left == before - {private}
    ensures var after := before[private := before[base]][base := before[private]];
            (after - {private})[base := after[private]] == left && after - {private} == left[base := before[private]]
  {
  }
}
