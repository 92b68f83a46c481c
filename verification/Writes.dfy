/** Writing a file so that its content is the old one or the new one at any time. */
module Writes {
  import opened Layout
  import opened Options
  import opened Paths
  import opened Tree

  datatype WriteFault = NoFault | MkdirFails | CreateFails | WriteFails | SyncFails | CloseFails | RenameFails

  // The changes of a write to one address. A write that fails may leave any text behind.
  predicate ChangesOnly(changes: seq<Change>, a: Address) {
    forall c :: c in changes ==>
      !OnVersion(c) && !c.RemoveFile? && c.a == a
  }

  // The temporary file takes the place of the file only when it holds all the data.
  predicate RenamesWhole(changes: seq<Change>, a: Address, data: string) {
    forall i :: 0 <= i < |changes| && changes[i].RenameTmp? ==> i > 0 && changes[i - 1] == WriteTmp(a, data)
  }

  function AppliedAll(fs: FS, changes: seq<Change>): FS {
    if changes == [] then fs else Applied(AppliedAll(fs, changes[..|changes| - 1]), changes[|changes| - 1])
  }

  function Content(fs: FS, p: Path): Option<string> {
    if p in fs.files then Some(fs.files[p]) else None
  }

  class FileTree {
    var fs: FS
    // Every change so far.
    var changes: seq<Change>
    ghost const start: FS

    ghost predicate Valid()
      reads this
    {
      fs == AppliedAll(start, changes)
    }

    constructor (fs: FS)
      ensures Valid() && this.fs == fs && changes == []
    {
      this.fs, changes, start := fs, [], fs;
    }

    method Change(c: Change)
      requires Valid()
      modifies this
      ensures Valid() && fs == Applied(old(fs), c) && changes == old(changes) + [c]
    {
      fs, changes := Applied(fs, c), changes + [c];
      assert changes[..|changes| - 1] == old(changes);
    }

    // The part of atomicWrite on the temporary file, once that was created.
    method FillTmp(a: Address, data: string, fault: WriteFault) returns (ok: bool, ghost attempt: seq<Change>)
      requires Valid()
      modifies this
      ensures ok <==> !(fault.WriteFails? || fault.SyncFails? || fault.CloseFails?)
      ensures Valid() && changes == old(changes) + attempt
      ensures if ok then attempt == [WriteTmp(a, data)]
              else |attempt| == 2 && attempt[0].WriteTmp? && attempt[0].a == a && attempt[1] == RemoveTmp(a)
                   && (!fault.WriteFails? ==> attempt[0].data == data)
    {
      if fault == WriteFails {
        var partial: string := *;
        Change(WriteTmp(a, partial));
        Change(RemoveTmp(a));
        return false, [WriteTmp(a, partial), RemoveTmp(a)];
      }
      Change(WriteTmp(a, data));
      if fault == SyncFails || fault == CloseFails {
        Change(RemoveTmp(a));
        return false, [WriteTmp(a, data), RemoveTmp(a)];
      }
      return true, [WriteTmp(a, data)];
    }

    // atomicWrite.
    method AtomicWrite(a: Address, data: string, fault: WriteFault) returns (ok: bool, ghost attempt: seq<Change>)
      requires Valid()
      modifies this
      ensures ok <==> fault == NoFault
      ensures Valid() && changes == old(changes) + attempt && Attempts(a, data, fault, attempt)
    {
      if fault == MkdirFails {
        return false, [];
      }
      Change(MakeDir(a));
      if fault == CreateFails {
        return false, [MakeDir(a)];
      }
      Change(WriteTmp(a, ""));
      ghost var filled;
      ok, filled := FillTmp(a, data, fault);
      attempt := [MakeDir(a), WriteTmp(a, "")] + filled;
      if !ok || fault == RenameFails {
        return false, attempt;
      }
      Change(RenameTmp(a));
      attempt := attempt + [RenameTmp(a)];
    }
  }

  // What each fault leaves of the changes: the temporary file is removed again unless it
  // was never made or could not be renamed.
  predicate Attempts(a: Address, data: string, fault: WriteFault, changes: seq<Change>) {
    var begun := [MakeDir(a), WriteTmp(a, "")];
    match fault
    case MkdirFails => changes == []
    case CreateFails => changes == [MakeDir(a)]
    case WriteFails =>
      |changes| == 4 && changes[..2] == begun && changes[2].WriteTmp? && changes[2].a == a && changes[3] == RemoveTmp(a)
    case SyncFails => changes == begun + [WriteTmp(a, data), RemoveTmp(a)]
    case CloseFails => changes == begun + [WriteTmp(a, data), RemoveTmp(a)]
    case RenameFails => changes == begun + [WriteTmp(a, data)]
    case NoFault => changes == begun + [WriteTmp(a, data), RenameTmp(a)]
  }

  lemma AttemptsSafe(a: Address, data: string, fault: WriteFault, changes: seq<Change>)
    requires Attempts(a, data, fault, changes)
    ensures ChangesOnly(changes, a) && RenamesWhole(changes, a, data)
  {
    if fault == WriteFails {
      assert changes == changes[..2] + [changes[2], changes[3]];
    }
  }

  lemma OwnPaths(a: Address)
    ensures TmpParts(a) != PathParts(a)
  {
    var p := PathParts(a);
    assert TmpParts(a)[|p| - 1] == p[|p| - 1] + ".tmp";
  }

  // Whatever part of the changes of a write has been made, the file has its old content,
  // or, once the last is made, the data; no other file but the temporary one is touched.
  lemma {:induction false} OldOrNew(fs: FS, changes: seq<Change>, a: Address, data: string, n: nat)
    requires ChangesOnly(changes, a) && RenamesWhole(changes, a, data) && n <= |changes|
    ensures var now := AppliedAll(fs, changes[..n]);
            && (Content(now, PathParts(a)) == Content(fs, PathParts(a)) || Content(now, PathParts(a)) == Some(data))
            && (n > 0 && changes[n - 1].RenameTmp? ==> Content(now, PathParts(a)) == Some(data))
            && forall p :: p != PathParts(a) && p != TmpParts(a) ==> Content(now, p) == Content(fs, p)
  {
    OwnPaths(a);
    if n > 0 {
      OldOrNew(fs, changes, a, data, n - 1);
      assert changes[..n][..n - 1] == changes[..n - 1];
      if changes[n - 1].RenameTmp? {
        assert changes[..n - 1][..n - 2] == changes[..n - 2];
        assert changes[..n - 1][n - 2] == WriteTmp(a, data);
        assert AppliedAll(fs, changes[..n - 1]) == Applied(AppliedAll(fs, changes[..n - 2]), WriteTmp(a, data));
      }
      assert changes[n - 1] in changes;
    }
  }

  // So a write that is interrupted after any number of its changes, or fails, leaves the
  // file whole, and one that ends well leaves the data.
  lemma WriteIsAtomic(fs: FS, a: Address, data: string, fault: WriteFault, changes: seq<Change>, n: nat)
    requires Attempts(a, data, fault, changes) && n <= |changes|
    ensures var now := Content(AppliedAll(fs, changes[..n]), PathParts(a));
            && (now == Content(fs, PathParts(a)) || now == Some(data))
            && (fault == NoFault && n == |changes| ==> now == Some(data))
            && (fault != NoFault ==> now == Content(fs, PathParts(a)))
  {
    AttemptsSafe(a, data, fault, changes);
    OldOrNew(fs, changes, a, data, n);
    if fault != NoFault {
      NeverRenamed(fs, changes, a, n);
    }
  }

  lemma {:induction false} NeverRenamed(fs: FS, changes: seq<Change>, a: Address, n: nat)
    requires ChangesOnly(changes, a) && n <= |changes| && forall c :: c in changes ==> !c.RenameTmp?
    ensures Content(AppliedAll(fs, changes[..n]), PathParts(a)) == Content(fs, PathParts(a))
  {
    OwnPaths(a);
    if n > 0 {
      NeverRenamed(fs, changes, a, n - 1);
      assert changes[..n][..n - 1] == changes[..n - 1] && changes[n - 1] in changes;
    }
  }
}
