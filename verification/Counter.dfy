/** The persisted resourceVersion counter. */
module Counter {
  import opened Options
  import opened Decimal

  // The part of the root directory the counter uses: the .rv file and the
  // temporary file beside it.
  class RootDir {
    var rvFile: Option<string>
    var rvTmp: Option<string>

    constructor (rvFile: Option<string>, rvTmp: Option<string>)
      ensures this.rvFile == rvFile && this.rvTmp == rvTmp
    {
      this.rvFile, this.rvTmp := rvFile, rvTmp;
    }
  }

  // The system call of persist that fails.
  datatype Fault = NoFault | CreateFails | WriteFails | SyncFails | CloseFails | RenameFails

  // The value after c.rv++ on a uint64.
  function Bumped(rv: nat): (next: nat)
    requires rv <= MAX_UINT64
    ensures next <= MAX_UINT64
    ensures next == if rv == 0xFFFF_FFFF_FFFF_FFFF then 0 else rv + 1
  {
    (rv + 1) % (MAX_UINT64 + 1)
  }

  class Counter {
    const root: RootDir
    var rv: nat

    // The value in memory is the value a restart would load.
    ghost predicate Valid()
      reads this, root
    {
      1 <= rv <= MAX_UINT64 && LoadRV(root.rvFile) == Some(rv)
    }

    constructor (root: RootDir, rv: nat)
      requires 1 <= rv <= MAX_UINT64 && LoadRV(root.rvFile) == Some(rv)
      ensures this.root == root && this.rv == rv && Valid()
    {
      this.root, this.rv := root, rv;
    }

    // Writes rv through the temporary file; only a completed rename touches .rv.
    method Persist(v: nat, fault: Fault) returns (ok: bool)
      modifies root
      ensures ok <==> fault == NoFault
      ensures root.rvFile == if ok then Some(FormatUint(v)) else old(root.rvFile)
      ensures fault == CreateFails ==> root.rvTmp == old(root.rvTmp)
      ensures fault == RenameFails ==> root.rvTmp == Some(FormatUint(v))
      ensures fault != CreateFails && fault != RenameFails ==> root.rvTmp == None
    {
      if fault == CreateFails { return false; }
      root.rvTmp := Some("");
      if fault == WriteFails { root.rvTmp := None; return false; }
      root.rvTmp := Some(FormatUint(v));
      if fault == SyncFails { root.rvTmp := None; return false; }
      if fault == CloseFails { root.rvTmp := None; return false; }
      if fault == RenameFails { return false; }
      root.rvFile, root.rvTmp := root.rvTmp, None;
      ok := true;
    }

    // Issues the next version, or rolls back and issues nothing.
    method Next(fault: Fault) returns (issued: Option<nat>)
      requires Valid()
      modifies this, root
      ensures old(rv) < MAX_UINT64 ==> Valid()
      ensures fault == NoFault ==> issued == Some(rv) && rv == Bumped(old(rv))
      ensures fault != NoFault ==> issued == None && rv == old(rv) && root.rvFile == old(root.rvFile)
    {
      rv := Bumped(rv);
      var ok := Persist(rv, fault);
      if !ok {
        rv := (rv + MAX_UINT64) % (MAX_UINT64 + 1);
        return None;
      }
      LoadFormatted(rv);
      issued := Some(rv);
    }

    method Current() returns (v: nat)
      requires Valid()
      ensures v == rv && LoadRV(root.rvFile) == Some(v)
    {
      v := rv;
    }
  }

  // NewCounter: the counter of a directory, or none when .rv is not a number or cannot be
  // read. A file that is not there can.
  method Open(root: RootDir, readable: bool) returns (c: Option<Counter>)
    ensures c.Some? <==> readable && LoadRV(root.rvFile).Some?
    ensures c.Some? ==> c.value.root == root && c.value.Valid() && fresh(c.value)
    ensures readable && root.rvFile.None? ==> c.Some? && c.value.rv == 1
    ensures forall n: nat :: readable && root.rvFile == Some(FormatUint(n)) && n <= MAX_UINT64 ==>
              c.Some? && c.value.rv == if n == 0 then 1 else n
  {
    if !readable {
      return None;
    }
    FormattedLoads(root.rvFile);
    var loaded := LoadRV(root.rvFile);
    match loaded
    case None => c := None;
    case Some(rv) =>
      LoadInRange(root.rvFile);
      var counter := new Counter(root, rv);
      c := Some(counter);
  }

  lemma FormattedLoads(file: Option<string>)
    ensures forall n: nat :: n <= MAX_UINT64 && file == Some(FormatUint(n)) ==> LoadRV(file) == Some(if n == 0 then 1 else n)
  {
    forall n: nat | n <= MAX_UINT64 && file == Some(FormatUint(n)) ensures LoadRV(file) == Some(if n == 0 then 1 else n) {
      LoadFormatted(n);
    }
  }

  lemma LoadInRange(file: Option<string>)
    ensures LoadRV(file).Some? ==> 1 <= LoadRV(file).value <= MAX_UINT64
  {
  }

  // Numbers keep growing across restarts exactly below the top of the range: at the
  // top the counter wraps to zero, and a restart then reissues from one.
  lemma GrowsAcrossRestart(rv: nat)
    requires 1 <= rv <= MAX_UINT64
    ensures LoadRV(Some(FormatUint(Bumped(rv)))).Some?
    ensures LoadRV(Some(FormatUint(Bumped(rv)))).value > rv <==> rv < MAX_UINT64
    ensures rv == MAX_UINT64 ==> LoadRV(Some(FormatUint(Bumped(rv)))) == Some(1)
  {
    LoadFormatted(Bumped(rv));
  }
}
