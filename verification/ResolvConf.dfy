/** The resolv.conf override: redirect, switch, disable, restore. */
module ResolvConf {
  import opened Bytes
  import opened Classifier

  /** File contents: the line the program writes, or anything else. */
  datatype Content = Nameserver(server: IpAddr) | Other(data: seq<Byte>)

  /** The two files, and what the program remembers. */
  datatype Resolv = Resolv(file: Option<Content>, backup: Option<Content>,
                           current: Option<IpAddr>, original: Option<Content>)

  /** An operation's result when the file system accepts `accepts` more writes: the new
      state, whether the operation succeeded, and the writes still accepted. */
  datatype Done = Done(state: Resolv, ok: bool, accepts: nat)

  function EnsuredBackup(r: Resolv, accepts: nat): Done {
    if r.original.Some? || r.file.None? then Done(r, true, accepts)
    else if accepts == 0 then Done(r, false, 0)
    else Done(r.(backup := r.file, original := r.file), true, accepts - 1)
  }

  /** Back up if not yet done, then write the nameserver line. */
  function Redirected(r: Resolv, server: IpAddr, accepts: nat): Done {
    var d := EnsuredBackup(r, accepts);
    if !d.ok then d
    else if d.accepts == 0 then Done(d.state, false, 0)
    else Done(d.state.(file := Some(Nameserver(server)), current := Some(server)), true, d.accepts - 1)
  }

  function Applied(r: Resolv, server: Option<IpAddr>, accepts: nat): Done {
    if server.None? then Done(r, true, accepts) else Redirected(r, server.value, accepts)
  }

  function Reloaded(r: Resolv, server: Option<IpAddr>, accepts: nat): Done {
    if server == r.current then Done(r, true, accepts)
    else if server.Some? then Redirected(r, server.value, accepts)
    else if r.original.None? then Done(r.(current := None), true, accepts)
    else if accepts == 0 then Done(r, false, 0)
    else Done(r.(file := r.original, backup := None, current := None), true, accepts - 1)
  }

  function Restored(r: Resolv, accepts: nat): Done {
    if r.current.None? then Done(r, true, accepts)
    else if r.original.Some? && accepts > 0 then
      Done(r.(file := r.original, backup := None, current := None), true, accepts - 1)
    else Done(r.(current := None), true, accepts)
  }

  class Configurator {
    var file: Option<Content>
    var backup: Option<Content>
    var accepts: nat
    var current: Option<IpAddr>
    var original: Option<Content>

    function State(): Resolv reads this { Resolv(file, backup, current, original) }

    function Result(ok: bool): Done reads this { Done(State(), ok, accepts) }

    constructor (file: Option<Content>, backup: Option<Content>, accepts: nat)
      ensures State() == Resolv(file, backup, None, None) && this.accepts == accepts
    {
      this.file, this.backup, this.accepts := file, backup, accepts;
      current, original := None, None;
    }

    /** `fs::write` on the file itself; a failed write leaves it as it was. */
    method WriteFile(content: Content) returns (ok: bool)
      modifies this`file, this`accepts
      ensures ok == (old(accepts) > 0)
      ensures file == (if ok then Some(content) else old(file))
      ensures accepts == (if ok then old(accepts) - 1 else old(accepts))
    {
      ok := accepts > 0;
      if ok { file, accepts := Some(content), accepts - 1; }
    }

    method EnsureBackup() returns (ok: bool)
      modifies this
      ensures Result(ok) == EnsuredBackup(old(State()), old(accepts))
    {
      if original.None? {
        var saved := file;
        if saved.Some? {
          if accepts == 0 { return false; }
          backup, accepts := saved, accepts - 1;
        }
        original := saved;
      }
      ok := true;
    }

    method Apply(server: Option<IpAddr>) returns (ok: bool)
      modifies this
      ensures Result(ok) == Applied(old(State()), server, old(accepts))
    {
      if server.None? { return true; }
      ok := EnsureBackup();
      if !ok { return; }
      ok := WriteFile(Nameserver(server.value));
      if !ok { return; }
      current := server;
    }

    method Reload(server: Option<IpAddr>) returns (ok: bool)
      modifies this
      ensures Result(ok) == Reloaded(old(State()), server, old(accepts))
    {
      if server == current { return true; }
      if server.Some? {
        ok := EnsureBackup();
        if !ok { return; }
        ok := WriteFile(Nameserver(server.value));
        if !ok { return; }
      } else if original.Some? {
        ok := WriteFile(original.value);
        if !ok { return; }
        backup := None;
      }
      current := server;
      ok := true;
    }

    method Restore()
      modifies this
      ensures Result(true) == Restored(old(State()), old(accepts))
    {
      if current.None? { return; }
      if original.Some? {
        var ok := WriteFile(original.value);
        if ok { backup := None; }
      }
      current := None;
    }
  }

  // ---- Every sequence of apply and reload calls ----

  /** A call, and how many writes the file system accepts during it. */
  datatype Call = Apply(server: Option<IpAddr>, accepts: nat) | Reload(server: Option<IpAddr>, accepts: nat)

  function Called(r: Resolv, c: Call): Resolv {
    match c
    case Apply(server, accepts) => Applied(r, server, accepts).state
    case Reload(server, accepts) => Reloaded(r, server, accepts).state
  }

  function After(r: Resolv, calls: seq<Call>): Resolv
    decreases |calls|
  {
    if calls == [] then r else After(Called(r, calls[0]), calls[1..])
  }

  function Start(file: Option<Content>, backup: Option<Content>): Resolv { Resolv(file, backup, None, None) }

  /** The file held `initial`: what is saved is that, and the file is that or the line of
      the current override. */
  predicate Faithful(r: Resolv, initial: Content) {
    && (r.original.Some? ==> r.original == Some(initial))
    && (r.current.Some? ==> r.original.Some?)
    && r.file == Some(if r.current.Some? then Nameserver(r.current.value) else initial)
  }

  lemma {:induction false} FaithfulAfter(r: Resolv, calls: seq<Call>, initial: Content)
    requires Faithful(r, initial)
    ensures Faithful(After(r, calls), initial)
    decreases |calls|
  {
    if calls != [] { FaithfulAfter(Called(r, calls[0]), calls[1..], initial); }
  }

  /** An override exists while there was no file to begin with: some file is there for good. */
  predicate Leftover(r: Resolv) { r.current.Some? ==> r.file.Some? }

  lemma {:induction false} LeftoverAfter(r: Resolv, calls: seq<Call>)
    requires Leftover(r)
    ensures Leftover(After(r, calls))
    decreases |calls|
  {
    if calls != [] { LeftoverAfter(Called(r, calls[0]), calls[1..]); }
  }

  /** Restoration: whatever calls were made and whichever of their writes failed, a saved
      original is the initial content, and a restore whose write succeeds leaves the file
      as it was at the start. With an override in force that is so exactly when the file
      existed at the start. Afterwards no override is in force, and if the original was
      written back the backup file is gone. */
  lemma RestoreRestores(file: Option<Content>, backup: Option<Content>, calls: seq<Call>, accepts: nat)
    requires accepts > 0
    ensures var r := After(Start(file, backup), calls);
            && (file.Some? ==> (r.original.Some? ==> r.original == file) && Restored(r, accepts).state.file == file)
            && (r.current.Some? ==> (Restored(r, accepts).state.file == file <==> file.Some?))
            && Restored(r, accepts).state.current == None
            && (r.current.Some? && file.Some? ==> Restored(r, accepts).state.backup == None)
            && (r.current.None? ==> Restored(r, accepts).state == r)
  {
    if file.Some? {
      FaithfulAfter(Start(file, backup), calls, file.value);
    } else {
      LeftoverAfter(Start(file, backup), calls);
    }
  }

  // ---- The backup on disk ----

  /** The call turns an override off. */
  predicate TurnsOff(r: Resolv, c: Call) {
    c.Reload? && c.server.None? && r.current.Some? && r.original.Some? && c.accepts > 0
  }

  predicate TurnedOff(r: Resolv, calls: seq<Call>)
    decreases |calls|
  {
    calls != [] && (TurnsOff(r, calls[0]) || TurnedOff(Called(r, calls[0]), calls[1..]))
  }

  lemma {:induction false} BackupGone(r: Resolv, calls: seq<Call>)
    requires r.original.Some? && r.backup.None?
    ensures After(r, calls).backup.None?
    decreases |calls|
  {
    if calls != [] { BackupGone(Called(r, calls[0]), calls[1..]); }
  }

  lemma {:induction false} BackupAfter(r: Resolv, calls: seq<Call>, initial: Content)
    requires Faithful(r, initial) && (r.original.Some? ==> r.backup == Some(initial))
    ensures After(r, calls).original.Some? ==>
              (After(r, calls).backup == Some(initial) <==> !TurnedOff(r, calls))
    decreases |calls|
  {
    if calls != [] {
      var d := Called(r, calls[0]);
      if TurnsOff(r, calls[0]) { BackupGone(d, calls[1..]); } else { BackupAfter(d, calls[1..], initial); }
    }
  }

  /** While an override is in force the backup file holds the original content exactly
      when no override has been turned off before: turning one off deletes the backup and
      turning it on again does not write it again. */
  lemma BackupOnDisk(initial: Content, backup: Option<Content>, calls: seq<Call>)
    requires After(Start(Some(initial), backup), calls).current.Some?
    ensures After(Start(Some(initial), backup), calls).backup == Some(initial)
       <==> !TurnedOff(Start(Some(initial), backup), calls)
  {
    FaithfulAfter(Start(Some(initial), backup), calls, initial);
    BackupAfter(Start(Some(initial), backup), calls, initial);
  }

  /** On, off and on again: the override is in force and there is no backup file. */
  lemma BackupMissing(initial: Content, backup: Option<Content>, server: IpAddr)
    ensures var calls := [Apply(Some(server), 2), Reload(None, 1), Reload(Some(server), 1)];
            var r := After(Start(Some(initial), backup), calls);
            r.current == Some(server) && r.backup == None && TurnedOff(Start(Some(initial), backup), calls)
  {
    var calls := [Apply(Some(server), 2), Reload(None, 1), Reload(Some(server), 1)];
    var r0 := Start(Some(initial), backup);
    var r1 := Called(r0, calls[0]);
    var r2 := Called(r1, calls[1]);
    assert calls[1..][0] == calls[1] && calls[1..][1..] == [calls[2]] && [calls[2]][1..] == [];
    assert r1 == Resolv(Some(Nameserver(server)), Some(initial), Some(server), Some(initial));
    assert After(r0, calls) == After(r1, calls[1..]) == After(r2, [calls[2]]) == Called(r2, calls[2]);
    assert TurnsOff(r1, calls[1]) && TurnedOff(r1, calls[1..]);
  }

  /** No file at the start: restore leaves the override's line behind. */
  lemma AbsentFileStays(backup: Option<Content>, server: IpAddr, accepts: nat)
    ensures var r := After(Start(None, backup), [Apply(Some(server), 1)]);
            r.current == Some(server) && Restored(r, accepts).state.file == Some(Nameserver(server))
  {
    var calls := [Apply(Some(server), 1)];
    assert calls[1..] == [];
    assert After(Start(None, backup), calls) == Called(Start(None, backup), calls[0]);
  }
}
