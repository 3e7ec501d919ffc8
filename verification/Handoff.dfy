/** The on-disk record of where RC is active: session file to owning process (`rc-handoff.json`). */
module Handoff {
  type File = string
  type Pid = nat
  type Entries = map<File, Pid>

  function MarkEntry(m: Entries, file: File, me: Pid): Entries { m[file := me] }

  /** The entry's owner still runs; the asking process itself always does. */
  predicate LiveEntry(m: Entries, file: File, me: Pid, alive: set<Pid>) {
    file in m && (m[file] == me || m[file] in alive)
  }

  /** Asking for an entry drops it if its owner is gone. */
  function PruneEntry(m: Entries, file: File, me: Pid, alive: set<Pid>): Entries {
    if file in m && !LiveEntry(m, file, me, alive) then m - {file} else m
  }

  function DropEntry(m: Entries, file: File): Entries { m - {file} }

  class HandoffFile {
    var entries: Entries

    constructor ()
      ensures entries == map[]
    {
      entries := map[];
    }

    method MarkHandoff(file: File, me: Pid)
      modifies this
      ensures entries == MarkEntry(old(entries), file, me)
    {
      var m := entries;
      m := m[file := me];
      entries := m;
    }

    method HasHandoff(file: File, me: Pid, alive: set<Pid>) returns (has: bool)
      modifies this
      ensures has == LiveEntry(old(entries), file, me, alive)
      ensures entries == PruneEntry(old(entries), file, me, alive)
    {
      var m := entries;
      if file !in m { return false; }
      if m[file] == me || m[file] in alive { return true; }
      m := m - {file};
      entries := m;
      return false;
    }

    method DropHandoff(file: File)
      modifies this
      ensures entries == DropEntry(old(entries), file)
    {
      var m := entries;
      if file !in m {
        assert m - {file} == m;
        return;
      }
      m := m - {file};
      entries := m;
    }
  }
}
