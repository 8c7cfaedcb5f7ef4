/** A directory of the node's file system. Every call may fail. */
module Storage {
  import opened StateFile

  datatype Entry = File(content: Content) | Dir

  datatype Removal = Removed | Missing | Refused

  /** A seq that lists each element of the set once. */
  ghost predicate Lists<T(!new)>(s: seq<T>, all: set<T>) {
    (forall x :: x in s <==> x in all) && forall a, b | 0 <= a < b < |s| :: s[a] != s[b]
  }

  lemma ListsSnoc<T(!new)>(s: seq<T>, all: set<T>, x: T)
    requires Lists(s, all) && x !in all
    ensures Lists(s + [x], all + {x})
  {
  }

  /** The elements in an arbitrary order. */
  method Enumerate<T(==,!new)>(all: set<T>) returns (s: seq<T>)
    ensures Lists(s, all)
  {
    s := [];
    var rest := all;
    while rest != {}
      invariant rest <= all && Lists(s, all - rest)
      decreases |rest|
    {
      var x :| x in rest;
      s, rest := s + [x], rest - {x};
    }
  }

  /** Entries outside `names` agree. */
  ghost predicate Touched(e: map<string, Entry>, r: set<string>, e': map<string, Entry>, r': set<string>,
                          names: set<string>) {
    && (forall n | n !in names :: n in e' <==> n in e)
    && (forall n | n !in names && n in e' :: e'[n] == e[n])
    && (forall n | n !in names :: n in r' <==> n in r)
  }

  class Directory {
    var entries: map<string, Entry>

    /** Names whose last write or removal failed, so that what is there may be neither the old nor the new state. */
    ghost var residue: set<string>

    /** How many calls have failed. */
    ghost var failures: nat

    /**
     How many failed calls have left a name as it should not be: writes that were torn, and removals that were refused.
     */
    ghost var lapses: nat

    /** Failures are only counted up, and nothing lapses without one. */
    twostate predicate Counted()
      reads this
    {
      failures >= old(failures) && lapses >= old(lapses) && (failures == old(failures) ==> lapses == old(lapses))
    }

    /** Every call that has failed has lapsed. */
    twostate predicate OnlyLapsed()
      reads this
    {
      failures - old(failures) == lapses - old(lapses)
    }

    /** Entries outside `names` are as they were. */
    twostate predicate OnlyTouches(names: set<string>)
      reads this
    {
      Touched(old(entries), old(residue), entries, residue, names)
    }

    twostate predicate KeepsDirs()
      reads this
    {
      forall n | n in old(entries) && old(entries)[n].Dir? :: n in entries && entries[n].Dir?
    }

    /** Entries have only been removed, and only under `names`. */
    twostate predicate OnlyRemoves(names: set<string>)
      reads this
    {
      && (forall n | n in entries :: n in old(entries) && entries[n] == old(entries)[n])
      && OnlyTouches(names)
    }

    method MkdirAll() returns (ok: bool)
      modifies this`failures
      ensures failures == old(failures) + (if ok then 0 else 1)
    {
      ok := *;
      if !ok {
        failures := failures + 1;
      }
    }

    /** os.WriteFile. A failed write may leave anything under that name, and cannot replace a directory. */
    method Write(name: string, content: Content) returns (ok: bool)
      modifies this
      ensures ok ==> entries == old(entries)[name := File(content)] && residue == old(residue) - {name}
      ensures failures == old(failures) + (if ok then 0 else 1)
      ensures Counted() && (!ok && lapses == old(lapses) ==> entries == old(entries))
      ensures forall n | n in old(entries) :: n in entries
      ensures OnlyTouches({name})
      ensures !ok ==> residue == old(residue) + {name}
      ensures name in old(entries) && old(entries)[name].Dir? ==> !ok && entries == old(entries)
    {
      var passes, torn, junk := *, *, *;
      ok := passes && (name in entries ==> entries[name].File?);
      if ok {
        entries, residue := entries[name := File(content)], residue - {name};
        return;
      }
      failures, residue := failures + 1, residue + {name};
      if torn && (name in entries ==> entries[name].File?) {
        entries, lapses := entries[name := File(Bytes(junk))], lapses + 1;
      }
    }

    /** os.ReadFile */
    method ReadFile(name: string) returns (r: Option<Content>)
      modifies this`failures
      ensures r.Some? ==> name in entries && entries[name] == File(r.value)
      ensures r.Some? <==> failures == old(failures)
      ensures failures >= old(failures)
    {
      var passes := *;
      if passes && name in entries && entries[name].File? {
        return Some(entries[name].content);
      }
      failures := failures + 1;
      return None;
    }

    /** os.Remove */
    method Remove(name: string) returns (r: Removal)
      modifies this
      ensures r.Missing? <==> name !in old(entries)
      ensures failures == old(failures) + (if r.Refused? then 1 else 0)
      ensures lapses == old(lapses) + (if r.Refused? then 1 else 0)
      ensures r.Refused? ==> entries == old(entries) && residue == old(residue) + {name}
      ensures !r.Refused? ==> entries == old(entries) - {name} && residue == old(residue) - {name}
    {
      var passes := *;
      if name !in entries {
        residue := residue - {name};
        return Missing;
      }
      if passes {
        entries, residue := entries - {name}, residue - {name};
        return Removed;
      }
      residue, failures, lapses := residue + {name}, failures + 1, lapses + 1;
      return Refused;
    }

    /** os.Rename replaces the target in one step or not at all. */
    method Rename(from: string, to: string) returns (ok: bool)
      modifies this
      ensures ok ==> from in old(entries) && old(entries)[from].File?
                     && entries == (old(entries) - {from})[to := old(entries)[from]]
      ensures !ok ==> entries == old(entries)
      ensures ok <==> failures == old(failures)
      ensures Counted() && residue == old(residue) && lapses == old(lapses)
    {
      var passes := *;
      ok := passes && from in entries && entries[from].File? && (to in entries ==> entries[to].File?);
      if ok {
        entries := (entries - {from})[to := entries[from]];
      } else {
        failures := failures + 1;
      }
    }

    /** os.ReadDir, in an arbitrary order. */
    method ReadDir() returns (ok: bool, names: seq<string>)
      modifies this`failures
      ensures ok ==> Lists(names, entries.Keys)
      ensures failures == old(failures) + (if ok then 0 else 1)
    {
      ok := *;
      names := Enumerate(entries.Keys);
      if !ok {
        failures := failures + 1;
      }
    }
  }
}
