/** What the driver's files hold, and what a restart reads back from the state file. */
module StateFile {
  import opened Types
  import opened Names

  /** A CDI spec file: its kind and its devices; container edits are an opaque value. */
  datatype CdiDevice = CdiDevice(name: string, edits: string)
  datatype CdiSpec = CdiSpec(kind: string, devices: seq<CdiDevice>)

  datatype Option<+T> = None | Some(value: T)

  /** The contents of a file. `PreparedJson(None)` is a state document whose `prepared` member is null or absent;
      `Bytes` is anything that neither codec accepts, a torn write included. */
  datatype Content =
    | PreparedJson(prepared: Option<Ledger>)
    | Spec(spec: CdiSpec)
    | Bytes(raw: string)

  /** The ledger a state file stands for: an absent, empty or corrupt file means a fresh start. */
  function Decoded(file: Option<Content>): Ledger {
    match file
    case Some(PreparedJson(Some(ledger))) => ledger
    case _ => map[]
  }

  /** The ledger a restart starts from. */
  function Restored(files: map<string, Content>): Ledger {
    Decoded(if STATE_NAME in files then Some(files[STATE_NAME]) else None)
  }
}

/** Saving the ledger and reading it back. */
module Persistence {
  import opened Types
  import opened Names
  import opened StateFile
  import opened Storage

  /** The contents of a regular file, if there is one of that name. */
  function FileAt(entries: map<string, Entry>, name: string): Option<Content> {
    if name in entries && entries[name].File? then Some(entries[name].content) else None
  }

  /**
   savePreparedState: the state file is replaced as a whole or not at all; if not, the temporary file could not be
   written, or it holds the whole ledger.
   */
  method SavePreparedState(layout: Layout, dir: Directory, prepared: Ledger) returns (ok: bool)
    requires layout.state != layout.tmp
    modifies dir
    ensures dir.OnlyTouches({layout.state, layout.tmp})
    ensures ok ==> FileAt(dir.entries, layout.state) == Some(PreparedJson(Some(prepared))) && layout.tmp !in dir.entries
    ensures !ok ==> FileAt(dir.entries, layout.state) == FileAt(old(dir.entries), layout.state)
    ensures !ok ==>
      layout.tmp in dir.residue || FileAt(dir.entries, layout.tmp) == Some(PreparedJson(Some(prepared)))
    ensures dir.Counted() && (ok <==> dir.failures == old(dir.failures))
  {
    ok := dir.Write(layout.tmp, PreparedJson(Some(prepared)));
    if ok {
      ok := dir.Rename(layout.tmp, layout.state);
    }
  }

  /** loadPreparedState; None when the file is there and cannot be read. */
  method LoadPreparedState(layout: Layout, dir: Directory) returns (r: Option<Ledger>)
    modifies dir`failures
    ensures r.Some? ==> r.value == Decoded(FileAt(dir.entries, layout.state))
    ensures r.None? ==> layout.state in dir.entries
    ensures dir.failures >= old(dir.failures) && (r.None? <==> dir.failures > old(dir.failures))
  {
    if layout.state !in dir.entries {
      return Some(map[]);
    }
    var content := dir.ReadFile(layout.state);
    if content.None? {
      return None;
    }
    match content.value
    case PreparedJson(Some(ledger)) => return Some(ledger);
    case _ => return Some(map[]);
  }
}
