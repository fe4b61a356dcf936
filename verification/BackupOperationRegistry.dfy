/** The registry object over the operation store: serialized mutations, the file behind it, and its first read. */
module BackupOperationRegistry {
  import opened Common
  import opened BackupOperation
  import opened BackupStore
  import opened BackupStoreRuns

  /** The file may be unreadable as a store: init then fails and every call after it is refused. */
  datatype RegistryError = Refused(error: OperationError) | StoreInvalid

  class Registry {
    var state: Store
    var initialized: bool
    var disk: Disk

    constructor (disk: Disk)
      ensures state == [] && !initialized && this.disk == disk
    {
      state, initialized, this.disk := [], false, disk;
    }

    /** What the registry answers from once its first read is done. */
    ghost function Contents(): Option<Store>
      reads this
    {
      if initialized then Some(state) else if disk.file.None? then Some(state) else Recovered(disk)
    }

    /** Before the first read memory is empty; after it memory and file agree. */
    ghost predicate Valid()
      reads this
    {
      && (initialized ==> Recovered(disk) == Some(state))
      && (!initialized ==> state == [])
    }

    method Init() returns (ok: bool)
      requires Valid()
      modifies this`state, this`initialized
      ensures Valid() && ok == (old(Recovered(disk)).Some?)
      ensures ok ==> initialized && Some(state) == old(Contents())
      ensures !ok ==> !initialized && state == old(state)
    {
      if initialized { return true; }
      if disk.file.Some? {
        var store := NormalizeStore(disk.file.value);
        if store.None? { return false; }
        state := store.value;
      }
      initialized := true;
      ok := true;
    }

    /** Write the temporary file, rename it over the old one, and only then replace memory. */
    method Persist(next: Store)
      modifies this`state, this`disk
      ensures state == next && disk == Disk(Some(next), None)
    {
      disk := disk.(temporary := Some(Partial));
      disk := disk.(temporary := Some(Whole(next)));
      disk := Disk(Some(next), None);
      state := next;
    }

    /** One serialized mutation: the transform's outcome, in memory and in the file, or nothing at all. */
    method Mutate(r: Request) returns (result: Result<Operation, RegistryError>)
      requires Valid() && (Contents().Some? ==> StoreOk(Contents().value) && Fresh(Contents().value, r))
      modifies this
      ensures Valid() && (initialized ==> StoreOk(state))
      ensures old(Contents()).None? ==> result == Err(StoreInvalid) && state == old(state) && disk == old(disk)
      ensures old(Contents()).Some? ==>
        var (next, outcome) := Apply(old(Contents()).value, r);
        initialized && state == next
        && (if outcome.Ok? then result == Ok(outcome.value) else result == Err(Refused(outcome.error)))
    {
      var ready := Init();
      if !ready { return Err(StoreInvalid); }
      var (next, outcome) := Apply(state, r);
      RequestKeeps(state, r);
      if next != state { Persist(next); }
      result := if outcome.Ok? then Ok(outcome.value) else Err(Refused(outcome.error));
    }
  }
}
