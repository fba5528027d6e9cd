/**
 * The Gluster backend: a field-less unit struct whose three backend operations
 * are stubs. Being a value with no fields, it has no state any call could change.
 */
module Gluster {
  import opened Wrappers
  import opened Api

  datatype GlusterBackend = GlusterBackend {

    /** Adds a disk to the cluster; the stub accepts every request. */
    function AddDisk(device: string, id: Option<U64>, journal: Option<string>,
                     journalPartition: Option<U32>, simulate: bool): (r: Result<()>)
      ensures r.Ok?
    {
      Ok(())
    }

    /** Removes a disk from the cluster; with `simulate` no action is taken. */
    function RemoveDisk(device: string, simulate: bool): (r: Result<()>)
      ensures r.Ok?
    {
      Ok(())
    }

    /** Whether the disk can be removed; with `simulate` the answer must be true. */
    function SafeToRemove(device: string, simulate: bool): (r: Result<bool>)
      ensures simulate ==> r == Ok(true)
      ensures r.Ok? && r.value
    {
      Ok(true)
    }
  }
}
