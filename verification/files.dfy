/** The local file system as the core uses it: a map from path to contents.
    Only the operations the client and the worker perform are modelled. */
module Files {
  import opened Wrappers

  type Disk = map<string, seq<byte>>

  /** `open(path, "wb").write(data)`: the file now holds exactly `data`. */
  function Write(disk: Disk, path: string, data: seq<byte>): (d: Disk)
    ensures path in d && d[path] == data
    ensures d.Keys == disk.Keys + {path}
    ensures forall p :: p in disk && p != path ==> p in d && d[p] == disk[p]
  {
    disk[path := data]
  }

  /** `if os.path.exists(path): os.remove(path)`. */
  function RemoveIfExists(disk: Disk, path: string): (d: Disk)
    ensures path !in d
    ensures d.Keys == disk.Keys - {path}
    ensures forall p :: p in disk && p != path ==> p in d && d[p] == disk[p]
  {
    if path in disk then disk - {path} else disk
  }
}
