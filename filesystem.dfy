/** The local file system, seen only as the set of paths that exist. */
module FileSystem {

  class Disk {
    var paths: set<string>

    constructor (initial: set<string>)
      ensures paths == initial
    {
      paths := initial;
    }

    /** `os.path.exists(path)`. */
    predicate Exists(path: string)
      reads this
    {
      path in paths
    }

    /** Creating a file or directory (`open(path, "wb")`, `os.makedirs(path, exist_ok=True)`). */
    method Create(path: string)
      modifies this
      ensures paths == old(paths) + {path}
    {
      paths := paths + {path};
    }

    /** Files an external tool (the audio downloader) leaves behind. */
    method CreateAll(created: set<string>)
      modifies this
      ensures paths == old(paths) + created
    {
      paths := paths + created;
    }

    /** `os.remove(path)`, which raises for a path that does not exist. */
    method Remove(path: string)
      requires path in paths
      modifies this
      ensures paths == old(paths) - {path}
    {
      paths := paths - {path};
    }
  }
}
