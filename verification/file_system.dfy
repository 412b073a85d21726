/** The file system as the set of regular files present, each named by the
    directory text it is listed under and its name in that directory:
    `f"{dir}/{name}"` in the source is `Path(dir, name)` here. */
module FileSystem {
  datatype Path = Path(dir: string, name: string)

  /** The path as the source writes it, `f"{dir}/{name}"`. */
  function Text(p: Path): string {
    p.dir + "/" + p.name
  }

  /** The files `os.listdir(dir)` names. */
  function Listing(files: set<Path>, dir: string): set<Path> {
    set p | p in files && p.dir == dir
  }
}
