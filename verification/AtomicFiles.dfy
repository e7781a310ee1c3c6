/** Directories of files that are only ever written by completing a temporary file and renaming it. */
module AtomicFiles {

  import opened FileNames

  /** A file whose writing was cut short cannot be read. */
  datatype Content<+D> = Torn | Whole(data: D)

  /** Directory and name. */
  type Path = (string, string)

  type FilesOf<D> = map<Path, Content<D>>

  function Replaced<D>(files: FilesOf<D>, path: Path, temp: string, data: D): FilesOf<D> {
    (files - {(path.0, temp)})[path := Whole(data)]
  }

  /** The directory before, during and after an atomic write: a temporary file is begun, completed, and renamed. */
  function Boundaries<D>(files: FilesOf<D>, path: Path, temp: string, data: D): seq<FilesOf<D>> {
    var t := (path.0, temp);
    [files, files[t := Torn], files[t := Whole(data)], Replaced(files, path, temp, data)]
  }

  class Disk<D> {
    var files: FilesOf<D>

    constructor ()
      ensures files == map[]
    {
      files := map[];
    }

    /** Begin a temporary file, complete it, and rename it into place. */
    method AtomicWrite(path: Path, temp: string, data: D) returns (ghost seen: seq<FilesOf<D>>)
      requires TemporaryFor(temp, path.1)
      modifies this
      ensures seen == Boundaries(old(files), path, temp, data)
      ensures files == Replaced(old(files), path, temp, data)
    {
      seen := [files];
      var t := (path.0, temp);
      files := files[t := Torn];
      seen := seen + [files];
      files := files[t := Whole(data)];
      assert files == old(files)[t := Whole(data)];
      seen := seen + [files];
      assert files - {t} == old(files) - {t};
      files := (files - {t})[path := Whole(data)];
      seen := seen + [files];
    }

    method Remove(path: Path)
      modifies this
      ensures files == old(files) - {path}
    {
      files := files - {path};
    }
  }
}
