/** The part of the file system the export code touches: whole files by
    path. Directories exist implicitly as path prefixes. */
module Disk {

  /** `Path::join` of a relative file name onto a directory. */
  function JoinPath(dir: string, name: string): (p: string)
    ensures |p| >= |name| && p[|p| - |name|..] == name
  {
    if dir == [] then name
    else if dir[|dir| - 1] == '/' then dir + name
    else dir + "/" + name
  }

  /** `path` lies inside directory `dir`. */
  predicate Under(path: string, dir: string) {
    var d := if |dir| > 0 && dir[|dir| - 1] == '/' then dir else dir + "/";
    |d| <= |path| && path[..|d|] == d
  }

  class FileSystem {
    var files: map<string, string>

    constructor (files: map<string, string>)
      ensures this.files == files
    {
      this.files := files;
    }

    /** `fs::write`: creates or replaces the file. */
    method Write(path: string, content: string)
      modifies this
      ensures files == old(files)[path := content]
    {
      files := files[path := content];
    }

    /** `fs::remove_file`, whose result the callers ignore. */
    method RemoveFile(path: string)
      modifies this
      ensures files == old(files) - {path}
    {
      files := files - {path};
    }

    /** `fs::remove_dir_all`: every file below `dir` goes. */
    method RemoveDirAll(dir: string)
      modifies this
      ensures files == map p | p in old(files) && !Under(p, dir) :: old(files)[p]
    {
      files := map p | p in files && !Under(p, dir) :: files[p];
    }
  }
}
