/**
 * The file system as the library sees it through `FileManager` and
 * `FileHandle`, and the `FileManager` extension of FileManager+ASNetworking.swift:
 * the document/caches path builders and the disk-space getters.
 */
module Files {
  import opened Common

  /**
   * The platform file system. `files` maps a path to the bytes of the file
   * there; `directories` holds the paths that are directories; `unwritable`
   * holds the paths where a file or directory cannot be created and a file
   * cannot be opened for writing (permissions, missing parent directory).
   */
  class FileSystem {
    var files: map<string, Bytes>
    var directories: set<string>
    const unwritable: set<string>

    constructor (files: map<string, Bytes>, directories: set<string>, unwritable: set<string>)
      ensures this.files == files && this.directories == directories && this.unwritable == unwritable
    {
      this.files := files;
      this.directories := directories;
      this.unwritable := unwritable;
    }

    /** `fileExists(atPath:)`: true for a file and for a directory. */
    predicate FileExists(path: string)
      reads this
    {
      path in files || path in directories
    }

    /** `FileHandle(forWritingAtPath:)`; a handle is represented by the path it writes to. */
    method OpenForWriting(path: string) returns (handle: Option<string>)
      ensures handle.Some? <==> path in files && path !in unwritable
      ensures handle.Some? ==> handle.value == path
    {
      if path in files && path !in unwritable {
        handle := Some(path);
      } else {
        handle := None;
      }
    }

    /** `createFile(atPath:contents: nil, attributes: nil)`: an empty file, unless the path is unwritable. */
    method CreateEmptyFile(path: string) returns (created: bool)
      modifies this`files
      ensures created <==> path !in unwritable
      ensures files == if created then old(files)[path := []] else old(files)
    {
      created := path !in unwritable;
      if created {
        files := files[path := []];
      }
    }

    /** `seekToEndOfFile()`: the offset of the end of the file, which is its length. */
    method SeekToEndOfFile(handle: string) returns (offset: nat)
      requires handle in files
      ensures offset == |files[handle]|
    {
      offset := |files[handle]|;
    }

    /** `seekToEndOfFile()` followed by `write(_:)`: the bytes go at the end of the file. */
    method AppendAtEnd(handle: string, data: Bytes)
      requires handle in files
      modifies this`files
      ensures files == old(files)[handle := old(files[handle]) + data]
    {
      files := files[handle := files[handle] + data];
    }

    /** `try? createDirectory(atPath:withIntermediateDirectories: true, attributes: nil)`; a failure is ignored. */
    method CreateDirectory(path: string)
      modifies this`directories
      ensures directories == if path in unwritable then old(directories) else old(directories) + {path}
    {
      if path !in unwritable {
        directories := directories + {path};
      }
    }
  }

  // ---------------------------------------------------------------- paths

  /** `NSSearchPathForDirectoriesInDomains(...).first ?? ""` */
  function FirstOrEmpty(searchPaths: seq<string>): (base: string)
    ensures |searchPaths| == 0 ==> base == ""
    ensures |searchPaths| > 0 ==> base == searchPaths[0]
  {
    if |searchPaths| > 0 then searchPaths[0] else ""
  }

  /** `path.append("/\(name)")` when `name` is given. */
  function AppendComponent(path: string, name: Option<string>): string {
    match name
    case Some(n) => path + "/" + n
    case None => path
  }

  /** The path both builders return: the base, then the folder, then the file. */
  function FilePath(base: string, folderName: Option<string>, fileName: Option<string>): (path: string)
    ensures |base| <= |path| && path[..|base|] == base
    ensures folderName.None? && fileName.None? ==> path == base
    ensures |path| == |base|
                      + (if folderName.Some? then 1 + |folderName.value| else 0)
                      + (if fileName.Some? then 1 + |fileName.value| else 0)
    ensures folderName.Some? ==> path[|base|..|base| + 1 + |folderName.value|] == "/" + folderName.value
    ensures fileName.Some? ==> path[|path| - 1 - |fileName.value|..] == "/" + fileName.value
  {
    AppendComponent(AppendComponent(base, folderName), fileName)
  }

  /** The text after the last '/' of a path (the whole path when it has none). */
  function LastComponent(path: string): string
    decreases |path|
  {
    if path == [] then []
    else if path[|path| - 1] == '/' then []
    else LastComponent(path[..|path| - 1]) + [path[|path| - 1]]
  }

  lemma {:induction false} LastComponentAfterSlash(prefix: string, name: string)
    requires '/' !in name
    ensures LastComponent(prefix + "/" + name) == name
    decreases |name|
  {
    var p := prefix + "/" + name;
    if name == [] {
      assert p[|p| - 1] == '/';
    } else {
      var shorter := name[..|name| - 1];
      assert p[..|p| - 1] == prefix + "/" + shorter;
      assert p[|p| - 1] == name[|name| - 1];
      LastComponentAfterSlash(prefix, shorter);
      assert shorter + [name[|name| - 1]] == name;
    }
  }

  /** A file name without '/' can be read back from the end of the built path. */
  lemma FileNameIsLastComponent(base: string, folderName: Option<string>, fileName: string)
    requires '/' !in fileName
    ensures LastComponent(FilePath(base, folderName, Some(fileName))) == fileName
  {
    LastComponentAfterSlash(AppendComponent(base, folderName), fileName);
  }

  /**
   * `ducumentFilePath(fileName:folderName:isCreate:)`: the folder path is
   * created when asked for and absent; the returned path never depends on
   * `isCreate`.
   */
  method DocumentFilePath(fs: FileSystem, searchPaths: seq<string>, fileName: Option<string>,
                          folderName: Option<string>, isCreate: bool) returns (path: string)
    modifies fs`directories
    ensures path == FilePath(FirstOrEmpty(searchPaths), folderName, fileName)
    ensures var folderPath := AppendComponent(FirstOrEmpty(searchPaths), folderName);
            fs.directories ==
              if folderName.Some? && isCreate && !old(fs.FileExists(folderPath)) && folderPath !in fs.unwritable
              then old(fs.directories) + {folderPath}
              else old(fs.directories)
  {
    path := FirstOrEmpty(searchPaths);
    if folderName.Some? {
      path := path + "/" + folderName.value;
      if isCreate && !fs.FileExists(path) {
        fs.CreateDirectory(path);
      }
    }
    if fileName.Some? {
      path := path + "/" + fileName.value;
    }
  }

  /** `cachesFilePath(fileName:folderName:isCreate:)`: as above, with the folder always present. */
  method CachesFilePath(fs: FileSystem, searchPaths: seq<string>, fileName: Option<string>,
                        folderName: string, isCreate: bool) returns (path: string)
    modifies fs`directories
    ensures path == FilePath(FirstOrEmpty(searchPaths), Some(folderName), fileName)
    ensures var folderPath := FirstOrEmpty(searchPaths) + "/" + folderName;
            fs.directories ==
              if isCreate && !old(fs.FileExists(folderPath)) && folderPath !in fs.unwritable
              then old(fs.directories) + {folderPath}
              else old(fs.directories)
  {
    path := FirstOrEmpty(searchPaths);
    path := path + "/" + folderName;
    if isCreate && !fs.FileExists(path) {
      fs.CreateDirectory(path);
    }
    if fileName.Some? {
      path := path + "/" + fileName.value;
    }
  }

  // ----------------------------------------------------------- disk space

  /**
   * What `attributesOfFileSystem(forPath:)` returns when it does not throw:
   * the `.systemSize` and `.systemFreeSize` entries, each absent when missing
   * or not a number.
   */
  datatype FileSystemAttributes = FileSystemAttributes(systemSize: Option<int>, systemFreeSize: Option<int>)

  /** `totalDiskSpace`: 0 when the attributes cannot be read or hold no size. */
  function TotalDiskSpace(attributes: Option<FileSystemAttributes>): (space: int)
    ensures attributes.None? ==> space == 0
    ensures attributes.Some? && attributes.value.systemSize.None? ==> space == 0
    ensures attributes.Some? && attributes.value.systemSize.Some? ==> space == attributes.value.systemSize.value
  {
    match attributes
    case None => 0
    case Some(a) => a.systemSize.GetOr(0)
  }

  /** `freeDiskSpace` force-unwraps the free size, so a readable attribute set must hold one. */
  predicate FreeSizePresent(attributes: Option<FileSystemAttributes>) {
    attributes.Some? ==> attributes.value.systemFreeSize.Some?
  }

  /** `freeDiskSpace`: 0 when the attributes cannot be read. */
  function FreeDiskSpace(attributes: Option<FileSystemAttributes>): (space: int)
    requires FreeSizePresent(attributes)
    ensures attributes.None? ==> space == 0
    ensures attributes.Some? ==> space == attributes.value.systemFreeSize.value
  {
    match attributes
    case None => 0
    case Some(a) => a.systemFreeSize.value
  }

  /** `usedDiskSpace`: total minus free, so used and free add up to the total. */
  function UsedDiskSpace(attributes: Option<FileSystemAttributes>): (space: int)
    requires FreeSizePresent(attributes)
    ensures space + FreeDiskSpace(attributes) == TotalDiskSpace(attributes)
    ensures attributes.None? ==> space == 0
  {
    TotalDiskSpace(attributes) - FreeDiskSpace(attributes)
  }
}
