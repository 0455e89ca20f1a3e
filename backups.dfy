/**
 * The backup step the dataset repair scripts share: before a file is rewritten, it is
 * copied to a backup path unless a backup is already there, so the first backup, the
 * original file, is never overwritten.
 */
module Backups {
  /** The files of a dataset directory: path to contents, whose type `C` each script chooses. */
  class FileStore<C> {
    var files: map<string, C>

    constructor (files: map<string, C>)
      ensures this.files == files
    {
      this.files := files;
    }

    /** `if not backup.exists(): shutil.copy2(path, backup)` */
    method BackupIfAbsent(path: string, backup: string)
      requires path in files
      modifies this
      ensures backup in old(files) ==> files == old(files)
      ensures backup !in old(files) ==> files == old(files)[backup := old(files)[path]]
    {
      if backup !in files {
        files := files[backup := files[path]];
      }
    }

    /** Writing a file replaces its contents and touches nothing else. */
    method Write(path: string, contents: C)
      modifies this
      ensures files == old(files)[path := contents]
    {
      files := files[path := contents];
    }

    /** `if path.exists(): path.unlink()` */
    method DeleteIfPresent(path: string)
      modifies this
      ensures files == old(files) - {path}
    {
      files := files - {path};
    }

    /**
     * A backup followed by a rewrite of the file, as each repair does: whatever was
     * written, the backup holds the contents the file had before the first repair
     * that made one.
     */
    method RepairWithBackup(path: string, backup: string, contents: C)
      requires path in files && path != backup
      modifies this
      ensures path in files && files[path] == contents
      ensures backup in files
      ensures backup in old(files) ==> files[backup] == old(files)[backup]
      ensures backup !in old(files) ==> files[backup] == old(files)[path]
      ensures forall p :: p in old(files) && p != path && p != backup ==> p in files && files[p] == old(files)[p]
      ensures forall p :: p in files ==> p in old(files) || p == backup
    {
      BackupIfAbsent(path, backup);
      Write(path, contents);
    }
  }
}
