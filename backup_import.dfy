/**
 * The checks the backup-import button makes before uploading anything:
 * a file must be chosen, its name must end in `.tar.gz` or `.tgz` in any
 * letter case, and it may be at most 250 MiB.
 */
module BackupImport {
  import opened Wrappers
  import opened Text

  const MaxBackupBytes: nat := 250 * 1024 * 1024

  /** The selected file as the browser describes it. */
  datatype FileInfo = FileInfo(name: string, size: nat)

  /** Outcome of the checks; `TooLarge` carries the size, which the message reports in MB. */
  datatype ImportCheck = Proceed | NoFile | WrongType | TooLarge(size: nat)

  const NoFileMessage := "Error: Please select a file"
  const WrongTypeMessage := "Error: File must be a .tar.gz or .tgz archive"

  predicate IsArchiveName(name: string) {
    var lower := Lower(name);
    EndsWith(lower, ".tar.gz") || EndsWith(lower, ".tgz")
  }

  /** The checks in their order: presence, then name, then size. */
  function CheckBackup(file: Option<FileInfo>): (r: ImportCheck)
    ensures r == Proceed <==> file.Some? && IsArchiveName(file.value.name) && file.value.size <= MaxBackupBytes
    ensures r == NoFile <==> file.None?
    ensures r == WrongType <==> file.Some? && !IsArchiveName(file.value.name)
    ensures r.TooLarge? <==> file.Some? && IsArchiveName(file.value.name) && file.value.size > MaxBackupBytes
    ensures r.TooLarge? ==> r.size == file.value.size
  {
    match file
    case None => NoFile
    case Some(f) =>
      if !IsArchiveName(f.name) then WrongType
      else if f.size > MaxBackupBytes then TooLarge(f.size)
      else Proceed
  }

  /**
   * The fixed message the import output shows for a rejected file. None when
   * the file passes or is too large (that message reports a rounded size).
   */
  function RejectionMessage(file: Option<FileInfo>): (msg: Option<string>)
    ensures msg == Some(NoFileMessage) <==> file.None?
    ensures msg == Some(WrongTypeMessage) <==> file.Some? && !IsArchiveName(file.value.name)
    ensures msg.None? <==> CheckBackup(file) == Proceed || CheckBackup(file).TooLarge?
  {
    match CheckBackup(file)
    case NoFile => Some(NoFileMessage)
    case WrongType => Some(WrongTypeMessage)
    case _ => None
  }

  /** A file of exactly 250 MiB passes; one byte more does not. */
  lemma SizeLimitIsInclusive(name: string)
    requires IsArchiveName(name)
    ensures CheckBackup(Some(FileInfo(name, MaxBackupBytes))) == Proceed
    ensures CheckBackup(Some(FileInfo(name, MaxBackupBytes + 1))) == TooLarge(MaxBackupBytes + 1)
  {
  }

  /** The suffix test ignores letter case. */
  lemma {:induction false} UpperCaseSuffixAccepted(stem: string)
    ensures IsArchiveName(stem + ".TAR.GZ")
    ensures IsArchiveName(stem + ".Tgz")
  {
    var a, b := stem + ".TAR.GZ", stem + ".Tgz";
    assert Lower(a)[|a| - 7..] == ".tar.gz" by {
      forall i | 0 <= i < 7 ensures Lower(a)[|a| - 7 + i] == ".tar.gz"[i] {
        assert a[|a| - 7 + i] == ".TAR.GZ"[i];
      }
    }
    assert Lower(b)[|b| - 4..] == ".tgz" by {
      forall i | 0 <= i < 4 ensures Lower(b)[|b| - 4 + i] == ".tgz"[i] {
        assert b[|b| - 4 + i] == ".Tgz"[i];
      }
    }
  }

  /** A zip archive is refused by name before its size is looked at. */
  lemma ZipRejected(size: nat)
    ensures CheckBackup(Some(FileInfo("backup.zip", size))) == WrongType
  {
    assert Lower("backup.zip") == "backup.zip";
    assert Lower("backup.zip")[10 - 4..] == ".zip";
  }
}
