/** The PDFJoin window's state: the input-file list it updates in place, and the join
    that hands the list to `pdf_cat` and clears it on success. */
module PdfJoinApp {
  import opened JoinTypes
  import opened FileList
  import opened PageCat

  /** How a press of the Join button ends. */
  datatype JoinOutcome<Page> =
    | Cancelled                                 // the save dialog was dismissed
    | Joined(dest: Path, pages: seq<Page>)      // the merged pages were written to dest
    | Failed(dest: Path, error: JoinError)      // the failure is reported and re-raised

  /** Joining into a destination that is one of the listed inputs always fails with a
      ReadError: the input was emptied when the destination was opened. */
  lemma JoinIntoInputFails<Page>(inputFiles: seq<Path>, fs: map<Path, seq<Page>>, dest: Path, sinkWritable: bool)
    requires dest in inputFiles
    ensures CatResult(inputFiles, fs - {dest}, sinkWritable).Failure?
    ensures CatResult(inputFiles, fs - {dest}, sinkWritable).error.ReadError?
  {
  }

  class PdfJoin {
    /** The selected input paths, in the order they were added. */
    var inputFiles: seq<Path>

    ghost predicate Valid()
      reads this
    {
      NoDuplicates(inputFiles)
    }

    /** The window starts with an empty list (and hence disabled Join). */
    constructor ()
      ensures Valid() && inputFiles == []
    {
      inputFiles := [];
    }

    /** `add_file`: for each path the open dialog returned, append it unless it is listed
        already. A cancelled dialog (None) changes nothing. */
    method AddFile(selection: Option<seq<Path>>)
      requires Valid()
      modifies this
      ensures Valid()
      ensures inputFiles == if selection.None? then old(inputFiles) else AddAll(old(inputFiles), selection.value)
    {
      if selection.None? {
        return;
      }
      var paths := selection.value;
      for i := 0 to |paths|
        invariant NoDuplicates(inputFiles)
        invariant inputFiles == AddAll(old(inputFiles), paths[..i])
      {
        assert paths[..i + 1][..i] == paths[..i];
        var filename := paths[i];
        if filename in inputFiles {
          continue;
        }
        inputFiles := inputFiles + [filename];
      }
      assert paths[..|paths|] == paths;
    }

    /** `remove_file`: `list.remove` deletes the first occurrence of the button's path.
        When the path is not listed Python raises ValueError; here `found` is false and the
        list is left as it was. */
    method RemoveFile(filename: Path) returns (found: bool)
      requires Valid()
      modifies this
      ensures Valid()
      ensures found <==> filename in old(inputFiles)
      ensures inputFiles == if found then RemoveFirst(old(inputFiles), filename) else old(inputFiles)
    {
      found := filename in inputFiles;
      if !found {
        return;
      }
      RemoveFirstNoDuplicates(inputFiles, filename);
      inputFiles := RemoveFirst(inputFiles, filename);
    }

    /** `remove_all_files`: whatever the list held, it is empty afterwards. */
    method RemoveAllFiles()
      modifies this
      ensures Valid() && inputFiles == []
    {
      inputFiles := [];
    }

    /** `do_join`: ask for a destination (None when the dialog is cancelled), open it for
        writing (`canOpen`), run `pdf_cat` over the list, and clear the list only when the
        join succeeded; any failure leaves the list as it was. `fs` holds the documents as
        they are before the join. Opening the destination for writing empties it before any
        input is read, so `pdf_cat` sees `fs` without the destination. */
    method DoJoin<Page>(chosen: Option<Path>, canOpen: bool, fs: map<Path, seq<Page>>, sinkWritable: bool)
      returns (r: JoinOutcome<Page>)
      requires Valid()
      modifies this
      ensures Valid()
      ensures chosen.None? ==> r == Cancelled && inputFiles == old(inputFiles)
      ensures chosen.Some? && !canOpen ==> r == Failed(chosen.value, WriteError) && inputFiles == old(inputFiles)
      ensures chosen.Some? && canOpen ==>
        match CatResult(old(inputFiles), fs - {chosen.value}, sinkWritable)
        case Success(pages) => r == Joined(chosen.value, pages) && inputFiles == []
        case Failure(e) => r == Failed(chosen.value, e) && inputFiles == old(inputFiles)
    {
      if chosen.None? {
        return Cancelled;
      }
      var filename := chosen.value;
      if !canOpen {
        return Failed(filename, WriteError);
      }
      var cat := PdfCat(inputFiles, fs - {filename}, sinkWritable);
      match cat {
        case Success(pages) =>
          RemoveAllFiles();
          r := Joined(filename, pages);
        case Failure(e) =>
          r := Failed(filename, e);
      }
    }

    /** `do_join` with the destination opened only after every input has been read, so a
        destination that is also a listed input is read intact: the outcome no longer depends
        on which destination was chosen. Failing to open the destination, like failing to
        write it, is a WriteError. */
    method DoJoinReadFirst<Page>(chosen: Option<Path>, canOpen: bool, fs: map<Path, seq<Page>>, sinkWritable: bool)
      returns (r: JoinOutcome<Page>)
      requires Valid()
      modifies this
      ensures Valid()
      ensures chosen.None? ==> r == Cancelled && inputFiles == old(inputFiles)
      ensures chosen.Some? ==>
        match CatResult(old(inputFiles), fs, canOpen && sinkWritable)
        case Success(pages) => r == Joined(chosen.value, pages) && inputFiles == []
        case Failure(e) => r == Failed(chosen.value, e) && inputFiles == old(inputFiles)
    {
      if chosen.None? {
        return Cancelled;
      }
      var filename := chosen.value;
      var cat := PdfCat(inputFiles, fs, canOpen && sinkWritable);
      match cat {
        case Success(pages) =>
          RemoveAllFiles();
          r := Joined(filename, pages);
        case Failure(e) =>
          r := Failed(filename, e);
      }
    }
  }
}
