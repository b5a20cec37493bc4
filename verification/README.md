# PDFJoin: the file list and the page concatenation

PDFJoin is a small wxPython window for merging PDF files. The user adds PDF files to a list,
removes single entries or all of them, and presses Join. Join asks for a destination and writes
one PDF holding every page of every listed file, in list order. This project models the two
parts of `PDFJoin.py` that are logic rather than GUI wiring:

- **The input-file list** (`self.input_files`): an ordered, duplicate-free list of path strings.
  The class `PdfJoinApp.PdfJoin` holds it as a `seq<Path>` field, and its methods update it in
  place as `add_file`, `remove_file`, `remove_all_files` and `do_join` do. Module `FileList`
  holds the pure specification of those updates (`AddAll`, `RemoveFirst`, `FirstIndex`) and
  the lemmas about them. It also holds `UpdateLabel`, the enable/label decision of
  `update_label`.
- **`pdf_cat`**: a nested loop that appends every page of every input to a writer. A PDF
  document is an opaque `seq<Page>`. The documents on disk are a map from path to page
  sequence, and a path missing from the map cannot be read. `PageCat.PdfCat` is that loop. It
  is proved equal to `CatResult`, whose success value is `Concat`, the flattening of the
  inputs' documents.

Files: `join_types.dfy` (paths, `Option`, `Result`, the two join errors), `page_cat.dfy`,
`file_list.dfy` and `pdf_join.dfy`.

Notes on the source's behaviour:

- `remove_file` uses `list.remove`, which raises `ValueError` for a path that is not listed.
  It is not a silent no-op. `RemoveFile` reports this case as `found == false` and leaves the
  list unchanged.
- `do_join` has no check that the list is non-empty. Merging zero files is prevented only
  because `update_label` disables the Join button. `DoJoin` therefore has no precondition, and
  `UpdateLabel` states that Join is enabled exactly when the list is non-empty.
- `do_join` opens the destination for writing before `pdf_cat` reads any input. So the
  output file is created, or emptied, even when a read error follows. When the destination is
  itself one of the listed inputs, that input is empty by the time `pdf_cat` reads it. `DoJoin`
  therefore reads the documents without the destination: such a join fails with a ReadError,
  keeps the list, and has destroyed the input (see "## Findings").

## Model

| member | source | states |
|---|---|---|
| PageCat.ConcatAppend | PDFJoin.py:26-29 | flattening the concatenation of two lists of documents is the concatenation of their flattenings; the writer's growth across inputs relies on this |
| PageCat.ConcatLength | PDFJoin.py:26-29 | the merged page count is the sum of the inputs' page counts |
| PageCat.ConcatAt | PDFJoin.py:26-29 | page j of input i is at position (pages of inputs 0..i-1) + j of the merged document: inputs in list order, pages in index order |
| PageCat.FirstUnreadable | PDFJoin.py:26-27 | names the first input, in list order, that cannot be read; every earlier input was read |
| PageCat.CatStep | PDFJoin.py:26-29 | after one more input is read, the merged pages are the previous merged pages followed by exactly that input's pages |
| PageCat.CatPageCount | PDFJoin.py:24-30 | for every list of readable inputs, including the empty list and inputs without pages, a writable sink makes the merge succeed with exactly the sum of the inputs' page counts |
| PageCat.CatPages | PDFJoin.py:24-30 | in a successful merge, page n of input k sits right after the pages of inputs 0..k-1 |
| PageCat.PdfCat | PDFJoin.py:24-30 | the nested loop returns CatResult: a ReadError naming the first unreadable input, else a WriteError when the sink cannot be written, else exactly the flattening of the inputs' pages |
| FileList.FirstIndex | PDFJoin.py:100 | the position `list.remove` deletes: it holds the path, and no earlier position does |
| FileList.AddAllMembers | PDFJoin.py:113-116 | after an add, a path is listed iff it was listed before or is in the batch, so every batch path is listed |
| FileList.AddAllKeepsExisting | PDFJoin.py:113-116 | an add keeps every old entry at its old position and appends only batch paths that were not listed |
| FileList.AddAllOrder | PDFJoin.py:113-116 | the appended paths appear in the order of their first occurrence in the batch |
| FileList.AddAllNoDuplicates | PDFJoin.py:114-116 | a duplicate-free list stays duplicate-free after an add, even when the batch repeats a path |
| FileList.AddAllPresent | PDFJoin.py:114-115 | a batch whose paths are all listed already leaves the list unchanged |
| FileList.AddAllIdempotent | PDFJoin.py:114-115 | adding the same batch a second time leaves the list unchanged |
| FileList.RemoveFirstCounts | PDFJoin.py:100 | a removal shortens the list by one and removes exactly one copy of the path (multiset difference) |
| FileList.RemoveFirstIndex | PDFJoin.py:100 | every other path stays listed; its first position is the same if it stood before the removed entry and one less if it stood after |
| FileList.RemoveFirstKeepsOrder | PDFJoin.py:100 | the remaining entries keep their relative order |
| FileList.RemoveFirstNoDuplicates | PDFJoin.py:100 | on a duplicate-free list, a removal keeps it duplicate-free and leaves exactly the other entries |
| FileList.RemoveThenAdd | PDFJoin.py:113-116 | removing a listed path and adding it again puts it back at the end of the list |
| FileList.UpdateLabel | PDFJoin.py:77-85 | Join and "Remove all files." are enabled iff the list is non-empty; the label is "Please add PDF files." iff the list is empty, and otherwise reports the list's length |
| FileList.AddEnablesJoin | PDFJoin.py:113-116 | adding a non-empty selection always leaves Join enabled |
| PdfJoinApp.PdfJoin.constructor | PDFJoin.py:70-72 | the window starts with an empty, duplicate-free list |
| PdfJoinApp.PdfJoin.AddFile | PDFJoin.py:106-116 | a cancelled dialog changes nothing; otherwise the selection loop leaves the list equal to AddAll of the old list and the selected paths, duplicate-free |
| PdfJoinApp.PdfJoin.RemoveFile | PDFJoin.py:100 | a listed path has its first occurrence deleted (RemoveFirst); for an unlisted path (ValueError) the list is unchanged; the list stays duplicate-free |
| PdfJoinApp.PdfJoin.RemoveAllFiles | PDFJoin.py:88-91 | whatever the list held, it is empty afterwards, so clearing twice is the same as clearing once |
| PdfJoinApp.PdfJoin.DoJoin | PDFJoin.py:136-152 | a cancelled save dialog changes nothing; a destination that cannot be opened fails with a WriteError; otherwise the outcome is pdf_cat's result over the documents with the destination already emptied; the list is cleared exactly when the join succeeds and is left untouched on every failure |
| PdfJoinApp.JoinIntoInputFails | PDFJoin.py:145-147 | choosing a listed input as the destination always makes pdf_cat fail with a ReadError, because opening the destination emptied that input |
| PdfJoinApp.PdfJoin.DoJoinReadFirst | PDFJoin.py:136-152 | the join with every input read before the destination is opened: its outcome is pdf_cat's result over the documents as they were, whatever destination is chosen; the list is cleared exactly on success |

## Left out

- All wx GUI code: the frame, sizers, buttons, bitmaps, scrolled panel, message boxes and layout calls. The file dialogs appear only as their results: an optional list of paths for `add_file`, and an optional destination for `do_join`.
- The parallel widget list `input_file_elems`: it only mirrors GUI objects.
- PDF parsing, including lenient `strict=False` parsing, and PDF serialisation: these are calls into PyPDF2/pyPdf. A readable document is a page sequence in a map from paths. Serialisation is returned as that sequence, and whether the sink accepts it is a parameter.
- Opening the output file and its byte stream: `canOpen` says only whether `open(filename, "wb")` succeeds. The emptying of the destination is modelled only as that document becoming unreadable; the bytes a failed write leaves behind are not modelled.
- The error messages shown in message boxes and the text formatting of the label. The label is a datatype carrying the count.
- Re-raising the exception in `do_join`: the failure is returned to the caller as `Failed`.
- The `sys.path` manipulation at start-up: this is environment setup.
- RemoveAllFiles: `remove_all_files` calls `clear()` twice around the GUI clear. The model clears once, which has the same effect.

## Findings

| source | as written | input that shows it | evidently intended | confidence | as-written member | corrected member |
|---|---|---|---|---|---|---|
| PDFJoin.py:145-147 | the destination is opened with mode "wb", which empties it, before `pdf_cat` reads the inputs | list ["A.pdf", "B.pdf"] with both readable, destination "A.pdf" confirmed at the overwrite prompt: A.pdf is emptied, reading it fails, the list is kept and A.pdf's pages are lost | read every input before the destination is opened, so that joining into one of the inputs writes the merged pages | not executed | PdfJoinApp.JoinIntoInputFails | PdfJoinApp.PdfJoin.DoJoinReadFirst |
