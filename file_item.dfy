/** The job list: each file's conversion status, the derived counters, and the mutable
    `ConversionState` that holds the list and the run flags. */
module FileItems {
  import opened Wrappers
  import Strings
  import Paths

  /** Stands for the `UUID` each item receives when it is created. */
  type Id = nat

  /** Where one file is in its conversion: Pending, then Converting, then Done or Error. */
  datatype ConversionStatus = Pending | Converting | Done | Error(message: string)

  /** One input file of the batch. */
  datatype FileItem = FileItem(id: Id, sourcePath: string, status: ConversionStatus)

  /** `FileItem.errorMessage`: the reason of a failed conversion, and nothing otherwise. */
  function ErrorMessage(item: FileItem): (msg: Option<string>)
    ensures msg.Some? <==> item.status.Error?
    ensures msg.Some? ==> item.status == Error(msg.value)
  {
    if item.status.Error? then Some(item.status.message) else None
  }

  /** A status that ends a file's conversion. */
  predicate IsProcessed(s: ConversionStatus) {
    s.Done? || s.Error?
  }

  // ---------------------------------------------------------------------------------------------
  // Counters over the list

  /** `completedCount`: the number of items whose status is Done. */
  function CompletedCount(files: seq<FileItem>): (n: nat)
    ensures n <= |files|
  {
    if files == [] then 0 else (if files[0].status == Done then 1 else 0) + CompletedCount(files[1..])
  }

  /** `processedCount`: the number of items whose status is Done or Error. */
  function ProcessedCount(files: seq<FileItem>): (n: nat)
    ensures n <= |files|
  {
    if files == [] then 0 else (if IsProcessed(files[0].status) then 1 else 0) + ProcessedCount(files[1..])
  }

  /** `hasErrors`: some item's status is Error. */
  predicate HasErrors(files: seq<FileItem>) {
    exists i :: 0 <= i < |files| && files[i].status.Error?
  }

  /** Every completed item is a processed one. */
  lemma {:induction false} CompletedAtMostProcessed(files: seq<FileItem>)
    ensures CompletedCount(files) <= ProcessedCount(files)
  {
    if files != [] {
      CompletedAtMostProcessed(files[1..]);
    }
  }

  /** There are errors exactly when more items are processed than completed. */
  lemma {:induction false} HasErrorsIffProcessedExceedsCompleted(files: seq<FileItem>)
    ensures HasErrors(files) <==> CompletedCount(files) < ProcessedCount(files)
  {
    if files != [] {
      HasErrorsIffProcessedExceedsCompleted(files[1..]);
      CompletedAtMostProcessed(files[1..]);
      if HasErrors(files[1..]) {
        var i :| 0 <= i < |files[1..]| && files[1..][i].status.Error?;
        assert files[i + 1].status.Error?;
      }
      if HasErrors(files) && !files[0].status.Error? {
        var i :| 0 <= i < |files| && files[i].status.Error?;
        assert files[1..][i - 1].status.Error?;
      }
    }
  }

  /** Every item is processed exactly when the processed count is the length of the list. */
  lemma {:induction false} AllProcessedIff(files: seq<FileItem>)
    ensures ProcessedCount(files) == |files| <==> forall i :: 0 <= i < |files| ==> IsProcessed(files[i].status)
  {
    if files != [] {
      AllProcessedIff(files[1..]);
      assert forall i :: 1 <= i < |files| ==> files[i] == files[1..][i - 1];
    }
  }

  // ---------------------------------------------------------------------------------------------
  // The list operations, on values; the methods of ConversionState below perform them in place.

  /** What `resetAll` makes of the list: every status Pending, nothing else changed. */
  function ResetStatuses(files: seq<FileItem>): (r: seq<FileItem>)
  {
    seq(|files|, k requires 0 <= k < |files| => files[k].(status := Pending))
  }

  /** After a reset nothing counts as processed or failed, and the items are the same ones in the same order. */
  lemma {:induction false} ResetClearsCounters(files: seq<FileItem>)
    ensures var r := ResetStatuses(files);
            && |r| == |files|
            && (forall k :: 0 <= k < |files| ==> r[k].id == files[k].id && r[k].sourcePath == files[k].sourcePath)
            && ProcessedCount(r) == 0 && CompletedCount(r) == 0 && !HasErrors(r)
  {
    if files != [] {
      ResetClearsCounters(files[1..]);
      assert ResetStatuses(files)[1..] == ResetStatuses(files[1..]);
    }
  }

  /** The paths already in the list (`existingPaths`). */
  function SourcePaths(files: seq<FileItem>): set<string> {
    set i | 0 <= i < |files| :: files[i].sourcePath
  }

  /** The accepted input extension: `pathExtension.lowercased() == "enc"`. */
  predicate IsEncPath(path: string) {
    Strings.ToLower(Paths.PathExtension(path)) == "enc"
  }

  /** A path is accepted exactly when its extension is "enc" in any mix of upper and lower case. */
  lemma IsEncPathIff(path: string)
    ensures var e := Paths.PathExtension(path);
            IsEncPath(path) <==> |e| == 3 && (e[0] == 'e' || e[0] == 'E')
                                 && (e[1] == 'n' || e[1] == 'N') && (e[2] == 'c' || e[2] == 'C')
  {
    LowersToEnc(Paths.PathExtension(path));
  }

  /** The texts that lower-case to "enc". */
  lemma LowersToEnc(e: string)
    ensures Strings.ToLower(e) == "enc" <==> |e| == 3 && (e[0] == 'e' || e[0] == 'E')
                                             && (e[1] == 'n' || e[1] == 'N') && (e[2] == 'c' || e[2] == 'C')
  {
    var lower := Strings.ToLower(e);
    if |e| == 3 {
      assert lower[0] == Strings.LowerChar(e[0]) && lower[1] == Strings.LowerChar(e[1])
             && lower[2] == Strings.LowerChar(e[2]);
      assert lower == "enc" <==> lower[0] == 'e' && lower[1] == 'n' && lower[2] == 'c';
      Strings.LowerCharIs(e[0], 'e');
      Strings.LowerCharIs(e[1], 'n');
      Strings.LowerCharIs(e[2], 'c');
    } else {
      assert |lower| != |"enc"|;
    }
  }

  /** The urls `addFiles` appends, in input order: those with the accepted extension whose path
      is not among `existing`. Duplicates within `urls` are not removed. */
  function Admitted(existing: set<string>, urls: seq<string>): (r: seq<string>)
    ensures |r| <= |urls|
    ensures forall p :: p in r ==> p in urls && IsEncPath(p) && p !in existing
  {
    if urls == [] then []
    else (if IsEncPath(urls[0]) && urls[0] !in existing then [urls[0]] else []) + Admitted(existing, urls[1..])
  }

  /** No url that has the accepted extension and is not yet in the list is missed. */
  lemma {:induction false} AdmittedComplete(existing: set<string>, urls: seq<string>)
    ensures forall p :: p in urls && IsEncPath(p) && p !in existing ==> p in Admitted(existing, urls)
  {
    if urls != [] {
      AdmittedComplete(existing, urls[1..]);
      assert forall p :: p in urls ==> p == urls[0] || p in urls[1..];
    }
  }

  /** Admission works url by url: it keeps the input order. */
  lemma {:induction false} AdmittedConcat(existing: set<string>, a: seq<string>, b: seq<string>)
    ensures Admitted(existing, a + b) == Admitted(existing, a) + Admitted(existing, b)
  {
    if a != [] {
      assert (a + b)[1..] == a[1..] + b;
      AdmittedConcat(existing, a[1..], b);
    } else {
      assert a + b == b;
    }
  }

  /** The same new path offered twice in one call is admitted twice: uniqueness is only
      checked against the paths that were in the list before the call. */
  lemma DuplicateInOneCallAdmittedTwice(existing: set<string>, p: string)
    requires IsEncPath(p) && p !in existing
    ensures Admitted(existing, [p, p]) == [p, p]
  {
    assert [p, p][1..] == [p];
    assert [p][1..] == [];
  }

  /** The items `addFiles` creates for the admitted urls: fresh consecutive ids starting at `firstId`, status Pending. */
  function NewItems(paths: seq<string>, firstId: Id): (r: seq<FileItem>)
  {
    seq(|paths|, k requires 0 <= k < |paths| => FileItem(firstId + k, paths[k], Pending))
  }

  /** No two items share an id. */
  predicate UniqueIds(files: seq<FileItem>) {
    forall i, j :: 0 <= i < j < |files| ==> files[i].id != files[j].id
  }

  /** No two items share a source path. */
  predicate UniquePaths(files: seq<FileItem>) {
    forall i, j :: 0 <= i < j < |files| ==> files[i].sourcePath != files[j].sourcePath
  }

  /** No url occurs twice. */
  predicate NoDuplicates(urls: seq<string>) {
    forall i, j :: 0 <= i < j < |urls| ==> urls[i] != urls[j]
  }

  lemma {:induction false} AdmittedNoDuplicates(existing: set<string>, urls: seq<string>)
    requires NoDuplicates(urls)
    ensures NoDuplicates(Admitted(existing, urls))
  {
    if urls != [] {
      AdmittedNoDuplicates(existing, urls[1..]);
      assert urls[0] !in urls[1..] by {
        forall k | 0 <= k < |urls[1..]| ensures urls[1..][k] != urls[0] {
          assert urls[1..][k] == urls[k + 1];
        }
      }
    }
  }

  /** When the list has no repeated path and one call offers no url twice, the list after
      `addFiles` has no repeated path either. */
  lemma AddFilesKeepsPathsUnique(files: seq<FileItem>, urls: seq<string>, firstId: Id)
    requires UniquePaths(files) && NoDuplicates(urls)
    ensures UniquePaths(files + NewItems(Admitted(SourcePaths(files), urls), firstId))
  {
    var added := Admitted(SourcePaths(files), urls);
    AdmittedNoDuplicates(SourcePaths(files), urls);
    var r := files + NewItems(added, firstId);
    forall i, j | 0 <= i < j < |r| ensures r[i].sourcePath != r[j].sourcePath {
      if j >= |files| {
        assert r[j].sourcePath == added[j - |files|];
        if i >= |files| {
          assert r[i].sourcePath == added[i - |files|];
        } else {
          assert r[i].sourcePath in SourcePaths(files);
        }
      }
    }
  }

  /** `files.firstIndex(where: { $0.id == id })`: the first position holding that id, if any. */
  function FirstIndexWithId(files: seq<FileItem>, id: Id): (r: Option<nat>)
    ensures r.Some? ==> r.value < |files| && files[r.value].id == id
                        && forall j :: 0 <= j < r.value ==> files[j].id != id
    ensures r.None? ==> forall j :: 0 <= j < |files| ==> files[j].id != id
  {
    if files == [] then None
    else if files[0].id == id then Some(0)
    else match FirstIndexWithId(files[1..], id)
      case Some(k) => Some(k + 1)
      case None => None
  }

  /** When ids are unique, the first position with an item's id is that item's own position. */
  lemma UniqueIdsFirstIndex(files: seq<FileItem>, i: nat)
    requires UniqueIds(files) && i < |files|
    ensures FirstIndexWithId(files, files[i].id) == Some(i)
  {
  }

  /** What `updateStatus(for: id, to: status)` makes of the list. */
  function WithStatus(files: seq<FileItem>, id: Id, status: ConversionStatus): (r: seq<FileItem>)
  {
    match FirstIndexWithId(files, id)
    case Some(k) => files[k := files[k].(status := status)]
    case None => files
  }

  /** The first item with the id gets the new status; it keeps its id and path, and every other item is unchanged;
      without such an item nothing changes. */
  lemma UpdateTouchesFirstOnly(files: seq<FileItem>, id: Id, status: ConversionStatus)
    ensures var r := WithStatus(files, id, status);
            && |r| == |files|
            && (forall j :: 0 <= j < |files| ==> r[j].id == files[j].id && r[j].sourcePath == files[j].sourcePath)
            && (forall j :: 0 <= j < |files| && files[j].id == id && (forall i :: 0 <= i < j ==> files[i].id != id)
                  ==> r[j].status == status)
            && (forall j :: 0 <= j < |files| && files[j].id == id && (forall i :: 0 <= i < j ==> files[i].id != id)
                  ==> forall i :: 0 <= i < |files| && i != j ==> r[i] == files[i])
            && ((forall j :: 0 <= j < |files| ==> files[j].id != id) ==> r == files)
  {
    var f := FirstIndexWithId(files, id);
    if f.Some? {
      var k := f.value;
      assert files[k].id == id;
    }
  }

  /** With unique ids, updating an item's status by its own id changes exactly that position. */
  lemma WithStatusAtOwnIndex(files: seq<FileItem>, i: nat, status: ConversionStatus)
    requires UniqueIds(files) && i < |files|
    ensures WithStatus(files, files[i].id, status) == files[i := files[i].(status := status)]
  {
    UniqueIdsFirstIndex(files, i);
  }

  /** What `removeFile` makes of the list: the items whose id differs from `id`, in their order. */
  function WithoutId(files: seq<FileItem>, id: Id): (r: seq<FileItem>)
    ensures |r| <= |files|
    ensures forall x :: x in r <==> x in files && x.id != id
  {
    if files == [] then []
    else (if files[0].id == id then [] else [files[0]]) + WithoutId(files[1..], id)
  }

  /** Removal works item by item: the relative order of the kept items is their order in the list. */
  lemma {:induction false} WithoutIdConcat(a: seq<FileItem>, b: seq<FileItem>, id: Id)
    ensures WithoutId(a + b, id) == WithoutId(a, id) + WithoutId(b, id)
  {
    if a != [] {
      assert (a + b)[1..] == a[1..] + b;
      WithoutIdConcat(a[1..], b, id);
    } else {
      assert a + b == b;
    }
  }

  /** Removal keeps ids unique. */
  lemma {:induction false} WithoutIdKeepsUniqueIds(files: seq<FileItem>, id: Id)
    requires UniqueIds(files)
    ensures UniqueIds(WithoutId(files, id))
  {
    if files != [] {
      WithoutIdKeepsUniqueIds(files[1..], id);
      var rest := WithoutId(files[1..], id);
      forall x | x in rest ensures x.id != files[0].id {
        var k :| 0 <= k < |files[1..]| && files[1..][k] == x;
        assert files[k + 1] == x;
      }
    }
  }

  /** When ids are unique and the id is present, removal drops exactly one item. */
  lemma {:induction false} WithoutPresentIdShrinksByOne(files: seq<FileItem>, id: Id)
    requires UniqueIds(files)
    requires exists i :: 0 <= i < |files| && files[i].id == id
    ensures |WithoutId(files, id)| == |files| - 1
  {
    if files[0].id == id {
      assert WithoutId(files[1..], id) == files[1..] by {
        WithoutIdOfAbsent(files[1..], id);
      }
    } else {
      var i :| 0 <= i < |files| && files[i].id == id;
      assert files[1..][i - 1].id == id;
      WithoutPresentIdShrinksByOne(files[1..], id);
    }
  }

  /** Removing an id no item carries leaves the list as it is. */
  lemma {:induction false} WithoutIdOfAbsent(files: seq<FileItem>, id: Id)
    requires forall i :: 0 <= i < |files| ==> files[i].id != id
    ensures WithoutId(files, id) == files
  {
    if files != [] {
      WithoutIdOfAbsent(files[1..], id);
      assert files == [files[0]] + files[1..];
    }
  }

  // ---------------------------------------------------------------------------------------------

  /** `ConversionState`: the job list, the chosen output directory and the two run flags.
      `nextId` stands for the UUID generator: every id handed out so far is below it. */
  class ConversionState {
    var files: seq<FileItem>
    var outputDirectory: Option<string>
    var isConverting: bool
    var isCancelled: bool
    var nextId: Id

    /** Ids are unique and all were handed out before `nextId`. */
    ghost predicate Valid()
      reads this
    {
      UniqueIds(files) && forall i :: 0 <= i < |files| ==> files[i].id < nextId
    }

    constructor ()
      ensures Valid()
      ensures files == [] && outputDirectory == None && !isConverting && !isCancelled
    {
      files := [];
      outputDirectory := None;
      isConverting := false;
      isCancelled := false;
      nextId := 0;
    }

    /** `addFiles`: appends an item for every admitted url, after the existing ones. */
    method AddFiles(urls: seq<string>)
      requires Valid()
      modifies this
      ensures Valid()
      ensures files == old(files) + NewItems(Admitted(SourcePaths(old(files)), urls), old(nextId))
      ensures nextId == old(nextId) + |Admitted(SourcePaths(old(files)), urls)|
      ensures outputDirectory == old(outputDirectory) && isConverting == old(isConverting)
      ensures isCancelled == old(isCancelled)
    {
      var existingPaths := SourcePaths(files);
      var added := Admitted(existingPaths, urls);
      var newFiles := NewItems(added, nextId);
      files := files + newFiles;
      nextId := nextId + |added|;
    }

    /** `removeFile`: drops every item with the given item's id. */
    method RemoveFile(item: FileItem)
      requires Valid()
      modifies this
      ensures Valid()
      ensures files == WithoutId(old(files), item.id)
      ensures nextId == old(nextId) && outputDirectory == old(outputDirectory)
      ensures isConverting == old(isConverting) && isCancelled == old(isCancelled)
    {
      WithoutIdKeepsUniqueIds(files, item.id);
      files := WithoutId(files, item.id);
    }

    /** `clearAll`: empties the list. */
    method ClearAll()
      requires Valid()
      modifies this
      ensures Valid()
      ensures files == []
      ensures nextId == old(nextId) && outputDirectory == old(outputDirectory)
      ensures isConverting == old(isConverting) && isCancelled == old(isCancelled)
    {
      files := [];
    }

    /** `updateStatus(for:to:)`: sets the status of the first item with the id, if there is one. */
    method UpdateStatus(id: Id, status: ConversionStatus)
      requires Valid()
      modifies this
      ensures Valid()
      ensures files == WithStatus(old(files), id, status)
      ensures nextId == old(nextId) && outputDirectory == old(outputDirectory)
      ensures isConverting == old(isConverting) && isCancelled == old(isCancelled)
    {
      var index := FirstIndexWithId(files, id);
      if index.Some? {
        files := files[index.value := files[index.value].(status := status)];
      }
    }

    /** `resetAll`: every status back to Pending, one index at a time, and the cancel flag cleared. */
    method ResetAll()
      requires Valid()
      modifies this
      ensures Valid()
      ensures files == ResetStatuses(old(files)) && !isCancelled
      ensures nextId == old(nextId) && outputDirectory == old(outputDirectory)
      ensures isConverting == old(isConverting)
    {
      var i := 0;
      while i < |files|
        invariant 0 <= i <= |files| == |old(files)|
        invariant forall k :: 0 <= k < i ==> files[k] == old(files)[k].(status := Pending)
        invariant forall k :: i <= k < |files| ==> files[k] == old(files)[k]
        invariant nextId == old(nextId) && outputDirectory == old(outputDirectory)
        invariant isConverting == old(isConverting) && isCancelled == old(isCancelled)
      {
        files := files[i := files[i].(status := Pending)];
        i := i + 1;
      }
      isCancelled := false;
    }

    /** `cancelConversion`: raises the cancel flag. */
    method CancelConversion()
      requires Valid()
      modifies this
      ensures Valid()
      ensures isCancelled
      ensures files == old(files) && nextId == old(nextId) && outputDirectory == old(outputDirectory)
      ensures isConverting == old(isConverting)
    {
      isCancelled := true;
    }
  }
}
