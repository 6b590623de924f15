/** The folder walk that gathers a course's files for offline sync, and the
    mapping from folder items to `CourseSyncEntry.File` records
    (CourseSyncSelectorInteractor.swift, `getAllFiles`, `getFiles`,
    `getFilesAndFolderIDs`). The remote folder listing is an oracle: a total
    function from folder id to what `GetFolderItems` finally delivers. */
module CourseSyncFiles {
  import opened Wrappers
  import opened CourseSyncEntries

  datatype APIFile = APIFile(id: Option<string>, displayName: Option<string>, url: Option<string>)

  datatype APIFolder = APIFolder(id: string)

  /** An entry of a folder listing: a file, a sub-folder, or (as the source
      allows) both or neither. */
  datatype FolderItem = FolderItem(file: Option<APIFile>, folder: Option<APIFolder>)

  datatype APIError = Unauthorized | OtherError(description: string)

  /** The outcome of one folder fetch once `.retry(3)` has given up or succeeded. */
  datatype FolderListing = Listed(items: seq<FolderItem>) | ListingFailed(error: APIError)

  // ---------------------------------------------------------------------------
  // Splitting a listing
  // ---------------------------------------------------------------------------

  /** The listed items that are files, in listing order. */
  function FileItems(items: seq<FolderItem>): (r: seq<FolderItem>)
    ensures |r| <= |items|
    ensures forall x :: x in r ==> x in items && x.file.Some?
    ensures forall x :: x in items && x.file.Some? ==> x in r
  {
    if items == [] then []
    else (if items[0].file.Some? then [items[0]] else []) + FileItems(items[1..])
  }

  /** The ids of the listed items that are folders, in listing order. */
  function FolderIDs(items: seq<FolderItem>): (r: seq<string>)
    ensures |r| <= |items|
    ensures forall k :: 0 <= k < |items| && items[k].folder.Some? ==> items[k].folder.value.id in r
    ensures forall id :: id in r ==> exists k :: 0 <= k < |items| && items[k].folder == Some(APIFolder(id))
  {
    if items == [] then []
    else
      var rest := FolderIDs(items[1..]);
      assert forall id :: id in rest ==> exists k :: 1 <= k < |items| && items[k].folder == Some(APIFolder(id)) by {
        forall id | id in rest
          ensures exists k :: 1 <= k < |items| && items[k].folder == Some(APIFolder(id))
        {
          var k :| 0 <= k < |items[1..]| && items[1..][k].folder == Some(APIFolder(id));
          assert items[k + 1] == items[1..][k];
        }
      }
      (if items[0].folder.Some? then [items[0].folder.value.id] else []) + rest
  }

  /** Both filters keep the listing's order: splitting a concatenation is
      concatenating the splits. */
  lemma {:induction false} SplitDistributesOverConcatenation(a: seq<FolderItem>, b: seq<FolderItem>)
    ensures FileItems(a + b) == FileItems(a) + FileItems(b)
    ensures FolderIDs(a + b) == FolderIDs(a) + FolderIDs(b)
  {
    if a != [] {
      assert (a + b)[1..] == a[1..] + b;
      SplitDistributesOverConcatenation(a[1..], b);
    } else {
      assert a + b == b;
    }
  }

  /** On one item the split keeps the item when it is a file and its folder id
      when it is a folder; with `SplitDistributesOverConcatenation` this fixes
      the split of every listing. */
  lemma SplitOfOneItem(x: FolderItem)
    ensures FileItems([x]) == if x.file.Some? then [x] else []
    ensures FolderIDs([x]) == if x.folder.Some? then [x.folder.value.id] else []
  {
  }

  /** `getFilesAndFolderIDs`' handling of the fetched listing: an unauthorized
      folder reads as empty, any other failure is passed on, and a listing is
      split into its file items and its sub-folder ids. */
  function GetFilesAndFolderIDs(listing: FolderListing): (r: Result<(seq<FolderItem>, seq<string>), APIError>)
    ensures listing == ListingFailed(Unauthorized) ==> r == Success(([], []))
    ensures listing.ListingFailed? && listing.error != Unauthorized ==> r == Failure(listing.error)
    ensures listing.Listed? ==> r.Success? && r.value.0 == FileItems(listing.items) && r.value.1 == FolderIDs(listing.items)
  {
    match listing
    case ListingFailed(Unauthorized) => Success(([], []))
    case ListingFailed(e) => Failure(e)
    case Listed(items) => Success((FileItems(items), FolderIDs(items)))
  }

  /** The sub-folders a fetch reveals. */
  function ChildFolderIDs(listing: FolderListing): seq<string> {
    if listing.Listed? then FolderIDs(listing.items) else []
  }

  /** The folder oracle describes a finite tree: every sub-folder ranks below
      its parent. */
  ghost predicate RankedFolders(fetch: string -> FolderListing, rank: string -> nat) {
    forall f, c :: c in ChildFolderIDs(fetch(f)) ==> rank(c) < rank(f)
  }

  /** A result with `prefix` put in front of its value. */
  function Prefixed(prefix: seq<FolderItem>, r: Result<seq<FolderItem>, APIError>): Result<seq<FolderItem>, APIError> {
    match r
    case Success(items) => Success(prefix + items)
    case Failure(e) => Failure(e)
  }

  /** Two results fail together, and with the same error. */
  predicate SameOutcome(r: Result<seq<FolderItem>, APIError>, s: Result<seq<FolderItem>, APIError>) {
    (r.Failure? <==> s.Failure?) && (r.Failure? ==> r.error == s.error)
  }

  // ---------------------------------------------------------------------------
  // `getFiles` as written
  // ---------------------------------------------------------------------------

  /** `getFiles(folderID:initialArray:)`, run sequentially: the folder's file
      items are appended to the accumulator; a leaf returns it; otherwise each
      sub-folder is walked SEEDED WITH THE CURRENT ACCUMULATOR, and what that
      walk returns is appended to the accumulator again. */
  function GetFiles(fetch: string -> FolderListing, rank: string -> nat, folderID: string, initialArray: seq<FolderItem>)
    : (r: Result<seq<FolderItem>, APIError>)
    requires RankedFolders(fetch, rank)
    ensures r.Success? ==> initialArray <= r.value
    ensures r.Success? && (forall x :: x in initialArray ==> x.file.Some?) ==> forall x :: x in r.value ==> x.file.Some?
    decreases rank(folderID), 1, 0
  {
    var split := GetFilesAndFolderIDs(fetch(folderID));
    if split.Failure? then Failure(split.error)
    else
      var (files, folderIDs) := split.value;
      var result := initialArray + files;
      if |folderIDs| == 0 then Success(result)
      else GetChildFiles(fetch, rank, folderID, folderIDs, result)
  }

  /** The `flatMap` over the sub-folder ids of `getFiles`, in order. */
  function GetChildFiles(fetch: string -> FolderListing, rank: string -> nat, parent: string,
                         folderIDs: seq<string>, result: seq<FolderItem>): (r: Result<seq<FolderItem>, APIError>)
    requires RankedFolders(fetch, rank)
    requires forall c :: c in folderIDs ==> rank(c) < rank(parent)
    ensures r.Success? ==> result <= r.value
    ensures r.Success? && (forall x :: x in result ==> x.file.Some?) ==> forall x :: x in r.value ==> x.file.Some?
    decreases rank(parent), 0, |folderIDs|
  {
    if folderIDs == [] then Success(result)
    else match GetFiles(fetch, rank, folderIDs[0], result)
      case Failure(e) => Failure(e)
      case Success(childOutput) => GetChildFiles(fetch, rank, parent, folderIDs[1..], result + childOutput)
  }

  // ---------------------------------------------------------------------------
  // The intended walk: every folder's own result, concatenated by the parent
  // ---------------------------------------------------------------------------

  /** The files of a folder's subtree: its own file items, then those of each
      sub-folder in listing order; an unauthorized folder has none, any other
      failure fails the walk. */
  function CollectFiles(fetch: string -> FolderListing, rank: string -> nat, folderID: string)
    : (r: Result<seq<FolderItem>, APIError>)
    requires RankedFolders(fetch, rank)
    ensures r.Success? ==> forall x :: x in r.value ==> x.file.Some?
    ensures fetch(folderID) == ListingFailed(Unauthorized) ==> r == Success([])
    ensures fetch(folderID).Listed? && r.Success? ==> FileItems(fetch(folderID).items) <= r.value
    decreases rank(folderID), 1, 0
  {
    var split := GetFilesAndFolderIDs(fetch(folderID));
    if split.Failure? then Failure(split.error)
    else
      var (files, folderIDs) := split.value;
      match CollectChildFiles(fetch, rank, folderID, folderIDs)
      case Failure(e) => Failure(e)
      case Success(nested) => Success(files + nested)
  }

  /** The sub-folders' files, concatenated in order. */
  function CollectChildFiles(fetch: string -> FolderListing, rank: string -> nat, parent: string, folderIDs: seq<string>)
    : (r: Result<seq<FolderItem>, APIError>)
    requires RankedFolders(fetch, rank)
    requires forall c :: c in folderIDs ==> rank(c) < rank(parent)
    ensures r.Success? ==> forall x :: x in r.value ==> x.file.Some?
    decreases rank(parent), 0, |folderIDs|
  {
    if folderIDs == [] then Success([])
    else match CollectFiles(fetch, rank, folderIDs[0])
      case Failure(e) => Failure(e)
      case Success(first) =>
        match CollectChildFiles(fetch, rank, parent, folderIDs[1..])
        case Failure(e) => Failure(e)
        case Success(rest) => Success(first + rest)
  }

  /** Everything found below a sub-folder is found for its parent, as often. */
  lemma {:induction false} CollectFilesIncludesSubfolders(fetch: string -> FolderListing, rank: string -> nat, folderID: string, child: string)
    requires RankedFolders(fetch, rank)
    requires child in ChildFolderIDs(fetch(folderID))
    requires CollectFiles(fetch, rank, folderID).Success?
    ensures CollectFiles(fetch, rank, child).Success?
    ensures multiset(CollectFiles(fetch, rank, child).value) <= multiset(CollectFiles(fetch, rank, folderID).value)
  {
    var folderIDs := ChildFolderIDs(fetch(folderID));
    CollectChildFilesIncludesEach(fetch, rank, folderID, folderIDs, child);
  }

  lemma {:induction false} CollectChildFilesIncludesEach(fetch: string -> FolderListing, rank: string -> nat, parent: string,
                                                         folderIDs: seq<string>, child: string)
    requires RankedFolders(fetch, rank)
    requires forall c :: c in folderIDs ==> rank(c) < rank(parent)
    requires child in folderIDs
    requires CollectChildFiles(fetch, rank, parent, folderIDs).Success?
    ensures CollectFiles(fetch, rank, child).Success?
    ensures multiset(CollectFiles(fetch, rank, child).value) <= multiset(CollectChildFiles(fetch, rank, parent, folderIDs).value)
    decreases |folderIDs|
  {
    var first := CollectFiles(fetch, rank, folderIDs[0]).value;
    var rest := CollectChildFiles(fetch, rank, parent, folderIDs[1..]).value;
    assert multiset(first + rest) == multiset(first) + multiset(rest);
    if folderIDs[0] != child {
      CollectChildFilesIncludesEach(fetch, rank, parent, folderIDs[1..], child);
    }
  }

  /** A prefix put in front of a prefixed result is one longer prefix. */
  lemma PrefixedTwice(p: seq<FolderItem>, q: seq<FolderItem>, r: Result<seq<FolderItem>, APIError>)
    ensures Prefixed(p, Prefixed(q, r)) == Prefixed(p + q, r)
  {
    if r.Success? {
      assert p + (q + r.value) == (p + q) + r.value;
    }
  }

  /** One step of a folder's walk: its files, then its sub-folders'. */
  lemma CollectFilesUnfold(fetch: string -> FolderListing, rank: string -> nat, folderID: string)
    requires RankedFolders(fetch, rank)
    requires GetFilesAndFolderIDs(fetch(folderID)).Success?
    ensures CollectFiles(fetch, rank, folderID)
         == Prefixed(GetFilesAndFolderIDs(fetch(folderID)).value.0,
                     CollectChildFiles(fetch, rank, folderID, GetFilesAndFolderIDs(fetch(folderID)).value.1))
  {
  }

  /** One step of the sub-folder fold, at position `i`. */
  lemma CollectChildFilesAt(fetch: string -> FolderListing, rank: string -> nat, parent: string, folderIDs: seq<string>, i: nat)
    requires RankedFolders(fetch, rank)
    requires forall c :: c in folderIDs ==> rank(c) < rank(parent)
    requires i < |folderIDs|
    ensures CollectFiles(fetch, rank, folderIDs[i]).Failure? ==>
      CollectChildFiles(fetch, rank, parent, folderIDs[i..]) == Failure(CollectFiles(fetch, rank, folderIDs[i]).error)
    ensures CollectFiles(fetch, rank, folderIDs[i]).Success? ==>
      CollectChildFiles(fetch, rank, parent, folderIDs[i..])
        == Prefixed(CollectFiles(fetch, rank, folderIDs[i]).value, CollectChildFiles(fetch, rank, parent, folderIDs[i + 1..]))
  {
    assert folderIDs[i..][0] == folderIDs[i] && folderIDs[i..][1..] == folderIDs[i + 1..];
  }

  /** `getFiles` with the accumulator corrected: each sub-folder is walked from
      an empty array and its result appended once, so the accumulator ends as
      `initialArray` followed by the folder's subtree files. */
  method WalkFolder(fetch: string -> FolderListing, rank: string -> nat, folderID: string, initialArray: seq<FolderItem>)
    returns (r: Result<seq<FolderItem>, APIError>)
    requires RankedFolders(fetch, rank)
    ensures r == Prefixed(initialArray, CollectFiles(fetch, rank, folderID))
    decreases rank(folderID), 1
  {
    var result := initialArray;
    var split := GetFilesAndFolderIDs(fetch(folderID));
    if split.Failure? {
      return Failure(split.error);
    }
    var (files, folderIDs) := split.value;
    assert folderIDs == ChildFolderIDs(fetch(folderID));
    CollectFilesUnfold(fetch, rank, folderID);
    PrefixedTwice(initialArray, files, CollectChildFiles(fetch, rank, folderID, folderIDs));
    result := result + files;
    if |folderIDs| == 0 {
      PrefixedNothing(result);
      return Success(result);
    }
    r := WalkSubfolders(fetch, rank, folderID, folderIDs, result);
  }

  /** The sub-folder loop of the corrected `getFiles`. */
  method WalkSubfolders(fetch: string -> FolderListing, rank: string -> nat, parent: string,
                        folderIDs: seq<string>, initialResult: seq<FolderItem>)
    returns (r: Result<seq<FolderItem>, APIError>)
    requires RankedFolders(fetch, rank)
    requires forall c :: c in folderIDs ==> rank(c) < rank(parent)
    ensures r == Prefixed(initialResult, CollectChildFiles(fetch, rank, parent, folderIDs))
    decreases rank(parent), 0
  {
    var result := initialResult;
    assert folderIDs[0..] == folderIDs;
    var i := 0;
    while i < |folderIDs|
      invariant 0 <= i <= |folderIDs|
      invariant Prefixed(result, CollectChildFiles(fetch, rank, parent, folderIDs[i..]))
             == Prefixed(initialResult, CollectChildFiles(fetch, rank, parent, folderIDs))
    {
      CollectChildFilesAt(fetch, rank, parent, folderIDs, i);
      var childOutput := WalkFolder(fetch, rank, folderIDs[i], []);
      if childOutput.Failure? {
        return Failure(childOutput.error);
      }
      ghost var collected := CollectFiles(fetch, rank, folderIDs[i]);
      assert collected.Success? && childOutput.value == [] + collected.value;
      assert [] + collected.value == collected.value;
      PrefixedTwice(result, childOutput.value, CollectChildFiles(fetch, rank, parent, folderIDs[i + 1..]));
      result := result + childOutput.value;
      i := i + 1;
    }
    assert folderIDs[i..] == [];
    PrefixedNothing(result);
    return Success(result);
  }

  /** The fold over no sub-folders adds nothing. */
  lemma PrefixedNothing(p: seq<FolderItem>)
    ensures Prefixed(p, Success([])) == Success(p)
  {
    assert p + [] == p;
  }

  // ---------------------------------------------------------------------------
  // How the walk as written relates to the intended one
  // ---------------------------------------------------------------------------

  /** On a leaf folder (no sub-folders) the walk as written is the intended one. */
  lemma GetFilesOnLeaf(fetch: string -> FolderListing, rank: string -> nat, folderID: string, initialArray: seq<FolderItem>)
    requires RankedFolders(fetch, rank)
    requires ChildFolderIDs(fetch(folderID)) == []
    ensures GetFiles(fetch, rank, folderID, initialArray) == Prefixed(initialArray, CollectFiles(fetch, rank, folderID))
  {
    var split := GetFilesAndFolderIDs(fetch(folderID));
    if split.Success? {
      assert split.value.1 == [];
      assert split.value.0 + [] == split.value.0;
    }
  }

  /** As written, the walk visits the same folders in the same order as the
      intended one and so fails exactly when it does, with the same error. */
  lemma {:induction false} GetFilesFailsLikeCollectFiles(fetch: string -> FolderListing, rank: string -> nat,
                                                        folderID: string, initialArray: seq<FolderItem>)
    requires RankedFolders(fetch, rank)
    ensures SameOutcome(GetFiles(fetch, rank, folderID, initialArray), CollectFiles(fetch, rank, folderID))
    decreases rank(folderID), 1, 0
  {
    var split := GetFilesAndFolderIDs(fetch(folderID));
    if split.Success? {
      var (files, folderIDs) := split.value;
      assert folderIDs == ChildFolderIDs(fetch(folderID));
      GetChildFilesFailsLikeCollect(fetch, rank, folderID, folderIDs, initialArray + files);
    }
  }

  lemma {:induction false} GetChildFilesFailsLikeCollect(fetch: string -> FolderListing, rank: string -> nat, parent: string,
                                                        folderIDs: seq<string>, result: seq<FolderItem>)
    requires RankedFolders(fetch, rank)
    requires forall c :: c in folderIDs ==> rank(c) < rank(parent)
    ensures SameOutcome(GetChildFiles(fetch, rank, parent, folderIDs, result), CollectChildFiles(fetch, rank, parent, folderIDs))
    decreases rank(parent), 0, |folderIDs|
  {
    if folderIDs != [] {
      GetFilesFailsLikeCollectFiles(fetch, rank, folderIDs[0], result);
      match GetFiles(fetch, rank, folderIDs[0], result)
      case Failure(e) =>
      case Success(childOutput) =>
        GetChildFilesFailsLikeCollect(fetch, rank, parent, folderIDs[1..], result + childOutput);
    }
  }

  /** The walk as written loses no file and invents none: an item is in its
      result exactly when it is in the seed or in the intended walk's result,
      so the defect only repeats items. */
  lemma {:induction false} GetFilesSameItemsAsCollectFiles(fetch: string -> FolderListing, rank: string -> nat,
                                                          folderID: string, initialArray: seq<FolderItem>)
    requires RankedFolders(fetch, rank)
    ensures GetFiles(fetch, rank, folderID, initialArray).Success? ==>
      CollectFiles(fetch, rank, folderID).Success?
      && forall x :: x in GetFiles(fetch, rank, folderID, initialArray).value
           <==> x in initialArray || x in CollectFiles(fetch, rank, folderID).value
    decreases rank(folderID), 1, 0
  {
    var split := GetFilesAndFolderIDs(fetch(folderID));
    if split.Success? {
      var (files, folderIDs) := split.value;
      assert folderIDs == ChildFolderIDs(fetch(folderID));
      if |folderIDs| == 0 {
        assert CollectChildFiles(fetch, rank, folderID, folderIDs) == Success([]);
        assert files + [] == files;
      } else {
        GetChildFilesSameItemsAsCollect(fetch, rank, folderID, folderIDs, initialArray + files);
      }
    }
  }

  lemma {:induction false} GetChildFilesSameItemsAsCollect(fetch: string -> FolderListing, rank: string -> nat, parent: string,
                                                          folderIDs: seq<string>, result: seq<FolderItem>)
    requires RankedFolders(fetch, rank)
    requires forall c :: c in folderIDs ==> rank(c) < rank(parent)
    ensures GetChildFiles(fetch, rank, parent, folderIDs, result).Success? ==>
      CollectChildFiles(fetch, rank, parent, folderIDs).Success?
      && forall x :: x in GetChildFiles(fetch, rank, parent, folderIDs, result).value
           <==> x in result || x in CollectChildFiles(fetch, rank, parent, folderIDs).value
    decreases rank(parent), 0, |folderIDs|
  {
    if folderIDs != [] {
      GetFilesSameItemsAsCollectFiles(fetch, rank, folderIDs[0], result);
      match GetFiles(fetch, rank, folderIDs[0], result)
      case Failure(e) =>
      case Success(childOutput) =>
        GetChildFilesSameItemsAsCollect(fetch, rank, parent, folderIDs[1..], result + childOutput);
    }
  }

  /** A course whose root folder holds `y.pdf` and a sub-folder holding `x.pdf`. */
  function ScenarioYItem(): FolderItem {
    FolderItem(Some(APIFile(Some("y"), Some("y.pdf"), None)), None)
  }

  function ScenarioXItem(): FolderItem {
    FolderItem(Some(APIFile(Some("x"), Some("x.pdf"), None)), None)
  }

  function ScenarioFetch(folderID: string): FolderListing {
    if folderID == "r1" then Listed([ScenarioYItem(), FolderItem(None, Some(APIFolder("r1/a")))])
    else if folderID == "r1/a" then Listed([ScenarioXItem()])
    else Listed([])
  }

  function ScenarioRank(folderID: string): nat {
    if folderID == "r1" then 1 else 0
  }

  lemma ScenarioListings()
    ensures GetFilesAndFolderIDs(ScenarioFetch("r1")) == Success(([ScenarioYItem()], ["r1/a"]))
    ensures GetFilesAndFolderIDs(ScenarioFetch("r1/a")) == Success(([ScenarioXItem()], []))
  {
    var root := [ScenarioYItem(), FolderItem(None, Some(APIFolder("r1/a")))];
    SplitDistributesOverConcatenation([root[0]], [root[1]]);
    SplitOfOneItem(root[0]);
    SplitOfOneItem(root[1]);
    SplitOfOneItem(ScenarioXItem());
    assert [root[0]] + [root[1]] == root;
    assert FileItems(root) == [ScenarioYItem()] + [];
    assert FolderIDs(root) == [] + ["r1/a"];
    assert [ScenarioYItem()] + [] == [ScenarioYItem()] && [] + ["r1/a"] == ["r1/a"];
    assert ScenarioFetch("r1") == Listed(root);
  }

  lemma ScenarioRanked()
    ensures RankedFolders(ScenarioFetch, ScenarioRank)
  {
    ScenarioListings();
    forall f: string
      ensures ChildFolderIDs(ScenarioFetch(f)) == if f == "r1" then ["r1/a"] else []
    {
    }
  }

  /** The walk as written returns the root's file twice: the sub-folder's walk
      starts from `[y]`, returns `[y, x]`, and that is appended to `[y]`. The
      intended walk returns each file once. */
  lemma GetFilesDuplicatesParentFiles()
    ensures RankedFolders(ScenarioFetch, ScenarioRank)
    ensures GetFiles(ScenarioFetch, ScenarioRank, "r1", []) == Success([ScenarioYItem(), ScenarioYItem(), ScenarioXItem()])
    ensures CollectFiles(ScenarioFetch, ScenarioRank, "r1") == Success([ScenarioYItem(), ScenarioXItem()])
  {
    var y, x := ScenarioYItem(), ScenarioXItem();
    ScenarioListings();
    ScenarioRanked();
    // the sub-folder, seeded with the parent's accumulator
    assert [y] + [x] == [y, x];
    assert GetFiles(ScenarioFetch, ScenarioRank, "r1/a", [y]) == Success([y, x]);
    assert ["r1/a"][1..] == [];
    assert GetChildFiles(ScenarioFetch, ScenarioRank, "r1", ["r1/a"], [y]) == Success([y] + [y, x]);
    assert [] + [y] == [y];
    assert [y] + [y, x] == [y, y, x];
    // the intended walk
    assert [x] + [] == [x];
    assert CollectFiles(ScenarioFetch, ScenarioRank, "r1/a") == Success([x]);
    assert CollectChildFiles(ScenarioFetch, ScenarioRank, "r1", ["r1/a"]) == Success([x] + []);
  }

  // ---------------------------------------------------------------------------
  // Folder items to `CourseSyncEntry.File`
  // ---------------------------------------------------------------------------

  /** The mapping in `getAllFiles`: the file's id, or a generated one when it
      has none; its display name, or "Unknown file"; its url; selected. */
  function ToSyncFile(item: FolderItem, generatedID: string): (f: File)
    ensures f.isSelected
    ensures item.file.Some? && item.file.value.id.Some? ==> f.id == item.file.value.id.value
    ensures (item.file.None? || item.file.value.id.None?) ==> f.id == generatedID
    ensures item.file.Some? && item.file.value.displayName.Some? ==> f.name == item.file.value.displayName.value
    ensures (item.file.None? || item.file.value.displayName.None?) ==> f.name == "Unknown file"
    ensures f.url == if item.file.Some? then item.file.value.url else None
  {
    var id := if item.file.Some? then item.file.value.id else None;
    var name := if item.file.Some? then item.file.value.displayName else None;
    var url := if item.file.Some? then item.file.value.url else None;
    NewFile(id.GetOr(generatedID), name.GetOr("Unknown file"), url)
  }

  /** Every item mapped in order; `uuid(k)` is the id generated for position `k`. */
  function ToSyncFiles(items: seq<FolderItem>, uuid: nat -> string): (files: seq<File>)
    ensures |files| == |items|
    ensures forall k :: 0 <= k < |items| ==> files[k] == ToSyncFile(items[k], uuid(k))
    ensures AllFilesSelected(files)
  {
    seq(|items|, k requires 0 <= k < |items| => ToSyncFile(items[k], uuid(k)))
  }

  /** `getAllFiles` for one root folder: the as-written walk from an empty
      seed, each walked item mapped to a sync record. It fails exactly when
      the intended walk fails, with the same error. */
  function RootFolderFiles(fetch: string -> FolderListing, rank: string -> nat, rootID: string, uuid: nat -> string)
    : (r: Result<seq<File>, APIError>)
    requires RankedFolders(fetch, rank)
    ensures r.Success? <==> CollectFiles(fetch, rank, rootID).Success?
    ensures r.Failure? ==> r.error == CollectFiles(fetch, rank, rootID).error
    ensures r.Success? ==> GetFiles(fetch, rank, rootID, []).Success?
                           && r.value == ToSyncFiles(GetFiles(fetch, rank, rootID, []).value, uuid)
    ensures r.Success? ==> AllFilesSelected(r.value)
  {
    GetFilesFailsLikeCollectFiles(fetch, rank, rootID, []);
    match GetFiles(fetch, rank, rootID, [])
    case Failure(e) => Failure(e)
    case Success(items) => Success(ToSyncFiles(items, uuid))
  }

  /** The same root folder's records from the intended walk, where every file
      of the subtree appears once. */
  function IntendedRootFolderFiles(fetch: string -> FolderListing, rank: string -> nat, rootID: string, uuid: nat -> string)
    : (r: Result<seq<File>, APIError>)
    requires RankedFolders(fetch, rank)
    ensures r.Success? <==> CollectFiles(fetch, rank, rootID).Success?
    ensures r.Success? ==> r.value == ToSyncFiles(CollectFiles(fetch, rank, rootID).value, uuid)
  {
    match CollectFiles(fetch, rank, rootID)
    case Failure(e) => Failure(e)
    case Success(items) => Success(ToSyncFiles(items, uuid))
  }

  /** On the two-level scenario `getAllFiles` as written yields three records,
      `y.pdf` twice, where the intended walk yields two. */
  lemma RootFolderFilesOnScenario(uuid: nat -> string)
    ensures RankedFolders(ScenarioFetch, ScenarioRank)
    ensures RootFolderFiles(ScenarioFetch, ScenarioRank, "r1", uuid).Success?
    ensures |RootFolderFiles(ScenarioFetch, ScenarioRank, "r1", uuid).value| == 3
    ensures IntendedRootFolderFiles(ScenarioFetch, ScenarioRank, "r1", uuid).Success?
    ensures |IntendedRootFolderFiles(ScenarioFetch, ScenarioRank, "r1", uuid).value| == 2
  {
    GetFilesDuplicatesParentFiles();
  }
}
