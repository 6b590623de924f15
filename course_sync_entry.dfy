/** The course-sync selection record: a course with its offline-syncable tabs
    and files, each carrying a selection flag, and the cascades that keep those
    flags in step (CourseSyncSelectorInteractor.swift, `struct CourseSyncEntry`). */
module CourseSyncEntries {
  import opened Wrappers

  /** The tab classification. Only `.files` has behaviour of its own here; every
      other `TabName` case is kept by its raw name. */
  datatype TabName = Files | Other(rawName: string)

  datatype Tab = Tab(id: string, name: string, tabType: TabName, isCollapsed: bool, isSelected: bool)

  datatype File = File(id: string, name: string, url: Option<string>, isSelected: bool)

  datatype CourseSyncEntry = CourseSyncEntry(
    name: string,
    id: string,
    tabs: seq<Tab>,
    files: seq<File>,
    isCollapsed: bool,
    isSelected: bool)

  /** The memberwise initialisers, with Swift's default property values. */
  function NewTab(id: string, name: string, tabType: TabName): Tab {
    Tab(id, name, tabType, true, true)
  }

  function NewFile(id: string, name: string, url: Option<string>): File {
    File(id, name, url, true)
  }

  function NewEntry(name: string, id: string, tabs: seq<Tab>, files: seq<File>): CourseSyncEntry {
    CourseSyncEntry(name, id, tabs, files, true, true)
  }

  // ---------------------------------------------------------------------------
  // Counting selected flags: the `reduce(0) { partial + (flag ? 1 : 0) }` folds
  // ---------------------------------------------------------------------------

  /** A left fold over the flags that adds one for every `true`. */
  function CountTrue(flags: seq<bool>): (n: nat)
    ensures n <= |flags|
    ensures n == |flags| <==> forall k :: 0 <= k < |flags| ==> flags[k]
    ensures n == 0 <==> forall k :: 0 <= k < |flags| ==> !flags[k]
  {
    if flags == [] then 0
    else CountTrue(flags[..|flags| - 1]) + (if flags[|flags| - 1] then 1 else 0)
  }

  /** The fold counts exactly the positions that hold `true`. */
  lemma {:induction false} CountTrueIsCardinality(flags: seq<bool>)
    ensures CountTrue(flags) == |set k | 0 <= k < |flags| && flags[k]|
  {
    if flags != [] {
      var n := |flags| - 1;
      var prefix := flags[..n];
      CountTrueIsCardinality(prefix);
      var before := set k | 0 <= k < |prefix| && prefix[k];
      var after := set k | 0 <= k < |flags| && flags[k];
      assert n !in before;
      if flags[n] {
        assert after == before + {n};
      } else {
        assert after == before;
      }
    }
  }

  function TabFlags(tabs: seq<Tab>): (flags: seq<bool>)
    ensures |flags| == |tabs|
    ensures forall k :: 0 <= k < |tabs| ==> flags[k] == tabs[k].isSelected
  {
    seq(|tabs|, k requires 0 <= k < |tabs| => tabs[k].isSelected)
  }

  function FileFlags(files: seq<File>): (flags: seq<bool>)
    ensures |flags| == |files|
    ensures forall k :: 0 <= k < |files| ==> flags[k] == files[k].isSelected
  {
    seq(|files|, k requires 0 <= k < |files| => files[k].isSelected)
  }

  predicate AllTabsSelected(tabs: seq<Tab>) {
    forall k :: 0 <= k < |tabs| ==> tabs[k].isSelected
  }

  predicate AllFilesSelected(files: seq<File>) {
    forall k :: 0 <= k < |files| ==> files[k].isSelected
  }

  /** `selectedTabsCount`: between 0 and the number of tabs, at the top exactly
      when every tab is selected and at the bottom exactly when none is. */
  function SelectedTabsCount(tabs: seq<Tab>): (n: nat)
    ensures n <= |tabs|
    ensures n == |tabs| <==> AllTabsSelected(tabs)
    ensures n == 0 <==> forall k :: 0 <= k < |tabs| ==> !tabs[k].isSelected
  {
    CountTrue(TabFlags(tabs))
  }

  /** `selectedFilesCount`, with the same bounds as `SelectedTabsCount`. */
  function SelectedFilesCount(files: seq<File>): (n: nat)
    ensures n <= |files|
    ensures n == |files| <==> AllFilesSelected(files)
    ensures n == 0 <==> forall k :: 0 <= k < |files| ==> !files[k].isSelected
  {
    CountTrue(FileFlags(files))
  }

  /** `selectedTabsCount` is the number of selected tabs. */
  lemma SelectedTabsCountIsCardinality(tabs: seq<Tab>)
    ensures SelectedTabsCount(tabs) == |set k | 0 <= k < |tabs| && tabs[k].isSelected|
  {
    var flags := TabFlags(tabs);
    CountTrueIsCardinality(flags);
    assert (set k | 0 <= k < |flags| && flags[k]) == (set k | 0 <= k < |tabs| && tabs[k].isSelected);
  }

  /** `selectedFilesCount` is the number of selected files. */
  lemma SelectedFilesCountIsCardinality(files: seq<File>)
    ensures SelectedFilesCount(files) == |set k | 0 <= k < |files| && files[k].isSelected|
  {
    var flags := FileFlags(files);
    CountTrueIsCardinality(flags);
    assert (set k | 0 <= k < |flags| && flags[k]) == (set k | 0 <= k < |files| && files[k].isSelected);
  }

  /** What one entry adds to the observed selected count. */
  function EntrySelectedCount(e: CourseSyncEntry): nat {
    SelectedFilesCount(e.files) + SelectedTabsCount(e.tabs)
  }

  function EntryItemCount(e: CourseSyncEntry): nat {
    |e.files| + |e.tabs|
  }

  function TotalItemCount(entries: seq<CourseSyncEntry>): nat {
    if entries == [] then 0
    else TotalItemCount(entries[..|entries| - 1]) + EntryItemCount(entries[|entries| - 1])
  }

  /** The fold in `observeSelectedCount`: the sum over the entries of
      `selectedFilesCount + selectedTabsCount`, never above the number of
      tabs and files there are. */
  function TotalSelectedCount(entries: seq<CourseSyncEntry>): (n: nat)
    ensures n <= TotalItemCount(entries)
  {
    if entries == [] then 0
    else TotalSelectedCount(entries[..|entries| - 1]) + EntrySelectedCount(entries[|entries| - 1])
  }

  predicate EntryFullySelected(e: CourseSyncEntry) {
    AllTabsSelected(e.tabs) && AllFilesSelected(e.files)
  }

  /** Freshly built entries (every tab and file at its default `isSelected =
      true`) contribute every tab and every file to the count. */
  lemma {:induction false} FullySelectedEntriesCountEverything(entries: seq<CourseSyncEntry>)
    requires forall k :: 0 <= k < |entries| ==> EntryFullySelected(entries[k])
    ensures TotalSelectedCount(entries) == TotalItemCount(entries)
  {
    if entries != [] {
      FullySelectedEntriesCountEverything(entries[..|entries| - 1]);
    }
  }

  /** Replacing one entry changes the total by exactly that entry's difference. */
  lemma {:induction false} TotalSelectedCountAfterUpdate(entries: seq<CourseSyncEntry>, i: nat, e: CourseSyncEntry)
    requires i < |entries|
    ensures TotalSelectedCount(entries[i := e])
         == TotalSelectedCount(entries) - EntrySelectedCount(entries[i]) + EntrySelectedCount(e)
  {
    var n := |entries| - 1;
    var updated := entries[i := e];
    var prefix := entries[..n];
    assert TotalSelectedCount(entries) == TotalSelectedCount(prefix) + EntrySelectedCount(entries[n]);
    assert TotalSelectedCount(updated) == TotalSelectedCount(updated[..n]) + EntrySelectedCount(updated[n]);
    if i < n {
      assert updated[..n] == prefix[i := e];
      TotalSelectedCountAfterUpdate(prefix, i, e);
    } else {
      assert updated[..n] == prefix;
    }
  }

  // ---------------------------------------------------------------------------
  // The selection cascades
  // ---------------------------------------------------------------------------

  /** Two tabs agree on everything except, possibly, their selection flag. */
  predicate SameTabExceptSelection(t: Tab, u: Tab) {
    t.id == u.id && t.name == u.name && t.tabType == u.tabType && t.isCollapsed == u.isCollapsed
  }

  /** Two files agree on everything except, possibly, their selection flag. */
  predicate SameFileExceptSelection(f: File, g: File) {
    f.id == g.id && f.name == g.name && f.url == g.url
  }

  /** The entry's identity and its own flags are those of `e`. */
  predicate SameEntryHeader(r: CourseSyncEntry, e: CourseSyncEntry) {
    r.name == e.name && r.id == e.id && r.isCollapsed == e.isCollapsed && r.isSelected == e.isSelected
  }

  /** Every tab flag overwritten with `b` (`tabs.indices.forEach`). */
  function SetTabFlags(tabs: seq<Tab>, b: bool): (r: seq<Tab>)
    ensures |r| == |tabs|
    ensures forall k :: 0 <= k < |r| ==> r[k].isSelected == b && SameTabExceptSelection(r[k], tabs[k])
  {
    seq(|tabs|, k requires 0 <= k < |tabs| => tabs[k].(isSelected := b))
  }

  /** Every file flag overwritten with `b` (`files.indices.forEach`). */
  function SetFileFlags(files: seq<File>, b: bool): (r: seq<File>)
    ensures |r| == |files|
    ensures forall k :: 0 <= k < |r| ==> r[k].isSelected == b && SameFileExceptSelection(r[k], files[k])
  {
    seq(|files|, k requires 0 <= k < |files| => files[k].(isSelected := b))
  }

  /** Assigning the entry's `isSelected`: its `didSet` overwrites every tab and
      every file flag with the new value; names, ids, types, urls and the
      collapsed flags stay as they were. */
  function WithCourseSelected(e: CourseSyncEntry, b: bool): (r: CourseSyncEntry)
    ensures r.isSelected == b
    ensures r.name == e.name && r.id == e.id && r.isCollapsed == e.isCollapsed
    ensures |r.tabs| == |e.tabs| && |r.files| == |e.files|
    ensures forall k :: 0 <= k < |r.tabs| ==> r.tabs[k].isSelected == b && SameTabExceptSelection(r.tabs[k], e.tabs[k])
    ensures forall k :: 0 <= k < |r.files| ==> r.files[k].isSelected == b && SameFileExceptSelection(r.files[k], e.files[k])
  {
    e.(isSelected := b, tabs := SetTabFlags(e.tabs, b), files := SetFileFlags(e.files, b))
  }

  /** After (de)selecting a course its entry counts every tab and file, or none. */
  lemma CourseSelectionCount(e: CourseSyncEntry, b: bool)
    ensures EntrySelectedCount(WithCourseSelected(e, b)) == if b then EntryItemCount(e) else 0
  {
  }

  /** `selectTab`: the tab takes the new flag; when it is a `.files` tab every
      file takes it too. Other tabs, and the files of a non-files tab, are
      untouched, and so is the entry's own flag. */
  function WithTabSelected(e: CourseSyncEntry, i: nat, b: bool): (r: CourseSyncEntry)
    requires i < |e.tabs|
    ensures SameEntryHeader(r, e)
    ensures |r.tabs| == |e.tabs| && |r.files| == |e.files|
    ensures r.tabs[i].isSelected == b && SameTabExceptSelection(r.tabs[i], e.tabs[i])
    ensures forall k :: 0 <= k < |e.tabs| && k != i ==> r.tabs[k] == e.tabs[k]
    ensures e.tabs[i].tabType == Files ==>
      forall k :: 0 <= k < |r.files| ==> r.files[k].isSelected == b && SameFileExceptSelection(r.files[k], e.files[k])
    ensures e.tabs[i].tabType != Files ==> r.files == e.files
  {
    var withTab := e.(tabs := e.tabs[i := e.tabs[i].(isSelected := b)]);
    if e.tabs[i].tabType == Files then withTab.(files := SetFileFlags(e.files, b)) else withTab
  }

  /** Tab `k` is the first tab of type `.files`. */
  predicate IsFirstFilesTab(tabs: seq<Tab>, k: nat)
    requires k < |tabs|
  {
    tabs[k].tabType == Files && forall m :: 0 <= m < k ==> tabs[m].tabType != Files
  }

  /** The index of the first tab whose type is `.files`, if any. */
  function FirstFilesTab(tabs: seq<Tab>): (r: Option<nat>)
    ensures r.Some? ==> r.value < |tabs| && IsFirstFilesTab(tabs, r.value)
    ensures r.None? ==> forall k :: 0 <= k < |tabs| ==> tabs[k].tabType != Files
  {
    if tabs == [] then None
    else if tabs[0].tabType == Files then Some(0)
    else match FirstFilesTab(tabs[1..])
      case None => None
      case Some(k) => Some(k + 1)
  }

  /** `selectFile`: the file takes the new flag; the first `.files` tab, if
      there is one, is re-derived as "every file is selected"; no other tab
      or file changes, and without a `.files` tab no tab changes at all. */
  function WithFileSelected(e: CourseSyncEntry, j: nat, b: bool): (r: CourseSyncEntry)
    requires j < |e.files|
    ensures SameEntryHeader(r, e)
    ensures |r.files| == |e.files| && |r.tabs| == |e.tabs|
    ensures r.files[j].isSelected == b && SameFileExceptSelection(r.files[j], e.files[j])
    ensures forall k :: 0 <= k < |e.files| && k != j ==> r.files[k] == e.files[k]
    ensures forall k :: 0 <= k < |e.tabs| && IsFirstFilesTab(e.tabs, k) ==>
      r.tabs[k].isSelected == AllFilesSelected(r.files) && SameTabExceptSelection(r.tabs[k], e.tabs[k])
    ensures forall k :: 0 <= k < |e.tabs| && !IsFirstFilesTab(e.tabs, k) ==> r.tabs[k] == e.tabs[k]
  {
    var files := e.files[j := e.files[j].(isSelected := b)];
    match FirstFilesTab(e.tabs)
    case None => e.(files := files)
    case Some(t) =>
      e.(files := files, tabs := e.tabs[t := e.tabs[t].(isSelected := |files| == SelectedFilesCount(files))])
  }

  /** Deselecting any one file leaves the first `.files` tab deselected;
      selecting the last deselected file selects it again. */
  lemma FilesTabFollowsFiles(e: CourseSyncEntry, j: nat, b: bool, t: nat)
    requires j < |e.files| && t < |e.tabs| && IsFirstFilesTab(e.tabs, t)
    ensures !b ==> !WithFileSelected(e, j, b).tabs[t].isSelected
    ensures b && (forall k :: 0 <= k < |e.files| && k != j ==> e.files[k].isSelected) ==>
      WithFileSelected(e, j, b).tabs[t].isSelected
  {
  }

  // ---------------------------------------------------------------------------
  // Selection paths
  // ---------------------------------------------------------------------------

  /** `CourseEntrySelection`: a course, a tab of a course, or a file of a course. */
  datatype CourseEntrySelection =
    | CourseSelection(courseIndex: int)
    | TabSelection(courseIndex: int, tabIndex: int)
    | FileSelection(courseIndex: int, fileIndex: int)

  /** The tab or file index of the path lies inside the entry's arrays. */
  predicate SelectionInEntry(e: CourseSyncEntry, selection: CourseEntrySelection) {
    match selection
    case CourseSelection(_) => true
    case TabSelection(_, t) => 0 <= t < |e.tabs|
    case FileSelection(_, f) => 0 <= f < |e.files|
  }

  /** The cascade a selection path asks for, applied to its entry. */
  function ApplySelection(e: CourseSyncEntry, selection: CourseEntrySelection, b: bool): (r: CourseSyncEntry)
    requires SelectionInEntry(e, selection)
    ensures r.name == e.name && r.id == e.id && r.isCollapsed == e.isCollapsed
    ensures |r.tabs| == |e.tabs| && |r.files| == |e.files|
  {
    match selection
    case CourseSelection(_) => WithCourseSelected(e, b)
    case TabSelection(_, t) => WithTabSelected(e, t, b)
    case FileSelection(_, f) => WithFileSelected(e, f, b)
  }

  // ---------------------------------------------------------------------------
  // The files-tab invariant the cascades keep
  // ---------------------------------------------------------------------------

  /** A course has at most one `.files` tab. */
  predicate AtMostOneFilesTab(tabs: seq<Tab>) {
    forall k, m :: 0 <= k < m < |tabs| && tabs[k].tabType == Files ==> tabs[m].tabType != Files
  }

  /** The first `.files` tab is selected exactly when every file is. */
  predicate FilesTabConsistent(e: CourseSyncEntry) {
    forall k :: 0 <= k < |e.tabs| && IsFirstFilesTab(e.tabs, k) ==> e.tabs[k].isSelected == AllFilesSelected(e.files)
  }

  /** A fresh entry, every flag at its default, is consistent. */
  lemma FreshEntryConsistent(e: CourseSyncEntry)
    requires EntryFullySelected(e)
    ensures FilesTabConsistent(e)
  {
  }

  /** Every selection path keeps the `.files` tab in step with the files, on a
      course with at most one `.files` tab and at least one file. (With no
      files, deselecting the course or the tab leaves the tab off while "all
      files selected" holds vacuously.) */
  lemma {:induction false} SelectionKeepsFilesTabConsistent(e: CourseSyncEntry, selection: CourseEntrySelection, b: bool)
    requires SelectionInEntry(e, selection)
    requires AtMostOneFilesTab(e.tabs) && FilesTabConsistent(e) && |e.files| > 0
    ensures AtMostOneFilesTab(ApplySelection(e, selection, b).tabs)
    ensures FilesTabConsistent(ApplySelection(e, selection, b))
  {
    var r := ApplySelection(e, selection, b);
    assert forall k :: 0 <= k < |r.tabs| ==> r.tabs[k].tabType == e.tabs[k].tabType;
    assert forall k :: 0 <= k < |r.tabs| ==> (IsFirstFilesTab(r.tabs, k) <==> IsFirstFilesTab(e.tabs, k));
    match selection
    case CourseSelection(_) =>
      assert AllFilesSelected(r.files) == b by {
        assert r.files[0].isSelected == b;
      }
    case TabSelection(_, t) =>
      if e.tabs[t].tabType == Files {
        assert IsFirstFilesTab(e.tabs, t);
        assert AllFilesSelected(r.files) == b by {
          assert r.files[0].isSelected == b;
        }
      } else {
        forall k | 0 <= k < |r.tabs| && IsFirstFilesTab(r.tabs, k)
          ensures r.tabs[k].isSelected == AllFilesSelected(r.files)
        {
          assert k != t;
        }
      }
    case FileSelection(_, f) =>
  }

  // ---------------------------------------------------------------------------
  // The mutating functions, as the loops they are in the source
  // ---------------------------------------------------------------------------

  /** The loop over every tab index that sets each tab's flag in place. */
  method AssignTabFlags(tabs: seq<Tab>, b: bool) returns (r: seq<Tab>)
    ensures r == SetTabFlags(tabs, b)
  {
    r := tabs;
    var i := 0;
    while i < |r|
      invariant 0 <= i <= |r| == |tabs|
      invariant forall k :: 0 <= k < i ==> r[k] == tabs[k].(isSelected := b)
      invariant forall k :: i <= k < |r| ==> r[k] == tabs[k]
    {
      r := r[i := r[i].(isSelected := b)];
      i := i + 1;
    }
  }

  /** The loop over every file index that sets each file's flag in place. */
  method AssignFileFlags(files: seq<File>, b: bool) returns (r: seq<File>)
    ensures r == SetFileFlags(files, b)
  {
    r := files;
    var i := 0;
    while i < |r|
      invariant 0 <= i <= |r| == |files|
      invariant forall k :: 0 <= k < i ==> r[k] == files[k].(isSelected := b)
      invariant forall k :: i <= k < |r| ==> r[k] == files[k]
    {
      r := r[i := r[i].(isSelected := b)];
      i := i + 1;
    }
  }

  /** The `isSelected` setter with its `didSet` observer. */
  method SetEntrySelected(e: CourseSyncEntry, b: bool) returns (r: CourseSyncEntry)
    ensures r == WithCourseSelected(e, b)
  {
    r := e.(isSelected := b);
    var tabs := AssignTabFlags(r.tabs, b);
    r := r.(tabs := tabs);
    var files := AssignFileFlags(r.files, b);
    r := r.(files := files);
  }

  /** `mutating func selectTab(index:isSelected:)` */
  method SelectTab(e: CourseSyncEntry, index: nat, b: bool) returns (r: CourseSyncEntry)
    requires index < |e.tabs|
    ensures r == WithTabSelected(e, index, b)
  {
    r := e.(tabs := e.tabs[index := e.tabs[index].(isSelected := b)]);
    if r.tabs[index].tabType != Files {
      return;
    }
    var files := AssignFileFlags(r.files, b);
    r := r.(files := files);
  }

  /** `mutating func selectFile(index:isSelected:)` */
  method SelectFile(e: CourseSyncEntry, index: nat, b: bool) returns (r: CourseSyncEntry)
    requires index < |e.files|
    ensures r == WithFileSelected(e, index, b)
  {
    r := e.(files := e.files[index := e.files[index].(isSelected := b)]);
    var fileTabIndex := FirstFilesTab(r.tabs);
    if fileTabIndex.None? {
      return;
    }
    var t := fileTabIndex.value;
    r := r.(tabs := r.tabs[t := r.tabs[t].(isSelected := |r.files| == SelectedFilesCount(r.files))]);
  }
}
