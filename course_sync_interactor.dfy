/** `CourseSyncSelectorInteractorLive`: the session's list of course entries,
    the selection paths that mutate it, and the selected count it publishes
    (CourseSyncSelectorInteractor.swift). Remote fetches are oracle inputs. */
module CourseSyncInteractor {
  import opened Wrappers
  import opened CourseSyncEntries
  import opened CourseSyncFiles

  /** A course of the active-enrollment course list. */
  datatype CourseListItem = CourseListItem(courseId: string, name: string)

  /** A course tab as `GetContextTabs` delivers it, already narrowed by
      `offlineSupportedTabs()`. */
  datatype ContextTab = ContextTab(id: string, tabLabel: string, name: TabName)

  /** The tab mapping in `getTabs`: id, label (`tabLabel`) as name, tab name as type, and the
      defaults `isCollapsed = true`, `isSelected = true`. */
  function ToSyncTabs(tabs: seq<ContextTab>): (r: seq<Tab>)
    ensures |r| == |tabs|
    ensures forall k :: 0 <= k < |tabs| ==>
      r[k].id == tabs[k].id && r[k].name == tabs[k].tabLabel && r[k].tabType == tabs[k].name
      && r[k].isCollapsed && r[k].isSelected
  {
    seq(|tabs|, k requires 0 <= k < |tabs| => NewTab(tabs[k].id, tabs[k].tabLabel, tabs[k].name))
  }

  /** The entry `getCourseSyncEntries` builds for one course from its tabs and
      its walked folder items: everything selected, so it counts every tab and
      every file, and its `.files` tab agrees with its files. */
  function MakeEntry(course: CourseListItem, tabs: seq<ContextTab>, items: seq<FolderItem>, uuid: nat -> string)
    : (e: CourseSyncEntry)
    ensures e.name == course.name && e.id == course.courseId
    ensures e.tabs == ToSyncTabs(tabs) && e.files == ToSyncFiles(items, uuid)
    ensures e.isSelected && e.isCollapsed
    ensures EntryFullySelected(e) && FilesTabConsistent(e)
    ensures EntrySelectedCount(e) == |tabs| + |items|
  {
    NewEntry(course.name, course.courseId, ToSyncTabs(tabs), ToSyncFiles(items, uuid))
  }

  /** The per-course join and `collect()` of `getCourseSyncEntries`, course by
      course in list order: one failing course fails the whole list, and entry
      `k` is built from course `k`'s own tabs and files. `uuidOf(id)` is the
      id generator used while mapping course `id`'s files. */
  function BuildEntries(courses: seq<CourseListItem>,
                        tabsOf: string -> Result<seq<ContextTab>, APIError>,
                        filesOf: string -> Result<seq<FolderItem>, APIError>,
                        uuidOf: string -> (nat -> string))
    : (r: Result<seq<CourseSyncEntry>, APIError>)
    ensures r.Success? ==> |r.value| == |courses|
    ensures r.Success? ==> forall k :: 0 <= k < |courses| ==>
      tabsOf(courses[k].courseId).Success? && filesOf(courses[k].courseId).Success?
      && r.value[k] == MakeEntry(courses[k], tabsOf(courses[k].courseId).value,
                                 filesOf(courses[k].courseId).value, uuidOf(courses[k].courseId))
    ensures r.Success? ==> forall k :: 0 <= k < |courses| ==>
      r.value[k].id == courses[k].courseId && r.value[k].name == courses[k].name && EntryFullySelected(r.value[k])
    ensures (forall k :: 0 <= k < |courses| ==> tabsOf(courses[k].courseId).Success? && filesOf(courses[k].courseId).Success?)
      <==> r.Success?
  {
    if courses == [] then Success([])
    else
      var course := courses[0];
      match tabsOf(course.courseId)
      case Failure(e) => Failure(e)
      case Success(tabs) =>
        match filesOf(course.courseId)
        case Failure(e) => Failure(e)
        case Success(items) =>
          match BuildEntries(courses[1..], tabsOf, filesOf, uuidOf)
          case Failure(e) => Failure(e)
          case Success(rest) => Success([MakeEntry(course, tabs, items, uuidOf(course.courseId))] + rest)
  }

  /** A freshly fetched list counts every tab and every file it holds. */
  lemma BuiltEntriesCountEverything(courses: seq<CourseListItem>,
                                    tabsOf: string -> Result<seq<ContextTab>, APIError>,
                                    filesOf: string -> Result<seq<FolderItem>, APIError>,
                                    uuidOf: string -> (nat -> string))
    requires BuildEntries(courses, tabsOf, filesOf, uuidOf).Success?
    ensures TotalSelectedCount(BuildEntries(courses, tabsOf, filesOf, uuidOf).value)
         == TotalItemCount(BuildEntries(courses, tabsOf, filesOf, uuidOf).value)
  {
    FullySelectedEntriesCountEverything(BuildEntries(courses, tabsOf, filesOf, uuidOf).value);
  }

  /** The interactor and its `courseSyncEntries` relay, reduced to its current value. */
  class SelectorInteractor {
    var entries: seq<CourseSyncEntry>

    constructor ()
      ensures entries == []
    {
      entries := [];
    }

    /** `courseSyncEntries.accept(...)` with a newly fetched list. */
    method AcceptEntries(newEntries: seq<CourseSyncEntry>)
      modifies this
      ensures entries == newEntries
    {
      entries := newEntries;
    }

    /** The value `observeSelectedCount` publishes for the current list. */
    function ObservedSelectedCount(): (n: nat)
      reads this
      ensures n <= TotalItemCount(entries)
    {
      TotalSelectedCount(entries)
    }

    /** The course index, and the tab or file index, are in range. */
    predicate ValidSelection(selection: CourseEntrySelection)
      reads this
    {
      0 <= selection.courseIndex < |entries| && SelectionInEntry(entries[selection.courseIndex], selection)
    }

    /** `setSelected(selection:isSelected:)`: copy the list, apply the cascade
        to the selected course's entry, and publish the copy. Only that entry
        changes, and the published count moves by its difference. */
    method SetSelected(selection: CourseEntrySelection, isSelected: bool)
      requires ValidSelection(selection)
      modifies this
      ensures |entries| == |old(entries)|
      ensures entries[selection.courseIndex] == ApplySelection(old(entries)[selection.courseIndex], selection, isSelected)
      ensures forall k :: 0 <= k < |entries| && k != selection.courseIndex ==> entries[k] == old(entries)[k]
      ensures ObservedSelectedCount()
           == old(ObservedSelectedCount()) - EntrySelectedCount(old(entries)[selection.courseIndex]) + EntrySelectedCount(entries[selection.courseIndex])
    {
      var courseEntries := entries;
      var courseIndex := selection.courseIndex;
      var entry := courseEntries[courseIndex];
      match selection {
        case CourseSelection(_) =>
          entry := SetEntrySelected(entry, isSelected);
        case TabSelection(_, tabIndex) =>
          entry := SelectTab(entry, tabIndex, isSelected);
        case FileSelection(_, fileIndex) =>
          entry := SelectFile(entry, fileIndex, isSelected);
      }
      TotalSelectedCountAfterUpdate(courseEntries, courseIndex, entry);
      courseEntries := courseEntries[courseIndex := entry];
      entries := courseEntries;
    }
  }
}
