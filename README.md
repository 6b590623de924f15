# Course-sync selection and Teacher routing, modelled in Dafny

This project models two parts of the Canvas iOS client.

**Course-sync selector** (`Core/Core/CourseSync/CourseSyncSelector/Model/CourseSyncSelectorInteractor.swift`).
The user picks which courses, tabs and files to keep for offline use.

- Each course is a `CourseSyncEntry` that holds tabs and files, and every one of them has an `isSelected` flag.
- Three cascades keep the flags in step:
  - setting the course flag overwrites every tab and file flag;
  - selecting a `.files` tab overwrites every file flag;
  - selecting a file re-derives the first `.files` tab as "every file is selected".
- The interactor holds the current list of entries. `setSelected` applies one selection path (a course, a tab or a file) to it. The selected count it publishes is a sum over the list.
- A course's files come from a recursive walk of its folders. An unauthorized folder reads as empty.

**Teacher routing glue** (`rn/Teacher/ios/Teacher/Routes.swift`).
- `TeacherRouter.route` builds the dictionary that the `route` notification carries.
- `TeacherRouter.match` returns the first registered route that yields a screen.
- `Props.context`, `fileDetails`, `fileList` and `fileEditor` choose screens from the props.

Files:

- `wrappers.dfy`: `Option` and `Result`.
- `course_sync_entry.dfy` (module `CourseSyncEntries`): the entry, tab and file records and the count folds. It also holds the cascades: pure functions that specify them, methods with the source's `forEach` loops that implement them, and the invariant they keep.
- `course_sync_files.dfy` (module `CourseSyncFiles`): splitting a folder listing. The folder walk twice: once as written, once corrected. The mapping from folder items to `File` records.
- `course_sync_interactor.dfy` (module `CourseSyncInteractor`): building entries from fetched data. The class `SelectorInteractor`, which holds the entry list and implements `setSelected` and the observed count.
- `routes.dfy` (module `Routes`): the routing glue.

Oracles and parameters:

- **Folder fetch.** A total function `fetch` takes a folder id to what `GetFolderItems` finally delivers after `.retry(3)`: a listing, `Unauthorized`, or another error.
- **Termination.** A function `rank` ranks every sub-folder below its parent (`RankedFolders`).
- **Generated ids.** `Foundation.UUID()` is a parameter. `uuidOf(courseID)` is a generator `nat -> string` for that course, giving the id generated at each position of its file list.
- **Context parsing.** `Context(path:)`, which may fail, is the parameter `contextFromPath`.
- **Percent decoding.** `removingPercentEncoding` is a parameter.
- **Template matching.** `RouteHandler`'s template match and `makeProps` are parameters.
- **Native factories.** Their builders are a map from template to function.

## Model

| member | source | states |
|---|---|---|
| CourseSyncEntries.CountTrue | Core/Core/CourseSync/CourseSyncSelector/Model/CourseSyncSelectorInteractor.swift:216-227 | the `reduce` fold of a flag array lies in 0..length, equals the length iff every flag is set and is 0 iff none is |
| CourseSyncEntries.CountTrueIsCardinality | Core/Core/CourseSync/CourseSyncSelector/Model/CourseSyncSelectorInteractor.swift:216-227 | the fold equals the number of positions holding `true` |
| CourseSyncEntries.SelectedTabsCount | Core/Core/CourseSync/CourseSyncSelector/Model/CourseSyncSelectorInteractor.swift:216-220 | `selectedTabsCount` is at most the tab count, equals it iff all tabs are selected, is 0 iff none is |
| CourseSyncEntries.SelectedFilesCount | Core/Core/CourseSync/CourseSyncSelector/Model/CourseSyncSelectorInteractor.swift:223-227 | `selectedFilesCount`, the same bounds over the files |
| CourseSyncEntries.SelectedTabsCountIsCardinality | Core/Core/CourseSync/CourseSyncSelector/Model/CourseSyncSelectorInteractor.swift:216-220 | `selectedTabsCount` is the size of the set of selected tab positions |
| CourseSyncEntries.SelectedFilesCountIsCardinality | Core/Core/CourseSync/CourseSyncSelector/Model/CourseSyncSelectorInteractor.swift:223-227 | `selectedFilesCount` is the size of the set of selected file positions |
| CourseSyncEntries.TotalSelectedCount | Core/Core/CourseSync/CourseSyncSelector/Model/CourseSyncSelectorInteractor.swift:58-66 | the observed count, the sum of `selectedFilesCount + selectedTabsCount` over the entries, never exceeds the number of tabs and files |
| CourseSyncEntries.FullySelectedEntriesCountEverything | Core/Core/CourseSync/CourseSyncSelector/Model/CourseSyncSelectorInteractor.swift:58-66 | when every tab and file is selected (the defaults) the observed count is the total number of tabs and files |
| CourseSyncEntries.TotalSelectedCountAfterUpdate | Core/Core/CourseSync/CourseSyncSelector/Model/CourseSyncSelectorInteractor.swift:68-81 | replacing one entry changes the observed count by exactly that entry's old and new counts |
| CourseSyncEntries.SetTabFlags | Core/Core/CourseSync/CourseSyncSelector/Model/CourseSyncSelectorInteractor.swift:232 | every tab takes flag `b`; ids, names, types and collapsed flags are unchanged |
| CourseSyncEntries.SetFileFlags | Core/Core/CourseSync/CourseSyncSelector/Model/CourseSyncSelectorInteractor.swift:233 | every file takes flag `b`; ids, names and urls are unchanged |
| CourseSyncEntries.WithCourseSelected | Core/Core/CourseSync/CourseSyncSelector/Model/CourseSyncSelectorInteractor.swift:230-235 | setting the course flag to `b` leaves every tab and every file at `b`, with names, ids, types and array lengths unchanged |
| CourseSyncEntries.CourseSelectionCount | Core/Core/CourseSync/CourseSyncSelector/Model/CourseSyncSelectorInteractor.swift:230-235 | after (de)selecting a course its entry contributes all of its tabs and files, or none |
| CourseSyncEntries.WithTabSelected | Core/Core/CourseSync/CourseSyncSelector/Model/CourseSyncSelectorInteractor.swift:237-245 | tab `i` takes `b` and no other tab changes; a `.files` tab also sets every file to `b`, any other tab leaves the files untouched; the entry's own flag is unchanged |
| CourseSyncEntries.FirstFilesTab | Core/Core/CourseSync/CourseSyncSelector/Model/CourseSyncSelectorInteractor.swift:249 | `firstIndex(where:)` gives the first `.files` tab, or none when no tab is `.files` |
| CourseSyncEntries.WithFileSelected | Core/Core/CourseSync/CourseSyncSelector/Model/CourseSyncSelectorInteractor.swift:247-253 | file `j` takes `b`, the other files are unchanged; the first `.files` tab ends selected iff every file is; every other tab (all of them when there is no `.files` tab) is unchanged |
| CourseSyncEntries.FilesTabFollowsFiles | Core/Core/CourseSync/CourseSyncSelector/Model/CourseSyncSelectorInteractor.swift:247-253 | deselecting any file deselects the `.files` tab; selecting the last deselected file selects it again |
| CourseSyncEntries.ApplySelection | Core/Core/CourseSync/CourseSyncSelector/Model/CourseSyncSelectorInteractor.swift:71-78 | dispatching a selection path onto an entry keeps its name, id, collapsed flag and array lengths |
| CourseSyncEntries.FreshEntryConsistent | Core/Core/CourseSync/CourseSyncSelector/Model/CourseSyncSelectorInteractor.swift:197-210 | an entry with every flag at its default has its `.files` tab in step with its files |
| CourseSyncEntries.SelectionKeepsFilesTabConsistent | Core/Core/CourseSync/CourseSyncSelector/Model/CourseSyncSelectorInteractor.swift:230-253 | with at most one `.files` tab and at least one file, every cascade keeps "the `.files` tab is selected iff all files are" |
| CourseSyncEntries.AssignTabFlags | Core/Core/CourseSync/CourseSyncSelector/Model/CourseSyncSelectorInteractor.swift:232 | the `forEach` loop over the tabs computes `SetTabFlags` |
| CourseSyncEntries.AssignFileFlags | Core/Core/CourseSync/CourseSyncSelector/Model/CourseSyncSelectorInteractor.swift:244 | the `forEach` loop over the files computes `SetFileFlags` |
| CourseSyncEntries.SetEntrySelected | Core/Core/CourseSync/CourseSyncSelector/Model/CourseSyncSelectorInteractor.swift:230-235 | the `isSelected` setter with its `didSet` computes `WithCourseSelected` |
| CourseSyncEntries.SelectTab | Core/Core/CourseSync/CourseSyncSelector/Model/CourseSyncSelectorInteractor.swift:237-245 | `selectTab` computes `WithTabSelected` |
| CourseSyncEntries.SelectFile | Core/Core/CourseSync/CourseSyncSelector/Model/CourseSyncSelectorInteractor.swift:247-253 | `selectFile` computes `WithFileSelected` |
| CourseSyncFiles.FileItems | Core/Core/CourseSync/CourseSyncSelector/Model/CourseSyncSelectorInteractor.swift:174 | the files are exactly the listed items with `file != nil` |
| CourseSyncFiles.FolderIDs | Core/Core/CourseSync/CourseSyncSelector/Model/CourseSyncSelectorInteractor.swift:175-178 | the folder ids are exactly the ids of the listed items with `folder != nil` |
| CourseSyncFiles.SplitDistributesOverConcatenation | Core/Core/CourseSync/CourseSyncSelector/Model/CourseSyncSelectorInteractor.swift:174-178 | both filters keep the listing's order: the split of `a + b` is the split of `a` followed by that of `b` |
| CourseSyncFiles.SplitOfOneItem | Core/Core/CourseSync/CourseSyncSelector/Model/CourseSyncSelectorInteractor.swift:174-178 | on a single item the split keeps the item if it is a file and its folder id if it is a folder |
| CourseSyncFiles.GetFilesAndFolderIDs | Core/Core/CourseSync/CourseSyncSelector/Model/CourseSyncSelectorInteractor.swift:164-180 | an unauthorized folder yields `([], [])`, any other failure is passed on, and a listing yields its file items and folder ids |
| CourseSyncFiles.GetFiles | Core/Core/CourseSync/CourseSyncSelector/Model/CourseSyncSelectorInteractor.swift:127-154 | the walk as written: its result starts with the seed array and, when the seed holds only files, holds only files |
| CourseSyncFiles.GetChildFiles | Core/Core/CourseSync/CourseSyncSelector/Model/CourseSyncSelectorInteractor.swift:139-150 | the sub-folder fold as written keeps its accumulator as a prefix |
| CourseSyncFiles.GetFilesSameItemsAsCollectFiles | Core/Core/CourseSync/CourseSyncSelector/Model/CourseSyncSelectorInteractor.swift:127-154 | the walk as written loses and invents nothing: when it succeeds, the intended walk succeeds too, and an item is in its result exactly when it is in the seed or in the intended result. It only repeats items. |
| CourseSyncFiles.GetChildFilesSameItemsAsCollect | Core/Core/CourseSync/CourseSyncSelector/Model/CourseSyncSelectorInteractor.swift:139-150 | the sub-folder fold as written holds exactly the items of its accumulator and of the sub-folders' intended results |
| CourseSyncFiles.GetFilesOnLeaf | Core/Core/CourseSync/CourseSyncSelector/Model/CourseSyncSelectorInteractor.swift:132-138 | on a folder without sub-folders the walk as written is the seed followed by the folder's file items |
| CourseSyncFiles.GetFilesFailsLikeCollectFiles | Core/Core/CourseSync/CourseSyncSelector/Model/CourseSyncSelectorInteractor.swift:127-183 | the walk as written fails exactly when the intended walk fails, with the same error |
| CourseSyncFiles.GetFilesDuplicatesParentFiles | Core/Core/CourseSync/CourseSyncSelector/Model/CourseSyncSelectorInteractor.swift:142-145 | a root holding `y.pdf` and a sub-folder holding `x.pdf` yields `[y, y, x]` as written and `[y, x]` intended |
| CourseSyncFiles.CollectFiles | Core/Core/CourseSync/CourseSyncSelector/Model/CourseSyncSelectorInteractor.swift:127-154 | the intended walk returns only file items; an unauthorized folder contributes nothing; a folder's own file items lead its result |
| CourseSyncFiles.CollectChildFiles | Core/Core/CourseSync/CourseSyncSelector/Model/CourseSyncSelectorInteractor.swift:139-150 | the sub-folders' files, concatenated in order, are all file items |
| CourseSyncFiles.CollectFilesIncludesSubfolders | Core/Core/CourseSync/CourseSyncSelector/Model/CourseSyncSelectorInteractor.swift:139-150 | every file found under a sub-folder is in its parent's result, at least as many times |
| CourseSyncFiles.WalkFolder | Core/Core/CourseSync/CourseSyncSelector/Model/CourseSyncSelectorInteractor.swift:127-154 | the corrected `getFiles` ends with the seed array followed by exactly the intended walk's files |
| CourseSyncFiles.WalkSubfolders | Core/Core/CourseSync/CourseSyncSelector/Model/CourseSyncSelectorInteractor.swift:139-150 | the corrected sub-folder loop appends each sub-folder's own result once, in order |
| CourseSyncFiles.ToSyncFile | Core/Core/CourseSync/CourseSyncSelector/Model/CourseSyncSelectorInteractor.swift:115-122 | a mapped file keeps its id, or takes the generated one when it has none; keeps its display name, or takes "Unknown file"; keeps its url; is selected (the `File` default at line 209, built by `CourseSyncEntries.NewFile`) |
| CourseSyncFiles.ToSyncFiles | Core/Core/CourseSync/CourseSyncSelector/Model/CourseSyncSelectorInteractor.swift:115-122 | the items are mapped one to one, in order, each record at position `k` whose item has no id takes the generator's value for `k`; all selected |
| CourseSyncFiles.RootFolderFiles | Core/Core/CourseSync/CourseSyncSelector/Model/CourseSyncSelectorInteractor.swift:103-125 | `getAllFiles` for one root: the records are the as-written walk from an empty seed, mapped one to one and all selected; it fails exactly when the intended walk fails, with the same error |
| CourseSyncFiles.IntendedRootFolderFiles | Core/Core/CourseSync/CourseSyncSelector/Model/CourseSyncSelectorInteractor.swift:103-125 | the same root's records from the intended walk, where each file of the subtree appears once; it succeeds exactly when that walk does |
| CourseSyncFiles.RootFolderFilesOnScenario | Core/Core/CourseSync/CourseSyncSelector/Model/CourseSyncSelectorInteractor.swift:113-122 | on a root holding `y.pdf` and a sub-folder holding `x.pdf`, `getAllFiles` as written yields 3 records and the intended walk yields 2 |
| CourseSyncInteractor.ToSyncTabs | Core/Core/CourseSync/CourseSyncSelector/Model/CourseSyncSelectorInteractor.swift:91-98 | every fetched tab becomes a tab with its id, label and type, collapsed and selected (the `Tab` defaults at lines 201-202, built by `CourseSyncEntries.NewTab`) |
| CourseSyncInteractor.MakeEntry | Core/Core/CourseSync/CourseSyncSelector/Model/CourseSyncSelectorInteractor.swift:44-51 | a new entry carries the course's name and id, is fully selected, keeps the files invariant, and counts every tab and file (the entry defaults at lines 229-230, built by `CourseSyncEntries.NewEntry`) |
| CourseSyncInteractor.BuildEntries | Core/Core/CourseSync/CourseSyncSelector/Model/CourseSyncSelectorInteractor.swift:36-56 | the entry list succeeds iff every course's tabs and files do; entry `k` is the entry built from course `k`'s own tabs and files (with that course's id generator), so the list is in course order and every entry is fully selected |
| CourseSyncInteractor.BuiltEntriesCountEverything | Core/Core/CourseSync/CourseSyncSelector/Model/CourseSyncSelectorInteractor.swift:58-66 | a freshly fetched list's observed count is the number of its tabs and files |
| CourseSyncInteractor.SelectorInteractor.constructor | Core/Core/CourseSync/CourseSyncSelector/Model/CourseSyncSelectorInteractor.swift:33 | the relay starts with no entries |
| CourseSyncInteractor.SelectorInteractor.AcceptEntries | Core/Core/CourseSync/CourseSyncSelector/Model/CourseSyncSelectorInteractor.swift:54 | publishing a fetched list replaces the whole current list |
| CourseSyncInteractor.SelectorInteractor.ObservedSelectedCount | Core/Core/CourseSync/CourseSyncSelector/Model/CourseSyncSelectorInteractor.swift:58-66 | the published count never exceeds the number of tabs and files |
| CourseSyncInteractor.SelectorInteractor.SetSelected | Core/Core/CourseSync/CourseSyncSelector/Model/CourseSyncSelectorInteractor.swift:68-81 | for in-range indices only the selected course's entry changes, by its cascade; the list length and every other entry are unchanged; the count moves by that entry's difference |
| Routes.StringProp | rn/Teacher/ios/Teacher/Routes.swift:327 | `props[key] as? String` is a value exactly when the key holds a string |
| Routes.PropsContext | rn/Teacher/ios/Teacher/Routes.swift:326-336 | precedence: `context` with `contextID`, else `courseID` as a course, else `groupID` as a group, else none |
| Routes.PropsContextPrecedence | rn/Teacher/ios/Teacher/Routes.swift:326-336 | with a `context`/`contextID` pair, no `courseID` or `groupID` value changes the context; a `courseID` hides any `groupID` |
| Routes.FileDetails | rn/Teacher/ios/Teacher/Routes.swift:315-318 | the `preview` prop names the file if present, else `fileID`; with neither there is no screen |
| Routes.FileList | rn/Teacher/ios/Teacher/Routes.swift:305-313 | always a screen: the details screen whenever `fileDetails` gives one, else the list with the context defaulting to the current user |
| Routes.FileEditor | rn/Teacher/ios/Teacher/Routes.swift:320-323 | an editor screen exactly when `fileID` is a string |
| Routes.FileListCases | rn/Teacher/ios/TeacherTests/RoutesTests.swift:105-112 | `/files?preview=7` opens the file's details; `/files` opens the current user's list |
| Routes.HandleRoute | rn/Teacher/ios/Teacher/Routes.swift:36-42 | a template that does not match yields nothing; a matching template with a native factory yields that factory's result on the props made from the URL; one without a native factory yields a Helm screen with those props |
| Routes.Match | rn/Teacher/ios/Teacher/Routes.swift:34-47 | the result is the screen of the first template, in registration order, that matches and yields a screen; none when no template does |
| Routes.Route | rn/Teacher/ios/Teacher/Routes.swift:50-77 | nothing is posted without a URL. Every post carries `props` (empty when absent) and `url`. `.push` has exactly those two keys. `.detail` adds `detail` and `embedInNavigationController` as true. `.modal` adds `modal`, `embedInNavigationController = embedInNav` and `disableSwipeDownToDismissModal = !isDismissable`, and `modalPresentationStyle` only for form-sheet ("formsheet") and full-screen ("fullscreen"). |

## Findings

| source | as written | input that shows it | evidently intended | confidence | as-written member | corrected member |
|---|---|---|---|---|---|---|
| Core/Core/CourseSync/CourseSyncSelector/Model/CourseSyncSelectorInteractor.swift:142-145 | each sub-folder walk is seeded with the parent's accumulator (`initialArray: result`), and its output is then appended to that same accumulator again | a root folder holding `y.pdf` and a sub-folder holding `x.pdf` gives `[y, y, x]`; an empty or unauthorized sub-folder already repeats the parent's files | every file of the subtree once: `[y, x]` | not executed | CourseSyncFiles.GetFiles (shown by CourseSyncFiles.GetFilesDuplicatesParentFiles) | CourseSyncFiles.WalkFolder (against CourseSyncFiles.CollectFiles) |

The corrected walker seeds each sub-folder with an empty array and appends the sub-folder's result once. `RootFolderFiles` keeps the as-written walk, as `getAllFiles` calls it. `IntendedRootFolderFiles` is its corrected twin.

## Left out

- Combine and `ReactiveStore` plumbing are not modelled: `getEntities()`, `Publishers.Zip`, `flatMap`, `collect` and the `CurrentValueRelay` subscription. Fetch results are oracle inputs, and what the relay publishes is the class's current `entries`.
- `.retry(3)` is not modelled. A fetch oracle value is the outcome after the retries.
- Concurrent sibling walks are not modelled. The walk runs sequentially: each sub-folder finishes before the next starts. With truly concurrent siblings, every sibling would start from the same snapshot of the accumulator.
- `CourseSyncInteractor.BuildEntries` keeps course-list order. Combine's `flatMap` followed by `collect` emits entries in completion order, which this model does not capture.
- A course with several root folders is not modelled. `getAllFiles` emits one file array per root and `Zip` pairs the tabs with the first one. The model walks one root folder (`RootFolderFiles`).
- A course with no root folder is not modelled. `getAllFiles` then emits no value, so `Zip` completes without one and the course silently drops out of `collect()`. The `filesOf` oracle of `BuildEntries` always gives a result or an error, so it cannot express this.
- `offlineSupportedTabs()` is not modelled. It is not visible, so the fetched tabs are taken as already filtered.
- `TabName` is reduced to `.files` plus any other case. `APIFile` is not visible, so its id and display name are modelled as optional, which covers both cases.
- `Foundation.UUID()` is not modelled. It is non-deterministic and is a parameter, keyed by course and position. The model does not promise that generated ids are distinct.
- `Context(path:)`, `removingPercentEncoding`, `RouteHandler` template matching and `makeProps` are not visible. They are parameters.
- `registerNativeRoutes`, view-controller construction, `HelmManager`, `NotificationCenter.post`, `UIApplication` delegate casts and `ExperimentalFeature` flags are not modelled. They are UI and global state. `Route` returns the dictionary it would post.
- The `RouteOptions` defaults used by `.modal(.formSheet)` in the tests are not modelled, because the enum's definition is not visible.
- CourseSyncEntries.SelectionKeepsFilesTabConsistent: assumes a course with at least one file. With no files, deselecting the course or its `.files` tab leaves the tab off even though "all files are selected" holds vacuously.
