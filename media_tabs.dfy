/** MediaTabs.py: the media library. Imported paths are made absolute,
    de-duplicated and kept newest-first; every refresh rebuilds the
    "Show All" list and the video and audio lists from them by extension,
    with display names cut to 20 characters. The file system enters as
    parameters: the set of regular files, whether a folder is a directory,
    its listing, and `os.path.abspath` as a function. */
module MediaTabs {
  import opened Wrappers
  import opened Text

  /** The extension groups, as listed in the class attributes. */
  const ImageExts: seq<string> := [".png", ".jpg", ".jpeg", ".bmp", ".gif"]
  const VideoExts: seq<string> := [".mp4", ".mov", ".avi", ".mkv"]
  const AudioExts: seq<string> := [".mp3", ".wav", ".flac"]
  const SupportedExts: seq<string> := AudioExts + ImageExts + VideoExts

  /** The longest name shown whole, and the length of the kept prefix of a
      longer one. */
  const MaxShownName: int := 20
  const KeptPrefix: int := 15

  /** The lower-cased extension the lists are sorted by. */
  function Kind(p: string): string {
    Lower(Ext(p))
  }

  /** Whether the lower-cased extension of `p` is in `group` (Python's
      `in` on the set), checked one entry at a time. */
  predicate HasKind(p: string, group: seq<string>)
    decreases |group|
  {
    group != [] && (group[0] == Kind(p) || HasKind(p, group[1..]))
  }

  lemma {:induction false} HasKindMeansListed(p: string, group: seq<string>)
    ensures HasKind(p, group) <==> Kind(p) in group
    decreases |group|
  {
    if group != [] {
      HasKindMeansListed(p, group[1..]);
    }
  }

  /** No extension is in two of the groups. */
  lemma GroupsDisjoint(k: string)
    ensures !(k in AudioExts && k in VideoExts)
    ensures k in ImageExts ==> k !in AudioExts && k !in VideoExts
  {
  }

  lemma KindsDisjoint(p: string)
    ensures !(HasKind(p, AudioExts) && HasKind(p, VideoExts))
    ensures HasKind(p, ImageExts) ==> !HasKind(p, AudioExts) && !HasKind(p, VideoExts)
  {
    HasKindMeansListed(p, AudioExts);
    HasKindMeansListed(p, VideoExts);
    HasKindMeansListed(p, ImageExts);
    GroupsDisjoint(Kind(p));
  }

  // ---------------------------------------------------------------------
  // Display names and the three lists

  /** The item label: the base name, or its first 15 characters and "..."
      when it is longer than 20. */
  function DisplayName(p: string): (d: string)
    ensures |d| <= MaxShownName
    ensures d == Basename(p) <==> |Basename(p)| <= MaxShownName
    ensures d != Basename(p) ==> d == Basename(p)[..KeptPrefix] + "..." && StartsWith(Basename(p), d[..KeptPrefix])
  {
    var b := Basename(p);
    if |b| <= MaxShownName then b else b[..KeptPrefix] + "..."
  }

  /** A "Show All" entry: its label and the full path it carries. */
  datatype Item = Item(name: string, path: string)

  /** The "Show All" list for `files`: one item per file, in order. */
  function Items(files: seq<string>): (r: seq<Item>)
    ensures |r| == |files|
    ensures forall i :: 0 <= i < |files| ==> r[i] == Item(DisplayName(files[i]), files[i])
  {
    if files == [] then []
    else Items(files[..|files| - 1]) + [Item(DisplayName(files[|files| - 1]), files[|files| - 1])]
  }

  /** The labels of the files whose lower-cased extension is in `exts`, in
      order. */
  function Names(files: seq<string>, exts: seq<string>): (r: seq<string>)
    ensures |r| <= |files|
  {
    if files == [] then []
    else
      var init := Names(files[..|files| - 1], exts);
      var last := files[|files| - 1];
      if HasKind(last, exts) then init + [DisplayName(last)] else init
  }

  lemma NamesSnoc(files: seq<string>, f: string, exts: seq<string>)
    ensures Names(files + [f], exts) == if HasKind(f, exts) then Names(files, exts) + [DisplayName(f)] else Names(files, exts)
  {
    assert (files + [f])[..|files|] == files;
  }

  lemma ItemsSnoc(files: seq<string>, f: string)
    ensures Items(files + [f]) == Items(files) + [Item(DisplayName(f), f)]
  {
    assert (files + [f])[..|files|] == files;
  }

  /** Every file of a group is shown in that group's list. */
  lemma {:induction false} NamesListGroup(files: seq<string>, exts: seq<string>, k: int)
    requires 0 <= k < |files|
    ensures HasKind(files[k], exts) ==> DisplayName(files[k]) in Names(files, exts)
    decreases |files|
  {
    var init := files[..|files| - 1];
    if k < |files| - 1 {
      assert init[k] == files[k];
      NamesListGroup(init, exts, k);
    }
  }

  /** A list stays empty when no file belongs to its group. */
  lemma {:induction false} NoneOfGroup(files: seq<string>, exts: seq<string>)
    requires forall j :: 0 <= j < |files| ==> !HasKind(files[j], exts)
    ensures Names(files, exts) == []
    decreases |files|
  {
    if files != [] {
      var init := files[..|files| - 1];
      assert forall j :: 0 <= j < |init| ==> init[j] == files[j];
      NoneOfGroup(init, exts);
    }
  }

  /** No file goes to both the audio and the video list, so together they
      hold at most as many entries as "Show All". */
  lemma {:induction false} CategoriesPartition(files: seq<string>)
    ensures |Names(files, AudioExts)| + |Names(files, VideoExts)| <= |files|
  {
    if files != [] {
      CategoriesPartition(files[..|files| - 1]);
      KindsDisjoint(files[|files| - 1]);
    }
  }

  /** An image shows up only in "Show All". */
  lemma ImageOnlyInShowAll(files: seq<string>, image: string)
    requires HasKind(image, ImageExts)
    ensures Names(files + [image], AudioExts) == Names(files, AudioExts)
    ensures Names(files + [image], VideoExts) == Names(files, VideoExts)
  {
    assert (files + [image])[..|files|] == files;
    KindsDisjoint(image);
  }

  // ---------------------------------------------------------------------
  // add_files

  predicate NoDuplicates(s: seq<string>) {
    forall i, j :: 0 <= i < j < |s| ==> s[i] != s[j]
  }

  /** The list after `add_files(paths)`: each absolute path that is a
      regular file and not yet listed goes to the front. */
  function Insert(all: seq<string>, paths: seq<string>, absPath: string -> string, files: set<string>): (r: seq<string>)
    ensures |all| <= |r| <= |all| + |paths|
    decreases |paths|
  {
    if paths == [] then all
    else
      var p := absPath(paths[0]);
      var next := if p in all || p !in files then all else [p] + all;
      Insert(next, paths[1..], absPath, files)
  }

  /** A path is listed afterwards exactly when it was listed before or is a
      regular file that one of the imported paths resolves to. */
  lemma {:induction false} InsertMembers(all: seq<string>, paths: seq<string>, absPath: string -> string,
                                         files: set<string>, x: string)
    ensures x in Insert(all, paths, absPath, files) <==>
            x in all || (x in files && exists i :: 0 <= i < |paths| && absPath(paths[i]) == x)
    decreases |paths|
  {
    if paths != [] {
      var p := absPath(paths[0]);
      var next := if p in all || p !in files then all else [p] + all;
      InsertMembers(next, paths[1..], absPath, files, x);
      if x in files && exists i :: 0 <= i < |paths| && absPath(paths[i]) == x {
        var i :| 0 <= i < |paths| && absPath(paths[i]) == x;
        if i > 0 {
          assert absPath(paths[1..][i - 1]) == x;
        }
      }
      if exists i :: 0 <= i < |paths[1..]| && absPath(paths[1..][i]) == x {
        var i :| 0 <= i < |paths[1..]| && absPath(paths[1..][i]) == x;
        assert absPath(paths[i + 1]) == x;
      }
    }
  }

  /** The list never holds a path twice. */
  lemma {:induction false} InsertNoDuplicates(all: seq<string>, paths: seq<string>, absPath: string -> string,
                                              files: set<string>)
    requires NoDuplicates(all)
    ensures NoDuplicates(Insert(all, paths, absPath, files))
    decreases |paths|
  {
    if paths != [] {
      var p := absPath(paths[0]);
      var next := if p in all || p !in files then all else [p] + all;
      assert NoDuplicates(next) by {
        if next != all {
          forall i, j | 0 <= i < j < |next|
            ensures next[i] != next[j]
          {
            if i > 0 {
              assert next[i] == all[i - 1] && next[j] == all[j - 1];
            } else {
              assert next[j] == all[j - 1];
            }
          }
        }
      }
      InsertNoDuplicates(next, paths[1..], absPath, files);
    }
  }

  /** The files listed before stay, in the same order, behind the new
      ones. */
  lemma {:induction false} InsertKeepsOld(all: seq<string>, paths: seq<string>, absPath: string -> string,
                                          files: set<string>)
    ensures var r := Insert(all, paths, absPath, files);
            r[|r| - |all|..] == all
    decreases |paths|
  {
    if paths != [] {
      var p := absPath(paths[0]);
      var next := if p in all || p !in files then all else [p] + all;
      InsertKeepsOld(next, paths[1..], absPath, files);
      if next != all {
        DropFront(Insert(next, paths[1..], absPath, files), p, all);
      }
    }
  }

  lemma DropFront(r: seq<string>, p: string, all: seq<string>)
    requires |r| >= |all| + 1 && r[|r| - |all| - 1..] == [p] + all
    ensures r[|r| - |all|..] == all
  {
    assert r[|r| - |all|..] == r[|r| - |all| - 1..][1..];
  }

  /** Importing only paths that are already listed or not regular files
      changes nothing. */
  lemma {:induction false} InsertNothingNew(all: seq<string>, paths: seq<string>, absPath: string -> string,
                                            files: set<string>)
    requires forall i :: 0 <= i < |paths| ==> absPath(paths[i]) in all || absPath(paths[i]) !in files
    ensures Insert(all, paths, absPath, files) == all
    decreases |paths|
  {
    if paths != [] {
      assert absPath(paths[0]) in all || absPath(paths[0]) !in files;
      forall i | 0 <= i < |paths[1..]|
        ensures absPath(paths[1..][i]) in all || absPath(paths[1..][i]) !in files
      {
        assert paths[1..][i] == paths[i + 1];
      }
      InsertNothingNew(all, paths[1..], absPath, files);
    }
  }

  /** Importing the same paths a second time adds nothing. */
  lemma AddingTwiceAddsNothing(all: seq<string>, paths: seq<string>, absPath: string -> string,
                               files: set<string>)
    ensures var once := Insert(all, paths, absPath, files);
            Insert(once, paths, absPath, files) == once
  {
    var once := Insert(all, paths, absPath, files);
    forall i | 0 <= i < |paths|
      ensures absPath(paths[i]) in once || absPath(paths[i]) !in files
    {
      InsertMembers(all, paths, absPath, files, absPath(paths[i]));
    }
    InsertNothingNew(once, paths, absPath, files);
  }

  /** The absolute forms of `paths`, in order. */
  function Absolute(paths: seq<string>, absPath: string -> string): (r: seq<string>)
    ensures |r| == |paths|
  {
    if paths == [] then [] else [absPath(paths[0])] + Absolute(paths[1..], absPath)
  }

  function Reversed(s: seq<string>): (r: seq<string>)
    ensures |r| == |s|
  {
    if s == [] then [] else Reversed(s[1..]) + [s[0]]
  }

  /** A batch of new, distinct files lands in front in reverse order: each
      one is inserted before the ones imported earlier. */
  lemma {:induction false} BatchLandsReversed(all: seq<string>, paths: seq<string>, absPath: string -> string,
                                              files: set<string>)
    requires forall i :: 0 <= i < |paths| ==> absPath(paths[i]) in files && absPath(paths[i]) !in all
    requires forall i, j :: 0 <= i < j < |paths| ==> absPath(paths[i]) != absPath(paths[j])
    ensures Insert(all, paths, absPath, files) == Reversed(Absolute(paths, absPath)) + all
    decreases |paths|
  {
    if paths != [] {
      var p := absPath(paths[0]);
      assert p in files && p !in all;
      forall i | 0 <= i < |paths[1..]|
        ensures absPath(paths[1..][i]) in files && absPath(paths[1..][i]) !in [p] + all
      {
        assert paths[1..][i] == paths[i + 1];
      }
      forall i, j | 0 <= i < j < |paths[1..]|
        ensures absPath(paths[1..][i]) != absPath(paths[1..][j])
      {
        assert paths[1..][i] == paths[i + 1] && paths[1..][j] == paths[j + 1];
      }
      BatchLandsReversed([p] + all, paths[1..], absPath, files);
    }
  }

  // ---------------------------------------------------------------------
  // add_folder

  /** The folder's entries joined to the folder, in listing order. */
  function Joined(folder: string, entries: seq<string>): (r: seq<string>)
    ensures |r| == |entries|
  {
    if entries == [] then []
    else Joined(folder, entries[..|entries| - 1]) + [PathJoin(folder, entries[|entries| - 1])]
  }

  lemma {:induction false} JoinedAt(folder: string, entries: seq<string>, k: int)
    requires 0 <= k < |entries|
    ensures Joined(folder, entries)[k] == PathJoin(folder, entries[k])
    decreases |entries|
  {
    if k < |entries| - 1 {
      assert entries[..|entries| - 1][k] == entries[k];
      JoinedAt(folder, entries[..|entries| - 1], k);
    }
  }

  /** The paths that are regular files with a supported lower-cased
      extension, in order. */
  function Supported(paths: seq<string>, files: set<string>): (r: seq<string>)
    ensures |r| <= |paths|
  {
    if paths == [] then []
    else
      var init := Supported(paths[..|paths| - 1], files);
      var p := paths[|paths| - 1];
      if p in files && HasKind(p, SupportedExts) then init + [p] else init
  }

  /** The entries of a folder that `add_folder` passes on. */
  function Found(folder: string, entries: seq<string>, files: set<string>): seq<string> {
    Supported(Joined(folder, entries), files)
  }

  /** Only regular files with a supported extension are passed on. */
  lemma {:induction false} SupportedQualifies(paths: seq<string>, files: set<string>, i: int)
    requires 0 <= i < |Supported(paths, files)|
    ensures Supported(paths, files)[i] in files && HasKind(Supported(paths, files)[i], SupportedExts)
    decreases |paths|
  {
    var init := Supported(paths[..|paths| - 1], files);
    if i < |init| {
      SupportedQualifies(paths[..|paths| - 1], files, i);
    }
  }

  /** Every regular file with a supported extension is passed on. */
  lemma {:induction false} SupportedComplete(paths: seq<string>, files: set<string>, k: int)
    requires 0 <= k < |paths|
    requires paths[k] in files && HasKind(paths[k], SupportedExts)
    ensures paths[k] in Supported(paths, files)
    decreases |paths|
  {
    if k < |paths| - 1 {
      assert paths[..|paths| - 1][k] == paths[k];
      SupportedComplete(paths[..|paths| - 1], files, k);
    }
  }

  /** A folder entry is passed on exactly when, joined to the folder, it
      is a regular file with a supported extension. */
  lemma FoundExactly(folder: string, entries: seq<string>, files: set<string>, k: int)
    requires 0 <= k < |entries|
    ensures var full := PathJoin(folder, entries[k]);
            full in files && HasKind(full, SupportedExts) ==> full in Found(folder, entries, files)
    ensures forall x :: x in Found(folder, entries, files) ==> x in files && HasKind(x, SupportedExts)
  {
    JoinedAt(folder, entries, k);
    var full := PathJoin(folder, entries[k]);
    if full in files && HasKind(full, SupportedExts) {
      SupportedComplete(Joined(folder, entries), files, k);
    }
    var r := Found(folder, entries, files);
    forall x | x in r
      ensures x in files && HasKind(x, SupportedExts)
    {
      var i :| 0 <= i < |r| && r[i] == x;
      SupportedQualifies(Joined(folder, entries), files, i);
    }
  }

  /** One more entry: it is passed on after the earlier ones exactly when
      it qualifies. */
  lemma FoundStep(folder: string, entries: seq<string>, i: int, files: set<string>)
    requires 0 <= i < |entries|
    ensures var full := PathJoin(folder, entries[i]);
            Found(folder, entries[..i + 1], files) ==
              Found(folder, entries[..i], files) + (if full in files && HasKind(full, SupportedExts) then [full] else [])
  {
    assert entries[..i + 1][..i] == entries[..i];
  }

  /** The listing loop of `add_folder`. */
  method ListFolder(folder: string, entries: seq<string>, files: set<string>) returns (found: seq<string>)
    ensures found == Found(folder, entries, files)
  {
    found := [];
    for i := 0 to |entries|
      invariant found == Found(folder, entries[..i], files)
    {
      var fullPath := PathJoin(folder, entries[i]);
      FoundStep(folder, entries, i, files);
      if fullPath in files && HasKind(fullPath, SupportedExts) {
        found := found + [fullPath];
      }
    }
    assert entries[..|entries|] == entries;
  }

  // ---------------------------------------------------------------------
  // _update_grid_size

  /** The new grid cell width, or None when the list is empty and the grid
      is left alone. Floor division `//` agrees with Dafny's `/` here since
      every divisor is positive. */
  function GridCellWidth(count: nat, listWidth: int, iconWidth: int, spacing: int): (r: Option<int>)
    requires iconWidth > 0 && spacing >= 0
    ensures count == 0 <==> r.None?
  {
    if count == 0 then None
    else
      var perRow := ItemsPerRow(listWidth, iconWidth, spacing);
      var extra := listWidth - perRow * iconWidth;
      var dynamicSpacing := if perRow > 1 then extra / (perRow + 1) else extra / 2;
      Some(iconWidth + dynamicSpacing)
  }

  /** At least one item a row; as many spaced icons as fit otherwise. */
  function ItemsPerRow(listWidth: int, iconWidth: int, spacing: int): (n: int)
    requires iconWidth > 0 && spacing >= 0
    ensures n >= 1
    ensures listWidth >= iconWidth + spacing ==>
              n * (iconWidth + spacing) <= listWidth < (n + 1) * (iconWidth + spacing)
  {
    var fit := listWidth / (iconWidth + spacing);
    if fit > 1 then fit else 1
  }

  /** The icons of one row with the computed gaps (one more gap than
      icons, or one on each side of a lone icon) fill the list width up to
      less than one pixel per gap. */
  lemma GridCentersRow(count: nat, listWidth: int, iconWidth: int, spacing: int)
    requires count > 0 && iconWidth > 0 && spacing >= 0
    ensures var n := ItemsPerRow(listWidth, iconWidth, spacing);
            var gap := GridCellWidth(count, listWidth, iconWidth, spacing).value - iconWidth;
            var gaps := if n > 1 then n + 1 else 2;
            0 <= listWidth - (n * iconWidth + gaps * gap) < gaps
  {
  }

  /** One more file adds one "Show All" item and at most one of an audio
      and a video entry. */
  lemma ListsGrow(files: seq<string>, i: int)
    requires 0 <= i < |files|
    ensures Items(files[..i + 1]) == Items(files[..i]) + [Item(DisplayName(files[i]), files[i])]
    ensures Names(files[..i + 1], AudioExts) ==
            if HasKind(files[i], AudioExts) then Names(files[..i], AudioExts) + [DisplayName(files[i])]
            else Names(files[..i], AudioExts)
    ensures Names(files[..i + 1], VideoExts) ==
            if HasKind(files[i], VideoExts) then Names(files[..i], VideoExts) + [DisplayName(files[i])]
            else Names(files[..i], VideoExts)
    ensures !(HasKind(files[i], AudioExts) && HasKind(files[i], VideoExts))
  {
    assert files[..i + 1] == files[..i] + [files[i]];
    ItemsSnoc(files[..i], files[i]);
    NamesSnoc(files[..i], files[i], AudioExts);
    NamesSnoc(files[..i], files[i], VideoExts);
    KindsDisjoint(files[i]);
  }

  /** The loop of `_refresh_list`: every file gets a "Show All" item, and
      audio and video files an entry in their own list. */
  method BuildLists(files: seq<string>) returns (shown: seq<Item>, videos: seq<string>, audios: seq<string>)
    ensures shown == Items(files)
    ensures videos == Names(files, VideoExts) && audios == Names(files, AudioExts)
  {
    shown, videos, audios := [], [], [];
    for i := 0 to |files|
      invariant shown == Items(files[..i])
      invariant videos == Names(files[..i], VideoExts)
      invariant audios == Names(files[..i], AudioExts)
    {
      var filePath := files[i];
      var displayName := DisplayName(filePath);
      ListsGrow(files, i);
      shown := shown + [Item(displayName, filePath)];
      if HasKind(filePath, AudioExts) {
        audios := audios + [displayName];
      } else if HasKind(filePath, VideoExts) {
        videos := videos + [displayName];
      }
    }
    assert files[..|files|] == files;
  }

  // ---------------------------------------------------------------------
  // The widget

  class MediaTabs {
    var existing: set<string>
    var allFiles: seq<string>
    var showAll: seq<Item>
    var videoList: seq<string>
    var audioList: seq<string>

    /** `_existing` holds exactly the listed paths, the list has no
        duplicates, and the three lists show it. */
    predicate Valid()
      reads this
    {
      existing == (set x | x in allFiles) && NoDuplicates(allFiles) &&
      showAll == Items(allFiles) && videoList == Names(allFiles, VideoExts) &&
      audioList == Names(allFiles, AudioExts)
    }

    constructor ()
      ensures Valid() && allFiles == []
    {
      existing := {};
      allFiles := [];
      showAll := [];
      videoList := [];
      audioList := [];
    }

    /** Rebuilds the three lists from the listed paths. */
    method RefreshList()
      modifies this
      ensures existing == old(existing) && allFiles == old(allFiles)
      ensures showAll == Items(allFiles) && videoList == Names(allFiles, VideoExts) &&
              audioList == Names(allFiles, AudioExts)
    {
      showAll, videoList, audioList := BuildLists(allFiles);
    }

    method AddFiles(paths: seq<string>, absPath: string -> string, files: set<string>) returns (added: int)
      requires Valid()
      modifies this
      ensures Valid()
      ensures allFiles == Insert(old(allFiles), paths, absPath, files)
      ensures added == |allFiles| - |old(allFiles)|
    {
      added := InsertPaths(paths, absPath, files);
      RefreshList();
    }

    /** The loop of `add_files`: `_existing` and `_all_files` grow together,
        one new path at a time, counted in `added`. */
    method InsertPaths(paths: seq<string>, absPath: string -> string, files: set<string>) returns (added: int)
      requires existing == (set x | x in allFiles) && NoDuplicates(allFiles)
      modifies this
      ensures existing == (set x | x in allFiles) && NoDuplicates(allFiles)
      ensures allFiles == Insert(old(allFiles), paths, absPath, files)
      ensures added == |allFiles| - |old(allFiles)|
    {
      added := 0;
      ghost var start := allFiles;
      for i := 0 to |paths|
        invariant Insert(allFiles, paths[i..], absPath, files) == Insert(start, paths, absPath, files)
        invariant added == |allFiles| - |start|
        invariant existing == (set x | x in allFiles)
        invariant NoDuplicates(allFiles)
      {
        var p := absPath(paths[i]);
        assert paths[i..][1..] == paths[i + 1..];
        if p in existing || p !in files {
          continue;
        }
        existing := existing + {p};
        assert NoDuplicates([p] + allFiles) by {
          forall a, b | 0 <= a < b < |[p] + allFiles|
            ensures ([p] + allFiles)[a] != ([p] + allFiles)[b]
          {
            assert ([p] + allFiles)[b] == allFiles[b - 1];
          }
        }
        allFiles := [p] + allFiles;
        added := added + 1;
      }
      assert paths[|paths|..] == [];
    }

    method AddFolder(folder: string, isDirectory: bool, entries: seq<string>, absPath: string -> string,
                     files: set<string>) returns (added: int)
      requires Valid()
      modifies this
      ensures Valid()
      ensures !isDirectory ==> added == 0 && allFiles == old(allFiles)
      ensures isDirectory ==> allFiles == Insert(old(allFiles), Found(folder, entries, files), absPath, files)
      ensures added == |allFiles| - |old(allFiles)|
    {
      if !isDirectory {
        return 0;
      }
      var found := ListFolder(folder, entries, files);
      added := AddFiles(found, absPath, files);
    }
  }
}
