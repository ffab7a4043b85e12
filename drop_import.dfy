/**
 * The drop listener of the renderer's bootstrap: every file of one drop gesture
 * is classified, the importable ones are handed to the local plugin's
 * `importMusicSheet` (folders) or `importMusicItem` (media files), and the
 * results are collected, in drop order, into one list that replaces the
 * playback queue when it is not empty.
 */
module DropImport {
  import opened Collaborators

  /** One entry of `event.dataTransfer.files`: its path and its declared MIME type. */
  datatype DroppedFile = DroppedFile(path: string, mediaType: string)

  /**
   * What the drop listener cannot see: the filesystem probe `window.fs.isFolder`,
   * the two imports of the local plugin reached through the plugin delegate, and
   * the configured list of supported file suffixes (`supportLocalMediaType`).
   */
  datatype ImportEnv<M> = ImportEnv(
    isFolder: string -> bool,
    importMusicSheet: string -> seq<M>,
    importMusicItem: string -> M,
    supportedTypes: seq<string>)

  /** How the drop listener treats one dropped file. */
  datatype Kind = Folder | MediaFile | Ignored

  /** JavaScript's `s.endsWith(suffix)`. */
  function EndsWith(s: string, suffix: string): (r: bool)
    ensures r <==> |suffix| <= |s| && s == s[..|s| - |suffix|] + suffix
  {
    |suffix| <= |s| && s[|s| - |suffix|..] == suffix
  }

  /** `suffixes.some((postfix) => path.endsWith(postfix))`, scanned from the front. */
  function AnyEndsWith(path: string, suffixes: seq<string>): (r: bool)
    ensures r <==> exists i :: 0 <= i < |suffixes| && EndsWith(path, suffixes[i])
  {
    if suffixes == [] then false
    else if EndsWith(path, suffixes[0]) then true
    else AnyEndsWith(path, suffixes[1..])
  }

  /**
   * The branch the listener takes for `f`. The folder test comes first and only
   * applies to a file whose declared type is empty; the suffix test applies to
   * everything else.
   */
  function Classify<M>(f: DroppedFile, env: ImportEnv<M>): (k: Kind)
    ensures k == Folder <==> f.mediaType == "" && env.isFolder(f.path)
    ensures k == MediaFile <==>
      !(f.mediaType == "" && env.isFolder(f.path)) &&
      exists i :: 0 <= i < |env.supportedTypes| && EndsWith(f.path, env.supportedTypes[i])
    ensures f.mediaType != "" ==> k != Folder
  {
    if f.mediaType == "" && env.isFolder(f.path) then Folder
    else if AnyEndsWith(f.path, env.supportedTypes) then MediaFile
    else Ignored
  }

  /** The items one dropped file adds to the list. */
  function Contribution<M>(f: DroppedFile, env: ImportEnv<M>): (r: seq<M>)
    ensures f.mediaType == "" && env.isFolder(f.path) ==> r == env.importMusicSheet(f.path)
    ensures !(f.mediaType == "" && env.isFolder(f.path)) ==>
      r == if exists i :: 0 <= i < |env.supportedTypes| && EndsWith(f.path, env.supportedTypes[i])
           then [env.importMusicItem(f.path)] else []
  {
    match Classify(f, env)
    case Folder => env.importMusicSheet(f.path)
    case MediaFile => [env.importMusicItem(f.path)]
    case Ignored => []
  }

  /** No dropped file is imported as a folder. */
  predicate NoFolders<M>(files: seq<DroppedFile>, env: ImportEnv<M>)
  {
    forall i :: 0 <= i < |files| ==> Classify(files[i], env) != Folder
  }

  /** The list a drop of `files` builds: the contributions, in drop order. */
  function Aggregate<M>(files: seq<DroppedFile>, env: ImportEnv<M>): (r: seq<M>)
    ensures NoFolders(files, env) ==> |r| == |Importable(files, env)|
  {
    if files == [] then []
    else
      assert forall j :: 0 <= j < |files| - 1 ==> files[1..][j] == files[j + 1];
      Contribution(files[0], env) + Aggregate(files[1..], env)
  }

  /** The files of `files` that contribute through an import, in order. */
  function Importable<M>(files: seq<DroppedFile>, env: ImportEnv<M>): (r: seq<DroppedFile>)
    ensures |r| <= |files|
    ensures forall f :: f in r ==> f in files && Classify(f, env) != Ignored
    ensures forall f :: f in files && Classify(f, env) != Ignored ==> f in r
  {
    if files == [] then []
    else if Classify(files[0], env) == Ignored then Importable(files[1..], env)
    else [files[0]] + Importable(files[1..], env)
  }

  /** When nothing in the drop is skipped, every file is importable, in its place. */
  lemma {:induction false} ImportableKeepsAll<M>(files: seq<DroppedFile>, env: ImportEnv<M>)
    requires forall i :: 0 <= i < |files| ==> Classify(files[i], env) != Ignored
    ensures Importable(files, env) == files
  {
    if files != [] {
      assert forall j :: 0 <= j < |files| - 1 ==> files[1..][j] == files[j + 1];
      ImportableKeepsAll(files[1..], env);
    }
  }

  /** Filtering keeps the drop order: the importable files of `a + b` are those of `a`, then those of `b`. */
  lemma {:induction false} ImportableAppend<M>(a: seq<DroppedFile>, b: seq<DroppedFile>, env: ImportEnv<M>)
    ensures Importable(a + b, env) == Importable(a, env) + Importable(b, env)
  {
    if a == [] {
      assert a + b == b;
    } else {
      assert (a + b)[0] == a[0];
      assert (a + b)[1..] == a[1..] + b;
      ImportableAppend(a[1..], b, env);
    }
  }

  /** Dropping `a` then `b` in one gesture gives the list for `a` followed by the list for `b`. */
  lemma {:induction false} AggregateAppend<M>(a: seq<DroppedFile>, b: seq<DroppedFile>, env: ImportEnv<M>)
    ensures Aggregate(a + b, env) == Aggregate(a, env) + Aggregate(b, env)
  {
    if a == [] {
      assert a + b == b;
    } else {
      assert (a + b)[1..] == a[1..] + b;
      AggregateAppend(a[1..], b, env);
    }
  }

  /** Every item of the list was imported for one of the dropped files. */
  lemma {:induction false} AggregateItemsFromFiles<M>(files: seq<DroppedFile>, env: ImportEnv<M>, x: M)
    requires x in Aggregate(files, env)
    ensures exists i :: 0 <= i < |files| && x in Contribution(files[i], env)
  {
    if x !in Contribution(files[0], env) {
      AggregateItemsFromFiles(files[1..], env, x);
      var j :| 0 <= j < |files| - 1 && x in Contribution(files[1..][j], env);
      assert files[1..][j] == files[j + 1];
    }
  }

  /**
   * Positional order: the items of the `i`-th file come after those of every
   * earlier file and before those of every later one.
   */
  lemma ContributionInPlace<M>(files: seq<DroppedFile>, i: nat, env: ImportEnv<M>)
    requires i < |files|
    ensures Aggregate(files, env) ==
      Aggregate(files[..i], env) + Contribution(files[i], env) + Aggregate(files[i + 1..], env)
  {
    assert files == files[..i] + ([files[i]] + files[i + 1..]);
    AggregateAppend(files[..i], [files[i]] + files[i + 1..], env);
    AggregateAppend([files[i]], files[i + 1..], env);
    assert Aggregate([files[i]], env) == Contribution(files[i], env);
  }

  /**
   * The list is empty exactly when every file was skipped, or is a folder
   * whose sheet import gave no items.
   */
  lemma {:induction false} AggregateEmptyIff<M>(files: seq<DroppedFile>, env: ImportEnv<M>)
    ensures Aggregate(files, env) == [] <==>
      forall i :: 0 <= i < |files| ==>
        Classify(files[i], env) == Ignored ||
        (Classify(files[i], env) == Folder && env.importMusicSheet(files[i].path) == [])
  {
    if files != [] {
      AggregateEmptyIff(files[1..], env);
      forall i | 0 < i < |files| ensures files[i] == files[1..][i - 1] { }
    }
  }

  /** Unsupported files are skipped without effect: a drop with nothing importable yields no items. */
  lemma NothingImportableYieldsNothing<M>(files: seq<DroppedFile>, env: ImportEnv<M>)
    requires forall i :: 0 <= i < |files| ==> Classify(files[i], env) == Ignored
    ensures Aggregate(files, env) == []
  {
    AggregateEmptyIff(files, env);
  }

  /** Removing the skipped files from a drop does not change the list it builds. */
  lemma {:induction false} SkippedFilesDoNotMatter<M>(files: seq<DroppedFile>, env: ImportEnv<M>)
    ensures Aggregate(Importable(files, env), env) == Aggregate(files, env)
  {
    if files != [] {
      SkippedFilesDoNotMatter(files[1..], env);
      if Classify(files[0], env) != Ignored {
        var rest := Importable(files[1..], env);
        assert ([files[0]] + rest)[0] == files[0];
        assert ([files[0]] + rest)[1..] == rest;
      }
    }
  }

  /** In the mixed drop below, the `.mp3` file is a media file. */
  lemma SongIsImported<M>(env: ImportEnv<M>)
    requires env.supportedTypes == [".mp3", ".flac"]
    requires !env.isFolder("/music/song.mp3")
    ensures Contribution(DroppedFile("/music/song.mp3", ""), env) == [env.importMusicItem("/music/song.mp3")]
  {
    assert EndsWith("/music/song.mp3", env.supportedTypes[0]) by {
      assert "/music/song.mp3"[11..] == ".mp3";
    }
  }

  /** In the mixed drop below, the `.txt` file is skipped. */
  lemma ReadmeIsSkipped<M>(env: ImportEnv<M>)
    requires env.supportedTypes == [".mp3", ".flac"]
    requires !env.isFolder("/music/readme.txt")
    ensures Contribution(DroppedFile("/music/readme.txt", ""), env) == []
  {
    var path := "/music/readme.txt";
    assert !EndsWith(path, env.supportedTypes[0]) by {
      assert path[16] == 't' && ".mp3"[3] == '3';
    }
    assert !EndsWith(path, env.supportedTypes[1]) by {
      assert path[16] == 't' && ".flac"[4] == 'c';
    }
  }

  /**
   * A folder, a supported media file and an unsupported file dropped together:
   * the sheet's items, then the one media item; the text file adds nothing.
   */
  lemma MixedDropExample<M>(env: ImportEnv<M>)
    requires env.supportedTypes == [".mp3", ".flac"]
    requires env.isFolder("/music/folder")
    requires !env.isFolder("/music/song.mp3") && !env.isFolder("/music/readme.txt")
    ensures Aggregate([DroppedFile("/music/folder", ""), DroppedFile("/music/song.mp3", ""),
                       DroppedFile("/music/readme.txt", "")], env)
      == env.importMusicSheet("/music/folder") + [env.importMusicItem("/music/song.mp3")]
  {
    var f0, f1, f2 := DroppedFile("/music/folder", ""), DroppedFile("/music/song.mp3", ""),
                      DroppedFile("/music/readme.txt", "");
    SongIsImported(env);
    ReadmeIsSkipped(env);
    assert Contribution(f0, env) == env.importMusicSheet(f0.path);
    assert [f0, f1, f2][1..] == [f1, f2];
    assert [f1, f2][1..] == [f2];
    assert [f2][1..] == [];
    assert Aggregate([f2], env) == [];
    assert Aggregate([f1, f2], env) == [env.importMusicItem(f1.path)];
  }

  /** One more file: the list for the first `i + 1` files extends that for the first `i` by file `i`'s items. */
  lemma AggregateSnoc<M>(files: seq<DroppedFile>, i: nat, env: ImportEnv<M>)
    requires i < |files|
    ensures Aggregate(files[..i + 1], env) == Aggregate(files[..i], env) + Contribution(files[i], env)
  {
    assert files[..i + 1] == files[..i] + [files[i]];
    AggregateAppend(files[..i], [files[i]], env);
    assert [files[i]][1..] == [];
  }

  /**
   * The loop of the drop listener: walks the dropped files in order, pushing
   * each one's imports onto `validMusicList`.
   */
  method CollectDropped<M>(files: seq<DroppedFile>, env: ImportEnv<M>) returns (validMusicList: seq<M>)
    ensures validMusicList == Aggregate(files, env)
  {
    validMusicList := [];
    var i := 0;
    while i < |files|
      invariant 0 <= i <= |files|
      invariant validMusicList == Aggregate(files[..i], env)
    {
      var f := files[i];
      if f.mediaType == "" && env.isFolder(f.path) {
        validMusicList := validMusicList + env.importMusicSheet(f.path);
      } else if AnyEndsWith(f.path, env.supportedTypes) {
        validMusicList := validMusicList + [env.importMusicItem(f.path)];
      }
      AggregateSnoc(files, i, env);
      i := i + 1;
    }
    assert files[..i] == files;
  }

  /**
   * The whole drop listener: collect the list, then replace the queue with it,
   * once, when it is not empty.
   */
  method DropHandler<M>(player: TrackPlayer<M>, files: seq<DroppedFile>, env: ImportEnv<M>)
    modifies player
    ensures Aggregate(files, env) != [] ==>
      player.replaceLog == old(player.replaceLog) + [Aggregate(files, env)] &&
      player.queue == Aggregate(files, env)
    ensures Aggregate(files, env) == [] ==> unchanged(player)
  {
    var validMusicList := CollectDropped(files, env);
    if |validMusicList| != 0 {
      player.PlayMusicWithReplaceQueue(validMusicList);
    }
  }
}
