# Renderer bootstrap of MusicFree Desktop, modelled in Dafny

This project models the decision logic in the renderer's bootstrap module
(`src/renderer/document/bootstrap.ts`) of the MusicFree desktop music player.
That module holds four small procedures:

- **Drop import** (`DropImport`). Each file dropped on the window is classified:
  - A file with an empty declared type that the filesystem reports as a folder becomes an `importMusicSheet` call to the local plugin.
  - Failing that, a file whose path ends with a supported suffix becomes an `importMusicItem` call.
  - Anything else is skipped.

  The results are collected in drop order. When that list is not empty, it replaces the playback queue.
- **Space-bar suppression** (`SpaceBar`). A keydown listener that prevents the space bar's default scrolling, except on form controls and `role="textbox"` elements.
- **Plugin auto-update throttle** (`PluginUpdate`). When `plugin.autoUpdatePlugin` is on and the stored update time is more than a day from now (in either direction), it stores the current time and requests an update of all plugins.
- **Toggle listeners** (`Toggles`):
  - `TOGGLE_DESKTOP_LYRIC` negates the `lyric.enableDesktopLyric` setting and sends the negated value to the lyric window.
  - `TOGGLE_LIKE` flips whether the given item is a favourite. With no item given, it acts on the current track.

The collaborators these procedures change are classes in `Collaborators`, reduced to the fields the listeners read and write:
- the track player (queue, current track, and a ghost record of the queue replacements requested of it);
- the configuration entry for the desktop lyric;
- the favourites sheet, seen as a set.

The filesystem probe, the two plugin imports and the list of supported suffixes are not shown in the source. They are parameters of the model, bundled in `DropImport.ImportEnv`. The probe and the imports are total functions of the path.

The per-file imports do not run concurrently: the code awaits each dropped file in turn, so the model is a sequential loop.
This module calls `callPluginDelegateMethod`, `registerPluginEvents` and `Evt.on`; their code is not part of this model.

## Model

| member | source | states |
|---|---|---|
| DropImport.AnyEndsWith | src/renderer/document/bootstrap.ts:65 | the suffix test holds exactly when some configured suffix ends the path |
| DropImport.Classify | src/renderer/document/bootstrap.ts:54-66 | a file is a folder exactly when its type is empty and the probe says folder; it is a media file exactly when it is not such a folder and some suffix matches; a file with a non-empty type is never a folder, so the folder branch takes precedence over the suffix test |
| DropImport.EndsWith | src/renderer/document/bootstrap.ts:65 | `path.endsWith(suffix)` holds exactly when the path is some prefix followed by the suffix |
| DropImport.Contribution | src/renderer/document/bootstrap.ts:54-76 | a folder with an empty type contributes the whole `importMusicSheet` result; any other file contributes `[importMusicItem(path)]` when some suffix matches and nothing otherwise |
| DropImport.Aggregate | src/renderer/document/bootstrap.ts:52-77 | with no folder in the drop, the list has exactly one item per importable file |
| DropImport.AggregateItemsFromFiles | src/renderer/document/bootstrap.ts:52-77 | every item of the list was imported for one of the dropped files |
| DropImport.Importable | src/renderer/document/bootstrap.ts:64-77 | keeps exactly the dropped files that are not skipped, and no others |
| DropImport.ImportableKeepsAll | src/renderer/document/bootstrap.ts:64-77 | when no dropped file is skipped, the importable files are the whole drop, in order |
| DropImport.ImportableAppend | src/renderer/document/bootstrap.ts:53-77 | the importable files of a concatenated drop are those of the first part followed by those of the second, so order is kept |
| DropImport.AggregateAppend | src/renderer/document/bootstrap.ts:53-77 | dropping `a` then `b` yields the list for `a` followed by the list for `b` |
| DropImport.ContributionInPlace | src/renderer/document/bootstrap.ts:53-77 | the items of the i-th file sit after those of all earlier files and before those of all later ones |
| DropImport.AggregateEmptyIff | src/renderer/document/bootstrap.ts:52-78 | the list is empty if and only if every file is skipped or is a folder whose sheet import gave no items |
| DropImport.NothingImportableYieldsNothing | src/renderer/document/bootstrap.ts:64-77 | a drop with no folder and no supported file yields an empty list, with no error |
| DropImport.SkippedFilesDoNotMatter | src/renderer/document/bootstrap.ts:64-77 | removing the skipped files from a drop leaves the list unchanged |
| DropImport.SongIsImported | src/renderer/document/bootstrap.ts:64-75 | with suffixes `.mp3` and `.flac`, a non-folder `/music/song.mp3` contributes its one imported item |
| DropImport.ReadmeIsSkipped | src/renderer/document/bootstrap.ts:64-77 | with suffixes `.mp3` and `.flac`, a non-folder `/music/readme.txt` contributes nothing |
| DropImport.MixedDropExample | src/renderer/document/bootstrap.ts:52-77 | a folder, a `.mp3` file and a `.txt` file yield the sheet's items followed by the one media item |
| DropImport.AggregateSnoc | src/renderer/document/bootstrap.ts:53-76 | the list for one more file extends the previous list by exactly that file's items |
| DropImport.CollectDropped | src/renderer/document/bootstrap.ts:52-77 | the loop builds exactly the in-order concatenation of every file's contribution |
| DropImport.DropHandler | src/renderer/document/bootstrap.ts:47-81 | `playMusicWithReplaceQueue` is called exactly once, with the full list, when the list is non-empty; otherwise the player is left entirely unchanged |
| SpaceBar.KillSpaceBar | src/renderer/document/bootstrap.ts:90-114 | the default action is prevented if and only if the key code is 32, the target has a non-empty tag name outside INPUT, TEXTAREA, SELECT and EMBED, and its role is not `textbox` |
| SpaceBar.OtherKeysPassThrough | src/renderer/document/bootstrap.ts:111-113 | a key other than the space bar is never suppressed |
| SpaceBar.EditableTargetsKeepSpace | src/renderer/document/bootstrap.ts:92-108 | on a form-control tag or a `role="textbox"` element nothing is suppressed |
| PluginUpdate.AutoUpdateCheck | src/renderer/document/bootstrap.ts:37-44 | fires if and only if the setting is on and now differs from the stored time (missing reads as 0) by more than 86400000 ms; when it fires the stored time becomes now, otherwise it is unchanged |
| PluginUpdate.Abs | src/renderer/document/bootstrap.ts:40 | `Math.abs`: a non-negative value equal to the argument or to its negation |
| PluginUpdate.AtMostOncePerDay | src/renderer/document/bootstrap.ts:38-41 | after firing, a check within a day of that moment does not fire |
| PluginUpdate.BackwardClockFires | src/renderer/document/bootstrap.ts:40-41 | a clock more than a day behind the stored time also fires, and stores now |
| PluginUpdate.DisabledNeverFires | src/renderer/document/bootstrap.ts:37 | with the setting off nothing fires and nothing is stored |
| Toggles.Truthy | src/renderer/document/bootstrap.ts:122-126 | the setting is falsy exactly when it was never set or is `false` |
| Toggles.ToggleMembership | src/renderer/document/bootstrap.ts:136-140 | the item's membership is flipped and every other item's membership is unchanged |
| Toggles.ToggleMembershipTwice | src/renderer/document/bootstrap.ts:136-140 | flipping the same item twice restores the favourites |
| Toggles.ToggleDesktopLyric | src/renderer/document/bootstrap.ts:121-131 | the value sent to the lyric window is the negation of the old setting, and the setting becomes that same value |
| Toggles.ToggleLike | src/renderer/document/bootstrap.ts:133-141 | with an item passed, that item's membership is flipped; with none, the current track's is; with neither, the favourites are unchanged |
| Toggles.ToggleDesktopLyricTwice | src/renderer/document/bootstrap.ts:121-131 | two toggles send opposite values and restore the setting's truthiness, and leave it as `Some` of its old truthiness, hence its exact value once it had been set |
| Toggles.ToggleLikeTwice | src/renderer/document/bootstrap.ts:133-141 | two `TOGGLE_LIKE` events on the same explicit item restore the favourites |
| Collaborators.TrackPlayer.GetCurrentMusic | src/renderer/document/bootstrap.ts:135 | returns the player's current track, if any |
| Collaborators.AppConfig.SetEnableDesktopLyric | src/renderer/document/bootstrap.ts:127-130 | the `lyric.enableDesktopLyric` setting becomes the given value |
| Collaborators.FavoriteSheet.IsFavorite | src/renderer/document/bootstrap.ts:136 | holds exactly when the item is in the favourites |
| Collaborators.FavoriteSheet.Add | src/renderer/document/bootstrap.ts:139 | the favourites become the old ones plus the item |
| Collaborators.FavoriteSheet.Remove | src/renderer/document/bootstrap.ts:137 | the favourites become the old ones minus the item |
| Collaborators.TrackPlayer.PlayMusicWithReplaceQueue | src/renderer/document/bootstrap.ts:79 | the queue becomes the given list, and the call is appended to the ghost replacement record |

## Left out

- Startup sequencing at bootstrap.ts:21-34: the setup calls for configuration, plugin events, music sheets, player, local music, message manager, theme packs, shortcuts and downloader. These modules are not part of this model.
- `setAutoFreeze(false)` is immer configuration with no behaviour here.
- The `dragover` listener and the `preventDefault`/`stopPropagation` calls on drop events are DOM plumbing.
- Listener registration (`addEventListener`, `Evt.on`) is left out. So are the event bus and the plugin delegate behind `callPluginDelegateMethod`; their code is not part of this model. The two imports are parameters.
- IPC, `localStorage` and `Date.now` are parameters or results:
  - the lyric-window request is the result of `ToggleDesktopLyric`;
  - the update request is `Decision.fire`;
  - the stored time and the clock are inputs of `AutoUpdateCheck`.
- PluginUpdate.AutoUpdateCheck: the stored time is read as an optional integer (missing is 0). The string-to-number coercion is left out, including a non-numeric stored value, which gives NaN and never fires.
- DropImport.CollectDropped: `isFolder` and the imports are total functions of the path. A failing or rejected import is not modelled; in the source, such a failure ends the listener before the queue is touched.
- Async interleaving is left out. This covers two concurrent drops and two concurrent toggle events racing on the setting or the favourites.
- Toggles.ToggleLike: when no item is passed and no track is playing, the favourites are left unchanged. The favourites code that the source would call with `undefined` is not part of this model.
- Collaborators.TrackPlayer.PlayMusicWithReplaceQueue: says nothing about the current track or playback start, because the player's internals are not part of this model.
- The favourites sheet is a set. The persisted sheet's order and identity-by-id comparison are not modelled.
