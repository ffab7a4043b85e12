/**
 * The state the bootstrap's handlers change, owned by modules whose code is
 * not part of this model: the track player, the application configuration
 * and the favourites sheet. Each is reduced to the fields those handlers
 * read and write, and to the operations the handlers call.
 */
module Collaborators {
  import opened Wrappers

  /** The track player: its queue, its current track and every queue replacement requested of it. */
  class TrackPlayer<M> {
    var queue: seq<M>
    var current: Option<M>
    /** The argument of every `playMusicWithReplaceQueue` call, oldest first. */
    ghost var replaceLog: seq<seq<M>>

    constructor (current: Option<M>)
      ensures this.queue == [] && this.current == current && replaceLog == []
    {
      this.queue := [];
      this.current := current;
      replaceLog := [];
    }

    /** `trackPlayer.getCurrentMusic()`: the track playing now, if any. */
    method GetCurrentMusic() returns (m: Option<M>)
      ensures m == current
    {
      m := current;
    }

    /** `trackPlayer.playMusicWithReplaceQueue(items)`: the queue is discarded and becomes `items`. */
    method PlayMusicWithReplaceQueue(items: seq<M>)
      modifies this
      ensures queue == items
      ensures replaceLog == old(replaceLog) + [items]
    {
      queue := items;
      replaceLog := replaceLog + [items];
    }
  }

  /** The one configuration entry the handlers use: `lyric.enableDesktopLyric`, possibly never set. */
  class AppConfig {
    var enableDesktopLyric: Option<bool>

    constructor (enableDesktopLyric: Option<bool>)
      ensures this.enableDesktopLyric == enableDesktopLyric
    {
      this.enableDesktopLyric := enableDesktopLyric;
    }

    /** `setAppConfigPath("lyric.enableDesktopLyric", v)`. */
    method SetEnableDesktopLyric(v: bool)
      modifies this
      ensures enableDesktopLyric == Some(v)
    {
      enableDesktopLyric := Some(v);
    }
  }

  /** The favourites sheet, seen as the set of items it holds. */
  class FavoriteSheet<M(==)> {
    var members: set<M>

    constructor (members: set<M>)
      ensures this.members == members
    {
      this.members := members;
    }

    /** `isFavoriteMusic(x)`. */
    method IsFavorite(x: M) returns (b: bool)
      ensures b <==> x in members
    {
      b := x in members;
    }

    /** `addMusicToFavorite(x)`. */
    method Add(x: M)
      modifies this
      ensures members == old(members) + {x}
    {
      members := members + {x};
    }

    /** `removeMusicFromFavorite(x)`. */
    method Remove(x: M)
      modifies this
      ensures members == old(members) - {x}
    {
      members := members - {x};
    }
  }
}
