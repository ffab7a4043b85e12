/**
 * The two event listeners the bootstrap registers: `TOGGLE_DESKTOP_LYRIC`
 * flips the desktop-lyric setting and asks the lyric window to follow it, and
 * `TOGGLE_LIKE` flips whether an item is a favourite.
 */
module Toggles {
  import opened Wrappers
  import opened Collaborators

  /** JavaScript truthiness of a setting that holds a boolean or was never set. */
  function Truthy(v: Option<bool>): (r: bool)
    ensures !r <==> v == None || v == Some(false)
  {
    match v
    case Some(b) => b
    case None => false
  }

  /** `favorites` after flipping the membership of `x`. */
  function ToggleMembership<M>(favorites: set<M>, x: M): (r: set<M>)
    ensures x in r <==> x !in favorites
    ensures r - {x} == favorites - {x}
  {
    if x in favorites then favorites - {x} else favorites + {x}
  }

  /** Two flips of the same item restore the favourites. */
  lemma ToggleMembershipTwice<M>(favorites: set<M>, x: M)
    ensures ToggleMembership(ToggleMembership(favorites, x), x) == favorites
  {
  }

  /**
   * The `TOGGLE_DESKTOP_LYRIC` listener. `windowRequest` is the value sent
   * with `set-lyric-window`; the setting is then stored as that same value.
   */
  method ToggleDesktopLyric(config: AppConfig) returns (windowRequest: bool)
    modifies config
    ensures windowRequest == !Truthy(old(config.enableDesktopLyric))
    ensures config.enableDesktopLyric == Some(windowRequest)
  {
    var enableDesktopLyric := config.enableDesktopLyric;
    windowRequest := !Truthy(enableDesktopLyric);
    config.SetEnableDesktopLyric(!Truthy(enableDesktopLyric));
  }

  /**
   * The `TOGGLE_LIKE` listener, on the passed item or else on the current
   * track. With neither there is no item to act on, and the favourites stay
   * as they were.
   */
  method ToggleLike<M>(player: TrackPlayer<M>, favorites: FavoriteSheet<M>, item: Option<M>)
    modifies favorites
    ensures item.Some? ==> favorites.members == ToggleMembership(old(favorites.members), item.value)
    ensures item.None? && player.current.Some? ==>
      favorites.members == ToggleMembership(old(favorites.members), player.current.value)
    ensures item.None? && player.current.None? ==> favorites.members == old(favorites.members)
  {
    var realItem := item;
    if realItem.None? {
      realItem := player.GetCurrentMusic();
    }
    if realItem.Some? {
      var isFavorite := favorites.IsFavorite(realItem.value);
      if isFavorite {
        favorites.Remove(realItem.value);
      } else {
        favorites.Add(realItem.value);
      }
    }
  }

  /** Toggling the desktop lyric twice restores the setting's truthiness, and its value once it was set. */
  method ToggleDesktopLyricTwice(config: AppConfig) returns (first: bool, second: bool)
    modifies config
    ensures second == !first
    ensures Truthy(config.enableDesktopLyric) == Truthy(old(config.enableDesktopLyric))
    ensures config.enableDesktopLyric == Some(Truthy(old(config.enableDesktopLyric)))
    ensures old(config.enableDesktopLyric).Some? ==> config.enableDesktopLyric == old(config.enableDesktopLyric)
  {
    first := ToggleDesktopLyric(config);
    second := ToggleDesktopLyric(config);
    if old(config.enableDesktopLyric).Some? {
      assert Truthy(old(config.enableDesktopLyric)) == old(config.enableDesktopLyric).value;
    }
  }

  /** Two `TOGGLE_LIKE` events on the same explicit item restore the favourites. */
  method ToggleLikeTwice<M>(player: TrackPlayer<M>, favorites: FavoriteSheet<M>, x: M)
    modifies favorites
    ensures favorites.members == old(favorites.members)
  {
    ToggleLike(player, favorites, Some(x));
    ToggleLike(player, favorites, Some(x));
    ToggleMembershipTwice(old(favorites.members), x);
  }
}
