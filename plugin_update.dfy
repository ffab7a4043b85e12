/**
 * The plugin auto-update throttle at the end of the renderer's bootstrap:
 * when the `plugin.autoUpdatePlugin` setting is on and the time stored under
 * `pluginLastupdatedTime` is more than a day away from now, the current time
 * is stored and an `update-all-plugins` request is sent.
 */
module PluginUpdate {
  import opened Wrappers

  /** One day in milliseconds. */
  const OneDay := 86400000

  /** Whether the update request is sent, and what `pluginLastupdatedTime` holds afterwards. */
  datatype Decision = Decision(fire: bool, lastUpdated: Option<int>)

  /** `Math.abs`. */
  function Abs(x: int): (r: nat)
    ensures r == x || r == -x
  {
    if x < 0 then -x else x
  }

  /**
   * The check, given the setting, the stored time in milliseconds (missing
   * reads as 0) and `Date.now()`.
   */
  function AutoUpdateCheck(autoUpdatePlugin: bool, lastUpdated: Option<int>, now: int): (d: Decision)
    ensures d.fire <==>
      autoUpdatePlugin &&
      (now - lastUpdated.GetOr(0) > OneDay || lastUpdated.GetOr(0) - now > OneDay)
    ensures d.fire ==> d.lastUpdated == Some(now)
    ensures !d.fire ==> d.lastUpdated == lastUpdated
  {
    if autoUpdatePlugin then
      var last := lastUpdated.GetOr(0);
      if Abs(now - last) > OneDay then Decision(true, Some(now))
      else Decision(false, lastUpdated)
    else Decision(false, lastUpdated)
  }

  /** Once the update has fired, no check within a day of that moment fires again. */
  lemma AtMostOncePerDay(autoUpdatePlugin: bool, lastUpdated: Option<int>, now: int, later: int)
    requires AutoUpdateCheck(autoUpdatePlugin, lastUpdated, now).fire
    requires Abs(later - now) <= OneDay
    ensures !AutoUpdateCheck(autoUpdatePlugin, AutoUpdateCheck(autoUpdatePlugin, lastUpdated, now).lastUpdated, later).fire
  {
  }

  /** A clock that went back by more than a day also triggers the update. */
  lemma BackwardClockFires(last: int, now: int)
    requires now < last - OneDay
    ensures AutoUpdateCheck(true, Some(last), now) == Decision(true, Some(now))
  {
  }

  /** With the setting off nothing is sent and nothing is stored. */
  lemma DisabledNeverFires(lastUpdated: Option<int>, now: int)
    ensures AutoUpdateCheck(false, lastUpdated, now) == Decision(false, lastUpdated)
  {
  }
}
