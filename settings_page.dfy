/** The settings page (frontend/src/pages/Settings.js): the three switches, which refuse to
    change anything while the lock is active, and the lock dialog with its hour count. A toast
    is returned as a value. */
module SettingsPage {
  import opened Wrappers
  import opened Text
  import opened AuthContext
  import opened UserContext
  import opened Toasts

  const LockedToast := Toast("Mode verrou actif", "Impossible de modifier les r\U{E9}glages en mode verrou", true)

  /** The preference a switch controls. */
  datatype ToggleKey = HideReels | HideStories | HideSuggestions

  /** `{[key]: value}`: a patch with that single key. */
  function SingleKey(key: ToggleKey, value: bool): (patch: PrefsPatch)
    ensures patch.lockMode.None? && patch.lockEndTime.None?
    ensures patch.hideReels.Some? <==> key == HideReels
    ensures patch.hideStories.Some? <==> key == HideStories
    ensures patch.hideSuggestions.Some? <==> key == HideSuggestions
    ensures patch.hideReels.Some? ==> patch.hideReels.value == value
    ensures patch.hideStories.Some? ==> patch.hideStories.value == value
    ensures patch.hideSuggestions.Some? ==> patch.hideSuggestions.value == value
  {
    match key
    case HideReels => PrefsPatch(Some(value), None, None, None, None)
    case HideStories => PrefsPatch(None, Some(value), None, None, None)
    case HideSuggestions => PrefsPatch(None, None, Some(value), None, None)
  }

  /** A content name, a space, then "masqués" when hidden and "affichés" when shown. */
  function Labelled(name: string, value: bool): (s: string)
    ensures StartsWith(s, name + " ")
    ensures value ==> EndsWith(s, " masqu\U{E9}s")
    ensures !value ==> EndsWith(s, " affich\U{E9}s")
  {
    var shown := if value then "masqu\U{E9}s" else "affich\U{E9}s";
    JoinedEnds(name + " ", shown);
    JoinedEnds(name, " " + shown);
    assert name + " " + shown == name + (" " + shown);
    assert value ==> " " + shown == " masqu\U{E9}s";
    assert !value ==> " " + shown == " affich\U{E9}s";
    name + " " + shown
  }

  /** The confirmation text: the content named after the key, then "masqués" when hidden and
      "affichés" when shown. */
  function ChangeLabel(key: ToggleKey, value: bool): (s: string)
    ensures key == HideReels ==> StartsWith(s, "Reels ")
    ensures key == HideStories ==> StartsWith(s, "Stories ")
    ensures key == HideSuggestions ==> StartsWith(s, "Suggestions ")
    ensures value ==> EndsWith(s, " masqu\U{E9}s")
    ensures !value ==> EndsWith(s, " affich\U{E9}s")
  {
    match key
    case HideReels => Labelled("Reels", value)
    case HideStories => Labelled("Stories", value)
    case HideSuggestions => Labelled("Suggestions", value)
  }

  function UpdatedToast(key: ToggleKey, value: bool): Toast {
    Toast("R\U{E9}glage mis \U{E0} jour", ChangeLabel(key, value), false)
  }

  function LockEnabledToast(hours: int): Toast {
    Toast("Mode verrou activ\U{E9}", "R\U{E9}glages verrouill\U{E9}s pour " + IntToString(hours) + "h", false)
  }

  class SettingsPage {
    const user: UserProvider
    var lockHours: Option<int>
    var showLockDialog: bool

    /** Two hours proposed, the dialog closed. */
    constructor (user: UserProvider)
      ensures this.user == user && lockHours == Some(2) && !showLockDialog
    {
      this.user := user;
      lockHours := Some(2);
      showLockDialog := false;
    }

    /** A switch moved to `value`: while the lock is active only the error toast is shown and
        nothing changes; otherwise exactly that one preference is set. */
    method HandlePreferenceChange(key: ToggleKey, value: bool, now: int) returns (toast: Toast)
      modifies user, user.auth.storage
      ensures old(user.IsLockModeActive(now)) ==>
        && toast == LockedToast
        && user.preferences == old(user.preferences)
        && user.auth.storage.items == old(user.auth.storage.items)
      ensures !old(user.IsLockModeActive(now)) ==>
        && toast == UpdatedToast(key, value)
        && user.preferences == Merge(old(user.preferences), SingleKey(key, value))
        && (user.auth.user.Some? ==>
              user.auth.storage.items == old(user.auth.storage.items)[PrefsKey(user.auth.user.value.id) := EncodePrefs(user.preferences)])
        && (user.auth.user.None? ==> user.auth.storage.items == old(user.auth.storage.items))
      ensures user.timeSaved == old(user.timeSaved)
    {
      if user.IsLockModeActive(now) {
        return LockedToast;
      }
      user.UpdatePreferences(SingleKey(key, value));
      toast := UpdatedToast(key, value);
    }

    /** The lock button opens the dialog; it is disabled while the lock is active. */
    method OpenLockDialog(now: int)
      modifies this
      ensures showLockDialog == (old(showLockDialog) || !user.IsLockModeActive(now))
      ensures lockHours == old(lockHours)
    {
      if !user.IsLockModeActive(now) {
        showLockDialog := true;
      }
    }

    /** The hour field: whatever `parseInt` makes of the text is kept, NaN and values outside
        1..24 included. */
    method HandleLockHoursInput(text: string)
      modifies this
      ensures lockHours == ParseInt(text) && showLockDialog == old(showLockDialog)
    {
      lockHours := ParseInt(text);
    }

    /** "Verrouiller": the lock is enabled for `lockHours`, the dialog closes and the
        confirmation toast is returned. When `enableLockMode` throws (NaN hours, a time out
        of range) the handler stops there: the dialog stays open and there is no toast. */
    method HandleEnableLock(now: int) returns (toast: Option<Toast>)
      modifies this, user, user.auth.storage
      ensures lockHours == old(lockHours) && user.timeSaved == old(user.timeSaved)
      ensures LockEnd(old(lockHours), now).None? ==>
        && toast.None? && showLockDialog == old(showLockDialog)
        && user.preferences == old(user.preferences)
        && user.auth.storage.items == old(user.auth.storage.items)
      ensures LockEnd(old(lockHours), now).Some? ==>
        && toast == Some(LockEnabledToast(old(lockHours).value))
        && !showLockDialog
        && user.preferences == old(user.preferences).(lockMode := true, lockEndTime := LockEnd(old(lockHours), now))
      ensures LockEnd(old(lockHours), now).Some? && user.auth.user.Some? ==>
        user.auth.storage.items == old(user.auth.storage.items)[PrefsKey(user.auth.user.value.id) := EncodePrefs(user.preferences)]
      ensures LockEnd(old(lockHours), now).Some? && user.auth.user.None? ==>
        user.auth.storage.items == old(user.auth.storage.items)
    {
      var threw := user.EnableLockMode(lockHours, now);
      if threw {
        return None;
      }
      showLockDialog := false;
      toast := Some(LockEnabledToast(lockHours.value));
    }
  }

  /** A switch moved outside a lock changes exactly its own preference: the other two flags,
      the lock and its end time keep their values. */
  lemma SwitchChangesOnlyItsKey(p: Preferences, key: ToggleKey, value: bool)
    ensures var q := Merge(p, SingleKey(key, value));
      && q.lockMode == p.lockMode && q.lockEndTime == p.lockEndTime
      && q.hideReels == (if key == HideReels then value else p.hideReels)
      && q.hideStories == (if key == HideStories then value else p.hideStories)
      && q.hideSuggestions == (if key == HideSuggestions then value else p.hideSuggestions)
  {
  }

  /** A switch cannot end a lock: a change refused or accepted leaves the lock state at
      `now` as it was. */
  lemma SwitchKeepsLock(p: Preferences, key: ToggleKey, value: bool, now: int)
    ensures LockActive(Merge(p, SingleKey(key, value)), now) == LockActive(p, now)
  {
  }
}
