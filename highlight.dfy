/**
  The highlight state of the homepage fragment (TopLevelSettings): whether activity
  embedding is on, the highlight mixin that exists only when it is, and the first-start
  flag that keeps the first onStart from choosing a default highlight.
 */
module Highlight {
  import opened Preferences

  /** The preference key of "Tips & support", which is never highlighted. */
  const PrefKeySupport := "top_level_support"

  /** The saved-state key under which the mixin is kept. */
  const SavedHighlightMixin := "highlight_mixin"

  /** A call the fragment forwards to its highlight mixin. */
  datatype MixinCall =
    | PreferenceKey(prefKey: Option<string>)
    | MenuKey(menuKey: string, scrollNeeded: bool)
    | MenuHighlightShowed(show: bool)
    | HighlightIfNeeded
    | ReloadMenuKey

  /**
    The highlight mixin. Its own behaviour is not part of this model; it records the calls
    it receives, in order, so that what the fragment forwards can be stated.
   */
  class TopLevelHighlightMixin {
    var forwarded: seq<MixinCall>

    constructor ()
      ensures forwarded == []
    {
      forwarded := [];
    }

    method Receive(call: MixinCall)
      modifies this
      ensures forwarded == old(forwarded) + [call]
    {
      forwarded := forwarded + [call];
    }
  }

  /** The saved instance state, as far as the fragment uses it. */
  type Bundle = map<string, TopLevelHighlightMixin>

  class TopLevelSettings {
    var isEmbeddingActivityEnabled: bool
    var highlightMixin: TopLevelHighlightMixin?
    var firstStarted: bool

    constructor ()
      ensures !isEmbeddingActivityEnabled && highlightMixin == null && firstStarted
    {
      isEmbeddingActivityEnabled := false;
      highlightMixin := null;
      firstStarted := true;
    }

    /**
      onCreate: records whether embedding is on; only then restores the mixin from the
      saved state, or creates a new one when none was saved.
     */
    method OnCreate(icicle: Option<Bundle>, embeddingEnabled: bool)
      modifies this
      ensures isEmbeddingActivityEnabled == embeddingEnabled
      ensures firstStarted == old(firstStarted)
      ensures !embeddingEnabled ==> highlightMixin == old(highlightMixin)
      ensures embeddingEnabled ==> highlightMixin != null
      ensures embeddingEnabled && icicle.Some? && SavedHighlightMixin in icicle.value ==>
                highlightMixin == icicle.value[SavedHighlightMixin]
      ensures embeddingEnabled && icicle.None? && old(highlightMixin) != null ==>
                highlightMixin == old(highlightMixin)
      ensures embeddingEnabled && (if icicle.Some? then SavedHighlightMixin !in icicle.value
                                   else old(highlightMixin) == null) ==>
                fresh(highlightMixin) && highlightMixin.forwarded == []
    {
      isEmbeddingActivityEnabled := embeddingEnabled;
      if !isEmbeddingActivityEnabled {
        return;
      }
      if icicle.Some? {
        highlightMixin := if SavedHighlightMixin in icicle.value then icicle.value[SavedHighlightMixin] else null;
      }
      if highlightMixin == null {
        highlightMixin := new TopLevelHighlightMixin();
      }
    }

    /**
      onStart: the first start only clears the flag; a later one, in a one-pane window of a
      task holding a single activity with embedding on, highlights the default menu key.
     */
    method OnStart(onlyOneActivityInTask: bool, twoPaneResolution: bool, defaultMenuKey: string)
      modifies this, highlightMixin
      ensures highlightMixin == old(highlightMixin)
      ensures isEmbeddingActivityEnabled == old(isEmbeddingActivityEnabled)
      ensures !firstStarted
      ensures highlightMixin != null ==>
                highlightMixin.forwarded == old(highlightMixin.forwarded) +
                  (if !old(firstStarted) && isEmbeddingActivityEnabled && onlyOneActivityInTask && !twoPaneResolution
                   then [MenuKey(defaultMenuKey, false)] else [])
    {
      if firstStarted {
        firstStarted := false;
      } else if isEmbeddingActivityEnabled && onlyOneActivityInTask && !twoPaneResolution {
        SetHighlightMenuKey(defaultMenuKey, false);
      }
    }

    /** onSaveInstanceState: the mixin is saved only when there is one. */
    method OnSaveInstanceState(outState: Bundle) returns (saved: Bundle)
      ensures highlightMixin != null ==>
                SavedHighlightMixin in saved && saved[SavedHighlightMixin] == highlightMixin
      ensures highlightMixin == null ==> saved == outState
      ensures forall k :: k != SavedHighlightMixin ==> (k in saved <==> k in outState)
      ensures forall k :: k != SavedHighlightMixin && k in outState ==> saved[k] == outState[k]
    {
      saved := outState;
      if highlightMixin != null {
        saved := saved[SavedHighlightMixin := highlightMixin];
      }
    }

    /** setHighlightPreferenceKey: forwards every key but the support key, when there is a mixin. */
    method SetHighlightPreferenceKey(prefKey: Option<string>)
      modifies highlightMixin
      ensures highlightMixin != null ==>
                highlightMixin.forwarded == old(highlightMixin.forwarded) +
                  (if prefKey == Some(PrefKeySupport) then [] else [PreferenceKey(prefKey)])
    {
      if highlightMixin != null && prefKey != Some(PrefKeySupport) {
        highlightMixin.Receive(PreferenceKey(prefKey));
      }
    }

    /** setMenuHighlightShowed: forwarded when there is a mixin. */
    method SetMenuHighlightShowed(show: bool)
      modifies highlightMixin
      ensures highlightMixin != null ==>
                highlightMixin.forwarded == old(highlightMixin.forwarded) + [MenuHighlightShowed(show)]
    {
      if highlightMixin != null {
        highlightMixin.Receive(MenuHighlightShowed(show));
      }
    }

    /** setHighlightMenuKey: forwarded when there is a mixin. */
    method SetHighlightMenuKey(menuKey: string, scrollNeeded: bool)
      modifies highlightMixin
      ensures highlightMixin != null ==>
                highlightMixin.forwarded == old(highlightMixin.forwarded) + [MenuKey(menuKey, scrollNeeded)]
    {
      if highlightMixin != null {
        highlightMixin.Receive(MenuKey(menuKey, scrollNeeded));
      }
    }

    /** highlightPreferenceIfNeeded: forwarded when there is a mixin. */
    method HighlightPreferenceIfNeeded()
      modifies highlightMixin
      ensures highlightMixin != null ==>
                highlightMixin.forwarded == old(highlightMixin.forwarded) + [HighlightIfNeeded]
    {
      if highlightMixin != null {
        highlightMixin.Receive(HighlightIfNeeded);
      }
    }

    /** reloadHighlightMenuKey: forwarded when there is a mixin. */
    method ReloadHighlightMenuKey()
      modifies highlightMixin
      ensures highlightMixin != null ==>
                highlightMixin.forwarded == old(highlightMixin.forwarded) + [ReloadMenuKey]
    {
      if highlightMixin != null {
        highlightMixin.Receive(ReloadMenuKey);
      }
    }

    /** onPreferenceTreeClick: the clicked item's key is offered for highlighting. */
    method OnPreferenceTreeClick(preference: Preference)
      modifies highlightMixin
      ensures highlightMixin != null ==>
                highlightMixin.forwarded == old(highlightMixin.forwarded) +
                  (if preference.key == Some(PrefKeySupport) then [] else [PreferenceKey(preference.key)])
    {
      SetHighlightPreferenceKey(preference.key);
    }
  }

  /** A new fragment after onCreate has a mixin exactly when embedding is on, and has not started yet. */
  method CreateFragment(icicle: Option<Bundle>, embeddingEnabled: bool) returns (f: TopLevelSettings)
    ensures fresh(f)
    ensures f.isEmbeddingActivityEnabled == embeddingEnabled
    ensures f.highlightMixin != null <==> embeddingEnabled
    ensures f.firstStarted
    ensures embeddingEnabled && icicle.Some? && SavedHighlightMixin in icicle.value ==>
              f.highlightMixin == icicle.value[SavedHighlightMixin]
    ensures embeddingEnabled && !(icicle.Some? && SavedHighlightMixin in icicle.value) ==>
              fresh(f.highlightMixin) && f.highlightMixin.forwarded == []
  {
    f := new TopLevelSettings();
    f.OnCreate(icicle, embeddingEnabled);
  }

  /** Saving the state and creating a new fragment from it brings back the same mixin. */
  method RecreateFromSavedState(previous: TopLevelSettings) returns (f: TopLevelSettings)
    requires previous.highlightMixin != null
    ensures f != previous
    ensures f.highlightMixin == previous.highlightMixin
    ensures f.firstStarted
  {
    var saved := previous.OnSaveInstanceState(map[]);
    f := CreateFragment(Some(saved), true);
  }

  /**
    The first onStart of a new fragment forwards nothing; the second forwards the default
    menu key, without scrolling, exactly when embedding is on, the task holds one activity
    and the window is not two-pane.
   */
  method StartTwice(embeddingEnabled: bool, onlyOneActivityInTask: bool, twoPaneResolution: bool, defaultMenuKey: string)
    returns (afterFirst: seq<MixinCall>, afterSecond: seq<MixinCall>)
    ensures afterFirst == []
    ensures afterSecond ==
              if embeddingEnabled && onlyOneActivityInTask && !twoPaneResolution
              then [MenuKey(defaultMenuKey, false)] else []
  {
    var f := CreateFragment(None, embeddingEnabled);
    f.OnStart(onlyOneActivityInTask, twoPaneResolution, defaultMenuKey);
    afterFirst := if f.highlightMixin != null then f.highlightMixin.forwarded else [];
    f.OnStart(onlyOneActivityInTask, twoPaneResolution, defaultMenuKey);
    afterSecond := if f.highlightMixin != null then f.highlightMixin.forwarded else [];
  }

  /** With embedding off there is no mixin, so no highlight setter forwards anything. */
  method DisabledEmbeddingForwardsNothing(icicle: Option<Bundle>, prefKey: Option<string>, menuKey: string, show: bool)
    returns (f: TopLevelSettings)
    ensures f.highlightMixin == null && !f.isEmbeddingActivityEnabled
  {
    f := CreateFragment(icicle, false);
    f.SetHighlightPreferenceKey(prefKey);
    f.SetHighlightMenuKey(menuKey, true);
    f.SetMenuHighlightShowed(show);
    f.HighlightPreferenceIfNeeded();
    f.ReloadHighlightMenuKey();
  }
}
