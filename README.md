# Homepage preference decisions of the Settings app, in Dafny

This project models the per-item decisions of the Settings homepage fragment
`TopLevelSettings` and proves what they promise:

- **Layout pass** (`setPreferenceLayout`). Each item whose key is one of nineteen fixed keys
  gets a positioned layout resource: about-phone, top, middle, bottom, top-extra or
  bottom-extra. The google and wellbeing items also get the sort orders 992 and 994. Every
  other item keeps its layout and order.
- **Icon pass** (`setIconStyles`). Every item whose icon is a two-layer `LayerDrawable` has
  both layer tints reset to 0. Then, for a style index 0 to 7, one of eight styles paints it,
  from three theme colours and a per-position colour array. Any other index leaves both tints at 0. Styles 3 and 5 also dim the background layer to alpha 50.
- **Highlight state**. `onCreate` records whether activity embedding is on. Only when it is
  does it restore or create the highlight mixin. The first `onStart` only clears the
  first-start flag. A later one highlights the default menu key when embedding is on, the
  window is one-pane and the task holds one activity. Every highlight setter is guarded by the mixin being
  present, and the support item is never forwarded.

Files:

- `preferences.dfy` (module `Preferences`): the `Preference` record, its `Layout` resource
  enum, and the `Drawable` and `Icon` values.
- `layout.dfy` (module `PreferenceLayout`): the layout pass.
  - `AssignLayout` and `AssignOrder` are the source's chain of key tests.
  - `LayoutTable` and `OrderTable` state the same mapping as tables, and the two are proved equal.
  - `Arrange` is the whole pass on a sequence. `SetPreferenceLayout` works in place on an
    array and is proved to compute it.
- `icon_styles.dfy` (module `IconStyles`): the icon pass.
  - `SetIconStyles` is the source's loop and switch, working in place.
  - It is proved against `StyleTable`, a table of the eight styles' colour sources, through `Restyled`.
- `highlight.dfy` (module `Highlight`): `TopLevelSettings` and `TopLevelHighlightMixin` as classes.
  - The mixin is modelled only as a recorder (`forwarded`) of the calls the fragment passes on.

Inputs:

- The host queries are parameters: embedding enabled, only one activity in the task, two-pane resolution.
- So are the theme colours, the icon-style setting, the colour array and the default menu key string.

## Model

| member | source | states |
|---|---|---|
| `PreferenceLayout.AssignLayout` | src/com/android/settings/homepage/TopLevelSettings.java:207-265 | the chain of key tests gives exactly the layout of the key-to-layout table for the nineteen keys, and keeps the current layout for every other key |
| `PreferenceLayout.AssignOrder` | src/com/android/settings/homepage/TopLevelSettings.java:259-266 | only top_level_google (992) and top_level_wellbeing (994) get a new order; any other key keeps its order |
| `PreferenceLayout.Arrange` | src/com/android/settings/homepage/TopLevelSettings.java:201-202 | the pass over the screen keeps the number of items |
| `PreferenceLayout.SetPreferenceLayout` | src/com/android/settings/homepage/TopLevelSettings.java:199-269 | after the in-place loop the screen is `Arrange` of the screen before it |
| `PreferenceLayout.ArrangeAt` | src/com/android/settings/homepage/TopLevelSettings.java:202-206 | item k after the pass depends only on item k before it |
| `PreferenceLayout.KnownKeyLayouts` | src/com/android/settings/homepage/TopLevelSettings.java:208-265 | about_device gets about-phone; network, apps, sound and security get top; the eight middle keys get middle; connected_devices, location, accessibility and system get bottom; google gets top-extra and order 992; wellbeing gets bottom-extra and order 994 |
| `PreferenceLayout.UnrecognisedKeyUnchanged` | src/com/android/settings/homepage/TopLevelSettings.java:205-267 | an item with a null key or a key outside the table leaves the pass exactly as it was |
| `PreferenceLayout.OrderChangesLimited` | src/com/android/settings/homepage/TopLevelSettings.java:259-266 | the pass never changes an item's key or icon, and changes its order only for the google and wellbeing keys |
| `PreferenceLayout.ArrangeIdempotent` | src/com/android/settings/homepage/TopLevelSettings.java:199-269 | running the layout pass a second time changes nothing |
| `IconStyles.SetIconStyles` | src/com/android/settings/homepage/TopLevelSettings.java:271-344 | after the in-place loop every item i is `Restyled` at position i with the given style, theme and colour array; the colour array is only required to cover tinted positions, and only in styles that read it |
| `IconStyles.StyleTints` | src/com/android/settings/homepage/TopLevelSettings.java:306-339 | styles 0 to 7 give (bg, fg) tints (0, accent), (background, accent), (accent, normal), (accent, accent) with alpha 50, (0, c[i]), (c[i], c[i]) with alpha 50, (background, c[i]), (c[i], normal); any other index leaves both at the reset tint 0 |
| `IconStyles.ColorfulStyles` | src/com/android/settings/homepage/TopLevelSettings.java:323-338 | exactly styles 4 to 7 read the colour array |
| `IconStyles.AlphaOnlyInDimmedStyles` | src/com/android/settings/homepage/TopLevelSettings.java:318-330 | the background's alpha changes only in styles 3 and 5, where it becomes 50; the foreground's alpha never changes |
| `IconStyles.RestyledTouchesOnlyTwoLayerIcons` | src/com/android/settings/homepage/TopLevelSettings.java:293-299 | an item without a two-layer LayerDrawable icon is left as it was; the pass never changes a key, layout or order |
| `IconStyles.RestyledForgetsOldTints` | src/com/android/settings/homepage/TopLevelSettings.java:300-305 | both tints are reset before styling, so two icons that differ only in their old tints end up the same |
| `IconStyles.ThemeStylesIgnoreColorfulTint` | src/com/android/settings/homepage/TopLevelSettings.java:306-322 | styles 0 to 3 do not depend on the colour array or the position, and need no bound on them |
| `IconStyles.RestyledIdempotent` | src/com/android/settings/homepage/TopLevelSettings.java:293-343 | a second pass with the same inputs changes nothing more |
| `IconStyles.DimmedAlphaSurvivesStyleChange` | src/com/android/settings/homepage/TopLevelSettings.java:318-330 | a background dimmed by style 3 keeps alpha 50 after a later pass in any style other than 3 or 5, since the pass never restores alpha |
| `Highlight.TopLevelSettings.constructor` | src/com/android/settings/homepage/TopLevelSettings.java:63-72 | a new fragment has embedding off, no mixin, and the first-start flag set |
| `Highlight.TopLevelSettings.OnCreate` | src/com/android/settings/homepage/TopLevelSettings.java:137-152 | embedding off: nothing but the flag changes. Embedding on: the mixin is the saved one when the saved state holds one; with no saved state an existing mixin is kept; otherwise a new, empty mixin is made |
| `Highlight.TopLevelSettings.OnStart` | src/com/android/settings/homepage/TopLevelSettings.java:154-167 | the first start only clears the flag; a later start forwards the default menu key with scroll=false exactly when embedding is on, the task holds one activity and the window is not two-pane |
| `Highlight.TopLevelSettings.OnSaveInstanceState` | src/com/android/settings/homepage/TopLevelSettings.java:175-181 | the mixin is put under "highlight_mixin" only when there is one; every other entry of the state is kept |
| `Highlight.TopLevelSettings.SetHighlightPreferenceKey` | src/com/android/settings/homepage/TopLevelSettings.java:364-370 | forwards the key (null included) only when a mixin is present and the key is not "top_level_support" |
| `Highlight.TopLevelSettings.SetMenuHighlightShowed` | src/com/android/settings/homepage/TopLevelSettings.java:372-377 | forwards the flag only when a mixin is present |
| `Highlight.TopLevelSettings.SetHighlightMenuKey` | src/com/android/settings/homepage/TopLevelSettings.java:379-384 | forwards the menu key and scroll flag only when a mixin is present |
| `Highlight.TopLevelSettings.HighlightPreferenceIfNeeded` | src/com/android/settings/homepage/TopLevelSettings.java:352-357 | forwards the request only when a mixin is present |
| `Highlight.TopLevelSettings.ReloadHighlightMenuKey` | src/com/android/settings/homepage/TopLevelSettings.java:405-409 | forwards the reload only when a mixin is present |
| `Highlight.TopLevelSettings.OnPreferenceTreeClick` | src/com/android/settings/homepage/TopLevelSettings.java:114-122 | a click offers the clicked item's key for highlighting, with the support key filtered out |
| `Highlight.CreateFragment` | src/com/android/settings/homepage/TopLevelSettings.java:140-151 | after construction and onCreate the fragment has a mixin exactly when embedding is on, and has not started yet |
| `Highlight.RecreateFromSavedState` | src/com/android/settings/homepage/TopLevelSettings.java:146-181 | saving the state and creating a new fragment from it, with embedding on, brings back the same mixin |
| `Highlight.StartTwice` | src/com/android/settings/homepage/TopLevelSettings.java:155-166 | a new fragment forwards nothing on its first start; on its second start it forwards only the default menu key without scrolling, exactly when embedding is on, the task holds one activity and the window is not two-pane |
| `Highlight.DisabledEmbeddingForwardsNothing` | src/com/android/settings/homepage/TopLevelSettings.java:140-144 | with embedding off the mixin stays null through every highlight setter |

## Left out

- `FeatureFactoryGoogleImpl`: a lazily created provider that is cached and returned. It has no
  decision logic of its own, and the provider's constructor and the `Context` are not part of this model.
- Framework lifecycle plumbing and calls into host objects are not modelled, because they have
  no visible logic here:
  - `onAttach`, `onActivityCreated`, `onCreatePreferences` (with its null-screen guard), `onResume`
    and `onConfigurationChanged`, and the `super` calls;
  - `createPreference`;
  - the search index provider, `shouldForceRoundedIcon`, `getHelpResource`, `getMetricsCategory`
    and `getHighlightMixin` (a plain field read).
- `onCreateAdapter` and `onPreferenceStartFragment` are not modelled. Their only decisions are about host
  objects this model does not represent: whether the activity is a `SettingsHomepageActivity`,
  and whether the caller is `Instrumentable`. `onCreateAdapter` uses the mixin without a null
  check only when embedding is on. That is safe, because `CreateFragment` proves the fragment has
  a mixin exactly when embedding is on.
- `OnPreferenceTreeClick`: the split-pair rule registration and the return value of the
  superclass call are not modelled; only the key it forwards is.
- Where the tinting inputs come from is not modelled; they are parameters:
  - the three theme colours, which the theme lookup gives with a default of 0xff808080;
  - the icon-style setting, which defaults to 0;
  - the colour array from resources.
- The host queries are boolean parameters, so their own behaviour is not modelled:
  - whether embedding is on;
  - whether the task holds one activity (the first running task's activity count is 1);
  - whether the window is two-pane.
- The default menu key is a string parameter, because its string resource is not part of this model.
- `SetIconStyles`: requires the colour array to cover every tinted position when the style reads
  it. The source would throw an index-out-of-bounds error there, part way through the pass,
  and that failure is not modelled.
- Preferences and drawables are values, so aliasing is not modelled. Two items sharing one
  drawable, or one LayerDrawable whose two layers are the same drawable, would interact in the
  source but not in the model.
- `setOrder` is modelled as a field update. Re-sorting the screen by order happens later in the
  host's adapter and is outside this model. `getPreference(i)` is taken to return the items in a
  fixed order during the pass.
- Calls with no decision in them are not modelled:
  - the constructor's `setArguments` bundle that turns off the search icon;
  - the `Log.i` line in `onStart`;
  - the activity and the fragment arguments passed to the mixin by `highlightPreferenceIfNeeded`
    and `reloadHighlightMenuKey`, which the recorded `MixinCall` values leave out.
- The mixin's own behaviour (its adapter, scrolling and highlighting) is not part of this model;
  it is a recorder of the calls forwarded to it.
- `RecreateFromSavedState`: the parcelled mixin is modelled as the same object, not a copy.
- Java's 32-bit `int` colours are unbounded integers. The model only copies them, so no wrap-around can arise.
