/**
  The layout pass of the homepage (TopLevelSettings.setPreferenceLayout): every item whose
  key is one of nineteen fixed keys gets a positioned layout resource, two of them also
  an explicit order, and every other item is left as it was.
 */
module PreferenceLayout {
  import opened Preferences

  const KeyAboutDevice := "top_level_about_device"
  const KeyNetwork := "top_level_network"
  const KeyConnectedDevices := "top_level_connected_devices"
  const KeyApps := "top_level_apps"
  const KeyStorage := "top_level_storage"
  const KeyNotifications := "top_level_notifications"
  const KeyBattery := "top_level_battery"
  const KeyLocation := "top_level_location"
  const KeySound := "top_level_sound"
  const KeyDisplay := "top_level_display"
  const KeyWallpaper := "top_level_wallpaper"
  const KeyAccessibility := "top_level_accessibility"
  const KeySecurity := "top_level_security"
  const KeyPrivacy := "top_level_privacy"
  const KeyEmergency := "top_level_emergency"
  const KeyAccounts := "top_level_accounts"
  const KeySystem := "top_level_system"
  const KeyGoogle := "top_level_google"
  const KeyWellbeing := "top_level_wellbeing"

  const GoogleOrder := 992
  const WellbeingOrder := 994

  /** The key-to-layout mapping, written as one table. */
  const LayoutTable: map<string, Layout> := map[
    KeyAboutDevice := AboutPhoneLayout,
    KeyNetwork := TopPreferenceLayout,
    KeyConnectedDevices := BottomPreferenceLayout,
    KeyApps := TopPreferenceLayout,
    KeyStorage := MiddlePreferenceLayout,
    KeyNotifications := MiddlePreferenceLayout,
    KeyBattery := MiddlePreferenceLayout,
    KeyLocation := BottomPreferenceLayout,
    KeySound := TopPreferenceLayout,
    KeyDisplay := MiddlePreferenceLayout,
    KeyWallpaper := MiddlePreferenceLayout,
    KeyAccessibility := BottomPreferenceLayout,
    KeySecurity := TopPreferenceLayout,
    KeyPrivacy := MiddlePreferenceLayout,
    KeyEmergency := MiddlePreferenceLayout,
    KeyAccounts := MiddlePreferenceLayout,
    KeySystem := BottomPreferenceLayout,
    KeyGoogle := TopPreferenceLayoutExtra,
    KeyWellbeing := BottomPreferenceLayoutExtra
  ]

  /** The keys of the top, middle and bottom groups, as the screen's items name them. */
  const TopKeys: set<Option<string>> := {Some(KeyNetwork), Some(KeyApps), Some(KeySound), Some(KeySecurity)}
  const MiddleKeys: set<Option<string>> :=
    {Some(KeyStorage), Some(KeyNotifications), Some(KeyBattery), Some(KeyDisplay),
     Some(KeyWallpaper), Some(KeyPrivacy), Some(KeyEmergency), Some(KeyAccounts)}
  const BottomKeys: set<Option<string>> :=
    {Some(KeyConnectedDevices), Some(KeyLocation), Some(KeyAccessibility), Some(KeySystem)}

  /** The two keys that also get an explicit sort order. */
  const OrderTable: map<string, int> := map[KeyGoogle := GoogleOrder, KeyWellbeing := WellbeingOrder]

  /**
    The layout an item with key `key` ends up with, given its current layout: the chain of
    independent key tests of the layout pass, taken in the order the source takes them.
   */
  function AssignLayout(key: string, layout: Layout): (r: Layout)
    ensures key in LayoutTable ==> r == LayoutTable[key]
    ensures key !in LayoutTable ==> r == layout
  {
    var l := if key == KeyAboutDevice then AboutPhoneLayout else layout;
    var l := if key == KeyNetwork then TopPreferenceLayout else l;
    var l := if key == KeyConnectedDevices then BottomPreferenceLayout else l;
    var l := if key == KeyApps then TopPreferenceLayout else l;
    var l := if key == KeyStorage then MiddlePreferenceLayout else l;
    var l := if key == KeyNotifications then MiddlePreferenceLayout else l;
    var l := if key == KeyBattery then MiddlePreferenceLayout else l;
    var l := if key == KeyLocation then BottomPreferenceLayout else l;
    var l := if key == KeySound then TopPreferenceLayout else l;
    var l := if key == KeyDisplay then MiddlePreferenceLayout else l;
    var l := if key == KeyWallpaper then MiddlePreferenceLayout else l;
    var l := if key == KeyAccessibility then BottomPreferenceLayout else l;
    var l := if key == KeySecurity then TopPreferenceLayout else l;
    var l := if key == KeyPrivacy then MiddlePreferenceLayout else l;
    var l := if key == KeyEmergency then MiddlePreferenceLayout else l;
    var l := if key == KeyAccounts then MiddlePreferenceLayout else l;
    var l := if key == KeySystem then BottomPreferenceLayout else l;
    var l := if key == KeyGoogle then TopPreferenceLayoutExtra else l;
    var l := if key == KeyWellbeing then BottomPreferenceLayoutExtra else l;
    l
  }

  /** The order an item with key `key` ends up with, given its current order. */
  function AssignOrder(key: string, order: int): (r: int)
    ensures key in OrderTable ==> r == OrderTable[key]
    ensures key !in OrderTable ==> r == order
    ensures r != order ==> key == KeyGoogle || key == KeyWellbeing
  {
    var o := if key == KeyGoogle then GoogleOrder else order;
    var o := if key == KeyWellbeing then WellbeingOrder else o;
    o
  }

  /** What the layout pass makes of one item, stated by the two tables. */
  function Arranged(p: Preference): (q: Preference)
  {
    match p.key
    case None => p
    case Some(k) =>
      p.(layout := if k in LayoutTable then LayoutTable[k] else p.layout,
         order := if k in OrderTable then OrderTable[k] else p.order)
  }

  /** What the layout pass makes of the whole screen, item by item. */
  function Arrange(s: seq<Preference>): (r: seq<Preference>)
    ensures |r| == |s|
  {
    if s == [] then [] else [Arranged(s[0])] + Arrange(s[1..])
  }

  /** setPreferenceLayout: one pass over the screen, rewriting each item in place. */
  method SetPreferenceLayout(screen: array<Preference>)
    modifies screen
    ensures screen[..] == Arrange(old(screen[..]))
  {
    ghost var before := screen[..];
    for i := 0 to screen.Length
      invariant forall j :: 0 <= j < i ==> screen[j] == Arranged(before[j])
      invariant forall j :: i <= j < screen.Length ==> screen[j] == before[j]
    {
      var preference := screen[i];
      var key := preference.key;
      if key.Some? {
        preference := preference.(layout := AssignLayout(key.value, preference.layout),
                                  order := AssignOrder(key.value, preference.order));
      }
      screen[i] := preference;
    }
    forall k | 0 <= k < screen.Length
      ensures screen[..][k] == Arrange(before)[k]
    {
      ArrangeAt(before, k);
    }
  }

  /** The pass keeps the length and treats item `k` on its own. */
  lemma {:induction false} ArrangeAt(s: seq<Preference>, k: nat)
    requires k < |s|
    ensures |Arrange(s)| == |s| && Arrange(s)[k] == Arranged(s[k])
  {
    if k > 0 {
      ArrangeAt(s[1..], k - 1);
    }
  }

  /** Each recognised key gets the layout its group is given. */
  lemma KnownKeyLayouts(p: Preference)
    ensures p.key == Some(KeyAboutDevice) ==> Arranged(p).layout == AboutPhoneLayout
    ensures p.key in TopKeys ==> Arranged(p).layout == TopPreferenceLayout
    ensures p.key in MiddleKeys ==> Arranged(p).layout == MiddlePreferenceLayout
    ensures p.key in BottomKeys ==> Arranged(p).layout == BottomPreferenceLayout
    ensures p.key == Some(KeyGoogle) ==> Arranged(p).layout == TopPreferenceLayoutExtra && Arranged(p).order == GoogleOrder
    ensures p.key == Some(KeyWellbeing) ==> Arranged(p).layout == BottomPreferenceLayoutExtra && Arranged(p).order == WellbeingOrder
  {
  }

  /** An item with no key, or a key outside the table, leaves the pass exactly as it entered. */
  lemma UnrecognisedKeyUnchanged(s: seq<Preference>, k: nat)
    requires k < |s|
    requires s[k].key.None? || s[k].key.value !in LayoutTable
    ensures Arrange(s)[k] == s[k]
  {
    ArrangeAt(s, k);
  }

  /** The pass never touches an item's key or icon, and changes the order of only two keys. */
  lemma OrderChangesLimited(s: seq<Preference>, k: nat)
    requires k < |s|
    ensures Arrange(s)[k].key == s[k].key && Arrange(s)[k].icon == s[k].icon
    ensures Arrange(s)[k].order != s[k].order ==> s[k].key == Some(KeyGoogle) || s[k].key == Some(KeyWellbeing)
  {
    ArrangeAt(s, k);
  }

  /** Running the pass a second time changes nothing. */
  lemma {:induction false} ArrangeIdempotent(s: seq<Preference>)
    ensures Arrange(Arrange(s)) == Arrange(s)
  {
    if s != [] {
      ArrangeIdempotent(s[1..]);
      assert Arrange(s)[1..] == Arrange(s[1..]);
    }
  }
}
