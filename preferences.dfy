/**
  The values the homepage fragment works on: the items of its preference screen,
  their layout resources and their icons. A Java `null` becomes `None`.
 */
module Preferences {

  datatype Option<+T> = None | Some(value: T)

  /** The layout resources the homepage assigns, plus whatever layout an item had before. */
  datatype Layout =
    | AboutPhoneLayout            // R.layout.about_phone_layout
    | TopPreferenceLayout         // R.layout.top_preference_layout
    | MiddlePreferenceLayout      // R.layout.middle_preference_layout
    | BottomPreferenceLayout      // R.layout.bottom_preference_layout
    | TopPreferenceLayoutExtra    // R.layout.top_preference_layout_extra
    | BottomPreferenceLayoutExtra // R.layout.bottom_preference_layout_extra
    | OtherLayout(resId: int)     // any layout resource set elsewhere

  /** One drawable layer: its tint (`None` once the tint list is cleared) and its alpha. */
  datatype Drawable = Drawable(tint: Option<int>, alpha: int)
  {
    /** Drawable.setTintList(null) */
    function ClearTintList(): Drawable { this.(tint := None) }

    /** Drawable.setTint(color) */
    function SetTint(color: int): Drawable { this.(tint := Some(color)) }

    /** Drawable.setAlpha(alpha) */
    function SetAlpha(a: int): Drawable { this.(alpha := a) }
  }

  /** A preference icon: a LayerDrawable with its layers, or any other kind of drawable. */
  datatype Icon =
    | LayerDrawable(layers: seq<Drawable>)
    | OtherDrawable(drawable: Drawable)

  /** One item of the preference screen. */
  datatype Preference = Preference(key: Option<string>, layout: Layout, order: int, icon: Option<Icon>)

  /** The icons the tinting pass touches: a LayerDrawable with exactly two layers. */
  predicate HasTwoLayerIcon(p: Preference)
  {
    p.icon.Some? && p.icon.value.LayerDrawable? && |p.icon.value.layers| == 2
  }
}
