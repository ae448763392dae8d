/**
 * The about section's value cards: the icon record over every icon key, and the `|| Target`
 * fallback for a key the record does not hold. The record is an object literal, so a name it
 * inherits from `Object.prototype` is found too and the fallback is not taken.
 */
module About {
  import opened Wrappers
  import opened Js
  import opened SiteContent

  /** What the lookup yields: one of the three icons, or the inherited member of that name. */
  datatype ValueGlyph = TargetGlyph | LightbulbGlyph | RocketGlyph | InheritedValueMember(name: string)

  /** `valueIconMap`: total over the nineteen keys; all but lightbulb and rocket show Target. */
  function ValueIconMap(k: IconKey): (g: ValueGlyph)
    ensures g == LightbulbGlyph <==> k == Lightbulb
    ensures g == RocketGlyph <==> k == Rocket
    ensures g == TargetGlyph <==> k != Lightbulb && k != Rocket
  {
    match k
    case Target => TargetGlyph
    case Lightbulb => LightbulbGlyph
    case Rocket => RocketGlyph
    case _ => TargetGlyph
  }

  /** `valueIconMap[value.icon] || Target` for the icon string a value carries. */
  function ValueIcon(icon: string): (g: ValueGlyph)
    ensures g == LightbulbGlyph <==> icon == "lightbulb"
    ensures g == RocketGlyph <==> icon == "rocket"
    ensures g == InheritedValueMember(icon) <==> icon in ObjectPrototypeNames
    ensures g == TargetGlyph <==> icon != "lightbulb" && icon != "rocket" && icon !in ObjectPrototypeNames
    ensures ParseIconKey(icon).None? && icon !in ObjectPrototypeNames ==> g == TargetGlyph
  {
    InheritedNamesAreNotKeys();
    match ParseIconKey(icon)
    case Some(k) => ValueIconMap(k)
    case None => if icon in ObjectPrototypeNames then InheritedValueMember(icon) else TargetGlyph
  }

  /** A key's own name looks up its entry of the record. */
  lemma ValueIconOfKey(k: IconKey)
    ensures ValueIcon(k.Name()) == ValueIconMap(k)
  {
    IconKeyClosedSet();
  }

  /** The default values show Target, Lightbulb and Rocket: three different glyphs. */
  lemma DefaultValueGlyphs()
    ensures |DefaultSiteContent.about.values| == 3
    ensures ValueIcon(DefaultSiteContent.about.values[0].icon) == TargetGlyph
    ensures ValueIcon(DefaultSiteContent.about.values[1].icon) == LightbulbGlyph
    ensures ValueIcon(DefaultSiteContent.about.values[2].icon) == RocketGlyph
  {
    DefaultAboutIcons();
  }
}
