/**
 * The IoT showcase's feature cards: the icon record over every icon key, and the `|| Cpu`
 * fallback for a key the record does not hold. The record is an object literal, so a name it
 * inherits from `Object.prototype` is found too and the fallback is not taken.
 */
module IotShowcase {
  import opened Wrappers
  import opened Js
  import opened SiteContent

  /** What the lookup yields: one of the six icons, or the inherited member of that name. */
  datatype FeatureGlyph =
    | CpuGlyph | WifiGlyph | DatabaseGlyph | ShieldGlyph | CloudGlyph | ZapGlyph
    | InheritedFeatureMember(name: string)

  /** `iconMap`: total over the nineteen keys; six keys have their own glyph, the other thirteen show Cpu. */
  function FeatureIconMap(k: IconKey): (g: FeatureGlyph)
    ensures g == WifiGlyph <==> k == Wifi
    ensures g == DatabaseGlyph <==> k == Database
    ensures g == ShieldGlyph <==> k == Shield
    ensures g == CloudGlyph <==> k == Cloud
    ensures g == ZapGlyph <==> k == Zap
    ensures g == CpuGlyph <==> k !in {Wifi, Database, Shield, Cloud, Zap}
  {
    match k
    case Cpu => CpuGlyph
    case Wifi => WifiGlyph
    case Database => DatabaseGlyph
    case Shield => ShieldGlyph
    case Cloud => CloudGlyph
    case Zap => ZapGlyph
    case _ => CpuGlyph
  }

  /** `iconMap[feature.icon] || Cpu` for the icon string a feature carries. */
  function FeatureIcon(icon: string): (g: FeatureGlyph)
    ensures g == WifiGlyph <==> icon == "wifi"
    ensures g == DatabaseGlyph <==> icon == "database"
    ensures g == ShieldGlyph <==> icon == "shield"
    ensures g == CloudGlyph <==> icon == "cloud"
    ensures g == ZapGlyph <==> icon == "zap"
    ensures g == InheritedFeatureMember(icon) <==> icon in ObjectPrototypeNames
    ensures g == CpuGlyph <==> icon !in {"wifi", "database", "shield", "cloud", "zap"} && icon !in ObjectPrototypeNames
    ensures ParseIconKey(icon).None? && icon !in ObjectPrototypeNames ==> g == CpuGlyph
  {
    InheritedNamesAreNotKeys();
    match ParseIconKey(icon)
    case Some(k) => FeatureIconMap(k)
    case None => if icon in ObjectPrototypeNames then InheritedFeatureMember(icon) else CpuGlyph
  }

  /** A key's own name looks up its entry of the record. */
  lemma FeatureIconOfKey(k: IconKey)
    ensures FeatureIcon(k.Name()) == FeatureIconMap(k)
  {
    IconKeyClosedSet();
  }

  /** The six default features show Cpu, Wifi, Database, Shield, Cloud and Zap: six different glyphs. */
  lemma DefaultFeatureGlyphs()
    ensures |DefaultSiteContent.iot.features| == 6
    ensures FeatureIcon(DefaultSiteContent.iot.features[0].icon) == CpuGlyph
    ensures FeatureIcon(DefaultSiteContent.iot.features[1].icon) == WifiGlyph
    ensures FeatureIcon(DefaultSiteContent.iot.features[2].icon) == DatabaseGlyph
    ensures FeatureIcon(DefaultSiteContent.iot.features[3].icon) == ShieldGlyph
    ensures FeatureIcon(DefaultSiteContent.iot.features[4].icon) == CloudGlyph
    ensures FeatureIcon(DefaultSiteContent.iot.features[5].icon) == ZapGlyph
  {
    DefaultIotIcons();
  }
}
