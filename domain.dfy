/** Enumerations shared by the mock datasets and the admin pages. */
module Domain {

  /** A value that may be absent: an optional field, an unset picker end. */
  datatype Option<T> = None | Some(value: T)

  /** The crops named in the farmer, forecast and hotspot records. */
  datatype Crop = Cacao | Banana | Durian | Corn | Rice

  function CropName(c: Crop): string
  {
    match c
    case Cacao => "Cacao"
    case Banana => "Banana"
    case Durian => "Durian"
    case Corn => "Corn"
    case Rice => "Rice"
  }

  /** The three-level risk or severity scale of farmers, forecast rows and hotspots. */
  datatype RiskLevel = Low | Medium | High

  function RiskName(r: RiskLevel): string
  {
    match r
    case Low => "Low"
    case Medium => "Medium"
    case High => "High"
  }

  lemma RiskNameInjective(a: RiskLevel, b: RiskLevel)
    requires RiskName(a) == RiskName(b)
    ensures a == b
  {
  }

  /** The variants of the badge component. */
  datatype BadgeVariant = Default | Secondary | Destructive | Outline

  /** `getRiskVariant`: the badge for a risk level. The forecast page and the
      farmer page each define this same mapping. */
  function RiskVariant(risk: RiskLevel): (v: BadgeVariant)
    ensures v != Outline
    ensures v == Destructive <==> risk == High
    ensures v == Secondary <==> risk == Medium
    ensures v == Default <==> risk == Low
  {
    match risk
    case High => Destructive
    case Medium => Secondary
    case Low => Default
  }

  /** Different risk levels always get different badges. */
  lemma RiskVariantInjective(a: RiskLevel, b: RiskLevel)
    requires RiskVariant(a) == RiskVariant(b)
    ensures a == b
  {
  }
}
