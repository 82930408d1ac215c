/** The brand profile record (`BrandProfileData`): every field optional, an
    absent field being meaningful rather than an error. Field names are the
    JSON keys the record is exchanged under. Numbers are JavaScript numbers
    that nothing in the core computes with; they are carried as opaque
    `real` values. */
module Profile {
  import opened Wrappers

  type Number = real

  datatype BrandProfile = BrandProfile(
    brand_name: Option<string>,
    website: Option<string>,
    settore: Option<string>,
    target_age: Option<string>,
    target_job: Option<string>,
    target_geo: Option<string>,
    tone_voice: Option<string>,
    pain_point_1: Option<string>,
    pain_point_2: Option<string>,
    pain_point_3: Option<string>,
    value_prop: Option<string>,
    competitor_1_name: Option<string>,
    competitor_1_instagram: Option<string>,
    competitor_2_name: Option<string>,
    competitor_2_instagram: Option<string>,
    max_emoji: Option<Number>,
    post_length_min: Option<Number>,
    post_length_max: Option<Number>,
    confidence_score: Option<Number>,
    warnings: Option<string>,
    keywords: Option<seq<string>>,
    data_source: Option<string>,
    scraping_quality: Option<Number>)

  /** A profile with no field set (`{}`). */
  const Empty := BrandProfile(None, None, None, None, None, None, None, None, None, None,
                              None, None, None, None, None, None, None, None, None, None,
                              None, None, None)

  /** The keys of the record, one per field. */
  datatype Key =
    | BrandName | Website | Settore | TargetAge | TargetJob | TargetGeo | ToneVoice
    | PainPoint1 | PainPoint2 | PainPoint3 | ValueProp
    | Competitor1Name | Competitor1Instagram | Competitor2Name | Competitor2Instagram
    | MaxEmoji | PostLengthMin | PostLengthMax | ConfidenceScore
    | Warnings | Keywords | DataSource | ScrapingQuality

  /** A field value, tagged with its JSON kind. */
  datatype Value = Text(s: string) | Num(n: Number) | Words(ws: seq<string>)

  predicate IsCompetitorKey(k: Key) {
    k == Competitor1Name || k == Competitor1Instagram || k == Competitor2Name || k == Competitor2Instagram
  }

  /** Whether `v` has the kind the record declares for `k`. */
  predicate Fits(k: Key, v: Value) {
    match k
    case MaxEmoji | PostLengthMin | PostLengthMax | ConfidenceScore | ScrapingQuality => v.Num?
    case Keywords => v.Words?
    case _ => v.Text?
  }

  function TextOf(o: Option<string>): Option<Value> {
    match o case None => None case Some(s) => Some(Text(s))
  }

  function NumOf(o: Option<Number>): Option<Value> {
    match o case None => None case Some(n) => Some(Num(n))
  }

  /** `p[k]`: the value stored under key `k`, if any. */
  function Get(p: BrandProfile, k: Key): (r: Option<Value>)
    ensures r.Some? ==> Fits(k, r.value)
  {
    match k
    case BrandName => TextOf(p.brand_name)
    case Website => TextOf(p.website)
    case Settore => TextOf(p.settore)
    case TargetAge => TextOf(p.target_age)
    case TargetJob => TextOf(p.target_job)
    case TargetGeo => TextOf(p.target_geo)
    case ToneVoice => TextOf(p.tone_voice)
    case PainPoint1 => TextOf(p.pain_point_1)
    case PainPoint2 => TextOf(p.pain_point_2)
    case PainPoint3 => TextOf(p.pain_point_3)
    case ValueProp => TextOf(p.value_prop)
    case Competitor1Name => TextOf(p.competitor_1_name)
    case Competitor1Instagram => TextOf(p.competitor_1_instagram)
    case Competitor2Name => TextOf(p.competitor_2_name)
    case Competitor2Instagram => TextOf(p.competitor_2_instagram)
    case MaxEmoji => NumOf(p.max_emoji)
    case PostLengthMin => NumOf(p.post_length_min)
    case PostLengthMax => NumOf(p.post_length_max)
    case ConfidenceScore => NumOf(p.confidence_score)
    case Warnings => TextOf(p.warnings)
    case Keywords => (match p.keywords case None => None case Some(ws) => Some(Words(ws)))
    case DataSource => TextOf(p.data_source)
    case ScrapingQuality => NumOf(p.scraping_quality)
  }

  /** `{ ...p, [k]: v }`: the record with the field under `k` set to `v`. */
  function Set(p: BrandProfile, k: Key, v: Value): (r: BrandProfile)
    requires Fits(k, v)
    ensures Get(r, k) == Some(v)
  {
    match k
    case BrandName => p.(brand_name := Some(v.s))
    case Website => p.(website := Some(v.s))
    case Settore => p.(settore := Some(v.s))
    case TargetAge => p.(target_age := Some(v.s))
    case TargetJob => p.(target_job := Some(v.s))
    case TargetGeo => p.(target_geo := Some(v.s))
    case ToneVoice => p.(tone_voice := Some(v.s))
    case PainPoint1 => p.(pain_point_1 := Some(v.s))
    case PainPoint2 => p.(pain_point_2 := Some(v.s))
    case PainPoint3 => p.(pain_point_3 := Some(v.s))
    case ValueProp => p.(value_prop := Some(v.s))
    case Competitor1Name => p.(competitor_1_name := Some(v.s))
    case Competitor1Instagram => p.(competitor_1_instagram := Some(v.s))
    case Competitor2Name => p.(competitor_2_name := Some(v.s))
    case Competitor2Instagram => p.(competitor_2_instagram := Some(v.s))
    case MaxEmoji => p.(max_emoji := Some(v.n))
    case PostLengthMin => p.(post_length_min := Some(v.n))
    case PostLengthMax => p.(post_length_max := Some(v.n))
    case ConfidenceScore => p.(confidence_score := Some(v.n))
    case Warnings => p.(warnings := Some(v.s))
    case Keywords => p.(keywords := Some(v.ws))
    case DataSource => p.(data_source := Some(v.s))
    case ScrapingQuality => p.(scraping_quality := Some(v.n))
  }

  /** Setting one field changes that field to the new value and no other. */
  lemma SetOnlyChangesKey(p: BrandProfile, k: Key, v: Value)
    requires Fits(k, v)
    ensures forall j :: Get(Set(p, k, v), j) == if j == k then Some(v) else Get(p, j)
  {
  }
}
