/**
 * The option controls: the clamp of the image-count field, the update of a
 * single option, and the switch between an AI model and an uploaded
 * reference model.
 */
module Controls {
  import opened Wrappers
  import opened Types
  import opened Normalizer

  const MinImages: int := 1
  const MaxImages: int := 20

  /**
   * The image count stored for a typed value; `parsed` is `parseInt` of the
   * field, `None` when it is not a number.
   */
  function Clamp(parsed: Option<int>): (r: int)
    ensures MinImages <= r <= MaxImages
    ensures parsed.None? ==> r == MinImages
    ensures parsed.Some? && parsed.value < MinImages ==> r == MinImages
    ensures parsed.Some? && parsed.value > MaxImages ==> r == MaxImages
    ensures parsed.Some? && MinImages <= parsed.value <= MaxImages ==> r == parsed.value
  {
    if parsed.None? || parsed.value < MinImages then MinImages
    else if parsed.value > MaxImages then MaxImages
    else parsed.value
  }

  /** The change handler's successive corrections of `val`. */
  method ClampNumImages(parsed: Option<int>) returns (val: int)
    ensures val == Clamp(parsed)
  {
    if parsed.None? {
      val := 1;
    } else {
      val := parsed.value;
    }
    if val < 1 {
      val := 1;
    }
    if val > 20 {
      val := 20;
    }
  }

  /** A stored count typed again is stored unchanged. */
  lemma ClampIdempotent(parsed: Option<int>)
    ensures Clamp(Some(Clamp(parsed))) == Clamp(parsed)
  {
  }

  /** The option fields a control can set. */
  datatype Field =
    | ProductCategoryField | AspectRatioField | NumImagesField | BackgroundStyleField | DisplayModeField
    | VariationField | ColorField | ModelGenderField | ModelEthnicityField | ModelAgeField
    | ModelStyleField | ShotTypeField | ConsistentModelField | ProductDescriptionField | MarketingContextField

  /** A field together with its new value. */
  datatype Edit =
    | SetProductCategory(productCategory: ProductCategory)
    | SetAspectRatio(aspectRatio: AspectRatio)
    | SetNumImages(numImages: int)
    | SetBackgroundStyle(backgroundStyle: BackgroundStyle)
    | SetDisplayMode(displayMode: DisplayMode)
    | SetVariation(variation: Variation)
    | SetColor(color: string)
    | SetModelGender(modelGender: ModelGender)
    | SetModelEthnicity(modelEthnicity: ModelEthnicity)
    | SetModelAge(modelAge: ModelAge)
    | SetModelStyle(modelStyle: ModelStyle)
    | SetShotType(shotType: ShotType)
    | SetConsistentModel(consistentModel: bool)
    | SetProductDescription(productDescription: string)
    | SetMarketingContext(marketingContext: string)
  {
    function FieldOf(): Field
    {
      match this
      case SetProductCategory(_) => ProductCategoryField
      case SetAspectRatio(_) => AspectRatioField
      case SetNumImages(_) => NumImagesField
      case SetBackgroundStyle(_) => BackgroundStyleField
      case SetDisplayMode(_) => DisplayModeField
      case SetVariation(_) => VariationField
      case SetColor(_) => ColorField
      case SetModelGender(_) => ModelGenderField
      case SetModelEthnicity(_) => ModelEthnicityField
      case SetModelAge(_) => ModelAgeField
      case SetModelStyle(_) => ModelStyleField
      case SetShotType(_) => ShotTypeField
      case SetConsistentModel(_) => ConsistentModelField
      case SetProductDescription(_) => ProductDescriptionField
      case SetMarketingContext(_) => MarketingContextField
    }
  }

  /** `a` and `b` agree on field `f`. */
  predicate SameField(a: GenerationOptions, b: GenerationOptions, f: Field)
  {
    match f
    case ProductCategoryField => a.productCategory == b.productCategory
    case AspectRatioField => a.aspectRatio == b.aspectRatio
    case NumImagesField => a.numImages == b.numImages
    case BackgroundStyleField => a.backgroundStyle == b.backgroundStyle
    case DisplayModeField => a.displayMode == b.displayMode
    case VariationField => a.variation == b.variation
    case ColorField => a.color == b.color
    case ModelGenderField => a.modelGender == b.modelGender
    case ModelEthnicityField => a.modelEthnicity == b.modelEthnicity
    case ModelAgeField => a.modelAge == b.modelAge
    case ModelStyleField => a.modelStyle == b.modelStyle
    case ShotTypeField => a.shotType == b.shotType
    case ConsistentModelField => a.consistentModel == b.consistentModel
    case ProductDescriptionField => a.productDescription == b.productDescription
    case MarketingContextField => a.marketingContext == b.marketingContext
  }

  /** The edited field of `o` holds the edit's value. */
  predicate Holds(o: GenerationOptions, e: Edit)
  {
    match e
    case SetProductCategory(v) => o.productCategory == v
    case SetAspectRatio(v) => o.aspectRatio == v
    case SetNumImages(v) => o.numImages == v
    case SetBackgroundStyle(v) => o.backgroundStyle == v
    case SetDisplayMode(v) => o.displayMode == v
    case SetVariation(v) => o.variation == v
    case SetColor(v) => o.color == v
    case SetModelGender(v) => o.modelGender == v
    case SetModelEthnicity(v) => o.modelEthnicity == v
    case SetModelAge(v) => o.modelAge == v
    case SetModelStyle(v) => o.modelStyle == v
    case SetShotType(v) => o.shotType == v
    case SetConsistentModel(v) => o.consistentModel == v
    case SetProductDescription(v) => o.productDescription == v
    case SetMarketingContext(v) => o.marketingContext == v
  }

  /** `handleOptionChange`: a copy of the options with one field replaced. */
  function ApplyEdit(o: GenerationOptions, e: Edit): (r: GenerationOptions)
    ensures Holds(r, e)
    ensures forall f: Field | f != e.FieldOf() :: SameField(o, r, f)
  {
    match e
    case SetProductCategory(v) => o.(productCategory := v)
    case SetAspectRatio(v) => o.(aspectRatio := v)
    case SetNumImages(v) => o.(numImages := v)
    case SetBackgroundStyle(v) => o.(backgroundStyle := v)
    case SetDisplayMode(v) => o.(displayMode := v)
    case SetVariation(v) => o.(variation := v)
    case SetColor(v) => o.(color := v)
    case SetModelGender(v) => o.(modelGender := v)
    case SetModelEthnicity(v) => o.(modelEthnicity := v)
    case SetModelAge(v) => o.(modelAge := v)
    case SetModelStyle(v) => o.(modelStyle := v)
    case SetShotType(v) => o.(shotType := v)
    case SetConsistentModel(v) => o.(consistentModel := v)
    case SetProductDescription(v) => o.(productDescription := v)
    case SetMarketingContext(v) => o.(marketingContext := v)
  }

  /** Options agreeing on every field are the same options. */
  lemma FieldsDetermine(a: GenerationOptions, b: GenerationOptions)
    requires forall f: Field :: SameField(a, b, f)
    ensures a == b
  {
    assert SameField(a, b, ProductCategoryField) && SameField(a, b, AspectRatioField);
    assert SameField(a, b, NumImagesField) && SameField(a, b, BackgroundStyleField);
    assert SameField(a, b, DisplayModeField) && SameField(a, b, VariationField);
    assert SameField(a, b, ColorField) && SameField(a, b, ModelGenderField);
    assert SameField(a, b, ModelEthnicityField) && SameField(a, b, ModelAgeField);
    assert SameField(a, b, ModelStyleField) && SameField(a, b, ShotTypeField);
    assert SameField(a, b, ConsistentModelField) && SameField(a, b, ProductDescriptionField);
    assert SameField(a, b, MarketingContextField);
  }

  /** The edit is the only update that sets the named field and keeps every other. */
  lemma EditDetermined(o: GenerationOptions, e: Edit, r: GenerationOptions)
    requires Holds(r, e)
    requires forall f: Field | f != e.FieldOf() :: SameField(o, r, f)
    ensures r == ApplyEdit(o, e)
  {
    var applied := ApplyEdit(o, e);
    forall f: Field ensures SameField(applied, r, f) {
      if f != e.FieldOf() {
        assert SameField(o, r, f) && SameField(o, applied, f);
      }
    }
    FieldsDetermine(applied, r);
  }

  /** Setting a field to the value it has changes nothing. */
  lemma EditIdempotent(o: GenerationOptions, e: Edit)
    ensures ApplyEdit(ApplyEdit(o, e), e) == ApplyEdit(o, e)
  {
  }

  /** The model switch and the reference image it governs. */
  class ModelPicker {
    var useCustomModel: bool
    var customModelImage: Option<SourceImage>
    /** Whether the screen passed a way to clear the reference image. */
    const canSetImage: bool

    constructor(canSetImage: bool, image: Option<SourceImage>)
      ensures !useCustomModel && customModelImage == image && this.canSetImage == canSetImage
    {
      this.canSetImage := canSetImage;
      useCustomModel := false;
      customModelImage := image;
    }

    /** Switching back to an AI model drops the uploaded reference image. */
    method HandleToggleCustomModel(isCustom: bool)
      modifies this
      ensures useCustomModel == isCustom
      ensures customModelImage == if !isCustom && canSetImage then None else old(customModelImage)
    {
      useCustomModel := isCustom;
      if !isCustom && canSetImage {
        customModelImage := None;
      }
    }
  }
}
