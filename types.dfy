/**
 * The value types of the mockup generator: the enumerations a user picks from,
 * the options record of one generation batch, and a generated image.
 * `Name()` gives the literal string the browser code stores and compares.
 */
module Types {

  datatype ProductCategory =
    | FashionGeneral | UniformOffice | UniformMedical | UniformHotel | UniformIndustrial | Streetwear
  {
    function Name(): string
    {
      match this
      case FashionGeneral => "fashion-general"
      case UniformOffice => "uniform-office"
      case UniformMedical => "uniform-medical"
      case UniformHotel => "uniform-hotel"
      case UniformIndustrial => "uniform-industrial"
      case Streetwear => "streetwear"
    }
  }

  datatype AspectRatio = Square | Portrait3x4 | Portrait4x5 | Widescreen
  {
    function Name(): string
    {
      match this
      case Square => "1:1"
      case Portrait3x4 => "3:4"
      case Portrait4x5 => "4:5"
      case Widescreen => "16:9"
    }
  }

  /** Backgrounds are locations; the value list follows the declared union type. */
  datatype BackgroundStyle =
    | StudioWhite | StudioGray | OfficeModern | OfficeClassic | StreetDay
    | Cafe | HotelLobby | MedicalClinic | IndustrialSite | Nature
  {
    function Name(): string
    {
      match this
      case StudioWhite => "studio-white"
      case StudioGray => "studio-gray"
      case OfficeModern => "office-modern"
      case OfficeClassic => "office-classic"
      case StreetDay => "street-day"
      case Cafe => "cafe"
      case HotelLobby => "hotel-lobby"
      case MedicalClinic => "medical-clinic"
      case IndustrialSite => "industrial"
      case Nature => "nature"
    }
  }

  /** How the product is shown. */
  datatype DisplayMode = Model | Mannequin | Hanging | FlatLay
  {
    function Name(): string
    {
      match this
      case Model => "model"
      case Mannequin => "mannequin"
      case Hanging => "hanging"
      case FlatLay => "flat-lay"
    }
  }

  datatype Variation = Keep | Recolor

  datatype ModelGender = Male | Female | AnyGender
  {
    function Name(): string
    {
      match this
      case Male => "male"
      case Female => "female"
      case AnyGender => "random"
    }
  }

  datatype ModelEthnicity = AsianEthnicity | European | African | Hispanic | AnyEthnicity
  {
    function Name(): string
    {
      match this
      case AsianEthnicity => "asian"
      case European => "european"
      case African => "african"
      case Hispanic => "hispanic"
      case AnyEthnicity => "random"
    }
  }

  datatype ModelAge = Age18To25 | Age26To35 | Age36To45 | Age46Plus | AnyAge
  {
    function Name(): string
    {
      match this
      case Age18To25 => "18-25"
      case Age26To35 => "26-35"
      case Age36To45 => "36-45"
      case Age46Plus => "46+"
      case AnyAge => "random"
    }
  }

  /**
   * The declared styles, plus `minimalist`, which the style picker offers
   * although the declared union type lacks it.
   */
  datatype ModelStyle =
    | CasualStyle | CorporateStyle | LuxuryStyle | MedicalStyle | IndustrialStyle | MinimalistStyle | AnyStyle
  {
    function Name(): string
    {
      match this
      case CasualStyle => "casual"
      case CorporateStyle => "corporate"
      case LuxuryStyle => "luxury"
      case MedicalStyle => "medical"
      case IndustrialStyle => "industrial"
      case MinimalistStyle => "minimalist"
      case AnyStyle => "random"
    }
  }

  datatype ShotType = FullBody | WaistUp | CloseUp | AnyShot

  /**
   * The options of one batch. The two optional free-text fields are the empty
   * string when absent: the source only tests them for truthiness, for which
   * an empty string and a missing value behave the same.
   */
  datatype GenerationOptions = GenerationOptions(
    productCategory: ProductCategory,
    aspectRatio: AspectRatio,
    numImages: int,
    backgroundStyle: BackgroundStyle,
    displayMode: DisplayMode,
    variation: Variation,
    color: string,
    modelGender: ModelGender,
    modelEthnicity: ModelEthnicity,
    modelAge: ModelAge,
    modelStyle: ModelStyle,
    shotType: ShotType,
    consistentModel: bool,
    productDescription: string,
    marketingContext: string)

  /**
   * A generated mockup: a displayable data URL. The source's id is
   * `gen_<milliseconds>_<iteration>`; the clock reading is not modelled,
   * so the image carries the iteration that produced it.
   */
  datatype GeneratedImage = GeneratedImage(iteration: nat, url: string)
}
