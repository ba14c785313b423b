/**
 * Prompt composition for the remote image model: two lookup tables with
 * generic fallbacks, the character-seed sentence, and the instruction text of
 * one iteration. The text is built as a list of lines joined with newlines,
 * which is exactly the template literal plus the optional appended clauses.
 */
module Prompt {
  import opened Types
  import opened Text

  // ---------------------------------------------------------------- lookups

  // The phrases are the source's literals, split into pieces of about twenty
  // characters to keep the verifier's work on them small.

  const BackgroundFallback := "a professional" + " studio setting"
  const CategoryFallback := "commercial product" + " photography"

  /** Location phrases by background key. */
  const BackgroundTable: map<string, string> := map[
    "studio-white" := "a high-end" + " professional photo" + " studio with a" + " seamless pure white" + " background," + " perfectly lit",
    "studio-gray" := "a moody artistic" + " studio with a" + " textured dark gray" + " concrete wall" + " background",
    "office-modern" := "a bustling modern" + " open-plan office" + " with glass walls," + " bright natural" + " light, and blurred" + " workstations",
    "office-classic" := "a traditional" + " executive office" + " with wooden" + " furniture and warm" + " lighting",
    "street-day" := "a vibrant city" + " street during" + " daytime, shallow" + " depth of field",
    "cafe" := "a cozy, stylish" + " coffee shop with" + " warm ambient" + " lighting",
    "hotel-lobby" := "a luxurious hotel" + " lobby with marble" + " floors and grand" + " decor",
    "medical-clinic" := "a clean, bright," + " sterile medical" + " clinic corridor or" + " patient room",
    "industrial" := "a spacious" + " industrial factory" + " floor or warehouse" + " with machinery in" + " background",
    "nature" := "a serene outdoor" + " park with greenery" + " and soft sunlight"]

  /** Photography genres by product-category key. */
  const CategoryTable: map<string, string> := map[
    "fashion-general" := "casual fashion" + " photography," + " lifestyle vibe",
    "uniform-office" := "corporate branding" + " photography," + " professional and" + " trustworthy",
    "uniform-medical" := "healthcare" + " photography, clean," + " sterile, empathetic",
    "uniform-hotel" := "hospitality industry" + " photography," + " welcoming, premium" + " service",
    "uniform-industrial" := "safety and" + " durability" + " photography," + " rugged," + " hard-working",
    "streetwear" := "edgy streetwear" + " photography, cool," + " trendy, high" + " contrast"]

  /** Age phrases by age-band key. */
  const AgeTable: map<string, string> := map[
    "18-25" := "young Gen-Z (approx" + " 22 years old)",
    "26-35" := "young professional" + " (approx 30 years" + " old)",
    "36-45" := "experienced" + " professional" + " (approx 40 years" + " old)",
    "46+" := "senior professional" + " (approx 50+ years" + " old)",
    "random" := "adult"]

  /** A table lookup where a missing (or empty) entry gives the fallback. */
  function LookupOr(table: map<string, string>, key: string, fallback: string): (r: string)
    ensures key !in table ==> r == fallback
    ensures key in table && table[key] != "" ==> r == table[key]
  {
    if key in table && table[key] != "" then table[key] else fallback
  }

  function BackgroundDescription(style: string): string
  {
    LookupOr(BackgroundTable, style, BackgroundFallback)
  }

  function CategoryContext(category: string): string
  {
    LookupOr(CategoryTable, category, CategoryFallback)
  }

  function AgePhrase(age: string): string
  {
    LookupOr(AgeTable, age, "adult")
  }

  /** Every declared background has its own location phrase. */
  lemma BackgroundTableCovers(b: BackgroundStyle)
    ensures b.Name() in BackgroundTable
    ensures BackgroundDescription(b.Name()) == BackgroundTable[b.Name()] != BackgroundFallback
  {
  }

  /** Every declared product category has its own genre phrase. */
  lemma CategoryTableCovers(c: ProductCategory)
    ensures c.Name() in CategoryTable
    ensures CategoryContext(c.Name()) == CategoryTable[c.Name()] != CategoryFallback
  {
  }

  /** Only the `random` age band reads as plain "adult". */
  lemma AgePhraseAdultOnlyForAny(a: ModelAge)
    ensures AgePhrase(a.Name()) == "adult" <==> a == AnyAge
  {
  }

  // --------------------------------------------------------- character seed

  /**
   * The two `Math.random()` draws of one character synthesis, as indices into
   * the candidate lists (taken modulo the list's length, so every index is valid
   * and every candidate can be drawn).
   */
  datatype Picks = Picks(gender: nat, ethnicity: nat)

  function Pick(choices: seq<string>, k: nat): (r: string)
    requires |choices| > 0
    ensures r in choices
    ensures k < |choices| ==> r == choices[k]
  {
    choices[k % |choices|]
  }

  const RandomEthnicities := ["Asian", "Caucasian", "African descent", "Hispanic"]

  /** The gender word of a synthesized character. */
  function SeedGender(o: GenerationOptions, p: Picks): (r: string)
    ensures o.modelGender == AnyGender ==> r == "male" || r == "female"
    ensures o.modelGender != AnyGender ==> r == o.modelGender.Name()
  {
    var genders := if o.modelGender == AnyGender then ["male", "female"] else [o.modelGender.Name()];
    Pick(genders, p.gender)
  }

  /**
   * The ethnicity word of a synthesized character. A fixed ethnicity is used
   * only when the gender is fixed too; with a random gender it becomes "Asian".
   */
  function SeedEthnicity(o: GenerationOptions, p: Picks): (r: string)
    ensures o.modelEthnicity == AnyEthnicity ==> r in RandomEthnicities
    ensures o.modelEthnicity != AnyEthnicity && o.modelGender == AnyGender ==> r == "Asian"
    ensures o.modelEthnicity != AnyEthnicity && o.modelGender != AnyGender ==> r == o.modelEthnicity.Name()
  {
    var ethnicities :=
      if o.modelEthnicity == AnyEthnicity then RandomEthnicities
      else [if o.modelGender == AnyGender then "Asian" else o.modelEthnicity.Name()];
    Pick(ethnicities, p.ethnicity)
  }

  /**
   * A description of one concrete model; empty for the display modes without
   * a person. The age comes from the age table alone.
   */
  function CharacterSeed(o: GenerationOptions, p: Picks): (r: string)
    ensures r == "" <==> o.displayMode != Model
    ensures o.displayMode == Model ==>
      r == "The model is a " + AgePhrase(o.modelAge.Name()) + " " + SeedEthnicity(o, p) + " " + SeedGender(o, p) + "."
  {
    if o.displayMode != Model then ""
    else
      var gender := SeedGender(o, p);
      var ethnicity := SeedEthnicity(o, p);
      var age := AgePhrase(o.modelAge.Name());
      "The model is a " + age + " " + ethnicity + " " + gender + "."
  }

  // ---------------------------------------------------------------- clauses

  const Angles := ["front view", "slight 3/4 angle", "dynamic pose"]

  /** The camera angle rotates through the three framings with the iteration. */
  function CameraAngle(iteration: nat): (r: string)
    ensures r == Angles[iteration % 3]
  {
    Angles[iteration % |Angles|]
  }

  lemma CameraAngleCycles(iteration: nat)
    ensures CameraAngle(iteration) == CameraAngle(iteration + 3)
    ensures CameraAngle(iteration) != CameraAngle(iteration + 1)
    ensures CameraAngle(iteration) != CameraAngle(iteration + 2)
    ensures CameraAngle(3 * iteration) == "front view"
    ensures CameraAngle(3 * iteration + 1) == "slight 3/4 angle"
    ensures CameraAngle(3 * iteration + 2) == "dynamic pose"
  {
  }

  const IdentityLock :=
    "IDENTITY LOCK: Use" + " the person in the" + " SECOND IMAGE" + " (Reference Model)" + " as the model. You" + " MUST preserve their" + " facial features," + " hair, and physical" + " identity exactly." + " Put the clothing" + " product from the" + " FIRST IMAGE" + " (Product) onto this" + " person."
  const StyleIntro := ", dressed in a "
  const StyleOutro := " style" + " (complimenting the" + " product)"
  const FullBodyShot := "Full body shot" + " showing the entire" + " outfit."
  const WaistUpShot := "Medium shot," + " waist-up, focusing" + " on the upper body" + " and face."
  const CloseUpShot := "Close-up shot" + " focusing on fabric" + " details and collar."
  const PortraitShot := "Professional" + " portrait shot."
  const MannequinSubject := "The product is" + " displayed on a" + " high-quality" + " invisible/ghost" + " mannequin to show" + " the 3D fit."
  const HangingSubject := "The product is" + " hanging on a" + " premium wooden or" + " metal hanger," + " showcasing the" + " drape of the" + " fabric."
  const FlatLaySubject := "The product is laid" + " flat (flat-lay" + " style) with minimal" + " props arranged" + " neatly around it."

  function StyleClause(style: ModelStyle): string
  {
    if style == AnyStyle then "" else StyleIntro + style.Name() + StyleOutro
  }

  function ShotClause(shot: ShotType): string
  {
    match shot
    case FullBody => FullBodyShot
    case WaistUp => WaistUpShot
    case CloseUp => CloseUpShot
    case AnyShot => PortraitShot
  }

  /**
   * The person of an AI-generated model: the batch's seed when consistency is
   * on and a seed exists, otherwise a fresh synthesis from this iteration's draws.
   */
  function CharacterDescription(o: GenerationOptions, seed: string, p: Picks): string
  {
    if o.consistentModel && seed != "" then seed else CharacterSeed(o, p)
  }

  function SubjectDetails(o: GenerationOptions, seed: string, hasCustomModel: bool, p: Picks): string
  {
    match o.displayMode
    case Model =>
      var person :=
        if hasCustomModel then IdentityLock
        else CharacterDescription(o, seed, p) + " " + StyleClause(o.modelStyle) + ".";
      person + " " + ShotClause(o.shotType)
    case Mannequin => MannequinSubject
    case Hanging => HangingSubject
    case FlatLay => FlatLaySubject
  }

  const OfficeAction := "The model is" + " standing" + " confidently in a" + " workspace or" + " holding a document."
  const CafeAction := "The model is" + " relaxing with a" + " drink."
  const MedicalAction := "The model looks" + " caring and" + " professional," + " possibly checking a" + " chart."
  const PosingAction := "The model is posing" + " naturally for a" + " lookbook."
  const ContextIntro := "Action/Context: "

  /** The default interaction inferred from the background key by substring tests. */
  function DefaultAction(background: string): string
  {
    if Contains(background, "office") then OfficeAction
    else if Contains(background, "cafe") then CafeAction
    else if Contains(background, "medical") then MedicalAction
    else PosingAction
  }

  /** Only a model gets an action: the marketing context verbatim, else the default. */
  function ActionVibe(o: GenerationOptions): string
  {
    if o.displayMode != Model then ""
    else if o.marketingContext != "" then ContextIntro + o.marketingContext + "."
    else DefaultAction(o.backgroundStyle.Name())
  }

  /** What the substring cascade gives for each declared background. */
  lemma DefaultActionForBackgrounds(b: BackgroundStyle)
    ensures DefaultAction(b.Name()) ==
      if b == OfficeModern || b == OfficeClassic then OfficeAction
      else if b == Cafe then CafeAction
      else if b == MedicalClinic then MedicalAction
      else PosingAction
  {
    var name := b.Name();
    match b
    case OfficeModern => PrefixContained(name, "office");
    case OfficeClassic => PrefixContained(name, "office");
    case Cafe =>
      MissingChar(name, "office", 'o');
      PrefixContained(name, "cafe");
    case MedicalClinic =>
      NoOfficeOrCafe(name);
      PrefixContained(name, "medical");
    case _ =>
      NoOfficeOrCafe(name);
      MissingChar(name, "medical", 'm');
  }

  /** A key without the letter `f` names neither an office nor a cafe. */
  lemma NoOfficeOrCafe(name: string)
    requires 'f' !in name
    ensures !Contains(name, "office") && !Contains(name, "cafe")
  {
    MissingChar(name, "office", 'f');
    MissingChar(name, "cafe", 'f');
  }

  // ----------------------------------------------------------------- prompt

  // As in the tables above, long literals are written as concatenations of
  // pieces of about twenty characters; the verifier's work on a literal grows
  // with its length, and the pieces keep each proof about the text cheap.
  const RoleIntro := "Role:" + " You are a" + " world-class" + " advertising" + " photographer" + " specializing in "
  const TaskLine := "TASK:" + " Create a" + " photorealistic" + " product mockup."
  const InputImagesLine := "INPUT IMAGES:"
  const Image1Line := "Image 1: The Product" + " (clothing item)."
  const Image2Line := Image2Marker + " The Reference Model" + " (person)."
  const RulesLine := "RULES:"
  const HeroRule := "1. HERO PRODUCT:" + " The clothing item" + " from Image 1 MUST" + " be the focus. Keep" + " its exact logo," + " pattern, texture," + " and shape."
  const IntegrationRule := "2. INTEGRATION:" + " Naturally blend the" + " product into the" + " scene. Lighting on" + " the product must" + " match the" + " environment."
  const FaceLockLine := FaceLockMarker + " You MUST use the" + " facial identity of" + " the person in Image" + " 2. Do not change" + " their face."
  const SceneLine := "SCENE SPECIFICATIONS:"
  const LocationLabel := "- Location: "
  const DisplayModeLabel := "- Display Mode: "
  const SubjectLabel := "- Subject Details: "
  const ActionLabel := "- Action/Vibe: "
  const AngleLabel := "- Camera Angle: "
  const RatioLabel := "- Aspect Ratio: "
  const DetailsIntro := DetailsMarker + " \""
  const DetailsOutro := "\" (Use for" + " material/fit" + " context)."
  const EditIntro := EditMarker + " Change the fabric" + " color of the" + " product to "
  const EditOutro := ", but keep all" + " logos/textures" + " intact."
  const ClosingLine := "Output" + " a high-resolution," + " commercial-grade" + " photograph."

  function ProductDetailsLine(description: string): string
  {
    DetailsIntro + description + DetailsOutro
  }

  function EditingTaskLine(color: string): string
  {
    EditIntro + color + EditOutro
  }

  /**
   * The template literal, line by line up to and including its final empty
   * line, with its interpolated values already computed.
   */
  function Template(context: string, location: string, mode: string, subject: string, action: string,
                    angle: string, ratio: string, hasCustomModel: bool): (r: seq<string>)
    ensures |r| == 21
  {
    [ RoleIntro + context + ".",
      "",
      TaskLine,
      "",
      InputImagesLine,
      Image1Line,
      if hasCustomModel then Image2Line else "",
      "",
      RulesLine,
      HeroRule,
      IntegrationRule,
      if hasCustomModel then FaceLockLine else "",
      "",
      SceneLine,
      LocationLabel + location + ".",
      DisplayModeLabel + mode + ".",
      SubjectLabel + subject,
      ActionLabel + action,
      AngleLabel + angle + ".",
      RatioLabel + ratio + ".",
      "" ]
  }

  /** The template for one iteration of a batch. */
  function TemplateLines(o: GenerationOptions, iteration: nat, seed: string, hasCustomModel: bool, p: Picks): (r: seq<string>)
    ensures |r| == 21
  {
    Template(CategoryContext(o.productCategory.Name()), BackgroundDescription(o.backgroundStyle.Name()),
             o.displayMode.Name(), SubjectDetails(o, seed, hasCustomModel, p), ActionVibe(o),
             CameraAngle(iteration), o.aspectRatio.Name(), hasCustomModel)
  }

  /** The clauses appended after the template, each ending in a newline, and the closing directive. */
  function TailLines(o: GenerationOptions): seq<string>
  {
    (if o.productDescription != "" then [ProductDetailsLine(o.productDescription)] else [])
    + (if o.variation == Recolor then [EditingTaskLine(o.color)] else [])
    + ["", ClosingLine]
  }

  function PromptLines(o: GenerationOptions, iteration: nat, seed: string, hasCustomModel: bool, p: Picks): seq<string>
  {
    TemplateLines(o, iteration, seed, hasCustomModel, p) + TailLines(o)
  }

  /** The instruction text sent with iteration `iteration` of a batch. */
  function PromptText(o: GenerationOptions, iteration: nat, seed: string, hasCustomModel: bool, p: Picks): string
  {
    Join(PromptLines(o, iteration, seed, hasCustomModel, p))
  }

  predicate HasLineStartingWith(lines: seq<string>, prefix: string)
  {
    exists k | 0 <= k < |lines| :: StartsWith(lines[k], prefix)
  }

  // ------------------------------------------------------------- properties

  const Image2Marker := "Image 2:"
  const FaceLockMarker := "3. FACE LOCK:"
  const EditMarker := "EDITING TASK:"
  const DetailsMarker := "PRODUCT DETAILS:"

  /** The first character of a line rules out the markers that begin differently. */
  lemma MarkersByFirstChar(s: string)
    ensures (|s| == 0 || s[0] != 'I') ==> !StartsWith(s, Image2Marker)
    ensures (|s| == 0 || s[0] != '3') ==> !StartsWith(s, FaceLockMarker)
    ensures (|s| == 0 || s[0] != 'E') ==> !StartsWith(s, EditMarker)
    ensures (|s| == 0 || s[0] != 'P') ==> !StartsWith(s, DetailsMarker)
  {
    if |s| > 0 {
      if s[0] != 'I' { NotStartsWithAt(s, Image2Marker, 0); }
      if s[0] != '3' { NotStartsWithAt(s, FaceLockMarker, 0); }
      if s[0] != 'E' { NotStartsWithAt(s, EditMarker, 0); }
      if s[0] != 'P' { NotStartsWithAt(s, DetailsMarker, 0); }
    }
  }

  /** Only the reference-model line (index 6) and the face-lock rule (index 11) of the template carry markers. */
  lemma TemplateLineMarkers(context: string, location: string, mode: string, subject: string, action: string,
                            angle: string, ratio: string, hasCustomModel: bool, k: nat)
    requires k < 21
    ensures var line := Template(context, location, mode, subject, action, angle, ratio, hasCustomModel)[k];
      (StartsWith(line, Image2Marker) ==> k == 6 && hasCustomModel) &&
      (StartsWith(line, FaceLockMarker) ==> k == 11 && hasCustomModel) &&
      !StartsWith(line, EditMarker) && !StartsWith(line, DetailsMarker)
  {
    if k < 9 {
      InputLineMarkers(context, location, mode, subject, action, angle, ratio, hasCustomModel, k);
    } else {
      RuleAndSceneLineMarkers(context, location, mode, subject, action, angle, ratio, hasCustomModel, k);
    }
  }

  lemma InputLineMarkers(context: string, location: string, mode: string, subject: string, action: string,
                          angle: string, ratio: string, hasCustomModel: bool, k: nat)
    requires k < 9
    ensures var line := Template(context, location, mode, subject, action, angle, ratio, hasCustomModel)[k];
      (StartsWith(line, Image2Marker) ==> k == 6 && hasCustomModel) &&
      (StartsWith(line, FaceLockMarker) ==> k == 11 && hasCustomModel) &&
      !StartsWith(line, EditMarker) && !StartsWith(line, DetailsMarker)
  {
    var line := Template(context, location, mode, subject, action, angle, ratio, hasCustomModel)[k];
    if k == 0 {
      assert line[0] == 'R';
    } else if k == 2 {
      assert line[0] == 'T';
    } else if k == 4 {
      assert line[0] == 'I';
      NotStartsWithAt(line, Image2Marker, 1);
    } else if k == 5 {
      assert line[0] == 'I';
      NotStartsWithAt(line, Image2Marker, 6);
    } else if k == 6 {
      assert hasCustomModel ==> line[0] == 'I';
    } else if k == 8 {
      assert line[0] == 'R';
    } else {
      assert line == "";
    }
    MarkersByFirstChar(line);
  }

  lemma RuleAndSceneLineMarkers(context: string, location: string, mode: string, subject: string, action: string,
                                 angle: string, ratio: string, hasCustomModel: bool, k: nat)
    requires 9 <= k < 21
    ensures var line := Template(context, location, mode, subject, action, angle, ratio, hasCustomModel)[k];
      (StartsWith(line, Image2Marker) ==> k == 6 && hasCustomModel) &&
      (StartsWith(line, FaceLockMarker) ==> k == 11 && hasCustomModel) &&
      !StartsWith(line, EditMarker) && !StartsWith(line, DetailsMarker)
  {
    var line := Template(context, location, mode, subject, action, angle, ratio, hasCustomModel)[k];
    if k == 9 {
      assert line[0] == '1';
    } else if k == 10 {
      assert line[0] == '2';
    } else if k == 11 {
      assert hasCustomModel ==> line[0] == '3';
    } else if k == 13 {
      assert line[0] == 'S';
    } else if 14 <= k <= 19 {
      assert line[0] == '-';
    } else {
      assert line == "";
    }
    MarkersByFirstChar(line);
  }

  /** Of the appended lines, only the product-details and recolor clauses carry their markers. */
  lemma TailLineMarkers(o: GenerationOptions, j: nat)
    requires j < |TailLines(o)|
    ensures var line := TailLines(o)[j];
      !StartsWith(line, Image2Marker) && !StartsWith(line, FaceLockMarker) &&
      (StartsWith(line, EditMarker) ==> o.variation == Recolor && line == EditingTaskLine(o.color)) &&
      (StartsWith(line, DetailsMarker) ==> o.productDescription != "" && line == ProductDetailsLine(o.productDescription))
  {
    var tail := TailLines(o);
    var line := tail[j];
    var details := if o.productDescription != "" then [ProductDetailsLine(o.productDescription)] else [];
    var edit := if o.variation == Recolor then [EditingTaskLine(o.color)] else [];
    assert tail == details + edit + ["", ClosingLine];
    if j < |details| {
      assert line == ProductDetailsLine(o.productDescription);
      assert line[0] == 'P';
    } else if j < |details| + |edit| {
      assert line == EditingTaskLine(o.color);
      assert line[0] == 'E';
    } else if j == |details| + |edit| {
      assert line == "";
    } else {
      assert line == ClosingLine;
      assert line[0] == 'O';
    }
    MarkersByFirstChar(line);
  }

  /** The markers located over the whole prompt, template and appended clauses alike. */
  lemma PromptLineMarkers(o: GenerationOptions, iteration: nat, seed: string, hasCustomModel: bool, p: Picks, k: nat)
    requires k < |PromptLines(o, iteration, seed, hasCustomModel, p)|
    ensures var line := PromptLines(o, iteration, seed, hasCustomModel, p)[k];
      (StartsWith(line, Image2Marker) ==> k == 6 && hasCustomModel) &&
      (StartsWith(line, FaceLockMarker) ==> k == 11 && hasCustomModel) &&
      (StartsWith(line, EditMarker) ==> o.variation == Recolor && line == EditingTaskLine(o.color)) &&
      (StartsWith(line, DetailsMarker) ==> o.productDescription != "" && line == ProductDetailsLine(o.productDescription))
  {
    var t := TemplateLines(o, iteration, seed, hasCustomModel, p);
    var lines := PromptLines(o, iteration, seed, hasCustomModel, p);
    if k < 21 {
      assert lines[k] == t[k];
      TemplateLineMarkers(CategoryContext(o.productCategory.Name()), BackgroundDescription(o.backgroundStyle.Name()),
                          o.displayMode.Name(), SubjectDetails(o, seed, hasCustomModel, p), ActionVibe(o),
                          CameraAngle(iteration), o.aspectRatio.Name(), hasCustomModel, k);
    } else {
      assert lines[k] == TailLines(o)[k - 21];
      TailLineMarkers(o, k - 21);
    }
  }

  /**
   * A reference model adds the `Image 2` input line and the face-lock rule,
   * and without one neither appears anywhere in the prompt.
   */
  lemma ReferenceModelClauses(o: GenerationOptions, iteration: nat, seed: string, hasCustomModel: bool, p: Picks)
    ensures var lines := PromptLines(o, iteration, seed, hasCustomModel, p);
      (HasLineStartingWith(lines, Image2Marker) <==> hasCustomModel) &&
      (HasLineStartingWith(lines, FaceLockMarker) <==> hasCustomModel) &&
      (hasCustomModel ==> lines[6] == Image2Line && lines[11] == FaceLockLine)
  {
    var lines := PromptLines(o, iteration, seed, hasCustomModel, p);
    if hasCustomModel {
      assert lines[6] == Image2Line && lines[11] == FaceLockLine;
      assert StartsWith(lines[6], Image2Marker);
      assert StartsWith(lines[11], FaceLockMarker);
    } else {
      forall k | 0 <= k < |lines|
        ensures !StartsWith(lines[k], Image2Marker) && !StartsWith(lines[k], FaceLockMarker)
      {
        PromptLineMarkers(o, iteration, seed, hasCustomModel, p, k);
      }
    }
  }

  /** The index of the recolor clause: right after the product details, if any. */
  function EditLineIndex(o: GenerationOptions): nat
  {
    if o.productDescription != "" then 22 else 21
  }

  /**
   * The recolor instruction is present exactly when the variation is a recolor,
   * and then the prompt names the requested colour.
   */
  lemma RecolorClause(o: GenerationOptions, iteration: nat, seed: string, hasCustomModel: bool, p: Picks)
    ensures HasLineStartingWith(PromptLines(o, iteration, seed, hasCustomModel, p), EditMarker) <==> o.variation == Recolor
    ensures o.variation == Recolor ==>
      PromptLines(o, iteration, seed, hasCustomModel, p)[EditLineIndex(o)] == EditingTaskLine(o.color) &&
      Contains(PromptText(o, iteration, seed, hasCustomModel, p), o.color)
  {
    var lines := PromptLines(o, iteration, seed, hasCustomModel, p);
    if o.variation == Recolor {
      var k := EditLineIndex(o);
      var line := EditingTaskLine(o.color);
      assert lines[k] == line;
      StartsWithTransitive(line, EditIntro + o.color, EditIntro);
      StartsWithTransitive(line, EditIntro, EditMarker);
      JoinContainsLine(lines, k);
      ContainsPart(EditIntro, o.color, EditOutro);
      ContainsTransitive(Join(lines), line, o.color);
    } else {
      forall k | 0 <= k < |lines| ensures !StartsWith(lines[k], EditMarker)
      {
        PromptLineMarkers(o, iteration, seed, hasCustomModel, p, k);
      }
    }
  }

  /**
   * The product-details clause is present exactly when a description was
   * given, and then the prompt quotes the description.
   */
  lemma ProductDetailsClause(o: GenerationOptions, iteration: nat, seed: string, hasCustomModel: bool, p: Picks)
    ensures HasLineStartingWith(PromptLines(o, iteration, seed, hasCustomModel, p), DetailsMarker) <==> o.productDescription != ""
    ensures o.productDescription != "" ==>
      PromptLines(o, iteration, seed, hasCustomModel, p)[21] == ProductDetailsLine(o.productDescription) &&
      Contains(PromptText(o, iteration, seed, hasCustomModel, p), o.productDescription)
  {
    var lines := PromptLines(o, iteration, seed, hasCustomModel, p);
    if o.productDescription != "" {
      var d := o.productDescription;
      var line := ProductDetailsLine(d);
      assert lines[21] == line;
      StartsWithTransitive(line, DetailsIntro + d, DetailsIntro);
      StartsWithTransitive(line, DetailsIntro, DetailsMarker);
      JoinContainsLine(lines, 21);
      ContainsPart(DetailsIntro, d, DetailsOutro);
      ContainsTransitive(Join(lines), line, d);
    } else {
      forall k | 0 <= k < |lines| ensures !StartsWith(lines[k], DetailsMarker)
      {
        PromptLineMarkers(o, iteration, seed, hasCustomModel, p, k);
      }
    }
  }

  /** Every prompt ends with the closing output directive on a line of its own. */
  lemma ClosingDirective(o: GenerationOptions, iteration: nat, seed: string, hasCustomModel: bool, p: Picks)
    ensures EndsWith(PromptText(o, iteration, seed, hasCustomModel, p), "\n" + ClosingLine)
  {
    var lines := PromptLines(o, iteration, seed, hasCustomModel, p);
    assert lines[|lines| - 1] == ClosingLine;
    JoinEndsWithLastLine(lines);
  }

  /**
   * The prompt depends on the iteration only through the camera angle, which
   * repeats every three iterations.
   */
  lemma PromptIterationPeriod(o: GenerationOptions, iteration: nat, seed: string, hasCustomModel: bool, p: Picks)
    ensures PromptLines(o, iteration, seed, hasCustomModel, p)[18] == AngleLabel + Angles[iteration % 3] + "."
    ensures PromptText(o, iteration, seed, hasCustomModel, p) == PromptText(o, iteration + 3, seed, hasCustomModel, p)
  {
    CameraAngleCycles(iteration);
  }

  /** With consistency on and a seed available, the subject is the seed's person, whatever the draws. */
  lemma SeededSubject(o: GenerationOptions, seed: string, p1: Picks, p2: Picks)
    requires o.displayMode == Model && o.consistentModel && seed != ""
    ensures SubjectDetails(o, seed, false, p1) == SubjectDetails(o, seed, false, p2)
    ensures StartsWith(SubjectDetails(o, seed, false, p1), seed)
  {
    assert CharacterDescription(o, seed, p1) == seed == CharacterDescription(o, seed, p2);
    var style := StyleClause(o.modelStyle);
    assert StartsWith(seed, seed);
    StartsWithAppend(seed, seed, " ");
    StartsWithAppend(seed + " ", seed, style);
    StartsWithAppend(seed + " " + style, seed, ".");
    StartsWithAppend(seed + " " + style + ".", seed, " ");
    StartsWithAppend(seed + " " + style + "." + " ", seed, ShotClause(o.shotType));
  }

  /**
   * With consistency on and a seed available, an AI-generated model is the
   * seed's person in every iteration: the prompt names the seed and ignores
   * that iteration's random draws.
   */
  lemma SeedReuse(o: GenerationOptions, iteration: nat, seed: string, p1: Picks, p2: Picks)
    requires o.displayMode == Model && o.consistentModel && seed != ""
    ensures Contains(PromptLines(o, iteration, seed, false, p1)[16], seed)
    ensures PromptText(o, iteration, seed, false, p1) == PromptText(o, iteration, seed, false, p2)
  {
    SeededSubject(o, seed, p1, p2);
    var subject := SubjectDetails(o, seed, false, p1);
    PrefixContained(subject, seed);
    ContainsPart(SubjectLabel, subject, "");
    assert SubjectLabel + subject + "" == PromptLines(o, iteration, seed, false, p1)[16];
    ContainsTransitive(PromptLines(o, iteration, seed, false, p1)[16], subject, seed);
    assert TemplateLines(o, iteration, seed, false, p1) == TemplateLines(o, iteration, seed, false, p2);
  }

  /**
   * A reference model replaces the synthesized person by the identity lock, so
   * neither the seed nor the draws reach the prompt.
   */
  lemma ReferenceModelSubject(o: GenerationOptions, iteration: nat, seed1: string, seed2: string, p1: Picks, p2: Picks)
    requires o.displayMode == Model
    ensures PromptLines(o, iteration, seed1, true, p1)[16] == SubjectLabel + IdentityLock + " " + ShotClause(o.shotType)
    ensures PromptText(o, iteration, seed1, true, p1) == PromptText(o, iteration, seed2, true, p2)
  {
    assert SubjectDetails(o, seed1, true, p1) == SubjectDetails(o, seed2, true, p2);
    assert TemplateLines(o, iteration, seed1, true, p1) == TemplateLines(o, iteration, seed2, true, p2);
  }

  /**
   * Without a model the subject is the display mode's fixed staging and the
   * action line is left empty; nothing about a person enters the prompt.
   */
  lemma ProductOnlySubject(o: GenerationOptions, iteration: nat, seed1: string, seed2: string, has1: bool, has2: bool, p1: Picks, p2: Picks)
    requires o.displayMode != Model
    ensures var lines := PromptLines(o, iteration, seed1, has1, p1);
      lines[16] == SubjectLabel + (match o.displayMode
                                   case Mannequin => MannequinSubject
                                   case Hanging => HangingSubject
                                   case _ => FlatLaySubject) &&
      lines[17] == ActionLabel
    ensures SubjectDetails(o, seed1, has1, p1) == SubjectDetails(o, seed2, has2, p2)
  {
  }

  /** A consistent prompt names its seed. */
  lemma ConsistentPromptNamesSeed(o: GenerationOptions, iteration: nat, seed: string, p: Picks)
    requires o.displayMode == Model && o.consistentModel && seed != ""
    ensures Contains(PromptText(o, iteration, seed, false, p), seed)
  {
    var lines := PromptLines(o, iteration, seed, false, p);
    SeedReuse(o, iteration, seed, p, p);
    JoinContainsLine(lines, 16);
    ContainsTransitive(Join(lines), lines[16], seed);
  }

  /** Consistent prompts three iterations apart are the same text, whatever the draws. */
  lemma ConsistentPromptRepeats(o: GenerationOptions, iteration: nat, seed: string, p1: Picks, p2: Picks)
    requires o.displayMode == Model && o.consistentModel && seed != ""
    ensures PromptText(o, iteration, seed, false, p1) == PromptText(o, iteration + 3, seed, false, p2)
  {
    SeedReuse(o, iteration, seed, p1, p2);
    PromptIterationPeriod(o, iteration, seed, false, p2);
  }
}
