/** The two settings records handed to the camera program, with their defaults.

Every field is a text token that is forwarded verbatim as a command-line value;
no field is validated, so every string is a legal value for every field.
Rust's struct-update syntax `S { f: v, ..Default::default() }` is Dafny's
datatype update `DefaultS().(f := v)`; the derived `PartialEq` is Dafny's
structural equality on datatypes.
 */
module Settings {

  /** Settings for the camera: one token per `raspistill` camera option. */
  datatype CameraSettings = CameraSettings(
    contrast: string,
    sharpness: string,
    brightness: string,
    saturation: string,
    quality: string,
    timeout: string,
    iso: string,
    output: string
  )

  /** Settings for the image: size, rotation and the two flips. */
  datatype ImageSettings = ImageSettings(
    width: string,
    height: string,
    rotation: string,
    horizontalFlip: string,
    verticalFlip: string
  )

  /** `CameraSettings::default()` */
  function DefaultCameraSettings(): CameraSettings {
    CameraSettings(
      contrast := "50",
      sharpness := "30",
      brightness := "60",
      saturation := "0",
      quality := "100",
      timeout := "3000",
      iso := "300",
      output := "~/raspicam.jpg"
    )
  }

  /** `ImageSettings::default()` */
  function DefaultImageSettings(): ImageSettings {
    ImageSettings(
      width := "200",
      height := "200",
      rotation := "180",
      horizontalFlip := "false",
      verticalFlip := "false"
    )
  }

  /** The names of the fields of CameraSettings, so that "every field" can be quantified. */
  datatype CameraField = Contrast | Sharpness | Brightness | Saturation | Quality | Timeout | Iso | Output

  /** The names of the fields of ImageSettings. */
  datatype ImageField = Width | Height | Rotation | HorizontalFlip | VerticalFlip

  /** Reads the field named `f`. */
  function CameraGet(c: CameraSettings, f: CameraField): string {
    match f
    case Contrast => c.contrast
    case Sharpness => c.sharpness
    case Brightness => c.brightness
    case Saturation => c.saturation
    case Quality => c.quality
    case Timeout => c.timeout
    case Iso => c.iso
    case Output => c.output
  }

  /** Struct update of the one field named `f`: `CameraSettings { f: v, ..c }`. */
  function CameraWith(c: CameraSettings, f: CameraField, v: string): (r: CameraSettings)
    ensures CameraGet(r, f) == v
    ensures forall g :: g != f ==> CameraGet(r, g) == CameraGet(c, g)
  {
    match f
    case Contrast => c.(contrast := v)
    case Sharpness => c.(sharpness := v)
    case Brightness => c.(brightness := v)
    case Saturation => c.(saturation := v)
    case Quality => c.(quality := v)
    case Timeout => c.(timeout := v)
    case Iso => c.(iso := v)
    case Output => c.(output := v)
  }

  function ImageGet(i: ImageSettings, f: ImageField): string {
    match f
    case Width => i.width
    case Height => i.height
    case Rotation => i.rotation
    case HorizontalFlip => i.horizontalFlip
    case VerticalFlip => i.verticalFlip
  }

  /** Struct update of the one field named `f`: `ImageSettings { f: v, ..i }`. */
  function ImageWith(i: ImageSettings, f: ImageField, v: string): (r: ImageSettings)
    ensures ImageGet(r, f) == v
    ensures forall g :: g != f ==> ImageGet(r, g) == ImageGet(i, g)
  {
    match f
    case Width => i.(width := v)
    case Height => i.(height := v)
    case Rotation => i.(rotation := v)
    case HorizontalFlip => i.(horizontalFlip := v)
    case VerticalFlip => i.(verticalFlip := v)
  }

  /** The doc-test of `CameraSettings::default()`. */
  lemma DefaultCameraSettingsValues()
    ensures DefaultCameraSettings() == CameraSettings("50", "30", "60", "0", "100", "3000", "300", "~/raspicam.jpg")
  {
  }

  /** The doc-test of `ImageSettings::default()`. */
  lemma DefaultImageSettingsValues()
    ensures DefaultImageSettings() == ImageSettings("200", "200", "180", "false", "false")
  {
  }

  /** The doc-test of `CameraSettings`: overriding only the sharpness with "50". */
  lemma SharpnessOverride()
    ensures DefaultCameraSettings().(sharpness := "50")
         == CameraSettings("50", "50", "60", "0", "100", "3000", "300", "~/raspicam.jpg")
  {
  }

  /** The doc-test of `ImageSettings`: overriding only the width with "50". */
  lemma WidthOverride()
    ensures DefaultImageSettings().(width := "50") == ImageSettings("50", "200", "180", "false", "false")
  {
  }

  /** The derived equality is field-wise: equal records agree on every field, and records
      that agree on every field are equal. */
  lemma CameraEqualIffFieldsEqual(a: CameraSettings, b: CameraSettings)
    ensures a == b <==> forall f :: CameraGet(a, f) == CameraGet(b, f)
  {
    if forall f :: CameraGet(a, f) == CameraGet(b, f) {
      assert CameraGet(a, Contrast) == CameraGet(b, Contrast);
      assert CameraGet(a, Sharpness) == CameraGet(b, Sharpness);
      assert CameraGet(a, Brightness) == CameraGet(b, Brightness);
      assert CameraGet(a, Saturation) == CameraGet(b, Saturation);
      assert CameraGet(a, Quality) == CameraGet(b, Quality);
      assert CameraGet(a, Timeout) == CameraGet(b, Timeout);
      assert CameraGet(a, Iso) == CameraGet(b, Iso);
      assert CameraGet(a, Output) == CameraGet(b, Output);
    }
  }

  lemma ImageEqualIffFieldsEqual(a: ImageSettings, b: ImageSettings)
    ensures a == b <==> forall f :: ImageGet(a, f) == ImageGet(b, f)
  {
    if forall f :: ImageGet(a, f) == ImageGet(b, f) {
      assert ImageGet(a, Width) == ImageGet(b, Width);
      assert ImageGet(a, Height) == ImageGet(b, Height);
      assert ImageGet(a, Rotation) == ImageGet(b, Rotation);
      assert ImageGet(a, HorizontalFlip) == ImageGet(b, HorizontalFlip);
      assert ImageGet(a, VerticalFlip) == ImageGet(b, VerticalFlip);
    }
  }

  /** Changing any single field makes the record unequal to the one it came from,
      and storing the value a field already has changes nothing. */
  lemma CameraWithChanges(c: CameraSettings, f: CameraField, v: string)
    ensures CameraWith(c, f, v) == c <==> v == CameraGet(c, f)
  {
    if v == CameraGet(c, f) {
      CameraEqualIffFieldsEqual(CameraWith(c, f, v), c);
    }
  }

  lemma ImageWithChanges(i: ImageSettings, f: ImageField, v: string)
    ensures ImageWith(i, f, v) == i <==> v == ImageGet(i, f)
  {
    if v == ImageGet(i, f) {
      ImageEqualIffFieldsEqual(ImageWith(i, f, v), i);
    }
  }
}
