/** The argument vector that `click_image` hands to `raspistill`.

The two settings records are laid out as thirteen flag/value pairs in a fixed
order; the flags are fixed literals and the values are the settings fields,
passed through unchanged. Spawning the process is not part of this model: what
is modelled is the command (program and argument vector) that would be spawned.
 */
module CameraOperations {
  import opened Settings

  const TriggerCamera: string := "raspistill"
  const CameraShutterSpeed: string := "-t"
  const ImageWidth: string := "-w"
  const ImageHeight: string := "-h"
  const ClickedImagePath: string := "-o"
  const ImageContrast: string := "-co"
  const ImageSharpness: string := "-sh"
  const ImageBrightness: string := "-br"
  const ImageSaturation: string := "-sa"
  const ImageQuality: string := "-q"
  const ImageIso: string := "-ISO"
  const ImageRotation: string := "-rot"
  const ImageHorizontalFlip: string := "-hf"
  const ImageVerticalFlip: string := "-vf"

  /** Number of flag/value pairs in the argument vector. */
  const PairCount: nat := 13

  /** A program name with its argument vector, as given to `Command::new(..).args(..)`. */
  datatype Command = Command(program: string, args: seq<string>)

  /** The argument array literal of `click_image`. */
  function BuildArgs(cam: CameraSettings, img: ImageSettings): (r: seq<string>)
    ensures |r| == 2 * PairCount
  {
    [ ImageContrast, cam.contrast,
      ImageSharpness, cam.sharpness,
      ImageBrightness, cam.brightness,
      ImageSaturation, cam.saturation,
      ImageQuality, cam.quality,
      CameraShutterSpeed, cam.timeout,
      ImageIso, cam.iso,
      ClickedImagePath, cam.output,
      ImageWidth, img.width,
      ImageHeight, img.height,
      ImageRotation, img.rotation,
      ImageHorizontalFlip, img.horizontalFlip,
      ImageVerticalFlip, img.verticalFlip ]
  }

  /** The command `click_image` spawns. */
  function ClickImageCommand(cam: CameraSettings, img: ImageSettings): (cmd: Command)
    ensures cmd.program == "raspistill"
    ensures |cmd.args| == 26
  {
    Command(TriggerCamera, BuildArgs(cam, img))
  }

  // ---------------------------------------------------------------------------
  // A reference definition: the table from settings to flags, and the vector as
  // the flag/value pairs of that table.

  /** One setting of either record; the order of the constructors is the argument order. */
  datatype Setting = Camera(cf: CameraField) | Image(imf: ImageField)

  /** The position of a setting's pair in the argument vector. */
  function Slot(s: Setting): (k: nat)
    ensures k < PairCount
  {
    match s
    case Camera(Contrast) => 0
    case Camera(Sharpness) => 1
    case Camera(Brightness) => 2
    case Camera(Saturation) => 3
    case Camera(Quality) => 4
    case Camera(Timeout) => 5
    case Camera(Iso) => 6
    case Camera(Output) => 7
    case Image(Width) => 8
    case Image(Height) => 9
    case Image(Rotation) => 10
    case Image(HorizontalFlip) => 11
    case Image(VerticalFlip) => 12
  }

  /** The flag that tags a setting. */
  function Flag(s: Setting): string {
    match s
    case Camera(Contrast) => ImageContrast
    case Camera(Sharpness) => ImageSharpness
    case Camera(Brightness) => ImageBrightness
    case Camera(Saturation) => ImageSaturation
    case Camera(Quality) => ImageQuality
    case Camera(Timeout) => CameraShutterSpeed
    case Camera(Iso) => ImageIso
    case Camera(Output) => ClickedImagePath
    case Image(Width) => ImageWidth
    case Image(Height) => ImageHeight
    case Image(Rotation) => ImageRotation
    case Image(HorizontalFlip) => ImageHorizontalFlip
    case Image(VerticalFlip) => ImageVerticalFlip
  }

  /** The value a setting has in the two records. */
  function Value(s: Setting, cam: CameraSettings, img: ImageSettings): string {
    match s
    case Camera(f) => CameraGet(cam, f)
    case Image(f) => ImageGet(img, f)
  }

  /** Overrides one setting in whichever record holds it. */
  function Override(s: Setting, v: string, cam: CameraSettings, img: ImageSettings): (r: (CameraSettings, ImageSettings))
    ensures Value(s, r.0, r.1) == v
    ensures forall t :: t != s ==> Value(t, r.0, r.1) == Value(t, cam, img)
  {
    match s
    case Camera(f) => (CameraWith(cam, f, v), img)
    case Image(f) => (cam, ImageWith(img, f, v))
  }

  /** The flags, in argument order. */
  const Flags: seq<string> := [
    ImageContrast, ImageSharpness, ImageBrightness, ImageSaturation, ImageQuality,
    CameraShutterSpeed, ImageIso, ClickedImagePath,
    ImageWidth, ImageHeight, ImageRotation, ImageHorizontalFlip, ImageVerticalFlip ]

  /** The settings values, in argument order. */
  function Values(cam: CameraSettings, img: ImageSettings): (vs: seq<string>)
    ensures |vs| == PairCount
    ensures forall s :: vs[Slot(s)] == Value(s, cam, img)
  {
    [ cam.contrast, cam.sharpness, cam.brightness, cam.saturation, cam.quality,
      cam.timeout, cam.iso, cam.output,
      img.width, img.height, img.rotation, img.horizontalFlip, img.verticalFlip ]
  }

  /** Pairs each flag with its value: `f0, v0, f1, v1, ...`. */
  function Interleave(flags: seq<string>, values: seq<string>): (r: seq<string>)
    requires |flags| == |values|
    ensures |r| == 2 * |flags|
    decreases |flags|
  {
    if flags == [] then [] else [flags[0], values[0]] + Interleave(flags[1..], values[1..])
  }

  lemma {:induction false} InterleaveAt(flags: seq<string>, values: seq<string>, k: nat)
    requires |flags| == |values| && k < |flags|
    ensures Interleave(flags, values)[2 * k] == flags[k]
    ensures Interleave(flags, values)[2 * k + 1] == values[k]
  {
    if k > 0 {
      InterleaveAt(flags[1..], values[1..], k - 1);
    }
  }

  /** Replacing one value replaces exactly the token after its flag. */
  lemma {:induction false} InterleaveUpdate(flags: seq<string>, values: seq<string>, k: nat, v: string)
    requires |flags| == |values| && k < |flags|
    ensures Interleave(flags, values[k := v]) == Interleave(flags, values)[2 * k + 1 := v]
  {
    if k == 0 {
      assert values[k := v][1..] == values[1..];
    } else {
      assert values[k := v][1..] == values[1..][k - 1 := v];
      InterleaveUpdate(flags[1..], values[1..], k - 1, v);
    }
  }

  /** With the flags fixed, the interleaved vector determines the values. */
  lemma InterleaveInjective(flags: seq<string>, values1: seq<string>, values2: seq<string>)
    requires |flags| == |values1| == |values2|
    requires Interleave(flags, values1) == Interleave(flags, values2)
    ensures values1 == values2
  {
    forall k | 0 <= k < |flags| ensures values1[k] == values2[k] {
      InterleaveAt(flags, values1, k);
      InterleaveAt(flags, values2, k);
    }
  }

  /** The array literal is exactly the flag/value pairs of the flag table. */
  lemma BuildArgsIsInterleave(cam: CameraSettings, img: ImageSettings)
    ensures BuildArgs(cam, img) == Interleave(Flags, Values(cam, img))
  {
    var args, pairs := BuildArgs(cam, img), Interleave(Flags, Values(cam, img));
    forall j | 0 <= j < |args| ensures args[j] == pairs[j] {
      InterleaveAt(Flags, Values(cam, img), j / 2);
    }
  }

  // ---------------------------------------------------------------------------
  // Properties of the argument vector.

  /** Each setting's flag sits at position 2 * Slot(s), and its value, verbatim, right after it. */
  lemma BuildArgsAt(cam: CameraSettings, img: ImageSettings, s: Setting)
    ensures BuildArgs(cam, img)[2 * Slot(s)] == Flag(s)
    ensures BuildArgs(cam, img)[2 * Slot(s) + 1] == Value(s, cam, img)
  {
    BuildArgsIsInterleave(cam, img);
    InterleaveAt(Flags, Values(cam, img), Slot(s));
  }

  /** The flag positions hold the flag table, whatever the inputs. */
  lemma FlagsAtEvenPositions(cam: CameraSettings, img: ImageSettings)
    ensures forall k :: 0 <= k < PairCount ==> BuildArgs(cam, img)[2 * k] == Flags[k]
  {
    BuildArgsIsInterleave(cam, img);
    forall k | 0 <= k < PairCount ensures BuildArgs(cam, img)[2 * k] == Flags[k] {
      InterleaveAt(Flags, Values(cam, img), k);
    }
  }

  /** The value positions hold the settings values in argument order. */
  lemma ValuesAtOddPositions(cam: CameraSettings, img: ImageSettings)
    ensures forall k :: 0 <= k < PairCount ==> BuildArgs(cam, img)[2 * k + 1] == Values(cam, img)[k]
  {
    BuildArgsIsInterleave(cam, img);
    forall k | 0 <= k < PairCount ensures BuildArgs(cam, img)[2 * k + 1] == Values(cam, img)[k] {
      InterleaveAt(Flags, Values(cam, img), k);
    }
  }

  /** The thirteen flags are pairwise distinct: each setting is tagged by exactly one flag. */
  lemma FlagsDistinct(s: Setting, t: Setting)
    ensures Flag(s) == Flag(t) <==> s == t
  {
  }

  /** Overriding one setting changes exactly one token of the vector: the value after that
      setting's flag becomes the new value, and the other 25 tokens stay as they were. */
  lemma OverrideChangesOneToken(cam: CameraSettings, img: ImageSettings, s: Setting, v: string)
    ensures var r := Override(s, v, cam, img);
            BuildArgs(r.0, r.1) == BuildArgs(cam, img)[2 * Slot(s) + 1 := v]
    ensures var r := Override(s, v, cam, img);
            v != Value(s, cam, img) ==>
              forall k :: 0 <= k < 2 * PairCount ==>
                (BuildArgs(r.0, r.1)[k] != BuildArgs(cam, img)[k] <==> k == 2 * Slot(s) + 1)
  {
    var r := Override(s, v, cam, img);
    var vs := Values(cam, img);
    assert Values(r.0, r.1) == vs[Slot(s) := v] by {
      forall k | 0 <= k < PairCount ensures Values(r.0, r.1)[k] == vs[Slot(s) := v][k] {
        SlotOnto(k);
      }
    }
    BuildArgsIsInterleave(r.0, r.1);
    BuildArgsIsInterleave(cam, img);
    InterleaveUpdate(Flags, vs, Slot(s), v);
    BuildArgsAt(cam, img, s);
  }

  /** Every position below PairCount is the slot of some setting. */
  lemma SlotOnto(k: nat)
    requires k < PairCount
    ensures exists s :: Slot(s) == k
  {
    var s := [Camera(Contrast), Camera(Sharpness), Camera(Brightness), Camera(Saturation),
              Camera(Quality), Camera(Timeout), Camera(Iso), Camera(Output),
              Image(Width), Image(Height), Image(Rotation), Image(HorizontalFlip), Image(VerticalFlip)][k];
    assert Slot(s) == k;
  }

  /** Distinct pairs of settings records give distinct argument vectors. */
  lemma BuildArgsInjective(cam1: CameraSettings, img1: ImageSettings, cam2: CameraSettings, img2: ImageSettings)
    ensures BuildArgs(cam1, img1) == BuildArgs(cam2, img2) <==> cam1 == cam2 && img1 == img2
  {
    if BuildArgs(cam1, img1) == BuildArgs(cam2, img2) {
      BuildArgsIsInterleave(cam1, img1);
      BuildArgsIsInterleave(cam2, img2);
      InterleaveInjective(Flags, Values(cam1, img1), Values(cam2, img2));
      var vs1, vs2 := Values(cam1, img1), Values(cam2, img2);
      assert vs1[0] == vs2[0] && vs1[1] == vs2[1] && vs1[2] == vs2[2] && vs1[3] == vs2[3];
      assert vs1[4] == vs2[4] && vs1[5] == vs2[5] && vs1[6] == vs2[6] && vs1[7] == vs2[7];
      assert vs1[8] == vs2[8] && vs1[9] == vs2[9] && vs1[10] == vs2[10];
      assert vs1[11] == vs2[11] && vs1[12] == vs2[12];
    }
  }
}
