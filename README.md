# raspicam: settings records and the `raspistill` argument vector

The library takes a photo on a Raspberry Pi by running the `raspistill` program.
The caller describes the shot with two records of text tokens. `CameraSettings`
holds contrast, sharpness, brightness, saturation, quality, timeout, iso and the
output path. `ImageSettings` holds width, height, rotation and the two flips.
Each record has a fixed default. A caller overrides some fields with Rust's
struct-update syntax. `click_image` then lays both records out as 13 flag/value
pairs and spawns `raspistill` with that argument vector.

This model has two modules:

- `Settings` (`settings.dfy`) holds the two records as datatypes with `string` fields
  and their defaults. Struct update is Dafny's datatype update. The derived
  `PartialEq` is Dafny's structural equality. `CameraField` and `ImageField` name
  the fields, so that "every field" can be quantified over. No field is validated
  anywhere, and no function here has a `requires`: any string is accepted for any field.
- `CameraOperations` (`camera_operations.dfy`) holds the flag constants and the
  argument array of `click_image` as the pure function `BuildArgs`. `ClickImageCommand`
  pairs that vector with the program name. There is also an independent reference
  definition: the flag table `Flags`, the value list `Values`, and `Interleave`,
  which pairs each flag with its value. `BuildArgsIsInterleave` proves the array
  literal equal to it. The positional, update and injectivity properties are proved
  through that reference.

The two default constructors take no input. As Dafny functions they are
deterministic by construction, so two calls always give equal records.

## Model

| member | source | states |
|---|---|---|
| `Settings.DefaultCameraSettingsValues` | src/image/settings.rs:62-73 | the camera default is contrast "50", sharpness "30", brightness "60", saturation "0", quality "100", timeout "3000", iso "300", output "~/raspicam.jpg" |
| `Settings.DefaultImageSettingsValues` | src/image/settings.rs:128-136 | the image default is width "200", height "200", rotation "180", both flips "false" |
| `Settings.SharpnessOverride` | src/image/settings.rs:9-24 | overriding only sharpness with "50" gives the default in every other field |
| `Settings.WidthOverride` | src/image/settings.rs:84-96 | overriding only width with "50" leaves height "200", rotation "180" and both flips "false" |
| `Settings.CameraWith` | src/image/settings.rs:9-12 | struct update of one camera field stores the new value there and leaves every other field as it was, for any string |
| `Settings.ImageWith` | src/image/settings.rs:84-87 | struct update of one image field stores the new value there and leaves every other field as it was, for any string |
| `Settings.CameraEqualIffFieldsEqual` | src/image/settings.rs:27-37 | two camera records are equal if and only if every field matches |
| `Settings.ImageEqualIffFieldsEqual` | src/image/settings.rs:99-106 | two image records are equal if and only if every field matches |
| `Settings.CameraWithChanges` | src/image/settings.rs:27-37 | updating a camera field gives a record equal to the original exactly when the value stored is the one the field already had |
| `Settings.ImageWithChanges` | src/image/settings.rs:99-106 | updating an image field gives a record equal to the original exactly when the value stored is the one the field already had |
| `CameraOperations.BuildArgs` | src/image/camera_operations.rs:49-76 | the argument vector always has 26 tokens |
| `CameraOperations.ClickImageCommand` | src/image/camera_operations.rs:48-76 | the executable is "raspistill" and the vector has 26 tokens, whatever the inputs |
| `CameraOperations.Values` | src/image/camera_operations.rs:51-75 | the value list has 13 entries, and each setting's value sits at that setting's slot |
| `CameraOperations.BuildArgsIsInterleave` | src/image/camera_operations.rs:49-76 | the array literal equals the flag table paired, flag then value, with the settings values |
| `CameraOperations.BuildArgsAt` | src/image/camera_operations.rs:50-75 | for every setting, its flag sits at position 2·slot and its value, unchanged, at 2·slot+1 |
| `CameraOperations.FlagsAtEvenPositions` | src/image/camera_operations.rs:6-18 | even positions 0..24 hold "-co", "-sh", "-br", "-sa", "-q", "-t", "-ISO", "-o", "-w", "-h", "-rot", "-hf", "-vf" in that order, for all inputs |
| `CameraOperations.ValuesAtOddPositions` | src/image/camera_operations.rs:51-75 | odd positions hold contrast, sharpness, brightness, saturation, quality, timeout, iso, output, width, height, rotation, horizontal flip, vertical flip, verbatim |
| `CameraOperations.FlagsDistinct` | src/image/camera_operations.rs:6-18 | two settings have the same flag if and only if they are the same setting |
| `CameraOperations.OverrideChangesOneToken` | src/image/camera_operations.rs:49-76 | overriding one setting replaces the token after its flag with the new value and leaves the other 25 tokens as they were; if the value really changes, exactly that token differs |
| `CameraOperations.BuildArgsInjective` | src/image/camera_operations.rs:49-76 | two argument vectors are equal if and only if both settings records are equal |
| `CameraOperations.InterleaveAt` | src/image/camera_operations.rs:49-76 | in the flag/value pairing, position 2k holds flag k and position 2k+1 holds value k |
| `CameraOperations.InterleaveUpdate` | src/image/camera_operations.rs:49-76 | replacing value k in the pairing replaces exactly position 2k+1 |
| `CameraOperations.InterleaveInjective` | src/image/camera_operations.rs:49-76 | with the flags fixed, the paired vector determines the values |

## Left out

- Spawning the process (`Command::new(..).args(..).output()`, src/image/camera_operations.rs:48, 77) is OS I/O. The model stops at the command that would be spawned. The `Result<Output, Error>` goes back to the caller unexamined, and the exit status is never read, so there is no further behaviour to state.
- The doc-test of `click_image` (src/image/camera_operations.rs:34-42) expects `is_err()` because no camera is attached. That depends on the environment and is not modelled.
- src/bin/click_image.rs builds the two defaults, calls `click_image` and prints the result. It is only I/O and is not part of this model. src/lib.rs only declares modules.
- The `Debug` derive and the `&'static str` lifetimes have no behaviour to model.
- The values are not validated: no range checks (such as rotation being a multiple of 90), no numeric checks, and no expansion of `~` in the output path. The source does none of this, so neither does the model.
