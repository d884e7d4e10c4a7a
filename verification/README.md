# LOR Model Viewer: a Dafny model of the viewer bootstrap and the builder's URL checks

The LOR Model Viewer embeds a third-party `<model-viewer>` web component in a
page. It has two pages. This project models the decision logic of both.

- **Viewer page (`viewer.js`).** It reads display parameters from the query
  string. It sanitises them: numbers are clamped to a range and fall back to a
  default, and boolean flags are opt-out. It then derives the attributes and AR
  children of the viewer element. If something required is wrong, it ends in a
  fatal error message instead.
- **Builder page (`builder.js`).** It validates the model and USDZ URLs against
  a host allowlist. It shows Bootstrap validation feedback on each input. It
  blocks generating the embed code, with one error banner, while any URL is
  invalid.

Everything is modelled as pure functions over immutable values:

- The query string is a `map<string, string>`. A missing key means the
  parameter is absent.
- Numbers are `real`.
- The browser's parsers are oracles passed in as parameters (module `Web`).
  `parseFloat` gives `Option<real>`, where `None` stands for NaN. `new URL`
  gives `Option<Url>`. `decodeURIComponent` gives a `Result` carrying the
  thrown message. `JSON.parse` gives `Option<Json>`.
- The builder's DOM is modelled as values. A `Feedback` value holds an input's
  class set and the messages of the `.invalid-feedback` elements in its parent.
  A `Form` value holds both inputs and the texts of the `.error-message` banners.

Modules:

- `Wrappers`: `Option`, `Result`.
- `Web`: `Url`, `Json` and the oracle record.
- `Sanitise`: `sanitiseNumber`, opt-out flags, JavaScript truthiness and `||`
  on nullable strings.
- `Viewer`: parameters, attributes, AR children, the aspect-ratio padding, the
  a11y descriptor and the whole bootstrap.
- `Builder`: `validateUrl`, feedback, `validateAllUrls`, the submit gate and
  the event-driven form.

Behaviour of the code that the model keeps as written:

- The `alt` and `aria-label` fallbacks use the raw `title` parameter
  (viewer.js:167-168). Only `document.title` gets the percent-decoded value
  (viewer.js:137).
- A failing `decodeURIComponent(title)` is a fatal error, carrying the
  exception's own message. It is not guarded by an inner `try`, and it runs
  before the model URL is parsed (viewer.js:136-146).
- The document title is set before the model URL is checked. So the "Invalid
  model URL provided" outcome still carries the decoded title
  (`Page.title`).
- `Math.min(Math.max(v, lo), hi)` gives `hi` when `lo > hi`. `SanitiseNumber`
  states this case too.
- Loading, viewer and error are not mutually exclusive: `showError` appends
  beside the loading div (viewer.js:217-218), and the model claims no such
  exclusion.

## Model

| member | source | states |
|---|---|---|
| Sanitise.SanitiseNumber | viewer.js:69-73 | A failed parse returns the default whatever the bounds are. A parsed value with lo ≤ hi lands in [lo, hi]. It is unchanged when in range, becomes hi when above and lo when below. It is the point of [lo, hi] nearest to the parsed value. When lo > hi the result is hi |
| Sanitise.OptOutFlag | viewer.js:124-125 | A flag is off exactly when the raw value is the literal "false". Absence and the empty string mean on |
| Sanitise.OrElse | viewer.js:167-168 | `s \|\| fallback` on a nullable string: `s` when it is present and non-empty, otherwise the fallback. A non-empty fallback always gives a non-empty result |
| Viewer.Param | viewer.js:79-133 | `urlParams.get`: present exactly when the key is in the query, with its value |
| Viewer.ShadowIntensity | viewer.js:130-172 | Computed at line 130 and written at line 172: 1 when the parameter is absent, or unparseable (NaN is written as "1"); otherwise the parsed value, not clamped |
| Viewer.ReadParams | viewer.js:55-133 | Every numeric parameter lies in its declared range. Each one is its default (16, 9, 25, 200, 45, 30) when it is absent or does not parse. A parsed value in range is kept, and one beyond a bound becomes that bound: width=200 gives 100, minZoom=5 gives 10. The shadow intensity is the parsed value, or 1. Both flags are off only for "false". String parameters pass through unchanged |
| Viewer.FixedAttributes | viewer.js:152-172 | The 18 attributes every viewer carries, each with its value. The literals are `id` "model-viewer", empty `camera-controls`, `touch-action` "pan-y pinch-zoom", interaction prompt "auto" / "basic" / "0", `camera-orbit` "0deg 75deg 105%", field-of-view limits 10 and 90 degrees, and `interpolation-decay` "200". Zoom, field of view and rotation are derived from the sanitised values. `src` is the validated URL. `alt` is alt, else title, else "3D model viewer". `aria-label` is title, else "3D model viewer". Both labels are never empty |
| Viewer.OptionalAttributes | viewer.js:154-173 | `auto-rotate` is present exactly when auto-rotate is on. `environment-image`, `skybox-image` and `ios-src` are present exactly when their parameter is non-empty, and then carry its value |
| Viewer.ArAttributes | viewer.js:176-180 | All four AR attributes, with their fixed values, when AR is on. None when it is off |
| Viewer.Attributes | viewer.js:152-193 | The fixed attributes are always present. The AR attributes are present if and only if AR is on. Nothing outside the fixed, optional and AR sets is set. Each value is the one its part defines |
| Viewer.ArChildren | viewer.js:181-192 | No children when AR is off. Otherwise an AR button exactly when its label is non-empty and an AR prompt exactly when its text is non-empty, carrying that text, button first |
| Viewer.AspectPadding | viewer.js:206-207 | For sanitised width and height the padding is defined, satisfies padding × width = height × 100, and lies in [1, 10000] |
| Viewer.AspectBounds | viewer.js:206 | (height / width) × 100 lies in [1, 10000] for width and height in [1, 100] |
| Viewer.ShadowIntensityIsUnclamped | viewer.js:130 | The shadow intensity is the sanitiser with fallback 1 and no clamping. It equals any clamp when parsing fails or the value is in range, and exceeds the clamp when the value is above the bound |
| Viewer.FlagsReadOnlyTheirParameter | viewer.js:124-125 | Changing any other parameter changes neither `autoRotate` nor `arButton` |
| Viewer.DecodeA11y | viewer.js:209-216 | The descriptor is present exactly when the parameter is non-empty, decodes and parses. It is then the parsed value. Any failure leaves it out |
| Viewer.Configure | viewer.js:148-216 | The configured viewer's zoom, rotation and padding lie in their ranges. The field of view lies between the element's own field-of-view limits. The a11y descriptor is passed through |
| Viewer.Bootstrap | viewer.js:76-218 | An absent or empty model gives "No model URL provided". Otherwise a title that fails to decode is fatal with the decoder's message. Otherwise an unparseable model gives "Invalid model URL provided". A viewer appears exactly when none of these happens. It is then the configuration of the sanitised parameters, the parsed URL and the decoded descriptor: its `src` is the parsed URL, its values are in range, and its AR and auto-rotate attributes follow the flags |
| Viewer.A11yNeverFatal | viewer.js:209-216 | For every query, whatever the `a11y` parameter holds, the page shows a viewer or the same error as without it, with the same title, attributes and children |
| Viewer.RenderIgnoresA11y | viewer.js:136-216 | Past the sanitised parameters, the `a11y` parameter changes neither the title, nor whether a viewer or which error appears, nor the viewer's attributes and children |
| Viewer.ConfigureIgnoresA11y | viewer.js:148-193 | The configured element's attributes and AR children are the same whatever the `a11y` parameter and its descriptor hold |
| Viewer.A11yOnlyReachesDescriptor | viewer.js:132 | Changing the `a11y` parameter changes only the `a11y` field of the sanitised parameters |
| Viewer.ElementIgnoresA11yParam | viewer.js:152-193 | The element's attributes and AR children do not depend on the `a11y` parameter |
| Builder.ValidateUrl | builder.js:8-26 | An empty URL is valid. An unparseable URL is invalid with "Invalid <kind> URL format". A parsed URL is valid exactly when the allowlist is empty or names its host, else invalid with "<kind> URL not allowed. Please use a URL from the whitelist.". Invalid results carry a non-empty message |
| Builder.EmptyAllowlistMostPermissive | builder.js:13-19 | A URL valid under any allowlist is valid under the shipped empty one. That one accepts exactly the empty URL and every URL that parses |
| Builder.ApplyFeedback | builder.js:29-45 | Both validity classes are cleared and other classes are kept. An empty field is neutral. A non-empty valid field gets `is-valid` only. A non-empty invalid field gets `is-invalid` only and, from a settled state, exactly one feedback message. Settledness is preserved |
| Builder.ApplyFeedbackOverwrites | builder.js:31-44 | From a settled state, a second application erases everything the first one showed |
| Builder.ApplyFeedbackIdempotent | builder.js:31-44 | From a settled state, applying the same feedback twice equals applying it once |
| Builder.ReplayShowsLast | builder.js:54-62 | After any non-empty sequence of validations of a settled field, the field shows exactly what the last validation alone would show, and it stays settled |
| Builder.Validate | builder.js:55-56 | A blur leaves the value and other classes unchanged. From a settled field, an empty value shows nothing. An accepted URL shows `is-valid` and no message. An unparseable one shows `is-invalid` and exactly the format message. One whose host is not allowed shows `is-invalid` and exactly the not-allowed message |
| Builder.ValidateAll | builder.js:65-78 | True if and only if both the model and the USDZ results are valid, which is exactly when neither input ends up marked `is-invalid`. Feedback is applied to both fields. Two empty fields pass |
| Builder.GenerateEmbedCode | builder.js:81-98 | It proceeds exactly when `validateAllUrls` is true. Otherwise it removes the first existing banner and prepends the "Please fix the URL validation errors…" banner, so a settled form then shows exactly that one banner. A passing check leaves the banners alone. Settledness is preserved |
| Builder.Step | builder.js:54-98 | A blur on one input leaves the other input and the banners unchanged. That input gets the new value and keeps its other classes. It is marked `is-invalid` exactly when its URL is invalid and `is-valid` exactly when it is non-empty and valid. From a settled input it shows exactly the validation message, or none when valid. A generate request keeps both values, shows `validateAllUrls` feedback on both inputs, and changes the banners only as the submit gate does. Settledness is preserved |
| Builder.RunStaysSettled | builder.js:29-98 | From a settled form, any sequence of blurs and generate requests leaves at most one feedback element per input and at most one banner |
| Builder.ReachableIsSettled | builder.js:29-98 | Every form reachable from the freshly loaded page is settled |
| Builder.ValidateUrlAsWritten | builder.js:1-26 | With the configuration present it is `validateUrl`. With it missing, every non-empty URL is reported as "Invalid <kind> URL format" |
| Builder.ValidateUrlDefaulted | builder.js:1-26 | With the configuration missing, a URL is valid exactly when it is empty or parses. Otherwise it agrees with the code as written |
| Builder.MissingConfigRejectsWellFormedUrl | builder.js:2-5 | With the configuration missing, every non-empty URL that parses is rejected as written ("Invalid <kind> URL format") and accepted by the intended fallback |

## Findings

| source | as written | input that shows it | evidently intended | confidence | as-written member | corrected member |
|---|---|---|---|---|---|---|
| builder.js:2-5 | The fallback declares `const config` inside the `if` block, so it is gone when `validateUrl` reads `config.allowedDomains`. The resulting ReferenceError is caught at builder.js:20, which reports a format error | config.js not loaded, URL `https://example.com/model.glb`: the result is "Invalid model URL format" | Fall back to the empty allowlist and accept every URL that parses, as the warning "Loading default configuration..." says | not executed | Builder.ValidateUrlAsWritten | Builder.ValidateUrlDefaulted |

The rest of the builder model takes the allowlist as a loaded value. That is
the `Some` case, where the two definitions agree.

## Left out

- `resize.js`: it only posts `lti.frameResize` messages and wires up event listeners. It has no decision logic.
- Script loading and feature detection (`isModelViewerSupported`, `loadModelViewer`, the `DOMContentLoaded` wiring; viewer.js:5-10, 31-52): these are network and browser concerns. The model starts once the component is available.
- `showLoading` and `showError` DOM mutation (viewer.js:13-28), the clearing of the container (viewer.js:201-203) and the element's `error` listener (viewer.js:196-198). A fatal error is modelled as the `Error` content. The model does not show that the error is appended beside the loading div.
- WHATWG URL parsing, `parseFloat`, `decodeURIComponent` and `JSON.parse`: these are external, so they are oracles. For example, the model does not know that `parseFloat("")` is NaN.
- IEEE-754 (NaN as a value, ±Infinity, -0) and JavaScript number formatting in the `%` and `deg` attribute values. Numbers are `real`, and derived attribute values are kept abstract (`Orbit`, `Degrees`, `Decimal`).
- `URLSearchParams` with a repeated key (`get` returns the first value): a map holds one value per key.
- The unused `description` parameter and the unused defaults `minFieldOfView`, `maxFieldOfView`, `orbitSensitivity` and `autoRotate` (viewer.js:61-63, 65, 81): they influence nothing.
- The `innerHTML` parsing of the AR prompt (viewer.js:190): the prompt is modelled by its text.
- `config.js` as a file: the allowlist is a parameter. `ShippedAllowlist` is its shipped, empty value.
- The no-op `removeEventListener` calls (builder.js:50-51), and the part of `generateEmbedCode` after the gate, which is not in the source.
- The builder page markup is not part of this model. Each URL input is assumed to sit in its own parent element. If they shared one, `querySelector` could remove the other input's feedback. The page is also assumed to load with no `.invalid-feedback` and no `.error-message` elements and no validity classes (`InitialForm`), which `ReachableIsSettled` starts from.
- Builder.ApplyFeedback: states the exact feedback messages only from a settled state (at most one feedback element). From an unsettled state the code removes only the first element, and the model's definition follows the code.
