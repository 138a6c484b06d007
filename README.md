# Accessibility contrast calculator: colour normalisation, slot state and contrast arithmetic

This project models two parts of the `accessibility-contrast-calculator` web component in Dafny and proves properties about them.

1. **`ColorUtils`** (`src/ColorUtils.js`). `luminance` decodes a `#rrggbb` string into three bytes and scales each to [0, 1]. It then applies the sRGB transfer function and takes the weighted sum `0.2126 R + 0.7152 G + 0.0722 B`. `contrastRatio` returns `(lighter + 0.05) / (darker + 0.05)` rounded with `toFixed(2)`. Both follow the "relative luminance" and "contrast ratio" definitions of WCAG 2.1.
2. **The element's colour state** (`src/AccessibilityContrastCalculator.js`). `#normalizeHex` turns any string, or `null`, into a canonical `#rrggbb`. The element holds two slots, background and foreground. Each slot is a colour picker plus a hex text field that mirrors it. `connectedCallback`, `attributeChangedCallback`, `swap`, `#validateHex` and the pickers' `input` handlers update those slots in place.

Files and modules:

- `Wrappers.dfy`: `Option`. `None` stands for JavaScript `null`.
- `JsStrings.dfy`: `String.prototype.trim` and `toLowerCase`, written out on sequences of characters. The white-space set is ECMAScript's WhiteSpace and LineTerminator code points.
- `Hex.dfy`: hex digits, their values, and the canonical colour pattern `/^#[a-f0-9]{6}$/`.
- `ColorUtils.dfy`: decoding, linearisation, luminance, the ratio, and `toFixed(2)` over exact reals.
- `ContrastCalculator.dfy`: `NormalizeHex`, the colour-input sanitisation, and the class `Calculator` with its state methods.

All numbers are Dafny `real`s. `Math.pow((v + 0.055) / 1.055, 2.4)` cannot be computed in Dafny, so every function that needs it takes it as a parameter, `powBranch: real -> real`. Facts that depend on its range say so with `PowBranchInUnit(powBranch)`: it maps (0.03928, 1] into [0, 1], as the real `pow` does. The lemma about black on white also assumes `powBranch(1.0) == 1.0`, since `1 ^ 2.4 = 1`.

Headline results:

- `#normalizeHex` always returns `#` plus six lower-case hex digits. A canonical colour is a fixed point, and normalising is idempotent. Surrounding white space and letter case do not change the result. Three hex digits are doubled, six are lower-cased, and everything else becomes `#000000`.
- The `is-invalid` branch of `#validateHex` can never run. `Calculator.ValidateHex` proves this with `assert false` in that branch. `Valid()` therefore says that neither text field is ever marked invalid.
- Decoding a colour and encoding the bytes again is a bijection between canonical colours and 24-bit triples. Each channel lies in [0, 1], and the luminance lies in [0, 1].
- The ratio is symmetric and lies in [1, 21]. It equals 1 exactly when the luminances are equal, and 21 exactly when they are 1 and 0. The rounded ratio is a whole number of hundredths, within 0.005 of the exact ratio, and also lies in [1, 21].

Behaviour of the code that the model keeps:

- `#normalizeHex` never reports an error: anything it cannot read becomes `#000000`.
- `contrastRatio` returns the rounded value. `ContrastRatio` rounds in the same way, and `UnroundedRatio` is the value before rounding.
- The initial `bg`/`fg` values reach the pickers through the colour input's own sanitisation, not through `#normalizeHex`. So, under the colour input's valid-simple-colour sanitisation, a shorthand such as `bg="#fff"` leaves the background picker at `#000000` while its text field shows `#fff`. The same value set later through the attribute gives `#ffffff` (`ShorthandSanitizedToBlack`, `ShorthandOnConnectAndChange`).
- `luminance` removes the first `#` wherever it occurs, via `replace('#', '')`. It does not check for a leading `#`. `StripFirstHash` models exactly that.

## Model

| member | source | states |
|---|---|---|
| `ColorUtils.StripFirstHash` | src/ColorUtils.js:12 | `replace('#', '')` returns the input unchanged when it has no `#`; otherwise it removes exactly the first `#` and keeps the other characters in order |
| `ColorUtils.TwoCharChunks` | src/ColorUtils.js:12 | `match(/.{2}/g)` returns `|s|/2` pieces, and piece `i` is characters `2i` and `2i+1` |
| `ColorUtils.ParseHexPair` | src/ColorUtils.js:12 | `parseInt` in base 16 of a two-digit piece is a byte below 256 |
| `ColorUtils.RgbBytes` | src/ColorUtils.js:12 | when six hex digits remain after removing the `#`, they split into exactly three bytes, each in [0, 255] |
| `ColorUtils.ColorOf` | src/ColorUtils.js:12 | encoding three bytes gives a canonical `#rrggbb` (the inverse used in the round-trip lemmas) |
| `ColorUtils.CanonicalIsLuminanceInput` | src/ColorUtils.js:8-12 | a canonical colour has its only `#` first, so `luminance` accepts it |
| `ColorUtils.RgbBytesOfColorOf` | src/ColorUtils.js:12 | decoding the string of bytes `(r, g, b)` gives back `[r, g, b]` |
| `ColorUtils.ColorOfRgbBytes` | src/ColorUtils.js:12 | encoding the bytes decoded from a canonical colour gives back that colour |
| `ColorUtils.Channels` | src/ColorUtils.js:12 | each channel `byte / 255` lies in [0, 1] |
| `ColorUtils.Linearize` | src/ColorUtils.js:13-15 | below the 0.03928 threshold the result `v / 12.92` lies between 0 and `v`; for `v` in [0, 1] the result is in [0, 1] whenever the pow branch maps into [0, 1] |
| `ColorUtils.WeightedSum` | src/ColorUtils.js:16 | the weights are positive and sum to 1: the sum lies between the smallest and largest channel, and equals the channel when all three are equal |
| `ColorUtils.Luminance` | src/ColorUtils.js:6-17 | the luminance lies in [0, 1] as the doc comment says, given the pow branch's range |
| `ColorUtils.UnroundedRatio` | src/ColorUtils.js:26-30 | `(max + 0.05) / (min + 0.05)` is at least 1, and equals 1 if and only if the two luminances are equal |
| `ColorUtils.QuotientAtLeastOne` | src/ColorUtils.js:28-30 | dividing by a positive `darker + 0.05` no larger than `lighter + 0.05` gives at least 1, and exactly 1 only when they are equal |
| `ColorUtils.QuotientAtMost` | src/ColorUtils.js:30 | dividing by a positive `darker + 0.05` gives at most `m` whenever `lighter + 0.05` is at most `m` times it |
| `ColorUtils.RatioSymmetric` | src/ColorUtils.js:28-29 | because of `Math.max` and `Math.min`, swapping the luminances does not change the ratio |
| `ColorUtils.RatioAtMost21` | src/ColorUtils.js:23-30 | for luminances in [0, 1] the ratio is at most 21, and equals 21 if and only if they are 1 and 0 (the documented range 1-21) |
| `ColorUtils.ToFixed2NonNeg` | src/ColorUtils.js:30 | `Number(x.toFixed(2))` for `x >= 0` is a whole number of hundredths in `(x - 0.005, x + 0.005]`, the nearest one with ties going up; from 10^21 on, `x` itself |
| `ColorUtils.ToFixed2` | src/ColorUtils.js:30 | the rounded value is a whole number of hundredths within 0.005 of `x`; a tie goes away from zero, so the result is in `(x - 0.005, x + 0.005]` for `x >= 0` and in `[x - 0.005, x + 0.005)` for negative `x` |
| `ColorUtils.ToFixed2InRange` | src/ColorUtils.js:23-30 | rounding a value in [1, 21] to hundredths stays in [1, 21] |
| `ColorUtils.ContrastRatio` | src/ColorUtils.js:19-31 | `contrastRatio` lies in [1, 21], is a whole number of hundredths, and is within 0.005 of the unrounded ratio of the two luminances |
| `ColorUtils.ContrastRatioSymmetric` | src/ColorUtils.js:25-30 | `contrastRatio(a, b) == contrastRatio(b, a)` |
| `ColorUtils.ContrastRatioOfEqualLuminance` | src/ColorUtils.js:28-30 | colours of equal luminance, a colour with itself in particular, have ratio exactly 1 |
| `ColorUtils.BlackWhiteRatio` | src/ColorUtils.js:23 | `contrastRatio("#000000", "#ffffff") == 21`, the top of the documented range |
| `Hex.DigitValue` | src/ColorUtils.js:12 | a base-16 digit of either case has a value below 16 |
| `Hex.LowerDigit` | src/ColorUtils.js:12 | the lower-case digit of a value below 16 is a digit of that value |
| `Hex.LowerDigitOfValue` | src/ColorUtils.js:12 | a lower-case digit is recovered from its value |
| `Hex.LowerCharOfDigit` | src/AccessibilityContrastCalculator.js:225 | `toLowerCase` on a hex digit gives a lower-case hex digit of the same value |
| `Hex.LowerStringOfCanonical` | src/AccessibilityContrastCalculator.js:225 | `toLowerCase` leaves a canonical colour unchanged |
| `JsStrings.LeadingSpace` | src/AccessibilityContrastCalculator.js:222 | counts the white space at the start: everything before the count is white space, and the character at the count is not |
| `JsStrings.TrailingSpace` | src/AccessibilityContrastCalculator.js:222 | counts the white space at the end, in the same sense |
| `JsStrings.Trim` | src/AccessibilityContrastCalculator.js:222 | `trim` returns nothing longer than its input, and neither end of the result is white space |
| `JsStrings.TrimIsTrimOf` | src/AccessibilityContrastCalculator.js:222 | `trim` cuts a slice of the input whose surroundings are all white space and whose ends are not |
| `JsStrings.TrimOfUnique` | src/AccessibilityContrastCalculator.js:222 | at most one string is the trim of a given string |
| `JsStrings.TrimIgnoresPadding` | src/AccessibilityContrastCalculator.js:222 | adding white space at either end does not change the result of `trim` |
| `JsStrings.TrimIgnoresCase` | src/AccessibilityContrastCalculator.js:222 | trimming two strings that differ only in letter case gives two results that differ only in letter case |
| `JsStrings.TrimAtIgnoresCase` | src/AccessibilityContrastCalculator.js:222 | making the same cut in a string that differs only in letter case gives that string's trim, which differs from the first only in case |
| `JsStrings.LowerString` | src/AccessibilityContrastCalculator.js:225 | `toLowerCase` maps each ASCII letter to lower case and keeps the length |
| `JsStrings.SpaceIgnoresCase` | src/AccessibilityContrastCalculator.js:222 | two characters that are equal up to case are both white space or both not |
| `ContrastCalculator.NormalizeHex` | src/AccessibilityContrastCalculator.js:221-226 | total on every input, `null` and empty included; the result always matches `/^#[a-f0-9]{6}$/` |
| `ContrastCalculator.WithHash` | src/AccessibilityContrastCalculator.js:223 | the result starts with `#` and is the input, or the input with `#` in front |
| `ContrastCalculator.Canonicalize` | src/AccessibilityContrastCalculator.js:224-225 | after the `#` is in place, the result is always canonical |
| `ContrastCalculator.ExpandShortForm` | src/AccessibilityContrastCalculator.js:224 | a string matching the three-digit pattern becomes one matching the six-digit pattern |
| `ContrastCalculator.LowerLongFormIsCanonical` | src/AccessibilityContrastCalculator.js:225 | lower-casing a string that matches `/^#[A-Fa-f0-9]{6}$/` gives a canonical colour |
| `ContrastCalculator.LowerStringWithHash` | src/AccessibilityContrastCalculator.js:225 | `toLowerCase` keeps a leading `#` |
| `ContrastCalculator.CanonicalizeLong` | src/AccessibilityContrastCalculator.js:225 | `#` plus six hex digits becomes `#` plus the digits lower-cased |
| `ContrastCalculator.CanonicalizeShort` | src/AccessibilityContrastCalculator.js:224-225 | `#` plus three hex digits becomes each digit twice, lower-cased |
| `ContrastCalculator.CanonicalizeOther` | src/AccessibilityContrastCalculator.js:225 | `#` followed by anything other than three or six hex digits becomes `#000000` |
| `ContrastCalculator.CanonicalizeCases` | src/AccessibilityContrastCalculator.js:224-225 | the three cases above, together |
| `ContrastCalculator.NormalizeByDigits` | src/AccessibilityContrastCalculator.js:222-223 | the result depends only on the trimmed digits without the leading `#` |
| `ContrastCalculator.NormalizeLongForm` | src/AccessibilityContrastCalculator.js:221-225 | six hex digits of either case, with or without `#`, become `#` plus the digits lower-cased |
| `ContrastCalculator.NormalizeShortForm` | src/AccessibilityContrastCalculator.js:223-225 | a three-digit shorthand of either case, with or without `#`, expands each digit twice, lower-cased |
| `ContrastCalculator.NormalizeFallback` | src/AccessibilityContrastCalculator.js:222-225 | an input that is not three or six hex digits after trimming and an optional `#` becomes `#000000` |
| `ContrastCalculator.NormalizeCanonical` | src/AccessibilityContrastCalculator.js:221-226 | a canonical lower-case `#rrggbb` is returned unchanged |
| `ContrastCalculator.NormalizeIdempotent` | src/AccessibilityContrastCalculator.js:221-226 | normalising a normalised value changes nothing |
| `ContrastCalculator.NormalizeIgnoresPadding` | src/AccessibilityContrastCalculator.js:222 | leading and trailing white space do not affect the result |
| `ContrastCalculator.HexIgnoresCase` | src/AccessibilityContrastCalculator.js:224-225 | characters equal up to case are both hex digits or both not, and both `#` or both not |
| `ContrastCalculator.CanonicalizeIgnoresCase` | src/AccessibilityContrastCalculator.js:224-225 | digit strings that differ only in letter case canonicalise to the same colour |
| `ContrastCalculator.NormalizeIgnoresCase` | src/AccessibilityContrastCalculator.js:222-225 | inputs that differ only in letter case normalise to the same colour |
| `ContrastCalculator.NormalizeFeedsLuminance` | src/AccessibilityContrastCalculator.js:221-226 | every normalised colour satisfies `luminance`'s need for six hex digits after the `#` |
| `ContrastCalculator.TrimUnpadded` | src/AccessibilityContrastCalculator.js:222 | a string with no white space at either end trims to itself |
| `ContrastCalculator.DigitsOfUnpadded` | src/AccessibilityContrastCalculator.js:222-223 | for such a string, the digits are the string without its leading `#`, if it has one |
| `ContrastCalculator.ExampleNull` | src/AccessibilityContrastCalculator.js:222 | `null` normalises to `#000000` |
| `ContrastCalculator.ExampleEmpty` | src/AccessibilityContrastCalculator.js:225 | `""` normalises to `#000000` |
| `ContrastCalculator.ExampleNonHex` | src/AccessibilityContrastCalculator.js:225 | `zzzzzz` normalises to `#000000` |
| `ContrastCalculator.ExampleTwoDigits` | src/AccessibilityContrastCalculator.js:225 | `#12` normalises to `#000000` |
| `ContrastCalculator.ExampleShorthand` | src/AccessibilityContrastCalculator.js:223-225 | `abc` normalises to `#aabbcc` |
| `ContrastCalculator.ExampleHashShorthand` | src/AccessibilityContrastCalculator.js:224-225 | `#fff` normalises to `#ffffff` |
| `ContrastCalculator.ExampleCanonical` | src/AccessibilityContrastCalculator.js:225 | `#ffffff` normalises to `#ffffff` |
| `ContrastCalculator.ExampleUpper` | src/AccessibilityContrastCalculator.js:224-225 | `#ABC` normalises to `#aabbcc` |
| `ContrastCalculator.ExamplePadded` | src/AccessibilityContrastCalculator.js:222-225 | `" #ABC\n"` normalises to `#aabbcc` |
| `ContrastCalculator.SanitizeColor` | src/AccessibilityContrastCalculator.js:70 | the colour input always holds a canonical colour, keeps one it is given, treats a six-digit `#RRGGBB` as `#normalizeHex` does, and turns anything else into `#000000` |
| `ContrastCalculator.ShorthandSanitizedToBlack` | src/AccessibilityContrastCalculator.js:70 | a three-digit shorthand becomes black in the colour input, while `#normalizeHex` doubles its digits |
| `ContrastCalculator.ShorthandWhite` | src/AccessibilityContrastCalculator.js:70 | `#fff` becomes `#000000` in the colour input and `#ffffff` through `#normalizeHex` |
| `ContrastCalculator.InitialSlots` | src/AccessibilityContrastCalculator.js:56-57 | after the first connection the text fields hold the attributes (for values without `"`, `&` or line breaks), or `#ca8b8a`/`#010000` when absent or empty, and the pickers hold their sanitised, canonical form |
| `ContrastCalculator.NormalizeLongFormOfPattern` | src/AccessibilityContrastCalculator.js:225 | a string matching `/^#[A-Fa-f0-9]{6}$/` normalises to its lower-case form |
| `ContrastCalculator.SwapTwice` | src/AccessibilityContrastCalculator.js:212-219 | after `swap` each text field shows its picker; swapping twice restores both pickers, and restores the whole state exactly when the text fields were showing their pickers |
| `ContrastCalculator.Calculator.constructor` | src/AccessibilityContrastCalculator.js:10-12 | a new element is not initialised, and nothing is marked invalid |
| `ContrastCalculator.Calculator.ConnectedCallback` | src/AccessibilityContrastCalculator.js:52-57 | on the first connection only: pickers get the sanitised `bg`/`fg` attributes or the defaults `#ca8b8a`/`#010000`, and text fields get the raw values (as the browser shows them for values without `"`, `&` or line breaks); the invariant holds afterwards |
| `ContrastCalculator.Calculator.AttributeChangedCallback` | src/AccessibilityContrastCalculator.js:180-193 | no change when not initialised, when `oldVal === newVal`, or for another attribute; otherwise only the named slot's picker and text field are set, both to the normalised value, and the other slot is unchanged |
| `ContrastCalculator.Calculator.Swap` | src/AccessibilityContrastCalculator.js:212-219 | the pickers exchange their values and each text field is set to its new picker value; pickers stay canonical |
| `ContrastCalculator.Calculator.ValidateHex` | src/AccessibilityContrastCalculator.js:228-237 | always takes the success branch: the slot's picker becomes the normalised text, the text is left as typed, nothing else changes, and no field is marked invalid |
| `ContrastCalculator.Calculator.PickerInput` | src/AccessibilityContrastCalculator.js:156-163 | a picker `input` event copies the picker's sanitised value into its text field and leaves the other slot unchanged |
| `ContrastCalculator.ShorthandOnConnectAndChange` | src/AccessibilityContrastCalculator.js:180-185 | connecting with `bg="#fff"` leaves the background picker black and its text `#fff`; changing the attribute to `#fff` afterwards sets both to `#ffffff` |
| `ContrastCalculator.SwapTwiceRestores` | src/AccessibilityContrastCalculator.js:212-219 | on an element whose text fields show their pickers, two swaps leave the element's state as it was |

## Left out

- Rendering, event wiring, `#update`, `#setBadge`, the `change` event and `customElements.define` are left out (src/AccessibilityContrastCalculator.js:59-178, :239-285). They are DOM work with no state beyond the slots.
- `I18n` strings and `toLocaleString` formatting are left out. They are a foreign library and presentation.
- `ColorUtils.calculateContrastRatio`, `getContrastStatus` and `isWcagCompliant` are called at src/AccessibilityContrastCalculator.js:259-275 but are not defined in src/ColorUtils.js. Their thresholds are not modelled.
- The getters and setters `backgroundColor` and `foregroundColor` (src/AccessibilityContrastCalculator.js:196-210) are left out. The getters return the picker value (`bgPicker`/`fgPicker` in the model) when the picker exists, and otherwise the attribute or the default. The setters write the normalised value to the attribute, and the browser then runs the `attributeChangedCallback` modelled here.
- `Math.pow(..., 2.4)` is a parameter, not a computation. The fixture `contrastRatio("#010000", "#ca8b8a") == 7.56` in test/TestColorUtils.js therefore cannot be checked.
- IEEE doubles are not modelled. All arithmetic is exact. `Number(...)` parsing the `toFixed` string back into a double is treated as exact.
- `ColorUtils.Luminance`: its [0, 1] bound is proved only under `PowBranchInUnit(powBranch)`, because the real `pow` is not available to prove it.
- `ColorUtils.Linearize`: its [0, 1] bound above the threshold rests on the same assumption about the pow branch.
- `ColorUtils.BlackWhiteRatio` also assumes `powBranch(1.0) == 1.0`, that is `1 ^ 2.4 == 1`.
- `ColorUtils.RgbBytes`: `luminance` on input that is not six hex digits after the first `#` is excluded by a precondition. The source does not reject such input. `match` returning `null` throws a TypeError. A piece that `parseInt` cannot read gives `NaN`. `parseInt` also accepts a leading sign and stops at the first non-hex character, so `#-1-1-1` gives a slightly negative luminance and `#1g2h3i` gives the luminance of `#010203`. An odd trailing character is dropped, and extra pieces after the third are ignored.
- `ColorUtils.TwoCharChunks` models `.` as any character. The regex `.` does not match line terminators, which cannot occur under the six-hex-digit precondition.
- `ContrastCalculator.NormalizeHex` takes `null` or a string. Other JavaScript values, such as numbers, are not modelled.
- Strings are sequences of Unicode scalar values, not UTF-16 code units. This makes no difference for the hex patterns.
- The picker's value sanitisation comes from the HTML standard's colour input, not from this repository. It is modelled only where a raw value enters a picker: the initial attribute value and a picker `input` event.
- `ContrastCalculator.Calculator.ConnectedCallback`: `connectedCallback` pastes the raw attribute value unescaped into the `innerHTML` markup as `value="${initBg}"` and `value="${initFg}"` (src/AccessibilityContrastCalculator.js:70-71, :83-84). The model does not parse that markup. In the source:
  - a `"` in the value ends it, and the rest is parsed as markup, so an attribute can inject elements;
  - character references are decoded, so `bg="&#35;abcdef"` leaves both the picker and the text field at `#abcdef`;
  - the text input removes line breaks.
- `ContrastCalculator.InitialSlots` matches the source only for attribute values that contain no `"`, no `&` and no line breaks. For other values it gives the raw value as the text field and its sanitisation as the picker, which is not what the browser shows.
- `ContrastCalculator.Calculator.Swap` requires the element to be connected. `swap()` is public, but before the first `connectedCallback` it reads `this.$bgPicker.value` on an undefined field (src/AccessibilityContrastCalculator.js:213) and throws a TypeError. The model does not represent that exception.
- `ContrastCalculator.Calculator.ValidateHex` and `ContrastCalculator.Calculator.PickerInput` also require a connected element. Their event listeners are only attached inside `connectedCallback`, so they cannot run earlier.
