# Myths / Mythblitz front-end logic in Dafny

This project models the three pieces of logic behind the DOM and canvas calls of
the Myths site and the Mythblitz card maker, and proves properties of them:

- **The star field** behind the hero header (`Myths/Assets/dyn/starfield.js`),
  modelled in `starfield.dfy`, module `Starfield`. Each `Star` object holds its
  position, rest ("base") position, velocity, opacity with a blink direction, and
  rotation. Every animation frame `update` does four things: it steps a
  reflecting opacity oscillator, damps the velocity by 0.92, accumulates
  rotation, and pulls the star 4 % back toward its base. The field rebuilds all
  550 stars on every resize. A click seeds velocities in the stars within 400
  pixels. The shared `mouse` object tracks the pointer. `Star`, `Mouse` and
  `Field` are classes whose methods update fields in place. Each method is
  proved equal to a pure specification function: `Spawn` for `init`, `Step` for
  `update` and `Impulse` for a click. The lemmas are proved about those
  functions.
- **The card maker's decision logic** (`Mythblitz/Assets/cardmaker/script.js`),
  modelled in `cardmaker.dfy`, module `CardMaker`. It covers:
  - number clamping and signed formatting;
  - the rarity tables and the gem's show/hide choice;
  - the mana pips and the symbol selects;
  - type-based stat visibility and the texts `syncText` writes;
  - the art-drag state, the border choice and the export file name.
- **The layout glue** (`Myths/Assets/dyn/layout.js`), modelled in `layout.dfy`,
  module `Layout`. It covers the fragment base path and fragment URLs, the
  current-file derivation and active-link marking, and the mobile menu's hidden
  flag.

`common.dfy` holds `Option` (JavaScript's `null`/`undefined`) and `Distinct`.

Modelling choices:

- JavaScript doubles in the star field are idealised as `real`.
- Every `Math.random()` result is an input in [0, 1).
- The card maker's form numbers are whole numbers or NaN (`CardMaker.Number`).
- Strings are sequences of Unicode characters. JavaScript strings are UTF-16
  code units, and the export file name is the one place where the difference
  shows: there a character above U+FFFF counts, and is replaced, as two units.
- DOM elements that the code changes in place are small classes: a symbol
  select with its `isHidden` class, a navigation link with its `active` class,
  and the mobile menu with its `hidden` class.

The code is followed where it differs from how the star field is usually
described:

- **Opacity is not confined to [0.2, 0.9].** `update` adds the blink step
  before testing the bounds and flipping the direction. So the opacity can
  overshoot 0.9 or undershoot 0.2 by up to one `blinkSpeed`.
  - `OpacityOvershoots` shows a concrete overshoot past 0.9 and
    `OpacityUndershoots` one below 0.2.
  - `BlinkInv` is the exact invariant: while climbing, the opacity lies in
    [0.2 − s, 0.9]; while falling, in [0.2, 0.9 + s].
- **A click exactly on a star is not skipped.** At distance 0 the click
  handler computes 0/0 and writes NaN into that star's velocity. The model
  applies whatever impulse the host computes there.

## Model

| member | source | states |
|---|---|---|
| Starfield.Spawn | Myths/Assets/dyn/starfield.js:56-72 | `init` gives blinkDir 1, opacity in [0.3, 0.9) and blinkSpeed in [0.005, 0.015), so the blink invariant holds from the start |
| Starfield.SpawnRanges | Myths/Assets/dyn/starfield.js:56-72 | `init` gives x = baseX in [0, width) and y = baseY in [0, height) (0 on an empty canvas). It also gives zero velocity, size in [1, 5), density in [10, 40), a palette colour, shapeType in {0, 1, 2} (0 whenever the shape draw is ≤ 0.8), rotation in [0, 2π) and rotationSpeed in [−0.01, 0.01) |
| Starfield.BlinkStep | Myths/Assets/dyn/starfield.js:75-76 | Opacity moves by exactly blinkSpeed·blinkDir. The direction flips iff the new opacity is outside [0.2, 0.9], and stays ±1. The blink invariant is preserved |
| Starfield.Damp | Myths/Assets/dyn/starfield.js:80-81 | A nonzero velocity component strictly shrinks in magnitude and keeps its sign; zero stays zero |
| Starfield.Pull | Myths/Assets/dyn/starfield.js:96-97 | The gap to the base position becomes 0.96 times the previous gap |
| Starfield.Repelled | Myths/Assets/dyn/starfield.js:84-94 | The position moves by the repulsion only when the pointer is present and strictly within radius 200; otherwise it is unchanged |
| Starfield.StepFacts | Myths/Assets/dyn/starfield.js:74-98 | `update` never changes baseX, baseY, size, density, colorBase, shapeType, blinkSpeed or rotationSpeed, and it adds exactly rotationSpeed to rotation. It damps both velocity components. With no pointer in range: x' − baseX = 0.96·(x + vx − baseX), likewise for y. In range, the repulsion is subtracted before the pull. The blink invariant is preserved |
| Starfield.BlinkForever | Myths/Assets/dyn/starfield.js:74-76 | The blink invariant and blinkSpeed survive any sequence of frames, whatever the pointer does |
| Starfield.OpacityBounded | Myths/Assets/dyn/starfield.js:65-76 | From `init`, after any number of `update` calls, opacity lies in [0.2 − s, 0.9 + s] for the star's own blinkSpeed s, and blinkDir is 1 or −1 |
| Starfield.OpacityOvershoots | Myths/Assets/dyn/starfield.js:65-76 | A freshly initialised star can exceed 0.9 on its first frame (step before flip) |
| Starfield.OpacityUndershoots | Myths/Assets/dyn/starfield.js:74-76 | A falling star that satisfies the invariant can drop below 0.2 |
| Starfield.Relaxation | Myths/Assets/dyn/starfield.js:78-97 | With zero velocity and no pointer, after n frames the gap to the base position is 0.96ⁿ times the initial gap. The velocity stays zero and the base does not move |
| Starfield.PowShrinks | Myths/Assets/dyn/starfield.js:96-97 | The relaxation factor 0.96ⁿ is positive, at most 1, and strictly decreasing in n |
| Starfield.Impulse | Myths/Assets/dyn/starfield.js:39-48 | A click changes only vx and vy, never x or y. A star within 400 pixels (dx² + dy² < 400²) gets the impulse; any other star is unchanged |
| Starfield.Star.constructor | Myths/Assets/dyn/starfield.js:51-72 | `new Star()` runs `init`: its fields equal `Spawn` of the canvas size and draws, and the star satisfies the blink invariant |
| Starfield.Star.Update | Myths/Assets/dyn/starfield.js:74-98 | After the in-place field updates, the star's fields equal `Step` of its previous fields |
| Starfield.Mouse.constructor | Myths/Assets/dyn/starfield.js:9 | The pointer starts absent (x and y null), and the radius is the constant 200 |
| Starfield.Mouse.Position | Myths/Assets/dyn/starfield.js:84-86 | The pointer is present iff mouse.x is not null, and it is then (mouse.x, mouse.y) |
| Starfield.Mouse.Move | Myths/Assets/dyn/starfield.js:23-27 | `mousemove` sets the pointer to the event position relative to the header |
| Starfield.Mouse.Leave | Myths/Assets/dyn/starfield.js:29-32 | `mouseleave` sets x and y to null, so the pointer is absent |
| Starfield.Field.constructor | Myths/Assets/dyn/starfield.js:163-165 | Start-up gives 550 distinct, fresh, freshly initialised stars for the measured size, and the pointer is absent |
| Starfield.Field.InitStars | Myths/Assets/dyn/starfield.js:147-152 | `initStars` discards the old array and leaves exactly 550 distinct fresh stars. Star i is `Spawn` of the canvas size and the i-th draws |
| Starfield.Field.Resize | Myths/Assets/dyn/starfield.js:17-21 | `resize` records the new header size and rebuilds every star for it; the pointer is untouched |
| Starfield.Field.Advance | Myths/Assets/dyn/starfield.js:154-159 | One frame updates every star, in order, to `Step` of its old state under the current pointer. The field invariant, including every star's blink invariant, is kept |
| Starfield.Field.Click | Myths/Assets/dyn/starfield.js:34-49 | The click handler leaves every star at `Impulse` of its old state: positions are never written, and stars 400 pixels or more away keep their velocity |
| CardMaker.ClampNumber | Mythblitz/Assets/cardmaker/script.js:8-12 | NaN gives min. When min ≤ max, the result lies in [min, max]. An in-range input comes back unchanged, and inputs below or above the range give min or max |
| CardMaker.OrZero | Mythblitz/Assets/cardmaker/script.js:170-171 | `Number(x) \|\| 0` turns NaN into 0 and keeps every number |
| CardMaker.Digits | Mythblitz/Assets/cardmaker/script.js:273 | `String(n)` of the clamped mana n in [0, 99] (and of any whole n below 10^21, where `String` prints plain digits) is a non-empty digit string without a leading zero; it is one digit exactly when n < 10 |
| CardMaker.DigitsRoundTrip | Mythblitz/Assets/cardmaker/script.js:273 | Reading the digits of n back gives n |
| CardMaker.NumberText | Mythblitz/Assets/cardmaker/script.js:281-282 | `String(num)` gives "NaN" for NaN; for a number, it starts with '-' exactly when the number is negative |
| CardMaker.NumberTextRoundTrip | Mythblitz/Assets/cardmaker/script.js:281-282 | Reading the text of a number back gives the number |
| CardMaker.FormatSignedNumber | Mythblitz/Assets/cardmaker/script.js:14-18 | Gives "+0" for NaN, and '+' followed by the number for zero and positives. Negatives get the plain text with its '-'. The text always starts with a sign |
| CardMaker.FormatSignedRoundTrip | Mythblitz/Assets/cardmaker/script.js:14-18 | The signed text reads back as the number, with NaN read as 0 |
| CardMaker.Trim | Mythblitz/Assets/cardmaker/script.js:272-275 | `trim` gives the slice of the input after its leading white space, with only white space after it. The slice is empty or starts and ends with non-white characters, and it is empty iff the input is all white space |
| CardMaker.AsciiLowerChars | Mythblitz/Assets/cardmaker/script.js:96 | `toLowerCase` keeps the length and maps each ASCII capital to its small letter, leaving every other character unchanged |
| CardMaker.RarityToClass | Mythblitz/Assets/cardmaker/script.js:36-41 | 'Alt Art' maps to 'rarity-alt' and every other string to 'rarity-std' |
| CardMaker.GetRarityStyle | Mythblitz/Assets/cardmaker/script.js:43-53 | The shape is alt exactly for 'Alt Art'. 'Rare' and every rarity outside the six known ones get the same style |
| CardMaker.RenderRarity | Mythblitz/Assets/cardmaker/script.js:55-74 | The gradient stops are the style's colours. The diamond and its shine are 'block' iff the shape is not alt, and the alt gem and its shine iff it is; exactly one of the two is shown |
| CardMaker.SyncRarity | Mythblitz/Assets/cardmaker/script.js:284-298 | The gem's class is 'rarityGem rarity-alt' for 'Alt Art' and 'rarityGem rarity-std' otherwise. The art goes full-size exactly for 'Alt Art', which is exactly when the alt gem is shown and the diamond hidden |
| CardMaker.PipFor | Mythblitz/Assets/cardmaker/script.js:86-97 | A pip has class `manaSymbol manaRegion-<region>`, alt text `<region>` and source `img/<lowercase region>.png` |
| CardMaker.PipRegion | Mythblitz/Assets/cardmaker/script.js:82-86 | Pip i uses regions[i] if non-empty, else regions[0] if non-empty, else 'Arcane'; it is never empty |
| CardMaker.RenderManaSymbols | Mythblitz/Assets/cardmaker/script.js:76-104 | Emits exactly clampNumber(count, 0, 5) pips, and pip i is `PipFor` of its region |
| CardMaker.SelectRegion | Mythblitz/Assets/cardmaker/script.js:198 | A missing or empty select yields 'Arcane', any other its value; never empty |
| CardMaker.GetSymbolRegions | Mythblitz/Assets/cardmaker/script.js:197-199 | One region per select, in order, each `SelectRegion` of its select |
| CardMaker.WiredPipRegion | Mythblitz/Assets/cardmaker/script.js:290-291 | With the regions `syncText` passes in, pip i shows exactly the region of select i (the fallback is never reached) |
| CardMaker.SyncSymbolControls | Mythblitz/Assets/cardmaker/script.js:201-209 | Each present select i is hidden iff i ≥ clampNumber(count, 0, 5); values are untouched and missing selects are skipped |
| CardMaker.SyncTypeVisibility | Mythblitz/Assets/cardmaker/script.js:221-234 | Stats are shown iff the type is 'Unit' or 'Gear'; the card's class is 'card type-' plus the type |
| CardMaker.StatText | Mythblitz/Assets/cardmaker/script.js:278-282 | Stat numbers are signed (always starting with '+' or '-') only for 'Gear'; other types get `String` of the number |
| CardMaker.SyncText | Mythblitz/Assets/cardmaker/script.js:271-282 | Name, tags and description are trimmed. The mana text is the text of the mana clamped to [0, 99], and damage and health get the type's stat text |
| CardMaker.ManaText | Mythblitz/Assets/cardmaker/script.js:273 | The mana text is one or two digits and reads back as clampNumber(mana, 0, 99) |
| CardMaker.ArtDrag.constructor | Mythblitz/Assets/cardmaker/script.js:154-155 | Not dragging, all offsets 0 |
| CardMaker.ArtDrag.PointerDown | Mythblitz/Assets/cardmaker/script.js:164-173 | A non-primary button changes nothing. The primary button starts a drag from the pointer position and the current X/Y inputs, with NaN read as 0 |
| CardMaker.ArtDrag.PointerMove | Mythblitz/Assets/cardmaker/script.js:174-179 | Outside a drag nothing is written. During a drag the new X/Y values are the drag origin plus the pointer's displacement since `pointerdown` |
| CardMaker.ArtDrag.EndDrag | Mythblitz/Assets/cardmaker/script.js:180-182 | `pointerup`/`pointercancel` end the drag and keep the offsets |
| CardMaker.BorderState.constructor | Mythblitz/Assets/cardmaker/script.js:151 | No custom border at start, so every card type resolves to its type border |
| CardMaker.BorderState.Resolve | Mythblitz/Assets/cardmaker/script.js:237-268 | A truthy custom URL is shown and the remove button becomes 'inline-block'. Otherwise `img/<lowercase type>-border.png` is tried and the remove button is 'none' |
| CardMaker.BorderState.Upload | Mythblitz/Assets/cardmaker/script.js:308-314 | A chosen file's object URL becomes the custom border; no file changes nothing |
| CardMaker.BorderState.Clear | Mythblitz/Assets/cardmaker/script.js:316-320 | The custom URL becomes null, so every type resolves to its type border |
| CardMaker.ReplaceNonAlnum | Mythblitz/Assets/cardmaker/script.js:389 | The result has the input's JavaScript length (UTF-16 code units) and holds only [A-Za-z0-9_] |
| CardMaker.ReplaceConcat | Mythblitz/Assets/cardmaker/script.js:389 | The global replace distributes over concatenation |
| CardMaker.ReplaceBmp | Mythblitz/Assets/cardmaker/script.js:389 | Without characters above U+FFFF: same length, each character outside [A-Za-z0-9] becomes '_', the others are kept |
| CardMaker.ReplaceAstral | Mythblitz/Assets/cardmaker/script.js:389 | An emoji (U+1F600) becomes '__': the pattern has no `u` flag, so each half of the surrogate pair is replaced |
| CardMaker.SafeChar | Mythblitz/Assets/cardmaker/script.js:389 | A kept character is a letter lowered or a digit, and anything else is '_'; the result is always in [a-z0-9_] |
| CardMaker.ExportFileName | Mythblitz/Assets/cardmaker/script.js:388-389 | The export name has the JavaScript length (UTF-16 code units) of the trimmed name (or of 'card' when the name is empty), and only [a-z0-9_] occurs. Without characters above U+FFFF, character i is `SafeChar` of trimmed character i. A whitespace-only name gives "" |
| CardMaker.ExportAstral | Mythblitz/Assets/cardmaker/script.js:388-389 | A card named with one emoji (U+1F600) is exported as '__' |
| Layout.BasePath | Myths/Assets/dyn/layout.js:3 | '.' when `data-base` is absent or empty; otherwise the attribute with at most one trailing '/' removed (so 'a//' gives 'a/') |
| Layout.BuildPath | Myths/Assets/dyn/layout.js:5 | './dyn/<file>' without a base. A base ending in '/' is followed directly by 'dyn/<file>'; any other base is followed by '/dyn/<file>' |
| Layout.LastSegment | Myths/Assets/dyn/layout.js:23 | `split('/').pop()` contains no '/' and is no longer than the path |
| Layout.LastSegmentSuffix | Myths/Assets/dyn/layout.js:23 | `split('/').pop()` is the suffix of the path after its last '/' (the whole path when it has none) |
| Layout.CurrentFile | Myths/Assets/dyn/layout.js:23 | Never empty and free of '/'. It is 'index.html' when the path is empty or ends in '/', and the last segment otherwise |
| Layout.InactiveHrefs | Myths/Assets/dyn/layout.js:24-29 | A link without an href, with an empty href, or with an href ending in '/' is never marked active |
| Layout.SameFileIsActive | Myths/Assets/dyn/layout.js:23-29 | For every path, including the site root (where the current file is 'index.html'), an href naming the current file under any directory is marked active |
| Layout.LastSegmentAfterSlash | Myths/Assets/dyn/layout.js:26 | The last segment of dir + '/' + f is f for any f without '/' |
| Layout.MarkActiveLinks | Myths/Assets/dyn/layout.js:24-29 | Each link ends active iff it was active before or its href's last segment equals the current file; the loop never removes the class. A link listed twice gets the same answer |
| Layout.MenuAfterClick | Myths/Assets/dyn/layout.js:13-20 | A button click flips the hidden flag, and any other click leaves the menu hidden |
| Layout.MenuClicks | Myths/Assets/dyn/layout.js:13-20 | Closing twice equals closing once; two button clicks restore the flag |
| Layout.MobileMenu.ButtonClick | Myths/Assets/dyn/layout.js:13-16 | Stops propagation and toggles 'hidden' |
| Layout.MobileMenu.DocumentClick | Myths/Assets/dyn/layout.js:18-20 | Leaves the menu hidden |
| Layout.MobileMenu.Click | Myths/Assets/dyn/layout.js:12-20 | A click on the button only toggles (propagation stopped); any other click hides. The new flag is `MenuAfterClick` of the old one |

## Left out

- Canvas drawing is not modelled: `Star.draw`, `clearRect`, glow shadows and pointer tether lines. These are drawing side effects with no stated result.
- The `requestAnimationFrame` scheduling in `animate` is not modelled. `Field.Advance` is the update half of one frame.
- Starfield.Step: the repulsion displacement is an input, not computed. It needs `Math.sqrt`, the density and the radius, and it is NaN at distance 0. Only the squared-distance test that decides whether it applies is modelled.
- Starfield.Field.Click: each star's new velocity is an input, not computed. The source computes an outward vector of size (400 − d)/8 with `Math.sqrt`, and NaN at distance 0. Only the squared-radius test that selects the stars is modelled.
- Starfield.Field.Advance: the per-star repulsion inputs are supplied by the caller, as in `Starfield.Step`.
- Starfield.Relaxation: gives the exact geometric decay but no frame count for reaching a given distance, because that needs logarithms.
- IEEE double rounding is not modelled: the star field computes on exact reals.
- `Math.random` is not modelled. Its results are inputs in [0, 1).
- The start-up guards are not modelled: no canvas or header, or no menu button or menu. The model's objects exist by construction.
- `Number(value)` parsing of form strings is not modelled. Form numbers are given as whole numbers or NaN, and `CardMaker.Number` admits integers that no double holds (above 2^53 and not a multiple of the spacing there).
- CardMaker.NumberText: prints plain decimal digits for every whole number, while `String` switches to exponent form from magnitude 10^21 (`String(1e21)` is '1e+21') and prints the shortest round-trip digits of a double; the text agrees with `String` only below 10^21. The mana (clamped to [0, 99]) is always in that range; the damage and health stats are not bounded.
- CardMaker.FormatSignedNumber: for the same reason gives '+' and plain digits where the source gives '+1e+21' for 10^21 and above.
- Fractional values are not modelled: the art scale, the wheel zoom by ±0.05 with its clamp into [0.1, 5], `syncArtTransform`'s CSS properties, and `Math.round` of fractional drag positions. Drag coordinates are whole pixels.
- CardMaker.AsciiLowerChars: lowers ASCII letters only; JavaScript's `toLowerCase` also maps non-ASCII capitals.
- The asynchronous half of `resolveBorder` is not modelled: whether the type border image loads or fails. `BorderState.Resolve` gives the path that is tried.
- `setText`, `setLayerFromFile` and object-URL creation are not modelled; they are DOM plumbing.
- Export through `htmlToImage` and `jsPDF` is not modelled; these are foreign libraries. Only the file name is modelled.
- `loadFragment`'s `fetch` is not modelled; it is network I/O. Only the URL it fetches (`Layout.BuildPath`) is modelled.
- CardMaker.SyncSymbolControls requires the present selects to be distinct elements. Their distinct element ids guarantee that in the page.
