# Meme generator page: a Dafny model

script.js drives a single-page meme generator: the user picks an image, the
page draws it letterboxed on a canvas, writes a top and a bottom caption on it
and can read the captions aloud with a chosen voice and volume. This project
models the logic in that file that can be stated exactly:

- **Geometry** — `getDimmensions`, the aspect-fit rectangle in which the image
  is drawn: portrait images fill the canvas height, all others the canvas
  width, and the other axis is centred. Exact `real` arithmetic, all four
  sizes positive.
- **Volume** — the slider's `input` handler: the value 0 shows icon level 0,
  1..33 level 1, 34..66 level 2, 67..100 level 3, and any other value leaves
  the icon as it was.
- **Voices** — the Read handler's two loops: the one that appends one
  `option` per voice ("name (lang)", with " -- Default" for the default voice,
  and `data-lang`/`data-name` attributes), and the one that picks the voice
  whose name equals the selected option's `data-name`, the last one winning.
- **MemePage** — the page as a class whose fields are the three buttons'
  `disabled` flags, the two caption inputs, the one-shot `speaking` flag, the
  voice `select` (its `disabled` flag, options and selected index), the
  slider value, the page's `voiceVolume` copy and the icon level, with one
  method per event handler (image `load`, form `submit`, Clear `click`, Read
  `click`, slider `input`). Every handler that touches the buttons leaves
  Clear and Read disabled exactly when Generate is enabled.

Two methods of `MemePage.Page`, `EnterCaptions` and `Choose`, stand for what
the user does in the browser between events (typing the captions, picking an
option); they model no line of script.js. The `select` follows the browser's
rule for a single-choice menu: it has a selected option exactly when it has
options, and the first option appended to an empty menu becomes selected.

## Model

| member | source | states |
|---|---|---|
| Geometry.GetDimensions | script.js:177-204 | the rectangle keeps the image's aspect ratio (width * imageHeight == height * imageWidth), is centred on both axes (2*startX + width == canvasWidth, 2*startY + height == canvasHeight); a portrait image gets the full canvas height at startY 0, any other the full canvas width at startX 0 |
| Geometry.RatioBelowOne | script.js:181-184 | the source's test aspectRatio < 1 holds exactly when the image is narrower than tall |
| Geometry.FitsExactlyWhen | script.js:177-204 | the rectangle lies inside the canvas if and only if the canvas, relative to the image, is at least as wide (portrait) or as tall (otherwise) as the axis that was filled |
| Geometry.FitsSquareCanvas | script.js:166-168 | on a square canvas the drawn image always fits inside it, as the doc comment promises |
| Geometry.UniformScale | script.js:184-201 | the rectangle is the image scaled by one factor: canvasHeight/imageHeight for portrait images, canvasWidth/imageWidth otherwise |
| Geometry.LargestOnSquareCanvas | script.js:166-168 | on a square canvas no larger uniform scaling of the image fits: the image "fits perfectly" |
| Geometry.LandscapeExample | script.js:193-201 | a 200x100 image on a 400x400 canvas is drawn 400x200 at (0, 100) |
| Geometry.PortraitExample | script.js:184-191 | a 100x200 image on a 400x400 canvas is drawn 200x400 at (100, 0) |
| Geometry.OverflowOnTallCanvas | script.js:184-191 | on a 100 wide, 400 tall canvas a 100x200 image is drawn 200 wide at x = -50, outside the canvas |
| Volume.VolumeLevel | script.js:146-161 | a level exists exactly for values 0..100 and is at most 3; level 0 exactly for 0, level 3 exactly for 67..100 |
| Volume.LevelCountsThresholds | script.js:146-161 | within 0..100 the level is the number of the thresholds 1, 34, 67 that the value reaches |
| Volume.LevelMonotone | script.js:146-161 | a larger slider value never shows a lower level |
| Volume.IconAfter | script.js:142-162 | after an input event the icon shows the value's level, or is unchanged for a value outside 0..100 |
| Voices.OptionFor | script.js:108-116 | a voice's option carries its name and language as data-name and data-lang; its text begins "name (lang)" and is exactly that long, or longer by " -- Default" for the default voice |
| Voices.DefaultMarked | script.js:111-113 | an option's text ends with " -- Default" if and only if its voice is the default voice |
| Voices.BuildOptions | script.js:107-118 | the loop yields one option per voice, in the voices' order |
| Voices.LastMatchingSpec | script.js:129-133 | no voice is chosen exactly when no voice's name equals the selection; otherwise the chosen voice matches and no later voice does |
| Voices.SelectVoice | script.js:128-133 | the loop's result is the last voice whose name equals the selected data-name, if any |
| MemePage.Page.constructor | script.js:17-21 | the page starts with speaking true, the volume copy equal to the slider value, and the controls as the markup sets them |
| MemePage.Page.OnImageLoad | script.js:24-47 | Clear and Read become disabled and Generate enabled; the image is drawn in getDimmensions' rectangle; captions and everything else unchanged |
| MemePage.Page.OnSubmit | script.js:58-76 | Clear and Read become enabled and Generate disabled; nothing else changes |
| MemePage.Page.OnClear | script.js:79-95 | both captions become empty, Clear and Read disabled, Generate enabled |
| MemePage.Page.OnReadClick | script.js:98-138 | the menu is enabled; options are appended, one per voice in order, only when speaking was true, which is then false; the first appended option becomes selected in a menu that was empty, otherwise the selection is kept; the utterance is top + bottom caption with the last voice named by the selected option and volume slider/100, and there is none when the menu has no option |
| MemePage.Page.OnVolumeInput | script.js:142-162 | the slider value and its copy become the new value; the icon level follows Volume.IconAfter |
| MemePage.ReadTwice | script.js:106-121 | of two Read clicks only the first fills the menu, so each voice is listed once |

## Left out

- Canvas drawing (clearing, black fill, `drawImage`, caption text, fonts and styles): browser calls with no checkable result. `OnImageLoad` returns the rectangle it would draw instead.
- The file input's `change` handler (object URL, `src` and `alt` of the image): browser I/O that only triggers the image `load` event.
- Speech synthesis: `getVoices` becomes the `voices` parameter of `OnReadClick`, and `speak` with the utterance object becomes the returned `Utterance` value.
- DOM queries, listener registration and the icon files' paths: only the icon level is kept.
- Floating point: `getDimmensions` and the volume `value / 100` are exact real arithmetic, so IEEE-754 rounding is not modelled.
- Zero-sized images: `imageWidth / imageHeight` divides by zero, so every geometry member requires all four sizes to be positive.
- The slider value's string-to-number coercion: it is an integer here.
- The markup (index.html) is not part of this model: the buttons' initial `disabled` flags, the menu's initial options and the slider's initial value and icon are constructor parameters, and the constructor assumes the two caption inputs start empty and the voice menu starts disabled.
- MemePage.Page.OnClear: the browser's default action for the Clear button (a `type='reset'` button whose handler does not cancel the event) is not modelled. If the button belongs to the form, which the markup decides, the browser then resets the form after the handler. The voice menu's selection (`selectedIndex`) and the slider value (`sliderValue`) return to their defaults, and the file input is emptied. No `input` event fires, so `voiceVolume` and `iconLevel` keep their values. The model leaves `selectedIndex` and `sliderValue` as they were.
- Geometry.FitsSquareCanvas: the fit is proved for a square canvas only, since on other canvases it can fail (Geometry.OverflowOnTallCanvas); Geometry.FitsExactlyWhen states the exact condition.
