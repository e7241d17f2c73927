# GuiRenderer, modelled in Dafny

This project models the logic of MalisisCore's `GuiRenderer`, the class
that draws a GUI component tree for the game client. It covers the parts
of the renderer that compute something or keep state of their own:

- the GUI scale factor search (`calcScaleFactor`): at least 1, and
  otherwise the largest integer factor, up to the requested scale (or 1000
  on "auto"), that leaves at least 320 x 240 GUI units in the window; a
  window smaller than 320 x 240 or a negative request gets 1;
- the scissor rectangle of `startClipping`, with its vertical flip, and the
  balance of `startClipping` / `endClipping`, which share one guard;
- text clipping (`clipString`) and greedy word wrapping (`wrapText`), over
  an injected character-width function;
- `getMaxStringWidth`, a maximum over the injected string width;
- the per-face texture fan-out of `applyTexture`, with the icon kinds as a
  tagged variant instead of an `instanceof` test;
- the default-texture flag that `bindTexture`, `setDefaultTexture`, `next`,
  `drawString` and `drawItemStack` maintain.

Layout:

- `JavaInt.dfy`: Java `int` arithmetic (32-bit wrap-around, division truncated toward zero).
- `Scale.dfy`: the scale factor as a function, and its bounds and maximality.
- `Scissor.dfy`: clip areas, the shared skip guard, the scissor rectangle.
- `Text.dfy`: string width, the clip predicate, the wrapping loop as a step function, and their lemmas.
- `Renderer.dfy`: class `GuiRenderer` with its fields and methods; the loops of the source are `while` and `for` loops; those of `CalcScaleFactor`, `ClipString` and `WrapText` are proved against the functions of the other modules, those of `ApplyTexture` and `GetMaxStringWidth` carry their own invariants.

The graphics state the renderer changes is kept abstractly in the class:
the scissor test flag and box with the attribute stack that
`glPushAttrib(GL_SCISSOR_BIT)` / `glPopAttrib` save to and restore from
(popping an empty stack changes nothing, as the graphics library ignores
an underflowing pop, and a scissor box of negative width or height, which
only an overflowing product can give, is rejected and the old box kept), the sequence of textures the renderer itself binds
(the font and item backends bind their own, which are not recorded),
whether the quad batch is open and how often it was flushed, and the
strings and item stacks handed to the font and item backends. A new
renderer starts with the scissor test off and the box covering the
window: that is the graphics library's initial state, which the source
relies on without setting it.
The character width, the string width, the translation step and whether a
font renderer exists are given to the constructor; the window size and the
requested GUI scale are parameters of `UpdateGuiScale`. `GuiIcon.getIcon`
is a parameter of `ApplyTexture`.

Where the documentation and the code disagree, the model follows the
code. The Javadoc of `wrapText` says the returned lines stay within
`maxWidth`; the code finishes a line once its counter reaches `maxWidth`,
character included, so a line can be wider than `maxWidth`:
`Text.WrapHelloWorld` shows "hello world" at a limit of 11 with 2-pixel
characters giving a first line "hello " 12 pixels wide. What does hold is
that a text stays on one line exactly when no prefix of it reaches
`maxWidth` (`Text.WrapOneLine`). The code also carries the pending word's
width into the next line, and yields a trailing empty line when the last
character finishes a line; both are kept.

## Model

| member | source | states |
|---|---|---|
| `JavaInt.Div` | src/main/java/net/malisis/core/client/gui/GuiRenderer.java:523-524 | Java's int division by a positive divisor truncates toward zero: the floor for a non-negative dividend, the ceiling for a negative one |
| `JavaInt.Mul` | src/main/java/net/malisis/core/client/gui/GuiRenderer.java:491-494 | Java `*` on ints is the exact product whenever that fits in 32 bits |
| `JavaInt.ToInt32` | src/main/java/net/malisis/core/client/gui/GuiRenderer.java:490-494 | wrap-around leaves in-range values alone and differs from the exact value by a multiple of 2^32 |
| `JavaInt.Add` | src/main/java/net/malisis/core/client/gui/GuiRenderer.java:492 | Java `+` on ints is the exact sum whenever that fits in 32 bits |
| `JavaInt.Sub` | src/main/java/net/malisis/core/client/gui/GuiRenderer.java:492 | Java `-` on ints is the exact difference whenever that fits in 32 bits |
| `Scale.Cap` | src/main/java/net/malisis/core/client/gui/GuiRenderer.java:519-521 | a positive requested scale is its own cap, auto (0) is capped at exactly 1000, and only a negative request gives a cap below 1 |
| `Scale.Fits` | src/main/java/net/malisis/core/client/gui/GuiRenderer.java:523-524 | the loop test on a factor; a window that passes it for any positive factor is at least 320 x 240 pixels |
| `Scale.ScaleFrom` | src/main/java/net/malisis/core/client/gui/GuiRenderer.java:523-525 | the factor the loop ends with when it starts from f is never below f |
| `Scale.ScaleFactor` | src/main/java/net/malisis/core/client/gui/GuiRenderer.java:517-526 | the scale factor for a window and a requested scale is at least 1 |
| `Scale.FitsIff` | src/main/java/net/malisis/core/client/gui/GuiRenderer.java:523-524 | the loop's test on factor f, with truncating division, holds exactly when the window is at least 320f wide and 240f high |
| `Scale.FitsDownward` | src/main/java/net/malisis/core/client/gui/GuiRenderer.java:523-524 | if a factor passes the loop's test, every smaller positive factor does |
| `Scale.ScaleFromSpec` | src/main/java/net/malisis/core/client/gui/GuiRenderer.java:523-525 | the loop run from factor f stops within the cap, every factor it stepped to passes the test, and below the cap the next one fails |
| `Scale.ScaleFactorBounds` | src/main/java/net/malisis/core/client/gui/GuiRenderer.java:519-525 | the factor never exceeds a positive requested scale, is at most 1000 on auto (0), and is 1 for a requested scale of 1 or below zero |
| `Scale.ScaleFactorMaximal` | src/main/java/net/malisis/core/client/gui/GuiRenderer.java:523-525 | every factor from 2 up to the result leaves 320 x 240 units, and below the cap the result plus 1 does not |
| `Scale.ScaleFactorIsLargest` | src/main/java/net/malisis/core/client/gui/GuiRenderer.java:517-526 | no factor above the result and within the cap passes the test: the result is the largest that does |
| `Scale.FullHdAuto` | src/main/java/net/malisis/core/client/gui/GuiRenderer.java:517-526 | a 1920 x 1080 window on auto gets factor 4 |
| `Scissor.Skips` | src/main/java/net/malisis/core/client/gui/GuiRenderer.java:484 | the guard both clipping calls test: a no-clip area, or one whose width or height is not positive; its effect is stated by `StartClipping`, `EndClipping` and `Renderer.ClipBalanced` |
| `Scissor.PixelFactor` | src/main/java/net/malisis/core/client/gui/GuiRenderer.java:490 | the pixel factor of the clip box: a definition whose only contract of its own is that it is positive whenever the scale factor is; its use is stated by `StartClipping` and `ScissorRect` |
| `Scissor.ScissorRect` | src/main/java/net/malisis/core/client/gui/GuiRenderer.java:490-495 | without overflow the box is (x*f, displayHeight - (y+height)*f, width*f, height*f), its top edge lands at displayHeight - y*f, and a clipped area with f >= 1 gets a box of positive width and height |
| `Scissor.ScissorRectExample` | src/main/java/net/malisis/core/client/gui/GuiRenderer.java:490-495 | area (10, 20, 30, 40) in a 600-pixel-high window at factor 2 gives the box (20, 480, 60, 80) |
| `Text.IsBreak` | src/main/java/net/malisis/core/client/gui/GuiRenderer.java:316 | the break characters space, hyphen and period: a definition with no contract of its own, whose effect is stated by `Text.WrapShape` and `Text.RunShaped` |
| `Text.Feed` | src/main/java/net/malisis/core/client/gui/GuiRenderer.java:311-321 | reading a character never finishes a line and adds its width to the line counter |
| `Text.Emit` | src/main/java/net/malisis/core/client/gui/GuiRenderer.java:322-333 | below the limit nothing changes; at or past it exactly one line is finished, the new current line is empty and its counter holds only the width of the carried word |
| `Text.Step` | src/main/java/net/malisis/core/client/gui/GuiRenderer.java:311-334 | one iteration of the loop, reading a character and then finishing a line if the counter reached the limit: a definition with no contract of its own, whose effect is stated by `Text.Feed`, `Text.Emit` and `Text.RunInv` |
| `Text.Run` | src/main/java/net/malisis/core/client/gui/GuiRenderer.java:309-335 | the loop finishes at most one line per character read |
| `Text.Wrap` | src/main/java/net/malisis/core/client/gui/GuiRenderer.java:309-339 | the result has at least one line and at most one more than the text has characters |
| `Text.RunInv` | src/main/java/net/malisis/core/client/gui/GuiRenderer.java:309-335 | after the wrapping loop has read any text, its finished lines, current line and pending word are that text in order (nothing dropped, duplicated or moved), the line shapes hold, and the counters are the widths of line-plus-word and of the word |
| `Text.RunOneLine` | src/main/java/net/malisis/core/client/gui/GuiRenderer.java:309-335 | the loop finishes no line exactly when every non-empty prefix of the text read is narrower than maxWidth |
| `Text.WrapOneLine` | src/main/java/net/malisis/core/client/gui/GuiRenderer.java:309-339 | the text comes back as a single line exactly when every non-empty prefix of it is narrower than maxWidth |
| `Text.ClipUnique` | src/main/java/net/malisis/core/client/gui/GuiRenderer.java:275-290 | the clip predicate determines the clipped string uniquely |
| `Text.ClipAtExactWidth` | src/main/java/net/malisis/core/client/gui/GuiRenderer.java:282-286 | with positive character widths, clipping to exactly the width of the first k characters keeps k-1 of them |
| `Text.WrapConcat` | src/main/java/net/malisis/core/client/gui/GuiRenderer.java:309-339 | joining the wrapped lines in order gives back the text |
| `Text.WrapShape` | src/main/java/net/malisis/core/client/gui/GuiRenderer.java:316-332 | there is at least one line; every line but the last is non-empty and ends in a space, hyphen or period, or holds none of them |
| `Text.WrapEmpty` | src/main/java/net/malisis/core/client/gui/GuiRenderer.java:337-339 | the empty text wraps to one empty line |
| `Text.WrapHelloWorld` | src/main/java/net/malisis/core/client/gui/GuiRenderer.java:300-341 | with 2-pixel characters, "hello world" at limit 11 wraps to "hello " and "world", the first line 12 pixels wide |
| `Renderer.GuiRenderer.constructor` | src/main/java/net/malisis/core/client/gui/GuiRenderer.java:102-112 | a new renderer has the malisiscore gui.png default texture (300 x 100), the default flag set, nothing bound, and the scale factor of its window |
| `Renderer.GuiRenderer.SetIgnoreScale` | src/main/java/net/malisis/core/client/gui/GuiRenderer.java:128-131 | sets the ignore-scale flag |
| `Renderer.GuiRenderer.UpdateGuiScale` | src/main/java/net/malisis/core/client/gui/GuiRenderer.java:156-163 | stores the window size and returns the scale factor it computes for that size and the requested scale |
| `Renderer.GuiRenderer.CalcScaleFactor` | src/main/java/net/malisis/core/client/gui/GuiRenderer.java:517-526 | the loop leaves in the scale factor field exactly `Scale.ScaleFactor` of the window and the requested scale |
| `Renderer.GuiRenderer.StartClipping` | src/main/java/net/malisis/core/client/gui/GuiRenderer.java:482-496 | a skipped area changes nothing; otherwise the old scissor flag and box are pushed, the test is enabled, and the box becomes the area in window pixels unless overflow gave it a negative width or height, which the graphics library rejects, keeping the old box |
| `Renderer.GuiRenderer.EndClipping` | src/main/java/net/malisis/core/client/gui/GuiRenderer.java:503-510 | a skipped area changes nothing; otherwise the test is disabled and the pop restores the saved flag and box |
| `Renderer.ClipBalanced` | src/main/java/net/malisis/core/client/gui/GuiRenderer.java:482-510 | starting and ending the clipping of one area leaves the scissor flag, box and attribute stack as they were |
| `Renderer.ClipNested` | src/main/java/net/malisis/core/client/gui/GuiRenderer.java:482-510 | clipping an inner area while an outer one is clipped, then ending both innermost first, leaves the scissor flag, box and attribute stack as they were |
| `Renderer.GuiRenderer.ApplyTexture` | src/main/java/net/malisis/core/client/gui/GuiRenderer.java:253-264 | no icon: faces unchanged; a GuiIcon: face i gets its sub-icon i; any other icon: every face gets that icon; flags all false |
| `Renderer.GuiRenderer.ClipString` | src/main/java/net/malisis/core/client/gui/GuiRenderer.java:273-291 | the result is the prefix of the translated text whose every non-empty prefix is narrower than the width, stopping where the next character reaches it; a font renderer is needed unless the translated text is empty |
| `Renderer.GuiRenderer.WrapText` | src/main/java/net/malisis/core/client/gui/GuiRenderer.java:300-341 | the lines are those of the wrapping loop; they join back to the text, there is at least one, the shape holds, the text is one line exactly when no prefix of it reaches maxWidth, and empty text gives one empty line; a font renderer is needed unless the text is empty |
| `Renderer.GuiRenderer.GetStringWidth` | src/main/java/net/malisis/core/client/gui/GuiRenderer.java:551-566 | the width of the string after translation, as the font reports it (no contract of its own; see below for the rounding) |
| `Renderer.GuiRenderer.GetMaxStringWidth` | src/main/java/net/malisis/core/client/gui/GuiRenderer.java:595-601 | the result is at least 0 and every string's width, and is 0 or the width of one of them; a font renderer is needed unless there are no strings |
| `Renderer.GuiRenderer.BindTexture` | src/main/java/net/malisis/core/client/gui/GuiRenderer.java:630-637 | no texture changes nothing; a texture is bound and clears the default flag |
| `Renderer.GuiRenderer.SetDefaultTexture` | src/main/java/net/malisis/core/client/gui/GuiRenderer.java:642-646 | the default texture is bound and the flag is set |
| `Renderer.GuiRenderer.Next` | src/main/java/net/malisis/core/client/gui/GuiRenderer.java:648-654 | afterwards the flag is set; the default texture is bound only if the flag was clear |
| `Renderer.NextTwice` | src/main/java/net/malisis/core/client/gui/GuiRenderer.java:648-654 | a second `next` in a row binds nothing |
| `Renderer.BindTwoThenNext` | src/main/java/net/malisis/core/client/gui/GuiRenderer.java:630-654 | binding two textures and then `next` binds the default texture exactly once, at the end |
| `Renderer.GuiRenderer.DrawString` | src/main/java/net/malisis/core/client/gui/GuiRenderer.java:405-426 | without a font renderer nothing happens; otherwise the translated text is drawn and the default texture is rebound with the flag set |
| `Renderer.Overlay` | src/main/java/net/malisis/core/client/gui/GuiRenderer.java:458-460 | the overlay label of an item draw: a definition with no contract of its own, whose effect is stated by `DrawItemStack` |
| `Renderer.GuiRenderer.DrawItemStack` | src/main/java/net/malisis/core/client/gui/GuiRenderer.java:449-475 | no stack changes nothing; otherwise the batch is flushed, the stack is drawn with its overlay label, the default texture is rebound, and the batch is open again |

## Left out

- Matrix and fixed-function calls (`glPushMatrix`, `glScalef`, `glTranslatef`, rescale-normal, item lighting, `glColor4f`): graphics state outside what the model keeps.
- Font scale: `fontScale`, `setFontScale`, `getStringWidth(str, fontScale)`, `getStringHeight` and the scaling in `drawScreen` and `drawString` are floating point.
- `Renderer.GuiRenderer.GetStringWidth`: takes the font's integer width as it is; the source multiplies it by the float 1 and rounds, which is exact only up to 2^24.
- `getMaxStringWidth(String[])` converts the array to a list and calls the list version; `GetMaxStringWidth` on a sequence stands for both.
- `drawScreen`, `drawTooltip`, `drawShape`, `renderPickedItemStack` and the `drawText` overloads: they sequence calls into the component, the tooltip, shapes and the current component's position, which are not part of this model.
- The `drawItemStack(itemStack, x, y)` overload is `DrawItemStack` with no format; the item-specific font renderer choice and the texture manager handed to the item backend are not modelled.
- `set`, `getGuiTexture` and `isIgnoreScale` only store or return fields and are not modelled.
- `updateGuiScale` reads the window and settings from the game; here they are parameters.
- `Renderer.GuiRenderer.ClipString`: the width counter is unbounded; the source's `int` counter could wrap for a string wider than 2^31 pixels.
- `Renderer.GuiRenderer.WrapText`: the documented bound that no line exceeds `maxWidth` does not hold of the code (a line is finished once its counter reaches the limit, the character that reached it included, see `Text.WrapHelloWorld`), and no upper bound on a line's width is proved; the width facts proved are the single-line characterisation of `Text.WrapOneLine` and the counters of `Text.RunInv`.
- `Renderer.GuiRenderer.WrapText`: the line and word counters are unbounded; the source's `int` counters could wrap for a text wider than 2^31 pixels.
- `Renderer.GuiRenderer.ApplyTexture`: faces are modelled as texture slots in an array of values; two entries that are the same `Face` object, and what `Face.setTexture` does with the texture, are not modelled.
- `GuiIcon.getIcon`, `Face`, `ClipArea.width()` / `height()` and `BaseRenderer.next` are not part of this model: the sub-icon lookup is a parameter, a clip area carries its width and height, and the base class's `next` is taken to leave the modelled state alone.
- The attribute stack has no depth limit: the graphics library's overflow of a full stack is not modelled.
- The quad batch is a flag and a flush count; errors the tessellator raises when flushed while closed are not modelled.
- `Renderer.GuiRenderer.ClipString`, `Renderer.GuiRenderer.WrapText`, `Renderer.GuiRenderer.GetMaxStringWidth`: without a font renderer the source's character and string measurement dereferences a null reference and throws; the model does not represent that exception and instead requires a font renderer whenever these measure something (a non-empty translated text, a non-empty text, a non-empty list).
- `Text.Width`, `Renderer.GuiRenderer.ClipString`, `Renderer.GuiRenderer.WrapText`: Java strings are sequences of UTF-16 code units, so a character outside the Basic Multilingual Plane is two Java `char`s, measured one at a time, and both loops can cut between them; here text is a sequence of Unicode scalar values, which cannot hold a lone surrogate, so such a cut is not represented.
- The font backend's and the item backend's own texture binds (the font page in `drawString`, the item atlas in `drawItemStack`) are not recorded in `binds`; only the renderer's own binds are, which is why both rebind the default texture afterwards.
