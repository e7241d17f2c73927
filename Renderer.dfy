/**
 * `GuiRenderer`: the renderer that draws a GUI component tree. The model
 * keeps the state the renderer itself manages (window size, scale factor,
 * the default-texture flag) and, abstractly, the parts of the graphics
 * state it changes: the scissor test with its attribute stack, the
 * sequence of textures bound, the quad batch, and the text and item draws
 * it hands to the font and item backends.
 *
 * The font metrics and the localisation step are injected when the
 * renderer is built, in place of the game's global font renderer and
 * translation table.
 */
module Renderer {
  import opened JavaInt
  import opened Scale
  import opened Scissor
  import opened Text

  datatype Option<T> = None | Some(value: T)

  /** A texture resource: a domain and a path. */
  datatype ResourceLocation = ResourceLocation(domain: string, path: string)

  /** A bindable GUI texture with its logical size. */
  datatype GuiTexture = GuiTexture(location: ResourceLocation, width: int, height: int)

  /**
   * An icon, tagged by kind: a `GuiIcon` hands each face of a shape its own
   * sub-icon; any other icon is used as it is.
   */
  datatype Icon = PlainIcon(name: string) | GuiIcon(name: string)

  /** A face's texture slot, as `Face.setTexture` receives it. */
  datatype Face = Face(icon: Option<Icon>, flippedU: bool, flippedV: bool, interpolate: bool)

  /** The part of the render parameters this renderer reads: the icon, if any. */
  datatype RenderParameters = RenderParameters(icon: Option<Icon>)

  /** What `glPushAttrib(GL_SCISSOR_BIT)` saves: the scissor test flag and the scissor box. */
  datatype ScissorAttrib = ScissorAttrib(enabled: bool, box: Rect)

  /**
   * A string handed to the font backend, after translation, with the depth
   * `z` the renderer translates to before the backend draws it.
   */
  datatype TextDraw = TextDraw(text: string, x: Int32, y: Int32, z: Int32, color: Int32, shadow: bool)

  /** A chat formatting code, such as the colour of an item count. */
  datatype ChatFormat = ChatFormat(code: char)

  datatype ItemStack = ItemStack(item: string, stackSize: Int32)

  /** The overlay label of an item draw: a formatting code followed by the stack size. */
  datatype OverlayLabel = OverlayLabel(format: ChatFormat, count: Int32)

  /** An item stack handed to the item backend, with its overlay label if a format was given. */
  datatype ItemDraw = ItemDraw(stack: ItemStack, x: Int32, y: Int32, overlay: Option<OverlayLabel>)

  /** The renderer's default texture, `malisiscore:textures/gui/gui.png`, 300 x 100. */
  const DefaultGuiTexture := GuiTexture(ResourceLocation("malisiscore", "textures/gui/gui.png"), 300, 100)

  /** The overlay label of an item draw: only present when a format is given. */
  function Overlay(format: Option<ChatFormat>, stack: ItemStack): (r: Option<OverlayLabel>)
  {
    if format.Some? then Some(OverlayLabel(format.value, stack.stackSize)) else None
  }

  class GuiRenderer {
    /** The font's width of one character (`getCharWidth`). */
    const charWidth: char -> int
    /** The localisation step applied before a string is measured, clipped or drawn. */
    const translate: string -> string
    /** The font's width of a whole string. */
    const stringWidth: string -> int
    /**
     * Whether a font renderer exists; without one `drawString` does nothing,
     * and measuring a character or a string would fail.
     */
    const fontAvailable: bool
    const defaultGuiTexture: GuiTexture

    var displayWidth: Int32
    var displayHeight: Int32
    var scaleFactor: Int32
    var ignoreScale: bool
    /** True while the default texture is known to be the one bound. */
    var defaultTexture: bool

    /**
     * The textures the renderer itself binds, in order. The font and item
     * backends bind textures of their own, which are not recorded here.
     */
    var binds: seq<GuiTexture>
    /** The scissor test, its box and the saved attribute frames. */
    var scissorEnabled: bool
    var scissorBox: Rect
    var attribStack: seq<ScissorAttrib>
    /** Whether the quad batch is open, and how many times it was flushed. */
    var tessellating: bool
    var flushes: nat
    /** What was handed to the font and item backends, in order. */
    var texts: seq<TextDraw>
    var items: seq<ItemDraw>

    /**
     * The renderer's invariant: the scale factor is at least 1, and while the
     * flag says "default" the last texture bound (if any) is the default one.
     */
    ghost predicate Valid()
      reads this
    {
      && 1 <= scaleFactor
      && (defaultTexture ==> binds == [] || binds[|binds| - 1] == defaultGuiTexture)
      && (!defaultTexture ==> binds != [])
    }

    /** A renderer for a window of the given size and a requested GUI scale (0 = auto). */
    constructor (charWidth: char -> int, translate: string -> string, stringWidth: string -> int,
                 fontAvailable: bool, displayWidth: Int32, displayHeight: Int32, guiScale: Int32)
      ensures Valid()
      ensures this.charWidth == charWidth && this.translate == translate
      ensures this.stringWidth == stringWidth && this.fontAvailable == fontAvailable
      ensures defaultGuiTexture == DefaultGuiTexture
      ensures this.displayWidth == displayWidth && this.displayHeight == displayHeight
      ensures scaleFactor == ScaleFactor(displayWidth, displayHeight, guiScale)
      ensures !ignoreScale && defaultTexture && binds == []
      ensures !scissorEnabled && scissorBox == Rect(0, 0, displayWidth, displayHeight) && attribStack == []
      ensures !tessellating && flushes == 0 && texts == [] && items == []
    {
      this.charWidth := charWidth;
      this.translate := translate;
      this.stringWidth := stringWidth;
      this.fontAvailable := fontAvailable;
      defaultGuiTexture := DefaultGuiTexture;
      this.displayWidth := 0;
      this.displayHeight := 0;
      scaleFactor := 1;
      ignoreScale := false;
      defaultTexture := true;
      binds := [];
      scissorEnabled := false;
      scissorBox := Rect(0, 0, displayWidth, displayHeight);
      attribStack := [];
      tessellating := false;
      flushes := 0;
      texts := [];
      items := [];
      new;
      var _ := UpdateGuiScale(displayWidth, displayHeight, guiScale);
    }

    method SetIgnoreScale(ignore: bool)
      modifies this`ignoreScale
      ensures ignoreScale == ignore
    {
      ignoreScale := ignore;
    }

    /** Takes the window size and the requested scale from the host and recomputes the scale factor. */
    method UpdateGuiScale(width: Int32, height: Int32, guiScale: Int32) returns (factor: Int32)
      requires Valid()
      modifies this`displayWidth, this`displayHeight, this`scaleFactor
      ensures Valid()
      ensures displayWidth == width && displayHeight == height
      ensures scaleFactor == ScaleFactor(width, height, guiScale) && factor == scaleFactor
    {
      displayWidth := width;
      displayHeight := height;
      CalcScaleFactor(guiScale);
      factor := scaleFactor;
    }

    /**
     * Raises the scale factor from 1 while it is below the cap and the next
     * factor still leaves 320 x 240 GUI units.
     */
    method CalcScaleFactor(guiScale: Int32)
      requires Valid()
      modifies this`scaleFactor
      ensures Valid()
      ensures scaleFactor == ScaleFactor(displayWidth, displayHeight, guiScale)
    {
      scaleFactor := 1;
      var cap: Int32 := Cap(guiScale);
      while scaleFactor < cap && Div(displayWidth, scaleFactor + 1) >= MinGuiWidth
                              && Div(displayHeight, scaleFactor + 1) >= MinGuiHeight
        invariant 1 <= scaleFactor
        invariant ScaleFrom(displayWidth, displayHeight, cap, scaleFactor) == ScaleFactor(displayWidth, displayHeight, guiScale)
        decreases cap - scaleFactor
      {
        scaleFactor := scaleFactor + 1;
      }
    }

    /**
     * Pushes the scissor attributes, enables the scissor test and sets the
     * box to the area in window pixels; a skipped area changes nothing. The
     * graphics library rejects a box of negative width or height, which only
     * an overflowing product can give, and then keeps the old box.
     */
    method StartClipping(area: ClipArea)
      modifies this`scissorEnabled, this`scissorBox, this`attribStack
      ensures Skips(area) ==> scissorEnabled == old(scissorEnabled) && scissorBox == old(scissorBox)
                              && attribStack == old(attribStack)
      ensures !Skips(area) ==> attribStack == old(attribStack) + [ScissorAttrib(old(scissorEnabled), old(scissorBox))]
      ensures !Skips(area) ==> scissorEnabled
      ensures !Skips(area) ==>
                var r := ScissorRect(area, displayHeight, PixelFactor(ignoreScale, scaleFactor));
                && (r.w >= 0 && r.h >= 0 ==> scissorBox == r)
                && (r.w < 0 || r.h < 0 ==> scissorBox == old(scissorBox))
    {
      if Skips(area) {
        return;
      }
      attribStack := attribStack + [ScissorAttrib(scissorEnabled, scissorBox)];
      scissorEnabled := true;
      var f := PixelFactor(ignoreScale, scaleFactor);
      var x := Mul(area.x, f);
      var y := Sub(displayHeight, Mul(Add(area.y, area.height), f));
      var w := Mul(area.width, f);
      var h := Mul(area.height, f);
      if w >= 0 && h >= 0 {
        scissorBox := Rect(x, y, w, h);
      }
    }

    /**
     * Disables the scissor test and pops the attributes, which restores the
     * test flag and box saved by the matching `StartClipping`; popping an
     * empty stack changes nothing more. A skipped area changes nothing.
     */
    method EndClipping(area: ClipArea)
      modifies this`scissorEnabled, this`scissorBox, this`attribStack
      ensures Skips(area) ==> scissorEnabled == old(scissorEnabled) && scissorBox == old(scissorBox)
                              && attribStack == old(attribStack)
      ensures !Skips(area) && old(attribStack) == [] ==> !scissorEnabled && scissorBox == old(scissorBox) && attribStack == []
      ensures !Skips(area) && old(attribStack) != [] ==>
                var top := old(attribStack)[|old(attribStack)| - 1];
                && scissorEnabled == top.enabled && scissorBox == top.box
                && attribStack == old(attribStack)[..|old(attribStack)| - 1]
    {
      if Skips(area) {
        return;
      }
      scissorEnabled := false;
      if attribStack != [] {
        var top := attribStack[|attribStack| - 1];
        scissorEnabled := top.enabled;
        scissorBox := top.box;
        attribStack := attribStack[..|attribStack| - 1];
      }
    }

    /**
     * Gives every face its texture from the parameters' icon: face `i` gets
     * sub-icon `i` of a `GuiIcon` (`subIcon` is the icon's `getIcon`), any
     * other icon goes to every face, and without an icon nothing changes.
     */
    method ApplyTexture(faces: array<Face>, parameters: RenderParameters, subIcon: (Icon, int) -> Icon)
      modifies faces
      ensures parameters.icon.None? ==> faces[..] == old(faces[..])
      ensures parameters.icon.Some? && parameters.icon.value.GuiIcon? ==>
                forall i :: 0 <= i < faces.Length ==> faces[i] == Face(Some(subIcon(parameters.icon.value, i)), false, false, false)
      ensures parameters.icon.Some? && parameters.icon.value.PlainIcon? ==>
                forall i :: 0 <= i < faces.Length ==> faces[i] == Face(Some(parameters.icon.value), false, false, false)
    {
      if parameters.icon.None? {
        return;
      }
      var icon := parameters.icon.value;
      var isGuiIcon := icon.GuiIcon?;
      for i := 0 to faces.Length
        invariant forall j :: 0 <= j < i ==> faces[j] == Face(Some(if isGuiIcon then subIcon(icon, j) else icon), false, false, false)
      {
        faces[i] := Face(Some(if isGuiIcon then subIcon(icon, i) else icon), false, false, false);
      }
    }

    /**
     * Clips the translated text to `width`: the longest prefix every
     * non-empty prefix of which is narrower than `width`. Measuring needs a
     * font renderer unless the translated text is empty.
     */
    method ClipString(text: string, width: int) returns (clipped: string)
      requires fontAvailable || translate(text) == ""
      ensures IsClipOf(clipped, translate(text), width, charWidth)
    {
      var t := translate(text);
      clipped := "";
      var strWidth := 0;
      var index := 0;
      while index < |t|
        invariant 0 <= index <= |t|
        invariant clipped == t[..index]
        invariant strWidth == Width(t[..index], charWidth)
        invariant forall k :: 0 < k <= index ==> Width(t[..k], charWidth) < width
      {
        var c := t[index];
        strWidth := strWidth + charWidth(c);
        WidthSnoc(t[..index], c, charWidth);
        assert t[..index] + [c] == t[..index + 1];
        if strWidth < width {
          clipped := clipped + [c];
        } else {
          return;
        }
        index := index + 1;
      }
    }

    /**
     * Splits `text` into lines for `maxWidth`. The text is not translated.
     * Joining the lines gives the text back; every line but the last is
     * non-empty and ends at a space, hyphen or period, or holds none of them;
     * the text stays on one line exactly when no prefix of it reaches
     * `maxWidth`. Measuring needs a font renderer unless the text is empty.
     */
    method WrapText(text: string, maxWidth: int) returns (lines: seq<string>)
      requires fontAvailable || text == ""
      ensures lines == Wrap(text, maxWidth, charWidth)
      ensures lines == [text] <==> forall k :: 0 < k <= |text| ==> Width(text[..k], charWidth) < maxWidth
      ensures |lines| >= 1 && Concat(lines) == text
      ensures forall i :: 0 <= i < |lines| - 1 ==> IsWrappedLine(lines[i])
      ensures text == "" ==> lines == [""]
    {
      lines := [];
      var line := "";
      var word := "";
      var lineWidth := 0;
      var wordWidth := 0;
      var index := 0;
      while index < |text|
        invariant 0 <= index <= |text|
        invariant WrapState(lines, line, word, lineWidth, wordWidth) == Run(text[..index], maxWidth, charWidth)
      {
        var c := text[index];
        ghost var before := WrapState(lines, line, word, lineWidth, wordWidth);
        var w := charWidth(c);
        lineWidth := lineWidth + w;
        wordWidth := wordWidth + w;
        word := word + [c];
        if IsBreak(c) {
          line := line + word;
          word := "";
          wordWidth := 0;
        }
        assert WrapState(lines, line, word, lineWidth, wordWidth) == Feed(before, c, charWidth) by {
          assert before.line + before.word + [c] == before.line + (before.word + [c]);
        }
        ghost var fed := WrapState(lines, line, word, lineWidth, wordWidth);
        if lineWidth >= maxWidth {
          if line == "" {
            assert line + word == word;
            line := line + word;
            word := "";
            wordWidth := 0;
          }
          lines := lines + [line];
          line := "";
          lineWidth := wordWidth;
        }
        assert WrapState(lines, line, word, lineWidth, wordWidth) == Emit(fed, maxWidth);
        RunSnoc(text[..index], c, maxWidth, charWidth);
        assert text[..index] + [c] == text[..index + 1];
        index := index + 1;
      }
      line := line + word;
      lines := lines + [line];
      assert text[..index] == text;
      WrapFacts(text, maxWidth, charWidth);
    }

    /** The width of a string after translation. */
    function GetStringWidth(str: string): (r: int)
    {
      stringWidth(translate(str))
    }

    /**
     * The widest of the strings, or 0 when there are none or all are
     * narrower. Measuring needs a font renderer unless there are no strings.
     */
    method GetMaxStringWidth(strings: seq<string>) returns (width: int)
      requires fontAvailable || strings == []
      ensures width >= 0
      ensures forall i :: 0 <= i < |strings| ==> GetStringWidth(strings[i]) <= width
      ensures width == 0 || exists i :: 0 <= i < |strings| && width == GetStringWidth(strings[i])
    {
      width := 0;
      for n := 0 to |strings|
        invariant width >= 0
        invariant forall i :: 0 <= i < n ==> GetStringWidth(strings[i]) <= width
        invariant width == 0 || exists i :: 0 <= i < n && width == GetStringWidth(strings[i])
      {
        var w := GetStringWidth(strings[n]);
        if w > width {
          width := w;
        }
      }
    }

    /** Binds a texture, which clears the default flag; no texture changes nothing. */
    method BindTexture(texture: Option<GuiTexture>)
      requires Valid()
      modifies this`defaultTexture, this`binds
      ensures Valid()
      ensures texture.None? ==> defaultTexture == old(defaultTexture) && binds == old(binds)
      ensures texture.Some? ==> !defaultTexture && binds == old(binds) + [texture.value]
    {
      if texture.None? {
        return;
      }
      defaultTexture := false;
      binds := binds + [texture.value];
    }

    /** Binds the default texture and sets the flag. */
    method SetDefaultTexture()
      requires Valid()
      modifies this`defaultTexture, this`binds
      ensures Valid()
      ensures defaultTexture && binds == old(binds) + [defaultGuiTexture]
    {
      BindTexture(Some(defaultGuiTexture));
      defaultTexture := true;
    }

    /**
     * Starts a new draw segment; the default texture is rebound only when
     * another texture was bound since it.
     */
    method Next()
      requires Valid()
      modifies this`defaultTexture, this`binds
      ensures Valid() && defaultTexture
      ensures binds == if old(defaultTexture) then old(binds) else old(binds) + [defaultGuiTexture]
    {
      if !defaultTexture {
        SetDefaultTexture();
      }
    }

    /**
     * Hands the translated string to the font backend and rebinds the
     * default texture; without a font renderer nothing happens.
     */
    method DrawString(text: string, x: Int32, y: Int32, z: Int32, color: Int32, shadow: bool)
      requires Valid()
      modifies this`texts, this`defaultTexture, this`binds
      ensures Valid()
      ensures !fontAvailable ==> texts == old(texts) && defaultTexture == old(defaultTexture) && binds == old(binds)
      ensures fontAvailable ==> texts == old(texts) + [TextDraw(translate(text), x, y, z, color, shadow)]
      ensures fontAvailable ==> defaultTexture && binds == old(binds) + [defaultGuiTexture]
    {
      if !fontAvailable {
        return;
      }
      var t := translate(text);
      texts := texts + [TextDraw(t, x, y, z, color, shadow)];
      SetDefaultTexture();
    }

    /**
     * Flushes the quad batch, hands the stack to the item backend, rebinds
     * the default texture and reopens the batch; no stack changes nothing.
     */
    method DrawItemStack(stack: Option<ItemStack>, x: Int32, y: Int32, format: Option<ChatFormat>)
      requires Valid()
      modifies this`items, this`defaultTexture, this`binds, this`tessellating, this`flushes
      ensures Valid()
      ensures stack.None? ==> items == old(items) && defaultTexture == old(defaultTexture) && binds == old(binds)
                              && tessellating == old(tessellating) && flushes == old(flushes)
      ensures stack.Some? ==> items == old(items) + [ItemDraw(stack.value, x, y, Overlay(format, stack.value))]
      ensures stack.Some? ==> defaultTexture && binds == old(binds) + [defaultGuiTexture]
      ensures stack.Some? ==> tessellating && flushes == old(flushes) + 1
    {
      if stack.None? {
        return;
      }
      var overlay := Overlay(format, stack.value);
      flushes := flushes + 1;
      tessellating := false;
      items := items + [ItemDraw(stack.value, x, y, overlay)];
      SetDefaultTexture();
      tessellating := true;
    }
  }

  // ---------------------------------------------------------------------------
  // Call sequences on a renderer, proved from the method contracts alone
  // ---------------------------------------------------------------------------

  /**
   * Starting and ending the clipping of one area leaves the scissor state
   * as it was, whether or not the area is skipped, since both calls test
   * the same guard.
   */
  method ClipBalanced(r: GuiRenderer, area: ClipArea)
    modifies r`scissorEnabled, r`scissorBox, r`attribStack
    ensures r.scissorEnabled == old(r.scissorEnabled) && r.scissorBox == old(r.scissorBox)
    ensures r.attribStack == old(r.attribStack)
  {
    r.StartClipping(area);
    r.EndClipping(area);
    assert old(r.attribStack) + [ScissorAttrib(old(r.scissorEnabled), old(r.scissorBox))] != [];
  }

  /** Clipping nested inside clipping: ending both, innermost first, restores the outer state. */
  method ClipNested(r: GuiRenderer, outer: ClipArea, inner: ClipArea)
    modifies r`scissorEnabled, r`scissorBox, r`attribStack
    ensures r.scissorEnabled == old(r.scissorEnabled) && r.scissorBox == old(r.scissorBox)
    ensures r.attribStack == old(r.attribStack)
  {
    r.StartClipping(outer);
    ClipBalanced(r, inner);
    r.EndClipping(outer);
    assert old(r.attribStack) + [ScissorAttrib(old(r.scissorEnabled), old(r.scissorBox))] != [];
  }

  /** A second `Next` in a row binds nothing. */
  method NextTwice(r: GuiRenderer)
    requires r.Valid()
    modifies r`defaultTexture, r`binds
    ensures r.Valid() && r.defaultTexture
    ensures r.binds == if old(r.defaultTexture) then old(r.binds) else old(r.binds) + [r.defaultGuiTexture]
  {
    r.Next();
    ghost var between := r.binds;
    r.Next();
    assert r.binds == between;
  }

  /**
   * Binding two textures and then starting a new segment binds the default
   * texture exactly once, at the end.
   */
  method BindTwoThenNext(r: GuiRenderer, first: GuiTexture, second: GuiTexture)
    requires r.Valid()
    modifies r`defaultTexture, r`binds
    ensures r.Valid() && r.defaultTexture
    ensures r.binds == old(r.binds) + [first, second, r.defaultGuiTexture]
  {
    r.BindTexture(Some(first));
    r.BindTexture(Some(second));
    r.Next();
  }
}
