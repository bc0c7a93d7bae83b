/**
 * The sends cluster of the Push display grid: a grid element holding a
 * snapshot of four sends (name, value text, value, modulated value, edited
 * flag) and drawing it as a sequence of calls on a graphics output.
 *
 * Drawing is modelled as a trace: every call on the graphics output appends
 * one Command. The superclass header and the text-in-bounds helper are
 * outside the model and appear as single opaque commands. Coordinates are
 * exact reals.
 */
module SendsGrid {
  import opened Wrappers

  /** Number of send slots an element holds. */
  const SlotCount: nat := 4

  /** The modulated value that the draw code reads as "this send is not modulated". */
  const NotModulated: int := 16383

  datatype Align = Left | Center

  /** Which configuration colour a colour call selects; the colours themselves are not modelled. */
  datatype ColorRole = Background | BackgroundLighter | BackgroundDarker | TextColor | Border | Fader | Edit

  /** One call on the graphics output. */
  datatype Command =
    | Header(menuName: string, isMenuSelected: bool, name: Option<string>, isSelected: bool)
    | Color(role: ColorRole)
    | Rect(x: real, y: real, w: real, h: real)
    | FillPath
    | StrokePath
    | FontSize(size: real)
    | Text(text: string, x: real, y: real, w: real, h: real, align: Align, color: ColorRole)

  /** The grid's layout constants and the parameter maximum value, which are defined outside the model. */
  datatype Layout = Layout(menuHeight: real, unit: real, inset: real, separatorSize: real,
                           trackRowHeight: real, maxValue: real)

  /** The quantities draw derives from its bounds before it issues any call. */
  datatype Geometry = Geometry(t: real, h: real, rowHeight: real, sliderWidth: real, sliderHeight: real,
                               faderLeft: real, boxWidth: real, boxLeft: real)

  /** The values an element captured at construction, with the header fields of its superclass. */
  datatype Snapshot = Snapshot(names: seq<string>, texts: seq<string>, values: seq<int>,
                               modulated: seq<int>, edited: seq<bool>,
                               menuName: string, isMenuSelected: bool, name: Option<string>,
                               isSelected: bool, isExMode: bool)
  {
    predicate Valid()
    {
      |names| == SlotCount && |texts| == SlotCount && |values| == SlotCount &&
      |modulated| == SlotCount && |edited| == SlotCount
    }

    /** An element without a name is switched off, unless it extends the element to its left. */
    predicate IsOff()
    {
      (name.None? || |name.value| == 0) && !isExMode
    }
  }

  function Min(a: real, b: real): (m: real)
    ensures m <= a && m <= b && (m == a || m == b)
  {
    if a <= b then a else b
  }

  /**
   * The slider area spans from below the menu to above the track row and is
   * cut into eight rows of equal height (four name rows, four fader rows);
   * the value text box takes the right half of the slider.
   */
  function Measure(left: real, width: real, height: real, k: Layout): (g: Geometry)
    ensures g.t == k.menuHeight + 1.0
    ensures 8.0 * g.rowHeight == g.h == height - k.trackRowHeight - k.unit - k.separatorSize - g.t
    ensures g.sliderHeight + 2.0 * k.separatorSize == g.rowHeight
    ensures g.faderLeft == left + k.inset && g.sliderWidth == width - 2.0 * k.inset - 1.0
    ensures 2.0 * g.boxWidth == g.sliderWidth && g.boxLeft + g.boxWidth == g.faderLeft + g.sliderWidth
  {
    var trackRowTop := height - k.trackRowHeight - k.unit - k.separatorSize;
    var sliderWidth := width - 2.0 * k.inset - 1.0;
    var t := k.menuHeight + 1.0;
    var h := trackRowTop - t;
    var rowHeight := h / 8.0;
    var faderLeft := left + k.inset;
    var boxWidth := sliderWidth / 2.0;
    Geometry(t, h, rowHeight, sliderWidth, rowHeight - 2.0 * k.separatorSize,
             faderLeft, boxWidth, faderLeft + sliderWidth - boxWidth)
  }

  /**
   * The number of send rows drawn: the index of the first empty send name,
   * or the number of slots when no name is empty.
   */
  function RowCount(names: seq<string>): (n: nat)
    ensures n <= |names|
    ensures forall j :: 0 <= j < n ==> |names[j]| > 0
    ensures n < |names| ==> |names[n]| == 0
  {
    if |names| == 0 || |names[0]| == 0 then 0 else 1 + RowCount(names[1..])
  }

  // ---------------------------------------------------------------------
  // The trace draw produces, stated in closed form
  // ---------------------------------------------------------------------

  /** The line slot i's pair of rows starts at: each slot takes two row heights below the menu. */
  function SlotTop(k: Layout, g: Geometry, i: nat): real
  {
    if i == 0 then k.menuHeight else SlotTop(k, g, i - 1) + 2.0 * g.rowHeight
  }

  /** Slot i starts exactly 2 * i row heights below the menu. */
  lemma {:induction false} SlotTopIsLinear(k: Layout, g: Geometry, i: nat)
    ensures SlotTop(k, g, i) == k.menuHeight + 2.0 * (i as real) * g.rowHeight
  {
    if i > 0 {
      SlotTopIsLinear(k, g, i - 1);
      assert 2.0 * (i as real) * g.rowHeight == 2.0 * ((i - 1) as real) * g.rowHeight + 2.0 * g.rowHeight;
    }
  }

  /** The top of send row i; a row drawn as an extension starts one separator higher. */
  function RowTop(s: Snapshot, k: Layout, g: Geometry, i: nat): real
  {
    SlotTop(k, g, i) + (if s.isExMode then 0.0 else k.separatorSize)
  }

  /** The width a value covers in the slider. */
  function ValueWidth(v: int, k: Layout, g: Geometry): real
    requires k.maxValue > 0.0
  {
    v as real * g.sliderWidth / k.maxValue
  }

  /** The fader fill shows the modulated value unless it holds the sentinel. */
  function FillWidth(s: Snapshot, k: Layout, g: Geometry, i: nat): real
    requires s.Valid() && i < SlotCount && k.maxValue > 0.0
  {
    if s.modulated[i] != NotModulated then ValueWidth(s.modulated[i], k, g) else ValueWidth(s.values[i], k, g)
  }

  /** The edit marker is wider while a value text is shown. */
  function MarkerWidth(s: Snapshot, i: nat): real
    requires s.Valid() && i < SlotCount
  {
    if |s.texts[i]| > 0 then 3.0 else 1.0
  }

  function MarkerLeft(s: Snapshot, k: Layout, g: Geometry, i: nat): real
    requires s.Valid() && i < SlotCount && k.maxValue > 0.0
  {
    Min(g.faderLeft + g.sliderWidth - MarkerWidth(s, i) - 1.0, g.faderLeft + ValueWidth(s.values[i], k, g) + 1.0)
  }

  /** The name label of send row i, whose row starts at top. */
  function RowLabel(s: Snapshot, k: Layout, g: Geometry, i: nat, top: real): Command
    requires s.Valid() && i < SlotCount
  {
    Text(s.names[i], g.faderLeft, top + k.separatorSize, g.sliderWidth, g.rowHeight, Left, TextColor)
  }

  /** The slider frame and the fader fill of send row i, whose row starts at top. */
  function RowSlider(s: Snapshot, k: Layout, g: Geometry, i: nat, top: real): seq<Command>
    requires s.Valid() && i < SlotCount && k.maxValue > 0.0
  {
    [ Color(Border),
      Rect(g.faderLeft, top + g.rowHeight + k.separatorSize, g.sliderWidth, g.sliderHeight),
      FillPath,
      Color(Fader),
      Rect(g.faderLeft + 1.0, top + g.rowHeight + k.separatorSize + 1.0, FillWidth(s, k, g, i) - 1.0,
           g.sliderHeight - 2.0),
      FillPath ]
  }

  /** The edit marker of send row i, present only while that send is edited. */
  function RowMarker(s: Snapshot, k: Layout, g: Geometry, i: nat, top: real): seq<Command>
    requires s.Valid() && i < SlotCount && k.maxValue > 0.0
  {
    if s.edited[i] then
      [ Color(Edit),
        Rect(MarkerLeft(s, k, g, i), top + g.rowHeight + k.separatorSize + 1.0, MarkerWidth(s, i),
             g.sliderHeight - 2.0),
        FillPath ]
    else []
  }

  function Row(s: Snapshot, k: Layout, g: Geometry, i: nat, top: real): seq<Command>
    requires s.Valid() && i < SlotCount && k.maxValue > 0.0
  {
    [RowLabel(s, k, g, i, top)] + RowSlider(s, k, g, i, top) + RowMarker(s, k, g, i, top)
  }

  /** The send rows 0 .. n-1, in order, each at its RowTop. */
  function Rows(s: Snapshot, k: Layout, g: Geometry, n: nat): seq<Command>
    requires s.Valid() && n <= SlotCount && k.maxValue > 0.0
  {
    if n == 0 then [] else Rows(s, k, g, n - 1) + Row(s, k, g, n - 1, RowTop(s, k, g, n - 1))
  }

  /** The top edge of a value text box hanging from line top. */
  function BoxTop(s: Snapshot, k: Layout, g: Geometry, top: real): real
  {
    top + g.sliderHeight + 1.0 + (if s.isExMode then 0.0 else k.separatorSize)
  }

  /** A value text, centred in the box hanging from line top. */
  function BoxText(s: Snapshot, k: Layout, g: Geometry, text: string, top: real): Command
  {
    Text(text, g.boxLeft, BoxTop(s, k, g, top), g.boxWidth, k.unit, Center, TextColor)
  }

  /** The value text box of slot i: a filled box, its border and the centred text. */
  function Box(s: Snapshot, k: Layout, g: Geometry, i: nat, top: real): seq<Command>
    requires i < |s.texts|
  {
    if |s.texts[i]| == 0 then []
    else
      var y := BoxTop(s, k, g, top);
      [ Color(BackgroundDarker), Rect(g.boxLeft, y, g.boxWidth, k.unit), FillPath,
        Color(Border), Rect(g.boxLeft, y, g.boxWidth - 1.0, k.unit), StrokePath,
        BoxText(s, k, g, s.texts[i], top) ]
  }

  /** The value text boxes of slots 0 .. n-1, in order. */
  function Boxes(s: Snapshot, k: Layout, g: Geometry, n: nat): seq<Command>
    requires n <= |s.texts|
  {
    if n == 0 then [] else Boxes(s, k, g, n - 1) + Box(s, k, g, n - 1, SlotTop(k, g, n - 1) + g.rowHeight)
  }

  /** The background of the slider area: lighter when selected or extending, and widened to the left when extending. */
  function SliderBackground(s: Snapshot, k: Layout, g: Geometry, left: real, width: real): seq<Command>
  {
    [ Color(if s.isSelected || s.isExMode then BackgroundLighter else Background),
      Rect(if s.isExMode then left - k.separatorSize else left, g.t,
           if s.isExMode then width + k.separatorSize else width,
           if s.isExMode then g.h - 2.0 else g.h),
      FillPath ]
  }

  /** What the row loop appends: the font for the names, then the rows up to the first unnamed send. */
  function SendRowsCommands(s: Snapshot, k: Layout, g: Geometry): seq<Command>
    requires s.Valid() && k.maxValue > 0.0
  {
    [FontSize(g.rowHeight)] + Rows(s, k, g, RowCount(s.names))
  }

  /** What the text loop appends: the font for the values, then a box per slot with a value text. */
  function ValueBoxesCommands(s: Snapshot, k: Layout, g: Geometry): seq<Command>
    requires s.Valid()
  {
    [FontSize(k.unit)] + Boxes(s, k, g, |s.texts|)
  }

  /** Everything draw appends to the graphics output. */
  function DrawCommands(s: Snapshot, left: real, width: real, height: real, k: Layout): seq<Command>
    requires s.Valid() && k.maxValue > 0.0
  {
    var g := Measure(left, width, height, k);
    [Header(s.menuName, s.isMenuSelected, s.name, s.isSelected)] +
    if s.IsOff() then []
    else SliderBackground(s, k, g, left, width) + SendRowsCommands(s, k, g) + ValueBoxesCommands(s, k, g)
  }

  lemma Assoc(a: seq<Command>, b: seq<Command>, c: seq<Command>)
    ensures a + b + c == a + (b + c)
  {
  }

  lemma Assoc4(a: seq<Command>, b: seq<Command>, c: seq<Command>, d: seq<Command>)
    ensures a + b + c + d == a + (b + c + d)
  {
  }

  lemma Regroup(a: seq<Command>, b: seq<Command>, c: seq<Command>, d: seq<Command>, e: seq<Command>)
    ensures a + (b + c + d + e) == a + b + c + d + e
  {
  }

  lemma DrawCommandsWhenOn(s: Snapshot, left: real, width: real, height: real, k: Layout)
    requires s.Valid() && k.maxValue > 0.0 && !s.IsOff()
    ensures var g := Measure(left, width, height, k);
            DrawCommands(s, left, width, height, k) ==
              [Header(s.menuName, s.isMenuSelected, s.name, s.isSelected)] +
              SliderBackground(s, k, g, left, width) + SendRowsCommands(s, k, g) + ValueBoxesCommands(s, k, g)
  {
  }

  // ---------------------------------------------------------------------
  // The graphics output and the element
  // ---------------------------------------------------------------------

  /** A graphics output that records every call made on it. */
  class GraphicsOutput {
    var trace: seq<Command>

    constructor ()
      ensures trace == []
    {
      trace := [];
    }

    method SetColor(role: ColorRole)
      modifies this
      ensures trace == old(trace) + [Color(role)]
    {
      trace := trace + [Color(role)];
    }

    method Rectangle(x: real, y: real, w: real, h: real)
      modifies this
      ensures trace == old(trace) + [Rect(x, y, w, h)]
    {
      trace := trace + [Rect(x, y, w, h)];
    }

    method Fill()
      modifies this
      ensures trace == old(trace) + [FillPath]
    {
      trace := trace + [FillPath];
    }

    method Stroke()
      modifies this
      ensures trace == old(trace) + [StrokePath]
    {
      trace := trace + [StrokePath];
    }

    method SetFontSize(size: real)
      modifies this
      ensures trace == old(trace) + [FontSize(size)]
    {
      trace := trace + [FontSize(size)];
    }
  }

  /** The grid elements' text helper; its clipping and alignment are outside the model. */
  method DrawTextInBounds(gc: GraphicsOutput, text: string, x: real, y: real, w: real, h: real,
                          align: Align, color: ColorRole)
    modifies gc
    ensures gc.trace == old(gc.trace) + [Text(text, x, y, w, h, align, color)]
  {
    gc.trace := gc.trace + [Text(text, x, y, w, h, align, color)];
  }

  /** A fresh array holding the first n entries of src, copied one by one. */
  method CopyPrefix<T(0)>(src: array<T>, n: nat) returns (dst: array<T>)
    requires n <= src.Length
    ensures fresh(dst) && dst[..] == src[..n]
  {
    dst := new T[n];
    for i := 0 to n
      invariant forall j :: 0 <= j < i ==> dst[j] == src[j]
    {
      dst[i] := src[i];
    }
  }

  class SendsGridElement {
    const sendNames: array<string>
    const sendTexts: array<string>
    const sendValues: array<int>
    const modulatedSendValues: array<int>
    const sendEdited: array<bool>
    const menuName: string
    const isMenuSelected: bool
    const name: Option<string>
    const isSelected: bool
    const isExMode: bool

    ghost predicate Valid()
      reads this
    {
      sendNames.Length == SlotCount && sendTexts.Length == SlotCount && sendValues.Length == SlotCount &&
      modulatedSendValues.Length == SlotCount && sendEdited.Length == SlotCount
    }

    /** The element's arrays and flags agree with the snapshot s. */
    ghost predicate Shows(s: Snapshot)
      requires Valid()
      reads this, sendNames, sendTexts, sendValues, modulatedSendValues, sendEdited
    {
      s.names == sendNames[..] && s.texts == sendTexts[..] && s.values == sendValues[..] &&
      s.modulated == modulatedSendValues[..] && s.edited == sendEdited[..] && s.isExMode == isExMode
    }

    /** The values the element draws. */
    ghost function View(): (s: Snapshot)
      requires Valid()
      reads this, sendNames, sendTexts, sendValues, modulatedSendValues, sendEdited
      ensures s.Valid()
    {
      Snapshot(sendNames[..], sendTexts[..], sendValues[..], modulatedSendValues[..], sendEdited[..],
               menuName, isMenuSelected, name, isSelected, isExMode)
    }

    /** Copies the first four entries of each argument array into the element's own arrays. */
    constructor (sendNames: array<string>, sendTexts: array<string>, sendValues: array<int>,
                 modulatedSendValues: array<int>, sendEdited: array<bool>, menuName: string,
                 isMenuSelected: bool, name: Option<string>, isSelected: bool, isExMode: bool)
      requires sendNames.Length >= SlotCount && sendTexts.Length >= SlotCount
      requires sendValues.Length >= SlotCount && modulatedSendValues.Length >= SlotCount
      requires sendEdited.Length >= SlotCount
      ensures Valid()
      ensures fresh(this.sendNames) && fresh(this.sendTexts) && fresh(this.sendValues)
      ensures fresh(this.modulatedSendValues) && fresh(this.sendEdited)
      ensures this.sendNames[..] == sendNames[..SlotCount] && this.sendTexts[..] == sendTexts[..SlotCount]
      ensures this.sendValues[..] == sendValues[..SlotCount]
      ensures this.modulatedSendValues[..] == modulatedSendValues[..SlotCount]
      ensures this.sendEdited[..] == sendEdited[..SlotCount]
      ensures this.menuName == menuName && this.isMenuSelected == isMenuSelected && this.name == name
      ensures this.isSelected == isSelected && this.isExMode == isExMode
    {
      var names := CopyPrefix(sendNames, SlotCount);
      var texts := CopyPrefix(sendTexts, SlotCount);
      var values := CopyPrefix(sendValues, SlotCount);
      var modulated := CopyPrefix(modulatedSendValues, SlotCount);
      var edited := CopyPrefix(sendEdited, SlotCount);
      this.sendNames := names;
      this.sendTexts := texts;
      this.sendValues := values;
      this.modulatedSendValues := modulated;
      this.sendEdited := edited;
      this.menuName := menuName;
      this.isMenuSelected := isMenuSelected;
      this.name := name;
      this.isSelected := isSelected;
      this.isExMode := isExMode;
    }

    /** The superclass's drawing of the menu and channel header, outside the model. */
    method DrawHeader(gc: GraphicsOutput)
      modifies gc
      ensures gc.trace == old(gc.trace) + [Header(menuName, isMenuSelected, name, isSelected)]
    {
      gc.trace := gc.trace + [Header(menuName, isMenuSelected, name, isSelected)];
    }

    /** One pass of the row loop: the name label, the slider frame, the fader fill and the edit marker. */
    method DrawSendRow(gc: GraphicsOutput, i: nat, topy: real, k: Layout, g: Geometry, ghost s: Snapshot)
      returns (sliderTopy: real)
      requires Valid() && s.Valid() && i < SlotCount && k.maxValue > 0.0
      requires s.names[i] == sendNames[i] && s.texts[i] == sendTexts[i] && s.values[i] == sendValues[i]
      requires s.modulated[i] == modulatedSendValues[i] && s.edited[i] == sendEdited[i]
      modifies gc
      ensures sliderTopy == topy + g.rowHeight
      ensures gc.trace == old(gc.trace) + Row(s, k, g, i, topy)
    {
      ghost var start := gc.trace;
      DrawTextInBounds(gc, sendNames[i], g.faderLeft, topy + k.separatorSize, g.sliderWidth, g.rowHeight,
                       Left, TextColor);
      ghost var labelled := gc.trace;
      sliderTopy := topy + g.rowHeight;
      DrawSlider(gc, i, topy, k, g, s);
      ghost var filled := gc.trace;
      if sendEdited[i] {
        DrawEditMarker(gc, i, topy, k, g, s);
      }
      Assoc4(start, [RowLabel(s, k, g, i, topy)], RowSlider(s, k, g, i, topy), RowMarker(s, k, g, i, topy));
    }

    /** The slider frame and the bar filled up to the (modulated) send value. */
    method DrawSlider(gc: GraphicsOutput, i: nat, topy: real, k: Layout, g: Geometry, ghost s: Snapshot)
      requires Valid() && s.Valid() && i < SlotCount && k.maxValue > 0.0
      requires s.values[i] == sendValues[i] && s.modulated[i] == modulatedSendValues[i]
      modifies gc
      ensures gc.trace == old(gc.trace) + RowSlider(s, k, g, i, topy)
    {
      var sliderTopy := topy + g.rowHeight;
      gc.SetColor(Border);
      gc.Rectangle(g.faderLeft, sliderTopy + k.separatorSize, g.sliderWidth, g.sliderHeight);
      gc.Fill();
      var valueWidth := ValueWidth(sendValues[i], k, g);
      var isSendModulated := modulatedSendValues[i] != NotModulated;
      var modulatedValueWidth := if isSendModulated then ValueWidth(modulatedSendValues[i], k, g) else valueWidth;
      gc.SetColor(Fader);
      gc.Rectangle(g.faderLeft + 1.0, sliderTopy + k.separatorSize + 1.0, modulatedValueWidth - 1.0, g.sliderHeight - 2.0);
      gc.Fill();
    }

    /** The edit marker drawn next to the value of a send that is being edited. */
    method DrawEditMarker(gc: GraphicsOutput, i: nat, topy: real, k: Layout, g: Geometry, ghost s: Snapshot)
      requires Valid() && s.Valid() && i < SlotCount && k.maxValue > 0.0
      requires s.texts[i] == sendTexts[i] && s.values[i] == sendValues[i] && s.edited[i] && sendEdited[i]
      modifies gc
      ensures gc.trace == old(gc.trace) + RowMarker(s, k, g, i, topy)
    {
      var valueWidth := ValueWidth(sendValues[i], k, g);
      var faderTop := topy + g.rowHeight + k.separatorSize + 1.0;
      gc.SetColor(Edit);
      var isTouched := |sendTexts[i]| > 0;
      var w := if isTouched then 3.0 else 1.0;
      gc.Rectangle(Min(g.faderLeft + g.sliderWidth - w - 1.0, g.faderLeft + valueWidth + 1.0), faderTop, w,
                   g.sliderHeight - 2.0);
      gc.Fill();
    }

    /** One box of the text loop: a filled box, its border and the centred value text. */
    method DrawValueBox(gc: GraphicsOutput, i: nat, topy: real, k: Layout, g: Geometry, ghost s: Snapshot)
      requires Valid() && s.Valid() && i < SlotCount && s.texts[i] == sendTexts[i] && |sendTexts[i]| > 0
      requires s.isExMode == isExMode
      modifies gc
      ensures gc.trace == old(gc.trace) + Box(s, k, g, i, topy)
    {
      var volumeTextTop := topy + g.sliderHeight + 1.0 + (if isExMode then 0.0 else k.separatorSize);
      gc.SetColor(BackgroundDarker);
      gc.Rectangle(g.boxLeft, volumeTextTop, g.boxWidth, k.unit);
      gc.Fill();
      gc.SetColor(Border);
      gc.Rectangle(g.boxLeft, volumeTextTop, g.boxWidth - 1.0, k.unit);
      gc.Stroke();
      DrawTextInBounds(gc, sendTexts[i], g.boxLeft, volumeTextTop, g.boxWidth, k.unit, Center, TextColor);
    }

    /** The background of the slider area. */
    method DrawSliderBackground(gc: GraphicsOutput, left: real, width: real, k: Layout, g: Geometry, ghost s: Snapshot)
      requires s.isSelected == isSelected && s.isExMode == isExMode
      modifies gc
      ensures gc.trace == old(gc.trace) + SliderBackground(s, k, g, left, width)
    {
      gc.SetColor(if isSelected || isExMode then BackgroundLighter else Background);
      gc.Rectangle(if isExMode then left - k.separatorSize else left, g.t,
                   if isExMode then width + k.separatorSize else width, if isExMode then g.h - 2.0 else g.h);
      gc.Fill();
    }

    /** The row loop: one row per send, up to the first send without a name. */
    method DrawSendRows(gc: GraphicsOutput, k: Layout, g: Geometry, ghost s: Snapshot)
      requires Valid() && s.Valid() && Shows(s) && k.maxValue > 0.0
      modifies gc
      ensures gc.trace == old(gc.trace) + SendRowsCommands(s, k, g)
    {
      var topy := k.menuHeight + (if isExMode then 0.0 else k.separatorSize);
      gc.SetFontSize(g.rowHeight);
      ghost var rowsStart := gc.trace;
      var i := 0;
      while i < SlotCount
        invariant i <= RowCount(s.names)
        invariant topy == RowTop(s, k, g, i)
        invariant gc.trace == rowsStart + Rows(s, k, g, i)
      {
        if |sendNames[i]| == 0 {
          break;
        }
        topy := DrawSendRow(gc, i, topy, k, g, s);
        topy := topy + g.rowHeight;
        Assoc(rowsStart, Rows(s, k, g, i), Row(s, k, g, i, RowTop(s, k, g, i)));
        i := i + 1;
      }
      Assoc(old(gc.trace), [FontSize(g.rowHeight)], Rows(s, k, g, i));
    }

    /** The text loop: a value text box for every slot whose text is not empty. */
    method DrawValueBoxes(gc: GraphicsOutput, k: Layout, g: Geometry, ghost s: Snapshot)
      requires Valid() && s.Valid() && Shows(s)
      modifies gc
      ensures gc.trace == old(gc.trace) + ValueBoxesCommands(s, k, g)
    {
      var topy := k.menuHeight;
      gc.SetFontSize(k.unit);
      ghost var boxesStart := gc.trace;
      for j := 0 to SlotCount
        invariant topy == SlotTop(k, g, j)
        invariant gc.trace == boxesStart + Boxes(s, k, g, j)
      {
        topy := topy + g.rowHeight;
        if |sendTexts[j]| > 0 {
          DrawValueBox(gc, j, topy, k, g, s);
        }
        Assoc(boxesStart, Boxes(s, k, g, j), Box(s, k, g, j, topy));
        topy := topy + g.rowHeight;
      }
      Assoc(old(gc.trace), [FontSize(k.unit)], Boxes(s, k, g, SlotCount));
    }

    method Draw(gc: GraphicsOutput, left: real, width: real, height: real, k: Layout)
      requires Valid() && k.maxValue > 0.0
      modifies gc
      ensures gc.trace == old(gc.trace) + DrawCommands(View(), left, width, height, k)
    {
      DrawHeader(gc);
      if (name.None? || |name.value| == 0) && !isExMode {
        return;
      }
      var g := Measure(left, width, height, k);

      ghost var s := View();
      DrawSliderBackground(gc, left, width, k, g, s);

      ghost var header := old(gc.trace) + [Header(menuName, isMenuSelected, name, isSelected)];
      ghost var background := SliderBackground(s, k, g, left, width);
      assert gc.trace == header + background;
      DrawSendRows(gc, k, g, s);
      ghost var rows := SendRowsCommands(s, k, g);
      DrawValueBoxes(gc, k, g, s);
      ghost var boxes := ValueBoxesCommands(s, k, g);
      assert gc.trace == header + background + rows + boxes;
      assert View() == s;
      DrawCommandsWhenOn(s, left, width, height, k);
      Regroup(old(gc.trace), [Header(menuName, isMenuSelected, name, isSelected)], background, rows, boxes);
    }
  }
}
