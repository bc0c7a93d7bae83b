/**
 * What a sends grid element's drawing looks like, read back from the trace
 * DrawCommands describes: which rows, markers and value boxes appear, where,
 * and how the slider background and the fader fill are shaped.
 */
module SendsGridProperties {
  import opened SendsGrid

  // ---------------------------------------------------------------------
  // Reading a trace back
  // ---------------------------------------------------------------------

  /** The commands an observer of a trace can pick out. */
  datatype Kind = NameLabel | ValueText | EditColor

  predicate Is(c: Command, kind: Kind)
  {
    match kind
    case NameLabel => c.Text? && c.align == Left
    case ValueText => c.Text? && c.align == Center
    case EditColor => c == Color(Edit)
  }

  /** The commands of one kind in a trace, in their order. */
  function Only(cmds: seq<Command>, kind: Kind): (r: seq<Command>)
    ensures |r| <= |cmds|
  {
    if |cmds| == 0 then []
    else (if Is(cmds[0], kind) then [cmds[0]] else []) + Only(cmds[1..], kind)
  }

  /** A slot of the element together with the text it holds. */
  datatype Slot = Slot(index: nat, text: string)

  /** The slots whose text is not empty, in increasing order of index. */
  function NonEmptySlots(ts: seq<string>): (r: seq<Slot>)
    ensures |r| <= |ts|
  {
    if |ts| == 0 then []
    else NonEmptySlots(ts[..|ts| - 1]) + (if |ts[|ts| - 1]| == 0 then [] else [Slot(|ts| - 1, ts[|ts| - 1])])
  }

  /** Every listed slot is a slot of ts and carries that slot's text, which is not empty. */
  lemma {:induction false} NonEmptySlotsSound(ts: seq<string>)
    ensures forall j :: 0 <= j < |NonEmptySlots(ts)| ==>
              NonEmptySlots(ts)[j].index < |ts| && NonEmptySlots(ts)[j].text == ts[NonEmptySlots(ts)[j].index] &&
              |NonEmptySlots(ts)[j].text| > 0
  {
    if |ts| != 0 {
      var init := ts[..|ts| - 1];
      var prev := NonEmptySlots(init);
      NonEmptySlotsSound(init);
      assert forall j :: 0 <= j < |prev| ==> ts[prev[j].index] == init[prev[j].index];
    }
  }

  /** The slots are listed in strictly increasing order of index, so none twice. */
  lemma {:induction false} NonEmptySlotsIncreasing(ts: seq<string>)
    ensures forall i, j :: 0 <= i < j < |NonEmptySlots(ts)| ==> NonEmptySlots(ts)[i].index < NonEmptySlots(ts)[j].index
  {
    if |ts| != 0 {
      var init := ts[..|ts| - 1];
      NonEmptySlotsIncreasing(init);
      NonEmptySlotsSound(init);
    }
  }

  /** Every slot whose text is not empty is listed. */
  lemma {:induction false} NonEmptySlotsComplete(ts: seq<string>)
    ensures forall i :: 0 <= i < |ts| && |ts[i]| > 0 ==> Slot(i, ts[i]) in NonEmptySlots(ts)
  {
    if |ts| != 0 {
      var init := ts[..|ts| - 1];
      NonEmptySlotsComplete(init);
      assert forall i :: 0 <= i < |init| ==> init[i] == ts[i];
    }
  }

  /** How many flags are set. */
  function CountTrue(bs: seq<bool>): (n: nat)
    ensures n <= |bs|
    ensures n == 0 <==> forall j :: 0 <= j < |bs| ==> !bs[j]
  {
    if |bs| == 0 then 0
    else CountTrue(bs[..|bs| - 1]) + (if bs[|bs| - 1] then 1 else 0)
  }

  lemma {:induction false} OnlyAppend(a: seq<Command>, b: seq<Command>, kind: Kind)
    ensures Only(a + b, kind) == Only(a, kind) + Only(b, kind)
  {
    if |a| == 0 {
      assert a + b == b;
    } else {
      var head := if Is(a[0], kind) then [a[0]] else [];
      calc {
        Only(a + b, kind);
        { assert (a + b)[0] == a[0]; assert (a + b)[1..] == a[1..] + b; }
        head + Only(a[1..] + b, kind);
        { OnlyAppend(a[1..], b, kind); }
        head + (Only(a[1..], kind) + Only(b, kind));
        head + Only(a[1..], kind) + Only(b, kind);
      }
    }
  }

  lemma {:induction false} OnlyNone(cmds: seq<Command>, kind: Kind)
    requires forall j :: 0 <= j < |cmds| ==> !Is(cmds[j], kind)
    ensures Only(cmds, kind) == []
  {
    if |cmds| != 0 {
      OnlyNone(cmds[1..], kind);
    }
  }

  lemma OnlyAppendNone(a: seq<Command>, b: seq<Command>, kind: Kind)
    requires Only(a, kind) == [] && Only(b, kind) == []
    ensures Only(a + b, kind) == []
  {
    OnlyAppend(a, b, kind);
  }

  /** Only sees through the four parts of a drawing that carry no command of the kind looked for. */
  lemma OnlySkips(header: seq<Command>, background: seq<Command>, rowFont: seq<Command>, rows: seq<Command>,
                  boxFont: seq<Command>, boxes: seq<Command>, kind: Kind)
    requires Only(header, kind) == [] && Only(background, kind) == []
    requires Only(rowFont, kind) == [] && Only(boxFont, kind) == []
    ensures Only(header + background + (rowFont + rows) + (boxFont + boxes), kind) == Only(rows, kind) + Only(boxes, kind)
  {
    OnlyAppend(header + background + (rowFont + rows), boxFont + boxes, kind);
    OnlyAppend(header + background, rowFont + rows, kind);
    OnlyAppend(header, background, kind);
    OnlyAppend(rowFont, rows, kind);
    OnlyAppend(boxFont, boxes, kind);
  }

  lemma OnlyOne(c: Command, kind: Kind)
    ensures Only([c], kind) == if Is(c, kind) then [c] else []
  {
    assert [c][1..] == [];
  }

  // ---------------------------------------------------------------------
  // The pieces of the trace
  // ---------------------------------------------------------------------

  /** The slider of a send row carries nothing an observer picks out. */
  lemma {:induction false} SliderHidden(s: Snapshot, k: Layout, g: Geometry, i: nat, top: real, kind: Kind)
    requires s.Valid() && i < SlotCount && k.maxValue > 0.0
    ensures Only(RowSlider(s, k, g, i, top), kind) == []
  {
    OnlyNone(RowSlider(s, k, g, i, top), kind);
  }

  /** The edit marker selects the edit colour and otherwise carries nothing an observer picks out. */
  lemma {:induction false} MarkerSeen(s: Snapshot, k: Layout, g: Geometry, i: nat, top: real, kind: Kind)
    requires s.Valid() && i < SlotCount && k.maxValue > 0.0
    ensures Only(RowMarker(s, k, g, i, top), kind) == if kind == EditColor && s.edited[i] then [Color(Edit)] else []
  {
    var marker := RowMarker(s, k, g, i, top);
    if s.edited[i] {
      assert marker == [Color(Edit)] + marker[1..];
      OnlyAppend([Color(Edit)], marker[1..], kind);
      OnlyOne(Color(Edit), kind);
      OnlyNone(marker[1..], kind);
    } else {
      OnlyNone(marker, kind);
    }
  }

  /** A send row shows one name label, no value text, and the edit colour only when the send is edited. */
  lemma {:induction false} RowContents(s: Snapshot, k: Layout, g: Geometry, i: nat, top: real, kind: Kind)
    requires s.Valid() && i < SlotCount && k.maxValue > 0.0
    ensures Only(Row(s, k, g, i, top), kind) ==
              (if kind == NameLabel then [RowLabel(s, k, g, i, top)] else []) +
              (if kind == EditColor && s.edited[i] then [Color(Edit)] else [])
  {
    var caption, slider, marker := RowLabel(s, k, g, i, top), RowSlider(s, k, g, i, top), RowMarker(s, k, g, i, top);
    assert Only([caption], kind) == if kind == NameLabel then [caption] else [] by { OnlyOne(caption, kind); }
    assert Only(slider, kind) == [] by { SliderHidden(s, k, g, i, top, kind); }
    assert Only(marker, kind) == if kind == EditColor && s.edited[i] then [Color(Edit)] else [] by {
      MarkerSeen(s, k, g, i, top, kind);
    }
    OnlyAppend([caption] + slider, marker, kind);
    OnlyAppend([caption], slider, kind);
  }

  /** A value box shows its text centred and nothing else an observer picks out. */
  lemma BoxContents(s: Snapshot, k: Layout, g: Geometry, i: nat, top: real, kind: Kind)
    requires i < |s.texts|
    ensures Only(Box(s, k, g, i, top), kind) ==
              if kind == ValueText && |s.texts[i]| > 0 then [BoxText(s, k, g, s.texts[i], top)] else []
  {
    var box := Box(s, k, g, i, top);
    if |s.texts[i]| == 0 {
      OnlyNone(box, kind);
    } else {
      assert box == box[..6] + [BoxText(s, k, g, s.texts[i], top)];
      OnlyAppend(box[..6], [BoxText(s, k, g, s.texts[i], top)], kind);
      OnlyNone(box[..6], kind);
      OnlyOne(BoxText(s, k, g, s.texts[i], top), kind);
    }
  }

  /** The first n rows carry the labels of sends 0 .. n-1, each at its row top. */
  lemma {:induction false} RowsLabels(s: Snapshot, k: Layout, g: Geometry, n: nat)
    requires s.Valid() && n <= SlotCount && k.maxValue > 0.0
    ensures var labels := Only(Rows(s, k, g, n), NameLabel);
            |labels| == n &&
            forall j :: 0 <= j < n ==> labels[j] == RowLabel(s, k, g, j, RowTop(s, k, g, j))
  {
    if n > 0 {
      var top := RowTop(s, k, g, n - 1);
      var prev, row := Rows(s, k, g, n - 1), Row(s, k, g, n - 1, top);
      var labels := Only(prev, NameLabel);
      assert Only(Rows(s, k, g, n), NameLabel) == labels + [RowLabel(s, k, g, n - 1, top)] by {
        assert Rows(s, k, g, n) == prev + row;
        OnlyAppend(prev, row, NameLabel);
        RowContents(s, k, g, n - 1, top, NameLabel);
      }
      assert |labels| == n - 1 && forall j :: 0 <= j < n - 1 ==> labels[j] == RowLabel(s, k, g, j, RowTop(s, k, g, j)) by {
        RowsLabels(s, k, g, n - 1);
      }
    }
  }

  /** The first n rows select the edit colour once per edited send among them. */
  lemma {:induction false} RowsEditColors(s: Snapshot, k: Layout, g: Geometry, n: nat)
    requires s.Valid() && n <= SlotCount && k.maxValue > 0.0
    ensures |Only(Rows(s, k, g, n), EditColor)| == CountTrue(s.edited[..n])
  {
    if n > 0 {
      var top := RowTop(s, k, g, n - 1);
      var prev, row := Rows(s, k, g, n - 1), Row(s, k, g, n - 1, top);
      assert |Only(Rows(s, k, g, n), EditColor)| == |Only(prev, EditColor)| + (if s.edited[n - 1] then 1 else 0) by {
        assert Rows(s, k, g, n) == prev + row;
        OnlyAppend(prev, row, EditColor);
        RowContents(s, k, g, n - 1, top, EditColor);
      }
      assert |Only(prev, EditColor)| == CountTrue(s.edited[..n - 1]) by {
        RowsEditColors(s, k, g, n - 1);
      }
      assert s.edited[..n][..n - 1] == s.edited[..n - 1];
    }
  }

  lemma {:induction false} RowsNoValueText(s: Snapshot, k: Layout, g: Geometry, n: nat)
    requires s.Valid() && n <= SlotCount && k.maxValue > 0.0
    ensures Only(Rows(s, k, g, n), ValueText) == []
  {
    if n > 0 {
      var top := RowTop(s, k, g, n - 1);
      var prev, row := Rows(s, k, g, n - 1), Row(s, k, g, n - 1, top);
      assert Rows(s, k, g, n) == prev + row;
      assert Only(prev, ValueText) == [] by { RowsNoValueText(s, k, g, n - 1); }
      assert Only(row, ValueText) == [] by { RowContents(s, k, g, n - 1, top, ValueText); }
      OnlyAppendNone(prev, row, ValueText);
    }
  }

  /** The command f makes of each slot, in the slots' order. */
  function MapSlots(f: Slot -> Command, slots: seq<Slot>): (r: seq<Command>)
    ensures |r| == |slots|
  {
    if |slots| == 0 then [] else MapSlots(f, slots[..|slots| - 1]) + [f(slots[|slots| - 1])]
  }

  /** A slot's text, centred in that slot's value box. */
  function PlaceText(s: Snapshot, k: Layout, g: Geometry): Slot -> Command
  {
    (slot: Slot) => BoxText(s, k, g, slot.text, SlotTop(k, g, slot.index) + g.rowHeight)
  }

  /** Box i adds its text, placed at slot i, exactly when that text is not empty. */
  lemma BoxesStep(s: Snapshot, k: Layout, g: Geometry, i: nat)
    requires i < |s.texts|
    ensures Only(Boxes(s, k, g, i + 1), ValueText) ==
              Only(Boxes(s, k, g, i), ValueText) + (if |s.texts[i]| == 0 then [] else [PlaceText(s, k, g)(Slot(i, s.texts[i]))])
  {
    var top := SlotTop(k, g, i) + g.rowHeight;
    assert Boxes(s, k, g, i + 1) == Boxes(s, k, g, i) + Box(s, k, g, i, top);
    OnlyAppend(Boxes(s, k, g, i), Box(s, k, g, i, top), ValueText);
    BoxContents(s, k, g, i, top, ValueText);
    assert PlaceText(s, k, g)(Slot(i, s.texts[i])) == BoxText(s, k, g, s.texts[i], top);
  }

  /** Extending ts by one slot lists that slot last, if its text is not empty. */
  lemma NonEmptySlotsStep(ts: seq<string>, n: nat)
    requires 0 < n <= |ts|
    ensures NonEmptySlots(ts[..n]) == NonEmptySlots(ts[..n - 1]) + (if |ts[n - 1]| == 0 then [] else [Slot(n - 1, ts[n - 1])])
  {
    assert ts[..n][..n - 1] == ts[..n - 1];
  }

  /** The same step, after f is applied to every listed slot. */
  lemma MapSlotsStep(f: Slot -> Command, ts: seq<string>, n: nat)
    requires 0 < n <= |ts|
    ensures MapSlots(f, NonEmptySlots(ts[..n])) ==
              MapSlots(f, NonEmptySlots(ts[..n - 1])) + (if |ts[n - 1]| == 0 then [] else [f(Slot(n - 1, ts[n - 1]))])
  {
    NonEmptySlotsStep(ts, n);
    var prev := NonEmptySlots(ts[..n - 1]);
    if |ts[n - 1]| > 0 {
      var slots := prev + [Slot(n - 1, ts[n - 1])];
      assert slots[..|prev|] == prev && slots[|prev|] == Slot(n - 1, ts[n - 1]);
    } else {
      assert prev + [] == prev;
    }
  }

  /**
   * A sequence that starts empty and, at each slot, grows by f of that slot exactly when the
   * slot's text is not empty, ends up as f applied to the non-empty slots in order.
   */
  lemma {:induction false} GrowsBySlots(shown: nat -> seq<Command>, f: Slot -> Command, ts: seq<string>, n: nat)
    requires n <= |ts|
    requires shown(0) == []
    requires forall i {:trigger ts[i]} :: 0 <= i < n ==> shown(i + 1) == shown(i) + (if |ts[i]| == 0 then [] else [f(Slot(i, ts[i]))])
    ensures shown(n) == MapSlots(f, NonEmptySlots(ts[..n]))
  {
    if n == 0 {
      assert ts[..0] == [];
    } else {
      GrowsBySlots(shown, f, ts, n - 1);
      MapSlotsStep(f, ts, n);
    }
  }

  /** The value texts among the first n value boxes, for any n (none past the last slot). */
  function ShownTexts(s: Snapshot, k: Layout, g: Geometry): nat -> seq<Command>
  {
    (n: nat) => if n <= |s.texts| then Only(Boxes(s, k, g, n), ValueText) else []
  }

  /** The first n value boxes show exactly the texts of the non-empty slots among 0 .. n-1, each in its own box. */
  lemma BoxesValueTexts(s: Snapshot, k: Layout, g: Geometry, n: nat)
    requires n <= |s.texts|
    ensures Only(Boxes(s, k, g, n), ValueText) == MapSlots(PlaceText(s, k, g), NonEmptySlots(s.texts[..n]))
  {
    var shown, f := ShownTexts(s, k, g), PlaceText(s, k, g);
    forall i {:trigger s.texts[i]} | 0 <= i < n
      ensures shown(i + 1) == shown(i) + (if |s.texts[i]| == 0 then [] else [f(Slot(i, s.texts[i]))])
    {
      BoxesStep(s, k, g, i);
      assert shown(i + 1) == Only(Boxes(s, k, g, i + 1), ValueText);
      assert shown(i) == Only(Boxes(s, k, g, i), ValueText);
    }
    GrowsBySlots(shown, f, s.texts, n);
  }

  /** Where PlaceText puts each slot's text, with the slot's top line written out in closed form. */
  lemma {:induction false} PlacedTextsAt(s: Snapshot, k: Layout, g: Geometry, slots: seq<Slot>)
    ensures forall j :: 0 <= j < |slots| ==>
              MapSlots(PlaceText(s, k, g), slots)[j] ==
                Text(slots[j].text, g.boxLeft,
                     k.menuHeight + 2.0 * (slots[j].index as real) * g.rowHeight + g.rowHeight + g.sliderHeight + 1.0 +
                       (if s.isExMode then 0.0 else k.separatorSize),
                     g.boxWidth, k.unit, Center, TextColor)
  {
    if |slots| > 0 {
      PlacedTextsAt(s, k, g, slots[..|slots| - 1]);
      SlotTopIsLinear(k, g, slots[|slots| - 1].index);
    }
  }

  lemma {:induction false} BoxesOnlyValueTexts(s: Snapshot, k: Layout, g: Geometry, n: nat, kind: Kind)
    requires n <= |s.texts| && kind != ValueText
    ensures Only(Boxes(s, k, g, n), kind) == []
  {
    if n > 0 {
      var top := SlotTop(k, g, n - 1) + g.rowHeight;
      var prev, box := Boxes(s, k, g, n - 1), Box(s, k, g, n - 1, top);
      assert Boxes(s, k, g, n) == prev + box;
      assert Only(prev, kind) == [] by { BoxesOnlyValueTexts(s, k, g, n - 1, kind); }
      assert Only(box, kind) == [] by { BoxContents(s, k, g, n - 1, top, kind); }
      OnlyAppendNone(prev, box, kind);
    }
  }

  /** What an observer picks out of a whole drawing comes from the send rows and the value boxes alone. */
  lemma OnlyOfDraw(s: Snapshot, left: real, width: real, height: real, k: Layout, kind: Kind)
    requires s.Valid() && k.maxValue > 0.0
    ensures var g := Measure(left, width, height, k);
            Only(DrawCommands(s, left, width, height, k), kind) ==
              if s.IsOff() then []
              else Only(Rows(s, k, g, RowCount(s.names)), kind) + Only(Boxes(s, k, g, |s.texts|), kind)
  {
    var g := Measure(left, width, height, k);
    var header := [Header(s.menuName, s.isMenuSelected, s.name, s.isSelected)];
    OnlyNone(header, kind);
    if !s.IsOff() {
      var background, rowFont, boxFont := SliderBackground(s, k, g, left, width), [FontSize(g.rowHeight)], [FontSize(k.unit)];
      DrawCommandsWhenOn(s, left, width, height, k);
      OnlyNone(background, kind);
      OnlyNone(rowFont, kind);
      OnlyNone(boxFont, kind);
      OnlySkips(header, background, rowFont, Rows(s, k, g, RowCount(s.names)), boxFont, Boxes(s, k, g, |s.texts|), kind);
    }
  }

  // ---------------------------------------------------------------------
  // What draw shows
  // ---------------------------------------------------------------------

  /** Draw always starts with the superclass header, and stops right after it exactly when the element is off. */
  lemma OffDrawsOnlyHeader(s: Snapshot, left: real, width: real, height: real, k: Layout)
    requires s.Valid() && k.maxValue > 0.0
    ensures var cmds := DrawCommands(s, left, width, height, k);
            |cmds| >= 1 && cmds[0] == Header(s.menuName, s.isMenuSelected, s.name, s.isSelected) &&
            (cmds == [cmds[0]] <==> s.IsOff())
  {
    if !s.IsOff() {
      DrawCommandsWhenOn(s, left, width, height, k);
    }
  }

  /** The name labels of a drawing are those of its send rows. */
  lemma DrawnLabels(s: Snapshot, left: real, width: real, height: real, k: Layout)
    requires s.Valid() && k.maxValue > 0.0
    ensures Only(DrawCommands(s, left, width, height, k), NameLabel) ==
              if s.IsOff() then [] else Only(Rows(s, k, Measure(left, width, height, k), RowCount(s.names)), NameLabel)
  {
    OnlyOfDraw(s, left, width, height, k, NameLabel);
    if !s.IsOff() {
      BoxesOnlyValueTexts(s, k, Measure(left, width, height, k), |s.texts|, NameLabel);
    }
  }

  /**
   * labels[j] is the name of send j, left-aligned across the slider and one row high, its top
   * 2 * j row heights below the menu plus one separator, and one more separator unless the
   * element extends its neighbour.
   */
  predicate LabelsAtRows(s: Snapshot, k: Layout, g: Geometry, labels: seq<Command>)
  {
    |labels| <= |s.names| &&
    forall j :: 0 <= j < |labels| ==>
      labels[j] == Text(s.names[j], g.faderLeft,
                        k.menuHeight + 2.0 * (j as real) * g.rowHeight + (if s.isExMode then 0.0 else k.separatorSize) +
                          k.separatorSize,
                        g.sliderWidth, g.rowHeight, Left, TextColor)
  }

  /** Labels one separator below their row tops sit where LabelsAtRows says. */
  lemma LabelsBelowRowTops(s: Snapshot, k: Layout, g: Geometry, labels: seq<Command>)
    requires |labels| <= |s.names|
    requires forall j :: 0 <= j < |labels| ==>
               labels[j] == Text(s.names[j], g.faderLeft, RowTop(s, k, g, j) + k.separatorSize,
                                 g.sliderWidth, g.rowHeight, Left, TextColor)
    ensures LabelsAtRows(s, k, g, labels)
  {
    forall j | 0 <= j < |labels|
      ensures RowTop(s, k, g, j) ==
                k.menuHeight + 2.0 * (j as real) * g.rowHeight + (if s.isExMode then 0.0 else k.separatorSize)
    {
      SlotTopIsLinear(k, g, j);
    }
  }

  /**
   * One name label per send up to the first unnamed one, whether or not the
   * element is an extension, each where LabelsAtRows puts it.
   */
  lemma SendRowsDrawn(s: Snapshot, left: real, width: real, height: real, k: Layout)
    requires s.Valid() && k.maxValue > 0.0
    ensures var labels := Only(DrawCommands(s, left, width, height, k), NameLabel);
            |labels| == (if s.IsOff() then 0 else RowCount(s.names)) &&
            LabelsAtRows(s, k, Measure(left, width, height, k), labels)
  {
    var g := Measure(left, width, height, k);
    var labels := Only(DrawCommands(s, left, width, height, k), NameLabel);
    DrawnLabels(s, left, width, height, k);
    if !s.IsOff() {
      RowsLabels(s, k, g, RowCount(s.names));
    }
    LabelsBelowRowTops(s, k, g, labels);
  }

  /** The first label sits one separator below the first row's top, and each next one two row heights lower. */
  lemma LabelSpacing(s: Snapshot, left: real, width: real, height: real, k: Layout)
    requires s.Valid() && k.maxValue > 0.0
    ensures var g := Measure(left, width, height, k);
            var labels := Only(DrawCommands(s, left, width, height, k), NameLabel);
            (|labels| > 0 ==>
               labels[0].Text? &&
               labels[0].y == k.menuHeight + (if s.isExMode then 0.0 else k.separatorSize) + k.separatorSize) &&
            forall i, j :: 0 <= i && j == i + 1 && j < |labels| ==>
              labels[i].Text? && labels[j].Text? && labels[j].y == labels[i].y + 2.0 * g.rowHeight
  {
    DrawnLabels(s, left, width, height, k);
    if !s.IsOff() {
      RowsLabels(s, k, Measure(left, width, height, k), RowCount(s.names));
    }
  }

  /** The edit colour is selected once for every edited send among the rows drawn. */
  lemma EditMarkersDrawn(s: Snapshot, left: real, width: real, height: real, k: Layout)
    requires s.Valid() && k.maxValue > 0.0
    ensures |Only(DrawCommands(s, left, width, height, k), EditColor)| ==
              if s.IsOff() then 0 else CountTrue(s.edited[..RowCount(s.names)])
  {
    var g := Measure(left, width, height, k);
    var markers := Only(DrawCommands(s, left, width, height, k), EditColor);
    if s.IsOff() {
      assert markers == [] by { OnlyOfDraw(s, left, width, height, k, EditColor); }
    } else {
      assert markers == Only(Rows(s, k, g, RowCount(s.names)), EditColor) by {
        OnlyOfDraw(s, left, width, height, k, EditColor);
        BoxesOnlyValueTexts(s, k, g, |s.texts|, EditColor);
      }
      RowsEditColors(s, k, g, RowCount(s.names));
    }
  }

  /**
   * texts[j] is the text of slots[j], centred in the right half of the slider, hanging from
   * the line 2 * i + 1 row heights below the menu (i the slot's index), one slider height and
   * one unit lower, plus a separator unless the element extends its neighbour; each text ends
   * where the slider ends.
   */
  predicate TextsAtSlots(s: Snapshot, k: Layout, g: Geometry, texts: seq<Command>, slots: seq<Slot>)
  {
    |texts| <= |slots| &&
    forall j :: 0 <= j < |texts| ==>
      texts[j] == Text(slots[j].text, g.boxLeft,
                       k.menuHeight + 2.0 * (slots[j].index as real) * g.rowHeight + g.rowHeight + g.sliderHeight + 1.0 +
                         (if s.isExMode then 0.0 else k.separatorSize),
                       g.boxWidth, k.unit, Center, TextColor) &&
      texts[j].x + texts[j].w == g.faderLeft + g.sliderWidth
  }

  /** Texts placed at their slots (none when off) sit where TextsAtSlots says. */
  lemma SlotTextsAt(s: Snapshot, k: Layout, g: Geometry, texts: seq<Command>, slots: seq<Slot>, off: bool)
    requires texts == if off then [] else MapSlots(PlaceText(s, k, g), slots)
    requires g.boxLeft + g.boxWidth == g.faderLeft + g.sliderWidth
    ensures |texts| == (if off then 0 else |slots|) && TextsAtSlots(s, k, g, texts, slots)
  {
    if !off {
      PlacedTextsAt(s, k, g, slots);
    }
  }

  /** The value texts drawn are those of the non-empty slots, each placed at its slot; none when the element is off. */
  lemma DrawnSlotTexts(s: Snapshot, left: real, width: real, height: real, k: Layout)
    requires s.Valid() && k.maxValue > 0.0
    ensures var g := Measure(left, width, height, k);
            Only(DrawCommands(s, left, width, height, k), ValueText) ==
              if s.IsOff() then [] else MapSlots(PlaceText(s, k, g), NonEmptySlots(s.texts))
  {
    var g := Measure(left, width, height, k);
    OnlyOfDraw(s, left, width, height, k, ValueText);
    if !s.IsOff() {
      RowsNoValueText(s, k, g, RowCount(s.names));
      assert s.texts[..|s.texts|] == s.texts;
      BoxesValueTexts(s, k, g, |s.texts|);
    }
  }

  /**
   * Every slot with a value text, and no other, gets a centred text in the right half of the
   * slider, in slot order and whatever the send names are. Slot i's text hangs from the line
   * 2 * i + 1 row heights below the menu, one slider height and one unit lower, plus a
   * separator unless the element extends its neighbour.
   */
  lemma ValueTextsDrawn(s: Snapshot, left: real, width: real, height: real, k: Layout)
    requires s.Valid() && k.maxValue > 0.0
    ensures var texts := Only(DrawCommands(s, left, width, height, k), ValueText);
            |texts| == (if s.IsOff() then 0 else |NonEmptySlots(s.texts)|) &&
            TextsAtSlots(s, k, Measure(left, width, height, k), texts, NonEmptySlots(s.texts))
  {
    var g := Measure(left, width, height, k);
    DrawnSlotTexts(s, left, width, height, k);
    SlotTextsAt(s, k, g, Only(DrawCommands(s, left, width, height, k), ValueText), NonEmptySlots(s.texts), s.IsOff());
  }

  /**
   * The slider background is lighter exactly when the element is selected or
   * extends its neighbour; an extension reaches one separator further left,
   * keeps the right edge and is 2 shorter.
   */
  lemma BackgroundShape(s: Snapshot, left: real, width: real, height: real, k: Layout)
    requires s.Valid() && k.maxValue > 0.0 && !s.IsOff()
    ensures var g := Measure(left, width, height, k);
            var cmds := DrawCommands(s, left, width, height, k);
            |cmds| >= 4 && cmds[1].Color? && cmds[2].Rect? && cmds[3] == FillPath &&
            (cmds[1].role == BackgroundLighter <==> s.isSelected || s.isExMode) &&
            (cmds[1].role != BackgroundLighter ==> cmds[1].role == Background) &&
            cmds[2].x + cmds[2].w == left + width && cmds[2].y == g.t &&
            (s.isExMode ==> cmds[2].x == left - k.separatorSize && cmds[2].h == g.h - 2.0) &&
            (!s.isExMode ==> cmds[2].x == left && cmds[2].h == g.h)
  {
    DrawCommandsWhenOn(s, left, width, height, k);
  }

  // ---------------------------------------------------------------------
  // One send row
  // ---------------------------------------------------------------------

  lemma ValueWidthBounds(v: int, k: Layout, g: Geometry)
    requires k.maxValue > 0.0 && g.sliderWidth >= 0.0 && 0 <= v
    ensures 0.0 <= ValueWidth(v, k, g)
    ensures v as real <= k.maxValue ==> ValueWidth(v, k, g) <= g.sliderWidth
  {
    var x := v as real * g.sliderWidth;
    assert 0.0 <= x;
    if v as real <= k.maxValue {
      assert x <= k.maxValue * g.sliderWidth;
      assert x / k.maxValue <= g.sliderWidth;
    }
  }

  /**
   * The fader fill shows the modulated value unless it is the sentinel, in
   * which case it shows the send value; it starts one unit inside the frame.
   */
  lemma FillFollowsModulation(s: Snapshot, k: Layout, g: Geometry, i: nat, top: real, v: int)
    requires s.Valid() && i < SlotCount && k.maxValue > 0.0
    ensures var fill := RowSlider(s, k, g, i, top)[4];
            fill.Rect? && fill.x == g.faderLeft + 1.0 &&
            (s.modulated[i] != NotModulated ==>
               fill.w == ValueWidth(s.modulated[i], k, g) - 1.0 &&
               RowSlider(s.(values := s.values[i := v]), k, g, i, top) == RowSlider(s, k, g, i, top)) &&
            (s.modulated[i] == NotModulated ==> fill.w == ValueWidth(s.values[i], k, g) - 1.0)
  {
    var s' := s.(values := s.values[i := v]);
    assert s'.modulated[i] == s.modulated[i];
  }

  /** With the value shown in range the fill stays inside the slider frame drawn just before it. */
  lemma FaderWithinSlider(s: Snapshot, k: Layout, g: Geometry, i: nat, top: real)
    requires s.Valid() && i < SlotCount && k.maxValue > 0.0 && g.sliderWidth >= 0.0
    requires 0 <= s.values[i] && s.values[i] as real <= k.maxValue
    requires s.modulated[i] != NotModulated ==> 0 <= s.modulated[i] && s.modulated[i] as real <= k.maxValue
    ensures var frame, fill := RowSlider(s, k, g, i, top)[1], RowSlider(s, k, g, i, top)[4];
            frame.Rect? && fill.Rect? && frame.x < fill.x && fill.x + fill.w <= frame.x + frame.w &&
            frame.y < fill.y && fill.y + fill.h < frame.y + frame.h
  {
    if s.modulated[i] != NotModulated {
      ValueWidthBounds(s.modulated[i], k, g);
    } else {
      ValueWidthBounds(s.values[i], k, g);
    }
  }

  /**
   * The documented "not modulated" value -1 is not the sentinel the code
   * compares with: it is drawn as a fill of negative width.
   */
  lemma DocumentedSentinelIgnored(s: Snapshot, k: Layout, g: Geometry, i: nat, top: real)
    requires s.Valid() && i < SlotCount && k.maxValue > 0.0 && g.sliderWidth > 0.0
    requires s.modulated[i] == -1
    ensures RowSlider(s, k, g, i, top)[4].Rect? && RowSlider(s, k, g, i, top)[4].w < -1.0
  {
    assert -1 as real * g.sliderWidth < 0.0;
  }

  /**
   * The edit marker appears exactly for an edited send; it is 3 wide while a
   * value text is shown and 1 otherwise, starts at the smaller of one past the
   * value and the slider's right edge less its width and one, and with a value
   * in range never starts left of the fill.
   */
  lemma MarkerInsideSlider(s: Snapshot, k: Layout, g: Geometry, i: nat, top: real)
    requires s.Valid() && i < SlotCount && k.maxValue > 0.0
    ensures var marker := RowMarker(s, k, g, i, top);
            (marker != [] <==> s.edited[i]) &&
            (s.edited[i] ==>
               |marker| == 3 && marker[0] == Color(Edit) && marker[1].Rect? && marker[2] == FillPath &&
               marker[1].w == (if |s.texts[i]| > 0 then 3.0 else 1.0) &&
               (marker[1].x == g.faderLeft + g.sliderWidth - marker[1].w - 1.0 ||
                marker[1].x == g.faderLeft + ValueWidth(s.values[i], k, g) + 1.0) &&
               marker[1].x + marker[1].w <= g.faderLeft + g.sliderWidth - 1.0 &&
               marker[1].x <= g.faderLeft + ValueWidth(s.values[i], k, g) + 1.0 &&
               (0 <= s.values[i] && g.sliderWidth >= marker[1].w + 2.0 ==> marker[1].x >= g.faderLeft + 1.0))
  {
    if s.edited[i] && 0 <= s.values[i] && g.sliderWidth >= 0.0 {
      ValueWidthBounds(s.values[i], k, g);
    }
  }
}
