/**
 * The base behaviour every controller mode inherits: its construction defaults, the hooks that
 * do nothing until a concrete mode overrides them, and item navigation through the mode's bank.
 * Navigation is observed through the calls the mode makes on the bank, which the bank records.
 */
module Modes {
  import opened Wrappers

  /** A call a mode makes on its bank. */
  datatype BankCall =
    | PreviousItemCall
    | NextItemCall
    | PreviousPageCall
    | NextPageCall
    | ItemSelectCall(index: int)  // selects the bank's item at index
  {
    predicate IsPageCall() { PreviousPageCall? || NextPageCall? }
  }

  /** The navigation requests a mode answers. */
  datatype Request =
    | PreviousItem
    | NextItem
    | PreviousItemPage
    | NextItemPage
    | Item(index: int)

  /** The event a button reports. */
  datatype ButtonEvent = Down | Up | Long

  /**
   * The bank calls a request leads to: none without a bank; with one, the shift modifier turns
   * an item step into a page step, and everything else goes to the bank method of its own name.
   */
  function Calls(request: Request, hasBank: bool, shiftPressed: bool): (calls: seq<BankCall>)
    ensures !hasBank ==> |calls| == 0
    ensures |calls| <= 1
    decreases if request.PreviousItem? || request.NextItem? then 1 else 0
  {
    match request
    case PreviousItem =>
      if shiftPressed then Calls(PreviousItemPage, hasBank, shiftPressed)
      else if hasBank then [PreviousItemCall] else []
    case NextItem =>
      if shiftPressed then Calls(NextItemPage, hasBank, shiftPressed)
      else if hasBank then [NextItemCall] else []
    case PreviousItemPage => if hasBank then [PreviousPageCall] else []
    case NextItemPage => if hasBank then [NextPageCall] else []
    case Item(index) => if hasBank then [ItemSelectCall(index)] else []
  }

  /**
   * A bank of items (tracks, devices, scenes, ...). Its implementation is not part of this model:
   * it records the calls it receives and exposes whether it can scroll in each direction.
   */
  class Bank {
    var log: seq<BankCall>
    var canScrollBackwards: bool
    var canScrollForwards: bool
    var canScrollPageBackwards: bool
    var canScrollPageForwards: bool

    constructor (backwards: bool, forwards: bool, pageBackwards: bool, pageForwards: bool)
      ensures log == []
      ensures canScrollBackwards == backwards && canScrollForwards == forwards
      ensures canScrollPageBackwards == pageBackwards && canScrollPageForwards == pageForwards
    {
      log := [];
      canScrollBackwards, canScrollForwards := backwards, forwards;
      canScrollPageBackwards, canScrollPageForwards := pageBackwards, pageForwards;
    }

    /** Receives one call; how the bank reacts to it is not modelled. */
    method Receive(call: BankCall)
      modifies this
      ensures log == old(log) + [call]
    {
      log := log + [call];
    }
  }

  /** The control surface, of which a mode only asks whether the shift button is held. */
  class ControlSurface {
    var shiftPressed: bool

    constructor (shiftPressed: bool)
      ensures this.shiftPressed == shiftPressed
    {
      this.shiftPressed := shiftPressed;
    }
  }

  /**
   * The base class of all modes. The model M is carried but never consulted here. The bank is
   * what getBank returns: absent for this class, present for a mode that overrides getBank.
   */
  class AbstractMode<M> {
    const name: string
    const surface: ControlSurface
    const model: M
    const bank: Bank?
    var isTemporary: bool
    var isAbsolute: bool

    /** A new mode changes values absolutely and is temporary. */
    constructor (name: string, surface: ControlSurface, model: M)
      ensures this.name == name && this.surface == surface && this.model == model
      ensures isAbsolute && isTemporary && bank == null
    {
      this.name := name;
      this.surface := surface;
      this.model := model;
      this.bank := null;
      this.isAbsolute := true;
      this.isTemporary := true;
    }

    /** The caller chooses absolute or relative value changes; the mode is temporary. */
    constructor WithValueChange(name: string, surface: ControlSurface, model: M, isAbsolute: bool)
      ensures this.name == name && this.surface == surface && this.model == model
      ensures this.isAbsolute == isAbsolute && isTemporary && bank == null
    {
      this.name := name;
      this.surface := surface;
      this.model := model;
      this.bank := null;
      this.isAbsolute := isAbsolute;
      this.isTemporary := true;
    }

    /** A mode whose getBank returns the given bank, as a concrete mode's override does. */
    constructor WithBank(name: string, surface: ControlSurface, model: M, isAbsolute: bool, bank: Bank)
      ensures this.name == name && this.surface == surface && this.model == model
      ensures this.isAbsolute == isAbsolute && isTemporary && this.bank == bank
    {
      this.name := name;
      this.surface := surface;
      this.model := model;
      this.bank := bank;
      this.isAbsolute := isAbsolute;
      this.isTemporary := true;
    }

    function GetName(): (r: string)
      ensures r == name
    {
      name
    }

    function IsAbsolute(): (r: bool)
      reads this
      ensures r == isAbsolute
    {
      isAbsolute
    }

    function IsTemporary(): (r: bool)
      reads this
      ensures r == isTemporary
    {
      isTemporary
    }

    /** No knob has a value to report. */
    function GetKnobValue(index: int): (r: int)
      ensures r == -1
    {
      -1
    }

    /** No item name to report. */
    function GetSelectedItemName(): (r: Option<string>)
      ensures r.None?
    {
      None
    }

    function GetBank(): (b: Bank?)
      ensures b == bank
    {
      bank
    }

    function HasPreviousItem(): (r: bool)
      reads bank
      ensures bank == null ==> !r
      ensures bank != null ==> (r <==> bank.canScrollBackwards)
    {
      GetBank() != null && GetBank().canScrollBackwards
    }

    function HasNextItem(): (r: bool)
      reads bank
      ensures bank == null ==> !r
      ensures bank != null ==> (r <==> bank.canScrollForwards)
    {
      GetBank() != null && GetBank().canScrollForwards
    }

    function HasPreviousItemPage(): (r: bool)
      reads bank
      ensures bank == null ==> !r
      ensures bank != null ==> (r <==> bank.canScrollPageBackwards)
    {
      GetBank() != null && GetBank().canScrollPageBackwards
    }

    function HasNextItemPage(): (r: bool)
      reads bank
      ensures bank == null ==> !r
      ensures bank != null ==> (r <==> bank.canScrollPageForwards)
    {
      GetBank() != null && GetBank().canScrollPageForwards
    }

    // The hooks a concrete mode overrides; here they change nothing.

    method OnActivate()
      ensures unchanged(this, surface) && (bank != null ==> unchanged(bank))
    {
    }

    method OnDeactivate()
      ensures unchanged(this, surface) && (bank != null ==> unchanged(bank))
    {
    }

    method UpdateDisplay()
      ensures unchanged(this, surface) && (bank != null ==> unchanged(bank))
    {
    }

    method OnKnobValue(index: int, value: int)
      ensures unchanged(this, surface) && (bank != null ==> unchanged(bank))
    {
    }

    method OnKnobTouch(index: int, isTouched: bool)
      ensures unchanged(this, surface) && (bank != null ==> unchanged(bank))
    {
    }

    method UpdateFirstRow()
      ensures unchanged(this, surface) && (bank != null ==> unchanged(bank))
    {
    }

    method UpdateSecondRow()
      ensures unchanged(this, surface) && (bank != null ==> unchanged(bank))
    {
    }

    method OnButton(row: int, index: int, event: ButtonEvent)
      ensures unchanged(this, surface) && (bank != null ==> unchanged(bank))
    {
    }

    /** Selects the bank's item at index, if there is a bank. */
    method SelectItemAt(index: int)
      modifies bank
      ensures bank != null ==> bank.log == old(bank.log) + Calls(Item(index), true, surface.shiftPressed)
      ensures unchanged(this, surface)
    {
      var b := GetBank();
      if b != null {
        b.Receive(ItemSelectCall(index));
      }
    }

    method SelectPreviousItemPage()
      modifies bank
      ensures bank != null ==>
                bank.log == old(bank.log) + Calls(PreviousItemPage, true, surface.shiftPressed)
      ensures unchanged(this, surface)
    {
      var b := GetBank();
      if b != null {
        b.Receive(PreviousPageCall);
      }
    }

    method SelectNextItemPage()
      modifies bank
      ensures bank != null ==> bank.log == old(bank.log) + Calls(NextItemPage, true, surface.shiftPressed)
      ensures unchanged(this, surface)
    {
      var b := GetBank();
      if b != null {
        b.Receive(NextPageCall);
      }
    }

    /** With shift held this is a page step backwards; otherwise one item backwards. */
    method SelectPreviousItem()
      modifies bank
      ensures bank != null ==> bank.log == old(bank.log) + Calls(PreviousItem, true, surface.shiftPressed)
      ensures unchanged(this, surface)
    {
      if surface.shiftPressed {
        SelectPreviousItemPage();
        return;
      }
      var b := GetBank();
      if b != null {
        b.Receive(PreviousItemCall);
      }
    }

    /** With shift held this is a page step forwards; otherwise one item forwards. */
    method SelectNextItem()
      modifies bank
      ensures bank != null ==> bank.log == old(bank.log) + Calls(NextItem, true, surface.shiftPressed)
      ensures unchanged(this, surface)
    {
      if surface.shiftPressed {
        SelectNextItemPage();
        return;
      }
      var b := GetBank();
      if b != null {
        b.Receive(NextItemCall);
      }
    }
  }

  /** With shift held, an item step is exactly the page step in the same direction. */
  lemma ShiftRedirectsToPages(hasBank: bool)
    ensures Calls(PreviousItem, hasBank, true) == Calls(PreviousItemPage, hasBank, true)
    ensures Calls(NextItem, hasBank, true) == Calls(NextItemPage, hasBank, true)
  {
  }

  /** With shift held, an item step reaches the bank only through a page method, and at most once. */
  lemma ShiftedStepsArePageCalls(request: Request, hasBank: bool)
    requires request.PreviousItem? || request.NextItem?
    ensures |Calls(request, hasBank, true)| <= 1
    ensures forall j :: 0 <= j < |Calls(request, hasBank, true)| ==> Calls(request, hasBank, true)[j].IsPageCall()
  {
  }

  /** Without shift and with a bank, an item step is the one bank call of the same direction. */
  lemma UnshiftedItemSteps()
    ensures Calls(PreviousItem, true, false) == [PreviousItemCall]
    ensures Calls(NextItem, true, false) == [NextItemCall]
  {
  }

  /** The page steps and item selection do not consult the shift modifier. */
  lemma ShiftIgnoredOutsideItemSteps(request: Request, hasBank: bool)
    requires !request.PreviousItem? && !request.NextItem?
    ensures Calls(request, hasBank, true) == Calls(request, hasBank, false)
  {
  }

  /** Selecting an item with a bank selects exactly the item at that index. */
  lemma SelectItemSelectsIndex(index: int, shiftPressed: bool)
    ensures Calls(Item(index), true, shiftPressed) == [ItemSelectCall(index)]
  {
  }
}
