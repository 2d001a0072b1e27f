/** The transformer configuration: a list of pedal buttons, each with a
    number, a MIDI note and a label, and a list of filters. */
module Transformer {
  import opened Wrappers
  import opened MugresCore

  /** `TransformerConfig.Button`. */
  class Button {
    var number: int
    var midi: int
    /** The button's label (`label` is a reserved word here). */
    var text: Option<string>

    constructor ()
      ensures number == 0 && midi == 0 && text == None
    {
      number := 0;
      midi := 0;
      text := None;
    }

    function GetNumber(): int
      reads this
    {
      number
    }

    method SetNumber(number: int)
      modifies this
      ensures GetNumber() == number
      ensures midi == old(midi) && text == old(text)
    {
      this.number := number;
    }

    function GetMidi(): int
      reads this
    {
      midi
    }

    method SetMidi(midi: int)
      modifies this
      ensures GetMidi() == midi
      ensures number == old(number) && text == old(text)
    {
      this.midi := midi;
    }

    function GetLabel(): Option<string>
      reads this
    {
      text
    }

    method SetLabel(text: Option<string>)
      modifies this
      ensures GetLabel() == text
      ensures number == old(number) && midi == old(midi)
    {
      this.text := text;
    }

    /** `getPitch()`: the pitch whose MIDI number is the stored one. */
    function GetPitch(): (p: Pitch)
      reads this
      ensures p.midi == GetMidi()
    {
      Pitch(midi)
    }
  }

  /** `TransformerConfig.Filter`; its untyped argument map is not modelled. */
  class Filter {
    var filter: Option<string>

    constructor ()
      ensures filter == None
    {
      filter := None;
    }

    function GetFilter(): Option<string>
      reads this
    {
      filter
    }

    method SetFilter(filter: Option<string>)
      modifies this
      ensures GetFilter() == filter
    {
      this.filter := filter;
    }
  }

  /** Index of the first button numbered `number`, or `|buttons|`. */
  function FirstNumberedIndex(buttons: seq<Button>, number: int): (k: nat)
    reads buttons
    ensures k <= |buttons|
    ensures forall j :: 0 <= j < k ==> buttons[j].number != number
    ensures k < |buttons| ==> buttons[k].number == number
    decreases |buttons|
  {
    if buttons == [] then 0
    else if buttons[0].number == number then 0
    else 1 + FirstNumberedIndex(buttons[1..], number)
  }

  class TransformerConfig {
    var buttons: seq<Button>
    var filters: seq<Filter>

    constructor ()
      ensures buttons == [] && filters == []
    {
      buttons := [];
      filters := [];
    }

    function GetButtons(): seq<Button>
      reads this
    {
      buttons
    }

    method SetButtons(buttons: seq<Button>)
      modifies this
      ensures GetButtons() == buttons
      ensures filters == old(filters)
    {
      this.buttons := buttons;
    }

    function GetFilters(): seq<Filter>
      reads this
    {
      filters
    }

    method SetFilters(filters: seq<Filter>)
      modifies this
      ensures GetFilters() == filters
      ensures buttons == old(buttons)
    {
      this.filters := filters;
    }

    /** `getButton(number)`: the first button in list order with that
        number, or null exactly when no button has it. */
    function GetButton(number: int): (b: Button?)
      reads this, buttons
      ensures b == null <==> forall j :: 0 <= j < |buttons| ==> buttons[j].number != number
      ensures b != null ==> b.number == number
      ensures b != null ==> exists k :: 0 <= k < |buttons| && buttons[k] == b &&
                              forall j :: 0 <= j < k ==> buttons[j].number != number
    {
      var k := FirstNumberedIndex(buttons, number);
      if k < |buttons| then buttons[k] else null
    }
  }
}
