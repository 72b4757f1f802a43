/** The breed combobox: choosing a breed emits the new value (choosing the
    current one again clears it) and closes the popover; the trigger shows the
    chosen breed or a placeholder. The breed list is a parameter. */
module BreedSelector {
  import opened Seqs

  /** The value `handleSelect(choice)` emits while `value` is selected: a listed,
      non-empty breed toggles against the current value; anything else clears. */
  function Chosen(breeds: seq<string>, value: string, choice: string): (v: string)
    ensures choice in breeds && choice != "" && choice != value ==> v == choice
    ensures choice == value ==> v == ""
    ensures choice !in breeds ==> v == ""
    ensures v == "" || (v in breeds && v != value)
  {
    var found := FirstMatch(breeds, (b: string) => b == choice);
    if found.Some? && found.value != "" then
      (if found.value == value then "" else found.value)
    else ""
  }

  /** Choosing the same breed twice from nothing selects and then clears it. */
  lemma ChooseTwiceClears(breeds: seq<string>, choice: string)
    requires choice in breeds && choice != ""
    ensures Chosen(breeds, "", choice) == choice
    ensures Chosen(breeds, Chosen(breeds, "", choice), choice) == ""
  {
  }

  /** `displayValue`: the placeholder for an empty value, otherwise the listed
      breed equal to it (`None`, i.e. nothing shown, when it is not listed). */
  function DisplayValue(breeds: seq<string>, value: string, placeholder: string): (d: Option<string>)
    ensures value == "" ==> d == Some(placeholder)
    ensures value != "" && value in breeds ==> d == Some(value)
    ensures value != "" && value !in breeds ==> d.None?
  {
    if value == "" then Some(placeholder) else FirstMatch(breeds, (b: string) => b == value)
  }

  class BreedCombobox {
    const breeds: seq<string>
    /** The parent's state the component reports to through `onValueChange`. */
    var value: string
    var open: bool

    constructor (breeds: seq<string>, value: string)
      ensures this.breeds == breeds && this.value == value && !open
    {
      this.breeds := breeds;
      this.value := value;
      open := false;
    }

    /** `handleSelect`. */
    method Select(choice: string)
      modifies this`value, this`open
      ensures value == Chosen(breeds, old(value), choice)
      ensures !open
      ensures value == "" || value in breeds
    {
      var found := FirstMatch(breeds, (b: string) => b == choice);
      if found.Some? && found.value != "" {
        value := if found.value == value then "" else found.value;
      } else {
        value := "";
      }
      open := false;
    }

    method SetOpen(open: bool)
      modifies this`open
      ensures this.open == open
    {
      this.open := open;
    }

    /** What the trigger shows. */
    function Display(placeholder: string): Option<string>
      reads this
    {
      DisplayValue(breeds, value, placeholder)
    }
  }

  /** After any choice, the trigger shows the placeholder or the chosen breed. */
  method SelectThenDisplay(box: BreedCombobox, choice: string, placeholder: string) returns (shown: Option<string>)
    modifies box
    ensures shown == Some(placeholder) || shown == Some(box.value)
    ensures box.value != "" ==> shown == Some(choice)
  {
    box.Select(choice);
    shown := box.Display(placeholder);
  }
}
