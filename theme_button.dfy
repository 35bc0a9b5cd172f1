/**
 * The theme button in the menu: it shows the option that matches the selected
 * theme and, on a click, selects the next of system, light and dark theme.
 */
module ThemeButton {

  /**
   * What the theme selection can hold: `null` (the initial selection), `undefined`
   * (the system theme option) or one of the two themes.
   */
  datatype ThemeValue = Null | Undefined | Light | Dark

  /** JavaScript's `==` on these values: `null` and `undefined` are loosely equal. */
  predicate LooseEq(a: ThemeValue, b: ThemeValue) {
    a == b || ((a == Null || a == Undefined) && (b == Null || b == Undefined))
  }

  /** An option of the button; the icon is left out. */
  datatype ThemeOption = ThemeOption(labelText: string, value: ThemeValue)

  /** The button's options, in the order the button cycles through them. */
  function Options(): seq<ThemeOption> {
    [ThemeOption("system theme", Undefined), ThemeOption("light theme", Light), ThemeOption("dark theme", Dark)]
  }

  /** `findIndex` with loose equality: the first option whose value `== v`, or -1. */
  function FindIndex(options: seq<ThemeOption>, v: ThemeValue): (i: int)
    ensures -1 <= i < |options|
    ensures i >= 0 ==> LooseEq(options[i].value, v)
    ensures forall j :: 0 <= j < |options| && (i == -1 || j < i) ==> !LooseEq(options[j].value, v)
    decreases |options|
  {
    if options == [] then -1
    else if LooseEq(options[0].value, v) then 0
    else
      var i := FindIndex(options[1..], v);
      if i == -1 then -1 else i + 1
  }

  /**
   * Every selection matches an option, so the button always has a current
   * option: `null` and `undefined` match the system theme, each theme its own.
   */
  lemma {:induction false} EverySelectionMatches(v: ThemeValue)
    ensures 0 <= FindIndex(Options(), v) < 3
    ensures FindIndex(Options(), v) == (match v case Null => 0 case Undefined => 0 case Light => 1 case Dark => 2)
  {
    var o := Options();
    assert o[1..][1..] == [o[2]];
    assert [o[2]][1..] == [];
  }

  /** The option `cycle` moves to from the option at index `i`. */
  function NextIndex(i: int): (r: int)
    requires 0 <= i < 3
    ensures 0 <= r < 3 && r != i
  {
    (i + 1) % 3
  }

  /** From the system theme to the light theme, to the dark theme and back. */
  lemma NextIndexCycles()
    ensures NextIndex(0) == 1 && NextIndex(1) == 2 && NextIndex(2) == 0
  {
  }

  /**
   * Three clicks bring the button back to the option it showed, after showing
   * the two others.
   */
  lemma ThreeCyclesRestore(v: ThemeValue)
    ensures var i0 := FindIndex(Options(), v);
            0 <= i0 < 3 &&
            var v1 := Options()[NextIndex(i0)].value;
            var i1 := FindIndex(Options(), v1);
            0 <= i1 < 3 &&
            var v2 := Options()[NextIndex(i1)].value;
            var i2 := FindIndex(Options(), v2);
            0 <= i2 < 3 &&
            var v3 := Options()[NextIndex(i2)].value;
            && {i0, i1, i2} == {0, 1, 2}
            && FindIndex(Options(), v3) == i0
  {
    NextIndexCycles();
    EverySelectionMatches(v);
    OptionFindsItself(0);
    OptionFindsItself(1);
    OptionFindsItself(2);
  }

  /** The value of the option at index `i` is found at `i`: no two options are loosely equal. */
  lemma OptionFindsItself(i: int)
    requires 0 <= i < 3
    ensures FindIndex(Options(), Options()[i].value) == i
  {
    EverySelectionMatches(Options()[i].value);
  }

  /** The theme service's selection, which the button reads and sets. */
  class ThemeService {
    var selection: ThemeValue

    /** Nothing is selected at first. */
    constructor()
      ensures selection == Null
    {
      selection := Null;
    }
  }

  class ThemeButtonComponent {
    const options: seq<ThemeOption>
    const themeService: ThemeService

    constructor(service: ThemeService)
      ensures options == Options() && themeService == service
    {
      options := Options();
      themeService := service;
    }

    /** The options the button was built with. */
    ghost predicate Valid() {
      options == Options()
    }

    /** `currentIndex`: the first option loosely equal to the selection; always one of the three. */
    function CurrentIndex(): (i: int)
      requires Valid()
      reads themeService
      ensures 0 <= i < 3 && LooseEq(options[i].value, themeService.selection)
      ensures forall j :: 0 <= j < i ==> !LooseEq(options[j].value, themeService.selection)
    {
      EverySelectionMatches(themeService.selection);
      FindIndex(options, themeService.selection)
    }

    /** `currentOption`: the option at the current index. */
    function CurrentOption(): (o: ThemeOption)
      requires Valid()
      reads themeService
      ensures o in options && LooseEq(o.value, themeService.selection)
    {
      options[CurrentIndex()]
    }

    /** `ariaLabel`: the current option's label. */
    function AriaLabel(): (text: string)
      requires Valid()
      reads themeService
      ensures text == CurrentOption().labelText
      ensures text in ["system theme", "light theme", "dark theme"]
    {
      CurrentOption().labelText
    }

    /**
     * `cycle`: select the value of the option after the current one, wrapping
     * around; only the selection changes.
     */
    method Cycle()
      requires Valid()
      modifies themeService
      ensures themeService.selection == options[NextIndex(old(CurrentIndex()))].value
      ensures CurrentIndex() == NextIndex(old(CurrentIndex()))
    {
      var next := NextIndex(CurrentIndex());
      themeService.selection := options[next].value;
      EverySelectionMatches(themeService.selection);
      EverySelectionMatches(old(themeService.selection));
    }

    /** Three clicks show the original option again. */
    method CycleThrice()
      requires Valid()
      modifies themeService
      ensures CurrentIndex() == old(CurrentIndex())
    {
      Cycle();
      Cycle();
      Cycle();
    }
  }
}
