/**
 * The auth-method menu of the setup page: picking a provider group fills the
 * auth-choice list with that group's options, hiding the interactive
 * (terminal or browser OAuth) ones until the operator selects the
 * "show all" entry, which stays in force for the rest of the page's life.
 */
module AuthOptions {
  import opened Wrappers
  import opened Text

  /** Value of the extra entry that turns on "show all". */
  const ShowAllSentinel: string := "__show_all__"

  /** Substrings of a lower-cased option value that mark it as interactive. */
  const InteractiveMarkers: seq<string> :=
    ["cli", "oauth", "device", "codex", "antigravity", "gemini-cli", "qwen-portal", "github-copilot"]

  /** One auth method of a group; an absent hint is the empty string. */
  datatype AuthOption = AuthOption(value: string, labelText: string, hint: string)

  /** A provider group; a group without options carries the empty sequence. */
  datatype AuthGroup = AuthGroup(value: string, labelText: string, hint: string, options: seq<AuthOption>)

  /** An `<option>` element of the auth-choice list. */
  datatype Choice = Choice(value: string, text: string)

  predicate IsInteractive(value: string) {
    exists m :: m in InteractiveMarkers && Contains(Lower(value), m)
  }

  /** Whether the filter lets an option through. */
  predicate Keeps(o: AuthOption, showAll: bool) {
    !IsInteractive(o.value) || showAll
  }

  /** The options the filter keeps, in their original order. */
  function Kept(opts: seq<AuthOption>, showAll: bool): seq<AuthOption>
    decreases |opts|
  {
    if opts == [] then []
    else
      var last := opts[|opts| - 1];
      Kept(opts[..|opts| - 1], showAll) + (if Keeps(last, showAll) then [last] else [])
  }

  /** How many options the filter hides. */
  function HiddenCount(opts: seq<AuthOption>, showAll: bool): nat
    decreases |opts|
  {
    if opts == [] then 0
    else
      HiddenCount(opts[..|opts| - 1], showAll) + (if Keeps(opts[|opts| - 1], showAll) then 0 else 1)
  }

  /** The loop of the auth-group change handler that splits options into kept and hidden. */
  method FilterOptions(opts: seq<AuthOption>, showAll: bool) returns (filtered: seq<AuthOption>, hiddenCount: nat)
    ensures filtered == Kept(opts, showAll)
    ensures hiddenCount == HiddenCount(opts, showAll)
  {
    filtered, hiddenCount := [], 0;
    for k := 0 to |opts|
      invariant filtered == Kept(opts[..k], showAll)
      invariant hiddenCount == HiddenCount(opts[..k], showAll)
    {
      assert opts[..k + 1][..k] == opts[..k];
      var o := opts[k];
      if !IsInteractive(o.value) || showAll {
        filtered := filtered + [o];
      } else {
        hiddenCount := hiddenCount + 1;
      }
    }
    assert opts[..|opts|] == opts;
  }

  /** Every option is either kept or counted as hidden. */
  lemma {:induction false} KeptPlusHidden(opts: seq<AuthOption>, showAll: bool)
    ensures |Kept(opts, showAll)| + HiddenCount(opts, showAll) == |opts|
    decreases |opts|
  {
    if opts != [] {
      KeptPlusHidden(opts[..|opts| - 1], showAll);
    }
  }

  /** Filtering distributes over concatenation, so kept options keep their relative order. */
  lemma {:induction false} KeptConcat(a: seq<AuthOption>, b: seq<AuthOption>, showAll: bool)
    ensures Kept(a + b, showAll) == Kept(a, showAll) + Kept(b, showAll)
    decreases |b|
  {
    if b == [] {
      assert a + b == a;
    } else {
      var b' := b[..|b| - 1];
      assert (a + b)[..|a + b| - 1] == a + b';
      KeptConcat(a, b', showAll);
    }
  }

  /** An option is kept exactly when it is present and not filtered out. */
  lemma {:induction false} KeptMembership(opts: seq<AuthOption>, showAll: bool, o: AuthOption)
    ensures o in Kept(opts, showAll) <==> o in opts && Keeps(o, showAll)
    decreases |opts|
  {
    if opts != [] {
      var init := opts[..|opts| - 1];
      KeptMembership(init, showAll, o);
      assert opts == init + [opts[|opts| - 1]];
    }
  }

  /** Something is hidden exactly when "show all" is off and some option is interactive. */
  lemma {:induction false} HiddenIffInteractive(opts: seq<AuthOption>, showAll: bool)
    ensures HiddenCount(opts, showAll) > 0 <==> !showAll && exists o :: o in opts && IsInteractive(o.value)
    decreases |opts|
  {
    if opts != [] {
      var init := opts[..|opts| - 1];
      HiddenIffInteractive(init, showAll);
      assert opts == init + [opts[|opts| - 1]];
    }
  }

  /** With "show all" on, nothing is hidden. */
  lemma {:induction false} ShowAllKeepsEverything(opts: seq<AuthOption>)
    ensures Kept(opts, true) == opts
    ensures HiddenCount(opts, true) == 0
    decreases |opts|
  {
    if opts != [] {
      ShowAllKeepsEverything(opts[..|opts| - 1]);
      assert opts == opts[..|opts| - 1] + [opts[|opts| - 1]];
    }
  }

  /** Text of an option: its label, followed by " - hint" when it has a hint. */
  function ChoiceText(labelText: string, hint: string): string {
    labelText + (if hint == "" then "" else " - " + hint)
  }

  function ToChoices(opts: seq<AuthOption>): (cs: seq<Choice>)
    ensures |cs| == |opts|
    ensures forall i :: 0 <= i < |opts| ==> cs[i] == Choice(opts[i].value, ChoiceText(opts[i].labelText, opts[i].hint))
  {
    seq(|opts|, i requires 0 <= i < |opts| => Choice(opts[i].value, ChoiceText(opts[i].labelText, opts[i].hint)))
  }

  /** The "show all" entry, naming how many options it would reveal. */
  function ShowAllChoice(hidden: nat): Choice {
    Choice(ShowAllSentinel,
           "\U{26A0}\U{FE0F} Show all auth methods (" + NatToString(hidden) + " hidden - require terminal/OAuth)")
  }

  /** The auth-choice list rendered for a group's options. */
  function RenderedChoices(opts: seq<AuthOption>, showAll: bool): seq<Choice> {
    var hidden := HiddenCount(opts, showAll);
    ToChoices(Kept(opts, showAll)) + (if hidden > 0 && !showAll then [ShowAllChoice(hidden)] else [])
  }

  /** The list is the kept options, then the sentinel exactly when something is hidden and "show all" is off. */
  lemma SentinelAppendedIff(opts: seq<AuthOption>, showAll: bool)
    ensures var r, kept := RenderedChoices(opts, showAll), Kept(opts, showAll);
      && r[..|kept|] == ToChoices(kept)
      && (|r| == |kept| + 1 <==> HiddenCount(opts, showAll) > 0 && !showAll)
      && (|r| == |kept| + 1 ==> r[|kept|].value == ShowAllSentinel)
      && |r| <= |kept| + 1
  {
  }

  /** Index of the last group whose value matches, or -1. */
  function LastMatch(groups: seq<AuthGroup>, value: string): (r: int)
    ensures -1 <= r < |groups|
    ensures r >= 0 ==> groups[r].value == value
    ensures forall k :: r < k < |groups| ==> groups[k].value != value
    decreases |groups|
  {
    if groups == [] then -1
    else if groups[|groups| - 1].value == value then |groups| - 1
    else LastMatch(groups[..|groups| - 1], value)
  }

  /** The group the auth-group change handler selects: the last one with a matching value. */
  function SelectedGroup(groups: seq<AuthGroup>, value: string): Option<AuthGroup> {
    var r := LastMatch(groups, value);
    if r < 0 then None else Some(groups[r])
  }

  /** The options of the selected group, or none when no group matches. */
  function OptionsOf(groups: seq<AuthGroup>, value: string): seq<AuthOption> {
    match SelectedGroup(groups, value)
    case Some(g) => g.options
    case None => []
  }

  /** The loop that looks up the selected group; it does not stop at the first match. */
  method FindGroup(groups: seq<AuthGroup>, value: string) returns (sel: Option<AuthGroup>)
    ensures sel == SelectedGroup(groups, value)
  {
    sel := None;
    for j := 0 to |groups|
      invariant sel == SelectedGroup(groups[..j], value)
    {
      assert groups[..j + 1][..j] == groups[..j];
      if groups[j].value == value {
        sel := Some(groups[j]);
      }
    }
    assert groups[..|groups|] == groups;
  }

  /** Value a `<select>` takes after its options are replaced: the first option's, or "". */
  function FirstValue(cs: seq<Choice>): string {
    if cs == [] then "" else cs[0].value
  }

  predicate HasValue(cs: seq<Choice>, v: string) {
    exists i :: 0 <= i < |cs| && cs[i].value == v
  }

  /**
   * The two `<select>` elements of the auth step and the page-wide
   * "show all auth methods" flag.
   */
  class AuthMenu {
    var showAll: bool
    var groups: seq<AuthGroup>
    var groupValue: string
    var choices: seq<Choice>
    var choiceValue: string

    /** The choice list always shows the selected group's options as filtered under the current flag. */
    ghost predicate Valid()
      reads this
    {
      && choices == RenderedChoices(OptionsOf(groups, groupValue), showAll)
      && (choiceValue == FirstValue(choices) || HasValue(choices, choiceValue))
    }

    constructor ()
      ensures Valid()
      ensures !showAll && groups == [] && groupValue == "" && choices == [] && choiceValue == ""
    {
      showAll, groups, groupValue, choices, choiceValue := false, [], "", [], "";
    }

    /** The auth-group change handler: rebuild the choice list for the selected group. */
    method RenderChoices()
      modifies this`choices, this`choiceValue
      ensures choices == RenderedChoices(OptionsOf(groups, groupValue), showAll)
      ensures choiceValue == FirstValue(choices)
      ensures Valid()
    {
      var sel := FindGroup(groups, groupValue);
      var opts := if sel.Some? then sel.value.options else [];
      var filtered, hidden := FilterOptions(opts, showAll);
      var rendered := ToChoices(filtered);
      if hidden > 0 && !showAll {
        rendered := rendered + [ShowAllChoice(hidden)];
      }
      choices := rendered;
      choiceValue := FirstValue(rendered);
    }

    /** Install a new list of provider groups; the first group becomes selected. */
    method RenderAuth(gs: seq<AuthGroup>)
      modifies this
      ensures showAll == old(showAll) && groups == gs
      ensures groupValue == if gs == [] then "" else gs[0].value
      ensures choices == RenderedChoices(OptionsOf(groups, groupValue), showAll)
      ensures choiceValue == FirstValue(choices)
      ensures Valid()
    {
      groups := gs;
      groupValue := if gs == [] then "" else gs[0].value;
      RenderChoices();
    }

    /** The operator picks another provider group. */
    method OnGroupChange(v: string)
      requires exists i :: 0 <= i < |groups| && groups[i].value == v
      modifies this
      ensures showAll == old(showAll) && groups == old(groups) && groupValue == v
      ensures choices == RenderedChoices(OptionsOf(groups, v), showAll)
      ensures choiceValue == FirstValue(choices)
      ensures Valid()
    {
      groupValue := v;
      RenderChoices();
    }

    /**
     * The operator picks an auth choice. Picking the sentinel turns "show all"
     * on for good and re-renders, which selects the first entry again.
     */
    method OnChoiceChange(v: string)
      requires Valid()
      requires HasValue(choices, v)
      modifies this
      ensures showAll == (old(showAll) || v == ShowAllSentinel)
      ensures groups == old(groups) && groupValue == old(groupValue)
      ensures v == ShowAllSentinel ==>
        choices == RenderedChoices(OptionsOf(groups, groupValue), true) && choiceValue == FirstValue(choices)
      ensures v != ShowAllSentinel ==> choices == old(choices) && choiceValue == v
      ensures Valid()
    {
      choiceValue := v;
      if v == ShowAllSentinel {
        showAll := true;
        RenderChoices();
      }
    }
  }
}
