/** The options of the repository select element. */
module Options {

  /** An option of a Slack select element: the label shown and the value submitted. */
  datatype SelectOption = SelectOption(text: string, value: string)

  /** The option that shows and submits `name`. */
  function OptionFor(name: string): SelectOption {
    SelectOption(name, name)
  }

  /** `names.map(name => ({ text: { type: 'plain_text', text: name }, value: name }))`. */
  function OptionsFor(names: seq<string>): (r: seq<SelectOption>)
    ensures |r| == |names|
    ensures forall i :: 0 <= i < |names| ==> r[i].text == names[i] && r[i].value == names[i]
  {
    if names == [] then [] else [OptionFor(names[0])] + OptionsFor(names[1..])
  }

  /** The submitted values of a list of options. */
  function Values(options: seq<SelectOption>): (r: seq<string>)
    ensures |r| == |options|
  {
    if options == [] then [] else [options[0].value] + Values(options[1..])
  }

  /** Selecting any option submits back the name it was built from, position by position. */
  lemma {:induction false} ValuesOfOptions(names: seq<string>)
    ensures Values(OptionsFor(names)) == names
  {
    if names != [] {
      ValuesOfOptions(names[1..]);
      assert OptionsFor(names)[1..] == OptionsFor(names[1..]);
      assert [names[0]] + names[1..] == names;
    }
  }
}
