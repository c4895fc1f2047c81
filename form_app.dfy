/**
 * The state of the form screen: which template is selected, what has been
 * entered in its fields, and the last generated text. Each handler of the
 * screen overwrites these fields.
 */
module FormApp {
  import opened Templates

  class App {
    var selectedFormat: string
    var fieldValues: Values
    var output: string

    /** The selected template is registered: the switcher offers only registered names. */
    ghost predicate Valid()
      reads this
    {
      Lookup(selectedFormat).Some?
    }

    /** Every entered value belongs to a field of the selected template. */
    ghost predicate ValuesBelong()
      reads this
      requires Valid()
    {
      fieldValues.Keys <= Keys(Current())
    }

    /** The screen starts on the Interview template with nothing entered and no output. */
    constructor ()
      ensures Valid() && ValuesBelong()
      ensures selectedFormat == "Interview" && fieldValues == map[] && output == ""
    {
      selectedFormat := "Interview";
      fieldValues := map[];
      output := "";
      LookupRegistered(0);
    }

    /** `current`: the registered template whose name is the selected one. */
    function Current(): (t: Template)
      reads this
      requires Valid()
      ensures t in Formats && t.name == selectedFormat
    {
      Lookup(selectedFormat).value
    }

    /**
     * `handleFieldChange(key, value)`: records `value` under `key` and keeps
     * every other entered value; the form only reports edits of the
     * selected template's own fields, which keeps the values belonging to it.
     */
    method HandleFieldChange(key: string, value: string)
      requires Valid()
      modifies this
      ensures Valid()
      // the new entry for `key`, and every other key as it was
      ensures fieldValues == old(fieldValues)[key := value]
      ensures selectedFormat == old(selectedFormat) && output == old(output)
      ensures old(ValuesBelong()) && key in Keys(Current()) ==> ValuesBelong()
    {
      fieldValues := fieldValues[key := value];
    }

    /**
     * The click handler of the switcher button for template `i`: selects it
     * and clears every entered value (even for keys both templates share)
     * and the output.
     */
    method SwitchTemplate(i: nat)
      requires i < |Formats|
      modifies this
      ensures Valid() && ValuesBelong()
      ensures selectedFormat == Formats[i].name && Current() == Formats[i]
      ensures fieldValues == map[] && output == ""
    {
      selectedFormat := Formats[i].name;
      fieldValues := map[];
      output := "";
      LookupRegistered(i);
    }

    /**
     * `handleGenerate`: replaces the output with the formatted text of the
     * selected template and the entered values, which begins with the
     * status line.
     */
    method HandleGenerate()
      requires Valid()
      modifies this
      ensures Valid()
      ensures output == FormatOutput(selectedFormat, fieldValues)
      ensures StatusLine(fieldValues) <= output
      ensures selectedFormat == old(selectedFormat) && fieldValues == old(fieldValues)
    {
      output := FormatOutput(selectedFormat, fieldValues);
      FormatOutputRegistered(selectedFormat, fieldValues);
    }
  }
}
