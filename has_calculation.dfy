/**
 * The calculator behaviour an action gains from the `HasCalculation` trait
 * (src/Concerns/HasCalculation.php): fluent configuration setters, and three
 * loops over the configured fields that compute the authoritative total,
 * emit the Alpine `x-data` text and build the input widgets.
 */
module HasCalculation {
  import opened Wrappers
  import opened Field
  import opened Arithmetic
  import opened Alpine
  import opened Widgets

  class Calculator {
    var calcFields: seq<CalcField>
    var calcSectionHeading: string
    var calcColumns: int
    var calcPrefix: Option<string>

    /** The current states of the configured fields. The list holds the field
        objects themselves, so a field changed after configuration is seen here. */
    function Fields(): seq<FieldSpec>
      reads this, calcFields
    {
      Snapshots(calcFields)
    }

    constructor ()
      ensures calcFields == [] && calcSectionHeading == "Calculation"
      ensures calcColumns == 2 && calcPrefix == None
    {
      calcFields := [];
      calcSectionHeading := "Calculation";
      calcColumns := 2;
      calcPrefix := None;
    }

    method CalcFields(fields: seq<CalcField>) returns (self: Calculator)
      modifies this
      ensures self == this && GetCalcFields() == fields
      ensures calcSectionHeading == old(calcSectionHeading) && calcColumns == old(calcColumns)
      ensures calcPrefix == old(calcPrefix)
    {
      calcFields := fields;
      self := this;
    }

    method CalcSectionHeading(heading: string) returns (self: Calculator)
      modifies this
      ensures self == this && calcSectionHeading == heading
      ensures calcFields == old(calcFields) && calcColumns == old(calcColumns)
      ensures calcPrefix == old(calcPrefix)
    {
      calcSectionHeading := heading;
      self := this;
    }

    method CalcColumns(columns: int) returns (self: Calculator)
      modifies this
      ensures self == this && calcColumns == columns
      ensures calcFields == old(calcFields) && calcSectionHeading == old(calcSectionHeading)
      ensures calcPrefix == old(calcPrefix)
    {
      calcColumns := columns;
      self := this;
    }

    method CalcPrefix(prefix: string) returns (self: Calculator)
      modifies this
      ensures self == this && calcPrefix == Some(prefix)
      ensures calcFields == old(calcFields) && calcSectionHeading == old(calcSectionHeading)
      ensures calcColumns == old(calcColumns)
    {
      calcPrefix := Some(prefix);
      self := this;
    }

    function GetCalcFields(): seq<CalcField>
      reads this
    {
      calcFields
    }

    /** The authoritative total: max(0, adds - subtracts) over the submitted
        data, result fields skipped and missing names read as 0. */
    method ComputeResult(data: map<string, real>) returns (r: real)
      ensures r == Total(Fields(), data)
      ensures r >= 0.0
    {
      ghost var specs := Fields();
      var total := 0.0;
      for i := 0 to |calcFields|
        invariant total == Raw(specs[..i], data)
      {
        assert specs[..i + 1][..i] == specs[..i];
        var field := calcFields[i];
        if field.IsResult() {
          continue;
        }
        var value := if field.GetName() in data then data[field.GetName()] else 0.0;
        if field.GetRole() == Add {
          total := total + value;
        } else if field.GetRole() == Subtract {
          total := total - value;
        }
      }
      assert specs[..|calcFields|] == specs;
      r := if 0.0 > total then 0.0 else total;
    }

    /** The Alpine `x-data` text. `show` is PHP's conversion of a float to a
        string, which the model leaves abstract. */
    method BuildAlpineData(show: real -> string) returns (s: string)
      ensures s == AlpineData(Fields(), show)
    {
      var properties, addParts, subtractParts := CollectParts(show);
      var addsExpression := if |addParts| > 0 then Join(addParts, " + ") else "0";
      var expression := AppendSubtractions(addsExpression, subtractParts);
      AlpineDataOfParts(Fields(), show, properties, addParts, subtractParts, expression);

      var resultGetter := Getter(expression);
      var allParts := properties + [resultGetter];
      s := "{ " + Join(allParts, ", ") + " }";
    }

    /** The loop of `buildAlpineData` over the fields: a property for each
        non-result field, and the term of each add and each subtract field. */
    method CollectParts(show: real -> string) returns (properties: seq<string>, addParts: seq<string>, subtractParts: seq<string>)
      ensures properties == Properties(Fields(), show)
      ensures addParts == Terms(AddNames(Fields()))
      ensures subtractParts == Terms(SubtractNames(Fields()))
    {
      ghost var specs := Fields();
      properties, addParts, subtractParts := [], [], [];

      for i := 0 to |calcFields|
        invariant properties == Properties(specs[..i], show)
        invariant addParts == Terms(AddNames(specs[..i]))
        invariant subtractParts == Terms(SubtractNames(specs[..i]))
      {
        var field := calcFields[i];
        assert specs[i] == field.Snapshot();
        NamesStep(specs, i);
        PropertiesStep(specs, i, show);
        if field.IsResult() {
          continue;
        }
        var name := field.GetName();
        var defaultValue := field.ResolveDefault(NoRecord);
        properties := properties + [name + ": " + show(defaultValue)];
        if field.GetRole() == Add {
          TermsSnoc(AddNames(specs[..i]), name);
          addParts := addParts + [Term(name)];
        } else if field.GetRole() == Subtract {
          TermsSnoc(SubtractNames(specs[..i]), name);
          subtractParts := subtractParts + [Term(name)];
        }
      }
      assert specs[..|calcFields|] == specs;
    }

    /** The loop of `buildAlpineData` that appends `" - " + part` to the
        expression for each subtract part, in order. */
    static method AppendSubtractions(addsExpression: string, subtractParts: seq<string>) returns (expression: string)
      ensures expression == addsExpression + MinusTerms(subtractParts)
    {
      expression := addsExpression;
      for j := 0 to |subtractParts|
        invariant expression == addsExpression + MinusTerms(subtractParts[..j])
      {
        MinusTermsStep(subtractParts, j);
        expression := expression + (" - " + subtractParts[j]);
      }
      assert subtractParts[..|subtractParts|] == subtractParts;
    }

    /** One widget per configured field, in order. */
    method BuildCalcInputs() returns (inputs: seq<Widget>)
      ensures inputs == Inputs(Fields(), calcPrefix)
    {
      ghost var specs := Fields();
      inputs := [];
      for i := 0 to |calcFields|
        invariant inputs == Inputs(specs[..i], calcPrefix)
      {
        assert specs[..i + 1][..i] == specs[..i];
        var field := calcFields[i];
        var prefix := if field.GetPrefix() != "" then Some(field.GetPrefix()) else calcPrefix;
        var applied := if prefix.Some? && prefix.value != "" then prefix else None;
        var input;
        if field.IsResult() {
          input := TextInput(field.GetName(), field.GetLabel(), true, false, false, applied,
                             map["x-bind:value" := "result"], false, None, NoDefault, Some(Named("full")));
        } else {
          var helper := if field.GetHelperText() != "" then Some(field.GetHelperText()) else None;
          input := TextInput(field.GetName(), field.GetLabel(), false, true, true, applied,
                             map["x-model.number" := field.GetName()], field.IsRequired(), helper,
                             field.GetDefault(), Some(field.GetColumnSpan()));
        }
        inputs := inputs + [input];
      }
      assert specs[..|calcFields|] == specs;
    }
  }
}
