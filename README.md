# Calculator action: a Dafny model

This project models the arithmetic and code-generation core of a form-builder
plugin. The plugin adds a "calculator" section to an admin-panel action. The
developer lists numeric fields, and each field has a role: `add`, `subtract`
or `result`. From that list the plugin derives three things:

- the input widgets of the section;
- the Alpine `x-data` object. Its `result` getter recomputes the total in the
  browser while the user types;
- `computeResult`, the authoritative total on the server after submission.

The files:

- `calc_field.dfy` (module `Field`) holds the `CalcField` class. It is a
  mutable, fluent field descriptor whose setters overwrite one field and
  return the same object. `FieldSpec` is its state as a value. `DefaultValue`
  is either unset, a literal, or a closure over the record.
- `arithmetic.dfy` (module `Arithmetic`) defines `Raw`, the running total of
  `computeResult`'s single loop, and `Total`, that total clamped at 0. It also
  proves `Total` equal to the grouped form max(0, sum of adds − sum of
  subtracts), and proves what the total ignores.
- `alpine.dfy` (module `Alpine`) builds the text of the `x-data` object.
  `Compile` turns the field list into an expression tree, `Render` prints
  that tree, and `Eval` computes the arithmetic the printed text denotes when
  every field name is a JavaScript identifier.
  `ClientAgreesWithComputeResult` proves that `Math.max(0, …)` of the client
  expression is exactly what `computeResult` returns.
- `widgets.dfy` (module `Widgets`) replaces the framework's `TextInput` with a
  record of the settings the source gives it. It proves what
  `buildCalcInputs` produces, and that every `x-model.number` binding is
  declared as an Alpine property.
- `has_calculation.dfy` (module `HasCalculation`) holds the `Calculator`
  class, which stands for an object using the `HasCalculation` trait. It has
  the configuration setters, plus the source's loops as methods. Each loop
  method is proved equal to the specification function above.
  `buildAlpineData` is split into three methods. `CollectParts` is the loop
  over the fields. `AppendSubtractions` is the loop that appends `" - "`
  terms. `BuildAlpineData` joins the two.

The calculator keeps references to the field objects, as the PHP array does.
`Calculator.Fields()` reads the fields' current states, so a field changed
after `calcFields(...)` is seen by later computations.

The code knows three roles: `add`, `subtract` and `result`. The client-side
expression is clamped with `Math.max(0, …)`, as the server total is. The
`result` getter is emitted even when no field has the `result` role.

## Model

| member | source | states |
|---|---|---|
| `Field.CalcField.constructor` | src/CalcField.php:18-22 | A new field has role add, label equal to its name, empty prefix, required false, column span 1, empty helper text and no default; its default resolves to 0 for every record |
| `Field.CalcField.Make` | src/CalcField.php:24-27 | `make(name)` returns a fresh field in the same initial state as the constructor |
| `Field.CalcField.Adds` | src/CalcField.php:29-34 | Sets the role to add, changes nothing else, returns the same object; afterwards `isResult()` is false |
| `Field.CalcField.Subtracts` | src/CalcField.php:36-41 | Sets the role to subtract, changes nothing else, returns the same object; afterwards `isResult()` is false |
| `Field.CalcField.Result` | src/CalcField.php:43-48 | Sets the role to result, changes nothing else, returns the same object; afterwards `isResult()` is true |
| `Field.CalcField.Default` | src/CalcField.php:50-55 | Stores the literal or closure, which `getDefault()` returns; afterwards `resolveDefault(r)` is the literal for every record r, or the closure applied to r, evaluated on each call; nothing else changes |
| `Field.CalcField.Label` | src/CalcField.php:57-62 | Stores the label, which `getLabel()` returns; nothing else changes; returns the same object |
| `Field.CalcField.Prefix` | src/CalcField.php:64-69 | Stores the prefix, which `getPrefix()` returns; nothing else changes; returns the same object |
| `Field.CalcField.Required` | src/CalcField.php:71-76 | Sets the required flag to its argument (true when called without one), which `isRequired()` returns; nothing else changes |
| `Field.CalcField.ColumnSpan` | src/CalcField.php:78-83 | Stores the column span, which `getColumnSpan()` returns; nothing else changes; returns the same object |
| `Field.CalcField.HelperText` | src/CalcField.php:85-90 | Stores the helper text, which `getHelperText()` returns; nothing else changes; returns the same object |
| `HasCalculation.Calculator.constructor` | src/Concerns/HasCalculation.php:11-14 | Initial configuration: no fields, heading "Calculation", 2 columns, no global prefix |
| `HasCalculation.Calculator.CalcFields` | src/Concerns/HasCalculation.php:16-21 | Replaces the field list, which `getCalcFields()` then returns; the other settings are unchanged; returns the same object |
| `HasCalculation.Calculator.CalcSectionHeading` | src/Concerns/HasCalculation.php:23-28 | Sets the heading and nothing else; returns the same object |
| `HasCalculation.Calculator.CalcColumns` | src/Concerns/HasCalculation.php:30-35 | Sets the column count and nothing else; returns the same object |
| `HasCalculation.Calculator.CalcPrefix` | src/Concerns/HasCalculation.php:37-42 | Sets the global prefix (no longer null) and nothing else; returns the same object |
| `HasCalculation.Calculator.ComputeResult` | src/Concerns/HasCalculation.php:145-164 | The loop returns `Total` of the current fields and data, which is never negative |
| `HasCalculation.Calculator.BuildAlpineData` | src/Concerns/HasCalculation.php:44-79 | The returned text is `AlpineData` of the current fields: `{ `, the properties and the result getter joined by `, `, then ` }` |
| `HasCalculation.Calculator.CollectParts` | src/Concerns/HasCalculation.php:46-63 | The loop collects one property per non-result field, the term of each add field and the term of each subtract field, in list order |
| `HasCalculation.Calculator.AppendSubtractions` | src/Concerns/HasCalculation.php:69-72 | The loop appends `" - "` and each subtract term, in order, to the add expression |
| `HasCalculation.Calculator.BuildCalcInputs` | src/Concerns/HasCalculation.php:81-135 | The loop returns the widget list `Inputs` of the current fields and global prefix |
| `Arithmetic.RawIsAddsMinusSubtracts` | src/Concerns/HasCalculation.php:147-161 | The single pass over the fields yields the sum of the add fields' values minus the sum of the subtract fields' values |
| `Arithmetic.TotalIsClampedDifference` | src/Concerns/HasCalculation.php:147-163 | `computeResult` is max(0, adds − subtracts): 0 exactly when the difference is negative, otherwise the difference; never negative |
| `Arithmetic.OnlyNonResultValuesMatter` | src/Concerns/HasCalculation.php:149-154 | Two data maps that agree on the names of the non-result fields give the same total, so a value submitted for a result field is ignored |
| `Arithmetic.MissingKeyCountsAsZero` | src/Concerns/HasCalculation.php:154 | A name missing from the data gives the same total as an explicit 0 for it |
| `Arithmetic.ResultFieldsDoNotCount` | src/Concerns/HasCalculation.php:150-152 | Deleting every result field from the list leaves the total unchanged |
| `Arithmetic.OrderDoesNotMatter` | src/Concerns/HasCalculation.php:149-161 | Exchanging two adjacent blocks anywhere in the field list leaves the total unchanged, so any reordering of the fields (a series of such exchanges) gives the same total |
| `Arithmetic.RoleNames` | src/Concerns/HasCalculation.php:58-62 | A name is among the add (subtract) names that feed the expression exactly when some add (subtract) field carries it |
| `Arithmetic.Examples` | tests/Feature/CalculatorActionTest.php:24-73 | 100+15 gives 115, 100−20 gives 80, 100+20−10 gives 110, 10−999 gives 0, and all zeros give 0 |
| `Alpine.ClientAgreesWithComputeResult` | src/Concerns/HasCalculation.php:58-74 | The expression joins the add terms with ` + ` (or `0`), then appends ` - term` for each subtract field. Read over the same values, it evaluates to the running total of `computeResult`'s loop, and its `Math.max(0, …)` equals `computeResult` (for field names that are JavaScript identifiers; see Left out) |
| `Alpine.PropertiesOfNonResultFields` | src/Concerns/HasCalculation.php:50-56 | Exactly one `name: default` property per non-result field, in list order, with the default resolved without a record; none for result fields |
| `Alpine.AlpineDataShape` | src/Concerns/HasCalculation.php:74-78 | The result getter is always present and last, even when there are no properties |
| `Widgets.InputsFollowFields` | src/Concerns/HasCalculation.php:83-134 | One widget per field, in order, with the same name and label. A non-empty field prefix wins over the global one, and a null or empty choice sets no prefix. Result widgets are read-only, not dehydrated, full width and bound by `x-bind:value` to `result`. The others are numeric, bound by `x-model.number` to their own name, and carry the field's required flag, its non-empty helper text, its default and its span |
| `Widgets.BindingsOfInputs` | src/Concerns/HasCalculation.php:102-105 | The `x-model.number` bindings of the widgets are the names of the non-result fields, in order |
| `Widgets.BindingsAreDeclaredProperties` | src/Concerns/HasCalculation.php:137-142 | In the section that combines the widgets and the `x-data` object, each binding names the Alpine property at the same position |

## Left out

- `buildCalcSection` (src/Concerns/HasCalculation.php:137-143) builds a framework `Section` and is not modelled. Only the agreement between its two inputs is proved (`Widgets.BindingsAreDeclaredProperties`).
- `CalculatorAction::getForm` and `CalculatorPageAction::getForm` are framework lifecycle glue, so they are not modelled. The same holds for the service provider's macro registration and the version aliasing in `bootstrap.php`.
- Values are `real`. IEEE-754 rounding and PHP's `(float)` coercion are not modelled: a non-numeric string or a closure returning a non-number would coerce to a number in PHP. Submitted data is a `map<string, real>` whose values are already numbers.
- PHP's conversion of a float to a string inside `buildAlpineData` is passed to the methods as the parameter `show`. The model says nothing about its output.
- The generated JavaScript is modelled only as text. `Alpine.Eval` gives the arithmetic the expression denotes. `parseFloat`, `toFixed(2)` and Alpine reactivity are not modelled.
- `Alpine.Eval` reads the expression text as if every field name were a JavaScript identifier. The source inserts names verbatim after `this.`, so a name such as `extra-fees` yields text the browser parses as `this.extra - fees`. The model says nothing about such names.
- The framework `TextInput` is an abstract record (`Widgets.Widget`). Its rendering and validation are not modelled.
- `Field.CalcField.GetRole` returns the `Role` datatype, not the strings `'add'`, `'subtract'` and `'result'`. Each constructor stands for one of those strings.
- The getters `getName` … `getDefault`, `isResult`, `resolveDefault` and `getCalcFields` are plain reads of the state. Their properties appear in the contracts of the setters that store the values they return.
- `Field.CalcField.Default` requires a literal or a closure, because the PHP parameter type `float|Closure` admits no null.
- `HasCalculation.Calculator.CalcFields` takes a sequence of `CalcField` objects. The PHP `array` parameter would also accept other values, which the trait's loops would then fail on.
