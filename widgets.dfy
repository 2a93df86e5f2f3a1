/**
 * The input widgets `buildCalcInputs` makes (src/Concerns/HasCalculation.php).
 * The framework's `TextInput` is replaced by a record of the settings the
 * source gives it; everything else about the widget is out of the model.
 */
module Widgets {
  import opened Wrappers
  import opened Field
  import opened Arithmetic
  import opened Alpine

  /** The settings of one text input, as the source configures them. */
  datatype Widget = TextInput(
    name: string,
    labelText: string,
    readOnly: bool,
    dehydrated: bool,
    numeric: bool,
    prefix: Option<string>,
    extraInputAttributes: map<string, string>,
    required: bool,
    helperText: Option<string>,
    default: DefaultValue,
    columnSpan: Option<Span>)

  /** The field's own prefix when non-empty, else the calculator's; applied
      only when that is neither null nor empty. */
  function AppliedPrefix(own: string, calcPrefix: Option<string>): Option<string>
  {
    var chosen := if own != "" then Some(own) else calcPrefix;
    if chosen.Some? && chosen.value != "" then chosen else None
  }

  /** The widget the source builds for one field. */
  function InputFor(f: FieldSpec, calcPrefix: Option<string>): Widget
  {
    var prefix := AppliedPrefix(f.prefix, calcPrefix);
    if f.role == Result then
      TextInput(f.name, f.labelText, true, false, false, prefix,
                map["x-bind:value" := "result"], false, None, NoDefault, Some(Named("full")))
    else
      TextInput(f.name, f.labelText, false, true, true, prefix,
                map["x-model.number" := f.name], f.required,
                if f.helperText != "" then Some(f.helperText) else None,
                f.default, Some(f.columnSpan))
  }

  /** The widgets for a list of fields, built as the source's loop builds them. */
  function Inputs(fs: seq<FieldSpec>, calcPrefix: Option<string>): seq<Widget>
  {
    if fs == [] then [] else Inputs(fs[..|fs| - 1], calcPrefix) + [InputFor(fs[|fs| - 1], calcPrefix)]
  }

  /** The `x-model.number` bindings of the widgets, in order. */
  function ModelBindings(ws: seq<Widget>): seq<string>
  {
    if ws == [] then []
    else
      var attrs := ws[|ws| - 1].extraInputAttributes;
      ModelBindings(ws[..|ws| - 1]) + (if "x-model.number" in attrs then [attrs["x-model.number"]] else [])
  }

  lemma {:induction false} InputsAt(fs: seq<FieldSpec>, calcPrefix: Option<string>)
    ensures |Inputs(fs, calcPrefix)| == |fs|
    ensures forall i :: 0 <= i < |fs| ==> Inputs(fs, calcPrefix)[i] == InputFor(fs[i], calcPrefix)
  {
    if fs != [] {
      InputsAt(fs[..|fs| - 1], calcPrefix);
    }
  }

  /** One widget per field, in the same order and with the same name and label.
      A field's own non-empty prefix wins over the calculator's, and no prefix
      is set when the chosen one is null or empty. Result widgets are
      read-only, not dehydrated, full width and bound to `result`; the others
      are numeric, bound by `x-model.number` to their own name, and carry the
      field's required flag, helper text (when non-empty), default and span. */
  lemma {:induction false} InputsFollowFields(fs: seq<FieldSpec>, calcPrefix: Option<string>)
    ensures var ws := Inputs(fs, calcPrefix);
      && |ws| == |fs|
      && (forall i :: 0 <= i < |fs| ==> ws[i].name == fs[i].name && ws[i].labelText == fs[i].labelText)
      && (forall i :: 0 <= i < |fs| ==>
            ws[i].prefix == (if fs[i].prefix != "" then Some(fs[i].prefix)
                             else if calcPrefix.Some? && calcPrefix.value != "" then calcPrefix
                             else None))
      && (forall i :: 0 <= i < |fs| ==> (ws[i].readOnly <==> fs[i].role == Result))
      && (forall i :: 0 <= i < |fs| ==> (ws[i].dehydrated <==> fs[i].role != Result))
      && (forall i :: 0 <= i < |fs| && fs[i].role == Result ==>
            ws[i].extraInputAttributes == map["x-bind:value" := "result"]
            && ws[i].columnSpan == Some(Named("full")))
      && (forall i :: 0 <= i < |fs| && fs[i].role != Result ==>
            && ws[i].numeric
            && ws[i].extraInputAttributes == map["x-model.number" := fs[i].name]
            && ws[i].required == fs[i].required
            && ws[i].helperText == (if fs[i].helperText != "" then Some(fs[i].helperText) else None)
            && ws[i].default == fs[i].default
            && ws[i].columnSpan == Some(fs[i].columnSpan))
  {
    InputsAt(fs, calcPrefix);
  }

  lemma BindingStep(ws: seq<Widget>, w: Widget)
    ensures ModelBindings(ws + [w])
         == ModelBindings(ws) + (if "x-model.number" in w.extraInputAttributes
                                 then [w.extraInputAttributes["x-model.number"]] else [])
  {
    assert (ws + [w])[..|ws|] == ws;
  }

  lemma NonResultStep(fs: seq<FieldSpec>, f: FieldSpec)
    ensures NonResult(fs + [f]) == if f.role == Result then NonResult(fs) else NonResult(fs) + [f]
  {
    assert (fs + [f])[..|fs|] == fs;
    assert NonResult(fs) + [] == NonResult(fs);
  }

  /** The `x-model.number` bindings of the inputs are the names of the
      non-result fields, in order. */
  lemma {:induction false} BindingsOfInputs(fs: seq<FieldSpec>, calcPrefix: Option<string>)
    ensures |ModelBindings(Inputs(fs, calcPrefix))| == |NonResult(fs)|
    ensures forall i :: 0 <= i < |NonResult(fs)| ==> ModelBindings(Inputs(fs, calcPrefix))[i] == NonResult(fs)[i].name
  {
    if fs != [] {
      var init, last := fs[..|fs| - 1], fs[|fs| - 1];
      BindingsOfInputs(init, calcPrefix);
      assert fs == init + [last];
      NonResultStep(init, last);
      var w := InputFor(last, calcPrefix);
      BindingStep(Inputs(init, calcPrefix), w);
      assert "x-model.number" in w.extraInputAttributes <==> last.role != Result;
    }
  }

  /** The inputs and the Alpine data agree: each `x-model.number` binding is
      declared as the property at the same position of the `x-data` object. */
  lemma {:induction false} BindingsAreDeclaredProperties(fs: seq<FieldSpec>, calcPrefix: Option<string>, show: real -> string)
    ensures |ModelBindings(Inputs(fs, calcPrefix))| == |NonResult(fs)| == |Properties(fs, show)|
    ensures forall i :: 0 <= i < |NonResult(fs)| ==>
      && ModelBindings(Inputs(fs, calcPrefix))[i] == NonResult(fs)[i].name
      && Properties(fs, show)[i] == ModelBindings(Inputs(fs, calcPrefix))[i] + ": " + show(Resolve(NonResult(fs)[i].default, NoRecord))
  {
    PropertiesOfNonResultFields(fs, show);
    BindingsOfInputs(fs, calcPrefix);
  }
}
