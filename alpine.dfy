/**
 * The text of the Alpine `x-data` object that `buildAlpineData` emits
 * (src/Concerns/HasCalculation.php): one `name: default` property per
 * non-result field and a `result` getter whose expression is built from the
 * add and subtract fields. Only the text is modelled; `Eval` gives the
 * arithmetic the expression denotes, so that it can be compared with
 * `computeResult`.
 */
module Alpine {
  import opened Field
  import opened Arithmetic

  /** PHP's `implode(sep, parts)`. */
  function Join(parts: seq<string>, sep: string): string
  {
    if |parts| == 0 then ""
    else if |parts| == 1 then parts[0]
    else Join(parts[..|parts| - 1], sep) + sep + parts[|parts| - 1]
  }

  /** The client-side reading of one field: its value, or 0 when empty. */
  function Term(name: string): string
  {
    "parseFloat(this." + name + " || 0)"
  }

  function Terms(names: seq<string>): seq<string>
  {
    if names == [] then [] else Terms(names[..|names| - 1]) + [Term(names[|names| - 1])]
  }

  lemma {:induction false} TermsLength(names: seq<string>)
    ensures |Terms(names)| == |names|
    ensures forall i :: 0 <= i < |names| ==> Terms(names)[i] == Term(names[i])
  {
    if names != [] {
      TermsLength(names[..|names| - 1]);
    }
  }

  lemma TermsSnoc(names: seq<string>, n: string)
    ensures Terms(names + [n]) == Terms(names) + [Term(n)]
  {
    assert (names + [n])[..|names|] == names;
  }

  /** `" - " + t` for each term, concatenated in order. */
  function MinusTerms(terms: seq<string>): string
  {
    if terms == [] then "" else MinusTerms(terms[..|terms| - 1]) + (" - " + terms[|terms| - 1])
  }

  lemma MinusTermsStep(terms: seq<string>, j: nat)
    requires j < |terms|
    ensures MinusTerms(terms[..j + 1]) == MinusTerms(terms[..j]) + (" - " + terms[j])
  {
    assert terms[..j + 1][..j] == terms[..j];
  }

  /** The expression as a tree: the sum of the `adds` readings, from which each
      `subtracts` reading is taken in turn. */
  datatype Expr = Difference(adds: seq<string>, subtracts: seq<string>)

  /** What arithmetic the client expression performs for these fields. */
  function Compile(fs: seq<FieldSpec>): Expr
  {
    Difference(AddNames(fs), SubtractNames(fs))
  }

  /** The expression's text: the `" + "`-join of the add terms, or `"0"` when
      there are none, then `" - "` and the term of each subtract field. */
  function Render(e: Expr): string
  {
    (if |e.adds| > 0 then Join(Terms(e.adds), " + ") else "0") + MinusTerms(Terms(e.subtracts))
  }

  lemma RenderedFromTerms(e: Expr)
    ensures Render(e)
         == (if |Terms(e.adds)| > 0 then Join(Terms(e.adds), " + ") else "0") + MinusTerms(Terms(e.subtracts))
  {
    TermsLength(e.adds);
  }

  /** `x - v1 - v2 - ...`, evaluated left to right as the text reads. */
  function SubtractEach(x: real, names: seq<string>, data: map<string, real>): real
  {
    if names == [] then x else SubtractEach(x, names[..|names| - 1], data) - Lookup(data, names[|names| - 1])
  }

  /** The value of the expression when each field reads as its value in
      `data`, or 0 when it has none. */
  function Eval(e: Expr, data: map<string, real>): real
  {
    SubtractEach(SumOf(e.adds, data), e.subtracts, data)
  }

  function Getter(expression: string): string
  {
    "get result() { return Math.max(0, " + expression + ").toFixed(2) }"
  }

  /** `name: default`, the default resolved with no record and printed by `show`. */
  function Property(f: FieldSpec, show: real -> string): string
  {
    f.name + ": " + show(Resolve(f.default, NoRecord))
  }

  /** The property list, built as the source's loop builds it. */
  function Properties(fs: seq<FieldSpec>, show: real -> string): seq<string>
  {
    if fs == [] then []
    else
      var last := fs[|fs| - 1];
      Properties(fs[..|fs| - 1], show) + (if last.role == Result then [] else [Property(last, show)])
  }

  /** One more step of the source's loop over the fields. */
  lemma PropertiesStep(fs: seq<FieldSpec>, i: nat, show: real -> string)
    requires i < |fs|
    ensures Properties(fs[..i + 1], show)
         == if fs[i].role == Result then Properties(fs[..i], show) else Properties(fs[..i], show) + [Property(fs[i], show)]
  {
    assert fs[..i + 1][..i] == fs[..i];
    assert Properties(fs[..i], show) + [] == Properties(fs[..i], show);
  }

  /** The whole `x-data` text for these fields. */
  function AlpineData(fs: seq<FieldSpec>, show: real -> string): string
  {
    "{ " + Join(Properties(fs, show) + [Getter(Render(Compile(fs)))], ", ") + " }"
  }

  /** The text assembled from the pieces the source's loops collect. */
  lemma AlpineDataOfParts(fs: seq<FieldSpec>, show: real -> string, properties: seq<string>,
                          addParts: seq<string>, subtractParts: seq<string>, expression: string)
    requires properties == Properties(fs, show)
    requires addParts == Terms(AddNames(fs)) && subtractParts == Terms(SubtractNames(fs))
    requires expression == (if |addParts| > 0 then Join(addParts, " + ") else "0") + MinusTerms(subtractParts)
    ensures "{ " + Join(properties + [Getter(expression)], ", ") + " }" == AlpineData(fs, show)
  {
    RenderedFromTerms(Compile(fs));
  }

  lemma {:induction false} SubtractEachIsMinusSum(x: real, names: seq<string>, data: map<string, real>)
    ensures SubtractEach(x, names, data) == x - SumOf(names, data)
  {
    if names != [] {
      SubtractEachIsMinusSum(x, names[..|names| - 1], data);
    }
  }

  /** The client expression and `computeResult` agree: evaluated over the same
      values, the expression is the running total of the source's loop, and
      `Math.max(0, ...)` of it is exactly what `computeResult` returns. */
  lemma {:induction false} ClientAgreesWithComputeResult(fs: seq<FieldSpec>, data: map<string, real>)
    ensures Eval(Compile(fs), data) == Raw(fs, data)
    ensures ClampAtZero(Eval(Compile(fs), data)) == Total(fs, data)
  {
    SubtractEachIsMinusSum(SumOf(AddNames(fs), data), SubtractNames(fs), data);
    RawIsAddsMinusSubtracts(fs, data);
  }

  /** Exactly one property per non-result field, in list order, and none for
      result fields. */
  lemma {:induction false} PropertiesOfNonResultFields(fs: seq<FieldSpec>, show: real -> string)
    ensures |Properties(fs, show)| == |NonResult(fs)|
    ensures forall i :: 0 <= i < |NonResult(fs)| ==> Properties(fs, show)[i] == Property(NonResult(fs)[i], show)
  {
    if fs != [] {
      PropertiesOfNonResultFields(fs[..|fs| - 1], show);
    }
  }

  lemma JoinSnoc(parts: seq<string>, x: string, sep: string)
    requires parts != []
    ensures Join(parts + [x], sep) == Join(parts, sep) + sep + x
  {
    assert (parts + [x])[..|parts|] == parts;
  }

  /** The getter is always present, last, even when there are no properties:
      the text is `{ ` + the properties joined by `, ` (if any) + the getter + ` }`. */
  lemma AlpineDataShape(fs: seq<FieldSpec>, show: real -> string)
    ensures var props, getter := Properties(fs, show), Getter(Render(Compile(fs)));
      AlpineData(fs, show)
        == "{ " + (if props == [] then getter else Join(props, ", ") + ", " + getter) + " }"
  {
    var props, getter := Properties(fs, show), Getter(Render(Compile(fs)));
    if props != [] {
      JoinSnoc(props, getter, ", ");
    } else {
      assert props + [getter] == [getter];
    }
  }
}
