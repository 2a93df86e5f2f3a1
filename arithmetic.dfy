/**
 * The arithmetic of `computeResult` (src/Concerns/HasCalculation.php), stated
 * over the fields' states: the running total of the source's single loop, the
 * grouped reading "sum of adds minus sum of subtracts", and the clamp at 0.
 */
module Arithmetic {
  import opened Field

  /** `$data[$name] ?? 0`: a name missing from the submitted data counts as 0. */
  function Lookup(data: map<string, real>, key: string): real
  {
    if key in data then data[key] else 0.0
  }

  /** What one field adds to the running total: result fields are skipped. */
  function Contribution(f: FieldSpec, data: map<string, real>): real
  {
    match f.role
    case Add => Lookup(data, f.name)
    case Subtract => -Lookup(data, f.name)
    case Result => 0.0
  }

  /** The running total once the loop has visited every field of `fs`, in order. */
  function Raw(fs: seq<FieldSpec>, data: map<string, real>): real
  {
    if fs == [] then 0.0 else Raw(fs[..|fs| - 1], data) + Contribution(fs[|fs| - 1], data)
  }

  /** `max(0.0, $total)`. */
  function ClampAtZero(x: real): real
  {
    if x < 0.0 then 0.0 else x
  }

  /** The value `computeResult` returns for these fields and this data. */
  function Total(fs: seq<FieldSpec>, data: map<string, real>): real
  {
    ClampAtZero(Raw(fs, data))
  }

  /** Names of the add fields, in list order. */
  function AddNames(fs: seq<FieldSpec>): seq<string>
  {
    if fs == [] then []
    else AddNames(fs[..|fs| - 1]) + (if fs[|fs| - 1].role == Add then [fs[|fs| - 1].name] else [])
  }

  /** Names of the subtract fields, in list order. */
  function SubtractNames(fs: seq<FieldSpec>): seq<string>
  {
    if fs == [] then []
    else SubtractNames(fs[..|fs| - 1]) + (if fs[|fs| - 1].role == Subtract then [fs[|fs| - 1].name] else [])
  }

  /** The fields that are not result fields, in list order. */
  function NonResult(fs: seq<FieldSpec>): seq<FieldSpec>
  {
    if fs == [] then []
    else NonResult(fs[..|fs| - 1]) + (if fs[|fs| - 1].role == Result then [] else [fs[|fs| - 1]])
  }

  /** One more step of the source's loop over the fields. */
  lemma NamesStep(fs: seq<FieldSpec>, i: nat)
    requires i < |fs|
    ensures AddNames(fs[..i + 1]) == if fs[i].role == Add then AddNames(fs[..i]) + [fs[i].name] else AddNames(fs[..i])
    ensures SubtractNames(fs[..i + 1])
         == if fs[i].role == Subtract then SubtractNames(fs[..i]) + [fs[i].name] else SubtractNames(fs[..i])
  {
    assert fs[..i + 1][..i] == fs[..i];
    assert AddNames(fs[..i]) + [] == AddNames(fs[..i]);
    assert SubtractNames(fs[..i]) + [] == SubtractNames(fs[..i]);
  }

  /** A name is listed among the add (subtract) names exactly when some add
      (subtract) field of the list carries it. */
  lemma {:induction false} RoleNames(fs: seq<FieldSpec>, n: string)
    ensures n in AddNames(fs) <==> exists f :: f in fs && f.role == Add && f.name == n
    ensures n in SubtractNames(fs) <==> exists f :: f in fs && f.role == Subtract && f.name == n
  {
    if fs != [] {
      var init, last := fs[..|fs| - 1], fs[|fs| - 1];
      RoleNames(init, n);
      assert fs == init + [last];
    }
  }

  /** The sum of the submitted values of `names`, missing ones counting 0. */
  function SumOf(names: seq<string>, data: map<string, real>): real
  {
    if names == [] then 0.0 else SumOf(names[..|names| - 1], data) + Lookup(data, names[|names| - 1])
  }

  lemma {:induction false} SumOfAppend(a: seq<string>, b: seq<string>, data: map<string, real>)
    ensures SumOf(a + b, data) == SumOf(a, data) + SumOf(b, data)
    decreases |b|
  {
    if b != [] {
      assert (a + b)[..|a + b| - 1] == a + b[..|b| - 1];
      SumOfAppend(a, b[..|b| - 1], data);
    } else {
      assert a + b == a;
    }
  }

  /** The single pass of the source computes the sum of the add fields minus
      the sum of the subtract fields. */
  lemma {:induction false} RawIsAddsMinusSubtracts(fs: seq<FieldSpec>, data: map<string, real>)
    ensures Raw(fs, data) == SumOf(AddNames(fs), data) - SumOf(SubtractNames(fs), data)
  {
    if fs != [] {
      var init, last := fs[..|fs| - 1], fs[|fs| - 1];
      RawIsAddsMinusSubtracts(init, data);
      var adds := if last.role == Add then [last.name] else [];
      var subs := if last.role == Subtract then [last.name] else [];
      SumOfAppend(AddNames(init), adds, data);
      SumOfAppend(SubtractNames(init), subs, data);
      assert SumOf([last.name], data) == Lookup(data, last.name) by {
        assert [last.name][..0] == [];
      }
    }
  }

  /** `computeResult` is max(0, sum of adds - sum of subtracts): never negative,
      exactly 0 when the difference is negative, the difference otherwise. */
  lemma {:induction false} TotalIsClampedDifference(fs: seq<FieldSpec>, data: map<string, real>)
    ensures var diff := SumOf(AddNames(fs), data) - SumOf(SubtractNames(fs), data);
      Total(fs, data) == (if diff < 0.0 then 0.0 else diff)
    ensures Total(fs, data) >= 0.0
  {
    RawIsAddsMinusSubtracts(fs, data);
  }

  /** The total depends on the data only through the values of non-result
      fields: whatever the data holds for a result field is ignored. */
  lemma {:induction false} OnlyNonResultValuesMatter(fs: seq<FieldSpec>, d1: map<string, real>, d2: map<string, real>)
    requires forall f :: f in fs && f.role != Result ==> Lookup(d1, f.name) == Lookup(d2, f.name)
    ensures Raw(fs, d1) == Raw(fs, d2)
    ensures Total(fs, d1) == Total(fs, d2)
  {
    if fs != [] {
      var init := fs[..|fs| - 1];
      assert forall f :: f in init ==> f in fs;
      OnlyNonResultValuesMatter(init, d1, d2);
      assert fs[|fs| - 1] in fs;
    }
  }

  /** A name missing from the data contributes exactly what an explicit 0 would. */
  lemma {:induction false} MissingKeyCountsAsZero(fs: seq<FieldSpec>, data: map<string, real>, key: string)
    requires key !in data
    ensures Total(fs, data) == Total(fs, data[key := 0.0])
  {
    forall f | f in fs && f.role != Result
      ensures Lookup(data, f.name) == Lookup(data[key := 0.0], f.name)
    {
    }
    OnlyNonResultValuesMatter(fs, data, data[key := 0.0]);
  }

  /** Removing every result field from the list leaves the total unchanged. */
  lemma {:induction false} ResultFieldsDoNotCount(fs: seq<FieldSpec>, data: map<string, real>)
    ensures Raw(NonResult(fs), data) == Raw(fs, data)
    ensures Total(NonResult(fs), data) == Total(fs, data)
  {
    if fs != [] {
      var init, last := fs[..|fs| - 1], fs[|fs| - 1];
      ResultFieldsDoNotCount(init, data);
      if last.role != Result {
        assert (NonResult(init) + [last])[..|NonResult(init)|] == NonResult(init);
      } else {
        assert NonResult(fs) == NonResult(init);
      }
    }
  }

  lemma {:induction false} RawAppend(a: seq<FieldSpec>, b: seq<FieldSpec>, data: map<string, real>)
    ensures Raw(a + b, data) == Raw(a, data) + Raw(b, data)
    decreases |b|
  {
    if b != [] {
      assert (a + b)[..|a + b| - 1] == a + b[..|b| - 1];
      RawAppend(a, b[..|b| - 1], data);
    } else {
      assert a + b == a;
    }
  }

  /** The order of the fields does not affect the total: exchanging two
      adjacent blocks anywhere in the list leaves it unchanged (and every
      reordering of a list is a series of such exchanges). */
  lemma {:induction false} OrderDoesNotMatter(x: seq<FieldSpec>, a: seq<FieldSpec>, b: seq<FieldSpec>, y: seq<FieldSpec>,
                                               data: map<string, real>)
    ensures Total(x + a + b + y, data) == Total(x + b + a + y, data)
  {
    RawAppend(x + a + b, y, data);
    RawAppend(x + a, b, data);
    RawAppend(x, a, data);
    RawAppend(x + b + a, y, data);
    RawAppend(x + b, a, data);
    RawAppend(x, b, data);
  }

  lemma RawOfThree(a: FieldSpec, b: FieldSpec, c: FieldSpec, data: map<string, real>)
    ensures Raw([a, b, c], data) == Contribution(a, data) + Contribution(b, data) + Contribution(c, data)
  {
    assert [a][..0] == [];
    assert Raw([a], data) == Contribution(a, data);
    assert [a, b][..1] == [a];
    assert Raw([a, b], data) == Raw([a], data) + Contribution(b, data);
    assert [a, b, c][..2] == [a, b];
  }

  lemma RawOfFour(a: FieldSpec, b: FieldSpec, c: FieldSpec, d: FieldSpec, data: map<string, real>)
    ensures Raw([a, b, c, d], data)
         == Contribution(a, data) + Contribution(b, data) + Contribution(c, data) + Contribution(d, data)
  {
    assert [a, b, c, d][..3] == [a, b, c];
    RawOfThree(a, b, c, data);
  }

  /** The source's examples: 100 + 15 = 115; 100 - 20 = 80; 100 + 20 - 10 = 110;
      10 - 999 clamps to 0; all zeros give 0. */
  lemma Examples()
    ensures Total([Made("price"), Made("tax"), Made("total").(role := Result)],
                  map["price" := 100.0, "tax" := 15.0]) == 115.0
    ensures Total([Made("subtotal"), Made("discount").(role := Subtract), Made("total").(role := Result)],
                  map["subtotal" := 100.0, "discount" := 20.0]) == 80.0
    ensures Total([Made("subtotal"), Made("extra_fees"), Made("discount").(role := Subtract),
                   Made("total").(role := Result)],
                  map["subtotal" := 100.0, "extra_fees" := 20.0, "discount" := 10.0]) == 110.0
    ensures Total([Made("price"), Made("discount").(role := Subtract), Made("total").(role := Result)],
                  map["price" := 10.0, "discount" := 999.0]) == 0.0
    ensures Total([Made("price"), Made("discount").(role := Subtract), Made("total").(role := Result)],
                  map["price" := 0.0, "discount" := 0.0]) == 0.0
  {
    var total := Made("total").(role := Result);
    var discount := Made("discount").(role := Subtract);
    RawOfThree(Made("price"), Made("tax"), total, map["price" := 100.0, "tax" := 15.0]);
    RawOfThree(Made("subtotal"), discount, total, map["subtotal" := 100.0, "discount" := 20.0]);
    RawOfFour(Made("subtotal"), Made("extra_fees"), discount, total,
              map["subtotal" := 100.0, "extra_fees" := 20.0, "discount" := 10.0]);
    RawOfThree(Made("price"), discount, total, map["price" := 10.0, "discount" := 999.0]);
    RawOfThree(Made("price"), discount, total, map["price" := 0.0, "discount" := 0.0]);
  }
}
