/** The column specifications of the repository's own tests, with the results
    those tests expect, proved of the model. */
module ColumnSpecExamples {
  import opened Builtins
  import opened ColumnSpec

  /** Four columns: one keyed by its header, one by a single key, a `sum` over
      two keys and a `" ".join` over two keys. */
  function SetUpSpec(): ColSpec {
    ColSpec([NewCol("One"),
             NewCol("Two", ["a"]),
             NewCol("Three", ["b", "c"], reduce := Sum),
             NewCol("Four", ["d", "e"], reduce := Join(" "))])
  }

  /** The row of a one-column specification. */
  lemma SingleColumnRow(c: Col, ctx: map<string, Cell>, v: Cell)
    requires c.Value(ctx) == Ok(v)
    ensures ColSpec([c]).Values(ctx) == Ok([v])
  {
    var r := ColSpec([c]).Values(ctx);
    assert r.Ok?;
    assert r.value == [v];
  }

  lemma HeadersExample()
    ensures SetUpSpec().Headers() == ["One", "Two", "Three", "Four"]
  {
  }

  lemma InputsExample()
    ensures SetUpSpec().Inputs() == ["One", "a", "b", "c", "d", "e"]
  {
  }

  /** The input row of the value test. */
  function SetUpRow(): map<string, Cell> {
    map["a" := Int(1), "b" := Int(2), "c" := Int(3), "d" := Str("foo"), "e" := Str("bar"), "One" := Int(6)]
  }

  /** Unfolds the value row one column at a time. */
  lemma RowCons(c: Col, rest: seq<Col>, ctx: map<string, Cell>, v: Cell, vs: seq<Cell>)
    requires c.Value(ctx) == Ok(v) && ColSpec(rest).Values(ctx) == Ok(vs)
    ensures ColSpec([c] + rest).Values(ctx) == Ok([v] + vs)
  {
  }

  lemma SetUpColumn0()
    ensures SetUpSpec().cols[0].Value(SetUpRow()) == Ok(Int(6))
  {
    assert Lookups(["One"], SetUpRow(), Null) == [Int(6)];
  }

  lemma SetUpColumn1()
    ensures SetUpSpec().cols[1].Value(SetUpRow()) == Ok(Int(1))
  {
    assert Lookups(["a"], SetUpRow(), Null) == [Int(1)];
  }

  lemma SetUpColumn2()
    ensures SetUpSpec().cols[2].Value(SetUpRow()) == Ok(Int(5))
  {
    assert Lookups(["b", "c"], SetUpRow(), Null) == [Int(2), Int(3)];
  }

  lemma SetUpColumn3()
    ensures SetUpSpec().cols[3].Value(SetUpRow()) == Ok(Str("foo bar"))
  {
    assert Lookups(["d", "e"], SetUpRow(), Null) == [Str("foo"), Str("bar")];
    assert Strs([Str("foo"), Str("bar")]) == ["foo", "bar"];
    assert ["foo", "bar"][1..] == ["bar"];
    assert JoinStrs(" ", ["foo", "bar"]) == "foo" + " " + "bar" == "foo bar";
  }

  lemma ValuesExample()
    ensures SetUpSpec().Values(SetUpRow()) == Ok([Int(6), Int(1), Int(5), Str("foo bar")])
  {
    var ctx := SetUpRow();
    var cols := SetUpSpec().cols;
    SetUpColumn0();
    SetUpColumn1();
    SetUpColumn2();
    SetUpColumn3();
    assert cols == [cols[0]] + ([cols[1]] + ([cols[2]] + [cols[3]]));
    SingleColumnRow(cols[3], ctx, Str("foo bar"));
    var vs3 := [Str("foo bar")];
    RowCons(cols[2], [cols[3]], ctx, Int(5), vs3);
    var vs2 := [Int(5)] + vs3;
    RowCons(cols[1], [cols[2]] + [cols[3]], ctx, Int(1), vs2);
    var vs1 := [Int(1)] + vs2;
    RowCons(cols[0], [cols[1]] + ([cols[2]] + [cols[3]]), ctx, Int(6), vs1);
    assert [Int(6)] + vs1 == [Int(6), Int(1), Int(5), Str("foo bar")];
  }

  lemma IncExample()
    ensures ColSpec([NewCol("Header", ["key"], transform := Inc)]).Values(map["key" := Int(1)])
         == Ok([Int(2)])
  {
    var c := NewCol("Header", ["key"], transform := Inc);
    assert Lookups(["key"], map["key" := Int(1)], Null) == [Int(1)];
    SingleColumnRow(c, map["key" := Int(1)], Int(2));
  }

  lemma DefaultExample()
    ensures ColSpec([NewCol("Header", ["key"], default := Int(7))]).Values(map[]) == Ok([Int(7)])
  {
    var c := NewCol("Header", ["key"], default := Int(7));
    assert Lookups(["key"], map[], Int(7)) == [Int(7)];
    SingleColumnRow(c, map[], Int(7));
  }

  /** The default is substituted first, then the transform is applied. */
  lemma DefaultAndIncExample()
    ensures ColSpec([NewCol("Header", ["key"], transform := Inc, default := Int(4))]).Values(map[])
         == Ok([Int(5)])
  {
    var c := NewCol("Header", ["key"], transform := Inc, default := Int(4));
    assert Lookups(["key"], map[], Int(4)) == [Int(4)];
    SingleColumnRow(c, map[], Int(5));
  }

  /** A present key holding None yields None, not the default. */
  lemma PresentNullExample()
    ensures ColSpec([NewCol("Header", ["key"], default := Int(7))]).Values(map["key" := Null])
         == Ok([Null])
  {
    var c := NewCol("Header", ["key"], default := Int(7));
    assert Lookups(["key"], map["key" := Null], Int(7)) == [Null];
    SingleColumnRow(c, map["key" := Null], Null);
  }

  function RelatedSpec(): ColSpec {
    ColSpec([NewCol("0", ["q"]),
             NewCol("Aa", ["a__x"]),
             NewCol("Ab", ["b__x"]),
             NewCol("Ac", ["c__x", "c__y"]),
             NewCol("Aa2", ["a__y"])])
  }

  /** A key `x__...` with a one-letter prefix relates to `x`. */
  lemma RelatedKey(k: string)
    requires |k| >= 3 && k[0] != '_' && k[1..3] == Sep
    ensures Find(k, Sep) == 1 && Partition(k, Sep).0 == [k[0]]
  {
    assert FirstAt(k, Sep, 1);
    FirstAtUnique(k, Sep, 1, Find(k, Sep));
  }

  lemma RelatedInputs()
    ensures RelatedSpec().Inputs() == ["q", "a__x", "b__x", "c__x", "c__y", "a__y"]
  {
  }

  /** The test's one input key without `__`. */
  lemma KeyWithoutSep()
    ensures Find("q", Sep) == -1
  {
  }

  /** The prefixes of the test's input keys that contain `__`. */
  lemma RelatedKeysA()
    ensures Find("a__x", Sep) == 1 && Partition("a__x", Sep).0 == "a"
    ensures Find("a__y", Sep) == 1 && Partition("a__y", Sep).0 == "a"
  {
    RelatedKey("a__x");
    RelatedKey("a__y");
  }

  lemma RelatedKeysB()
    ensures Find("b__x", Sep) == 1 && Partition("b__x", Sep).0 == "b"
  {
    RelatedKey("b__x");
  }

  lemma RelatedKeysC()
    ensures Find("c__x", Sep) == 1 && Partition("c__x", Sep).0 == "c"
    ensures Find("c__y", Sep) == 1 && Partition("c__y", Sep).0 == "c"
  {
    RelatedKey("c__x");
    RelatedKey("c__y");
  }

  /** Every related name of the test's input keys is `a`, `b` or `c`. */
  lemma RelatedWithin(spec: ColSpec, p: string)
    requires spec.Inputs() == ["q", "a__x", "b__x", "c__x", "c__y", "a__y"]
    requires p in spec.Related()
    ensures p == "a" || p == "b" || p == "c"
  {
    var k :| k in spec.Inputs() && Find(k, Sep) >= 0 && p == Partition(k, Sep).0;
    KeyWithoutSep();
    assert k != "q";
    assert k == "a__x" || k == "b__x" || k == "c__x" || k == "c__y" || k == "a__y";
    RelatedKeysA();
    RelatedKeysB();
    RelatedKeysC();
    if k == "a__x" {
      assert p == "a";
    } else if k == "b__x" {
      assert p == "b";
    } else if k == "c__x" {
      assert p == "c";
    } else if k == "c__y" {
      assert p == "c";
    } else {
      assert p == "a";
    }
  }

  /** Each of `a`, `b` and `c` is a related name of the test's input keys. */
  lemma RelatedIncludes(spec: ColSpec)
    requires spec.Inputs() == ["q", "a__x", "b__x", "c__x", "c__y", "a__y"]
    ensures "a" in spec.Related() && "b" in spec.Related() && "c" in spec.Related()
  {
    RelatedKeysA();
    RelatedKeysB();
    RelatedKeysC();
    assert "a__x" in spec.Inputs() && "b__x" in spec.Inputs() && "c__x" in spec.Inputs();
  }

  /** The related names of any specification with the test's input keys. */
  lemma RelatedOfTestKeys(spec: ColSpec)
    requires spec.Inputs() == ["q", "a__x", "b__x", "c__x", "c__y", "a__y"]
    ensures spec.Related() == {"a", "b", "c"}
  {
    forall p | p in spec.Related() ensures p in {"a", "b", "c"} {
      RelatedWithin(spec, p);
    }
    RelatedIncludes(spec);
  }

  lemma RelatedExample()
    ensures RelatedSpec().Related() == {"a", "b", "c"}
  {
    RelatedInputs();
    RelatedOfTestKeys(RelatedSpec());
  }
}
