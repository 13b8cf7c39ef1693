/** The scenarios of the package's own tests, proved from the definitions
    in `Errs`. */
module ErrsTest {

  import opened Wrappers
  import opened Strings
  import opened Errs

  method TestErrPair()
  {
    var both := Pair(Some(New("one")), Some(New("two")));
    assert Render(both.value) == "one; two";
    assert Render(Pair(Some(New("one")), None).value) == "one";
    assert Render(Pair(None, Some(New("two"))).value) == "two";
    assert Pair(None, None) == None;
  }

  method TestEat()
  {
    var err := Eat("testing", Some(New("error")));
    assert Render(err.value) == "error";
  }

  method TestChainTrivial()
  {
    var err := Chain([]);
    assert err == None;
    err := Chain([None]);
    assert err == None;

    var single := Some(New("test error"));
    err := Chain([single]);
    assert err == single;

    err := Chain([None, None, None, None, None]);
    assert err == None;
  }

  /** The list `Chain` builds from four leaves renders as their messages,
      in order, around the separator. */
  lemma FourLeavesRender()
    ensures Render(List([New("one"), New("two"), New("three"), New("four")])) ==
      "one; two; three; four"
  {
    var one, two, three, four := New("one"), New("two"), New("three"), New("four");
    var parts := ["one", "two", "three", "four"];
    assert Renderings([one, two, three, four]) == parts;
    assert Join(parts[2..], Separator) == "three; four";
    assert Join(parts[1..], Separator) == "two; three; four";
    assert Join(parts, Separator) == "one; two; three; four";
  }

  method TestChainFour()
  {
    var one, two, three, four := New("one"), New("two"), New("three"), New("four");
    var es := [Some(one), Some(two), Some(three), Some(four)];
    var err := Chain(es);
    assert err == Some(List([one, two, three, four])) by {
      assert Survivors(es[3..]) == [four];
      assert Survivors(es[2..]) == [three, four];
      assert Survivors(es[1..]) == [two, three, four];
      assert Survivors(es) == [one, two, three, four];
    }
    FourLeavesRender();
    assert Render(err.value) == "one; two; three; four";
  }

  method TestChainGap()
  {
    var one, three := New("one"), New("three");
    var es := [Some(one), None, Some(three)];
    var err := Chain(es);
    assert err == Some(List([one, three])) by {
      assert Survivors(es[2..]) == [three];
      assert Survivors(es[1..]) == [three];
      assert Survivors(es) == [one, three];
    }
    assert Render(err.value) == "one; three" by {
      assert Renderings([one, three]) == ["one", "three"];
    }
  }

}
