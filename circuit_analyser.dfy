/** The basic circuit analyser: one of Ohm's law's three quantities from
    the other two, chosen by a numbered menu selection. */
module CircuitAnalyser {

  import opened Outcomes

  datatype AnalyserError = ZeroResistance | ZeroCurrent | InvalidSelection

  /** Ohm's law relating a voltage, a current and a resistance. */
  predicate OhmsLaw(v: real, i: real, r: real)
  {
    v == i * r
  }

  /** Selection 1 reads a current and a resistance, selection 2 a voltage
      and a resistance, selection 3 a voltage and a current; `first` and
      `second` are the two values read, in that order. Any other selection
      reads nothing and is refused. */
  function Analyse(choice: int, first: real, second: real): (r: Result<real, AnalyserError>)
    ensures choice == 1 ==> r.Success? && OhmsLaw(r.value, first, second)
    ensures choice == 2 ==> (r.Success? <==> second != 0.0)
    ensures choice == 2 && r.Success? ==> OhmsLaw(first, r.value, second)
    ensures choice == 2 && r.Failure? ==> r.error == ZeroResistance
    ensures choice == 3 ==> (r.Success? <==> second != 0.0)
    ensures choice == 3 && r.Success? ==> OhmsLaw(first, second, r.value)
    ensures choice == 3 && r.Failure? ==> r.error == ZeroCurrent
    ensures choice !in {1, 2, 3} ==> r == Failure(InvalidSelection)
  {
    if choice == 1 then
      Success(first * second)
    else if choice == 2 then
      if second == 0.0 then Failure(ZeroResistance) else Success(first / second)
    else if choice == 3 then
      if second == 0.0 then Failure(ZeroCurrent) else Success(first / second)
    else
      Failure(InvalidSelection)
  }

  /** Where a result exists it is the only value Ohm's law allows. */
  lemma AnalyseUnique(choice: int, first: real, second: real, x: real)
    requires Analyse(choice, first, second).Success?
    requires choice == 1 ==> OhmsLaw(x, first, second)
    requires choice == 2 ==> OhmsLaw(first, x, second)
    requires choice == 3 ==> OhmsLaw(first, second, x)
    ensures Analyse(choice, first, second).value == x
  {
    if choice == 2 || choice == 3 {
      var y := Analyse(choice, first, second).value;
      assert (y - x) * second == 0.0;
    }
  }

  /** The three selections undo each other: the voltage computed from a
      current and a resistance gives back that current (selection 2) and
      that resistance (selection 3). */
  lemma SelectionsAgree(i: real, r: real)
    requires i != 0.0 && r != 0.0
    ensures Analyse(2, Analyse(1, i, r).value, r) == Success(i)
    ensures Analyse(3, Analyse(1, i, r).value, i) == Success(r)
  {
    var v := Analyse(1, i, r).value;
    AnalyseUnique(2, v, r, i);
    AnalyseUnique(3, v, i, r);
  }

  /** 4 V across 2 ohms drives 2 A. */
  lemma FourVoltsTwoOhms()
    ensures Analyse(2, 4.0, 2.0) == Success(2.0)
  {
  }

}
