/** Small shared vocabulary: optional values, results, and command-line option
    declarations (an option's flag and its default). */
module Common {

  /** Python's None / a present value. */
  datatype Option<+T> = None | Some(value: T)

  /** A computation that either produces a value or raises an exception. */
  datatype Result<+T, +E> = Ok(value: T) | Err(error: E)

  /** The default an argument parser records for an option. */
  datatype DefaultValue =
    | NoDefault                    // a required positional argument
    | NoneDefault                  // default=None
    | BoolDefault(b: bool)         // store_true options default to False
    | IntDefault(i: int)
    | StrDefault(s: string)
    | ListDefault(items: seq<string>)

  /** A value a worker records in its SCOOP environment. */
  datatype EnvValue = IntValue(i: int) | StrValue(s: string)

  /** One add_argument call: the option's name (of type `F`) and its default. */
  datatype ArgSpec<F> = ArgSpec(flag: F, default: DefaultValue)

  /** The default recorded for `flag`, taking the first declaration that has
      that name (argparse refuses a second one). */
  function DefaultOf<F(==)>(specs: seq<ArgSpec<F>>, flag: F): Option<DefaultValue>
  {
    if specs == [] then None
    else if specs[0].flag == flag then Some(specs[0].default)
    else DefaultOf(specs[1..], flag)
  }

  /** A flag has a default exactly when it is declared, and the default is
      that of a declaration of the flag. */
  lemma {:induction false} DefaultOfDeclared<F>(specs: seq<ArgSpec<F>>, flag: F)
    ensures DefaultOf(specs, flag).Some? <==> exists i :: 0 <= i < |specs| && specs[i].flag == flag
    ensures DefaultOf(specs, flag).Some? ==>
      exists i :: 0 <= i < |specs| && specs[i] == ArgSpec(flag, DefaultOf(specs, flag).value)
    decreases |specs|
  {
    if specs != [] {
      DefaultOfDeclared(specs[1..], flag);
      assert forall i :: 1 <= i < |specs| ==> specs[i] == specs[1..][i - 1];
    }
  }

  /** The declarations made for the flags of `order`, in that order, each
      with the default `def` gives it. */
  function SpecsOf<F>(order: seq<F>, def: F -> DefaultValue): (specs: seq<ArgSpec<F>>)
    ensures |specs| == |order|
    ensures forall i :: 0 <= i < |order| ==> specs[i] == ArgSpec(order[i], def(order[i]))
  {
    seq(|order|, i requires 0 <= i < |order| => ArgSpec(order[i], def(order[i])))
  }

  /** Every flag declared from a table of defaults gets its default from the
      table. */
  lemma {:induction false} DefaultOfTable<F>(order: seq<F>, def: F -> DefaultValue, flag: F)
    requires flag in order
    ensures DefaultOf(SpecsOf(order, def), flag) == Some(def(flag))
    decreases |order|
  {
    var specs := SpecsOf(order, def);
    if order[0] != flag {
      assert flag in order[1..] by {
        var k :| 0 <= k < |order| && order[k] == flag;
        assert order[1..][k - 1] == flag;
      }
      assert specs[1..] == SpecsOf(order[1..], def);
      DefaultOfTable(order[1..], def, flag);
    }
  }

  /** Declarations added after others only supply defaults for flags the
      earlier ones do not declare. */
  lemma {:induction false} DefaultOfAppend<F>(front: seq<ArgSpec<F>>, back: seq<ArgSpec<F>>, flag: F)
    ensures DefaultOf(front + back, flag) ==
      if DefaultOf(front, flag).Some? then DefaultOf(front, flag) else DefaultOf(back, flag)
    decreases |front|
  {
    if front == [] {
      assert front + back == back;
    } else {
      assert (front + back)[1..] == front[1..] + back;
      DefaultOfAppend(front[1..], back, flag);
    }
  }
}
