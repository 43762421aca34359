/** The step-by-step form builder: a step index over the type's steps and
    a local copy of the form data that the fields edit. */
module FormBuilder {
  import opened Common
  import opened JsObject
  import opened Values
  import opened FormSteps

  /** The two navigation buttons. */
  datatype Nav = Next | Previous

  /** The index after pressing `m` on `n` steps: Next advances except on
      the last step (which completes the form instead) and Previous goes
      back except on the first step (which leaves the builder instead). */
  function Move(n: nat, index: nat, m: Nav): nat {
    match m
    case Next => if index == n - 1 then index else index + 1
    case Previous => if index > 0 then index - 1 else index
  }

  function Moves(n: nat, index: nat, ms: seq<Nav>): nat
    decreases |ms|
  {
    if ms == [] then index else Moves(n, Move(n, index, ms[0]), ms[1..])
  }

  /** For a non-empty step list the index stays on a step whatever the
      buttons pressed. */
  lemma {:induction false} IndexStaysOnAStep(n: nat, index: nat, ms: seq<Nav>)
    requires index < n
    ensures Moves(n, index, ms) < n
    decreases |ms|
  {
    if ms != [] {
      IndexStaysOnAStep(n, Move(n, index, ms[0]), ms[1..]);
    }
  }

  /** Previous after Next lands back on the same step, unless Next was
      pressed on the last step. */
  lemma BackAndForth(n: nat, index: nat)
    requires index < n - 1
    ensures Move(n, Move(n, index, Next), Previous) == index
    ensures Moves(n, index, [Next, Previous]) == index
  {
    assert [Next, Previous][1..] == [Previous];
    assert [Previous][1..] == [];
  }

  class Stepper {
    const steps: seq<StepDescriptor>
    /** The builder's own `formData` state, seeded from `initialData`. */
    const form: FormState
    var index: nat

    predicate Valid()
      reads this
    {
      index < |steps|
    }

    function IsLastStep(): bool
      reads this
    {
      index == |steps| - 1
    }

    function CurrentStep(): StepDescriptor
      reads this
      requires Valid()
    {
      steps[index]
    }

    /** The step list is `formSteps[formType] || []`, and the first render
        reads `steps[0]`: the type must be a catalog key, which the
        controller guarantees by passing its builder type. */
    constructor (formType: string, initialData: Obj<Value>)
      requires formType in Catalog
      ensures steps == Catalog[formType] && index == 0 && Valid()
      ensures fresh(form) && form.data == initialData
    {
      CatalogShape();
      steps := StepsFor(formType);
      form := new FormState(initialData);
      index := 0;
    }

    /** `handleNext`: on the last step the local data goes to `onComplete`
        (the result); otherwise the index advances. */
    method HandleNext() returns (completed: Option<Obj<Value>>)
      requires Valid()
      modifies this
      ensures Valid() && index == Move(|steps|, old(index), Next)
      ensures old(IsLastStep()) ==> completed == Some(form.data) && index == old(index)
      ensures !old(IsLastStep()) ==> completed.None? && index == old(index) + 1
      ensures unchanged(form)
    {
      if IsLastStep() {
        completed := Some(form.data);
      } else {
        index := index + 1;
        completed := None;
      }
    }

    /** `handlePrevious`: back one step, or `onBack` (the result) on the
        first step with the index left alone. */
    method HandlePrevious() returns (backedOut: bool)
      requires Valid()
      modifies this
      ensures Valid() && index == Move(|steps|, old(index), Previous)
      ensures backedOut <==> old(index) == 0
      ensures backedOut ==> index == old(index)
      ensures !backedOut ==> index == old(index) - 1
      ensures unchanged(form)
    {
      if index > 0 {
        index := index - 1;
        backedOut := false;
      } else {
        backedOut := true;
      }
    }
  }
}
