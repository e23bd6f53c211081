/**
 * The `stepHref` pipe: before a step is turned into a link, the item flow of a
 * step whose recipe is a technology with a productivity bonus is divided by
 * that productivity, so the link carries the effective rather than the nominal
 * quantity. Building the link itself is the router's job and is a parameter here.
 */
module StepHref {
  import opened Wrappers
  import opened Rationals

  /** One production step; `items` is the quantity the pipe may adjust. */
  datatype Step = Step(
    id: string,
    itemId: Option<string>,
    recipeId: Option<string>,
    items: Option<Rational>,
    surplus: Option<Rational>,
    machines: Option<Rational>,
    power: Option<Rational>,
    pollution: Option<Rational>)

  /** A recipe after the dataset's adjustments; an absent `isTechnology` flag reads as false. */
  datatype AdjustedRecipe = AdjustedRecipe(id: string, isTechnology: bool, productivity: Option<Rational>)

  /** The adjusted dataset: recipes by id and the dataset hash, which the pipe only passes on. */
  datatype AdjustedDataset<H> = AdjustedDataset(adjustedRecipe: map<string, AdjustedRecipe>, hash: H)

  /** Why the pipe could not produce a link. */
  datatype PipeError =
    | MissingRecipe(recipeId: string)  // the lookup yields undefined and reading a field of it throws
    | DivisionByZero                   // the recipe's productivity is the zero rational

  /** `if (step.recipeId)`: a missing id and the empty string are both falsy. */
  predicate HasRecipeId(s: Step)
  {
    s.recipeId.Some? && s.recipeId.value != ""
  }

  /** `recipe.isTechnology && recipe.productivity && value.items`: rationals are objects, so present means truthy. */
  predicate AdjustsItems(recipe: AdjustedRecipe, value: Step)
  {
    recipe.isTechnology && recipe.productivity.Some? && value.items.Some?
  }

  /** The two steps agree on every field except possibly `items`. */
  predicate SameExceptItems(s: Step, t: Step)
  {
    s.id == t.id && s.itemId == t.itemId && s.recipeId == t.recipeId && s.surplus == t.surplus
    && s.machines == t.machines && s.power == t.power && s.pollution == t.pollution
  }

  /**
   * Names every plain object inherits from `Object.prototype`. Indexing the recipe
   * record with one of them that is not an own key yields the inherited member,
   * which is not undefined and has no `isTechnology` field.
   */
  const InheritedNames: set<string> := {
    "constructor", "toString", "toLocaleString", "valueOf", "hasOwnProperty",
    "isPrototypeOf", "propertyIsEnumerable", "__proto__", "__defineGetter__",
    "__defineSetter__", "__lookupGetter__", "__lookupSetter__"}

  /** What `data.adjustedRecipe[id]` yields: an own recipe, an inherited member, or undefined. */
  datatype Lookup = Own(recipe: AdjustedRecipe) | Inherited | Undefined

  function LookupRecipe<H>(data: AdjustedDataset<H>, id: string): Lookup
  {
    if id in data.adjustedRecipe then Own(data.adjustedRecipe[id])
    else if id in InheritedNames then Inherited
    else Undefined
  }

  /** The step that the pipe hands to the router, or why it fails before doing so. */
  function PassedStep<H>(value: Step, data: AdjustedDataset<H>): (r: Result<Step, PipeError>)
    ensures r.Success? ==> SameExceptItems(r.value, value)
    ensures r.Success? ==> (r.value.items.Some? <==> value.items.Some?)
    ensures r.Failure? ==> HasRecipeId(value)
  {
    if !HasRecipeId(value) then Success(value)
    else
      var id := value.recipeId.value;
      match LookupRecipe(data, id)
      case Undefined => Failure(MissingRecipe(id))
      case Inherited => Success(value)
      case Own(recipe) =>
        if !AdjustsItems(recipe, value) then Success(value)
        else if IsZero(recipe.productivity.value) then Failure(DivisionByZero)
        else Success(value.(items := Some(Div(value.items.value, recipe.productivity.value))))
  }

  /**
   * The pipe's `transform`: the link for `value`, built by `stepHref` (the router)
   * from the passed step, the zip state and the dataset hash.
   */
  function Transform<Z, H>(
    value: Step, zipPartial: Z, data: AdjustedDataset<H>,
    stepHref: (Step, Z, H) -> Option<string>): (r: Result<Option<string>, PipeError>)
    ensures r.Failure? <==> PassedStep(value, data).Failure?
    ensures r.Failure? ==> r.error == PassedStep(value, data).error
  {
    match PassedStep(value, data)
    case Success(step) => Success(stepHref(step, zipPartial, data.hash))
    case Failure(e) => Failure(e)
  }

  /** A step without a recipe id is passed on as it is. */
  lemma NoRecipeIdPassesStepUnchanged<H>(value: Step, data: AdjustedDataset<H>)
    requires !HasRecipeId(value)
    ensures PassedStep(value, data) == Success(value)
  {
  }

  /** A recipe id that names neither an adjusted recipe nor an inherited member makes the pipe fail. */
  lemma UnknownRecipeFails<H>(value: Step, data: AdjustedDataset<H>)
    requires HasRecipeId(value) && value.recipeId.value !in data.adjustedRecipe
    requires value.recipeId.value !in InheritedNames
    ensures PassedStep(value, data) == Failure(MissingRecipe(value.recipeId.value))
  {
  }

  /** A recipe id that only names an inherited member finds no technology: the step is passed on as it is. */
  lemma InheritedNamePassesStepUnchanged<H>(value: Step, data: AdjustedDataset<H>)
    requires HasRecipeId(value) && value.recipeId.value !in data.adjustedRecipe
    requires value.recipeId.value in InheritedNames
    ensures PassedStep(value, data) == Success(value)
  {
  }

  /** A recipe that is not a technology, has no productivity, or a step without items: passed on as it is. */
  lemma GuardFailsPassesStepUnchanged<H>(value: Step, data: AdjustedDataset<H>)
    requires HasRecipeId(value) && value.recipeId.value in data.adjustedRecipe
    requires !AdjustsItems(data.adjustedRecipe[value.recipeId.value], value)
    ensures PassedStep(value, data) == Success(value)
  {
  }

  /** When all three guards hold and the productivity is not zero, `items` becomes items / productivity. */
  lemma AdjustedItemsAreDivided<H>(value: Step, data: AdjustedDataset<H>)
    requires HasRecipeId(value) && value.recipeId.value in data.adjustedRecipe
    requires AdjustsItems(data.adjustedRecipe[value.recipeId.value], value)
    requires !IsZero(data.adjustedRecipe[value.recipeId.value].productivity.value)
    ensures PassedStep(value, data).Success?
    ensures PassedStep(value, data).value.items
         == Some(Div(value.items.value, data.adjustedRecipe[value.recipeId.value].productivity.value))
  {
  }

  /** When all three guards hold and the productivity is zero, the division fails. */
  lemma ZeroProductivityFails<H>(value: Step, data: AdjustedDataset<H>)
    requires HasRecipeId(value) && value.recipeId.value in data.adjustedRecipe
    requires AdjustsItems(data.adjustedRecipe[value.recipeId.value], value)
    requires IsZero(data.adjustedRecipe[value.recipeId.value].productivity.value)
    ensures PassedStep(value, data) == Failure(DivisionByZero)
  {
  }

  /** The pipe fails exactly on an undefined recipe lookup or a zero productivity it would divide by. */
  lemma PassedStepFailsIff<H>(value: Step, data: AdjustedDataset<H>)
    ensures PassedStep(value, data).Failure? <==>
      HasRecipeId(value) &&
      ((value.recipeId.value !in data.adjustedRecipe && value.recipeId.value !in InheritedNames) ||
       (value.recipeId.value in data.adjustedRecipe &&
        AdjustsItems(data.adjustedRecipe[value.recipeId.value], value) &&
        IsZero(data.adjustedRecipe[value.recipeId.value].productivity.value)))
  {
  }

  /**
   * Round trip: the passed items times the productivity is the original quantity
   * again (exact arithmetic), and the passed items denote items / productivity.
   */
  lemma AdjustedItemsRoundTrip<H>(value: Step, data: AdjustedDataset<H>)
    requires HasRecipeId(value) && value.recipeId.value in data.adjustedRecipe
    requires AdjustsItems(data.adjustedRecipe[value.recipeId.value], value)
    requires !IsZero(data.adjustedRecipe[value.recipeId.value].productivity.value)
    ensures PassedStep(value, data).Success? && PassedStep(value, data).value.items.Some?
    ensures var p := data.adjustedRecipe[value.recipeId.value].productivity.value;
            var passed := PassedStep(value, data).value.items.value;
            Eq(Mul(passed, p), value.items.value) && Value(p) != 0.0 && Value(passed) == Value(value.items.value) / Value(p)
  {
    var p := data.adjustedRecipe[value.recipeId.value].productivity.value;
    DivValue(value.items.value, p);
  }

  /** The passed step depends on the quantities only, not on how the fractions are written. */
  lemma PassedStepRespectsEq<H>(value: Step, value': Step, data: AdjustedDataset<H>)
    requires SameExceptItems(value, value')
    requires value.items.Some? <==> value'.items.Some?
    requires value.items.Some? ==> Eq(value.items.value, value'.items.value)
    ensures PassedStep(value, data).Success? <==> PassedStep(value', data).Success?
    ensures PassedStep(value, data).Success? ==> SameExceptItems(PassedStep(value, data).value, PassedStep(value', data).value)
    ensures PassedStep(value, data).Success? && PassedStep(value, data).value.items.Some? ==>
              PassedStep(value', data).value.items.Some? &&
              Eq(PassedStep(value, data).value.items.value, PassedStep(value', data).value.items.value)
  {
    if HasRecipeId(value) && value.recipeId.value in data.adjustedRecipe {
      var recipe := data.adjustedRecipe[value.recipeId.value];
      if AdjustsItems(recipe, value) && !IsZero(recipe.productivity.value) {
        var p := recipe.productivity.value;
        assert Eq(p, p);
        DivRespectsEq(value.items.value, value'.items.value, p, p);
      }
    }
  }

  /** Without a recipe id the router receives the input step, the zip state and the hash untouched. */
  lemma TransformWithoutRecipeId<Z, H>(value: Step, zipPartial: Z, data: AdjustedDataset<H>, stepHref: (Step, Z, H) -> Option<string>)
    requires !HasRecipeId(value)
    ensures Transform(value, zipPartial, data, stepHref) == Success(stepHref(value, zipPartial, data.hash))
  {
  }

  /**
   * With all three guards true and a non-zero productivity, the router receives the
   * spread copy whose items are items / productivity, with the zip state and hash untouched.
   */
  lemma TransformAdjusted<Z, H>(value: Step, zipPartial: Z, data: AdjustedDataset<H>, stepHref: (Step, Z, H) -> Option<string>)
    requires HasRecipeId(value) && value.recipeId.value in data.adjustedRecipe
    requires AdjustsItems(data.adjustedRecipe[value.recipeId.value], value)
    requires !IsZero(data.adjustedRecipe[value.recipeId.value].productivity.value)
    ensures var p := data.adjustedRecipe[value.recipeId.value].productivity.value;
            Transform(value, zipPartial, data, stepHref)
              == Success(stepHref(value.(items := Some(Div(value.items.value, p))), zipPartial, data.hash))
  {
  }

  /**
   * Whenever the pipe succeeds, the router is called exactly once, on the passed
   * step, with the zip state and hash untouched; that step differs from the input
   * at most in `items`.
   */
  lemma TransformCallsRouter<Z, H>(value: Step, zipPartial: Z, data: AdjustedDataset<H>, stepHref: (Step, Z, H) -> Option<string>)
    ensures PassedStep(value, data).Success? ==>
              SameExceptItems(PassedStep(value, data).value, value) &&
              Transform(value, zipPartial, data, stepHref)
                == Success(stepHref(PassedStep(value, data).value, zipPartial, data.hash))
  {
  }
}
