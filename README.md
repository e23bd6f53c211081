# Productivity-adjusted step links and flow diagram interaction

A model, in Dafny, of two pieces of a production-chain calculator for
factory games (factoriolab).

**The `stepHref` pipe** turns a production step into a link. Before the
router builds the link, the pipe checks the step's recipe. If that recipe is
a technology with a productivity bonus and the step has an item quantity, the
pipe divides the quantity by the productivity. The link then shows effective
throughput rather than nominal throughput. Quantities are exact rationals.
Module `Rationals` models them as fractions with a positive denominator,
compared by value. Module `StepHref` models the pipe as pure functions over a
`Step` datatype. `PassedStep` gives the step handed to the router, and
`Transform` gives the whole pipe.

**The flow diagram component** draws the steps as a Sankey or a box-line
diagram. Its implementation is not part of this model. Module `Flow` encodes
what the component's test file asserts:
- the mapping from the alignment setting to the Sankey alignment strategy;
- the height of a laid-out node;
- the dispatch of a rebuild to one of the two diagrams;
- click-to-select.

The component is a class. Its `selectedId` field is the selection signal, and
it keeps a log of every value written to that signal, because the tests
observe the signal's `set` calls. Rebuilds are recorded by the arguments they
were called with.

Following the code rather than a prose reading of it:
- A recipe id that is the empty string is falsy, so it counts as "no recipe".
- A productivity or item quantity is a rational object. When present it is
  truthy, even if it is zero.
- A zero productivity therefore passes the guard and reaches the division.

## Model

| member | source | states |
|---|---|---|
| Rationals.Div | src/app/routes/main/pipes/step-href.pipe.ts:22 | the quotient times the divisor equals the dividend as a value, and the quotient is zero exactly when the dividend is |
| Rationals.DivValue | src/app/routes/main/pipes/step-href.pipe.ts:22 | a non-zero divisor denotes a non-zero real, and the quotient denotes the real quotient of the two quantities |
| Rationals.DivRespectsEq | src/app/routes/main/pipes/step-href.pipe.ts:22 | equal quantities divided by equal non-zero quantities give equal quotients, whatever fractions represent them |
| StepHref.NoRecipeIdPassesStepUnchanged | src/app/routes/main/pipes/step-href.pipe.ts:15-16 | a step with no recipe id, or an empty one, is handed on exactly as given |
| StepHref.UnknownRecipeFails | src/app/routes/main/pipes/step-href.pipe.ts:16-18 | a recipe id that is neither a key of the adjusted recipes nor an inherited member name makes the pipe fail, because the undefined lookup result is dereferenced |
| StepHref.InheritedNamePassesStepUnchanged | src/app/routes/main/pipes/step-href.pipe.ts:16-18 | a recipe id that only names an inherited member (such as `constructor`) finds no technology, so the step is handed on unchanged |
| StepHref.GuardFailsPassesStepUnchanged | src/app/routes/main/pipes/step-href.pipe.ts:18 | a recipe that is not a technology or has no productivity, or a step without items, leaves the step unchanged |
| StepHref.AdjustedItemsAreDivided | src/app/routes/main/pipes/step-href.pipe.ts:18-23 | when all three guards hold and the productivity is non-zero, the passed step's items are the input items divided by the productivity |
| StepHref.ZeroProductivityFails | src/app/routes/main/pipes/step-href.pipe.ts:18-22 | when all three guards hold and the productivity is zero, the division fails |
| StepHref.PassedStepFailsIff | src/app/routes/main/pipes/step-href.pipe.ts:15-25 | the pipe fails if and only if the recipe lookup is undefined or a zero productivity would be divided by |
| StepHref.PassedStep | src/app/routes/main/pipes/step-href.pipe.ts:15-25 | the step handed on agrees with the input on every field other than items, has items exactly when the input does, and failure needs a recipe id |
| StepHref.AdjustedItemsRoundTrip | src/app/routes/main/pipes/step-href.pipe.ts:18-22 | the adjusted items times the productivity equal the original items, and the adjusted items denote items / productivity |
| StepHref.PassedStepRespectsEq | src/app/routes/main/pipes/step-href.pipe.ts:20-23 | two steps whose items are the same quantity are passed on with the same outcome and the same adjusted quantity |
| StepHref.TransformWithoutRecipeId | src/app/routes/main/pipes/step-href.pipe.ts:15-26 | without a recipe id, the router receives the input step, the zip state and the dataset hash untouched |
| StepHref.Transform | src/app/routes/main/pipes/step-href.pipe.ts:10-27 | the pipe fails exactly when the adjustment fails, with the same error, and the router is then not called |
| StepHref.TransformAdjusted | src/app/routes/main/pipes/step-href.pipe.ts:18-26 | when all three guards hold and the productivity is non-zero, the router receives the input step with items replaced by items / productivity, and the zip state and hash untouched |
| StepHref.TransformCallsRouter | src/app/routes/main/pipes/step-href.pipe.ts:10-27 | when the pipe succeeds, its link is the router's link for exactly the passed step, with the zip state and hash untouched; that step equals the input except for items |
| Flow.GetAlign | src/app/routes/main/routes/flow/flow.component.spec.ts:143-150 | the strategy returned implements the requested alignment: Justify, Left, Right and Center map to their own strategies |
| Flow.GetAlignBijective | src/app/routes/main/routes/flow/flow.component.spec.ts:143-150 | different alignments give different strategies, and every strategy is the result for its alignment |
| Flow.NodeHeight | src/app/routes/main/routes/flow/flow.component.spec.ts:152-158 | with both coordinates the height is the vertical extent y1 - y0; with neither it is 0 |
| Flow.NodeHeightExamples | src/app/routes/main/routes/flow/flow.component.spec.ts:153-157 | a node from y0 = 0 to y1 = 5 has height 5; a node without coordinates has height 0 |
| Flow.Dispatch | src/app/routes/main/routes/flow/flow.component.spec.ts:67-85 | Sankey settings give a Sankey rebuild with the same flow and settings; box-line settings give a box-line rebuild with the flow only |
| Flow.FlowComponent.RebuildChart | src/app/routes/main/routes/flow/flow.component.spec.ts:67-85 | exactly one rebuild is performed, and it is the one the settings' diagram type selects |
| Flow.FlowComponent.RebuildSankey | src/app/routes/main/routes/flow/flow.component.spec.ts:92-93 | the Sankey diagram is rebuilt from the given flow and settings; the selection keeps holding its last write |
| Flow.FlowComponent.RebuildBoxLine | src/app/routes/main/routes/flow/flow.component.spec.ts:130-133 | the box-line diagram is rebuilt from the given flow; the selection keeps holding its last write |
| Flow.FlowComponent.SetSelectedId | src/app/routes/main/routes/flow/flow.component.spec.ts:123-125 | the signal now holds the id, and the write is logged; the signal always holds the last value written |
| Flow.FlowComponent.OnSankeyNodeClick | src/app/routes/main/routes/flow/flow.component.spec.ts:115-126 | a click whose default is not prevented selects the node's step id; a prevented click writes nothing and leaves the selection unchanged |
| Flow.StepIds | src/app/routes/main/routes/flow/flow.component.spec.ts:138 | one step id per node, in node order, each the step id of the node at that position |
| Flow.FlowComponent.EmitClickOnNodes | src/app/routes/main/routes/flow/flow.component.spec.ts:136-139 | clicking every box-line node writes the nodes' step ids in order, and a non-empty node list leaves the last node's step id selected |
| Flow.RebuildChartScenario | src/app/routes/main/routes/flow/flow.component.spec.ts:68-84 | on a fresh component, Sankey settings cause exactly one Sankey rebuild with the same flow and settings; box-line settings cause exactly one box-line rebuild with the flow only |
| Flow.SankeyClickScenario | src/app/routes/main/routes/flow/flow.component.spec.ts:115-126 | clicking the first Sankey node selects its step id; with the default prevented, nothing is written and nothing is selected |
| Flow.BoxLineClickScenario | src/app/routes/main/routes/flow/flow.component.spec.ts:135-140 | emitting a click on every box-line node writes each node's step id in order, so a non-empty diagram writes the selection |
| Flow.FlowComponent.OnBoxLineNodeClick | src/app/routes/main/routes/flow/flow.component.spec.ts:135-140 | a click on a box-line node writes the node's step id to the selection |

## Left out

- `RouterService.stepHref` and the URL and zip encoding behind it are not part of this model. The router is a function parameter of `Transform`, and the zip state and dataset hash are type parameters that the pipe only passes on.
- The rational arithmetic library is not part of this model. Its division by zero is modelled as the error `DivisionByZero`, not as whatever that library does. Normalisation by the greatest common divisor is not modelled; quantities are compared by value instead.
- A JavaScript exception is modelled as a `Failure` result: reading a field of the undefined recipe returned for an unknown recipe id.
- StepHref.PassedStep: the recipe record is taken to be a plain object. An id that is not an own key but names a member inherited from `Object.prototype` (listed in `InheritedNames`) finds that member, which is not a technology. Record objects created without a prototype are not modelled.
- `isTechnology` is a boolean; an absent flag reads as false. Only the `Step` fields `id`, `itemId`, `recipeId`, `items`, `surplus`, `machines`, `power` and `pollution` are modelled. Any other field would also be copied unchanged by the spread.
- The component's implementation file is not part of this model. Only the behaviour its tests assert is modelled.
- Flow.NodeHeight: when only one of y0 and y1 is present, the missing one counts as 0. The tests do not pin this case.
- Flow.FlowComponent.OnBoxLineNodeClick: the tests only assert that a box-line click writes the selection. The model writes the clicked node's step id, by analogy with the Sankey click.
- Node coordinates are `real`. Floating-point rounding is not modelled.
- Rendering is left out: d3 and cytoscape drawing, element counts, drag-and-drop and zoom transforms.
- The debounced resize refit (`onResize` and `cy.fit` after 200 ms) is left out, because it depends on a timer.
- The theme stream that triggers `rebuildChart` after view initialisation is left out, because it is a reactive stream.
- The Sankey alignment strategies and the layout engine live in a library that is not part of this model. They appear only as tags.
- The landing guard, the collection table, the costs dialog, the store actions and the route table are left out. They are user-interface and store glue with no implementation logic visible.
