/**
 * The flow diagram component: the choice of Sankey alignment strategy, the
 * height of a laid-out node, the dispatch of a rebuild to the Sankey or the
 * box-line diagram, and click-to-select on diagram nodes. Drawing itself is
 * not modelled; a rebuild is recorded by what it was called with.
 */
module Flow {
  import opened Wrappers

  /** The alignment setting of a Sankey diagram. */
  datatype SankeyAlign = Justify | Left | Right | Center

  /** The Sankey layout's column-assignment strategies, as tags. */
  datatype AlignStrategy = SankeyJustify | SankeyLeft | SankeyRight | SankeyCenter

  /** Which kind of diagram the settings ask for. */
  datatype FlowDiagram = Sankey | BoxLine

  datatype FlowSettings = FlowSettings(diagram: FlowDiagram, sankeyAlign: SankeyAlign)

  /** A diagram node, tied to the step it displays. */
  datatype Node = Node(id: string, name: string, stepId: string)

  datatype Link = Link(source: string, target: string, name: string)

  datatype FlowData = FlowData(nodes: seq<Node>, links: seq<Link>)

  /** A node after Sankey layout; its vertical extent is absent for a node without flow. */
  datatype LaidOutNode = LaidOutNode(node: Node, y0: Option<real>, y1: Option<real>)

  /** A rebuild of one of the two diagrams, by what it was called with. */
  datatype RebuildCall =
    | SankeyRebuild(flow: FlowData, settings: FlowSettings)
    | BoxLineRebuild(flow: FlowData)

  /** The setting a strategy implements: the reference against which GetAlign is checked. */
  function AlignOf(s: AlignStrategy): SankeyAlign
  {
    match s
    case SankeyJustify => Justify
    case SankeyLeft => Left
    case SankeyRight => Right
    case SankeyCenter => Center
  }

  /** The strategy for an alignment setting; total over the four settings. */
  function GetAlign(align: SankeyAlign): (r: AlignStrategy)
    ensures AlignOf(r) == align
  {
    match align
    case Justify => SankeyJustify
    case Left => SankeyLeft
    case Right => SankeyRight
    case Center => SankeyCenter
  }

  /** Different settings give different strategies, and every strategy is reachable. */
  lemma GetAlignBijective(a: SankeyAlign, b: SankeyAlign, s: AlignStrategy)
    ensures GetAlign(a) == GetAlign(b) ==> a == b
    ensures GetAlign(AlignOf(s)) == s
  {
  }

  /** The vertical extent of a laid-out node; a missing coordinate counts as 0. */
  function NodeHeight(d: LaidOutNode): (r: real)
    ensures d.y0.Some? && d.y1.Some? ==> d.y0.value + r == d.y1.value
    ensures d.y0.None? && d.y1.None? ==> r == 0.0
  {
    (match d.y1 case Some(y) => y case None => 0.0) - (match d.y0 case Some(y) => y case None => 0.0)
  }

  /** A node spanning y0 = 0 to y1 = 5 is 5 high; a node with neither coordinate is 0 high. */
  lemma NodeHeightExamples(n: Node)
    ensures NodeHeight(LaidOutNode(n, Some(0.0), Some(5.0))) == 5.0
    ensures NodeHeight(LaidOutNode(n, None, None)) == 0.0
  {
  }

  /** The rebuild that `rebuildChart` performs for the given settings. */
  function Dispatch(flow: FlowData, settings: FlowSettings): (c: RebuildCall)
    ensures c.SankeyRebuild? <==> settings.diagram == Sankey
    ensures c.BoxLineRebuild? <==> settings.diagram == BoxLine
    ensures c.flow == flow
    ensures c.SankeyRebuild? ==> c.settings == settings
  {
    match settings.diagram
    case Sankey => SankeyRebuild(flow, settings)
    case BoxLine => BoxLineRebuild(flow)
  }

  /** The step ids of the given nodes, in order. */
  function StepIds(nodes: seq<Node>): (ids: seq<string>)
    ensures |ids| == |nodes|
    ensures forall i :: 0 <= i < |nodes| ==> ids[i] == nodes[i].stepId
  {
    if nodes == [] then [] else [nodes[0].stepId] + StepIds(nodes[1..])
  }

  /** Appending a node appends its step id. */
  lemma {:induction false} StepIdsSnoc(nodes: seq<Node>, n: Node)
    ensures StepIds(nodes + [n]) == StepIds(nodes) + [n.stepId]
  {
    if nodes != [] {
      assert (nodes + [n])[1..] == nodes[1..] + [n];
      StepIdsSnoc(nodes[1..], n);
    }
  }

  /** A click on a diagram node; `defaultPrevented` is set when a gesture already consumed it. */
  datatype ClickEvent = ClickEvent(defaultPrevented: bool)

  class FlowComponent {
    /** The selected step id (a writable signal). */
    var selectedId: Option<string>
    /** Every value written with `selectedId.set`, oldest first. */
    var selectionWrites: seq<string>
    /** Every diagram rebuild performed, oldest first. */
    var rebuilds: seq<RebuildCall>

    /** The signal holds the last value written to it. */
    ghost predicate Valid()
      reads this
    {
      selectionWrites != [] ==> selectedId == Some(selectionWrites[|selectionWrites| - 1])
    }

    constructor ()
      ensures Valid()
      ensures selectedId == None && selectionWrites == [] && rebuilds == []
    {
      selectedId := None;
      selectionWrites := [];
      rebuilds := [];
    }

    /** `selectedId.set(id)`. */
    method SetSelectedId(id: string)
      requires Valid()
      modifies this`selectedId, this`selectionWrites
      ensures Valid()
      ensures selectedId == Some(id)
      ensures selectionWrites == old(selectionWrites) + [id]
    {
      selectedId := Some(id);
      selectionWrites := selectionWrites + [id];
    }

    /** Draw the Sankey diagram of `flow` under `settings`. */
    method RebuildSankey(flow: FlowData, settings: FlowSettings)
      requires Valid()
      modifies this`rebuilds
      ensures Valid()
      ensures rebuilds == old(rebuilds) + [SankeyRebuild(flow, settings)]
    {
      rebuilds := rebuilds + [SankeyRebuild(flow, settings)];
    }

    /** Draw the box-line diagram of `flow`. */
    method RebuildBoxLine(flow: FlowData)
      requires Valid()
      modifies this`rebuilds
      ensures Valid()
      ensures rebuilds == old(rebuilds) + [BoxLineRebuild(flow)]
    {
      rebuilds := rebuilds + [BoxLineRebuild(flow)];
    }

    /** Rebuild whichever diagram the settings ask for; exactly one rebuild happens. */
    method RebuildChart(flow: FlowData, settings: FlowSettings)
      requires Valid()
      modifies this`rebuilds
      ensures Valid()
      ensures rebuilds == old(rebuilds) + [Dispatch(flow, settings)]
    {
      match settings.diagram {
        case Sankey => RebuildSankey(flow, settings);
        case BoxLine => RebuildBoxLine(flow);
      }
    }

    /** A click on the rectangle of a Sankey node selects its step, unless its default was prevented. */
    method OnSankeyNodeClick(event: ClickEvent, d: LaidOutNode)
      requires Valid()
      modifies this`selectedId, this`selectionWrites
      ensures Valid()
      ensures event.defaultPrevented ==> selectedId == old(selectedId) && selectionWrites == old(selectionWrites)
      ensures !event.defaultPrevented ==> selectedId == Some(d.node.stepId)
      ensures !event.defaultPrevented ==> selectionWrites == old(selectionWrites) + [d.node.stepId]
    {
      if event.defaultPrevented {
        return;
      }
      SetSelectedId(d.node.stepId);
    }

    /** A click on a box-line node selects its step. */
    method OnBoxLineNodeClick(n: Node)
      requires Valid()
      modifies this`selectedId, this`selectionWrites
      ensures Valid()
      ensures selectedId == Some(n.stepId)
      ensures selectionWrites == old(selectionWrites) + [n.stepId]
    {
      SetSelectedId(n.stepId);
    }

    /** `cy.nodes().emit('click')`: each box-line node receives a click, in order. */
    method EmitClickOnNodes(nodes: seq<Node>)
      requires Valid()
      modifies this`selectedId, this`selectionWrites
      ensures Valid()
      ensures selectionWrites == old(selectionWrites) + StepIds(nodes)
      ensures nodes == [] ==> selectedId == old(selectedId)
      ensures nodes != [] ==> selectedId == Some(nodes[|nodes| - 1].stepId)
    {
      for i := 0 to |nodes|
        invariant Valid()
        invariant selectionWrites == old(selectionWrites) + StepIds(nodes[..i])
        invariant i == 0 ==> selectedId == old(selectedId)
        invariant i > 0 ==> selectedId == Some(nodes[i - 1].stepId)
      {
        assert nodes[..i + 1] == nodes[..i] + [nodes[i]];
        StepIdsSnoc(nodes[..i], nodes[i]);
        OnBoxLineNodeClick(nodes[i]);
      }
      assert nodes[..|nodes|] == nodes;
    }
  }

  /**
   * The rebuildChart tests: on a fresh component, Sankey settings call the Sankey
   * rebuild with the same flow and settings and nothing else; box-line settings
   * call the box-line rebuild with the flow only.
   */
  method RebuildChartScenario(flow: FlowData, settings: FlowSettings) returns (calls: seq<RebuildCall>)
    ensures settings.diagram == Sankey ==> calls == [SankeyRebuild(flow, settings)]
    ensures settings.diagram == BoxLine ==> calls == [BoxLineRebuild(flow)]
  {
    var c := new FlowComponent();
    c.RebuildChart(flow, settings);
    calls := c.rebuilds;
  }

  /**
   * The Sankey click tests: clicking the first node's rectangle selects its step;
   * when the click's default is prevented, `set` is never called.
   */
  method SankeyClickScenario(flow: FlowData, settings: FlowSettings, prevented: bool) returns (selected: Option<string>, writes: seq<string>)
    requires |flow.nodes| > 0
    ensures !prevented ==> selected == Some(flow.nodes[0].stepId) && writes == [flow.nodes[0].stepId]
    ensures prevented ==> selected == None && writes == []
  {
    var c := new FlowComponent();
    c.RebuildSankey(flow, settings);
    c.OnSankeyNodeClick(ClickEvent(prevented), LaidOutNode(flow.nodes[0], None, None));
    selected, writes := c.selectedId, c.selectionWrites;
  }

  /** The box-line click test: emitting a click on every node calls `set`, once per node, in order. */
  method BoxLineClickScenario(flow: FlowData) returns (writes: seq<string>)
    ensures writes == StepIds(flow.nodes)
    ensures |flow.nodes| > 0 ==> writes != []
  {
    var c := new FlowComponent();
    c.RebuildBoxLine(flow);
    c.EmitClickOnNodes(flow.nodes);
    writes := c.selectionWrites;
  }
}
