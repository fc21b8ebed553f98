/**
 * components/n8n/WorkflowViewer.tsx: tabs over the workflows, the canvas of the selected
 * one, and a details panel for the node clicked last.
 */
module WorkflowViewer {
  import opened Common
  import opened Strings
  import WorkflowCanvas
  import WorkflowNode

  const GenericDescription := "Processes data in the workflow"
  const DefaultTitle := "Node Details"

  /** The descriptions of `WorkflowNode.StyledKeys`, in the same order. */
  const Descriptions: seq<string> := [
    "Receives HTTP requests to trigger the workflow",
    "Executes custom JavaScript code for data processing",
    "AI Agent that processes requests using LLM",
    "Sends response back to the webhook caller",
    "Groq LLM for fast inference with Llama models",
    "Stores conversation history in PostgreSQL",
    "Vector database for semantic search and RAG",
    "Creates embeddings using Google Gemini"
  ]

  /** The description table; it has the same eight keys as the node style table. */
  function DescriptionFor(key: string): (r: Option<string>)
    ensures r.Some? <==> key in WorkflowNode.StyledKeys
    ensures r.Some? ==> r.value != GenericDescription
    ensures forall i :: 0 <= i < |WorkflowNode.StyledKeys| && key == WorkflowNode.StyledKeys[i] ==>
      r == Some(Descriptions[i])
  {
    assert GenericDescription !in Descriptions;
    WorkflowNode.StyledKeysAreDistinct();
    assert forall i :: 0 <= i < |WorkflowNode.StyledKeys| && key == WorkflowNode.StyledKeys[i] ==>
      key !in WorkflowNode.StyledKeys[..i];
    Lookup(WorkflowNode.StyledKeys, Descriptions, key)
  }

  /** The viewer's type key: the text after the last dot (possibly empty), or the whole type. */
  function ViewerTypeKey(nodeType: string): (k: string)
    ensures '.' !in k
    ensures '.' !in nodeType ==> k == nodeType
  {
    if '.' in nodeType then LastSegment(nodeType) else nodeType
  }

  /** `getNodeDescription`: nothing for a missing node, else the table's text or the generic one. */
  function NodeDescription(node: Option<WorkflowCanvas.Node>): (r: Option<string>)
    ensures node.None? <==> r.None?
    ensures node.Some? && ViewerTypeKey(node.value.nodeType) !in WorkflowNode.StyledKeys ==>
      r == Some(GenericDescription)
    ensures forall i ::
      (0 <= i < |WorkflowNode.StyledKeys| && node.Some? &&
       ViewerTypeKey(node.value.nodeType) == WorkflowNode.StyledKeys[i]) ==> r == Some(Descriptions[i])
  {
    match node
    case None => None
    case Some(n) =>
      match DescriptionFor(ViewerTypeKey(n.nodeType))
      case Some(d) => Some(d)
      case None => Some(GenericDescription)
  }

  /**
   * The two components agree: a node has a specific description exactly when its card has a
   * specific style, whatever its type.
   */
  lemma DescribedIffStyled(n: WorkflowCanvas.Node)
    ensures NodeDescription(Some(n)) != Some(GenericDescription) <==>
            WorkflowNode.NodeStyle(n.nodeType) != WorkflowNode.DefaultStyle
  {
    var k := ViewerTypeKey(n.nodeType);
    var t := WorkflowNode.TypeKey(n.nodeType);
    assert NodeDescription(Some(n)) != Some(GenericDescription) <==> k in WorkflowNode.StyledKeys;
    WorkflowNode.StyledIffKnownKey(n.nodeType);
    if '.' in n.nodeType && LastSegment(n.nodeType) == "" {
      assert k == "" && t == "default";
      WorkflowNode.FallbackKeysAreNotStyled();
    } else {
      assert k == t;
    }
  }

  /** `nodes.find(n => n.id === selected)`: the details panel looks nodes up by id only. */
  function FindById(nodes: seq<WorkflowCanvas.Node>, id: string): (r: Option<WorkflowCanvas.Node>)
    ensures r.None? <==> forall i :: 0 <= i < |nodes| ==> nodes[i].id != id
    ensures r.Some? ==> r.value in nodes && r.value.id == id
  {
    if nodes == [] then None
    else if nodes[0].id == id then Some(nodes[0])
    else
      assert forall i :: 1 <= i < |nodes| ==> nodes[i] == nodes[1..][i - 1];
      FindById(nodes[1..], id)
  }

  /** Like `find`, the lookup returns the first node with the id when several share it. */
  lemma {:induction false} FindByIdIsFirst(nodes: seq<WorkflowCanvas.Node>, id: string, i: nat)
    requires i < |nodes| && nodes[i].id == id
    requires forall j :: 0 <= j < i ==> nodes[j].id != id
    ensures FindById(nodes, id) == Some(nodes[i])
  {
    if i > 0 {
      FindByIdIsFirst(nodes[1..], id, i - 1);
    }
  }

  /** The panel's content: title, the type's last segment, the node id, and the description. */
  datatype Panel = Panel(title: string, typeShown: string, nodeId: string, description: Option<string>)

  /** The details panel, shown only while the selected id is a non-empty text. */
  function DetailsPanel(nodes: seq<WorkflowCanvas.Node>, selected: Option<string>): (r: Option<Panel>)
    ensures r.Some? <==> selected.Some? && selected.value != ""
    ensures r.Some? ==> r.value.nodeId == selected.value
    ensures r.Some? && FindById(nodes, selected.value).None? ==>
      r.value == Panel(DefaultTitle, "", selected.value, None)
  {
    if selected.None? || selected.value == "" then None
    else
      var node := FindById(nodes, selected.value);
      var title := if node.Some? && node.value.name != "" then node.value.name else DefaultTitle;
      var typeShown := if node.Some? then LastSegment(node.value.nodeType) else "";
      Some(Panel(title, typeShown, selected.value, NodeDescription(node)))
  }

  /** Node ids are distinct within a workflow. */
  ghost predicate UniqueIds(nodes: seq<WorkflowCanvas.Node>) {
    forall i, j :: 0 <= i < j < |nodes| ==> nodes[i].id != nodes[j].id
  }

  /** Clicking a node with a non-empty id shows that node's own name, type and description. */
  lemma ClickedNodeDetails(nodes: seq<WorkflowCanvas.Node>, k: nat)
    requires k < |nodes| && nodes[k].id != "" && UniqueIds(nodes)
    ensures var p := DetailsPanel(nodes, Some(nodes[k].id));
      && p.Some?
      && p.value.title == (if nodes[k].name != "" then nodes[k].name else DefaultTitle)
      && p.value.typeShown == LastSegment(nodes[k].nodeType)
      && p.value.description == NodeDescription(Some(nodes[k]))
  {
    var r := FindById(nodes, nodes[k].id);
    assert r.Some?;
    var i :| 0 <= i < |nodes| && nodes[i] == r.value;
    assert i == k;
  }

  datatype WorkflowTab = WorkflowTab(id: string, name: string, description: string,
                                     data: WorkflowCanvas.Workflow)

  class WorkflowViewer {
    const workflows: seq<WorkflowTab>
    var selectedWorkflow: nat
    var selectedNode: Option<string>

    /** The selected tab exists: the page renders `workflows[selectedWorkflow]` unguarded. */
    predicate Valid()
      reads this
    {
      selectedWorkflow < |workflows|
    }

    /**
     * The first tab is open and no node is selected. The page reads the first workflow's
     * description on its first render, so an empty list is not a list it can be given.
     */
    constructor(workflows: seq<WorkflowTab>)
      requires |workflows| > 0
      ensures Valid()
      ensures this.workflows == workflows && selectedWorkflow == 0 && selectedNode == None
    {
      this.workflows := workflows;
      selectedWorkflow := 0;
      selectedNode := None;
    }

    /** A tab button: its workflow is shown and the node selection is cleared. */
    method SelectTab(index: nat)
      requires Valid() && index < |workflows|
      modifies this
      ensures Valid()
      ensures selectedWorkflow == index && selectedNode == None
      ensures ShownPanel() == None
    {
      selectedWorkflow := index;
      selectedNode := None;
    }

    /** A click on a node card on the canvas selects that node's id. */
    method NodeClicked(n: WorkflowCanvas.Node)
      requires Valid()
      modifies this
      ensures Valid()
      ensures selectedNode == Some(n.id) && selectedWorkflow == old(selectedWorkflow)
    {
      selectedNode := Some(n.id);
    }

    /** The details panel of the current state. */
    function ShownPanel(): (r: Option<Panel>)
      requires Valid()
      reads this
      ensures r.Some? <==> selectedNode.Some? && selectedNode.value != ""
    {
      DetailsPanel(workflows[selectedWorkflow].data.nodes, selectedNode)
    }
  }
}
