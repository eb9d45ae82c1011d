/**
 * The RetroFuturaGradle MCP model handler: during a Gradle import it attaches
 * MCP settings to a module's data node and to each of its source-set nodes.
 *
 * The import's data-node tree is a class whose nodes own a list of children;
 * the extra project model RetroFuturaGradle reports is an input.
 */
module McpModelRfg {
  import opened Wrappers

  /** The Gradle task that writes the SRG mappings, and the file name that identifies them. */
  const TaskName := "generateForgeSrgMappings"
  const SrgFileSuffix := "mcp-srg.srg"

  datatype SrgType = SRG | TSRG

  /** `McpModuleSettings.State`; `platformVersion` is its optional fifth argument. */
  datatype State = State(
    minecraftVersion: string,
    mcpVersion: string,
    mappingFile: Option<string>,
    srgType: SrgType,
    platformVersion: Option<string>)

  /** A module of the import; a Gradle source set is a kind of module. */
  datatype ModuleData = ModuleData(id: string, isSourceSet: bool)

  /** `McpModelData`: the module it belongs to, its settings, the SRG task and the access transformers. */
  datatype McpModelData = McpModelData(moduleData: ModuleData, settings: State, taskName: string, accessTransformers: seq<string>)

  /** What a data node holds. */
  datatype NodeData = ModuleNode(moduleData: ModuleData) | McpNode(mcp: McpModelData) | OtherNode(kind: string)

  /** The extra project model RetroFuturaGradle reports for a Gradle module. */
  datatype McpModelRfgData = McpModelRfgData(
    minecraftVersion: string,
    mcpVersion: string,
    mappingFiles: seq<string>,
    accessTransformers: seq<string>)

  class DataNode {
    const data: NodeData
    var children: seq<DataNode>

    constructor (data: NodeData)
      ensures this.data == data && children == []
    {
      this.data := data;
      children := [];
    }

    method CreateChild(d: NodeData) returns (c: DataNode)
      modifies this
      ensures fresh(c) && c.data == d && c.children == []
      ensures children == old(children) + [c]
    {
      c := new DataNode(d);
      children := children + [c];
    }
  }

  /** `find`: the first file whose name ends with the suffix, if any. */
  function FindWithSuffix(files: seq<string>, suffix: string): (r: Option<string>)
    ensures r.None? <==> forall i :: 0 <= i < |files| ==> !EndsWith(files[i], suffix)
    ensures r.Some? ==> exists i :: 0 <= i < |files| && files[i] == r.value && EndsWith(r.value, suffix) &&
                                    forall j :: 0 <= j < i ==> !EndsWith(files[j], suffix)
  {
    if files == [] then None
    else if EndsWith(files[0], suffix) then Some(files[0])
    else
      var r := FindWithSuffix(files[1..], suffix);
      assert forall i :: 1 <= i < |files| ==> files[i] == files[1..][i - 1];
      r
  }

  /** The project path `build` derives from a module id: ':' for the root, otherwise the id ending in ':'. */
  function ProjectPath(id: string): (p: string)
    ensures |p| > 0 && p[0] == ':' && p[|p| - 1] == ':'
    ensures !StartsWith(id, ":") ==> p == ":"
    ensures StartsWith(id, ":") ==> |id| <= |p| && p[..|id|] == id
    ensures StartsWith(id, ":") && EndsWith(id, ":") ==> p == id
    ensures StartsWith(id, ":") && !EndsWith(id, ":") ==> p == id + ":"
  {
    if !StartsWith(id, ":") then ":"
    else if !EndsWith(id, ":") then
      var p := id + ":";
      assert p[..|id|] == id;
      p
    else id
  }

  /** The SRG task `build` derives for a module id. */
  function SrgTaskFor(id: string): string
  {
    ProjectPath(id) + TaskName
  }

  /**
   * A task starts with ':' and ends with ':' and the task name. A root module
   * (an id not starting with ':') gets the root project's task; any other
   * module gets the task of its project path, which keeps the id as a prefix
   * and adds ':' only when the id lacks it.
   */
  lemma SrgTaskShape(id: string)
    ensures StartsWith(SrgTaskFor(id), ":") && EndsWith(SrgTaskFor(id), ":" + TaskName)
    ensures !StartsWith(id, ":") ==> SrgTaskFor(id) == ":" + TaskName
    ensures StartsWith(id, ":") ==> StartsWith(SrgTaskFor(id), id)
    ensures StartsWith(id, ":") && EndsWith(id, ":") ==> |SrgTaskFor(id)| == |id| + |TaskName|
    ensures StartsWith(id, ":") && !EndsWith(id, ":") ==> |SrgTaskFor(id)| == |id| + 1 + |TaskName|
  {
    var project := ProjectPath(id);
    var task := project + TaskName;
    assert task[..|project|] == project;
    assert task[..1] == project[..1];
    if StartsWith(id, ":") {
      assert task[..|id|] == project[..|id|];
    }
    EndsWithTaskName(project);
  }

  /** A path ending in ':' followed by the task name ends in ':' and the task name. */
  lemma EndsWithTaskName(project: string)
    requires |project| > 0 && project[|project| - 1] == ':'
    ensures EndsWith(project + TaskName, ":" + TaskName)
  {
    var n := |project| - 1;
    assert (project + TaskName)[n..] == project[n..] + TaskName;
    assert project[n..] == ":";
  }

  /** The task computation of `build`, step by step. */
  method SrgTask(id: string) returns (task: string)
    ensures task == SrgTaskFor(id)
  {
    task := id;
    if !StartsWith(task, ":") {
      task := ":";
    } else if !EndsWith(task, ":") {
      task := task + ":";
    }
    task := task + TaskName;
  }

  /** The settings the handler attaches to source sets, with the Minecraft version as platform version. */
  function ModelState(data: McpModelRfgData): State
  {
    State(data.minecraftVersion, data.mcpVersion, FindWithSuffix(data.mappingFiles, SrgFileSuffix), SRG, Some(data.minecraftVersion))
  }

  /** The settings the handler attaches to the module node itself: the same, without a platform version. */
  function NodeState(data: McpModelRfgData): State
  {
    ModelState(data).(platformVersion := None)
  }

  /** A node that gained exactly one fresh child holding `d`, after its old children. */
  twostate predicate GainedChild(c: DataNode, d: NodeData)
    reads c
  {
    |c.children| == |old(c.children)| + 1 &&
    c.children[..|old(c.children)|] == old(c.children) &&
    fresh(c.children[|old(c.children)|]) &&
    c.children[|old(c.children)|].data == d
  }

  predicate IsSourceSetNode(c: DataNode)
  {
    c.data.ModuleNode? && c.data.moduleData.isSourceSet
  }

  /**
   * `McpModelRFGHandler.build`. Without an RFG project model nothing changes.
   * Otherwise the module node gains one child with the module's settings
   * (no platform version), and every source-set child gains one child with the
   * same task and access transformers, the full settings and that source set
   * as module; other children are left alone.
   */
  method Build(node: DataNode, extra: Option<McpModelRfgData>)
    requires node.data.ModuleNode?
    requires forall i :: 0 <= i < |node.children| ==> node.children[i] != node
    requires forall i, j :: 0 <= i < j < |node.children| ==> node.children[i] != node.children[j]
    modifies node, set c | c in node.children
    ensures extra.None? ==> node.children == old(node.children)
    ensures extra.None? ==> forall c :: c in old(node.children) ==> c.children == old(c.children)
    ensures extra.Some? ==>
      var nodeData := McpModelData(node.data.moduleData, NodeState(extra.value), SrgTaskFor(node.data.moduleData.id), extra.value.accessTransformers);
      GainedChild(node, McpNode(nodeData)) &&
      node.children[|old(node.children)|].children == []
    ensures extra.Some? ==>
      var modelData := McpModelData(node.data.moduleData, ModelState(extra.value), SrgTaskFor(node.data.moduleData.id), extra.value.accessTransformers);
      forall c :: c in old(node.children) ==>
        if IsSourceSetNode(c) then GainedChild(c, McpNode(modelData.(moduleData := c.data.moduleData)))
        else c.children == old(c.children)
  {
    if extra.None? {
      return;
    }
    var data := extra.value;
    var state := State(data.minecraftVersion, data.mcpVersion, FindWithSuffix(data.mappingFiles, SrgFileSuffix), SRG, Some(data.minecraftVersion));

    var task := SrgTask(node.data.moduleData.id);

    var modelData := McpModelData(node.data.moduleData, state, task, data.accessTransformers);
    var own := node.CreateChild(McpNode(McpModelData(
      node.data.moduleData,
      State(data.minecraftVersion, data.mcpVersion, FindWithSuffix(data.mappingFiles, SrgFileSuffix), SRG, None),
      task,
      data.accessTransformers)));

    ghost var before := old(node.children);
    var children := node.children;
    assert children == before + [own];
    var i := 0;
    while i < |children|
      invariant 0 <= i <= |children|
      invariant node.children == children
      invariant own.children == []
      invariant forall j :: 0 <= j < |before| && i <= j ==> before[j].children == old(before[j].children)
      invariant forall j :: 0 <= j < |before| && j < i ==>
        if IsSourceSetNode(before[j]) then GainedChild(before[j], McpNode(modelData.(moduleData := before[j].data.moduleData)))
        else before[j].children == old(before[j].children)
    {
      var child := children[i];
      var childData := child.data;
      if childData.ModuleNode? && childData.moduleData.isSourceSet {
        assert i < |before|;
        var grandchild := child.CreateChild(McpNode(modelData.(moduleData := childData.moduleData)));
      }
      i := i + 1;
    }
  }

  /** A root module id gets the root project's task. */
  lemma RootModuleTask()
    ensures SrgTaskFor("root") == ":" + TaskName
  {
    assert "root"[0] != ':';
  }

  /** A sub-project path gets ':' and the task name. */
  lemma SubProjectTask()
    ensures SrgTaskFor(":forge") == ":forge:" + TaskName
  {
    var id := ":forge";
    assert StartsWith(id, ":") by { assert id[..1] == ":"; }
    assert !EndsWith(id, ":") by { assert id[5..][0] == 'e'; }
    assert ProjectPath(id) == ":forge:";
  }

  /** A path already ending in ':' gets only the task name. */
  lemma SubProjectTrailingColonTask()
    ensures SrgTaskFor(":forge:") == ":forge:" + TaskName
  {
    var id := ":forge:";
    assert StartsWith(id, ":") by { assert id[..1] == ":"; }
    assert EndsWith(id, ":") by { assert id[6..] == ":"; }
    assert ProjectPath(id) == ":forge:";
  }

  /** The SRG file is the first mapping file named like one. */
  lemma SrgFileExample()
    ensures FindWithSuffix(["a.tsrg", "x/mcp-srg.srg", "y/mcp-srg.srg"], SrgFileSuffix) == Some("x/mcp-srg.srg")
  {
    var files := ["a.tsrg", "x/mcp-srg.srg", "y/mcp-srg.srg"];
    assert !EndsWith(files[0], SrgFileSuffix);
    assert files[1][|files[1]| - |SrgFileSuffix|..] == SrgFileSuffix;
    assert FindWithSuffix(files[1..], SrgFileSuffix) == Some(files[1]);
  }
}
