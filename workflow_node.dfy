/**
 * components/n8n/WorkflowNode.tsx: one node card. Its icon and colours come from the last
 * dot-separated segment of the node type; the label shows that segment upper-cased.
 */
module WorkflowNode {
  import opened Common
  import opened Strings
  import WorkflowCanvas

  datatype Style = Style(icon: string, color: string, bgColor: string)

  const DefaultStyle := Style("📦", "text-gray-600", "bg-gray-50 dark:bg-gray-950/30")

  /** The styled type keys, in the order of the table. */
  const StyledKeys: seq<string> := [
    "webhook", "code", "agent", "respondToWebhook",
    "lmChatGroq", "memoryPostgresChat", "vectorStoreSupabase", "embeddingsGoogleGemini"
  ]

  /** The table's keys are pairwise different (their first letters already are). */
  lemma StyledKeysAreDistinct()
    ensures forall i, j :: 0 <= i < j < |StyledKeys| ==> StyledKeys[i] != StyledKeys[j]
  {
    assert forall i :: 0 <= i < |StyledKeys| ==> |StyledKeys[i]| > 0;
    assert forall i, j :: 0 <= i < j < |StyledKeys| ==> StyledKeys[i][0] != StyledKeys[j][0];
  }

  /** Neither the empty key nor the fallback key "default" is a table key. */
  lemma FallbackKeysAreNotStyled()
    ensures "" !in StyledKeys && "default" !in StyledKeys
  {
    assert forall i :: 0 <= i < |StyledKeys| ==> StyledKeys[i] != [] && StyledKeys[i][0] != 'd';
  }

  /** The styles of `StyledKeys`, in the same order. */
  const Styles: seq<Style> := [
    Style("🌐", "text-green-600", "bg-green-50 dark:bg-green-950/30"),
    Style("⚙️", "text-blue-600", "bg-blue-50 dark:bg-blue-950/30"),
    Style("🤖", "text-purple-600", "bg-purple-50 dark:bg-purple-950/30"),
    Style("↩️", "text-orange-600", "bg-orange-50 dark:bg-orange-950/30"),
    Style("🧠", "text-indigo-600", "bg-indigo-50 dark:bg-indigo-950/30"),
    Style("💾", "text-teal-600", "bg-teal-50 dark:bg-teal-950/30"),
    Style("🔍", "text-cyan-600", "bg-cyan-50 dark:bg-cyan-950/30"),
    Style("✨", "text-pink-600", "bg-pink-50 dark:bg-pink-950/30")
  ]

  /** The style table: a style for each key of `StyledKeys`, and nothing for any other key. */
  function StyleFor(key: string): (r: Option<Style>)
    ensures r.Some? <==> key in StyledKeys
    ensures r.Some? ==> r.value != DefaultStyle
    ensures forall i :: 0 <= i < |StyledKeys| && key == StyledKeys[i] ==> r == Some(Styles[i])
  {
    assert DefaultStyle !in Styles;
    StyledKeysAreDistinct();
    assert forall i :: 0 <= i < |StyledKeys| && key == StyledKeys[i] ==> key !in StyledKeys[..i];
    Lookup(StyledKeys, Styles, key)
  }

  /**
   * The key a type is styled by: the text after the last dot when the type has one (an
   * empty tail becomes "default"), otherwise the whole type.
   */
  function TypeKey(nodeType: string): (k: string)
    ensures '.' !in nodeType ==> k == nodeType
    ensures '.' in nodeType ==> '.' !in k && k != ""
    ensures '.' in nodeType && LastSegment(nodeType) != "" ==> k == LastSegment(nodeType)
  {
    if '.' in nodeType then
      var tail := LastSegment(nodeType);
      if tail != "" then tail else "default"
    else nodeType
  }

  /** `getNodeStyle`: the table's style for the type key, or the grey box. */
  function NodeStyle(nodeType: string): (s: Style)
    ensures StyleFor(TypeKey(nodeType)).Some? ==> s == StyleFor(TypeKey(nodeType)).value
    ensures StyleFor(TypeKey(nodeType)).None? ==> s == DefaultStyle
    ensures forall i :: 0 <= i < |StyledKeys| && TypeKey(nodeType) == StyledKeys[i] ==> s == Styles[i]
  {
    match StyleFor(TypeKey(nodeType))
    case Some(st) => st
    case None => DefaultStyle
  }

  /** A node gets a specific style exactly when its type key is one of the table's keys. */
  lemma StyledIffKnownKey(nodeType: string)
    ensures NodeStyle(nodeType) != DefaultStyle <==> TypeKey(nodeType) in StyledKeys
  {
  }

  /** The package prefix of an n8n type plays no part: only the tail after the last dot does. */
  lemma {:induction false} PrefixIsIgnored(prefix: string, tail: string)
    requires tail != [] && '.' !in tail
    ensures TypeKey(prefix + "." + tail) == tail
    ensures NodeStyle(prefix + "." + tail) == NodeStyle(tail)
  {
    var t := prefix + "." + tail;
    assert t[|prefix|] == '.';
    LastSegmentOfDotted(prefix, tail);
  }

  lemma {:induction false} LastSegmentOfDotted(prefix: string, tail: string)
    requires '.' !in tail
    ensures LastSegment(prefix + "." + tail) == tail
    decreases |tail|
  {
    var t := prefix + "." + tail;
    if tail == [] {
      assert t[|t| - 1] == '.';
    } else {
      assert t[..|t| - 1] == prefix + "." + tail[..|tail| - 1];
      assert tail[..|tail| - 1] + [tail[|tail| - 1]] == tail;
      LastSegmentOfDotted(prefix, tail[..|tail| - 1]);
    }
  }

  /**
   * The header label: the tail after the last dot, or the whole type, upper-cased (an
   * empty tail shows nothing; only the style falls back to "default").
   */
  function Label(nodeType: string): (r: string)
    ensures '.' !in nodeType || LastSegment(nodeType) != "" ==> r == Upper(TypeKey(nodeType))
    ensures '.' in nodeType && LastSegment(nodeType) == "" ==> r == ""
  {
    if '.' in nodeType then Upper(LastSegment(nodeType)) else Upper(nodeType)
  }

  /** The card's detail lines: a model line and a path line, each only when that parameter is a non-empty text. */
  function DetailLines(n: WorkflowCanvas.Node): (r: seq<string>)
    ensures |r| == (if n.model.Some? && n.model.value != "" then 1 else 0)
                 + (if n.path.Some? && n.path.value != "" then 1 else 0)
    ensures n.model.Some? && n.model.value != "" ==> r[0] == "Model: " + n.model.value
    ensures n.path.Some? && n.path.value != "" ==> r[|r| - 1] == "Path: /" + n.path.value
  {
    (if n.model.Some? && n.model.value != "" then ["Model: " + n.model.value] else [])
    + (if n.path.Some? && n.path.value != "" then ["Path: /" + n.path.value] else [])
  }
}
