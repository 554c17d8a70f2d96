/** The tools page: which tool a `/tools/:toolId` route shows, where a
    missing or unknown id is redirected, and which sidebar entry is lit. */
module ToolsPage {
  import opened Wrappers

  /** The `AiToolId` enum values. */
  const TextGeneratorId := "text-generator"
  const ImageGeneratorId := "image-generator"
  const ChatbotId := "chatbot"
  const SearchGroundingId := "search-grounding"
  const CreatorsEdgeStudioId := "creators-edge-studio"

  /** The ids of `AI_TOOLS_DATA`, in order. */
  const AiToolsData := [CreatorsEdgeStudioId, TextGeneratorId, ImageGeneratorId, ChatbotId, SearchGroundingId]

  /** The studio when it is listed, else the first listed tool, else the
      text generator. */
  function DefaultToolId(tools: seq<string>): (d: string)
    ensures CreatorsEdgeStudioId in tools ==> d == CreatorsEdgeStudioId
    ensures CreatorsEdgeStudioId !in tools && tools != [] ==> d == tools[0]
    ensures tools == [] ==> d == TextGeneratorId
    ensures tools != [] ==> d in tools
  {
    if CreatorsEdgeStudioId in tools then CreatorsEdgeStudioId
    else if tools != [] then tools[0]
    else TextGeneratorId
  }

  /** The route's id when it names a listed tool, else the default. */
  function ActiveToolId(tools: seq<string>, toolId: Option<string>): (a: string)
    ensures toolId.Some? && toolId.value != "" && toolId.value in tools ==> a == toolId.value
    ensures !(toolId.Some? && toolId.value != "" && toolId.value in tools) ==> a == DefaultToolId(tools)
  {
    if toolId.Some? && toolId.value != "" && toolId.value in tools then toolId.value else DefaultToolId(tools)
  }

  /** The effect's `navigate(..., { replace: true })`, if it fires. */
  function Redirect(tools: seq<string>, toolId: Option<string>): (r: Option<string>)
    ensures r.Some? ==> r.value == "/tools/" + DefaultToolId(tools)
  {
    if toolId.Some? && toolId.value != "" && toolId.value !in tools then Some("/tools/" + DefaultToolId(tools))
    else if toolId.None? || toolId.value == "" then Some("/tools/" + DefaultToolId(tools))
    else None
  }

  /** What the main panel renders. */
  datatype ToolView =
    | CreatorsEdgeStudioView | TextGeneratorView | ImageGeneratorView | ChatbotView | SearchGroundingView
    | ToolNotFound | SelectYourWeapon

  /** `renderToolComponent`'s switch. */
  function ToolComponent(id: string): ToolView {
    if id == CreatorsEdgeStudioId then CreatorsEdgeStudioView
    else if id == TextGeneratorId then TextGeneratorView
    else if id == ImageGeneratorId then ImageGeneratorView
    else if id == ChatbotId then ChatbotView
    else if id == SearchGroundingId then SearchGroundingView
    else ToolNotFound
  }

  /** The main panel: the tool when `selectedTool` is found, else the
      "Select Your Weapon" prompt. */
  function MainPanel(tools: seq<string>, toolId: Option<string>): ToolView {
    var active := ActiveToolId(tools, toolId);
    if active in tools then ToolComponent(active) else SelectYourWeapon
  }

  /** The sidebar entry for `id` is highlighted. */
  predicate SidebarActive(tools: seq<string>, toolId: Option<string>, id: string) {
    id == ActiveToolId(tools, toolId)
  }

  /** The page redirects exactly when the route names no listed tool, and
      then it falls back to the default tool. */
  lemma RedirectIffUnlisted(tools: seq<string>, toolId: Option<string>)
    ensures Redirect(tools, toolId).Some? <==> !(toolId.Some? && toolId.value != "" && toolId.value in tools)
    ensures Redirect(tools, toolId).Some? ==> ActiveToolId(tools, toolId) == DefaultToolId(tools)
  {
  }

  /** With a non-empty tool list the active id is always a listed one, so
      the prompt to select a tool never shows. */
  lemma ActiveIsListed(tools: seq<string>, toolId: Option<string>)
    requires tools != []
    ensures ActiveToolId(tools, toolId) in tools
    ensures MainPanel(tools, toolId) != SelectYourWeapon
  {
  }

  /** The five tool ids reach their own components, and only they do. */
  lemma DispatchByKnownIds(id: string)
    ensures ToolComponent(id) == ToolNotFound <==> id !in AiToolsData
    ensures ToolComponent(id) != SelectYourWeapon
  {
  }

  /** On the shipped tool list: an unknown or missing id shows the studio,
      and no route shows "Tool Not Found" or the selection prompt. */
  lemma ShippedToolsAlwaysRender(toolId: Option<string>)
    ensures !(toolId.Some? && toolId.value in AiToolsData) ==> MainPanel(AiToolsData, toolId) == CreatorsEdgeStudioView
    ensures MainPanel(AiToolsData, toolId) != ToolNotFound
    ensures MainPanel(AiToolsData, toolId) != SelectYourWeapon
  {
    ActiveIsListed(AiToolsData, toolId);
    DispatchByKnownIds(ActiveToolId(AiToolsData, toolId));
  }

  /** Exactly one sidebar entry is highlighted when the list is non-empty
      and has no repeated id. */
  lemma OneSidebarEntryActive(tools: seq<string>, toolId: Option<string>)
    requires tools != []
    requires forall i, j :: 0 <= i < j < |tools| ==> tools[i] != tools[j]
    ensures exists i :: 0 <= i < |tools| && SidebarActive(tools, toolId, tools[i])
    ensures forall i, j ::
              (0 <= i < |tools| && 0 <= j < |tools| && SidebarActive(tools, toolId, tools[i])
               && SidebarActive(tools, toolId, tools[j])) ==> i == j
  {
    ActiveIsListed(tools, toolId);
    var a := ActiveToolId(tools, toolId);
    var k :| 0 <= k < |tools| && tools[k] == a;
    assert SidebarActive(tools, toolId, tools[k]);
  }
}
