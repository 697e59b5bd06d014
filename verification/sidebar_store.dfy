/** The sidebar: open/closed, and which of the three slide-in panels
    (catalog, print, draw) is shown. */
module SidebarStore {
  datatype Sidebar = Sidebar(isOpen: bool, showCatalog: bool, showPrint: bool, showDraw: bool)

  const Initial := Sidebar(false, false, false, false)

  /** At most one panel is shown. */
  predicate OnePanel(s: Sidebar) {
    && !(s.showCatalog && s.showPrint)
    && !(s.showCatalog && s.showDraw)
    && !(s.showPrint && s.showDraw)
  }

  /** `initialize(defaultOpen)`; the caller's default is `true`. */
  function Initialize(s: Sidebar, defaultOpen: bool): (r: Sidebar)
    ensures r.isOpen == defaultOpen
    ensures r.showCatalog == s.showCatalog && r.showPrint == s.showPrint && r.showDraw == s.showDraw
  {
    s.(isOpen := defaultOpen)
  }

  function Toggle(s: Sidebar): (r: Sidebar)
    ensures r.isOpen != s.isOpen
    ensures r.showCatalog == s.showCatalog && r.showPrint == s.showPrint && r.showDraw == s.showDraw
  {
    s.(isOpen := !s.isOpen)
  }

  function Open(s: Sidebar): (r: Sidebar)
    ensures r.isOpen && r == s.(isOpen := true)
  {
    s.(isOpen := true)
  }

  function Close(s: Sidebar): (r: Sidebar)
    ensures !r.isOpen && r == s.(isOpen := false)
  {
    s.(isOpen := false)
  }

  /** `showCatalog`: the catalog panel replaces any other panel. */
  function ShowCatalog(s: Sidebar): (r: Sidebar)
    ensures r.showCatalog && !r.showPrint && !r.showDraw && r.isOpen == s.isOpen
  {
    s.(showCatalog := true, showPrint := false, showDraw := false)
  }

  function HideCatalog(s: Sidebar): (r: Sidebar)
    ensures !r.showCatalog
    ensures r.isOpen == s.isOpen && r.showPrint == s.showPrint && r.showDraw == s.showDraw
  {
    s.(showCatalog := false)
  }

  function ShowPrint(s: Sidebar): (r: Sidebar)
    ensures r.showPrint && !r.showCatalog && !r.showDraw && r.isOpen == s.isOpen
  {
    s.(showPrint := true, showCatalog := false, showDraw := false)
  }

  function HidePrint(s: Sidebar): (r: Sidebar)
    ensures !r.showPrint
    ensures r.isOpen == s.isOpen && r.showCatalog == s.showCatalog && r.showDraw == s.showDraw
  {
    s.(showPrint := false)
  }

  function ShowDraw(s: Sidebar): (r: Sidebar)
    ensures r.showDraw && !r.showCatalog && !r.showPrint && r.isOpen == s.isOpen
  {
    s.(showDraw := true, showCatalog := false, showPrint := false)
  }

  function HideDraw(s: Sidebar): (r: Sidebar)
    ensures !r.showDraw
    ensures r.isOpen == s.isOpen && r.showCatalog == s.showCatalog && r.showPrint == s.showPrint
  {
    s.(showDraw := false)
  }

  datatype SidebarOp =
    | InitializeOp(defaultOpen: bool) | ToggleOp | OpenOp | CloseOp
    | ShowCatalogOp | HideCatalogOp | ShowPrintOp | HidePrintOp | ShowDrawOp | HideDrawOp

  function Apply(s: Sidebar, op: SidebarOp): Sidebar {
    match op
    case InitializeOp(d) => Initialize(s, d)
    case ToggleOp => Toggle(s)
    case OpenOp => Open(s)
    case CloseOp => Close(s)
    case ShowCatalogOp => ShowCatalog(s)
    case HideCatalogOp => HideCatalog(s)
    case ShowPrintOp => ShowPrint(s)
    case HidePrintOp => HidePrint(s)
    case ShowDrawOp => ShowDraw(s)
    case HideDrawOp => HideDraw(s)
  }

  function Run(s: Sidebar, ops: seq<SidebarOp>): Sidebar
    decreases |ops|
  {
    if |ops| == 0 then s else Run(Apply(s, ops[0]), ops[1..])
  }

  lemma ApplyKeepsOnePanel(s: Sidebar, op: SidebarOp)
    requires OnePanel(s)
    ensures OnePanel(Apply(s, op))
  {
  }

  /** From the initial state, no sequence of calls shows two panels at once. */
  lemma {:induction false} RunKeepsOnePanel(s: Sidebar, ops: seq<SidebarOp>)
    requires OnePanel(s)
    ensures OnePanel(Run(s, ops))
    decreases |ops|
  {
    if |ops| > 0 {
      ApplyKeepsOnePanel(s, ops[0]);
      RunKeepsOnePanel(Apply(s, ops[0]), ops[1..]);
    }
  }

  lemma InitialOnePanel(ops: seq<SidebarOp>)
    ensures OnePanel(Run(Initial, ops))
  {
    RunKeepsOnePanel(Initial, ops);
  }

  /** The open flag and the panels are independent: panel calls never open or
      close the sidebar, and open/close calls never change the panels. */
  lemma PanelOpsKeepOpenFlag(s: Sidebar, op: SidebarOp)
    ensures op !in {ToggleOp, OpenOp, CloseOp} && !op.InitializeOp? ==> Apply(s, op).isOpen == s.isOpen
    ensures op in {ToggleOp, OpenOp, CloseOp} || op.InitializeOp? ==>
      Apply(s, op) == s.(isOpen := Apply(s, op).isOpen)
  {
  }
}
