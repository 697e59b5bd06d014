/** The metadata popup: an open flag and the document (url, title) it shows. */
module MetadataPopupStore {
  datatype Popup = Popup(isOpen: bool, url: string, title: string)

  const Initial := Popup(false, "", "")

  /** `open(url, title)`: replaces the whole state, whatever it was. */
  function Open(s: Popup, url: string, title: string): (r: Popup)
    ensures r.isOpen && r.url == url && r.title == title
  {
    Popup(true, url, title)
  }

  /** `close`: back to the initial state. */
  function Close(s: Popup): (r: Popup)
    ensures !r.isOpen && r.url == "" && r.title == ""
  {
    Initial
  }

  /** A closed popup holds no document. */
  predicate ClosedIsEmpty(s: Popup) {
    !s.isOpen ==> s.url == "" && s.title == ""
  }

  datatype PopupOp = OpenOp(url: string, title: string) | CloseOp

  function Apply(s: Popup, op: PopupOp): Popup {
    match op
    case OpenOp(u, t) => Open(s, u, t)
    case CloseOp => Close(s)
  }

  function Run(s: Popup, ops: seq<PopupOp>): Popup
    decreases |ops|
  {
    if |ops| == 0 then s else Run(Apply(s, ops[0]), ops[1..])
  }

  /** The state after a call depends only on that call: `close` undoes any
      `open`, and closing twice is closing once. */
  lemma CloseForgets(s: Popup, url: string, title: string)
    ensures Close(Open(s, url, title)) == Close(s) == Initial
    ensures Close(Close(s)) == Close(s)
    ensures Open(Close(s), url, title) == Open(s, url, title)
  {
  }

  /** Starting closed and empty, a closed popup never remembers an old document. */
  lemma {:induction false} RunKeepsClosedIsEmpty(s: Popup, ops: seq<PopupOp>)
    requires ClosedIsEmpty(s)
    ensures ClosedIsEmpty(Run(s, ops))
    ensures |ops| > 0 ==> Run(s, ops) == Apply(Initial, ops[|ops| - 1])
    decreases |ops|
  {
    if |ops| > 0 {
      RunKeepsClosedIsEmpty(Apply(s, ops[0]), ops[1..]);
    }
  }
}
