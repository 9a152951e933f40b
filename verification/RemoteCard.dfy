/**
 The card as the messaging service holds it: a list of panels above one answer element, changed by
 the gateway's streaming calls. A panel's text lives in a nested element of its own.
 */
module RemoteCard {
  import opened Wrappers

  datatype ElementID = Answer | Content(panel: nat)

  datatype Element = PanelElement(panel: nat, header: string, text: string) | AnswerElement(text: string)

  /** One attempt at a gateway call. All but the final replacement of the card carry a sequence number. */
  datatype Call =
    | Insert(sequence: nat, element: Element)
    | Update(sequence: nat, id: ElementID, content: string)
    | Finalize(sequence: nat)
    | Patch(elements: seq<Element>)

  /** The elements, what the message shows once it was replaced, and every attempt made. */
  datatype Card = Card(elements: seq<Element>, shown: Option<seq<Element>>, log: seq<Call>)

  /** How the attempts at one call went, and the clock when the last of them returned. */
  datatype Outcome = Outcome(failures: nat, ok: bool, at: int)

  const WAITING := "_Waiting..._"

  const INITIAL_CARD := Card([AnswerElement(WAITING)], None, [])

  function IDOf(e: Element): ElementID {
    match e
    case PanelElement(p, _, _) => Content(p)
    case AnswerElement(_) => Answer
  }

  function WithText(e: Element, content: string): Element {
    e.(text := content)
  }

  /** `e` goes before the first answer element; without one nothing happens. */
  function InsertBefore(elements: seq<Element>, e: Element): seq<Element> {
    if elements == [] then []
    else if elements[0].AnswerElement? then [e] + elements
    else [elements[0]] + InsertBefore(elements[1..], e)
  }

  /** The first element with the id gets the text; without one nothing happens. */
  function UpdateContent(elements: seq<Element>, id: ElementID, content: string): seq<Element> {
    if elements == [] then []
    else if IDOf(elements[0]) == id then [WithText(elements[0], content)] + elements[1..]
    else [elements[0]] + UpdateContent(elements[1..], id, content)
  }

  /** A call the service accepts. */
  function Performed(c: Card, call: Call): Card {
    match call
    case Insert(_, e) => c.(elements := InsertBefore(c.elements, e))
    case Update(_, id, content) => c.(elements := UpdateContent(c.elements, id, content))
    case Finalize(_) => c
    case Patch(elements) => c.(shown := Some(elements))
  }

  function Repeated(call: Call, n: nat): (calls: seq<Call>)
    ensures |calls| == n && forall i | 0 <= i < n :: calls[i] == call
  {
    if n == 0 then [] else Repeated(call, n - 1) + [call]
  }

  /** A call with its retries: failed attempts leave the card as it was. */
  function Delivered(c: Card, call: Call, out: Outcome): Card {
    var tried := c.(log := c.log + Repeated(call, out.failures));
    if out.ok then Performed(tried.(log := tried.log + [call]), call) else tried
  }

  // ---- Laws of the two list operations ----

  ghost predicate Panels(panels: seq<Element>) {
    forall i | 0 <= i < |panels| :: panels[i].PanelElement?
  }

  lemma {:induction false} InsertAt(elements: seq<Element>, e: Element, k: nat)
    requires k <= |elements| && forall i | 0 <= i < k :: elements[i].PanelElement?
    requires k < |elements| ==> elements[k].AnswerElement?
    ensures InsertBefore(elements, e) == if k < |elements| then elements[..k] + [e] + elements[k..] else elements
  {
    if k > 0 {
      var tail := elements[1..];
      InsertAt(tail, e, k - 1);
      assert k < |elements| ==> [elements[0]] + tail[..k - 1] == elements[..k] && tail[k - 1..] == elements[k..];
    }
  }

  lemma InsertAboveAnswer(panels: seq<Element>, answer: Element, e: Element)
    requires Panels(panels) && answer.AnswerElement?
    ensures InsertBefore(panels + [answer], e) == panels + [e, answer]
  {
    InsertAt(panels + [answer], e, |panels|);
  }

  /** An update touches the first element with the id and no other. */
  lemma {:induction false} UpdateFirst(elements: seq<Element>, id: ElementID, content: string, k: nat)
    requires k < |elements| && IDOf(elements[k]) == id && forall i | 0 <= i < k :: IDOf(elements[i]) != id
    ensures UpdateContent(elements, id, content) == elements[k := WithText(elements[k], content)]
  {
    if k > 0 {
      UpdateFirst(elements[1..], id, content, k - 1);
    }
  }

  lemma {:induction false} UpdateMissing(elements: seq<Element>, id: ElementID, content: string)
    requires forall i | 0 <= i < |elements| :: IDOf(elements[i]) != id
    ensures UpdateContent(elements, id, content) == elements
  {
    if elements != [] {
      UpdateMissing(elements[1..], id, content);
    }
  }

  // ---- The gateway ----

  class Gateway {
    var elements: seq<Element>
    var shown: Option<seq<Element>>
    var log: seq<Call>

    function View(): Card
      reads this
    {
      Card(elements, shown, log)
    }

    constructor ()
      ensures View() == INITIAL_CARD == Card([AnswerElement("_Waiting..._")], None, [])
    {
      elements, shown, log := INITIAL_CARD.elements, None, [];
    }

    method InsertStreamingElementsBefore(e: Element)
      modifies `elements
      ensures elements == InsertBefore(old(elements), e)
    {
      var at := 0;
      while at < |elements| && !elements[at].AnswerElement?
        invariant at <= |elements| && forall i | 0 <= i < at :: elements[i].PanelElement?
      {
        at := at + 1;
      }
      InsertAt(elements, e, at);
      if at < |elements| {
        elements := elements[..at] + [e] + elements[at..];
      }
    }

    method UpdateStreamingElement(id: ElementID, content: string)
      modifies `elements
      ensures elements == UpdateContent(old(elements), id, content)
    {
      var at := 0;
      while at < |elements| && IDOf(elements[at]) != id
        invariant at <= |elements| && forall i | 0 <= i < at :: IDOf(elements[i]) != id
      {
        at := at + 1;
      }
      if at == |elements| {
        UpdateMissing(elements, id, content);
      } else {
        UpdateFirst(elements, id, content, at);
        elements := elements[at := WithText(elements[at], content)];
      }
    }

    /** One gateway call, retried by the caller until it succeeds or is given up. */
    method Deliver(call: Call, out: Outcome)
      modifies this
      ensures View() == Delivered(old(View()), call, out)
    {
      for tried := 0 to out.failures
        invariant log == old(log) + Repeated(call, tried) && elements == old(elements) && shown == old(shown)
      {
        log := log + [call];
      }
      if out.ok {
        log := log + [call];
        match call
        case Insert(_, e) => InsertStreamingElementsBefore(e);
        case Update(_, id, content) => UpdateStreamingElement(id, content);
        case Finalize(_) =>
        case Patch(es) => shown := Some(es);
      }
    }
  }
}
