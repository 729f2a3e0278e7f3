/** `frontend/src/components/seo/FAQSection.jsx`: the FAQPage schema and the accordion that
    keeps at most one answer open. */
module Faq {
  import opened Wrappers

  datatype FaqItem = FaqItem(question: string, answer: string)

  /** One `Question` of the FAQPage schema with its `acceptedAnswer` text. */
  datatype Question = Question(name: string, acceptedAnswer: string)

  /** `FAQSchema`'s `mainEntity`: one question per item, in order. */
  function MainEntity(faqs: seq<FaqItem>): (r: seq<Question>)
    ensures |r| == |faqs|
    ensures forall i :: 0 <= i < |faqs| ==> r[i].name == faqs[i].question && r[i].acceptedAnswer == faqs[i].answer
  {
    if faqs == [] then []
    else MainEntity(faqs[..|faqs| - 1]) + [Question(faqs[|faqs| - 1].question, faqs[|faqs| - 1].answer)]
  }

  /** A click on item `index`: closes it when it is the open one, otherwise opens it. */
  function Click(openIndex: Option<nat>, index: nat): (r: Option<nat>)
    ensures r == Some(index) <==> openIndex != Some(index)
    ensures forall j :: j != index ==> r != Some(j)
  {
    if openIndex == Some(index) then None else Some(index)
  }

  /** How one item renders: `aria-expanded`, and the answer only when expanded. */
  datatype ItemView = ItemView(question: string, expanded: bool, answer: Option<string>)

  function Render(faqs: seq<FaqItem>, openIndex: Option<nat>): (r: seq<ItemView>)
    ensures |r| == |faqs|
    ensures forall i :: 0 <= i < |r| ==> r[i].question == faqs[i].question
    ensures forall i :: 0 <= i < |r| ==> (r[i].expanded <==> openIndex == Some(i))
    ensures forall i :: 0 <= i < |r| ==> (r[i].answer.Some? <==> r[i].expanded)
    ensures forall i :: 0 <= i < |r| && r[i].answer.Some? ==> r[i].answer.value == faqs[i].answer
  {
    if faqs == [] then []
    else
      var i := |faqs| - 1;
      Render(faqs[..i], openIndex)
        + [ItemView(faqs[i].question, openIndex == Some(i), if openIndex == Some(i) then Some(faqs[i].answer) else None)]
  }

  /** At most one item is ever expanded. */
  lemma AtMostOneExpanded(faqs: seq<FaqItem>, openIndex: Option<nat>, i: nat, j: nat)
    requires i < |faqs| && j < |faqs|
    requires Render(faqs, openIndex)[i].expanded && Render(faqs, openIndex)[j].expanded
    ensures i == j
  {
  }

  /** The section's `openIndex` state. */
  class Accordion {
    var openIndex: Option<nat>

    /** `useState(null)`: nothing is open. */
    constructor ()
      ensures openIndex.None?
    {
      openIndex := None;
    }

    /** The button's `onClick` for item `index`. */
    method Toggle(index: nat)
      modifies this
      ensures openIndex == Click(old(openIndex), index)
    {
      openIndex := if openIndex == Some(index) then None else Some(index);
    }
  }
}
