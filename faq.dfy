/** The questions page (src/pages/FAQ.tsx): an accordion in which at most one answer is
    open. */
module Faq {
  import opened Wrappers

  /** `openIndex === index ? null : index`: the open answer closes, any other one opens in
      its place. */
  function Toggled(openIndex: Option<int>, index: int): Option<int> {
    if openIndex == Some(index) then None else Some(index)
  }

  /** Toggling the open answer closes it and toggling any other opens exactly that one;
      from a closed accordion, toggling the same answer twice closes it again. */
  lemma ToggleSpec(openIndex: Option<int>, index: int)
    ensures openIndex == Some(index) ==> Toggled(openIndex, index) == None
    ensures openIndex != Some(index) ==> Toggled(openIndex, index) == Some(index)
    ensures Toggled(Toggled(None, index), index) == None
    ensures forall other :: other != index ==> Toggled(openIndex, index) != Some(other)
  {
  }

  /** The page's state: the index of the open answer, if any. */
  class Accordion {
    var openIndex: Option<int>

    constructor()
      ensures openIndex == None
    {
      openIndex := None;
    }

    /** `isOpen(index)`, the test the page renders each answer with. */
    predicate IsOpen(index: int)
      reads this
    {
      openIndex == Some(index)
    }

    /** `toggleAccordion(index)` */
    method ToggleAccordion(index: int)
      modifies this
      ensures openIndex == Toggled(old(openIndex), index)
      ensures IsOpen(index) <==> !old(IsOpen(index))
      ensures forall other :: other != index ==> !IsOpen(other)
    {
      openIndex := if openIndex == Some(index) then None else Some(index);
    }
  }
}
