/** The pagination control shared by the list pages: nothing for a single
  * page, otherwise a previous button, one button per page and a next button. */
module Pagination {

  import opened Text

  /** A previous or next button: whether it is disabled and the page it requests. */
  datatype Step = Step(disabled: bool, target: int)

  /** A page-number button and whether it is styled as the current page. */
  datatype PageButton = PageButton(page: int, active: bool)

  datatype View = View(prev: Step, pages: seq<PageButton>, next: Step)

  /** The rendered control, `None` where the component renders nothing. */
  function Render(current: int, total: int): (v: Option<View>)
    ensures v.None? <==> total <= 1
    ensures v.Some? ==> |v.value.pages| == total
    ensures v.Some? ==> (v.value.prev.disabled <==> current == 1) && (v.value.next.disabled <==> current == total)
    ensures v.Some? ==> forall b :: b in v.value.pages ==> (b.active <==> b.page == current)
  {
    if total <= 1 then None
    else Some(View(Step(current == 1, current - 1),
                   seq(total, i => PageButton(i + 1, current == i + 1)),
                   Step(current == total, current + 1)))
  }

  function PageNumbers(v: View): seq<int>
  {
    seq(|v.pages|, i requires 0 <= i < |v.pages| => v.pages[i].page)
  }

  /** The buttons are the pages 1..total, ascending and without repetition. */
  lemma PagesAreOneToTotal(current: int, total: int)
    requires total > 1
    ensures var ps := PageNumbers(Render(current, total).value);
            && |ps| == total && ps[0] == 1 && ps[total - 1] == total
            && (forall i, j :: 0 <= i < j < |ps| ==> ps[i] < ps[j])
            && (forall p :: p in ps <==> 1 <= p <= total)
  {
    var ps := PageNumbers(Render(current, total).value);
    forall p | 1 <= p <= total ensures p in ps {
      assert ps[p - 1] == p;
    }
  }

  /** Exactly one button is active when the current page is in range, none otherwise. */
  lemma ExactlyOneActive(current: int, total: int)
    requires total > 1
    ensures var bs := Render(current, total).value.pages;
            1 <= current <= total ==>
              bs[current - 1].active && forall i :: 0 <= i < |bs| && bs[i].active ==> i == current - 1
    ensures var bs := Render(current, total).value.pages;
            !(1 <= current <= total) ==> forall i :: 0 <= i < |bs| ==> !bs[i].active
  {
  }

  /** From a page in range, every enabled button requests a page in range. */
  lemma EnabledTargetsInRange(current: int, total: int)
    requires total > 1 && 1 <= current <= total
    ensures var v := Render(current, total).value;
            && (!v.prev.disabled ==> 1 <= v.prev.target <= total && v.prev.target == current - 1)
            && (!v.next.disabled ==> 1 <= v.next.target <= total && v.next.target == current + 1)
            && (forall b :: b in v.pages ==> 1 <= b.page <= total)
  {
  }
}
