/** The shopping cart page (src/pages/dashboard/Cart.tsx): a list of cart lines held
    as page state, a remove action that replaces the list, and the order total. */
module Cart {
  import opened Types
  import opened Seqs
  import opened Text

  /** One line of the page's cart state: a course id and the course. */
  datatype CartLine = CartLine(courseId: string, course: Course)

  /** `reduce((sum, item) => sum + item.course.price, 0)`: no price exceeds the total,
      and the total is 0 exactly when every course in the cart is free. */
  function Total(lines: seq<CartLine>): (t: nat)
    ensures forall i :: 0 <= i < |lines| ==> lines[i].course.price <= t
    ensures t == 0 <==> forall i :: 0 <= i < |lines| ==> lines[i].course.price == 0
  {
    if lines == [] then 0 else lines[0].course.price + Total(lines[1..])
  }

  function HasOtherId(courseId: string): CartLine -> bool
  {
    (line: CartLine) => line.courseId != courseId
  }

  function HasId(courseId: string): CartLine -> bool
  {
    (line: CartLine) => line.courseId == courseId
  }

  /** `cartItems.filter(item => item.courseId !== courseId)`. */
  function WithoutCourse(lines: seq<CartLine>, courseId: string): (r: seq<CartLine>)
    ensures SubsequenceOf(r, lines)
    ensures forall i :: 0 <= i < |r| ==> r[i].courseId != courseId
    ensures forall i :: 0 <= i < |lines| && lines[i].courseId != courseId ==> lines[i] in r
    ensures forall line {:trigger multiset(r)[line]} :: multiset(r)[line] == if line.courseId != courseId then multiset(lines)[line] else 0
  {
    FilterIsSubsequence(lines, HasOtherId(courseId));
    Filter(lines, HasOtherId(courseId))
  }

  /** The total splits into the lines a predicate keeps and the lines it drops. */
  lemma {:induction false} TotalSplits(lines: seq<CartLine>, courseId: string)
    ensures Total(lines) == Total(Filter(lines, HasOtherId(courseId))) + Total(Filter(lines, HasId(courseId)))
  {
    if lines != [] {
      TotalSplits(lines[1..], courseId);
    }
  }

  /** Removing a course lowers the total by exactly the prices of the removed lines. */
  lemma TotalAfterRemove(lines: seq<CartLine>, courseId: string)
    ensures Total(WithoutCourse(lines, courseId)) == Total(lines) - Total(Filter(lines, HasId(courseId)))
  {
    TotalSplits(lines, courseId);
  }

  /** Removing an id no line carries leaves the cart as it was. */
  lemma RemoveAbsentIsIdentity(lines: seq<CartLine>, courseId: string)
    requires forall i :: 0 <= i < |lines| ==> lines[i].courseId != courseId
    ensures WithoutCourse(lines, courseId) == lines
  {
    FilterKeepsAll(lines, HasOtherId(courseId));
  }

  /** Removing the same id twice is removing it once. */
  lemma RemoveIsIdempotent(lines: seq<CartLine>, courseId: string)
    ensures WithoutCourse(WithoutCourse(lines, courseId), courseId) == WithoutCourse(lines, courseId)
  {
    FilterIdempotent(lines, HasOtherId(courseId));
  }

  /** What the page renders: the empty state, which offers a way back to the
      catalogue, or the list with its order summary. */
  datatype CartView =
    | EmptyCart(browseTarget: string)
    | Summary(count: nat, noun: string, subtotal: nat, total: nat, checkoutTarget: string)

  /** The cart page's state. */
  class ShoppingCart {
    var lines: seq<CartLine>

    /** The page starts with the first two catalogue courses under ids '1' and '2'. */
    constructor (first: Course, second: Course)
      ensures lines == [CartLine("1", first), CartLine("2", second)]
    {
      lines := [CartLine("1", first), CartLine("2", second)];
    }

    /** `removeFromCart(courseId)`: keep every line whose id differs, in order, and
        report the notice the page shows. */
    method RemoveFromCart(courseId: string) returns (notice: string)
      modifies this
      ensures lines == WithoutCourse(old(lines), courseId)
      ensures forall i :: 0 <= i < |lines| ==> lines[i].courseId != courseId
      ensures Total(lines) == Total(old(lines)) - Total(Filter(old(lines), HasId(courseId)))
      ensures notice == "Course removed from cart"
    {
      TotalAfterRemove(lines, courseId);
      lines := WithoutCourse(lines, courseId);
      notice := "Course removed from cart";
    }

    /** The page: the empty state exactly when there are no lines, otherwise the
        count with its noun and the subtotal and total, which are equal (the discount
        is always 0). */
    function View(): (v: CartView)
      reads this
      ensures v.EmptyCart? <==> |lines| == 0
      ensures v.EmptyCart? ==> v.browseTarget == "/dashboard/courses"
      ensures v.Summary? ==> v.count == |lines| && (v.noun == "course" <==> |lines| == 1)
      ensures v.Summary? ==> v.subtotal == v.total == Total(lines)
      ensures v.Summary? ==> v.checkoutTarget == "/dashboard/checkout"
    {
      if |lines| == 0 then EmptyCart("/dashboard/courses")
      else Summary(|lines|, CourseNoun(|lines|), Total(lines), Total(lines), "/dashboard/checkout")
    }
  }
}
