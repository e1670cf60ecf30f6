/** The course page (src/pages/dashboard/CourseDetail.tsx): the course is looked up
    by the route's id, and the enrol and add-to-cart actions depend on its price and
    on the viewer's role. Notifications and navigation are returned as effects. */
module CourseDetail {
  import opened Types

  /** What an action asks the application to do: show a notification, or navigate
      to a path, optionally carrying a course id in the navigation state. */
  datatype Effect = Notify(message: string) | NavigateTo(path: string, courseId: Option<string>)

  /** `mockCourses.find(c => c.id === id)`, as the position of the first course with
      that id. */
  function FindIndex(catalogue: seq<Course>, id: string): (r: Option<nat>)
    ensures r.Some? ==> r.value < |catalogue| && catalogue[r.value].id == id
    ensures r.Some? ==> forall j :: 0 <= j < r.value ==> catalogue[j].id != id
    ensures r.None? <==> forall j :: 0 <= j < |catalogue| ==> catalogue[j].id != id
  {
    if catalogue == [] then None
    else if catalogue[0].id == id then Some(0)
    else match FindIndex(catalogue[1..], id)
      case None => None
      case Some(k) => Some(k + 1)
  }

  /** The course the page shows, if any. */
  function FindCourse(catalogue: seq<Course>, id: string): (r: Option<Course>)
    ensures r.None? <==> forall j :: 0 <= j < |catalogue| ==> catalogue[j].id != id
    ensures r.Some? ==> r.value in catalogue && r.value.id == id
  {
    match FindIndex(catalogue, id)
    case None => None
    case Some(k) => Some(catalogue[k])
  }

  /** The first of several courses sharing an id is the one shown. */
  lemma FindCourseTakesFirst(catalogue: seq<Course>, id: string, i: nat)
    requires i < |catalogue| && catalogue[i].id == id
    requires forall j :: 0 <= j < i ==> catalogue[j].id != id
    ensures FindCourse(catalogue, id) == Some(catalogue[i])
  {
    var k := FindIndex(catalogue, id).value;
    assert !(k < i) && !(i < k);
  }

  /** `handleEnroll`: a free course enrols at once and goes to the learner's courses;
      any other course goes to checkout carrying its id. */
  function HandleEnroll(c: Course): (effects: seq<Effect>)
    ensures |effects| > 0 && effects[|effects| - 1].NavigateTo?
    ensures var nav := effects[|effects| - 1];
      (nav.path == "/dashboard/checkout" <==> c.price != 0)
      && (nav.path == "/dashboard/my-courses" <==> c.price == 0)
      && (nav.courseId == Some(c.id) <==> c.price != 0)
      && (nav.courseId == None <==> c.price == 0)
    ensures effects[0].Notify? <==> c.price == 0
    ensures c.price == 0 ==> effects[0].message == "Successfully enrolled!" && |effects| == 2
    ensures c.price != 0 ==> |effects| == 1
  {
    if c.price == 0 then [Notify("Successfully enrolled!"), NavigateTo("/dashboard/my-courses", None)]
    else [NavigateTo("/dashboard/checkout", Some(c.id))]
  }

  /** `handleAddToCart`: only a notification; it navigates nowhere and holds no cart. */
  function HandleAddToCart(): (effects: seq<Effect>)
    ensures |effects| == 1 && effects[0].Notify?
  {
    [Notify("Course added to cart!")]
  }

  /** The price as shown: "Free" or an amount. */
  datatype PriceTag = Free | Amount(value: nat)

  /** The enrol button's label and whether "Add to Cart" is offered. */
  datatype Controls = Controls(enrollLabel: string, addToCart: bool)

  datatype DetailView =
    | CourseNotFound(backTarget: string)
    | CourseShown(course: Course, priceTag: PriceTag, controls: Option<Controls>)

  /** The page for route id `id`, seen by `user` (`None` when nobody is signed in). */
  function Render(catalogue: seq<Course>, id: string, user: Option<Role>): (v: DetailView)
    ensures v.CourseNotFound? <==> forall j :: 0 <= j < |catalogue| ==> catalogue[j].id != id
    ensures v.CourseNotFound? ==> v.backTarget == "/dashboard/courses"
    ensures v.CourseShown? ==> Some(v.course) == FindCourse(catalogue, id)
    ensures v.CourseShown? ==> (v.priceTag == Free <==> v.course.price == 0)
    ensures v.CourseShown? ==> (v.priceTag.Amount? ==> v.priceTag.value == v.course.price)
    ensures v.CourseShown? ==> (v.controls.Some? <==> user == Some(Student))
    ensures v.CourseShown? && v.controls.Some? ==>
      (v.controls.value.enrollLabel == "Enroll Now" <==> v.course.price == 0)
      && (v.controls.value.addToCart <==> v.course.price > 0)
  {
    match FindCourse(catalogue, id)
    case None => CourseNotFound("/dashboard/courses")
    case Some(c) =>
      var tag := if c.price == 0 then Free else Amount(c.price);
      var controls :=
        if user == Some(Student) then
          Some(Controls(if c.price == 0 then "Enroll Now" else "Enroll Course", c.price > 0))
        else None;
      CourseShown(c, tag, controls)
  }

  /** A student is offered "Add to Cart" exactly for the courses whose enrolment goes
      through checkout. */
  lemma AddToCartIffCheckout(catalogue: seq<Course>, id: string)
    requires Render(catalogue, id, Some(Student)).CourseShown?
    ensures var v := Render(catalogue, id, Some(Student));
      var effects := HandleEnroll(v.course);
      v.controls.Some? &&
      (v.controls.value.addToCart <==> effects[|effects| - 1].path == "/dashboard/checkout")
  {
  }
}
