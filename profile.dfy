/** The profile form: its validation rules and its default values. */
module Profile {
  import opened Wrappers
  import opened Schema
  import App

  /** The age field after numeric coercion: a finite number, NaN, or an infinity. */
  datatype AgeValue = Finite(x: real) | NaN | PosInfinity | NegInfinity

  datatype ProfileForm = ProfileForm(age: AgeValue, college: string, department: string)

  /** One rejected field and its message. */
  datatype Issue = Issue(field: string, message: string)

  function AgeIssues(age: AgeValue): (r: seq<Issue>)
    ensures r == [] <==> age.Finite? && 16.0 <= age.x <= 100.0
    ensures |r| <= 1
  {
    match age
    case NaN => [Issue("age", "Expected number, received nan")]
    case NegInfinity => [Issue("age", "Must be at least 16")]
    case PosInfinity => [Issue("age", "Invalid age")]
    case Finite(x) =>
      if x < 16.0 then [Issue("age", "Must be at least 16")]
      else if x > 100.0 then [Issue("age", "Invalid age")]
      else []
  }

  /** `profileSchema`: every failing field is reported, in field order. */
  function Validate(f: ProfileForm): (issues: seq<Issue>)
    ensures issues == [] <==> f.age.Finite? && 16.0 <= f.age.x <= 100.0 && |f.college| >= 2 && |f.department| >= 2
    ensures Issue("college", "College name required") in issues <==> |f.college| < 2
    ensures Issue("department", "Department required") in issues <==> |f.department| < 2
    ensures (exists m :: Issue("age", m) in issues) <==> !(f.age.Finite? && 16.0 <= f.age.x <= 100.0)
  {
    var a := AgeIssues(f.age);
    var r := a
      + (if |f.college| < 2 then [Issue("college", "College name required")] else [])
      + (if |f.department| < 2 then [Issue("department", "Department required")] else []);
    assert a != [] ==> Issue("age", a[0].message) == r[0];
    r
  }

  /** An accepted profile, stored on the user, passes the route guard's
      profile rule: lengths of at least two make both fields present. */
  lemma AcceptedProfileIsComplete(f: ProfileForm, u: User)
    requires Validate(f) == []
    ensures App.ProfileComplete(u.(college := Some(f.college), department := Some(f.department)))
  {
  }

  /** The initial values of the form. */
  datatype FormDefaults = FormDefaults(age: Option<int>, college: string, department: string)

  /** `user?.age || undefined`, `user?.college || ""`, `user?.department || ""`. */
  function Defaults(user: Option<User>): (d: FormDefaults)
    ensures user.None? ==> d == FormDefaults(None, "", "")
    ensures d.age.Some? <==> user.Some? && user.value.age.Some? && user.value.age.value != 0
    ensures d.age.Some? ==> d.age == user.value.age
    ensures user.Some? && App.Present(user.value.college) ==> d.college == user.value.college.value
    ensures !(user.Some? && App.Present(user.value.college)) ==> d.college == ""
    ensures user.Some? && App.Present(user.value.department) ==> d.department == user.value.department.value
    ensures !(user.Some? && App.Present(user.value.department)) ==> d.department == ""
  {
    match user
    case None => FormDefaults(None, "", "")
    case Some(u) =>
      FormDefaults(if u.age.Some? && u.age.value != 0 then u.age else None,
                   if App.Present(u.college) then u.college.value else "",
                   if App.Present(u.department) then u.department.value else "")
  }
}
