/**
 * The add-user form: the required-field rules that gate submission, and the
 * record `onFinish` builds from the entered values.
 */
module UserAdd {
  import opened Wrappers

  /** The form's values; a field the user left untouched is None. */
  datatype FormValues = FormValues(username: Option<string>, age: Option<int>, gender: Option<string>, address: Option<string>)

  /** `newUserData`: the record handed to the user list. */
  datatype NewUserData = NewUserData(name: string, age: int, gender: string, address: string, tags: seq<string>, status: string)

  const DefaultAddress: string := "未填写"
  const NewUserTag: string := "新用户"
  const ActiveStatus: string := "active"

  /** Lower and upper bound of the age input. */
  const MinAge: int := 0
  const MaxAge: int := 150

  /** The form passes validation: username, age and gender are filled in; the age input keeps age in range. */
  predicate Validates(values: FormValues) {
    Present(values.username) && values.age.Some? && Present(values.gender) &&
    MinAge <= values.age.value <= MaxAge
  }

  /** `onFinish`, reached only after validation. */
  function OnFinish(values: FormValues): (d: NewUserData)
    requires Validates(values)
    ensures d.name == values.username.value && d.age == values.age.value && d.gender == values.gender.value
    ensures d.address == if Present(values.address) then values.address.value else DefaultAddress
    ensures d.address != ""
    ensures d.tags == [NewUserTag] && d.status == ActiveStatus
  {
    NewUserData(
      values.username.value,
      values.age.value,
      values.gender.value,
      if Present(values.address) then values.address.value else DefaultAddress,
      [NewUserTag],
      ActiveStatus)
  }

  /** Pressing save: the record when the form validates, nothing otherwise. */
  function Submit(values: FormValues): (r: Option<NewUserData>)
    ensures r.Some? <==> Validates(values)
    ensures r.Some? ==> r.value.name != "" && MinAge <= r.value.age <= MaxAge && r.value.address != ""
  {
    if Validates(values) then Some(OnFinish(values)) else None
  }
}
