/** The profile page (src/pages/ProfilePage.tsx): an edit form over the signed-in user's
    names and email, merged into the session on submit. */
module ProfilePageView {
  import opened Wrappers
  import opened Types
  import opened AuthContext

  /** The three editable fields. */
  datatype ProfileForm = ProfileForm(firstName: string, lastName: string, email: string)

  datatype ProfileField = FirstName | LastName | Email

  /** The form's first value: the user's fields, or `''` with no user. */
  function InitialForm(user: Option<User>): (f: ProfileForm)
    ensures user.None? ==> f == ProfileForm("", "", "")
    ensures user.Some? ==> f.firstName == user.value.firstName && f.lastName == user.value.lastName && f.email == user.value.email
  {
    if user.Some? then ProfileForm(user.value.firstName, user.value.lastName, user.value.email)
    else ProfileForm("", "", "")
  }

  /** `{ ...prev, [name]: value }` on the form. */
  function WithField(form: ProfileForm, field: ProfileField, value: string): (r: ProfileForm)
    ensures field == FirstName ==> r == form.(firstName := value)
    ensures field == LastName ==> r == form.(lastName := value)
    ensures field == Email ==> r == form.(email := value)
  {
    match field
    case FirstName => form.(firstName := value)
    case LastName => form.(lastName := value)
    case Email => form.(email := value)
  }

  /** `{ ...user, ...formData }`: the user with the form's three fields written over theirs. */
  function Merge(user: User, form: ProfileForm): User {
    user.(firstName := form.firstName, lastName := form.lastName, email := form.email)
  }

  /** The merge takes the form's names and email and keeps every other field of the user. */
  lemma MergeKeepsTheRest(user: User, form: ProfileForm)
    ensures var m := Merge(user, form);
      m.firstName == form.firstName && m.lastName == form.lastName && m.email == form.email &&
      m.id == user.id && m.avatar == user.avatar && m.addresses == user.addresses &&
      m.paymentMethods == user.paymentMethods && m.orders == user.orders
  {
  }

  /** Submitting the form as it was first filled in gives back the same user. */
  lemma UnchangedFormIsNoOp(user: User)
    ensures Merge(user, InitialForm(Some(user))) == user
  {
  }

  /** The merged user fills the form with exactly the submitted values. */
  lemma MergeThenRead(user: User, form: ProfileForm)
    ensures InitialForm(Some(Merge(user, form))) == form
  {
  }

  class ProfilePage {
    var isEditing: bool
    var formData: ProfileForm

    constructor (user: Option<User>)
      ensures !isEditing && formData == InitialForm(user)
    {
      isEditing := false;
      formData := InitialForm(user);
    }

    /** The Edit / Cancel button. */
    method ToggleEditing()
      modifies this`isEditing
      ensures isEditing == !old(isEditing)
    {
      isEditing := !isEditing;
    }

    /** `handleChange`: only the named field changes. */
    method HandleChange(field: ProfileField, value: string)
      modifies this`formData
      ensures formData == WithField(old(formData), field, value)
    {
      formData := WithField(formData, field, value);
    }

    /** `handleSubmit`: with a signed-in user, store the merged record as the session and
        leave edit mode; with none, do nothing. */
    method HandleSubmit(auth: AuthProvider)
      modifies this`isEditing, auth
      ensures old(auth.user).None? ==> isEditing == old(isEditing) && auth.user == None && auth.storage == old(auth.storage)
      ensures old(auth.user).Some? ==>
        !isEditing && auth.user == Some(Merge(old(auth.user).value, formData)) && auth.storage == Parsed(auth.user.value)
      ensures auth.users == old(auth.users) && auth.isLoading == old(auth.isLoading)
    {
      if auth.user.Some? {
        auth.UpdateUser(Merge(auth.user.value, formData));
        isEditing := false;
      }
    }
  }
}
