/** The profile editor (components/EditProfileModal.tsx): a form over the
    name, bio, location and website, merged back into the user on save. */
module EditProfile {
  import opened Util
  import opened Types

  /** The form state; absent texts are shown as "". */
  datatype FormData = FormData(name: string, bio: string, location: string, website: string)

  datatype FormField = NameField | BioField | LocationField | WebsiteField

  /** The form as first shown for a user. */
  function InitialForm(user: User): (f: FormData)
    ensures f.name == user.name
    ensures f.bio == user.bio.GetOr("") && f.location == user.location.GetOr("") && f.website == user.website.GetOr("")
  {
    FormData(user.name, user.bio.GetOr(""), user.location.GetOr(""), user.website.GetOr(""))
  }

  /** `{ ...user, ...formData }`: the four form fields replace the user's,
      every other field is kept. */
  function Merged(user: User, form: FormData): (u: User)
    ensures u.name == form.name && u.bio == Some(form.bio) && u.location == Some(form.location) && u.website == Some(form.website)
    ensures u.(name := user.name, bio := user.bio, location := user.location, website := user.website) == user
  {
    user.(name := form.name, bio := Some(form.bio), location := Some(form.location), website := Some(form.website))
  }

  /** Saving an untouched form gives back the user, except that an absent
      bio, location or website comes back as "". */
  lemma UntouchedSave(user: User)
    ensures user.bio.Some? && user.location.Some? && user.website.Some? ==> Merged(user, InitialForm(user)) == user
    ensures user.bio.None? ==> Merged(user, InitialForm(user)).bio == Some("")
  {
  }

  class EditProfileModal {
    const user: User
    var formData: FormData
    var isLoading: bool
    var open: bool
    /** The forms captured by the save timers not yet fired, oldest first:
        each timer's callback holds `formData` as it was at its submit. */
    var pending: seq<FormData>

    constructor(user: User)
      ensures this.user == user && formData == InitialForm(user) && !isLoading && open && pending == []
    {
      this.user := user;
      formData := InitialForm(user);
      isLoading := false;
      open := true;
      pending := [];
    }

    /** handleChange: only the named field of the form changes. */
    method Change(field: FormField, value: string)
      modifies this
      ensures field == NameField ==> formData == old(formData).(name := value)
      ensures field == BioField ==> formData == old(formData).(bio := value)
      ensures field == LocationField ==> formData == old(formData).(location := value)
      ensures field == WebsiteField ==> formData == old(formData).(website := value)
      ensures isLoading == old(isLoading) && open == old(open) && pending == old(pending)
    {
      match field
      case NameField => formData := formData.(name := value);
      case BioField => formData := formData.(bio := value);
      case LocationField => formData := formData.(location := value);
      case WebsiteField => formData := formData.(website := value);
    }

    /** handleSubmit, before the delay: loading starts and a timer is
        scheduled whose callback keeps the form as it is now. */
    method Submit()
      modifies this
      ensures isLoading && formData == old(formData) && open == old(open)
      ensures pending == old(pending) + [old(formData)]
    {
      isLoading := true;
      pending := pending + [formData];
    }

    /** The oldest scheduled callback fires: onSave gets the user merged
        with the form captured at its submit, whatever was typed since;
        then loading stops and the dialog closes. */
    method SaveElapsed() returns (saved: User)
      requires pending != []
      modifies this
      ensures saved == Merged(user, old(pending)[0])
      ensures pending == old(pending)[1..]
      ensures !isLoading && !open && formData == old(formData)
    {
      saved := Merged(user, pending[0]);
      pending := pending[1..];
      isLoading := false;
      open := false;
    }
  }

  /** An edit made while the save is pending does not reach the saved user:
      submit, change the name, then the timer fires with the old name. */
  method EditDuringSaveIsLost(user: User, name: string) returns (saved: User)
    requires name != user.name
    ensures saved.name == user.name
  {
    var modal := new EditProfileModal(user);
    modal.Submit();
    modal.Change(NameField, name);
    saved := modal.SaveElapsed();
  }
}
