/** The report form (week4/lost-item-map/src/components/lost-item-form.tsx):
    a draft edited field by field, and a submit handler that builds the record
    from the draft and the location chosen on the map. */
module Form {
  import opened Types

  /** The `formData` draft. */
  datatype FormData = FormData(title: string, description: string, category: Category, contactInfo: string)

  /** The draft a freshly mounted form starts from. */
  const InitialDraft: FormData := FormData("", "", Other, "")

  /** The submit button is enabled exactly when a location has been chosen. */
  predicate SubmitEnabled(selectedLocation: Option<LngLat>)
  {
    selectedLocation.Some?
  }

  /** The three fields marked `required`, which the browser checks before it
      lets the form submit. */
  predicate RequiredFilled(d: FormData)
  {
    d.title != "" && d.description != "" && d.contactInfo != ""
  }

  class ReportForm {
    var formData: FormData

    constructor ()
      ensures formData == InitialDraft
      ensures formData.title == "" && formData.description == "" && formData.contactInfo == ""
      ensures formData.category == Other
    {
      formData := InitialDraft;
    }

    method SetTitle(value: string)
      modifies this
      ensures formData == old(formData).(title := value)
    {
      formData := formData.(title := value);
    }

    method SetDescription(value: string)
      modifies this
      ensures formData == old(formData).(description := value)
    {
      formData := formData.(description := value);
    }

    method SetCategory(value: Category)
      modifies this
      ensures formData == old(formData).(category := value)
    {
      formData := formData.(category := value);
    }

    method SetContactInfo(value: string)
      modifies this
      ensures formData == old(formData).(contactInfo := value)
    {
      formData := formData.(contactInfo := value);
    }

    /** `handleSubmit`: with no location chosen nothing is reported; otherwise
        the record reported through `onSubmit` carries the draft's text fields
        and category unchanged, the chosen `[lng, lat]` stored as `{lat, lng}`,
        the supplied timestamp, and the status '未返却'. */
    method HandleSubmit(selectedLocation: Option<LngLat>, now: string) returns (submitted: Option<ItemReport>)
      requires RequiredFilled(formData)
      ensures submitted.Some? <==> SubmitEnabled(selectedLocation)
      ensures submitted.Some? ==>
        && submitted.value.title == formData.title
        && submitted.value.description == formData.description
        && submitted.value.category == formData.category
        && submitted.value.contactInfo == formData.contactInfo
        && submitted.value.foundAt == now
        && submitted.value.status == Unreturned
        && MarkerPosition(submitted.value.location) == selectedLocation.value
      ensures submitted.Some? ==> submitted.value.title != "" && submitted.value.description != "" && submitted.value.contactInfo != ""
    {
      if selectedLocation.None? {
        return None;
      }
      var p := selectedLocation.value;
      submitted := Some(ItemReport(
        formData.title,
        formData.description,
        Location(p.1, p.0),
        formData.category,
        now,
        formData.contactInfo,
        Unreturned));
    }
  }
}
