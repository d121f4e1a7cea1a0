/** The report form: its state fields, the contact-number field handler,
    the profile pre-fill, and submission with its guard, request body and
    reset. */
module CreateReport {
  import opened Wrappers
  import opened Text
  import opened ContactNumber

  /** A position fix, each coordinate already rendered as the decimal text
      the request carries. */
  datatype Position = Position(latitude: string, longitude: string)

  /** The fields of the signed-in user's stored profile that the form
      reads; any of them may be missing. */
  datatype UserProfile = UserProfile(
    firstName: Option<string>,
    middleInitial: Option<string>,
    lastName: Option<string>,
    location: Option<string>,
    contactNumber: Option<string>)

  /** One part of the multipart request body. */
  datatype FieldValue = TextValue(text: string) | PhotoFile(uri: string, mimeType: string, fileName: string)
  datatype FormField = FormField(name: string, value: FieldValue)

  /** How the report-creation request ends: created; failed with an HTTP
      error whose body may carry an `error` text; or failed otherwise. */
  datatype SubmitResult = Created | RequestError(error: Option<string>) | UnexpectedError

  datatype Alert = Alert(title: string, message: string)

  /** Every form field of the screen except the `loading` flag. */
  datatype Draft = Draft(
    firstName: string,
    middleName: string,
    lastName: string,
    contactNumber: string,
    displayContactNumber: string,
    description: string,
    landmark: string,
    location: string,
    userLocation: string,
    photoUri: Option<string>,
    currentLocation: Option<Position>)

  /** The form right after a successful submission: everything is blank
      except the registered location, which is kept. */
  function ClearedDraft(userLocation: string): Draft {
    Draft("", "", "", "", "", "", "", "", userLocation, None, None)
  }

  /** Submission needs a photo (an empty URI counts as none) and a
      position fix. */
  predicate Submittable(d: Draft) {
    d.photoUri.Some? && d.photoUri.value != [] && d.currentLocation.Some?
  }

  /** A form cleared after a successful submission cannot be submitted
      again until a new photo and position fix are taken. */
  lemma ClearedNotSubmittable(userLocation: string)
    ensures !Submittable(ClearedDraft(userLocation))
  {
  }

  /** Names of the request's parts, in the order they are appended. */
  const FieldNames: seq<string> := ["firstName", "middleName", "lastName", "contact", "description",
    "landmark", "location", "userLocation", "latitude", "longitude", "photo"]

  /** The multipart body of a report built from a submittable draft. */
  function ReportPayload(d: Draft): (r: seq<FormField>)
    requires Submittable(d)
    ensures |r| == |FieldNames| && forall i :: 0 <= i < |r| ==> r[i].name == FieldNames[i]
    ensures r[3].value == TextValue(WithCountryCode(d.contactNumber))
    ensures r[7].value == TextValue(d.userLocation)
    ensures r[10].value == PhotoFile(d.photoUri.value, "image/jpeg", "photo.jpg")
    ensures forall i :: 0 <= i < |r| - 1 ==> r[i].value.TextValue?
  {
    var r := [ FormField("firstName", TextValue(d.firstName)),
      FormField("middleName", TextValue(d.middleName)),
      FormField("lastName", TextValue(d.lastName)),
      FormField("contact", TextValue(WithCountryCode(d.contactNumber))),
      FormField("description", TextValue(d.description)),
      FormField("landmark", TextValue(d.landmark)),
      FormField("location", TextValue(d.location)),
      FormField("userLocation", TextValue(Or(Some(d.userLocation), ""))),
      FormField("latitude", TextValue(d.currentLocation.value.latitude)),
      FormField("longitude", TextValue(d.currentLocation.value.longitude)),
      FormField("photo", PhotoFile(d.photoUri.value, "image/jpeg", "photo.jpg")) ];
    r
  }

  /** The alert shown once the request has come back. */
  function ResultAlert(result: SubmitResult): (a: Alert)
    ensures a.title == "Success" <==> result.Created?
    ensures result.Created? ==> a == Alert("Success", "Report submitted!")
    ensures result.RequestError? ==> a.title == "Error" && a.message == Or(result.error, "An error occurred")
    ensures result.UnexpectedError? ==> a == Alert("Error", "Unexpected error occurred")
  {
    match result
    case Created => Alert("Success", "Report submitted!")
    case RequestError(e) => Alert("Error", Or(e, "An error occurred"))
    case UnexpectedError => Alert("Error", "Unexpected error occurred")
  }

  const MissingInfo := Alert("Missing Info", "Please take a photo and get your location.")

  /** The display text for `n`, built as the screen builds it: start from
      `n`, regroup after the third character when longer than three, and
      regroup again after the sixth when longer than six. */
  method FormatDisplay(n: string) returns (formatted: string)
    ensures formatted == Grouped(n)
  {
    formatted := n;
    if |n| > 3 {
      formatted := n[..3] + " " + n[3..];
    }
    if |n| > 6 {
      formatted := n[..3] + " " + n[3..6] + " " + n[6..];
    }
  }

  /** Appends the parts of the request one by one, as the screen does. */
  method BuildForm(d: Draft) returns (form: seq<FormField>)
    requires Submittable(d)
    ensures form == ReportPayload(d)
  {
    form := [];
    form := form + [FormField("firstName", TextValue(d.firstName))];
    form := form + [FormField("middleName", TextValue(d.middleName))];
    form := form + [FormField("lastName", TextValue(d.lastName))];
    form := form + [FormField("contact", TextValue(CountryCode + d.contactNumber))];
    form := form + [FormField("description", TextValue(d.description))];
    form := form + [FormField("landmark", TextValue(d.landmark))];
    form := form + [FormField("location", TextValue(d.location))];
    form := form + [FormField("userLocation", TextValue(Or(Some(d.userLocation), "")))];
    form := form + [FormField("latitude", TextValue(d.currentLocation.value.latitude))];
    form := form + [FormField("longitude", TextValue(d.currentLocation.value.longitude))];
    form := form + [FormField("photo", PhotoFile(d.photoUri.value, "image/jpeg", "photo.jpg"))];
  }

  class ReportForm {
    var firstName: string
    var middleName: string
    var lastName: string
    var contactNumber: string
    var displayContactNumber: string
    var description: string
    var landmark: string
    var location: string
    var userLocation: string
    var photoUri: Option<string>
    var currentLocation: Option<Position>
    var loading: bool

    /** The shown number is always the grouping of the stored one, and at
        most ten characters are stored. */
    ghost predicate Valid()
      reads this
    {
      |contactNumber| <= MaxDigits && displayContactNumber == Grouped(contactNumber)
    }

    function Snapshot(): Draft
      reads this
    {
      Draft(firstName, middleName, lastName, contactNumber, displayContactNumber, description,
            landmark, location, userLocation, photoUri, currentLocation)
    }

    constructor ()
      ensures Valid() && !loading
      ensures Snapshot() == ClearedDraft("")
    {
      firstName, middleName, lastName := "", "", "";
      contactNumber, displayContactNumber := "", "";
      description, landmark, location, userLocation := "", "", "", "";
      photoUri, currentLocation := None, None;
      loading := false;
    }

    /** The contact field's change handler: only the digits of the typed
        text are considered; up to ten of them are stored and shown
        grouped, and a longer digit string changes nothing. */
    method EditContact(text: string)
      requires Valid()
      modifies this`contactNumber, this`displayContactNumber
      ensures Valid()
      ensures |KeepDigits(text)| <= MaxDigits ==>
        contactNumber == KeepDigits(text) && displayContactNumber == Grouped(contactNumber) &&
        RemoveSpaces(displayContactNumber) == contactNumber
      ensures |KeepDigits(text)| > MaxDigits ==>
        contactNumber == old(contactNumber) && displayContactNumber == old(displayContactNumber)
    {
      var numericText := KeepDigits(text);
      if |numericText| <= MaxDigits {
        contactNumber := numericText;
        var formatted := FormatDisplay(numericText);
        displayContactNumber := formatted;
        assert ' ' !in numericText by {
          assert forall i :: 0 <= i < |numericText| ==> IsDigit(numericText[i]);
        }
        GroupedRoundTrip(numericText);
      }
    }

    /** Pre-fill from the stored profile (`None` when there is no token, no
        profile, or the fetch failed): names and registered location are
        copied, missing ones as empty text; the contact fields change only
        for an eleven-character number starting with `0`. */
    method ApplyProfile(profile: Option<UserProfile>)
      requires Valid()
      modifies this`firstName, this`middleName, this`lastName, this`userLocation,
               this`contactNumber, this`displayContactNumber
      ensures Valid()
      ensures profile.None? ==> Snapshot() == old(Snapshot())
      ensures profile.Some? ==>
        var u := profile.value;
        firstName == Or(u.firstName, "") && middleName == Or(u.middleInitial, "") &&
        lastName == Or(u.lastName, "") && userLocation == Or(u.location, "")
      ensures profile.Some? ==>
        match PrefillDigits(Or(profile.value.contactNumber, ""))
        case Some(n) => contactNumber == n && displayContactNumber == Grouped(n)
        case None => contactNumber == old(contactNumber) && displayContactNumber == old(displayContactNumber)
    {
      if profile.None? {
        return;
      }
      var u := profile.value;
      firstName := Or(u.firstName, "");
      middleName := Or(u.middleInitial, "");
      lastName := Or(u.lastName, "");
      userLocation := Or(u.location, "");
      var contact := Or(u.contactNumber, "");
      if |contact| > 0 && contact[0] == '0' && |contact| == 11 {
        var numberWithoutZero := contact[1..];
        contactNumber := numberWithoutZero;
        var formatted := FormatDisplay(numberWithoutZero);
        displayContactNumber := formatted;
      }
    }

    /** A photo was taken; `uri` is where the camera stored it. */
    method PhotoTaken(uri: string)
      modifies this`photoUri
      ensures photoUri == Some(uri)
    {
      photoUri := Some(uri);
    }

    /** A position fix was obtained; `address` is the address text made
        from the first reverse-geocoding result, when there is one. */
    method PositionFixed(p: Position, address: Option<string>)
      modifies this`currentLocation, this`location
      ensures currentLocation == Some(p)
      ensures location == if address.Some? then address.value else old(location)
    {
      currentLocation := Some(p);
      if address.Some? {
        location := address.value;
      }
    }

    /** Blanks every form field except the registered location. */
    method ClearFields()
      modifies this`firstName, this`middleName, this`lastName, this`contactNumber,
               this`displayContactNumber, this`description, this`landmark, this`location,
               this`photoUri, this`currentLocation
      ensures Valid()
      ensures Snapshot() == ClearedDraft(userLocation)
    {
      firstName, middleName, lastName := "", "", "";
      contactNumber, displayContactNumber := "", "";
      description, landmark, location := "", "", "";
      photoUri, currentLocation := None, None;
    }

    /** Submit handler. Without a photo and a position fix nothing is sent
        and nothing changes. Otherwise the report body is sent; on success
        every field is cleared except the registered location, on failure
        the fields are kept; either way `loading` ends false. */
    method Submit(result: SubmitResult) returns (sent: Option<seq<FormField>>, alert: Alert)
      requires Valid()
      modifies this
      ensures Valid()
      ensures sent.Some? <==> Submittable(old(Snapshot()))
      ensures !Submittable(old(Snapshot())) ==>
        alert == MissingInfo && Snapshot() == old(Snapshot()) && loading == old(loading)
      ensures Submittable(old(Snapshot())) ==>
        sent == Some(ReportPayload(old(Snapshot()))) && alert == ResultAlert(result) && !loading
      ensures Submittable(old(Snapshot())) && result.Created? ==>
        Snapshot() == ClearedDraft(old(userLocation))
      ensures Submittable(old(Snapshot())) && !result.Created? ==>
        Snapshot() == old(Snapshot())
    {
      if photoUri.None? || photoUri.value == [] || currentLocation.None? {
        alert := MissingInfo;
        sent := None;
        return;
      }
      loading := true;
      var form := BuildForm(Snapshot());
      sent := Some(form);
      alert := ResultAlert(result);
      if result.Created? {
        ClearFields();
      }
      loading := false;
    }
  }
}
