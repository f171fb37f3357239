/** The incident report form of mobile/components/report/ReportScreen.tsx: the
    `formData` record and the picked image, replaced field by field by the
    screen's handlers, the submit check, and the camera permission flow. The
    camera and permission APIs are parameters: their answers are given. */
module ReportScreen {
  import opened Wrappers

  /** `incidentTypes`: the choices the type picker offers. */
  const IncidentTypes: seq<string> :=
    ["Theft", "Robbery", "Assault", "Vandalism", "Harassment", "Drug Activity",
     "Burglary", "Vehicle Crime", "Suspicious Activity", "Other"]

  datatype FormData = FormData(
    incidentType: string,
    date: string,
    time: string,
    location: string,
    description: string,
    witnesses: string,
    anonymous: bool,
    name: string,
    phone: string,
    email: string)

  /** The form's text inputs (the type is chosen through the picker instead). */
  datatype TextInput = DateInput | TimeInput | LocationInput | WitnessesInput | DescriptionInput
                     | NameInput | PhoneInput | EmailInput

  /** The value a text input shows. */
  function TextOf(f: FormData, input: TextInput): string {
    match input
    case DateInput => f.date
    case TimeInput => f.time
    case LocationInput => f.location
    case WitnessesInput => f.witnesses
    case DescriptionInput => f.description
    case NameInput => f.name
    case PhoneInput => f.phone
    case EmailInput => f.email
  }

  /** `{ ...formData, <field>: text }`: only that input's field changes. */
  function WithText(f: FormData, input: TextInput, text: string): (r: FormData)
    ensures TextOf(r, input) == text
    ensures forall other :: other != input ==> TextOf(r, other) == TextOf(f, other)
    ensures r.incidentType == f.incidentType && r.anonymous == f.anonymous
  {
    match input
    case DateInput => f.(date := text)
    case TimeInput => f.(time := text)
    case LocationInput => f.(location := text)
    case WitnessesInput => f.(witnesses := text)
    case DescriptionInput => f.(description := text)
    case NameInput => f.(name := text)
    case PhoneInput => f.(phone := text)
    case EmailInput => f.(email := text)
  }

  /** Typing into an input and then typing its old text back restores the form. */
  lemma WithTextRestores(f: FormData, input: TextInput, text: string)
    ensures WithText(WithText(f, input, text), input, TextOf(f, input)) == f
  {
  }

  /** The submit check: the incident type, the location and the description must
      be non-empty; no other field is looked at, whatever the anonymity switch. */
  function SubmitVerdict(f: FormData): (v: Verdict)
    ensures v.Rejected? <==> f.incidentType == "" || f.location == "" || f.description == ""
    ensures v.Rejected? ==> v.message == "Please fill in all required fields"
  {
    if f.incidentType == "" || f.location == "" || f.description == "" then
      Rejected("Please fill in all required fields")
    else Accepted
  }

  /** Two forms that agree on the three required fields get the same verdict:
      date, time, witnesses, anonymity and the contact fields never matter. */
  lemma SubmitIgnoresOtherFields(f: FormData, g: FormData)
    requires f.incidentType == g.incidentType && f.location == g.location && f.description == g.description
    ensures SubmitVerdict(f) == SubmitVerdict(g)
  {
  }

  /** `!formData.anonymous && (...)`: the name, phone and email inputs are on
      screen. */
  predicate ShowsContactInputs(f: FormData) {
    !f.anonymous
  }

  /** Switching anonymity off puts the contact inputs on screen, yet the
      verdict stays what it was with them left empty: the check never reads
      them. */
  lemma ContactInputsShownButUnchecked(f: FormData, name: string, phone: string, email: string)
    ensures ShowsContactInputs(f.(anonymous := false))
    ensures SubmitVerdict(f.(anonymous := false, name := name, phone := phone, email := email))
         == SubmitVerdict(f.(anonymous := false, name := "", phone := "", email := ""))
    ensures SubmitVerdict(f.(anonymous := false, name := "", phone := "", email := "")) == SubmitVerdict(f)
  {
    SubmitIgnoresOtherFields(f.(anonymous := false, name := name, phone := phone, email := email),
                             f.(anonymous := false, name := "", phone := "", email := ""));
  }

  /** A non-anonymous report with empty contact fields passes the check. */
  lemma MissingContactAccepted()
    ensures SubmitVerdict(FormData("Theft", "", "", "Half Way Tree", "Phone taken", "", false, "", "", "")) == Accepted
  {
  }

  /** `cameraPermissionInformation?.status`. */
  datatype PermissionStatus = Undetermined | Denied | Granted

  /** What `launchCameraAsync` returned. */
  datatype CaptureResult = Canceled | Captured(firstAssetUri: string)

  /** `verifyPermissions`: asks when the status is undetermined and returns the
      answer; refuses (with an alert) when denied; allows otherwise, including
      before the permission hook has loaded. */
  method VerifyPermissions(info: Option<PermissionStatus>, requestGranted: bool)
    returns (allowed: bool, requested: bool, alerted: bool)
    ensures requested <==> info == Some(Undetermined)
    ensures alerted <==> info == Some(Denied)
    ensures allowed == (if info == Some(Undetermined) then requestGranted else info != Some(Denied))
  {
    requested, alerted := false, false;
    if info == Some(Undetermined) {
      requested := true;
      allowed := requestGranted;
      return;
    }
    if info == Some(Denied) {
      alerted := true;
      allowed := false;
      return;
    }
    allowed := true;
  }

  class ReportForm {
    var formData: FormData
    var showTypePicker: bool
    var pickedImage: Option<string>

    /** The form as the screen opens: every text field empty, anonymous, picker
        closed, no image. */
    constructor ()
      ensures formData == FormData("", "", "", "", "", "", true, "", "", "")
      ensures !showTypePicker && pickedImage.None?
    {
      formData := FormData("", "", "", "", "", "", true, "", "", "");
      showTypePicker := false;
      pickedImage := None;
    }

    /** Tapping the type card opens or closes the picker. */
    method ToggleTypePicker()
      modifies this
      ensures showTypePicker == !old(showTypePicker)
      ensures formData == old(formData) && pickedImage == old(pickedImage)
    {
      showTypePicker := !showTypePicker;
    }

    /** Choosing a type sets only the type and closes the picker. */
    method PickType(t: string)
      requires t in IncidentTypes
      modifies this
      ensures formData == old(formData).(incidentType := t)
      ensures !showTypePicker && pickedImage == old(pickedImage)
    {
      formData := formData.(incidentType := t);
      showTypePicker := false;
    }

    /** An `onChangeText` handler: only its own field changes. */
    method ChangeText(input: TextInput, text: string)
      modifies this
      ensures formData == WithText(old(formData), input, text)
      ensures showTypePicker == old(showTypePicker) && pickedImage == old(pickedImage)
    {
      formData := WithText(formData, input, text);
    }

    /** The anonymity switch: only `anonymous` changes. */
    method SetAnonymous(value: bool)
      modifies this
      ensures formData == old(formData).(anonymous := value)
      ensures ShowsContactInputs(formData) <==> !value
      ensures showTypePicker == old(showTypePicker) && pickedImage == old(pickedImage)
    {
      formData := formData.(anonymous := value);
    }

    /** `handleSubmit`: the verdict shown in the alert; an accepted form goes
        back (through the alert's OK button). Nothing is sent and the form is not
        changed. */
    method HandleSubmit() returns (v: Verdict, goesBack: bool)
      ensures v == SubmitVerdict(formData)
      ensures goesBack <==> v.Accepted?
    {
      v := SubmitVerdict(formData);
      goesBack := v.Accepted?;
    }

    /** `takeImageHandler`: without permission, or when the capture is
        cancelled, the picked image stays as it was; otherwise it becomes the
        first asset's uri. */
    method TakeImage(info: Option<PermissionStatus>, requestGranted: bool, capture: CaptureResult)
      returns (cameraLaunched: bool)
      modifies this
      ensures formData == old(formData) && showTypePicker == old(showTypePicker)
      ensures cameraLaunched <==> (if info == Some(Undetermined) then requestGranted else info != Some(Denied))
      ensures cameraLaunched && capture.Captured? ==> pickedImage == Some(capture.firstAssetUri)
      ensures !(cameraLaunched && capture.Captured?) ==> pickedImage == old(pickedImage)
    {
      var hasPermission, _, _ := VerifyPermissions(info, requestGranted);
      cameraLaunched := false;
      if !hasPermission {
        return;
      }
      cameraLaunched := true;
      if capture.Captured? {
        pickedImage := Some(capture.firstAssetUri);
      }
    }
  }
}
